/** The issuing of a batch by `batch_create`: the request is checked, then, in one
    transaction, the batch row and `quantity` codes are written and the batch is marked
    `termine`. If anything raises inside the transaction it is rolled back, and the batch
    instance, if it was created, is saved again with status `erreur`. */
module Issuance {
  import opened Wrappers
  import opened AccountModels
  import opened CodeModels

  /** The upper bound the view checks (its error message says 1000). */
  const MaxQuantity: int := 10000

  /** The last instant `datetime` can represent (9999-12-31 23:59:59 UTC), and the
      largest day count `timedelta` accepts. */
  const MaxInstant: Instant := 253402300799
  const MaxTimedeltaDays: int := 999999999

  /** The checks made before anything is written: a non-empty name and a quantity in
      1..10000. An absent name is the empty string here. */
  predicate ValidRequest(name: string, quantity: int) {
    name != "" && 0 < quantity <= MaxQuantity
  }

  /** `timezone.now() + timedelta(days=validity_days)` raises OverflowError. */
  predicate ExpirationOverflows(now: Instant, validityDays: int) {
    validityDays > MaxTimedeltaDays || now + validityDays * SecondsPerDay > MaxInstant
  }

  /** The form fields `batch_create` reads: an absent name counts as empty (and is
      refused), an absent quantity as 0 (and is refused), an absent validity as 30 days. */
  datatype BatchForm = BatchForm(name: string, quantity: int, validityDays: int)

  function ReadBatchForm(name: Option<string>, quantity: Option<int>, validityDays: Option<int>): (f: BatchForm)
    ensures ValidRequest(f.name, f.quantity) <==>
      name.Some? && name.value != "" && quantity.Some? && 0 < quantity.value <= MaxQuantity
    ensures f.validityDays == (if validityDays.Some? then validityDays.value else DefaultValidityDays)
    ensures name.Some? ==> f.name == name.value
    ensures quantity.Some? ==> f.quantity == quantity.value
  {
    BatchForm(if name.Some? then name.value else "",
              if quantity.Some? then quantity.value else 0,
              if validityDays.Some? then validityDays.value else DefaultValidityDays)
  }

  const DefaultValidityDays: int := 30

  predicate IsDigit(c: char) {
    '0' <= c <= '9'
  }

  /** The decimal digits of a batch key, as an f-string prints it. */
  function DecimalString(n: nat): (s: string)
    ensures |s| > 0
    ensures forall i | 0 <= i < |s| :: IsDigit(s[i])
    decreases n
  {
    var digit := ['0' + (n % 10) as char];
    if n < 10 then digit else DecimalString(n / 10) + digit
  }

  /** Different keys print differently. */
  lemma {:induction false} DecimalStringInjective(a: nat, b: nat)
    requires DecimalString(a) == DecimalString(b)
    ensures a == b
    decreases a
  {
    var sa, sb := DecimalString(a), DecimalString(b);
    assert sa[|sa| - 1] == sb[|sb| - 1];
    assert a % 10 == b % 10;
    if a >= 10 && b >= 10 {
      assert sa[..|sa| - 1] == DecimalString(a / 10);
      assert sb[..|sb| - 1] == DecimalString(b / 10);
      DecimalStringInjective(a / 10, b / 10);
    }
  }

  /** The message of one code: the batch key, then `unique`, which stands for the
      `uuid4()` and the ISO timestamp that follow it. */
  function Message(b: BatchId, unique: string): string {
    DecimalString(b) + ":" + unique
  }

  /** In a message, the first colon is the one right after the key. */
  lemma ColonAfterKey(b: BatchId, unique: string)
    ensures var p := DecimalString(b);
      Message(b, unique)[|p|] == ':' && forall i | 0 <= i < |p| :: Message(b, unique)[i] != ':'
  {
    var p := DecimalString(b);
    forall i | 0 <= i < |p| ensures Message(b, unique)[i] != ':' {
      assert Message(b, unique)[i] == p[i];
    }
  }

  /** Two messages are equal only for the same batch key and the same unique part: the
      key is all digits, so the first colon ends it. */
  lemma MessageInjective(b1: BatchId, u1: string, b2: BatchId, u2: string)
    requires Message(b1, u1) == Message(b2, u2)
    ensures b1 == b2 && u1 == u2
  {
    var p1, p2 := DecimalString(b1), DecimalString(b2);
    var m := Message(b1, u1);
    ColonAfterKey(b1, u1);
    ColonAfterKey(b2, u2);
    assert |p1| == |p2|;
    assert p1 == m[..|p1|] && p2 == m[..|p2|];
    DecimalStringInjective(b1, b2);
    assert u1 == m[|p1| + 1..] && u2 == m[|p2| + 1..];
  }

  /** The `secure_index` of the code created in pass `i`; `unique(i)` is that pass's
      random and time part. */
  function IndexAt(crypto: Crypto, b: BatchId, unique: nat -> string, i: nat): (index: string)
    ensures IsHexDigest(index)
  {
    Derive(crypto, Message(b, unique(i))).secureIndex
  }

  /** Every pass of the loop completes: in no pass does the QR step raise (`qrFails`), and
      no derived index is already stored or repeats an earlier pass's index. */
  predicate LoopSucceeds(crypto: Crypto, b: BatchId, unique: nat -> string, qrFails: nat -> bool,
                         quantity: nat, existing: set<string>) {
    forall i | 0 <= i < quantity ::
      && !qrFails(i)
      && IndexAt(crypto, b, unique, i) !in existing
      && forall j | 0 <= j < i :: IndexAt(crypto, b, unique, j) != IndexAt(crypto, b, unique, i)
  }

  /** Pass `i` of the loop completes. */
  predicate PassSucceeds(crypto: Crypto, b: BatchId, unique: nat -> string, qrFails: nat -> bool,
                         i: nat, existing: set<string>) {
    && !qrFails(i)
    && IndexAt(crypto, b, unique, i) !in existing
    && forall j | 0 <= j < i :: IndexAt(crypto, b, unique, j) != IndexAt(crypto, b, unique, i)
  }

  lemma LoopSucceedsStep(crypto: Crypto, b: BatchId, unique: nat -> string, qrFails: nat -> bool,
                         i: nat, existing: set<string>)
    requires LoopSucceeds(crypto, b, unique, qrFails, i, existing)
    requires PassSucceeds(crypto, b, unique, qrFails, i, existing)
    ensures LoopSucceeds(crypto, b, unique, qrFails, i + 1, existing)
  {
  }

  lemma LoopFailsAt(crypto: Crypto, b: BatchId, unique: nat -> string, qrFails: nat -> bool,
                    i: nat, quantity: nat, existing: set<string>)
    requires i < quantity && !PassSucceeds(crypto, b, unique, qrFails, i, existing)
    ensures !LoopSucceeds(crypto, b, unique, qrFails, quantity, existing)
  {
  }

  /** The code stored in pass `i` is the derived token of that pass's message, unused,
      of batch `b`, created at `now` and due at `expiration`. */
  ghost predicate IssuedCode(codes: map<string, CodeRow>, crypto: Crypto, b: BatchId,
                             unique: nat -> string, i: nat, now: Instant, expiration: Instant) {
    var index := IndexAt(crypto, b, unique, i);
    var token := Derive(crypto, Message(b, unique(i)));
    && index in codes
    && codes[index].batch == b && codes[index].status == NonUtilise
    && codes[index].createdAt == now && codes[index].expirationDate == expiration
    && codes[index].ciphertext == token.ciphertext && codes[index].signature == token.signature
  }

  /** The shared due date of a batch's codes, `validityDays` whole days after `now`: not
      before `now` for a non-negative validity, and within the range `datetime` can
      represent exactly when the addition does not overflow. */
  function Expiration(now: Instant, validityDays: int): (due: Instant)
    ensures validityDays >= 0 ==> due >= now
    ensures validityDays <= MaxTimedeltaDays ==> (due <= MaxInstant <==> !ExpirationOverflows(now, validityDays))
    ensures validityDays > 0 ==> due > now
  {
    now + validityDays * SecondsPerDay
  }

  /** One pass of the loop without its QR step: build the code instance, derive its
      fields from the pass's message, and insert it. The insert fails exactly when the
      derived index is already stored. */
  method InsertPass(store: CodeStore, crypto: Crypto, b: BatchId, unique: nat -> string, i: nat,
                    now: Instant, expiration: Instant) returns (ok: bool)
    requires store.Valid() && b in store.batches
    modifies store
    ensures store.Valid() && store.batches == old(store.batches) && store.nextBatchId == old(store.nextBatchId)
    ensures store.nextCodeId >= old(store.nextCodeId)
    ensures ok <==> IndexAt(crypto, b, unique, i) !in old(store.codes)
    ensures !ok ==> store.codes == old(store.codes)
    ensures ok ==>
      var token := Derive(crypto, Message(b, unique(i)));
      store.codes == old(store.codes)[IndexAt(crypto, b, unique, i) :=
        CodeRow(old(store.nextCodeId), b, token.ciphertext, token.signature, NonUtilise, now, expiration)]
  {
    var code := new Code(b, expiration);
    code.GenerateCryptoFields(crypto, Message(b, unique(i)));
    var saved := store.InsertCode(code, now);
    ok := saved.Ok?;
  }

  /** After `i` completed passes started from the codes `start`: the stored codes are
      `start` plus the set `added` of the indexes of passes `0..i-1`, one per pass, and
      each pass's code is stored as `IssuedCode` says. */
  ghost predicate Progress(start: map<string, CodeRow>, codes: map<string, CodeRow>, added: set<string>,
                           crypto: Crypto, b: BatchId, unique: nat -> string, i: nat,
                           now: Instant, expiration: Instant) {
    && KeysAdded(start, codes, added, crypto, b, unique, i)
    && CodesIssued(codes, added, crypto, b, unique, i, now, expiration)
  }

  /** The key part of `Progress`. */
  ghost predicate KeysAdded(start: map<string, CodeRow>, codes: map<string, CodeRow>, added: set<string>,
                            crypto: Crypto, b: BatchId, unique: nat -> string, i: nat) {
    && added !! start.Keys && codes.Keys == start.Keys + added
    && (forall k | k in start :: codes[k] == start[k])
    && Enumerates(added, crypto, b, unique, i)
  }

  /** `added` holds exactly the indexes of passes `0..i-1`, all distinct. */
  ghost predicate Enumerates(added: set<string>, crypto: Crypto, b: BatchId, unique: nat -> string, i: nat) {
    && |added| == i
    && (forall j | 0 <= j < i :: IndexAt(crypto, b, unique, j) in added)
    && (forall k | k in added :: exists j | 0 <= j < i :: IndexAt(crypto, b, unique, j) == k)
  }

  /** The content part of `Progress`. */
  ghost predicate CodesIssued(codes: map<string, CodeRow>, added: set<string>,
                              crypto: Crypto, b: BatchId, unique: nat -> string, i: nat,
                              now: Instant, expiration: Instant) {
    && added <= codes.Keys
    && (forall j | 0 <= j < i :: IssuedCode(codes, crypto, b, unique, j, now, expiration))
    && (forall k | k in added ::
          codes[k].batch == b && codes[k].status == NonUtilise && codes[k].expirationDate == expiration)
  }

  /** Pass `i`'s index is new to the stored codes exactly when it is new to `start` and
      differs from the indexes of the earlier passes. */
  lemma ProgressFresh(start: map<string, CodeRow>, codes: map<string, CodeRow>, added: set<string>,
                      crypto: Crypto, b: BatchId, unique: nat -> string, i: nat,
                      now: Instant, expiration: Instant)
    requires Progress(start, codes, added, crypto, b, unique, i, now, expiration)
    ensures IndexAt(crypto, b, unique, i) !in codes <==>
      && IndexAt(crypto, b, unique, i) !in start
      && forall j | 0 <= j < i :: IndexAt(crypto, b, unique, j) != IndexAt(crypto, b, unique, i)
  {
    var index := IndexAt(crypto, b, unique, i);
    if index in added {
      var j :| 0 <= j < i && IndexAt(crypto, b, unique, j) == index;
    }
  }

  lemma EnumeratesStep(added: set<string>, crypto: Crypto, b: BatchId, unique: nat -> string, i: nat)
    requires Enumerates(added, crypto, b, unique, i)
    requires IndexAt(crypto, b, unique, i) !in added
    ensures Enumerates(added + {IndexAt(crypto, b, unique, i)}, crypto, b, unique, i + 1)
  {
    var index := IndexAt(crypto, b, unique, i);
    assert |added + {index}| == i + 1;
    forall k | k in added + {index} ensures exists j | 0 <= j < i + 1 :: IndexAt(crypto, b, unique, j) == k {
      if k == index {
        assert IndexAt(crypto, b, unique, i) == k;
      }
    }
  }

  lemma KeysAddedStep(start: map<string, CodeRow>, codes: map<string, CodeRow>, added: set<string>,
                      crypto: Crypto, b: BatchId, unique: nat -> string, i: nat, row: CodeRow)
    requires KeysAdded(start, codes, added, crypto, b, unique, i)
    requires IndexAt(crypto, b, unique, i) !in codes
    ensures
      var index := IndexAt(crypto, b, unique, i);
      KeysAdded(start, codes[index := row], added + {index}, crypto, b, unique, i + 1)
  {
    EnumeratesStep(added, crypto, b, unique, i);
    ExtendsInsert(start, codes, added, IndexAt(crypto, b, unique, i), row);
  }

  /** Inserting a new key keeps `codes` an extension of `start` by the added keys. */
  lemma ExtendsInsert(start: map<string, CodeRow>, codes: map<string, CodeRow>, added: set<string>,
                      index: string, row: CodeRow)
    requires added !! start.Keys && codes.Keys == start.Keys + added
    requires forall k | k in start :: codes[k] == start[k]
    requires index !in codes
    ensures added + {index} !! start.Keys && codes[index := row].Keys == start.Keys + (added + {index})
    ensures forall k | k in start :: codes[index := row][k] == start[k]
  {
  }

  lemma CodesIssuedStep(codes: map<string, CodeRow>, added: set<string>,
                        crypto: Crypto, b: BatchId, unique: nat -> string, i: nat,
                        now: Instant, expiration: Instant, id: CodeId)
    requires CodesIssued(codes, added, crypto, b, unique, i, now, expiration)
    requires IndexAt(crypto, b, unique, i) !in codes
    ensures
      var index := IndexAt(crypto, b, unique, i);
      var token := Derive(crypto, Message(b, unique(i)));
      CodesIssued(codes[index := CodeRow(id, b, token.ciphertext, token.signature, NonUtilise, now, expiration)],
                  added + {index}, crypto, b, unique, i + 1, now, expiration)
  {
    var index := IndexAt(crypto, b, unique, i);
    var token := Derive(crypto, Message(b, unique(i)));
    var after := codes[index := CodeRow(id, b, token.ciphertext, token.signature, NonUtilise, now, expiration)];
    forall j | 0 <= j <= i ensures IssuedCode(after, crypto, b, unique, j, now, expiration) {
      if j < i {
        assert IssuedCode(codes, crypto, b, unique, j, now, expiration);
        assert IndexAt(crypto, b, unique, j) in codes;
      }
    }
  }

  /** Storing pass `i`'s code under its fresh index extends the progress by one pass. */
  lemma ProgressStep(start: map<string, CodeRow>, codes: map<string, CodeRow>, added: set<string>,
                     crypto: Crypto, b: BatchId, unique: nat -> string, i: nat,
                     now: Instant, expiration: Instant, id: CodeId)
    requires Progress(start, codes, added, crypto, b, unique, i, now, expiration)
    requires IndexAt(crypto, b, unique, i) !in codes
    ensures
      var index := IndexAt(crypto, b, unique, i);
      var token := Derive(crypto, Message(b, unique(i)));
      Progress(start, codes[index := CodeRow(id, b, token.ciphertext, token.signature, NonUtilise, now, expiration)],
               added + {index}, crypto, b, unique, i + 1, now, expiration)
  {
    var token := Derive(crypto, Message(b, unique(i)));
    KeysAddedStep(start, codes, added, crypto, b, unique, i,
                  CodeRow(id, b, token.ciphertext, token.signature, NonUtilise, now, expiration));
    CodesIssuedStep(codes, added, crypto, b, unique, i, now, expiration, id);
  }

  /** After the last pass, the codes of batch `b` are exactly those added, when `start`
      had none. */
  lemma ProgressDone(start: map<string, CodeRow>, codes: map<string, CodeRow>, added: set<string>,
                     crypto: Crypto, b: BatchId, unique: nat -> string, i: nat,
                     now: Instant, expiration: Instant)
    requires Progress(start, codes, added, crypto, b, unique, i, now, expiration)
    requires CodesOfBatch(start, b) == {}
    ensures CodesOfBatch(codes, b) == added
  {
    forall k | k in codes ensures k in CodesOfBatch(codes, b) <==> k in added {
      if k in start {
        assert k !in CodesOfBatch(start, b);
      }
    }
  }

  /** What a completed loop leaves, from the codes `codes0`: every earlier code is kept,
      the only new codes are those of batch `b`, there are exactly `quantity` of them, the
      code of each pass is stored as `IssuedCode` says, and all are unused and share the
      due date `expiration`. */
  ghost predicate IssuedExactly(codes0: map<string, CodeRow>, codes: map<string, CodeRow>, crypto: Crypto,
                                b: BatchId, unique: nat -> string, quantity: nat, now: Instant, expiration: Instant) {
    && (forall k | k in codes0 :: k in codes && codes[k] == codes0[k])
    && codes.Keys == codes0.Keys + CodesOfBatch(codes, b)
    && |CodesOfBatch(codes, b)| == quantity
    && (forall i | 0 <= i < quantity :: IssuedCode(codes, crypto, b, unique, i, now, expiration))
    && (forall k | k in CodesOfBatch(codes, b) ::
          codes[k].status == NonUtilise && codes[k].expirationDate == expiration)
  }

  /** One pass of the loop with its QR step, after `i` completed passes: it completes
      exactly when `PassSucceeds`, and then extends the progress by one pass. */
  method IssuePass(store: CodeStore, crypto: Crypto, b: BatchId, unique: nat -> string, qrFails: nat -> bool,
                   i: nat, now: Instant, expiration: Instant, ghost start: map<string, CodeRow>,
                   ghost added: set<string>) returns (ok: bool)
    requires store.Valid() && b in store.batches
    requires Progress(start, store.codes, added, crypto, b, unique, i, now, expiration)
    modifies store
    ensures store.Valid() && store.batches == old(store.batches) && store.nextBatchId == old(store.nextBatchId)
    ensures store.nextCodeId >= old(store.nextCodeId)
    ensures ok <==> PassSucceeds(crypto, b, unique, qrFails, i, start.Keys)
    ensures ok ==> Progress(start, store.codes, added + {IndexAt(crypto, b, unique, i)}, crypto, b, unique, i + 1,
                            now, expiration)
  {
    ghost var before := store.codes;
    ghost var id := store.nextCodeId;
    ProgressFresh(start, before, added, crypto, b, unique, i, now, expiration);
    var saved := InsertPass(store, crypto, b, unique, i, now, expiration);
    ok := saved && !qrFails(i);
    if ok {
      ProgressStep(start, before, added, crypto, b, unique, i, now, expiration, id);
    }
  }

  /** The loop of `batch_create`: `quantity` passes, each building a code of batch `b`,
      deriving its fields from a fresh message and inserting it. It stops at the first
      pass that raises; it completes exactly when `LoopSucceeds`, and then the batch has
      exactly `quantity` codes, one per pass, and no other code changed. */
  method IssueCodes(store: CodeStore, crypto: Crypto, b: BatchId, unique: nat -> string, qrFails: nat -> bool,
                    quantity: nat, now: Instant, expiration: Instant) returns (ok: bool)
    requires store.Valid() && b in store.batches && CodesOfBatch(store.codes, b) == {}
    modifies store
    ensures store.Valid() && store.batches == old(store.batches) && store.nextBatchId == old(store.nextBatchId)
    ensures store.nextCodeId >= old(store.nextCodeId)
    ensures ok <==> LoopSucceeds(crypto, b, unique, qrFails, quantity, old(store.codes).Keys)
    ensures ok ==> IssuedExactly(old(store.codes), store.codes, crypto, b, unique, quantity, now, expiration)
  {
    var i: nat := 0;
    ghost var start := store.codes;
    ghost var added: set<string> := {};
    while i < quantity
      invariant i <= quantity
      invariant store.Valid() && store.batches == old(store.batches) && store.nextBatchId == old(store.nextBatchId)
      invariant store.nextCodeId >= old(store.nextCodeId)
      invariant LoopSucceeds(crypto, b, unique, qrFails, i, start.Keys)
      invariant Progress(start, store.codes, added, crypto, b, unique, i, now, expiration)
    {
      var passed := IssuePass(store, crypto, b, unique, qrFails, i, now, expiration, start, added);
      if !passed {
        LoopFailsAt(crypto, b, unique, qrFails, i, quantity, start.Keys);
        return false;
      }
      LoopSucceedsStep(crypto, b, unique, qrFails, i, start.Keys);
      added := added + {IndexAt(crypto, b, unique, i)};
      i := i + 1;
    }
    ProgressDone(start, store.codes, added, crypto, b, unique, i, now, expiration);
    return true;
  }

  /** What `batch_create` answers: a rejected request, a completed batch, or a failure
      (with the key of the batch saved as `erreur`, if one was created). */
  datatype IssueOutcome = Invalid | Issued(batch: BatchId) | Failed(savedAs: Option<BatchId>)

  /** `batch_create` on the store. `now` is the clock for the whole request; `unique` and
      `qrFails` stand for the `uuid4()` of each pass and for a failure of QR rendering or
      image storage in a pass. */
  method BatchCreate(store: CodeStore, crypto: Crypto, name: string, quantity: int, validityDays: int,
                     creator: UserId, now: Instant, unique: nat -> string, qrFails: nat -> bool)
    returns (o: IssueOutcome)
    requires store.Valid()
    modifies store
    ensures store.Valid()
    ensures o.Invalid? <==> !ValidRequest(name, quantity)
    ensures o.Invalid? ==> store.batches == old(store.batches) && store.codes == old(store.codes)
    // A negative validity is refused by the batch insert itself: nothing is written.
    ensures o == Failed(None) <==> ValidRequest(name, quantity) && validityDays < 0
    ensures o == Failed(None) ==> store.batches == old(store.batches) && store.codes == old(store.codes)
    ensures o.Issued? <==>
      && ValidRequest(name, quantity) && validityDays >= 0 && !ExpirationOverflows(now, validityDays)
      && LoopSucceeds(crypto, old(store.nextBatchId), unique, qrFails, quantity, old(store.codes).Keys)
    // All or nothing: a failure after the batch insert leaves no code and an `erreur` batch.
    ensures o.Failed? && o.savedAs.Some? ==>
      && o.savedAs.value == old(store.nextBatchId) && o.savedAs.value !in old(store.batches)
      && store.codes == old(store.codes)
      && store.batches == old(store.batches)[o.savedAs.value :=
           BatchRow(name, quantity, validityDays, Some(creator), now, Erreur)]
    ensures o.Issued? ==>
      var expiration := Expiration(now, validityDays);
      && o.batch == old(store.nextBatchId) && o.batch !in old(store.batches)
      && store.batches == old(store.batches)[o.batch :=
           BatchRow(name, quantity, validityDays, Some(creator), now, Termine)]
      && IssuedExactly(old(store.codes), store.codes, crypto, o.batch, unique, quantity, now, expiration)
  {
    if !ValidRequest(name, quantity) {
      return Invalid;
    }
    var savedBatches, savedCodes := store.batches, store.codes;
    var created := store.CreateBatch(name, quantity, validityDays, Some(creator), now, EnCours);
    if created.Err? {
      return Failed(None);
    }
    o := CompleteBatch(store, crypto, created.value, name, quantity, validityDays, creator, now, unique, qrFails,
                       savedBatches, savedCodes);
  }

  /** The part of `batch_create` after the batch insert made batch `b` with status
      `en_cours`: the due date, the loop, and the final save of the batch, as `termine` on
      success or, after the rollback to `batches0` and `codes0`, as `erreur`. */
  method CompleteBatch(store: CodeStore, crypto: Crypto, b: BatchId, name: string, quantity: nat,
                       validityDays: nat, creator: UserId, now: Instant, unique: nat -> string,
                       qrFails: nat -> bool, batches0: map<BatchId, BatchRow>, codes0: map<string, CodeRow>)
    returns (o: IssueOutcome)
    requires store.Valid() && b !in batches0 && b < store.nextBatchId && store.codes == codes0
    requires store.batches == batches0[b := BatchRow(name, quantity, validityDays, Some(creator), now, EnCours)]
    requires forall x | x in batches0 :: x < store.nextBatchId
    requires forall k | k in codes0 :: codes0[k].batch in batches0
    modifies store
    ensures store.Valid()
    ensures o == Issued(b) || o == Failed(Some(b))
    ensures o.Issued? <==>
      !ExpirationOverflows(now, validityDays) && LoopSucceeds(crypto, b, unique, qrFails, quantity, codes0.Keys)
    ensures o.Failed? ==>
      && store.codes == codes0
      && store.batches == batches0[b := BatchRow(name, quantity, validityDays, Some(creator), now, Erreur)]
    ensures o.Issued? ==>
      && store.batches == batches0[b := BatchRow(name, quantity, validityDays, Some(creator), now, Termine)]
      && IssuedExactly(codes0, store.codes, crypto, b, unique, quantity, now, Expiration(now, validityDays))
  {
    var failedRow := BatchRow(name, quantity, validityDays, Some(creator), now, Erreur);
    if ExpirationOverflows(now, validityDays) {
      store.RollBack(batches0, codes0);
      store.SaveBatch(b, failedRow);
      return Failed(Some(b));
    }
    assert CodesOfBatch(store.codes, b) == {} by {
      forall k | k in store.codes ensures store.codes[k].batch != b {
        assert store.codes[k].batch in batches0;
      }
    }
    var ok := IssueCodes(store, crypto, b, unique, qrFails, quantity, now, Expiration(now, validityDays));
    if !ok {
      store.RollBack(batches0, codes0);
      store.SaveBatch(b, failedRow);
      return Failed(Some(b));
    }
    store.SaveBatch(b, BatchRow(name, quantity, validityDays, Some(creator), now, Termine));
    return Issued(b);
  }
}
