/** The redemption of a code by `verify_code`: the submitted index is stripped, looked up
    among the codes of the caller's owner, and the code is expired, refused as used, or
    marked used. Each call runs as one atomic step under the row lock it takes. */
module Redemption {
  import opened Wrappers
  import opened AccountModels
  import opened CodeModels

  /** Python's `str.isspace` for one character: the ASCII separators and controls
      0x09-0x0D and 0x1C-0x1F, the space, and the Unicode spaces. */
  predicate IsSpace(c: char) {
    || ('\U{9}' <= c <= '\U{D}') || ('\U{1C}' <= c <= '\U{20}')
    || c == '\U{85}' || c == '\U{A0}' || c == '\U{1680}' || ('\U{2000}' <= c <= '\U{200A}')
    || c == '\U{2028}' || c == '\U{2029}' || c == '\U{202F}' || c == '\U{205F}' || c == '\U{3000}'
  }

  predicate AllSpace(s: string) {
    forall i | 0 <= i < |s| :: IsSpace(s[i])
  }

  /** The end of the whitespace run of `s` that starts at `i`. */
  function SpaceRunFrom(s: string, i: nat): (n: nat)
    requires i <= |s|
    ensures i <= n <= |s|
    ensures forall k | i <= k < n :: IsSpace(s[k])
    ensures n < |s| ==> !IsSpace(s[n])
    decreases |s| - i
  {
    if i < |s| && IsSpace(s[i]) then SpaceRunFrom(s, i + 1) else i
  }

  /** The start of the whitespace run of `s` that ends at `j`, not going below `lo`. */
  function SpaceRunTo(s: string, lo: nat, j: nat): (n: nat)
    requires lo <= j <= |s|
    ensures lo <= n <= j
    ensures forall k | n <= k < j :: IsSpace(s[k])
    ensures n > lo ==> !IsSpace(s[n - 1])
    decreases j
  {
    if j > lo && IsSpace(s[j - 1]) then SpaceRunTo(s, lo, j - 1) else j
  }

  /** `str.strip()`: the text between the leading and the trailing whitespace. It is
      empty exactly for an all-whitespace input, it neither starts nor ends with
      whitespace, a text without surrounding whitespace comes back unchanged, and it is
      a slice of the input with only whitespace outside it. */
  function Strip(s: string): (r: string)
    ensures r == "" <==> AllSpace(s)
    ensures r != "" ==> !IsSpace(r[0]) && !IsSpace(r[|r| - 1])
    ensures s == [] || (!IsSpace(s[0]) && !IsSpace(s[|s| - 1])) ==> r == s
    ensures var a := SpaceRunFrom(s, 0);
      && a + |r| <= |s| && r == s[a..a + |r|]
      && forall k | 0 <= k < |s| && (k < a || a + |r| <= k) :: IsSpace(s[k])
  {
    var a := SpaceRunFrom(s, 0);
    var b := SpaceRunTo(s, a, |s|);
    assert b > a ==> s[a..b][0] == s[a] && s[a..b][b - a - 1] == s[b - 1];
    s[a..b]
  }

  /** Stripping twice strips no more than stripping once. */
  lemma StripIdempotent(s: string)
    ensures Strip(Strip(s)) == Strip(s)
  {
  }

  /** The JSON answers of `verify_code`, by outcome. Only `Activated` reports success. */
  datatype Verdict =
    | MissingIndex
    | NotFound
    | Expired(codeId: CodeId)
    | AlreadyUsed(codeId: CodeId)
    | Activated(codeId: CodeId, batchName: string, createdAt: Instant)

  predicate IsSuccess(v: Verdict) {
    v.Activated?
  }

  /** The lookup `Code.objects.get(secure_index=index, batch__created_by=owner)`. An owner
      of `None` matches the batches whose creator is NULL, as Django's `=None` filter does. */
  predicate InScope(codes: map<string, CodeRow>, batches: map<BatchId, BatchRow>, index: string, owner: Option<UserId>) {
    index in codes && codes[index].batch in batches && batches[codes[index].batch].createdBy == owner
  }

  /** The decision on one looked-up code at time `now`: expiry first, then the used check,
      then activation. */
  function Step(row: CodeRow, batchName: string, now: Instant): (r: (CodeRow, Verdict))
    ensures r.0 == row.(status := r.0.status)
    ensures now > row.expirationDate ==> r == (row.(status := Expire), Expired(row.id))
    ensures now <= row.expirationDate && row.status == Utilise ==> r == (row, AlreadyUsed(row.id))
    ensures now <= row.expirationDate && row.status != Utilise ==>
      r == (row.(status := Utilise), Activated(row.id, batchName, row.createdAt))
  {
    if now > row.expirationDate then (row.(status := Expire), Expired(row.id))
    else if row.status == Utilise then (row, AlreadyUsed(row.id))
    else (row.(status := Utilise), Activated(row.id, batchName, row.createdAt))
  }

  /** One call of `verify_code` on the code table: the new table and the answer. It keeps
      the set of codes, changes at most the row stored under the stripped index, and
      never sets a code back to `non_utilise`. */
  function Verify(codes: map<string, CodeRow>, batches: map<BatchId, BatchRow>, raw: string,
                  owner: Option<UserId>, now: Instant): (r: (map<string, CodeRow>, Verdict))
    ensures r.0.Keys == codes.Keys
    ensures forall k | k in codes && k != Strip(raw) :: r.0[k] == codes[k]
    ensures forall k | k in codes :: r.0[k] == codes[k].(status := r.0[k].status)
    ensures forall k | k in codes :: r.0[k].status == NonUtilise ==> codes[k].status == NonUtilise
  {
    var index := Strip(raw);
    if index == "" then (codes, MissingIndex)
    else if !InScope(codes, batches, index, owner) then (codes, NotFound)
    else
      var step := Step(codes[index], batches[codes[index].batch].name, now);
      (codes[index := step.0], step.1)
  }

  /** `verify_code` on the store: the code table becomes what `Verify` says, and nothing
      else in the store changes. */
  method VerifyCode(store: CodeStore, raw: string, owner: Option<UserId>, now: Instant) returns (v: Verdict)
    requires store.Valid()
    modifies store
    ensures store.Valid()
    ensures (store.codes, v) == Verify(old(store.codes), old(store.batches), raw, owner, now)
    ensures store.batches == old(store.batches)
    ensures store.nextBatchId == old(store.nextBatchId) && store.nextCodeId == old(store.nextCodeId)
  {
    var index := Strip(raw);
    if index == "" {
      return MissingIndex;
    }
    if !(index in store.codes && store.codes[index].batch in store.batches
         && store.batches[store.codes[index].batch].createdBy == owner) {
      return NotFound;
    }
    var code := store.codes[index];
    if now > code.expirationDate {
      store.SetStatus(index, Expire);
      return Expired(code.id);
    }
    if code.status == Utilise {
      assert store.codes[index := code] == store.codes;
      return AlreadyUsed(code.id);
    }
    store.SetStatus(index, Utilise);
    v := Activated(code.id, store.batches[code.batch].name, code.createdAt);
  }

  /** A blank or all-whitespace index fails without reading or changing any code. */
  lemma BlankIndexChangesNothing(codes: map<string, CodeRow>, batches: map<BatchId, BatchRow>,
                                 raw: string, owner: Option<UserId>, now: Instant)
    requires AllSpace(raw)
    ensures Verify(codes, batches, raw, owner, now) == (codes, MissingIndex)
  {
  }

  /** A code outside the caller owner's batches, or no code at all, is `NotFound` or a
      missing index, and no record changes. */
  lemma OutOfScopeChangesNothing(codes: map<string, CodeRow>, batches: map<BatchId, BatchRow>,
                                 raw: string, owner: Option<UserId>, now: Instant)
    requires !InScope(codes, batches, Strip(raw), owner)
    ensures Verify(codes, batches, raw, owner, now).0 == codes
    ensures Verify(codes, batches, raw, owner, now).1 in {MissingIndex, NotFound}
  {
  }

  /** Expiry wins: a code past its expiration date becomes `expire`, whatever its status
      was, and the call fails. The expiration instant itself is not past. */
  lemma ExpiryDominates(codes: map<string, CodeRow>, batches: map<BatchId, BatchRow>,
                        raw: string, owner: Option<UserId>, now: Instant)
    requires Strip(raw) != "" && InScope(codes, batches, Strip(raw), owner)
    ensures var row := codes[Strip(raw)];
      now > row.expirationDate ==>
        Verify(codes, batches, raw, owner, now) ==
          (codes[Strip(raw) := row.(status := Expire)], Expired(row.id))
    ensures now == codes[Strip(raw)].expirationDate ==> !Verify(codes, batches, raw, owner, now).1.Expired?
  {
    var row := codes[Strip(raw)];
    var step := Step(row, batches[row.batch].name, now);
    assert Verify(codes, batches, raw, owner, now) == (codes[Strip(raw) := step.0], step.1);
  }

  /** A code that is not expired and already `utilise` is refused and left as it is. */
  lemma UsedCodeUnchanged(codes: map<string, CodeRow>, batches: map<BatchId, BatchRow>,
                          raw: string, owner: Option<UserId>, now: Instant)
    requires Strip(raw) != "" && InScope(codes, batches, Strip(raw), owner)
    requires now <= codes[Strip(raw)].expirationDate && codes[Strip(raw)].status == Utilise
    ensures Verify(codes, batches, raw, owner, now) == (codes, AlreadyUsed(codes[Strip(raw)].id))
  {
    assert codes[Strip(raw) := codes[Strip(raw)]] == codes;
  }

  /** A call succeeds exactly when the index finds a code of the caller's owner that is
      not past its date and not `utilise`; that code alone becomes `utilise`. */
  lemma SuccessExactlyWhenRedeemable(codes: map<string, CodeRow>, batches: map<BatchId, BatchRow>,
                                     raw: string, owner: Option<UserId>, now: Instant)
    ensures IsSuccess(Verify(codes, batches, raw, owner, now).1) <==>
      && Strip(raw) != ""
      && InScope(codes, batches, Strip(raw), owner)
      && now <= codes[Strip(raw)].expirationDate
      && codes[Strip(raw)].status != Utilise
    ensures IsSuccess(Verify(codes, batches, raw, owner, now).1) ==>
      Verify(codes, batches, raw, owner, now).0 == codes[Strip(raw) := codes[Strip(raw)].(status := Utilise)]
  {
  }

  /** One call of `verify_code`: the submitted index, the caller's owner, the clock. */
  datatype Call = Call(raw: string, owner: Option<UserId>, at: Instant)

  /** Calls of `verify_code` one after the other, by any callers, each on the table the
      previous one left. */
  function RunVerify(codes: map<string, CodeRow>, batches: map<BatchId, BatchRow>, calls: seq<Call>): (vs: seq<Verdict>)
    ensures |vs| == |calls|
    decreases |calls|
  {
    if calls == [] then []
    else
      var first := Verify(codes, batches, calls[0].raw, calls[0].owner, calls[0].at);
      [first.1] + RunVerify(first.0, batches, calls[1..])
  }

  function Successes(vs: seq<Verdict>): nat
    decreases |vs|
  {
    if vs == [] then 0 else (if IsSuccess(vs[0]) then 1 else 0) + Successes(vs[1..])
  }

  /** The clocks of the calls do not run backwards. */
  predicate NonDecreasing(calls: seq<Call>) {
    forall i, j | 0 <= i <= j < |calls| :: calls[i].at <= calls[j].at
  }

  /** Every call submits a text that strips to `index`. */
  predicate SameIndex(calls: seq<Call>, index: string) {
    forall i | 0 <= i < |calls| :: Strip(calls[i].raw) == index
  }

  /** The code under `index` can no longer be activated by calls from instant `t` on. */
  predicate Spent(codes: map<string, CodeRow>, index: string, t: Instant) {
    index in codes ==>
      codes[index].status == Utilise || (codes[index].status == Expire && codes[index].expirationDate < t)
  }

  /** A successful call leaves the code it activated `utilise`, so spent. */
  lemma SuccessSpends(codes: map<string, CodeRow>, batches: map<BatchId, BatchRow>, raw: string,
                      owner: Option<UserId>, now: Instant)
    ensures var r := Verify(codes, batches, raw, owner, now);
      IsSuccess(r.1) ==> Strip(raw) in r.0 && r.0[Strip(raw)].status == Utilise
    ensures var r := Verify(codes, batches, raw, owner, now);
      IsSuccess(r.1) ==> Spent(r.0, Strip(raw), now)
  {
  }

  /** A call on a spent code does not succeed, and the code stays spent for later calls. */
  lemma SpentStays(codes: map<string, CodeRow>, batches: map<BatchId, BatchRow>, raw: string,
                   owner: Option<UserId>, now: Instant, t: Instant)
    requires Spent(codes, Strip(raw), t) && t <= now
    ensures var r := Verify(codes, batches, raw, owner, now);
      !IsSuccess(r.1) && Spent(r.0, Strip(raw), now)
  {
  }

  /** The first call, and the calls after it. */
  lemma RunVerifyCons(codes: map<string, CodeRow>, batches: map<BatchId, BatchRow>, calls: seq<Call>)
    requires calls != []
    ensures var first := Verify(codes, batches, calls[0].raw, calls[0].owner, calls[0].at);
      Successes(RunVerify(codes, batches, calls)) ==
        (if IsSuccess(first.1) then 1 else 0) + Successes(RunVerify(first.0, batches, calls[1..]))
  {
    var first := Verify(codes, batches, calls[0].raw, calls[0].owner, calls[0].at);
    var vs := RunVerify(codes, batches, calls);
    assert vs == [first.1] + RunVerify(first.0, batches, calls[1..]);
    assert vs[1..] == RunVerify(first.0, batches, calls[1..]);
  }

  /** The calls after the first keep the index and the clock order, and come no earlier. */
  lemma CallsTail(calls: seq<Call>, index: string)
    requires calls != [] && SameIndex(calls, index) && NonDecreasing(calls)
    ensures Strip(calls[0].raw) == index
    ensures SameIndex(calls[1..], index) && NonDecreasing(calls[1..])
    ensures forall i | 0 <= i < |calls[1..]| :: calls[0].at <= calls[1..][i].at
  {
    var rest := calls[1..];
    forall i | 0 <= i < |rest| ensures Strip(rest[i].raw) == index && calls[0].at <= rest[i].at {
      assert rest[i] == calls[i + 1];
    }
    forall i, j | 0 <= i <= j < |rest| ensures rest[i].at <= rest[j].at {
      assert rest[i] == calls[i + 1] && rest[j] == calls[j + 1];
    }
  }

  lemma {:induction false} NoSuccessOnceSpent(codes: map<string, CodeRow>, batches: map<BatchId, BatchRow>,
                                              index: string, calls: seq<Call>, t: Instant)
    requires Spent(codes, index, t) && SameIndex(calls, index) && NonDecreasing(calls)
    requires forall i | 0 <= i < |calls| :: t <= calls[i].at
    ensures Successes(RunVerify(codes, batches, calls)) == 0
    decreases |calls|
  {
    if calls != [] {
      var c := calls[0];
      CallsTail(calls, index);
      SpentStays(codes, batches, c.raw, c.owner, c.at, t);
      RunVerifyCons(codes, batches, calls);
      var first := Verify(codes, batches, c.raw, c.owner, c.at);
      NoSuccessOnceSpent(first.0, batches, index, calls[1..], c.at);
    }
  }

  /** With a clock that does not run backwards, calls that all submit the same index
      succeed at most once, whoever makes them and whatever state the code starts in. */
  lemma {:induction false} AtMostOneSuccess(codes: map<string, CodeRow>, batches: map<BatchId, BatchRow>,
                                            index: string, calls: seq<Call>)
    requires SameIndex(calls, index) && NonDecreasing(calls)
    ensures Successes(RunVerify(codes, batches, calls)) <= 1
    decreases |calls|
  {
    if calls != [] {
      var c := calls[0];
      CallsTail(calls, index);
      RunVerifyCons(codes, batches, calls);
      var first := Verify(codes, batches, c.raw, c.owner, c.at);
      if IsSuccess(first.1) {
        SuccessSpends(codes, batches, c.raw, c.owner, c.at);
        NoSuccessOnceSpent(first.0, batches, index, calls[1..], c.at);
      } else {
        AtMostOneSuccess(first.0, batches, index, calls[1..]);
      }
    }
  }

  /** A caller without an owner, as an owner account is, looks up only the codes of
      batches without a creator: a call of theirs leaves every code of their own batches
      as it was. */
  lemma OwnerCallerLeavesOwnCodes(codes: map<string, CodeRow>, batches: map<BatchId, BatchRow>, raw: string,
                                  caller: User, now: Instant)
    requires caller.owner == None
    ensures forall k | k in codes && codes[k].batch in batches && batches[codes[k].batch].createdBy == Some(caller.id) ::
      Verify(codes, batches, raw, caller.owner, now).0[k] == codes[k]
    ensures Verify(codes, batches, raw, caller.owner, now).1.Activated? ==>
      batches[codes[Strip(raw)].batch].createdBy == None
  {
  }

  lemma StripKeepsPlainText(s: string)
    requires s != [] && !IsSpace(s[0]) && !IsSpace(s[|s| - 1])
    ensures Strip(s) == s
  {
  }

  /** On a table holding only the code `index` of a batch of the caller's owner, a call
      submitting `index` itself (no surrounding whitespace) is that code's step. */
  lemma VerifySingleCode(index: string, row: CodeRow, batches: map<BatchId, BatchRow>,
                         owner: Option<UserId>, now: Instant)
    requires index != "" && !IsSpace(index[0]) && !IsSpace(index[|index| - 1])
    requires row.batch in batches && batches[row.batch].createdBy == owner
    ensures Verify(map[index := row], batches, index, owner, now) ==
      (map[index := Step(row, batches[row.batch].name, now).0], Step(row, batches[row.batch].name, now).1)
  {
    StripKeepsPlainText(index);
    var codes := map[index := row];
    assert InScope(codes, batches, index, owner);
    var step := Step(row, batches[row.batch].name, now);
    assert codes[index := step.0] == map[index := step.0];
  }

  /** The used check compares with `utilise` only, so a code that an earlier call marked
      `expire` is activated again if the clock reads an instant not past its date: here a
      code due at 10 succeeds at 5, expires at 20, and succeeds again at 5. */
  lemma ClockRollbackReactivates()
    ensures
      var codes := map["a" := CodeRow(1, 1, "", "", NonUtilise, 0, 10)];
      var batches := map[1 := BatchRow("lot", 1, 0, Some(7), 0, Termine)];
      Successes(RunVerify(codes, batches, [Call("a", Some(7), 5), Call("a", Some(7), 20), Call("a", Some(7), 5)])) == 2
  {
    var row := CodeRow(1, 1, "", "", NonUtilise, 0, 10);
    var codes := map["a" := row];
    var batches := map[1 := BatchRow("lot", 1, 0, Some(7), 0, Termine)];
    var used := map["a" := row.(status := Utilise)];
    var expired := map["a" := row.(status := Expire)];
    VerifySingleCode("a", row, batches, Some(7), 5);
    VerifySingleCode("a", row.(status := Utilise), batches, Some(7), 20);
    VerifySingleCode("a", row.(status := Expire), batches, Some(7), 5);
    var c5, c20 := Call("a", Some(7), 5), Call("a", Some(7), 20);
    var calls := [c5, c20, c5];
    assert calls[1..] == [c20, c5] && calls[1..][1..] == [c5] && [c5][1..] == [];
    assert RunVerify(expired, batches, [c5]) == [Activated(1, "lot", 0)];
    assert RunVerify(used, batches, [c20, c5]) == [Expired(1), Activated(1, "lot", 0)];
    var vs := RunVerify(codes, batches, calls);
    assert vs == [Activated(1, "lot", 0), Expired(1), Activated(1, "lot", 0)];
    assert vs[1..] == [Expired(1), Activated(1, "lot", 0)] && vs[1..][1..] == [Activated(1, "lot", 0)];
    assert vs[1..][1..][1..] == [];
    assert Successes(vs[1..][1..]) == 1;
    assert Successes(vs[1..]) == 1;
  }
}
