/** The record shapes of the code generator: batches and codes with their status
    domains and defaults, the cryptographic fields of a code and how they are derived,
    the payload a code embeds, and the tables that hold both kinds of rows. */
module CodeModels {
  import opened Wrappers
  import opened AccountModels

  type BatchId = nat
  type CodeId = nat

  /** A point in time, in whole seconds; `timedelta(days=d)` adds `d * SecondsPerDay`. */
  type Instant = int

  const SecondsPerDay: int := 86400

  /** `CodeBatch.status`: "en_cours" (the default), "termine", "erreur". */
  datatype BatchStatus = EnCours | Termine | Erreur

  /** `Code.status`: "non_utilise" (the default), "utilise", "expire". */
  datatype CodeStatus = NonUtilise | Utilise | Expire

  /** The value stored in the status column of a batch. */
  function BatchStatusValue(s: BatchStatus): string {
    match s
    case EnCours => "en_cours"
    case Termine => "termine"
    case Erreur => "erreur"
  }

  /** The value stored in the status column of a code (also the `status` tag of the
      verification responses). */
  function CodeStatusValue(s: CodeStatus): string {
    match s
    case NonUtilise => "non_utilise"
    case Utilise => "utilise"
    case Expire => "expire"
  }

  /** Validation of a batch status column value against its declared choices. */
  function ParseBatchStatus(v: string): (r: Option<BatchStatus>)
    ensures r.Some? ==> BatchStatusValue(r.value) == v
    ensures r.None? <==> v != "en_cours" && v != "termine" && v != "erreur"
  {
    if v == "en_cours" then Some(EnCours)
    else if v == "termine" then Some(Termine)
    else if v == "erreur" then Some(Erreur)
    else None
  }

  /** Validation of a code status column value against its declared choices. */
  function ParseCodeStatus(v: string): (r: Option<CodeStatus>)
    ensures r.Some? ==> CodeStatusValue(r.value) == v
    ensures r.None? <==> v != "non_utilise" && v != "utilise" && v != "expire"
  {
    if v == "non_utilise" then Some(NonUtilise)
    else if v == "utilise" then Some(Utilise)
    else if v == "expire" then Some(Expire)
    else None
  }

  /** Every status the model can hold is one of the declared choices, and is read back
      as itself. */
  lemma StatusChoicesRoundTrip(b: BatchStatus, c: CodeStatus)
    ensures ParseBatchStatus(BatchStatusValue(b)) == Some(b)
    ensures ParseCodeStatus(CodeStatusValue(c)) == Some(c)
  {
  }

  /** Characters of the standard base64 alphabet, padding included. */
  predicate IsBase64Char(c: char) {
    ('A' <= c <= 'Z') || ('a' <= c <= 'z') || ('0' <= c <= '9') || c == '+' || c == '/' || c == '='
  }

  predicate IsBase64Text(s: string) {
    forall i | 0 <= i < |s| :: IsBase64Char(s[i])
  }

  /** The text encoding the RSA service gives its ciphertexts and signatures. */
  type Base64Text = s: string | IsBase64Text(s) witness ""

  predicate IsLowerHexDigit(c: char) {
    ('0' <= c <= '9') || ('a' <= c <= 'f')
  }

  /** The shape of `hashlib.sha256(...).hexdigest()`: 64 lower-case hexadecimal digits. */
  predicate IsHexDigest(s: string) {
    |s| == 64 && forall i | 0 <= i < |s| :: IsLowerHexDigit(s[i])
  }

  type HexDigest = s: string | IsHexDigest(s) witness seq(64, _ => '0')

  /** The cryptographic primitives the code generator calls: RSA-OAEP encryption and its
      inverse, RSA-PSS signing and verification (all base64 on the wire), and the SHA-256
      hex digest. They are parameters of the model, not defined by it. */
  datatype Crypto = Crypto(
    encrypt: string -> Base64Text,
    decrypt: string -> string,
    sign: string -> Base64Text,
    verify: (string, string) -> bool,
    sha256Hex: string -> HexDigest)

  /** What the code generator relies on the RSA service for: decryption undoes
      encryption, and a signature it made verifies. */
  ghost predicate Sound(crypto: Crypto) {
    && (forall m: string :: crypto.decrypt(crypto.encrypt(m)) == m)
    && (forall m: string :: crypto.verify(m, crypto.sign(m)))
  }

  /** The three fields `generate_crypto_fields` sets on a code. */
  datatype Token = Token(ciphertext: Base64Text, signature: Base64Text, secureIndex: HexDigest)

  /** The derivation: encrypt the message, sign the ciphertext (not the message), and
      take the hex digest of the signature as the lookup key. */
  function Derive(crypto: Crypto, message: string): (t: Token)
    ensures t.ciphertext == crypto.encrypt(message)
    ensures t.signature == crypto.sign(t.ciphertext)
    ensures t.secureIndex == crypto.sha256Hex(t.signature) && |t.secureIndex| == 64
  {
    var ciphertext := crypto.encrypt(message);
    var signature := crypto.sign(ciphertext);
    Token(ciphertext, signature, crypto.sha256Hex(signature))
  }

  /** With a sound RSA service, a derived token decrypts to its message and its signature
      verifies against its ciphertext. */
  lemma DerivedTokenChecks(crypto: Crypto, message: string)
    requires Sound(crypto)
    ensures crypto.decrypt(Derive(crypto, message).ciphertext) == message
    ensures crypto.verify(Derive(crypto, message).ciphertext, Derive(crypto, message).signature)
  {
  }

  /** The lookup key depends on the signature alone. */
  lemma IndexDeterminedBySignature(crypto: Crypto, m1: string, m2: string)
    requires Derive(crypto, m1).signature == Derive(crypto, m2).signature
    ensures Derive(crypto, m1).secureIndex == Derive(crypto, m2).secureIndex
  {
  }

  /** The parts of the compact JSON payload `{"cipher":"...","sig":"..."}`. JSON needs no
      escape for a base64 string, so each value is its text between quotes. */
  const CipherOpen: string := "{\"cipher\":\""
  const SigOpen: string := "\",\"sig\":\""
  const PayloadClose: string := "\"}"

  /** The values a payload carries under its two keys. */
  datatype PayloadFields = PayloadFields(cipher: string, sig: string)

  /** The length of the longest prefix of `s` made of base64 characters. */
  function Base64Span(s: string): (n: nat)
    ensures n <= |s| && IsBase64Text(s[..n])
    ensures n < |s| ==> !IsBase64Char(s[n])
  {
    if s == [] || !IsBase64Char(s[0]) then 0
    else
      var n := 1 + Base64Span(s[1..]);
      assert s[..n] == [s[0]] + s[1..][..n - 1];
      n
  }

  /** What is left of `s` after the literal prefix `p`, if `s` starts with it. */
  function DropPrefix(p: string, s: string): (r: Option<string>)
    ensures r.Some? <==> |p| <= |s| && s[..|p|] == p
    ensures r.Some? ==> s == p + r.value
  {
    if |p| <= |s| && s[..|p|] == p then
      assert s == s[..|p|] + s[|p|..];
      Some(s[|p|..])
    else None
  }

  lemma DropPrefixOfConcat(p: string, t: string)
    ensures DropPrefix(p, p + t) == Some(t)
  {
    assert (p + t)[..|p|] == p;
    assert (p + t)[|p|..] == t;
  }

  /** A reader for the payload format: exactly the two keys `cipher` and `sig`, in that
      order, with base64 values and no whitespace. */
  function ParsePayload(json: string): (r: Option<PayloadFields>)
    ensures r.Some? ==> IsBase64Text(r.value.cipher) && IsBase64Text(r.value.sig)
    ensures r.Some? ==> json == CipherOpen + (r.value.cipher + (SigOpen + (r.value.sig + PayloadClose)))
  {
    match DropPrefix(CipherOpen, json)
    case None => None
    case Some(rest) =>
      var n := Base64Span(rest);
      match DropPrefix(SigOpen, rest[n..])
      case None => None
      case Some(rest2) =>
        var m := Base64Span(rest2);
        if rest2[m..] != PayloadClose then None
        else
          assert rest == rest[..n] + rest[n..];
          assert rest2 == rest2[..m] + rest2[m..];
          Some(PayloadFields(rest[..n], rest2[..m]))
  }

  /** A base64 value followed by a closing quote spans exactly the value. */
  lemma {:induction false} Base64SpanStopsAtQuote(value: Base64Text, tail: string)
    requires tail != [] && tail[0] == '"'
    ensures Base64Span(value + tail) == |value|
  {
    if value != [] {
      assert (value + tail)[1..] == value[1..] + tail;
      Base64SpanStopsAtQuote(value[1..], tail);
    } else {
      assert (value + tail)[0] == '"';
    }
  }

  /** Reading back `value` followed by `tail`, where `tail` opens with a quote. */
  lemma SplitAtQuote(value: Base64Text, tail: string)
    requires tail != [] && tail[0] == '"'
    ensures Base64Span(value + tail) == |value|
    ensures (value + tail)[..|value|] == value && (value + tail)[|value|..] == tail
  {
    Base64SpanStopsAtQuote(value, tail);
  }

  /** `get_payload` without the object: the compact JSON of the two fields. */
  function Payload(cipher: Base64Text, sig: Base64Text): (json: string)
    ensures ParsePayload(json) == Some(PayloadFields(cipher, sig))
  {
    var rest2 := sig + PayloadClose;
    var rest := cipher + (SigOpen + rest2);
    var json := CipherOpen + rest;
    DropPrefixOfConcat(CipherOpen, rest);
    SplitAtQuote(cipher, SigOpen + rest2);
    DropPrefixOfConcat(SigOpen, rest2);
    SplitAtQuote(sig, PayloadClose);
    json
  }

  /** A code instance before and after `generate_crypto_fields`, as the issuing view
      builds it. The text fields start empty and `secure_index` starts as NULL. */
  class Code {
    var batch: BatchId
    var ciphertext: Base64Text
    var signature: Base64Text
    var secureIndex: Option<HexDigest>
    var status: CodeStatus
    var expirationDate: Instant

    /** `Code(batch=..., expiration_date=...)`: the declared defaults apply. */
    constructor (batch: BatchId, expirationDate: Instant)
      ensures this.batch == batch && this.expirationDate == expirationDate
      ensures status == NonUtilise && ciphertext == "" && signature == "" && secureIndex == None
    {
      this.batch := batch;
      this.expirationDate := expirationDate;
      ciphertext := "";
      signature := "";
      secureIndex := None;
      status := NonUtilise;
    }

    /** `generate_crypto_fields`: sets the three fields to the derived token and touches
        nothing else. */
    method GenerateCryptoFields(crypto: Crypto, message: string)
      modifies this
      ensures secureIndex.Some?
      ensures Token(ciphertext, signature, secureIndex.value) == Derive(crypto, message)
      ensures batch == old(batch) && status == old(status) && expirationDate == old(expirationDate)
    {
      ciphertext := crypto.encrypt(message);
      signature := crypto.sign(ciphertext);
      secureIndex := Some(crypto.sha256Hex(signature));
    }

    /** `get_payload`: the payload reads back as this code's ciphertext and signature. */
    function GetPayload(): (json: string)
      reads this
      ensures ParsePayload(json) == Some(PayloadFields(ciphertext, signature))
    {
      Payload(ciphertext, signature)
    }
  }

  /** A stored batch. */
  datatype BatchRow = BatchRow(
    name: string,
    quantity: nat,
    validityDays: nat,
    createdBy: Option<UserId>,
    createdAt: Instant,
    status: BatchStatus)

  /** A stored code; its `secure_index` is the key it is stored under. */
  datatype CodeRow = CodeRow(
    id: CodeId,
    batch: BatchId,
    ciphertext: Base64Text,
    signature: Base64Text,
    status: CodeStatus,
    createdAt: Instant,
    expirationDate: Instant)

  /** `batch.codes`: the keys of the codes that belong to batch `b`. */
  function CodesOfBatch(codes: map<string, CodeRow>, b: BatchId): (keys: set<string>)
    ensures keys <= codes.Keys
    ensures forall k | k in codes :: k in keys <==> codes[k].batch == b
  {
    set k | k in codes && codes[k].batch == b
  }

  /** Integrity errors the database raises on an insert. */
  datatype StoreError = NegativeValue | NullIndex | DuplicateIndex | MissingBatch

  /** The two tables of the code generator. Codes are keyed by `secure_index`, which the
      schema declares unique. */
  class CodeStore {
    var batches: map<BatchId, BatchRow>
    var codes: map<string, CodeRow>
    var nextBatchId: BatchId
    var nextCodeId: CodeId

    /** Keys are below their counters, every code key is a hex digest, and every code
        belongs to a stored batch. */
    ghost predicate Valid()
      reads this
    {
      && (forall b | b in batches :: b < nextBatchId)
      && (forall k | k in codes :: IsHexDigest(k) && codes[k].batch in batches && codes[k].id < nextCodeId)
    }

    constructor ()
      ensures Valid() && batches == map[] && codes == map[]
    {
      batches := map[];
      codes := map[];
      nextBatchId := 1;
      nextCodeId := 1;
    }

    /** `CodeBatch.objects.create(...)`: the positive-integer column refuses a negative
        validity; otherwise a new batch row under a fresh key. */
    method CreateBatch(name: string, quantity: nat, validityDays: int, createdBy: Option<UserId>,
                       now: Instant, status: BatchStatus) returns (r: Result<BatchId, StoreError>)
      requires Valid()
      modifies this
      ensures Valid() && codes == old(codes) && nextCodeId == old(nextCodeId)
      ensures r.Err? <==> validityDays < 0
      ensures r.Err? ==> batches == old(batches) && nextBatchId == old(nextBatchId)
      ensures r.Ok? ==> r.value == old(nextBatchId) && r.value !in old(batches) && nextBatchId == old(nextBatchId) + 1
      ensures r.Ok? ==> batches == old(batches)[r.value := BatchRow(name, quantity, validityDays, createdBy, now, status)]
    {
      if validityDays < 0 {
        return Err(NegativeValue);
      }
      r := Ok(nextBatchId);
      batches := batches[nextBatchId := BatchRow(name, quantity, validityDays, createdBy, now, status)];
      nextBatchId := nextBatchId + 1;
    }

    /** `batch.save()` of an instance that has its key: the row under that key becomes the
        instance, inserted again if it is not there. */
    method SaveBatch(id: BatchId, row: BatchRow)
      requires Valid() && id < nextBatchId
      modifies this
      ensures Valid() && batches == old(batches)[id := row] && codes == old(codes)
      ensures nextBatchId == old(nextBatchId) && nextCodeId == old(nextCodeId)
    {
      batches := batches[id := row];
    }

    /** The rollback of a transaction: both tables return to the rows they held when it
        began, while the key counters keep what they handed out. */
    method RollBack(batches0: map<BatchId, BatchRow>, codes0: map<string, CodeRow>)
      requires Valid()
      requires forall b | b in batches0 :: b < nextBatchId
      requires forall k | k in codes0 :: IsHexDigest(k) && codes0[k].batch in batches0 && codes0[k].id < nextCodeId
      modifies this
      ensures Valid() && batches == batches0 && codes == codes0
      ensures nextBatchId == old(nextBatchId) && nextCodeId == old(nextCodeId)
    {
      batches, codes := batches0, codes0;
    }

    /** `code.save()` of a new code: it fails when `secure_index` is NULL, when the index is
        already stored (the unique constraint), or when the batch does not exist;
        otherwise one row is added under the index. */
    method InsertCode(code: Code, now: Instant) returns (r: Result<CodeId, StoreError>)
      requires Valid()
      modifies this
      ensures Valid() && batches == old(batches) && nextBatchId == old(nextBatchId)
      ensures r.Err? <==>
        code.secureIndex.None? || code.secureIndex.value in old(codes) || code.batch !in old(batches)
      ensures r.Err? ==> codes == old(codes) && nextCodeId == old(nextCodeId)
      ensures r.Ok? ==> r.value == old(nextCodeId) && nextCodeId == old(nextCodeId) + 1
      ensures r.Ok? ==> codes == old(codes)[code.secureIndex.value :=
        CodeRow(r.value, code.batch, code.ciphertext, code.signature, code.status, now, code.expirationDate)]
    {
      if code.secureIndex.None? {
        return Err(NullIndex);
      }
      var index := code.secureIndex.value;
      if index in codes {
        return Err(DuplicateIndex);
      }
      if code.batch !in batches {
        return Err(MissingBatch);
      }
      r := Ok(nextCodeId);
      codes := codes[index := CodeRow(nextCodeId, code.batch, code.ciphertext, code.signature,
                                      code.status, now, code.expirationDate)];
      nextCodeId := nextCodeId + 1;
    }

    /** `code.status = ...; code.save()` on a stored code: only that row's status changes. */
    method SetStatus(index: string, status: CodeStatus)
      requires Valid() && index in codes
      modifies this
      ensures Valid() && batches == old(batches) && nextBatchId == old(nextBatchId) && nextCodeId == old(nextCodeId)
      ensures codes == old(codes)[index := old(codes)[index].(status := status)]
    {
      codes := codes[index := codes[index].(status := status)];
    }
  }
}
