/** Signed documents: the byte string that is signed, and the checks around an abstract Ed25519 backend. */
module Signing {
  import opened Json
  import opened Utf8
  import opened Canonical
  import opened Formats
  import Base64Url
  import Text

  const ALGORITHM := "Ed25519"
  const DOMAIN := "mwo-profile-sync/signed-document/v1\0"
  const KINDS := {
    "admin", "admin_promote", "admin_publish", "assignment", "convergence_assignment",
    "convergence_report", "promotion", "release_intent", "report", "revision"
  }
  const SIGNATURE_FIELDS := {"algorithm", "key_id", "value"}

  /** The native library: key derivation, signing and verification over byte strings. */
  datatype Backend = Backend(
    publicFromSeed: Bytes -> Bytes,
    sign: (Bytes, Bytes) -> Bytes,
    verify: (Bytes, Bytes, Bytes) -> bool
  )

  /** Section 5.1 of RFC 8032: signatures take 64 bytes and verify under the signer's own key. */
  ghost predicate Correct(b: Backend) {
    forall seed, m ::
      |b.sign(seed, m)| == 64 && b.verify(b.publicFromSeed(seed), m, b.sign(seed, m))
  }

  function Unsigned(document: Json): Json
    requires document.Obj?
  {
    Without(document, {"signature"})
  }

  function SignedPayload(kind: string, document: Json): Outcome<Bytes> {
    if !(kind in KINDS && document.Obj?) then Fail(Format) else
    Ok(Encode(DOMAIN) + Encode(kind) + [0] + CanonicalJson(Unsigned(document)))
  }

  // ---------- Domain separation ----------

  lemma {:induction false} NoZeroByte(s: string)
    requires forall i :: 0 <= i < |s| ==> s[i] != '\0'
    ensures forall i :: 0 <= i < |Encode(s)| ==> Encode(s)[i] != 0
  {
    if s != "" {
      NoZeroByte(s[1..]);
    }
  }

  /** Text before the first zero byte is determined by the whole. */
  lemma {:induction false} SplitAtZero(a: Bytes, b: Bytes, x: Bytes, y: Bytes)
    requires forall i :: 0 <= i < |a| ==> a[i] != 0
    requires forall i :: 0 <= i < |b| ==> b[i] != 0
    requires a + [0] + x == b + [0] + y
    ensures a == b && x == y
  {
    var s, t := a + [0] + x, b + [0] + y;
    assert s[|a|] == 0 && forall i :: 0 <= i < |a| ==> s[i] == a[i];
    assert t[|b|] == 0 && forall i :: 0 <= i < |b| ==> t[i] == b[i];
    assert |a| == |b|;
    assert s[..|a|] == a && t[..|b|] == b;
    assert s[|a| + 1..] == x && t[|b| + 1..] == y;
  }

  lemma KindsHaveNoZero(kind: string)
    requires kind in KINDS
    ensures forall i :: 0 <= i < |kind| ==> kind[i] != '\0'
  {
  }

  /** The signed bytes determine the kind and the document apart from its signature, although `admin`
      is a prefix of two other kinds: no signature carries over from one kind or document to another. */
  lemma SignedPayloadInjective(k: string, d: Json, l: string, e: Json)
    requires SignedPayload(k, d).Ok? && SignedPayload(l, e).Ok?
    ensures SignedPayload(k, d) == SignedPayload(l, e) <==> k == l && Unsigned(d) == Unsigned(e)
  {
    hide Encode, CanonicalJson;
    if SignedPayload(k, d) == SignedPayload(l, e) {
      var x, y := CanonicalJson(Unsigned(d)), CanonicalJson(Unsigned(e));
      var p, q := Encode(k) + [0] + x, Encode(l) + [0] + y;
      assert SignedPayload(k, d).value == Encode(DOMAIN) + p;
      assert SignedPayload(l, e).value == Encode(DOMAIN) + q;
      assert p == (Encode(DOMAIN) + p)[|Encode(DOMAIN)|..];
      assert q == (Encode(DOMAIN) + q)[|Encode(DOMAIN)|..];
      KindsHaveNoZero(k);
      KindsHaveNoZero(l);
      NoZeroByte(k);
      NoZeroByte(l);
      SplitAtZero(Encode(k), Encode(l), x, y);
      EncodeInjective(k, l);
      CanonicalInjective(Unsigned(d), Unsigned(e));
    }
  }

  // ---------- Signing and verifying ----------

  lemma PayloadIgnoresSignature(kind: string, d: Json, e: Json)
    requires d.Obj? && e.Obj? && Unsigned(d) == Unsigned(e)
    ensures SignedPayload(kind, d) == SignedPayload(kind, e)
  {
  }

  /** `sign_document`, which fills its output field by field. */
  method SignDocument(b: Backend, kind: string, document: Json, keyId: Json, seed: Bytes) returns (r: Outcome<Json>)
    ensures r == Sign(b, kind, document, keyId, seed)
  {
    hide SignedPayload, IsKeyId, Base64Url.Encode;
    if !(keyId.Str? && IsKeyId(keyId.s)) {
      return Fail(Format);
    }
    if !document.Obj? {
      return Fail(Broken);
    }
    var output := document.fields - {"signature"};
    assert output - {"signature"} == output;
    PayloadIgnoresSignature(kind, Obj(output), document);
    var payload :- SignedPayload(kind, Obj(output));
    var signature := b.sign(seed, payload);
    output := output["signature" := Obj(map[
      "algorithm" := Str(ALGORITHM),
      "key_id" := keyId,
      "value" := Str(Base64Url.Encode(signature))])];
    assert output == document.fields["signature" := output["signature"]];
    return Ok(Obj(output));
  }

  function Sign(b: Backend, kind: string, document: Json, keyId: Json, seed: Bytes): Outcome<Json> {
    if !(keyId.Str? && IsKeyId(keyId.s)) then Fail(Format) else
    :- Need(document.Obj?, Broken);
    var payload :- SignedPayload(kind, document);
    Ok(Obj(document.fields["signature" := Obj(map[
      "algorithm" := Str(ALGORITHM),
      "key_id" := keyId,
      "value" := Str(Base64Url.Encode(b.sign(seed, payload)))])]))
  }

  /** A signature member with exactly the three fields, of the one algorithm, in canonical base64url. */
  predicate WellSigned(document: Json) {
    && document.Obj?
    && var signature := Get(document, "signature");
    && signature.Obj? && signature.fields.Keys == SIGNATURE_FIELDS
    && signature.fields["algorithm"] == Str(ALGORITHM)
    && Base64Url.Decode(signature.fields["value"], 64).Ok?
  }

  /** `verify_document_with_key`: every exception counts as a refusal. */
  predicate VerifyWithKey(b: Backend, kind: string, document: Json, keyId: Json, publicKey: Bytes) {
    && WellSigned(document)
    && var signature := Get(document, "signature");
    && signature.fields["key_id"] == keyId
    && match SignedPayload(kind, document)
       case Fail(_) => false
       case Ok(payload) => b.verify(publicKey, payload, Base64Url.Decode(signature.fields["value"], 64).value)
  }

  /** Whatever is signed verifies under the signer's key, key id and kind, and signing changes nothing
      but the signature, so any earlier signature is replaced. */
  lemma SignedVerifies(b: Backend, kind: string, document: Json, keyId: Json, seed: Bytes)
    requires Correct(b)
    requires Sign(b, kind, document, keyId, seed).Ok?
    ensures var signed := Sign(b, kind, document, keyId, seed).value;
            VerifyWithKey(b, kind, signed, keyId, b.publicFromSeed(seed)) && Unsigned(signed) == Unsigned(document)
  {
    hide SignedPayload, IsKeyId, Base64Url.Encode, Base64Url.Decode;
    var signed := Sign(b, kind, document, keyId, seed).value;
    assert Unsigned(signed) == Unsigned(document);
    PayloadIgnoresSignature(kind, signed, document);
    var payload := SignedPayload(kind, document).value;
    var signature := b.sign(seed, payload);
    Base64Url.DecodeExactlyEncodings(Str(Base64Url.Encode(signature)), 64, signature);
  }

  /** Under whatever key it is checked, a signature made for one document is accepted for another document or kind only
      if the backend itself takes it for a different message. */
  lemma AcceptedForItsOwnPayload(b: Backend, kind: string, document: Json, keyId: Json, seed: Bytes,
                                 otherKind: string, other: Json, publicKey: Bytes)
    requires Correct(b)
    requires Sign(b, kind, document, keyId, seed).Ok?
    requires var signed := Sign(b, kind, document, keyId, seed).value;
             other.Obj? && Get(other, "signature") == Get(signed, "signature")
    requires VerifyWithKey(b, otherKind, other, keyId, publicKey)
    ensures SignedPayload(kind, document).Ok? && SignedPayload(otherKind, other).Ok?
    ensures var m, n := SignedPayload(kind, document).value, SignedPayload(otherKind, other).value;
            || (otherKind == kind && Unsigned(other) == Unsigned(document))
            || (m != n && b.verify(publicKey, n, b.sign(seed, m)))
  {
    hide SignedPayload, IsKeyId, Base64Url.Encode, Base64Url.Decode, Unsigned;
    var payload := SignedPayload(kind, document).value;
    var signature := b.sign(seed, payload);
    Base64Url.DecodeExactlyEncodings(Str(Base64Url.Encode(signature)), 64, signature);
    SignedPayloadInjective(kind, document, otherKind, other);
  }

  // ---------- The key registry ----------

  datatype KeyRecord = KeyRecord(publicKey: Bytes, allowedKinds: set<string>, enrollment: Option<string>)

  predicate WellFormedRecord(keyId: string, record: Json) {
    && IsKeyId(keyId)
    && record.Obj?
    && record.fields.Keys in {{"public_key", "allowed_kinds"}, {"public_key", "allowed_kinds", "enrollment_id"}}
    && var kinds := record.fields["allowed_kinds"];
    && kinds.Arr? && kinds.items != []
    && |kinds.items| == |Text.Elements(kinds.items)|
    && (forall kind :: kind in kinds.items ==> kind.Str? && kind.s in KINDS)
    && var owner := Get(record, "enrollment_id");
    && (owner == Null || (owner.Str? && owner.s != ""))
    && Base64Url.Decode(record.fields["public_key"], 32).Ok?
  }

  function ReadRecord(keyId: string, record: Json): KeyRecord
    requires WellFormedRecord(keyId, record)
  {
    var owner := Get(record, "enrollment_id");
    KeyRecord(
      Base64Url.Decode(record.fields["public_key"], 32).value,
      set kind | kind in record.fields["allowed_kinds"].items :: if kind.Str? then kind.s else "",
      if owner.Str? then Some(owner.s) else None)
  }

  class SignedDocumentVerifier {
    const backend: Backend
    var keys: map<string, KeyRecord>
    var valid: bool

    /** Reads a registry record by record and stops at the first malformed one. */
    constructor (backend: Backend, registry: map<string, Json>)
      ensures this.backend == backend
      ensures valid <==> forall k :: k in registry ==> WellFormedRecord(k, registry[k])
      ensures valid ==> keys.Keys == registry.Keys
      ensures valid ==> forall k :: k in registry ==> keys[k] == ReadRecord(k, registry[k])
    {
      this.backend := backend;
      keys := map[];
      valid := true;
      new;
      var left := registry.Keys;
      while left != {} && valid
        invariant left <= registry.Keys
        invariant valid ==> keys.Keys == registry.Keys - left
        invariant valid ==> forall k :: k in keys ==>
                                        WellFormedRecord(k, registry[k]) && keys[k] == ReadRecord(k, registry[k])
        invariant !valid ==> exists k :: k in registry && !WellFormedRecord(k, registry[k])
        decreases left, valid
      {
        var k :| k in left;
        if WellFormedRecord(k, registry[k]) {
          keys := keys[k := ReadRecord(k, registry[k])];
          left := left - {k};
        } else {
          valid := false;
        }
      }
    }

    /** Calling the verifier. */
    predicate Accepts(kind: string, document: Json)
      reads this
    {
      && WellSigned(document)
      && var keyId := Get(document, "signature").fields["key_id"];
      && keyId.Str? && IsKeyId(keyId.s) && keyId.s in keys
      && var record := keys[keyId.s];
      && kind in record.allowedKinds
      && (record.enrollment.Some? ==> Get(document, "enrollment_id") == Str(record.enrollment.value))
      && VerifyWithKey(backend, kind, document, keyId, record.publicKey)
    }
  }

  /** With a registry that lists the signer's key for a kind, the verifier accepts what the signer signs for
      that kind exactly when the key is unbound or bound to the document's own enrollment. */
  lemma RegistryAccepts(v: SignedDocumentVerifier, kind: string, document: Json, keyId: string, seed: Bytes)
    requires Correct(v.backend)
    requires keyId in v.keys && kind in v.keys[keyId].allowedKinds
    requires v.keys[keyId].publicKey == v.backend.publicFromSeed(seed)
    requires Sign(v.backend, kind, document, Str(keyId), seed).Ok?
    ensures v.Accepts(kind, Sign(v.backend, kind, document, Str(keyId), seed).value) <==>
            (v.keys[keyId].enrollment.None? || Get(document, "enrollment_id") == Str(v.keys[keyId].enrollment.value))
  {
    hide SignedPayload, Base64Url.Encode, Base64Url.Decode;
    var signed := Sign(v.backend, kind, document, Str(keyId), seed).value;
    SignedVerifies(v.backend, kind, document, Str(keyId), seed);
    assert Get(signed, "enrollment_id") == Get(document, "enrollment_id");
  }

  // ---------- Exactly what is accepted ----------

  /** A signature member over these bytes, with exactly its three fields. */
  function SignatureOf(keyId: Json, signature: Bytes): Json {
    Obj(map["algorithm" := Str("Ed25519"), "key_id" := keyId, "value" := Str(Base64Url.Encode(signature))])
  }

  lemma SignatureForm(v: Json, keyId: Json, signature: Bytes)
    ensures v == SignatureOf(keyId, signature) <==>
            && v.Obj? && v.fields.Keys == {"algorithm", "key_id", "value"} && v.fields["algorithm"] == Str("Ed25519")
            && v.fields["key_id"] == keyId && v.fields["value"] == Str(Base64Url.Encode(signature))
  {
    hide Base64Url.Encode;
    if v.Obj? && v.fields.Keys == {"algorithm", "key_id", "value"} && v.fields["algorithm"] == Str("Ed25519")
       && v.fields["key_id"] == keyId && v.fields["value"] == Str(Base64Url.Encode(signature)) {
      assert v.fields == SignatureOf(keyId, signature).fields;
    }
  }

  /** The bytes that a signature of this kind is over. */
  function Message(kind: string, document: Json): Bytes
    requires document.Obj?
  {
    Encode("mwo-profile-sync/signed-document/v1\0" + kind + "\0") + CanonicalJson(Without(document, {"signature"}))
  }

  lemma MessageIsPayload(kind: string, document: Json)
    requires document.Obj?
    ensures SignedPayload(kind, document) == if kind in KINDS then Ok(Message(kind, document)) else Fail(Format)
  {
    hide CanonicalJson, Encode;
    EncodeAppend(DOMAIN, kind);
    EncodeAppend(DOMAIN + kind, "\0");
    ZeroByte();
    assert Encode(DOMAIN) + Encode(kind) + [0] + CanonicalJson(Unsigned(document)) == Message(kind, document);
  }

  lemma ZeroByte()
    ensures Encode("\0") == [0]
  {
  }

  /** These 64 bytes are the document's signature under the key id, and the backend takes them for its message. */
  predicate SignedWith(b: Backend, kind: string, document: Json, keyId: Json, publicKey: Bytes, signature: Bytes)
    requires document.Obj?
  {
    && |signature| == 64 && Get(document, "signature") == SignatureOf(keyId, signature)
    && b.verify(publicKey, Message(kind, document), signature)
  }

  /** A document verifies under a key exactly when its kind is one of the ten and it carries, in the one form there is,
      64 bytes that the backend accepts for the document without them. */
  lemma VerifiesExactly(b: Backend, kind: string, document: Json, keyId: Json, publicKey: Bytes)
    ensures VerifyWithKey(b, kind, document, keyId, publicKey) <==>
            && document.Obj?
            && kind in {"admin", "admin_promote", "admin_publish", "assignment", "convergence_assignment",
                        "convergence_report", "promotion", "release_intent", "report", "revision"}
            && exists signature :: SignedWith(b, kind, document, keyId, publicKey, signature)
  {
    hide SignedPayload, Message, Base64Url.Decode, Base64Url.Encode, SignatureOf, Get;
    if document.Obj? {
      var v := Get(document, "signature");
      MessageIsPayload(kind, document);
      if VerifyWithKey(b, kind, document, keyId, publicKey) {
        var signature := Base64Url.Decode(v.fields["value"], 64).value;
        Base64Url.DecodeExactlyEncodings(v.fields["value"], 64, signature);
        SignatureForm(v, keyId, signature);
        assert SignedWith(b, kind, document, keyId, publicKey, signature);
      }
      forall signature | SignedWith(b, kind, document, keyId, publicKey, signature)
        ensures WellSigned(document)
        ensures kind in KINDS ==> VerifyWithKey(b, kind, document, keyId, publicKey)
      {
        SignatureForm(v, keyId, signature);
        Base64Url.DecodeExactlyEncodings(v.fields["value"], 64, signature);
      }
    }
  }

  /** A key of the registry that may sign this document of this kind. */
  predicate MaySign(record: KeyRecord, kind: string, document: Json)
    requires document.Obj?
  {
    && kind in record.allowedKinds
    && (record.enrollment.Some? ==> Get(document, "enrollment_id") == Str(record.enrollment.value))
  }

  /** The registry accepts a document exactly when some key of it may sign it and it verifies under that key. */
  lemma AcceptsExactly(v: SignedDocumentVerifier, kind: string, document: Json)
    ensures v.Accepts(kind, document) <==>
            && document.Obj?
            && exists keyId :: keyId in v.keys && IsKeyId(keyId) && MaySign(v.keys[keyId], kind, document)
                               && VerifyWithKey(v.backend, kind, document, Str(keyId), v.keys[keyId].publicKey)
  {
    hide SignedPayload, Base64Url.Decode, IsKeyId, Get;
  }

  function KindsOf(items: seq<Json>): set<string> {
    set kind | kind in items :: if kind.Str? then kind.s else ""
  }

  /** A list of texts. */
  ghost predicate Lists(items: seq<Json>, kinds: seq<string>) {
    items == Strings(kinds)
  }

  lemma ListedKinds(items: seq<Json>, kinds: seq<string>)
    requires Lists(items, kinds)
    ensures (items == [] <==> kinds == []) && KindsOf(items) == Text.Elements(kinds)
    ensures forall kind :: kind in items ==> kind.Str?
    ensures Text.Distinct(items) <==> Text.Distinct(kinds)
  {
    assert forall i :: 0 <= i < |kinds| ==> items[i] == Str(kinds[i]) && items[i] in items;
    forall x
      ensures x in KindsOf(items) <==> x in Text.Elements(kinds)
    {
      if x in Text.Elements(kinds) {
        var i :| 0 <= i < |kinds| && kinds[i] == x;
        assert items[i] in items;
      }
    }
  }

  lemma KindsAreListed(items: seq<Json>)
    requires forall kind :: kind in items ==> kind.Str?
    ensures exists kinds :: Lists(items, kinds)
  {
    var kinds := seq(|items|, i requires 0 <= i < |items| => if items[i].Str? then items[i].s else "");
    assert forall i :: 0 <= i < |items| ==> items[i] in items;
    assert Lists(items, kinds);
  }

  /** The kinds that a registry record lists: distinct, at least one, and each of the ten. */
  ghost predicate ListsKinds(v: Json, kinds: seq<string>, allowed: set<string>) {
    v.Arr? && Lists(v.items, kinds) && kinds != [] && Text.Distinct(kinds) && Text.Elements(kinds) == allowed
  }

  predicate GoodKinds(v: Json) {
    && v.Arr? && v.items != [] && |v.items| == |Text.Elements(v.items)|
    && forall kind :: kind in v.items ==> kind.Str? && kind.s in KINDS
  }

  lemma KindsExactly(v: Json, allowed: set<string>)
    ensures GoodKinds(v) && KindsOf(v.items) == allowed <==>
            (exists kinds :: ListsKinds(v, kinds, allowed)) && allowed <= KINDS
  {
    hide Lists, KindsOf, Text.Elements, Text.Distinct;
    if v.Arr? {
      Text.DistinctCount(v.items);
      if GoodKinds(v) && KindsOf(v.items) == allowed {
        KindsWithin(v.items);
        KindsAreListed(v.items);
        var kinds :| Lists(v.items, kinds);
        ListedKinds(v.items, kinds);
        assert ListsKinds(v, kinds, allowed);
      }
      forall kinds | ListsKinds(v, kinds, allowed) && allowed <= KINDS
        ensures GoodKinds(v) && KindsOf(v.items) == allowed
      {
        ListedKinds(v.items, kinds);
        KindsWithin(v.items);
      }
    }
  }

  lemma KindsWithin(items: seq<Json>)
    requires forall kind :: kind in items ==> kind.Str?
    ensures KindsOf(items) <= KINDS <==> forall kind :: kind in items ==> kind.s in KINDS
  {
    assert forall kind :: kind in items ==> kind.s in KindsOf(items);
  }

  lemma RecordParts(keyId: string, record: Json, key: KeyRecord)
    ensures WellFormedRecord(keyId, record) && ReadRecord(keyId, record) == key <==>
            && IsKeyId(keyId) && record.Obj?
            && (|| record.fields.Keys == {"public_key", "allowed_kinds"}
                || record.fields.Keys == {"public_key", "allowed_kinds", "enrollment_id"})
            && Base64Url.Decode(Get(record, "public_key"), 32) == Ok(key.publicKey)
            && GoodKinds(Get(record, "allowed_kinds"))
               && KindsOf(Get(record, "allowed_kinds").items) == key.allowedKinds
            && Get(record, "enrollment_id") == FromOption(key.enrollment) && key.enrollment != Some("")
  {
    hide IsKeyId, Base64Url.Decode, Text.Elements;
  }

  /** A registry record is accepted and read as this key exactly when it has its public key's one encoding, a non-empty
      list of distinct kinds that is the key's set of kinds, and at most a non-empty owner. */
  lemma RecordExactly(keyId: string, record: Json, key: KeyRecord)
    ensures WellFormedRecord(keyId, record) && ReadRecord(keyId, record) == key <==>
            && IsKeyId(keyId) && record.Obj?
            && (|| record.fields.Keys == {"public_key", "allowed_kinds"}
                || record.fields.Keys == {"public_key", "allowed_kinds", "enrollment_id"})
            && Get(record, "public_key") == Str(Base64Url.Encode(key.publicKey)) && |key.publicKey| == 32
            && (exists kinds :: ListsKinds(Get(record, "allowed_kinds"), kinds, key.allowedKinds))
            && key.allowedKinds <= {"admin", "admin_promote", "admin_publish", "assignment", "convergence_assignment",
                                    "convergence_report", "promotion", "release_intent", "report", "revision"}
            && Get(record, "enrollment_id") == FromOption(key.enrollment) && key.enrollment != Some("")
  {
    hide WellFormedRecord, ReadRecord, IsKeyId, Base64Url.Decode, Base64Url.Encode, ListsKinds, GoodKinds, KindsOf, Get;
    RecordParts(keyId, record, key);
    if record.Obj? {
      KindsExactly(Get(record, "allowed_kinds"), key.allowedKinds);
      Base64Url.DecodeExactlyEncodings(Get(record, "public_key"), 32, key.publicKey);
    }
  }
}
