/** Documents as they are signed, and when a registry of keys accepts all that one signer issues. */
module Signers {
  import opened Json
  import opened Canonical
  import opened Formats
  import opened Tables
  import Base64Url
  import Signing
  import Utf8

  /** Whoever holds a signing key, an operator or a device. */
  datatype Signer = Signer(keyId: string, seed: Utf8.Bytes)

  /** The document with this signer's signature. */
  function Issued(env: Env, who: Signer, kind: string, document: Json): Json {
    var signed := Signing.Sign(env.backend, kind, document, Str(who.keyId), who.seed);
    if signed.Ok? then signed.value else Null
  }

  lemma PayloadExists(kind: string, document: Json)
    requires document.Obj? && kind in Signing.KINDS
    ensures Signing.SignedPayload(kind, document).Ok?
  {
    hide CanonicalJson, Utf8.Encode;
  }

  lemma IssuedIsSigned(env: Env, who: Signer, kind: string, document: Json)
    requires document.Obj? && IsKeyId(who.keyId) && kind in Signing.KINDS
    ensures var signed := Signing.Sign(env.backend, kind, document, Str(who.keyId), who.seed);
            signed.Ok? && signed.value == Issued(env, who, kind, document)
    ensures Issued(env, who, kind, document).Obj?
    ensures Signing.Unsigned(Issued(env, who, kind, document)) == Signing.Unsigned(document)
  {
    hide IsKeyId, Signing.SignedPayload, Base64Url.Encode;
    PayloadExists(kind, document);
    var signed := Issued(env, who, kind, document);
    assert signed.fields - {"signature"} == document.fields - {"signature"};
  }

  lemma IssuedVerifies(env: Env, who: Signer, kind: string, document: Json)
    requires Signing.Correct(env.backend) && document.Obj? && IsKeyId(who.keyId) && kind in Signing.KINDS
    ensures Signing.VerifyWithKey(env.backend, kind, Issued(env, who, kind, document), Str(who.keyId),
                                  env.backend.publicFromSeed(who.seed))
  {
    hide IsKeyId, Issued, Signing.Correct, Signing.Sign, Signing.VerifyWithKey;
    IssuedIsSigned(env, who, kind, document);
    Signing.SignedVerifies(env.backend, kind, document, Str(who.keyId), who.seed);
  }

  /** Signing changes no other field. */
  lemma IssuedKeeps(env: Env, who: Signer, kind: string, document: Json, key: string, default: Json)
    requires document.Obj? && IsKeyId(who.keyId) && kind in Signing.KINDS && key != "signature"
    ensures Issued(env, who, kind, document).Obj?
    ensures Get(Issued(env, who, kind, document), key) == Get(document, key)
    ensures GetOr(Issued(env, who, kind, document), key, default) == GetOr(document, key, default)
  {
    hide IsKeyId, Issued, Signing.Sign;
    IssuedIsSigned(env, who, kind, document);
    var signed := Issued(env, who, kind, document);
    var kept := signed.fields - {"signature"};
    assert kept == document.fields - {"signature"};
    assert key in signed.fields <==> key in kept;
  }

  /** What a server's verifier is asked about apart from convergence and administration. */
  const OPERATED := {"revision", "assignment", "report", "promotion"}

  /** The verifier accepts whatever this operator signs of those kinds. */
  ghost predicate Trusts(env: Env, who: Signer) {
    forall kind, document: Json :: kind in OPERATED && document.Obj? ==>
                                   env.verify(kind, Issued(env, who, kind, document))
  }

  /** A registry that lists the operator's key trusts it exactly when the key is allowed every such kind and is bound to
      no enrollment. */
  lemma RegistryTrusts(v: Signing.SignedDocumentVerifier, env: Env, who: Signer)
    requires Signing.Correct(env.backend) && IsKeyId(who.keyId) && v.backend == env.backend
    requires forall kind, document :: env.verify(kind, document) == v.Accepts(kind, document)
    requires who.keyId in v.keys && v.keys[who.keyId].publicKey == env.backend.publicFromSeed(who.seed)
    ensures Trusts(env, who) <==> OPERATED <= v.keys[who.keyId].allowedKinds && v.keys[who.keyId].enrollment.None?
  {
    hide Signing.Correct, IsKeyId, Issued, Signing.Sign;
    var record := v.keys[who.keyId];
    var bare := Obj(map[]);
    if Trusts(env, who) {
      forall kind | kind in OPERATED
        ensures kind in record.allowedKinds
      {
        KeyOfIssued(env, who, kind, bare);
        assert v.Accepts(kind, Issued(env, who, kind, bare));
      }
      IssuedIsSigned(env, who, "report", bare);
      Signing.RegistryAccepts(v, "report", bare, who.keyId, who.seed);
      assert env.verify("report", Issued(env, who, "report", bare));
    }
    if OPERATED <= record.allowedKinds && record.enrollment.None? {
      forall kind, document: Json | kind in OPERATED && document.Obj?
        ensures env.verify(kind, Issued(env, who, kind, document))
      {
        IssuedIsSigned(env, who, kind, document);
        Signing.RegistryAccepts(v, kind, document, who.keyId, who.seed);
      }
    }
  }

  lemma KeyOfIssued(env: Env, who: Signer, kind: string, document: Json)
    requires document.Obj? && IsKeyId(who.keyId) && kind in Signing.KINDS
    ensures var signed := Issued(env, who, kind, document);
            && signed.Obj? && Get(signed, "signature").Obj? && "key_id" in Get(signed, "signature").fields
            && Get(signed, "signature").fields["key_id"] == Str(who.keyId)
  {
    hide IsKeyId, Signing.SignedPayload, Base64Url.Encode;
    PayloadExists(kind, document);
  }
}
