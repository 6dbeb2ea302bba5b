/** Authorisation of signed administrator requests against a table of used nonces. */
module Administration {
  import opened Json
  import opened Canonical
  import opened Formats
  import opened Documents
  import opened Tables

  const PUBLISHING := {"put_revision", "publish_candidate", "assign_candidate", "bootstrap_active", "put_blob"}
  const ROLE_OPERATIONS: map<string, set<string>> := map[
    "publish" := PUBLISHING,
    "promote" := {"promote"},
    "admin" := PUBLISHING + {"promote", "revoke_enrollment"}
  ]

  predicate Allowed(document: Json, operation: string, key: string)
    requires document.Obj?
  {
    && var role := Get(document, "actor_role");
    && role.Str? && role.s in ROLE_OPERATIONS && operation in ROLE_OPERATIONS[role.s]
    && Get(document, "operation") == Str(operation)
    && Get(document, "idempotency_key") == Str(key)
    && Get(document, "payload").Obj?
  }

  predicate Timely(document: Json, now: int)
    requires document.Obj?
  {
    && var issued, expires := Get(document, "issued_at"), Get(document, "expires_at");
    && issued.Num? && expires.Num?
    && issued.n < expires.n <= issued.n + 300 && issued.n <= now + 30 && now <= expires.n
  }

  function SignedKind(role: string): string {
    if role == "admin" then "admin" else "admin_" + role
  }

  /** One use of an administrator's nonce. */
  datatype Use = Use(actor: string, nonce: string, requestDigest: string, expiresAt: int)

  /** Everything checked before the nonce table is consulted. */
  function Admit(env: Env, document: Json, operation: string, key: string, now: int): (r: Outcome<Use>)
    ensures r.Ok? ==> document.Obj? && Timely(document, now)
    ensures r.Ok? ==> r.value.expiresAt == Get(document, "expires_at").n
                      && r.value.requestDigest == env.digest(CanonicalJson(document))
  {
    if !(document.Obj? && Get(document, "schema") == Num(1)) then Fail(Unauthorized) else
    :- Need(Hashable(Get(document, "actor_role")), Broken);
    :- Need(Allowed(document, operation, key), Unauthorized);
    var nonce := Get(document, "nonce");
    :- Need(nonce.Str? && IsNonce(nonce.s), Unauthorized);
    :- Need(Timely(document, now), Unauthorized);
    :- Need(env.verify(SignedKind(Get(document, "actor_role").s), document), Unauthorized);
    var signature := GetOr(document, "signature", Obj(map[]));
    :- Need(signature.Obj?, Broken);
    var actor := Get(signature, "key_id");
    :- Need(actor.Str? && IsKeyId(actor.s), Unauthorized);
    Ok(Use(actor.s, nonce.s, env.digest(CanonicalJson(document)), Get(document, "expires_at").n))
  }

  /** `DELETE FROM admin_requests WHERE expires_at < ?`. */
  function PurgeRequests(rows: map<(string, string), AdminRequest>, now: int): map<(string, string), AdminRequest> {
    map k | k in rows && rows[k].expiresAt >= now :: rows[k]
  }

  /** `authorize_admin_request`: the same request may be retried, a different one under the same nonce is refused. */
  function Authorize(env: Env, db: Db, document: Json, operation: string, key: string, now: int): Outcome<(Db, Json)> {
    var use :- Admit(env, document, operation, key, now);
    var kept := PurgeRequests(db.adminRequests, now);
    var slot := (use.actor, use.nonce);
    :- Need(slot in kept ==> kept[slot].requestDigest == use.requestDigest, Conflict);
    var rows := if slot in kept then kept else kept[slot := AdminRequest(use.requestDigest, use.expiresAt)];
    Ok((db.(adminRequests := rows), Get(document, "payload")))
  }

  // ---------- Exactly which requests are admitted ----------

  /** What each role may do. */
  predicate MayPerform(role: Json, operation: string) {
    var publishing := {"put_revision", "publish_candidate", "assign_candidate", "bootstrap_active", "put_blob"};
    || (role == Str("publish") && operation in publishing)
    || (role == Str("promote") && operation == "promote")
    || (role == Str("admin") && (operation in publishing || operation in {"promote", "revoke_enrollment"}))
  }

  lemma PermittedExactly(role: Json, operation: string)
    ensures role.Str? && role.s in ROLE_OPERATIONS && operation in ROLE_OPERATIONS[role.s] <==>
            MayPerform(role, operation)
    ensures MayPerform(role, operation) ==> role.Str?
    ensures role == Str("publish") ==> SignedKind(role.s) == "admin_publish"
    ensures role == Str("promote") ==> SignedKind(role.s) == "admin_promote"
    ensures role == Str("admin") ==> SignedKind(role.s) == "admin"
  {
  }

  /** The request was verified as one of its role's kind. */
  predicate VerifiedFor(env: Env, role: Json, document: Json) {
    || (role == Str("publish") && env.verify("admin_publish", document))
    || (role == Str("promote") && env.verify("admin_promote", document))
    || (role == Str("admin") && env.verify("admin", document))
  }

  /** A request is admitted exactly when its role may perform the operation, it repeats the operation and the key, it is
      current and valid for at most five minutes, it was verified for its role, and it names the key that signed it; its
      use of the nonce is recorded under that key and the digest of the whole request. */
  lemma AdmitsExactly(env: Env, document: Json, operation: string, key: string, now: int, use: Use)
    ensures Admit(env, document, operation, key, now) == Ok(use) <==>
            && document.Obj? && Get(document, "schema") == Num(1)
            && MayPerform(Get(document, "actor_role"), operation)
            && Get(document, "operation") == Str(operation) && Get(document, "idempotency_key") == Str(key)
            && Get(document, "payload").Obj?
            && Get(document, "nonce") == Str(use.nonce) && IsNonce(use.nonce)
            && Get(document, "issued_at").Num? && Get(document, "expires_at") == Num(use.expiresAt)
            && Get(document, "issued_at").n < use.expiresAt <= Get(document, "issued_at").n + 300
            && Get(document, "issued_at").n <= now + 30 && now <= use.expiresAt
            && VerifiedFor(env, Get(document, "actor_role"), document)
            && Get(document, "signature").Obj? && Get(Get(document, "signature"), "key_id") == Str(use.actor)
            && IsKeyId(use.actor) && use.requestDigest == env.digest(CanonicalJson(document))
  {
    hide IsNonce, IsKeyId, CanonicalJson, MayPerform, SignedKind, Get, GetOr;
    if document.Obj? {
      PermittedExactly(Get(document, "actor_role"), operation);
      RoleIsKnown(Get(document, "actor_role"), operation);
      SignatureGiven(document);
    }
  }

  lemma RoleIsKnown(role: Json, operation: string)
    ensures MayPerform(role, operation) ==> role in {Str("publish"), Str("promote"), Str("admin")}
  {
  }

  lemma SignatureGiven(document: Json)
    requires document.Obj?
    ensures var signature := GetOr(document, "signature", Obj(map[]));
            || signature == Get(document, "signature")
            || (signature.Obj? && Get(signature, "key_id") == Null && Get(document, "signature") == Null)
  {
  }

  /** Another request has used the nonce and has not expired. */
  predicate UsedOtherwise(rows: map<(string, string), AdminRequest>, now: int, use: Use) {
    && (use.actor, use.nonce) in rows && rows[(use.actor, use.nonce)].expiresAt >= now
    && rows[(use.actor, use.nonce)].requestDigest != use.requestDigest
  }

  /** Afterwards the table holds the unexpired rows, and the use unless it is among them. */
  predicate Uses(rows: map<(string, string), AdminRequest>, after: map<(string, string), AdminRequest>, now: int,
                 use: Use) {
    && (forall k :: k in rows && rows[k].expiresAt >= now ==> k in after && after[k] == rows[k])
    && (use.actor, use.nonce) in after && after[(use.actor, use.nonce)].requestDigest == use.requestDigest
    && forall k :: k in after && !(k in rows && rows[k].expiresAt >= now) ==>
         k == (use.actor, use.nonce) && after[k] == AdminRequest(use.requestDigest, use.expiresAt)
  }

  lemma PurgedThenUsed(rows: map<(string, string), AdminRequest>, now: int, use: Use)
    ensures var kept, slot := PurgeRequests(rows, now), (use.actor, use.nonce);
            && (UsedOtherwise(rows, now, use) <==> slot in kept && kept[slot].requestDigest != use.requestDigest)
            && (!UsedOtherwise(rows, now, use) ==>
                 Uses(rows, if slot in kept then kept else kept[slot := AdminRequest(use.requestDigest, use.expiresAt)],
                      now, use))
  {
  }

  /** An admitted request is authorised exactly when no unexpired use of its nonce by its key was another request's; a
      refusal is a conflict. The table then holds the unexpired rows and this use, and the answer is the request's own
      payload. */
  lemma AuthorizesExactly(env: Env, db: Db, document: Json, operation: string, key: string, now: int, use: Use)
    requires Admit(env, document, operation, key, now) == Ok(use)
    ensures document.Obj?
    ensures var r := Authorize(env, db, document, operation, key, now);
            if UsedOtherwise(db.adminRequests, now, use) then r == Fail(Conflict) else
              && r.Ok? && r.value.1 == Get(document, "payload")
              && r.value.0 == db.(adminRequests := r.value.0.adminRequests)
              && Uses(db.adminRequests, r.value.0.adminRequests, now, use)
  {
    hide Admit, PurgeRequests, UsedOtherwise, Uses, Get;
    PurgedThenUsed(db.adminRequests, now, use);
  }
}
