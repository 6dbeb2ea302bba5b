/** Pairing codes, enrollments and device authentication. */
module Enrolling {
  import opened Json
  import opened Text
  import opened JsonText
  import opened Utf8
  import opened Canonical
  import opened Formats
  import opened Documents
  import opened Tables
  import Base64Url

  const ROLES := {"read", "publish"}

  type Effect = Outcome<(Db, Json)>

  function PairingDigest(env: Env, code: string): string {
    env.digest(Encode("mwo-profile-sync/pairing-code/v1\0" + code))
  }

  function TokenDigest(env: Env, token: string): string {
    env.digest(Encode("mwo-profile-sync/token/v1\0" + token))
  }

  /** `_validate_roles`. */
  function Roles(roles: Json): Outcome<seq<string>> {
    if !(roles.Arr? && roles.items != []) then Fail(Invalid) else
    :- Need(forall v :: v in roles.items ==> Hashable(v), Broken);
    :- Need(|roles.items| == |Elements(roles.items)|
            && forall v :: v in roles.items ==> v.Str? && v.s in ROLES, Invalid);
    Ok(Sorted(Texts(roles.items)))
  }

  // ---------- Pairing codes ----------

  /** `DELETE FROM pairing_codes WHERE expires_at < ? OR consumed=1`. */
  function PurgeCodes(codes: map<string, Pairing>, now: int): map<string, Pairing> {
    map c | c in codes && codes[c].expiresAt >= now && !codes[c].consumed :: codes[c]
  }

  /** The clock is read once for the expiry and again for the purge. */
  function CreateCode(env: Env, db: Db, device: string, channel: string, roles: Json, ttl: int, attempts: int,
                      code: string, tags: Json, now: int, later: int): Effect
  {
    if !IsChannel(device) then Fail(Invalid) else
    :- Need(IsChannel(channel), Invalid);
    var granted :- Roles(roles);
    var targets :- TargetTags(tags);
    :- Need(30 <= ttl <= 1800, Invalid);
    :- Need(1 <= attempts <= 10, Invalid);
    :- Need(IsPairingCode(code), Invalid);
    var kept := PurgeCodes(db.pairingCodes, later);
    :- Need(PairingDigest(env, code) !in kept, Conflict);
    var row := Pairing(device, channel, TagText(granted), TagText(targets), now + ttl, attempts, false);
    Ok((db.(pairingCodes := kept[PairingDigest(env, code) := row]),
        Obj(map["code" := Str(code), "logical_device_id" := Str(device), "channel" := Str(channel),
                "roles" := Arr(Strings(granted)), "target_tags" := Arr(Strings(targets)),
                "expires_at" := Num(now + ttl)])))
  }

  // ---------- Pairing ----------

  function Generations(rows: map<string, Enrollment>, device: string): set<nat> {
    set e | e in rows && rows[e].device == device :: rows[e].generation
  }

  /** `COALESCE(MAX(...), 0)`. */
  ghost function Highest(s: set<nat>): (m: nat)
    ensures s == {} ==> m == 0
    ensures s != {} ==> m in s
    ensures forall n :: n in s ==> n <= m
  {
    if s == {} then 0 else
      var n :| n in s;
      var rest := Highest(s - {n});
      assert forall x :: x in s ==> x == n || x in s - {n};
      if n > rest then n else rest
  }

  function ToOption(v: Json): Option<string> {
    if v.Str? then Some(v.s) else None
  }

  /** The checks of `pair` before it opens its transaction. */
  function PairRequest(code: Json, device: Json, channel: Json, keyId: Json, publicKey: Json,
                       encryptionKeyId: Json, encryptionKey: Json): (r: Outcome<()>)
    ensures r.Ok? ==> code.Str? && keyId.Str? && publicKey.Str?
  {
    if !(code.Str? && IsPairingCode(code.s)) then Fail(Unauthorized) else
    :- Need(Matches(device, IsChannel), Unauthorized);
    :- Need(Matches(channel, IsChannel), Unauthorized);
    :- Need(keyId.Str? && IsKeyId(keyId.s), Invalid);
    var _ :- Base64Url.Decode(publicKey, 32);
    :- Need((encryptionKeyId == Null) == (encryptionKey == Null), Invalid);
    if encryptionKeyId == Null then Ok(()) else
      :- Need(encryptionKeyId.Str? && IsKeyId(encryptionKeyId.s), Invalid);
      var _ :- Base64Url.Decode(encryptionKey, 32);
      Ok(())
  }

  predicate Usable(codes: map<string, Pairing>, digest: string, now: int) {
    && digest in codes
    && !codes[digest].consumed && now <= codes[digest].expiresAt && codes[digest].attempts > 0
  }

  predicate Unique(rows: map<string, Enrollment>, id: string, row: Enrollment) {
    && id !in rows
    && forall e :: e in rows ==> rows[e].keyId != row.keyId
                                 && !(rows[e].device == row.device && rows[e].generation == row.generation)
  }

  function NewEnrollment(env: Env, pairing: Pairing, generation: nat, roles: Json, tags: seq<string>, keyId: string,
                         publicKey: string, encryption: (Option<string>, Option<string>), token: string,
                         now: int): Enrollment
  {
    Enrollment(pairing.device, generation, pairing.channel, Dumps(roles), keyId, publicKey, encryption,
               TokenDigest(env, token), TagText(tags), false, now, Presence(None, None, "[]", None, None))
  }

  function PairResponse(env: Env, id: string, generation: nat, device: Json, channel: Json, roles: Json,
                        tags: seq<string>, token: string, encryptionKeyId: Json): Json
  {
    Obj(map["enrollment_id" := Str(id), "enrollment_generation" := Num(generation),
            "logical_device_id" := device, "channel" := channel, "roles" := roles,
            "target_tags" := Arr(Strings(tags)), "access_token" := Str(token), "trust" := env.trust,
            "encryption" := if encryptionKeyId == Null then Null
                            else Obj(map["key_id" := encryptionKeyId, "suite" := Str("DHKEM_X25519_HKDF_SHA256")])])
  }

  /** The row and the response for a device whose code, device and channel match: the next generation of the device. */
  ghost function Admission(env: Env, db: Db, pairing: Pairing, device: Json, channel: Json, keyId: string,
                           publicKey: string, encryptionKeyId: Json, encryptionKey: Json, now: int, id: string,
                           token: string): Outcome<(Enrollment, Json)>
  {
    var generation := Highest(Generations(db.enrollments, pairing.device)) + 1;
    var roles :- ReadJson(pairing.roles);
    var tags :- ReadTags(pairing.tags);
    var row := NewEnrollment(env, pairing, generation, roles, tags, keyId, publicKey,
                             (ToOption(encryptionKeyId), ToOption(encryptionKey)), token, now);
    :- Need(Unique(db.enrollments, id, row), Conflict);
    Ok((row, PairResponse(env, id, generation, device, channel, roles, tags, token, encryptionKeyId)))
  }

  /** The new row is inserted and the code consumed. */
  ghost function Enroll(env: Env, db: Db, digest: string, device: Json, channel: Json, keyId: string, publicKey: string,
                        encryptionKeyId: Json, encryptionKey: Json, now: int, id: string, token: string): Effect
    requires digest in db.pairingCodes
  {
    var pairing := db.pairingCodes[digest];
    var (row, response) :- Admission(env, db, pairing, device, channel, keyId, publicKey, encryptionKeyId,
                                     encryptionKey, now, id, token);
    Ok((db.(enrollments := db.enrollments[id := row],
            pairingCodes := db.pairingCodes[digest := pairing.(consumed := true)]), response))
  }

  /** `pair`, with the random enrollment id and access token as inputs. A mismatch of device or channel counts an
      attempt and then raises, which rolls the count back. */
  ghost function Pair(env: Env, db: Db, code: Json, device: Json, channel: Json, keyId: Json, publicKey: Json,
                      encryptionKeyId: Json, encryptionKey: Json, now: int, id: string, token: string): Effect
  {
    var _ :- PairRequest(code, device, channel, keyId, publicKey, encryptionKeyId, encryptionKey);
    var digest := PairingDigest(env, code.s);
    :- Need(Usable(db.pairingCodes, digest, now), Unauthorized);
    var pairing := db.pairingCodes[digest];
    :- Need(Str(pairing.device) == device && Str(pairing.channel) == channel, Unauthorized);
    Enroll(env, db, digest, device, channel, keyId.s, publicKey.s, encryptionKeyId, encryptionKey, now, id, token)
  }

  // ---------- Authentication ----------

  predicate Ascii(s: string) {
    forall i :: 0 <= i < |s| ==> s[i] < 128 as char
  }

  /** `_authenticate`: a known, unrevoked enrollment whose token digest matches and whose roles include the one asked
      for. */
  function Authenticate(env: Env, db: Db, id: Json, token: Json, role: string): (r: Outcome<Enrollment>)
    ensures r.Ok? ==> id.Str? && id.s in db.enrollments && r.value == db.enrollments[id.s] && !r.value.revoked
  {
    if !(id.Str? && IsEnrollment(id.s) && token.Str? && |token.s| >= 32) then Fail(Unauthorized) else
    :- Need(id.s in db.enrollments && !db.enrollments[id.s].revoked, Unauthorized);
    var row := db.enrollments[id.s];
    :- Need(Ascii(token.s), Broken);
    :- Need(row.tokenDigest == TokenDigest(env, token.s), Unauthorized);
    var roles :- ReadJson(row.roles);
    :- Need(roles.Arr? && Str(role) in roles.items, Unauthorized);
    Ok(row)
  }

  predicate Truthy(o: Option<string>) {
    o.Some? && o.value != ""
  }

  /** `register_encryption_key`: registering the same pair again changes nothing, any other pair is refused. */
  function RegisterKey(env: Env, db: Db, id: Json, token: Json, generation: Json, keyId: Json, key: Json): Effect {
    if !(keyId.Str? && IsKeyId(keyId.s)) then Fail(Invalid) else
    var _ :- Base64Url.Decode(key, 32);
    var row :- Authenticate(env, db, id, token, "read");
    :- Need(Num(row.generation) == generation, Conflict);
    var requested := (Some(keyId.s), ToOption(key));
    var response := map["enrollment_id" := id, "enrollment_generation" := generation, "encryption_key_id" := keyId];
    if row.encryption == requested then Ok((db, Obj(response["status" := Str("unchanged")]))) else
      :- Need(!Truthy(row.encryption.0) && !Truthy(row.encryption.1), Conflict);
      Ok((db.(enrollments := db.enrollments[id.s := row.(encryption := requested)]),
          Obj(response["status" := Str("registered")])))
  }

  /** The checks of `heartbeat`: the device repeats its identity. The result is its new presence. */
  function Beat(env: Env, db: Db, document: Json, token: Json, now: int): (r: Outcome<Presence>)
    ensures r.Ok? ==> document.Obj? && Authenticate(env, db, Get(document, "enrollment_id"), token, "read").Ok?
  {
    if !document.Obj? then Fail(Broken) else
    var row :- Authenticate(env, db, Get(document, "enrollment_id"), token, "read");
    :- Need(Get(document, "logical_device_id") == Str(row.device)
            && Get(document, "enrollment_generation") == Num(row.generation)
            && Get(document, "channel") == Str(row.channel), Unauthorized);
    var version := Get(document, "client_version");
    :- Need(version == Null || (version.Str? && IsClientVersion(version.s)), Invalid);
    var capabilities :- TargetTags(GetOr(document, "client_capabilities", Arr([])));
    var platform := Get(document, "platform");
    :- Need(platform == Null || (platform.Str? && IsPlatform(platform.s)), Invalid);
    Ok(Presence(Some(now), ToOption(version), TagText(capabilities), ToOption(platform),
                Some(env.digest(CanonicalJson(document)))))
  }

  /** `heartbeat`. */
  function Heartbeat(env: Env, db: Db, document: Json, token: Json, now: int): Effect {
    var presence :- Beat(env, db, document, token, now);
    var id := Get(document, "enrollment_id").s;
    Ok((db.(enrollments := db.enrollments[id := db.enrollments[id].(presence := presence)]),
        Obj(map["enrollment_id" := Str(id), "status" := Str("ok"), "revoked" := Bool(false)])))
  }

  /** `revoke_enrollment`. */
  function Revoke(db: Db, id: string): Effect {
    if id !in db.enrollments then Fail(NotFound) else
    Ok((db.(enrollments := db.enrollments[id := db.enrollments[id].(revoked := true)]),
        Obj(map["enrollment_id" := Str(id), "revoked" := Bool(true)])))
  }

  // ---------- Reads by a device ----------

  /** `revision`: the stored manifest, parsed. Each SELECT reads the tables as they are when it runs. */
  function ReadRevision(env: Env, caller: Db, stored: Db, revision: Json, id: Json, token: Json): Outcome<Json> {
    if !(revision.Str? && IsDigest(revision.s)) then Fail(NotFound) else
    var _ :- Authenticate(env, caller, id, token, "read");
    :- Need(revision.s in stored.revisions, NotFound);
    ReadJson(stored.revisions[revision.s])
  }

  /** The first SELECT of `assignment`. Without a token the caller is the operator; with one the enrollment must be
      enrolled on the channel. */
  function ReadCaller(env: Env, caller: Db, id: string, channel: string,
                      token: Option<Json>): Outcome<Option<Enrollment>> {
    match token
    case None => Ok(None)
    case Some(t) =>
      var row :- Authenticate(env, caller, Str(id), t, "read");
      :- Need(row.channel == channel, Unauthorized);
      Ok(Some(row))
  }

  /** `assignment`: the enrollment's own row on the channel, or else the channel's active revision. */
  function ReadAssignment(env: Env, caller: Db, rows: Db, heads: Db, id: string, channel: string,
                          token: Option<Json>): Outcome<Json> {
    var enrolled :- ReadCaller(env, caller, id, channel, token);
    if id in rows.assignments && rows.assignments[id].channel == channel then
      var document :- ReadJson(rows.assignments[id].document);
      Ok(Obj(map["assignment_kind" := Str(rows.assignments[id].kind), "document" := document]))
    else
      :- Need(channel in heads.channels && heads.channels[channel].active.Some?, NotFound);
      var fields := map["revision_id" := FromOption(heads.channels[channel].active),
                        "assignment_kind" := Str("active")];
      match enrolled
      case None => Ok(Obj(fields))
      case Some(row) =>
        var tags :- ReadTags(row.tags);
        Ok(Obj(fields["target_tags" := Arr(Strings(tags))]))
  }

  // ---------- What the operations leave alone ----------

  /** A row may change its encryption key, presence and revocation, nothing else, and stays revoked once it is. */
  predicate SameIdentity(row: Enrollment, after: Enrollment) {
    && after == row.(encryption := after.encryption, presence := after.presence, revoked := after.revoked)
    && (row.revoked ==> after.revoked)
  }

  predicate RowsGrow(rows: map<string, Enrollment>, after: map<string, Enrollment>) {
    forall e :: e in rows ==> e in after && SameIdentity(rows[e], after[e])
  }

  lemma NoChange(rows: map<string, Enrollment>)
    ensures RowsGrow(rows, rows)
  {
  }

  /** The effect is confined to enrollments and pairing codes; it may change codes only if `codes`, add a row only if
      `adds`. */
  predicate Touches(db: Db, effect: Effect, codes: bool, adds: bool) {
    effect.Ok? ==>
      var after := effect.value.0;
      && after == db.(enrollments := after.enrollments, pairingCodes := after.pairingCodes)
      && RowsGrow(db.enrollments, after.enrollments)
      && (!codes ==> after.pairingCodes == db.pairingCodes)
      && (!adds ==> after.enrollments.Keys == db.enrollments.Keys)
  }

  lemma CreateCodeTouches(env: Env, db: Db, device: string, channel: string, roles: Json, ttl: int, attempts: int,
                          code: string, tags: Json, now: int, later: int)
    ensures var effect := CreateCode(env, db, device, channel, roles, ttl, attempts, code, tags, now, later);
            Touches(db, effect, true, false) && (effect.Ok? ==> effect.value.0.enrollments == db.enrollments)
  {
    hide TargetTags, Roles, PairingDigest, PurgeCodes, TagText, Strings, IsChannel, IsPairingCode;
  }

  lemma PairTouches(env: Env, db: Db, code: Json, device: Json, channel: Json, keyId: Json, publicKey: Json,
                    encryptionKeyId: Json, encryptionKey: Json, now: int, id: string, token: string)
    ensures var effect := Pair(env, db, code, device, channel, keyId, publicKey, encryptionKeyId, encryptionKey, now,
                               id, token);
            Touches(db, effect, true, true)
  {
    hide PairRequest, ReadTags, ReadJson, PairingDigest, NewEnrollment, Highest, Generations, Strings, Usable;
  }

  lemma UpdateTouches(db: Db, id: string, row: Enrollment, response: Json)
    requires id in db.enrollments && SameIdentity(db.enrollments[id], row)
    ensures Touches(db, Ok((db.(enrollments := db.enrollments[id := row]), response)), false, false)
  {
  }

  lemma RegisterKeyTouches(env: Env, db: Db, id: Json, token: Json, generation: Json, keyId: Json, key: Json)
    ensures Touches(db, RegisterKey(env, db, id, token, generation, keyId, key), false, false)
  {
    hide Authenticate, IsKeyId, Base64Url.Decode, RowsGrow, SameIdentity;
    var effect := RegisterKey(env, db, id, token, generation, keyId, key);
    NoChange(db.enrollments);
    if effect.Ok? && effect.value.0 != db {
      var row := db.enrollments[id.s];
      var rekeyed := row.(encryption := (Some(keyId.s), ToOption(key)));
      Rekeyed(row, rekeyed.encryption);
      UpdateTouches(db, id.s, rekeyed, effect.value.1);
    }
  }

  lemma Rekeyed(row: Enrollment, encryption: (Option<string>, Option<string>))
    ensures SameIdentity(row, row.(encryption := encryption))
  {
  }

  lemma HeartbeatTouches(env: Env, db: Db, document: Json, token: Json, now: int)
    ensures Touches(db, Heartbeat(env, db, document, token, now), false, false)
  {
    hide Authenticate, TargetTags, TagText, IsClientVersion, IsPlatform, RowsGrow, SameIdentity, CanonicalJson,
         ToOption;
    var effect := Heartbeat(env, db, document, token, now);
    if effect.Ok? {
      var id := Get(document, "enrollment_id").s;
      var row := db.enrollments[id];
      var present := effect.value.0.enrollments[id];
      Present(row, present.presence);
      UpdateTouches(db, id, present, effect.value.1);
    }
  }

  lemma Present(row: Enrollment, presence: Presence)
    ensures SameIdentity(row, row.(presence := presence))
  {
  }

  lemma RevokeTouches(db: Db, id: string)
    ensures Touches(db, Revoke(db, id), false, false)
  {
  }
}
