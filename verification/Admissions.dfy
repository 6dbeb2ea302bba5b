/** When pairing codes are created and used, and what devices may do once enrolled. */
module Admissions {
  import opened Json
  import opened Text
  import opened JsonText
  import opened Utf8
  import opened Canonical
  import opened Formats
  import opened Documents
  import opened Tables
  import opened Enrolling
  import opened EnrollmentHistory
  import opened World
  import opened Justification
  import Base64Url

  // ---------- Creating a code ----------

  predicate IsRole(v: Json) {
    v == Str("read") || v == Str("publish")
  }

  lemma RoleExactly(v: Json)
    ensures IsRole(v) <==> v.Str? && v.s in ROLES
    ensures IsRole(v) ==> Hashable(v)
  {
  }

  /** Exactly the non-empty lists of the two roles without a repeat are accepted, as the increasing list of them. */
  lemma RolesExactly(roles: Json, r: seq<string>)
    ensures Roles(roles) == Ok(r) <==>
            && roles.Arr? && roles.items != [] && Distinct(roles.items)
            && (forall i :: 0 <= i < |roles.items| ==> IsRole(roles.items[i]))
            && Ascending(r) && Elements(r) == Texts(roles.items)
  {
    hide Sorted, Ascending, Texts, Elements, IsRole;
    SortedUnique(r);
    if roles.Arr? {
      DistinctCount(roles.items);
      forall v: Json
        ensures IsRole(v) <==> v.Str? && v.s in ROLES
        ensures IsRole(v) ==> Hashable(v)
      {
        RoleExactly(v);
      }
      forall v | v in roles.items
        ensures exists i :: 0 <= i < |roles.items| && roles.items[i] == v
      {
      }
      assert (forall i :: 0 <= i < |roles.items| ==> IsRole(roles.items[i])) <==>
             forall v :: v in roles.items ==> IsRole(v);
    }
  }

  /** The digest under which a code is kept. */
  function CodeDigest(env: Env, code: string): string {
    env.digest(Encode("mwo-profile-sync/pairing-code/v1\0" + code))
  }

  predicate Live(row: Pairing, now: int) {
    !row.consumed && row.expiresAt >= now
  }

  /** The live codes stay as they were, the others go, and the new row is added. */
  ghost predicate CodesLeft(codes: map<string, Pairing>, after: map<string, Pairing>, now: int, digest: string,
                            row: Pairing) {
    && digest in after && after[digest] == row
    && forall c :: c != digest ==>
         && (c in after <==> c in codes && Live(codes[c], now))
         && (c in after ==> after[c] == codes[c])
  }

  lemma PurgeKeepsLive(codes: map<string, Pairing>, now: int, digest: string, row: Pairing)
    ensures digest in PurgeCodes(codes, now) <==> digest in codes && Live(codes[digest], now)
    ensures CodesLeft(codes, PurgeCodes(codes, now)[digest := row], now, digest, row)
  {
  }

  /** Everything asked of a new code. */
  predicate CodeFits(env: Env, db: Db, device: string, channel: string, roles: Json, ttl: int, attempts: int,
                     code: string, tags: Json, later: int) {
    && IsChannel(device) && IsChannel(channel) && Roles(roles).Ok? && TargetTags(tags).Ok?
    && 30 <= ttl <= 1800 && 1 <= attempts <= 10 && IsPairingCode(code)
    && !(CodeDigest(env, code) in db.pairingCodes && Live(db.pairingCodes[CodeDigest(env, code)], later))
  }

  function CodeAnswer(device: string, channel: string, roles: seq<string>, tags: seq<string>, code: string,
                      expiresAt: int): Json {
    Obj(map["code" := Str(code), "logical_device_id" := Str(device), "channel" := Str(channel),
            "roles" := Arr(Strings(roles)), "target_tags" := Arr(Strings(tags)), "expires_at" := Num(expiresAt)])
  }

  /** A code is created exactly when it fits and no live code is its equal; what is kept and what is answered are the
      same device, channel, roles, tags and expiry. */
  lemma CreatesExactly(env: Env, db: Db, device: string, channel: string, roles: Json, ttl: int, attempts: int,
                       code: string, tags: Json, now: int, later: int)
    ensures var r := Enrolling.CreateCode(env, db, device, channel, roles, ttl, attempts, code, tags, now, later);
            && (r.Ok? <==> CodeFits(env, db, device, channel, roles, ttl, attempts, code, tags, later))
            && (r.Ok? ==>
                 var (granted, targets) := (Roles(roles).value, TargetTags(tags).value);
                 && r.value.1 == CodeAnswer(device, channel, granted, targets, code, now + ttl)
                 && r.value.0 == db.(pairingCodes := r.value.0.pairingCodes)
                 && CodesLeft(db.pairingCodes, r.value.0.pairingCodes, later, CodeDigest(env, code),
                              Pairing(device, channel, Dumps(Arr(Strings(granted))), Dumps(Arr(Strings(targets))),
                                      now + ttl, attempts, false)))
  {
    hide IsChannel, IsPairingCode, Roles, TargetTags, PurgeCodes, CodesLeft, Dumps, Strings, Encode;
    if Roles(roles).Ok? && TargetTags(tags).Ok? {
      PurgeKeepsLive(db.pairingCodes, later, CodeDigest(env, code),
                     Pairing(device, channel, TagText(Roles(roles).value), TagText(TargetTags(tags).value), now + ttl,
                             attempts, false));
    }
  }

  // ---------- What is kept under a code ----------

  /** The lists of a code's row are kept in order and in canonical form. */
  predicate KeptAs(row: Pairing, roles: seq<string>, tags: seq<string>) {
    && row.roles == TagText(roles) && row.tags == TagText(tags)
    && TargetTags(Arr(Strings(tags))) == Ok(tags)
  }

  ghost predicate CodeSound(row: Pairing) {
    && IsChannel(row.device) && IsChannel(row.channel)
    && exists roles, tags :: KeptAs(row, roles, tags)
  }

  ghost predicate CodesSound(codes: map<string, Pairing>) {
    forall c :: c in codes ==> CodeSound(codes[c])
  }

  lemma NewCodeIsSound(env: Env, db: Db, device: string, channel: string, roles: Json, ttl: int, attempts: int,
                       code: string, tags: Json, now: int, later: int)
    requires CodesSound(db.pairingCodes)
    requires Enrolling.CreateCode(env, db, device, channel, roles, ttl, attempts, code, tags, now, later).Ok?
    ensures CodesSound(Enrolling.CreateCode(env, db, device, channel, roles, ttl, attempts, code, tags, now,
                                  later).value.0.pairingCodes)
  {
    hide Enrolling.CreateCode, IsChannel, IsPairingCode, Roles, TargetTags, Dumps, Strings, Encode;
    CreatesExactly(env, db, device, channel, roles, ttl, attempts, code, tags, now, later);
    StoredTags(tags);
    var row := Pairing(device, channel, Dumps(Arr(Strings(Roles(roles).value))),
                       Dumps(Arr(Strings(TargetTags(tags).value))), now + ttl, attempts, false);
    assert KeptAs(row, Roles(roles).value, TargetTags(tags).value);
  }

  lemma SoundRowConsumed(row: Pairing)
    requires CodeSound(row)
    ensures CodeSound(row.(consumed := true))
  {
    hide IsChannel, TargetTags, TagText;
    var roles, tags :| KeptAs(row, roles, tags);
    assert KeptAs(row.(consumed := true), roles, tags);
  }

  lemma StepKeepsCodes(env: Env, s: State, op: Op)
    requires CodesSound(s.db.pairingCodes)
    ensures CodesSound(Step(env, s, op).0.db.pairingCodes)
  {
    hide Step, CodeSound, EnrollingEffect;
    if Pairs(env, s, op) {
      hide Pairs;
      PairStep(env, s, op);
      SoundRowConsumed(s.db.pairingCodes[PairingDigest(env, op.pairingCode.s)]);
    } else if op.CreateCode? && EnrollingEffect(env, s.db, op).Ok? {
      CreatedCodes(env, s, op);
    } else {
      NoPairStep(env, s, op);
      StepFrame(env, s, op);
      NoCreateStep(env, s, op);
    }
  }

  lemma CreatedCodes(env: Env, s: State, op: Op)
    requires op.CreateCode? && EnrollingEffect(env, s.db, op).Ok? && CodesSound(s.db.pairingCodes)
    ensures CodesSound(Step(env, s, op).0.db.pairingCodes)
  {
    hide Step, CodeSound, Enrolling.CreateCode;
    EnrollingStep(env, s, op);
    NewCodeIsSound(env, s.db, op.device, op.channel, op.roles, op.ttl, op.attempts, op.code, op.tags, op.now, op.later);
  }

  lemma {:induction false} CodesAlwaysSound(env: Env, ops: seq<Op>)
    ensures CodesSound(After(env, ops).db.pairingCodes)
    decreases |ops|
  {
    hide Step, CodeSound;
    if ops == [] {
      EmptyRun(env, ops);
    } else {
      hide CodesSound;
      CodesAlwaysSound(env, ops[..|ops| - 1]);
      LastStep(env, ops);
      StepKeepsCodes(env, After(env, ops[..|ops| - 1]), ops[|ops| - 1]);
    }
  }

  // ---------- Pairing ----------

  /** Thirty-two bytes in their one encoding. */
  ghost predicate IsPublicKey(v: Json) {
    exists key: Bytes :: |key| == 32 && v == Str(Base64Url.Encode(key))
  }

  lemma PublicKeyExactly(v: Json)
    ensures Base64Url.Decode(v, 32).Ok? <==> IsPublicKey(v)
  {
    hide Base64Url.Decode, Base64Url.Encode;
    if Base64Url.Decode(v, 32).Ok? {
      Base64Url.DecodeExactlyEncodings(v, 32, Base64Url.Decode(v, 32).value);
    }
    if IsPublicKey(v) {
      var key: Bytes :| |key| == 32 && v == Str(Base64Url.Encode(key));
      Base64Url.DecodeExactlyEncodings(v, 32, key);
    }
  }

  /** Neither part of an encryption key, or a key id and a public key. */
  ghost predicate EncryptionGiven(keyId: Json, key: Json) {
    (keyId == Null && key == Null) || (keyId.Str? && IsKeyId(keyId.s) && IsPublicKey(key))
  }

  /** Everything asked of a pairing: a live code for this device and channel, well-formed keys, and an enrollment id and
      key id that nobody has. */
  ghost predicate PairFits(env: Env, db: Db, code: Json, device: Json, channel: Json, keyId: Json, publicKey: Json,
                           encryptionKeyId: Json, encryptionKey: Json, now: int, id: string) {
    && code.Str? && IsPairingCode(code.s) && keyId.Str? && IsKeyId(keyId.s) && IsPublicKey(publicKey)
    && EncryptionGiven(encryptionKeyId, encryptionKey)
    && CodeDigest(env, code.s) in db.pairingCodes
    && var row := db.pairingCodes[CodeDigest(env, code.s)];
    && Live(row, now) && device == Str(row.device) && channel == Str(row.channel)
    && id !in db.enrollments && forall e :: e in db.enrollments ==> db.enrollments[e].keyId != keyId.s
  }

  lemma RequestExactly(code: Json, device: string, channel: string, keyId: Json, publicKey: Json,
                       encryptionKeyId: Json, encryptionKey: Json)
    requires IsChannel(device) && IsChannel(channel)
    ensures PairRequest(code, Str(device), Str(channel), keyId, publicKey, encryptionKeyId, encryptionKey).Ok? <==>
            && code.Str? && IsPairingCode(code.s) && keyId.Str? && IsKeyId(keyId.s) && IsPublicKey(publicKey)
            && EncryptionGiven(encryptionKeyId, encryptionKey)
  {
    hide IsChannel, IsPairingCode, IsKeyId, IsPublicKey, Base64Url.Decode;
    PublicKeyExactly(publicKey);
    PublicKeyExactly(encryptionKey);
    NoPublicKey();
  }

  lemma NoPublicKey()
    ensures !IsPublicKey(Null)
  {
    hide Base64Url.Encode;
  }

  /** The next generation of a device is one past its others, which are all there are before it. */
  ghost predicate NextGeneration(rows: map<string, Enrollment>, device: string, generation: nat) {
    generation >= 1 && forall n: nat :: n in Generations(rows, device) <==> 1 <= n < generation
  }

  lemma HighestIsNext(rows: map<string, Enrollment>, device: string)
    requires EnrollmentsSound(rows)
    ensures NextGeneration(rows, device, Highest(Generations(rows, device)) + 1)
  {
    hide Highest, Generations;
    assert Dense(Generations(rows, device));
  }

  /** The enrollment that a pairing adds: the code's device, channel, roles and tags, the given keys, and the digest of
      the token. */
  function EnrolledAs(env: Env, row: Pairing, generation: nat, keyId: string, publicKey: string,
                      encryptionKeyId: Json, encryptionKey: Json, now: int, token: string): Enrollment {
    Enrollment(row.device, generation, row.channel, row.roles, keyId, publicKey,
               (ToOption(encryptionKeyId), ToOption(encryptionKey)),
               env.digest(Encode("mwo-profile-sync/token/v1\0" + token)), row.tags, false, now,
               Presence(None, None, "[]", None, None))
  }

  /** The answer gives the device what it needs to go on: its enrollment, generation, roles, tags, token and the keys to
      trust. */
  predicate PairAnswers(env: Env, answer: Json, row: Pairing, generation: nat, id: string, token: string,
                        encryptionKeyId: Json) {
    && answer.Obj?
    && answer.fields.Keys == {"enrollment_id", "enrollment_generation", "logical_device_id", "channel", "roles",
                              "target_tags", "access_token", "trust", "encryption"}
    && Get(answer, "enrollment_id") == Str(id) && Get(answer, "enrollment_generation") == Num(generation)
    && Get(answer, "logical_device_id") == Str(row.device) && Get(answer, "channel") == Str(row.channel)
    && Dumps(Get(answer, "roles")) == row.roles && Dumps(Get(answer, "target_tags")) == row.tags
    && Get(answer, "access_token") == Str(token) && Get(answer, "trust") == env.trust
    && Get(answer, "encryption") == (if encryptionKeyId == Null then Null
                                     else Obj(map["key_id" := encryptionKeyId,
                                                  "suite" := Str("DHKEM_X25519_HKDF_SHA256")]))
  }

  ghost predicate PairLeft(env: Env, db: Db, after: Db, answer: Json, code: string, keyId: string, publicKey: string,
                           encryptionKeyId: Json, encryptionKey: Json, now: int, id: string, token: string)
    requires CodeDigest(env, code) in db.pairingCodes
  {
    var row := db.pairingCodes[CodeDigest(env, code)];
    && id in after.enrollments
    && var generation := after.enrollments[id].generation;
    && NextGeneration(db.enrollments, row.device, generation)
    && after.enrollments[id] == EnrolledAs(env, row, generation, keyId, publicKey, encryptionKeyId, encryptionKey, now,
                                           token)
    && PairAnswers(env, answer, row, generation, id, token, encryptionKeyId)
    && after == db.(enrollments := db.enrollments[id := after.enrollments[id]],
                    pairingCodes := db.pairingCodes[CodeDigest(env, code) := row.(consumed := true)])
  }

  lemma ListsReadBack(row: Pairing, roles: seq<string>, tags: seq<string>)
    requires KeptAs(row, roles, tags)
    ensures ReadJson(row.roles) == Ok(Arr(Strings(roles))) && Dumps(Arr(Strings(roles))) == row.roles
    ensures ReadTags(row.tags) == Ok(tags) && TagText(tags) == row.tags
  {
    hide Dumps, Loads, Strings, TargetTags;
    LoadsDumps(Arr(Strings(roles)));
    LoadsDumps(Arr(Strings(tags)));
  }

  lemma ResponseAnswers(env: Env, row: Pairing, generation: nat, id: string, token: string, encryptionKeyId: Json,
                        roles: seq<string>, tags: seq<string>)
    requires KeptAs(row, roles, tags)
    ensures PairAnswers(env, PairResponse(env, id, generation, Str(row.device), Str(row.channel), Arr(Strings(roles)),
                                          tags, token, encryptionKeyId), row, generation, id, token, encryptionKeyId)
  {
    hide Dumps, TargetTags;
  }

  lemma UniqueExactly(rows: map<string, Enrollment>, id: string, row: Enrollment)
    requires NextGeneration(rows, row.device, row.generation)
    ensures Unique(rows, id, row) <==> id !in rows && forall e :: e in rows ==> rows[e].keyId != row.keyId
  {
    forall e | e in rows && rows[e].device == row.device
      ensures rows[e].generation != row.generation
    {
      assert rows[e].generation in Generations(rows, row.device);
    }
  }

  lemma AdmissionExactly(env: Env, db: Db, row: Pairing, keyId: string, publicKey: string, encryptionKeyId: Json,
                         encryptionKey: Json, now: int, id: string, token: string)
    requires EnrollmentsSound(db.enrollments) && CodeSound(row)
    ensures var r := Admission(env, db, row, Str(row.device), Str(row.channel), keyId, publicKey, encryptionKeyId,
                               encryptionKey, now, id, token);
            && (r.Ok? <==> id !in db.enrollments && forall e :: e in db.enrollments ==>
                                                                db.enrollments[e].keyId != keyId)
            && (r.Ok? ==>
                 var generation := r.value.0.generation;
                 && NextGeneration(db.enrollments, row.device, generation)
                 && r.value.0 == EnrolledAs(env, row, generation, keyId, publicKey, encryptionKeyId, encryptionKey,
                                            now, token)
                 && PairAnswers(env, r.value.1, row, generation, id, token, encryptionKeyId))
  {
    hide EnrollmentsSound, NextGeneration, IsChannel, TargetTags, ReadJson, ReadTags, Dumps, Strings, PairResponse,
         PairAnswers, Unique, Highest, Generations, Encode, ToOption, KeptAs;
    var roles, tags :| KeptAs(row, roles, tags);
    ListsReadBack(row, roles, tags);
    HighestIsNext(db.enrollments, row.device);
    var generation := Highest(Generations(db.enrollments, row.device)) + 1;
    UniqueExactly(db.enrollments, id,
                  EnrolledAs(env, row, generation, keyId, publicKey, encryptionKeyId, encryptionKey, now, token));
    ResponseAnswers(env, row, generation, id, token, encryptionKeyId, roles, tags);
  }

  /** A pairing as one condition over its parts. */
  lemma PairParts(env: Env, db: Db, code: Json, device: Json, channel: Json, keyId: Json, publicKey: Json,
                  encryptionKeyId: Json, encryptionKey: Json, now: int, id: string, token: string)
    ensures var r := Pair(env, db, code, device, channel, keyId, publicKey, encryptionKeyId, encryptionKey, now, id,
                          token);
            && (r.Ok? ==> PairRequest(code, device, channel, keyId, publicKey, encryptionKeyId, encryptionKey).Ok?)
            && (PairRequest(code, device, channel, keyId, publicKey, encryptionKeyId, encryptionKey).Ok? ==>
                 var digest := CodeDigest(env, code.s);
                 if !(Usable(db.pairingCodes, digest, now) && Str(db.pairingCodes[digest].device) == device
                      && Str(db.pairingCodes[digest].channel) == channel) then r.Fail?
                 else
                   var row := db.pairingCodes[digest];
                   var admitted := Admission(env, db, row, device, channel, keyId.s, publicKey.s, encryptionKeyId,
                                             encryptionKey, now, id, token);
                   && (r.Ok? <==> admitted.Ok?)
                   && (r.Ok? ==> r.value == (db.(enrollments := db.enrollments[id := admitted.value.0],
                                                 pairingCodes := db.pairingCodes[digest := row.(consumed := true)]),
                                             admitted.value.1)))
  {
    hide PairRequest, Admission, Encode;
  }

  lemma PairActs(env: Env, db: Db, code: string, row: Pairing, keyId: Json, publicKey: Json, encryptionKeyId: Json,
                 encryptionKey: Json, now: int, id: string, token: string)
    requires EnrollmentsSound(db.enrollments) && CodeSound(row)
    requires CodeDigest(env, code) in db.pairingCodes && db.pairingCodes[CodeDigest(env, code)] == row
    requires Usable(db.pairingCodes, CodeDigest(env, code), now) <==> Live(row, now)
    ensures var r := Pair(env, db, Str(code), Str(row.device), Str(row.channel), keyId, publicKey, encryptionKeyId,
                          encryptionKey, now, id, token);
            && (r.Ok? <==> PairFits(env, db, Str(code), Str(row.device), Str(row.channel), keyId, publicKey,
                                    encryptionKeyId, encryptionKey, now, id))
            && (r.Ok? ==> keyId.Str? && publicKey.Str?
                          && PairLeft(env, db, r.value.0, r.value.1, code, keyId.s, publicKey.s, encryptionKeyId,
                                      encryptionKey, now, id, token))
  {
    hide Pair, EnrollmentsSound, NextGeneration, CodeSound, IsChannel, IsPairingCode, IsKeyId, PairRequest, Admission,
         PairAnswers, EnrolledAs, CodeDigest, Usable, IsPublicKey, EncryptionGiven, Live;
    SoundChannels(row);
    RequestExactly(Str(code), row.device, row.channel, keyId, publicKey, encryptionKeyId, encryptionKey);
    PairParts(env, db, Str(code), Str(row.device), Str(row.channel), keyId, publicKey, encryptionKeyId, encryptionKey,
              now, id, token);
    KeyIsText(publicKey);
    if keyId.Str? && publicKey.Str? {
      AdmissionExactly(env, db, row, keyId.s, publicKey.s, encryptionKeyId, encryptionKey, now, id, token);
    }
  }

  /** In every reachable state a pairing goes through exactly when it fits: the attempts of a code and the parsing of
      what it keeps never stand in its way. It adds the one enrollment that it is answered with and consumes the
      code. */
  lemma PairsExactly(env: Env, ops: seq<Op>, code: Json, device: Json, channel: Json, keyId: Json, publicKey: Json,
                     encryptionKeyId: Json, encryptionKey: Json, now: int, id: string, token: string)
    ensures var db := After(env, ops).db;
            var r := Pair(env, db, code, device, channel, keyId, publicKey, encryptionKeyId, encryptionKey, now, id,
                          token);
            && (r.Ok? <==> PairFits(env, db, code, device, channel, keyId, publicKey, encryptionKeyId, encryptionKey,
                                    now, id))
            && (r.Ok? ==> PairLeft(env, db, r.value.0, r.value.1, code.s, keyId.s, publicKey.s, encryptionKeyId,
                                   encryptionKey, now, id, token))
  {
    hide After, Pair, PairFits, PairLeft, EnrollmentsSound, CodeSound, CodeDigest, Usable;
    var db := After(env, ops).db;
    EnrollmentsAlwaysSound(env, ops);
    CodesAlwaysSound(env, ops);
    if ForThisDevice(env, db, code, device, channel) {
      var digest := CodeDigest(env, code.s);
      AttemptLimitNeverRefuses(env, ops, digest, now);
      PairActs(env, db, code.s, db.pairingCodes[digest], keyId, publicKey, encryptionKeyId, encryptionKey, now, id,
               token);
    } else {
      UnnamedFails(env, db, code, device, channel, keyId, publicKey, encryptionKeyId, encryptionKey, now, id, token);
    }
  }

  /** There is a code for this device and channel. */
  predicate ForThisDevice(env: Env, db: Db, code: Json, device: Json, channel: Json) {
    && code.Str? && CodeDigest(env, code.s) in db.pairingCodes
    && device == Str(db.pairingCodes[CodeDigest(env, code.s)].device)
    && channel == Str(db.pairingCodes[CodeDigest(env, code.s)].channel)
  }

  lemma UnnamedFails(env: Env, db: Db, code: Json, device: Json, channel: Json, keyId: Json, publicKey: Json,
                     encryptionKeyId: Json, encryptionKey: Json, now: int, id: string, token: string)
    requires !ForThisDevice(env, db, code, device, channel)
    ensures Pair(env, db, code, device, channel, keyId, publicKey, encryptionKeyId, encryptionKey, now, id,
                 token).Fail?
    ensures !PairFits(env, db, code, device, channel, keyId, publicKey, encryptionKeyId, encryptionKey, now, id)
  {
    hide Pair, PairRequest, Admission, CodeDigest, IsPairingCode, IsKeyId, IsPublicKey, EncryptionGiven;
    PairParts(env, db, code, device, channel, keyId, publicKey, encryptionKeyId, encryptionKey, now, id, token);
  }

  lemma SoundChannels(row: Pairing)
    requires CodeSound(row)
    ensures IsChannel(row.device) && IsChannel(row.channel)
  {
  }

  lemma KeyIsText(v: Json)
    ensures IsPublicKey(v) ==> v.Str?
  {
  }

  /** The answer is all a device needs: with the token it was given it is authenticated as the enrollment it was given,
      for each role it was given. The identifier and the token are as the server draws them. */
  lemma AnswerAuthenticates(env: Env, db: Db, after: Db, answer: Json, code: string, keyId: string, publicKey: string,
                            encryptionKeyId: Json, encryptionKey: Json, now: int, id: string, token: string,
                            role: string)
    requires CodeDigest(env, code) in db.pairingCodes && CodeSound(db.pairingCodes[CodeDigest(env, code)])
    requires PairLeft(env, db, after, answer, code, keyId, publicKey, encryptionKeyId, encryptionKey, now, id, token)
    requires IsEnrollment(id) && |token| >= 32 && Ascii(token)
    ensures answer.Obj? && Get(answer, "roles").Arr?
    ensures Authenticate(env, after, Get(answer, "enrollment_id"), Get(answer, "access_token"), role) ==
            if Str(role) in Get(answer, "roles").items then Ok(after.enrollments[id]) else Fail(Unauthorized)
  {
    hide CodeDigest, NextGeneration, IsEnrollment, Ascii, IsChannel, TargetTags, Encode, Dumps, Strings, KeptAs, Get,
         TagText;
    var row := db.pairingCodes[CodeDigest(env, code)];
    var roles, tags :| KeptAs(row, roles, tags);
    ListsReadBack(row, roles, tags);
    LoadsDumps(Get(answer, "roles"));
    assert Loads(row.roles) == Some(Arr(Strings(roles)));
  }

  // ---------- What an enrolled device may change ----------

  /** The enrollment's row alone is changed. */
  predicate RowLeft(db: Db, after: Db, id: string, row: Enrollment) {
    after == db.(enrollments := db.enrollments[id := row])
  }

  predicate Blank(o: Option<string>) {
    o == None || o == Some("")
  }

  /** A key is registered exactly for an authenticated device that names its generation and has no key or this very one;
      only the latter changes nothing. */
  lemma RegistersExactly(env: Env, db: Db, id: Json, token: Json, generation: Json, keyId: Json, key: Json)
    ensures var r := Enrolling.RegisterKey(env, db, id, token, generation, keyId, key);
            && (r.Ok? <==>
                 && keyId.Str? && IsKeyId(keyId.s) && IsPublicKey(key)
                 && Authenticate(env, db, id, token, "read").Ok?
                 && var row := db.enrollments[id.s];
                 && generation == Num(row.generation)
                 && (row.encryption == (Some(keyId.s), Some(key.s))
                     || (Blank(row.encryption.0) && Blank(row.encryption.1))))
            && (r.Ok? ==>
                 && id.Str? && id.s in db.enrollments && key.Str?
                 && var row := db.enrollments[id.s];
                 && var held := row.encryption == (Some(keyId.s), Some(key.s));
                 && r.value.1 == Obj(map["enrollment_id" := id, "enrollment_generation" := generation,
                                         "encryption_key_id" := keyId,
                                         "status" := Str(if held then "unchanged" else "registered")])
                 && RowLeft(db, r.value.0, id.s, row.(encryption := (Some(keyId.s), Some(key.s)))))
  {
    hide Authenticate, IsKeyId, IsPublicKey, Base64Url.Decode;
    PublicKeyExactly(key);
    KeyIsText(key);
    if id.Str? && id.s in db.enrollments {
      assert db.enrollments[id.s := db.enrollments[id.s]] == db.enrollments;
    }
  }

  /** A heartbeat is taken exactly from an authenticated device that repeats its own identity and says well-formed
      things about itself; it leaves what the device said, the time and the digest of the whole document. */
  lemma BeatsExactly(env: Env, db: Db, document: Json, token: Json, now: int)
    ensures var r := Enrolling.Heartbeat(env, db, document, token, now);
            && (r.Ok? <==> BeatFits(env, db, document, token))
            && (r.Ok? ==>
                 var id := Get(document, "enrollment_id").s;
                 var row := db.enrollments[id];
                 var said := Presence(Some(now), ToOption(Get(document, "client_version")),
                                      TagText(TargetTags(GetOr(document, "client_capabilities", Arr([]))).value),
                                      ToOption(Get(document, "platform")), Some(env.digest(CanonicalJson(document))));
                 && RowLeft(db, r.value.0, id, row.(presence := said))
                 && r.value.1 == Obj(map["enrollment_id" := Str(id), "status" := Str("ok"), "revoked" := Bool(false)]))
  {
    hide Authenticate, TargetTags, TagText, IsClientVersion, IsPlatform, CanonicalJson, ToOption, Get, GetOr;
  }

  predicate BeatFits(env: Env, db: Db, document: Json, token: Json) {
    && document.Obj? && Authenticate(env, db, Get(document, "enrollment_id"), token, "read").Ok?
    && var row := db.enrollments[Get(document, "enrollment_id").s];
    && Get(document, "logical_device_id") == Str(row.device)
    && Get(document, "enrollment_generation") == Num(row.generation) && Get(document, "channel") == Str(row.channel)
    && (Get(document, "client_version") == Null
        || (Get(document, "client_version").Str? && IsClientVersion(Get(document, "client_version").s)))
    && TargetTags(GetOr(document, "client_capabilities", Arr([]))).Ok?
    && (Get(document, "platform") == Null || (Get(document, "platform").Str?
                                              && IsPlatform(Get(document, "platform").s)))
  }

  /** Exactly a known enrollment is revoked, for its row alone. */
  lemma RevokesExactly(db: Db, id: string)
    ensures var r := Enrolling.Revoke(db, id);
            if id !in db.enrollments then r == Fail(NotFound) else
              && r.Ok? && RowLeft(db, r.value.0, id, db.enrollments[id].(revoked := true))
              && r.value.1 == Obj(map["enrollment_id" := Str(id), "revoked" := Bool(true)])
  {
  }

  /** A device is authenticated exactly by the token whose digest its unrevoked enrollment keeps, in a role that the
      enrollment holds. */
  lemma AuthenticatesExactly(env: Env, db: Db, id: Json, token: Json, role: string, row: Enrollment)
    ensures Authenticate(env, db, id, token, role) == Ok(row) <==>
            && id.Str? && IsEnrollment(id.s) && token.Str? && |token.s| >= 32
            && (forall i :: 0 <= i < |token.s| ==> token.s[i] as int < 128)
            && id.s in db.enrollments && db.enrollments[id.s] == row && !row.revoked
            && row.tokenDigest == env.digest(Encode("mwo-profile-sync/token/v1\0" + token.s))
            && Loads(row.roles).Some? && Loads(row.roles).value.Arr? && Str(role) in Loads(row.roles).value.items
  {
    hide IsEnrollment, Encode, Loads;
  }

  // ---------- The tags of an enrollment ----------

  ghost predicate TagsRead(rows: map<string, Enrollment>) {
    forall e :: e in rows ==> ReadTags(rows[e].tags).Ok?
  }

  lemma PairedTagsRead(env: Env, s: State, op: Op)
    requires Pairs(env, s, op) && CodesSound(s.db.pairingCodes) && TagsRead(s.db.enrollments)
    ensures TagsRead(Step(env, s, op).0.db.enrollments)
  {
    hide Step, Pair, Usable, IsChannel, TargetTags, ReadTags, Highest, Generations, PairingDigest;
    EnrollingStep(env, s, op);
    PairEnrolls(env, s.db, op.pairingCode, op.deviceId, op.channelName, op.keyId, op.publicKey, op.encryptionKeyId,
                op.encryptionKey, op.now, op.id, op.token);
    UsableIsKept(s.db.pairingCodes, PairingDigest(env, op.pairingCode.s), op.now);
    var row := s.db.pairingCodes[PairingDigest(env, op.pairingCode.s)];
    assert CodeSound(row);
    var roles, tags :| KeptAs(row, roles, tags);
    ListsReadBack(row, roles, tags);
  }

  lemma UsableIsKept(codes: map<string, Pairing>, digest: string, now: int)
    requires Usable(codes, digest, now)
    ensures digest in codes
  {
  }

  /** In every reachable state the tags kept for an enrollment can be read. */
  lemma {:induction false} TagsAlwaysRead(env: Env, ops: seq<Op>)
    ensures TagsRead(After(env, ops).db.enrollments)
    decreases |ops|
  {
    hide Step, ReadTags, Pairs;
    if ops == [] {
      EmptyRun(env, ops);
    } else {
      hide After;
      var s, op := After(env, ops[..|ops| - 1]), ops[|ops| - 1];
      TagsAlwaysRead(env, ops[..|ops| - 1]);
      LastStep(env, ops);
      if Pairs(env, s, op) {
        CodesAlwaysSound(env, ops[..|ops| - 1]);
        PairedTagsRead(env, s, op);
      } else {
        NoPairStep(env, s, op);
        StepFrame(env, s, op);
        SameTags(s.db.enrollments, Step(env, s, op).0.db.enrollments);
      }
    }
  }

  lemma SameTags(rows: map<string, Enrollment>, after: map<string, Enrollment>)
    requires RowsGrow(rows, after) && after.Keys == rows.Keys && TagsRead(rows)
    ensures TagsRead(after)
  {
    hide ReadTags;
    forall e | e in after
      ensures ReadTags(after[e].tags).Ok?
    {
      assert SameIdentity(rows[e], after[e]);
    }
  }

  // ---------- The public key of an enrollment ----------

  ghost predicate KeysRead(rows: map<string, Enrollment>) {
    forall e :: e in rows ==> Base64Url.Decode(Str(rows[e].publicKey), 32).Ok?
  }

  lemma PairedKeyReads(env: Env, db: Db, code: Json, device: Json, channel: Json, keyId: Json, publicKey: Json,
                       encryptionKeyId: Json, encryptionKey: Json, now: int, id: string, token: string)
    requires Pair(env, db, code, device, channel, keyId, publicKey, encryptionKeyId, encryptionKey, now, id, token).Ok?
    ensures Base64Url.Decode(publicKey, 32).Ok? && publicKey.Str?
    ensures var after := Pair(env, db, code, device, channel, keyId, publicKey, encryptionKeyId, encryptionKey, now, id,
                              token).value.0.enrollments;
            id in after && after[id].publicKey == publicKey.s
  {
    hide Base64Url.Decode, ReadJson, ReadTags, TargetTags, Unique, Usable, CodeDigest, IsPairingCode, IsKeyId,
         IsChannel;
  }

  /** In every reachable state the public key kept for an enrollment can be read. */
  lemma {:induction false} KeysAlwaysRead(env: Env, ops: seq<Op>)
    ensures KeysRead(After(env, ops).db.enrollments)
    decreases |ops|
  {
    hide Step, Pairs, Base64Url.Decode;
    if ops == [] {
      EmptyRun(env, ops);
    } else {
      hide After, Pair;
      var s, op := After(env, ops[..|ops| - 1]), ops[|ops| - 1];
      KeysAlwaysRead(env, ops[..|ops| - 1]);
      LastStep(env, ops);
      StepFrame(env, s, op);
      if Pairs(env, s, op) {
        PairKeepsKeys(env, s, op);
      } else {
        NoPairStep(env, s, op);
        SameKeys(s.db.enrollments, Step(env, s, op).0.db.enrollments);
      }
    }
  }

  lemma PairKeepsKeys(env: Env, s: State, op: Op)
    requires Pairs(env, s, op) && KeysRead(s.db.enrollments)
    ensures KeysRead(Step(env, s, op).0.db.enrollments)
  {
    hide Step, Pair, Usable, Highest, Generations, PairingDigest, ReadTags, Base64Url.Decode;
    EnrollingStep(env, s, op);
    PairEnrolls(env, s.db, op.pairingCode, op.deviceId, op.channelName, op.keyId, op.publicKey, op.encryptionKeyId,
                op.encryptionKey, op.now, op.id, op.token);
    PairedKeyReads(env, s.db, op.pairingCode, op.deviceId, op.channelName, op.keyId, op.publicKey, op.encryptionKeyId,
                   op.encryptionKey, op.now, op.id, op.token);
  }

  lemma SameKeys(rows: map<string, Enrollment>, after: map<string, Enrollment>)
    requires RowsGrow(rows, after) && after.Keys == rows.Keys && KeysRead(rows)
    ensures KeysRead(after)
  {
    hide Base64Url.Decode;
    forall e | e in after
      ensures Base64Url.Decode(Str(after[e].publicKey), 32).Ok?
    {
      assert SameIdentity(rows[e], after[e]);
    }
  }
}
