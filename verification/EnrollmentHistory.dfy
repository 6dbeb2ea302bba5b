/** Enrollments over whole runs: dense generations, unique keys, one enrollment per pairing code, identities that never
    change. */
module EnrollmentHistory {
  import opened Json
  import opened Documents
  import opened Tables
  import opened Enrolling
  import JsonText
  import Canonical
  import Base64Url
  import Formats
  import Rollout
  import Administration
  import Blobs
  import opened World
  import opened Justification

  /** The generations of every device are 1, 2, ..., n, each held by one enrollment, and no key id is held twice. */
  ghost predicate EnrollmentsSound(rows: map<string, Enrollment>) {
    && (forall device :: Dense(Generations(rows, device)))
    && (forall e, f :: e in rows && f in rows && e != f ==>
         rows[e].keyId != rows[f].keyId && !(rows[e].device == rows[f].device
                                             && rows[e].generation == rows[f].generation))
  }

  ghost predicate Dense(s: set<nat>) {
    forall n: nat :: n in s <==> 1 <= n <= Highest(s)
  }

  /** The new row is the next generation of its device. */
  predicate Enrolls(rows: map<string, Enrollment>, after: map<string, Enrollment>, id: string) {
    && id in after && id !in rows && after == rows[id := after[id]]
    && Unique(rows, id, after[id])
  }

  lemma PairEnrolls(env: Env, db: Db, code: Json, device: Json, channel: Json, keyId: Json, publicKey: Json,
                    encryptionKeyId: Json, encryptionKey: Json, now: int, id: string, token: string)
    requires Pair(env, db, code, device, channel, keyId, publicKey, encryptionKeyId, encryptionKey, now, id, token).Ok?
    ensures var after := Pair(env, db, code, device, channel, keyId, publicKey, encryptionKeyId, encryptionKey, now, id,
                              token).value.0;
            && Enrolls(db.enrollments, after.enrollments, id)
            && after.enrollments[id].generation ==
               Highest(Generations(db.enrollments, after.enrollments[id].device)) + 1
            && !after.enrollments[id].revoked
            && code.Str? && var digest := PairingDigest(env, code.s);
            && Usable(db.pairingCodes, digest, now)
            && after.pairingCodes == db.pairingCodes[digest := db.pairingCodes[digest].(consumed := true)]
            && after.enrollments[id].device == db.pairingCodes[digest].device
            && after.enrollments[id].channel == db.pairingCodes[digest].channel
            && ReadTags(after.enrollments[id].tags) == ReadTags(db.pairingCodes[digest].tags)
  {
    hide PairRequest, Highest, Generations, PairingDigest, TokenDigest, ReadJson, Strings;
    var pairing := db.pairingCodes[PairingDigest(env, code.s)];
    TagsRoundTrip(pairing.tags);
  }

  /** Tags read from a row and written back read the same. */
  lemma TagsRoundTrip(text: string)
    requires ReadTags(text).Ok?
    ensures ReadTags(TagText(ReadTags(text).value)) == ReadTags(text)
  {
    hide TargetTags, JsonText.Dumps, JsonText.Loads;
    var tags := ReadJson(text).value;
    StoredTags(tags);
    Canonical.LoadsDumps(Arr(Strings(ReadTags(text).value)));
  }

  lemma EnrollKeepsSound(rows: map<string, Enrollment>, after: map<string, Enrollment>, id: string)
    requires EnrollmentsSound(rows) && Enrolls(rows, after, id)
    requires after[id].generation == Highest(Generations(rows, after[id].device)) + 1
    ensures EnrollmentsSound(after)
  {
    hide Highest, Generations, Dense;
    forall device
      ensures Dense(Generations(after, device))
    {
      assert Dense(Generations(rows, device));
      GenerationsAfter(rows, after, id, device);
      if device == after[id].device {
        NextIsDense(Generations(rows, device));
      } else {
        assert Generations(after, device) == Generations(rows, device);
      }
    }
    forall e, f | e in after && f in after && e != f
      ensures after[e].keyId != after[f].keyId
              && !(after[e].device == after[f].device && after[e].generation == after[f].generation)
    {
      assert Unique(rows, id, after[id]);
    }
  }

  lemma NextIsDense(s: set<nat>)
    requires Dense(s)
    ensures Dense(s + {Highest(s) + 1})
  {
    var t := s + {Highest(s) + 1};
    HighestIs(t, Highest(s) + 1);
  }

  lemma GenerationsAfter(rows: map<string, Enrollment>, after: map<string, Enrollment>, id: string, device: string)
    requires id in after && id !in rows && after == rows[id := after[id]]
    ensures Generations(after, device) ==
            Generations(rows, device) + (if after[id].device == device then {after[id].generation} else {})
  {
    forall g: nat | g in Generations(rows, device)
      ensures g in Generations(after, device)
    {
      var e :| e in rows && rows[e].device == device && rows[e].generation == g;
      assert after[e] == rows[e];
    }
  }

  lemma HighestIs(s: set<nat>, m: nat)
    requires m in s && forall n :: n in s ==> n <= m
    ensures Highest(s) == m
  {
  }

  lemma UpdateKeepsSound(rows: map<string, Enrollment>, after: map<string, Enrollment>)
    requires EnrollmentsSound(rows) && RowsGrow(rows, after) && after.Keys == rows.Keys
    ensures EnrollmentsSound(after)
  {
    hide Highest, Dense;
    forall device
      ensures Dense(Generations(after, device))
    {
      assert forall e :: e in after ==> SameIdentity(rows[e], after[e]);
      SameGenerations(rows, after, device);
      assert Dense(Generations(rows, device));
    }
  }

  lemma SameGenerations(rows: map<string, Enrollment>, after: map<string, Enrollment>, device: string)
    requires RowsGrow(rows, after) && after.Keys == rows.Keys
    ensures Generations(after, device) == Generations(rows, device)
  {
    assert forall e :: e in rows ==> SameIdentity(rows[e], after[e]);
    forall g: nat
      ensures g in Generations(after, device) <==> g in Generations(rows, device)
    {
      if g in Generations(rows, device) {
        var e :| e in rows && rows[e].device == device && rows[e].generation == g;
        assert after[e].device == device && after[e].generation == g;
      }
      if g in Generations(after, device) {
        var e :| e in after && after[e].device == device && after[e].generation == g;
        assert rows[e].device == device && rows[e].generation == g;
      }
    }
  }

  /** A committed pairing of a step, by enrollment id and pairing code digest. */
  ghost predicate Pairs(env: Env, s: State, op: Op) {
    op.PairDevice? && EnrollingEffect(env, s.db, op).Ok?
  }

  lemma PairStep(env: Env, s: State, op: Op)
    requires Pairs(env, s, op)
    ensures op.PairDevice?
    ensures var after := Step(env, s, op).0.db;
            && Enrolls(s.db.enrollments, after.enrollments, op.id)
            && after.enrollments[op.id].generation ==
               Highest(Generations(s.db.enrollments, after.enrollments[op.id].device)) + 1
            && !after.enrollments[op.id].revoked
            && op.pairingCode.Str? && var digest := PairingDigest(env, op.pairingCode.s);
            && Usable(s.db.pairingCodes, digest, op.now)
            && after.pairingCodes == s.db.pairingCodes[digest := s.db.pairingCodes[digest].(consumed := true)]
  {
    hide Pair, Enrolls, Highest, Generations, PairingDigest, Usable, Rollout.Call, Administration.Authorize,
         Blobs.PutBlob, ReadTags;
    PairEnrolls(env, s.db, op.pairingCode, op.deviceId, op.channelName, op.keyId, op.publicKey, op.encryptionKeyId,
                op.encryptionKey, op.now, op.id, op.token);
  }

  lemma NoPairStep(env: Env, s: State, op: Op)
    requires !Pairs(env, s, op)
    ensures Step(env, s, op).0.db.enrollments.Keys == s.db.enrollments.Keys
    ensures op.PairDevice? ==> Step(env, s, op).0 == s
  {
    hide EnrollingEffect, Rollout.Call, Administration.Authorize, Blobs.PutBlob, BeginUpload, EndUpload;
    StepFrame(env, s, op);
  }

  lemma StepKeepsEnrollments(env: Env, s: State, op: Op)
    requires EnrollmentsSound(s.db.enrollments)
    ensures EnrollmentsSound(Step(env, s, op).0.db.enrollments)
  {
    hide Step, Enrolls, Dense, EnrollmentsSound, Pairs;
    var after := Step(env, s, op).0.db.enrollments;
    if Pairs(env, s, op) {
      PairStep(env, s, op);
      EnrollKeepsSound(s.db.enrollments, after, op.id);
    } else {
      NoPairStep(env, s, op);
      StepFrame(env, s, op);
      UpdateKeepsSound(s.db.enrollments, after);
    }
  }

  /** In every reachable state each device's generations are exactly 1 to n, one enrollment each, and key ids are
      unique. */
  lemma {:induction false} EnrollmentsAlwaysSound(env: Env, ops: seq<Op>)
    ensures EnrollmentsSound(After(env, ops).db.enrollments)
    decreases |ops|
  {
    hide Step;
    if ops == [] {
      EmptyRun(env, ops);
      NoneEnrolled();
    } else {
      hide EnrollmentsSound;
      EnrollmentsAlwaysSound(env, ops[..|ops| - 1]);
      LastStep(env, ops);
      StepKeepsEnrollments(env, After(env, ops[..|ops| - 1]), ops[|ops| - 1]);
    }
  }

  lemma NoneEnrolled()
    ensures EnrollmentsSound(map[])
  {
    forall device
      ensures Dense(Generations(map[], device))
    {
      assert Generations(map[], device) == {};
    }
  }

  // ---------- Identities ----------

  lemma GrowthComposes(a: map<string, Enrollment>, b: map<string, Enrollment>, c: map<string, Enrollment>)
    requires RowsGrow(a, b) && RowsGrow(b, c)
    ensures RowsGrow(a, c)
  {
    forall e | e in a
      ensures e in c && SameIdentity(a[e], c[e])
    {
      assert SameIdentity(a[e], b[e]) && SameIdentity(b[e], c[e]);
    }
  }

  /** Once enrolled, a device keeps its enrollment for the rest of the run, with the same device, generation, channel,
      roles, signing key, token and tags; and once revoked it stays revoked. */
  lemma {:induction false} IdentitiesNeverChange(env: Env, ops: seq<Op>, i: nat, n: nat)
    requires i <= n <= |ops|
    ensures RowsGrow(Before(env, ops, i).db.enrollments, Before(env, ops, n).db.enrollments)
    decreases n
  {
    hide Step, After, RowsGrow;
    if i == n {
      NoChange(Before(env, ops, i).db.enrollments);
    } else {
      IdentitiesNeverChange(env, ops, i, n - 1);
      StepOfRun(env, ops, n - 1);
      StepFrame(env, Before(env, ops, n - 1), ops[n - 1]);
      GrowthComposes(Before(env, ops, i).db.enrollments, Before(env, ops, n - 1).db.enrollments,
                     Before(env, ops, n).db.enrollments);
    }
  }

  predicate HasKey(row: Enrollment) {
    Truthy(row.encryption.0) || Truthy(row.encryption.1)
  }

  lemma RegisterKeepsKey(env: Env, db: Db, id: Json, token: Json, generation: Json, keyId: Json, key: Json, e: string)
    requires Enrolling.RegisterKey(env, db, id, token, generation, keyId, key).Ok?
    requires e in db.enrollments && HasKey(db.enrollments[e])
    ensures var after := Enrolling.RegisterKey(env, db, id, token, generation, keyId, key).value.0.enrollments;
            e in after && after[e].encryption == db.enrollments[e].encryption
  {
    hide Authenticate, Formats.IsKeyId, Base64Url.Decode;
  }

  lemma HeartbeatKeepsKey(env: Env, db: Db, document: Json, token: Json, now: int, e: string)
    requires Enrolling.Heartbeat(env, db, document, token, now).Ok? && e in db.enrollments
    ensures var after := Enrolling.Heartbeat(env, db, document, token, now).value.0.enrollments;
            e in after && after[e].encryption == db.enrollments[e].encryption
  {
    hide Authenticate, TargetTags, TagText, Formats.IsClientVersion, Formats.IsPlatform;
  }

  lemma StepKeepsKey(env: Env, s: State, op: Op, e: string)
    requires e in s.db.enrollments && HasKey(s.db.enrollments[e])
    ensures var after := Step(env, s, op).0.db.enrollments;
            e in after && after[e].encryption == s.db.enrollments[e].encryption
  {
    hide Pair, Enrolling.RegisterKey, Enrolling.Heartbeat, Enrolling.CreateCode, Rollout.Call, Administration.Authorize,
         Blobs.PutBlob, BeginUpload, EndUpload,
         SameIdentity, HasKey, Enrolls;
    StepFrame(env, s, op);
    if Step(env, s, op).1.Ok? {
      match op
      case RegisterKey(id, token, generation, keyId, key) =>
        RegisterKeepsKey(env, s.db, id, token, generation, keyId, key, e);
      case Heartbeat(document, token, now) => HeartbeatKeepsKey(env, s.db, document, token, now, e);
      case PairDevice(_, _, _, _, _, _, _, _, _, _) =>
        PairStep(env, s, op);
        EnrollsKeeps(s.db.enrollments, Step(env, s, op).0.db.enrollments, op.id, e);
      case _ =>
    }
  }

  lemma EnrollsKeeps(rows: map<string, Enrollment>, after: map<string, Enrollment>, id: string, e: string)
    requires Enrolls(rows, after, id) && e in rows
    ensures e in after && after[e] == rows[e]
  {
  }

  /** An encryption key, once set, is never replaced. */
  lemma {:induction false} KeysNeverReplaced(env: Env, ops: seq<Op>, i: nat, n: nat, e: string)
    requires i <= n <= |ops|
    requires e in Before(env, ops, i).db.enrollments && HasKey(Before(env, ops, i).db.enrollments[e])
    ensures e in Before(env, ops, n).db.enrollments
    ensures Before(env, ops, n).db.enrollments[e].encryption == Before(env, ops, i).db.enrollments[e].encryption
    decreases n
  {
    hide Step, After;
    if i < n {
      KeysNeverReplaced(env, ops, i, n - 1, e);
      StepOfRun(env, ops, n - 1);
      StepKeepsKey(env, Before(env, ops, n - 1), ops[n - 1], e);
    }
  }

  // ---------- Pairing codes ----------

  ghost predicate PairedAt(env: Env, ops: seq<Op>, i: nat, digest: string) {
    i < |ops| && Pairs(env, Before(env, ops, i), ops[i]) && PairingDigest(env, ops[i].pairingCode.s) == digest
  }

  ghost predicate CreatedAt(env: Env, ops: seq<Op>, i: nat, digest: string) {
    i < |ops| && ops[i].CreateCode? && EnrollingEffect(env, Before(env, ops, i).db, ops[i]).Ok?
    && PairingDigest(env, ops[i].code) == digest
  }

  predicate Spent(codes: map<string, Pairing>, digest: string) {
    digest in codes ==> codes[digest].consumed
  }

  lemma CreateStep(env: Env, s: State, op: Op)
    requires op.CreateCode? && EnrollingEffect(env, s.db, op).Ok?
    ensures var codes := Step(env, s, op).0.db.pairingCodes;
            forall digest :: digest in codes && digest != PairingDigest(env, op.code) ==>
              digest in s.db.pairingCodes && codes[digest] == s.db.pairingCodes[digest]
  {
    hide Pair, Enrolling.RegisterKey, Enrolling.Heartbeat, Rollout.Call, Administration.Authorize, Blobs.PutBlob,
         BeginUpload, EndUpload, TargetTags, Roles,
         PairingDigest, TagText;
  }

  lemma StaysSpent(env: Env, ops: seq<Op>, i: nat, digest: string)
    requires i < |ops| && Spent(Before(env, ops, i).db.pairingCodes, digest) && !CreatedAt(env, ops, i, digest)
    ensures Spent(Before(env, ops, i + 1).db.pairingCodes, digest)
    ensures !PairedAt(env, ops, i, digest)
  {
    hide Step, After, PairingDigest, EnrollingEffect;
    var s := Before(env, ops, i);
    StepOfRun(env, ops, i);
    if Pairs(env, s, ops[i]) {
      PairStep(env, s, ops[i]);
    } else if ops[i].CreateCode? && EnrollingEffect(env, s.db, ops[i]).Ok? {
      CreateStep(env, s, ops[i]);
    } else {
      NoPairStep(env, s, ops[i]);
      StepFrame(env, s, ops[i]);
      NoCreateStep(env, s, ops[i]);
    }
  }

  lemma NoCreateStep(env: Env, s: State, op: Op)
    requires op.CreateCode? ==> EnrollingEffect(env, s.db, op).Fail?
    ensures op.CreateCode? ==> Step(env, s, op).0 == s
  {
    hide EnrollingEffect, Rollout.Call, Administration.Authorize, Blobs.PutBlob, BeginUpload, EndUpload;
  }

  lemma {:induction false} SpentUntilCreated(env: Env, ops: seq<Op>, j: nat, k: nat, digest: string)
    requires j < k <= |ops| && PairedAt(env, ops, j, digest)
    requires forall i: nat :: j < i < k ==> !CreatedAt(env, ops, i, digest)
    ensures Spent(Before(env, ops, k).db.pairingCodes, digest)
    decreases k
  {
    hide Step, After, PairingDigest, EnrollingEffect;
    if j == k - 1 {
      StepOfRun(env, ops, j);
      PairStep(env, Before(env, ops, j), ops[j]);
    } else {
      SpentUntilCreated(env, ops, j, k - 1, digest);
      assert !CreatedAt(env, ops, k - 1, digest);
      StaysSpent(env, ops, k - 1, digest);
    }
  }

  /** Between two enrollments with one pairing code the code was created anew: a created code yields at most one
      enrollment, whatever is purged and however often its digest is reused. */
  lemma OneEnrollmentPerCode(env: Env, ops: seq<Op>, j: nat, k: nat, digest: string)
    requires j < k && PairedAt(env, ops, j, digest) && PairedAt(env, ops, k, digest)
    ensures exists i: nat :: j < i < k && CreatedAt(env, ops, i, digest)
  {
    hide Step, After, PairingDigest, EnrollingEffect, CreatedAt;
    if forall i: nat :: j < i < k ==> !CreatedAt(env, ops, i, digest) {
      SpentUntilCreated(env, ops, j, k, digest);
      PairStep(env, Before(env, ops, k), ops[k]);
      assert false;
    }
  }

  // ---------- The attempt limit ----------

  /** Operation `i` created the code's present row, with these attempts. */
  ghost predicate CreatedLast(env: Env, ops: seq<Op>, i: nat, digest: string)
    ensures CreatedLast(env, ops, i, digest) ==> i < |ops| && ops[i].CreateCode?
  {
    CreatedAt(env, ops, i, digest) && forall j: nat :: i < j < |ops| ==> !CreatedAt(env, ops, j, digest)
  }

  lemma CreatedRow(env: Env, s: State, op: Op)
    requires op.CreateCode? && EnrollingEffect(env, s.db, op).Ok?
    ensures 1 <= op.attempts <= 10
    ensures var codes := Step(env, s, op).0.db.pairingCodes;
            PairingDigest(env, op.code) in codes && codes[PairingDigest(env, op.code)].attempts == op.attempts
  {
    hide Pair, Enrolling.RegisterKey, Enrolling.Heartbeat, Rollout.Call, Administration.Authorize, Blobs.PutBlob,
         BeginUpload, EndUpload, TargetTags, Roles, PairingDigest, TagText, PurgeCodes;
  }

  lemma PairedRow(env: Env, s: State, op: Op, digest: string)
    requires Pairs(env, s, op) && digest in Step(env, s, op).0.db.pairingCodes
    ensures digest in s.db.pairingCodes
    ensures Step(env, s, op).0.db.pairingCodes[digest].attempts == s.db.pairingCodes[digest].attempts
  {
    hide Step, PairingDigest;
    PairStep(env, s, op);
  }

  /** No step but its own creation gives a code its attempts. */
  lemma AttemptsStep(env: Env, ops: seq<Op>, digest: string)
    requires ops != [] && digest in After(env, ops).db.pairingCodes && !CreatedAt(env, ops, |ops| - 1, digest)
    ensures digest in After(env, ops[..|ops| - 1]).db.pairingCodes
    ensures After(env, ops).db.pairingCodes[digest].attempts ==
            After(env, ops[..|ops| - 1]).db.pairingCodes[digest].attempts
  {
    hide Step, After, PairingDigest, EnrollingEffect, Pairs;
    var n := |ops| - 1;
    var s := After(env, ops[..n]);
    LastStep(env, ops);
    if Pairs(env, s, ops[n]) {
      PairedRow(env, s, ops[n], digest);
    } else if ops[n].CreateCode? && EnrollingEffect(env, s.db, ops[n]).Ok? {
      CreateStep(env, s, ops[n]);
    } else {
      NoPairStep(env, s, ops[n]);
      StepFrame(env, s, ops[n]);
      NoCreateStep(env, s, ops[n]);
    }
  }

  lemma CreatedInPrefix(env: Env, ops: seq<Op>, i: nat, digest: string)
    requires i < |ops| - 1
    ensures CreatedAt(env, ops, i, digest) <==> CreatedAt(env, ops[..|ops| - 1], i, digest)
  {
    hide After, EnrollingEffect, PairingDigest;
    assert ops[..|ops| - 1][..i] == ops[..i];
  }

  /** In every reachable state a pairing code still has the attempts that its latest creation gave it: a mismatch counts
      one down and then raises, which rolls the count back. */
  lemma {:induction false} AttemptsStayAsCreated(env: Env, ops: seq<Op>, digest: string)
    requires digest in After(env, ops).db.pairingCodes
    ensures exists i: nat :: CreatedLast(env, ops, i, digest) && 1 <= ops[i].attempts <= 10
                             && After(env, ops).db.pairingCodes[digest].attempts == ops[i].attempts
    decreases |ops|
  {
    hide Step, PairingDigest, EnrollingEffect, CreatedAt;
    if ops == [] {
      EmptyRun(env, ops);
    } else {
      hide After;
      var n := |ops| - 1;
      if CreatedAt(env, ops, n, digest) {
        CreatedNow(env, ops, digest);
        assert CreatedLast(env, ops, n, digest);
      } else {
        AttemptsStep(env, ops, digest);
        AttemptsStayAsCreated(env, ops[..n], digest);
        var i: nat :| CreatedLast(env, ops[..n], i, digest) && 1 <= ops[..n][i].attempts <= 10
                      && After(env, ops[..n]).db.pairingCodes[digest].attempts == ops[..n][i].attempts;
        forall j: nat | j < n
          ensures CreatedAt(env, ops, j, digest) <==> CreatedAt(env, ops[..n], j, digest)
        {
          CreatedInPrefix(env, ops, j, digest);
        }
        assert CreatedLast(env, ops, i, digest);
      }
    }
  }

  lemma CreatedNow(env: Env, ops: seq<Op>, digest: string)
    requires ops != [] && CreatedAt(env, ops, |ops| - 1, digest)
    ensures ops[|ops| - 1].CreateCode? && 1 <= ops[|ops| - 1].attempts <= 10
    ensures digest in After(env, ops).db.pairingCodes
    ensures After(env, ops).db.pairingCodes[digest].attempts == ops[|ops| - 1].attempts
  {
    hide Step, After, PairingDigest, EnrollingEffect;
    LastStep(env, ops);
    CreatedRow(env, Before(env, ops, |ops| - 1), ops[|ops| - 1]);
  }

  /** So the attempt limit never refuses anybody: a code is usable exactly while it is unconsumed and unexpired. */
  lemma AttemptLimitNeverRefuses(env: Env, ops: seq<Op>, digest: string, now: int)
    ensures var codes := After(env, ops).db.pairingCodes;
            Usable(codes, digest, now) <==> digest in codes && !codes[digest].consumed && now <= codes[digest].expiresAt
  {
    hide After, CreatedLast;
    if digest in After(env, ops).db.pairingCodes {
      AttemptsStayAsCreated(env, ops, digest);
    }
  }
}
