/** Runs: arbitrary sequences of calls on one store, starting from an empty one. */
module World {
  import opened Json
  import opened JsonText
  import opened Utf8
  import opened Documents
  import opened Tables
  import Rollout
  import RolloutInvariant
  import Enrolling
  import Administration
  import Blobs

  /** The database, the blob files, and the revision uploads that have read the table but not yet inserted. */
  datatype State = State(db: Db, files: Blobs.Files, uploads: map<nat, (string, string)>)

  const START := State(EMPTY, map[], map[])

  datatype Op =
    | CallRollout(key: string, request: Rollout.Request, now: int, ties: map<string, string>)
    | BeginRevision(caller: nat, manifest: Json)
    | EndRevision(caller: nat)
    | CreateCode(device: string, channel: string, roles: Json, ttl: int, attempts: int, code: string, tags: Json,
                 now: int, later: int)
    | PairDevice(pairingCode: Json, deviceId: Json, channelName: Json, keyId: Json, publicKey: Json,
                 encryptionKeyId: Json, encryptionKey: Json, now: int, id: string, token: string)
    | RegisterKey(enrollment: Json, accessToken: Json, generation: Json, newKeyId: Json, newKey: Json)
    | Heartbeat(document: Json, accessToken: Json, now: int)
    | Revoke(id: string)
    | Authorize(document: Json, operation: string, key: string, now: int)
    | PutBlob(digest: string, payload: Bytes, media: Json, space: bool, now: int, crash: Blobs.Crash)

  type Result = (State, Outcome<Json>)

  function Apply(s: State, effect: Outcome<(Db, Json)>): Result {
    match effect
    case Fail(fault) => (s, Fail(fault))
    case Ok((db, response)) => (s.(db := db), Ok(response))
  }

  // ---------- Revision uploads ----------

  /** `put_revision` up to and including its SELECT, which runs outside any transaction. */
  function BeginUpload(env: Env, s: State, caller: nat, manifest: Json): Result {
    if caller in s.uploads || !env.verify("revision", manifest) then (s, Fail(Invalid)) else
      match ValidateRevision(env.digest, manifest)
      case Fail(fault) => (s, Fail(fault))
      case Ok(id) =>
        if id in s.db.revisions && s.db.revisions[id] != Dumps(manifest) then (s, Fail(Conflict))
        else (s.(uploads := s.uploads[caller := (id, Dumps(manifest))]), Ok(Null))
  }

  /** The `INSERT OR IGNORE` of an upload, in a transaction of its own. */
  function EndUpload(s: State, caller: nat): Result {
    if caller !in s.uploads then (s, Fail(Broken)) else
      var (id, payload) := s.uploads[caller];
      var revisions := if id in s.db.revisions then s.db.revisions else s.db.revisions[id := payload];
      (s.(db := s.db.(revisions := revisions), uploads := s.uploads - {caller}), Ok(Obj(map["revision_id" := Str(id)])))
  }

  // ---------- Steps and runs ----------

  ghost function EnrollingEffect(env: Env, db: Db, op: Op): Enrolling.Effect
    requires op.CreateCode? || op.PairDevice? || op.RegisterKey? || op.Heartbeat? || op.Revoke?
  {
    match op
    case CreateCode(device, channel, roles, ttl, attempts, code, tags, now, later) =>
      Enrolling.CreateCode(env, db, device, channel, roles, ttl, attempts, code, tags, now, later)
    case PairDevice(code, device, channel, keyId, publicKey, encryptionKeyId, encryptionKey, now, id, token) =>
      Enrolling.Pair(env, db, code, device, channel, keyId, publicKey, encryptionKeyId, encryptionKey, now, id, token)
    case RegisterKey(id, token, generation, keyId, key) =>
      Enrolling.RegisterKey(env, db, id, token, generation, keyId, key)
    case Heartbeat(document, token, now) => Enrolling.Heartbeat(env, db, document, token, now)
    case Revoke(id) => Enrolling.Revoke(db, id)
  }

  ghost function Step(env: Env, s: State, op: Op): Result {
    match op
    case CallRollout(key, request, now, ties) =>
      var (db, r) := Rollout.Call(env, s.db, key, request, now, ties);
      (s.(db := db), r)
    case BeginRevision(caller, manifest) => BeginUpload(env, s, caller, manifest)
    case EndRevision(caller) => EndUpload(s, caller)
    case Authorize(document, operation, key, now) =>
      Apply(s, Administration.Authorize(env, s.db, document, operation, key, now))
    case PutBlob(digest, payload, media, space, now, crash) =>
      var (db, files, r) := Blobs.PutBlob(env, s.db, s.files, digest, payload, media, space, now, crash);
      // The death of the process also ends every upload in flight.
      (State(db, files, if r == Fail(Crashed) then map[] else s.uploads), r)
    case _ => Apply(s, EnrollingEffect(env, s.db, op))
  }

  lemma RolloutStep(env: Env, s: State, op: Op)
    requires op.CallRollout?
    ensures var (db, r) := Rollout.Call(env, s.db, op.key, op.request, op.now, op.ties);
            Step(env, s, op) == (s.(db := db), r)
  {
    hide Rollout.Call, Administration.Authorize, Blobs.PutBlob, EnrollingEffect, BeginUpload, EndUpload;
  }

  lemma AuthorizeStep(env: Env, s: State, op: Op)
    requires op.Authorize?
    ensures Step(env, s, op) == Apply(s, Administration.Authorize(env, s.db, op.document, op.operation, op.key, op.now))
  {
    hide Rollout.Call, Administration.Authorize, Blobs.PutBlob, EnrollingEffect, BeginUpload, EndUpload;
  }

  lemma EnrollingStep(env: Env, s: State, op: Op)
    requires op.CreateCode? || op.PairDevice? || op.RegisterKey? || op.Heartbeat? || op.Revoke?
    ensures Step(env, s, op) == Apply(s, EnrollingEffect(env, s.db, op))
  {
    hide Rollout.Call, Administration.Authorize, Blobs.PutBlob, EnrollingEffect, BeginUpload, EndUpload;
  }

  lemma PutStep(env: Env, s: State, op: Op)
    requires op.PutBlob?
    ensures Step(env, s, op) ==
            match Blobs.Admissible(env, op.digest, op.payload, op.media)
            case Fail(fault) => (s, Fail(fault))
            case Ok(put) =>
              var (db, files, r) := Blobs.PutAdmitted(s.db, s.files, put, op.space, op.now, op.crash);
              (State(db, files, if r == Fail(Crashed) then map[] else s.uploads), r)
    ensures Blobs.Admissible(env, op.digest, op.payload, op.media) != Fail(Crashed)
  {
    hide Rollout.Call, Administration.Authorize, EnrollingEffect, BeginUpload, EndUpload, Blobs.Admissible,
         Blobs.PutAdmitted;
    Blobs.AdmissibleNeverCrashes(env, op.digest, op.payload, op.media);
  }

  ghost function After(env: Env, ops: seq<Op>): State
    decreases |ops|
  {
    if ops == [] then START else Step(env, After(env, ops[..|ops| - 1]), ops[|ops| - 1]).0
  }

  lemma EmptyRun(env: Env, ops: seq<Op>)
    requires ops == []
    ensures After(env, ops) == START
  {
    hide Step;
  }

  lemma OneMoreStep(env: Env, ops: seq<Op>, op: Op)
    ensures After(env, ops + [op]) == Step(env, After(env, ops), op).0
  {
    hide Step;
    assert (ops + [op])[..|ops + [op]| - 1] == ops;
  }

  /** The state in which operation `i` of a run starts, and how it ends. */
  ghost function Before(env: Env, ops: seq<Op>, i: nat): State
    requires i <= |ops|
  {
    After(env, ops[..i])
  }

  /** The tables in which operation `i` of a run starts. */
  ghost function DbAt(env: Env, ops: seq<Op>, i: nat): Db
    requires i <= |ops|
  {
    Before(env, ops, i).db
  }

  ghost function OutcomeOf(env: Env, ops: seq<Op>, i: nat): Outcome<Json>
    requires i < |ops|
  {
    Step(env, Before(env, ops, i), ops[i]).1
  }

  lemma StepOfRun(env: Env, ops: seq<Op>, i: nat)
    requires i < |ops|
    ensures Before(env, ops, i + 1) == Step(env, Before(env, ops, i), ops[i]).0
  {
    hide Step;
    assert ops[..i + 1][..i] == ops[..i];
  }

  // ---------- What each operation leaves alone ----------

  predicate RevisionsGrow(db: Db, after: Db) {
    forall r :: r in db.revisions ==> r in after.revisions && after.revisions[r] == db.revisions[r]
  }

  /** A call of the rollout changes only these five tables. */
  predicate OnlyRollout(db: Db, after: Db) {
    after == db.(channels := after.channels, assignments := after.assignments, reports := after.reports,
                 assignmentReports := after.assignmentReports, idempotency := after.idempotency)
  }

  lemma AssignTouches(db: Db, document: Json, enrollment: string, contract: Option<Contract>, tags: seq<string>)
    requires document.Obj? && Rollout.DoAssign(db, document, enrollment, contract, tags).Ok?
    ensures var after := Rollout.DoAssign(db, document, enrollment, contract, tags).value.0;
            after == db.(assignments := after.assignments)
  {
    hide Dumps, Strings, Rollout.Eligible, Rollout.ContractFields;
  }

  lemma BootstrapTouches(db: Db, channel: string, document: Json, enrollment: string, contract: Option<Contract>,
                         tags: seq<string>)
    requires document.Obj? && Rollout.DoBootstrap(db, channel, document, enrollment, contract, tags).Ok?
    ensures var after := Rollout.DoBootstrap(db, channel, document, enrollment, contract, tags).value.0;
            after == db.(assignments := after.assignments)
  {
    hide Dumps, Strings, Rollout.Eligible, Rollout.ContractFields;
  }

  lemma PublishTouches(db: Db, channel: string, revision: Json, base: Json, head: Json)
    requires Rollout.DoPublish(db, channel, revision, base, head).Ok?
    ensures var after := Rollout.DoPublish(db, channel, revision, base, head).value.0;
            after == db.(channels := after.channels, assignments := after.assignments)
  {
    hide ClearChannel, Bind;
  }

  lemma ExecuteTouches(env: Env, db: Db, action: Rollout.Action, ties: map<string, string>)
    requires Rollout.Execute(env, db, action, ties).Ok?
    ensures var after := Rollout.Execute(env, db, action, ties).value.0;
            OnlyRollout(db, after) && after.idempotency == db.idempotency
  {
    hide Rollout.DoPublish, Rollout.DoAssign, Rollout.DoBootstrap, Rollout.DoReport, Rollout.DoPromote,
         Rollout.BatchRows, ClearChannel, Rollout.BatchMembers, Rollout.Insertable;
    match action
    case PublishAction(channel, revision, base, head) => PublishTouches(db, channel, revision, base, head);
    case AssignAction(document, enrollment, contract, tags) => AssignTouches(db, document, enrollment, contract, tags);
    case BootstrapAction(channel, document, enrollment, contract, tags) =>
      BootstrapTouches(db, channel, document, enrollment, contract, tags);
    case ReportAction(document, sender, result) => RolloutInvariant.ReportLeaves(env, db, document, sender, result);
    case PromoteAction(channel, candidate, expectedActive, required, event, batch) =>
      RolloutInvariant.PromoteLeaves(db, channel, candidate, expectedActive, required, event, batch, ties);
  }

  lemma CallTouches(env: Env, db: Db, key: string, request: Rollout.Request, now: int, ties: map<string, string>)
    ensures OnlyRollout(db, Rollout.Call(env, db, key, request, now, ties).0)
  {
    hide Rollout.Execute, Rollout.Prepare;
    if Rollout.Commits(env, db, key, request, now, ties) {
      ExecuteTouches(env, db, Rollout.Prepare(env, db, request, now).value, ties);
    }
  }

  predicate EnrollmentsGrow(db: Db, after: Db) {
    Enrolling.RowsGrow(db.enrollments, after.enrollments)
  }

  lemma EnrollingFrame(env: Env, db: Db, op: Op)
    requires op.CreateCode? || op.PairDevice? || op.RegisterKey? || op.Heartbeat? || op.Revoke?
    ensures var effect := EnrollingEffect(env, db, op);
            && Enrolling.Touches(db, effect, op.CreateCode? || op.PairDevice?, op.PairDevice?)
            && (op.CreateCode? && effect.Ok? ==> effect.value.0.enrollments == db.enrollments)
  {
    hide Enrolling.Pair, Enrolling.RegisterKey, Enrolling.CreateCode, Enrolling.Heartbeat, Enrolling.Revoke,
         Enrolling.Touches;
    match op
    case CreateCode(device, channel, roles, ttl, attempts, code, tags, now, later) =>
      Enrolling.CreateCodeTouches(env, db, device, channel, roles, ttl, attempts, code, tags, now, later);
    case PairDevice(code, device, channel, keyId, publicKey, encryptionKeyId, encryptionKey, now, id, token) =>
      Enrolling.PairTouches(env, db, code, device, channel, keyId, publicKey, encryptionKeyId, encryptionKey, now, id,
                            token);
    case RegisterKey(id, token, generation, keyId, key) =>
      Enrolling.RegisterKeyTouches(env, db, id, token, generation, keyId, key);
    case Heartbeat(document, token, now) => Enrolling.HeartbeatTouches(env, db, document, token, now);
    case Revoke(id) => Enrolling.RevokeTouches(db, id);
  }

  lemma AuthorizeTouches(env: Env, db: Db, document: Json, operation: string, key: string, now: int)
    requires Administration.Authorize(env, db, document, operation, key, now).Ok?
    ensures var after := Administration.Authorize(env, db, document, operation, key, now).value.0;
            after == db.(adminRequests := after.adminRequests)
  {
    hide Administration.Admit, Administration.PurgeRequests;
  }

  lemma PutBlobTouches(env: Env, db: Db, files: Blobs.Files, digest: string, payload: Bytes, media: Json, space: bool,
                       now: int, crash: Blobs.Crash)
    ensures var after := Blobs.PutBlob(env, db, files, digest, payload, media, space, now, crash).0;
            after == db.(blobs := after.blobs)
  {
    hide Blobs.Admissible, Blobs.Total, Blobs.PutResponse, Blobs.SameAsStored;
  }

  /** The database outside the five rollout tables. */
  ghost predicate RolloutKept(db: Db, after: Db) {
    after == db.(revisions := after.revisions, enrollments := after.enrollments, pairingCodes := after.pairingCodes,
                 adminRequests := after.adminRequests, blobs := after.blobs)
  }

  ghost predicate Frame(op: Op, s: State, after: State) {
    && RevisionsGrow(s.db, after.db) && EnrollmentsGrow(s.db, after.db)
    && (!op.CallRollout? ==> RolloutKept(s.db, after.db))
    && (op.CallRollout? ==> OnlyRollout(s.db, after.db) && after.files == s.files && after.uploads == s.uploads)
    && (!op.Authorize? ==> after.db.adminRequests == s.db.adminRequests)
    && (!op.PutBlob? ==> after.db.blobs == s.db.blobs && after.files == s.files)
    && (!op.EndRevision? ==> after.db.revisions == s.db.revisions)
    && (!op.CreateCode? && !op.PairDevice? ==> after.db.pairingCodes == s.db.pairingCodes)
    && (!op.PairDevice? ==> after.db.enrollments.Keys == s.db.enrollments.Keys)
    && (op.CreateCode? || op.Authorize? || op.PutBlob? || op.BeginRevision? || op.EndRevision? || op.CallRollout? ==>
         after.db.enrollments == s.db.enrollments)
  }

  lemma UploadFrame(env: Env, s: State, op: Op)
    requires op.BeginRevision? || op.EndRevision?
    ensures Frame(op, s, Step(env, s, op).0)
  {
    hide Dumps, ValidateRevision, Enrolling.SameIdentity, Rollout.Call, Administration.Authorize, Blobs.PutBlob,
         EnrollingEffect;
    Enrolling.NoChange(s.db.enrollments);
  }

  lemma EnrollingStepFrame(env: Env, s: State, op: Op)
    requires op.CreateCode? || op.PairDevice? || op.RegisterKey? || op.Heartbeat? || op.Revoke?
    ensures Frame(op, s, Step(env, s, op).0)
  {
    hide EnrollingEffect, Enrolling.SameIdentity, Rollout.Call, Administration.Authorize, Blobs.PutBlob, BeginUpload,
         EndUpload;
    Enrolling.NoChange(s.db.enrollments);
    EnrollingFrame(env, s.db, op);
  }

  lemma StepFrame(env: Env, s: State, op: Op)
    ensures Frame(op, s, Step(env, s, op).0)
  {
    hide Rollout.Call, Administration.Authorize, Blobs.PutBlob, EnrollingEffect, Enrolling.SameIdentity, BeginUpload,
         EndUpload;
    Enrolling.NoChange(s.db.enrollments);
    match op
    case CallRollout(key, request, now, ties) => CallTouches(env, s.db, key, request, now, ties);
    case BeginRevision(caller, manifest) => UploadFrame(env, s, op);
    case EndRevision(caller) => UploadFrame(env, s, op);
    case Authorize(document, operation, key, now) =>
      if Administration.Authorize(env, s.db, document, operation, key, now).Ok? {
        AuthorizeTouches(env, s.db, document, operation, key, now);
      }
    case PutBlob(digest, payload, media, space, now, crash) =>
      PutBlobTouches(env, s.db, s.files, digest, payload, media, space, now, crash);
    case _ => EnrollingStepFrame(env, s, op);
  }

  // ---------- The rollout invariant over every run ----------

  lemma StepKeepsConsistent(env: Env, s: State, op: Op)
    requires RolloutInvariant.Consistent(env, s.db)
    ensures RolloutInvariant.Consistent(env, Step(env, s, op).0.db)
  {
    hide RolloutInvariant.Consistent, Rollout.Call, Administration.Authorize, Blobs.PutBlob, BeginUpload, EndUpload,
         EnrollingEffect;
    StepFrame(env, s, op);
    if op.CallRollout? {
      RolloutInvariant.CallKeepsConsistent(env, s.db, op.key, op.request, op.now, op.ties);
    } else {
      RolloutInvariant.GrowingKeepsConsistent(env, s.db, Step(env, s, op).0.db);
    }
  }

  /** In every state that any run reaches, each assignment fits its channel, revision and enrollment. */
  lemma {:induction false} AlwaysConsistent(env: Env, ops: seq<Op>)
    ensures RolloutInvariant.Consistent(env, After(env, ops).db)
    decreases |ops|
  {
    hide Step, RolloutInvariant.RowFits;
    if ops == [] {
      EmptyRun(env, ops);
    } else {
      AlwaysConsistent(env, ops[..|ops| - 1]);
      StepKeepsConsistent(env, After(env, ops[..|ops| - 1]), ops[|ops| - 1]);
    }
  }
}
