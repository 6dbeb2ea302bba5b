/** Who may hold and use an enrollment over a run: signed assignments only, one token, and nobody once it is revoked. */
module Access {
  import opened Json
  import opened JsonText
  import opened Formats
  import opened Documents
  import opened Tables
  import opened RolloutInvariant
  import opened EnrollmentHistory
  import opened World
  import opened Justification
  import opened Rollout
  import opened Utf8
  import Blobs
  import Enrolling
  import Signing

  // ---------- The assignment rows an action writes ----------

  /** The row holds this signed document, issued to this enrollment for this revision. */
  predicate Holds(env: Env, e: string, row: Assignment, document: Json) {
    && document.Obj? && row.document == Dumps(document) && env.verify("assignment", document)
    && Get(document, "enrollment_id") == Str(e) && Get(document, "revision_id") == Str(row.revision)
  }

  ghost predicate Signed(env: Env, e: string, row: Assignment) {
    exists document :: Holds(env, e, row, document)
  }

  predicate Revoked(db: Db, e: string) {
    e in db.enrollments && db.enrollments[e].revoked
  }

  /** Every assignment afterwards was there before, or is newly signed for an enrollment that is not revoked. */
  ghost predicate Writes(env: Env, db: Db, after: Db) {
    forall e :: e in after.assignments ==>
      || (e in db.assignments && after.assignments[e] == db.assignments[e])
      || (Signed(env, e, after.assignments[e]) && !Revoked(db, e))
  }

  predicate BatchSigned(env: Env, batch: seq<(Contract, Json)>) {
    forall i :: 0 <= i < |batch| ==>
      && batch[i].1.Obj? && env.verify("assignment", batch[i].1)
      && Get(batch[i].1, "enrollment_id") == Str(batch[i].0.enrollment)
      && Get(batch[i].1, "revision_id") == Str(batch[i].0.revision)
  }

  /** What the checks before the key establish about signatures. */
  ghost predicate SignedAction(env: Env, action: Action) {
    match action
    case AssignAction(document, enrollment, _, _) =>
      document.Obj? && env.verify("assignment", document) && Get(document, "enrollment_id") == Str(enrollment)
    case BootstrapAction(_, document, enrollment, _, _) =>
      document.Obj? && env.verify("assignment", document) && Get(document, "enrollment_id") == Str(enrollment)
    case PromoteAction(_, _, _, _, _, batch) => BatchSigned(env, BatchOf(batch))
    case _ => true
  }

  lemma BatchContractSigned(env: Env, document: Json, now: int)
    requires BatchContract(env, document, now).Ok?
    ensures document.Obj? && env.verify("assignment", document)
    ensures Get(document, "enrollment_id") == Str(BatchContract(env, document, now).value.enrollment)
    ensures Get(document, "revision_id") == Str(BatchContract(env, document, now).value.revision)
  {
    hide ContentId, AssignmentIdentity, Matches, IsDigest, IsEnrollment, IsNonce, TargetTags;
  }

  lemma {:induction false} BatchContractsSigned(env: Env, documents: seq<Json>, now: int)
    requires BatchContracts(env, documents, now).Ok?
    ensures BatchSigned(env, BatchContracts(env, documents, now).value)
    decreases |documents|
  {
    hide BatchContract, Ids;
    if documents != [] {
      BatchContractsSigned(env, documents[..|documents| - 1], now);
      BatchContractSigned(env, documents[|documents| - 1], now);
    }
  }

  lemma PrepareSigned(env: Env, db: Db, request: Request, now: int)
    requires Prepare(env, db, request, now).Ok?
    ensures SignedAction(env, Prepare(env, db, request, now).value)
  {
    hide SchemaTwoContract, BatchContracts, TargetTags, IsEnrollment, ReportVerified, Bind, BatchSigned;
    if request.Promote? && request.batch != Null {
      BatchContractsSigned(env, request.batch.items, now);
    } else {
      NoBatchSigned(env);
    }
  }

  lemma NoBatchSigned(env: Env)
    ensures BatchSigned(env, [])
  {
  }

  lemma AssignWrites(env: Env, db: Db, document: Json, enrollment: string, contract: Option<Contract>,
                     tags: seq<string>)
    requires document.Obj? && env.verify("assignment", document) && Get(document, "enrollment_id") == Str(enrollment)
    requires DoAssign(db, document, enrollment, contract, tags).Ok?
    ensures Writes(env, db, DoAssign(db, document, enrollment, contract, tags).value.0)
  {
    hide Dumps, ReadTags, ContractFields, Bind;
    var after := DoAssign(db, document, enrollment, contract, tags).value.0;
    assert Holds(env, enrollment, after.assignments[enrollment], document);
  }

  lemma BootstrapWrites(env: Env, db: Db, channel: string, document: Json, enrollment: string,
                        contract: Option<Contract>, tags: seq<string>)
    requires document.Obj? && env.verify("assignment", document) && Get(document, "enrollment_id") == Str(enrollment)
    requires DoBootstrap(db, channel, document, enrollment, contract, tags).Ok?
    ensures Writes(env, db, DoBootstrap(db, channel, document, enrollment, contract, tags).value.0)
  {
    hide Dumps, ReadTags, ContractFields;
    var after := DoBootstrap(db, channel, document, enrollment, contract, tags).value.0;
    assert Holds(env, enrollment, after.assignments[enrollment], document);
  }

  lemma PromoteWrites(env: Env, db: Db, channel: string, candidate: Json, expectedActive: Json, required: seq<Json>,
                      event: Json, batch: Option<seq<(Contract, Json)>>, ties: map<string, string>)
    requires BatchSigned(env, BatchOf(batch))
    requires DoPromote(db, channel, candidate, expectedActive, required, event, batch, ties).Ok?
    ensures Writes(env, db, DoPromote(db, channel, candidate, expectedActive, required, event, batch, ties).value.0)
  {
    hide DoPromote, BatchMembers, BatchMember, BatchRows, ClearChannel, ActiveRow, Signed;
    PromoteLeaves(db, channel, candidate, expectedActive, required, event, batch, ties);
    var after := DoPromote(db, channel, candidate, expectedActive, required, event, batch, ties).value.0;
    var entries := BatchOf(batch);
    forall e | e in after.assignments && !(e in db.assignments && after.assignments[e] == db.assignments[e])
      ensures Signed(env, e, after.assignments[e]) && !Revoked(db, e)
    {
      WhereRowsComeFrom(db, entries, channel, candidate, e);
      var i: nat :| i < |entries| && entries[i].0.enrollment == e
          && after.assignments[e] == ActiveRow(entries[i], channel, candidate.s);
      MembersEligible(db, entries, channel, candidate, db.channels[channel].generation + 1, i);
      MemberWrites(env, db, entries, channel, candidate, db.channels[channel].generation + 1, i);
    }
  }

  lemma MemberWrites(env: Env, db: Db, batch: seq<(Contract, Json)>, channel: string, candidate: Json, generation: nat,
                     i: nat)
    requires BatchSigned(env, batch) && i < |batch| && candidate.Str?
    requires BatchMember(db, batch[i].0, channel, candidate, generation).Ok?
    ensures Signed(env, batch[i].0.enrollment, ActiveRow(batch[i], channel, candidate.s))
            && !Revoked(db, batch[i].0.enrollment)
  {
    hide Dumps, ReadTags;
    assert Holds(env, batch[i].0.enrollment, ActiveRow(batch[i], channel, candidate.s), batch[i].1);
  }

  lemma ExecuteWrites(env: Env, db: Db, action: Action, ties: map<string, string>)
    requires SignedAction(env, action) && Execute(env, db, action, ties).Ok?
    ensures Writes(env, db, Execute(env, db, action, ties).value.0)
  {
    hide DoPublish, DoAssign, DoBootstrap, DoPromote, DoReport, Writes;
    match action
    case PublishAction(channel, revision, base, head) => PublishWrites(env, db, channel, revision, base, head);
    case AssignAction(document, enrollment, contract, tags) =>
      AssignWrites(env, db, document, enrollment, contract, tags);
    case BootstrapAction(channel, document, enrollment, contract, tags) =>
      BootstrapWrites(env, db, channel, document, enrollment, contract, tags);
    case ReportAction(document, sender, result) =>
      ReportLeaves(env, db, document, sender, result);
      SameRows(env, db, DoReport(env, db, document, sender, result).value.0);
    case PromoteAction(channel, candidate, expectedActive, required, event, batch) =>
      PromoteWrites(env, db, channel, candidate, expectedActive, required, event, batch, ties);
  }

  lemma PublishWrites(env: Env, db: Db, channel: string, revision: Json, base: Json, head: Json)
    requires DoPublish(db, channel, revision, base, head).Ok?
    ensures Writes(env, db, DoPublish(db, channel, revision, base, head).value.0)
  {
    hide Bind;
  }

  lemma SameRows(env: Env, db: Db, after: Db)
    requires after.assignments == db.assignments
    ensures Writes(env, db, after)
  {
  }

  lemma StepWrites(env: Env, s: State, op: Op)
    ensures Writes(env, s.db, Step(env, s, op).0.db)
  {
    hide Step, Call, Prepare, Execute, SignedAction, Signed;
    if Committing(env, s, op) {
      RolloutStep(env, s, op);
      CommittedCall(env, s.db, op.key, op.request, op.now, op.ties);
      PrepareSigned(env, s.db, op.request, op.now);
      ExecuteWrites(env, s.db, Prepare(env, s.db, op.request, op.now).value, op.ties);
    } else if op.CallRollout? {
      RolloutStep(env, s, op);
      UncommittedCall(env, s.db, op.key, op.request, op.now, op.ties);
    } else {
      StepFrame(env, s, op);
    }
  }

  // ---------- Only signed documents are served ----------

  /** In every reachable state each assignment row holds a document that was verified as signed, names the enrollment
      that holds it, and names the row's revision: for legacy assignments too. */
  lemma {:induction false} AssignmentsAlwaysSigned(env: Env, ops: seq<Op>, e: string)
    requires e in After(env, ops).db.assignments
    ensures Signed(env, e, After(env, ops).db.assignments[e])
    decreases |ops|
  {
    hide Step, Signed;
    if ops == [] {
      EmptyRun(env, ops);
    } else {
      hide After;
      var earlier := ops[..|ops| - 1];
      LastStep(env, ops);
      StepWrites(env, After(env, earlier), ops[|ops| - 1]);
      if e in After(env, earlier).db.assignments {
        AssignmentsAlwaysSigned(env, earlier, e);
      }
    }
  }

  // ---------- Access tokens ----------

  lemma TokenDigestInjective(env: Env, t: string, u: string)
    requires Injective(env.digest) && Enrolling.TokenDigest(env, t) == Enrolling.TokenDigest(env, u)
    ensures t == u
  {
    hide Encode;
    var prefix := "mwo-profile-sync/token/v1\0";
    EncodeInjective(prefix + t, prefix + u);
    assert t == (prefix + t)[|prefix|..] && u == (prefix + u)[|prefix|..];
  }

  /** Operation `i` enrolled `id` with this access token. */
  ghost predicate IssuedAt(env: Env, ops: seq<Op>, i: nat, id: string, token: string) {
    i < |ops| && Pairs(env, Before(env, ops, i), ops[i]) && ops[i].PairDevice? && ops[i].id == id
        && ops[i].token == token
  }

  lemma PairingStoresToken(env: Env, s: State, op: Op)
    requires Pairs(env, s, op)
    ensures op.PairDevice?
    ensures var after := Step(env, s, op).0.db.enrollments;
            op.id in after && after[op.id].tokenDigest == Enrolling.TokenDigest(env, op.token)
  {
    hide Call, Blobs.PutBlob, BeginUpload, EndUpload, Enrolling.PairRequest, Enrolling.Highest, Enrolling.Generations,
         Enrolling.PairingDigest, Enrolling.TokenDigest, Enrolling.Usable, Enrolling.PairResponse, ReadTags, ReadJson,
         Enrolling.CreateCode, Enrolling.RegisterKey, Enrolling.Heartbeat;
  }

  /** From its pairing on, an enrollment is authenticated by the access token it was given and by no other, as long as
      it is not revoked and holds the role. */
  lemma OnlyTheIssuedToken(env: Env, ops: seq<Op>, i: nat, n: nat, id: string, token: string, presented: Json,
                           role: string)
    requires Injective(env.digest) && i < n <= |ops| && IssuedAt(env, ops, i, id, token)
    ensures id in Before(env, ops, n).db.enrollments
    ensures var row := Before(env, ops, n).db.enrollments[id];
            Enrolling.Authenticate(env, Before(env, ops, n).db, Str(id), presented, role).Ok? <==>
            && presented == Str(token) && !row.revoked
            && IsEnrollment(id) && |token| >= 32 && Enrolling.Ascii(token)
            && ReadJson(row.roles).Ok? && ReadJson(row.roles).value.Arr? && Str(role) in ReadJson(row.roles).value.items
  {
    hide Step, After, Pairs, Enrolling.TokenDigest, IsEnrollment, Enrolling.Ascii, ReadJson;
    PairingStoresToken(env, Before(env, ops, i), ops[i]);
    StepOfRun(env, ops, i);
    IdentitiesNeverChange(env, ops, i + 1, n);
    assert Enrolling.SameIdentity(Before(env, ops, i + 1).db.enrollments[id], Before(env, ops, n).db.enrollments[id]);
    if presented.Str? && Enrolling.TokenDigest(env, presented.s) == Enrolling.TokenDigest(env, token) {
      TokenDigestInjective(env, presented.s, token);
    }
  }

  // ---------- Revocation ----------

  /** What a revoked enrollment keeps: it is refused as a device, its reports stand, and its row is at most
      withdrawn. */
  ghost predicate Frozen(db: Db, after: Db, e: string) {
    && Revoked(after, e)
    && (e in after.assignments ==> e in db.assignments && after.assignments[e] == db.assignments[e])
    && (forall id :: (e, id) in db.assignmentReports <==> (e, id) in after.assignmentReports)
    && (forall id :: (e, id) in db.assignmentReports ==>
                     after.assignmentReports[(e, id)] == db.assignmentReports[(e, id)])
    && (forall c, r :: (e, c, r) in db.reports <==> (e, c, r) in after.reports)
    && (forall c, r :: (e, c, r) in db.reports ==> after.reports[(e, c, r)] == db.reports[(e, c, r)])
  }

  lemma SignersAreNotRevoked(env: Env, db: Db, document: Json, e: string)
    requires SignedBySender(env, db, document, e)
    ensures !Revoked(db, e)
  {
    hide Signing.VerifyWithKey;
  }

  lemma RecordsAreNotRevoked(env: Env, s: State, op: Op)
    requires RecordOf(env, s, op).Some?
    ensures !Revoked(s.db, RecordOf(env, s, op).value.enrollment)
    ensures var slot := RecordOf(env, s, op).value.slot; slot.e == RecordOf(env, s, op).value.enrollment
  {
    hide Prepare, StoredContract, Execute, Revoked, Bind, SignedBySender;
    PreparedReport(env, s.db, op.request.document, op.now);
    SignersAreNotRevoked(env, s.db, op.request.document, RecordOf(env, s, op).value.enrollment);
  }

  lemma RevokedStep(env: Env, s: State, op: Op, e: string)
    requires Revoked(s.db, e)
    ensures Frozen(s.db, Step(env, s, op).0.db, e)
  {
    hide Step, RecordOf, Signed, Frame;
    StepFrame(env, s, op);
    FrameKeepsRevoked(op, s, Step(env, s, op).0, e);
    StepWrites(env, s, op);
    StepRecords(env, s, op);
    if RecordOf(env, s, op).Some? {
      RecordsAreNotRevoked(env, s, op);
    }
  }

  lemma FrameKeepsRevoked(op: Op, s: State, after: State, e: string)
    requires Frame(op, s, after) && Revoked(s.db, e)
    ensures Revoked(after.db, e)
  {
    assert Enrolling.SameIdentity(s.db.enrollments[e], after.db.enrollments[e]);
  }

  /** From the moment an enrollment is revoked, no run authenticates it again, records a report of it or gives it an
      assignment: the row it held stays as it was or is withdrawn. */
  lemma {:induction false} RevocationIsFinal(env: Env, ops: seq<Op>, i: nat, n: nat, e: string)
    requires i <= n <= |ops| && Revoked(Before(env, ops, i).db, e)
    ensures Frozen(Before(env, ops, i).db, Before(env, ops, n).db, e)
    ensures forall token, role :: Enrolling.Authenticate(env, Before(env, ops, n).db, Str(e), token, role) ==
                                  Fail(Unauthorized)
    decreases n
  {
    hide Step, After;
    if i < n {
      RevocationIsFinal(env, ops, i, n - 1, e);
      StepOfRun(env, ops, n - 1);
      RevokedStep(env, Before(env, ops, n - 1), ops[n - 1], e);
    }
  }
}
