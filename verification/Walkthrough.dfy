/** A whole legacy rollout that goes through, and how it can go on to lose its active revision. */
module Walkthrough {
  import opened Json
  import opened JsonText
  import opened Canonical
  import opened Formats
  import opened Documents
  import opened Tables
  import opened Rollout
  import opened World
  import opened RolloutInvariant
  import opened Promotions
  import opened Justification
  import opened Signers
  import Text

  // ---------- The documents of a legacy rollout ----------

  /** A verified assignment without schema 2, whatever else it carries. */
  predicate IsLegacyAssignment(env: Env, document: Json, e: string, channel: string, revision: string) {
    && env.verify("assignment", document) && document.Obj? && Get(document, "schema") != Num(2)
    && TargetTags(GetOr(document, "target_tags", Arr([]))).Ok?
    && Get(document, "enrollment_id") == Str(e) && IsEnrollment(e)
    && Get(document, "channel") == Str(channel) && Get(document, "revision_id") == Str(revision)
  }

  /** A verified report of a success. */
  predicate IsLegacyReport(env: Env, document: Json, e: string, channel: string, revision: string) {
    && env.verify("report", document) && document.Obj? && Get(document, "enrollment_id") == Str(e)
    && Get(document, "channel") == Str(channel) && Get(document, "revision_id") == Str(revision)
    && Get(document, "result") == Str("success")
  }

  /** A verified promotion to this generation. */
  predicate IsPromotion(env: Env, event: Json, generation: nat) {
    env.verify("promotion", event) && event.Obj? && Get(event, "generation") == Num(generation)
  }

  // ---------- Single calls ----------

  function PublishOp(channel: string, revision: string): Op {
    CallRollout("publish-1", Publish(channel, Str(revision), Null, Null), 0, map[])
  }

  function AssignOp(key: string, document: Json): Op {
    CallRollout(key, Assign(document), 0, map[])
  }

  function ReportOp(document: Json, now: int): Op {
    CallRollout("report-1", Request.Report(document), now, map[])
  }

  function LegacyPromoteOp(e: string, channel: string, revision: string, event: Json): Op {
    CallRollout("promote-1", Promote(channel, Str(revision), Null, [Str(e)], event, Null), 0, map[])
  }

  lemma Uploaded(env: Env, manifest: Json, id: string)
    requires env.verify("revision", manifest) && ValidateRevision(env.digest, manifest) == Ok(id)
    ensures var s := Step(env, START, BeginRevision(0, manifest)).0;
            Step(env, s, EndRevision(0)).0.db == EMPTY.(revisions := map[id := Dumps(manifest)])
  {
    hide ValidateRevision, Dumps, Call, EnrollingEffect;
  }

  /** A call with a fresh key whose checks and action succeed has the action's effect and remembers its key. */
  lemma Goes(env: Env, db: Db, op: Op, action: Action, after: Db, response: Json)
    requires op.CallRollout? && |op.key| >= 8 && op.key !in db.idempotency
    requires Prepare(env, db, op.request, op.now) == Ok(action)
             && Execute(env, db, action, op.ties) == Ok((after, response))
    ensures var row := Remembered(Operation(op.request), Dumps(response));
            Call(env, db, op.key, op.request, op.now, op.ties) ==
            (after.(idempotency := after.idempotency[op.key := row]), Ok(response))
  {
    hide Prepare, Execute, Dumps;
  }

  lemma NoTags()
    ensures TargetTags(Arr([])) == Ok([])
  {
    hide Text.Sorted;
    assert Texts([]) == {};
    Text.NothingListed(Text.Sorted({}));
  }

  lemma LegacyPrepared(env: Env, db: Db, document: Json, e: string, channel: string, revision: string)
    requires IsLegacyAssignment(env, document, e, channel, revision)
    ensures document.Obj? && TargetTags(GetOr(document, "target_tags", Arr([]))).Ok?
    ensures Prepare(env, db, Assign(document), 0) ==
            Ok(AssignAction(document, e, None, TargetTags(GetOr(document, "target_tags", Arr([]))).value))
  {
    hide IsEnrollment, TargetTags, ValidateAssignment;
  }

  lemma LegacyEffect(env: Env, db: Db, document: Json, e: string, channel: string, revision: string, tags: seq<string>)
    requires IsLegacyAssignment(env, document, e, channel, revision) && e !in db.enrollments
    requires channel in db.channels && db.channels[channel].candidate == Some(revision) && revision in db.revisions
    ensures var effect := DoAssign(db, document, e, None, tags);
            && effect.Ok?
            && var row := Assignment(channel, revision, "candidate", Dumps(document));
            effect.value.0 == db.(assignments := db.assignments[e := row])
  {
    hide IsEnrollment, TargetTags, Dumps, Strings;
  }

  /** A legacy assignment of the current candidate to an enrollment that is not registered commits under a fresh key. */
  lemma LegacyAssigns(env: Env, db: Db, key: string, document: Json, e: string, channel: string, revision: string)
    requires IsLegacyAssignment(env, document, e, channel, revision) && e !in db.enrollments
    requires channel in db.channels && db.channels[channel].candidate == Some(revision) && revision in db.revisions
    requires |key| >= 8 && key !in db.idempotency
    ensures var (after, r) := Call(env, db, key, Assign(document), 0, map[]);
            && r.Ok? && after.idempotency.Keys == db.idempotency.Keys + {key}
            && var row := Assignment(channel, revision, "candidate", Dumps(document));
            after == db.(assignments := db.assignments[e := row], idempotency := after.idempotency)
  {
    hide IsLegacyAssignment, Dumps, Call, Prepare, DoAssign, TargetTags;
    LegacyPrepared(env, db, document, e, channel, revision);
    var tags := TargetTags(GetOr(document, "target_tags", Arr([]))).value;
    LegacyEffect(env, db, document, e, channel, revision, tags);
    var (after, response) := DoAssign(db, document, e, None, tags).value;
    Goes(env, db, AssignOp(key, document), AssignAction(document, e, None, tags), after, response);
  }

  // ---------- Extending a run ----------

  lemma Upload(env: Env, manifest: Json, id: string) returns (ops: seq<Op>)
    requires env.verify("revision", manifest) && ValidateRevision(env.digest, manifest) == Ok(id)
    ensures After(env, ops).db == EMPTY.(revisions := map[id := Dumps(manifest)])
  {
    hide Step, After, ValidateRevision, Dumps;
    EmptyRun(env, []);
    var begun := [] + [BeginRevision(0, manifest)];
    OneMoreStep(env, [], BeginRevision(0, manifest));
    ops := begun + [EndRevision(0)];
    OneMoreStep(env, begun, EndRevision(0));
    Uploaded(env, manifest, id);
  }

  lemma Extend(env: Env, ops: seq<Op>, op: Op) returns (longer: seq<Op>)
    requires op.CallRollout?
    ensures longer == ops + [op] && longer[..|longer| - 1] == ops
    ensures After(env, longer).db == Call(env, After(env, ops).db, op.key, op.request, op.now, op.ties).0
    ensures OutcomeOf(env, longer, |ops|) == Call(env, After(env, ops).db, op.key, op.request, op.now, op.ties).1
  {
    hide Step, After, Call;
    longer := ops + [op];
    OneMoreStep(env, ops, op);
    RolloutStep(env, After(env, ops), op);
    assert World.Before(env, longer, |ops|) == After(env, ops);
  }

  lemma CandidateStored(env: Env, ops: seq<Op>, channel: string)
    requires channel in After(env, ops).db.channels && After(env, ops).db.channels[channel].candidate.Some?
    ensures After(env, ops).db.channels[channel].candidate.value in After(env, ops).db.revisions
  {
    hide After, RowFits;
    AlwaysConsistent(env, ops);
  }

  /** In any reachable state the current candidate can be assigned to an enrollment that is not registered. */
  lemma LegacyRun(env: Env, ops: seq<Op>, key: string, document: Json, e: string, channel: string)
    returns (longer: seq<Op>)
    requires e !in After(env, ops).db.enrollments
    requires channel in After(env, ops).db.channels && After(env, ops).db.channels[channel].candidate.Some?
    requires IsLegacyAssignment(env, document, e, channel, After(env, ops).db.channels[channel].candidate.value)
    requires |key| >= 8 && key !in After(env, ops).db.idempotency
    ensures longer == ops + [AssignOp(key, document)] && OutcomeOf(env, longer, |ops|).Ok?
    ensures var db, after := After(env, ops).db, After(env, longer).db;
            && var row := Assignment(channel, db.channels[channel].candidate.value, "candidate", Dumps(document));
            after == db.(assignments := db.assignments[e := row], idempotency := after.idempotency)
  {
    hide After, OutcomeOf, Call, IsLegacyAssignment, Dumps;
    CandidateStored(env, ops, channel);
    LegacyAssigns(env, After(env, ops).db, key, document, e, channel,
                  After(env, ops).db.channels[channel].candidate.value);
    longer := Extend(env, ops, AssignOp(key, document));
  }

  // ---------- The whole rollout ----------

  /** The rollout tables of a store in which nothing has been enrolled. */
  predicate LegacyAt(db: Db, revision: string, channels: map<string, Channel>, assignments: map<string, Assignment>,
                     keys: set<string>) {
    && revision in db.revisions && db.channels == channels && db.assignments == assignments && db.enrollments == map[]
    && db.assignmentReports == map[] && db.idempotency.Keys == keys
  }

  function LegacyRows(e: string, channel: string, revision: string, document: Json): map<string, Assignment> {
    map[e := Assignment(channel, revision, "candidate", Dumps(document))]
  }

  lemma LegacyBegins(db: Db, revision: string, text: string)
    requires db == EMPTY.(revisions := map[revision := text])
    ensures LegacyAt(db, revision, map[], map[], {})
  {
  }

  lemma LegacyPublishes(env: Env, db: Db, channel: string, revision: string)
    requires IsChannel(channel) && LegacyAt(db, revision, map[], map[], {})
    ensures var op := PublishOp(channel, revision);
            LegacyAt(Call(env, db, op.key, op.request, op.now, op.ties).0, revision,
                     map[channel := Channel(Some(revision), None, 0)], map[], {"publish-1"})
  {
    hide IsChannel, Dumps, Call, PublishResponse;
    var (after, response) := DoPublish(db, channel, Str(revision), Null, Null).value;
    Goes(env, db, PublishOp(channel, revision), PublishAction(channel, Str(revision), Null, Null), after, response);
  }

  lemma LegacyAssigned(env: Env, db: Db, document: Json, e: string, channel: string, revision: string)
    requires IsLegacyAssignment(env, document, e, channel, revision)
    requires LegacyAt(db, revision, map[channel := Channel(Some(revision), None, 0)], map[], {"publish-1"})
    ensures var op := AssignOp("assign-1", document);
            LegacyAt(Call(env, db, op.key, op.request, op.now, op.ties).0, revision,
                     map[channel := Channel(Some(revision), None, 0)], LegacyRows(e, channel, revision, document),
                     {"publish-1", "assign-1"})
  {
    hide IsLegacyAssignment, Dumps, Call;
    LegacyAssigns(env, db, "assign-1", document, e, channel, revision);
  }

  lemma LegacyReportPrepared(env: Env, db: Db, report: Json, e: string, channel: string, revision: string)
    requires IsLegacyReport(env, report, e, channel, revision) && db.enrollments == map[]
    ensures report.Obj? && Prepare(env, db, Request.Report(report), 0) == Ok(ReportAction(report, Text(e), "success"))
  {
  }

  lemma LegacyReportRecorded(env: Env, db: Db, document: Json, report: Json, e: string, channel: string,
                             revision: string)
    requires IsLegacyAssignment(env, document, e, channel, revision)
    requires IsLegacyReport(env, report, e, channel, revision)
    requires db.assignments == LegacyRows(e, channel, revision, document)
    ensures DoReport(env, db, report, Text(e), "success") ==
            Ok(RecordLegacy(db, report, e, db.assignments[e], "success"))
  {
    hide Dumps, Loads, RecordLegacy, RecordModern, TargetTags, IsEnrollment;
    LoadsDumps(document);
  }

  lemma LegacyReports(env: Env, db: Db, document: Json, report: Json, e: string, channel: string, revision: string)
    requires IsLegacyAssignment(env, document, e, channel, revision)
    requires IsLegacyReport(env, report, e, channel, revision)
    requires LegacyAt(db, revision, map[channel := Channel(Some(revision), None, 0)],
                      LegacyRows(e, channel, revision, document), {"publish-1", "assign-1"})
    ensures var op := ReportOp(report, 0);
            var after := Call(env, db, op.key, op.request, op.now, op.ties).0;
            && LegacyAt(after, revision, map[channel := Channel(Some(revision), None, 0)],
                        LegacyRows(e, channel, revision, document), {"publish-1", "assign-1", "report-1"})
            && (e, channel, revision) in after.reports && after.reports[(e, channel, revision)].result == "success"
  {
    hide Dumps, Prepare, DoReport, Call, IsLegacyAssignment, IsLegacyReport;
    LegacyReportPrepared(env, db, report, e, channel, revision);
    LegacyReportRecorded(env, db, document, report, e, channel, revision);
    var (after, response) := RecordLegacy(db, report, e, db.assignments[e], "success");
    Goes(env, db, ReportOp(report, 0), ReportAction(report, Text(e), "success"), after, response);
  }

  lemma OneCanary(db: Db, e: string, channel: string, revision: string)
    requires db.assignmentReports == map[]
    requires (e, channel, revision) in db.reports && db.reports[(e, channel, revision)].result == "success"
    ensures CanariesPassed(db, [Str(e)], channel, Str(revision), map[]) == Ok(())
  {
    var required := [Str(e)];
    assert required[..0] == [];
    assert CandidateReports(db, e, channel, revision) == {};
    assert CanariesPassed(db, required[..0], channel, Str(revision), map[]) == Ok(());
  }

  lemma LegacyPromotes(env: Env, db: Db, event: Json, document: Json, e: string, channel: string, revision: string)
    requires IsPromotion(env, event, 1)
    requires LegacyAt(db, revision, map[channel := Channel(Some(revision), None, 0)],
                      LegacyRows(e, channel, revision, document), {"publish-1", "assign-1", "report-1"})
    requires (e, channel, revision) in db.reports && db.reports[(e, channel, revision)].result == "success"
    ensures var op := LegacyPromoteOp(e, channel, revision, event);
            && op.CallRollout? && Commits(env, db, op.key, op.request, op.now, op.ties)
            && var after := Call(env, db, op.key, op.request, op.now, op.ties).0;
            && after.channels == map[channel := Channel(None, Some(revision), 1)]
            && after.idempotency.Keys == {"publish-1", "assign-1", "report-1", "promote-1"}
  {
    hide Dumps, ClearChannel, PromotionResponse, CanariesPassed, LegacyRows, BatchRows;
    OneCanary(db, e, channel, revision);
  }

  /** Every valid, signed manifest can be rolled out to every channel from an empty store, with any signed legacy
      documents that name it: published, assigned to a canary, reported a success and promoted behind that report. */
  lemma RolloutCompletes(env: Env, manifest: Json, assignment: Json, report: Json, event: Json, e: string,
                         channel: string) returns (ops: seq<Op>)
    requires env.verify("revision", manifest) && ValidateRevision(env.digest, manifest).Ok? && IsChannel(channel)
    requires IsLegacyAssignment(env, assignment, e, channel, ValidateRevision(env.digest, manifest).value)
    requires IsLegacyReport(env, report, e, channel, ValidateRevision(env.digest, manifest).value)
    requires IsPromotion(env, event, 1)
    ensures ops != []
    ensures var op := ops[|ops| - 1];
            && op.CallRollout? && op.request.Promote? && op.request.required == [Str(e)] && op.request.event == event
            && Committing(env, After(env, ops[..|ops| - 1]), op)
    ensures After(env, ops).db.channels ==
            map[channel := Channel(None, Some(ValidateRevision(env.digest, manifest).value), 1)]
    ensures After(env, ops).db.idempotency.Keys == {"publish-1", "assign-1", "report-1", "promote-1"}
  {
    hide Step, After, LegacyAt, ValidateRevision, Call, Commits, IsLegacyAssignment, IsLegacyReport, IsPromotion,
         IsChannel, LegacyRows, Dumps, OutcomeOf;
    var id := ValidateRevision(env.digest, manifest).value;
    ops := Upload(env, manifest, id);
    LegacyBegins(After(env, ops).db, id, Dumps(manifest));
    LegacyPublishes(env, After(env, ops).db, channel, id);
    ops := Extend(env, ops, PublishOp(channel, id));
    LegacyAssigned(env, After(env, ops).db, assignment, e, channel, id);
    ops := Extend(env, ops, AssignOp("assign-1", assignment));
    LegacyReports(env, After(env, ops).db, assignment, report, e, channel, id);
    ops := Extend(env, ops, ReportOp(report, 0));
    LegacyPromotes(env, After(env, ops).db, event, assignment, e, channel, id);
    ops := Extend(env, ops, LegacyPromoteOp(e, channel, id, event));
  }

  // ---------- Losing the active revision ----------

  function EmptyOp(channel: string, revision: string, event: Json): Op {
    CallRollout("promote-2", Promote(channel, Null, Str(revision), [], event, Null), 0, map[])
  }

  /** The same run goes on to lose the active revision: a promotion of no candidate commits and leaves the channel
      without one. */
  lemma ActiveCanBeLost(env: Env, manifest: Json, assignment: Json, report: Json, first: Json, second: Json, e: string,
                        channel: string) returns (ops: seq<Op>)
    requires env.verify("revision", manifest) && ValidateRevision(env.digest, manifest).Ok? && IsChannel(channel)
    requires IsLegacyAssignment(env, assignment, e, channel, ValidateRevision(env.digest, manifest).value)
    requires IsLegacyReport(env, report, e, channel, ValidateRevision(env.digest, manifest).value)
    requires IsPromotion(env, first, 1) && IsPromotion(env, second, 2)
    ensures ops != []
    ensures After(env, ops[..|ops| - 1]).db.channels ==
            map[channel := Channel(None, Some(ValidateRevision(env.digest, manifest).value), 1)]
    ensures After(env, ops).db.channels == map[channel := Channel(None, None, 2)]
  {
    hide Step, After, ValidateRevision, Call, Commits, IsChannel, IsLegacyAssignment, IsLegacyReport, OutcomeOf;
    ops := RolloutCompletes(env, manifest, assignment, report, first, e, channel);
    var op := EmptyOp(channel, ValidateRevision(env.digest, manifest).value, second);
    NullPromotionEmpties(env, After(env, ops).db, op.key, op.request, op.now, op.ties);
    ops := Extend(env, ops, op);
  }

  // ---------- An operator's documents ----------

  /** A legacy assignment that carries more fields. */
  function PlainAssignment(e: string, channel: string, revision: string, more: map<string, Json>): Json {
    Obj(more + map["enrollment_id" := Str(e), "channel" := Str(channel), "revision_id" := Str(revision)])
  }

  function PlainReport(e: string, channel: string, revision: string): Json {
    Obj(map["enrollment_id" := Str(e), "channel" := Str(channel), "revision_id" := Str(revision),
            "result" := Str("success")])
  }

  function PlainPromotion(generation: nat): Json {
    Obj(map["generation" := Num(generation)])
  }

  function LegacyIssued(env: Env, operator: Signer, e: string, channel: string, revision: string,
                        more: map<string, Json>): Json {
    Issued(env, operator, "assignment", PlainAssignment(e, channel, revision, more))
  }

  lemma PlainFields(e: string, channel: string, revision: string, more: map<string, Json>)
    requires more.Keys !! {"enrollment_id", "channel", "revision_id", "schema", "target_tags", "signature"}
    ensures var plain := PlainAssignment(e, channel, revision, more);
            && plain.Obj? && Get(plain, "schema") == Null && GetOr(plain, "target_tags", Arr([])) == Arr([])
            && Get(plain, "enrollment_id") == Str(e) && Get(plain, "channel") == Str(channel)
            && Get(plain, "revision_id") == Str(revision) && forall key :: key in more ==> Get(plain, key) == more[key]
  {
  }

  lemma OperatorAssigns(env: Env, operator: Signer, e: string, channel: string, revision: string,
                        more: map<string, Json>)
    requires Trusts(env, operator) && IsKeyId(operator.keyId) && IsEnrollment(e)
    requires more.Keys !! {"enrollment_id", "channel", "revision_id", "schema", "target_tags", "signature"}
    ensures IsLegacyAssignment(env, LegacyIssued(env, operator, e, channel, revision, more), e, channel, revision)
    ensures forall key :: key in more ==>
                          Get(LegacyIssued(env, operator, e, channel, revision, more), key) == more[key]
  {
    hide IsKeyId, IsEnrollment, Issued, TargetTags, PlainAssignment, Get, GetOr;
    PlainFields(e, channel, revision, more);
    var plain := PlainAssignment(e, channel, revision, more);
    IssuedKeeps(env, operator, "assignment", plain, "schema", Null);
    IssuedKeeps(env, operator, "assignment", plain, "target_tags", Arr([]));
    IssuedKeeps(env, operator, "assignment", plain, "enrollment_id", Null);
    IssuedKeeps(env, operator, "assignment", plain, "channel", Null);
    IssuedKeeps(env, operator, "assignment", plain, "revision_id", Null);
    forall key | key in more
      ensures Get(Issued(env, operator, "assignment", plain), key) == more[key]
    {
      IssuedKeeps(env, operator, "assignment", plain, key, Null);
    }
    NoTags();
  }

  /** Whatever an operator trusted by the verifier signs for a legacy rollout meets the hypotheses of the runs above. */
  lemma OperatorRollsOut(env: Env, operator: Signer, e: string, channel: string, revision: string, generation: nat)
    requires Trusts(env, operator) && IsKeyId(operator.keyId) && IsEnrollment(e)
    ensures IsLegacyAssignment(env, LegacyIssued(env, operator, e, channel, revision, map[]), e, channel, revision)
    ensures IsLegacyReport(env, Issued(env, operator, "report", PlainReport(e, channel, revision)), e, channel,
                           revision)
    ensures IsPromotion(env, Issued(env, operator, "promotion", PlainPromotion(generation)), generation)
  {
    hide IsKeyId, IsEnrollment, Issued, IsLegacyAssignment;
    OperatorAssigns(env, operator, e, channel, revision, map[]);
    var plain := PlainReport(e, channel, revision);
    IssuedKeeps(env, operator, "report", plain, "enrollment_id", Null);
    IssuedKeeps(env, operator, "report", plain, "channel", Null);
    IssuedKeeps(env, operator, "report", plain, "revision_id", Null);
    IssuedKeeps(env, operator, "report", plain, "result", Null);
    IssuedKeeps(env, operator, "promotion", PlainPromotion(generation), "generation", Null);
  }
}
