/** The five idempotent operations of the staged rollout, as functions from tables to tables. */
module Rollout {
  import opened Json
  import opened Text
  import opened JsonText
  import opened Formats
  import opened Documents
  import opened Tables
  import Base64Url
  import Signing

  const RESULTS := {"success", "failure", "observed", "drift_blocked", "external_dependency_failure"}

  /** The arguments of a call, as they arrive. */
  datatype Request =
    | Publish(channel: string, revision: Json, base: Json, head: Json)
    | Assign(document: Json)
    | Bootstrap(channel: string, document: Json)
    | Report(document: Json)
    | Promote(channel: string, candidate: Json, expectedActive: Json, required: seq<Json>, event: Json, batch: Json)

  function Operation(request: Request): string {
    match request
    case Publish(_, _, _, _) => "publish_candidate"
    case Assign(_) => "assign_candidate"
    case Bootstrap(_, _) => "bootstrap_active"
    case Report(_) => "record_report"
    case Promote(_, _, _, _, _, _) => "promote"
  }

  /** What is left to do once a request has passed the checks made before its idempotency key is looked up. */
  datatype Action =
    | PublishAction(channel: string, revision: Json, base: Json, head: Json)
    | AssignAction(document: Json, enrollment: string, contract: Option<Contract>, tags: seq<string>)
    | BootstrapAction(channel: string, document: Json, enrollment: string, contract: Option<Contract>,
                      tags: seq<string>)
    | ReportAction(document: Json, sender: Bound, result: string)
    | PromoteAction(channel: string, candidate: Json, expectedActive: Json, required: seq<Json>, event: Json,
                    batch: Option<seq<(Contract, Json)>>)

  // ---------- Checks before the idempotency key ----------

  function SchemaTwoContract(env: Env, document: Json, kind: string, now: int): (r: Outcome<Option<Contract>>)
    requires document.Obj?
  {
    if Get(document, "schema") == Num(2) then
      var contract :- ValidateAssignment(env.digest, document, kind, Some(now));
      Ok(Some(contract))
    else Ok(None)
  }

  /** The shared part of `assign_candidate` and `bootstrap_active`: contract, enrollment id and target tags. */
  function SignedAssignment(env: Env, document: Json, kind: string,
                            now: int): (r: Outcome<(Option<Contract>, string, seq<string>)>)
    ensures r.Ok? ==> document.Obj?
  {
    if !env.verify("assignment", document) then Fail(Invalid) else
    :- Need(document.Obj?, Broken);
    var contract :- SchemaTwoContract(env, document, kind, now);
    var tags :- TargetTags(GetOr(document, "target_tags", Arr([])));
    var enrollment := Get(document, "enrollment_id");
    :- Need(enrollment.Str? && IsEnrollment(enrollment.s), Invalid);
    Ok((contract, enrollment.s, tags))
  }

  /** One signed active assignment of a batch. */
  function BatchContract(env: Env, document: Json, now: int): Outcome<Contract> {
    if !env.verify("assignment", document) then Fail(Invalid) else
    ValidateAssignment(env.digest, document, "active", Some(now))
  }

  function Ids(batch: seq<(Contract, Json)>): set<string> {
    set entry | entry in batch :: entry.0.assignmentId
  }

  /** The batch in order: each document signed and valid, no identifier seen before. */
  function BatchContracts(env: Env, documents: seq<Json>, now: int): (r: Outcome<seq<(Contract, Json)>>)
    decreases |documents|
  {
    if documents == [] then Ok([]) else
      var earlier :- BatchContracts(env, documents[..|documents| - 1], now);
      var document := documents[|documents| - 1];
      var contract :- BatchContract(env, document, now);
      :- Need(contract.assignmentId !in Ids(earlier), Invalid);
      Ok(earlier + [(contract, document)])
  }

  function PromotionBatch(env: Env, event: Json, batch: Json, now: int): Outcome<Option<seq<(Contract, Json)>>> {
    if batch == Null then Ok(None) else
      :- Need(batch.Arr? && batch.items != [], Invalid);
      var contracts :- BatchContracts(env, batch.items, now);
      :- Need(event.Obj?, Broken);
      :- Need(Get(event, "active_assignment_ids") == Arr(Strings(Sorted(Ids(contracts)))), Conflict);
      Ok(Some(contracts))
  }

  /** A report is verified with the enrollment's own key, or with the registry when the enrollment is unknown. */
  function ReportVerified(env: Env, db: Db, document: Json, enrollment: Bound): Outcome<bool> {
    if enrollment.Text? && enrollment.s in db.enrollments then
      var row := db.enrollments[enrollment.s];
      if row.revoked then Ok(false) else
        var key :- Base64Url.Decode(Str(row.publicKey), 32);
        Ok(Signing.VerifyWithKey(env.backend, "report", document, Str(row.keyId), key))
    else Ok(env.verify("report", document))
  }

  function Prepare(env: Env, db: Db, request: Request, now: int): Outcome<Action> {
    match request
    case Publish(channel, revision, base, head) =>
      :- Need(IsChannel(channel), Invalid);
      Ok(PublishAction(channel, revision, base, head))
    case Assign(document) =>
      var (contract, enrollment, tags) :- SignedAssignment(env, document, "candidate", now);
      Ok(AssignAction(document, enrollment, contract, tags))
    case Bootstrap(channel, document) =>
      :- Need(IsChannel(channel), Invalid);
      var (contract, enrollment, tags) :- SignedAssignment(env, document, "active", now);
      :- Need(Get(document, "channel") == Str(channel), Conflict);
      Ok(BootstrapAction(channel, document, enrollment, contract, tags))
    case Report(document) =>
      :- Need(document.Obj?, Broken);
      var enrollment :- Bind(Get(document, "enrollment_id"));
      var verified :- ReportVerified(env, db, document, enrollment);
      :- Need(verified, Invalid);
      var result := Get(document, "result");
      :- Need(Hashable(result), Broken);
      :- Need(result.Str? && result.s in RESULTS, Invalid);
      Ok(ReportAction(document, enrollment, result.s))
    case Promote(channel, candidate, expectedActive, required, event, batch) =>
      :- Need(env.verify("promotion", event), Invalid);
      var contracts :- PromotionBatch(env, event, batch, now);
      Ok(PromoteAction(channel, candidate, expectedActive, required, event, contracts))
  }

  // ---------- Actions ----------

  type Effect = Outcome<(Db, Json)>

  function PublishResponse(channel: string, revision: Json, active: Option<string>): Json {
    Obj(map["channel" := Str(channel), "candidate_revision" := revision, "active_revision" := FromOption(active)])
  }

  /** Publishing compares both heads and replaces the candidate, which withdraws every assignment of the channel. */
  function DoPublish(db: Db, channel: string, revision: Json, base: Json, head: Json): Effect {
    var r :- Bind(revision);
    :- Need(r.Text? && r.s in db.revisions, NotFound);
    var current := ChannelOf(db.channels, channel);
    :- Need(FromOption(current.candidate) == head, Conflict);
    :- Need(FromOption(current.active) == base, Conflict);
    Ok((db.(channels := db.channels[channel := current.(candidate := Some(r.s))],
            assignments := ClearChannel(db.assignments, channel)),
        PublishResponse(channel, revision, current.active)))
  }

  /** The fields that only a schema 2 assignment adds to a response. */
  function ContractFields(contract: Option<Contract>): map<string, Json> {
    match contract
    case None => map[]
    case Some(c) => map["assignment_id" := Str(c.assignmentId), "channel_generation" := Num(c.channelGeneration),
                        "apply_policy" := Str(c.policy)]
  }

  /** An enrollment may hold an assignment when it is not revoked, is enrolled on the channel and has exactly
      the tags of the document; a schema 2 contract must also carry both generations. */
  function Eligible(row: Enrollment, channel: Json, tags: seq<string>, contract: Option<Contract>,
                    generation: nat): Outcome<()> {
    if row.revoked || Str(row.channel) != channel then Fail(Conflict) else
    var enrolled :- ReadTags(row.tags);
    :- Need(enrolled == tags, Conflict);
    :- Need(contract.Some? ==> contract.value.enrollmentGeneration == row.generation
                               && contract.value.channelGeneration == generation, Conflict);
    Ok(())
  }

  /** `INSERT OR REPLACE INTO assignments`, with its NOT NULL and foreign key constraints on the revision. */
  function PutAssignment(db: Db, enrollment: string, channel: string, revision: Json, kind: string,
                         document: Json): Outcome<Db> {
    if !(revision.Str? && revision.s in db.revisions) then Fail(Integrity) else
    Ok(db.(assignments := db.assignments[enrollment := Assignment(channel, revision.s, kind, Dumps(document))]))
  }

  function DoAssign(db: Db, document: Json, enrollment: string, contract: Option<Contract>, tags: seq<string>): Effect
    requires document.Obj?
  {
    var channel := Get(document, "channel");
    var revision := Get(document, "revision_id");
    var c :- Bind(channel);
    :- Need(c.Text? && c.s in db.channels, Conflict);
    var row := db.channels[c.s];
    :- Need(FromOption(row.candidate) == revision, Conflict);
    var _ :- if enrollment in db.enrollments
             then Eligible(db.enrollments[enrollment], channel, tags, contract, row.generation)
             else if contract.Some? then Fail(Conflict) else Ok(());
    var after :- PutAssignment(db, enrollment, c.s, revision, "candidate", document);
    Ok((after, Obj(map["enrollment_id" := Str(enrollment), "channel" := channel, "revision_id" := revision,
                       "assignment_kind" := Str("candidate"), "target_tags" := Arr(Strings(tags))]
                   + ContractFields(contract))))
  }

  function StoredKind(contract: Option<Contract>): string {
    if contract.Some? then "active" else "candidate"
  }

  function DoBootstrap(db: Db, channel: string, document: Json, enrollment: string, contract: Option<Contract>,
                       tags: seq<string>): Effect
    requires document.Obj?
  {
    var revision := Get(document, "revision_id");
    :- Need(channel in db.channels && FromOption(db.channels[channel].active) == revision, Conflict);
    :- Need(enrollment in db.enrollments, Conflict);
    var _ :- Eligible(db.enrollments[enrollment], Str(channel), tags, contract, db.channels[channel].generation);
    var after :- PutAssignment(db, enrollment, channel, revision, StoredKind(contract), document);
    Ok((after, Obj(map["enrollment_id" := Str(enrollment), "channel" := Str(channel), "revision_id" := revision,
                       "assignment_kind" := Str(StoredKind(contract)), "assignment_source" := Str("active-bootstrap"),
                       "target_tags" := Arr(Strings(tags))]
                   + ContractFields(contract))))
  }

  /** The report repeats the identifier, kind and both generations of the assignment it answers. */
  predicate Repeats(document: Json, contract: Contract)
    requires document.Obj?
  {
    && Get(document, "assignment_id") == Str(contract.assignmentId)
    && Get(document, "assignment_kind") == Str(contract.kind)
    && Get(document, "enrollment_generation") == Num(contract.enrollmentGeneration)
    && Get(document, "channel_generation") == Num(contract.channelGeneration)
  }

  /** The stored assignment document and, for schema 2, its contract. */
  function StoredContract(env: Env, row: Assignment): Outcome<Option<Contract>> {
    var document :- ReadJson(row.document);
    :- Need(document.Obj?, Broken);
    if Get(document, "schema") == Num(2) then
      var contract :- ValidateAssignment(env.digest, document, row.kind, None);
      Ok(Some(contract))
    else Ok(None)
  }

  function RecordLegacy(db: Db, document: Json, e: string, row: Assignment, result: string): (Db, Json)
    requires document.Obj?
  {
    (db.(reports := db.reports[(e, row.channel, row.revision) := Tables.Report(result, Dumps(document))]),
     Obj(map["enrollment_id" := Get(document, "enrollment_id"), "revision_id" := Str(row.revision),
             "result" := Str(result)]))
  }

  function RecordModern(db: Db, document: Json, e: string, row: Assignment, contract: Contract,
                        result: string): (Db, Json)
    requires document.Obj?
  {
    var report := AssignmentReport(contract.enrollmentGeneration, row.channel, contract.channelGeneration, row.revision,
                                   contract.kind, result, Dumps(document));
    (db.(assignmentReports := db.assignmentReports[(e, contract.assignmentId) := report]),
     Obj(map["assignment_id" := Str(contract.assignmentId), "assignment_kind" := Str(contract.kind),
             "channel_generation" := Num(contract.channelGeneration), "enrollment_id" := Get(document, "enrollment_id"),
             "revision_id" := Str(row.revision), "result" := Str(result)]))
  }

  /** A report goes to the table of its assignment's schema, replacing an earlier one for the same key. */
  function DoReport(env: Env, db: Db, document: Json, sender: Bound, result: string): Effect
    requires document.Obj?
  {
    var channel :- Bind(Get(document, "channel"));
    :- Need(sender.Text? && channel.Text? && sender.s in db.assignments, Conflict);
    var row := db.assignments[sender.s];
    :- Need(row.channel == channel.s && Str(row.revision) == Get(document, "revision_id"), Conflict);
    var stored :- StoredContract(env, row);
    match stored
    case None => Ok(RecordLegacy(db, document, sender.s, row, result))
    case Some(contract) =>
      :- Need(Repeats(document, contract), Conflict);
      Ok(RecordModern(db, document, sender.s, row, contract, result))
  }

  // ---------- Promotion ----------

  /** The schema 2 candidate reports of one enrollment for one revision on one channel. */
  function CandidateReports(db: Db, e: string, channel: string, revision: string): set<(string, string)> {
    set k | k in db.assignmentReports && k.0 == e && db.assignmentReports[k].channel == channel
            && db.assignmentReports[k].revision == revision && db.assignmentReports[k].kind == "candidate"
  }

  predicate IsNewest(db: Db, keys: set<(string, string)>, k: (string, string)) {
    k in keys && keys <= db.assignmentReports.Keys
    && forall j :: j in keys ==> db.assignmentReports[j].channelGeneration <= db.assignmentReports[k].channelGeneration
  }

  lemma {:induction false} NewestExists(db: Db, keys: set<(string, string)>)
    requires keys != {} && keys <= db.assignmentReports.Keys
    ensures exists k :: IsNewest(db, keys, k)
    decreases |keys|
  {
    var k :| k in keys;
    if keys == {k} {
      assert IsNewest(db, keys, k);
    } else {
      NewestExists(db, keys - {k});
      var best :| IsNewest(db, keys - {k}, best);
      var generation := db.assignmentReports[best].channelGeneration;
      assert IsNewest(db, keys, if db.assignmentReports[k].channelGeneration > generation then k else best);
    }
  }

  /** `ORDER BY channel_generation DESC LIMIT 1`: SQLite may return any row of the highest generation, so the
      choice among equals is an input, one assignment id per enrollment. */
  ghost function Newest(db: Db, keys: set<(string, string)>, ties: map<string, string>,
                        e: string): (k: (string, string))
    requires keys != {} && keys <= db.assignmentReports.Keys
    ensures IsNewest(db, keys, k)
  {
    NewestExists(db, keys);
    if e in ties && IsNewest(db, keys, (e, ties[e])) then (e, ties[e])
    else var k :| IsNewest(db, keys, k); k
  }

  /** The result that decides whether a required canary passed. */
  ghost function CanaryResult(db: Db, e: Bound, channel: string, candidate: Json,
                              ties: map<string, string>): Option<string> {
    if !e.Text? || !candidate.Str? then None else
      var keys := CandidateReports(db, e.s, channel, candidate.s);
      if keys != {} then Some(db.assignmentReports[Newest(db, keys, ties, e.s)].result)
      else if (e.s, channel, candidate.s) in db.reports then Some(db.reports[(e.s, channel, candidate.s)].result)
      else None
  }

  /** Every required enrollment, in order, has a latest result and it is a success. */
  ghost function CanariesPassed(db: Db, required: seq<Json>, channel: string, candidate: Json,
                                ties: map<string, string>): Outcome<()>
    decreases |required|
  {
    if required == [] then Ok(()) else
      var _ :- CanariesPassed(db, required[..|required| - 1], channel, candidate, ties);
      var e :- Bind(required[|required| - 1]);
      :- Need(CanaryResult(db, e, channel, candidate, ties) == Some("success"), Conflict);
      Ok(())
  }

  /** One batch member against the promotion and its enrollment. */
  function BatchMember(db: Db, contract: Contract, channel: string, candidate: Json, generation: nat): Outcome<()> {
    if !(contract.channel == Str(channel) && Str(contract.revision) == candidate
            && contract.channelGeneration == generation) then Fail(Conflict) else
    :- Need(contract.enrollment in db.enrollments, Conflict);
    var row := db.enrollments[contract.enrollment];
    :- Need(!row.revoked && row.channel == channel && row.generation == contract.enrollmentGeneration, Conflict);
    var tags :- ReadTags(row.tags);
    :- Need(tags == contract.tags, Conflict);
    Ok(())
  }

  function BatchMembers(db: Db, batch: seq<(Contract, Json)>, channel: string, candidate: Json,
                        generation: nat): Outcome<()>
    decreases |batch|
  {
    if batch == [] then Ok(()) else
      var _ :- BatchMembers(db, batch[..|batch| - 1], channel, candidate, generation);
      BatchMember(db, batch[|batch| - 1].0, channel, candidate, generation)
  }

  function ActiveRow(entry: (Contract, Json), channel: string, revision: string): Assignment {
    Assignment(channel, revision, "active", Dumps(entry.1))
  }

  /** Plain inserts succeed only if no enrollment repeats and none holds a row already. */
  predicate Insertable(rows: map<string, Assignment>, batch: seq<(Contract, Json)>) {
    && (forall i, j :: 0 <= i < j < |batch| ==> batch[i].0.enrollment != batch[j].0.enrollment)
    && (forall i :: 0 <= i < |batch| ==> batch[i].0.enrollment !in rows)
  }

  function BatchRows(batch: seq<(Contract, Json)>, channel: string, revision: string): map<string, Assignment>
    requires Insertable(map[], batch)
  {
    map i | 0 <= i < |batch| :: batch[i].0.enrollment := ActiveRow(batch[i], channel, revision)
  }

  function BatchOf(batch: Option<seq<(Contract, Json)>>): seq<(Contract, Json)> {
    if batch.Some? then batch.value else []
  }

  function PromotionResponse(channel: string, candidate: Json, generation: nat,
                             batch: Option<seq<(Contract, Json)>>): Json {
    Obj(map["channel" := Str(channel), "active_revision" := candidate, "generation" := Num(generation)]
        + (if batch.Some? then map["active_assignment_ids" := Arr(Strings(Sorted(Ids(batch.value))))] else map[]))
  }

  /** Promotion makes the candidate active, withdraws every assignment of the channel and issues the batch. */
  ghost function DoPromote(db: Db, channel: string, candidate: Json, expectedActive: Json, required: seq<Json>,
                           event: Json, batch: Option<seq<(Contract, Json)>>, ties: map<string, string>): Effect
  {
    if channel !in db.channels then Fail(NotFound) else
    var current := db.channels[channel];
    :- Need(FromOption(current.candidate) == candidate, Conflict);
    :- Need(FromOption(current.active) == expectedActive, Conflict);
    var _ :- CanariesPassed(db, required, channel, candidate, ties);
    var generation := current.generation + 1;
    :- Need(event.Obj?, Broken);
    :- Need(Get(event, "generation") == Num(generation), Conflict);
    var entries := BatchOf(batch);
    var _ :- BatchMembers(db, entries, channel, candidate, generation);
    var cleared := ClearChannel(db.assignments, channel);
    :- Need(entries != [] ==> candidate.Str? && candidate.s in db.revisions, Integrity);
    :- Need(Insertable(cleared, entries), Integrity);
    var rows := if entries == [] then map[] else BatchRows(entries, channel, candidate.s);
    Ok((db.(channels := db.channels[channel := Channel(None, current.candidate, generation)],
            assignments := cleared + rows),
        PromotionResponse(channel, candidate, generation, batch)))
  }

  ghost function Execute(env: Env, db: Db, action: Action, ties: map<string, string>): Effect {
    match action
    case PublishAction(channel, revision, base, head) => DoPublish(db, channel, revision, base, head)
    case AssignAction(document, enrollment, contract, tags) =>
      if document.Obj? then DoAssign(db, document, enrollment, contract, tags) else Fail(Broken)
    case BootstrapAction(channel, document, enrollment, contract, tags) =>
      if document.Obj? then DoBootstrap(db, channel, document, enrollment, contract, tags) else Fail(Broken)
    case ReportAction(document, enrollment, result) =>
      if document.Obj? then DoReport(env, db, document, enrollment, result) else Fail(Broken)
    case PromoteAction(channel, candidate, expectedActive, required, event, batch) =>
      DoPromote(db, channel, candidate, expectedActive, required, event, batch, ties)
  }

  // ---------- Idempotency ----------

  /** `_idempotent`: a known key replays its stored response or is refused for another operation; a fresh key
      runs the action and remembers the response. A failure rolls every table back. */
  ghost function Once(env: Env, db: Db, key: string, operation: string, action: Action,
                      ties: map<string, string>): (Db, Outcome<Json>) {
    if |key| < 8 then (db, Fail(Invalid))
    else if key in db.idempotency then
      (db, if db.idempotency[key].operation != operation then Fail(Conflict)
       else ReadJson(db.idempotency[key].response))
    else
      match Execute(env, db, action, ties)
      case Fail(fault) => (db, Fail(fault))
      case Ok((after, response)) =>
        (after.(idempotency := after.idempotency[key := Remembered(operation, Dumps(response))]), Ok(response))
  }

  /** A whole call. */
  ghost function Call(env: Env, db: Db, key: string, request: Request, now: int,
                      ties: map<string, string>): (Db, Outcome<Json>) {
    match Prepare(env, db, request, now)
    case Fail(fault) => (db, Fail(fault))
    case Ok(action) => Once(env, db, key, Operation(request), action, ties)
  }

  /** A key that is long enough and has not committed. */
  predicate FreshKey(db: Db, key: string) {
    |key| >= 8 && key !in db.idempotency
  }

  /** The call runs its action and commits, rather than replaying or failing. */
  ghost predicate Commits(env: Env, db: Db, key: string, request: Request, now: int, ties: map<string, string>) {
    && Prepare(env, db, request, now).Ok?
    && |key| >= 8 && key !in db.idempotency
    && Execute(env, db, Prepare(env, db, request, now).value, ties).Ok?
  }

  /** A call that does not commit leaves every table as it was. */
  lemma UncommittedCall(env: Env, db: Db, key: string, request: Request, now: int, ties: map<string, string>)
    requires !Commits(env, db, key, request, now, ties)
    ensures Call(env, db, key, request, now, ties).0 == db
  {
    hide Prepare, Execute;
  }

  lemma CommittedCall(env: Env, db: Db, key: string, request: Request, now: int, ties: map<string, string>)
    requires Commits(env, db, key, request, now, ties)
    ensures var (after, response) := Execute(env, db, Prepare(env, db, request, now).value, ties).value;
            Call(env, db, key, request, now, ties) ==
            (after.(idempotency := after.idempotency[key := Remembered(Operation(request), Dumps(response))]),
             Ok(response))
  {
    hide Prepare, Execute, Dumps;
  }
}
