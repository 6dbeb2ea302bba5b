/** What every operation of the rollout keeps true of channels and assignments together. */
module RolloutInvariant {
  import opened Json
  import opened Text
  import opened JsonText
  import opened Canonical
  import opened Documents
  import opened Tables
  import opened Rollout

  /** An assignment row against the other tables. A schema 2 row carries its own kind's pointer, the channel's current
      generation and its enrollment's exact generation and tags; a legacy row names either current pointer. */
  ghost predicate RowFits(env: Env, db: Db, e: string, row: Assignment) {
    && row.revision in db.revisions
    && row.channel in db.channels
    && var channel := db.channels[row.channel];
    match StoredContract(env, row)
    case Fail(_) => false
    case Ok(None) => row.kind == "candidate" && Some(row.revision) in {channel.candidate, channel.active}
    case Ok(Some(contract)) =>
      && contract.kind == row.kind
      && Some(row.revision) == (if row.kind == "candidate" then channel.candidate else channel.active)
      && contract.channelGeneration == channel.generation
      && ForEnrollment(db, contract, e, row.channel)
      && contract.revision == row.revision
  }

  /** The contract names this enrollment, on this channel, with its generation and tags. */
  predicate ForEnrollment(db: Db, contract: Contract, e: string, channel: string) {
    && contract.enrollment == e && contract.channel == Str(channel)
    && e in db.enrollments
    && db.enrollments[e].channel == channel
    && db.enrollments[e].generation == contract.enrollmentGeneration
    && ReadTags(db.enrollments[e].tags) == Ok(contract.tags)
  }

  predicate PointersStored(db: Db) {
    forall c :: c in db.channels ==>
      && (db.channels[c].candidate.None? || db.channels[c].candidate.value in db.revisions)
      && (db.channels[c].active.None? || db.channels[c].active.value in db.revisions)
  }

  ghost predicate Consistent(env: Env, db: Db) {
    PointersStored(db) && forall e :: e in db.assignments ==> RowFits(env, db, e, db.assignments[e])
  }

  // ---------- What the checks before the key establish ----------

  predicate Described(env: Env, document: Json, kind: string, enrollment: string, contract: Option<Contract>,
                      tags: seq<string>) {
    && document.Obj?
    && Get(document, "enrollment_id") == Str(enrollment)
    && (contract.None? ==> Get(document, "schema") != Num(2))
    && (contract.Some? ==> ValidateAssignment(env.digest, document, kind, None) == Ok(contract.value)
                           && contract.value.enrollment == enrollment && contract.value.tags == tags
                           && contract.value.channel == Get(document, "channel")
                           && Str(contract.value.revision) == Get(document, "revision_id"))
  }

  predicate BatchDescribed(env: Env, batch: seq<(Contract, Json)>) {
    forall i :: 0 <= i < |batch| ==> ValidateAssignment(env.digest, batch[i].1, "active", None) == Ok(batch[i].0)
  }

  ghost predicate Prepared(env: Env, action: Action) {
    match action
    case PublishAction(_, _, _, _) => true
    case AssignAction(document, enrollment, contract, tags) =>
      Described(env, document, "candidate", enrollment, contract, tags)
    case BootstrapAction(channel, document, enrollment, contract, tags) =>
      Described(env, document, "active", enrollment, contract, tags) && Get(document, "channel") == Str(channel)
    case ReportAction(document, sender, result) => document.Obj? && Bind(Get(document, "enrollment_id")) == Ok(sender)
    case PromoteAction(_, _, _, _, _, batch) => BatchDescribed(env, BatchOf(batch))
  }

  lemma SignedAssignmentDescribed(env: Env, document: Json, kind: string, now: int)
    requires SignedAssignment(env, document, kind, now).Ok?
    ensures var (contract, enrollment, tags) := SignedAssignment(env, document, kind, now).value;
            Described(env, document, kind, enrollment, contract, tags)
  {
    if Get(document, "schema") == Num(2) {
      StaysValid(env.digest, document, kind, now);
    }
  }

  lemma {:induction false} BatchContractsDescribed(env: Env, documents: seq<Json>, now: int)
    requires BatchContracts(env, documents, now).Ok?
    ensures BatchDescribed(env, BatchContracts(env, documents, now).value)
    decreases |documents|
  {
    hide BatchContract, ValidateAssignment, Ids;
    if documents != [] {
      BatchContractsDescribed(env, documents[..|documents| - 1], now);
      BatchContractDescribed(env, documents[|documents| - 1], now);
    }
  }

  lemma BatchContractDescribed(env: Env, document: Json, now: int)
    requires BatchContract(env, document, now).Ok?
    ensures ValidateAssignment(env.digest, document, "active", None) == BatchContract(env, document, now)
  {
    StaysValid(env.digest, document, "active", now);
  }

  lemma PrepareDescribes(env: Env, db: Db, request: Request, now: int)
    requires Prepare(env, db, request, now).Ok?
    ensures Prepared(env, Prepare(env, db, request, now).value)
  {
    hide SignedAssignment, PromotionBatch, ReportVerified, Bind, Described, BatchDescribed;
    match request
    case Publish(_, _, _, _) =>
    case Assign(document) => SignedAssignmentDescribed(env, document, "candidate", now);
    case Bootstrap(_, document) => SignedAssignmentDescribed(env, document, "active", now);
    case Report(_) =>
    case Promote(_, _, _, _, event, batch) => PromotionBatchDescribed(env, event, batch, now);
  }

  lemma PromotionBatchDescribed(env: Env, event: Json, batch: Json, now: int)
    requires PromotionBatch(env, event, batch, now).Ok?
    ensures BatchDescribed(env, BatchOf(PromotionBatch(env, event, batch, now).value))
  {
    hide BatchContracts, Ids, Sorted, Strings, ValidateAssignment;
    if batch != Null {
      BatchContractsDescribed(env, batch.items, now);
    }
  }

  // ---------- Preservation ----------

  /** Other tables may grow: more revisions, more enrollments, with the enrolled facts of each row unchanged. */
  predicate Grows(db: Db, after: Db) {
    && after.channels == db.channels
    && after.assignments == db.assignments
    && db.revisions.Keys <= after.revisions.Keys
    && KeepsEnrolled(db, after)
  }

  predicate KeepsEnrolled(db: Db, after: Db) {
    forall e :: e in db.enrollments ==>
      && e in after.enrollments
      && after.enrollments[e].channel == db.enrollments[e].channel
      && after.enrollments[e].generation == db.enrollments[e].generation
      && after.enrollments[e].tags == db.enrollments[e].tags
  }

  lemma GrowingKeepsConsistent(env: Env, db: Db, after: Db)
    requires Consistent(env, db) && Grows(db, after)
    ensures Consistent(env, after)
  {
    hide StoredContract, ReadTags;
    forall e | e in after.assignments
      ensures RowFits(env, after, e, after.assignments[e])
    {
      assert RowFits(env, db, e, db.assignments[e]);
    }
  }

  lemma StoredDocument(env: Env, channel: string, revision: string, kind: string, document: Json,
                       contract: Option<Contract>)
    requires document.Obj?
    requires contract.None? ==> Get(document, "schema") != Num(2)
    requires contract.Some? ==> ValidateAssignment(env.digest, document, kind, None) == Ok(contract.value)
    ensures StoredContract(env, Assignment(channel, revision, kind, Dumps(document))) == Ok(contract)
  {
    LoadsDumps(document);
  }

  lemma PublishKeeps(env: Env, db: Db, channel: string, revision: Json, base: Json, head: Json)
    requires Consistent(env, db) && DoPublish(db, channel, revision, base, head).Ok?
    ensures Consistent(env, DoPublish(db, channel, revision, base, head).value.0)
  {
    hide StoredContract, ReadTags;
    var after := DoPublish(db, channel, revision, base, head).value.0;
    forall e | e in after.assignments
      ensures RowFits(env, after, e, after.assignments[e])
    {
      assert RowFits(env, db, e, db.assignments[e]);
    }
  }

  lemma PutKeeps(env: Env, db: Db, e: string, row: Assignment)
    requires Consistent(env, db) && RowFits(env, db, e, row)
    ensures Consistent(env, db.(assignments := db.assignments[e := row]))
  {
    hide StoredContract, ReadTags;
    var after := db.(assignments := db.assignments[e := row]);
    forall d | d in after.assignments
      ensures RowFits(env, after, d, after.assignments[d])
    {
      assert d != e ==> RowFits(env, db, d, db.assignments[d]);
    }
  }

  /** The row an issued assignment leaves: the document itself, on an eligible enrollment. */
  ghost predicate Issues(db: Db, effect: Effect, channel: string, enrollment: string, contract: Option<Contract>,
                         kind: string, document: Json, pointer: Option<string>)
    requires document.Obj?
  {
    && effect.Ok? && channel in db.channels
    && Get(document, "revision_id").Str?
    && var revision := Get(document, "revision_id").s;
    && revision in db.revisions && pointer == Some(revision)
    && var issued := Assignment(channel, revision, kind, Dumps(document));
    && effect.value.0 == db.(assignments := db.assignments[enrollment := issued])
    && (contract.Some? ==>
         && contract.value.channelGeneration == db.channels[channel].generation
         && enrollment in db.enrollments
         && var row := db.enrollments[enrollment];
         && row.channel == channel && !row.revoked && row.generation == contract.value.enrollmentGeneration
         && ReadTags(row.tags) == Ok(contract.value.tags))
  }

  lemma AssignIssues(env: Env, db: Db, document: Json, enrollment: string, contract: Option<Contract>,
                     tags: seq<string>)
    requires Described(env, document, "candidate", enrollment, contract, tags)
    requires DoAssign(db, document, enrollment, contract, tags).Ok?
    ensures exists channel ::
              && (contract.Some? ==> Get(document, "channel") == Str(channel)) && channel in db.channels
              && Issues(db, DoAssign(db, document, enrollment, contract, tags), channel, enrollment, contract,
                        "candidate", document, db.channels[channel].candidate)
  {
    hide ReadTags, ValidateAssignment, Strings, Dumps, ContractFields;
    var channel := Bind(Get(document, "channel")).value.s;
    assert contract.Some? ==> db.enrollments[enrollment].channel == channel;
    assert Issues(db, DoAssign(db, document, enrollment, contract, tags), channel, enrollment, contract, "candidate",
                  document, db.channels[channel].candidate);
  }

  lemma BootstrapIssues(env: Env, db: Db, channel: string, document: Json, enrollment: string,
                        contract: Option<Contract>, tags: seq<string>)
    requires Described(env, document, "active", enrollment, contract, tags)
    requires DoBootstrap(db, channel, document, enrollment, contract, tags).Ok?
    ensures channel in db.channels
    ensures Issues(db, DoBootstrap(db, channel, document, enrollment, contract, tags), channel, enrollment, contract,
                   StoredKind(contract), document, db.channels[channel].active)
  {
    hide ReadTags, ValidateAssignment, Strings, Dumps, ContractFields;
  }

  lemma IssuedRowFits(env: Env, db: Db, effect: Effect, channel: string, enrollment: string, contract: Option<Contract>,
                      kind: string, document: Json, pointer: Option<string>, tags: seq<string>)
    requires document.Obj? && channel in db.channels
    requires Issues(db, effect, channel, enrollment, contract, kind, document, pointer)
    requires kind in {"candidate", "active"} && (contract.None? ==> kind == "candidate")
    requires pointer in {db.channels[channel].candidate, db.channels[channel].active}
    requires contract.Some? ==> pointer == (if kind == "candidate" then db.channels[channel].candidate
                                            else db.channels[channel].active)
    requires Described(env, document, kind, enrollment, contract, tags)
    requires contract.Some? ==> Get(document, "channel") == Str(channel)
    ensures RowFits(env, db, enrollment, effect.value.0.assignments[enrollment])
  {
    hide StoredContract, ReadTags, WellFormedAssignment, TargetTags, Dumps;
    StoredDocument(env, channel, Get(document, "revision_id").s, kind, document, contract);
  }

  lemma AssignKeeps(env: Env, db: Db, document: Json, enrollment: string, contract: Option<Contract>, tags: seq<string>)
    requires Consistent(env, db) && Described(env, document, "candidate", enrollment, contract, tags)
    requires DoAssign(db, document, enrollment, contract, tags).Ok?
    ensures Consistent(env, DoAssign(db, document, enrollment, contract, tags).value.0)
  {
    hide DoAssign, RowFits, Consistent, Dumps, ValidateAssignment;
    var effect := DoAssign(db, document, enrollment, contract, tags);
    AssignIssues(env, db, document, enrollment, contract, tags);
    var channel :| (contract.Some? ==> Get(document, "channel") == Str(channel)) && channel in db.channels
                   && Issues(db, effect, channel, enrollment, contract, "candidate", document,
                             db.channels[channel].candidate);
    IssuedRowFits(env, db, effect, channel, enrollment, contract, "candidate", document, db.channels[channel].candidate,
                  tags);
    PutKeeps(env, db, enrollment, effect.value.0.assignments[enrollment]);
  }

  lemma BootstrapKeeps(env: Env, db: Db, channel: string, document: Json, enrollment: string,
                       contract: Option<Contract>, tags: seq<string>)
    requires Consistent(env, db) && Described(env, document, "active", enrollment, contract, tags)
    requires Get(document, "channel") == Str(channel)
    requires DoBootstrap(db, channel, document, enrollment, contract, tags).Ok?
    ensures Consistent(env, DoBootstrap(db, channel, document, enrollment, contract, tags).value.0)
  {
    hide DoBootstrap, RowFits, Consistent, Dumps, ValidateAssignment;
    var effect := DoBootstrap(db, channel, document, enrollment, contract, tags);
    BootstrapIssues(env, db, channel, document, enrollment, contract, tags);
    IssuedRowFits(env, db, effect, channel, enrollment, contract, StoredKind(contract), document,
                  db.channels[channel].active, tags);
    PutKeeps(env, db, enrollment, effect.value.0.assignments[enrollment]);
  }

  lemma {:induction false} MembersEligible(db: Db, batch: seq<(Contract, Json)>, channel: string, candidate: Json,
                                           generation: nat, i: nat)
    requires BatchMembers(db, batch, channel, candidate, generation).Ok? && i < |batch|
    ensures BatchMember(db, batch[i].0, channel, candidate, generation).Ok?
    decreases |batch|
  {
    if i < |batch| - 1 {
      MembersEligible(db, batch[..|batch| - 1], channel, candidate, generation, i);
    }
  }

  /** What a committed promotion leaves behind, apart from its response. */
  lemma PromoteLeaves(db: Db, channel: string, candidate: Json, expectedActive: Json, required: seq<Json>,
                      event: Json, batch: Option<seq<(Contract, Json)>>, ties: map<string, string>)
    requires DoPromote(db, channel, candidate, expectedActive, required, event, batch, ties).Ok?
    ensures channel in db.channels
    ensures var current, entries := db.channels[channel], BatchOf(batch);
            var cleared := ClearChannel(db.assignments, channel);
            && FromOption(current.candidate) == candidate && FromOption(current.active) == expectedActive
            && BatchMembers(db, entries, channel, candidate, current.generation + 1).Ok?
            && (entries != [] ==> candidate.Str? && candidate.s in db.revisions) && Insertable(cleared, entries)
            && DoPromote(db, channel, candidate, expectedActive, required, event, batch, ties).value.0 ==
               db.(channels := db.channels[channel := Channel(None, current.candidate, current.generation + 1)],
                   assignments := cleared + (if entries == [] then map[] else BatchRows(entries, channel, candidate.s)))
  {
    hide CanariesPassed, BatchMembers, PromotionResponse, BatchRows, ClearChannel;
  }

  lemma BatchRowFits(env: Env, db: Db, after: Db, batch: seq<(Contract, Json)>, channel: string, candidate: string,
                     generation: nat, i: nat)
    requires i < |batch| && BatchDescribed(env, batch)
    requires BatchMember(db, batch[i].0, channel, Str(candidate), generation).Ok?
    requires candidate in after.revisions && after.enrollments == db.enrollments
    requires channel in after.channels && after.channels[channel].active == Some(candidate)
    requires after.channels[channel].generation == generation
    ensures RowFits(env, after, batch[i].0.enrollment, ActiveRow(batch[i], channel, candidate))
  {
    hide StoredContract, ReadTags, Dumps, TargetTags;
    assert WellFormedAssignment(env.digest, batch[i].1, "active");
    StoredDocument(env, channel, candidate, "active", batch[i].1, Some(batch[i].0));
  }

  lemma OtherRowsFit(env: Env, db: Db, after: Db, channel: string, e: string)
    requires e in db.assignments && db.assignments[e].channel != channel && RowFits(env, db, e, db.assignments[e])
    requires after.revisions == db.revisions && after.enrollments == db.enrollments
    requires channel in after.channels && after.channels == db.channels[channel := after.channels[channel]]
    ensures RowFits(env, after, e, db.assignments[e])
  {
    hide StoredContract, ReadTags;
  }

  lemma PromoteKeeps(env: Env, db: Db, channel: string, candidate: Json, expectedActive: Json, required: seq<Json>,
                     event: Json, batch: Option<seq<(Contract, Json)>>, ties: map<string, string>)
    requires Consistent(env, db) && BatchDescribed(env, BatchOf(batch))
    requires DoPromote(db, channel, candidate, expectedActive, required, event, batch, ties).Ok?
    ensures Consistent(env, DoPromote(db, channel, candidate, expectedActive, required, event, batch, ties).value.0)
  {
    hide DoPromote, RowFits, BatchMembers, BatchMember, BatchDescribed, BatchRows, ClearChannel, ActiveRow;
    PromoteLeaves(db, channel, candidate, expectedActive, required, event, batch, ties);
    var after := DoPromote(db, channel, candidate, expectedActive, required, event, batch, ties).value.0;
    var entries := BatchOf(batch);
    var generation := db.channels[channel].generation + 1;
    assert after.channels == db.channels[channel := after.channels[channel]];
    forall e | e in after.assignments
      ensures RowFits(env, after, e, after.assignments[e])
    {
      WhereRowsComeFrom(db, entries, channel, candidate, e);
      if e in db.assignments && db.assignments[e].channel != channel && after.assignments[e] == db.assignments[e] {
        OtherRowsFit(env, db, after, channel, e);
      } else {
        var i: nat :| i < |entries| && entries[i].0.enrollment == e
            && after.assignments[e] == ActiveRow(entries[i], channel, candidate.s);
        MembersEligible(db, entries, channel, candidate, generation, i);
        BatchRowFits(env, db, after, entries, channel, candidate.s, generation, i);
      }
    }
  }

  /** After a promotion a row is either one of another channel or the batch's own. */
  lemma WhereRowsComeFrom(db: Db, entries: seq<(Contract, Json)>, channel: string, candidate: Json, e: string)
    requires entries != [] ==> candidate.Str?
    requires Insertable(ClearChannel(db.assignments, channel), entries)
    requires e in ClearChannel(db.assignments, channel)
                  + (if entries == [] then map[] else BatchRows(entries, channel, candidate.s))
    ensures var row := (ClearChannel(db.assignments, channel)
                        + (if entries == [] then map[] else BatchRows(entries, channel, candidate.s)))[e];
            || (e in db.assignments && db.assignments[e].channel != channel && row == db.assignments[e])
            || exists i: nat :: i < |entries| && entries[i].0.enrollment == e
                                && row == ActiveRow(entries[i], channel, candidate.s)
  {
    hide ActiveRow;
  }

  lemma ReportLeaves(env: Env, db: Db, document: Json, sender: Bound, result: string)
    requires document.Obj? && DoReport(env, db, document, sender, result).Ok?
    ensures var after := DoReport(env, db, document, sender, result).value.0;
            after == db.(reports := after.reports, assignmentReports := after.assignmentReports)
  {
    hide StoredContract, Dumps, Bind, Repeats, RecordLegacy, RecordModern;
    var stored := StoredContract(env, db.assignments[sender.s]).value;
    if stored.Some? {
      ModernLeaves(db, document, sender.s, db.assignments[sender.s], stored.value, result);
    } else {
      LegacyLeaves(db, document, sender.s, db.assignments[sender.s], result);
    }
  }

  lemma LegacyLeaves(db: Db, document: Json, e: string, row: Assignment, result: string)
    requires document.Obj?
    ensures var after := RecordLegacy(db, document, e, row, result).0; after == db.(reports := after.reports)
  {
  }

  lemma ModernLeaves(db: Db, document: Json, e: string, row: Assignment, contract: Contract, result: string)
    requires document.Obj?
    ensures var after := RecordModern(db, document, e, row, contract, result).0;
            after == db.(assignmentReports := after.assignmentReports)
  {
  }

  /** Every committed action keeps channels, revisions, enrollments and assignments consistent. */
  lemma ExecuteKeepsConsistent(env: Env, db: Db, action: Action, ties: map<string, string>)
    requires Consistent(env, db) && Prepared(env, action)
    requires Execute(env, db, action, ties).Ok?
    ensures Consistent(env, Execute(env, db, action, ties).value.0)
  {
    hide DoPublish, DoAssign, DoBootstrap, DoPromote, DoReport, RowFits, Consistent, ValidateAssignment;
    match action
    case PublishAction(channel, revision, base, head) => PublishKeeps(env, db, channel, revision, base, head);
    case AssignAction(document, enrollment, contract, tags) =>
      AssignKeeps(env, db, document, enrollment, contract, tags);
    case BootstrapAction(channel, document, enrollment, contract, tags) =>
      BootstrapKeeps(env, db, channel, document, enrollment, contract, tags);
    case ReportAction(document, sender, result) =>
      ReportLeaves(env, db, document, sender, result);
      GrowingKeepsConsistent(env, db, Execute(env, db, action, ties).value.0);
    case PromoteAction(channel, candidate, expectedActive, required, event, batch) =>
      PromoteKeeps(env, db, channel, candidate, expectedActive, required, event, batch, ties);
  }

  lemma CallKeepsConsistent(env: Env, db: Db, key: string, request: Request, now: int, ties: map<string, string>)
    requires Consistent(env, db)
    ensures Consistent(env, Call(env, db, key, request, now, ties).0)
  {
    hide Prepare, Execute, RowFits, Prepared;
    if Commits(env, db, key, request, now, ties) {
      var action := Prepare(env, db, request, now).value;
      PrepareDescribes(env, db, request, now);
      ExecuteKeepsConsistent(env, db, action, ties);
      GrowingKeepsConsistent(env, Execute(env, db, action, ties).value.0, Call(env, db, key, request, now, ties).0);
    }
  }

  // ---------- Consequences ----------

  /** A report that names its assignment is never refused because the stored document fails to revalidate: in a
      consistent state a report is refused by the action only for naming no assignment or repeating it wrongly. */
  lemma RevalidationNeverFails(env: Env, db: Db, document: Json, sender: Bound, result: string)
    requires Consistent(env, db) && document.Obj? && sender.Text? && sender.s in db.assignments
    ensures StoredContract(env, db.assignments[sender.s]).Ok?
    ensures DoReport(env, db, document, sender, result).Ok? <==>
            var row := db.assignments[sender.s];
            && Bind(Get(document, "channel")) == Ok(Text(row.channel))
            && Get(document, "revision_id") == Str(row.revision)
            && match StoredContract(env, row).value
               case None => true
               case Some(contract) => Repeats(document, contract)
  {
    hide StoredContract, ReadTags, Repeats, Dumps;
    assert RowFits(env, db, sender.s, db.assignments[sender.s]);
  }
}
