/** Every promotion in a run is justified by reports recorded earlier in the same run. */
module Justification {
  import opened Json
  import opened Documents
  import opened Tables
  import opened Rollout
  import opened RolloutInvariant
  import opened World
  import Base64Url
  import Signing

  /** Where a report is kept: one slot per schema 2 assignment, one per enrollment, channel and revision otherwise. */
  datatype Slot = Modern(e: string, assignmentId: string) | Legacy(e: string, channel: string, revision: string)

  /** A committed report: its slot, the assignment its sender held at that moment, and the result it carried. */
  datatype Record = Record(slot: Slot, enrollment: string, row: Assignment, contract: Option<Contract>, result: string)

  ghost predicate Committing(env: Env, s: State, op: Op) {
    op.CallRollout? && Commits(env, s.db, op.key, op.request, op.now, op.ties)
  }

  /** The report verifies under its sender's own key, or under the registry if the sender is not enrolled. */
  predicate SignedBySender(env: Env, db: Db, document: Json, e: string) {
    if e in db.enrollments then
      var row := db.enrollments[e];
      var key := Base64Url.Decode(Str(row.publicKey), 32);
      !row.revoked && key.Ok? && Signing.VerifyWithKey(env.backend, "report", document, Str(row.keyId), key.value)
    else env.verify("report", document)
  }

  /** The sender that a report names, if its column value is a text. */
  function SenderOf(document: Json): Option<string>
    requires document.Obj?
  {
    match Bind(Get(document, "enrollment_id"))
    case Ok(Text(e)) => Some(e)
    case _ => None
  }

  /** What an operation records in a state, if it is a report that commits: the result is the one its document says. */
  ghost function RecordOf(env: Env, s: State, op: Op): Option<Record> {
    if !(Committing(env, s, op) && op.request.Report? && op.request.document.Obj?) then None else
      var sender := SenderOf(op.request.document);
      var result := Get(op.request.document, "result");
      if sender.None? || sender.value !in s.db.assignments || !result.Str? then None else
        var e := sender.value;
        var row := s.db.assignments[e];
        match StoredContract(env, row)
        case Fail(_) => None
        case Ok(contract) =>
          var slot := if contract.Some? then Modern(e, contract.value.assignmentId)
              else Legacy(e, row.channel, row.revision);
          Some(Record(slot, e, row, contract, result.s))
  }

  /** A report that passes its checks is about what its document says, and signed by its sender. */
  lemma PreparedReport(env: Env, db: Db, document: Json, now: int)
    requires Prepare(env, db, Request.Report(document), now).Ok?
    ensures document.Obj?
    ensures var action := Prepare(env, db, Request.Report(document), now).value;
            && action.ReportAction? && action.document == document
            && Bind(Get(document, "enrollment_id")) == Ok(action.sender)
               && Get(document, "result") == Str(action.result)
            && action.result in {"success", "failure", "observed", "drift_blocked", "external_dependency_failure"}
            && (action.sender.Text? ==>
                 SenderOf(document) == Some(action.sender.s) && SignedBySender(env, db, document, action.sender.s))
  {
    hide Bind, Signing.VerifyWithKey, Base64Url.Decode;
  }

  /** The modern row that a record leaves, up to the text of the report itself. */
  function ModernRow(r: Record, document: string): AssignmentReport
    requires r.contract.Some?
  {
    var c := r.contract.value;
    AssignmentReport(c.enrollmentGeneration, r.row.channel, c.channelGeneration, r.row.revision, c.kind, r.result,
                     document)
  }

  ghost predicate Recorded(db: Db, after: Db, record: Option<Record>) {
    match record
    case None => after.reports == db.reports && after.assignmentReports == db.assignmentReports
    case Some(r) =>
      match r.slot
      case Modern(e, id) =>
        && r.contract.Some? && after.reports == db.reports
        && (e, id) in after.assignmentReports
        && var row := ModernRow(r, after.assignmentReports[(e, id)].document);
        after.assignmentReports == db.assignmentReports[(e, id) := row]
      case Legacy(e, c, revision) =>
        && r.contract.None? && after.assignmentReports == db.assignmentReports
        && (e, c, revision) in after.reports
        && var row := Tables.Report(r.result, after.reports[(e, c, revision)].document);
        after.reports == db.reports[(e, c, revision) := row]
  }

  lemma LegacyRecorded(db: Db, document: Json, e: string, row: Assignment, result: string)
    requires document.Obj?
    ensures Recorded(db, RecordLegacy(db, document, e, row, result).0,
                     Some(Record(Legacy(e, row.channel, row.revision), e, row, None, result)))
  {
  }

  lemma ModernRecorded(db: Db, document: Json, e: string, row: Assignment, contract: Contract, result: string)
    requires document.Obj?
    ensures Recorded(db, RecordModern(db, document, e, row, contract, result).0,
                     Some(Record(Modern(e, contract.assignmentId), e, row, Some(contract), result)))
  {
  }

  lemma ReportRecords(env: Env, db: Db, document: Json, sender: Bound, result: string)
    requires document.Obj? && DoReport(env, db, document, sender, result).Ok?
    ensures sender.Text? && sender.s in db.assignments && StoredContract(env, db.assignments[sender.s]).Ok?
    ensures var row := db.assignments[sender.s];
            var contract := StoredContract(env, row).value;
            var slot := if contract.Some? then Modern(sender.s, contract.value.assignmentId)
                else Legacy(sender.s, row.channel, row.revision);
            Recorded(db, DoReport(env, db, document, sender, result).value.0,
                     Some(Record(slot, sender.s, row, contract, result)))
  {
    hide StoredContract, Bind, Repeats, RecordLegacy, RecordModern, Recorded;
    var row := db.assignments[sender.s];
    var contract := StoredContract(env, row).value;
    LegacyRecorded(db, document, sender.s, row, result);
    if contract.Some? {
      ModernRecorded(db, document, sender.s, row, contract.value, result);
    }
  }

  lemma ExecuteRecordsNothing(env: Env, db: Db, action: Action, ties: map<string, string>)
    requires Execute(env, db, action, ties).Ok? && !action.ReportAction?
    ensures Recorded(db, Execute(env, db, action, ties).value.0, None)
  {
    hide ValidateAssignment, ReadTags, PromotionResponse, ContractFields, DoPromote;
    if action.PromoteAction? {
      PromoteLeaves(db, action.channel, action.candidate, action.expectedActive, action.required, action.event,
                    action.batch, ties);
    }
  }

  lemma PreparesItsKind(env: Env, db: Db, request: Request, now: int)
    requires Prepare(env, db, request, now).Ok?
    ensures request.Report? <==> Prepare(env, db, request, now).value.ReportAction?
    ensures request.Promote? <==> Prepare(env, db, request, now).value.PromoteAction?
    ensures request.Publish? <==> Prepare(env, db, request, now).value.PublishAction?
    ensures request.Assign? <==> Prepare(env, db, request, now).value.AssignAction?
    ensures request.Bootstrap? <==> Prepare(env, db, request, now).value.BootstrapAction?
    ensures request.Report? ==> Prepare(env, db, request, now).value.document == request.document
                                && request.document.Obj?
  {
    hide SignedAssignment, PromotionBatch, ReportVerified, Bind;
  }

  /** Each step changes the report tables by exactly its record. */
  lemma StepRecords(env: Env, s: State, op: Op)
    ensures Recorded(s.db, Step(env, s, op).0.db, RecordOf(env, s, op))
  {
    hide Step, Call, Prepare, Execute, StoredContract, Bind, SignedBySender;
    if Committing(env, s, op) {
      RolloutStep(env, s, op);
      CommittedCall(env, s.db, op.key, op.request, op.now, op.ties);
      var action := Prepare(env, s.db, op.request, op.now).value;
      PreparesItsKind(env, s.db, op.request, op.now);
      if action.ReportAction? {
        PreparedReport(env, s.db, op.request.document, op.now);
        ExecuteIsReport(env, s.db, action, op.ties);
        ReportRecords(env, s.db, action.document, action.sender, action.result);
      } else {
        ExecuteRecordsNothing(env, s.db, action, op.ties);
      }
    } else if op.CallRollout? {
      RolloutStep(env, s, op);
      UncommittedCall(env, s.db, op.key, op.request, op.now, op.ties);
    } else {
      StepFrame(env, s, op);
    }
  }

  lemma ExecuteIsReport(env: Env, db: Db, action: Action, ties: map<string, string>)
    requires action.ReportAction? && Execute(env, db, action, ties).Ok?
    ensures action.document.Obj?
    ensures Execute(env, db, action, ties) == DoReport(env, db, action.document, action.sender, action.result)
  {
  }

  // ---------- The report tables as a history ----------

  ghost function RecordAt(env: Env, ops: seq<Op>, i: nat): Option<Record>
    requires i < |ops|
  {
    RecordOf(env, Before(env, ops, i), ops[i])
  }

  /** Operation `i` recorded in the slot and no later operation did. */
  ghost predicate LatestIn(env: Env, ops: seq<Op>, i: nat, slot: Slot) {
    && i < |ops| && RecordAt(env, ops, i).Some? && RecordAt(env, ops, i).value.slot == slot
    && forall j :: i < j < |ops| ==> !(RecordAt(env, ops, j).Some? && RecordAt(env, ops, j).value.slot == slot)
  }

  ghost predicate SlotShows(db: Db, slot: Slot, r: Record) {
    match slot
    case Modern(e, id) =>
      (e, id) in db.assignmentReports && r.contract.Some?
      && db.assignmentReports[(e, id)] == ModernRow(r, db.assignmentReports[(e, id)].document)
    case Legacy(e, c, revision) =>
      (e, c, revision) in db.reports && db.reports[(e, c, revision)].result == r.result
  }

  predicate SlotFilled(db: Db, slot: Slot) {
    match slot
    case Modern(e, id) => (e, id) in db.assignmentReports
    case Legacy(e, c, revision) => (e, c, revision) in db.reports
  }

  lemma PrefixRecords(env: Env, ops: seq<Op>, i: nat)
    requires i < |ops| - 1
    ensures RecordAt(env, ops, i) == RecordAt(env, ops[..|ops| - 1], i)
  {
    assert ops[..|ops| - 1][..i] == ops[..i];
  }

  lemma LastStep(env: Env, ops: seq<Op>)
    requires ops != []
    ensures Before(env, ops, |ops| - 1) == After(env, ops[..|ops| - 1])
    ensures After(env, ops) == Step(env, After(env, ops[..|ops| - 1]), ops[|ops| - 1]).0
  {
  }

  lemma SlotStep(db: Db, after: Db, record: Option<Record>, slot: Slot, latest: Record)
    requires Recorded(db, after, record)
    ensures record.Some? && record.value.slot == slot ==>
            SlotFilled(after, slot) && SlotShows(after, slot, record.value)
    ensures !(record.Some? && record.value.slot == slot) ==>
              (SlotFilled(after, slot) <==> SlotFilled(db, slot))
                  && (SlotShows(db, slot, latest) ==> SlotShows(after, slot, latest))
  {
  }

  /** The last step of a run leaves the latest record of every other slot the latest. */
  lemma LatestBefore(env: Env, ops: seq<Op>, slot: Slot, i: nat)
    requires ops != []
    requires var last := RecordAt(env, ops, |ops| - 1); !(last.Some? && last.value.slot == slot)
    ensures LatestIn(env, ops, i, slot) <==> LatestIn(env, ops[..|ops| - 1], i, slot)
    ensures i < |ops| - 1 ==> RecordAt(env, ops, i) == RecordAt(env, ops[..|ops| - 1], i)
  {
    hide RecordAt;
    var earlier := ops[..|ops| - 1];
    forall j: nat | j < |ops| - 1
      ensures RecordAt(env, ops, j) == RecordAt(env, earlier, j)
    {
      PrefixRecords(env, ops, j);
    }
    if LatestIn(env, ops, i, slot) {
      assert LatestIn(env, earlier, i, slot);
    }
    if LatestIn(env, earlier, i, slot) {
      forall j: nat | i < j < |ops|
        ensures !(RecordAt(env, ops, j).Some? && RecordAt(env, ops, j).value.slot == slot)
      {
        assert j < |ops| - 1 ==> RecordAt(env, ops, j) == RecordAt(env, earlier, j);
      }
    }
  }

  ghost predicate Shown(env: Env, ops: seq<Op>, slot: Slot) {
    && (SlotFilled(After(env, ops).db, slot) <==> exists i: nat :: LatestIn(env, ops, i, slot))
    && (forall i: nat :: LatestIn(env, ops, i, slot) ==>
                         SlotShows(After(env, ops).db, slot, RecordAt(env, ops, i).value))
  }

  lemma ShownInItsSlot(env: Env, ops: seq<Op>, slot: Slot)
    requires ops != []
    requires var last := RecordAt(env, ops, |ops| - 1); last.Some? && last.value.slot == slot
    requires Recorded(After(env, ops[..|ops| - 1]).db, After(env, ops).db, RecordAt(env, ops, |ops| - 1))
    ensures Shown(env, ops, slot)
  {
    hide After, RecordAt, Recorded, SlotFilled, SlotShows;
    var n := |ops| - 1;
    var last := RecordAt(env, ops, n);
    SlotStep(After(env, ops[..n]).db, After(env, ops).db, last, slot, last.value);
    assert LatestIn(env, ops, n, slot);
    forall i: nat | LatestIn(env, ops, i, slot)
      ensures i == n
    {
    }
  }

  lemma ShownElsewhere(env: Env, ops: seq<Op>, slot: Slot)
    requires ops != [] && Shown(env, ops[..|ops| - 1], slot)
    requires var last := RecordAt(env, ops, |ops| - 1); !(last.Some? && last.value.slot == slot)
    requires Recorded(After(env, ops[..|ops| - 1]).db, After(env, ops).db, RecordAt(env, ops, |ops| - 1))
    ensures Shown(env, ops, slot)
  {
    hide After, RecordAt, Recorded, SlotFilled, SlotShows;
    var n := |ops| - 1;
    var earlier := ops[..n];
    var db, after := After(env, earlier).db, After(env, ops).db;
    var last := RecordAt(env, ops, n);
    SlotStep(db, after, last, slot, Record(slot, "", Assignment("", "", "", ""), None, ""));
    forall i: nat
      ensures LatestIn(env, ops, i, slot) <==> LatestIn(env, earlier, i, slot)
    {
      LatestBefore(env, ops, slot, i);
    }
    forall i: nat | LatestIn(env, ops, i, slot)
      ensures SlotShows(after, slot, RecordAt(env, ops, i).value)
    {
      LatestInRange(env, earlier, slot, i);
      LatestBefore(env, ops, slot, i);
      SlotStep(db, after, last, slot, RecordAt(env, ops, i).value);
    }
  }

  lemma LatestInRange(env: Env, ops: seq<Op>, slot: Slot, i: nat)
    requires LatestIn(env, ops, i, slot)
    ensures i < |ops| && RecordAt(env, ops, i).Some?
  {
  }

  /** A slot is filled exactly when some operation recorded in it, and it shows the latest record. */
  lemma {:induction false} SlotHistory(env: Env, ops: seq<Op>, slot: Slot)
    ensures Shown(env, ops, slot)
    decreases |ops|
  {
    hide Step, After, RecordOf, RecordAt, Recorded, Shown;
    if ops == [] {
      NothingShown(env, ops, slot);
    } else {
      var earlier := ops[..|ops| - 1];
      SlotHistory(env, earlier, slot);
      LastStep(env, ops);
      LastRecord(env, ops);
      StepRecords(env, After(env, earlier), ops[|ops| - 1]);
      var last := RecordAt(env, ops, |ops| - 1);
      if last.Some? && last.value.slot == slot {
        ShownInItsSlot(env, ops, slot);
      } else {
        ShownElsewhere(env, ops, slot);
      }
    }
  }

  lemma NothingShown(env: Env, ops: seq<Op>, slot: Slot)
    requires ops == []
    ensures Shown(env, ops, slot)
  {
    EmptyRun(env, ops);
  }

  lemma LastRecord(env: Env, ops: seq<Op>)
    requires ops != []
    ensures RecordAt(env, ops, |ops| - 1) == RecordOf(env, After(env, ops[..|ops| - 1]), ops[|ops| - 1])
  {
  }

  // ---------- Promotions ----------

  lemma {:induction false} CanaryPasses(db: Db, required: seq<Json>, channel: string, candidate: Json,
                                        ties: map<string, string>, j: nat)
    requires CanariesPassed(db, required, channel, candidate, ties).Ok? && j < |required|
    ensures Bind(required[j]).Ok? && CanaryResult(db, Bind(required[j]).value, channel, candidate, ties) ==
            Some("success")
    decreases |required|
  {
    hide CanaryResult, Bind;
    if j < |required| - 1 {
      CanaryPasses(db, required[..|required| - 1], channel, candidate, ties, j);
    }
  }

  /** The record answers a schema 2 candidate assignment of this enrollment, channel and revision. */
  predicate CandidateRecord(r: Record, e: string, channel: string, revision: string) {
    && r.contract.Some? && r.contract.value.kind == "candidate"
    && r.enrollment == e && r.row.channel == channel && r.row.revision == revision
  }

  /** The latest result of some schema 2 candidate assignment of the enrollment for the revision on the channel. */
  ghost predicate LatestCandidate(env: Env, ops: seq<Op>, j: nat, e: string, channel: string, revision: string) {
    && j < |ops| && RecordAt(env, ops, j).Some?
    && LatestIn(env, ops, j, RecordAt(env, ops, j).value.slot)
    && CandidateRecord(RecordAt(env, ops, j).value, e, channel, revision)
  }

  /** The operation is a report of a success that its sender signed. */
  predicate Vouched(env: Env, s: State, op: Op, e: string) {
    && op.CallRollout? && op.request.Report? && op.request.document.Obj?
    && Get(op.request.document, "result") == Str("success")
    && SenderOf(op.request.document) == Some(e) && SignedBySender(env, s.db, op.request.document, e)
  }

  lemma RecordIsVouched(env: Env, s: State, op: Op)
    requires RecordOf(env, s, op).Some? && RecordOf(env, s, op).value.result == "success"
    ensures Vouched(env, s, op, RecordOf(env, s, op).value.enrollment)
  {
    hide Prepare, Execute, StoredContract, Bind, SignedBySender;
    PreparedReport(env, s.db, op.request.document, op.now);
  }

  /** Operation `i` recorded a success for the enrollment, which its sender signed, while it was assigned the revision
      on the channel, and that is still the latest result of its assignment. Among the latest results of schema 2
      candidate assignments it has the highest channel generation; a legacy report counts only when there is none of
      those. */
  ghost predicate Justifies(env: Env, ops: seq<Op>, i: nat, e: string, channel: string, revision: string) {
    && i < |ops| && RecordAt(env, ops, i).Some?
    && var r := RecordAt(env, ops, i).value;
    && LatestIn(env, ops, i, r.slot)
    && r.enrollment == e && r.result == "success" && Vouched(env, Before(env, ops, i), ops[i], e)
    && e in Before(env, ops, i).db.assignments && Before(env, ops, i).db.assignments[e] == r.row
    && r.row.channel == channel && r.row.revision == revision
    && (r.contract.Some? ==> CandidateRecord(r, e, channel, revision) && channel in Before(env, ops, i).db.channels
                             && Before(env, ops, i).db.channels[channel].candidate == Some(revision))
    && (forall j: nat :: LatestCandidate(env, ops, j, e, channel, revision) ==>
         r.contract.Some? && RecordAt(env, ops,
                                      j).value.contract.value.channelGeneration <= r.contract.value.channelGeneration)
  }

  lemma RecordHoldsAssignment(env: Env, s: State, op: Op)
    requires RecordOf(env, s, op).Some?
    ensures var r := RecordOf(env, s, op).value;
            && r.enrollment in s.db.assignments && s.db.assignments[r.enrollment] == r.row
            && StoredContract(env, r.row) == Ok(r.contract)
            && r.slot == (if r.contract.Some? then Modern(r.enrollment, r.contract.value.assignmentId)
                          else Legacy(r.enrollment, r.row.channel, r.row.revision))
  {
    hide Prepare, Execute, StoredContract;
  }

  /** A candidate report was recorded while its revision was the channel's candidate. */
  lemma RecordedDuringCandidacy(env: Env, ops: seq<Op>, i: nat)
    requires i < |ops| && RecordAt(env, ops, i).Some? && RecordAt(env, ops, i).value.contract.Some?
    requires RecordAt(env, ops, i).value.contract.value.kind == "candidate"
    ensures var (db, row) := (Before(env, ops, i).db, RecordAt(env, ops, i).value.row);
            row.channel in db.channels && db.channels[row.channel].candidate == Some(row.revision)
  {
    hide RecordOf, Step, After, StoredContract, ReadTags;
    var s := Before(env, ops, i);
    RecordHoldsAssignment(env, s, ops[i]);
    AlwaysConsistent(env, ops[..i]);
    var r := RecordAt(env, ops, i).value;
    assert RowFits(env, s.db, r.enrollment, r.row);
  }

  /** The newest candidate row of the table is the latest record of its slot, and its generation is the highest. */
  lemma NewestIsLatest(env: Env, ops: seq<Op>, e: string, channel: string, revision: string, k: (string, string))
    requires var db := After(env, ops).db;
             IsNewest(db, CandidateReports(db, e, channel, revision), k) && db.assignmentReports[k].result == "success"
    ensures exists i :: Justifies(env, ops, i, e, channel, revision)
  {
    hide RecordOf, Step, After, StoredContract, Vouched;
    var db := After(env, ops).db;
    var slot := Modern(k.0, k.1);
    SlotHistory(env, ops, slot);
    assert (slot.e, slot.assignmentId) == k;
    assert SlotFilled(db, slot);
    var i: nat :| LatestIn(env, ops, i, slot);
    var r := RecordAt(env, ops, i).value;
    assert SlotShows(db, slot, r);
    RecordHoldsAssignment(env, Before(env, ops, i), ops[i]);
    RecordedDuringCandidacy(env, ops, i);
    RecordIsVouched(env, Before(env, ops, i), ops[i]);
    forall j: nat | LatestCandidate(env, ops, j, e, channel, revision)
      ensures RecordAt(env, ops, j).value.contract.value.channelGeneration <= r.contract.value.channelGeneration
    {
      LatestIsListed(env, ops, j, e, channel, revision);
    }
    assert Justifies(env, ops, i, e, channel, revision);
  }

  lemma LatestIsListed(env: Env, ops: seq<Op>, j: nat, e: string, channel: string, revision: string)
    requires LatestCandidate(env, ops, j, e, channel, revision)
    ensures var (db, c) := (After(env, ops).db, RecordAt(env, ops, j).value.contract.value);
            && (e, c.assignmentId) in CandidateReports(db, e, channel, revision)
            && db.assignmentReports[(e, c.assignmentId)].channelGeneration == c.channelGeneration
  {
    hide RecordOf, Step, After, StoredContract, LatestIn;
    var r := RecordAt(env, ops, j).value;
    SlotHistory(env, ops, r.slot);
    RecordHoldsAssignment(env, Before(env, ops, j), ops[j]);
    assert SlotShows(After(env, ops).db, r.slot, r);
  }

  lemma LegacyJustifies(env: Env, ops: seq<Op>, e: string, channel: string, revision: string)
    requires var db := After(env, ops).db;
             && CandidateReports(db, e, channel, revision) == {}
             && (e, channel, revision) in db.reports && db.reports[(e, channel, revision)].result == "success"
    ensures exists i :: Justifies(env, ops, i, e, channel, revision)
  {
    hide RecordOf, Step, After, StoredContract, CandidateReports, Vouched;
    var db := After(env, ops).db;
    var slot := Legacy(e, channel, revision);
    SlotHistory(env, ops, slot);
    assert SlotFilled(db, slot);
    var i: nat :| LatestIn(env, ops, i, slot);
    var r := RecordAt(env, ops, i).value;
    assert SlotShows(db, slot, r);
    RecordHoldsAssignment(env, Before(env, ops, i), ops[i]);
    RecordIsVouched(env, Before(env, ops, i), ops[i]);
    forall j: nat
      ensures !LatestCandidate(env, ops, j, e, channel, revision)
    {
      if LatestCandidate(env, ops, j, e, channel, revision) {
        LatestIsListed(env, ops, j, e, channel, revision);
      }
    }
    assert Justifies(env, ops, i, e, channel, revision);
  }

  /** A result of "success" for a required canary comes from a justifying record. */
  lemma SuccessIsJustified(env: Env, ops: seq<Op>, e: Bound, channel: string, candidate: Json,
                           ties: map<string, string>)
    requires CanaryResult(After(env, ops).db, e, channel, candidate, ties) == Some("success")
    ensures e.Text? && candidate.Str? && exists i :: Justifies(env, ops, i, e.s, channel, candidate.s)
  {
    hide Justifies, After, CandidateReports;
    var db := After(env, ops).db;
    var keys := CandidateReports(db, e.s, channel, candidate.s);
    if keys != {} {
      NewestIsLatest(env, ops, e.s, channel, candidate.s, Newest(db, keys, ties, e.s));
    } else {
      LegacyJustifies(env, ops, e.s, channel, candidate.s);
    }
  }

  /** Every promotion that commits in any run is justified by the past: for each enrollment it requires, the promoted
      revision is a real one and the run holds a justifying report before it. */
  lemma PromotionJustified(env: Env, ops: seq<Op>, n: nat, j: nat)
    requires n < |ops| && Committing(env, Before(env, ops, n), ops[n]) && ops[n].request.Promote?
    requires j < |ops[n].request.required|
    ensures var request := ops[n].request;
            && Bind(request.required[j]).Ok? && Bind(request.required[j]).value.Text? && request.candidate.Str?
            && exists i :: Justifies(env, ops[..n], i, Bind(request.required[j]).value.s, request.channel,
                                     request.candidate.s)
  {
    hide Justifies, After, CanaryResult, Bind, Step;
    var op := ops[n];
    var db := Before(env, ops, n).db;
    var action := Prepare(env, db, op.request, op.now).value;
    PromoteRequiresCanaries(env, db, op.request, op.now, op.ties);
    CanaryPasses(db, op.request.required, op.request.channel, op.request.candidate, op.ties, j);
    SuccessIsJustified(env, ops[..n], Bind(op.request.required[j]).value, op.request.channel, op.request.candidate,
                       op.ties);
  }

  lemma PromoteRequiresCanaries(env: Env, db: Db, request: Request, now: int, ties: map<string, string>)
    requires request.Promote? && Prepare(env, db, request, now).Ok?
    requires Execute(env, db, Prepare(env, db, request, now).value, ties).Ok?
    ensures CanariesPassed(db, request.required, request.channel, request.candidate, ties).Ok?
  {
    hide CanariesPassed, BatchMembers, PromotionBatch, PromotionResponse;
  }
}
