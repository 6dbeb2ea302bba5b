/** When a report goes through, and what it leaves. */
module Reporting {
  import opened Json
  import opened JsonText
  import opened Documents
  import opened Tables
  import opened Rollout
  import opened RolloutInvariant
  import opened World
  import opened Justification
  import Base64Url
  import Signing

  /** The document an assignment row holds. */
  function HeldDocument(row: Assignment): Json {
    if Loads(row.document).Some? then Loads(row.document).value else Null
  }

  /** A report for a schema 2 assignment repeats four of its fields. */
  predicate AnswersHeld(document: Json, held: Json)
    requires document.Obj? && held.Obj?
  {
    Get(held, "schema") == Num(2) ==>
      && Get(document, "assignment_id") == Get(held, "assignment_id")
      && Get(document, "assignment_kind") == Get(held, "assignment_kind")
      && Get(document, "enrollment_generation") == Get(held, "enrollment_generation")
      && Get(document, "channel_generation") == Get(held, "channel_generation")
  }

  /** Everything asked of a report: signed by its sender, one of the five results, and about the assignment that the
      sender holds. */
  predicate ReportFits(env: Env, db: Db, key: string, document: Json, e: string) {
    && FreshKey(db, key) && document.Obj?
    && SenderOf(document) == Some(e) && SignedBySender(env, db, document, e)
    && Get(document, "result") in {Str("success"), Str("failure"), Str("observed"), Str("drift_blocked"),
                                   Str("external_dependency_failure")}
    && e in db.assignments
    && var row := db.assignments[e];
    && Bind(Get(document, "channel")) == Ok(Text(row.channel)) && Get(document, "revision_id") == Str(row.revision)
    && HeldDocument(row).Obj? && AnswersHeld(document, HeldDocument(row))
  }

  function TextIn(v: Json): string {
    if v.Str? then v.s else ""
  }

  function NumberIn(v: Json): int {
    if v.Num? then v.n else 0
  }

  /** The row that a report of a schema 2 assignment leaves, in the report's own words and those of the assignment. */
  function ModernReport(document: Json, row: Assignment): AssignmentReport
    requires document.Obj?
  {
    AssignmentReport(NumberIn(Get(document, "enrollment_generation")), row.channel,
                     NumberIn(Get(document, "channel_generation")), row.revision,
                     TextIn(Get(document, "assignment_kind")), TextIn(Get(document, "result")), Dumps(document))
  }

  /** The answer repeats the report: its assignment, if it has schema 2, its sender, revision and result. */
  function ReportAnswer(document: Json, modern: bool): Json
    requires document.Obj?
  {
    if modern then
      Obj(map["assignment_id" := Get(document, "assignment_id"), "assignment_kind" := Get(document, "assignment_kind"),
              "channel_generation" := Get(document, "channel_generation"),
              "enrollment_id" := Get(document, "enrollment_id"), "revision_id" := Get(document, "revision_id"),
              "result" := Get(document, "result")])
    else Obj(map["enrollment_id" := Get(document, "enrollment_id"), "revision_id" := Get(document, "revision_id"),
                 "result" := Get(document, "result")])
  }

  /** Exactly one row of one of the two tables is written, and the key is remembered with the answer. */
  predicate ReportLeft(db: Db, after: Db, key: string, document: Json, e: string, answer: Json)
    requires document.Obj? && e in db.assignments
  {
    var row := db.assignments[e];
    var held := HeldDocument(row);
    var modern := held.Obj? && Get(held, "schema") == Num(2);
    var remembered := db.idempotency[key := Remembered("record_report", Dumps(answer))];
    && answer == ReportAnswer(document, modern)
    && after == if modern then
         var slot := (e, TextIn(Get(document, "assignment_id")));
         db.(assignmentReports := db.assignmentReports[slot := ModernReport(document, row)], idempotency := remembered)
       else
         var report := Tables.Report(TextIn(Get(document, "result")), Dumps(document));
         db.(reports := db.reports[(e, row.channel, row.revision) := report], idempotency := remembered)
  }

  // ---------- The checks before the key ----------

  lemma ReportPrepares(env: Env, db: Db, document: Json, now: int)
    requires document.Obj?
    ensures var r := Prepare(env, db, Request.Report(document), now);
            var result := Get(document, "result");
            match SenderOf(document)
            case None => r.Ok? ==> r.value.ReportAction? && !r.value.sender.Text?
            case Some(e) =>
              && (r.Ok? <==>
                   SignedBySender(env, db, document, e)
                   && result in {Str("success"), Str("failure"), Str("observed"), Str("drift_blocked"),
                                 Str("external_dependency_failure")})
              && (r.Ok? ==> r.value == ReportAction(document, Text(e), TextIn(result)))
  {
    hide Bind, Signing.VerifyWithKey, Base64Url.Decode, Get;
  }

  // ---------- The action ----------

  /** The contract of a row is what its document says. */
  lemma HeldContract(env: Env, db: Db, e: string)
    requires Consistent(env, db) && e in db.assignments
    ensures var row := db.assignments[e];
            var held := HeldDocument(row);
            && held.Obj? && StoredContract(env, row).Ok?
            && (StoredContract(env, row).value.Some? <==> Get(held, "schema") == Num(2))
            && (StoredContract(env, row).value.Some? ==>
                 var c := StoredContract(env, row).value.value;
                 && Get(held, "assignment_id") == Str(c.assignmentId) && Get(held, "assignment_kind") == Str(c.kind)
                 && Get(held, "enrollment_generation") == Num(c.enrollmentGeneration)
                 && Get(held, "channel_generation") == Num(c.channelGeneration))
  {
    hide ValidateAssignment, ReadTags, Get, Loads;
    var row := db.assignments[e];
    assert RowFits(env, db, e, row);
    if StoredContract(env, row).value.Some? {
      AssignmentAccepted(env.digest, HeldDocument(row), row.kind, None, StoredContract(env, row).value.value);
    }
  }

  lemma RepeatsHeld(document: Json, held: Json, c: Contract)
    requires document.Obj? && held.Obj? && Get(held, "schema") == Num(2)
    requires Get(held, "assignment_id") == Str(c.assignmentId) && Get(held, "assignment_kind") == Str(c.kind)
    requires Get(held, "enrollment_generation") == Num(c.enrollmentGeneration)
    requires Get(held, "channel_generation") == Num(c.channelGeneration)
    ensures Repeats(document, c) <==> AnswersHeld(document, held)
  {
    hide Get;
  }

  lemma AnyAnswers(document: Json, held: Json)
    requires document.Obj? && held.Obj? && Get(held, "schema") != Num(2)
    ensures AnswersHeld(document, held)
  {
  }

  function Remembering(db: Db, after: Db, key: string, answer: Json): Db {
    after.(idempotency := db.idempotency[key := Remembered("record_report", Dumps(answer))])
  }

  lemma ModernLeft(db: Db, key: string, document: Json, e: string, c: Contract)
    requires document.Obj? && e in db.assignments && Get(document, "result").Str? && Repeats(document, c)
    requires HeldDocument(db.assignments[e]).Obj? && Get(HeldDocument(db.assignments[e]), "schema") == Num(2)
    requires Get(document, "revision_id") == Str(db.assignments[e].revision)
    ensures var (after, answer) := RecordModern(db, document, e, db.assignments[e], c, Get(document, "result").s);
            ReportLeft(db, Remembering(db, after, key, answer), key, document, e, answer)
  {
    hide HeldDocument, Dumps, Get;
    RepeatedTerms(document, c);
  }

  lemma LegacyLeft(db: Db, key: string, document: Json, e: string)
    requires document.Obj? && e in db.assignments && Get(document, "result").Str?
    requires HeldDocument(db.assignments[e]).Obj? && Get(HeldDocument(db.assignments[e]), "schema") != Num(2)
    requires Get(document, "revision_id") == Str(db.assignments[e].revision)
    ensures var (after, answer) := RecordLegacy(db, document, e, db.assignments[e], Get(document, "result").s);
            ReportLeft(db, Remembering(db, after, key, answer), key, document, e, answer)
  {
    hide HeldDocument, Dumps, Get;
  }

  lemma ReportActs(env: Env, db: Db, key: string, document: Json, e: string)
    requires Consistent(env, db) && document.Obj? && e in db.assignments
    ensures var r := DoReport(env, db, document, Text(e), TextIn(Get(document, "result")));
            var row := db.assignments[e];
            && (r.Ok? <==> Bind(Get(document, "channel")) == Ok(Text(row.channel))
                           && Get(document, "revision_id") == Str(row.revision)
                           && HeldDocument(row).Obj? && AnswersHeld(document, HeldDocument(row)))
            && (r.Ok? && Get(document, "result").Str? ==>
                 ReportLeft(db, Remembering(db, r.value.0, key, r.value.1), key, document, e, r.value.1))
  {
    hide Consistent, StoredContract, Bind, Get, AnswersHeld, Repeats, HeldDocument, RecordLegacy, RecordModern,
         ReportLeft, Remembering;
    HeldContract(env, db, e);
    RevalidationNeverFails(env, db, document, Text(e), TextIn(Get(document, "result")));
    var row := db.assignments[e];
    var held := HeldDocument(row);
    var fits := Get(document, "revision_id") == Str(row.revision) && Get(document, "result").Str?;
    if StoredContract(env, row).value.Some? {
      var c := StoredContract(env, row).value.value;
      RepeatsHeld(document, held, c);
      if Repeats(document, c) && fits {
        ModernLeft(db, key, document, e, c);
      }
    } else {
      AnyAnswers(document, held);
      if fits {
        LegacyLeft(db, key, document, e);
      }
    }
  }

  lemma RepeatedTerms(document: Json, c: Contract)
    requires document.Obj? && Repeats(document, c)
    ensures Get(document, "assignment_id") == Str(c.assignmentId) && Get(document, "assignment_kind") == Str(c.kind)
    ensures Get(document, "enrollment_generation") == Num(c.enrollmentGeneration)
    ensures Get(document, "channel_generation") == Num(c.channelGeneration)
  {
    hide Get;
  }

  lemma CommitsReport(env: Env, db: Db, key: string, document: Json, now: int, ties: map<string, string>)
    requires Prepare(env, db, Request.Report(document), now).Ok?
    ensures var action := Prepare(env, db, Request.Report(document), now).value;
            && action.ReportAction? && document.Obj?
            && var effect := DoReport(env, db, document, action.sender, action.result);
            && (Commits(env, db, key, Request.Report(document), now, ties) <==> FreshKey(db, key) && effect.Ok?)
            && (FreshKey(db, key) && effect.Ok? ==>
                 Call(env, db, key, Request.Report(document), now, ties) ==
                 (Remembering(db, effect.value.0, key, effect.value.1), Ok(effect.value.1)))
  {
    hide Prepare, DoReport, Dumps, Bind, SenderOf, SignedBySender;
    PreparedReport(env, db, document, now);
    var action := Prepare(env, db, Request.Report(document), now).value;
    if DoReport(env, db, document, action.sender, action.result).Ok? {
      ReportLeaves(env, db, document, action.sender, action.result);
    }
  }

  lemma OnlyTheAssignedReport(env: Env, db: Db, document: Json, sender: Bound, result: string)
    requires document.Obj? && DoReport(env, db, document, sender, result).Ok?
    ensures sender.Text? && sender.s in db.assignments
  {
    hide StoredContract, Bind, Repeats, RecordLegacy, RecordModern;
  }

  /** In every reachable state a report commits exactly when it fits the assignment of the enrollment it names; it then
      leaves one row, in the words of its own signed document, and is answered with them. */
  lemma ReportsExactly(env: Env, ops: seq<Op>, key: string, document: Json, now: int, ties: map<string, string>)
    ensures Commits(env, After(env, ops).db, key, Request.Report(document), now, ties) <==>
            exists e :: ReportFits(env, After(env, ops).db, key, document, e)
    ensures forall e :: ReportFits(env, After(env, ops).db, key, document, e) ==>
              var db := After(env, ops).db;
              var (after, r) := Call(env, db, key, Request.Report(document), now, ties);
              r.Ok? && ReportLeft(db, after, key, document, e, r.value)
  {
    hide After, Consistent, ReportFits, ReportLeft, Commits, Call;
    var db := After(env, ops).db;
    AlwaysConsistent(env, ops);
    if Commits(env, db, key, Request.Report(document), now, ties) {
      CommittedFits(env, db, key, document, now, ties);
    }
    forall e | ReportFits(env, db, key, document, e)
      ensures Commits(env, db, key, Request.Report(document), now, ties)
      ensures var (after, r) := Call(env, db, key, Request.Report(document), now, ties);
              document.Obj? && e in db.assignments && r.Ok? && ReportLeft(db, after, key, document, e, r.value)
    {
      FittingCommits(env, db, key, document, e, now, ties);
    }
  }

  lemma FittingCommits(env: Env, db: Db, key: string, document: Json, e: string, now: int, ties: map<string, string>)
    requires Consistent(env, db) && ReportFits(env, db, key, document, e)
    ensures Commits(env, db, key, Request.Report(document), now, ties) && document.Obj? && e in db.assignments
    ensures var (after, r) := Call(env, db, key, Request.Report(document), now, ties);
            r.Ok? && ReportLeft(db, after, key, document, e, r.value)
  {
    hide Consistent, Prepare, DoReport, SenderOf, SignedBySender, HeldDocument, AnswersHeld, ReportLeft, Bind, Get,
         Commits, Call, Dumps;
    ReportPrepares(env, db, document, now);
    CommitsReport(env, db, key, document, now, ties);
    ReportActs(env, db, key, document, e);
  }

  lemma CommittedFits(env: Env, db: Db, key: string, document: Json, now: int, ties: map<string, string>)
    requires Consistent(env, db) && Commits(env, db, key, Request.Report(document), now, ties)
    ensures document.Obj? && SenderOf(document).Some?
    ensures ReportFits(env, db, key, document, SenderOf(document).value)
  {
    hide Consistent, Prepare, DoReport, SenderOf, SignedBySender, HeldDocument, AnswersHeld, ReportLeft, Bind, Get,
         Call, Execute, Dumps;
    CommitsReport(env, db, key, document, now, ties);
    var action := Prepare(env, db, Request.Report(document), now).value;
    ReportPrepares(env, db, document, now);
    OnlyTheAssignedReport(env, db, document, action.sender, action.result);
    ReportActs(env, db, key, document, action.sender.s);
  }
}
