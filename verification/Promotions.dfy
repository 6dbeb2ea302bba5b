/** What a promotion leaves behind: the exact batch, or nothing at all; and when it can empty a channel. */
module Promotions {
  import opened Json
  import opened Text
  import opened JsonText
  import opened Documents
  import opened Tables
  import opened Rollout
  import opened RolloutInvariant
  import opened World
  import opened Justification
  import opened ChannelHistory

  // ---------- Failures ----------

  /** Whatever fails leaves every table as it was, however far its statements had come. */
  lemma FailuresLeaveNoTrace(env: Env, s: State, op: Op)
    requires Step(env, s, op).1.Fail?
    ensures Step(env, s, op).0.db == s.db
    ensures Step(env, s, op).1 != Fail(Crashed) ==> Step(env, s, op).0 == s
  {
    hide Prepare, Execute, EnrollingEffect, Administration.Authorize, Blobs.Admissible, Blobs.Total, ValidateRevision,
         ReadJson, Dumps;
    if op.PutBlob? && Blobs.Admissible(env, op.digest, op.payload, op.media).Fail? {
      Blobs.AdmissibleNeverCrashes(env, op.digest, op.payload, op.media);
    }
  }

  // ---------- The batch ----------

  function EnrollmentOf(document: Json): string {
    if document.Obj? && Get(document, "enrollment_id").Str? then Get(document, "enrollment_id").s else ""
  }

  function IdOf(document: Json): string {
    if document.Obj? && Get(document, "assignment_id").Str? then Get(document, "assignment_id").s else ""
  }

  predicate DistinctEnrollments(items: seq<Json>) {
    forall i, j :: 0 <= i < j < |items| ==> EnrollmentOf(items[i]) != EnrollmentOf(items[j])
  }

  /** The rows that a batch asks for. */
  function RowsOf(items: seq<Json>, channel: string, revision: string): map<string, Assignment>
    requires DistinctEnrollments(items)
  {
    map i | 0 <= i < |items| :: EnrollmentOf(items[i]) := Assignment(channel, revision, "active", Dumps(items[i]))
  }

  function IdsOf(items: seq<Json>): set<string> {
    set v | v in items :: IdOf(v)
  }

  /** The contracts of a batch belong to its documents one by one, and their identifiers are distinct. */
  lemma {:induction false} ContractsOfBatch(env: Env, items: seq<Json>, now: int)
    requires BatchContracts(env, items, now).Ok?
    ensures var batch := BatchContracts(env, items, now).value;
            && |batch| == |items|
            && (forall i :: 0 <= i < |items| ==>
                            batch[i].1 == items[i] && batch[i].0.enrollment == EnrollmentOf(items[i])
                                                 && batch[i].0.assignmentId == IdOf(items[i]))
            && Ids(batch) == IdsOf(items) && |Ids(batch)| == |items|
    decreases |items|
  {
    hide BatchContract, IdOf, EnrollmentOf, IdsOf, Ids;
    NoIds();
    if items != [] {
      var n := |items| - 1;
      ContractsOfBatch(env, items[..n], now);
      ContractOfDocument(env, items[n], now);
      var earlier := BatchContracts(env, items[..n], now).value;
      var entry := (BatchContract(env, items[n], now).value, items[n]);
      AppendedIds(earlier, entry, items);
      assert BatchContracts(env, items, now).value == earlier + [entry];
      assert items[..n] + [items[n]] == items;
    }
  }

  lemma NoIds()
    ensures Ids([]) == {} && IdsOf([]) == {}
  {
  }

  lemma AppendedIds(earlier: seq<(Contract, Json)>, entry: (Contract, Json), items: seq<Json>)
    requires items != [] && items[|items| - 1] == entry.1
    ensures Ids(earlier + [entry]) == Ids(earlier) + {entry.0.assignmentId}
    ensures IdsOf(items) == IdsOf(items[..|items| - 1]) + {IdOf(entry.1)}
  {
    hide IdOf;
    assert items == items[..|items| - 1] + [entry.1];
  }

  lemma ContractOfDocument(env: Env, document: Json, now: int)
    requires BatchContract(env, document, now).Ok?
    ensures BatchContract(env, document, now).value.enrollment == EnrollmentOf(document)
    ensures BatchContract(env, document, now).value.assignmentId == IdOf(document)
  {
  }

  /** The channel's rows after the promotion, the declared identifiers, and everything left alone. */
  ghost predicate ExactBatch(db: Db, after: Db, request: Request)
    requires request.Promote? && request.batch.Arr? && request.candidate.Str? && request.event.Obj?
  {
    && var items, channel, revision := request.batch.items, request.channel, request.candidate.s;
    && DistinctEnrollments(items)
    && OnChannel(after.assignments, channel) == RowsOf(items, channel, revision)
    && Get(request.event, "active_assignment_ids") == Arr(Strings(Sorted(IdsOf(items)))) && |IdsOf(items)| == |items|
    && ClearChannel(after.assignments, channel) == ClearChannel(db.assignments, channel)
    && channel in db.channels
    && after.channels == db.channels[channel := Channel(None, Some(revision), db.channels[channel].generation + 1)]
  }

  lemma PreparedBatch(env: Env, db: Db, request: Request, now: int)
    requires request.Promote? && request.batch != Null && Prepare(env, db, request, now).Ok?
    ensures request.batch.Arr? && request.batch.items != [] && request.event.Obj?
    ensures BatchContracts(env, request.batch.items, now).Ok?
    ensures var batch := BatchContracts(env, request.batch.items, now).value;
            && Prepare(env, db, request, now).value ==
               PromoteAction(request.channel, request.candidate, request.expectedActive,
                 request.required, request.event, Some(batch))
            && Get(request.event, "active_assignment_ids") == Arr(Strings(Sorted(Ids(batch))))
  {
    hide BatchContracts, Sorted, Strings, Ids;
  }

  /** A promotion that commits with a batch leaves exactly the batch on the channel, one row per document and
      enrollment, and the event declares exactly the identifiers of its documents; other channels and their rows are
      untouched. */
  lemma BatchIsExact(env: Env, db: Db, key: string, request: Request, now: int, ties: map<string, string>)
    requires Commits(env, db, key, request, now, ties) && request.Promote? && request.batch != Null
    ensures request.batch.Arr? && request.candidate.Str? && request.event.Obj?
    ensures ExactBatch(db, Call(env, db, key, request, now, ties).0, request)
  {
    hide Prepare, DoPromote, BatchContracts, BatchMembers, Dumps, Sorted, Strings, Ids, IdsOf, EnrollmentOf, IdOf,
         RowsOf, BatchRows, Insertable, DistinctEnrollments, ClearChannel, OnChannel;
    PreparedBatch(env, db, request, now);
    var items := request.batch.items;
    var batch := BatchContracts(env, items, now).value;
    ContractsOfBatch(env, items, now);
    PromoteLeaves(db, request.channel, request.candidate, request.expectedActive, request.required, request.event,
                  Some(batch), ties);
    RowsBesideCleared(db.assignments, batch, request.channel, request.candidate.s);
    BatchRowsAreDocuments(batch, items, request.channel, request.candidate.s);
  }

  lemma BatchRowsAreDocuments(batch: seq<(Contract, Json)>, items: seq<Json>, channel: string, revision: string)
    requires |batch| == |items| && Insertable(map[], batch)
    requires forall i :: 0 <= i < |items| ==> batch[i].1 == items[i] && batch[i].0.enrollment == EnrollmentOf(items[i])
    ensures DistinctEnrollments(items) && BatchRows(batch, channel, revision) == RowsOf(items, channel, revision)
  {
    hide EnrollmentOf, Dumps;
    forall i, j | 0 <= i < j < |items|
      ensures EnrollmentOf(items[i]) != EnrollmentOf(items[j])
    {
      assert batch[i].0.enrollment != batch[j].0.enrollment;
    }
    var rows, wanted := BatchRows(batch, channel, revision), RowsOf(items, channel, revision);
    forall e
      ensures e in rows <==> e in wanted
      ensures e in rows ==> rows[e] == wanted[e]
    {
      if e in rows {
        var i :| 0 <= i < |batch| && batch[i].0.enrollment == e;
        assert EnrollmentOf(items[i]) == e;
      }
      if e in wanted {
        var i :| 0 <= i < |items| && EnrollmentOf(items[i]) == e;
        assert batch[i].0.enrollment == e;
      }
    }
  }

  lemma RowsBesideCleared(table: map<string, Assignment>, batch: seq<(Contract, Json)>, channel: string,
                          revision: string)
    requires Insertable(ClearChannel(table, channel), batch)
    ensures Insertable(map[], batch)
    ensures var (cleared, rows) := (ClearChannel(table, channel), BatchRows(batch, channel, revision));
            OnChannel(cleared + rows, channel) == rows && ClearChannel(cleared + rows, channel) == cleared
  {
    hide Dumps, ClearChannel, BatchRows;
    var cleared, rows := ClearChannel(table, channel), BatchRows(batch, channel, revision);
    assert Insertable(map[], batch);
    ClearedRows(table, channel);
    BatchIsOnChannel(table, batch, channel, revision);
    assert OnChannel(cleared + rows, channel) == rows;
    OnlyOthers(cleared + rows, cleared, rows, channel);
  }

  lemma ClearedRows(table: map<string, Assignment>, channel: string)
    ensures forall e :: e in ClearChannel(table, channel) ==> ClearChannel(table, channel)[e].channel != channel
  {
  }

  lemma BatchIsOnChannel(table: map<string, Assignment>, batch: seq<(Contract, Json)>, channel: string,
                         revision: string)
    requires Insertable(ClearChannel(table, channel), batch) && Insertable(map[], batch)
    ensures var rows := BatchRows(batch, channel, revision);
            forall e :: e in rows ==> rows[e].channel == channel && e !in ClearChannel(table, channel)
  {
    hide Dumps, ClearChannel;
  }

  lemma OnlyOthers(table: map<string, Assignment>, cleared: map<string, Assignment>, rows: map<string, Assignment>,
                   channel: string)
    requires table == cleared + rows
    requires forall e :: e in cleared ==> cleared[e].channel != channel
    requires forall e :: e in rows ==> rows[e].channel == channel && e !in cleared
    ensures ClearChannel(table, channel) == cleared
  {
  }

  /** A batch that names one enrollment twice never commits: the plain insert of the second row aborts the transaction,
      after the pointers were moved and the old rows deleted, and everything is rolled back. */
  lemma RepeatedEnrollmentAborts(env: Env, db: Db, key: string, request: Request, now: int, ties: map<string, string>)
    requires request.Promote? && request.batch.Arr? && !DistinctEnrollments(request.batch.items)
    requires key !in db.idempotency
    ensures Call(env, db, key, request, now, ties).0 == db && Call(env, db, key, request, now, ties).1.Fail?
  {
    hide Prepare, Execute, ExactBatch;
    if Commits(env, db, key, request, now, ties) {
      BatchIsExact(env, db, key, request, now, ties);
      ExactIsDistinct(db, Call(env, db, key, request, now, ties).0, request);
    }
  }

  lemma ExactIsDistinct(db: Db, after: Db, request: Request)
    requires request.Promote? && request.batch.Arr? && request.candidate.Str? && request.event.Obj?
    requires ExactBatch(db, after, request)
    ensures DistinctEnrollments(request.batch.items)
  {
  }

  // ---------- When a promotion goes through ----------

  lemma {:induction false} AllCanariesPass(db: Db, required: seq<Json>, channel: string, candidate: Json,
                                           ties: map<string, string>)
    ensures CanariesPassed(db, required, channel, candidate, ties).Ok? <==>
            forall j :: 0 <= j < |required| ==>
              Bind(required[j]).Ok? && CanaryResult(db, Bind(required[j]).value, channel, candidate, ties) ==
                  Some("success")
    decreases |required|
  {
    hide CanaryResult, Bind;
    if required != [] {
      AllCanariesPass(db, required[..|required| - 1], channel, candidate, ties);
    }
  }

  lemma {:induction false} AllMembersPass(db: Db, batch: seq<(Contract, Json)>, channel: string, candidate: Json,
                                          generation: nat)
    ensures BatchMembers(db, batch, channel, candidate, generation).Ok? <==>
            forall i :: 0 <= i < |batch| ==> BatchMember(db, batch[i].0, channel, candidate, generation).Ok?
    decreases |batch|
  {
    hide BatchMember;
    if batch != [] {
      AllMembersPass(db, batch[..|batch| - 1], channel, candidate, generation);
    }
  }

  /** The contract is for this promotion and an enrollment that is unrevoked and enrolled as it says. */
  predicate ForPromotion(db: Db, contract: Contract, channel: string, candidate: Json, generation: nat) {
    && contract.channel == Str(channel) && Str(contract.revision) == candidate
       && contract.channelGeneration == generation
    && contract.enrollment in db.enrollments
    && var row := db.enrollments[contract.enrollment];
    && !row.revoked && row.channel == channel && row.generation == contract.enrollmentGeneration
       && ReadTags(row.tags) == Ok(contract.tags)
  }

  /** Everything a promotion needs, each part over the whole of what it quantifies: the heads, every required canary,
      the next generation, every batch member, and no enrollment that repeats or holds a row on another channel. */
  ghost predicate Promotable(db: Db, request: Request, batch: seq<(Contract, Json)>, ties: map<string, string>)
    requires request.Promote?
  {
    && request.channel in db.channels
    && var current := db.channels[request.channel];
    && FromOption(current.candidate) == request.candidate && FromOption(current.active) == request.expectedActive
    && (forall j :: 0 <= j < |request.required| ==>
         && Bind(request.required[j]).Ok?
         && CanaryResult(db, Bind(request.required[j]).value, request.channel, request.candidate, ties) ==
            Some("success"))
    && request.event.Obj? && Get(request.event, "generation") == Num(current.generation + 1)
    && (forall i :: 0 <= i < |batch| ==> ForPromotion(db, batch[i].0, request.channel, request.candidate,
                                                      current.generation + 1))
    && (forall i, j :: 0 <= i < j < |batch| ==> batch[i].0.enrollment != batch[j].0.enrollment)
    && (forall i :: 0 <= i < |batch| && batch[i].0.enrollment in db.assignments ==>
         db.assignments[batch[i].0.enrollment].channel == request.channel)
  }

  lemma MemberFits(db: Db, contract: Contract, channel: string, candidate: Json, generation: nat)
    ensures BatchMember(db, contract, channel, candidate, generation).Ok? <==>
            ForPromotion(db, contract, channel, candidate, generation)
  {
    hide ReadTags;
  }

  lemma InsertableBesides(table: map<string, Assignment>, batch: seq<(Contract, Json)>, channel: string)
    ensures Insertable(ClearChannel(table, channel), batch) <==>
            && (forall i, j :: 0 <= i < j < |batch| ==> batch[i].0.enrollment != batch[j].0.enrollment)
            && (forall i :: 0 <= i < |batch| && batch[i].0.enrollment in table ==>
                            table[batch[i].0.enrollment].channel == channel)
  {
  }

  lemma PromoteSucceeds(db: Db, channel: string, candidate: Json, expectedActive: Json, required: seq<Json>,
                        event: Json, batch: Option<seq<(Contract, Json)>>, ties: map<string, string>)
    ensures DoPromote(db, channel, candidate, expectedActive, required, event, batch, ties).Ok? <==>
            && channel in db.channels
            && var current := db.channels[channel];
            && FromOption(current.candidate) == candidate && FromOption(current.active) == expectedActive
            && CanariesPassed(db, required, channel, candidate, ties).Ok?
            && event.Obj? && Get(event, "generation") == Num(current.generation + 1)
            && BatchMembers(db, BatchOf(batch), channel, candidate, current.generation + 1).Ok?
            && (BatchOf(batch) != [] ==> candidate.Str? && candidate.s in db.revisions)
            && Insertable(ClearChannel(db.assignments, channel), BatchOf(batch))
  {
    hide CanariesPassed, BatchMembers, ClearChannel, Insertable, BatchRows, PromotionResponse, FromOption;
  }

  /** In every reachable state a promotion that passes its own checks goes through exactly when it is promotable. */
  lemma PromotesExactly(env: Env, ops: seq<Op>, request: Request, now: int, ties: map<string, string>)
    requires request.Promote? && Prepare(env, After(env, ops).db, request, now).Ok?
    ensures var action := Prepare(env, After(env, ops).db, request, now).value;
            && action.PromoteAction?
            && (Execute(env, After(env, ops).db, action, ties).Ok? <==>
                Promotable(After(env, ops).db, request, BatchOf(action.batch), ties))
  {
    hide After, DoPromote, PromotionBatch, CanariesPassed, BatchMembers, BatchMember, Insertable, ClearChannel, Bind,
         CanaryResult, ForPromotion, RowFits, FromOption, BatchOf;
    var db := After(env, ops).db;
    var action := Prepare(env, db, request, now).value;
    var batch := BatchOf(action.batch);
    AlwaysConsistent(env, ops);
    PromoteSucceeds(db, request.channel, request.candidate, request.expectedActive, request.required, request.event,
                    action.batch, ties);
    AllCanariesPass(db, request.required, request.channel, request.candidate, ties);
    InsertableBesides(db.assignments, batch, request.channel);
    if request.channel in db.channels {
      var generation := db.channels[request.channel].generation + 1;
      AllMembersPass(db, batch, request.channel, request.candidate, generation);
      forall i | 0 <= i < |batch|
        ensures BatchMember(db, batch[i].0, request.channel, request.candidate, generation).Ok? <==>
                ForPromotion(db, batch[i].0, request.channel, request.candidate, generation)
      {
        MemberFits(db, batch[i].0, request.channel, request.candidate, generation);
      }
      CandidateIsStored(db, request.channel, request.candidate, generation, batch);
    }
  }

  /** A batch member names the candidate, so a batch is only ever issued for a stored revision. */
  lemma CandidateIsStored(db: Db, channel: string, candidate: Json, generation: nat, batch: seq<(Contract, Json)>)
    requires PointersStored(db) && channel in db.channels
    ensures batch != [] && ForPromotion(db, batch[0].0, channel, candidate, generation) ==> candidate.Str?
    ensures FromOption(db.channels[channel].candidate) == candidate && candidate.Str? ==> candidate.s in db.revisions
  {
    hide ReadTags;
  }

  // ---------- Promoting nothing ----------

  /** A promotion of no candidate goes through exactly when the channel has none, no canary is required and there is no
      batch; nothing else of the promotion's checks is relaxed. */
  lemma PromotingNothing(env: Env, db: Db, request: Request, now: int, ties: map<string, string>)
    requires request.Promote? && request.candidate == Null && Prepare(env, db, request, now).Ok?
    ensures Execute(env, db, Prepare(env, db, request, now).value, ties).Ok? <==>
            && request.channel in db.channels
            && var current := db.channels[request.channel];
            && current.candidate.None? && FromOption(current.active) == request.expectedActive
            && request.required == [] && request.batch == Null
            && request.event.Obj? && Get(request.event, "generation") == Num(current.generation + 1)
  {
    hide BatchContracts, PromotionResponse, CanaryResult, Bind, Sorted, Strings, Ids;
    var action := Prepare(env, db, request, now).value;
    if request.required != [] && CanariesPassed(db, request.required, request.channel, Null, ties).Ok? {
      CanaryPasses(db, request.required, request.channel, Null, ties, |request.required| - 1);
      NoCanaryForNothing(db, Bind(request.required[|request.required| - 1]).value, request.channel, ties);
      assert false;
    }
    if request.batch != Null {
      PreparedBatch(env, db, request, now);
      ContractsOfBatch(env, request.batch.items, now);
    }
  }

  lemma NoCanaryForNothing(db: Db, e: Bound, channel: string, ties: map<string, string>)
    ensures CanaryResult(db, e, channel, Null, ties) == None
  {
  }

  /** After a committed promotion the channel has no active revision exactly when nothing was promoted. */
  lemma ActiveAfterPromotion(env: Env, s: State, op: Op)
    requires Committing(env, s, op) && op.request.Promote?
    ensures var after := Step(env, s, op).0.db.channels;
            op.request.channel in after && (after[op.request.channel].active.None? <==> op.request.candidate == Null)
  {
    hide Prepare, Execute, EventOf, Step;
    StepMoves(env, s, op, op.request.channel);
    PromotionEvent(env, s, op);
  }

  lemma PromotionEvent(env: Env, s: State, op: Op)
    requires Committing(env, s, op) && op.request.Promote?
    ensures op.request.event.Obj?
    ensures EventOf(env, s, op, op.request.channel) ==
            Some(Promoted(op.request.candidate, op.request.expectedActive, Get(op.request.event, "generation")))
  {
    hide DoPromote, PromotionBatch, SignedAssignment, ReportVerified, Bind, DoPublish, DoAssign, DoBootstrap, DoReport;
    var r := op.request;
    var action := Prepare(env, s.db, r, op.now).value;
    PromoteMoves(s.db, r.channel, r.candidate, r.expectedActive, r.required, r.event, action.batch, op.ties, r.channel);
  }

  /** The latest promotion of a log. */
  predicate LastPromotion(log: seq<Event>, i: nat) {
    i < |log| && log[i].Promoted? && forall j :: i < j < |log| ==> log[j].Published?
  }

  /** In any run a channel has no active revision exactly when it was never promoted or its last promotion promoted
      nothing; so active never returns to null as long as every promotion names a revision. */
  lemma {:induction false} NoActiveRevision(log: seq<Event>)
    requires Chained(log)
    ensures Fold(log).active.None? <==> forall i: nat :: LastPromotion(log, i) ==> log[i].candidate == Null
    decreases |log|
  {
    hide Follows, Play, Chained;
    if log != [] {
      var n := |log| - 1;
      ChainedPrefix(log, n);
      NoActiveRevision(log[..n]);
      LastMove(log);
      if log[n].Promoted? {
        assert LastPromotion(log, n);
      } else {
        forall i: nat
          ensures LastPromotion(log, i) <==> LastPromotion(log[..n], i)
        {
          LastPromotionBefore(log, i);
        }
      }
    }
  }

  lemma LastMove(log: seq<Event>)
    requires Chained(log) && log != []
    ensures var (earlier, event) := (log[..|log| - 1], log[|log| - 1]);
            if event.Promoted? then Fold(log).active.None? <==> event.candidate == Null
            else Fold(log).active == Fold(earlier).active
  {
    assert Follows(Fold(log[..|log| - 1]), log[|log| - 1]);
  }

  lemma LastPromotionBefore(log: seq<Event>, i: nat)
    requires log != [] && log[|log| - 1].Published?
    ensures LastPromotion(log, i) <==> LastPromotion(log[..|log| - 1], i)
  {
    var earlier := log[..|log| - 1];
    if LastPromotion(earlier, i) {
      assert forall j :: i < j < |earlier| ==> earlier[j] == log[j];
    }
    if LastPromotion(log, i) {
      assert forall j :: i < j < |earlier| ==> log[j].Published?;
    }
  }

  lemma PreparedNothing(env: Env, db: Db, request: Request, now: int)
    requires request.Promote? && request.batch == Null && env.verify("promotion", request.event)
    ensures Prepare(env, db, request, now) ==
            Ok(PromoteAction(request.channel, request.candidate, request.expectedActive, request.required,
                             request.event, None))
  {
  }

  /** On a channel without a candidate such a promotion commits and leaves the channel without an active revision. */
  lemma NullPromotionEmpties(env: Env, db: Db, key: string, request: Request, now: int, ties: map<string, string>)
    requires |key| >= 8 && key !in db.idempotency
    requires request.Promote? && request.candidate == Null && request.required == [] && request.batch == Null
    requires env.verify("promotion", request.event) && request.channel in db.channels
    requires var current := db.channels[request.channel];
             && current.candidate.None? && FromOption(current.active) == request.expectedActive
             && request.event.Obj? && Get(request.event, "generation") == Num(current.generation + 1)
    ensures Commits(env, db, key, request, now, ties)
    ensures Call(env, db, key, request, now, ties).0.channels ==
            db.channels[request.channel := Channel(None, None, db.channels[request.channel].generation + 1)]
  {
    hide DoPromote, Prepare, Call;
    PreparedNothing(env, db, request, now);
    PromotingNothing(env, db, request, now, ties);
    PromoteLeaves(db, request.channel, Null, request.expectedActive, [], request.event, None, ties);
    CommittedCall(env, db, key, request, now, ties);
  }
}
