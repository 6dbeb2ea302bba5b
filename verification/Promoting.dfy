/** When a promotion goes through, and what it leaves. */
module Promoting {
  import opened Json
  import opened Text
  import opened JsonText
  import opened Documents
  import opened Tables
  import opened Rollout
  import opened RolloutInvariant
  import opened World
  import opened Promotions

  // ---------- The batch as it arrives ----------

  /** One document of a batch: verified, and acceptable as an active assignment now. */
  predicate GoodMember(env: Env, item: Json, now: int) {
    env.verify("assignment", item) && ValidateAssignment(env.digest, item, "active", Some(now)).Ok?
  }

  function IdList(items: seq<Json>): (r: seq<string>)
    ensures |r| == |items|
  {
    seq(|items|, i requires 0 <= i < |items| => IdOf(items[i]))
  }

  /** The list has exactly the identifiers of the batch, which do not repeat, in increasing order. */
  predicate ListsIds(declared: Json, items: seq<Json>, ids: seq<string>) {
    declared == Arr(Strings(ids)) && Ascending(ids) && Elements(ids) == Elements(IdList(items))
        && Distinct(IdList(items))
  }

  /** No batch at all, or a list of good members whose identifiers the event declares. */
  ghost predicate GoodBatch(env: Env, event: Json, batch: Json, now: int) {
    batch == Null
    || (&& batch.Arr? && batch.items != [] && (forall i :: 0 <= i < |batch.items| ==>
                                                           GoodMember(env, batch.items[i], now))
        && event.Obj? && exists ids :: ListsIds(Get(event, "active_assignment_ids"), batch.items, ids))
  }

  function ItemsOf(batch: Json): seq<Json> {
    if batch.Arr? then batch.items else []
  }

  lemma DistinctMore(ids: seq<string>, id: string)
    ensures Elements(ids + [id]) == Elements(ids) + {id}
    ensures Distinct(ids + [id]) <==> Distinct(ids) && id !in Elements(ids)
  {
    var all := ids + [id];
    if Distinct(all) {
      forall i, j | 0 <= i < j < |ids|
        ensures ids[i] != ids[j]
      {
        assert all[i] != all[j];
      }
      forall i | 0 <= i < |ids|
        ensures ids[i] != id
      {
        assert all[i] != all[|ids|];
      }
    }
  }

  lemma IdListMore(items: seq<Json>)
    requires items != []
    ensures var n := |items| - 1;
            && Elements(IdList(items)) == Elements(IdList(items[..n])) + {IdOf(items[n])}
            && (Distinct(IdList(items)) <==>
                Distinct(IdList(items[..n])) && IdOf(items[n]) !in Elements(IdList(items[..n])))
  {
    hide IdOf, Elements, Distinct;
    var n := |items| - 1;
    DistinctMore(IdList(items[..n]), IdOf(items[n]));
    assert IdList(items) == IdList(items[..n]) + [IdOf(items[n])];
  }

  lemma {:induction false} IdsAreListed(items: seq<Json>)
    ensures IdsOf(items) == Elements(IdList(items))
    decreases |items|
  {
    hide IdOf, IdsOf, Elements;
    if items == [] {
      NoIdsListed();
    } else {
      IdListMore(items);
      IdsAreListed(items[..|items| - 1]);
      IdsMore(items);
    }
  }

  lemma NoIdsListed()
    ensures IdsOf([]) == {} == Elements(IdList([]))
  {
  }

  lemma IdsMore(items: seq<Json>)
    requires items != []
    ensures IdsOf(items) == IdsOf(items[..|items| - 1]) + {IdOf(items[|items| - 1])}
  {
    hide IdOf;
    assert items == items[..|items| - 1] + [items[|items| - 1]];
  }

  lemma MemberReads(env: Env, item: Json, now: int)
    ensures BatchContract(env, item, now).Ok? <==> GoodMember(env, item, now)
    ensures BatchContract(env, item, now).Ok? ==> BatchContract(env, item, now).value.assignmentId == IdOf(item)
  {
    hide ValidateAssignment, IdOf;
    if BatchContract(env, item, now).Ok? {
      ContractOfDocument(env, item, now);
    }
  }

  /** The batch is read exactly when every member is good and no identifier repeats. */
  lemma {:induction false} BatchReads(env: Env, items: seq<Json>, now: int)
    ensures BatchContracts(env, items, now).Ok? <==>
            (forall i :: 0 <= i < |items| ==> GoodMember(env, items[i], now)) && Distinct(IdList(items))
    decreases |items|
  {
    hide GoodMember, BatchContract, IdList, IdOf, IdsOf, Ids, Distinct, Elements;
    if items == [] {
      NothingRepeats();
    } else {
      var n := |items| - 1;
      BatchReads(env, items[..n], now);
      IdListMore(items);
      IdsAreListed(items[..n]);
      MemberReads(env, items[n], now);
      if BatchContracts(env, items[..n], now).Ok? {
        ContractsOfBatch(env, items[..n], now);
      }
    }
  }

  lemma NothingRepeats()
    ensures Distinct(IdList([]))
  {
  }

  lemma SortedIds(declared: Json, items: seq<Json>)
    requires Distinct(IdList(items))
    ensures declared == Arr(Strings(Sorted(Elements(IdList(items))))) <==> exists ids :: ListsIds(declared, items, ids)
  {
    hide IdList, Sorted, Elements, Strings, Ascending;
    var ids := Sorted(Elements(IdList(items)));
    if declared == Arr(Strings(ids)) {
      assert ListsIds(declared, items, ids);
    }
    forall other | ListsIds(declared, items, other)
      ensures other == ids
    {
      SortedUnique(other);
    }
  }

  lemma BatchExactly(env: Env, event: Json, batch: Json, now: int)
    ensures var r := PromotionBatch(env, event, batch, now);
            && (r.Ok? <==> GoodBatch(env, event, batch, now))
            && (r.Ok? ==> (r.value.Some? <==> batch != Null))
            && (r.Ok? && batch != Null ==> batch.Arr? && BatchContracts(env, batch.items, now) == Ok(r.value.value))
  {
    hide BatchContracts, Ids, IdsOf, IdList, Elements, Sorted, Strings, Distinct, GoodMember, Ascending, Get;
    if batch.Arr? && batch.items != [] {
      BatchReads(env, batch.items, now);
      if BatchContracts(env, batch.items, now).Ok? {
        ContractsOfBatch(env, batch.items, now);
        IdsAreListed(batch.items);
        if event.Obj? {
          SortedIds(Get(event, "active_assignment_ids"), batch.items);
        }
      }
    }
  }

  // ---------- When a promotion goes through ----------

  /** The document is for this promotion and an enrollment that is unrevoked and enrolled as it says. */
  predicate MemberFor(db: Db, item: Json, channel: string, candidate: Json, generation: nat) {
    && item.Obj? && Get(item, "channel") == Str(channel) && Get(item, "revision_id") == candidate
    && Get(item, "channel_generation") == Num(generation)
    && EnrollmentOf(item) in db.enrollments
    && var row := db.enrollments[EnrollmentOf(item)];
    && !row.revoked && row.channel == channel && Get(item, "enrollment_generation") == Num(row.generation)
    && ReadTags(row.tags) == TargetTags(GetOr(item, "target_tags", Arr([])))
  }

  lemma MemberExactly(env: Env, db: Db, item: Json, now: int, channel: string, candidate: Json, generation: nat)
    requires BatchContract(env, item, now).Ok?
    ensures var c := BatchContract(env, item, now).value;
            && c.enrollment == EnrollmentOf(item)
            && (ForPromotion(db, c, channel, candidate, generation) <==>
                MemberFor(db, item, channel, candidate, generation))
  {
    hide ValidateAssignment, ReadTags, TargetTags, GetOr, ContentId, AssignmentIdentity, Matches;
    var c := BatchContract(env, item, now).value;
    AssignmentAccepted(env.digest, item, "active", Some(now), c);
  }

  /** Everything asked of a promotion, over what its caller sends. */
  ghost predicate PromoteFits(env: Env, db: Db, key: string, request: Request, now: int, ties: map<string, string>)
    requires request.Promote?
  {
    && FreshKey(db, key) && env.verify("promotion", request.event)
    && GoodBatch(env, request.event, request.batch, now) && HeadsFit(db, request, ties)
  }

  ghost predicate CanariesFit(db: Db, request: Request, ties: map<string, string>)
    requires request.Promote?
  {
    forall j :: 0 <= j < |request.required| ==>
      && Bind(request.required[j]).Ok?
      && CanaryResult(db, Bind(request.required[j]).value, request.channel, request.candidate, ties) == Some("success")
  }

  /** The heads and the generation are the channel's, every required canary's latest result is a success, and the batch
      fits. */
  ghost predicate HeadsFit(db: Db, request: Request, ties: map<string, string>)
    requires request.Promote?
  {
    && request.channel in db.channels
    && var current := db.channels[request.channel];
    && FromOption(current.candidate) == request.candidate && FromOption(current.active) == request.expectedActive
    && CanariesFit(db, request, ties)
    && request.event.Obj? && Get(request.event, "generation") == Num(current.generation + 1)
    && BatchFits(db, request.channel, request.candidate, current.generation + 1, ItemsOf(request.batch))
  }

  /** Every document fits, no enrollment has two, and none holds a row on another channel. */
  predicate BatchFits(db: Db, channel: string, candidate: Json, generation: nat, items: seq<Json>) {
    && (forall i :: 0 <= i < |items| ==> MemberFor(db, items[i], channel, candidate, generation))
    && DistinctEnrollments(items)
    && forall i :: 0 <= i < |items| && EnrollmentOf(items[i]) in db.assignments ==>
         db.assignments[EnrollmentOf(items[i])].channel == channel
  }

  /** The same of contracts. */
  predicate ContractsFit(db: Db, batch: seq<(Contract, Json)>, channel: string, candidate: Json, generation: nat) {
    && (forall i :: 0 <= i < |batch| ==> ForPromotion(db, batch[i].0, channel, candidate, generation))
    && (forall i, j :: 0 <= i < j < |batch| ==> batch[i].0.enrollment != batch[j].0.enrollment)
    && (forall i :: 0 <= i < |batch| && batch[i].0.enrollment in db.assignments ==>
                    db.assignments[batch[i].0.enrollment].channel == channel)
  }

  lemma BatchFitsExactly(env: Env, db: Db, items: seq<Json>, batch: seq<(Contract, Json)>, now: int, channel: string,
                         candidate: Json, generation: nat)
    requires BatchContracts(env, items, now) == Ok(batch)
    ensures BatchFits(db, channel, candidate, generation, items) <==>
            ContractsFit(db, batch, channel, candidate, generation)
  {
    hide ForPromotion, MemberFor, EnrollmentOf, BatchContract, BatchContracts, IdOf, IdsOf, Ids;
    ContractsOfBatch(env, items, now);
    forall i | 0 <= i < |items|
      ensures ForPromotion(db, batch[i].0, channel, candidate, generation) <==>
              MemberFor(db, items[i], channel, candidate, generation)
    {
      ContractAt(env, items, now, i);
      MemberExactly(env, db, items[i], now, channel, candidate, generation);
    }
  }

  lemma PromotableParts(db: Db, request: Request, batch: seq<(Contract, Json)>, ties: map<string, string>)
    requires request.Promote?
    ensures Promotable(db, request, batch, ties) <==>
            && request.channel in db.channels
            && var current := db.channels[request.channel];
            && FromOption(current.candidate) == request.candidate
               && FromOption(current.active) == request.expectedActive
            && CanariesFit(db, request, ties)
            && request.event.Obj? && Get(request.event, "generation") == Num(current.generation + 1)
            && ContractsFit(db, batch, request.channel, request.candidate, current.generation + 1)
  {
    hide Bind, CanaryResult, ForPromotion, FromOption, Get;
  }

  lemma {:induction false} ContractAt(env: Env, items: seq<Json>, now: int, i: nat)
    requires BatchContracts(env, items, now).Ok? && i < |items|
    ensures |BatchContracts(env, items, now).value| == |items|
    ensures BatchContract(env, items[i], now) == Ok(BatchContracts(env, items, now).value[i].0)
    decreases |items|
  {
    hide BatchContract, Ids;
    var n := |items| - 1;
    if n > 0 {
      ContractAt(env, items[..n], now, if i < n then i else 0);
    }
  }

  lemma PromotePrepares(env: Env, db: Db, request: Request, now: int)
    requires request.Promote?
    ensures var r := Prepare(env, db, request, now);
            && (r.Ok? <==> env.verify("promotion", request.event) && GoodBatch(env, request.event, request.batch, now))
            && (r.Ok? ==>
                 && PromotionBatch(env, request.event, request.batch, now).Ok?
                 && r.value == PromoteAction(request.channel, request.candidate, request.expectedActive,
                                             request.required, request.event,
                                             PromotionBatch(env, request.event, request.batch, now).value))
  {
    hide PromotionBatch, GoodBatch;
    BatchExactly(env, request.event, request.batch, now);
  }

  lemma HeadsExactly(env: Env, db: Db, request: Request, now: int, ties: map<string, string>)
    requires request.Promote? && PromotionBatch(env, request.event, request.batch, now).Ok?
    ensures var batch := PromotionBatch(env, request.event, request.batch, now).value;
            Promotable(db, request, BatchOf(batch), ties) <==> HeadsFit(db, request, ties)
  {
    hide PromotionBatch, GoodBatch, BatchContracts, Promotable, CanariesFit, BatchFits, ContractsFit, FromOption, Get;
    var batch := PromotionBatch(env, request.event, request.batch, now).value;
    BatchExactly(env, request.event, request.batch, now);
    PromotableParts(db, request, BatchOf(batch), ties);
    if request.channel in db.channels {
      var generation := db.channels[request.channel].generation + 1;
      if batch.Some? {
        BatchFitsExactly(env, db, request.batch.items, batch.value, now, request.channel, request.candidate,
                         generation);
      } else {
        NothingFits(db, request.channel, request.candidate, generation);
      }
    }
  }

  lemma CommitIs(env: Env, db: Db, key: string, request: Request, now: int, ties: map<string, string>)
    ensures Commits(env, db, key, request, now, ties) <==>
            && FreshKey(db, key) && Prepare(env, db, request, now).Ok?
            && Execute(env, db, Prepare(env, db, request, now).value, ties).Ok?
  {
    hide Prepare, Execute;
  }

  /** In every reachable state a promotion commits exactly when it fits. */
  lemma PromotionCommits(env: Env, ops: seq<Op>, key: string, request: Request, now: int, ties: map<string, string>)
    requires request.Promote?
    ensures Commits(env, After(env, ops).db, key, request, now, ties) <==>
            PromoteFits(env, After(env, ops).db, key, request, now, ties)
  {
    hide After, Commits, Prepare, Execute, PromotionBatch, GoodBatch, Promotable, HeadsFit, FreshKey, BatchOf;
    var db := After(env, ops).db;
    CommitIs(env, db, key, request, now, ties);
    PromotePrepares(env, db, request, now);
    if Prepare(env, db, request, now).Ok? {
      PromotesExactly(env, ops, request, now, ties);
      HeadsExactly(env, db, request, now, ties);
    }
  }

  lemma NothingFits(db: Db, channel: string, candidate: Json, generation: nat)
    ensures BatchFits(db, channel, candidate, generation, []) && ContractsFit(db, [], channel, candidate, generation)
  {
  }

  // ---------- The latest result of a canary ----------

  /** The enrollment has reported on this schema 2 candidate assignment of the revision on the channel. */
  predicate CandidateReport(db: Db, e: string, id: string, channel: string, revision: string) {
    && (e, id) in db.assignmentReports
    && var row := db.assignmentReports[(e, id)];
    && row.channel == channel && row.revision == revision && row.kind == "candidate"
  }

  /** No other such report has a higher channel generation. */
  ghost predicate LatestReport(db: Db, e: string, id: string, channel: string, revision: string) {
    && CandidateReport(db, e, id, channel, revision)
    && forall other :: CandidateReport(db, e, other, channel, revision) ==>
         db.assignmentReports[(e, other)].channelGeneration <= db.assignmentReports[(e, id)].channelGeneration
  }

  lemma LatestIsNewest(db: Db, e: string, id: string, channel: string, revision: string)
    ensures LatestReport(db, e, id, channel, revision) <==>
            IsNewest(db, CandidateReports(db, e, channel, revision), (e, id))
  {
    var keys := CandidateReports(db, e, channel, revision);
    forall other
      ensures CandidateReport(db, e, other, channel, revision) <==> (e, other) in keys
    {
    }
    assert forall k :: k in keys ==> k == (e, k.1);
  }

  /** A canary's result is that of a latest schema 2 candidate report if it has any, else that of its legacy report,
      else there is none; and where several reports are the latest, any of them may be the one that is read. */
  lemma CanaryIsLatest(db: Db, e: string, channel: string, revision: string, ties: map<string, string>)
    ensures var r := CanaryResult(db, Text(e), channel, Str(revision), ties);
            if exists id :: CandidateReport(db, e, id, channel, revision) then
              exists id :: LatestReport(db, e, id, channel, revision)
                           && r == Some(db.assignmentReports[(e, id)].result)
            else if (e, channel, revision) in db.reports then r == Some(db.reports[(e, channel, revision)].result)
            else r == None
    ensures forall id :: LatestReport(db, e, id, channel, revision) ==>
              CanaryResult(db, Text(e), channel, Str(revision), map[e := id]) ==
              Some(db.assignmentReports[(e, id)].result)
  {
    var keys := CandidateReports(db, e, channel, revision);
    forall id
      ensures CandidateReport(db, e, id, channel, revision) <==> (e, id) in keys
    {
    }
    if keys != {} {
      var k := Newest(db, keys, ties, e);
      assert k == (e, k.1);
      assert CandidateReport(db, e, k.1, channel, revision);
      LatestIsNewest(db, e, k.1, channel, revision);
    }
    forall id | LatestReport(db, e, id, channel, revision)
      ensures CanaryResult(db, Text(e), channel, Str(revision), map[e := id]) ==
              Some(db.assignmentReports[(e, id)].result)
    {
      LatestIsNewest(db, e, id, channel, revision);
    }
  }

  // ---------- What a promotion leaves ----------

  /** The rows of a batch, one per document. */
  function BatchOn(items: seq<Json>, channel: string, candidate: Json): map<string, Assignment> {
    if DistinctEnrollments(items) && candidate.Str? then RowsOf(items, channel, candidate.s) else map[]
  }

  /** The batch's rows, and otherwise exactly the rows of other channels as they were. */
  ghost predicate Replaced(rows: map<string, Assignment>, after: map<string, Assignment>, channel: string,
                           batch: map<string, Assignment>) {
    && (forall e :: e in batch ==> e in after && after[e] == batch[e])
    && (forall e :: e !in batch ==>
         && (e in after <==> e in rows && rows[e].channel != channel)
         && (e in after ==> after[e] == rows[e]))
  }

  /** The candidate is active at the next generation and the channel has no candidate, its rows are the batch's, and the
      answer is what the channel then says. */
  ghost predicate PromoteLeft(db: Db, after: Db, key: string, request: Request, answer: Json)
    requires request.Promote?
  {
    && request.channel in db.channels && request.channel in after.channels
    && var row := after.channels[request.channel];
    && row == Channel(None, db.channels[request.channel].candidate, db.channels[request.channel].generation + 1)
    && FromOption(row.active) == request.candidate
    && Replaced(db.assignments, after.assignments, request.channel,
                BatchOn(ItemsOf(request.batch), request.channel, request.candidate))
    && answer.Obj?
    && answer.fields == map["channel" := Str(request.channel), "active_revision" := FromOption(row.active),
                            "generation" := Num(row.generation)] + Declared(request)
    && after == db.(channels := db.channels[request.channel := row], assignments := after.assignments,
                    idempotency := db.idempotency[key := Remembered("promote", Dumps(answer))])
  }

  /** With a batch the answer also lists the identifiers that the event declared. */
  function Declared(request: Request): map<string, Json>
    requires request.Promote?
  {
    if request.batch == Null || !request.event.Obj? then map[]
    else map["active_assignment_ids" := Get(request.event, "active_assignment_ids")]
  }

  lemma ClearedAndBatch(rows: map<string, Assignment>, channel: string, batch: map<string, Assignment>)
    ensures Replaced(rows, ClearChannel(rows, channel) + batch, channel, batch)
  {
  }

  lemma NoBatchRows(channel: string, candidate: Json)
    ensures BatchOn([], channel, candidate) == map[]
  {
  }

  /** The rows written for a batch are those of its documents. */
  lemma BatchRowsOn(env: Env, items: seq<Json>, now: int, channel: string, candidate: string)
    requires BatchContracts(env, items, now).Ok? && Insertable(map[], BatchContracts(env, items, now).value)
    ensures BatchRows(BatchContracts(env, items, now).value, channel, candidate) ==
            BatchOn(items, channel, Str(candidate))
  {
    hide BatchContracts, Dumps, EnrollmentOf, BatchRows, RowsOf, Insertable, Ids, IdsOf, IdOf;
    ContractsOfBatch(env, items, now);
    BatchRowsAreDocuments(BatchContracts(env, items, now).value, items, channel, candidate);
  }

  lemma InsertableAlone(rows: map<string, Assignment>, batch: seq<(Contract, Json)>)
    requires Insertable(rows, batch)
    ensures Insertable(map[], batch)
  {
  }

  lemma ResponseIs(channel: string, candidate: Json, generation: nat, batch: Option<seq<(Contract, Json)>>)
    ensures var more := if batch.Some? then
                          map["active_assignment_ids" := Arr(Strings(Sorted(Ids(batch.value))))] else map[];
            PromotionResponse(channel, candidate, generation, batch) ==
            Obj(map["channel" := Str(channel), "active_revision" := candidate, "generation" := Num(generation)] + more)
  {
    hide Sorted, Strings, Ids;
  }

  lemma PromoteAnswers(db: Db, channel: string, candidate: Json, expectedActive: Json, required: seq<Json>,
                       event: Json, batch: Option<seq<(Contract, Json)>>, ties: map<string, string>)
    requires DoPromote(db, channel, candidate, expectedActive, required, event, batch, ties).Ok?
    ensures channel in db.channels
    ensures DoPromote(db, channel, candidate, expectedActive, required, event, batch, ties).value.1 ==
            PromotionResponse(channel, candidate, db.channels[channel].generation + 1, batch)
  {
    hide CanariesPassed, BatchMembers, PromotionResponse, BatchRows, ClearChannel, Insertable;
  }

  lemma ExecutesPromotion(env: Env, db: Db, request: Request, now: int, ties: map<string, string>)
    requires request.Promote? && Prepare(env, db, request, now).Ok?
    ensures PromotionBatch(env, request.event, request.batch, now).Ok?
    ensures Execute(env, db, Prepare(env, db, request, now).value, ties) ==
            DoPromote(db, request.channel, request.candidate, request.expectedActive, request.required, request.event,
                      PromotionBatch(env, request.event, request.batch, now).value, ties)
  {
    hide Prepare, DoPromote, PromotionBatch, GoodBatch;
    PromotePrepares(env, db, request, now);
  }

  /** A promotion that commits leaves exactly that. */
  lemma PromotionLeaves(env: Env, db: Db, key: string, request: Request, now: int, ties: map<string, string>)
    requires request.Promote? && Commits(env, db, key, request, now, ties)
    ensures var (after, r) := Call(env, db, key, request, now, ties);
            r.Ok? && PromoteLeft(db, after, key, request, r.value)
  {
    hide Prepare, Execute, DoPromote, PromotionBatch, Call, PromotionResponse, Replaced, BatchOn, ClearChannel,
         BatchRows, Insertable, BatchMembers, Sorted, Strings, Ids, Dumps, Get;
    CommittedCall(env, db, key, request, now, ties);
    ExecutesPromotion(env, db, request, now, ties);
    var batch := PromotionBatch(env, request.event, request.batch, now).value;
    PromoteLeaves(db, request.channel, request.candidate, request.expectedActive, request.required, request.event,
                  batch, ties);
    PromoteAnswers(db, request.channel, request.candidate, request.expectedActive, request.required, request.event,
                   batch, ties);
    ResponseIs(request.channel, request.candidate, db.channels[request.channel].generation + 1, batch);
    BatchExactly(env, request.event, request.batch, now);
    ClearedAndBatch(db.assignments, request.channel,
                    BatchOn(ItemsOf(request.batch), request.channel, request.candidate));
    if batch.Some? {
      PreparedBatch(env, db, request, now);
      InsertableAlone(ClearChannel(db.assignments, request.channel), batch.value);
      BatchIsNotEmpty(env, request.batch.items, now);
      BatchRowsOn(env, request.batch.items, now, request.channel, request.candidate.s);
    } else {
      NoBatchRows(request.channel, request.candidate);
    }
  }

  lemma BatchIsNotEmpty(env: Env, items: seq<Json>, now: int)
    requires items != [] && BatchContracts(env, items, now).Ok?
    ensures BatchContracts(env, items, now).value != []
  {
    hide BatchContract;
  }

  /** In every reachable state a promotion commits exactly when its event was verified, its batch is good and declared
      by the event, and both fit the channel; and it leaves what it is answered with. */
  lemma PromotionExactly(env: Env, ops: seq<Op>, key: string, request: Request, now: int, ties: map<string, string>)
    requires request.Promote?
    ensures var db := After(env, ops).db;
            && (Commits(env, db, key, request, now, ties) <==> PromoteFits(env, db, key, request, now, ties))
            && (PromoteFits(env, db, key, request, now, ties) ==>
                 var (after, r) := Call(env, db, key, request, now, ties);
                 r.Ok? && PromoteLeft(db, after, key, request, r.value))
  {
    hide After, Commits, Call, PromoteFits, PromoteLeft;
    PromotionCommits(env, ops, key, request, now, ties);
    if Commits(env, After(env, ops).db, key, request, now, ties) {
      PromotionLeaves(env, After(env, ops).db, key, request, now, ties);
    }
  }
}
