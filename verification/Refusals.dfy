/** How the operations of the rollout are refused: which exception answers a call that does not fit. */
module Refusals {
  import opened Json
  import opened Formats
  import opened Documents
  import opened Tables
  import opened Rollout
  import opened RolloutInvariant
  import opened World
  import opened Justification
  import opened Promotions
  import opened Publishing
  import opened Assigning
  import opened Reporting
  import opened Promoting
  import Admissions

  /** A publication under a fresh key is invalid on a malformed channel, not found for a revision that is not stored,
      and a conflict when a head is not as expected. */
  lemma PublishRefused(env: Env, db: Db, key: string, channel: string, revision: string, base: Json, head: Json,
                       now: int, ties: map<string, string>)
    requires FreshKey(db, key) && !PublishFits(db, key, channel, Str(revision), base, head)
    ensures Call(env, db, key, Publish(channel, Str(revision), base, head), now, ties) ==
            (db, Fail(if !IsChannel(channel) then Invalid else if revision !in db.revisions then NotFound
                      else Conflict))
  {
    hide IsChannel, ClearChannel;
  }

  lemma EligibleRefuses(row: Enrollment, document: Json, contract: Option<Contract>, e: string, tags: seq<string>,
                        generation: nat)
    requires HandedOn(document, contract, e, tags) && ReadTags(row.tags).Ok? && !Suits(row, document, generation)
    ensures Eligible(row, Get(document, "channel"), tags, contract, generation) == Fail(Conflict)
  {
    hide TargetTags, ReadTags;
  }

  lemma AssignActsRefused(db: Db, document: Json, contract: Option<Contract>, e: string, tags: seq<string>)
    requires HandedOn(document, contract, e, tags) && Get(document, "channel").Str?
    requires forall d :: d in db.enrollments ==> ReadTags(db.enrollments[d].tags).Ok?
    requires !(var c := Get(document, "channel").s;
               && c in db.channels && FromOption(db.channels[c].candidate) == Get(document, "revision_id")
               && if e in db.enrollments then Suits(db.enrollments[e], document, db.channels[c].generation)
                  else Get(document, "schema") != Num(2))
    ensures DoAssign(db, document, e, contract, tags) == Fail(Conflict)
  {
    hide Suits, Eligible, ReadTags, TargetTags, ContractFields;
    var c := Get(document, "channel").s;
    if e in db.enrollments && c in db.channels && !Suits(db.enrollments[e], document, db.channels[c].generation) {
      EligibleRefuses(db.enrollments[e], document, contract, e, tags, db.channels[c].generation);
    }
  }

  /** In every reachable state a signed, well-formed assignment under a fresh key that does not fit is a conflict. */
  lemma AssignRefused(env: Env, ops: seq<Op>, key: string, document: Json, now: int, ties: map<string, string>)
    requires FreshKey(After(env, ops).db, key) && SignedFor(env, document, "candidate", now)
    requires document.Obj? && Get(document, "channel").Str?
    requires !AssignFits(env, After(env, ops).db, key, document, now)
    ensures Call(env, After(env, ops).db, key, Assign(document), now, ties) == (After(env, ops).db, Fail(Conflict))
  {
    hide After, SignedAssignment, SignedFor, DoAssign, Suits, ReadTags, HandedOn;
    var db := After(env, ops).db;
    Admissions.TagsAlwaysRead(env, ops);
    SignedExactly(env, document, "candidate", now);
    var (contract, e, tags) := SignedAssignment(env, document, "candidate", now).value;
    HandedOnNames(document, contract, e, tags);
    AssignActsRefused(db, document, contract, e, tags);
  }

  lemma BootstrapActsRefused(db: Db, channel: string, document: Json, contract: Option<Contract>, e: string,
                             tags: seq<string>)
    requires HandedOn(document, contract, e, tags) && Get(document, "channel") == Str(channel)
    requires forall d :: d in db.enrollments ==> ReadTags(db.enrollments[d].tags).Ok?
    requires !(&& channel in db.channels && FromOption(db.channels[channel].active) == Get(document, "revision_id")
               && e in db.enrollments && Suits(db.enrollments[e], document, db.channels[channel].generation))
    ensures DoBootstrap(db, channel, document, e, contract, tags) == Fail(Conflict)
  {
    hide Suits, Eligible, ReadTags, TargetTags, ContractFields;
    if e in db.enrollments && channel in db.channels
       && !Suits(db.enrollments[e], document, db.channels[channel].generation) {
      EligibleRefuses(db.enrollments[e], document, contract, e, tags, db.channels[channel].generation);
    }
  }

  /** Likewise a bootstrap of a well-formed channel. */
  lemma BootstrapRefused(env: Env, ops: seq<Op>, key: string, channel: string, document: Json, now: int,
                         ties: map<string, string>)
    requires FreshKey(After(env, ops).db, key) && SignedFor(env, document, "active", now) && IsChannel(channel)
    requires !BootstrapFits(env, After(env, ops).db, key, channel, document, now)
    ensures Call(env, After(env, ops).db, key, Bootstrap(channel, document), now, ties) ==
            (After(env, ops).db, Fail(Conflict))
  {
    hide After, SignedAssignment, SignedFor, DoBootstrap, Suits, ReadTags, HandedOn, IsChannel;
    var db := After(env, ops).db;
    Admissions.TagsAlwaysRead(env, ops);
    SignedExactly(env, document, "active", now);
    var (contract, e, tags) := SignedAssignment(env, document, "active", now).value;
    HandedOnNames(document, contract, e, tags);
    if Get(document, "channel") == Str(channel) {
      BootstrapActsRefused(db, channel, document, contract, e, tags);
    }
  }

  // ---------- Reports ----------

  /** In every reachable state a signed report of one of the five results under a fresh key that does not fit is a
      conflict; a report that is not signed by its sender or is of another result is invalid. */
  lemma ReportRefused(env: Env, ops: seq<Op>, key: string, document: Json, e: string, now: int,
                      ties: map<string, string>)
    requires FreshKey(After(env, ops).db, key) && document.Obj? && SenderOf(document) == Some(e)
    requires Get(document, "channel").Str? && Get(document, "result").Str?
    requires !ReportFits(env, After(env, ops).db, key, document, e)
    ensures Call(env, After(env, ops).db, key, Request.Report(document), now, ties) ==
            (After(env, ops).db,
             Fail(if SignedBySender(env, After(env, ops).db, document, e)
                     && Get(document, "result").s in {"success", "failure", "observed", "drift_blocked",
                                                      "external_dependency_failure"}
                  then Conflict else Invalid))
  {
    hide After, Consistent, DoReport, ReportFits, Prepare, ReportVerified, Commits;
    var db := After(env, ops).db;
    AlwaysConsistent(env, ops);
    Admissions.KeysAlwaysRead(env, ops);
    ReportPrepares(env, db, document, now);
    ReportCheckFaults(env, db, document, e, now);
    if Prepare(env, db, Request.Report(document), now).Ok? {
      ReportActsRefused(env, db, key, document, e);
    }
  }

  lemma ReportCheckFaults(env: Env, db: Db, document: Json, e: string, now: int)
    requires document.Obj? && SenderOf(document) == Some(e) && Get(document, "result").Str?
    requires e in db.enrollments ==> Base64Url.Decode(Str(db.enrollments[e].publicKey), 32).Ok?
    ensures var r := Prepare(env, db, Request.Report(document), now); r.Fail? ==> r == Fail(Invalid)
  {
    hide Signing.VerifyWithKey, Base64Url.Decode, Get;
  }

  lemma ReportActsRefused(env: Env, db: Db, key: string, document: Json, e: string)
    requires Consistent(env, db) && document.Obj? && SenderOf(document) == Some(e) && FreshKey(db, key)
    requires Get(document, "channel").Str? && SignedBySender(env, db, document, e)
    requires Get(document, "result").Str?
             && Get(document, "result").s in {"success", "failure", "observed", "drift_blocked",
                                              "external_dependency_failure"}
    requires !ReportFits(env, db, key, document, e)
    ensures DoReport(env, db, document, Text(e), Get(document, "result").s) == Fail(Conflict)
  {
    hide Consistent, SenderOf, SignedBySender, StoredContract, Get, HeldDocument, AnswersHeld, Repeats, RecordLegacy,
         RecordModern;
    if e in db.assignments {
      ReportActs(env, db, key, document, e);
      HeldContract(env, db, e);
    }
  }

  // ---------- Promotions ----------

  /** Everything asked of a promotion's batch but that its rows can be inserted. */
  ghost predicate AllButRows(db: Db, request: Request, ties: map<string, string>)
    requires request.Promote?
  {
    && request.channel in db.channels
    && var current := db.channels[request.channel];
    && FromOption(current.candidate) == request.candidate && FromOption(current.active) == request.expectedActive
    && CanariesFit(db, request, ties)
    && request.event.Obj? && Get(request.event, "generation") == Num(current.generation + 1)
    && forall i :: 0 <= i < |ItemsOf(request.batch)| ==>
         MemberFor(db, ItemsOf(request.batch)[i], request.channel, request.candidate, current.generation + 1)
  }

  lemma {:induction false} CanariesRefuse(db: Db, required: seq<Json>, channel: string, candidate: Json,
                                          ties: map<string, string>)
    requires forall j :: 0 <= j < |required| ==> Bind(required[j]).Ok?
    ensures CanariesPassed(db, required, channel, candidate, ties) in {Ok(()), Fail(Conflict)}
    decreases |required|
  {
    hide Bind, CanaryResult;
    if required != [] {
      CanariesRefuse(db, required[..|required| - 1], channel, candidate, ties);
    }
  }

  lemma {:induction false} MembersRefuse(db: Db, batch: seq<(Contract, Json)>, channel: string, candidate: Json,
                                         generation: nat)
    requires forall d :: d in db.enrollments ==> ReadTags(db.enrollments[d].tags).Ok?
    ensures BatchMembers(db, batch, channel, candidate, generation) in {Ok(()), Fail(Conflict)}
    decreases |batch|
  {
    hide ReadTags;
    if batch != [] {
      MembersRefuse(db, batch[..|batch| - 1], channel, candidate, generation);
    }
  }

  /** The action of a promotion is not found without the channel, refused by a constraint when only its rows cannot be
      inserted, and a conflict otherwise. */
  lemma PromoteActsRefused(db: Db, channel: string, candidate: Json, expectedActive: Json, required: seq<Json>,
                           event: Json, batch: Option<seq<(Contract, Json)>>, ties: map<string, string>)
    requires forall d :: d in db.enrollments ==> ReadTags(db.enrollments[d].tags).Ok?
    requires (forall j :: 0 <= j < |required| ==> Bind(required[j]).Ok?) && event.Obj?
    requires DoPromote(db, channel, candidate, expectedActive, required, event, batch, ties).Fail?
    ensures DoPromote(db, channel, candidate, expectedActive, required, event, batch, ties) ==
            Fail(if channel !in db.channels then NotFound
                 else if && FromOption(db.channels[channel].candidate) == candidate
                         && FromOption(db.channels[channel].active) == expectedActive
                         && CanariesPassed(db, required, channel, candidate, ties).Ok?
                         && Get(event, "generation") == Num(db.channels[channel].generation + 1)
                         && BatchMembers(db, BatchOf(batch), channel, candidate,
                                         db.channels[channel].generation + 1).Ok?
                 then Integrity else Conflict)
  {
    hide CanariesPassed, BatchMembers, ClearChannel, Insertable, BatchRows, PromotionResponse, FromOption, ReadTags,
         Bind, Get;
    CanariesRefuse(db, required, channel, candidate, ties);
    if channel in db.channels {
      MembersRefuse(db, BatchOf(batch), channel, candidate, db.channels[channel].generation + 1);
    }
  }

  lemma ActionFits(env: Env, db: Db, request: Request, now: int, ties: map<string, string>)
    requires request.Promote? && PromotionBatch(env, request.event, request.batch, now).Ok?
    requires request.channel in db.channels && request.event.Obj?
    ensures var batch := BatchOf(PromotionBatch(env, request.event, request.batch, now).value);
            var current := db.channels[request.channel];
            && FromOption(current.candidate) == request.candidate
            && FromOption(current.active) == request.expectedActive
            && CanariesPassed(db, request.required, request.channel, request.candidate, ties).Ok?
            && Get(request.event, "generation") == Num(current.generation + 1)
            && BatchMembers(db, batch, request.channel, request.candidate, current.generation + 1).Ok?
            <==> AllButRows(db, request, ties)
  {
    hide PromotionBatch, GoodBatch, CanariesPassed, BatchMembers, FromOption, Get, Bind, CanaryResult, MemberFor,
         BatchContracts;
    var option := PromotionBatch(env, request.event, request.batch, now).value;
    var batch := BatchOf(option);
    AllCanariesPass(db, request.required, request.channel, request.candidate, ties);
    BatchExactly(env, request.event, request.batch, now);
    MembersAreFor(env, db, ItemsOf(request.batch), batch, now, request.channel, request.candidate,
                  db.channels[request.channel].generation + 1);
  }

  lemma MembersAreFor(env: Env, db: Db, items: seq<Json>, batch: seq<(Contract, Json)>, now: int, channel: string,
                      candidate: Json, generation: nat)
    requires (items == [] && batch == []) || BatchContracts(env, items, now) == Ok(batch)
    ensures BatchMembers(db, batch, channel, candidate, generation).Ok? <==>
            forall i :: 0 <= i < |items| ==> MemberFor(db, items[i], channel, candidate, generation)
  {
    hide BatchMember, BatchMembers, MemberFor, ForPromotion, BatchContract, BatchContracts, EnrollmentOf, IdOf, IdsOf,
         Ids;
    AllMembersPass(db, batch, channel, candidate, generation);
    if BatchContracts(env, items, now) == Ok(batch) {
      ContractsOfBatch(env, items, now);
    }
    forall i | 0 <= i < |batch|
      ensures i < |items|
      ensures BatchMember(db, batch[i].0, channel, candidate, generation).Ok? <==>
              MemberFor(db, items[i], channel, candidate, generation)
    {
      ContractAt(env, items, now, i);
      MemberFits(db, batch[i].0, channel, candidate, generation);
      MemberExactly(env, db, items[i], now, channel, candidate, generation);
    }
  }

  /** In every reachable state a promotion under a fresh key whose event and batch are good but that does not fit is not
      found without the channel, refused by a constraint when an enrollment of the batch repeats or holds a row on
      another channel and nothing else is wrong, and a conflict otherwise. */
  lemma PromoteRefused(env: Env, ops: seq<Op>, key: string, request: Request, now: int, ties: map<string, string>)
    requires request.Promote? && request.event.Obj? && FreshKey(After(env, ops).db, key)
    requires env.verify("promotion", request.event) && GoodBatch(env, request.event, request.batch, now)
    requires forall j :: 0 <= j < |request.required| ==> Bind(request.required[j]).Ok?
    requires !PromoteFits(env, After(env, ops).db, key, request, now, ties)
    ensures Call(env, After(env, ops).db, key, request, now, ties) ==
            (After(env, ops).db,
             Fail(if request.channel !in After(env, ops).db.channels then NotFound
                  else if AllButRows(After(env, ops).db, request, ties) then Integrity else Conflict))
  {
    hide After, Prepare, Execute, DoPromote, PromoteFits, AllButRows, GoodBatch, PromotionBatch, ReadTags, Bind,
         Commits;
    var db := After(env, ops).db;
    Admissions.TagsAlwaysRead(env, ops);
    PromotePrepares(env, db, request, now);
    ExecutesPromotion(env, db, request, now, ties);
    PromotionCommits(env, ops, key, request, now, ties);
    CommitIs(env, db, key, request, now, ties);
    PromoteActsRefused(db, request.channel, request.candidate, request.expectedActive, request.required, request.event,
                       PromotionBatch(env, request.event, request.batch, now).value, ties);
    if request.channel in db.channels {
      ActionFits(env, db, request, now, ties);
    }
  }
}
