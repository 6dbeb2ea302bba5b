/** The store itself: ten tables and a file tree, changed statement by statement inside transactions that roll back. */
module Store {
  import opened Json
  import opened Text
  import opened Utf8
  import opened JsonText
  import opened Formats
  import opened Documents
  import opened Tables
  import opened Rollout
  import opened RolloutInvariant
  import Base64Url
  import Signing
  import Enrolling
  import Administration
  import Blobs
  import World
  import RevisionHistory
  import EnrollmentHistory
  import Backups

  // ---------- What a statement loop has computed ----------

  /** A body that succeeds has left exactly the tables of the effect; one that fails raises its fault, whatever it has
      written. */
  predicate Agrees(r: Outcome<Json>, db: Db, effect: Effect) {
    match effect
    case Ok((after, response)) => r == Ok(response) && db == after
    case Fail(fault) => r == Fail(fault)
  }

  /** The later choices keep every earlier one. */
  predicate Extends(ties: map<string, string>, earlier: map<string, string>) {
    forall e :: e in earlier ==> e in ties && ties[e] == earlier[e]
  }

  /** Each choice made so far is a newest candidate report of its enrollment. */
  predicate ChosenNewest(db: Db, channel: string, candidate: Json, chosen: map<string, string>) {
    forall e :: e in chosen ==> candidate.Str?
                                && IsNewest(db, CandidateReports(db, e, channel, candidate.s), (e, chosen[e]))
  }

  ghost predicate AllPassed(db: Db, required: seq<Json>, channel: string, candidate: Json,
                            chosen: map<string, string>) {
    forall ties :: Extends(ties, chosen) ==> CanariesPassed(db, required, channel, candidate, ties) == Ok(())
  }

  ghost predicate Decides(db: Db, e: Bound, channel: string, candidate: Json, chosen: map<string, string>,
                          result: Option<string>) {
    forall ties :: Extends(ties, chosen) ==> CanaryResult(db, e, channel, candidate, ties) == result
  }

  lemma OneMorePassed(db: Db, required: seq<Json>, i: nat, channel: string, candidate: Json,
                      earlier: map<string, string>, chosen: map<string, string>)
    requires i < |required| && AllPassed(db, required[..i], channel, candidate, earlier) && Extends(chosen, earlier)
    requires Bind(required[i]).Ok? && Decides(db, Bind(required[i]).value, channel, candidate, chosen, Some("success"))
    ensures AllPassed(db, required[..i + 1], channel, candidate, chosen)
  {
    hide CanaryResult, Bind;
    assert required[..i + 1][..i] == required[..i];
  }

  lemma {:induction false} CanariesFailEarly(db: Db, required: seq<Json>, i: nat, channel: string, candidate: Json,
                                             ties: map<string, string>)
    requires i <= |required| && CanariesPassed(db, required[..i], channel, candidate, ties).Fail?
    ensures CanariesPassed(db, required, channel, candidate, ties) ==
            CanariesPassed(db, required[..i], channel, candidate, ties)
    decreases |required|
  {
    hide CanaryResult, Bind;
    if i == |required| {
      assert required[..i] == required;
    } else {
      var n := |required| - 1;
      assert required[..n][..i] == required[..i];
      CanariesFailEarly(db, required[..n], i, channel, candidate, ties);
    }
  }

  /** The first enrollment that does not pass decides the failure. */
  lemma NextFails(db: Db, required: seq<Json>, i: nat, channel: string, candidate: Json, chosen: map<string, string>)
    requires i < |required| && CanariesPassed(db, required[..i], channel, candidate, chosen) == Ok(())
    ensures Bind(required[i]).Fail? ==> CanariesPassed(db, required, channel, candidate, chosen) ==
                                        Fail(Bind(required[i]).fault)
    ensures Bind(required[i]).Ok? && CanaryResult(db, Bind(required[i]).value, channel, candidate,
                                                  chosen) != Some("success") ==>
              CanariesPassed(db, required, channel, candidate, chosen) == Fail(Conflict)
  {
    hide CanaryResult, Bind;
    assert required[..i + 1][..i] == required[..i];
    if CanariesPassed(db, required[..i + 1], channel, candidate, chosen).Fail? {
      CanariesFailEarly(db, required, i + 1, channel, candidate, chosen);
    }
  }

  lemma {:induction false} MembersFailEarly(db: Db, batch: seq<(Contract, Json)>, i: nat, channel: string,
                                            candidate: Json, generation: nat)
    requires i < |batch| && BatchMembers(db, batch[..i], channel, candidate, generation).Ok?
    requires BatchMember(db, batch[i].0, channel, candidate, generation).Fail?
    ensures BatchMembers(db, batch, channel, candidate, generation) ==
            BatchMember(db, batch[i].0, channel, candidate, generation)
    decreases |batch|
  {
    hide BatchMember;
    var n := |batch| - 1;
    if i < n {
      assert batch[..n][..i] == batch[..i];
      MembersFailEarly(db, batch[..n], i, channel, candidate, generation);
    }
  }

  lemma OneMoreMember(db: Db, batch: seq<(Contract, Json)>, i: nat, channel: string, candidate: Json, generation: nat)
    requires i < |batch| && BatchMembers(db, batch[..i], channel, candidate, generation).Ok?
    requires BatchMember(db, batch[i].0, channel, candidate, generation).Ok?
    ensures BatchMembers(db, batch[..i + 1], channel, candidate, generation).Ok?
  {
    hide BatchMember;
    assert batch[..i + 1][..i] == batch[..i];
  }

  lemma {:induction false} ContractsFailEarly(env: Env, documents: seq<Json>, i: nat, now: int)
    requires i <= |documents| && BatchContracts(env, documents[..i], now).Fail?
    ensures BatchContracts(env, documents, now) == BatchContracts(env, documents[..i], now)
    decreases |documents|
  {
    hide BatchContract, Ids;
    if i == |documents| {
      assert documents[..i] == documents;
    } else {
      var n := |documents| - 1;
      assert documents[..n][..i] == documents[..i];
      ContractsFailEarly(env, documents[..n], i, now);
    }
  }

  lemma NextContract(env: Env, documents: seq<Json>, i: nat, now: int)
    requires i < |documents| && BatchContracts(env, documents[..i], now).Ok?
    ensures var earlier, contract := BatchContracts(env, documents[..i], now).value,
            BatchContract(env, documents[i], now);
            BatchContracts(env, documents[..i + 1], now) ==
            if contract.Fail? then Fail(contract.fault)
            else if contract.value.assignmentId in Ids(earlier) then Fail(Invalid)
            else Ok(earlier + [(contract.value, documents[i])])
  {
    hide BatchContract, Ids;
    assert documents[..i + 1][..i] == documents[..i];
  }

  lemma OneMoreId(batch: seq<(Contract, Json)>, entry: (Contract, Json))
    ensures Ids(batch + [entry]) == Ids(batch) + {entry.0.assignmentId}
  {
  }

  /** After `n` inserts: the cleared rows untouched, and the first `n` entries each in a row of its own. */
  predicate Inserted(rows: map<string, Assignment>, cleared: map<string, Assignment>, batch: seq<(Contract, Json)>,
                     n: nat, channel: string, revision: string)
    requires n <= |batch|
  {
    && (forall i :: 0 <= i < n ==> batch[i].0.enrollment !in cleared)
    && (forall i :: 0 <= i < n ==> batch[i].0.enrollment in rows
                                   && rows[batch[i].0.enrollment] == ActiveRow(batch[i], channel, revision))
    && (forall i, j :: 0 <= i < j < n ==> batch[i].0.enrollment != batch[j].0.enrollment)
    && (forall e :: e in cleared ==> e in rows && rows[e] == cleared[e])
    && (forall e :: e in rows ==> e in cleared || exists i :: 0 <= i < n && batch[i].0.enrollment == e)
  }

  lemma OneMoreInserted(rows: map<string, Assignment>, cleared: map<string, Assignment>, batch: seq<(Contract, Json)>,
                        n: nat, channel: string, revision: string)
    requires n < |batch| && Inserted(rows, cleared, batch, n, channel, revision)
    ensures batch[n].0.enrollment in rows ==> !Insertable(cleared, batch)
    ensures batch[n].0.enrollment !in rows ==>
              Inserted(rows[batch[n].0.enrollment := ActiveRow(batch[n], channel, revision)], cleared, batch, n + 1,
                       channel, revision)
  {
    hide ActiveRow;
  }

  lemma AllInserted(rows: map<string, Assignment>, cleared: map<string, Assignment>, batch: seq<(Contract, Json)>,
                    channel: string, revision: string)
    requires Inserted(rows, cleared, batch, |batch|, channel, revision)
    ensures Insertable(cleared, batch) && Insertable(map[], batch)
    ensures rows == cleared + BatchRows(batch, channel, revision)
  {
    hide ActiveRow, BatchRows;
    var added := BatchRows(batch, channel, revision);
    forall e
      ensures e in rows <==> e in cleared || e in added
      ensures e in rows ==> rows[e] == if e in added then added[e] else cleared[e]
    {
      BatchRowOf(batch, channel, revision, e);
      if e in added {
        var i: nat :| i < |batch| && batch[i].0.enrollment == e && added[e] == ActiveRow(batch[i], channel, revision);
      }
    }
  }

  lemma BatchRowOf(batch: seq<(Contract, Json)>, channel: string, revision: string, e: string)
    requires Insertable(map[], batch)
    ensures var added := BatchRows(batch, channel, revision);
            && (e in added <==> exists i :: 0 <= i < |batch| && batch[i].0.enrollment == e)
            && (e in added ==> exists i: nat :: i < |batch| && batch[i].0.enrollment == e
                                                && added[e] == ActiveRow(batch[i], channel, revision))
  {
    hide ActiveRow;
  }

  // ---------- Bodies ----------

  lemma PublishCases(db: Db, channel: string, revision: Json, base: Json, head: Json)
    ensures var effect, r, current := DoPublish(db, channel, revision, base, head), Bind(revision),
            ChannelOf(db.channels, channel);
            if r.Fail? then effect == Fail(r.fault)
            else if r.value.NullValue? || r.value.s !in db.revisions then effect == Fail(NotFound)
            else if FromOption(current.candidate) != head || FromOption(current.active) != base
                 then effect == Fail(Conflict)
            else effect == Ok((
              db.(channels := db.channels[channel := current.(candidate := Some(r.value.s))],
                  assignments := ClearChannel(db.assignments, channel)),
              PublishResponse(channel, revision, current.active)))
  {
    hide ClearChannel, Bind, FromOption, PublishResponse;
  }

  /** The statements that a promotion's checks let through can still fail on a constraint. */
  predicate BatchFits(db: Db, channel: string, candidate: Json, entries: seq<(Contract, Json)>) {
    Insertable(ClearChannel(db.assignments, channel), entries)
        && (entries != [] ==> candidate.Str? && candidate.s in db.revisions)
  }

  function Promoted(db: Db, channel: string, candidate: Json, generation: nat, entries: seq<(Contract, Json)>): Db
    requires channel in db.channels && BatchFits(db, channel, candidate, entries)
  {
    db.(channels := db.channels[channel := Channel(None, db.channels[channel].candidate, generation)],
        assignments := ClearChannel(db.assignments, channel)
                       + (if entries == [] then map[] else BatchRows(entries, channel, candidate.s)))
  }

  lemma PromoteCases(db: Db, channel: string, candidate: Json, expectedActive: Json, required: seq<Json>, event: Json,
                     batch: Option<seq<(Contract, Json)>>, ties: map<string, string>)
    ensures var effect := DoPromote(db, channel, candidate, expectedActive, required, event, batch, ties);
            if channel !in db.channels then effect == Fail(NotFound) else
              var current, entries := db.channels[channel], BatchOf(batch);
              var canaries := CanariesPassed(db, required, channel, candidate, ties);
              var members := BatchMembers(db, entries, channel, candidate, current.generation + 1);
              if FromOption(current.candidate) != candidate || FromOption(current.active) != expectedActive
                  then effect == Fail(Conflict)
              else if canaries.Fail? then effect == Fail(canaries.fault)
              else if !event.Obj? then effect == Fail(Broken)
              else if Get(event, "generation") != Num(current.generation + 1) then effect == Fail(Conflict)
              else if members.Fail? then effect == Fail(members.fault)
              else if !BatchFits(db, channel, candidate, entries) then effect == Fail(Integrity)
              else effect == Ok((Promoted(db, channel, candidate, current.generation + 1, entries),
                                 PromotionResponse(channel, candidate, current.generation + 1, batch)))
  {
    hide CanariesPassed, BatchMembers, ClearChannel, BatchRows, Insertable, PromotionResponse, FromOption;
  }

  function WithChannel(channels: map<string, Channel>, channel: string): (r: map<string, Channel>)
    ensures channel in r
  {
    if channel in channels then channels else channels[channel := Channel(None, None, 0)]
  }

  /** Inserting a missing channel and then updating it is updating the channel as it would be. */
  lemma KnownOrNew(channels: map<string, Channel>, channel: string, row: Channel)
    ensures WithChannel(channels, channel)[channel] == ChannelOf(channels, channel)
    ensures WithChannel(channels, channel)[channel := row] == channels[channel := row]
  {
  }

  // ---------- Runs ----------

  class ProfileStore {
    const env: Env
    var revisions: map<string, string>
    var channels: map<string, Channel>
    var assignments: map<string, Assignment>
    var reports: map<(string, string, string), Report>
    var assignmentReports: map<(string, string), AssignmentReport>
    var idempotency: map<string, Remembered>
    var enrollments: map<string, Enrollment>
    var pairingCodes: map<string, Pairing>
    var adminRequests: map<(string, string), AdminRequest>
    var blobs: map<string, BlobRow>
    var files: Blobs.Files
    /** Calls of `put_revision` that have read the table and not yet inserted. */
    var uploads: map<nat, (string, string)>
    /** Every call so far. */
    ghost var history: seq<World.Op>

    function Contents(): Db
      reads this
    {
      Db(revisions, channels, assignments, reports, assignmentReports, idempotency, enrollments, pairingCodes,
         adminRequests, blobs)
    }

    function State(): World.State
      reads this
    {
      World.State(Contents(), files, uploads)
    }

    /** The fields hold what the calls so far lead to. */
    ghost predicate Valid()
      reads this
    {
      State() == World.After(env, history)
    }

    constructor (env: Env)
      ensures this.env == env && history == [] && Valid()
      ensures State() == World.START
    {
      this.env := env;
      revisions, channels, assignments, reports, assignmentReports := map[], map[], map[], map[], map[];
      idempotency, enrollments, pairingCodes, adminRequests, blobs := map[], map[], map[], map[], map[];
      files, uploads := map[], map[];
      history := [];
      new;
      hide World.Step;
      World.EmptyRun(env, history);
    }

    /** A transaction that raises gives back every table, but no file. */
    method Rollback(saved: Db)
      modifies this`revisions, this`channels, this`assignments, this`reports, this`assignmentReports, this`idempotency,
               this`enrollments, this`pairingCodes, this`adminRequests, this`blobs
      ensures Contents() == saved
    {
      revisions, channels, assignments := saved.revisions, saved.channels, saved.assignments;
      reports, assignmentReports, idempotency := saved.reports, saved.assignmentReports, saved.idempotency;
      enrollments, pairingCodes := saved.enrollments, saved.pairingCodes;
      adminRequests, blobs := saved.adminRequests, saved.blobs;
    }

    ghost method Remember(op: World.Op)
      requires State() == World.Step(env, World.After(env, history), op).0
      modifies this`history
      ensures Valid() && history == old(history) + [op]
    {
      hide World.Step, World.After;
      World.OneMoreStep(env, history, op);
      history := history + [op];
    }

    // ---------- Publishing and assigning ----------

    /** `INSERT OR IGNORE INTO channels`. */
    method InsertChannel(channel: string)
      modifies this`channels
      ensures channels == WithChannel(old(channels), channel)
    {
      if channel !in channels {
        channels := channels[channel := Channel(None, None, 0)];
      }
    }

    /** The UPDATE and the DELETE of a publication. */
    method ReplaceChannel(channel: string, row: Channel)
      modifies this`channels, this`assignments
      ensures channels == old(channels)[channel := row]
      ensures assignments == ClearChannel(old(assignments), channel)
    {
      hide ClearChannel;
      channels := channels[channel := row];
      assignments := ClearChannel(assignments, channel);
    }

    method PublishBody(channel: string, revision: Json, base: Json, head: Json) returns (r: Outcome<Json>)
      modifies this`channels, this`assignments
      ensures Agrees(r, Contents(), DoPublish(old(Contents()), channel, revision, base, head))
    {
      hide ClearChannel, Bind, FromOption, DoPublish, WithChannel;
      PublishCases(Contents(), channel, revision, base, head);
      var bound := Bind(revision);
      if bound.Fail? {
        r := Fail(bound.fault);
      } else if bound.value.NullValue? || bound.value.s !in revisions {
        r := Fail(NotFound);
      } else {
        KnownOrNew(channels, channel, ChannelOf(channels, channel).(candidate := Some(bound.value.s)));
        InsertChannel(channel);
        var current := channels[channel];
        if FromOption(current.candidate) != head || FromOption(current.active) != base {
          r := Fail(Conflict);
        } else {
          ReplaceChannel(channel, current.(candidate := Some(bound.value.s)));
          r := Ok(PublishResponse(channel, revision, current.active));
        }
      }
    }

    method AssignBody(document: Json, enrollment: string, contract: Option<Contract>, tags: seq<string>)
      returns (r: Outcome<Json>)
      requires document.Obj?
      modifies this`assignments
      ensures Agrees(r, Contents(), DoAssign(old(Contents()), document, enrollment, contract, tags))
    {
      hide Bind, ReadTags, Dumps, Strings, ContractFields;
      var channel, revision := Get(document, "channel"), Get(document, "revision_id");
      var bound :- Bind(channel);
      if bound.NullValue? || bound.s !in channels || FromOption(channels[bound.s].candidate) != revision {
        return Fail(Conflict);
      }
      var row := channels[bound.s];
      if enrollment in enrollments {
        var enrolled := enrollments[enrollment];
        if enrolled.revoked || Str(enrolled.channel) != channel {
          return Fail(Conflict);
        }
        var enrolledTags :- ReadTags(enrolled.tags);
        if enrolledTags != tags {
          return Fail(Conflict);
        }
        if contract.Some? && (contract.value.enrollmentGeneration != enrolled.generation
                              || contract.value.channelGeneration != row.generation) {
          return Fail(Conflict);
        }
      } else if contract.Some? {
        return Fail(Conflict);
      }
      if !(revision.Str? && revision.s in revisions) {
        return Fail(Integrity);
      }
      assignments := assignments[enrollment := Assignment(bound.s, revision.s, "candidate", Dumps(document))];
      return Ok(Obj(map["enrollment_id" := Str(enrollment), "channel" := channel, "revision_id" := revision,
                        "assignment_kind" := Str("candidate"), "target_tags" := Arr(Strings(tags))]
                    + ContractFields(contract)));
    }

    method BootstrapBody(channel: string, document: Json, enrollment: string, contract: Option<Contract>,
                         tags: seq<string>)
      returns (r: Outcome<Json>)
      requires document.Obj?
      modifies this`assignments
      ensures Agrees(r, Contents(), DoBootstrap(old(Contents()), channel, document, enrollment, contract, tags))
    {
      hide ReadTags, Dumps, Strings, ContractFields;
      var revision := Get(document, "revision_id");
      if channel !in channels || FromOption(channels[channel].active) != revision {
        return Fail(Conflict);
      }
      var current := channels[channel];
      if enrollment !in enrollments || enrollments[enrollment].revoked || enrollments[enrollment].channel != channel {
        return Fail(Conflict);
      }
      var enrolled := enrollments[enrollment];
      var enrolledTags :- ReadTags(enrolled.tags);
      if enrolledTags != tags {
        return Fail(Conflict);
      }
      if contract.Some? && (contract.value.enrollmentGeneration != enrolled.generation
                            || contract.value.channelGeneration != current.generation) {
        return Fail(Conflict);
      }
      var kind := StoredKind(contract);
      if !(revision.Str? && revision.s in revisions) {
        return Fail(Integrity);
      }
      assignments := assignments[enrollment := Assignment(channel, revision.s, kind, Dumps(document))];
      return Ok(Obj(map["enrollment_id" := Str(enrollment), "channel" := Str(channel), "revision_id" := revision,
                        "assignment_kind" := Str(kind), "assignment_source" := Str("active-bootstrap"),
                        "target_tags" := Arr(Strings(tags))]
                    + ContractFields(contract)));
    }

    // ---------- Reporting ----------

    method ReportBody(document: Json, sender: Bound, result: string) returns (r: Outcome<Json>)
      requires document.Obj?
      modifies this`reports, this`assignmentReports
      ensures Agrees(r, Contents(), DoReport(env, old(Contents()), document, sender, result))
    {
      hide Bind, StoredContract, Dumps, Repeats;
      var channel :- Bind(Get(document, "channel"));
      if sender.NullValue? || channel.NullValue? || sender.s !in assignments {
        return Fail(Conflict);
      }
      var e, row := sender.s, assignments[sender.s];
      if row.channel != channel.s || Str(row.revision) != Get(document, "revision_id") {
        return Fail(Conflict);
      }
      var stored :- StoredContract(env, row);
      match stored {
        case Some(contract) =>
          if !Repeats(document, contract) {
            return Fail(Conflict);
          }
          assignmentReports := assignmentReports[(e, contract.assignmentId) :=
            AssignmentReport(contract.enrollmentGeneration, row.channel, contract.channelGeneration, row.revision,
                             contract.kind, result, Dumps(document))];
          return Ok(Obj(map["assignment_id" := Str(contract.assignmentId), "assignment_kind" := Str(contract.kind),
                            "channel_generation" := Num(contract.channelGeneration),
                            "enrollment_id" := Get(document, "enrollment_id"), "revision_id" := Str(row.revision),
                            "result" := Str(result)]));
        case None =>
          reports := reports[(e, row.channel, row.revision) := Tables.Report(result, Dumps(document))];
          return Ok(Obj(map["enrollment_id" := Get(document, "enrollment_id"), "revision_id" := Str(row.revision),
                            "result" := Str(result)]));
      }
    }

    // ---------- Promoting ----------

    /** The newest candidate report of one enrollment. The rows are met in any order, so any of the newest may be
        chosen; asked again within one transaction the same statement chooses the same row. */
    method LatestCandidateReport(e: string, channel: string, candidate: string, earlier: map<string, string>)
      returns (result: Option<string>, chosen: map<string, string>)
      requires ChosenNewest(Contents(), channel, Str(candidate), earlier)
      ensures ChosenNewest(Contents(), channel, Str(candidate), chosen) && Extends(chosen, earlier)
      ensures result.None? <==> CandidateReports(Contents(), e, channel, candidate) == {}
      ensures result.Some? ==> e in chosen && (e, chosen[e]) in assignmentReports
                               && result.value == assignmentReports[(e, chosen[e])].result
    {
      if e in earlier {
        return Some(assignmentReports[(e, earlier[e])].result), earlier;
      }
      ghost var keys := CandidateReports(Contents(), e, channel, candidate);
      var best: Option<(string, string)> := None;
      var left := assignmentReports.Keys;
      while left != {}
        invariant left <= assignmentReports.Keys
        invariant best.None? ==> keys <= left
        invariant best.Some? ==> best.value in keys && forall k :: k in keys && k !in left ==>
          assignmentReports[k].channelGeneration <= assignmentReports[best.value].channelGeneration
        decreases left
      {
        var k :| k in left;
        var row := assignmentReports[k];
        if k.0 == e && row.channel == channel && row.revision == candidate && row.kind == "candidate"
           && (best.None? || assignmentReports[best.value].channelGeneration <= row.channelGeneration) {
          best := Some(k);
        }
        left := left - {k};
      }
      if best.None? {
        return None, earlier;
      }
      chosen := earlier[e := best.value.1];
      assert (e, chosen[e]) == best.value;
      return Some(assignmentReports[best.value].result), chosen;
    }

    /** One required enrollment: its newest schema 2 result, or else its legacy result. */
    method CanaryReport(e: Bound, channel: string, candidate: Json, earlier: map<string, string>)
      returns (result: Option<string>, chosen: map<string, string>)
      requires ChosenNewest(Contents(), channel, candidate, earlier)
      ensures ChosenNewest(Contents(), channel, candidate, chosen) && Extends(chosen, earlier)
      ensures Decides(Contents(), e, channel, candidate, chosen, result)
    {
      hide CandidateReports, IsNewest, ChosenNewest;
      if e.NullValue? || !candidate.Str? {
        return None, earlier;
      }
      result, chosen := LatestCandidateReport(e.s, channel, candidate.s, earlier);
      if result.Some? {
        ChosenDecides(Contents(), e.s, channel, candidate.s, chosen);
        return;
      }
      var key := (e.s, channel, candidate.s);
      if key in reports {
        result := Some(reports[key].result);
      }
    }

    method CheckCanaries(required: seq<Json>, channel: string, candidate: Json)
      returns (r: Outcome<()>, ghost ties: map<string, string>)
      ensures r == CanariesPassed(Contents(), required, channel, candidate, ties)
    {
      hide CanaryResult, Bind, ChosenNewest, CanariesPassed;
      var chosen: map<string, string> := map[];
      NothingChosen(Contents(), required[..0], channel, candidate);
      var i := 0;
      while i < |required|
        invariant 0 <= i <= |required|
        invariant ChosenNewest(Contents(), channel, candidate, chosen)
        invariant AllPassed(Contents(), required[..i], channel, candidate, chosen)
      {
        assert CanariesPassed(Contents(), required[..i], channel, candidate, chosen) == Ok(());
        NextFails(Contents(), required, i, channel, candidate, chosen);
        var e := Bind(required[i]);
        if e.Fail? {
          return Fail(e.fault), chosen;
        }
        var result, more := CanaryReport(e.value, channel, candidate, chosen);
        assert CanariesPassed(Contents(), required[..i], channel, candidate, more) == Ok(());
        if result != Some("success") {
          NextFails(Contents(), required, i, channel, candidate, more);
          return Fail(Conflict), more;
        }
        OneMorePassed(Contents(), required, i, channel, candidate, chosen, more);
        chosen := more;
        i := i + 1;
      }
      assert required[..i] == required;
      return Ok(()), chosen;
    }

    method CheckBatch(batch: seq<(Contract, Json)>, channel: string, candidate: Json, generation: nat)
      returns (r: Outcome<()>)
      ensures r == BatchMembers(Contents(), batch, channel, candidate, generation)
    {
      hide ReadTags;
      var i := 0;
      while i < |batch|
        invariant 0 <= i <= |batch|
        invariant BatchMembers(Contents(), batch[..i], channel, candidate, generation).Ok?
      {
        var contract := batch[i].0;
        var member := CheckMember(contract, channel, candidate, generation);
        if member.Fail? {
          MembersFailEarly(Contents(), batch, i, channel, candidate, generation);
          return member;
        }
        OneMoreMember(Contents(), batch, i, channel, candidate, generation);
        i := i + 1;
      }
      assert batch[..i] == batch;
      return Ok(());
    }

    method CheckMember(contract: Contract, channel: string, candidate: Json, generation: nat) returns (r: Outcome<()>)
      ensures r == BatchMember(Contents(), contract, channel, candidate, generation)
    {
      hide ReadTags;
      if contract.channel != Str(channel) || Str(contract.revision) != candidate
          || contract.channelGeneration != generation {
        return Fail(Conflict);
      }
      if contract.enrollment !in enrollments {
        return Fail(Conflict);
      }
      var enrolled := enrollments[contract.enrollment];
      if enrolled.revoked || enrolled.channel != channel || enrolled.generation != contract.enrollmentGeneration {
        return Fail(Conflict);
      }
      var tags :- ReadTags(enrolled.tags);
      return if tags == contract.tags then Ok(()) else Fail(Conflict);
    }

    /** Plain inserts, one by one: the first that breaks a constraint raises, with the earlier ones already in the
        table. */
    method InsertBatch(batch: seq<(Contract, Json)>, channel: string, candidate: Json) returns (ok: bool)
      modifies this`assignments
      ensures ok <==> Insertable(old(assignments), batch)
                      && (batch != [] ==> candidate.Str? && candidate.s in revisions)
      ensures ok && batch == [] ==> assignments == old(assignments)
      ensures ok && batch != [] ==> Insertable(map[], batch)
                                    && assignments == old(assignments) + BatchRows(batch, channel, candidate.s)
    {
      hide Inserted, BatchRows, Insertable;
      if batch == [] {
        NothingToInsert(assignments, batch);
        return true;
      }
      if !(candidate.Str? && candidate.s in revisions) {
        return false;
      }
      ghost var cleared := assignments;
      NothingInserted(cleared, batch, channel, candidate.s);
      var n := 0;
      while n < |batch|
        invariant 0 <= n <= |batch|
        invariant Inserted(assignments, cleared, batch, n, channel, candidate.s)
      {
        OneMoreInserted(assignments, cleared, batch, n, channel, candidate.s);
        if batch[n].0.enrollment in assignments {
          return false;
        }
        assignments := assignments[batch[n].0.enrollment := ActiveRow(batch[n], channel, candidate.s)];
        n := n + 1;
      }
      AllInserted(assignments, cleared, batch, channel, candidate.s);
      return true;
    }

    /** The UPDATE, the DELETE and the inserts of a promotion. */
    method PromoteRows(channel: string, candidate: Json, generation: nat, entries: seq<(Contract, Json)>)
      returns (ok: bool)
      requires channel in channels
      modifies this`channels, this`assignments
      ensures ok <==> BatchFits(old(Contents()), channel, candidate, entries)
      ensures ok ==> Contents() == Promoted(old(Contents()), channel, candidate, generation, entries)
    {
      hide ClearChannel, BatchRows, Insertable;
      channels := channels[channel := Channel(None, channels[channel].candidate, generation)];
      assignments := ClearChannel(assignments, channel);
      ok := InsertBatch(entries, channel, candidate);
      assert assignments + map[] == assignments;
    }

    /** Every check of a promotion that comes before its first write; the result is the next generation. */
    method CheckPromotion(channel: string, candidate: Json, expectedActive: Json, required: seq<Json>, event: Json,
                          batch: Option<seq<(Contract, Json)>>)
                          returns (r: Outcome<nat>, ghost ties: map<string, string>)
      ensures var effect := DoPromote(Contents(), channel, candidate, expectedActive, required, event, batch, ties);
              match r
              case Fail(fault) => effect == Fail(fault)
              case Ok(generation) =>
                && channel in channels
                && effect == if BatchFits(Contents(), channel, candidate, BatchOf(batch))
                             then Ok((Promoted(Contents(), channel, candidate, generation, BatchOf(batch)),
                                      PromotionResponse(channel, candidate, generation, batch)))
                             else Fail(Integrity)
    {
      hide DoPromote, CanariesPassed, BatchMembers, BatchFits, Promoted, PromotionResponse, FromOption, BatchOf;
      ties := map[];
      PromoteCases(Contents(), channel, candidate, expectedActive, required, event, batch, ties);
      if channel !in channels {
        return Fail(NotFound), ties;
      }
      var current := channels[channel];
      if FromOption(current.candidate) != candidate || FromOption(current.active) != expectedActive {
        return Fail(Conflict), ties;
      }
      var canaries;
      canaries, ties := CheckCanaries(required, channel, candidate);
      PromoteCases(Contents(), channel, candidate, expectedActive, required, event, batch, ties);
      if canaries.Fail? {
        return Fail(canaries.fault), ties;
      }
      var generation := current.generation + 1;
      if !event.Obj? {
        return Fail(Broken), ties;
      }
      if Get(event, "generation") != Num(generation) {
        return Fail(Conflict), ties;
      }
      var members := CheckBatch(BatchOf(batch), channel, candidate, generation);
      return if members.Fail? then Fail(members.fault) else Ok(generation), ties;
    }

    method PromoteBody(channel: string, candidate: Json, expectedActive: Json, required: seq<Json>, event: Json,
                       batch: Option<seq<(Contract, Json)>>) returns (r: Outcome<Json>, ghost ties: map<string, string>)
      modifies this`channels, this`assignments
      ensures Agrees(r, Contents(), DoPromote(old(Contents()), channel, candidate, expectedActive, required, event,
                                              batch, ties))
    {
      hide DoPromote, BatchFits, Promoted, PromotionResponse;
      var generation;
      generation, ties := CheckPromotion(channel, candidate, expectedActive, required, event, batch);
      if generation.Fail? {
        return Fail(generation.fault), ties;
      }
      var ok := PromoteRows(channel, candidate, generation.value, BatchOf(batch));
      return if ok then Ok(PromotionResponse(channel, candidate, generation.value, batch)) else Fail(Integrity), ties;
    }

    // ---------- Idempotency and transactions ----------

    method Run(action: Action) returns (r: Outcome<Json>, ghost ties: map<string, string>)
      modifies this`channels, this`assignments, this`reports, this`assignmentReports
      ensures Agrees(r, Contents(), Execute(env, old(Contents()), action, ties))
    {
      hide DoPublish, DoAssign, DoBootstrap, DoReport, DoPromote;
      ties := map[];
      match action {
        case PublishAction(channel, revision, base, head) =>
          r := PublishBody(channel, revision, base, head);
        case AssignAction(document, enrollment, contract, tags) =>
          if document.Obj? {
            r := AssignBody(document, enrollment, contract, tags);
          } else {
            r := Fail(Broken);
          }
        case BootstrapAction(channel, document, enrollment, contract, tags) =>
          if document.Obj? {
            r := BootstrapBody(channel, document, enrollment, contract, tags);
          } else {
            r := Fail(Broken);
          }
        case ReportAction(document, sender, result) =>
          if document.Obj? {
            r := ReportBody(document, sender, result);
          } else {
            r := Fail(Broken);
          }
        case PromoteAction(channel, candidate, expectedActive, required, event, batch) =>
          r, ties := PromoteBody(channel, candidate, expectedActive, required, event, batch);
      }
    }

    /** `_idempotent`. */
    method Idempotent(key: string, operation: string, action: Action)
      returns (r: Outcome<Json>, ghost ties: map<string, string>)
      modifies this`channels, this`assignments, this`reports, this`assignmentReports, this`idempotency
      ensures r == Once(env, old(Contents()), key, operation, action, ties).1
      ensures r.Ok? ==> Contents() == Once(env, old(Contents()), key, operation, action, ties).0
    {
      hide Execute, ReadJson, Dumps;
      ties := map[];
      if |key| < 8 {
        return Fail(Invalid), ties;
      }
      if key in idempotency {
        if idempotency[key].operation != operation {
          return Fail(Conflict), ties;
        }
        return ReadJson(idempotency[key].response), ties;
      }
      r, ties := Run(action);
      if r.Ok? {
        idempotency := idempotency[key := Remembered(operation, Dumps(r.value))];
      }
    }

    /** The transaction around an idempotent operation: whatever its statements wrote is given back when it raises. */
    method Attempt(key: string, request: Request, prepared: Outcome<Action>, now: int)
      returns (r: Outcome<Json>, ghost ties: map<string, string>)
      requires prepared == Prepare(env, Contents(), request, now)
      modifies this`revisions, this`channels, this`assignments, this`reports, this`assignmentReports, this`idempotency,
               this`enrollments, this`pairingCodes, this`adminRequests, this`blobs
      ensures (Contents(), r) == Call(env, old(Contents()), key, request, now, ties)
    {
      hide Once, Prepare, Call;
      var saved := Contents();
      ties := map[];
      PreparedCall(env, saved, key, request, now);
      if prepared.Fail? {
        r := Fail(prepared.fault);
      } else {
        r, ties := Idempotent(key, Operation(request), prepared.value);
        if r.Fail? {
          FailedOnce(env, saved, key, Operation(request), prepared.value, ties);
          Rollback(saved);
        }
      }
    }

    /** One call of an idempotent operation is one step of a run. */
    method Transact(key: string, request: Request, prepared: Outcome<Action>, now: int)
      returns (r: Outcome<Json>, ghost op: World.Op)
      requires Valid() && prepared == Prepare(env, Contents(), request, now)
      modifies this
      ensures Valid() && op.CallRollout? && op.key == key && op.request == request && op.now == now
      ensures history == old(history) + [op] && (State(), r) == World.Step(env, old(State()), op)
    {
      hide World.Step, World.After, Prepare, Call;
      ghost var before := State();
      ghost var ties;
      r, ties := Attempt(key, request, prepared, now);
      op := World.CallRollout(key, request, now, ties);
      World.RolloutStep(env, before, op);
      Remember(op);
    }

    /** `publish_candidate`. */
    method PublishCandidate(channel: string, revision: Json, base: Json, head: Json, key: string)
      returns (r: Outcome<Json>, ghost op: World.Op)
      requires Valid()
      modifies this
      ensures Valid() && op.CallRollout? && op.key == key && op.request == Publish(channel, revision, base, head)
      ensures history == old(history) + [op] && (State(), r) == World.Step(env, old(State()), op)
    {
      hide World.Step, World.After;
      var prepared := if IsChannel(channel) then Ok(PublishAction(channel, revision, base, head)) else Fail(Invalid);
      r, op := Transact(key, Publish(channel, revision, base, head), prepared, 0);
    }

    /** `assign_candidate`. */
    method AssignCandidate(document: Json, key: string, now: int) returns (r: Outcome<Json>, ghost op: World.Op)
      requires Valid()
      modifies this
      ensures Valid() && op.CallRollout? && op.key == key && op.request == Assign(document) && op.now == now
      ensures history == old(history) + [op] && (State(), r) == World.Step(env, old(State()), op)
    {
      hide World.Step, World.After, SignedAssignment;
      var signed := SignedAssignment(env, document, "candidate", now);
      var prepared := if signed.Fail? then Fail(signed.fault)
                      else Ok(AssignAction(document, signed.value.1, signed.value.0, signed.value.2));
      r, op := Transact(key, Assign(document), prepared, now);
    }

    method PrepareBootstrap(channel: string, document: Json, now: int) returns (prepared: Outcome<Action>)
      ensures prepared == Prepare(env, Contents(), Bootstrap(channel, document), now)
    {
      hide SignedAssignment;
      if !IsChannel(channel) {
        return Fail(Invalid);
      }
      var signed :- SignedAssignment(env, document, "active", now);
      if Get(document, "channel") != Str(channel) {
        return Fail(Conflict);
      }
      return Ok(BootstrapAction(channel, document, signed.1, signed.0, signed.2));
    }

    /** `bootstrap_active`. */
    method BootstrapActive(channel: string, document: Json, key: string, now: int)
      returns (r: Outcome<Json>, ghost op: World.Op)
      requires Valid()
      modifies this
      ensures Valid() && op.CallRollout? && op.key == key && op.request == Bootstrap(channel, document) && op.now == now
      ensures history == old(history) + [op] && (State(), r) == World.Step(env, old(State()), op)
    {
      hide World.Step, World.After, Prepare;
      var prepared := PrepareBootstrap(channel, document, now);
      r, op := Transact(key, Bootstrap(channel, document), prepared, now);
    }

    method PrepareReport(document: Json) returns (prepared: Outcome<Action>)
      ensures forall now :: prepared == Prepare(env, Contents(), Request.Report(document), now)
    {
      hide Bind, Signing.VerifyWithKey, Base64Url.Decode;
      if !document.Obj? {
        return Fail(Broken);
      }
      var sender :- Bind(Get(document, "enrollment_id"));
      var verified: bool;
      if sender.Text? && sender.s in enrollments {
        var enrolled := enrollments[sender.s];
        if enrolled.revoked {
          verified := false;
        } else {
          var publicKey :- Base64Url.Decode(Str(enrolled.publicKey), 32);
          verified := Signing.VerifyWithKey(env.backend, "report", document, Str(enrolled.keyId), publicKey);
        }
      } else {
        verified := env.verify("report", document);
      }
      if !verified {
        return Fail(Invalid);
      }
      var result := Get(document, "result");
      if !Hashable(result) {
        return Fail(Broken);
      }
      if !(result.Str? && result.s in RESULTS) {
        return Fail(Invalid);
      }
      return Ok(ReportAction(document, sender, result.s));
    }

    /** `record_report`. */
    method RecordReport(document: Json, key: string) returns (r: Outcome<Json>, ghost op: World.Op)
      requires Valid()
      modifies this
      ensures Valid() && op.CallRollout? && op.key == key && op.request == Request.Report(document)
      ensures history == old(history) + [op] && (State(), r) == World.Step(env, old(State()), op)
    {
      hide World.Step, World.After, Prepare;
      var prepared := PrepareReport(document);
      r, op := Transact(key, Request.Report(document), prepared, 0);
    }

    method ReadBatch(documents: seq<Json>, now: int) returns (r: Outcome<seq<(Contract, Json)>>)
      ensures r == BatchContracts(env, documents, now)
    {
      hide BatchContract, BatchContracts, Ids;
      var contracts: seq<(Contract, Json)> := [];
      var seen: set<string> := {};
      NothingRead(env, documents[..0], now);
      var i := 0;
      while i < |documents|
        invariant 0 <= i <= |documents|
        invariant BatchContracts(env, documents[..i], now) == Ok(contracts) && seen == Ids(contracts)
      {
        NextContract(env, documents, i, now);
        var contract := BatchContract(env, documents[i], now);
        if contract.Fail? {
          ContractsFailEarly(env, documents, i + 1, now);
          return Fail(contract.fault);
        }
        if contract.value.assignmentId in seen {
          ContractsFailEarly(env, documents, i + 1, now);
          return Fail(Invalid);
        }
        OneMoreId(contracts, (contract.value, documents[i]));
        seen := seen + {contract.value.assignmentId};
        contracts := contracts + [(contract.value, documents[i])];
        i := i + 1;
      }
      assert documents[..i] == documents;
      return Ok(contracts);
    }

    method PreparePromotion(channel: string, candidate: Json, expectedActive: Json, required: seq<Json>, event: Json,
                            batch: Json, now: int) returns (prepared: Outcome<Action>)
      ensures prepared == Prepare(env, Contents(),
                                  Request.Promote(channel, candidate, expectedActive, required, event, batch), now)
    {
      hide PromotionBatch, SignedAssignment, ReportVerified, Bind;
      if !env.verify("promotion", event) {
        return Fail(Invalid);
      }
      var contracts :- DeclaredBatch(event, batch, now);
      return Ok(PromoteAction(channel, candidate, expectedActive, required, event, contracts));
    }

    /** The batch, if there is one, whose identifiers the event declares in order. */
    method DeclaredBatch(event: Json, batch: Json, now: int) returns (r: Outcome<Option<seq<(Contract, Json)>>>)
      ensures r == PromotionBatch(env, event, batch, now)
    {
      hide BatchContracts, Ids, Sorted, Strings;
      if batch == Null {
        return Ok(None);
      }
      if !batch.Arr? || batch.items == [] {
        return Fail(Invalid);
      }
      var contracts :- ReadBatch(batch.items, now);
      if !event.Obj? {
        return Fail(Broken);
      }
      if Get(event, "active_assignment_ids") != Arr(Strings(Sorted(Ids(contracts)))) {
        return Fail(Conflict);
      }
      return Ok(Some(contracts));
    }

    /** `promote`. */
    method Promote(channel: string, candidate: Json, expectedActive: Json, required: seq<Json>, event: Json,
                   key: string, batch: Json, now: int) returns (r: Outcome<Json>, ghost op: World.Op)
      requires Valid()
      modifies this
      ensures Valid() && op.CallRollout? && op.key == key && op.now == now
      ensures op.request == Request.Promote(channel, candidate, expectedActive, required, event, batch)
      ensures history == old(history) + [op] && (State(), r) == World.Step(env, old(State()), op)
    {
      hide World.Step, World.After, Prepare;
      var prepared := PreparePromotion(channel, candidate, expectedActive, required, event, batch, now);
      r, op := Transact(key, Request.Promote(channel, candidate, expectedActive, required, event, batch), prepared,
                        now);
    }

    // ---------- Pairing and enrollments ----------

    /** The transaction around an operation that is not idempotent: the tables are given back when it raises. */
    method Settle(r: Outcome<Json>, saved: Db, ghost before: World.State, ghost op: World.Op, ghost effect: Effect)
      requires before == World.After(env, history) && before.db == saved && files == before.files
               && uploads == before.uploads
      requires World.Step(env, before, op) == World.Apply(before, effect) && Agrees(r, Contents(), effect)
      modifies this
      ensures Valid() && history == old(history) + [op] && (State(), r) == World.Step(env, before, op)
    {
      hide World.Step, World.After;
      if r.Fail? {
        Rollback(saved);
      }
      Remember(op);
    }

    method CreateCodeBody(device: string, channel: string, roles: Json, ttl: int, attempts: int, code: string,
                          tags: Json, now: int, later: int) returns (r: Outcome<Json>)
      modifies this`pairingCodes
      ensures Agrees(r, Contents(),
                     Enrolling.CreateCode(env, old(Contents()), device, channel, roles, ttl, attempts, code, tags, now,
                                          later))
    {
      hide Enrolling.Roles, TargetTags, TagText, Enrolling.PurgeCodes, Strings, Enrolling.PairingDigest;
      if !IsChannel(device) || !IsChannel(channel) {
        return Fail(Invalid);
      }
      var granted :- Enrolling.Roles(roles);
      var targets :- TargetTags(tags);
      if !(30 <= ttl <= 1800) || !(1 <= attempts <= 10) || !IsPairingCode(code) {
        return Fail(Invalid);
      }
      pairingCodes := Enrolling.PurgeCodes(pairingCodes, later);
      var digest := Enrolling.PairingDigest(env, code);
      if digest in pairingCodes {
        return Fail(Conflict);
      }
      pairingCodes := pairingCodes[digest := Pairing(device, channel, TagText(granted), TagText(targets), now + ttl,
                                                     attempts, false)];
      return Ok(Obj(map["code" := Str(code), "logical_device_id" := Str(device), "channel" := Str(channel),
                        "roles" := Arr(Strings(granted)), "target_tags" := Arr(Strings(targets)),
                        "expires_at" := Num(now + ttl)]));
    }

    /** `create_pairing_code`. */
    method CreatePairingCode(device: string, channel: string, roles: Json, ttl: int, attempts: int, code: string,
                             tags: Json, now: int, later: int) returns (r: Outcome<Json>)
      requires Valid()
      modifies this
      ensures var op := World.CreateCode(device, channel, roles, ttl, attempts, code, tags, now, later);
              Valid() && history == old(history) + [op] && (State(), r) == World.Step(env, old(State()), op)
    {
      hide World.Step, World.After, Enrolling.CreateCode;
      ghost var before := State();
      var saved := Contents();
      r := CreateCodeBody(device, channel, roles, ttl, attempts, code, tags, now, later);
      ghost var op := World.CreateCode(device, channel, roles, ttl, attempts, code, tags, now, later);
      World.EnrollingStep(env, before, op);
      Settle(r, saved, before, op, World.EnrollingEffect(env, saved, op));
    }

    /** `SELECT COALESCE(MAX(generation), 0) + 1`. */
    method NextGeneration(device: string) returns (generation: nat)
      ensures generation == Enrolling.Highest(Enrolling.Generations(enrollments, device)) + 1
    {
      ghost var all := Enrolling.Generations(enrollments, device);
      var highest: nat := 0;
      var left := enrollments.Keys;
      while left != {}
        invariant left <= enrollments.Keys
        invariant highest == 0 || highest in all
        invariant forall e :: e in enrollments && e !in left && enrollments[e].device == device ==>
                              enrollments[e].generation <= highest
        decreases left
      {
        var e :| e in left;
        if enrollments[e].device == device && enrollments[e].generation > highest {
          highest := enrollments[e].generation;
        }
        left := left - {e};
      }
      MaximumIs(all, highest);
      return highest + 1;
    }

    method Admit(pairing: Pairing, device: Json, channel: Json, keyId: string, publicKey: string, encryptionKeyId: Json,
                 encryptionKey: Json, now: int, id: string, token: string) returns (r: Outcome<(Enrollment, Json)>)
      ensures r == Enrolling.Admission(env, Contents(), pairing, device, channel, keyId, publicKey, encryptionKeyId,
                                       encryptionKey, now, id, token)
    {
      hide Enrolling.Highest, Enrolling.Generations, Enrolling.Unique, Enrolling.NewEnrollment, Enrolling.PairResponse,
           ReadJson, ReadTags, Enrolling.ToOption;
      var generation := NextGeneration(pairing.device);
      var roles, tags := ReadJson(pairing.roles), ReadTags(pairing.tags);
      if roles.Fail? {
        r := Fail(roles.fault);
      } else if tags.Fail? {
        r := Fail(tags.fault);
      } else {
        var row := Enrolling.NewEnrollment(env, pairing, generation, roles.value, tags.value, keyId, publicKey,
                                           (Enrolling.ToOption(encryptionKeyId), Enrolling.ToOption(encryptionKey)),
                                           token, now);
        r := if !Enrolling.Unique(enrollments, id, row) then Fail(Conflict)
        else Ok((row, Enrolling.PairResponse(env, id, generation, device, channel, roles.value, tags.value, token,
                                             encryptionKeyId)));
      }
    }

    method EnrollBody(digest: string, device: Json, channel: Json, keyId: string, publicKey: string,
                      encryptionKeyId: Json, encryptionKey: Json, now: int, id: string, token: string)
                      returns (r: Outcome<Json>)
      requires digest in pairingCodes
      modifies this`enrollments, this`pairingCodes
      ensures Agrees(r, Contents(), Enrolling.Enroll(env, old(Contents()), digest, device, channel, keyId, publicKey,
                                                     encryptionKeyId, encryptionKey, now, id, token))
    {
      hide Enrolling.Admission;
      var pairing := pairingCodes[digest];
      var admitted :- Admit(pairing, device, channel, keyId, publicKey, encryptionKeyId, encryptionKey, now, id, token);
      enrollments := enrollments[id := admitted.0];
      pairingCodes := pairingCodes[digest := pairing.(consumed := true)];
      return Ok(admitted.1);
    }

    method PairBody(code: Json, device: Json, channel: Json, keyId: Json, publicKey: Json, encryptionKeyId: Json,
                    encryptionKey: Json, now: int, id: string, token: string) returns (r: Outcome<Json>)
      modifies this`enrollments, this`pairingCodes
      ensures Agrees(r, Contents(), Enrolling.Pair(env, old(Contents()), code, device, channel, keyId, publicKey,
                                                   encryptionKeyId, encryptionKey, now, id, token))
    {
      hide Enrolling.PairRequest, Enrolling.PairingDigest, Enrolling.Enroll;
      var _ :- Enrolling.PairRequest(code, device, channel, keyId, publicKey, encryptionKeyId, encryptionKey);
      var digest := Enrolling.PairingDigest(env, code.s);
      if !Enrolling.Usable(pairingCodes, digest, now) {
        r := Fail(Unauthorized);
      } else if Str(pairingCodes[digest].device) != device || Str(pairingCodes[digest].channel) != channel {
        pairingCodes := pairingCodes[digest := pairingCodes[digest].(attempts := pairingCodes[digest].attempts - 1)];
        r := Fail(Unauthorized);
      } else {
        r := EnrollBody(digest, device, channel, keyId.s, publicKey.s, encryptionKeyId, encryptionKey, now, id, token);
      }
    }

    /** `pair`. */
    method PairDevice(code: Json, device: Json, channel: Json, keyId: Json, publicKey: Json, encryptionKeyId: Json,
                      encryptionKey: Json, now: int, id: string, token: string) returns (r: Outcome<Json>)
      requires Valid()
      modifies this
      ensures var op := World.PairDevice(code, device, channel, keyId, publicKey, encryptionKeyId, encryptionKey, now,
                                         id, token);
              Valid() && history == old(history) + [op] && (State(), r) == World.Step(env, old(State()), op)
    {
      hide World.Step, World.After, Enrolling.Pair;
      ghost var before := State();
      var saved := Contents();
      r := PairBody(code, device, channel, keyId, publicKey, encryptionKeyId, encryptionKey, now, id, token);
      ghost var op := World.PairDevice(code, device, channel, keyId, publicKey, encryptionKeyId, encryptionKey, now, id,
                                       token);
      World.EnrollingStep(env, before, op);
      Settle(r, saved, before, op, World.EnrollingEffect(env, saved, op));
    }

    method RegisterKeyBody(id: Json, token: Json, generation: Json, keyId: Json, key: Json) returns (r: Outcome<Json>)
      modifies this`enrollments
      ensures Agrees(r, Contents(), Enrolling.RegisterKey(env, old(Contents()), id, token, generation, keyId, key))
    {
      hide Enrolling.Authenticate, IsKeyId, Base64Url.Decode;
      if !(keyId.Str? && IsKeyId(keyId.s)) {
        return Fail(Invalid);
      }
      var _ :- Base64Url.Decode(key, 32);
      var row :- Enrolling.Authenticate(env, Contents(), id, token, "read");
      if Num(row.generation) != generation {
        return Fail(Conflict);
      }
      var requested := (Some(keyId.s), Enrolling.ToOption(key));
      var response := map["enrollment_id" := id, "enrollment_generation" := generation, "encryption_key_id" := keyId];
      if row.encryption == requested {
        return Ok(Obj(response["status" := Str("unchanged")]));
      }
      if Enrolling.Truthy(row.encryption.0) || Enrolling.Truthy(row.encryption.1) {
        return Fail(Conflict);
      }
      enrollments := enrollments[id.s := row.(encryption := requested)];
      return Ok(Obj(response["status" := Str("registered")]));
    }

    /** `register_encryption_key`. */
    method RegisterEncryptionKey(id: Json, token: Json, generation: Json, keyId: Json, key: Json)
      returns (r: Outcome<Json>)
      requires Valid()
      modifies this
      ensures var op := World.RegisterKey(id, token, generation, keyId, key);
              Valid() && history == old(history) + [op] && (State(), r) == World.Step(env, old(State()), op)
    {
      hide World.Step, World.After, Enrolling.RegisterKey;
      ghost var before := State();
      var saved := Contents();
      r := RegisterKeyBody(id, token, generation, keyId, key);
      ghost var op := World.RegisterKey(id, token, generation, keyId, key);
      World.EnrollingStep(env, before, op);
      Settle(r, saved, before, op, World.EnrollingEffect(env, saved, op));
    }

    method HeartbeatBody(document: Json, token: Json, now: int) returns (r: Outcome<Json>)
      modifies this`enrollments
      ensures Agrees(r, Contents(), Enrolling.Heartbeat(env, old(Contents()), document, token, now))
    {
      hide Enrolling.Beat, Enrolling.Authenticate;
      var presence :- Enrolling.Beat(env, Contents(), document, token, now);
      var id := Get(document, "enrollment_id").s;
      enrollments := enrollments[id := enrollments[id].(presence := presence)];
      return Ok(Obj(map["enrollment_id" := Str(id), "status" := Str("ok"), "revoked" := Bool(false)]));
    }

    /** `heartbeat`. */
    method Heartbeat(document: Json, token: Json, now: int) returns (r: Outcome<Json>)
      requires Valid()
      modifies this
      ensures var op := World.Op.Heartbeat(document, token, now);
              Valid() && history == old(history) + [op] && (State(), r) == World.Step(env, old(State()), op)
    {
      hide World.Step, World.After, Enrolling.Heartbeat;
      ghost var before := State();
      var saved := Contents();
      r := HeartbeatBody(document, token, now);
      ghost var op := World.Op.Heartbeat(document, token, now);
      World.EnrollingStep(env, before, op);
      Settle(r, saved, before, op, World.EnrollingEffect(env, saved, op));
    }

    /** `revoke_enrollment`. */
    method RevokeEnrollment(id: string) returns (r: Outcome<Json>)
      requires Valid()
      modifies this
      ensures var op := World.Revoke(id);
              Valid() && history == old(history) + [op] && (State(), r) == World.Step(env, old(State()), op)
    {
      hide World.Step, World.After;
      ghost var before := State();
      var saved := Contents();
      if id in enrollments {
        enrollments := enrollments[id := enrollments[id].(revoked := true)];
        r := Ok(Obj(map["enrollment_id" := Str(id), "revoked" := Bool(true)]));
      } else {
        r := Fail(NotFound);
      }
      ghost var op := World.Revoke(id);
      World.EnrollingStep(env, before, op);
      Settle(r, saved, before, op, World.EnrollingEffect(env, saved, op));
    }

    // ---------- Administration ----------

    method AuthorizeBody(document: Json, operation: string, key: string, now: int) returns (r: Outcome<Json>)
      modifies this`adminRequests
      ensures Agrees(r, Contents(), Administration.Authorize(env, old(Contents()), document, operation, key, now))
    {
      hide Administration.Admit, Administration.PurgeRequests;
      var use :- Administration.Admit(env, document, operation, key, now);
      adminRequests := Administration.PurgeRequests(adminRequests, now);
      var slot := (use.actor, use.nonce);
      if slot in adminRequests {
        if adminRequests[slot].requestDigest != use.requestDigest {
          return Fail(Conflict);
        }
      } else {
        adminRequests := adminRequests[slot := AdminRequest(use.requestDigest, use.expiresAt)];
      }
      return Ok(Get(document, "payload"));
    }

    /** `authorize_admin_request`. */
    method AuthorizeAdminRequest(document: Json, operation: string, key: string, now: int) returns (r: Outcome<Json>)
      requires Valid()
      modifies this
      ensures var op := World.Authorize(document, operation, key, now);
              Valid() && history == old(history) + [op] && (State(), r) == World.Step(env, old(State()), op)
    {
      hide World.Step, World.After, World.Apply, Agrees, Administration.Authorize;
      ghost var before := State();
      var saved := Contents();
      r := AuthorizeBody(document, operation, key, now);
      ghost var op := World.Authorize(document, operation, key, now);
      World.AuthorizeStep(env, before, op);
      Settle(r, saved, before, op, Administration.Authorize(env, saved, document, operation, key, now));
    }

    // ---------- Revisions ----------

    /** `put_revision` up to its SELECT; the insert is a step of its own. */
    method BeginRevision(caller: nat, manifest: Json) returns (r: Outcome<Json>)
      requires Valid()
      modifies this
      ensures var op := World.BeginRevision(caller, manifest);
              Valid() && history == old(history) + [op] && (State(), r) == World.Step(env, old(State()), op)
    {
      hide World.Step, World.After, ValidateRevision, Dumps;
      ghost var before := State();
      if caller in uploads || !env.verify("revision", manifest) {
        r := Fail(Invalid);
      } else {
        var id := ValidateRevision(env.digest, manifest);
        if id.Fail? {
          r := Fail(id.fault);
        } else if id.value in revisions && revisions[id.value] != Dumps(manifest) {
          r := Fail(Conflict);
        } else {
          uploads := uploads[caller := (id.value, Dumps(manifest))];
          r := Ok(Null);
        }
      }
      ghost var op := World.BeginRevision(caller, manifest);
      UploadSteps(env, before, op);
      Remember(op);
    }

    /** The `INSERT OR IGNORE` of `put_revision`. */
    method EndRevision(caller: nat) returns (r: Outcome<Json>)
      requires Valid()
      modifies this
      ensures var op := World.EndRevision(caller);
              Valid() && history == old(history) + [op] && (State(), r) == World.Step(env, old(State()), op)
    {
      hide World.Step, World.After;
      ghost var before := State();
      if caller !in uploads {
        r := Fail(Broken);
      } else {
        var (id, payload) := uploads[caller];
        if id !in revisions {
          revisions := revisions[id := payload];
        }
        uploads := uploads - {caller};
        r := Ok(Obj(map["revision_id" := Str(id)]));
      }
      ghost var op := World.EndRevision(caller);
      UploadSteps(env, before, op);
      Remember(op);
    }

    // ---------- Blobs ----------

    /** `SELECT COALESCE(SUM(size), 0)`. */
    method StoredBytes() returns (total: nat)
      ensures total == Blobs.Total(blobs)
    {
      hide Blobs.Total;
      total := 0;
      var left := blobs.Keys;
      NoBytes(blobs - left);
      while left != {}
        invariant left <= blobs.Keys && total == Blobs.Total(blobs - left)
        decreases left
      {
        var d :| d in left;
        Blobs.TotalInsert(blobs - left, d, blobs[d]);
        assert (blobs - left)[d := blobs[d]] == blobs - (left - {d});
        total := total + blobs[d].size;
        left := left - {d};
      }
      assert blobs - left == blobs;
    }

    /** The transaction of `put_blob`; the process may die before or after it links the file. */
    method PutBody(put: Blobs.Put, space: bool, now: int, crash: Blobs.Crash) returns (r: Outcome<Json>)
      modifies this`blobs, this`files
      ensures var (db, tree, outcome) := Blobs.PutAdmitted(old(Contents()), old(files), put, space, now, crash);
              r == outcome && files == tree && (r.Ok? ==> Contents() == db)
    {
      hide Blobs.PutResponse, Blobs.Total;
      if put.digest in blobs {
        if blobs[put.digest].size != |put.payload| || blobs[put.digest].mediaType != put.media
           || put.digest !in files || files[put.digest] != put.payload {
          return Fail(Conflict);
        }
        return Ok(Blobs.PutResponse(put, false));
      }
      var total := StoredBytes();
      if total + |put.payload| > Blobs.MAX_STORE || !space {
        return Fail(Conflict);
      }
      if crash == Blobs.BeforeLink {
        return Fail(Crashed);
      }
      if put.digest in files {
        return Fail(Conflict);
      }
      files := files[put.digest := put.payload];
      if crash == Blobs.AfterLink {
        return Fail(Crashed);
      }
      blobs := blobs[put.digest := BlobRow(|put.payload|, put.media, now)];
      return Ok(Blobs.PutResponse(put, true));
    }

    /** What is left when that transaction ends: rows given back on a failure, uploads lost with the process, files
        kept. */
    method PutTransaction(put: Blobs.Put, space: bool, now: int, crash: Blobs.Crash) returns (r: Outcome<Json>)
      modifies this
      ensures var (db, tree, outcome) := Blobs.PutAdmitted(old(Contents()), old(files), put, space, now, crash);
              r == outcome && State() == World.State(db, tree, if r == Fail(Crashed) then map[] else old(uploads))
      ensures history == old(history)
    {
      hide Blobs.PutAdmitted;
      var saved := Contents();
      r := PutBody(put, space, now, crash);
      if r.Fail? {
        Blobs.FailedPut(saved, old(files), put, space, now, crash);
        Rollback(saved);
      }
      if r == Fail(Crashed) {
        uploads := map[];
      }
    }

    /** `put_blob`. */
    method PutBlob(digest: string, payload: Bytes, media: Json, space: bool, now: int, crash: Blobs.Crash)
      returns (r: Outcome<Json>)
      requires Valid()
      modifies this
      ensures var op := World.Op.PutBlob(digest, payload, media, space, now, crash);
              Valid() && history == old(history) + [op] && (State(), r) == World.Step(env, old(State()), op)
    {
      hide World.Step, World.After, Blobs.Admissible, Blobs.PutAdmitted, Blobs.PutBlob;
      ghost var before := State();
      ghost var op := World.Op.PutBlob(digest, payload, media, space, now, crash);
      World.PutStep(env, before, op);
      var put := Blobs.Admissible(env, digest, payload, media);
      if put.Fail? {
        r := Fail(put.fault);
      } else {
        r := PutTransaction(put.value, space, now, crash);
      }
      Remember(op);
    }
  }

  lemma PreparedCall(env: Env, db: Db, key: string, request: Request, now: int)
    ensures forall ties :: Call(env, db, key, request, now, ties) ==
              if Prepare(env, db, request, now).Fail? then (db, Fail(Prepare(env, db, request, now).fault))
              else Once(env, db, key, Operation(request), Prepare(env, db, request, now).value, ties)
  {
    hide Prepare, Once;
  }

  lemma FailedOnce(env: Env, db: Db, key: string, operation: string, action: Action, ties: map<string, string>)
    requires Once(env, db, key, operation, action, ties).1.Fail?
    ensures Once(env, db, key, operation, action, ties).0 == db
  {
    hide Execute, ReadJson;
  }

  lemma NothingChosen(db: Db, required: seq<Json>, channel: string, candidate: Json)
    requires required == []
    ensures ChosenNewest(db, channel, candidate, map[]) && AllPassed(db, required, channel, candidate, map[])
  {
  }

  lemma NothingToInsert(rows: map<string, Assignment>, batch: seq<(Contract, Json)>)
    requires batch == []
    ensures Insertable(rows, batch)
  {
  }

  lemma NothingInserted(cleared: map<string, Assignment>, batch: seq<(Contract, Json)>, channel: string,
                        revision: string)
    ensures Inserted(cleared, cleared, batch, 0, channel, revision)
  {
  }

  lemma ChosenDecides(db: Db, e: string, channel: string, candidate: string, chosen: map<string, string>)
    requires ChosenNewest(db, channel, Str(candidate), chosen) && e in chosen
    ensures (e, chosen[e]) in db.assignmentReports
    ensures Decides(db, Text(e), channel, Str(candidate), chosen, Some(db.assignmentReports[(e, chosen[e])].result))
  {
  }

  lemma NothingRead(env: Env, documents: seq<Json>, now: int)
    requires documents == []
    ensures BatchContracts(env, documents, now) == Ok([]) && Ids([]) == {}
  {
  }

  lemma MaximumIs(s: set<nat>, m: nat)
    requires (m == 0 || m in s) && forall n :: n in s ==> n <= m
    ensures Enrolling.Highest(s) == m
  {
  }

  lemma NoBytes(rows: map<string, BlobRow>)
    requires rows.Keys == {}
    ensures Blobs.Total(rows) == 0
  {
  }

  lemma UploadSteps(env: Env, s: World.State, op: World.Op)
    ensures op.BeginRevision? ==> World.Step(env, s, op) == World.BeginUpload(env, s, op.caller, op.manifest)
    ensures op.EndRevision? ==> World.Step(env, s, op) == World.EndUpload(s, op.caller)
  {
    hide Call, Administration.Authorize, Blobs.PutBlob, World.EnrollingEffect, World.BeginUpload, World.EndUpload;
  }

  /** Everything that runs keep true holds of the fields of a store, whatever was called. */
  lemma StoreIsSound(store: ProfileStore)
    requires store.Valid()
    ensures Consistent(store.env, store.Contents())
    ensures EnrollmentHistory.EnrollmentsSound(store.enrollments)
    ensures RevisionHistory.RevisionsSound(store.env, store.State())
    ensures Blobs.BlobsSound(store.env.digest, store.blobs, store.files)
  {
    hide World.After, Consistent, EnrollmentHistory.EnrollmentsSound, RevisionHistory.RevisionsSound, Blobs.BlobsSound;
    World.AlwaysConsistent(store.env, store.history);
    EnrollmentHistory.EnrollmentsAlwaysSound(store.env, store.history);
    RevisionHistory.RevisionsAlwaysSound(store.env, store.history);
    Backups.BlobsAlwaysSound(store.env, store.history);
  }
}
