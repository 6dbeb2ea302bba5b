/** When an assignment and a bootstrap go through, and when only the database refuses them. */
module Assigning {
  import opened Json
  import opened JsonText
  import opened Formats
  import opened Documents
  import opened Tables
  import opened Rollout
  import opened RolloutInvariant
  import opened World

  /** The document passes the checks made before the idempotency key is looked up. */
  predicate SignedFor(env: Env, document: Json, kind: string, now: int) {
    && env.verify("assignment", document) && document.Obj?
    && (Get(document, "schema") == Num(2) ==> ValidateAssignment(env.digest, document, kind, Some(now)).Ok?)
    && TargetTags(GetOr(document, "target_tags", Arr([]))).Ok?
    && Get(document, "enrollment_id").Str? && IsEnrollment(Get(document, "enrollment_id").s)
  }

  /** What those checks hand on is the document's own. */
  predicate HandedOn(document: Json, contract: Option<Contract>, e: string, tags: seq<string>) {
    && document.Obj? && Get(document, "enrollment_id") == Str(e)
    && TargetTags(GetOr(document, "target_tags", Arr([]))) == Ok(tags)
    && (contract.Some? <==> Get(document, "schema") == Num(2))
    && (contract.Some? ==>
         && Get(document, "enrollment_generation") == Num(contract.value.enrollmentGeneration)
         && Get(document, "channel_generation") == Num(contract.value.channelGeneration)
         && Get(document, "assignment_id") == Str(contract.value.assignmentId)
         && Get(document, "apply_policy") == Str(contract.value.policy))
  }

  lemma SignedExactly(env: Env, document: Json, kind: string, now: int)
    ensures var r := SignedAssignment(env, document, kind, now);
            && (r.Ok? <==> SignedFor(env, document, kind, now)) && r != Fail(Integrity)
            && (r.Ok? ==> HandedOn(document, r.value.0, r.value.1, r.value.2))
  {
    hide TargetTags, IsEnrollment, ValidateAssignment;
    TagFaults(if document.Obj? then GetOr(document, "target_tags", Arr([])) else Null);
    if document.Obj? {
      ContractTerms(env.digest, document, kind, now);
    }
  }

  lemma TagFaults(tags: Json)
    ensures TargetTags(tags) != Fail(Integrity)
  {
    hide GoodTags;
  }

  lemma ContractTerms(digest: Digest, document: Json, kind: string, now: int)
    requires document.Obj?
    ensures var r := ValidateAssignment(digest, document, kind, Some(now));
            && r != Fail(Integrity)
            && (r.Ok? ==> Get(document, "enrollment_generation") == Num(r.value.enrollmentGeneration)
                          && Get(document, "channel_generation") == Num(r.value.channelGeneration)
                          && Get(document, "assignment_id") == Str(r.value.assignmentId)
                          && Get(document, "apply_policy") == Str(r.value.policy))
  {
    hide TargetTags, IsEnrollment, IsDigest, IsChannel, IsNonce, ContentId, AssignmentIdentity, Matches;
    TagFaults(GetOr(document, "target_tags", Arr([])));
  }

  /** The enrollment is not revoked, has the document's channel and tags, and for schema 2 both generations. */
  predicate Suits(row: Enrollment, document: Json, generation: nat)
    requires document.Obj?
  {
    && !row.revoked && Get(document, "channel") == Str(row.channel)
    && ReadTags(row.tags) == TargetTags(GetOr(document, "target_tags", Arr([])))
    && (Get(document, "schema") == Num(2) ==>
         && Get(document, "enrollment_generation") == Num(row.generation)
         && Get(document, "channel_generation") == Num(generation))
  }

  lemma EligibleExactly(row: Enrollment, document: Json, contract: Option<Contract>, e: string, tags: seq<string>,
                        generation: nat)
    requires HandedOn(document, contract, e, tags)
    ensures var r := Eligible(row, Get(document, "channel"), tags, contract, generation);
            (r.Ok? <==> Suits(row, document, generation)) && r != Fail(Integrity)
  {
    hide TargetTags, ReadTags;
    StoredTagFaults(row.tags);
  }

  lemma StoredTagFaults(text: string)
    ensures ReadTags(text) != Fail(Integrity)
  {
    hide TargetTags;
    if ReadJson(text).Ok? {
      TagFaults(ReadJson(text).value);
    }
  }

  /** What a schema 2 assignment adds to its answer. */
  function ModernFields(document: Json): map<string, Json>
    requires document.Obj?
  {
    if Get(document, "schema") == Num(2) then
      map["assignment_id" := Get(document, "assignment_id"),
          "channel_generation" := Get(document, "channel_generation"), "apply_policy" := Get(document, "apply_policy")]
    else map[]
  }

  lemma ContractAnswer(document: Json, contract: Option<Contract>, e: string, tags: seq<string>)
    requires HandedOn(document, contract, e, tags)
    ensures ContractFields(contract) == ModernFields(document)
  {
    hide TargetTags;
  }

  function TagsOf(document: Json): seq<string>
    requires document.Obj?
  {
    var tags := TargetTags(GetOr(document, "target_tags", Arr([])));
    if tags.Ok? then tags.value else []
  }

  // ---------- Assigning ----------

  /** Everything the code itself asks of an assignment. The comparison of heads passes when both are null. */
  predicate AssignFits(env: Env, db: Db, key: string, document: Json, now: int) {
    && SignedFor(env, document, "candidate", now) && FreshKey(db, key)
    && var c := Bind(Get(document, "channel"));
    && c.Ok? && c.value.Text? && c.value.s in db.channels
    && FromOption(db.channels[c.value.s].candidate) == Get(document, "revision_id")
    && var e := Get(document, "enrollment_id").s;
    && if e in db.enrollments then Suits(db.enrollments[e], document, db.channels[c.value.s].generation)
       else Get(document, "schema") != Num(2)
  }

  /** The answer repeats the document, with its tags in order. */
  function AssignAnswer(document: Json): Json
    requires document.Obj?
  {
    Obj(map["enrollment_id" := Get(document, "enrollment_id"), "channel" := Get(document, "channel"),
            "revision_id" := Get(document, "revision_id"), "assignment_kind" := Str("candidate"),
            "target_tags" := Arr(Strings(TagsOf(document)))] + ModernFields(document))
  }

  /** The enrollment's row holds the document, on its channel and for its revision; nothing else changes but the
      remembered key. */
  predicate AssignLeft(db: Db, after: Db, key: string, document: Json, answer: Json) {
    && document.Obj? && Get(document, "revision_id").Str? && Get(document, "enrollment_id").Str?
    && Bind(Get(document, "channel")).Ok? && Bind(Get(document, "channel")).value.Text?
    && var row := Assignment(Bind(Get(document, "channel")).value.s, Get(document, "revision_id").s, "candidate",
                             Dumps(document));
    && answer == AssignAnswer(document)
    && after == db.(assignments := db.assignments[Get(document, "enrollment_id").s := row],
                    idempotency := db.idempotency[key := Remembered("assign_candidate", Dumps(answer))])
  }

  lemma AssignLeaves(env: Env, db: Db, key: string, document: Json, contract: Option<Contract>, e: string,
                     tags: seq<string>)
    requires HandedOn(document, contract, e, tags) && DoAssign(db, document, e, contract, tags).Ok?
    ensures var (after, answer) := DoAssign(db, document, e, contract, tags).value;
            var remembered := db.idempotency[key := Remembered("assign_candidate", Dumps(answer))];
            AssignLeft(db, after.(idempotency := remembered), key, document, answer)
  {
    hide Eligible, TargetTags, Dumps, ContractFields, Strings, ModernFields;
    ContractAnswer(document, contract, e, tags);
  }

  lemma CommitsAssign(env: Env, db: Db, key: string, document: Json, now: int, ties: map<string, string>)
    requires SignedAssignment(env, document, "candidate", now).Ok?
    ensures document.Obj?
    ensures var (contract, e, tags) := SignedAssignment(env, document, "candidate", now).value;
            var effect := DoAssign(db, document, e, contract, tags);
            FreshKey(db, key) && effect.Ok? ==>
              var remembered := db.idempotency[key := Remembered("assign_candidate", Dumps(effect.value.1))];
              Call(env, db, key, Assign(document), now, ties) ==
              (effect.value.0.(idempotency := remembered), Ok(effect.value.1))
  {
    hide SignedAssignment, DoAssign, Dumps;
    var (contract, e, tags) := SignedAssignment(env, document, "candidate", now).value;
    if DoAssign(db, document, e, contract, tags).Ok? {
      AssignTouches(db, document, e, contract, tags);
    }
  }

  lemma AssignActs(env: Env, db: Db, document: Json, contract: Option<Contract>, e: string, tags: seq<string>)
    requires PointersStored(db) && HandedOn(document, contract, e, tags)
    ensures var r := DoAssign(db, document, e, contract, tags);
            var c := Bind(Get(document, "channel"));
            var fits :=
              && c.Ok? && c.value.Text? && c.value.s in db.channels
              && FromOption(db.channels[c.value.s].candidate) == Get(document, "revision_id")
              && if e in db.enrollments then Suits(db.enrollments[e], document, db.channels[c.value.s].generation)
                 else Get(document, "schema") != Num(2);
            && (r.Ok? <==> fits && Get(document, "revision_id") != Null)
            && (r == Fail(Integrity) <==> fits && Get(document, "revision_id") == Null)
  {
    hide Suits, Eligible, TargetTags, Dumps, ContractFields, Strings;
    var c := Bind(Get(document, "channel"));
    if c.Ok? && c.value.Text? && c.value.s in db.channels && e in db.enrollments {
      EligibleExactly(db.enrollments[e], document, contract, e, tags, db.channels[c.value.s].generation);
    }
  }

  lemma HandedOnNames(document: Json, contract: Option<Contract>, e: string, tags: seq<string>)
    requires HandedOn(document, contract, e, tags)
    ensures document.Obj? && Get(document, "enrollment_id") == Str(e)
  {
  }

  lemma ReplayFaults(db: Db, key: string)
    requires key in db.idempotency
    ensures ReadJson(db.idempotency[key].response) != Fail(Integrity)
  {
  }

  /** In every reachable state an assignment commits exactly when it fits and names a revision; when it fits and the
      channel has no candidate, nothing but the NOT NULL column refuses it. */
  lemma AssignsExactly(env: Env, ops: seq<Op>, key: string, document: Json, now: int, ties: map<string, string>)
    ensures var db := After(env, ops).db;
            && (Commits(env, db, key, Assign(document), now, ties) <==>
                AssignFits(env, db, key, document, now) && Get(document, "revision_id") != Null)
            && (Call(env, db, key, Assign(document), now, ties).1 == Fail(Integrity) <==>
                AssignFits(env, db, key, document, now) && Get(document, "revision_id") == Null)
            && (AssignFits(env, db, key, document, now) && Get(document, "revision_id") != Null ==>
                 var (after, r) := Call(env, db, key, Assign(document), now, ties);
                 r.Ok? && AssignLeft(db, after, key, document, r.value))
  {
    hide AssignLeft, After, SignedAssignment, SignedFor, DoAssign, Suits, Bind, RowFits, HandedOn, ReadJson, Dumps;
    var db := After(env, ops).db;
    AlwaysConsistent(env, ops);
    if key in db.idempotency {
      ReplayFaults(db, key);
    }
    SignedExactly(env, document, "candidate", now);
    if SignedFor(env, document, "candidate", now) {
      var (contract, e, tags) := SignedAssignment(env, document, "candidate", now).value;
      HandedOnNames(document, contract, e, tags);
      AssignActs(env, db, document, contract, e, tags);
      CommitsAssign(env, db, key, document, now, ties);
      if DoAssign(db, document, e, contract, tags).Ok? {
        AssignLeaves(env, db, key, document, contract, e, tags);
      }
    }
  }

  // ---------- Bootstrapping ----------

  /** Everything the code itself asks of a bootstrap: unlike an assignment it needs a registered enrollment, whatever
      the schema. */
  predicate BootstrapFits(env: Env, db: Db, key: string, channel: string, document: Json, now: int) {
    && SignedFor(env, document, "active", now) && FreshKey(db, key)
    && IsChannel(channel) && Get(document, "channel") == Str(channel) && channel in db.channels
    && FromOption(db.channels[channel].active) == Get(document, "revision_id")
    && var e := Get(document, "enrollment_id").s;
    && e in db.enrollments && Suits(db.enrollments[e], document, db.channels[channel].generation)
  }

  /** The answer repeats the document and says where it came from; a legacy document is kept as a candidate. */
  function BootstrapAnswer(document: Json): Json
    requires document.Obj?
  {
    Obj(map["enrollment_id" := Get(document, "enrollment_id"), "channel" := Get(document, "channel"),
            "revision_id" := Get(document, "revision_id"),
            "assignment_kind" := Str(if Get(document, "schema") == Num(2) then "active" else "candidate"),
            "assignment_source" := Str("active-bootstrap"), "target_tags" := Arr(Strings(TagsOf(document)))]
        + ModernFields(document))
  }

  predicate BootstrapLeft(db: Db, after: Db, key: string, channel: string, document: Json, answer: Json) {
    && document.Obj? && Get(document, "revision_id").Str? && Get(document, "enrollment_id").Str?
    && var kind := if Get(document, "schema") == Num(2) then "active" else "candidate";
    && var row := Assignment(channel, Get(document, "revision_id").s, kind, Dumps(document));
    && answer == BootstrapAnswer(document)
    && after == db.(assignments := db.assignments[Get(document, "enrollment_id").s := row],
                    idempotency := db.idempotency[key := Remembered("bootstrap_active", Dumps(answer))])
  }

  lemma BootstrapLeaves(env: Env, db: Db, key: string, channel: string, document: Json, contract: Option<Contract>,
                        e: string, tags: seq<string>)
    requires HandedOn(document, contract, e, tags) && DoBootstrap(db, channel, document, e, contract, tags).Ok?
    requires Get(document, "channel") == Str(channel)
    ensures var (after, answer) := DoBootstrap(db, channel, document, e, contract, tags).value;
            var remembered := db.idempotency[key := Remembered("bootstrap_active", Dumps(answer))];
            BootstrapLeft(db, after.(idempotency := remembered), key, channel, document, answer)
  {
    hide Eligible, TargetTags, Dumps, ContractFields, Strings, ModernFields;
    ContractAnswer(document, contract, e, tags);
  }

  lemma CommitsBootstrap(env: Env, db: Db, key: string, channel: string, document: Json, now: int,
                         ties: map<string, string>)
    requires SignedAssignment(env, document, "active", now).Ok? && IsChannel(channel)
    ensures document.Obj?
    ensures var (contract, e, tags) := SignedAssignment(env, document, "active", now).value;
            var effect := DoBootstrap(db, channel, document, e, contract, tags);
            FreshKey(db, key) && effect.Ok? && Get(document, "channel") == Str(channel) ==>
              var remembered := db.idempotency[key := Remembered("bootstrap_active", Dumps(effect.value.1))];
              Call(env, db, key, Bootstrap(channel, document), now, ties) ==
              (effect.value.0.(idempotency := remembered), Ok(effect.value.1))
  {
    hide SignedAssignment, DoBootstrap, Dumps, IsChannel;
    var (contract, e, tags) := SignedAssignment(env, document, "active", now).value;
    if DoBootstrap(db, channel, document, e, contract, tags).Ok? {
      BootstrapTouches(db, channel, document, e, contract, tags);
    }
  }

  lemma BootstrapActs(env: Env, db: Db, channel: string, document: Json, contract: Option<Contract>, e: string,
                      tags: seq<string>)
    requires PointersStored(db) && HandedOn(document, contract, e, tags) && Get(document, "channel") == Str(channel)
    ensures var r := DoBootstrap(db, channel, document, e, contract, tags);
            var fits :=
              && channel in db.channels && FromOption(db.channels[channel].active) == Get(document, "revision_id")
              && e in db.enrollments && Suits(db.enrollments[e], document, db.channels[channel].generation);
            && (r.Ok? <==> fits && Get(document, "revision_id") != Null)
            && (r == Fail(Integrity) <==> fits && Get(document, "revision_id") == Null)
  {
    hide Suits, Eligible, TargetTags, Dumps, ContractFields, Strings;
    if channel in db.channels && e in db.enrollments {
      EligibleExactly(db.enrollments[e], document, contract, e, tags, db.channels[channel].generation);
    }
  }

  /** In every reachable state a bootstrap commits exactly when it fits and names a revision; when it fits and the
      channel has no active revision, nothing but the NOT NULL column refuses it. */
  lemma BootstrapsExactly(env: Env, ops: seq<Op>, key: string, channel: string, document: Json, now: int,
                          ties: map<string, string>)
    ensures var db := After(env, ops).db;
            && (Commits(env, db, key, Bootstrap(channel, document), now, ties) <==>
                BootstrapFits(env, db, key, channel, document, now) && Get(document, "revision_id") != Null)
            && (Call(env, db, key, Bootstrap(channel, document), now, ties).1 == Fail(Integrity) <==>
                BootstrapFits(env, db, key, channel, document, now) && Get(document, "revision_id") == Null)
            && (BootstrapFits(env, db, key, channel, document, now) && Get(document, "revision_id") != Null ==>
                 var (after, r) := Call(env, db, key, Bootstrap(channel, document), now, ties);
                 r.Ok? && BootstrapLeft(db, after, key, channel, document, r.value))
  {
    hide BootstrapLeft, After, SignedAssignment, SignedFor, DoBootstrap, Suits, IsChannel, RowFits, HandedOn, ReadJson,
         Dumps;
    var db := After(env, ops).db;
    AlwaysConsistent(env, ops);
    if key in db.idempotency {
      ReplayFaults(db, key);
    }
    SignedExactly(env, document, "active", now);
    if SignedFor(env, document, "active", now) {
      var (contract, e, tags) := SignedAssignment(env, document, "active", now).value;
      HandedOnNames(document, contract, e, tags);
      if Get(document, "channel") == Str(channel) {
        BootstrapActs(env, db, channel, document, contract, e, tags);
        if IsChannel(channel) && DoBootstrap(db, channel, document, e, contract, tags).Ok? {
          CommitsBootstrap(env, db, key, channel, document, now, ties);
          BootstrapLeaves(env, db, key, channel, document, contract, e, tags);
        }
      }
    }
  }
}
