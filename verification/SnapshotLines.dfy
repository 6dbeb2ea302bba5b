/** What a line of the rollout snapshot says about its assignment. */
module SnapshotLines {
  import opened Json
  import opened JsonText
  import opened Documents
  import opened Tables
  import opened Rollout
  import opened RolloutInvariant
  import opened World
  import opened Snapshot
  import opened Reporting

  /** The fields that a line shares with the document it is about. */
  const SHARED := {"assignment_id", "assignment_kind", "enrollment_id", "enrollment_generation", "channel",
                   "revision_id", "apply_policy", "issued_at", "expires_at"}

  lemma LineFields(line: Line)
    ensures var json := LineJson(line);
            && json.Obj? && json.fields.Keys == SHARED + {"logical_device_id", "report_result"}
            && Get(json, "assignment_id") == line.assignmentId && Get(json, "assignment_kind") == Str(line.kind)
            && Get(json, "enrollment_id") == Str(line.enrollment) && Get(json, "channel") == Str(line.channel)
  {
  }

  lemma MoreLineFields(line: Line)
    ensures var json := LineJson(line);
            && json.Obj? && Get(json, "revision_id") == Str(line.revision) && Get(json, "apply_policy") == line.policy
            && Get(json, "issued_at") == line.issuedAt && Get(json, "expires_at") == line.expiresAt
            && Get(json, "enrollment_generation") ==
               (if line.generation.Some? then Num(line.generation.value) else Null)
  {
  }

  lemma LastLineFields(line: Line)
    ensures var json := LineJson(line);
            && json.Obj? && Get(json, "logical_device_id") == FromOption(line.device)
            && Get(json, "report_result") == FromOption(line.result)
  {
  }

  /** What the row of a schema 2 assignment has is what its document says. */
  lemma HeldTerms(env: Env, db: Db, e: string)
    requires Consistent(env, db) && e in db.assignments && SchemaTwo(db.assignments[e])
    ensures var row := db.assignments[e];
            var held := HeldDocument(row);
            && held.Obj? && ReadJson(row.document) == Ok(held)
            && Get(held, "assignment_id").Str? && Get(held, "assignment_kind") == Str(row.kind)
            && Get(held, "enrollment_id") == Str(e) && Get(held, "channel") == Str(row.channel)
            && Get(held, "revision_id") == Str(row.revision) && e in db.enrollments
            && Get(held, "enrollment_generation") == Num(db.enrollments[e].generation)
  {
    hide ValidateAssignment, ReadTags, Get, Loads;
    var row := db.assignments[e];
    assert RowFits(env, db, e, row);
    RowContract(env, db, e);
    AssignmentAccepted(env.digest, HeldDocument(row), row.kind, None, StoredContract(env, row).value.value);
  }

  /** Wherever the SELECTs fall in a run, the line of a schema 2 assignment has eleven fields: nine are exactly what its
      signed document says, and the others are the device of its enrollment and the result. */
  lemma ShownAsSigned(env: Env, ops: seq<Op>, i: nat, j: nat, k: nat, index: Index, e: string)
    requires i <= j <= k <= |ops|
    requires e in DbAt(env, ops, i).assignments && SchemaTwo(DbAt(env, ops, i).assignments[e])
    ensures var db := DbAt(env, ops, i);
            var line := ReadLine(db, DbAt(env, ops, k), index, e);
            && line.Ok? && e in db.enrollments && HeldDocument(db.assignments[e]).Obj?
            && var json, held := LineJson(line.value), HeldDocument(db.assignments[e]);
            && json.Obj? && json.fields.Keys == SHARED + {"logical_device_id", "report_result"}
            && (forall field :: field in SHARED ==> Get(json, field) == Get(held, field))
            && Get(json, "logical_device_id") == Str(db.enrollments[e].device)
            && Get(json, "report_result") == FromOption(line.value.result)
  {
    hide After, Consistent, LineJson, Get, HeldDocument, SchemaTwo, ReadJson;
    var db := DbAt(env, ops, i);
    AlwaysConsistent(env, ops[..i]);
    HeldTerms(env, db, e);
    var line := ReadLine(db, DbAt(env, ops, k), index, e).value;
    LineFields(line);
    MoreLineFields(line);
    LastLineFields(line);
  }

  /** A snapshot that succeeds has schema 1, the time it was asked for, and one line for each assignment in the order of
      the listing. */
  lemma SnapshotHasLines(held: Db, reported: Db, legacy: Db, now: int, index: Index, listed: seq<string>,
                         r: Outcome<Json>)
    requires IsSnapshot(held, reported, legacy, now, index, listed, r) && r.Ok?
    ensures Listing(held, listed)
    ensures r.value.Obj? && r.value.fields.Keys == {"schema", "generated_at", "assignments"}
    ensures Get(r.value, "schema") == Num(1) && Get(r.value, "generated_at") == Num(now)
    ensures Get(r.value, "assignments").Arr? && |Get(r.value, "assignments").items| == |listed|
    ensures forall i :: 0 <= i < |listed| ==>
              && ReadLine(held, legacy, index, listed[i]).Ok?
              && Get(r.value, "assignments").items[i] == LineJson(ReadLine(held, legacy, index, listed[i]).value)
  {
    hide ReadLine, LineJson, Listing, IsIndex;
    assert forall i :: 0 <= i < |listed| ==> listed[i] in listed;
  }
}
