/** The redacted rollout snapshot: every assignment with the result that has been reported for it. */
module Snapshot {
  import opened Json
  import opened Text
  import opened Documents
  import opened Tables
  import opened RolloutInvariant
  import opened Justification
  import opened World
  import opened Formats
  import opened Rollout

  type Index = map<string, string>

  // ---------- The order of the lines ----------

  function DeviceOf(db: Db, e: string): Option<string> {
    if e in db.enrollments then Some(db.enrollments[e].device) else None
  }

  /** SQLite sorts NULL before any text. */
  predicate DeviceAtMost(a: Option<string>, b: Option<string>) {
    a.None? || (b.Some? && AtMost(a.value, b.value))
  }

  /** `ORDER BY a.channel, e.logical_device_id, a.enrollment_id`. */
  predicate NotAfter(db: Db, e: string, f: string)
    requires e in db.assignments && f in db.assignments
  {
    var c, d := db.assignments[e].channel, db.assignments[f].channel;
    if c != d then AtMost(c, d)
    else if DeviceOf(db, e) != DeviceOf(db, f) then DeviceAtMost(DeviceOf(db, e), DeviceOf(db, f))
    else AtMost(e, f)
  }

  lemma DeviceOrder(a: Option<string>, b: Option<string>, c: Option<string>)
    ensures DeviceAtMost(a, b) || DeviceAtMost(b, a)
    ensures DeviceAtMost(a, b) && DeviceAtMost(b, a) ==> a == b
    ensures DeviceAtMost(a, b) && DeviceAtMost(b, c) ==> DeviceAtMost(a, c)
  {
    hide AtMost;
    if a.Some? && b.Some? {
      TextOrder(a.value, b.value, if c.Some? then c.value else "");
    }
  }

  lemma TextOrder(a: string, b: string, c: string)
    ensures AtMost(a, b) || AtMost(b, a)
    ensures AtMost(a, b) && AtMost(b, a) ==> a == b
    ensures AtMost(a, b) && AtMost(b, c) ==> AtMost(a, c)
  {
    hide AtMost;
    AtMostTotal(a, b);
    if AtMost(a, b) && AtMost(b, a) {
      AtMostAntisymmetric(a, b);
    }
    if AtMost(a, b) && AtMost(b, c) {
      AtMostTransitive(a, b, c);
    }
  }

  /** The order is total, and only equal rows are not after one another both ways. */
  lemma RowOrder(db: Db, e: string, f: string, g: string)
    requires e in db.assignments && f in db.assignments && g in db.assignments
    ensures NotAfter(db, e, f) || NotAfter(db, f, e)
    ensures NotAfter(db, e, f) && NotAfter(db, f, e) ==> e == f
    ensures NotAfter(db, e, f) && NotAfter(db, f, g) ==> NotAfter(db, e, g)
  {
    hide AtMost, DeviceAtMost, DeviceOf;
    TextOrder(db.assignments[e].channel, db.assignments[f].channel, db.assignments[g].channel);
    TextOrder(db.assignments[f].channel, db.assignments[g].channel, db.assignments[e].channel);
    DeviceOrder(DeviceOf(db, e), DeviceOf(db, f), DeviceOf(db, g));
    DeviceOrder(DeviceOf(db, f), DeviceOf(db, g), DeviceOf(db, e));
    TextOrder(e, f, g);
  }

  predicate IsFirst(db: Db, left: set<string>, e: string)
    requires left <= db.assignments.Keys
  {
    e in left && forall f :: f in left ==> NotAfter(db, e, f)
  }

  lemma {:induction false} FirstExists(db: Db, left: set<string>)
    requires left != {} && left <= db.assignments.Keys
    ensures exists e :: IsFirst(db, left, e)
    decreases |left|
  {
    hide NotAfter;
    var e :| e in left;
    RowOrder(db, e, e, e);
    if left == {e} {
      assert IsFirst(db, left, e);
    } else {
      FirstExists(db, left - {e});
      var f :| IsFirst(db, left - {e}, f);
      RowOrder(db, e, f, e);
      var first := if NotAfter(db, e, f) then e else f;
      forall g | g in left
        ensures NotAfter(db, first, g)
      {
        RowOrder(db, first, f, g);
        assert g == e || g in left - {e};
      }
      assert IsFirst(db, left, first);
    }
  }

  /** Every assignment once, in order. */
  predicate Listing(db: Db, listed: seq<string>) {
    && Elements(listed) == db.assignments.Keys
    && (forall i :: 0 <= i < |listed| ==> listed[i] in db.assignments)
    && forall i, j :: 0 <= i < j < |listed| ==> listed[i] != listed[j] && NotAfter(db, listed[i], listed[j])
  }

  /** The SELECT of the assignments, with its ORDER BY. */
  method SelectAssignments(db: Db) returns (listed: seq<string>)
    ensures Listing(db, listed)
  {
    hide NotAfter;
    listed := [];
    var left := db.assignments.Keys;
    while left != {}
      invariant left <= db.assignments.Keys && Elements(listed) == db.assignments.Keys - left
      invariant forall i :: 0 <= i < |listed| ==> listed[i] in db.assignments && listed[i] !in left
      invariant forall i, j :: 0 <= i < j < |listed| ==> listed[i] != listed[j] && NotAfter(db, listed[i], listed[j])
      invariant forall i, f :: 0 <= i < |listed| && f in left ==> NotAfter(db, listed[i], f)
      decreases left
    {
      FirstExists(db, left);
      var e :| e in left && IsFirst(db, left, e);
      OneMoreElement(listed, e);
      listed := listed + [e];
      left := left - {e};
    }
  }

  lemma OneMoreElement(listed: seq<string>, e: string)
    ensures Elements(listed + [e]) == Elements(listed) + {e}
  {
  }

  /** The order determines the listing. */
  lemma ListingUnique(db: Db, a: seq<string>, b: seq<string>)
    requires Listing(db, a) && Listing(db, b)
    ensures a == b
  {
    hide NotAfter;
    SortedOnce(db, a, b);
  }

  lemma {:induction false} SortedOnce(db: Db, a: seq<string>, b: seq<string>)
    requires Elements(a) == Elements(b) <= db.assignments.Keys
    requires forall i, j :: 0 <= i < j < |a| ==>
                            a[i] in Elements(a) && a[j] in Elements(a) && a[i] != a[j] && NotAfter(db, a[i], a[j])
    requires forall i, j :: 0 <= i < j < |b| ==>
                            b[i] in Elements(b) && b[j] in Elements(b) && b[i] != b[j] && NotAfter(db, b[i], b[j])
    ensures a == b
    decreases |a|
  {
    hide NotAfter;
    if a == [] || b == [] {
      NothingListed(a);
      NothingListed(b);
    } else {
      assert a[0] in Elements(b) && b[0] in Elements(a);
      RowOrder(db, a[0], b[0], a[0]);
      assert a[0] == b[0];
      TailElements(a);
      TailElements(b);
      SortedOnce(db, a[1..], b[1..]);
      assert a == [a[0]] + a[1..] && b == [b[0]] + b[1..];
    }
  }

  lemma TailElements(a: seq<string>)
    requires a != [] && forall i, j :: 0 <= i < j < |a| ==> a[i] != a[j]
    ensures Elements(a[1..]) == Elements(a) - {a[0]}
    ensures forall i :: 0 <= i < |a| - 1 ==> a[1..][i] in Elements(a[1..])
  {
    assert a == [a[0]] + a[1..];
  }

  // ---------- The snapshot ----------

  /** What one assignment looks like in the snapshot. */
  datatype Line = Line(
    assignmentId: Json, kind: string, enrollment: string, device: Option<string>, generation: Option<nat>,
        channel: string,
    revision: string, policy: Json, issuedAt: Json, expiresAt: Json, result: Option<string>
  )

  function LineJson(line: Line): Json {
    Obj(map["assignment_id" := line.assignmentId, "assignment_kind" := Str(line.kind),
            "enrollment_id" := Str(line.enrollment), "logical_device_id" := FromOption(line.device),
            "enrollment_generation" := if line.generation.Some? then Num(line.generation.value) else Null,
            "channel" := Str(line.channel), "revision_id" := Str(line.revision), "apply_policy" := line.policy,
            "issued_at" := line.issuedAt, "expires_at" := line.expiresAt, "report_result" := FromOption(line.result)])
  }

  /** The reports by assignment id alone; when two enrollments share an id, either of their rows may be the one kept. */
  predicate IsIndex(rows: map<(string, string), AssignmentReport>, index: Index) {
    && (forall k :: k in rows ==> k.1 in index)
    && forall id :: id in index ==> exists k :: k in rows && k.1 == id && index[id] == rows[k].result
  }

  method BuildIndex(rows: map<(string, string), AssignmentReport>) returns (index: Index)
    ensures IsIndex(rows, index)
  {
    index := map[];
    var left := rows.Keys;
    while left != {}
      invariant left <= rows.Keys
      invariant forall k :: k in rows && k !in left ==> k.1 in index
      invariant forall id :: id in index ==> exists k :: k in rows && k.1 == id && index[id] == rows[k].result
      decreases left
    {
      var k :| k in left;
      index := index[k.1 := rows[k].result];
      left := left - {k};
    }
  }

  function LegacyResult(legacy: Db, e: string, row: Assignment): Option<string> {
    var key := (e, row.channel, row.revision);
    if key in legacy.reports then Some(legacy.reports[key].result) else None
  }

  /** One line: the first SELECT read the assignment and its enrollment, the second the index, the third the legacy
      reports. */
  function ReadLine(held: Db, legacy: Db, index: Index, e: string): Outcome<Line>
    requires e in held.assignments
  {
    var row := held.assignments[e];
    var document :- ReadJson(row.document);
    :- Need(document.Obj?, Broken);
    var id := Get(document, "assignment_id");
    :- Need(Hashable(id), Broken);
    var generation := if e in held.enrollments then Some(held.enrollments[e].generation) else None;
    Ok(Line(id, row.kind, e, DeviceOf(held, e), generation, row.channel, row.revision, Get(document, "apply_policy"),
            Get(document, "issued_at"), Get(document, "expires_at"),
            if id.Str? && id.s in index then Some(index[id.s]) else LegacyResult(legacy, e, row)))
  }

  /** Every line in the order of the listing, or the failure of any of them. */
  function Lines(held: Db, legacy: Db, index: Index, listed: seq<string>): Outcome<seq<Line>>
    requires forall e :: e in listed ==> e in held.assignments
  {
    if forall e :: e in listed ==> ReadLine(held, legacy, index, e).Ok?
    then Ok(seq(|listed|, i requires 0 <= i < |listed| => ReadLine(held, legacy, index, listed[i]).value))
    else Fail(Broken)
  }

  function SnapshotOf(lines: Outcome<seq<Line>>, now: int): Outcome<Json> {
    var all :- lines;
    Ok(Obj(map["schema" := Num(1), "generated_at" := Num(now),
               "assignments" := Arr(seq(|all|, i requires 0 <= i < |all| => LineJson(all[i])))]))
  }

  /** What the snapshot of three states is: the lines of the one listing, looked up in some index. */
  ghost predicate IsSnapshot(held: Db, reported: Db, legacy: Db, now: int, index: Index, listed: seq<string>,
                             r: Outcome<Json>) {
    && IsIndex(reported.assignmentReports, index)
    && Listing(held, listed)
    && r == SnapshotOf(Lines(held, legacy, index, listed), now)
  }

  /** `integration_rollout_snapshot`: three SELECTs, then one line after the other. */
  method RolloutSnapshot(held: Db, reported: Db, legacy: Db, now: int) returns (r: Outcome<Json>)
    ensures exists index, listed :: IsSnapshot(held, reported, legacy, now, index, listed, r)
  {
    hide IsIndex, ReadLine, NotAfter, LineJson;
    var listed := SelectAssignments(held);
    var index := BuildIndex(reported.assignmentReports);
    var lines: seq<Line> := [];
    var result: seq<Json> := [];
    var i := 0;
    while i < |listed|
      invariant 0 <= i <= |listed| && |lines| == |result| == i
      invariant forall j :: 0 <= j < i ==> ReadLine(held, legacy, index, listed[j]) == Ok(lines[j])
                                           && result[j] == LineJson(lines[j])
    {
      var line := ReadLine(held, legacy, index, listed[i]);
      if line.Fail? {
        assert listed[i] in listed;
        assert IsSnapshot(held, reported, legacy, now, index, listed, Fail(Broken));
        return Fail(Broken);
      }
      lines := lines + [line.value];
      result := result + [LineJson(line.value)];
      i := i + 1;
    }
    LinesRead(held, legacy, index, listed, lines);
    assert result == seq(|lines|, j requires 0 <= j < |lines| => LineJson(lines[j]));
    r := Ok(Obj(map["schema" := Num(1), "generated_at" := Num(now), "assignments" := Arr(result)]));
    assert IsSnapshot(held, reported, legacy, now, index, listed, r);
  }

  lemma LinesRead(held: Db, legacy: Db, index: Index, listed: seq<string>, lines: seq<Line>)
    requires (forall e :: e in listed ==> e in held.assignments) && |lines| == |listed|
    requires forall j :: 0 <= j < |listed| ==> ReadLine(held, legacy, index, listed[j]) == Ok(lines[j])
    ensures Lines(held, legacy, index, listed) == Ok(lines)
  {
    hide ReadLine;
    forall e | e in listed
      ensures ReadLine(held, legacy, index, e).Ok?
    {
      var j :| 0 <= j < |listed| && listed[j] == e;
    }
    assert Lines(held, legacy, index, listed).value == lines;
  }

  // ---------- Reports belong to the enrollment their assignment names ----------

  /** The assignment id of a report is the content id of a document that names the report's enrollment. */
  ghost predicate NamesItsEnrollment(digest: Digest, k: (string, string)) {
    exists identity: Json :: identity.Obj? && k.1 == ContentId(digest, identity)
                             && Get(identity, "enrollment_id") == Str(k.0)
  }

  ghost predicate ReportsNamed(digest: Digest, rows: map<(string, string), AssignmentReport>) {
    forall k :: k in rows ==> NamesItsEnrollment(digest, k)
  }

  /** No two enrollments share an assignment id. */
  lemma OneEnrollmentPerId(digest: Digest, j: (string, string), k: (string, string))
    requires Injective(digest) && NamesItsEnrollment(digest, j) && NamesItsEnrollment(digest, k) && j.1 == k.1
    ensures j == k
  {
    hide ContentId;
    var v: Json :| v.Obj? && j.1 == ContentId(digest, v) && Get(v, "enrollment_id") == Str(j.0);
    var w: Json :| w.Obj? && k.1 == ContentId(digest, w) && Get(w, "enrollment_id") == Str(k.0);
    ContentIdInjective(digest, v, w);
  }

  lemma ContractNamed(digest: Digest, document: Json, kind: string)
    requires ValidateAssignment(digest, document, kind, None).Ok?
    ensures var contract := ValidateAssignment(digest, document, kind, None).value;
            && NamesItsEnrollment(digest, (contract.enrollment, contract.assignmentId))
            && Get(document, "assignment_id") == Str(contract.assignmentId)
  {
    hide ContentId, Matches, IsDigest, IsEnrollment, IsNonce, TargetTags;
    var identity := AssignmentIdentity(document);
    assert Get(identity, "enrollment_id") == Get(document, "enrollment_id");
  }

  /** The contract of a stored row is named for the enrollment that holds it. */
  lemma StoredContractNamed(env: Env, db: Db, e: string)
    requires Consistent(env, db) && e in db.assignments
    requires StoredContract(env, db.assignments[e]).Ok? && StoredContract(env, db.assignments[e]).value.Some?
    ensures var id := StoredContract(env, db.assignments[e]).value.value.assignmentId;
            && NamesItsEnrollment(env.digest, (e, id))
            && ReadJson(db.assignments[e].document).Ok?
            && var document := ReadJson(db.assignments[e].document).value;
            document.Obj? && Get(document, "assignment_id") == Str(id)
  {
    hide ValidateAssignment, ReadTags, NamesItsEnrollment, ReadJson;
    var row := db.assignments[e];
    assert RowFits(env, db, e, row);
    ContractNamed(env.digest, ReadJson(row.document).value, row.kind);
  }

  lemma StepKeepsNamed(env: Env, s: State, op: Op)
    requires Consistent(env, s.db) && ReportsNamed(env.digest, s.db.assignmentReports)
    ensures ReportsNamed(env.digest, Step(env, s, op).0.db.assignmentReports)
  {
    hide Step, Consistent, NamesItsEnrollment, StoredContract, Committing, ReadJson;
    StepRecords(env, s, op);
    var record := RecordOf(env, s, op);
    if record.Some? && record.value.contract.Some? {
      StoredContractNamed(env, s.db, record.value.enrollment);
    }
  }

  lemma {:induction false} ReportsAlwaysNamed(env: Env, ops: seq<Op>)
    ensures ReportsNamed(env.digest, After(env, ops).db.assignmentReports)
    decreases |ops|
  {
    hide Step, NamesItsEnrollment;
    if ops == [] {
      EmptyRun(env, ops);
    } else {
      hide After, ReportsNamed, Consistent;
      var earlier := ops[..|ops| - 1];
      ReportsAlwaysNamed(env, earlier);
      AlwaysConsistent(env, earlier);
      LastStep(env, ops);
      StepKeepsNamed(env, After(env, earlier), ops[|ops| - 1]);
    }
  }

  // ---------- What the snapshot shows ----------

  predicate SchemaTwo(row: Assignment) {
    ReadJson(row.document).Ok? && ReadJson(row.document).value.Obj?
        && Get(ReadJson(row.document).value, "schema") == Num(2)
  }

  /** The result this enrollment itself has reported for the assignment, or else its legacy result, or else none. */
  function OwnResult(reported: Db, legacy: Db, e: string, row: Assignment, id: Json): Option<string> {
    if id.Str? && (e, id.s) in reported.assignmentReports then Some(reported.assignmentReports[(e, id.s)].result)
    else LegacyResult(legacy, e, row)
  }

  lemma IndexShows(digest: Digest, rows: map<(string, string), AssignmentReport>, index: Index, k: (string, string))
    requires Injective(digest) && ReportsNamed(digest, rows) && IsIndex(rows, index) && NamesItsEnrollment(digest, k)
    ensures k in rows <==> k.1 in index
    ensures k in rows ==> index[k.1] == rows[k].result
  {
    hide NamesItsEnrollment;
    if k.1 in index {
      var j :| j in rows && j.1 == k.1 && index[k.1] == rows[j].result;
      OneEnrollmentPerId(digest, j, k);
    }
  }

  lemma RowContract(env: Env, db: Db, e: string)
    requires Consistent(env, db) && e in db.assignments
    ensures StoredContract(env, db.assignments[e]).Ok?
    ensures StoredContract(env, db.assignments[e]).value.Some? <==> SchemaTwo(db.assignments[e])
    ensures ReadJson(db.assignments[e].document).Ok? && ReadJson(db.assignments[e].document).value.Obj?
  {
    hide ValidateAssignment, ReadTags, ReadJson;
    assert RowFits(env, db, e, db.assignments[e]);
  }

  lemma ReportsNamedAt(env: Env, ops: seq<Op>, j: nat)
    requires j <= |ops|
    ensures ReportsNamed(env.digest, DbAt(env, ops, j).assignmentReports)
  {
    hide After, ReportsNamed;
    ReportsAlwaysNamed(env, ops[..j]);
  }

  /** Wherever the three SELECTs fall in a run, and whichever rows the index kept, a schema 2 assignment is shown with
      its own enrollment's result, and never makes the snapshot fail. */
  lemma ShowsOwnResult(env: Env, ops: seq<Op>, i: nat, j: nat, k: nat, index: Index, e: string)
    requires i <= j <= k <= |ops| && Injective(env.digest) && IsIndex(DbAt(env, ops, j).assignmentReports, index)
    requires e in DbAt(env, ops, i).assignments && SchemaTwo(DbAt(env, ops, i).assignments[e])
    ensures var line := ReadLine(DbAt(env, ops, i), DbAt(env, ops, k), index, e);
            && line.Ok?
            && line.value.result == OwnResult(DbAt(env, ops, j), DbAt(env, ops, k), e, DbAt(env, ops, i).assignments[e],
                                              line.value.assignmentId)
  {
    hide After, Consistent, NamesItsEnrollment, ReportsNamed, IsIndex, ValidateAssignment;
    var db := DbAt(env, ops, i);
    var row := db.assignments[e];
    AlwaysConsistent(env, ops[..i]);
    ReportsNamedAt(env, ops, j);
    RowContract(env, db, e);
    StoredContractNamed(env, db, e);
    IndexShows(env.digest, DbAt(env, ops, j).assignmentReports, index,
               (e, StoredContract(env, row).value.value.assignmentId));
  }

  /** Another enrollment has reported under the id that this document carries. */
  predicate Foreign(reported: Db, e: string, id: Json, k: (string, string)) {
    k in reported.assignmentReports && k.0 != e && id == Str(k.1)
  }

  /** A legacy document may carry any `assignment_id`. Its line is its own enrollment's exactly when no other enrollment
      has reported under that id, or has reported the same result; and the line fails exactly on a list or a dict
      there. */
  lemma ShowsLegacyResult(env: Env, ops: seq<Op>, i: nat, j: nat, k: nat, index: Index, e: string)
    requires i <= j <= k <= |ops| && Injective(env.digest) && IsIndex(DbAt(env, ops, j).assignmentReports, index)
    requires e in DbAt(env, ops, i).assignments && !SchemaTwo(DbAt(env, ops, i).assignments[e])
    ensures var row := DbAt(env, ops, i).assignments[e];
            var line := ReadLine(DbAt(env, ops, i), DbAt(env, ops, k), index, e);
            && ReadJson(row.document).Ok? && ReadJson(row.document).value.Obj?
            && var id := Get(ReadJson(row.document).value, "assignment_id");
            && (line.Ok? <==> Hashable(id))
            && (Hashable(id) ==>
                 var own := OwnResult(DbAt(env, ops, j), DbAt(env, ops, k), e, row, id);
                 (line.value.result == own <==>
                  forall f :: Foreign(DbAt(env, ops, j), e, id, f) ==>
                              Some(DbAt(env, ops, j).assignmentReports[f].result) == own))
  {
    hide After, Consistent, NamesItsEnrollment;
    var db, reported := DbAt(env, ops, i), DbAt(env, ops, j);
    var row := db.assignments[e];
    AlwaysConsistent(env, ops[..i]);
    ReportsNamedAt(env, ops, j);
    RowContract(env, db, e);
    var id := Get(ReadJson(row.document).value, "assignment_id");
    if id.Str? && id.s in index {
      var kept :| kept in reported.assignmentReports && kept.1 == id.s
          && index[id.s] == reported.assignmentReports[kept].result;
      forall f | f in reported.assignmentReports && f.1 == id.s
        ensures f == kept
      {
        OneEnrollmentPerId(env.digest, kept, f);
      }
      assert kept.0 != e ==> Foreign(reported, e, id, kept);
      assert kept.0 == e ==> kept == (e, id.s);
    }
  }

  predicate CarriesUnhashableId(row: Assignment) {
    && !SchemaTwo(row)
    && ReadJson(row.document).Ok? && ReadJson(row.document).value.Obj?
    && !Hashable(Get(ReadJson(row.document).value, "assignment_id"))
  }

  lemma LineSucceeds(env: Env, ops: seq<Op>, i: nat, j: nat, k: nat, index: Index, e: string)
    requires i <= j <= k <= |ops| && Injective(env.digest) && IsIndex(DbAt(env, ops, j).assignmentReports, index)
    requires e in DbAt(env, ops, i).assignments
    ensures ReadLine(DbAt(env, ops, i), DbAt(env, ops, k), index, e).Ok? <==>
            !CarriesUnhashableId(DbAt(env, ops, i).assignments[e])
  {
    hide After, IsIndex, ReadLine, Foreign, OwnResult, SchemaTwo, Hashable;
    if SchemaTwo(DbAt(env, ops, i).assignments[e]) {
      ShowsOwnResult(env, ops, i, j, k, index, e);
    } else {
      ShowsLegacyResult(env, ops, i, j, k, index, e);
    }
  }

  /** Wherever its SELECTs fall in a run, the snapshot fails exactly when some legacy assignment it read carries an
      unhashable `assignment_id`, and otherwise has one line per assignment. */
  lemma SnapshotSucceeds(env: Env, ops: seq<Op>, i: nat, j: nat, k: nat, now: int, index: Index, listed: seq<string>,
                         r: Outcome<Json>)
    requires i <= j <= k <= |ops| && Injective(env.digest)
    requires IsSnapshot(DbAt(env, ops, i), DbAt(env, ops, j), DbAt(env, ops, k), now, index, listed, r)
    ensures r.Ok? <==> forall e :: e in DbAt(env, ops, i).assignments ==>
                                   !CarriesUnhashableId(DbAt(env, ops, i).assignments[e])
    ensures r.Ok? ==> r.value.Obj? && Get(r.value, "assignments").Arr?
                      && |Get(r.value, "assignments").items| == |listed| == |DbAt(env, ops, i).assignments|
  {
    hide After, IsIndex, ReadLine, LineJson, NotAfter, SchemaTwo, CarriesUnhashableId;
    var db := DbAt(env, ops, i);
    forall e | e in db.assignments
      ensures e in listed
      ensures ReadLine(db, DbAt(env, ops, k), index, e).Ok? <==> !CarriesUnhashableId(db.assignments[e])
    {
      assert e in Elements(listed);
      LineSucceeds(env, ops, i, j, k, index, e);
    }
    DistinctCount(listed);
  }
}
