/** Runs that reach the failures: a snapshot that misleads or breaks, a race of uploads, and a code that outlives its
    attempts. */
module FailureRuns {
  import opened Json
  import opened JsonText
  import opened Canonical
  import opened Formats
  import opened Documents
  import opened Tables
  import opened World
  import opened Signers
  import opened Walkthrough
  import opened DeviceRollout
  import Enrolling
  import RevisionHistory
  import Rollout
  import Signing
  import Snapshot
  import Text

  // ---------- A legacy line that misleads ----------

  lemma BorrowedLine(db: Db, index: Snapshot.Index, document: Json, e: string, channel: string, revision: string,
                     id: string)
    requires document.Obj? && Get(document, "assignment_id") == Str(id) && id in index
    requires e in db.assignments
    requires db.assignments[e] == Assignment(channel, revision, "candidate", Dumps(document))
    ensures var line := Snapshot.ReadLine(db, db, index, e);
            line.Ok? && line.value.assignmentId == Str(id) && line.value.result == Some(index[id])
  {
    hide Dumps, Loads;
    LoadsDumps(document);
  }

  /** With every identifier naming its enrollment, the index shows the one row that carries it. */
  lemma IndexNames(digest: Digest, rows: map<(string, string), AssignmentReport>, index: Snapshot.Index,
                   k: (string, string))
    requires Injective(digest) && Snapshot.ReportsNamed(digest, rows) && Snapshot.IsIndex(rows, index) && k in rows
    ensures k.1 in index && index[k.1] == rows[k].result
  {
    hide Snapshot.NamesItsEnrollment;
    Snapshot.IndexShows(digest, rows, index, k);
  }

  /** From any reachable state in which some enrollment has reported, any signed legacy assignment that carries that
      report's identifier, to an unregistered enrollment that never reported, commits, and the snapshot then shows it
      with the other's result. */
  lemma LegacyLineMisleads(env: Env, ops: seq<Op>, k: (string, string), document: Json, e: string, channel: string,
                           key: string) returns (longer: seq<Op>)
    requires Injective(env.digest) && k in After(env, ops).db.assignmentReports
    requires e !in After(env, ops).db.enrollments && (e, k.1) !in After(env, ops).db.assignmentReports
    requires channel in After(env, ops).db.channels && After(env, ops).db.channels[channel].candidate.Some?
    requires IsLegacyAssignment(env, document, e, channel, After(env, ops).db.channels[channel].candidate.value)
    requires Get(document, "assignment_id") == Str(k.1)
    requires (e, channel, After(env, ops).db.channels[channel].candidate.value) !in After(env, ops).db.reports
    requires |key| >= 8 && key !in After(env, ops).db.idempotency
    ensures longer == ops + [AssignOp(key, document)] && OutcomeOf(env, longer, |ops|).Ok?
    ensures var db := After(env, longer).db;
            && db == After(env, ops).db.(assignments := db.assignments, idempotency := db.idempotency)
            && e in db.assignments
            && Snapshot.OwnResult(db, db, e, db.assignments[e], Str(k.1)) == None
            && forall index :: Snapshot.IsIndex(db.assignmentReports, index) ==>
                 var line := Snapshot.ReadLine(db, db, index, e);
                 line.Ok? && line.value.result == Some(After(env, ops).db.assignmentReports[k].result)
  {
    hide After, OutcomeOf, IsLegacyAssignment, Dumps, Snapshot.ReadLine, Snapshot.ReportsNamed,
         Snapshot.NamesItsEnrollment;
    var db := After(env, ops).db;
    longer := LegacyRun(env, ops, key, document, e, channel);
    Snapshot.ReportsAlwaysNamed(env, ops);
    var shown := After(env, longer).db;
    IsObject(env, document, e, channel, db.channels[channel].candidate.value);
    forall index | Snapshot.IsIndex(shown.assignmentReports, index)
      ensures var line := Snapshot.ReadLine(shown, shown, index, e);
              line.Ok? && line.value.result == Some(db.assignmentReports[k].result)
    {
      IndexNames(env.digest, shown.assignmentReports, index, k);
      BorrowedLine(shown, index, document, e, channel, db.channels[channel].candidate.value, k.1);
    }
  }

  lemma IsObject(env: Env, document: Json, e: string, channel: string, revision: string)
    requires IsLegacyAssignment(env, document, e, channel, revision)
    ensures document.Obj? && Get(document, "schema") != Num(2)
  {
  }

  /** Such states exist: the run of a paired device reaches one, and goes on to a line that misleads. */
  lemma MisleadingRun(env: Env, d: Device, manifest: Json, candidate: Json, c: Contract, document: Json, e: string)
    returns (ops: seq<Op>)
    requires Ready(env, d, manifest, candidate, c) && Injective(env.digest) && e != d.e
    requires IsLegacyAssignment(env, document, e, d.channel, c.revision)
    requires Get(document, "assignment_id") == Str(c.assignmentId)
    ensures var db := After(env, ops).db;
            && e in db.assignments && e !in db.enrollments
            && (forall id :: (e, id) !in db.assignmentReports) && db.reports == map[]
            && forall index :: Snapshot.IsIndex(db.assignmentReports, index) ==>
                 var line := Snapshot.ReadLine(db, db, index, e);
                 line.Ok? && line.value.result == Some("success")
  {
    hide Step, After, Ready, Snapshot.ReadLine, Snapshot.IsIndex, Snapshot.OwnResult, CandidateRow, RowOf,
         IsLegacyAssignment, OutcomeOf, SignedReport;
    var reported := ReportedRun(env, d, manifest, candidate, c);
    FreshKeyAfter(After(env, reported).db, "assign-2");
    ops := LegacyLineMisleads(env, reported, (d.e, c.assignmentId), document, e, d.channel, "assign-2");
  }

  lemma FreshKeyAfter(db: Db, key: string)
    requires db.idempotency.Keys == {"publish-1", "assign-1", "report-1"} && key == "assign-2"
    ensures |key| >= 8 && key !in db.idempotency
  {
    assert key[7] != "assign-1"[7] && key[0] != "publish-1"[0] && key[0] != "report-1"[0];
  }

  // ---------- A snapshot that breaks ----------

  /** The first SELECT of the snapshot reads this state, and no line is ever written. */
  ghost predicate SnapshotBreaks(held: Db) {
    forall reported, legacy, now, index, listed, r :: Snapshot.IsSnapshot(held, reported, legacy, now, index, listed, r)
      ==> r == Fail(Broken)
  }

  lemma UnhashableBreaks(held: Db, e: string)
    requires e in held.assignments && Snapshot.CarriesUnhashableId(held.assignments[e])
    ensures SnapshotBreaks(held)
  {
    hide Snapshot.IsIndex, Snapshot.NotAfter, Snapshot.LineJson, Snapshot.SchemaTwo, Loads;
    forall reported, legacy, now, index, listed, r | Snapshot.IsSnapshot(held, reported, legacy, now, index, listed, r)
      ensures r == Fail(Broken)
    {
      assert e in listed by {
        assert e in Text.Elements(listed);
      }
      assert Snapshot.ReadLine(held, legacy, index, e).Fail?;
    }
  }

  lemma UnhashableRow(document: Json, channel: string, revision: string)
    requires document.Obj? && Get(document, "schema") != Num(2) && !Hashable(Get(document, "assignment_id"))
    ensures Snapshot.CarriesUnhashableId(Assignment(channel, revision, "candidate", Dumps(document)))
  {
    hide Dumps, Loads;
    LoadsDumps(document);
  }

  /** From any reachable state, a signed legacy assignment of the candidate whose identifier is a list or a dict, to an
      unregistered enrollment, commits, and every snapshot that reads it fails. */
  lemma UnhashableCommits(env: Env, ops: seq<Op>, document: Json, e: string, channel: string, key: string)
    returns (longer: seq<Op>)
    requires e !in After(env, ops).db.enrollments
    requires channel in After(env, ops).db.channels && After(env, ops).db.channels[channel].candidate.Some?
    requires IsLegacyAssignment(env, document, e, channel, After(env, ops).db.channels[channel].candidate.value)
    requires document.Obj? && !Hashable(Get(document, "assignment_id"))
    requires |key| >= 8 && key !in After(env, ops).db.idempotency
    ensures longer == ops + [AssignOp(key, document)] && OutcomeOf(env, longer, |ops|).Ok?
    ensures SnapshotBreaks(After(env, longer).db)
  {
    hide After, OutcomeOf, IsLegacyAssignment, Dumps, SnapshotBreaks, Snapshot.CarriesUnhashableId, Hashable;
    var revision := After(env, ops).db.channels[channel].candidate.value;
    longer := LegacyRun(env, ops, key, document, e, channel);
    IsObject(env, document, e, channel, revision);
    UnhashableRow(document, channel, revision);
    UnhashableBreaks(After(env, longer).db, e);
  }

  /** A run from the empty store that ends so. */
  lemma BrokenSnapshotRun(env: Env, manifest: Json, document: Json, e: string, channel: string) returns (ops: seq<Op>)
    requires env.verify("revision", manifest) && ValidateRevision(env.digest, manifest).Ok? && IsChannel(channel)
    requires IsLegacyAssignment(env, document, e, channel, ValidateRevision(env.digest, manifest).value)
    requires document.Obj? && !Hashable(Get(document, "assignment_id"))
    ensures |After(env, ops).db.assignments| == 1 && SnapshotBreaks(After(env, ops).db)
  {
    hide Step, After, OutcomeOf, ValidateRevision, Rollout.Call, IsLegacyAssignment, IsChannel, Dumps, Hashable,
         SnapshotBreaks;
    var id := ValidateRevision(env.digest, manifest).value;
    ops := Upload(env, manifest, id);
    LegacyBegins(After(env, ops).db, id, Dumps(manifest));
    LegacyPublishes(env, After(env, ops).db, channel, id);
    ops := Extend(env, ops, PublishOp(channel, id));
    var before := ops;
    ops := UnhashableCommits(env, before, document, e, channel, "assign-1");
    LegacyAssigns(env, After(env, before).db, "assign-1", document, e, channel, id);
    var again := Extend(env, before, AssignOp("assign-1", document));
  }

  /** An operator can sign such documents, with somebody else's identifier or with none that can be looked up. */
  lemma OperatorMisleads(env: Env, operator: Signer, e: string, channel: string, revision: string, id: Json)
    requires Trusts(env, operator) && IsKeyId(operator.keyId) && IsEnrollment(e)
    ensures var document := LegacyIssued(env, operator, e, channel, revision, map["assignment_id" := id]);
            && IsLegacyAssignment(env, document, e, channel, revision)
            && document.Obj? && Get(document, "assignment_id") == id
  {
    hide LegacyIssued, IsKeyId, IsEnrollment;
    var more := map["assignment_id" := id];
    OperatorAssigns(env, operator, e, channel, revision, more);
    IsObject(env, LegacyIssued(env, operator, e, channel, revision, more), e, channel, revision);
    assert "assignment_id" in more;
  }

  // ---------- A race of uploads ----------

  function Race(c: nat, d: nat, m: Json, n: Json): seq<Op> {
    [BeginRevision(c, m), BeginRevision(d, n), EndRevision(c), EndRevision(d)]
  }

  lemma FourSteps(env: Env, a: Op, b: Op, c: Op, d: Op)
    ensures var ops := [a, b, c, d];
            var (s1, r1) := Step(env, START, a);
            var (s2, r2) := Step(env, s1, b);
            var (s3, r3) := Step(env, s2, c);
            var (s4, r4) := Step(env, s3, d);
            && OutcomeOf(env, ops, 0) == r1 && OutcomeOf(env, ops, 1) == r2 && OutcomeOf(env, ops, 2) == r3
            && OutcomeOf(env, ops, 3) == r4 && After(env, ops) == s4
  {
    hide Step, After;
    var ops := [a, b, c, d];
    EmptyRun(env, ops[..0]);
    StepOfRun(env, ops, 0);
    StepOfRun(env, ops, 1);
    StepOfRun(env, ops, 2);
    StepOfRun(env, ops, 3);
    assert ops[..4] == ops;
  }

  lemma UploadSteps(env: Env, s: State, caller: nat, manifest: Json)
    ensures Step(env, s, BeginRevision(caller, manifest)) == BeginUpload(env, s, caller, manifest)
    ensures Step(env, s, EndRevision(caller)) == EndUpload(s, caller)
  {
    hide Rollout.Call, Administration.Authorize, Blobs.PutBlob, EnrollingEffect, BeginUpload, EndUpload;
  }

  /** From the empty store two uploads of one revision under different signatures race: both succeed with one response,
      and only the first one's bytes are stored. */
  lemma RaceRun(env: Env, c: nat, d: nat, m: Json, n: Json)
    requires c != d && m != n && m.Obj? && n.Obj? && Signing.Unsigned(m) == Signing.Unsigned(n)
    requires env.verify("revision", m) && env.verify("revision", n) && ValidateRevision(env.digest, m).Ok?
    ensures var ops := Race(c, d, m, n);
            && (forall i :: 0 <= i < 4 ==> OutcomeOf(env, ops, i).Ok?)
            && OutcomeOf(env, ops, 2) == OutcomeOf(env, ops, 3)
            && After(env, ops).db.revisions == map[ValidateRevision(env.digest, m).value := Dumps(m)]
            && Dumps(m) != Dumps(n)
  {
    hide Step, After, OutcomeOf, ValidateRevision, Dumps, BeginUpload, EndUpload;
    SignedAnew(env.digest, m, n);
    RevisionHistory.RacingUploads(env, START, c, d, m, n, ValidateRevision(env.digest, m).value);
    FourSteps(env, BeginRevision(c, m), BeginRevision(d, n), EndRevision(c), EndRevision(d));
    var s1 := BeginUpload(env, START, c, m).0;
    var s2 := BeginUpload(env, s1, d, n).0;
    UploadSteps(env, START, c, m);
    UploadSteps(env, s1, d, n);
    UploadSteps(env, s2, c, m);
    UploadSteps(env, EndUpload(s2, c).0, d, n);
  }

  lemma SameSignature(m: Json, n: Json, signature: Json)
    requires m.Obj? && n.Obj? && Signing.Unsigned(m) == Signing.Unsigned(n)
    ensures m.fields["signature" := signature] == n.fields["signature" := signature]
  {
    var kept := m.fields - {"signature"};
    assert kept == n.fields - {"signature"};
    assert m.fields["signature" := signature] == kept["signature" := signature];
    assert n.fields["signature" := signature] == kept["signature" := signature];
  }

  lemma SignedAnew(digest: Digest, m: Json, n: Json)
    requires m.Obj? && n.Obj? && Signing.Unsigned(m) == Signing.Unsigned(n)
    ensures ValidateRevision(digest, m) == ValidateRevision(digest, n)
  {
    hide ValidateRevision, Signing.Unsigned;
    SameSignature(m, n, Null);
    SignatureIsNotIdentity(digest, m, Null);
    SignatureIsNotIdentity(digest, n, Null);
  }

  /** Two operators can sign any valid manifest so. */
  lemma OperatorsRace(env: Env, first: Signer, second: Signer, manifest: Json)
    requires Trusts(env, first) && Trusts(env, second) && IsKeyId(first.keyId) && IsKeyId(second.keyId)
    requires first.keyId != second.keyId && ValidateRevision(env.digest, manifest).Ok?
    ensures var m, n := Issued(env, first, "revision", manifest), Issued(env, second, "revision", manifest);
            && m != n && m.Obj? && n.Obj? && Signing.Unsigned(m) == Signing.Unsigned(n)
            && env.verify("revision", m) && env.verify("revision", n)
            && ValidateRevision(env.digest, m) == ValidateRevision(env.digest, manifest)
  {
    hide Issued, IsKeyId, Signing.Unsigned;
    ManifestIsObject(env.digest, manifest);
    hide ValidateRevision;
    IssuedIsSigned(env, first, "revision", manifest);
    IssuedIsSigned(env, second, "revision", manifest);
    KeyOfIssued(env, first, "revision", manifest);
    KeyOfIssued(env, second, "revision", manifest);
    SignedAnew(env.digest, Issued(env, first, "revision", manifest), manifest);
  }

  lemma ManifestIsObject(digest: Digest, manifest: Json)
    requires ValidateRevision(digest, manifest).Ok?
    ensures manifest.Obj?
  {
    hide ContentId, IsDigest;
  }

  // ---------- A code that outlives its attempts ----------

  /** The device's own pairing, but under another name. */
  function MismatchOp(env: Env, d: Device, wrong: string): Op {
    PairDevice(Str(d.code), Str(wrong), Str(d.channel), Str(d.signer.keyId), Str(PublicKey(env, d)), Null, Null, d.now,
               d.e, d.token)
  }

  /** A code is created, and then so many pairings name the wrong device. */
  function Mismatches(env: Env, d: Device, attempts: int, wrong: string, n: nat): (ops: seq<Op>)
    ensures |ops| == n + 1
    decreases n
  {
    if n == 0 then [CreateOp(d, attempts)] else Mismatches(env, d, attempts, wrong, n - 1) + [MismatchOp(env, d, wrong)]
  }

  lemma MismatchRefused(env: Env, db: Db, d: Device, attempts: int, wrong: string)
    requires CanPair(env, d) && IsChannel(wrong) && wrong != d.name
    requires db.pairingCodes == map[Enrolling.PairingDigest(env, d.code) := CodeOf(d, attempts)]
    ensures EnrollingEffect(env, db, MismatchOp(env, d, wrong)) == Fail(Unauthorized)
  {
    hide Enrolling.PairRequest, Enrolling.Enroll, Enrolling.PairingDigest, PublicKey, CanPair, IsChannel;
    PairAdmitted(env, d, wrong);
  }

  lemma Refused(env: Env, ops: seq<Op>, op: Op, fault: Fault)
    requires op.PairDevice? && EnrollingEffect(env, After(env, ops).db, op) == Fail(fault)
    ensures After(env, ops + [op]) == After(env, ops) && OutcomeOf(env, ops + [op], |ops|) == Fail(fault)
  {
    hide Step, After, EnrollingEffect;
    OneMoreStep(env, ops, op);
    EnrollingStep(env, After(env, ops), op);
    assert World.Before(env, ops + [op], |ops|) == After(env, ops);
  }

  lemma SameOutcome(env: Env, ops: seq<Op>, op: Op, i: nat)
    requires i < |ops|
    ensures OutcomeOf(env, ops + [op], i) == OutcomeOf(env, ops, i)
  {
    hide Step, After;
    assert (ops + [op])[..i] == ops[..i];
  }

  /** The code as it was created, and nobody enrolled. */
  predicate Unpaired(env: Env, db: Db, d: Device, attempts: int) {
    db.enrollments == map[] && db.pairingCodes == map[Enrolling.PairingDigest(env, d.code) := CodeOf(d, attempts)]
  }

  /** Mismatches are refused and change nothing, however many there are. */
  lemma {:induction false} MismatchesRefused(env: Env, d: Device, attempts: int, wrong: string, n: nat)
    requires CanPair(env, d) && 1 <= attempts <= 10 && IsChannel(wrong) && wrong != d.name
    ensures var ops := Mismatches(env, d, attempts, wrong, n);
            && Unpaired(env, After(env, ops).db, d, attempts) && OutcomeOf(env, ops, 0).Ok?
            && forall i :: 1 <= i <= n ==> OutcomeOf(env, ops, i) == Fail(Unauthorized)
    decreases n
  {
    hide After, OutcomeOf, EnrollingEffect, CanPair, CodeOf, IsChannel;
    if n == 0 {
      EmptyRun(env, []);
      Creates(env, EMPTY, d, attempts);
      CreatedAlone(env, d, attempts);
    } else {
      var ops := Mismatches(env, d, attempts, wrong, n - 1);
      var op := MismatchOp(env, d, wrong);
      MismatchesRefused(env, d, attempts, wrong, n - 1);
      MismatchRefused(env, After(env, ops).db, d, attempts, wrong);
      Refused(env, ops, op, Unauthorized);
      forall i | 0 <= i < n
        ensures OutcomeOf(env, ops + [op], i) == OutcomeOf(env, ops, i)
      {
        SameOutcome(env, ops, op, i);
      }
    }
  }

  lemma CreatedAlone(env: Env, d: Device, attempts: int)
    requires CanPair(env, d) && 1 <= attempts <= 10
    ensures Unpaired(env, After(env, [CreateOp(d, attempts)]).db, d, attempts)
    ensures OutcomeOf(env, [CreateOp(d, attempts)], 0).Ok?
  {
    hide After, OutcomeOf, EnrollingEffect, CanPair, CodeOf;
    EmptyRun(env, []);
    Creates(env, EMPTY, d, attempts);
    var ops := Enrolled(env, [], CreateOp(d, attempts));
    assert ops == [CreateOp(d, attempts)];
  }

  /** From the empty store: a code created with any number of attempts refuses any number of pairings that name another
      device, and then still enrolls its own. */
  lemma AttemptsRun(env: Env, d: Device, attempts: int, wrong: string, n: nat) returns (ops: seq<Op>)
    requires CanPair(env, d) && 1 <= attempts <= 10 && IsChannel(wrong) && wrong != d.name
    ensures ops == Mismatches(env, d, attempts, wrong, n) + [PairOp(env, d)]
    ensures forall i :: 1 <= i <= n ==> OutcomeOf(env, ops, i) == Fail(Unauthorized)
    ensures OutcomeOf(env, ops, 0).Ok? && OutcomeOf(env, ops, n + 1).Ok?
    ensures After(env, ops).db.enrollments == map[d.e := RowOf(env, d)]
  {
    hide After, OutcomeOf, EnrollingEffect, CanPair, CodeOf, IsChannel, Mismatches, RowOf;
    var tried := Mismatches(env, d, attempts, wrong, n);
    MismatchesRefused(env, d, attempts, wrong, n);
    Pairs(env, After(env, tried).db, d, attempts);
    ops := Enrolled(env, tried, PairOp(env, d));
    forall i | 0 <= i <= n
      ensures OutcomeOf(env, ops, i) == OutcomeOf(env, tried, i)
    {
      SameOutcome(env, tried, PairOp(env, d), i);
    }
  }
}
