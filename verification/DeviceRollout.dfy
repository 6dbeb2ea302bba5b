/** A whole rollout to a paired device: signed schema 2 documents all the way, up to a promotion with a batch. */
module DeviceRollout {
  import opened Json
  import opened JsonText
  import opened Canonical
  import opened Formats
  import opened Documents
  import opened Tables
  import opened Rollout
  import opened RolloutInvariant
  import opened World
  import opened Justification
  import opened Promotions
  import opened Signers
  import Base64Url
  import Enrolling
  import Signing
  import Text
  import Walkthrough

  // ---------- The scenario ----------

  /** A device, what it pairs with, and the time at which everything happens. */
  datatype Device = Device(name: string, channel: string, e: string, code: string, token: string, signer: Signer,
                           now: int)

  /** The names are well formed, and the key is one of a correct backend. */
  ghost predicate CanPair(env: Env, d: Device) {
    && Signing.Correct(env.backend) && |env.backend.publicFromSeed(d.signer.seed)| == 32
    && IsChannel(d.name) && IsChannel(d.channel) && IsEnrollment(d.e) && IsPairingCode(d.code)
       && IsKeyId(d.signer.keyId)
  }

  /** A verified schema 2 assignment of a revision to the device in its first generation, without target tags. */
  predicate IsDeviceAssignment(env: Env, d: Device, document: Json, c: Contract, generation: nat, revision: string) {
    && env.verify("assignment", document)
    && ValidateAssignment(env.digest, document, c.kind, Some(d.now)) == Ok(c)
    && c.enrollment == d.e && c.enrollmentGeneration == 1 && c.channel == Str(d.channel)
    && c.channelGeneration == generation && c.revision == revision && c.tags == []
  }

  /** A valid, signed manifest and a signed candidate assignment of it to the device. */
  ghost predicate Ready(env: Env, d: Device, manifest: Json, candidate: Json, c: Contract) {
    && CanPair(env, d)
    && env.verify("revision", manifest) && ValidateRevision(env.digest, manifest).Ok?
    && c.kind == "candidate"
    && IsDeviceAssignment(env, d, candidate, c, 0, ValidateRevision(env.digest, manifest).value)
  }

  lemma AssignmentFields(env: Env, d: Device, document: Json, c: Contract, generation: nat, revision: string)
    requires IsDeviceAssignment(env, d, document, c, generation, revision)
    ensures document.Obj? && Get(document, "schema") == Num(2) && Get(document, "assignment_id") == Str(c.assignmentId)
    ensures Get(document, "enrollment_id") == Str(d.e) && IsEnrollment(d.e)
    ensures Get(document, "channel") == Str(d.channel) && Get(document, "revision_id") == Str(revision)
    ensures TargetTags(GetOr(document, "target_tags", Arr([]))) == Ok([])
    ensures ValidateAssignment(env.digest, document, c.kind, None) == Ok(c)
  {
    hide ValidateAssignment, TargetTags, IsDigest, IsEnrollment, IsChannel, IsNonce, AssignmentIdentity, ContentId;
    AssignmentAccepted(env.digest, document, c.kind, Some(d.now), c);
    AssignmentAccepted(env.digest, document, c.kind, None, c);
  }

  function PublicKey(env: Env, d: Device): string {
    Base64Url.Encode(env.backend.publicFromSeed(d.signer.seed))
  }

  function RowOf(env: Env, d: Device): Enrollment {
    Enrollment(d.name, 1, d.channel, TagText(["read"]), d.signer.keyId, PublicKey(env, d), (None, None),
               Enrolling.TokenDigest(env, d.token), TagText([]), false, d.now, Presence(None, None, "[]", None, None))
  }

  /** The tables after pairing, apart from what the rollout has done since. */
  predicate DeviceAt(env: Env, db: Db, d: Device, revision: string, head: Channel, keys: set<string>) {
    && revision in db.revisions && db.enrollments == map[d.e := RowOf(env, d)]
    && db.channels == map[d.channel := head] && db.idempotency.Keys == keys && db.reports == map[]
  }

  function CandidateRow(d: Device, revision: string, candidate: Json): Assignment {
    Assignment(d.channel, revision, "candidate", Dumps(candidate))
  }

  lemma OneRole()
    ensures Enrolling.Roles(Arr([Str("read")])) == Ok(["read"])
    ensures ReadJson(TagText(["read"])) == Ok(Arr([Str("read")]))
    ensures ReadTags(TagText([])) == Ok([])
  {
    hide Text.Sorted, Dumps, Loads, TargetTags;
    assert [Str("read")][0] == Str("read");
    assert Texts([Str("read")]) == {"read"};
    OneText(Text.Sorted({"read"}), "read");
    assert Text.Elements([Str("read")]) == {Str("read")};
    assert Strings(["read"]) == [Str("read")];
    assert Strings([]) == [];
    LoadsDumps(Arr([Str("read")]));
    LoadsDumps(Arr([]));
    Walkthrough.NoTags();
  }

  lemma OneText(r: seq<string>, t: string)
    requires Text.Elements(r) == {t} && |r| == 1
    ensures r == [t]
  {
    assert r[0] in Text.Elements(r);
  }

  // ---------- Pairing ----------

  function CreateOp(d: Device, attempts: int): Op {
    CreateCode(d.name, d.channel, Arr([Str("read")]), 300, attempts, d.code, Arr([]), d.now, d.now)
  }

  function PairOp(env: Env, d: Device): Op {
    PairDevice(Str(d.code), Str(d.name), Str(d.channel), Str(d.signer.keyId), Str(PublicKey(env, d)), Null, Null,
               d.now, d.e, d.token)
  }

  function CodeOf(d: Device, attempts: int): Pairing {
    Pairing(d.name, d.channel, TagText(["read"]), TagText([]), d.now + 300, attempts, false)
  }

  lemma NoCodes(now: int)
    ensures Enrolling.PurgeCodes(map[], now) == map[]
  {
  }

  lemma CodeWritten(env: Env, db: Db, d: Device, attempts: int, roles: Json, tags: Json)
    requires IsChannel(d.name) && IsChannel(d.channel) && IsPairingCode(d.code)
    requires Enrolling.Roles(roles) == Ok(["read"]) && TargetTags(tags) == Ok([])
    requires db.pairingCodes == map[] && 1 <= attempts <= 10
    ensures var effect := Enrolling.CreateCode(env, db, d.name, d.channel, roles, 300, attempts, d.code, tags, d.now,
                                               d.now);
            && effect.Ok?
            && effect.value.0 == db.(pairingCodes := map[Enrolling.PairingDigest(env, d.code) := CodeOf(d, attempts)])
  {
    hide IsChannel, IsPairingCode, Enrolling.Roles, Enrolling.PairingDigest, Enrolling.PurgeCodes, TargetTags, TagText,
         Strings;
    NoCodes(d.now);
  }

  lemma Creates(env: Env, db: Db, d: Device, attempts: int)
    requires CanPair(env, d) && db.pairingCodes == map[] && 1 <= attempts <= 10
    ensures var effect := EnrollingEffect(env, db, CreateOp(d, attempts));
            && effect.Ok?
            && effect.value.0 == db.(pairingCodes := map[Enrolling.PairingDigest(env, d.code) := CodeOf(d, attempts)])
  {
    hide IsChannel, IsPairingCode, IsEnrollment, IsKeyId, Enrolling.Roles, Enrolling.PairingDigest,
         Enrolling.CreateCode, TargetTags, Signing.Correct, CodeOf;
    OneRole();
    Walkthrough.NoTags();
    CodeWritten(env, db, d, attempts, Arr([Str("read")]), Arr([]));
  }

  lemma PairAdmitted(env: Env, d: Device, name: string)
    requires CanPair(env, d) && (name == d.name || IsChannel(name))
    ensures Enrolling.PairRequest(Str(d.code), Str(name), Str(d.channel), Str(d.signer.keyId), Str(PublicKey(env, d)),
                                  Null, Null).Ok?
  {
    hide IsChannel, IsPairingCode, IsEnrollment, IsKeyId, Signing.Correct, Base64Url.Decode, Base64Url.Encode;
    Base64Url.DecodeExactlyEncodings(Str(PublicKey(env, d)), 32, env.backend.publicFromSeed(d.signer.seed));
  }

  lemma FirstGeneration(device: string)
    ensures Enrolling.Highest(Enrolling.Generations(map[], device)) == 0
  {
  }

  lemma NewRow(env: Env, d: Device, attempts: int)
    ensures Enrolling.NewEnrollment(env, CodeOf(d, attempts), 1, Arr([Str("read")]), [], d.signer.keyId,
                                    PublicKey(env, d), (Enrolling.ToOption(Null), Enrolling.ToOption(Null)), d.token,
                                    d.now) == RowOf(env, d)
  {
    hide Enrolling.TokenDigest, PublicKey, TagText, Dumps;
    RoleText();
  }

  lemma Admitted(env: Env, db: Db, d: Device, attempts: int)
    requires db.enrollments == map[]
    ensures var r := Enrolling.Admission(env, db, CodeOf(d, attempts), Str(d.name), Str(d.channel), d.signer.keyId,
                                         PublicKey(env, d), Null, Null, d.now, d.e, d.token);
            r.Ok? && r.value.0 == RowOf(env, d)
  {
    hide Enrolling.Highest, Enrolling.Generations, Enrolling.NewEnrollment, Enrolling.PairResponse, Enrolling.ToOption,
         PublicKey, TagText, ReadJson, ReadTags, RowOf;
    OneRole();
    FirstGeneration(d.name);
    NewRow(env, d, attempts);
  }

  lemma RoleText()
    ensures Dumps(Arr([Str("read")])) == TagText(["read"])
  {
    hide Dumps;
    assert Strings(["read"]) == [Str("read")];
  }

  lemma Pairs(env: Env, db: Db, d: Device, attempts: int)
    requires CanPair(env, d) && attempts > 0 && db.enrollments == map[]
    requires db.pairingCodes == map[Enrolling.PairingDigest(env, d.code) := CodeOf(d, attempts)]
    ensures var effect := EnrollingEffect(env, db, PairOp(env, d));
            effect.Ok? && effect.value.0 == db.(enrollments := map[d.e := RowOf(env, d)],
                                                pairingCodes := effect.value.0.pairingCodes)
  {
    hide Enrolling.PairRequest, Enrolling.Admission, Enrolling.PairingDigest, PublicKey, RowOf, CanPair, TagText;
    PairAdmitted(env, d, d.name);
    Admitted(env, db, d, attempts);
  }

  /** An upload and a pairing, from the empty store. */
  lemma Paired(env: Env, d: Device, manifest: Json) returns (ops: seq<Op>)
    requires CanPair(env, d) && env.verify("revision", manifest) && ValidateRevision(env.digest, manifest).Ok?
    ensures var db := After(env, ops).db;
            && ValidateRevision(env.digest, manifest).value in db.revisions
               && db.enrollments == map[d.e := RowOf(env, d)]
            && db.channels == map[] && db.assignments == map[] && db.idempotency == map[] && db.reports == map[]
            && db.assignmentReports == map[]
  {
    hide Step, After, EnrollingEffect, ValidateRevision, RowOf, CodeOf, CanPair;
    var id := ValidateRevision(env.digest, manifest).value;
    ops := Walkthrough.Upload(env, manifest, id);
    Creates(env, After(env, ops).db, d, 5);
    ops := Enrolled(env, ops, CreateOp(d, 5));
    Pairs(env, After(env, ops).db, d, 5);
    ops := Enrolled(env, ops, PairOp(env, d));
  }

  lemma Enrolled(env: Env, ops: seq<Op>, op: Op) returns (longer: seq<Op>)
    requires op.CreateCode? || op.PairDevice?
    requires EnrollingEffect(env, After(env, ops).db, op).Ok?
    ensures longer == ops + [op] && After(env, longer).db == EnrollingEffect(env, After(env, ops).db, op).value.0
    ensures OutcomeOf(env, longer, |ops|).Ok?
  {
    hide Step, After, EnrollingEffect;
    longer := ops + [op];
    OneMoreStep(env, ops, op);
    EnrollingStep(env, After(env, ops), op);
    assert World.Before(env, longer, |ops|) == After(env, ops);
  }

  // ---------- Publishing and assigning ----------

  lemma DevicePublishes(env: Env, db: Db, d: Device, revision: string)
    requires IsChannel(d.channel) && revision in db.revisions && db.enrollments == map[d.e := RowOf(env, d)]
    requires db.channels == map[] && db.assignments == map[] && db.idempotency == map[] && db.reports == map[]
    requires db.assignmentReports == map[]
    ensures var op := Walkthrough.PublishOp(d.channel, revision);
            var after := Call(env, db, op.key, op.request, op.now, op.ties).0;
            && DeviceAt(env, after, d, revision, Channel(Some(revision), None, 0), {"publish-1"})
            && after.assignments == map[] && after.assignmentReports == map[]
  {
    hide IsChannel, Dumps, Call, RowOf, PublishResponse;
    var op := Walkthrough.PublishOp(d.channel, revision);
    var (after, response) := DoPublish(db, d.channel, Str(revision), Null, Null).value;
    Walkthrough.Goes(env, db, op, PublishAction(d.channel, Str(revision), Null, Null), after, response);
  }

  function DeviceAssignOp(d: Device, candidate: Json): Op {
    CallRollout("assign-1", Assign(candidate), d.now, map[])
  }

  lemma DevicePrepared(env: Env, db: Db, d: Device, candidate: Json, c: Contract, revision: string)
    requires IsDeviceAssignment(env, d, candidate, c, 0, revision) && c.kind == "candidate"
    ensures Prepare(env, db, Assign(candidate), d.now) == Ok(AssignAction(candidate, d.e, Some(c), []))
  {
    hide IsEnrollment, ValidateAssignment, TargetTags;
    AssignmentFields(env, d, candidate, c, 0, revision);
  }

  lemma RowEligible(env: Env, d: Device, contract: Contract, generation: nat)
    requires contract.enrollmentGeneration == 1 && contract.channelGeneration == generation
    ensures Eligible(RowOf(env, d), Str(d.channel), [], Some(contract), generation) == Ok(())
    ensures ReadTags(RowOf(env, d).tags) == Ok([])
  {
    hide ReadTags, TagText, PublicKey, Enrolling.TokenDigest;
    OneRole();
  }

  lemma DeviceEffect(env: Env, db: Db, d: Device, candidate: Json, c: Contract, revision: string)
    requires IsDeviceAssignment(env, d, candidate, c, 0, revision)
    requires DeviceAt(env, db, d, revision, Channel(Some(revision), None, 0), {"publish-1"}) && db.assignments == map[]
    ensures candidate.Obj?
    ensures var effect := DoAssign(db, candidate, d.e, Some(c), []);
            effect.Ok? && effect.value.0 == db.(assignments := map[d.e := CandidateRow(d, revision, candidate)])
  {
    hide Dumps, Eligible, ContractFields, RowOf, Strings, ValidateAssignment;
    AssignmentFields(env, d, candidate, c, 0, revision);
    RowEligible(env, d, c, 0);
  }

  lemma DeviceAssigned(env: Env, db: Db, d: Device, candidate: Json, c: Contract, revision: string)
    requires IsDeviceAssignment(env, d, candidate, c, 0, revision) && c.kind == "candidate"
    requires DeviceAt(env, db, d, revision, Channel(Some(revision), None, 0), {"publish-1"})
    requires db.assignments == map[] && db.assignmentReports == map[]
    ensures var op := DeviceAssignOp(d, candidate);
            var after := Call(env, db, op.key, op.request, op.now, op.ties).0;
            && DeviceAt(env, after, d, revision, Channel(Some(revision), None, 0), {"publish-1", "assign-1"})
            && after.assignments == map[d.e := CandidateRow(d, revision, candidate)] && after.assignmentReports == map[]
  {
    hide Dumps, Call, Prepare, DoAssign, CandidateRow, RowOf, IsDeviceAssignment;
    DevicePrepared(env, db, d, candidate, c, revision);
    DeviceEffect(env, db, d, candidate, c, revision);
    var (after, response) := DoAssign(db, candidate, d.e, Some(c), []).value;
    Walkthrough.Goes(env, db, DeviceAssignOp(d, candidate), AssignAction(candidate, d.e, Some(c), []), after, response);
  }

  // ---------- Reporting ----------

  function UnsignedReport(d: Device, c: Contract): Json {
    Obj(map["enrollment_id" := Str(d.e), "channel" := Str(d.channel), "revision_id" := Str(c.revision),
            "result" := Str("success"), "assignment_id" := Str(c.assignmentId), "assignment_kind" := Str(c.kind),
            "enrollment_generation" := Num(c.enrollmentGeneration), "channel_generation" := Num(c.channelGeneration)])
  }

  /** The report as the device signs it, with the key it paired with. */
  function SignedReport(env: Env, d: Device, c: Contract): Json {
    Issued(env, d.signer, "report", UnsignedReport(d, c))
  }

  lemma ReportNames(d: Device, c: Contract)
    ensures var plain := UnsignedReport(d, c);
            && plain.Obj? && Get(plain, "enrollment_id") == Str(d.e) && Get(plain, "channel") == Str(d.channel)
            && Get(plain, "revision_id") == Str(c.revision) && Get(plain, "result") == Str("success")
  {
  }

  lemma ReportRepeats(d: Device, c: Contract)
    ensures UnsignedReport(d, c).Obj? && Repeats(UnsignedReport(d, c), c)
  {
  }

  lemma ReportFields(env: Env, d: Device, c: Contract)
    requires IsKeyId(d.signer.keyId)
    ensures var report := SignedReport(env, d, c);
            && report.Obj? && Get(report, "enrollment_id") == Str(d.e) && Get(report, "channel") == Str(d.channel)
            && Get(report, "revision_id") == Str(c.revision) && Get(report, "result") == Str("success")
            && Repeats(report, c)
  {
    hide IsKeyId, Issued, UnsignedReport, Get;
    ReportNames(d, c);
    ReportRepeats(d, c);
    var plain := UnsignedReport(d, c);
    IssuedKeeps(env, d.signer, "report", plain, "enrollment_id", Null);
    IssuedKeeps(env, d.signer, "report", plain, "channel", Null);
    IssuedKeeps(env, d.signer, "report", plain, "revision_id", Null);
    IssuedKeeps(env, d.signer, "report", plain, "result", Null);
    IssuedKeeps(env, d.signer, "report", plain, "assignment_id", Null);
    IssuedKeeps(env, d.signer, "report", plain, "assignment_kind", Null);
    IssuedKeeps(env, d.signer, "report", plain, "enrollment_generation", Null);
    IssuedKeeps(env, d.signer, "report", plain, "channel_generation", Null);
  }

  lemma DeviceReportPrepared(env: Env, db: Db, d: Device, c: Contract)
    requires CanPair(env, d) && db.enrollments == map[d.e := RowOf(env, d)]
    ensures var report := SignedReport(env, d, c);
            Prepare(env, db, Request.Report(report), d.now) == Ok(ReportAction(report, Text(d.e), "success"))
  {
    hide SignedReport, ReportVerified, Get, RowOf, IsChannel, IsPairingCode, IsEnrollment, IsKeyId, Signing.Correct;
    ReportFields(env, d, c);
    DeviceVerifies(env, db, d, c);
  }

  /** The report is checked with the key of the enrollment, which is the one it was signed with. */
  lemma DeviceVerifies(env: Env, db: Db, d: Device, c: Contract)
    requires CanPair(env, d) && db.enrollments == map[d.e := RowOf(env, d)]
    ensures SignedReport(env, d, c).Obj?
    ensures ReportVerified(env, db, SignedReport(env, d, c), Text(d.e)) == Ok(true)
  {
    hide IsKeyId, Issued, UnsignedReport, Signing.Correct, Signing.VerifyWithKey, Base64Url.Decode, Base64Url.Encode,
         TagText, Enrolling.TokenDigest, IsChannel, IsPairingCode, IsEnrollment;
    ReportNames(d, c);
    IssuedIsSigned(env, d.signer, "report", UnsignedReport(d, c));
    IssuedVerifies(env, d.signer, "report", UnsignedReport(d, c));
    Base64Url.DecodeExactlyEncodings(Str(PublicKey(env, d)), 32, env.backend.publicFromSeed(d.signer.seed));
  }

  function ReportRow(env: Env, d: Device, c: Contract): AssignmentReport {
    AssignmentReport(1, d.channel, 0, c.revision, "candidate", "success", Dumps(SignedReport(env, d, c)))
  }

  lemma DeviceReportEffect(env: Env, db: Db, d: Device, candidate: Json, c: Contract, revision: string)
    requires IsKeyId(d.signer.keyId)
    requires IsDeviceAssignment(env, d, candidate, c, 0, revision) && c.kind == "candidate"
    requires db.assignments == map[d.e := CandidateRow(d, revision, candidate)] && db.assignmentReports == map[]
    ensures SignedReport(env, d, c).Obj?
    ensures var effect := DoReport(env, db, SignedReport(env, d, c), Text(d.e), "success");
            && effect.Ok?
            && effect.value.0 == db.(assignmentReports := map[(d.e, c.assignmentId) := ReportRow(env, d, c)])
  {
    hide IsKeyId, SignedReport, StoredContract, Get, Dumps, Repeats, ValidateAssignment;
    ReportFields(env, d, c);
    AssignmentFields(env, d, candidate, c, 0, revision);
    StoredDocument(env, d.channel, revision, "candidate", candidate, Some(c));
  }

  lemma DeviceReports(env: Env, db: Db, d: Device, candidate: Json, c: Contract, revision: string)
    requires CanPair(env, d) && IsDeviceAssignment(env, d, candidate, c, 0, revision) && c.kind == "candidate"
    requires DeviceAt(env, db, d, revision, Channel(Some(revision), None, 0), {"publish-1", "assign-1"})
    requires db.assignments == map[d.e := CandidateRow(d, revision, candidate)] && db.assignmentReports == map[]
    ensures var op := Walkthrough.ReportOp(SignedReport(env, d, c), d.now);
            var after := Call(env, db, op.key, op.request, op.now, op.ties).0;
            && DeviceAt(env, after, d, revision, Channel(Some(revision), None, 0),
                        {"publish-1", "assign-1", "report-1"})
            && after.assignments == map[d.e := CandidateRow(d, revision, candidate)]
            && after.assignmentReports == map[(d.e, c.assignmentId) := ReportRow(env, d, c)]
  {
    hide IsEnrollment, IsChannel, IsPairingCode, IsKeyId, SignedReport, Signing.Correct, Dumps, Call, Prepare, DoReport,
         CandidateRow, ReportRow, RowOf, IsDeviceAssignment;
    DeviceReportPrepared(env, db, d, c);
    DeviceReportEffect(env, db, d, candidate, c, revision);
    var report := SignedReport(env, d, c);
    var (after, response) := DoReport(env, db, report, Text(d.e), "success").value;
    Walkthrough.Goes(env, db, Walkthrough.ReportOp(report, d.now), ReportAction(report, Text(d.e), "success"), after,
                     response);
  }

  // ---------- Promoting with a batch ----------

  /** A verified promotion to generation 1 that declares this one active assignment. */
  predicate IsBatchEvent(env: Env, event: Json, active: Contract) {
    && Walkthrough.IsPromotion(env, event, 1)
    && Get(event, "active_assignment_ids") == Arr([Str(active.assignmentId)])
  }

  /** The promotion requires the device's own report and issues its active assignment. */
  function DevicePromoteOp(d: Device, revision: string, active: Json, event: Json): Op {
    CallRollout("promote-1", Promote(d.channel, Str(revision), Null, [Str(d.e)], event, Arr([active])), d.now, map[])
  }

  lemma OneDocument(env: Env, document: Json, contract: Contract, now: int)
    requires BatchContract(env, document, now) == Ok(contract)
    ensures BatchContracts(env, [document], now) == Ok([(contract, document)])
  {
    hide BatchContract, Ids;
    var documents := [document];
    assert documents[..|documents| - 1] == [];
    assert BatchContracts(env, documents[..|documents| - 1], now) == Ok([]);
    NoIds();
    assert [] + [(contract, document)] == [(contract, document)];
  }

  lemma OneId(contract: Contract, document: Json)
    ensures Strings(Text.Sorted(Ids([(contract, document)]))) == [Str(contract.assignmentId)]
  {
    hide Text.Sorted, Text.Ascending;
    var batch := [(contract, document)];
    assert Ids(batch) == {contract.assignmentId};
    OneText(Text.Sorted(Ids(batch)), contract.assignmentId);
  }

  lemma BatchPrepared(env: Env, db: Db, request: Request, contract: Contract, document: Json, now: int)
    requires request.Promote? && env.verify("promotion", request.event) && request.event.Obj?
             && request.batch == Arr([document])
    requires Get(request.event, "active_assignment_ids") == Arr([Str(contract.assignmentId)])
    requires BatchContract(env, document, now) == Ok(contract)
    ensures Prepare(env, db, request, now) ==
            Ok(PromoteAction(request.channel, request.candidate, request.expectedActive, request.required,
                             request.event, Some([(contract, document)])))
  {
    hide BatchContract, BatchContracts, Text.Sorted, Ids, Strings, SignedAssignment, ReportVerified, Bind;
    OneDocument(env, document, contract, now);
    OneId(contract, document);
  }

  lemma OneMember(db: Db, batch: seq<(Contract, Json)>, channel: string, candidate: Json, generation: nat)
    requires |batch| == 1 && BatchMember(db, batch[0].0, channel, candidate, generation).Ok?
    ensures BatchMembers(db, batch, channel, candidate, generation).Ok?
  {
    hide BatchMember;
    assert batch[..0] == [];
  }

  /** The device's report is the only one, so it is the newest. */
  lemma CanaryPassed(env: Env, db: Db, d: Device, c: Contract)
    requires db.assignmentReports == map[(d.e, c.assignmentId) := ReportRow(env, d, c)]
    ensures CanariesPassed(db, [Str(d.e)], d.channel, Str(c.revision), map[]) == Ok(())
  {
    hide SignedReport, Dumps;
    var key := (d.e, c.assignmentId);
    assert key in CandidateReports(db, d.e, d.channel, c.revision);
    assert CanaryResult(db, Text(d.e), d.channel, Str(c.revision), map[]) == Some("success");
    OnePassed(db, Str(d.e), d.channel, Str(c.revision));
  }

  lemma OnePassed(db: Db, e: Json, channel: string, candidate: Json)
    requires Bind(e).Ok? && CanaryResult(db, Bind(e).value, channel, candidate, map[]) == Some("success")
    ensures CanariesPassed(db, [e], channel, candidate, map[]) == Ok(())
  {
    hide CanaryResult, Bind;
    var required := [e];
    assert required[..|required| - 1] == [];
    assert CanariesPassed(db, required[..|required| - 1], channel, candidate, map[]) == Ok(());
  }

  lemma DevicePromotionPrepared(env: Env, db: Db, d: Device, active: Json, a: Contract, event: Json, revision: string)
    requires IsDeviceAssignment(env, d, active, a, 1, revision) && a.kind == "active" && IsBatchEvent(env, event, a)
    ensures Prepare(env, db, DevicePromoteOp(d, revision, active, event).request, d.now) ==
            Ok(PromoteAction(d.channel, Str(revision), Null, [Str(d.e)], event, Some([(a, active)])))
  {
    hide ValidateAssignment, Prepare;
    BatchPrepared(env, db, DevicePromoteOp(d, revision, active, event).request, a, active, d.now);
  }

  lemma ActiveFits(env: Env, db: Db, d: Device, active: Json, a: Contract, revision: string)
    requires IsDeviceAssignment(env, d, active, a, 1, revision) && db.enrollments == map[d.e := RowOf(env, d)]
    ensures ForPromotion(db, a, d.channel, Str(revision), 1)
  {
    hide ReadTags, TagText, PublicKey, Enrolling.TokenDigest, ValidateAssignment;
    OneRole();
  }

  lemma DevicePromotionSucceeds(env: Env, db: Db, d: Device, candidate: Json, c: Contract, active: Json, a: Contract,
                                event: Json, revision: string)
    requires IsDeviceAssignment(env, d, active, a, 1, revision) && IsBatchEvent(env, event, a) && c.revision == revision
    requires DeviceAt(env, db, d, revision, Channel(Some(revision), None, 0), {"publish-1", "assign-1", "report-1"})
    requires db.assignments == map[d.e := CandidateRow(d, revision, candidate)]
    requires db.assignmentReports == map[(d.e, c.assignmentId) := ReportRow(env, d, c)]
    ensures DoPromote(db, d.channel, Str(revision), Null, [Str(d.e)], event, Some([(a, active)]), map[]).Ok?
  {
    hide DoPromote, CanariesPassed, ClearChannel, Insertable, BatchMember, ForPromotion, RowOf, ReportRow, Dumps,
         ValidateAssignment;
    CanaryPassed(env, db, d, c);
    ActiveFits(env, db, d, active, a, revision);
    MemberFits(db, a, d.channel, Str(revision), 1);
    OneMember(db, [(a, active)], d.channel, Str(revision), 1);
    FirstInserted(db.assignments, a, active, d.channel);
    PromoteSucceeds(db, d.channel, Str(revision), Null, [Str(d.e)], event, Some([(a, active)]), map[]);
  }

  /** The batch takes the place of the enrollment's candidate row. */
  lemma FirstInserted(rows: map<string, Assignment>, a: Contract, active: Json, channel: string)
    requires a.enrollment in rows ==> rows[a.enrollment].channel == channel
    ensures Insertable(ClearChannel(rows, channel), [(a, active)])
  {
    InsertableBesides(rows, [(a, active)], channel);
  }

  lemma DevicePromotes(env: Env, db: Db, d: Device, candidate: Json, c: Contract, active: Json, a: Contract,
                       event: Json, revision: string)
    requires IsDeviceAssignment(env, d, active, a, 1, revision) && a.kind == "active" && IsBatchEvent(env, event, a)
    requires c.revision == revision
    requires DeviceAt(env, db, d, revision, Channel(Some(revision), None, 0), {"publish-1", "assign-1", "report-1"})
    requires db.assignments == map[d.e := CandidateRow(d, revision, candidate)]
    requires db.assignmentReports == map[(d.e, c.assignmentId) := ReportRow(env, d, c)]
    ensures var op := DevicePromoteOp(d, revision, active, event);
            Commits(env, db, op.key, op.request, op.now, op.ties)
  {
    hide Prepare, DoPromote, CandidateRow, ReportRow, RowOf, IsDeviceAssignment, IsBatchEvent;
    DevicePromotionPrepared(env, db, d, active, a, event, revision);
    DevicePromotionSucceeds(env, db, d, candidate, c, active, a, event, revision);
  }

  // ---------- The whole run ----------

  lemma ReadyParts(env: Env, d: Device, manifest: Json, candidate: Json, c: Contract)
    requires Ready(env, d, manifest, candidate, c)
    ensures CanPair(env, d) && IsChannel(d.channel) && IsKeyId(d.signer.keyId) && c.kind == "candidate"
    ensures env.verify("revision", manifest) && ValidateRevision(env.digest, manifest).Ok?
    ensures c.revision == ValidateRevision(env.digest, manifest).value
    ensures IsDeviceAssignment(env, d, candidate, c, 0, c.revision)
  {
    hide ValidateAssignment, ValidateRevision, IsChannel, IsKeyId, IsEnrollment, IsPairingCode, Signing.Correct;
  }

  /** Up to the assignment: the candidate reaches the paired device. */
  lemma AssignedRun(env: Env, d: Device, manifest: Json, candidate: Json, c: Contract) returns (ops: seq<Op>)
    requires Ready(env, d, manifest, candidate, c)
    ensures DeviceAt(env, After(env, ops).db, d, c.revision, Channel(Some(c.revision), None, 0),
                     {"publish-1", "assign-1"})
    ensures After(env, ops).db.assignments == map[d.e := CandidateRow(d, c.revision, candidate)]
    ensures After(env, ops).db.assignmentReports == map[]
  {
    hide Step, After, ValidateRevision, Ready, CanPair, IsChannel, IsKeyId, Call, DeviceAt, CandidateRow, RowOf,
         DeviceAssignOp, Walkthrough.PublishOp, IsDeviceAssignment, OutcomeOf;
    ReadyParts(env, d, manifest, candidate, c);
    OpsAreCalls(d, c.revision, candidate);
    ops := Paired(env, d, manifest);
    DevicePublishes(env, After(env, ops).db, d, c.revision);
    ops := Walkthrough.Extend(env, ops, Walkthrough.PublishOp(d.channel, c.revision));
    DeviceAssigned(env, After(env, ops).db, d, candidate, c, c.revision);
    ops := Walkthrough.Extend(env, ops, DeviceAssignOp(d, candidate));
  }

  lemma OpsAreCalls(d: Device, revision: string, candidate: Json)
    ensures Walkthrough.PublishOp(d.channel, revision).CallRollout? && DeviceAssignOp(d, candidate).CallRollout?
  {
  }

  /** Up to the report: the device's own signed report of its success is recorded under the assignment's identifier. */
  lemma ReportedRun(env: Env, d: Device, manifest: Json, candidate: Json, c: Contract) returns (ops: seq<Op>)
    requires Ready(env, d, manifest, candidate, c)
    ensures DeviceAt(env, After(env, ops).db, d, c.revision, Channel(Some(c.revision), None, 0),
                     {"publish-1", "assign-1", "report-1"})
    ensures After(env, ops).db.assignments == map[d.e := CandidateRow(d, c.revision, candidate)]
    ensures After(env, ops).db.assignmentReports == map[(d.e, c.assignmentId) := ReportRow(env, d, c)]
  {
    hide Step, After, ValidateRevision, Ready, CanPair, IsChannel, IsKeyId, Call, DeviceAt, CandidateRow, ReportRow,
         RowOf, IsDeviceAssignment, SignedReport, OutcomeOf;
    ReadyParts(env, d, manifest, candidate, c);
    ops := AssignedRun(env, d, manifest, candidate, c);
    DeviceReports(env, After(env, ops).db, d, candidate, c, c.revision);
    ops := Walkthrough.Extend(env, ops, Walkthrough.ReportOp(SignedReport(env, d, c), d.now));
  }

  /** From the empty store a device can pair, be assigned any signed candidate that names it, report it with its own
      key, and be promoted to, behind that report, with any signed active assignment of its own. */
  lemma DeviceRolloutCompletes(env: Env, d: Device, manifest: Json, candidate: Json, c: Contract, active: Json,
                               a: Contract, event: Json) returns (ops: seq<Op>)
    requires Ready(env, d, manifest, candidate, c)
    requires IsDeviceAssignment(env, d, active, a, 1, c.revision) && a.kind == "active" && IsBatchEvent(env, event, a)
    ensures ops != []
    ensures var op := ops[|ops| - 1];
            && Committing(env, After(env, ops[..|ops| - 1]), op)
            && op.CallRollout? && op.request.Promote? && op.request.required == [Str(d.e)]
            && op.request.batch == Arr([active]) && After(env, ops[..|ops| - 1]).db.reports == map[]
    ensures After(env, ops[..|ops| - 1]).db.assignments == map[d.e := CandidateRow(d, c.revision, candidate)]
    ensures OnChannel(After(env, ops).db.assignments, d.channel) ==
            map[d.e := Assignment(d.channel, c.revision, "active", Dumps(active))]
    ensures d.channel in After(env, ops).db.channels
            && After(env, ops).db.channels[d.channel] == Channel(None, Some(c.revision), 1)
  {
    hide Step, After, ValidateRevision, Ready, CanPair, Call, Commits, CandidateRow, ReportRow, RowOf,
         IsDeviceAssignment, IsBatchEvent, Dumps, OutcomeOf;
    ReadyParts(env, d, manifest, candidate, c);
    var before := ReportedRun(env, d, manifest, candidate, c);
    DevicePromotes(env, After(env, before).db, d, candidate, c, active, a, event, c.revision);
    ops := Walkthrough.Extend(env, before, DevicePromoteOp(d, c.revision, active, event));
    BatchLeaves(env, After(env, before).db, d, active, a, event, c.revision);
  }

  lemma ActiveRows(env: Env, d: Device, active: Json, a: Contract, revision: string)
    requires IsDeviceAssignment(env, d, active, a, 1, revision)
    ensures DistinctEnrollments([active])
    ensures RowsOf([active], d.channel, revision) ==
            map[d.e := Assignment(d.channel, revision, "active", Dumps(active))]
  {
    hide Dumps, IsDeviceAssignment, IsEnrollment, TargetTags, ValidateAssignment;
    AssignmentFields(env, d, active, a, 1, revision);
    assert EnrollmentOf([active][0]) == d.e;
  }

  lemma BatchLeaves(env: Env, db: Db, d: Device, active: Json, a: Contract, event: Json, revision: string)
    requires IsDeviceAssignment(env, d, active, a, 1, revision)
    requires var op := DevicePromoteOp(d, revision, active, event);
             Commits(env, db, op.key, op.request, op.now, op.ties)
    requires d.channel in db.channels && db.channels[d.channel] == Channel(Some(revision), None, 0)
    ensures var op := DevicePromoteOp(d, revision, active, event);
            var after := Call(env, db, op.key, op.request, op.now, op.ties).0;
            && OnChannel(after.assignments, d.channel) ==
               map[d.e := Assignment(d.channel, revision, "active", Dumps(active))]
            && d.channel in after.channels && after.channels[d.channel] == Channel(None, Some(revision), 1)
  {
    hide Commits, Call, OnChannel, ClearChannel, Dumps, IsDeviceAssignment, RowsOf, DistinctEnrollments, IdsOf,
         Text.Sorted, Strings;
    var op := DevicePromoteOp(d, revision, active, event);
    BatchIsExact(env, db, op.key, op.request, op.now, op.ties);
    ActiveRows(env, d, active, a, revision);
  }

  // ---------- An operator's documents ----------

  function IdentityOf(d: Device, kind: string, generation: int, revision: string): Json {
    Obj(map["schema" := Num(2), "enrollment_id" := Str(d.e), "enrollment_generation" := Num(1),
            "channel" := Str(d.channel), "channel_generation" := Num(generation), "revision_id" := Str(revision),
            "assignment_kind" := Str(kind), "apply_policy" := Str("enforce"), "nonce" := Str("0123456789abcdef"),
            "issued_at" := Num(d.now), "expires_at" := Num(d.now + 60)])
  }

  function AssignmentIdOf(digest: Digest, d: Device, kind: string, generation: int, revision: string): string {
    ContentId(digest, IdentityOf(d, kind, generation, revision))
  }

  function PlainDocument(digest: Digest, d: Device, kind: string, generation: int, revision: string): Json {
    Obj(IdentityOf(d, kind, generation, revision).fields["assignment_id" :=
      Str(AssignmentIdOf(digest, d, kind, generation, revision))])
  }

  /** The assignment as the operator signs it. */
  function DocumentOf(env: Env, operator: Signer, d: Device, kind: string, generation: int, revision: string): Json {
    Issued(env, operator, "assignment", PlainDocument(env.digest, d, kind, generation, revision))
  }

  function ContractOf(digest: Digest, d: Device, kind: string, generation: int, revision: string): Contract {
    Contract(AssignmentIdOf(digest, d, kind, generation, revision), d.e, 1, Str(d.channel), generation, revision, kind,
             "enforce", [])
  }

  /** The promotion as the operator signs it. */
  function EventOf(env: Env, operator: Signer, active: Contract): Json {
    Issued(env, operator, "promotion", PlainEvent(active))
  }

  function PlainEvent(active: Contract): Json {
    Obj(map["generation" := Num(1), "active_assignment_ids" := Arr([Str(active.assignmentId)])])
  }

  lemma NonceIsGood()
    ensures IsNonce("0123456789abcdef")
  {
  }

  lemma DocumentNames(digest: Digest, d: Device, kind: string, generation: int, revision: string)
    ensures var document := PlainDocument(digest, d, kind, generation, revision);
            && document.Obj? && Get(document, "schema") == Num(2)
            && Get(document, "assignment_id") == Str(AssignmentIdOf(digest, d, kind, generation, revision))
            && Get(document, "enrollment_id") == Str(d.e) && Get(document, "enrollment_generation") == Num(1)
            && Get(document, "channel") == GetOr(document, "channel", Str("")) == Str(d.channel)
            && Get(document, "channel_generation") == Num(generation)
  {
    hide AssignmentIdOf;
  }

  lemma DocumentTerms(digest: Digest, d: Device, kind: string, generation: int, revision: string)
    ensures var document := PlainDocument(digest, d, kind, generation, revision);
            && document.Obj? && Get(document, "revision_id") == Str(revision)
            && Get(document, "assignment_kind") == Str(kind) && Get(document, "apply_policy") == Str("enforce")
            && GetOr(document, "target_tags", Arr([])) == Arr([])
  {
    hide AssignmentIdOf;
  }

  lemma DocumentWindow(digest: Digest, d: Device, kind: string, generation: int, revision: string)
    ensures var document := PlainDocument(digest, d, kind, generation, revision);
            && document.Obj? && Get(document, "nonce") == Str("0123456789abcdef")
            && Get(document, "issued_at") == Num(d.now) && Get(document, "expires_at") == Num(d.now + 60)
  {
    hide AssignmentIdOf;
  }

  lemma DocumentIdentity(digest: Digest, d: Device, kind: string, generation: int, revision: string)
    ensures var document := PlainDocument(digest, d, kind, generation, revision);
            document.Obj? && AssignmentIdentity(document) == IdentityOf(d, kind, generation, revision)
  {
    hide AssignmentIdOf;
    var identity := IdentityOf(d, kind, generation, revision);
    var document := PlainDocument(digest, d, kind, generation, revision);
    assert "assignment_id" !in identity.fields && "signature" !in identity.fields;
    assert document.fields - {"assignment_id", "signature"} == identity.fields;
  }

  lemma DocumentIsValid(digest: Digest, d: Device, kind: string, generation: int, revision: string)
    requires kind in {"candidate", "active"} && generation >= 0
    requires IsEnrollment(d.e) && IsChannel(d.channel) && IsDigest(revision)
    requires IsDigest(AssignmentIdOf(digest, d, kind, generation, revision))
    ensures ValidateAssignment(digest, PlainDocument(digest, d, kind, generation, revision), kind, Some(d.now)) ==
            Ok(ContractOf(digest, d, kind, generation, revision))
  {
    hide IsEnrollment, IsChannel, IsDigest, IsNonce, ContentId, TargetTags, PlainDocument, IdentityOf, Get, GetOr,
         AssignmentIdentity, ValidateAssignment;
    DocumentNames(digest, d, kind, generation, revision);
    DocumentTerms(digest, d, kind, generation, revision);
    DocumentWindow(digest, d, kind, generation, revision);
    DocumentIdentity(digest, d, kind, generation, revision);
    NonceIsGood();
    Walkthrough.NoTags();
    AssignmentAccepted(digest, PlainDocument(digest, d, kind, generation, revision), kind, Some(d.now),
                       ContractOf(digest, d, kind, generation, revision));
  }

  /** The two documents agree on everything that validation reads. */
  predicate SameTerms(a: Json, b: Json) {
    && a.Obj? && b.Obj? && AssignmentIdentity(a) == AssignmentIdentity(b)
    && Get(a, "schema") == Get(b, "schema") && Get(a, "assignment_id") == Get(b, "assignment_id")
    && Get(a, "enrollment_id") == Get(b, "enrollment_id")
    && Get(a, "enrollment_generation") == Get(b, "enrollment_generation")
    && Get(a, "channel") == Get(b, "channel") && GetOr(a, "channel", Str("")) == GetOr(b, "channel", Str(""))
    && Get(a, "channel_generation") == Get(b, "channel_generation") && Get(a, "revision_id") == Get(b, "revision_id")
    && Get(a, "assignment_kind") == Get(b, "assignment_kind") && Get(a, "apply_policy") == Get(b, "apply_policy")
    && Get(a, "nonce") == Get(b, "nonce") && Get(a, "issued_at") == Get(b, "issued_at")
    && Get(a, "expires_at") == Get(b, "expires_at")
    && GetOr(a, "target_tags", Arr([])) == GetOr(b, "target_tags", Arr([]))
  }

  lemma SameContract(digest: Digest, a: Json, b: Json, kind: string, now: Option<int>, c: Contract)
    requires SameTerms(a, b)
    ensures ValidateAssignment(digest, a, kind, now) == Ok(c) <==> ValidateAssignment(digest, b, kind, now) == Ok(c)
  {
    hide IsEnrollment, IsChannel, IsDigest, IsNonce, ContentId, TargetTags, Get, GetOr, ValidateAssignment,
         AssignmentIdentity, Matches;
    AssignmentAccepted(digest, a, kind, now, c);
    AssignmentAccepted(digest, b, kind, now, c);
  }

  lemma SigningKeepsTerms(env: Env, operator: Signer, document: Json)
    requires document.Obj? && IsKeyId(operator.keyId)
    ensures SameTerms(Issued(env, operator, "assignment", document), document)
  {
    hide IsKeyId, Issued, Get, GetOr, AssignmentIdentity;
    IssuedIsSigned(env, operator, "assignment", document);
    SameIdentity(Issued(env, operator, "assignment", document), document);
    IssuedKeeps(env, operator, "assignment", document, "schema", Null);
    IssuedKeeps(env, operator, "assignment", document, "assignment_id", Null);
    IssuedKeeps(env, operator, "assignment", document, "enrollment_id", Null);
    IssuedKeeps(env, operator, "assignment", document, "enrollment_generation", Null);
    IssuedKeeps(env, operator, "assignment", document, "channel", Str(""));
    IssuedKeeps(env, operator, "assignment", document, "channel_generation", Null);
    IssuedKeeps(env, operator, "assignment", document, "revision_id", Null);
    IssuedKeeps(env, operator, "assignment", document, "assignment_kind", Null);
    IssuedKeeps(env, operator, "assignment", document, "apply_policy", Null);
    IssuedKeeps(env, operator, "assignment", document, "nonce", Null);
    IssuedKeeps(env, operator, "assignment", document, "issued_at", Null);
    IssuedKeeps(env, operator, "assignment", document, "expires_at", Null);
    IssuedKeeps(env, operator, "assignment", document, "target_tags", Arr([]));
  }

  lemma SameIdentity(signed: Json, document: Json)
    requires signed.Obj? && document.Obj? && Signing.Unsigned(signed) == Signing.Unsigned(document)
    ensures AssignmentIdentity(signed) == AssignmentIdentity(document)
  {
    var both := {"assignment_id", "signature"};
    assert signed.fields - both == (signed.fields - {"signature"}) - {"assignment_id"};
    assert document.fields - both == (document.fields - {"signature"}) - {"assignment_id"};
  }

  /** Whatever an operator trusted by the verifier signs for the device meets the hypotheses of the run above, as long
      as the identifiers of the two assignments are well formed. */
  lemma OperatorIssues(env: Env, operator: Signer, d: Device, manifest: Json)
    requires Trusts(env, operator) && IsKeyId(operator.keyId) && CanPair(env, d)
    requires env.verify("revision", manifest) && ValidateRevision(env.digest, manifest).Ok?
    requires IsDigest(AssignmentIdOf(env.digest, d, "candidate", 0, ValidateRevision(env.digest, manifest).value))
    requires IsDigest(AssignmentIdOf(env.digest, d, "active", 1, ValidateRevision(env.digest, manifest).value))
    ensures var revision := ValidateRevision(env.digest, manifest).value;
            var c, a := ContractOf(env.digest, d, "candidate", 0, revision),
                ContractOf(env.digest, d, "active", 1, revision);
            && Ready(env, d, manifest, DocumentOf(env, operator, d, "candidate", 0, revision), c)
            && IsDeviceAssignment(env, d, DocumentOf(env, operator, d, "active", 1, revision), a, 1, revision)
            && IsBatchEvent(env, EventOf(env, operator, a), a)
  {
    hide IsKeyId, IsChannel, IsEnrollment, IsPairingCode, IsDigest, Signing.Correct, ValidateRevision, Issued,
         AssignmentIdOf, PlainDocument, ValidateAssignment;
    var revision := ValidateRevision(env.digest, manifest).value;
    RevisionIsDigest(env.digest, manifest);
    IssuedForDevice(env, operator, d, "candidate", 0, revision);
    IssuedForDevice(env, operator, d, "active", 1, revision);
    IssuedEvent(env, operator, ContractOf(env.digest, d, "active", 1, revision));
  }

  lemma IssuedForDevice(env: Env, operator: Signer, d: Device, kind: string, generation: nat, revision: string)
    requires Trusts(env, operator) && IsKeyId(operator.keyId) && kind in {"candidate", "active"}
    requires IsEnrollment(d.e) && IsChannel(d.channel) && IsDigest(revision)
    requires IsDigest(AssignmentIdOf(env.digest, d, kind, generation, revision))
    ensures IsDeviceAssignment(env, d, DocumentOf(env, operator, d, kind, generation, revision),
                               ContractOf(env.digest, d, kind, generation, revision), generation, revision)
  {
    hide IsKeyId, IsChannel, IsEnrollment, IsDigest, Issued, AssignmentIdOf, PlainDocument, ValidateAssignment,
         SameTerms;
    var plain := PlainDocument(env.digest, d, kind, generation, revision);
    DocumentNames(env.digest, d, kind, generation, revision);
    DocumentIsValid(env.digest, d, kind, generation, revision);
    SigningKeepsTerms(env, operator, plain);
    SameContract(env.digest, DocumentOf(env, operator, d, kind, generation, revision), plain, kind, Some(d.now),
                 ContractOf(env.digest, d, kind, generation, revision));
  }

  lemma IssuedEvent(env: Env, operator: Signer, active: Contract)
    requires Trusts(env, operator) && IsKeyId(operator.keyId)
    ensures IsBatchEvent(env, EventOf(env, operator, active), active)
  {
    hide IsKeyId, Issued;
    IssuedKeeps(env, operator, "promotion", PlainEvent(active), "generation", Null);
    IssuedKeeps(env, operator, "promotion", PlainEvent(active), "active_assignment_ids", Null);
  }

  lemma RevisionIsDigest(digest: Digest, manifest: Json)
    requires ValidateRevision(digest, manifest).Ok?
    ensures IsDigest(ValidateRevision(digest, manifest).value)
  {
    hide IsDigest, ContentId, RevisionIdentity;
  }
}
