/** Release intents, the convergence assignments issued under them, and the reports that answer those. */
module Convergence {
  import opened Json
  import opened Text
  import opened Formats
  import opened Documents

  const RESULTS := {"success", "failure", "observed", "drift_blocked", "external_dependency_failure",
                    "client_upgrade_required", "restart_required"}
  const STATES := {"unchanged", "changed", "failed", "not_applicable"}
  const INTENT_FIELDS := {"schema", "release_intent_id", "bundle_id", "channel", "assignment_key_id",
                          "allowed_logical_devices", "max_assignments", "minimum_agent_version", "issued_at",
                          "expires_at", "signature"}
  const ASSIGNMENT_FIELDS := {"schema", "assignment_id", "release_intent", "bundle_id", "enrollment_id",
                              "enrollment_generation", "logical_device_id", "channel", "target_tags", "rollout_id",
                              "wave_id", "apply_policy", "nonce", "issued_at", "expires_at", "signature"}
  const REPORT_FIELDS := {"schema", "assignment_id", "bundle_id", "enrollment_id", "enrollment_generation",
                          "rollout_id", "wave_id", "result", "observed_at", "code_state", "profile_state",
                          "secret_state", "signature"}

  type Verifier = (string, Json) -> bool

  datatype Intent = Intent(id: string, bundle: Json, channel: Json, key: Json, devices: seq<string>,
                           maxAssignments: int, agent: Json, issued: int, expires: int)

  datatype Assigned = Assigned(id: string, intentId: string, bundle: Json, enrollment: Json, generation: Json,
                               device: Json, channel: Json, tags: seq<string>, rollout: Json, wave: Json, policy: Json,
                               expires: int)

  // ---------- Shared checks ----------

  function Identity(document: Json, idField: string): Json
    requires document.Obj?
  {
    Without(document, {idField, "signature"})
  }

  /** The document carries the content id of the rest of itself. */
  predicate Identified(digest: Digest, document: Json, idField: string)
    requires document.Obj?
  {
    var id := Get(document, idField);
    id.Str? && IsDigest(id.s) && id.s == ContentId(digest, Identity(document, idField))
  }

  /** `sorted` compares within one kind of value only; a single distinct value is never compared. */
  predicate Sortable(items: seq<Json>) {
    || (forall i, j :: 0 <= i < j < |items| ==> items[i] == items[j])
    || (forall v :: v in items ==> v.Str?)
    || (forall v :: v in items ==> v.Num? || v.Bool?)
  }

  function TextOf(v: Json): string {
    if v.Str? then v.s else ""
  }

  function TextList(items: seq<Json>): (r: seq<string>)
    ensures |r| == |items|
  {
    seq(|items|, i requires 0 <= i < |items| => TextOf(items[i]))
  }

  /** `_sorted_unique`: the list equals the sorted list of its own elements, and each has the format. */
  function UniqueList(values: Json, format: string -> bool, limit: nat, allowEmpty: bool): Outcome<seq<string>> {
    if !(values.Arr? && (allowEmpty || values.items != []) && |values.items| <= limit) then Fail(Invalid) else
    :- Need((forall v :: v in values.items ==> Hashable(v)) && Sortable(values.items), Broken);
    :- Need(forall v :: v in values.items ==> v.Str?, Invalid);
    :- Need(TextList(values.items) == Sorted(Elements(TextList(values.items))), Invalid);
    :- Need(forall v :: v in values.items ==> format(TextOf(v)), Invalid);
    Ok(TextList(values.items))
  }

  lemma ListedTexts(r: seq<string>)
    ensures TextList(Strings(r)) == r
    ensures forall v :: v in Strings(r) ==> v.Str? && v.s in r
  {
  }

  lemma TextsListed(items: seq<Json>)
    requires forall v :: v in items ==> v.Str?
    ensures items == Strings(TextList(items))
    ensures forall i :: 0 <= i < |items| ==> TextList(items)[i] == TextOf(items[i]) && items[i] in items
  {
    assert forall i :: 0 <= i < |items| ==> items[i] in items;
  }

  lemma ListAccepted(format: string -> bool, limit: nat, allowEmpty: bool, r: seq<string>)
    requires r == Sorted(Elements(r)) && |r| <= limit && (r == [] ==> allowEmpty)
             && forall i :: 0 <= i < |r| ==> format(r[i])
    ensures UniqueList(Arr(Strings(r)), format, limit, allowEmpty) == Ok(r)
  {
    hide Sorted, Elements, TextList, Strings;
    ListedTexts(r);
    assert |Strings(r)| == |r|;
  }

  lemma AcceptedList(values: Json, format: string -> bool, limit: nat, allowEmpty: bool, r: seq<string>)
    requires UniqueList(values, format, limit, allowEmpty) == Ok(r)
    ensures values == Arr(Strings(r)) && r == Sorted(Elements(r)) && |r| <= limit && (r == [] ==> allowEmpty)
    ensures forall i :: 0 <= i < |r| ==> format(r[i])
  {
    hide Sorted, Elements, TextList, Strings, Sortable, TextOf;
    TextsListed(values.items);
    assert |r| == |values.items|;
  }

  /** Exactly the strictly increasing lists of well-formed texts within the limit are accepted, unchanged. */
  lemma UniqueListExactly(values: Json, format: string -> bool, limit: nat, allowEmpty: bool, r: seq<string>)
    ensures UniqueList(values, format, limit, allowEmpty) == Ok(r) <==>
            && values == Arr(Strings(r)) && Ascending(r) && |r| <= limit && (r == [] ==> allowEmpty)
            && forall i :: 0 <= i < |r| ==> format(r[i])
  {
    hide UniqueList, Sorted, Strings, Ascending, Elements;
    SortedUnique(r);
    if UniqueList(values, format, limit, allowEmpty) == Ok(r) {
      AcceptedList(values, format, limit, allowEmpty, r);
    }
    if values == Arr(Strings(r)) && Ascending(r) && |r| <= limit && (r == [] ==> allowEmpty)
        && forall i :: 0 <= i < |r| ==> format(r[i]) {
      ListAccepted(format, limit, allowEmpty, r);
    }
  }

  // ---------- Release intents ----------

  /** Issued before it expires, and valid for at most `longest` seconds. */
  predicate Window(document: Json, longest: int)
    requires document.Obj?
  {
    var issued, expires := Get(document, "issued_at"), Get(document, "expires_at");
    issued.Num? && expires.Num? && issued.n < expires.n <= issued.n + longest
  }

  predicate Current(document: Json, now: int)
    requires document.Obj?
  {
    var issued, expires := Get(document, "issued_at"), Get(document, "expires_at");
    issued.Num? && expires.Num? && ValidAt(issued.n, expires.n, now)
  }

  /** Schema, fields, signature, content id and the formats of an intent, before its device list is read. */
  predicate IntentHead(digest: Digest, verify: Verifier, document: Json) {
    && document.Obj? && Get(document, "schema") == Num(1) && document.fields.Keys == INTENT_FIELDS
    && verify("release_intent", document)
    && Identified(digest, document, "release_intent_id")
    && Matches(Get(document, "bundle_id"), IsDigest)
    && Matches(Get(document, "channel"), IsChannel)
    && Matches(Get(document, "assignment_key_id"), IsKeyId)
  }

  predicate IntentTail(document: Json, devices: nat, now: int)
    requires document.Obj?
  {
    && var maximum := Get(document, "max_assignments");
    && maximum.Num? && devices <= maximum.n <= 256
    && Matches(Get(document, "minimum_agent_version"), IsVersion)
    && Window(document, 30 * DAY) && Current(document, now)
  }

  /** `validate_release_intent`. */
  function ValidateIntent(digest: Digest, verify: Verifier, document: Json, now: int): Outcome<Intent> {
    if !IntentHead(digest, verify, document) then Fail(Invalid) else
    var devices :- UniqueList(Get(document, "allowed_logical_devices"), IsChannel, 64, false);
    :- Need(IntentTail(document, |devices|, now), Invalid);
    Ok(Intent(Get(document, "release_intent_id").s, Get(document, "bundle_id"), Get(document, "channel"),
              Get(document, "assignment_key_id"), devices, Get(document, "max_assignments").n,
              Get(document, "minimum_agent_version"), Get(document, "issued_at").n, Get(document, "expires_at").n))
  }

  // ---------- Convergence assignments ----------

  predicate Falsy(v: Json) {
    v in {Null, Bool(false), Num(0), Str(""), Arr([]), Obj(map[])}
  }

  /** `format.fullmatch(str(v or ""))`. */
  predicate MatchesOrEmpty(v: Json, format: string -> bool) {
    if Falsy(v) then format("") else Matches(v, format)
  }

  /** The enrollment the assignment names is the one given, and it is not revoked. */
  predicate EnrollmentEligible(document: Json, enrollment: Json)
    requires document.Obj?
  {
    && enrollment.Obj? && Falsy(Get(enrollment, "revoked"))
    && Get(enrollment, "enrollment_id") == Get(document, "enrollment_id")
    && Get(enrollment, "generation") == Get(document, "enrollment_generation")
    && Get(enrollment, "logical_device_id") == Get(document, "logical_device_id")
    && Get(enrollment, "channel") == Get(document, "channel")
    && MatchesOrEmpty(Get(document, "enrollment_id"), IsEnrollment)
    && Get(document, "enrollment_generation").Num? && Get(document, "enrollment_generation").n >= 1
    && MatchesOrEmpty(Get(document, "logical_device_id"), IsChannel)
  }

  predicate AssignmentHead(verify: Verifier, document: Json) {
    && document.Obj? && Get(document, "schema") == Num(1) && document.fields.Keys == ASSIGNMENT_FIELDS
    && verify("convergence_assignment", document)
  }

  /** Signed by the delegated key, for the bundle, channel and a device of the intent, on an eligible enrollment. */
  predicate WithinIntent(digest: Digest, document: Json, enrollment: Json, intent: Intent)
    requires document.Obj?
  {
    && var signature := Get(document, "signature");
    && signature.Obj? && Get(signature, "key_id") == intent.key
    && Identified(digest, document, "assignment_id")
    && Get(document, "bundle_id") == intent.bundle && Get(document, "channel") == intent.channel
    && EnrollmentEligible(document, enrollment)
    && Get(document, "logical_device_id").Str? && Get(document, "logical_device_id").s in intent.devices
  }

  predicate RunFields(document: Json)
    requires document.Obj?
  {
    && Matches(Get(document, "rollout_id"), IsRunId)
    && var wave := Get(document, "wave_id");
    && wave.Num? && 0 <= wave.n <= 1024
  }

  predicate AssignmentTail(document: Json, intent: Intent, now: int)
    requires document.Obj?
  {
    && Get(document, "apply_policy") in {Str("observe"), Str("enforce")}
    && Matches(Get(document, "nonce"), IsNonce)
    && Window(document, DAY) && Current(document, now)
    && intent.issued <= Get(document, "issued_at").n && Get(document, "expires_at").n <= intent.expires
  }

  /** `validate_convergence_assignment`. */
  function ValidateConvergence(digest: Digest, verify: Verifier, document: Json, enrollment: Json,
                               now: int): Outcome<Assigned> {
    if !AssignmentHead(verify, document) then Fail(Invalid) else
    var intent :- ValidateIntent(digest, verify, Get(document, "release_intent"), now);
    :- Need(WithinIntent(digest, document, enrollment, intent), Invalid);
    var tags :- UniqueList(Get(document, "target_tags"), IsTag, 64, true);
    :- Need(GetOr(enrollment, "target_tags", Arr([])) == Arr(Strings(tags)), Invalid);
    :- Need(RunFields(document), Invalid);
    :- Need(Hashable(Get(document, "apply_policy")), Broken);
    :- Need(AssignmentTail(document, intent, now), Invalid);
    Ok(Assigned(Get(document, "assignment_id").s, intent.id, intent.bundle, Get(document, "enrollment_id"),
                Get(document, "enrollment_generation"), Get(document, "logical_device_id"), Get(document, "channel"),
                tags, Get(document, "rollout_id"), Get(document, "wave_id"), Get(document, "apply_policy"),
                Get(document, "expires_at").n))
  }

  // ---------- Reports ----------

  /** The report repeats the six identifiers of the assignment. */
  predicate Answers(document: Json, a: Assigned)
    requires document.Obj?
  {
    && Get(document, "assignment_id") == Str(a.id) && Get(document, "bundle_id") == a.bundle
    && Get(document, "enrollment_id") == a.enrollment && Get(document, "enrollment_generation") == a.generation
    && Get(document, "rollout_id") == a.rollout && Get(document, "wave_id") == a.wave
  }

  predicate OneOf(v: Json, texts: set<string>) {
    v.Str? && v.s in texts
  }

  function StateField(document: Json, field: string): Check
    requires document.Obj?
  {
    if !Hashable(Get(document, field)) then Refuse(Broken) else Need(OneOf(Get(document, field), STATES), Invalid)
  }

  /** `validate_convergence_report`. */
  function ValidateConvergenceReport(document: Json, a: Assigned, verify: Verifier): Outcome<Json> {
    if !(document.Obj? && Get(document, "schema") == Num(1) && document.fields.Keys == REPORT_FIELDS
         && verify("convergence_report", document) && Answers(document, a)) then Fail(Invalid) else
    var result := Get(document, "result");
    :- Need(Hashable(result), Broken);
    :- Need(OneOf(result, RESULTS), Invalid);
    var observed := Get(document, "observed_at");
    :- Need(observed.Num? && observed.n >= 0, Invalid);
    :- StateField(document, "code_state");
    :- StateField(document, "profile_state");
    :- StateField(document, "secret_state");
    Ok(Obj(map["assignment_id" := Str(a.id), "bundle_id" := a.bundle, "enrollment_id" := a.enrollment,
               "enrollment_generation" := a.generation, "rollout_id" := a.rollout, "wave_id" := a.wave,
               "result" := result]))
  }

  // ---------- Delegation only narrows ----------

  lemma IntentBounds(digest: Digest, verify: Verifier, document: Json, now: int)
    requires ValidateIntent(digest, verify, document, now).Ok?
    ensures document.Obj? && verify("release_intent", document)
    ensures var intent := ValidateIntent(digest, verify, document, now).value;
            && Ascending(intent.devices) && 1 <= |intent.devices| <= intent.maxAssignments <= 256
            && Get(document, "allowed_logical_devices") == Arr(Strings(intent.devices))
            && intent.issued < intent.expires <= intent.issued + 30 * 24 * 60 * 60
            && intent.issued - 300 <= now <= intent.expires
            && intent.id == ContentId(digest, Identity(document, "release_intent_id"))
            && Get(document, "max_assignments") == Num(intent.maxAssignments)
            && Get(document, "issued_at") == Num(intent.issued) && Get(document, "expires_at") == Num(intent.expires)
            && Get(document, "bundle_id") == intent.bundle && Get(document, "channel") == intent.channel
            && Get(document, "assignment_key_id") == intent.key
               && Get(document, "minimum_agent_version") == intent.agent
  {
    hide UniqueList, Identity, ContentId, Matches, IsDigest;
    UniqueListExactly(Get(document, "allowed_logical_devices"), IsChannel, 64, false,
                      ValidateIntent(digest, verify, document, now).value.devices);
  }

  /** Whatever an assignment grants, its intent granted: the key that signed it, the bundle, the channel, the device and
      the whole of its window, on the enrollment it names. */
  lemma DelegationNarrows(digest: Digest, verify: Verifier, document: Json, enrollment: Json, now: int)
    requires ValidateConvergence(digest, verify, document, enrollment, now).Ok?
    ensures document.Obj? && verify("convergence_assignment", document)
    ensures ValidateIntent(digest, verify, Get(document, "release_intent"), now).Ok?
    ensures verify("release_intent", Get(document, "release_intent"))
    ensures var a := ValidateConvergence(digest, verify, document, enrollment, now).value;
            var intent := ValidateIntent(digest, verify, Get(document, "release_intent"), now).value;
            var issued := Get(document, "issued_at");
            && Get(document, "signature").Obj? && Get(Get(document, "signature"), "key_id") == intent.key
            && a.intentId == intent.id && a.bundle == intent.bundle && a.channel == intent.channel
            && a.device.Str? && a.device.s in intent.devices && Ascending(intent.devices)
            && |intent.devices| <= intent.maxAssignments
            && issued.Num? && intent.issued <= issued.n <= now + 300 && now <= a.expires <= intent.expires
            && issued.n < a.expires <= issued.n + 24 * 60 * 60
            && enrollment.Obj? && Falsy(Get(enrollment, "revoked"))
            && Get(enrollment, "enrollment_id") == a.enrollment && Get(enrollment, "generation") == a.generation
            && Get(enrollment, "logical_device_id") == a.device && Get(enrollment, "channel") == a.channel
            && GetOr(enrollment, "target_tags", Arr([])) == Arr(Strings(a.tags)) && Ascending(a.tags)
  {
    hide UniqueList, Identified, Matches, MatchesOrEmpty, ValidateIntent, RunFields, AssignmentHead, Falsy;
    var a := ValidateConvergence(digest, verify, document, enrollment, now).value;
    Headed(verify, document);
    IntentBounds(digest, verify, Get(document, "release_intent"), now);
    UniqueListExactly(Get(document, "target_tags"), IsTag, 64, true, a.tags);
  }

  /** The result of validation is what the document says, field by field. */
  lemma ResultRepeatsDocument(digest: Digest, verify: Verifier, document: Json, enrollment: Json, now: int)
    requires ValidateConvergence(digest, verify, document, enrollment, now).Ok?
    ensures document.Obj?
    ensures var a := ValidateConvergence(digest, verify, document, enrollment, now).value;
            && Get(document, "assignment_id") == Str(a.id) && Get(document, "bundle_id") == a.bundle
            && Get(document, "enrollment_id") == a.enrollment && Get(document, "enrollment_generation") == a.generation
            && Get(document, "logical_device_id") == a.device && Get(document, "channel") == a.channel
            && Get(document, "target_tags") == Arr(Strings(a.tags)) && Get(document, "rollout_id") == a.rollout
            && Get(document, "wave_id") == a.wave && Get(document, "apply_policy") == a.policy
            && Get(document, "expires_at") == Num(a.expires)
  {
    hide UniqueList, ValidateIntent, RunFields, AssignmentHead, EnrollmentEligible, Matches, ContentId, Identity;
    Headed(verify, document);
    UniqueListExactly(Get(document, "target_tags"), IsTag, 64, true,
                      ValidateConvergence(digest, verify, document, enrollment, now).value.tags);
  }

  lemma Headed(verify: Verifier, document: Json)
    requires AssignmentHead(verify, document)
    ensures document.Obj? && verify("convergence_assignment", document)
  {
  }

  lemma IntentAnyTime(digest: Digest, verify: Verifier, document: Json, now: int, later: int)
    requires ValidateIntent(digest, verify, document, now).Ok?
    ensures var intent := ValidateIntent(digest, verify, document, now).value;
            ValidateIntent(digest, verify, document, later) ==
            if intent.issued - 300 <= later <= intent.expires then Ok(intent) else Fail(Invalid)
  {
    hide UniqueList, Identified, Matches, IsDigest;
  }

  /** An assignment that is accepted at one moment is accepted, with the same result, at exactly the moments from five
      minutes before its issue to its expiry: the clock check of the intent excludes none of them. */
  lemma AcceptanceTimes(digest: Digest, verify: Verifier, document: Json, enrollment: Json, now: int, later: int)
    requires ValidateConvergence(digest, verify, document, enrollment, now).Ok?
    ensures document.Obj? && Get(document, "issued_at").Num? && Get(document, "expires_at").Num?
    ensures var accepted := Get(document, "issued_at").n - 300 <= later <= Get(document, "expires_at").n;
            && (accepted ==> ValidateConvergence(digest, verify, document, enrollment, later) ==
                             ValidateConvergence(digest, verify, document, enrollment, now))
            && (ValidateConvergence(digest, verify, document, enrollment, later).Ok? <==> accepted)
  {
    hide UniqueList, Matches, ValidateIntent, RunFields, WithinIntent, AssignmentHead;
    Headed(verify, document);
    IntentAnyTime(digest, verify, Get(document, "release_intent"), now, later);
  }

  /** The content id of an assignment commits to its whole intent, enrollment, run and window. */
  lemma AssignmentCommitsToIntent(digest: Digest, verify: Verifier, d: Json, e: Json, m: Json, n: Json, t: int, u: int)
    requires Injective(digest)
    requires ValidateConvergence(digest, verify, d, m, t).Ok? && ValidateConvergence(digest, verify, e, n, u).Ok?
    requires ValidateConvergence(digest, verify, d, m, t).value.id ==
             ValidateConvergence(digest, verify, e, n, u).value.id
    ensures d.Obj? && e.Obj? && Identity(d, "assignment_id") == Identity(e, "assignment_id")
    ensures AgreeOutside(d, e, {"assignment_id", "signature"})
    ensures Get(d, "release_intent") == Get(e, "release_intent")
    ensures ValidateConvergence(digest, verify, d, m, t) == ValidateConvergence(digest, verify, e, n, u)
  {
    hide UniqueList, Matches, ValidateIntent, RunFields, EnrollmentEligible, AssignmentHead, Identity, ContentId,
         Strings, AgreeOutside;
    Headed(verify, d);
    Headed(verify, e);
    ContentIdInjective(digest, Identity(d, "assignment_id"), Identity(e, "assignment_id"));
    IdentityAgrees(d, e, "assignment_id");
    forall k | k !in {"assignment_id", "signature"}
      ensures Get(d, k) == Get(e, k)
    {
      SameIdentitySameField(d, e, k);
    }
    IntentAnyTime(digest, verify, Get(d, "release_intent"), t, u);
  }

  lemma IdentityAgrees(d: Json, e: Json, idField: string)
    requires d.Obj? && e.Obj?
    ensures Identity(d, idField) == Identity(e, idField) <==> AgreeOutside(d, e, {idField, "signature"})
  {
    WithoutAgrees(d, e, {idField, "signature"});
  }

  lemma SameIdentitySameField(d: Json, e: Json, k: string)
    requires d.Obj? && e.Obj? && Identity(d, "assignment_id") == Identity(e, "assignment_id")
             && k !in {"assignment_id", "signature"}
    ensures Get(d, k) == Get(e, k)
  {
    var kept := d.fields - {"assignment_id", "signature"};
    assert kept == e.fields - {"assignment_id", "signature"};
    assert k in d.fields <==> k in kept;
  }

  /** A report is accepted for an assignment only if it repeats its six identifiers, and its response repeats them
      again. */
  lemma ReportAnswersAssignment(document: Json, a: Assigned, verify: Verifier)
    requires ValidateConvergenceReport(document, a, verify).Ok?
    ensures document.Obj? && Answers(document, a)
    ensures var r := ValidateConvergenceReport(document, a, verify).value;
            && r.Obj? && Answers(r, a) && r.fields.Keys == {"assignment_id", "bundle_id", "enrollment_id",
                                                             "enrollment_generation", "rollout_id", "wave_id", "result"}
            && Get(r, "result") == Get(document, "result") && OneOf(Get(r, "result"), RESULTS)
  {
    hide StateField;
  }

  /** One report answers one assignment: accepted against two, it was issued for one and the same content. */
  lemma ReportNamesOneAssignment(digest: Digest, verify: Verifier, device: Verifier, report: Json, d: Json, e: Json,
                                 m: Json, n: Json, t: int, u: int)
    requires Injective(digest)
    requires ValidateConvergence(digest, verify, d, m, t).Ok? && ValidateConvergence(digest, verify, e, n, u).Ok?
    requires ValidateConvergenceReport(report, ValidateConvergence(digest, verify, d, m, t).value, device).Ok?
    requires ValidateConvergenceReport(report, ValidateConvergence(digest, verify, e, n, u).value, device).Ok?
    ensures ValidateConvergence(digest, verify, d, m, t) == ValidateConvergence(digest, verify, e, n, u)
    ensures Identity(d, "assignment_id") == Identity(e, "assignment_id")
  {
    hide ValidateConvergence, ValidateConvergenceReport, Identity;
    ReportAnswersAssignment(report, ValidateConvergence(digest, verify, d, m, t).value, device);
    ReportAnswersAssignment(report, ValidateConvergence(digest, verify, e, n, u).value, device);
    AssignmentCommitsToIntent(digest, verify, d, e, m, n, t, u);
  }
}
