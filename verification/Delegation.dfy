/** Exactly which intents, convergence assignments and convergence reports are accepted, and as what. */
module Delegation {
  import opened Json
  import opened Text
  import opened Formats
  import opened Documents
  import opened Convergence

  /** Signed as a release intent with exactly its eleven fields, identified by its content, with well-formed names. */
  predicate SignedIntent(digest: Digest, verify: Verifier, document: Json, intent: Intent) {
    && document.Obj? && Get(document, "schema") == Num(1)
    && document.fields.Keys == {
         "schema", "release_intent_id", "bundle_id", "channel", "assignment_key_id", "allowed_logical_devices",
         "max_assignments", "minimum_agent_version", "issued_at", "expires_at", "signature"}
    && verify("release_intent", document)
    && Get(document, "release_intent_id") == Str(intent.id) && IsDigest(intent.id)
    && intent.id == ContentId(digest, Without(document, {"release_intent_id", "signature"}))
    && Get(document, "bundle_id") == intent.bundle && IsDigest(PyStr(intent.bundle))
    && Get(document, "channel") == intent.channel && IsChannel(PyStr(intent.channel))
    && Get(document, "assignment_key_id") == intent.key && IsKeyId(PyStr(intent.key))
  }

  /** Its devices, numbers and window. */
  predicate GrantsOf(document: Json, intent: Intent)
    requires document.Obj?
  {
    && Get(document, "allowed_logical_devices") == Arr(Strings(intent.devices)) && Ascending(intent.devices)
    && 1 <= |intent.devices| <= 64 && (forall i :: 0 <= i < |intent.devices| ==> IsChannel(intent.devices[i]))
    && Get(document, "max_assignments") == Num(intent.maxAssignments)
       && |intent.devices| <= intent.maxAssignments <= 256
    && Get(document, "minimum_agent_version") == intent.agent && IsVersion(PyStr(intent.agent))
    && Get(document, "issued_at") == Num(intent.issued) && Get(document, "expires_at") == Num(intent.expires)
    && intent.issued < intent.expires <= intent.issued + 30 * 24 * 60 * 60
  }

  /** An intent is accepted exactly when it is signed, well formed and current, as what it says field by field. */
  lemma IntentExactly(digest: Digest, verify: Verifier, document: Json, now: int, intent: Intent)
    ensures ValidateIntent(digest, verify, document, now) == Ok(intent) <==>
            && SignedIntent(digest, verify, document, intent) && GrantsOf(document, intent)
            && intent.issued - 300 <= now <= intent.expires
  {
    hide UniqueList, ContentId, IsDigest, IsChannel, IsKeyId, IsVersion, Strings, PyStr, Get, Ascending, Without;
    if document.Obj? {
      UniqueListExactly(Get(document, "allowed_logical_devices"), IsChannel, 64, false, intent.devices);
    }
  }

  /** Signed as a convergence assignment with exactly its sixteen fields, by the key its intent delegates to, identified
      by its content, for the intent's bundle and channel and one of its devices. */
  predicate SignedUnder(digest: Digest, verify: Verifier, document: Json, intent: Intent, a: Assigned) {
    && document.Obj? && Get(document, "schema") == Num(1)
    && document.fields.Keys == {
         "schema", "assignment_id", "release_intent", "bundle_id", "enrollment_id", "enrollment_generation",
         "logical_device_id", "channel", "target_tags", "rollout_id", "wave_id", "apply_policy", "nonce", "issued_at",
         "expires_at", "signature"}
    && verify("convergence_assignment", document)
    && Get(document, "signature").Obj? && Get(Get(document, "signature"), "key_id") == intent.key
    && Get(document, "assignment_id") == Str(a.id) && IsDigest(a.id)
    && a.id == ContentId(digest, Without(document, {"assignment_id", "signature"}))
    && a.intentId == intent.id
    && Get(document, "bundle_id") == a.bundle == intent.bundle
       && Get(document, "channel") == a.channel == intent.channel
    && Get(document, "logical_device_id") == a.device && a.device.Str? && a.device.s in intent.devices
    && IsChannel(a.device.s)
  }

  /** Its enrollment is the given one, unrevoked, in this generation, on this device and channel, with these tags. */
  predicate IssuedTo(document: Json, enrollment: Json, a: Assigned)
    requires document.Obj?
  {
    && enrollment.Obj? && Falsy(Get(enrollment, "revoked"))
    && Get(document, "enrollment_id") == Get(enrollment, "enrollment_id") == a.enrollment
    && MatchesOrEmpty(a.enrollment, IsEnrollment)
    && Get(document, "enrollment_generation") == Get(enrollment, "generation") == a.generation
    && a.generation.Num? && a.generation.n >= 1
    && Get(enrollment, "logical_device_id") == a.device && Get(enrollment, "channel") == a.channel
    && Get(document, "target_tags") == GetOr(enrollment, "target_tags", Arr([])) == Arr(Strings(a.tags))
    && Ascending(a.tags) && |a.tags| <= 64 && forall i :: 0 <= i < |a.tags| ==> IsTag(a.tags[i])
  }

  /** Its run, policy, nonce and window, which lies within the intent's. */
  predicate TermsOf(document: Json, now: int, intent: Intent, a: Assigned)
    requires document.Obj?
  {
    && Get(document, "rollout_id") == a.rollout && IsRunId(PyStr(a.rollout))
    && Get(document, "wave_id") == a.wave && a.wave.Num? && 0 <= a.wave.n <= 1024
    && Get(document, "apply_policy") == a.policy && a.policy in {Str("observe"), Str("enforce")}
    && IsNonce(PyStr(Get(document, "nonce")))
    && Get(document, "issued_at").Num? && Get(document, "expires_at") == Num(a.expires)
    && var issued := Get(document, "issued_at").n;
    && issued < a.expires <= issued + 24 * 60 * 60 && issued - 300 <= now <= a.expires
    && intent.issued <= issued && a.expires <= intent.expires
  }

  lemma IntentOf(digest: Digest, verify: Verifier, document: Json, enrollment: Json, now: int)
    requires ValidateConvergence(digest, verify, document, enrollment, now).Ok?
    ensures document.Obj? && ValidateIntent(digest, verify, Get(document, "release_intent"), now).Ok?
  {
    hide UniqueList, ValidateIntent, WithinIntent, RunFields, AssignmentTail, Get;
  }

  lemma HeadExactly(digest: Digest, verify: Verifier, document: Json, enrollment: Json, intent: Intent, a: Assigned)
    requires document.Obj? && Get(document, "assignment_id") == Str(a.id) && a.intentId == intent.id
    requires Get(document, "bundle_id") == a.bundle && Get(document, "channel") == a.channel
             && Get(document, "logical_device_id") == a.device && intent.bundle == a.bundle
    requires Get(document, "enrollment_id") == a.enrollment && Get(document, "enrollment_generation") == a.generation
    ensures AssignmentHead(verify, document) && WithinIntent(digest, document, enrollment, intent) <==>
            && SignedUnder(digest, verify, document, intent, a)
            && enrollment.Obj? && Falsy(Get(enrollment, "revoked"))
            && Get(document, "enrollment_id") == Get(enrollment, "enrollment_id")
            && MatchesOrEmpty(a.enrollment, IsEnrollment)
            && Get(document, "enrollment_generation") == Get(enrollment, "generation")
            && a.generation.Num? && a.generation.n >= 1
            && Get(enrollment, "logical_device_id") == a.device && Get(enrollment, "channel") == a.channel
  {
    hide ContentId, IsDigest, IsEnrollment, IsChannel, Get, Without, Falsy;
    if a.device.Str? {
      DeviceIsNamed(a.device);
    }
  }

  lemma DeviceIsNamed(device: Json)
    requires device.Str?
    ensures MatchesOrEmpty(device, IsChannel) <==> IsChannel(device.s)
  {
    hide IsChannel;
  }

  /** The result, as the document has it. */
  predicate Repeated(document: Json, intent: Intent, a: Assigned)
    requires document.Obj?
  {
    && Get(document, "assignment_id") == Str(a.id) && a.intentId == intent.id
       && Get(document, "bundle_id") == a.bundle == intent.bundle
    && Get(document, "enrollment_id") == a.enrollment && Get(document, "enrollment_generation") == a.generation
    && Get(document, "logical_device_id") == a.device && Get(document, "channel") == a.channel
    && Get(document, "rollout_id") == a.rollout && Get(document, "wave_id") == a.wave
    && Get(document, "apply_policy") == a.policy && Get(document, "expires_at") == Num(a.expires)
  }

  /** Validation as one condition over its parts. */
  lemma ValidatedParts(digest: Digest, verify: Verifier, document: Json, enrollment: Json, now: int, a: Assigned)
    ensures ValidateConvergence(digest, verify, document, enrollment, now) == Ok(a) <==>
            && AssignmentHead(verify, document) && document.Obj?
            && ValidateIntent(digest, verify, Get(document, "release_intent"), now).Ok?
            && var intent := ValidateIntent(digest, verify, Get(document, "release_intent"), now).value;
            && WithinIntent(digest, document, enrollment, intent) && enrollment.Obj?
            && UniqueList(Get(document, "target_tags"), IsTag, 64, true) == Ok(a.tags)
            && GetOr(enrollment, "target_tags", Arr([])) == Arr(Strings(a.tags))
            && RunFields(document) && AssignmentTail(document, intent, now) && Repeated(document, intent, a)
  {
    hide UniqueList, ValidateIntent, RunFields, ContentId, Identity, IsDigest, Matches, Get, GetOr, Strings, Falsy,
         MatchesOrEmpty;
    if AssignmentHead(verify, document) {
      NoCollection(Get(document, "apply_policy"));
    }
  }

  lemma NoCollection(v: Json)
    ensures v in {Str("observe"), Str("enforce")} ==> Hashable(v)
  {
  }

  lemma TailExactly(document: Json, now: int, intent: Intent, a: Assigned)
    requires document.Obj? && Repeated(document, intent, a)
    ensures RunFields(document) && AssignmentTail(document, intent, now) <==> TermsOf(document, now, intent, a)
  {
    hide Get, IsRunId, IsNonce, PyStr;
  }

  /** An assignment is accepted exactly when its intent is, it is signed by the delegated key, issued to the given
      enrollment and within the intent's terms, as what it says field by field. */
  lemma ConvergenceExactly(digest: Digest, verify: Verifier, document: Json, enrollment: Json, now: int, a: Assigned)
    ensures ValidateConvergence(digest, verify, document, enrollment, now) == Ok(a) <==>
            && document.Obj?
            && ValidateIntent(digest, verify, Get(document, "release_intent"), now).Ok?
            && var intent := ValidateIntent(digest, verify, Get(document, "release_intent"), now).value;
            && SignedUnder(digest, verify, document, intent, a) && IssuedTo(document, enrollment, a)
            && TermsOf(document, now, intent, a)
  {
    hide ValidateConvergence, ValidateIntent, AssignmentHead, WithinIntent, UniqueList, RunFields, AssignmentTail, Get,
         GetOr, ContentId, Without, IsDigest, IsChannel, IsEnrollment, IsTag, IsRunId, IsNonce, PyStr, Falsy, Ascending,
         Strings, MatchesOrEmpty;
    ValidatedParts(digest, verify, document, enrollment, now, a);
    if document.Obj? && ValidateIntent(digest, verify, Get(document, "release_intent"), now).Ok? {
      var intent := ValidateIntent(digest, verify, Get(document, "release_intent"), now).value;
      UniqueListExactly(Get(document, "target_tags"), IsTag, 64, true, a.tags);
      if Repeated(document, intent, a) {
        HeadExactly(digest, verify, document, enrollment, intent, a);
        TailExactly(document, now, intent, a);
      }
    }
  }

  // ---------- Reports ----------

  /** Signed as a convergence report with exactly its thirteen fields, about this assignment. */
  predicate SignedAnswer(verify: Verifier, document: Json, a: Assigned) {
    && document.Obj? && Get(document, "schema") == Num(1)
    && document.fields.Keys == {
         "schema", "assignment_id", "bundle_id", "enrollment_id", "enrollment_generation", "rollout_id", "wave_id",
         "result", "observed_at", "code_state", "profile_state", "secret_state", "signature"}
    && verify("convergence_report", document)
    && Get(document, "assignment_id") == Str(a.id) && Get(document, "bundle_id") == a.bundle
    && Get(document, "enrollment_id") == a.enrollment && Get(document, "enrollment_generation") == a.generation
    && Get(document, "rollout_id") == a.rollout && Get(document, "wave_id") == a.wave
  }

  predicate InState(v: Json) {
    v in {Str("unchanged"), Str("changed"), Str("failed"), Str("not_applicable")}
  }

  predicate Observed(document: Json)
    requires document.Obj?
  {
    && Get(document, "result") in {
         Str("success"), Str("failure"), Str("observed"), Str("drift_blocked"), Str("external_dependency_failure"),
         Str("client_upgrade_required"), Str("restart_required")}
    && Get(document, "observed_at").Num? && Get(document, "observed_at").n >= 0
    && InState(Get(document, "code_state")) && InState(Get(document, "profile_state"))
    && InState(Get(document, "secret_state"))
  }

  lemma StateExactly(document: Json, field: string)
    requires document.Obj?
    ensures StateField(document, field).Pass? <==> InState(Get(document, field))
  {
  }

  lemma ResultExactly(result: Json)
    ensures OneOf(result, RESULTS) <==>
            result in {Str("success"), Str("failure"), Str("observed"), Str("drift_blocked"),
                       Str("external_dependency_failure"), Str("client_upgrade_required"), Str("restart_required")}
    ensures OneOf(result, RESULTS) ==> Hashable(result)
  {
  }

  /** A report is accepted exactly when it is signed about this assignment and says something that can be said; the
      response is the seven fields that name the assignment and the result. */
  lemma ReportExactly(document: Json, a: Assigned, verify: Verifier, r: Json)
    ensures ValidateConvergenceReport(document, a, verify) == Ok(r) <==>
            && SignedAnswer(verify, document, a) && Observed(document)
            && r == Obj(map["assignment_id" := Get(document, "assignment_id"),
                            "bundle_id" := Get(document, "bundle_id"),
                            "enrollment_id" := Get(document, "enrollment_id"),
                            "enrollment_generation" := Get(document, "enrollment_generation"),
                            "rollout_id" := Get(document, "rollout_id"), "wave_id" := Get(document, "wave_id"),
                            "result" := Get(document, "result")])
  {
    hide Get, StateField, OneOf, InState;
    if document.Obj? {
      StateExactly(document, "code_state");
      StateExactly(document, "profile_state");
      StateExactly(document, "secret_state");
      ResultExactly(Get(document, "result"));
    }
  }
}
