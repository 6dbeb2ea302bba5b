/** Content-addressed documents: revisions and schema 2 assignments. */
module Documents {
  import opened Json
  import opened Text
  import opened Utf8
  import opened Canonical
  import opened Formats

  /** The hexadecimal SHA-256 digest, left abstract. */
  type Digest = Bytes -> string

  /** No two byte strings share a digest. */
  ghost predicate Injective(digest: Digest) {
    forall x, y :: digest(x) == digest(y) ==> x == y
  }

  const DAY := 24 * 60 * 60

  /** `"sha256:" + sha256(canonical_json(identity))`. */
  function ContentId(digest: Digest, identity: Json): string {
    "sha256:" + digest(CanonicalJson(identity))
  }

  lemma ContentIdInjective(digest: Digest, v: Json, w: Json)
    requires Injective(digest)
    ensures ContentId(digest, v) == ContentId(digest, w) <==> v == w
  {
    hide CanonicalJson;
    if ContentId(digest, v) == ContentId(digest, w) {
      var x, y := digest(CanonicalJson(v)), digest(CanonicalJson(w));
      assert x == ("sha256:" + x)[7..] && y == ("sha256:" + y)[7..];
      CanonicalInjective(v, w);
    }
  }

  // ---------- Target tags ----------

  predicate Hashable(v: Json) {
    !v.Arr? && !v.Obj?
  }

  predicate GoodTags(items: seq<Json>) {
    && (forall i :: 0 <= i < |items| ==> items[i].Str? && IsTag(items[i].s))
    && |items| == |Elements(items)|
    && |items| <= 16
  }

  function Texts(items: seq<Json>): set<string> {
    set v | v in items && v.Str? :: v.s
  }

  /** `_validate_target_tags`: at most sixteen distinct tags, returned in order. */
  function TargetTags(tags: Json): Outcome<seq<string>> {
    if !tags.Arr? then Fail(Invalid) else
    :- Need(forall v :: v in tags.items ==> Hashable(v), Broken);
    :- Need(GoodTags(tags.items), Invalid);
    Ok(Sorted(Texts(tags.items)))
  }

  /** Exactly the lists of at most sixteen well-formed texts without a repeat are accepted, as the increasing list of
      them. */
  lemma TagsAccepted(tags: Json, r: seq<string>)
    ensures TargetTags(tags) == Ok(r) <==>
            && tags.Arr? && |tags.items| <= 16 && Distinct(tags.items)
            && (forall i :: 0 <= i < |tags.items| ==> tags.items[i].Str? && IsTag(tags.items[i].s))
            && Ascending(r) && Elements(r) == Texts(tags.items)
  {
    hide IsTag, Sorted, Ascending, Texts;
    SortedUnique(r);
    if tags.Arr? {
      DistinctCount(tags.items);
      assert forall v :: v in tags.items ==> exists i :: 0 <= i < |tags.items| && tags.items[i] == v;
    }
  }

  /** Sorted valid tags are what the table stores, and reading them back gives the same list. */
  lemma StoredTags(tags: Json)
    requires TargetTags(tags).Ok?
    ensures TargetTags(Arr(Strings(TargetTags(tags).value))) == TargetTags(tags)
  {
    hide Sorted, IsTag, AtMost;
    var items := tags.items;
    var r := Sorted(Texts(items));
    var again := Strings(r);
    assert Texts(again) == Elements(r) by {
      forall x | x in Elements(r)
        ensures x in Texts(again)
      {
        var i :| 0 <= i < |r| && r[i] == x;
        assert again[i] == Str(x);
      }
    }
    forall i | 0 <= i < |again|
      ensures again[i].Str? && IsTag(again[i].s)
    {
      assert r[i] in Elements(r);
    }
    forall i, j | 0 <= i < j < |again|
      ensures again[i] != again[j]
    {
      assert Before(r[i], r[j]);
    }
    DistinctCount(again);
    FewTexts(items);
    assert |again| == |r| == |Texts(items)|;
  }

  lemma {:induction false} FewTexts(items: seq<Json>)
    ensures |Texts(items)| <= |items|
  {
    if items != [] {
      var t := items[..|items| - 1];
      var last := items[|items| - 1];
      FewTexts(t);
      assert items == t + [last];
      assert Texts(items) == Texts(t) + (if last.Str? then {last.s} else {});
    }
  }

  // ---------- Schema 2 assignments ----------

  datatype Contract = Contract(
    assignmentId: string, enrollment: string, enrollmentGeneration: int, channel: Json, channelGeneration: int,
    revision: string, kind: string, policy: string, tags: seq<string>
  )

  function AssignmentIdentity(document: Json): Json
    requires document.Obj?
  {
    Without(document, {"assignment_id", "signature"})
  }

  /** The two dicts have the same keys outside the set, with the same values. */
  ghost predicate AgreeOutside(d: Json, e: Json, keys: set<string>)
    requires d.Obj? && e.Obj?
  {
    forall k :: k !in keys ==>
      (k in d.fields <==> k in e.fields) && (k in d.fields ==> d.fields[k] == e.fields[k])
  }

  lemma WithoutAgrees(d: Json, e: Json, keys: set<string>)
    requires d.Obj? && e.Obj?
    ensures Without(d, keys) == Without(e, keys) <==> AgreeOutside(d, e, keys)
  {
    var x, y := d.fields - keys, e.fields - keys;
    if x == y {
      forall k | k !in keys
        ensures (k in d.fields <==> k in e.fields) && (k in d.fields ==> d.fields[k] == e.fields[k])
      {
        assert k in d.fields <==> k in x;
        assert k in e.fields <==> k in y;
      }
    }
  }

  /** `CHANNEL.fullmatch(str(v))` and its like. */
  predicate Matches(v: Json, format: string -> bool) {
    format(PyStr(v))
  }

  predicate ValidAt(issued: int, expires: int, now: int) {
    issued <= now + 300 && now <= expires
  }

  /** Every check of `validate_assignment_v2` on the document alone, apart from its tags. */
  predicate WellFormedAssignment(digest: Digest, document: Json, expectedKind: string) {
    && document.Obj? && Get(document, "schema") == Num(2)
    && var id := Get(document, "assignment_id");
    && id.Str? && IsDigest(id.s) && id.s == ContentId(digest, AssignmentIdentity(document))
    && var enrollment := Get(document, "enrollment_id");
    && enrollment.Str? && IsEnrollment(enrollment.s)
    && var generation := Get(document, "enrollment_generation");
    && generation.Num? && generation.n >= 1
    && Matches(GetOr(document, "channel", Str("")), IsChannel)
    && var channelGeneration := Get(document, "channel_generation");
    && channelGeneration.Num? && channelGeneration.n >= 0
    && var revision := Get(document, "revision_id");
    && revision.Str? && IsDigest(revision.s)
    && Get(document, "assignment_kind") == Str(expectedKind) && expectedKind in {"candidate", "active"}
    && Get(document, "apply_policy") in {Str("observe"), Str("enforce")}
    && var nonce := Get(document, "nonce");
    && nonce.Str? && IsNonce(nonce.s)
    && var issued := Get(document, "issued_at");
    && var expires := Get(document, "expires_at");
    && issued.Num? && expires.Num? && issued.n < expires.n <= issued.n + 7 * DAY
  }

  /** `validate_assignment_v2`; `now` is None when the validity window is not checked against the clock. */
  function ValidateAssignment(digest: Digest, document: Json, expectedKind: string,
                              now: Option<int>): (r: Outcome<Contract>)
    ensures r.Ok? ==> WellFormedAssignment(digest, document, expectedKind)
  {
    if !WellFormedAssignment(digest, document, expectedKind) then Fail(Invalid) else
    :- Need(now.Some? ==> ValidAt(Get(document, "issued_at").n, Get(document, "expires_at").n, now.value), Invalid);
    var tags :- TargetTags(GetOr(document, "target_tags", Arr([])));
    Ok(Contract(
      Get(document, "assignment_id").s, Get(document, "enrollment_id").s, Get(document, "enrollment_generation").n,
      Get(document, "channel"), Get(document, "channel_generation").n, Get(document, "revision_id").s,
      expectedKind, Get(document, "apply_policy").s, tags))
  }

  /** A document is accepted with a contract exactly when every field is well formed, it carries its own content id, it
      is in time if the clock is consulted, and the contract repeats it field by field. */
  lemma AssignmentAccepted(digest: Digest, document: Json, kind: string, now: Option<int>, c: Contract)
    ensures ValidateAssignment(digest, document, kind, now) == Ok(c) <==>
            && document.Obj? && Get(document, "schema") == Num(2)
            && Get(document, "assignment_id") == Str(c.assignmentId) && IsDigest(c.assignmentId)
            && c.assignmentId == ContentId(digest, AssignmentIdentity(document))
            && Get(document, "enrollment_id") == Str(c.enrollment) && IsEnrollment(c.enrollment)
            && Get(document, "enrollment_generation") == Num(c.enrollmentGeneration) && c.enrollmentGeneration >= 1
            && Get(document, "channel") == c.channel && Matches(GetOr(document, "channel", Str("")), IsChannel)
            && Get(document, "channel_generation") == Num(c.channelGeneration) && c.channelGeneration >= 0
            && Get(document, "revision_id") == Str(c.revision) && IsDigest(c.revision)
            && Get(document, "assignment_kind") == Str(c.kind) && c.kind == kind && kind in {"candidate", "active"}
            && Get(document, "apply_policy") == Str(c.policy) && c.policy in {"observe", "enforce"}
            && Matches(Get(document, "nonce"), IsNonce) && Get(document, "nonce").Str?
            && InWindow(document, now)
            && TargetTags(GetOr(document, "target_tags", Arr([]))) == Ok(c.tags)
  {
    hide ContentId, AssignmentIdentity, IsChannel, IsDigest, IsEnrollment, IsNonce, TargetTags;
  }

  /** Issued before it expires, valid for at most a week, and current if the clock is consulted. */
  predicate InWindow(document: Json, now: Option<int>)
    requires document.Obj?
  {
    && var issued, expires := Get(document, "issued_at"), Get(document, "expires_at");
    && issued.Num? && expires.Num? && issued.n < expires.n <= issued.n + 7 * 24 * 60 * 60
    && (now.Some? ==> issued.n - 300 <= now.value <= expires.n)
  }

  /** A document accepted once stays acceptable when the clock is no longer consulted, with the same contract. */
  lemma StaysValid(digest: Digest, document: Json, kind: string, now: int)
    requires ValidateAssignment(digest, document, kind, Some(now)).Ok?
    ensures ValidateAssignment(digest, document, kind, None) == ValidateAssignment(digest, document, kind, Some(now))
  {
    hide ContentId, AssignmentIdentity, Matches, IsDigest, IsEnrollment, IsNonce, TargetTags;
  }

  /** The identifier commits to every field of the document but itself and the signature. */
  lemma AssignmentIdCommits(digest: Digest, d: Json, e: Json, k: string, l: string, t: Option<int>, u: Option<int>)
    requires Injective(digest)
    requires ValidateAssignment(digest, d, k, t).Ok? && ValidateAssignment(digest, e, l, u).Ok?
    ensures ValidateAssignment(digest, d, k, t).value.assignmentId ==
            ValidateAssignment(digest, e, l, u).value.assignmentId
            <==> AgreeOutside(d, e, {"assignment_id", "signature"})
  {
    hide ContentId, Without, AgreeOutside, Matches, IsDigest, IsEnrollment, IsNonce, TargetTags;
    ContentIdInjective(digest, AssignmentIdentity(d), AssignmentIdentity(e));
    WithoutAgrees(d, e, {"assignment_id", "signature"});
  }

  /** An assignment that survives one clock reading was issued at most five minutes ahead of it. The same document
      is accepted at exactly the times of its window. */
  lemma AcceptanceWindow(digest: Digest, document: Json, kind: string, now: int)
    requires ValidateAssignment(digest, document, kind, None).Ok?
    ensures ValidateAssignment(digest, document, kind, Some(now)).Ok? <==>
            Get(document, "issued_at").n - 300 <= now <= Get(document, "expires_at").n
  {
    hide ContentId, AssignmentIdentity, Matches, IsDigest, IsEnrollment, IsNonce, TargetTags;
  }

  // ---------- Revisions ----------

  function RevisionIdentity(manifest: Json): Json
    requires manifest.Obj?
  {
    Without(manifest, {"revision_id", "created_utc", "signature"})
  }

  /** `validate_revision`. */
  function ValidateRevision(digest: Digest, manifest: Json): (r: Outcome<string>)
    ensures r.Ok? ==> manifest.Obj? && r.value == ContentId(digest, RevisionIdentity(manifest))
  {
    if !(manifest.Obj? && Get(manifest, "schema") in {Num(2), Num(3)}) then Fail(Invalid) else
    var base := Get(manifest, "base");
    :- Need(if Get(manifest, "schema") == Num(2) then Get(manifest, "adapters").Obj?
            else base.Obj? && base.fields.Keys == {"adapters"} && base.fields["adapters"].Obj?
                 && Get(manifest, "layers").Arr?,
            Invalid);
    var id := Get(manifest, "revision_id");
    :- Need(id.Str? && IsDigest(id.s), Invalid);
    :- Need(id.s == ContentId(digest, RevisionIdentity(manifest)), Invalid);
    Ok(id.s)
  }

  /** Exactly the manifests of schema 2 with adapters, or of schema 3 with a base of adapters and layers, that carry
      their own content id are accepted, with that id. */
  lemma RevisionAccepted(digest: Digest, manifest: Json, id: string)
    ensures ValidateRevision(digest, manifest) == Ok(id) <==>
            && manifest.Obj?
            && (|| (Get(manifest, "schema") == Num(2) && Get(manifest, "adapters").Obj?)
                || (Get(manifest, "schema") == Num(3) && Get(manifest, "layers").Arr?
                    && exists adapters: Json :: adapters.Obj?
                                                && Get(manifest, "base") == Obj(map["adapters" := adapters])))
            && Get(manifest, "revision_id") == Str(id) && IsDigest(id)
               && id == ContentId(digest, RevisionIdentity(manifest))
  {
    hide ContentId, RevisionIdentity, IsDigest;
    if manifest.Obj? && Get(manifest, "base").Obj? && Get(manifest, "base").fields.Keys == {"adapters"} {
      var base := Get(manifest, "base");
      assert base.fields == map["adapters" := base.fields["adapters"]];
    }
  }

  /** A manifest signed anew keeps its identifier. */
  lemma SignatureIsNotIdentity(digest: Digest, manifest: Json, signature: Json)
    requires manifest.Obj?
    ensures ValidateRevision(digest, Obj(manifest.fields["signature" := signature])) ==
            ValidateRevision(digest, manifest)
  {
    hide ContentId, IsDigest;
    var outside := {"revision_id", "created_utc", "signature"};
    assert manifest.fields["signature" := signature] - outside == manifest.fields - outside;
  }

  /** Two accepted manifests carry one revision id exactly when they agree on every identity field. */
  lemma RevisionIdCommits(digest: Digest, m: Json, n: Json)
    requires Injective(digest)
    requires ValidateRevision(digest, m).Ok? && ValidateRevision(digest, n).Ok?
    ensures ValidateRevision(digest, m) == ValidateRevision(digest, n) <==>
            AgreeOutside(m, n, {"revision_id", "created_utc", "signature"})
  {
    hide ContentId, Without, AgreeOutside, IsDigest;
    ContentIdInjective(digest, RevisionIdentity(m), RevisionIdentity(n));
    WithoutAgrees(m, n, {"revision_id", "created_utc", "signature"});
  }
}
