/** What devices are served, each SELECT of a read falling wherever it may in a run. */
module Reads {
  import opened Json
  import opened JsonText
  import opened Formats
  import opened Canonical
  import opened Documents
  import opened Tables
  import opened RolloutInvariant
  import opened RevisionHistory
  import opened EnrollmentHistory
  import opened World
  import opened Access
  import opened Enrolling
  import Admissions
  import Rollout
  import Backups
  import Blobs

  lemma SoundAt(env: Env, ops: seq<Op>, i: nat)
    requires i <= |ops|
    ensures Consistent(env, DbAt(env, ops, i)) && RevisionsSound(env, World.Before(env, ops, i))
    ensures Blobs.BlobsSound(env.digest, DbAt(env, ops, i).blobs, World.Before(env, ops, i).files)
  {
    hide After, Consistent, RevisionsSound, Blobs.BlobsSound;
    AlwaysConsistent(env, ops[..i]);
    RevisionsAlwaysSound(env, ops[..i]);
    Backups.BlobsAlwaysSound(env, ops[..i]);
  }

  // ---------- Assignments ----------

  /** With a row on the channel when its SELECT runs, `assignment` fails only by authentication, and returns exactly the
      signed document that the row holds. */
  lemma ServesSignedAssignment(env: Env, ops: seq<Op>, i: nat, j: nat, k: nat, e: string, channel: string,
                               token: Option<Json>)
    requires i <= j <= k <= |ops|
    requires e in DbAt(env, ops, j).assignments && DbAt(env, ops, j).assignments[e].channel == channel
    ensures var row := DbAt(env, ops, j).assignments[e];
            var r := ReadAssignment(env, DbAt(env, ops, i), DbAt(env, ops, j), DbAt(env, ops, k), e, channel, token);
            && (r.Ok? <==>
                 token.Some? ==>
                   var caller := Authenticate(env, DbAt(env, ops, i), Str(e), token.value, "read");
                   caller.Ok? && caller.value.channel == channel)
            && (r.Ok? ==>
                 && r.value.Obj? && r.value.fields.Keys == {"assignment_kind", "document"}
                 && Get(r.value, "assignment_kind") == Str(row.kind)
                 && Holds(env, e, row, Get(r.value, "document")))
  {
    hide After, ReadAssignment, Authenticate, Holds;
    AssignmentsAlwaysSigned(env, ops[..j], e);
    var document :| Holds(env, e, DbAt(env, ops, j).assignments[e], document);
    HeldIsRead(env, DbAt(env, ops, i), DbAt(env, ops, j), DbAt(env, ops, k), e, channel, token, document);
  }

  lemma HeldIsRead(env: Env, caller: Db, rows: Db, heads: Db, e: string, channel: string, token: Option<Json>,
                   document: Json)
    requires e in rows.assignments && rows.assignments[e].channel == channel
    requires Holds(env, e, rows.assignments[e], document)
    ensures var r := ReadAssignment(env, caller, rows, heads, e, channel, token);
            && (r.Ok? <==>
                 token.Some? ==>
                   var enrolled := Authenticate(env, caller, Str(e), token.value, "read");
                   enrolled.Ok? && enrolled.value.channel == channel)
            && (r.Ok? ==>
                 && r.value.Obj? && r.value.fields.Keys == {"assignment_kind", "document"}
                 && Get(r.value, "assignment_kind") == Str(rows.assignments[e].kind)
                 && Get(r.value, "document") == document)
  {
    hide Dumps, Loads, Authenticate, ReadTags;
    LoadsDumps(document);
  }

  /** Without a token the caller is the operator; with one it must be the enrollment's, on this channel. */
  predicate Admitted(env: Env, caller: Db, e: string, channel: string, token: Option<Json>) {
    token.Some? ==>
      var row := Authenticate(env, caller, Str(e), token.value, "read");
      row.Ok? && row.value.channel == channel
  }

  /** What a device without an assignment of its own is told; a device also learns its tags. */
  function ActiveAnswer(revision: string, tags: Option<seq<string>>): Json {
    match tags
    case None => Obj(map["revision_id" := Str(revision), "assignment_kind" := Str("active")])
    case Some(t) => Obj(map["revision_id" := Str(revision), "assignment_kind" := Str("active"),
                            "target_tags" := Arr(Strings(t))])
  }

  /** The tags kept for an enrollment, if a token is given. */
  function TagsToTell(caller: Db, e: string, token: Option<Json>): Option<seq<string>> {
    if token.Some? && e in caller.enrollments && ReadTags(caller.enrollments[e].tags).Ok?
    then Some(ReadTags(caller.enrollments[e].tags).value) else None
  }

  lemma ActiveIsRead(env: Env, caller: Db, rows: Db, heads: Db, e: string, channel: string, token: Option<Json>)
    requires !(e in rows.assignments && rows.assignments[e].channel == channel)
    requires forall d :: d in caller.enrollments ==> ReadTags(caller.enrollments[d].tags).Ok?
    ensures var r := ReadAssignment(env, caller, rows, heads, e, channel, token);
            var known := channel in heads.channels && heads.channels[channel].active.Some?;
            && (r.Ok? <==> Admitted(env, caller, e, channel, token) && known)
            && (Admitted(env, caller, e, channel, token) && !known ==> r == Fail(NotFound))
            && (r.Ok? ==> r.value == ActiveAnswer(heads.channels[channel].active.value, TagsToTell(caller, e, token)))
            && (r.Ok? && token.Some? ==> TagsToTell(caller, e, token).Some?)
  {
    hide Authenticate, ReadTags, Strings;
  }

  /** With no row on the channel when its SELECT runs, `assignment` names exactly the channel's active revision at the
      third SELECT, whatever candidate it has, and with a token the enrollment's own tags; it fails only by the
      authentication of the first SELECT, or as not found for want of an active revision. */
  lemma ServesActive(env: Env, ops: seq<Op>, i: nat, j: nat, k: nat, e: string, channel: string, token: Option<Json>)
    requires i <= j <= k <= |ops|
    requires !(e in DbAt(env, ops, j).assignments && DbAt(env, ops, j).assignments[e].channel == channel)
    ensures var caller, heads := DbAt(env, ops, i), DbAt(env, ops, k).channels;
            var r := ReadAssignment(env, caller, DbAt(env, ops, j), DbAt(env, ops, k), e, channel, token);
            var known := channel in heads && heads[channel].active.Some?;
            && (r.Ok? <==> Admitted(env, caller, e, channel, token) && known)
            && (Admitted(env, caller, e, channel, token) && !known ==> r == Fail(NotFound))
            && (r.Ok? ==> r.value == ActiveAnswer(heads[channel].active.value, TagsToTell(caller, e, token)))
            && (r.Ok? && token.Some? ==> TagsToTell(caller, e, token).Some?)
  {
    hide After, ReadAssignment, Admitted, ReadTags, ActiveAnswer, TagsToTell;
    Admissions.TagsAlwaysRead(env, ops[..i]);
    ActiveIsRead(env, DbAt(env, ops, i), DbAt(env, ops, j), DbAt(env, ops, k), e, channel, token);
  }

  // ---------- Revisions ----------

  /** `revision` succeeds exactly for a caller authenticated by the first SELECT and a revision stored at the second,
      with the signed manifest that hashes to it. */
  lemma ServesRevision(env: Env, ops: seq<Op>, i: nat, j: nat, revision: Json, id: Json, token: Json)
    requires i <= j <= |ops|
    ensures var stored := DbAt(env, ops, j).revisions;
            var r := ReadRevision(env, DbAt(env, ops, i), DbAt(env, ops, j), revision, id, token);
            && (r.Ok? <==> revision.Str? && IsDigest(revision.s) && revision.s in stored
                           && Authenticate(env, DbAt(env, ops, i), id, token, "read").Ok?)
            && (r.Ok? ==> env.verify("revision", r.value) && ValidateRevision(env.digest, r.value) == Ok(revision.s)
                          && Dumps(r.value) == stored[revision.s])
  {
    hide After, Dumps, Loads, ValidateRevision, IsDigest, Authenticate, Consistent, Blobs.BlobsSound;
    SoundAt(env, ops, j);
    if revision.Str? && revision.s in DbAt(env, ops, j).revisions {
      assert RevisionSound(env, revision.s, DbAt(env, ops, j).revisions[revision.s]);
    }
  }

  /** The revision that a response of `assignment` names. */
  function NamedRevision(response: Json): Json
    requires response.Obj?
  {
    var document := Get(response, "document");
    if document.Obj? then Get(document, "revision_id") else Get(response, "revision_id")
  }

  lemma CallerAuthenticated(env: Env, caller: Db, rows: Db, heads: Db, e: string, channel: string, token: Json)
    requires ReadAssignment(env, caller, rows, heads, e, channel, Some(token)).Ok?
    ensures Authenticate(env, caller, Str(e), token, "read").Ok?
  {
    hide Authenticate, ReadTags, ReadJson;
  }

  lemma RowNamesStored(env: Env, db: Db, e: string)
    requires Consistent(env, db) && e in db.assignments
    ensures db.assignments[e].revision in db.revisions
  {
    hide Rollout.StoredContract, ReadTags;
    assert RowFits(env, db, e, db.assignments[e]);
  }

  /** The revision that a device is told to apply: its own row's, or else the channel's active one. */
  function ToldRevision(rows: Db, heads: Db, e: string, channel: string): Option<string> {
    if e in rows.assignments && rows.assignments[e].channel == channel then Some(rows.assignments[e].revision)
    else if channel in heads.channels then heads.channels[channel].active else None
  }

  lemma ActiveNamed(env: Env, caller: Db, rows: Db, heads: Db, e: string, channel: string, token: Json)
    requires Consistent(env, heads) && !(e in rows.assignments && rows.assignments[e].channel == channel)
    requires ReadAssignment(env, caller, rows, heads, e, channel, Some(token)).Ok?
    ensures var response := ReadAssignment(env, caller, rows, heads, e, channel, Some(token)).value;
            && response.Obj? && NamedRevision(response).Str? && NamedRevision(response).s in heads.revisions
            && Some(NamedRevision(response).s) == ToldRevision(rows, heads, e, channel)
  {
    hide Authenticate, ReadTags, RowFits;
  }

  lemma StoredIsDigest(env: Env, s: State, revision: string)
    requires RevisionsSound(env, s) && revision in s.db.revisions
    ensures IsDigest(revision)
  {
    hide Dumps, Loads, ContentId, RevisionIdentity;
    assert RevisionSound(env, revision, s.db.revisions[revision]);
  }

  /** Whoever authenticates once does so with the same token at every later moment until the enrollment is revoked. */
  lemma StillAuthenticates(env: Env, ops: seq<Op>, i: nat, m: nat, e: string, token: Json)
    requires i <= m <= |ops| && Authenticate(env, DbAt(env, ops, i), Str(e), token, "read").Ok?
    ensures Authenticate(env, DbAt(env, ops, m), Str(e), token, "read").Ok? <==> !Revoked(DbAt(env, ops, m), e)
  {
    hide After, IsEnrollment, TokenDigest, ReadJson, Ascii;
    IdentitiesNeverChange(env, ops, i, m);
    assert SameIdentity(DbAt(env, ops, i).enrollments[e], DbAt(env, ops, m).enrollments[e]);
  }

  lemma NamedIsStored(env: Env, ops: seq<Op>, i: nat, j: nat, k: nat, e: string, channel: string, token: Json)
    requires i <= j <= k <= |ops|
    requires ReadAssignment(env, DbAt(env, ops, i), DbAt(env, ops, j), DbAt(env, ops, k), e, channel, Some(token)).Ok?
    ensures var response := ReadAssignment(env, DbAt(env, ops, i), DbAt(env, ops, j), DbAt(env, ops, k), e, channel,
                                           Some(token)).value;
            && response.Obj? && NamedRevision(response).Str?
            && NamedRevision(response).s in DbAt(env, ops, k).revisions
            && Some(NamedRevision(response).s) == ToldRevision(DbAt(env, ops, j), DbAt(env, ops, k), e, channel)
  {
    hide After, Dumps, Loads, Authenticate, ReadAssignment, Consistent, RevisionsSound, Blobs.BlobsSound;
    SoundAt(env, ops, j);
    SoundAt(env, ops, k);
    RevisionsImmutable(env, ops, j, k);
    if e in DbAt(env, ops, j).assignments && DbAt(env, ops, j).assignments[e].channel == channel {
      ServesSignedAssignment(env, ops, i, j, k, e, channel, Some(token));
      RowNamesStored(env, DbAt(env, ops, j), e);
    } else {
      ActiveNamed(env, DbAt(env, ops, i), DbAt(env, ops, j), DbAt(env, ops, k), e, channel, token);
    }
  }

  /** A device is told to apply its own row's revision, or else the channel's active one; the store keeps it from then
      on, and serves it to that device at any later time until the device is revoked. */
  lemma NamedRevisionIsServed(env: Env, ops: seq<Op>, i: nat, j: nat, k: nat, m: nat, n: nat, e: string,
                              channel: string, token: Json)
    requires i <= j <= k <= m <= n <= |ops|
    requires ReadAssignment(env, DbAt(env, ops, i), DbAt(env, ops, j), DbAt(env, ops, k), e, channel, Some(token)).Ok?
    ensures var response := ReadAssignment(env, DbAt(env, ops, i), DbAt(env, ops, j), DbAt(env, ops, k), e, channel,
                                           Some(token)).value;
            && response.Obj?
            && var named := NamedRevision(response);
            && named.Str? && Some(named.s) == ToldRevision(DbAt(env, ops, j), DbAt(env, ops, k), e, channel)
            && named.s in DbAt(env, ops, n).revisions
            && (ReadRevision(env, DbAt(env, ops, m), DbAt(env, ops, n), named, Str(e), token).Ok? <==>
                !Revoked(DbAt(env, ops, m), e))
  {
    hide After, Dumps, Loads, Authenticate, ReadAssignment, ReadRevision, IsDigest, Revoked, Consistent, RevisionsSound,
         Blobs.BlobsSound;
    NamedIsStored(env, ops, i, j, k, e, channel, token);
    var response := ReadAssignment(env, DbAt(env, ops, i), DbAt(env, ops, j), DbAt(env, ops, k), e, channel,
                                   Some(token)).value;
    RevisionsImmutable(env, ops, k, n);
    SoundAt(env, ops, n);
    StoredIsDigest(env, World.Before(env, ops, n), NamedRevision(response).s);
    CallerAuthenticated(env, DbAt(env, ops, i), DbAt(env, ops, j), DbAt(env, ops, k), e, channel, token);
    StillAuthenticates(env, ops, i, m, e, token);
    ServesRevision(env, ops, m, n, NamedRevision(response), Str(e), token);
  }

  // ---------- Blobs ----------

  /** The caller of the first SELECT is assigned something on its own channel at the second. */
  predicate AssignedCaller(env: Env, caller: Db, rows: Db, e: string, token: Json) {
    && Authenticate(env, caller, Str(e), token, "read").Ok?
    && e in rows.assignments && rows.assignments[e].channel ==
       Authenticate(env, caller, Str(e), token, "read").value.channel
  }

  /** The manifest of the revision that an enrollment is assigned. */
  function ManifestOf(db: Db, e: string): Json {
    if e in db.assignments && db.assignments[e].revision in db.revisions
        && Loads(db.revisions[db.assignments[e].revision]).Some?
    then Loads(db.revisions[db.assignments[e].revision]).value else Null
  }

  lemma StoredParses(env: Env, s: State, revision: string)
    requires RevisionsSound(env, s) && revision in s.db.revisions
    ensures Loads(s.db.revisions[revision]).Some?
  {
    hide Loads, Dumps, ValidateRevision;
    assert RevisionSound(env, revision, s.db.revisions[revision]);
  }

  /** The manifest of an assigned revision parses, and reads the same at every later moment. */
  lemma ManifestStays(env: Env, ops: seq<Op>, j: nat, l: nat, e: string)
    requires j <= l <= |ops| && e in DbAt(env, ops, j).assignments
    ensures var revision := DbAt(env, ops, j).assignments[e].revision;
            revision in DbAt(env, ops, l).revisions
            && ReadJson(DbAt(env, ops, l).revisions[revision]) == Ok(ManifestOf(DbAt(env, ops, j), e))
  {
    hide After, Loads, Consistent, RevisionsSound, Blobs.BlobsSound;
    SoundAt(env, ops, j);
    RowNamesStored(env, DbAt(env, ops, j), e);
    StoredParses(env, World.Before(env, ops, j), DbAt(env, ops, j).assignments[e].revision);
    RevisionsImmutable(env, ops, j, l);
  }

  /** A listed blob has its file at every later moment, intact. */
  lemma FileStays(env: Env, ops: seq<Op>, k: nat, f: nat, digest: string)
    requires k <= f <= |ops| && digest in DbAt(env, ops, k).blobs
    ensures Blobs.Stored(env.digest, World.Before(env, ops, f).files, digest, DbAt(env, ops, k).blobs[digest])
  {
    hide After, Consistent, RevisionsSound, Blobs.Total, Blobs.ValidMedia, Blobs.BlobDigest, IsDigest;
    SoundAt(env, ops, k);
    Backups.FilesNeverChange(env, ops, k, f);
    assert Blobs.Stored(env.digest, World.Before(env, ops, k).files, digest, DbAt(env, ops, k).blobs[digest]);
  }

  /** A device is served a blob exactly when it is authenticated at the first SELECT, assigned a revision on its own
      channel at the second, the blob is listed at the third, and some path through that revision's manifest reaches its
      digest, size and type. Whatever happens in between, the bytes are then there and intact. */
  lemma ServesReachableBlob(env: Env, ops: seq<Op>, i: nat, j: nat, k: nat, l: nat, f: nat, digest: string, e: string,
                            token: Json)
    requires i <= j <= k <= l <= f <= |ops|
    ensures var r := Blobs.ReadBlob(env, DbAt(env, ops, i), DbAt(env, ops, j), DbAt(env, ops, k), DbAt(env, ops, l),
                                    World.Before(env, ops, f).files, digest, e, token);
            && (r.Ok? <==> IsDigest(digest) && AssignedCaller(env, DbAt(env, ops, i), DbAt(env, ops, j), e, token)
                           && digest in DbAt(env, ops, k).blobs
                           && var blob := DbAt(env, ops, k).blobs[digest];
                              exists path ::
                                Blobs.Reaches(ManifestOf(DbAt(env, ops, j), e), path, digest, blob.size,
                                              blob.mediaType))
            && (r.Ok? ==> Blobs.BlobDigest(env.digest, r.value.0) == digest && Blobs.ValidMedia(r.value.0, r.value.1))
  {
    hide After, ReadJson, ManifestOf, IsDigest, Authenticate, Blobs.References, Blobs.Reaches, Blobs.ValidMedia,
         Blobs.BlobDigest;
    if e in DbAt(env, ops, j).assignments {
      ManifestStays(env, ops, j, l, e);
    }
    if digest in DbAt(env, ops, k).blobs {
      var blob := DbAt(env, ops, k).blobs[digest];
      FileStays(env, ops, k, f, digest);
      Blobs.ReferencesExactlyPaths(ManifestOf(DbAt(env, ops, j), e), digest, blob.size, blob.mediaType);
    }
  }
}
