/** The content-addressed blob store: a table of rows, a tree of files and the moments between them. */
module Blobs {
  import opened Json
  import opened Utf8
  import opened Formats
  import opened Documents
  import opened Tables
  import opened Enrolling

  const MAX_BLOB: nat := 8 * 1024 * 1024
  const MAX_STORE: nat := 512 * 1024 * 1024

  type Files = map<string, Bytes>

  const PNG: Bytes := [0x89, 0x50, 0x4E, 0x47, 0x0D, 0x0A, 0x1A, 0x0A]
  const JPEG: Bytes := [0xFF, 0xD8, 0xFF]
  const JPEG_END: Bytes := [0xFF, 0xD9]
  const RIFF: Bytes := [0x52, 0x49, 0x46, 0x46]
  const WEBP: Bytes := [0x57, 0x45, 0x42, 0x50]

  /** `valid_blob_media`. */
  predicate ValidMedia(payload: Bytes, media: string) {
    if media == "image/png" then PNG <= payload
    else if media == "image/jpeg" then JPEG <= payload && |payload| >= 2 && payload[|payload| - 2..] == JPEG_END
    else if media == "image/webp" then |payload| >= 12 && payload[..4] == RIFF && payload[8..12] == WEBP
    else false
  }

  /** A payload is valid for at most one media type. */
  lemma MediaExclusive(payload: Bytes, m: string, n: string)
    requires ValidMedia(payload, m) && ValidMedia(payload, n)
    ensures m == n
  {
    assert payload[0] in {PNG[0], JPEG[0], RIFF[0]};
    assert m == "image/png" ==> payload[0] == PNG[0];
    assert m == "image/webp" ==> payload[0] == payload[..4][0];
    assert n == "image/webp" ==> payload[0] == payload[..4][0];
  }

  /** The bytes that make a payload an image of its type: the eight of PNG, the three that open and the two that close a
      JPEG, and the container and form names of WebP. */
  lemma MediaExactly(payload: Bytes, media: string)
    ensures ValidMedia(payload, media) <==>
            || (media == "image/png" && |payload| >= 8
                && payload[0] == 137 && payload[1] == 80 && payload[2] == 78 && payload[3] == 71
                && payload[4] == 13 && payload[5] == 10 && payload[6] == 26 && payload[7] == 10)
            || (media == "image/jpeg" && |payload| >= 4 && payload[0] == 255 && payload[1] == 216 && payload[2] == 255
                && payload[|payload| - 2] == 255 && payload[|payload| - 1] == 217)
            || (media == "image/webp" && |payload| >= 12
                && payload[0] == 'R' as int && payload[1] == 'I' as int && payload[2] == 'F' as int
                && payload[3] == 'F' as int && payload[8] == 'W' as int && payload[9] == 'E' as int
                && payload[10] == 'B' as int && payload[11] == 'P' as int)
  {
    if |payload| >= 2 {
      var end := payload[|payload| - 2..];
      assert end == [payload[|payload| - 2], payload[|payload| - 1]];
    }
    if |payload| >= 8 {
      assert PNG <= payload <==> payload[..8] == PNG;
    }
    if |payload| >= 12 {
      assert payload[..4] == [payload[0], payload[1], payload[2], payload[3]];
      assert payload[8..12] == [payload[8], payload[9], payload[10], payload[11]];
    }
  }

  function BlobDigest(digest: Digest, payload: Bytes): string {
    "sha256:" + digest(payload)
  }

  lemma BlobDigestInjective(digest: Digest, x: Bytes, y: Bytes)
    requires Injective(digest) && BlobDigest(digest, x) == BlobDigest(digest, y)
    ensures x == y
  {
    assert digest(x) == BlobDigest(digest, x)[7..] && digest(y) == BlobDigest(digest, y)[7..];
  }

  /** `SELECT COALESCE(SUM(size), 0)`. */
  ghost function Total(rows: map<string, BlobRow>): nat {
    if rows.Keys == {} then 0 else
      var d :| d in rows;
      rows[d].size + Total(rows - {d})
  }

  lemma {:induction false} TotalWithout(rows: map<string, BlobRow>, d: string)
    requires d in rows
    ensures Total(rows) == rows[d].size + Total(rows - {d})
    decreases |rows|
  {
    var c :| c in rows && Total(rows) == rows[c].size + Total(rows - {c});
    if c != d {
      TotalWithout(rows - {c}, d);
      TotalWithout(rows - {d}, c);
      assert rows - {c} - {d} == rows - {d} - {c};
    }
  }

  lemma TotalInsert(rows: map<string, BlobRow>, d: string, row: BlobRow)
    requires d !in rows
    ensures Total(rows[d := row]) == Total(rows) + row.size
  {
    TotalWithout(rows[d := row], d);
    assert rows[d := row] - {d} == rows;
  }

  // ---------- Storing ----------

  datatype Put = Put(digest: string, payload: Bytes, media: string)

  /** The checks of `put_blob` before it opens its transaction. */
  function Admissible(env: Env, digest: string, payload: Bytes, media: Json): Outcome<Put> {
    if |payload| > MAX_BLOB then Fail(Invalid) else
    :- Need(Hashable(media), Broken);
    :- Need(media.Str? && ValidMedia(payload, media.s), Invalid);
    :- Need(digest == BlobDigest(env.digest, payload) && IsDigest(digest), Invalid);
    Ok(Put(digest, payload, media.s))
  }

  /** A put passes its checks exactly with at most 8 MiB of valid media under their own digest. */
  lemma AdmitsExactly(env: Env, digest: string, payload: Bytes, media: Json, put: Put)
    ensures Admissible(env, digest, payload, media) == Ok(put) <==>
            && put == Put(digest, payload, put.media) && media == Str(put.media)
            && |payload| <= 8 * 1024 * 1024 && ValidMedia(payload, put.media)
            && digest == "sha256:" + env.digest(payload) && IsDigest(digest)
  {
    hide ValidMedia, IsDigest;
  }

  function PutResponse(put: Put, stored: bool): Json {
    Obj(map["sha256" := Str(put.digest), "size" := Num(|put.payload|), "media_type" := Str(put.media),
            "stored" := Bool(stored)])
  }

  /** A stored blob may be put again only with the same size, type and bytes. */
  predicate SameAsStored(rows: map<string, BlobRow>, files: Files, put: Put)
    requires put.digest in rows
  {
    && rows[put.digest].size == |put.payload| && rows[put.digest].mediaType == put.media
    && put.digest in files && files[put.digest] == put.payload
  }

  /** Where the process may die while it stores a new blob; a death rolls the row back but keeps a linked file. */
  datatype Crash = Never | BeforeLink | AfterLink

  /** The transaction of `put_blob`: the file is linked before its row commits. */
  ghost function PutAdmitted(db: Db, files: Files, put: Put, space: bool, now: int,
                             crash: Crash): (Db, Files, Outcome<Json>) {
    if put.digest in db.blobs then
      (db, files, if SameAsStored(db.blobs, files, put) then Ok(PutResponse(put, false)) else Fail(Conflict))
    else if Total(db.blobs) + |put.payload| > MAX_STORE || !space then (db, files, Fail(Conflict))
    else if crash == BeforeLink then (db, files, Fail(Crashed))
    else if put.digest in files then (db, files, Fail(Conflict))
    else if crash == AfterLink then (db, files[put.digest := put.payload], Fail(Crashed))
    else
      (db.(blobs := db.blobs[put.digest := BlobRow(|put.payload|, put.media, now)]), files[put.digest := put.payload],
       Ok(PutResponse(put, true)))
  }

  /** `put_blob`. */
  ghost function PutBlob(env: Env, db: Db, files: Files, digest: string, payload: Bytes, media: Json, space: bool,
                         now: int, crash: Crash): (Db, Files, Outcome<Json>)
  {
    match Admissible(env, digest, payload, media)
    case Fail(fault) => (db, files, Fail(fault))
    case Ok(put) => PutAdmitted(db, files, put, space, now, crash)
  }

  lemma FailedPut(db: Db, files: Files, put: Put, space: bool, now: int, crash: Crash)
    requires PutAdmitted(db, files, put, space, now, crash).2.Fail?
    ensures PutAdmitted(db, files, put, space, now, crash).0 == db
  {
    hide Total, PutResponse;
  }

  lemma AdmissibleNeverCrashes(env: Env, digest: string, payload: Bytes, media: Json)
    ensures Admissible(env, digest, payload, media) != Fail(Crashed)
  {
  }

  /** Every row has its file: the bytes hash to the row's digest, have its size and are of its media type. */
  predicate Stored(digest: Digest, files: Files, d: string, row: BlobRow) {
    && d in files
    && BlobDigest(digest, files[d]) == d && |files[d]| == row.size && ValidMedia(files[d], row.mediaType) && IsDigest(d)
  }

  ghost predicate BlobsSound(digest: Digest, rows: map<string, BlobRow>, files: Files) {
    && (forall d :: d in rows ==> Stored(digest, files, d, rows[d]))
    && Total(rows) <= MAX_STORE
  }

  /** Files are only ever added, never rewritten. */
  predicate FilesGrow(files: Files, after: Files) {
    forall d :: d in files ==> d in after && after[d] == files[d]
  }

  /** Whatever is put and wherever the process dies, the store stays sound and no file is changed or lost. */
  lemma PutKeepsSound(env: Env, db: Db, files: Files, digest: string, payload: Bytes, media: Json, space: bool,
                      now: int, crash: Crash)
    requires BlobsSound(env.digest, db.blobs, files)
    ensures var (after, tree, _) := PutBlob(env, db, files, digest, payload, media, space, now, crash);
            BlobsSound(env.digest, after.blobs, tree) && FilesGrow(files, tree) && after == db.(blobs := after.blobs)
  {
    hide BlobsSound, FilesGrow, PutAdmitted, ValidMedia, IsDigest;
    if Admissible(env, digest, payload, media).Ok? {
      AdmittedKeepsSound(env.digest, db, files, Admissible(env, digest, payload, media).value, space, now, crash);
    } else {
      FilesStay(files);
    }
  }

  lemma FilesStay(files: Files)
    ensures FilesGrow(files, files)
  {
  }

  lemma AdmittedKeepsSound(digest: Digest, db: Db, files: Files, put: Put, space: bool, now: int, crash: Crash)
    requires BlobsSound(digest, db.blobs, files)
    requires BlobDigest(digest, put.payload) == put.digest && ValidMedia(put.payload, put.media) && IsDigest(put.digest)
    ensures var (after, tree, _) := PutAdmitted(db, files, put, space, now, crash);
            BlobsSound(digest, after.blobs, tree) && FilesGrow(files, tree) && after == db.(blobs := after.blobs)
  {
    hide Total, ValidMedia, IsDigest, PutResponse, BlobDigest;
    var (after, tree, r) := PutAdmitted(db, files, put, space, now, crash);
    if after != db {
      TotalInsert(db.blobs, put.digest, after.blobs[put.digest]);
    }
    forall d | d in after.blobs
      ensures Stored(digest, tree, d, after.blobs[d])
    {
      assert d in db.blobs ==> Stored(digest, files, d, db.blobs[d]);
    }
  }

  /** An admissible put of a blob that is already stored always reports it as not newly stored, and changes nothing. */
  lemma PutAgain(env: Env, db: Db, files: Files, digest: string, payload: Bytes, media: Json, space: bool, now: int,
                 crash: Crash)
    requires Injective(env.digest) && BlobsSound(env.digest, db.blobs, files)
    requires Admissible(env, digest, payload, media).Ok? && digest in db.blobs
    ensures PutBlob(env, db, files, digest, payload, media, space, now, crash) ==
            (db, files, Ok(PutResponse(Put(digest, payload, media.s), false)))
  {
    hide ValidMedia, IsDigest, Total, PutResponse;
    assert Stored(env.digest, files, digest, db.blobs[digest]);
    BlobDigestInjective(env.digest, payload, files[digest]);
    MediaExclusive(payload, media.s, db.blobs[digest].mediaType);
  }

  /** Whatever the disk holds, a listed blob is put again exactly with the size and type of its row and the bytes of its
      file, and is a conflict otherwise; nothing changes. */
  lemma ListedPutExactly(db: Db, files: Files, put: Put, space: bool, now: int, crash: Crash)
    requires put.digest in db.blobs
    ensures var (after, tree, r) := PutAdmitted(db, files, put, space, now, crash);
            var row := db.blobs[put.digest];
            && after == db && tree == files
            && r == if row.size == |put.payload| && row.mediaType == put.media && put.digest in files
                       && files[put.digest] == put.payload then Ok(PutResponse(put, false)) else Fail(Conflict)
  {
    hide Total, PutResponse;
  }

  /** An admissible, unlisted blob is newly stored exactly when it is within the quota and the disk's reserve, the
      process survives and there is no file of that name. */
  lemma NewlyStored(env: Env, db: Db, files: Files, digest: string, payload: Bytes, media: Json, space: bool, now: int,
                    crash: Crash)
    requires Admissible(env, digest, payload, media).Ok? && digest !in db.blobs
    ensures PutBlob(env, db, files, digest, payload, media, space, now, crash).2.Ok? <==>
            Total(db.blobs) + |payload| <= MAX_STORE && space && crash == Never && digest !in files
  {
    hide Total, ValidMedia, IsDigest, PutResponse;
  }

  // ---------- Reading ----------

  /** `_manifest_references_blob`: the first object on a path that carries the digest decides for that path. */
  function References(v: Json, digest: string, size: nat, media: string): bool
    decreases v
  {
    match v
    case Obj(fields) =>
      if Get(v, "sha256") == Str(digest) then Get(v, "size") == Num(size) && Get(v, "media_type") == Str(media)
      else exists k :: k in fields && References(fields[k], digest, size, media)
    case Arr(items) => exists i :: 0 <= i < |items| && References(items[i], digest, size, media)
    case _ => false
  }

  /** `blob`: only blobs that the assigned revision names are served, and only intact. The four SELECTs and the read of
      the file each see the store as it is when they run. */
  function ReadBlob(env: Env, caller: Db, rows: Db, listed: Db, stored: Db, files: Files, digest: string, id: string,
                    token: Json)
    : Outcome<(Bytes, string)>
  {
    if !IsDigest(digest) then Fail(Invalid) else
    var row :- Authenticate(env, caller, Str(id), token, "read");
    :- Need(id in rows.assignments && rows.assignments[id].channel == row.channel, Unauthorized);
    var revision := rows.assignments[id].revision;
    :- Need(digest in listed.blobs && revision in stored.revisions, Unauthorized);
    var blob := listed.blobs[digest];
    var manifest :- ReadJson(stored.revisions[revision]);
    :- Need(References(manifest, digest, blob.size, blob.mediaType), Unauthorized);
    :- Need(digest in files, NotFound);
    :- Need(|files[digest]| == blob.size && BlobDigest(env.digest, files[digest]) == digest, Conflict);
    Ok((files[digest], blob.mediaType))
  }

  /** Whatever the disk holds, a blob that is served has the size of its row and hashes to its name; a file that is gone
      is not found, and any other file is a conflict. */
  lemma ServedIsIntact(env: Env, caller: Db, rows: Db, listed: Db, stored: Db, files: Files, other: Files,
                       digest: string, id: string, token: Json)
    requires ReadBlob(env, caller, rows, listed, stored, files, digest, id, token).Ok?
    ensures digest in listed.blobs && digest in files
    ensures var row := listed.blobs[digest];
            && ReadBlob(env, caller, rows, listed, stored, files, digest, id, token).value ==
               (files[digest], row.mediaType)
            && |files[digest]| == row.size && "sha256:" + env.digest(files[digest]) == digest
            && ReadBlob(env, caller, rows, listed, stored, other, digest, id, token) ==
               if digest !in other then Fail(NotFound)
               else if |other[digest]| == row.size && "sha256:" + env.digest(other[digest]) == digest then
                 Ok((other[digest], row.mediaType))
               else Fail(Conflict)
  {
    hide Authenticate, References, IsDigest, ReadJson;
  }

  // ---------- Which blobs a manifest names ----------

  datatype Hop = Key(name: string) | Index(i: nat)

  /** The value at the end of a path from the root of a document. */
  function At(v: Json, path: seq<Hop>): Option<Json>
    decreases |path|
  {
    if path == [] then Some(v)
    else if path[0].Key? && v.Obj? && path[0].name in v.fields then At(v.fields[path[0].name], path[1..])
    else if path[0].Index? && v.Arr? && path[0].i < |v.items| then At(v.items[path[0].i], path[1..])
    else None
  }

  predicate Names(v: Json, digest: string) {
    v.Obj? && Get(v, "sha256") == Str(digest)
  }

  /** The path ends at an object with the digest, size and type, and no object before it carries the digest. */
  predicate Reaches(v: Json, path: seq<Hop>, digest: string, size: nat, media: string) {
    && At(v, path).Some?
    && var end := At(v, path).value;
    && Names(end, digest) && Get(end, "size") == Num(size) && Get(end, "media_type") == Str(media)
    && forall n :: 0 <= n < |path| ==> At(v, path[..n]).Some? && !Names(At(v, path[..n]).value, digest)
  }

  lemma ExtendPath(v: Json, hop: Hop, rest: seq<Hop>, digest: string, size: nat, media: string)
    requires At(v, [hop]).Some? && !Names(v, digest)
    ensures Reaches(v, [hop] + rest, digest, size, media) <==> Reaches(At(v, [hop]).value, rest, digest, size, media)
  {
    var child := At(v, [hop]).value;
    var path := [hop] + rest;
    assert path[1..] == rest && child == At(v, [hop]).value;
    assert At(v, path) == At(child, rest);
    forall n | 0 < n <= |path|
      ensures At(v, path[..n]) == At(child, rest[..n - 1])
    {
      assert path[..n][1..] == rest[..n - 1];
    }
    assert At(v, path[..0]) == Some(v);
    if Reaches(v, path, digest, size, media) {
      forall n | 0 <= n < |rest|
        ensures At(child, rest[..n]).Some? && !Names(At(child, rest[..n]).value, digest)
      {
        assert At(v, path[..n + 1]) == At(child, rest[..n]);
      }
    }
    if Reaches(child, rest, digest, size, media) {
      forall n | 0 <= n < |path|
        ensures At(v, path[..n]).Some? && !Names(At(v, path[..n]).value, digest)
      {
        assert n > 0 ==> At(v, path[..n]) == At(child, rest[..n - 1]);
      }
    }
  }

  function Child(v: Json, hop: Hop): Json
    requires At(v, [hop]).Some?
    ensures Child(v, hop) < v && At(v, [hop]) == Some(Child(v, hop))
  {
    assert [hop][1..] == [];
    if hop.Key? then v.fields[hop.name] else v.items[hop.i]
  }

  lemma ChildAt(v: Json, hop: Hop)
    ensures At(v, [hop]).Some? <==> (hop.Key? && v.Obj? && hop.name in v.fields)
                                    || (hop.Index? && v.Arr? && hop.i < |v.items|)
    ensures At(v, [hop]).Some? ==> At(v, [hop]) == Some(if hop.Key? then v.fields[hop.name] else v.items[hop.i])
  {
    assert [hop][1..] == [];
  }

  lemma ReferencesChild(v: Json, digest: string, size: nat, media: string)
    requires !Names(v, digest)
    ensures References(v, digest, size, media) <==>
            exists hop :: At(v, [hop]).Some? && References(Child(v, hop), digest, size, media)
  {
    forall hop
      ensures At(v, [hop]).Some? <==> (hop.Key? && v.Obj? && hop.name in v.fields)
                                      || (hop.Index? && v.Arr? && hop.i < |v.items|)
    {
      ChildAt(v, hop);
    }
    if References(v, digest, size, media) {
      if v.Obj? {
        var k :| k in v.fields && References(v.fields[k], digest, size, media);
        ChildAt(v, Key(k));
      } else {
        var i :| 0 <= i < |v.items| && References(v.items[i], digest, size, media);
        ChildAt(v, Index(i));
      }
    }
  }

  /** The search succeeds exactly when some path through the manifest reaches such an object. */
  lemma {:induction false} ReferencesExactlyPaths(v: Json, digest: string, size: nat, media: string)
    ensures References(v, digest, size, media) <==> exists path :: Reaches(v, path, digest, size, media)
    decreases v
  {
    if Names(v, digest) {
      assert References(v, digest, size, media) ==> Reaches(v, [], digest, size, media);
      forall path | Reaches(v, path, digest, size, media)
        ensures References(v, digest, size, media)
      {
        assert At(v, path[..0]) == Some(v);
      }
    } else {
      ReferencesChild(v, digest, size, media);
      if References(v, digest, size, media) {
        var hop :| At(v, [hop]).Some? && References(Child(v, hop), digest, size, media);
        ReferencesExactlyPaths(Child(v, hop), digest, size, media);
        var rest :| Reaches(Child(v, hop), rest, digest, size, media);
        ExtendPath(v, hop, rest, digest, size, media);
      }
      forall path | Reaches(v, path, digest, size, media)
        ensures References(v, digest, size, media)
      {
        assert path != [] && path == [path[0]] + path[1..];
        assert At(v, [path[0]]).Some?;
        ExtendPath(v, path[0], path[1..], digest, size, media);
        ReferencesExactlyPaths(Child(v, path[0]), digest, size, media);
      }
    }
  }
}
