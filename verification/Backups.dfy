/** Backup epochs: a database snapshot and blob files copied while the store goes on working. */
module Backups {
  import opened Json
  import opened Text
  import opened Utf8
  import opened JsonText
  import opened Canonical
  import opened Formats
  import opened Documents
  import opened Tables
  import opened Blobs
  import Administration
  import Rollout
  import opened World
  import opened Justification

  // ---------- The blob store over whole runs ----------

  lemma StepKeepsBlobs(env: Env, s: State, op: Op)
    requires BlobsSound(env.digest, s.db.blobs, s.files)
    ensures var after := Step(env, s, op).0;
            BlobsSound(env.digest, after.db.blobs, after.files) && FilesGrow(s.files, after.files)
  {
    hide BlobsSound, Blobs.PutBlob, EnrollingEffect, Rollout.Call, Administration.Authorize, BeginUpload, EndUpload;
    StepFrame(env, s, op);
    if op.PutBlob? {
      PutKeepsSound(env, s.db, s.files, op.digest, op.payload, op.media, op.space, op.now, op.crash);
    }
  }

  /** In every reachable state, with crashes at any point of any put, every row has its intact file and the quota
      holds. */
  lemma {:induction false} BlobsAlwaysSound(env: Env, ops: seq<Op>)
    ensures BlobsSound(env.digest, After(env, ops).db.blobs, After(env, ops).files)
    decreases |ops|
  {
    hide Step;
    if ops == [] {
      EmptyRun(env, ops);
    } else {
      hide BlobsSound;
      BlobsAlwaysSound(env, ops[..|ops| - 1]);
      LastStep(env, ops);
      StepKeepsBlobs(env, After(env, ops[..|ops| - 1]), ops[|ops| - 1]);
    }
  }

  /** Over any stretch of a run files are only added, never changed or lost. */
  lemma {:induction false} FilesNeverChange(env: Env, ops: seq<Op>, i: nat, n: nat)
    requires i <= n <= |ops|
    ensures FilesGrow(World.Before(env, ops, i).files, World.Before(env, ops, n).files)
    decreases n
  {
    hide Step, After, BlobsSound;
    if i < n {
      FilesNeverChange(env, ops, i, n - 1);
      BlobsAlwaysSound(env, ops[..n - 1]);
      StepOfRun(env, ops, n - 1);
      StepKeepsBlobs(env, World.Before(env, ops, n - 1), ops[n - 1]);
    }
  }

  // ---------- Orphaned files ----------

  /** A file without a row. */
  predicate Orphan(s: State, digest: string) {
    digest in s.files && digest !in s.db.blobs
  }

  /** Operation `i` is a put of this digest that died between linking its file and committing its row. */
  ghost predicate DiedAt(env: Env, ops: seq<Op>, i: nat, digest: string) {
    && i < |ops| && ops[i].PutBlob? && ops[i].digest == digest && ops[i].crash == AfterLink
    && OutcomeOf(env, ops, i) == Fail(Crashed)
  }

  /** How one step moves a digest: only its own put links it, leaving an orphan if it dies and a row if it does not. */
  lemma PutMoves(env: Env, s: State, op: Op, digest: string)
    ensures var (after, r) := Step(env, s, op);
            && (op.PutBlob? && op.digest == digest && op.crash == AfterLink && r == Fail(Crashed) ==>
                 digest !in s.files && Orphan(after, digest))
            && (!(op.PutBlob? && op.digest == digest && op.crash == AfterLink && r == Fail(Crashed)) ==>
                 (Orphan(after, digest) <==> Orphan(s, digest)))
            && (Orphan(s, digest) ==> Orphan(after, digest))
            && (Orphan(s, digest) && op.PutBlob? && op.digest == digest ==> r.Fail?)
  {
    hide Step, Admissible, Total, PutResponse, SameAsStored;
    if op.PutBlob? {
      PutStep(env, s, op);
      if Admissible(env, op.digest, op.payload, op.media).Ok? {
        AdmittedPut(env, op.digest, op.payload, op.media);
      }
    } else {
      StepFrame(env, s, op);
    }
  }

  lemma DiedInPrefix(env: Env, ops: seq<Op>, i: nat, digest: string)
    requires i < |ops| - 1
    ensures DiedAt(env, ops, i, digest) <==> DiedAt(env, ops[..|ops| - 1], i, digest)
  {
    hide Step, After;
    assert ops[..|ops| - 1][..i] == ops[..i];
  }

  /** In every reachable state the files without a row are exactly those of puts that died between link and commit. */
  lemma {:induction false} OrphansAreDeaths(env: Env, ops: seq<Op>, digest: string)
    ensures Orphan(After(env, ops), digest) <==> exists i: nat :: DiedAt(env, ops, i, digest)
    decreases |ops|
  {
    hide Step, DiedAt;
    if ops == [] {
      EmptyRun(env, ops);
      NobodyDied(env, ops, digest);
    } else {
      hide After;
      var n := |ops| - 1;
      OrphansAreDeaths(env, ops[..n], digest);
      LastStep(env, ops);
      PutMoves(env, After(env, ops[..n]), ops[n], digest);
      DiedLast(env, ops, digest);
      forall i: nat
        ensures DiedAt(env, ops, i, digest) <==>
                DiedAt(env, ops[..n], i, digest) || (i == n && DiedAt(env, ops, n, digest))
      {
        DeathsInRange(env, ops, i, digest);
        DeathsInRange(env, ops[..n], i, digest);
        if i < n {
          DiedInPrefix(env, ops, i, digest);
        }
      }
    }
  }

  lemma NobodyDied(env: Env, ops: seq<Op>, digest: string)
    requires ops == []
    ensures forall i: nat :: !DiedAt(env, ops, i, digest)
  {
  }

  lemma DeathsInRange(env: Env, ops: seq<Op>, i: nat, digest: string)
    ensures DiedAt(env, ops, i, digest) ==> i < |ops|
  {
  }

  lemma DiedLast(env: Env, ops: seq<Op>, digest: string)
    requires ops != []
    ensures var (n, op) := (|ops| - 1, ops[|ops| - 1]);
            DiedAt(env, ops, n, digest) <==>
              op.PutBlob? && op.digest == digest && op.crash == AfterLink
              && Step(env, After(env, ops[..n]), op).1 == Fail(Crashed)
  {
    hide Step, After;
  }

  /** From the death of a put between its link and its commit on, its digest stays an orphan, and every put of it fails,
      whatever its payload, media type and disk space are. */
  lemma {:induction false} OrphanBlocksForGood(env: Env, ops: seq<Op>, i: nat, n: nat, digest: string)
    requires DiedAt(env, ops, i, digest) && i < n <= |ops|
    ensures Orphan(World.Before(env, ops, n), digest)
    ensures n < |ops| && ops[n].PutBlob? && ops[n].digest == digest ==> OutcomeOf(env, ops, n).Fail?
    decreases n
  {
    hide Step, After;
    if i < n - 1 {
      OrphanBlocksForGood(env, ops, i, n - 1, digest);
    }
    StepOfRun(env, ops, n - 1);
    PutMoves(env, World.Before(env, ops, n - 1), ops[n - 1], digest);
    if n < |ops| {
      PutMoves(env, World.Before(env, ops, n), ops[n], digest);
    }
  }

  /** In every reachable state an admissible, unlisted blob is newly stored exactly when it fits the quota and the disk,
      the process survives, and no earlier put of its digest died between link and commit. */
  lemma StoredUnlessDied(env: Env, ops: seq<Op>, digest: string, payload: Bytes, media: Json, space: bool, now: int,
                         crash: Crash)
    requires Admissible(env, digest, payload, media).Ok? && digest !in After(env, ops).db.blobs
    ensures var s := After(env, ops);
            Blobs.PutBlob(env, s.db, s.files, digest, payload, media, space, now, crash).2.Ok? <==>
            && Total(s.db.blobs) + |payload| <= MAX_STORE && space && crash == Never
            && forall i: nat :: !DiedAt(env, ops, i, digest)
  {
    hide After, Admissible, Total, DiedAt, PutResponse;
    OrphansAreDeaths(env, ops, digest);
    AdmittedPut(env, digest, payload, media);
    var s := After(env, ops);
    NewlyStored(env, s.db, s.files, digest, payload, media, space, now, crash);
  }

  /** In every reachable state an admitted put succeeds exactly for a listed blob or for a new one that fits, survives
      and has no file yet, and says which; only the latter adds its row and its file. */
  lemma PutsExactly(env: Env, ops: seq<Op>, digest: string, payload: Bytes, media: Json, space: bool, now: int,
                    crash: Crash)
    requires Injective(env.digest) && Admissible(env, digest, payload, media).Ok?
    ensures var s := After(env, ops);
            var listed := digest in s.db.blobs;
            var fits := Total(s.db.blobs) + |payload| <= 512 * 1024 * 1024 && space && crash == Never
                        && digest !in s.files;
            var (db, files, r) := Blobs.PutBlob(env, s.db, s.files, digest, payload, media, space, now, crash);
            && media.Str? && (r.Ok? <==> listed || fits)
            && (r.Ok? ==> r.value == Obj(map["sha256" := Str(digest), "size" := Num(|payload|), "media_type" := media,
                                             "stored" := Bool(!listed)]))
            && db == (if !listed && fits
                      then s.db.(blobs := s.db.blobs[digest := BlobRow(|payload|, media.s, now)]) else s.db)
            && (r.Ok? ==> files == if listed then s.files else s.files[digest := payload])
  {
    hide After, Admissible, Total, BlobsSound, PutResponse, PutAdmitted, ValidMedia, IsDigest;
    var s := After(env, ops);
    BlobsAlwaysSound(env, ops);
    AdmitsExactly(env, digest, payload, media, Admissible(env, digest, payload, media).value);
    PutSays(Put(digest, payload, media.s), true);
    PutSays(Put(digest, payload, media.s), false);
    if digest in s.db.blobs {
      PutAgain(env, s.db, s.files, digest, payload, media, space, now, crash);
    } else {
      NewPut(s.db, s.files, Put(digest, payload, media.s), space, now, crash);
    }
  }

  lemma PutSays(put: Put, stored: bool)
    ensures PutResponse(put, stored) ==
            Obj(map["sha256" := Str(put.digest), "size" := Num(|put.payload|), "media_type" := Str(put.media),
                    "stored" := Bool(stored)])
  {
  }

  lemma NewPut(db: Db, files: Files, put: Put, space: bool, now: int, crash: Crash)
    requires put.digest !in db.blobs
    ensures var fits := Total(db.blobs) + |put.payload| <= 512 * 1024 * 1024 && space && crash == Never
                        && put.digest !in files;
            var (after, tree, r) := PutAdmitted(db, files, put, space, now, crash);
            && (r.Ok? <==> fits) && (r.Ok? ==> r.value == PutResponse(put, true))
            && after == (if fits then db.(blobs := db.blobs[put.digest := BlobRow(|put.payload|, put.media, now)])
                         else db)
            && (r.Ok? ==> tree == files[put.digest := put.payload])
  {
    hide Total, PutResponse;
  }

  /** Such runs exist: the first put of any admissible blob may die there, and the same put, made again, then fails. */
  lemma FirstPutCanOrphan(env: Env, digest: string, payload: Bytes, media: Json, now: int)
    requires Admissible(env, digest, payload, media).Ok?
    ensures var ops := [PutBlob(digest, payload, media, true, now, AfterLink),
                        PutBlob(digest, payload, media, true, now, Never)];
            && DiedAt(env, ops, 0, digest) && Orphan(After(env, ops), digest)
            && OutcomeOf(env, ops, 1) == Fail(Conflict)
  {
    hide Step, After, Admissible, PutAdmitted;
    var dying, again := PutBlob(digest, payload, media, true, now, AfterLink),
        PutBlob(digest, payload, media, true, now, Never);
    var ops := [dying, again];
    assert ops[..0] == [] && ops[..1] == [] + [dying] && ops == ops[..1] + [again] && ops[..2] == ops;
    EmptyRun(env, []);
    OneMoreStep(env, [], dying);
    OneMoreStep(env, ops[..1], again);
    AdmittedPut(env, digest, payload, media);
    PutStep(env, START, dying);
    PutStep(env, After(env, ops[..1]), again);
    DyingPut(Admissible(env, digest, payload, media).value, now);
  }

  lemma DyingPut(put: Put, now: int)
    requires |put.payload| <= MAX_BLOB
    ensures var (db, files, r) := PutAdmitted(EMPTY, map[], put, true, now, AfterLink);
            && r == Fail(Crashed) && db == EMPTY && files == map[put.digest := put.payload]
            && PutAdmitted(db, files, put, true, now, Never) == (db, files, Fail(Conflict))
  {
    hide PutResponse;
    assert Total(map[]) == 0;
  }

  // ---------- What can happen between two file copies ----------

  /** The store with at most one put between its link and its commit. */
  datatype Site = Site(s: State, linked: Option<Put>)

  /** One moment of the store's life, finer than an operation: a put links its file, commits its row or dies in
      between. */
  datatype Tick =
    | Whole(op: Op)
    | Link(digest: string, payload: Bytes, media: Json, space: bool)
    | Commit(now: int)
    | Die

  ghost function TickOf(env: Env, x: Site, t: Tick): Site {
    match t
    case Whole(op) => if x.linked.Some? then x else x.(s := Step(env, x.s, op).0)
    case Link(digest, payload, media, space) =>
      var admitted := Admissible(env, digest, payload, media);
      if x.linked.None? && admitted.Ok? && digest !in x.s.db.blobs && Total(x.s.db.blobs) + |payload| <= MAX_STORE
          && space
         && digest !in x.s.files
      then Site(x.s.(files := x.s.files[digest := payload]), Some(admitted.value)) else x
    case Commit(now) =>
      if x.linked.None? then x else
        var put := x.linked.value;
        var row := BlobRow(|put.payload|, put.media, now);
        Site(x.s.(db := x.s.db.(blobs := x.s.db.blobs[put.digest := row])), None)
    case Die => Site(x.s.(uploads := map[]), None)
  }

  ghost function Ticks(env: Env, x: Site, ticks: seq<Tick>): Site
    decreases |ticks|
  {
    if ticks == [] then x else Ticks(env, TickOf(env, x, ticks[0]), ticks[1..])
  }

  /** The two moments of a put compose to the whole operation, and a death between them to its crash. */
  lemma PutIsLinkThenCommit(env: Env, s: State, digest: string, payload: Bytes, media: Json, space: bool, now: int)
    requires Admissible(env, digest, payload, media).Ok? && digest !in s.db.blobs
    ensures var linked := TickOf(env, Site(s, None), Link(digest, payload, media, space));
            && (linked.linked.Some? <==> Step(env, s, PutBlob(digest, payload, media, space, now, Never)).1.Ok?)
            && (linked.linked.Some? ==>
                 && TickOf(env, linked, Commit(now)).s ==
                    Step(env, s, PutBlob(digest, payload, media, space, now, Never)).0
                 && TickOf(env, linked, Die).s ==
                    Step(env, s, PutBlob(digest, payload, media, space, now, AfterLink)).0)
  {
    hide Admissible, Total, PutResponse, SameAsStored, Rollout.Call, EnrollingEffect, Administration.Authorize;
    AdmittedPut(env, digest, payload, media);
  }

  lemma AdmittedPut(env: Env, digest: string, payload: Bytes, media: Json)
    requires Admissible(env, digest, payload, media).Ok?
    ensures var put := Admissible(env, digest, payload, media).value;
            && put.digest == digest && put.payload == payload && IsDigest(digest)
            && BlobDigest(env.digest, payload) == digest && ValidMedia(payload, put.media) && |payload| <= MAX_BLOB
  {
    hide ValidMedia, IsDigest, BlobDigest;
  }

  /** Between its moments too the store is sound: a linked put has its file and will fit. */
  ghost predicate SiteSound(digest: Digest, x: Site) {
    && BlobsSound(digest, x.s.db.blobs, x.s.files)
    && (x.linked.Some? ==>
         && var put := x.linked.value;
         && put.digest !in x.s.db.blobs && Total(x.s.db.blobs) + |put.payload| <= MAX_STORE
         && Stored(digest, x.s.files, put.digest, BlobRow(|put.payload|, put.media, 0)))
  }

  lemma TickKeepsSite(env: Env, x: Site, t: Tick)
    requires SiteSound(env.digest, x)
    ensures SiteSound(env.digest, TickOf(env, x, t)) && FilesGrow(x.s.files, TickOf(env, x, t).s.files)
  {
    hide Step, Admissible, Total, ValidMedia, IsDigest, BlobDigest;
    match t
    case Whole(op) =>
      if x.linked.None? {
        StepKeepsBlobs(env, x.s, op);
      }
    case Link(digest, payload, media, space) =>
      if Admissible(env, digest, payload, media).Ok? {
        AdmittedPut(env, digest, payload, media);
      }
      var files := TickOf(env, x, t).s.files;
      assert forall d :: d in x.s.db.blobs ==> Stored(env.digest, x.s.files, d, x.s.db.blobs[d]);
    case Commit(now) =>
      if x.linked.Some? {
        var put := x.linked.value;
        TotalInsert(x.s.db.blobs, put.digest, BlobRow(|put.payload|, put.media, now));
      }
    case Die =>
  }

  lemma {:induction false} TicksKeepSite(env: Env, x: Site, ticks: seq<Tick>)
    requires SiteSound(env.digest, x)
    ensures SiteSound(env.digest, Ticks(env, x, ticks)) && FilesGrow(x.s.files, Ticks(env, x, ticks).s.files)
    decreases |ticks|
  {
    hide TickOf, SiteSound;
    if ticks != [] {
      TickKeepsSite(env, x, ticks[0]);
      TicksKeepSite(env, TickOf(env, x, ticks[0]), ticks[1..]);
    }
  }

  // ---------- Backup ----------

  /** A backup directory: the copied database, the inventory file and the copied blobs. */
  datatype Epoch = Epoch(database: Bytes, inventory: Bytes, blobs: Files)

  /** How databases are written to and read from bytes; reading fails for anything that is not a valid database. */
  datatype Format = Format(dump: Db -> Bytes, load: Bytes -> Option<Db>)

  function InventoryEntry(digest: string, row: BlobRow): Json {
    Obj(map["sha256" := Str(digest), "size" := Num(row.size), "media_type" := Str(row.mediaType)])
  }

  function Inventory(digest: Digest, database: Bytes, entries: seq<Json>): Json {
    Obj(map["schema" := Num(1),
            "database" := Obj(map["file" := Str("state.sqlite"), "bytes" := Num(|database|),
                                  "sha256" := Str(digest(database))]),
            "blobs" := Arr(entries)])
  }

  /** One copy: the file as it is on disk at that moment, checked against its row. */
  function CopyBlob(env: Env, d: string, row: BlobRow, files: Files): Outcome<Bytes> {
    if !IsDigest(d) then Fail(Invalid) else
    :- Need(d in files, Broken);
    :- Need(|files[d]| == row.size && BlobDigest(env.digest, files[d]) == d && ValidMedia(files[d], row.mediaType),
            Conflict);
    Ok(files[d])
  }

  function CopyBlobs(env: Env, rows: map<string, BlobRow>, keys: seq<string>,
                     views: seq<Files>): Outcome<(Files, seq<Json>)>
    requires |views| == |keys| && forall d :: d in keys ==> d in rows
    decreases |keys|
  {
    if keys == [] then Ok((map[], [])) else
      var n := |keys| - 1;
      var (files, entries) :- CopyBlobs(env, rows, keys[..n], views[..n]);
      var payload :- CopyBlob(env, keys[n], rows[keys[n]], views[n]);
      Ok((files[keys[n] := payload], entries + [InventoryEntry(keys[n], rows[keys[n]])]))
  }

  function BackupKeys(db: Db): (keys: seq<string>)
    ensures Elements(keys) == db.blobs.Keys
    ensures |keys| == |db.blobs| && forall d :: d in keys ==> d in db.blobs
  {
    var keys := Sorted(db.blobs.Keys);
    assert forall d :: d in keys ==> d in Elements(keys);
    keys
  }

  /** `backup_epoch` of a snapshot; `views[i]` is the file tree at the moment the i-th listed blob is read. */
  function Backup(env: Env, format: Format, db: Db, views: seq<Files>): Outcome<Epoch>
    requires |views| == |db.blobs|
  {
    var keys := BackupKeys(db);
    var (files, entries) :- CopyBlobs(env, db.blobs, keys, views);
    var database := format.dump(db);
    Ok(Epoch(database, CanonicalJson(Inventory(env.digest, database, entries)) + [10], files))
  }

  /** The copying loop of `backup_epoch`. */
  method BackupEpoch(env: Env, format: Format, db: Db, views: seq<Files>) returns (r: Outcome<Epoch>)
    requires |views| == |db.blobs|
    ensures r == Backup(env, format, db, views)
  {
    hide CopyBlob, CopyBlobs, Inventory, InventoryEntry, CanonicalJson, BackupKeys;
    var database := format.dump(db);
    var keys := BackupKeys(db);
    var copied: Files := map[];
    var inventory: seq<Json> := [];
    NothingCopied(env, db.blobs, keys[..0], views[..0]);
    var i := 0;
    while i < |keys|
      invariant 0 <= i <= |keys|
      invariant CopyBlobs(env, db.blobs, keys[..i], views[..i]) == Ok((copied, inventory))
    {
      CopyOneMore(env, db.blobs, keys, views, i);
      var payload := CopyBlob(env, keys[i], db.blobs[keys[i]], views[i]);
      if payload.Fail? {
        CopyFailsEarly(env, db.blobs, keys, views, i + 1);
        return Fail(payload.fault);
      }
      copied := copied[keys[i] := payload.value];
      inventory := inventory + [InventoryEntry(keys[i], db.blobs[keys[i]])];
      i := i + 1;
    }
    assert keys[..i] == keys && views[..i] == views;
    return Ok(Epoch(database, CanonicalJson(Inventory(env.digest, database, inventory)) + [10], copied));
  }

  lemma NothingCopied(env: Env, rows: map<string, BlobRow>, keys: seq<string>, views: seq<Files>)
    requires keys == [] && views == []
    ensures CopyBlobs(env, rows, keys, views) == Ok((map[], []))
  {
  }

  lemma CopyOneMore(env: Env, rows: map<string, BlobRow>, keys: seq<string>, views: seq<Files>, i: nat)
    requires |views| == |keys| && (forall d :: d in keys ==> d in rows) && i < |keys|
    requires CopyBlobs(env, rows, keys[..i], views[..i]).Ok?
    ensures var (files, entries) := CopyBlobs(env, rows, keys[..i], views[..i]).value;
            var payload := CopyBlob(env, keys[i], rows[keys[i]], views[i]);
            CopyBlobs(env, rows, keys[..i + 1], views[..i + 1]) ==
            if payload.Fail? then Fail(payload.fault)
            else Ok((files[keys[i] := payload.value], entries + [InventoryEntry(keys[i], rows[keys[i]])]))
  {
    hide CopyBlob, InventoryEntry;
    assert keys[..i + 1][..i] == keys[..i] && views[..i + 1][..i] == views[..i];
  }

  lemma {:induction false} CopyFailsEarly(env: Env, rows: map<string, BlobRow>, keys: seq<string>, views: seq<Files>,
                                          i: nat)
    requires |views| == |keys| && (forall d :: d in keys ==> d in rows) && i <= |keys|
    requires CopyBlobs(env, rows, keys[..i], views[..i]).Fail?
    ensures CopyBlobs(env, rows, keys, views) == Fail(CopyBlobs(env, rows, keys[..i], views[..i]).fault)
    decreases |keys|
  {
    hide CopyBlob, InventoryEntry;
    if i == |keys| {
      assert keys[..i] == keys && views[..i] == views;
    } else {
      var n := |keys| - 1;
      assert keys[..n][..i] == keys[..i] && views[..n][..i] == views[..i];
      CopyFailsEarly(env, rows, keys[..n], views[..n], i);
    }
  }

  // ---------- Restore ----------

  /** One inventory entry of `restore_epoch`, with the file it names. */
  function StageBlob(env: Env, entry: Json, blobs: Files): Outcome<(string, Bytes)> {
    if !(entry.Obj? && entry.fields.Keys == {"sha256", "size", "media_type"}) then Fail(Invalid) else
    var d := entry.fields["sha256"];
    :- Need(d.Str? && IsDigest(d.s), Invalid);
    :- Need(d.s in blobs, Invalid);
    var payload := blobs[d.s];
    :- Need(entry.fields["size"] == Num(|payload|) && BlobDigest(env.digest, payload) == d.s
            && entry.fields["media_type"].Str? && ValidMedia(payload, entry.fields["media_type"].s), Invalid);
    Ok((d.s, payload))
  }

  function StageBlobs(env: Env, entries: seq<Json>, blobs: Files): Outcome<Files>
    decreases |entries|
  {
    if entries == [] then Ok(map[]) else
      var n := |entries| - 1;
      var files :- StageBlobs(env, entries[..n], blobs);
      var (d, payload) :- StageBlob(env, entries[n], blobs);
      Ok(files[d := payload])
  }

  function ReadInventory(inventory: Bytes): Outcome<Json> {
    match Decode(inventory)
    case None => Fail(Broken)
    case Some(text) =>
      match Loads(text)
      case None => Fail(Invalid)
      case Some(v) => Ok(v)
  }

  predicate WellFormedInventory(v: Json) {
    v.Obj? && Get(v, "schema") == Num(1) && Get(v, "database").Obj? && Get(v, "blobs").Arr?
  }

  predicate DatabaseMatches(digest: Digest, meta: Json, database: Bytes)
    requires meta.Obj?
  {
    && Get(meta, "file") == Str("state.sqlite") && Get(meta, "bytes") == Num(|database|)
    && Get(meta, "sha256") == Str(digest(database))
  }

  /** `restore_epoch` into an empty or an occupied target. */
  function Restore(env: Env, format: Format, epoch: Epoch, occupied: bool): Outcome<(Db, Files)> {
    if occupied then Fail(Conflict) else
    var inventory :- ReadInventory(epoch.inventory);
    :- Need(WellFormedInventory(inventory), Invalid);
    :- Need(DatabaseMatches(env.digest, Get(inventory, "database"), epoch.database), Invalid);
    :- Need(format.load(epoch.database).Some?, Invalid);
    var files :- StageBlobs(env, Get(inventory, "blobs").items, epoch.blobs);
    Ok((format.load(epoch.database).value, files))
  }

  /** The staging loop of `restore_epoch`. */
  method RestoreEpoch(env: Env, format: Format, epoch: Epoch, occupied: bool) returns (r: Outcome<(Db, Files)>)
    ensures r == Restore(env, format, epoch, occupied)
  {
    hide StageBlob, WellFormedInventory, DatabaseMatches, ReadInventory;
    if occupied {
      return Fail(Conflict);
    }
    var inventory :- ReadInventory(epoch.inventory);
    if !WellFormedInventory(inventory) {
      return Fail(Invalid);
    }
    InventoryParts(inventory);
    if !DatabaseMatches(env.digest, Get(inventory, "database"), epoch.database) || format.load(epoch.database).None? {
      return Fail(Invalid);
    }
    var entries := Get(inventory, "blobs").items;
    var staged: Files := map[];
    var i := 0;
    while i < |entries|
      invariant 0 <= i <= |entries|
      invariant StageBlobs(env, entries[..i], epoch.blobs) == Ok(staged)
    {
      assert entries[..i + 1][..i] == entries[..i];
      var blob := StageBlob(env, entries[i], epoch.blobs);
      if blob.Fail? {
        StageFailsEarly(env, entries, epoch.blobs, i + 1);
        return Fail(blob.fault);
      }
      staged := staged[blob.value.0 := blob.value.1];
      i := i + 1;
    }
    assert entries[..i] == entries;
    return Ok((format.load(epoch.database).value, staged));
  }

  lemma InventoryParts(v: Json)
    requires WellFormedInventory(v)
    ensures v.Obj? && Get(v, "database").Obj? && Get(v, "blobs").Arr?
  {
  }

  lemma {:induction false} StageFailsEarly(env: Env, entries: seq<Json>, blobs: Files, i: nat)
    requires i <= |entries| && StageBlobs(env, entries[..i], blobs).Fail?
    ensures StageBlobs(env, entries, blobs) == Fail(StageBlobs(env, entries[..i], blobs).fault)
    decreases |entries|
  {
    hide StageBlob;
    if i == |entries| {
      assert entries[..i] == entries;
    } else {
      var n := |entries| - 1;
      assert entries[..n][..i] == entries[..i];
      StageFailsEarly(env, entries[..n], blobs, i);
    }
  }

  // ---------- Backing up and restoring ----------

  /** The bytes of every listed blob. */
  function Listed(rows: map<string, BlobRow>, keys: seq<string>, files: Files): Files
    requires forall d :: d in keys ==> d in rows && d in files
  {
    map d | d in Elements(keys) :: files[d]
  }

  lemma StagingUndoesCopying(env: Env, d: string, row: BlobRow, blobs: Files, files: Files)
    requires Stored(env.digest, files, d, row) && d in blobs && blobs[d] == files[d]
    ensures StageBlob(env, InventoryEntry(d, row), blobs) == Ok((d, files[d]))
  {
    hide IsDigest, ValidMedia, BlobDigest;
  }

  lemma CopyFromView(env: Env, d: string, row: BlobRow, files: Files, view: Files)
    requires Stored(env.digest, files, d, row) && FilesGrow(files, view)
    ensures CopyBlob(env, d, row, view) == Ok(files[d])
  {
    hide IsDigest, ValidMedia, BlobDigest;
  }

  lemma ListOneMore(rows: map<string, BlobRow>, keys: seq<string>, files: Files)
    requires keys != [] && forall d :: d in keys ==> d in rows && d in files
    ensures forall d :: d in keys[..|keys| - 1] ==> d in keys
    ensures var n := |keys| - 1;
            keys[n] in keys && Listed(rows, keys, files) == Listed(rows, keys[..n], files)[keys[n] := files[keys[n]]]
  {
    var n := |keys| - 1;
    assert keys == keys[..n] + [keys[n]];
  }

  /** What a finished copy holds, and that its inventory stages the same files again. */
  ghost predicate Exact(env: Env, copies: Outcome<(Files, seq<Json>)>, listed: Files, blobs: Files) {
    && copies.Ok?
    && copies.value.0 == listed
    && StageBlobs(env, copies.value.1, blobs) == Ok(listed)
  }

  lemma ExactOneMore(env: Env, copies: (Files, seq<Json>), listed: Files, blobs: Files, d: string, entry: Json,
                     payload: Bytes)
    requires Exact(env, Ok(copies), listed, blobs) && StageBlob(env, entry, blobs) == Ok((d, payload))
    ensures Exact(env, Ok((copies.0[d := payload], copies.1 + [entry])), listed[d := payload], blobs)
  {
    hide StageBlob;
    var entries := copies.1 + [entry];
    assert entries[..|entries| - 1] == copies.1;
  }

  lemma {:induction false} CopiesAreExact(env: Env, rows: map<string, BlobRow>, keys: seq<string>, views: seq<Files>,
                                          files: Files,
                                         blobs: Files)
    requires |views| == |keys| && forall d :: d in keys ==> d in rows && Stored(env.digest, files, d, rows[d])
    requires forall i :: 0 <= i < |views| ==> FilesGrow(files, views[i])
    requires forall d :: d in keys ==> d in blobs && d in files && blobs[d] == files[d]
    ensures Exact(env, CopyBlobs(env, rows, keys, views), Listed(rows, keys, files), blobs)
    decreases |keys|
  {
    hide Stored, CopyBlob, StageBlob, FilesGrow, InventoryEntry, Listed, Exact;
    if keys == [] {
      NothingListed(env, rows, keys, files, blobs);
    } else {
      var n := |keys| - 1;
      var d := keys[n];
      ListOneMore(rows, keys, files);
      CopiesAreExact(env, rows, keys[..n], views[..n], files, blobs);
      ExactSucceeds(env, CopyBlobs(env, rows, keys[..n], views[..n]), Listed(rows, keys[..n], files), blobs);
      CopyFromView(env, d, rows[d], files, views[n]);
      StagingUndoesCopying(env, d, rows[d], blobs, files);
      ExactOneMore(env, CopyBlobs(env, rows, keys[..n], views[..n]).value, Listed(rows, keys[..n], files), blobs, d,
                   InventoryEntry(d, rows[d]), files[d]);
    }
  }

  lemma NothingListed(env: Env, rows: map<string, BlobRow>, keys: seq<string>, files: Files, blobs: Files)
    requires keys == []
    ensures Exact(env, Ok((map[], [])), Listed(rows, keys, files), blobs)
  {
  }

  lemma ExactSucceeds(env: Env, copies: Outcome<(Files, seq<Json>)>, listed: Files, blobs: Files)
    requires Exact(env, copies, listed, blobs)
    ensures copies.Ok?
  {
  }

  /** Backing up a sound store while its files only grow succeeds, and restoring gives back the snapshot and exactly the
      bytes of every listed blob. */
  lemma BackupRestores(env: Env, format: Format, db: Db, files: Files, views: seq<Files>)
    requires BlobsSound(env.digest, db.blobs, files) && |views| == |db.blobs|
    requires forall i :: 0 <= i < |views| ==> FilesGrow(files, views[i])
    requires format.load(format.dump(db)) == Some(db)
    ensures Backup(env, format, db, views).Ok?
    ensures forall d :: d in db.blobs ==> d in files
    ensures Restore(env, format, Backup(env, format, db, views).value, false) ==
            Ok((db, map d | d in db.blobs :: files[d]))
  {
    hide Stored, CopyBlobs, StageBlobs, FilesGrow, CanonicalJson, Total, BackupKeys, ReadInventory, Inventory,
         WellFormedInventory, DatabaseMatches;
    var keys := BackupKeys(db);
    forall d | d in db.blobs
      ensures d in files && Stored(env.digest, files, d, db.blobs[d])
    {
      StoredHasFile(env.digest, files, d, db.blobs[d]);
    }
    EveryBlobListed(db, files);
    CopiesAreExact(env, db.blobs, keys, views, files, Listed(db.blobs, keys, files));
    var (copied, entries) := CopyBlobs(env, db.blobs, keys, views).value;
    ReadsBack(env.digest, format.dump(db), entries);
  }

  lemma EveryBlobListed(db: Db, files: Files)
    requires forall d :: d in db.blobs ==> d in files
    ensures forall d :: d in BackupKeys(db) ==> d in files
    ensures Listed(db.blobs, BackupKeys(db), files) == map d | d in db.blobs :: files[d]
    ensures forall d :: d in BackupKeys(db) ==>
              d in Listed(db.blobs, BackupKeys(db), files) && Listed(db.blobs, BackupKeys(db), files)[d] == files[d]
  {
    hide BackupKeys;
    var keys := BackupKeys(db);
    assert forall d :: d in Elements(keys) <==> d in db.blobs;
  }

  lemma StoredHasFile(digest: Digest, files: Files, d: string, row: BlobRow)
    requires Stored(digest, files, d, row)
    ensures d in files
  {
  }

  lemma ReadsBack(digest: Digest, database: Bytes, entries: seq<Json>)
    ensures var v := Inventory(digest, database, entries);
            && ReadInventory(CanonicalJson(v) + [10]) == Ok(v)
            && WellFormedInventory(v) && DatabaseMatches(digest, Get(v, "database"), database)
            && Get(v, "blobs") == Arr(entries)
  {
    hide CanonicalJson, Loads, Decode;
    ReadCanonical(Inventory(digest, database, entries));
  }

  /** From any reachable state, whatever the store does between the copies, a backup epoch succeeds and restores
      exactly. The branch for an invalid blob is never taken. */
  lemma ReachableBackupRestores(env: Env, format: Format, ops: seq<Op>, schedule: seq<seq<Tick>>, views: seq<Files>)
    requires |schedule| == |views| == |After(env, ops).db.blobs|
    requires forall i :: 0 <= i < |views| ==> views[i] == Ticks(env, Site(After(env, ops), None), schedule[i]).s.files
    requires format.load(format.dump(After(env, ops).db)) == Some(After(env, ops).db)
    ensures var s := After(env, ops);
            && Backup(env, format, s.db, views).Ok?
            && (forall d :: d in s.db.blobs ==> d in s.files)
            && Restore(env, format, Backup(env, format, s.db, views).value, false) ==
               Ok((s.db, map d | d in s.db.blobs :: s.files[d]))
  {
    hide After, TickOf, Ticks, Backup, Restore, BlobsSound, FilesGrow;
    var s := After(env, ops);
    BlobsAlwaysSound(env, ops);
    QuietSite(env.digest, s);
    forall i | 0 <= i < |views|
      ensures FilesGrow(s.files, views[i])
    {
      TicksKeepSite(env, Site(s, None), schedule[i]);
    }
    BackupRestores(env, format, s.db, s.files, views);
  }

  lemma QuietSite(digest: Digest, s: State)
    requires BlobsSound(digest, s.db.blobs, s.files)
    ensures SiteSound(digest, Site(s, None))
  {
  }

  // ---------- Backing up and restoring anything ----------

  /** This view of the files holds the bytes that the row describes. */
  predicate IntactIn(env: Env, d: string, row: BlobRow, view: Files) {
    && IsDigest(d) && d in view && |view[d]| == row.size && "sha256:" + env.digest(view[d]) == d
    && ValidMedia(view[d], row.mediaType)
  }

  function EntryOf(d: string, row: BlobRow): Json {
    Obj(map["sha256" := Str(d), "size" := Num(row.size), "media_type" := Str(row.mediaType)])
  }

  lemma CopiesExactly(env: Env, d: string, row: BlobRow, view: Files)
    ensures CopyBlob(env, d, row, view).Ok? <==> IntactIn(env, d, row, view)
    ensures IntactIn(env, d, row, view) ==> CopyBlob(env, d, row, view).value == view[d]
    ensures InventoryEntry(d, row) == EntryOf(d, row)
  {
    hide IsDigest, ValidMedia;
  }

  /** The copies and the entries of a list of blobs. */
  predicate Copied(rows: map<string, BlobRow>, keys: seq<string>, views: seq<Files>, copies: (Files, seq<Json>))
    requires |views| == |keys| && forall d :: d in keys ==> d in rows
  {
    && copies.0.Keys == Elements(keys) && |copies.1| == |keys|
    && (forall i :: 0 <= i < |keys| ==> keys[i] in copies.0 && keys[i] in views[i]
                                        && copies.0[keys[i]] == views[i][keys[i]])
    && forall i :: 0 <= i < |keys| ==> copies.1[i] == EntryOf(keys[i], rows[keys[i]])
  }

  lemma CopiedMore(rows: map<string, BlobRow>, keys: seq<string>, views: seq<Files>, copies: (Files, seq<Json>),
                   payload: Bytes)
    requires keys != [] && |views| == |keys| && forall d :: d in keys ==> d in rows
    requires forall i, j :: 0 <= i < j < |keys| ==> keys[i] != keys[j]
    requires var n := |keys| - 1; Copied(rows, keys[..n], views[..n], copies) && keys[n] in views[n]
                                  && payload == views[n][keys[n]]
    ensures var n := |keys| - 1;
            Copied(rows, keys, views, (copies.0[keys[n] := payload], copies.1 + [EntryOf(keys[n], rows[keys[n]])]))
  {
    hide EntryOf;
    var n := |keys| - 1;
    assert keys == keys[..n] + [keys[n]];
    assert Elements(keys) == Elements(keys[..n]) + {keys[n]};
  }

  lemma NothingIsCopied(rows: map<string, BlobRow>)
    ensures Copied(rows, [], [], (map[], []))
  {
  }

  lemma {:induction false} AllCopiesExactly(env: Env, rows: map<string, BlobRow>, keys: seq<string>, views: seq<Files>)
    requires |views| == |keys| && (forall d :: d in keys ==> d in rows)
             && forall i, j :: 0 <= i < j < |keys| ==> keys[i] != keys[j]
    ensures var r := CopyBlobs(env, rows, keys, views);
            && (r.Ok? <==> forall i :: 0 <= i < |keys| ==> IntactIn(env, keys[i], rows[keys[i]], views[i]))
            && (r.Ok? ==> Copied(rows, keys, views, r.value))
    decreases |keys|
  {
    hide CopyBlob, InventoryEntry, EntryOf, IntactIn, Copied;
    if keys == [] {
      NothingIsCopied(rows);
    } else {
      var n := |keys| - 1;
      AllCopiesExactly(env, rows, keys[..n], views[..n]);
      CopiesExactly(env, keys[n], rows[keys[n]], views[n]);
      IntactIsThere(env, keys[n], rows[keys[n]], views[n]);
      var earlier := CopyBlobs(env, rows, keys[..n], views[..n]);
      if earlier.Ok? && IntactIn(env, keys[n], rows[keys[n]], views[n]) {
        CopiedMore(rows, keys, views, earlier.value, views[n][keys[n]]);
      }
    }
  }

  lemma IntactIsThere(env: Env, d: string, row: BlobRow, view: Files)
    ensures IntactIn(env, d, row, view) ==> d in view
  {
  }

  /** A backup of any store succeeds exactly when every listed blob is intact in the files as they are when it is
      copied. It then holds the database, those bytes, and the canonical inventory of the database and of every row in
      the order of the digests. */
  lemma BackupsExactly(env: Env, format: Format, db: Db, views: seq<Files>, keys: seq<string>)
    requires Ascending(keys) && Elements(keys) == db.blobs.Keys && |keys| == |views| == |db.blobs|
    ensures forall i :: 0 <= i < |keys| ==> keys[i] in db.blobs
    ensures var r := Backup(env, format, db, views);
            && (r.Ok? <==> forall i :: 0 <= i < |keys| ==> IntactIn(env, keys[i], db.blobs[keys[i]], views[i]))
            && (r.Ok? ==>
                 && r.value.database == format.dump(db)
                 && (exists entries: seq<Json> :: IsInventory(env, format.dump(db), db.blobs, keys, entries,
                                                              r.value.inventory))
                 && r.value.blobs.Keys == db.blobs.Keys
                 && forall i :: 0 <= i < |keys| ==> keys[i] in r.value.blobs && keys[i] in views[i]
                                                    && r.value.blobs[keys[i]] == views[i][keys[i]])
  {
    hide CopyBlobs, EntryOf, IntactIn, CanonicalJson, Ascending, Inventory, Copied, IsInventory;
    AscendingUnique(keys, BackupKeys(db));
    AscendingDistinct(keys);
    assert forall i :: 0 <= i < |keys| ==> keys[i] in Elements(keys);
    AllCopiesExactly(env, db.blobs, keys, views);
    var copies := CopyBlobs(env, db.blobs, keys, views);
    if copies.Ok? {
      CopiedSays(env, db.blobs, keys, views, copies.value, format.dump(db));
    }
  }

  lemma CopiedSays(env: Env, rows: map<string, BlobRow>, keys: seq<string>, views: seq<Files>,
                   copies: (Files, seq<Json>), database: Bytes)
    requires |views| == |keys| && (forall d :: d in keys ==> d in rows) && Copied(rows, keys, views, copies)
    ensures copies.0.Keys == Elements(keys)
    ensures forall i :: 0 <= i < |keys| ==> keys[i] in copies.0 && keys[i] in views[i]
                                            && copies.0[keys[i]] == views[i][keys[i]]
    ensures IsInventory(env, database, rows, keys, copies.1,
                        CanonicalJson(Inventory(env.digest, database, copies.1)) + [10])
  {
    hide EntryOf, CanonicalJson;
    InventoryForm(env.digest, database, copies.1);
  }

  lemma AscendingDistinct(keys: seq<string>)
    requires Ascending(keys)
    ensures forall i, j :: 0 <= i < j < |keys| ==> keys[i] != keys[j]
  {
  }

  function InventoryOf(digest: Digest, database: Bytes, entries: seq<Json>): Json {
    Obj(map["schema" := Num(1), "blobs" := Arr(entries),
            "database" := Obj(map["file" := Str("state.sqlite"), "bytes" := Num(|database|),
                                  "sha256" := Str(digest(database))])])
  }

  lemma InventoryForm(digest: Digest, database: Bytes, entries: seq<Json>)
    ensures Inventory(digest, database, entries) == InventoryOf(digest, database, entries)
  {
  }

  predicate IsInventory(env: Env, database: Bytes, rows: map<string, BlobRow>, keys: seq<string>, entries: seq<Json>,
                        inventory: Bytes)
  {
    && |entries| == |keys|
    && (forall i :: 0 <= i < |keys| ==> keys[i] in rows && entries[i] == EntryOf(keys[i], rows[keys[i]]))
    && inventory == CanonicalJson(InventoryOf(env.digest, database, entries)) + [10]
  }

  /** The entry describes a copied file, which hashes to its name. */
  predicate Describes(env: Env, entry: Json, blobs: Files) {
    && entry.Obj? && entry.fields.Keys == {"sha256", "size", "media_type"}
    && Get(entry, "sha256").Str? && Get(entry, "media_type").Str?
    && var d := Get(entry, "sha256").s;
    && IsDigest(d) && d in blobs && Get(entry, "size") == Num(|blobs[d]|) && "sha256:" + env.digest(blobs[d]) == d
    && ValidMedia(blobs[d], Get(entry, "media_type").s)
  }

  lemma StagesExactly(env: Env, entry: Json, blobs: Files)
    ensures StageBlob(env, entry, blobs).Ok? <==> Describes(env, entry, blobs)
    ensures Describes(env, entry, blobs) ==>
              Get(entry, "sha256").s in blobs
              && StageBlob(env, entry, blobs).value == (Get(entry, "sha256").s, blobs[Get(entry, "sha256").s])
  {
    hide IsDigest, ValidMedia;
  }

  function NamedIn(entries: seq<Json>): set<string> {
    set v | v in entries && v.Obj? && Get(v, "sha256").Str? :: Get(v, "sha256").s
  }

  lemma {:induction false} AllStagesExactly(env: Env, entries: seq<Json>, blobs: Files)
    ensures var r := StageBlobs(env, entries, blobs);
            && (r.Ok? <==> forall i :: 0 <= i < |entries| ==> Describes(env, entries[i], blobs))
            && (r.Ok? ==> r.value.Keys == NamedIn(entries)
                          && forall d :: d in r.value ==> d in blobs && r.value[d] == blobs[d])
    decreases |entries|
  {
    hide StageBlob, Describes, NamedIn;
    if entries == [] {
      NothingNamed();
    } else {
      var n := |entries| - 1;
      AllStagesExactly(env, entries[..n], blobs);
      StagesExactly(env, entries[n], blobs);
      OneMoreNamed(env, entries, blobs);
    }
  }

  lemma NothingNamed()
    ensures NamedIn([]) == {}
  {
  }

  lemma OneMoreNamed(env: Env, entries: seq<Json>, blobs: Files)
    requires entries != []
    ensures var last := entries[|entries| - 1];
            Describes(env, last, blobs) ==>
              NamedIn(entries) == NamedIn(entries[..|entries| - 1]) + {Get(last, "sha256").s}
  {
    hide IsDigest, ValidMedia;
    assert entries == entries[..|entries| - 1] + [entries[|entries| - 1]];
  }

  /** The inventory parses, has schema 1, describes exactly this database file and lists blobs. */
  predicate Inventories(env: Env, v: Json, database: Bytes) {
    && v.Obj? && Get(v, "schema") == Num(1) && Get(v, "blobs").Arr? && Get(v, "database").Obj?
    && var meta := Get(v, "database");
    && Get(meta, "file") == Str("state.sqlite") && Get(meta, "bytes") == Num(|database|)
    && Get(meta, "sha256") == Str(env.digest(database))
  }

  function ParsedInventory(inventory: Bytes): Option<Json> {
    if Decode(inventory).Some? then Loads(Decode(inventory).value) else None
  }

  /** Any epoch, honest or not, restores exactly into an empty target when its inventory describes its database file,
      the database loads, and every entry describes a copied file; the files restored are those named, as copied. */
  lemma RestoresExactly(env: Env, format: Format, epoch: Epoch, occupied: bool, db: Db, files: Files)
    ensures Restore(env, format, epoch, occupied) == Ok((db, files)) <==>
            && !occupied && ParsedInventory(epoch.inventory).Some?
            && var v := ParsedInventory(epoch.inventory).value;
            && Inventories(env, v, epoch.database) && format.load(epoch.database) == Some(db)
            && (forall i :: 0 <= i < |Get(v, "blobs").items| ==>
                            Describes(env, Get(v, "blobs").items[i], epoch.blobs))
            && files.Keys == NamedIn(Get(v, "blobs").items)
            && forall d :: d in files ==> d in epoch.blobs && files[d] == epoch.blobs[d]
  {
    hide StageBlobs, Describes, NamedIn, Loads, Decode, Get;
    if ParsedInventory(epoch.inventory).Some? {
      var v := ParsedInventory(epoch.inventory).value;
      if Inventories(env, v, epoch.database) {
        AllStagesExactly(env, Get(v, "blobs").items, epoch.blobs);
        var staged := StageBlobs(env, Get(v, "blobs").items, epoch.blobs);
        if staged.Ok? && files.Keys == staged.value.Keys && forall d :: d in files ==> files[d] == staged.value[d] {
          assert files == staged.value;
        }
      }
    }
  }
}
