/** Stored revisions never change, under every interleaving of uploads that read and insert in separate steps. */
module RevisionHistory {
  import opened Json
  import opened JsonText
  import opened Canonical
  import opened Documents
  import opened Tables
  import opened World
  import opened Justification

  /** The text is the canonical form of a signed, valid manifest with this identifier. */
  predicate RevisionSound(env: Env, id: string, text: string) {
    && Loads(text).Some?
    && Dumps(Loads(text).value) == text
    && env.verify("revision", Loads(text).value)
    && ValidateRevision(env.digest, Loads(text).value) == Ok(id)
  }

  predicate RevisionsSound(env: Env, s: State) {
    && (forall id :: id in s.db.revisions ==> RevisionSound(env, id, s.db.revisions[id]))
    && (forall c :: c in s.uploads ==> RevisionSound(env, s.uploads[c].0, s.uploads[c].1))
  }

  lemma ManifestIsSound(env: Env, manifest: Json, id: string)
    requires env.verify("revision", manifest) && ValidateRevision(env.digest, manifest) == Ok(id)
    ensures RevisionSound(env, id, Dumps(manifest))
  {
    LoadsDumps(manifest);
  }

  lemma BeginKeepsSound(env: Env, s: State, caller: nat, manifest: Json)
    requires RevisionsSound(env, s)
    ensures RevisionsSound(env, BeginUpload(env, s, caller, manifest).0)
  {
    hide RevisionSound, ValidateRevision, Dumps;
    if BeginUpload(env, s, caller, manifest).1.Ok? {
      ManifestIsSound(env, manifest, ValidateRevision(env.digest, manifest).value);
    }
  }

  lemma EndKeepsSound(env: Env, s: State, caller: nat)
    requires RevisionsSound(env, s)
    ensures RevisionsSound(env, EndUpload(s, caller).0)
  {
    hide RevisionSound;
  }

  lemma OthersKeepUploads(env: Env, s: State, op: Op)
    requires !op.BeginRevision? && !op.EndRevision?
    ensures var after := Step(env, s, op).0;
            after.uploads == s.uploads || after.uploads == map[]
  {
    hide Rollout.Call, Administration.Authorize, Blobs.PutBlob, EnrollingEffect;
  }

  lemma StepKeepsSound(env: Env, s: State, op: Op)
    requires RevisionsSound(env, s)
    ensures RevisionsSound(env, Step(env, s, op).0)
  {
    hide BeginUpload, EndUpload, RevisionSound, Rollout.Call, Administration.Authorize, Blobs.PutBlob, EnrollingEffect;
    match op
    case BeginRevision(caller, manifest) => BeginKeepsSound(env, s, caller, manifest);
    case EndRevision(caller) => EndKeepsSound(env, s, caller);
    case _ =>
      StepFrame(env, s, op);
      OthersKeepUploads(env, s, op);
  }

  /** In every reachable state every stored manifest is canonical, signed, valid and hashes to its identifier. */
  lemma {:induction false} RevisionsAlwaysSound(env: Env, ops: seq<Op>)
    ensures RevisionsSound(env, After(env, ops))
    decreases |ops|
  {
    hide Step, RevisionSound;
    if ops == [] {
      EmptyRun(env, ops);
    } else {
      RevisionsAlwaysSound(env, ops[..|ops| - 1]);
      LastStep(env, ops);
      StepKeepsSound(env, After(env, ops[..|ops| - 1]), ops[|ops| - 1]);
    }
  }

  /** Once stored, a revision keeps its bytes for the rest of the run. */
  lemma {:induction false} RevisionsImmutable(env: Env, ops: seq<Op>, i: nat, n: nat)
    requires i <= n <= |ops|
    ensures RevisionsGrow(Before(env, ops, i).db, Before(env, ops, n).db)
    decreases n
  {
    hide Step, After;
    if i < n {
      RevisionsImmutable(env, ops, i, n - 1);
      StepOfRun(env, ops, n - 1);
      StepFrame(env, Before(env, ops, n - 1), ops[n - 1]);
    }
  }

  /** An upload that begins carries its manifest unchanged. */
  lemma UploadCarriesManifest(env: Env, s: State, caller: nat, manifest: Json)
    requires BeginUpload(env, s, caller, manifest).1.Ok?
    ensures var upload := BeginUpload(env, s, caller, manifest).0.uploads[caller];
            Loads(upload.1) == Some(manifest) && ValidateRevision(env.digest, manifest) == Ok(upload.0)
  {
    LoadsDumps(manifest);
  }

  /** Whatever ran between its two steps, an upload that ends leaves a manifest stored under its identifier that agrees
      with its own on every identity field; the stored bytes are its own exactly when no other manifest got there
      first. */
  lemma UploadEnds(env: Env, ops: seq<Op>, caller: nat)
    requires Injective(env.digest) && caller in After(env, ops).uploads
    ensures var s := After(env, ops);
            var (id, payload) := s.uploads[caller];
            var (after, r) := EndUpload(s, caller);
            && r.Ok? && id in after.db.revisions
            && Loads(payload).Some? && Loads(after.db.revisions[id]).Some?
            && Loads(payload).value.Obj? && Loads(after.db.revisions[id]).value.Obj?
            && AgreeOutside(Loads(after.db.revisions[id]).value, Loads(payload).value,
                            {"revision_id", "created_utc", "signature"})
            && (Loads(after.db.revisions[id]) == Loads(payload) <==>
                (id in s.db.revisions ==> s.db.revisions[id] == payload))
  {
    hide After, Dumps, Loads, ValidateRevision, AgreeOutside;
    var s := After(env, ops);
    var (id, payload) := s.uploads[caller];
    RevisionsAlwaysSound(env, ops);
    EndKeepsSound(env, s, caller);
    var stored := EndUpload(s, caller).0.db.revisions[id];
    assert RevisionSound(env, id, stored) && RevisionSound(env, id, payload);
    RevisionIdCommits(env.digest, Loads(stored).value, Loads(payload).value);
  }

  /** Two manifests that differ only outside their identity, begun before either ends, both succeed, and the first
      insert decides the bytes: success does not mean that the submitted bytes are the stored ones. */
  lemma RacingUploads(env: Env, s: State, c: nat, d: nat, m: Json, n: Json, id: string)
    requires env.verify("revision", m) && env.verify("revision", n) && m != n
    requires ValidateRevision(env.digest, m) == ValidateRevision(env.digest, n) == Ok(id)
    requires id !in s.db.revisions && c != d && c !in s.uploads && d !in s.uploads
    ensures var (s1, r1) := BeginUpload(env, s, c, m);
            var (s2, r2) := BeginUpload(env, s1, d, n);
            var (s3, r3) := EndUpload(s2, c);
            var (s4, r4) := EndUpload(s3, d);
            && r1.Ok? && r2.Ok? && r3.Ok? && r4 == r3
            && s4.db.revisions == s.db.revisions[id := Dumps(m)] && Dumps(m) != Dumps(n)
  {
    hide ValidateRevision, Dumps;
    CanonicalInjective(m, n);
  }

  /** Without a pending upload in between, the second of two different manifests with one identifier is refused. */
  lemma SequentialUploadRefused(env: Env, s: State, caller: nat, manifest: Json, id: string)
    requires caller !in s.uploads && env.verify("revision", manifest)
    requires ValidateRevision(env.digest, manifest) == Ok(id) && id in s.db.revisions
    requires RevisionSound(env, id, s.db.revisions[id])
    ensures BeginUpload(env, s, caller, manifest).1 == Fail(Conflict) <==> Loads(s.db.revisions[id]) != Some(manifest)
    ensures BeginUpload(env, s, caller, manifest).1.Ok? <==> Loads(s.db.revisions[id]) == Some(manifest)
  {
    hide ValidateRevision, Dumps, Loads;
    LoadsDumps(manifest);
  }

  /** In every reachable state an upload begins exactly with a verified, valid manifest whose identifier is free or
      already has this manifest; if nothing comes between, it ends with that manifest stored under the identifier that
      it is answered with, and nothing else changed. */
  lemma UploadsExactly(env: Env, ops: seq<Op>, caller: nat, manifest: Json)
    requires caller !in After(env, ops).uploads
    ensures var s := After(env, ops);
            var (begun, r) := BeginUpload(env, s, caller, manifest);
            && (r.Ok? <==> env.verify("revision", manifest) && ValidateRevision(env.digest, manifest).Ok?
                           && var id := ValidateRevision(env.digest, manifest).value;
                              id in s.db.revisions ==> Loads(s.db.revisions[id]) == Some(manifest))
            && (r.Fail? ==> begun == s)
            && (r.Ok? ==>
                 && begun.db == s.db && manifest.Obj? && Get(manifest, "revision_id").Str?
                 && var id := Get(manifest, "revision_id").s;
                 && EndUpload(begun, caller) ==
                    (s.(db := s.db.(revisions := s.db.revisions[id := Dumps(manifest)])),
                     Ok(Obj(map["revision_id" := Str(id)]))))
  {
    hide After, Dumps, Loads, ValidateRevision;
    var s := After(env, ops);
    RevisionsAlwaysSound(env, ops);
    if ValidateRevision(env.digest, manifest).Ok? {
      var id := ValidateRevision(env.digest, manifest).value;
      RevisionAccepted(env.digest, manifest, id);
      LoadsDumps(manifest);
      assert id in s.db.revisions ==> RevisionSound(env, id, s.db.revisions[id]);
      assert s.uploads[caller := (id, Dumps(manifest))] - {caller} == s.uploads;
      if id in s.db.revisions && s.db.revisions[id] == Dumps(manifest) {
        assert s.db.revisions[id := Dumps(manifest)] == s.db.revisions;
      }
    }
  }
}
