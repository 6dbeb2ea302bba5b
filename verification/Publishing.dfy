/** When a publication goes through, and what it leaves. */
module Publishing {
  import opened Json
  import opened JsonText
  import opened Formats
  import opened Documents
  import opened Tables
  import opened Rollout
  import opened World
  import opened RevisionHistory
  import Canonical

  /** Exactly the rows of other channels are left, as they were. */
  ghost predicate Withdrawn(rows: map<string, Assignment>, after: map<string, Assignment>, channel: string) {
    && (forall e :: e in after <==> e in rows && rows[e].channel != channel)
    && forall e :: e in after ==> after[e] == rows[e]
  }

  lemma ClearingWithdraws(rows: map<string, Assignment>, channel: string)
    ensures Withdrawn(rows, ClearChannel(rows, channel), channel)
  {
  }

  /** Everything asked of a publication: a stored revision, and both heads as the caller expects them. */
  predicate PublishFits(db: Db, key: string, channel: string, revision: Json, base: Json, head: Json) {
    && FreshKey(db, key) && IsChannel(channel) && revision.Str? && revision.s in db.revisions
    && if channel in db.channels then
         FromOption(db.channels[channel].candidate) == head && FromOption(db.channels[channel].active) == base
       else head == Null && base == Null
  }

  /** The channel has the new candidate and keeps its active revision and generation, its assignments are withdrawn, and
      the answer is what the channel then says. */
  ghost predicate PublishLeft(db: Db, after: Db, key: string, channel: string, revision: string, answer: Json) {
    && channel in after.channels
    && var row := after.channels[channel];
    && row.candidate == Some(revision)
    && (if channel in db.channels then
          row.active == db.channels[channel].active && row.generation == db.channels[channel].generation
        else row.active == None && row.generation == 0)
    && answer == Obj(map["channel" := Str(channel), "candidate_revision" := FromOption(row.candidate),
                         "active_revision" := FromOption(row.active)])
    && Withdrawn(db.assignments, after.assignments, channel)
    && after == db.(channels := db.channels[channel := row], assignments := after.assignments,
                    idempotency := db.idempotency[key := Remembered("publish_candidate", Dumps(answer))])
  }

  /** Only a text names a stored revision. */
  lemma OnlyTextIsDigest(v: Json)
    requires Bind(v).Ok? && Bind(v).value.Text? && IsDigest(Bind(v).value.s)
    ensures v.Str?
  {
    var s := Bind(v).value.s;
    assert s[0] == s[..7][0] == 's';
    if v.Num? {
      DecimalStarts(v.n);
    }
  }

  lemma DecimalStarts(n: int)
    ensures Decimal(n)[0] != 's'
  {
    if n >= 0 {
      Canonical.DecimalValue(n);
      assert IsDigit(DecimalNat(n)[0]);
    }
  }

  lemma StoredIsText(env: Env, ops: seq<Op>, revision: Json)
    requires Bind(revision).Ok? && Bind(revision).value.Text?
    requires Bind(revision).value.s in After(env, ops).db.revisions
    ensures revision.Str? && Bind(revision).value.s == revision.s
  {
    hide After, Dumps, Loads, IsDigest, ContentId, RevisionIdentity, Bind;
    RevisionsAlwaysSound(env, ops);
    var id := Bind(revision).value.s;
    assert RevisionSound(env, id, After(env, ops).db.revisions[id]);
    OnlyTextIsDigest(revision);
    TextBinds(revision);
  }

  lemma TextBinds(v: Json)
    requires v.Str?
    ensures Bind(v) == Ok(Text(v.s))
  {
  }

  lemma PublishActs(db: Db, key: string, channel: string, revision: Json, base: Json, head: Json)
    requires revision.Str?
    ensures var r := DoPublish(db, channel, revision, base, head);
            && (FreshKey(db, key) && IsChannel(channel) ==>
                (r.Ok? <==> PublishFits(db, key, channel, revision, base, head)))
            && (r.Ok? ==>
                 var remembered := db.idempotency[key := Remembered("publish_candidate", Dumps(r.value.1))];
                 PublishLeft(db, r.value.0.(idempotency := remembered), key, channel, revision.s, r.value.1))
  {
    hide IsChannel, Dumps, ClearChannel, Withdrawn;
    ClearingWithdraws(db.assignments, channel);
  }

  lemma CommitsPublish(env: Env, db: Db, key: string, channel: string, revision: Json, base: Json, head: Json, now: int,
                       ties: map<string, string>)
    ensures var effect := DoPublish(db, channel, revision, base, head);
            && (Commits(env, db, key, Publish(channel, revision, base, head), now, ties) <==>
                FreshKey(db, key) && IsChannel(channel) && effect.Ok?)
            && (FreshKey(db, key) && IsChannel(channel) && effect.Ok? ==>
                 var remembered := db.idempotency[key := Remembered("publish_candidate", Dumps(effect.value.1))];
                 Call(env, db, key, Publish(channel, revision, base, head), now, ties) ==
                 (effect.value.0.(idempotency := remembered), Ok(effect.value.1)))
  {
    hide IsChannel, DoPublish, Dumps;
    if DoPublish(db, channel, revision, base, head).Ok? {
      PublishTouches(db, channel, revision, base, head);
    }
  }

  lemma PublishesStored(db: Db, channel: string, revision: Json, base: Json, head: Json)
    requires DoPublish(db, channel, revision, base, head).Ok?
    ensures Bind(revision).Ok? && Bind(revision).value.Text? && Bind(revision).value.s in db.revisions
  {
    hide Bind, ClearChannel, PublishResponse;
  }

  /** In every reachable state a publication commits exactly when it fits, and leaves what it is answered with. */
  lemma PublishesExactly(env: Env, ops: seq<Op>, key: string, channel: string, revision: Json, base: Json, head: Json,
                         now: int, ties: map<string, string>)
    ensures var db := After(env, ops).db;
            && (Commits(env, db, key, Publish(channel, revision, base, head), now, ties) <==>
                PublishFits(db, key, channel, revision, base, head))
            && (PublishFits(db, key, channel, revision, base, head) ==>
                 var (after, r) := Call(env, db, key, Publish(channel, revision, base, head), now, ties);
                 r.Ok? && PublishLeft(db, after, key, channel, revision.s, r.value))
  {
    hide After, Commits, Call, DoPublish, IsChannel, PublishLeft, Dumps, Bind;
    var db := After(env, ops).db;
    CommitsPublish(env, db, key, channel, revision, base, head, now, ties);
    if DoPublish(db, channel, revision, base, head).Ok? {
      PublishesStored(db, channel, revision, base, head);
      StoredIsText(env, ops, revision);
    }
    if revision.Str? {
      PublishActs(db, key, channel, revision, base, head);
    }
  }
}
