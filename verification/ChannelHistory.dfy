/** A channel's pointers and generation are the fold of its committed publications and promotions. */
module ChannelHistory {
  import opened Json
  import opened Documents
  import opened Tables
  import opened Rollout
  import opened RolloutInvariant
  import opened World
  import opened Justification

  /** A committed publication or promotion, with the arguments its caller gave. */
  datatype Event =
    | Published(revision: Json, base: Json, head: Json)
    | Promoted(candidate: Json, expectedActive: Json, generation: Json)

  function TextOf(v: Json): Option<string> {
    match Bind(v)
    case Ok(Text(s)) => Some(s)
    case _ => None
  }

  function IntOf(v: Json): int {
    if v.Num? then v.n else 0
  }

  datatype View = View(candidate: Option<string>, active: Option<string>, generation: int)

  /** What an event alone says about the channel after it. */
  function Play(view: View, event: Event): View {
    match event
    case Published(revision, _, _) => view.(candidate := TextOf(revision))
    case Promoted(candidate, _, generation) => View(None, TextOf(candidate), IntOf(generation))
  }

  function Fold(events: seq<Event>): View
    decreases |events|
  {
    if events == [] then View(None, None, 0) else Play(Fold(events[..|events| - 1]), events[|events| - 1])
  }

  /** The caller's expectations equal what the earlier events left: both heads, and the next generation. */
  predicate Follows(view: View, event: Event) {
    match event
    case Published(_, base, head) => head == FromOption(view.candidate) && base == FromOption(view.active)
    case Promoted(candidate, expectedActive, generation) =>
      candidate == FromOption(view.candidate) && expectedActive == FromOption(view.active)
      && generation == Num(view.generation + 1)
  }

  predicate Chained(events: seq<Event>) {
    forall i :: 0 <= i < |events| ==> Follows(Fold(events[..i]), events[i])
  }

  ghost function EventOf(env: Env, s: State, op: Op, channel: string): Option<Event> {
    if !Committing(env, s, op) then None else
      match op.request
      case Publish(c, revision, base, head) => if c == channel then Some(Published(revision, base, head)) else None
      case Promote(c, candidate, expectedActive, _, event, _) =>
        if c == channel && event.Obj? then Some(Promoted(candidate, expectedActive, Get(event, "generation"))) else None
      case _ => None
  }

  /** The committed log of one channel. */
  ghost function Log(env: Env, ops: seq<Op>, channel: string): seq<Event>
    decreases |ops|
  {
    if ops == [] then [] else
      var earlier := ops[..|ops| - 1];
      match EventOf(env, After(env, earlier), ops[|ops| - 1], channel)
      case None => Log(env, earlier, channel)
      case Some(event) => Log(env, earlier, channel) + [event]
  }

  function ViewOf(row: Channel): View {
    View(row.candidate, row.active, row.generation)
  }

  /** How one step moves a channel: by its event, or not at all. */
  ghost predicate Moves(channels: map<string, Channel>, after: map<string, Channel>, channel: string,
                        event: Option<Event>) {
    match event
    case None => (channel in channels <==> channel in after)
        && ChannelOf(after, channel) == ChannelOf(channels, channel)
    case Some(e) =>
      && channel in after && Follows(ViewOf(ChannelOf(channels, channel)), e)
      && ViewOf(ChannelOf(after, channel)) == Play(ViewOf(ChannelOf(channels, channel)), e)
  }

  lemma PublishMoves(db: Db, c: string, revision: Json, base: Json, head: Json, channel: string)
    requires DoPublish(db, c, revision, base, head).Ok?
    ensures Moves(db.channels, DoPublish(db, c, revision, base, head).value.0.channels, channel,
                  if c == channel then Some(Published(revision, base, head)) else None)
  {
    hide ClearChannel;
  }

  lemma PromoteMoves(db: Db, c: string, candidate: Json, expectedActive: Json, required: seq<Json>, event: Json,
                     batch: Option<seq<(Contract, Json)>>, ties: map<string, string>, channel: string)
    requires DoPromote(db, c, candidate, expectedActive, required, event, batch, ties).Ok?
    ensures event.Obj?
    ensures Moves(db.channels, DoPromote(db, c, candidate, expectedActive, required, event, batch,
                                         ties).value.0.channels, channel,
                  if c == channel then Some(Promoted(candidate, expectedActive, Get(event, "generation"))) else None)
  {
    hide ClearChannel, BatchRows, BatchMembers, CanariesPassed, PromotionResponse, Insertable;
  }

  lemma ExecuteMoves(env: Env, s: State, op: Op, channel: string)
    requires Committing(env, s, op)
    ensures Moves(s.db.channels, Execute(env, s.db, Prepare(env, s.db, op.request, op.now).value,
                                         op.ties).value.0.channels, channel,
                  EventOf(env, s, op, channel))
  {
    hide DoPublish, DoAssign, DoBootstrap, DoReport, DoPromote, SignedAssignment, PromotionBatch, ReportVerified;
    var action := Prepare(env, s.db, op.request, op.now).value;
    match action
    case PublishAction(c, revision, base, head) => PublishMoves(s.db, c, revision, base, head, channel);
    case AssignAction(document, enrollment, contract, tags) =>
      AssignTouches(s.db, document, enrollment, contract, tags);
    case BootstrapAction(c, document, enrollment, contract, tags) =>
      BootstrapTouches(s.db, c, document, enrollment, contract, tags);
    case ReportAction(document, sender, result) => ReportLeaves(env, s.db, document, sender, result);
    case PromoteAction(c, candidate, expectedActive, required, event, batch) =>
      PromoteMoves(s.db, c, candidate, expectedActive, required, event, batch, op.ties, channel);
  }

  lemma StepMoves(env: Env, s: State, op: Op, channel: string)
    ensures Moves(s.db.channels, Step(env, s, op).0.db.channels, channel, EventOf(env, s, op, channel))
  {
    hide Step, Call, Prepare, Execute;
    if Committing(env, s, op) {
      hide EventOf;
      RolloutStep(env, s, op);
      CommittedCall(env, s.db, op.key, op.request, op.now, op.ties);
      ExecuteMoves(env, s, op, channel);
    } else if op.CallRollout? {
      RolloutStep(env, s, op);
      UncommittedCall(env, s.db, op.key, op.request, op.now, op.ties);
    } else {
      StepFrame(env, s, op);
    }
  }

  /** In every reachable state a channel is exactly the fold of its log, exists exactly when the log is not empty, and
      every event found what its predecessors had left. */
  lemma {:induction false} ChannelIsItsLog(env: Env, ops: seq<Op>, channel: string)
    ensures var (channels, log) := (After(env, ops).db.channels, Log(env, ops, channel));
            && ViewOf(ChannelOf(channels, channel)) == Fold(log)
            && (channel in channels <==> log != [])
            && Chained(log)
    decreases |ops|
  {
    hide Step, EventOf, Follows, Play;
    if ops == [] {
      EmptyRun(env, ops);
    } else {
      var earlier := ops[..|ops| - 1];
      ChannelIsItsLog(env, earlier, channel);
      LastStep(env, ops);
      StepMoves(env, After(env, earlier), ops[|ops| - 1], channel);
      var log := Log(env, earlier, channel);
      match EventOf(env, After(env, earlier), ops[|ops| - 1], channel)
      case None =>
      case Some(event) => Appended(log, event);
    }
  }

  lemma Appended(log: seq<Event>, event: Event)
    requires Chained(log) && Follows(Fold(log), event)
    ensures Fold(log + [event]) == Play(Fold(log), event)
    ensures Chained(log + [event])
  {
    hide Follows, Play;
    var longer := log + [event];
    assert longer[..|longer| - 1] == log;
    forall i | 0 <= i < |longer|
      ensures Follows(Fold(longer[..i]), longer[i])
    {
      if i < |log| {
        assert longer[..i] == log[..i];
        assert Follows(Fold(log[..i]), log[i]);
      }
    }
  }

  function Promotions(log: seq<Event>): nat
    decreases |log|
  {
    if log == [] then 0
    else Promotions(log[..|log| - 1]) + (if log[|log| - 1].Promoted? then 1 else 0)
  }

  /** The generation counts the committed promotions. */
  lemma {:induction false} GenerationCounts(log: seq<Event>)
    requires Chained(log)
    ensures Fold(log).generation == Promotions(log)
    decreases |log|
  {
    if log != [] {
      var earlier := log[..|log| - 1];
      forall i | 0 <= i < |earlier|
        ensures Follows(Fold(earlier[..i]), earlier[i])
      {
        assert earlier[..i] == log[..i];
      }
      GenerationCounts(earlier);
      assert Follows(Fold(earlier), log[|log| - 1]);
    }
  }

  lemma ChainedPrefix(log: seq<Event>, i: nat)
    requires Chained(log) && i <= |log|
    ensures Chained(log[..i])
  {
    hide Follows, Fold;
    forall j | 0 <= j < i
      ensures Follows(Fold(log[..i][..j]), log[..i][j])
    {
      assert log[..i][..j] == log[..j];
    }
  }

  /** In any run the promotions of a channel carry the generations 1, 2, ... without a gap: each is one more than the
      number of promotions before it, and the channel's own generation is their number. */
  lemma GenerationsHaveNoGap(env: Env, ops: seq<Op>, channel: string, i: nat)
    requires i < |Log(env, ops, channel)| && Log(env, ops, channel)[i].Promoted?
    ensures var log := Log(env, ops, channel);
            && log[i].generation == Num(Promotions(log[..i]) + 1)
            && ChannelOf(After(env, ops).db.channels, channel).generation == Promotions(log)
  {
    hide After, Log;
    var log := Log(env, ops, channel);
    ChannelIsItsLog(env, ops, channel);
    GenerationCounts(log);
    ChainedPrefix(log, i);
    GenerationCounts(log[..i]);
    assert Follows(Fold(log[..i]), log[i]);
  }

  /** A publication sees the active revision that the latest promotion before it made active. */
  lemma {:induction false} ActiveIsLastPromoted(log: seq<Event>, i: nat)
    requires Chained(log) && i < |log| && log[i].Promoted?
    requires forall j :: i < j < |log| ==> log[j].Published?
    ensures Fold(log).active == TextOf(log[i].candidate)
    decreases |log|
  {
    if i < |log| - 1 {
      ChainedPrefix(log, |log| - 1);
      ActiveIsLastPromoted(log[..|log| - 1], i);
    }
  }
}
