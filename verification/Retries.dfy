/** Retried calls: replays change nothing and repeat the first response. */
module Retries {
  import opened Json
  import opened JsonText
  import opened Canonical
  import opened Tables
  import opened Rollout
  import opened World
  import opened Justification
  import Formats

  /** The call's key has already been committed. */
  ghost predicate Retried(s: State, op: Op) {
    op.CallRollout? && op.key in s.db.idempotency
  }

  ghost function RunFrom(env: Env, s: State, ops: seq<Op>): State
    decreases |ops|
  {
    if ops == [] then s else RunFrom(env, Step(env, s, ops[0]).0, ops[1..])
  }

  ghost function Outcomes(env: Env, s: State, ops: seq<Op>): seq<Outcome<Json>>
    decreases |ops|
  {
    if ops == [] then [] else
      var (after, r) := Step(env, s, ops[0]);
      [r] + Outcomes(env, after, ops[1..])
  }

  /** The run without its retries, a call being a retry when its key is known in the state that the whole run has
      reached. */
  ghost function Erase(env: Env, s: State, ops: seq<Op>): seq<Op>
    decreases |ops|
  {
    if ops == [] then [] else
      var rest := Erase(env, Step(env, s, ops[0]).0, ops[1..]);
      if Retried(s, ops[0]) then rest else [ops[0]] + rest
  }

  /** The outcomes of the operations that are not retries. */
  ghost function OtherOutcomes(env: Env, s: State, ops: seq<Op>): seq<Outcome<Json>>
    decreases |ops|
  {
    if ops == [] then [] else
      var (after, r) := Step(env, s, ops[0]);
      var rest := OtherOutcomes(env, after, ops[1..]);
      if Retried(s, ops[0]) then rest else [r] + rest
  }

  lemma RetryChangesNothing(env: Env, s: State, op: Op)
    requires Retried(s, op)
    ensures Step(env, s, op).0 == s
  {
    hide Prepare, Execute;
  }

  /** Erasing every retry from a run leaves the final state and the outcome of every other operation as they were. */
  lemma {:induction false} RetriesCanBeErased(env: Env, s: State, ops: seq<Op>)
    ensures RunFrom(env, s, Erase(env, s, ops)) == RunFrom(env, s, ops)
    ensures Outcomes(env, s, Erase(env, s, ops)) == OtherOutcomes(env, s, ops)
    decreases |ops|
  {
    hide Step;
    if ops != [] {
      var after := Step(env, s, ops[0]).0;
      RetriesCanBeErased(env, after, ops[1..]);
      if Retried(s, ops[0]) {
        RetryChangesNothing(env, s, ops[0]);
      } else {
        var kept := Erase(env, s, ops);
        assert kept[0] == ops[0] && kept[1..] == Erase(env, after, ops[1..]);
      }
    }
  }

  lemma RunSplits(env: Env, s: State, ops: seq<Op>)
    requires ops != []
    ensures RunFrom(env, s, ops) == Step(env, RunFrom(env, s, ops[..|ops| - 1]), ops[|ops| - 1]).0
    decreases |ops|
  {
    hide Step;
    var n := |ops| - 1;
    if n == 0 {
      assert ops[1..] == [] && ops[..0] == [];
    } else {
      var after := Step(env, s, ops[0]).0;
      RunSplits(env, after, ops[1..]);
      assert ops[1..][..n - 1] == ops[..n][1..];
      assert ops[1..][n - 1] == ops[n];
    }
  }

  /** The two ways of running agree, so the erasure theorem speaks of every reachable state. */
  lemma {:induction false} RunIsAfter(env: Env, ops: seq<Op>)
    ensures RunFrom(env, START, ops) == After(env, ops)
    decreases |ops|
  {
    if ops != [] {
      hide Step;
      RunSplits(env, START, ops);
      RunIsAfter(env, ops[..|ops| - 1]);
    }
  }

  // ---------- Replays ----------

  lemma CommitRemembers(env: Env, s: State, op: Op)
    requires Committing(env, s, op)
    ensures var (after, r) := Step(env, s, op);
            && r.Ok?
            && after.db.idempotency == s.db.idempotency[op.key := Remembered(Operation(op.request), Dumps(r.value))]
  {
    hide Prepare, Execute, Dumps;
    ExecuteTouches(env, s.db, Prepare(env, s.db, op.request, op.now).value, op.ties);
  }

  lemma OnlyCommitsRemember(env: Env, s: State, op: Op)
    requires !Committing(env, s, op)
    ensures Step(env, s, op).0.db.idempotency == s.db.idempotency
  {
    hide Step, Commits, Call;
    if op.CallRollout? {
      RolloutStep(env, s, op);
      UncommittedCall(env, s.db, op.key, op.request, op.now, op.ties);
    } else {
      StepFrame(env, s, op);
    }
  }

  /** Operation `i` is a call that committed with this key. */
  ghost predicate CommittedAt(env: Env, ops: seq<Op>, i: nat, key: string) {
    i < |ops| && Committing(env, Before(env, ops, i), ops[i]) && ops[i].CallRollout? && ops[i].key == key
  }

  /** The state remembers the key with the operation and response of call `i`. */
  ghost predicate Remembers(env: Env, s: State, ops: seq<Op>, i: nat, key: string)
    requires i < |ops| && ops[i].CallRollout?
  {
    && OutcomeOf(env, ops, i).Ok? && key in s.db.idempotency
    && s.db.idempotency[key] == Remembered(Operation(ops[i].request), Dumps(OutcomeOf(env, ops, i).value))
  }

  lemma CommittedIsRemembered(env: Env, ops: seq<Op>, i: nat, key: string)
    requires CommittedAt(env, ops, i, key)
    ensures Remembers(env, Before(env, ops, i + 1), ops, i, key)
  {
    hide Step, After, Committing, Dumps, Operation;
    CommitRemembers(env, Before(env, ops, i), ops[i]);
    StepOfRun(env, ops, i);
  }

  /** Once committed, a key keeps its operation and response for the rest of the run. */
  lemma {:induction false} KeyIsKept(env: Env, ops: seq<Op>, i: nat, n: nat, key: string)
    requires CommittedAt(env, ops, i, key) && i < n <= |ops|
    ensures Remembers(env, Before(env, ops, n), ops, i, key)
    decreases n
  {
    hide Step, After, Committing, Dumps, Operation;
    if i == n - 1 {
      CommittedIsRemembered(env, ops, i, key);
    } else {
      KeyIsKept(env, ops, i, n - 1, key);
      RowsAreKept(env, Before(env, ops, n - 1), ops[n - 1], key);
      StepOfRun(env, ops, n - 1);
    }
  }

  lemma RowsAreKept(env: Env, s: State, op: Op, key: string)
    requires key in s.db.idempotency
    ensures var after := Step(env, s, op).0;
            key in after.db.idempotency && after.db.idempotency[key] == s.db.idempotency[key]
  {
    hide Step, Dumps;
    if Committing(env, s, op) {
      CommitRemembers(env, s, op);
      FreshKey(env, s, op);
    } else {
      OnlyCommitsRemember(env, s, op);
    }
  }

  lemma FreshKey(env: Env, s: State, op: Op)
    requires Committing(env, s, op)
    ensures op.key !in s.db.idempotency
  {
    hide Prepare, Execute;
  }

  lemma ReplayOutcome(env: Env, s: State, op: Op)
    requires op.CallRollout? && |op.key| >= 8 && op.key in s.db.idempotency
    requires Prepare(env, s.db, op.request, op.now).Ok?
    ensures var row := s.db.idempotency[op.key];
            Step(env, s, op).1 == if row.operation == Operation(op.request) then ReadJson(row.response)
                else Fail(Conflict)
  {
    hide Prepare, Execute, ReadJson;
  }

  lemma CommittedKeyIsLong(env: Env, ops: seq<Op>, i: nat, key: string)
    requires CommittedAt(env, ops, i, key)
    ensures |key| >= 8
  {
    hide Prepare, Execute, After;
  }

  /** A call with a committed key that passes its own checks returns the first response, for the same operation, and is
      refused for any other, whatever its arguments are. */
  lemma ReplayRepeatsFirst(env: Env, ops: seq<Op>, i: nat, n: nat, key: string)
    requires CommittedAt(env, ops, i, key) && i < n < |ops|
    requires ops[n].CallRollout? && ops[n].key == key
    requires Prepare(env, Before(env, ops, n).db, ops[n].request, ops[n].now).Ok?
    ensures OutcomeOf(env, ops, n) ==
            if Operation(ops[n].request) == Operation(ops[i].request) then OutcomeOf(env, ops, i) else Fail(Conflict)
  {
    hide After, Prepare, Step, Dumps, Loads, Operation;
    KeyIsKept(env, ops, i, n, key);
    CommittedKeyIsLong(env, ops, i, key);
    LoadsDumps(OutcomeOf(env, ops, i).value);
    ReplayOutcome(env, Before(env, ops, n), ops[n]);
  }

  /** A request whose document was not verified as what it is sent for. */
  predicate Unverified(env: Env, request: Request) {
    match request
    case Assign(document) => !env.verify("assignment", document)
    case Bootstrap(_, document) => !env.verify("assignment", document)
    case Promote(_, _, _, _, event, _) => !env.verify("promotion", event)
    case _ => false
  }

  /** Such a request is invalid under any key, also under one that has committed: nothing is replayed for it. */
  lemma UnverifiedIsNeverReplayed(env: Env, db: Db, key: string, request: Request, now: int, ties: map<string, string>)
    requires Unverified(env, request)
    ensures Call(env, db, key, request, now, ties) == (db, Fail(Invalid))
  {
    hide Formats.IsChannel, Once, PromotionBatch;
  }

  lemma CommittedInPrefix(env: Env, ops: seq<Op>, i: nat, n: nat, key: string)
    requires i < n <= |ops|
    ensures CommittedAt(env, ops, i, key) <==> CommittedAt(env, ops[..n], i, key)
  {
    hide Committing, After;
    assert ops[..n][..i] == ops[..i];
  }

  lemma KeyStep(env: Env, s: State, op: Op, key: string)
    ensures key in Step(env, s, op).0.db.idempotency <==>
            key in s.db.idempotency || (Committing(env, s, op) && op.CallRollout? && op.key == key)
  {
    hide Step, Dumps;
    if Committing(env, s, op) {
      CommitIsCall(env, s, op);
      hide Committing;
      CommitRemembers(env, s, op);
    } else {
      OnlyCommitsRemember(env, s, op);
    }
  }

  /** A key is known exactly when some earlier call committed with it. */
  lemma {:induction false} KnownKeys(env: Env, ops: seq<Op>, key: string)
    ensures key in After(env, ops).db.idempotency <==> exists i: nat :: CommittedAt(env, ops, i, key)
    decreases |ops|
  {
    hide Step, After, CommittedAt;
    if ops == [] {
      EmptyRun(env, ops);
      NothingCommitted(env, ops, key);
    } else {
      var n := |ops| - 1;
      KnownKeys(env, ops[..n], key);
      LastKey(env, ops, key);
      if key in After(env, ops[..n]).db.idempotency {
        var i: nat :| CommittedAt(env, ops[..n], i, key);
        CommittedInRange(env, ops[..n], i, key);
        CommittedInPrefix(env, ops, i, n, key);
      }
      forall i: nat | CommittedAt(env, ops, i, key)
        ensures key in After(env, ops).db.idempotency
      {
        CommittedInRange(env, ops, i, key);
        if i < n {
          CommittedInPrefix(env, ops, i, n, key);
        }
      }
    }
  }

  lemma LastKey(env: Env, ops: seq<Op>, key: string)
    requires ops != []
    ensures key in After(env, ops).db.idempotency <==>
            key in After(env, ops[..|ops| - 1]).db.idempotency || CommittedAt(env, ops, |ops| - 1, key)
  {
    LastStep(env, ops);
    KeyStep(env, After(env, ops[..|ops| - 1]), ops[|ops| - 1], key);
    hide Step, After, Committing;
  }

  lemma NothingCommitted(env: Env, ops: seq<Op>, key: string)
    requires ops == []
    ensures forall i: nat :: !CommittedAt(env, ops, i, key)
  {
  }

  lemma CommittedInRange(env: Env, ops: seq<Op>, i: nat, key: string)
    requires CommittedAt(env, ops, i, key)
    ensures i < |ops|
  {
  }

  lemma CommitIsCall(env: Env, s: State, op: Op)
    requires Committing(env, s, op)
    ensures op.CallRollout?
  {
  }
}
