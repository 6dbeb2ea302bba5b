/** The table of used administrator nonces agrees with the history of accepted requests. */
module NonceHistory {
  import opened Json
  import opened Canonical
  import opened Documents
  import opened Tables
  import opened Administration
  import opened World
  import opened Justification

  /** The use that an operation makes of a nonce, if it is an accepted administrator request. */
  ghost function UseOf(env: Env, s: State, op: Op): Option<Use> {
    if op.Authorize? && Administration.Authorize(env, s.db, op.document, op.operation, op.key, op.now).Ok?
    then Some(Admit(env, op.document, op.operation, op.key, op.now).value) else None
  }

  ghost predicate UsedAt(env: Env, ops: seq<Op>, i: nat, use: Use) {
    i < |ops| && UseOf(env, Before(env, ops, i), ops[i]) == Some(use)
  }

  /** Administrator requests are authorised by a clock that never runs backwards. */
  predicate ClockMonotone(ops: seq<Op>) {
    forall i, j :: 0 <= i < j < |ops| && ops[i].Authorize? && ops[j].Authorize? ==> ops[i].now <= ops[j].now
  }

  predicate Listed(rows: map<(string, string), AdminRequest>, use: Use) {
    (use.actor, use.nonce) in rows && rows[(use.actor, use.nonce)] == AdminRequest(use.requestDigest, use.expiresAt)
  }

  /** The time of the latest accepted request. */
  ghost function LastTime(env: Env, ops: seq<Op>): Option<int>
    decreases |ops|
  {
    if ops == [] then None else
      var n := |ops| - 1;
      if UseOf(env, After(env, ops[..n]), ops[n]).Some? then Some(ops[n].now) else LastTime(env, ops[..n])
  }

  /** The table lists exactly the accepted requests that had not expired at the latest acceptance. */
  ghost predicate Agrees(env: Env, ops: seq<Op>, use: Use) {
    Listed(After(env, ops).db.adminRequests, use) <==>
      LastTime(env, ops).Some? && use.expiresAt >= LastTime(env, ops).value && exists i: nat :: UsedAt(env, ops, i, use)
  }

  lemma UsedInPrefix(env: Env, ops: seq<Op>, i: nat, use: Use)
    requires ops != []
    ensures UsedAt(env, ops, i, use) <==>
            UsedAt(env, ops[..|ops| - 1], i, use)
            || (i == |ops| - 1 && UseOf(env, After(env, ops[..|ops| - 1]), ops[|ops| - 1]) == Some(use))
  {
    hide UseOf, After;
    var n := |ops| - 1;
    if i < n {
      assert ops[..n][..i] == ops[..i];
    }
  }

  /** The time of the latest acceptance is some earlier authorisation's clock. */
  lemma {:induction false} LastTimeIsEarlier(env: Env, ops: seq<Op>, now: int)
    requires LastTime(env, ops).Some?
    requires forall i :: 0 <= i < |ops| && ops[i].Authorize? ==> ops[i].now <= now
    ensures LastTime(env, ops).value <= now
    decreases |ops|
  {
    hide After;
    var n := |ops| - 1;
    if UseOf(env, After(env, ops[..n]), ops[n]).None? {
      LastTimeIsEarlier(env, ops[..n], now);
    }
  }

  /** Equal request digests mean equal documents, hence equal expiries. */
  lemma UsesOfOneRequest(env: Env, s: State, op: Op, t: State, other: Op)
    requires Injective(env.digest)
    requires UseOf(env, s, op).Some? && UseOf(env, t, other).Some?
    requires UseOf(env, s, op).value.requestDigest == UseOf(env, t, other).value.requestDigest
    ensures UseOf(env, s, op).value.expiresAt == UseOf(env, t, other).value.expiresAt
  {
    hide CanonicalJson, Allowed, Formats.IsNonce, Formats.IsKeyId;
    CanonicalInjective(op.document, other.document);
  }

  lemma UnusedStep(env: Env, s: State, op: Op)
    requires UseOf(env, s, op).None?
    ensures Step(env, s, op).0.db.adminRequests == s.db.adminRequests
  {
    hide Step, Admit, Administration.Authorize;
    if op.Authorize? {
      AuthorizeStep(env, s, op);
    } else {
      StepFrame(env, s, op);
    }
  }

  /** An accepted request keeps the unexpired rows and lists itself, unless it was listed already. */
  lemma UsedStep(env: Env, s: State, op: Op)
    requires UseOf(env, s, op).Some?
    ensures op.Authorize?
    ensures var (use, kept) := (UseOf(env, s, op).value, PurgeRequests(s.db.adminRequests, op.now));
            var slot := (use.actor, use.nonce);
            && (slot in kept ==> kept[slot].requestDigest == use.requestDigest)
            && use.expiresAt >= op.now
            && Step(env, s, op).0.db.adminRequests ==
               if slot in kept then kept else kept[slot := AdminRequest(use.requestDigest, use.expiresAt)]
  {
    hide Admit, Step;
    AuthorizeStep(env, s, op);
    AdmittedIsTimely(env, op.document, op.operation, op.key, op.now);
  }

  lemma AdmittedIsTimely(env: Env, document: Json, operation: string, key: string, now: int)
    requires Admit(env, document, operation, key, now).Ok?
    ensures Admit(env, document, operation, key, now).value.expiresAt >= now
  {
  }

  lemma {:induction false} TableAgrees(env: Env, ops: seq<Op>, use: Use)
    requires Injective(env.digest) && ClockMonotone(ops)
    ensures Agrees(env, ops, use)
    decreases |ops|, 2
  {
    hide Step, After, UseOf, UsedAt;
    if ops == [] {
      EmptyRun(env, ops);
    } else {
      var n := |ops| - 1;
      var earlier := ops[..n];
      TableAgrees(env, earlier, use);
      LastStep(env, ops);
      if UseOf(env, After(env, earlier), ops[n]).None? {
        UnusedAgrees(env, ops, use);
      } else {
        UsedAgrees(env, ops, use);
      }
    }
  }

  lemma UnusedAgrees(env: Env, ops: seq<Op>, use: Use)
    requires ops != [] && UseOf(env, After(env, ops[..|ops| - 1]), ops[|ops| - 1]).None?
    requires Agrees(env, ops[..|ops| - 1], use)
    ensures Agrees(env, ops, use)
  {
    hide Step, After, UseOf, UsedAt;
    var n := |ops| - 1;
    LastStep(env, ops);
    UnusedStep(env, After(env, ops[..n]), ops[n]);
    forall i: nat
      ensures UsedAt(env, ops, i, use) <==> UsedAt(env, ops[..n], i, use)
    {
      UsedInPrefix(env, ops, i, use);
    }
  }

  lemma UsedAgrees(env: Env, ops: seq<Op>, use: Use)
    requires Injective(env.digest) && ClockMonotone(ops)
    requires ops != [] && UseOf(env, After(env, ops[..|ops| - 1]), ops[|ops| - 1]).Some?
    requires Agrees(env, ops[..|ops| - 1], use)
    ensures Agrees(env, ops, use)
    decreases |ops|, 1
  {
    hide Step, After, UseOf, UsedAt;
    var n := |ops| - 1;
    var earlier := ops[..n];
    var s := After(env, earlier);
    var latest := UseOf(env, s, ops[n]).value;
    LastStep(env, ops);
    UsedStep(env, s, ops[n]);
    var kept := PurgeRequests(s.db.adminRequests, ops[n].now);
    var slot := (latest.actor, latest.nonce);
    if LastTime(env, earlier).Some? {
      LastTimeIsEarlier(env, earlier, ops[n].now);
    }
    if i: nat :| UsedAt(env, earlier, i, use) {
      LastTimeExists(env, earlier, i, use);
    }
    UsedInPrefix(env, ops, n, latest);
    forall i: nat
      ensures UsedAt(env, ops, i, use) <==> UsedAt(env, earlier, i, use) || (i == n && use == latest)
    {
      UsedInPrefix(env, ops, i, use);
    }
    if slot in kept {
      var listed := Use(slot.0, slot.1, kept[slot].requestDigest, kept[slot].expiresAt);
      ListedIsLatest(env, ops, listed);
    }
  }

  /** A listed row with the latest request's digest is the latest request. */
  lemma ListedIsLatest(env: Env, ops: seq<Op>, listed: Use)
    requires Injective(env.digest) && ClockMonotone(ops)
    requires ops != [] && UseOf(env, After(env, ops[..|ops| - 1]), ops[|ops| - 1]).Some?
    requires Listed(After(env, ops[..|ops| - 1]).db.adminRequests, listed)
    requires var latest := UseOf(env, After(env, ops[..|ops| - 1]), ops[|ops| - 1]).value;
             listed.actor == latest.actor && listed.nonce == latest.nonce
                 && listed.requestDigest == latest.requestDigest
    ensures listed == UseOf(env, After(env, ops[..|ops| - 1]), ops[|ops| - 1]).value
    decreases |ops|, 0
  {
    hide Step, After, UseOf;
    var earlier := ops[..|ops| - 1];
    TableAgrees(env, earlier, listed);
    var i: nat :| UsedAt(env, earlier, i, listed);
    UsesOfOneRequest(env, Before(env, earlier, i), earlier[i], After(env, earlier), ops[|ops| - 1]);
  }

  /** After every accepted request, at its time t, the table is exactly the accepted requests that expire at t or
      later. */
  lemma TableIsUnexpiredHistory(env: Env, ops: seq<Op>, use: Use)
    requires Injective(env.digest) && ClockMonotone(ops) && ops != []
    requires UseOf(env, After(env, ops[..|ops| - 1]), ops[|ops| - 1]).Some?
    ensures ops[|ops| - 1].Authorize?
    ensures Listed(After(env, ops).db.adminRequests, use) <==>
            use.expiresAt >= ops[|ops| - 1].now && exists i: nat :: UsedAt(env, ops, i, use)
  {
    hide Step, After, UsedAt;
    TableAgrees(env, ops, use);
  }

  /** No two different requests with one actor and nonce are accepted within the first one's validity, whatever was
      purged. */
  lemma NonceIsUsedOnce(env: Env, ops: seq<Op>, i: nat, j: nat, first: Use, second: Use)
    requires Injective(env.digest) && ClockMonotone(ops)
    requires i < j && UsedAt(env, ops, i, first) && UsedAt(env, ops, j, second)
    requires first.actor == second.actor && first.nonce == second.nonce
    ensures first == second || first.expiresAt < ops[j].now
  {
    hide Step, After, UseOf;
    var earlier := ops[..j];
    var s := Before(env, ops, j);
    assert earlier[..i] == ops[..i];
    assert UsedAt(env, earlier, i, first);
    assert ClockMonotone(earlier);
    TableAgrees(env, earlier, first);
    UsedStep(env, s, ops[j]);
    LastTimeExists(env, earlier, i, first);
    LastTimeIsEarlier(env, earlier, ops[j].now);
    if first.expiresAt >= ops[j].now {
      assert Listed(s.db.adminRequests, first);
      UsesOfOneRequest(env, Before(env, earlier, i), earlier[i], s, ops[j]);
    }
  }

  lemma {:induction false} LastTimeExists(env: Env, ops: seq<Op>, i: nat, use: Use)
    requires UsedAt(env, ops, i, use)
    ensures LastTime(env, ops).Some?
    decreases |ops|
  {
    hide After, UseOf;
    var n := |ops| - 1;
    if i < n {
      UsedInPrefix(env, ops, i, use);
      LastTimeExists(env, ops[..n], i, use);
    }
  }
}
