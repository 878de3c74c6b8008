/** What one uninterrupted call of `retry_if_safe` does, after any run. */
module RecoveryCalls {
  import opened Outcomes
  import opened Attempts
  import opened RecoveryProtocol
  import opened RecoveryInvariant
  import opened RecoveryTheorems

  // ---------------------------------------------------------------------------------------------
  // A lone call

  /** The call's steps with nothing in between, under the same answers throughout. */
  function Alone(w: World, a: nat, call: Call, env: Env, n: nat): (World, Pc)
    requires a < |w.rows|
    decreases n
  {
    if n == 0 then (w, call.pc)
    else
      var (w', pc) := Step(w, a, call, env);
      Alone(w', a, call.(pc := pc), env, n - 1)
  }

  /** How a lone call may end: it fails, or returns the retry or a row of the gate. */
  datatype End = Fails | Own | Gates

  function Returned(own: bool): End {
    if own then Own else Gates
  }

  /** The operation records the attempt as created. */
  ghost predicate Records(w: World, a: nat, i: nat) {
    a in w.ops && w.ops[a].state.OpCreated? && w.ops[a].retry == Some(i)
  }

  ghost predicate EndsIn(w: World, a: nat, pc: Pc, end: End) {
    if end.Fails? then pc == FAILED
    else
      && pc.Ended? && pc.result.Some? && Carries(w, a, pc.result.value) && Records(w, a, pc.result.value)
      && (RetryOf(w, a, pc.result.value) <==> end.Own?)
  }

  /** A call at this point, run alone, comes to the end, and inserts nothing when it returns a row of the gate. */
  ghost predicate Finishes(w: World, a: nat, call: Call, env: Env, n: nat, end: End)
    requires a < |w.rows|
  {
    var (w', pc) := Alone(w, a, call, env, n);
    EndsIn(w', a, pc, end) && (end.Gates? ==> w'.made == w.made)
  }

  ghost predicate At(w: World, a: nat, call: Call) {
    WorldOk(w) && a < |w.rows| && CallOk(w, a, call)
  }

  lemma {:induction false} EndedStays(w: World, a: nat, call: Call, env: Env, n: nat)
    requires a < |w.rows| && call.pc.Ended?
    ensures Alone(w, a, call, env, n) == (w, call.pc)
  {
    if n > 0 { EndedStays(w, a, call, env, n - 1); }
  }

  lemma FailedFinishes(w: World, a: nat, call: Call, env: Env, n: nat)
    requires a < |w.rows| && call.pc == FAILED
    ensures Finishes(w, a, call, env, n, Fails)
  {
    EndedStays(w, a, call, env, n);
  }

  /** Peels one step off a lone call. */
  lemma Peel(w: World, a: nat, call: Call, env: Env, n: nat, end: End)
    requires a < |w.rows| && n >= 1
    requires var (w', pc) := Step(w, a, call, env);
      Finishes(w', a, call.(pc := pc), env, n - 1, end) && (end.Gates? ==> w'.made == w.made)
    ensures Finishes(w, a, call, env, n, end)
  {
  }

  lemma FromMarkCreated(w: World, a: nat, call: Call, env: Env, n: nat)
    requires env.Answers? && At(w, a, call) && call.pc.MarkCreated? && n >= 1
    ensures Finishes(w, a, call, env, n, Returned(RetryOf(w, a, call.pc.retry)))
  {
    OpHasReview(w, a);
    CreatedOp(w, a, call.pc.retry);
    var w' := Create(w, a, call.pc.retry).value;
    var next := call.(pc := Ended(Some(call.pc.retry)));
    assert Step(w, a, call, env) == (w', next.pc);
    EndedStays(w', a, next, env, n - 1);
    Peel(w, a, call, env, n, Returned(RetryOf(w, a, call.pc.retry)));
  }

  lemma FromInsertRetry(w: World, a: nat, call: Call, env: Env, n: nat)
    requires env.Answers? && At(w, a, call) && call.pc.InsertRetry? && n >= 2
    ensures Finishes(w, a, call, env, n, Own)
  {
    NextIsFree(w, a);
    StepKeeps(w, a, call, env);
    var (w', pc) := Step(w, a, call, env);
    FromMarkCreated(w', a, call.(pc := pc), env, n - 1);
    Peel(w, a, call, env, n, Own);
  }

  lemma FromReadLatest(w: World, a: nat, call: Call, env: Env, n: nat)
    requires env.Answers? && At(w, a, call) && call.pc.ReadLatest? && n >= 3
    ensures Finishes(w, a, call, env, n, Own)
  {
    StepKeeps(w, a, call, env);
    FromInsertRetry(w, a, call.(pc := Step(w, a, call, env).1), env, n - 1);
    Peel(w, a, call, env, n, Own);
  }

  lemma FromFindKey(w: World, a: nat, call: Call, env: Env, n: nat)
    requires env.Answers? && At(w, a, call) && call.pc.FindKey? && n >= 4
    ensures Finishes(w, a, call, env, n, Own)
  {
    StepKeeps(w, a, call, env);
    FromReadLatest(w, a, call.(pc := Step(w, a, call, env).1), env, n - 1);
    Peel(w, a, call, env, n, Own);
  }

  lemma FromFindRetry(w: World, a: nat, call: Call, env: Env, n: nat)
    requires env.Answers? && At(w, a, call) && call.pc.FindRetry? && n >= 5
    ensures Finishes(w, a, call, env, n, Returned(!Early(w, a)))
  {
    StepKeeps(w, a, call, env);
    LookupStep(w, a, call, env);
    var next := call.(pc := Step(w, a, call, env).1);
    if next.pc.FindKey? { FromFindKey(w, a, next, env, n - 1); } else { FromMarkCreated(w, a, next, env, n - 1); }
    Peel(w, a, call, env, n, Returned(!Early(w, a)));
  }

  lemma LookupStep(w: World, a: nat, call: Call, env: Env)
    requires At(w, a, call) && call.pc.FindRetry?
    ensures var (w', pc) := Step(w, a, call, env);
      && w' == w && (pc.FindKey? || pc.MarkCreated?)
      && (Early(w, a) <==> pc.MarkCreated? && !RetryOf(w, a, pc.retry))
  {
    OpHasReview(w, a);
    RetriesDoCarry(w, a);
    LookupFinds(w, a);
  }

  /** Whether the gate was early depends on grants of rows and on what the coordinator inserted only. */
  lemma EarlySame(w: World, w': World, a: nat)
    requires |w'.rows| == |w.rows| && forall i | 0 <= i < |w.rows| :: w'.rows[i].grant == w.rows[i].grant
    requires w'.made == w.made && a in w.reviews && a in w'.reviews && w'.reviews[a] == w.reviews[a]
    ensures Early(w', a) <==> Early(w, a)
  {
    assert forall i :: Carries(w', a, i) <==> Carries(w, a, i);
    assert forall i :: RetryOf(w', a, i) <==> RetryOf(w, a, i);
    assert forall i :: GateRow(w', a, i) <==> GateRow(w, a, i);
  }

  lemma FromAbortOriginal(w: World, a: nat, call: Call, env: Env, n: nat)
    requires env.Answers? && At(w, a, call) && call.pc.AbortOriginal? && w.rows[a].state.Running? && n >= 6
    ensures Finishes(w, a, call, env, n, Returned(!Early(w, a)))
  {
    StepKeeps(w, a, call, env);
    OpHasReview(w, a);
    var (w', pc) := Step(w, a, call, env);
    EarlySame(w, w', a);
    FromFindRetry(w', a, call.(pc := pc), env, n - 1);
    Peel(w, a, call, env, n, Returned(!Early(w, a)));
  }

  /** The original can still be given up for a retry. */
  predicate Closable(w: World, a: nat)
    requires a < |w.rows|
  {
    w.rows[a].state.Running? || w.rows[a].state.Aborted?
  }

  /** The end of a call that gets as far as the lookup, if it does. */
  ghost function LookedUp(w: World, a: nat, reached: bool): End {
    if reached then Returned(!Early(w, a)) else Fails
  }

  lemma FromReadOriginal(w: World, a: nat, call: Call, env: Env, n: nat)
    requires env.Answers? && At(w, a, call) && call.pc.ReadOriginal? && n >= 7
    ensures Finishes(w, a, call, env, n, LookedUp(w, a, Closable(w, a)))
  {
    StepKeeps(w, a, call, env);
    var next := call.(pc := Step(w, a, call, env).1);
    if w.rows[a].state.Running? { FromAbortOriginal(w, a, next, env, n - 1); }
    else if w.rows[a].state.Aborted? { FromFindRetry(w, a, next, env, n - 1); }
    else { FailedFinishes(w, a, next, env, n - 1); }
    Peel(w, a, call, env, n, LookedUp(w, a, Closable(w, a)));
  }

  /** The token is that of the current claim. */
  predicate Claimed(w: World, a: nat, token: string) {
    a in w.ops && w.ops[a].state.OpClaimed? && w.ops[a].token == token
  }

  /** The claim has time left. */
  predicate Live(w: World, a: nat, at: int)
    requires a in w.ops
  {
    w.ops[a].lease.Some? && w.ops[a].lease.value > at
  }

  lemma FromMarkAuthorized(w: World, a: nat, call: Call, env: Env, n: nat)
    requires env.Answers? && At(w, a, call) && call.pc.MarkAuthorized? && n >= 8
    requires Claimed(w, a, call.pc.token)
    ensures Finishes(w, a, call, env, n, LookedUp(w, a, Live(w, a, call.later) && Closable(w, a)))
  {
    OpHasReview(w, a);
    StepKeeps(w, a, call, env);
    var (w', pc) := Step(w, a, call, env);
    EarlySame(w, w', a);
    if Live(w, a, call.later) {
      FromReadOriginal(w', a, call.(pc := pc), env, n - 1);
    } else {
      FailedFinishes(w', a, call.(pc := pc), env, n - 1);
    }
    Peel(w, a, call, env, n, LookedUp(w, a, Live(w, a, call.later) && Closable(w, a)));
  }

  /** The coordinator's own grant may be issued: the authorizer agrees, it is not the original's, and it has not
      been used or revoked. */
  predicate Issuable(w: World, a: nat, env: Env)
    requires env.Answers? && a < |w.rows| && a in w.reviews
  {
    var grant := RetryGrant(w.reviews[a].id);
    !env.denied && grant != w.rows[a].grant && (grant in w.grants ==> w.grants[grant])
  }

  /** The derived grant id is the original's own only if the gate made the original under that very id: the
      recovery of a retry always derives a new one. */
  lemma GrantIsNew(w: World, a: nat)
    requires WorldOk(w) && a < |w.rows| && a in w.reviews
    ensures w.rows[a].grant == RetryGrant(w.reviews[a].id) <==> GateRow(w, a, a)
    ensures ByRecovery(w, a) ==> w.rows[a].grant != RetryGrant(w.reviews[a].id)
  {
    if RetryOf(w, a, a) { RetryFollows(w, a, a); }
    if ByRecovery(w, a) {
      var b :| RetryOf(w, b, a);
      RetryFollows(w, b, a);
      if Carries(w, a, a) { GateRowIsFirst(w, a, a); }
    }
  }

  lemma FromReauthorize(w: World, a: nat, call: Call, env: Env, n: nat)
    requires env.Answers? && At(w, a, call) && call.pc.Reauthorize? && n >= 9 && a in w.reviews
    requires Claimed(w, a, call.pc.token)
    ensures Finishes(w, a, call, env, n,
                     LookedUp(w, a, Issuable(w, a, env) && Live(w, a, call.later) && Closable(w, a)))
  {
    StepKeeps(w, a, call, env);
    var (w', pc) := Step(w, a, call, env);
    EarlySame(w, w', a);
    if Issuable(w, a, env) {
      FromMarkAuthorized(w', a, call.(pc := pc), env, n - 1);
    } else {
      FailedFinishes(w', a, call.(pc := pc), env, n - 1);
    }
    Peel(w, a, call, env, n, LookedUp(w, a, Issuable(w, a, env) && Live(w, a, call.later) && Closable(w, a)));
  }

  /** Whether a lone call that has not claimed an operation recorded as created gets as far as the lookup. */
  predicate Obtains(w: World, a: nat, acquired: bool, later: int, env: Env)
    requires env.Answers? && a < |w.rows| && a in w.reviews && a in w.ops
  {
    && Closable(w, a)
    && (w.ops[a].state.OpClaimed? ==>
          && Live(w, a, later)
          && if acquired then Issuable(w, a, env) else RetryGrant(w.reviews[a].id) in w.grants)
  }

  /** The end of a lone call that has claimed: the recorded attempt, or what the lookup gives. */
  ghost function ClaimEnd(w: World, a: nat, acquired: bool, later: int, env: Env): End
    requires env.Answers? && a < |w.rows| && a in w.reviews && a in w.ops
  {
    if w.ops[a].state.OpCreated? && w.ops[a].retry.Some? then Returned(RetryOf(w, a, w.ops[a].retry.value))
    else LookedUp(w, a, Obtains(w, a, acquired, later, env))
  }

  lemma FromAfterClaim(w: World, a: nat, call: Call, env: Env, n: nat)
    requires env.Answers? && At(w, a, call) && call.pc.AfterClaim? && n >= 10 && a in w.reviews
    ensures Finishes(w, a, call, env, n, ClaimEnd(w, a, call.pc.acquired, call.later, env))
  {
    OpHasReview(w, a);
    StepKeeps(w, a, call, env);
    var next := call.(pc := Step(w, a, call, env).1);
    match next.pc {
      case Ended(_) => EndedStays(w, a, next, env, n - 1);
      case Reauthorize(_) => FromReauthorize(w, a, next, env, n - 1);
      case MarkAuthorized(_) => FromMarkAuthorized(w, a, next, env, n - 1);
      case ReadOriginal => FromReadOriginal(w, a, next, env, n - 1);
    }
    Peel(w, a, call, env, n, ClaimEnd(w, a, call.pc.acquired, call.later, env));
  }

  lemma FromClaim(w: World, a: nat, call: Call, env: Env, n: nat)
    requires env.Answers? && At(w, a, call) && call.pc.Claim? && n >= 11
    ensures var (w', acquired) := ClaimRow(w, a, call.now, call.token);
      Finishes(w, a, call, env, n, ClaimEnd(w', a, acquired, call.later, env))
  {
    StepKeeps(w, a, call, env);
    var (w', acquired) := ClaimRow(w, a, call.now, call.token);
    FromAfterClaim(w', a, call.(pc := AfterClaim(w'.ops[a], acquired)), env, n - 1);
    Peel(w, a, call, env, n, ClaimEnd(w', a, acquired, call.later, env));
  }

  /**
   When a lone call returns an attempt after its review: the review found a retry safe, and either one is recorded as
   created, or the original is running or aborted and the authorization is recorded, or a claim of an earlier call is
   live until the authorization is recorded and has its grant, or the claim is free or lapsed, the grant may be issued
   and the authorization is recorded before the new lease is over.
   */
  predicate Ready(w: World, a: nat, now: int, later: int, env: Env)
    requires env.Answers? && a < |w.rows|
  {
    && a in w.reviews && w.reviews[a].decision.Safe?
    && (if a in w.ops && w.ops[a].state.OpCreated? then true
        else if a in w.ops && w.ops[a].state.OpAuthorized? then Closable(w, a)
        else if a in w.ops && Live(w, a, now)
        then Closable(w, a) && Live(w, a, later) && RetryGrant(w.reviews[a].id) in w.grants
        else Closable(w, a) && later < now + CLAIM_LEASE_SECONDS && Issuable(w, a, env))
  }

  /** The attempt such a call returns is the coordinator's: the recorded one is, or, while none is recorded, the gate
      did not execute the derived grant before the coordinator inserted a retry. */
  ghost predicate ReturnsOwn(w: World, a: nat) {
    if a in w.ops && w.ops[a].state.OpCreated? && w.ops[a].retry.Some? then RetryOf(w, a, w.ops[a].retry.value)
    else !Early(w, a)
  }

  ghost function EndOf(w: World, a: nat, now: int, later: int, env: Env): End
    requires env.Answers? && a < |w.rows|
  {
    if Ready(w, a, now, later, env) then Returned(ReturnsOwn(w, a)) else Fails
  }

  predicate Decided(w: World, a: nat) {
    a in w.reviews && !w.reviews[a].decision.Unknown?
  }

  predicate Clashes(w: World, id: string) {
    exists b | b in w.reviews :: w.reviews[b].id == id
  }

  /** The world in which a lone call acts on a decision, if it gets one: reviews are opened only for running
      attempts without a receipt, and decided once. */
  function Reviewed(w: World, a: nat, reviewId: string, env: Env): Option<World>
    requires env.Answers? && a < |w.rows|
  {
    if Decided(w, a) then Some(w)
    else if !w.rows[a].state.Running? || w.rows[a].receipt != "" then None
    else if env.verdict.None? || env.verdict.value.Unknown? then None
    else if a in w.reviews then Some(w.(reviews := w.reviews[a := Review(w.reviews[a].id, env.verdict.value)]))
    else if Clashes(w, reviewId) then None
    else Some(w.(reviews := w.reviews[a := Review(reviewId, env.verdict.value)]))
  }

  ghost function ReviewedEnd(w: World, a: nat, call: Call, env: Env): End
    requires env.Answers? && a < |w.rows|
  {
    var reviewed := Reviewed(w, a, call.reviewId, env);
    if reviewed.None? then Fails else EndOf(reviewed.value, a, call.now, call.later, env)
  }

  lemma SettleFails(w: World, a: nat, call: Call, env: Env, n: nat)
    requires a < |w.rows| && call.pc.Settle? && n >= 2
    ensures Finishes(w, a, call, env, n, Fails)
  {
    var next := call.(pc := Step(w, a, call, env).1);
    if next.pc.SettleWrite? {
      FailedFinishes(Step(w, a, next, env).0, a, next.(pc := FAILED), env, n - 2);
      Peel(w, a, next, env, n - 1, Fails);
    } else {
      FailedFinishes(w, a, next, env, n - 1);
    }
    Peel(w, a, call, env, n, Fails);
  }

  /** From a decision on. */
  lemma FromDecided(w: World, a: nat, call: Call, env: Env, n: nat)
    requires env.Answers? && At(w, a, call) && call.pc.Begin? && n >= 12 && Decided(w, a)
    ensures Finishes(w, a, call, env, n, EndOf(w, a, call.now, call.later, env))
  {
    if w.reviews[a].decision.Safe? {
      ClaimEndIs(w, a, call, env);
      FromClaim(w, a, call.(pc := Claim), env, n - 1);
    } else {
      SettleFails(w, a, call.(pc := Step(w, a, call, env).1), env, n - 1);
    }
    Peel(w, a, call, env, n, EndOf(w, a, call.now, call.later, env));
  }

  /** What the claim leads to, in terms of the state before it. */
  lemma ClaimEndIs(w: World, a: nat, call: Call, env: Env)
    requires env.Answers? && WorldOk(w) && a < |w.rows| && a in w.reviews && w.reviews[a].decision.Safe?
    ensures var (w', acquired) := ClaimRow(w, a, call.now, call.token);
      ClaimEnd(w', a, acquired, call.later, env) == EndOf(w, a, call.now, call.later, env)
  {
    if a in w.ops { OpHasReview(w, a); }
    EarlySame(w, ClaimRow(w, a, call.now, call.token).0, a);
  }

  lemma FromResolve(w: World, a: nat, call: Call, env: Env, n: nat)
    requires env.Answers? && At(w, a, call) && call.pc.Resolve? && n >= 13
    requires a in w.reviews && !Decided(w, a) && w.rows[a].state.Running? && w.rows[a].receipt == ""
    ensures Finishes(w, a, call, env, n, ReviewedEnd(w, a, call, env))
  {
    StepKeeps(w, a, call, env);
    var (w', pc) := Step(w, a, call, env);
    if pc.Begin? {
      FromDecided(w', a, call.(pc := pc), env, n - 1);
    } else {
      FailedFinishes(w', a, call.(pc := pc), env, n - 1);
    }
    Peel(w, a, call, env, n, ReviewedEnd(w, a, call, env));
  }

  lemma FromOpenReview(w: World, a: nat, call: Call, env: Env, n: nat)
    requires env.Answers? && At(w, a, call) && call.pc.OpenReview? && n >= 14
    requires !Decided(w, a) && w.rows[a].state.Running? && w.rows[a].receipt == ""
    ensures Finishes(w, a, call, env, n, ReviewedEnd(w, a, call, env))
  {
    StepKeeps(w, a, call, env);
    var (w', pc) := Step(w, a, call, env);
    if pc.Resolve? {
      FromResolve(w', a, call.(pc := pc), env, n - 1);
      OpeningChangesNothing(w, a, call, env);
    } else {
      FailedFinishes(w', a, call.(pc := pc), env, n - 1);
    }
    Peel(w, a, call, env, n, ReviewedEnd(w, a, call, env));
  }

  lemma OpeningChangesNothing(w: World, a: nat, call: Call, env: Env)
    requires env.Answers? && a < |w.rows| && call.pc.OpenReview? && !Decided(w, a)
    requires Step(w, a, call, env).1.Resolve?
    ensures Reviewed(Step(w, a, call, env).0, a, call.reviewId, env) == Reviewed(w, a, call.reviewId, env)
  {
    var w' := Step(w, a, call, env).0;
    if a !in w.reviews && env.verdict.Some? {
      assert w'.reviews[a := Review(call.reviewId, env.verdict.value)]
        == w.reviews[a := Review(call.reviewId, env.verdict.value)];
    }
  }

  lemma FromBegin(w: World, a: nat, call: Call, env: Env, n: nat)
    requires env.Answers? && At(w, a, call) && call.pc.Begin? && n >= 16
    ensures Finishes(w, a, call, env, n, ReviewedEnd(w, a, call, env))
  {
    if Decided(w, a) {
      FromDecided(w, a, call, env, n);
    } else {
      FromInspect(w, a, call.(pc := Inspect), env, n - 1);
      Peel(w, a, call, env, n, ReviewedEnd(w, a, call, env));
    }
  }

  lemma FromInspect(w: World, a: nat, call: Call, env: Env, n: nat)
    requires env.Answers? && At(w, a, call) && call.pc.Inspect? && n >= 15 && !Decided(w, a)
    ensures Finishes(w, a, call, env, n, ReviewedEnd(w, a, call, env))
  {
    var next := call.(pc := Step(w, a, call, env).1);
    if next.pc.OpenReview? { FromOpenReview(w, a, next, env, n - 1); } else { FailedFinishes(w, a, next, env, n - 1); }
    Peel(w, a, call, env, n, ReviewedEnd(w, a, call, env));
  }

  // ---------------------------------------------------------------------------------------------
  // A lone call whose decision is not to retry

  /** Getting the decision takes at most four steps, and then the call starts over in the decided state. */
  lemma ReviewFirst(w: World, a: nat, call: Call, env: Env, n: nat) returns (k: nat)
    requires env.Answers? && a < |w.rows| && call.pc.Begin? && n >= 4 && Reviewed(w, a, call.reviewId, env).Some?
    ensures n - 4 <= k <= n
    ensures Alone(w, a, call, env, n) == Alone(Reviewed(w, a, call.reviewId, env).value, a, call, env, k)
  {
    k := n;
    if !Decided(w, a) {
      k := n - 4;
      var open := call.(pc := OpenReview);
      assert Alone(w, a, call, env, n) == Alone(w, a, call.(pc := Inspect), env, n - 1)
        == Alone(w, a, open, env, n - 2);
      OpeningChangesNothing(w, a, open, env);
      var w1, w2 := Step(w, a, open, env).0, Reviewed(w, a, call.reviewId, env).value;
      assert Alone(w, a, open, env, n - 2) == Alone(w1, a, call.(pc := Resolve), env, n - 3);
      assert Step(w1, a, call.(pc := Resolve), env) == (w2, Begin);
      assert call.(pc := Begin) == call;
    }
  }

  /** The state a decision against a retry gives a running attempt. */
  function Verdict(decision: Decision): Option<AttemptState> {
    match decision
    case Confirmed => Some(Recovered)
    case Quarantined => Some(Aborted)
    case _ => None
  }

  lemma SettleEnds(w: World, a: nat, call: Call, env: Env, k: nat)
    requires a < |w.rows| && call.pc.Begin? && k >= 3 && Decided(w, a) && Verdict(w.reviews[a].decision).Some?
    ensures var to := Verdict(w.reviews[a].decision).value;
      Alone(w, a, call, env, k) ==
      (if w.rows[a].state.Running? then w.(rows := w.rows[a := Moved(w.rows[a], to, call.now, "")]) else w, FAILED)
  {
    var to := Verdict(w.reviews[a].decision).value;
    var settle, write := call.(pc := Settle(to)), call.(pc := SettleWrite(to));
    assert Alone(w, a, call, env, k) == Alone(w, a, settle, env, k - 1);
    if w.rows[a].state.Running? {
      var w' := w.(rows := w.rows[a := Moved(w.rows[a], to, call.now, "")]);
      assert Alone(w, a, settle, env, k - 1) == Alone(w, a, write, env, k - 2);
      assert Step(w, a, write, env) == (w', FAILED);
      assert Alone(w, a, write, env, k - 2) == Alone(w', a, call.(pc := FAILED), env, k - 3);
      EndedStays(w', a, call.(pc := FAILED), env, k - 3);
    } else {
      assert Alone(w, a, settle, env, k - 1) == Alone(w, a, call.(pc := FAILED), env, k - 2);
      EndedStays(w, a, call.(pc := FAILED), env, k - 2);
    }
  }

  // ---------------------------------------------------------------------------------------------
  // The lone call as a run

  function Ticks(a: nat, env: Env, n: nat): (t: seq<Action>)
    ensures |t| == n
  {
    if n == 0 then [] else [Tick(a, env)] + Ticks(a, env, n - 1)
  }

  lemma {:induction false} RunFirst(s: State, action: Action, rest: seq<Action>)
    ensures Run(s, [action] + rest) == Run(Exec(s, action), rest)
  {
    var all := [action] + rest;
    if rest == [] {
      assert all[..0] == [];
    } else {
      assert all[..|all| - 1] == [action] + rest[..|rest| - 1];
      RunFirst(s, action, rest[..|rest| - 1]);
    }
  }

  lemma {:induction false} RunTicks(s: State, a: nat, env: Env, n: nat)
    requires env.Answers? && a in s.calls && a < |s.world.rows|
    ensures var (w, pc) := Alone(s.world, a, s.calls[a], env, n);
      Run(s, Ticks(a, env, n)) == State(w, s.calls[a := s.calls[a].(pc := pc)])
    decreases n
  {
    if n > 0 {
      RunFirst(s, Tick(a, env), Ticks(a, env, n - 1));
      RunTicks(Exec(s, Tick(a, env)), a, env, n - 1);
    } else {
      assert s.calls[a := s.calls[a]] == s.calls;
    }
  }

  /**
   After any run, an uninterrupted call that gets a decision against a retry makes a running attempt RECOVERED if
   the effect was confirmed and ABORTED if it was quarantined, changes nothing else but the review, and returns
   nothing.
   */
  lemma LoneCallSettles(schedule: seq<Action>, a: nat, now: int, later: int, reviewId: string, token: string,
                        env: Env, n: nat)
    requires env.Answers? && n >= 16 && a < |Run(FRESH, schedule).world.rows|
    requires var reviewed := Reviewed(Run(FRESH, schedule).world, a, reviewId, env);
      reviewed.Some? && Verdict(reviewed.value.reviews[a].decision).Some?
    ensures var s := Run(FRESH, schedule);
      var s' := Run(s, [Retry(a, now, later, reviewId, token)] + Ticks(a, env, n));
      var reviewed := Reviewed(s.world, a, reviewId, env).value;
      var to := Verdict(reviewed.reviews[a].decision).value;
      && a in s'.calls && s'.calls[a].pc == FAILED
      && s'.world == if s.world.rows[a].state.Running?
                     then reviewed.(rows := reviewed.rows[a := Moved(reviewed.rows[a], to, now, "")]) else reviewed
  {
    var s := Run(FRESH, schedule);
    var start := Exec(s, Retry(a, now, later, reviewId, token));
    RunFirst(s, Retry(a, now, later, reviewId, token), Ticks(a, env, n));
    RunTicks(start, a, env, n);
    var k := ReviewFirst(s.world, a, start.calls[a], env, n);
    SettleEnds(Reviewed(s.world, a, reviewId, env).value, a, start.calls[a], env, k);
  }

  /**
   After any run, a call that is not interrupted returns an attempt exactly when it gets a decision and the decided
   state is ready. The attempt carries the derived grant id, and is the coordinator's retry if and only if the recorded
   attempt is or, while none is recorded, the gate did not execute that grant before the coordinator inserted a retry.
   Then it is the only retry of that recovery, so also the one that existed before, for the original's task, intent and
   key and with its next number; otherwise it is a first attempt
   that the gate made, and the coordinator inserts nothing.
   */
  lemma LoneCallReturns(schedule: seq<Action>, a: nat, now: int, later: int, reviewId: string, token: string,
                        env: Env, n: nat)
    requires env.Answers? && n >= 16 && a < |Run(FRESH, schedule).world.rows|
    ensures var s := Run(FRESH, schedule);
      var s' := Run(s, [Retry(a, now, later, reviewId, token)] + Ticks(a, env, n));
      var reviewed := Reviewed(s.world, a, reviewId, env);
      && a in s'.calls && s'.calls[a].pc.Ended?
      && var result := s'.calls[a].pc.result;
      && (result.Some? <==> reviewed.Some? && Ready(reviewed.value, a, now, later, env))
      && (result.Some? ==>
            && Carries(s'.world, a, result.value) && Records(s'.world, a, result.value)
            && (RetryOf(s'.world, a, result.value) <==> ReturnsOwn(reviewed.value, a))
            && (ReturnsOwn(reviewed.value, a) ==>
                  && (forall i | RetryOf(s'.world, a, i) :: i == result.value)
                  && IsNextOf(s'.world.rows[result.value], s.world.rows[a]))
            && (!ReturnsOwn(reviewed.value, a) ==>
                  s'.world.rows[result.value].number == 1 && s'.world.made == s.world.made))
  {
    RunKeeps(schedule);
    var s := Run(FRESH, schedule);
    var start := Exec(s, Retry(a, now, later, reviewId, token));
    ExecKeeps(s, Retry(a, now, later, reviewId, token));
    RunFirst(s, Retry(a, now, later, reviewId, token), Ticks(a, env, n));
    RunTicks(start, a, env, n);
    FromBegin(s.world, a, start.calls[a], env, n);
    var s' := Run(start, Ticks(a, env, n));
    RunInv(start, Ticks(a, env, n));
    EndMeans(s'.world, a, s'.calls[a].pc, ReviewedEnd(s.world, a, start.calls[a], env));
    RunStays(start, Ticks(a, env, n));
    assert SameRow(s.world.rows[a], s'.world.rows[a]);
  }

  /** The next attempt of the same key, for the same task and intent. */
  predicate IsNextOf(retry: Attempt, original: Attempt) {
    && retry.task == original.task && retry.intent == original.intent && retry.key == original.key
    && retry.number == original.number + 1
  }

  /** What an end says of the attempt that is returned. */
  lemma EndMeans(w: World, a: nat, pc: Pc, end: End)
    requires WorldOk(w) && EndsIn(w, a, pc, end)
    ensures pc.Ended? && (pc.result.Some? <==> !end.Fails?)
    ensures end.Own? ==> forall i | RetryOf(w, a, i) :: i == pc.result.value
    ensures end.Own? ==> a < |w.rows| && IsNextOf(w.rows[pc.result.value], w.rows[a])
    ensures end.Gates? ==> w.rows[pc.result.value].number == 1
  {
    if pc.result.Some? {
      GateRowIsFirst(w, a, pc.result.value);
      if end.Own? { RetryFollows(w, a, pc.result.value); }
      forall i | end.Own? && RetryOf(w, a, i)
        ensures i == pc.result.value
      {
        OneRetry(w, a, i, pc.result.value);
      }
    }
  }

  // ---------------------------------------------------------------------------------------------
  // A run in which the gate is early

  const SAFE := Answers(Some(Safe), false)

  /** An attempt `d` is left running; its recovery is cut off once the retry grant is registered; and the gate executes
      that grant, which makes the attempt `e`. */
  function Adopting(d: Attempt, e: Attempt, now: int, id: string, token: string): seq<Action> {
    [Outside(d), Move(0, Leased, now, ""), Move(0, Running, now, ""), Retry(0, now, now, id, token)]
    + Ticks(0, SAFE, 8) + [Tick(0, Fault), Outside(e)]
  }

  /** The original as it is left running. */
  function Original(d: Attempt, now: int): Attempt {
    Moved(Moved(NewAttempt(d.task, d.grant, d.intent, d.key, 1), Leased, now, ""), Running, now, "")
  }

  lemma {:induction false} RunAppend(s: State, first: seq<Action>, second: seq<Action>)
    ensures Run(s, first + second) == Run(Run(s, first), second)
  {
    if second == [] {
      assert first + second == first;
    } else {
      var all := first + second;
      assert all[..|all| - 1] == first + second[..|second| - 1];
      RunAppend(s, first, second[..|second| - 1]);
    }
  }

  lemma SetUp(d: Attempt, now: int, id: string, token: string)
    ensures Run(FRESH, [Outside(d), Move(0, Leased, now, ""), Move(0, Running, now, ""), Retry(0, now, now, id, token)])
      == State(World([Original(d, now)], map[], map[], map[], {}),
        map[0 := Call(now, now, id, "claim_" + token, Begin)])
  {
    var row := NewAttempt(d.task, d.grant, d.intent, d.key, 1);
    var s1 := FRESH.(world := FRESH.world.(rows := [row]));
    var s2 := FRESH.(world := FRESH.world.(rows := [Moved(row, Leased, now, "")]));
    var s3 := FRESH.(world := FRESH.world.(rows := [Original(d, now)]));
    assert Exec(FRESH, Outside(d)) == s1;
    assert Exec(s1, Move(0, Leased, now, "")) == s2;
    assert Exec(s2, Move(0, Running, now, "")) == s3;
    var call := Retry(0, now, now, id, token);
    var rest3, rest2 := [call], [Move(0, Running, now, ""), call];
    var rest1 := [Move(0, Leased, now, ""), Move(0, Running, now, ""), call];
    RunFirst(s3, call, []);
    RunFirst(s2, Move(0, Running, now, ""), rest3);
    assert [Move(0, Running, now, "")] + rest3 == rest2 && [call] + [] == rest3;
    RunFirst(s1, Move(0, Leased, now, ""), rest2);
    assert [Move(0, Leased, now, "")] + rest2 == rest1;
    RunFirst(FRESH, Outside(d), rest1);
    assert [Outside(d)] + rest1 == [Outside(d), Move(0, Leased, now, ""), Move(0, Running, now, ""), call];
  }

  /** The world when the grant has been registered. */
  function Registered(d: Attempt, now: int, id: string, token: string): World {
    World([Original(d, now)], map[0 := Review(id, Safe)],
          map[0 := Operation(OpClaimed, "claim_" + token, Some(now + CLAIM_LEASE_SECONDS), None)],
          map[RetryGrant(id) := true], {})
  }

  lemma GrantRegistered(d: Attempt, now: int, id: string, token: string)
    requires d.grant != RetryGrant(id)
    ensures
      Alone(World([Original(d, now)], map[], map[], map[], {}), 0, Call(now, now, id, "claim_" + token, Begin), SAFE, 8)
      == (Registered(d, now, id, token), MarkAuthorized("claim_" + token))
  {
    var w0 := World([Original(d, now)], map[], map[], map[], {});
    var w2 := w0.(reviews := map[0 := Review(id, Safe)]);
    var w4 := Registered(d, now, id, token);
    var w3 := w4.(grants := map[]);
    var call := Call(now, now, id, "claim_" + token, Begin);
    ReviewSafe(w0, w2, call);
    ClaimAndRegister(w2, w3, w4, call, w3.ops[0]);
  }

  lemma ReviewSafe(w0: World, w2: World, call: Call)
    requires |w0.rows| == 1 && w0.rows[0].state.Running? && w0.rows[0].receipt == "" && w0.reviews == map[]
    requires w2 == w0.(reviews := map[0 := Review(call.reviewId, Safe)]) && call.pc.Begin?
    ensures Alone(w0, 0, call, SAFE, 8) == Alone(w2, 0, call, SAFE, 4)
  {
    var w1 := w0.(reviews := map[0 := Review(call.reviewId, Unknown)]);
    assert Alone(w0, 0, call, SAFE, 8) == Alone(w0, 0, call.(pc := Inspect), SAFE, 7);
    assert Alone(w0, 0, call.(pc := Inspect), SAFE, 7) == Alone(w0, 0, call.(pc := OpenReview), SAFE, 6);
    assert Step(w0, 0, call.(pc := OpenReview), SAFE) == (w1, Resolve);
    assert w1.reviews[0 := Review(call.reviewId, Safe)] == w2.reviews;
    assert Step(w1, 0, call.(pc := Resolve), SAFE) == (w2, Begin);
    assert Alone(w0, 0, call.(pc := OpenReview), SAFE, 6) == Alone(w1, 0, call.(pc := Resolve), SAFE, 5);
    assert call.(pc := Begin) == call;
    assert Alone(w1, 0, call.(pc := Resolve), SAFE, 5) == Alone(w2, 0, call, SAFE, 4);
  }

  lemma ClaimAndRegister(w2: World, w3: World, w4: World, call: Call, op: Operation)
    requires |w2.rows| == 1 && w2.reviews.Keys == {0} && w2.reviews[0].decision.Safe? && w2.ops == map[]
    requires w2.grants == map[]
    requires call.pc.Begin? && op == Operation(OpClaimed, call.token, Some(call.now + CLAIM_LEASE_SECONDS), None)
    requires w3 == w2.(ops := map[0 := op]) && w4 == w3.(grants := map[RetryGrant(w2.reviews[0].id) := true])
    requires w2.rows[0].grant != RetryGrant(w2.reviews[0].id)
    ensures Alone(w2, 0, call, SAFE, 4) == (w4, MarkAuthorized(call.token))
  {
    assert Step(w2, 0, call.(pc := Claim), SAFE) == (w3, AfterClaim(op, true));
    assert Step(w3, 0, call.(pc := Reauthorize(call.token)), SAFE) == (w4, MarkAuthorized(call.token));
    assert Alone(w2, 0, call, SAFE, 4) == Alone(w2, 0, call.(pc := Claim), SAFE, 3);
    assert Alone(w2, 0, call.(pc := Claim), SAFE, 3) == Alone(w3, 0, call.(pc := AfterClaim(op, true)), SAFE, 2);
    assert Alone(w3, 0, call.(pc := AfterClaim(op, true)), SAFE, 2)
      == Alone(w3, 0, call.(pc := Reauthorize(call.token)), SAFE, 1);
  }

  lemma AdoptingState(d: Attempt, e: Attempt, now: int, id: string, token: string)
    requires d.grant != RetryGrant(id) && e.grant == RetryGrant(id) && e.key != d.key
    ensures var w := Registered(d, now, id, token);
      Run(FRESH, Adopting(d, e, now, id, token)).world ==
      w.(rows := w.rows + [NewAttempt(e.task, e.grant, e.intent, e.key, 1)])
  {
    var one := [Outside(d), Move(0, Leased, now, ""), Move(0, Running, now, ""), Retry(0, now, now, id, token)];
    var two, three := Ticks(0, SAFE, 8), [Tick(0, Fault), Outside(e)];
    RunAppend(FRESH, one + two, three);
    RunAppend(FRESH, one, two);
    SetUp(d, now, id, token);
    RunTicks(Run(FRESH, one), 0, SAFE, 8);
    GrantRegistered(d, now, id, token);
    var s := Run(Run(FRESH, one), two);
    RunFirst(s, Tick(0, Fault), [Outside(e)]);
    RunFirst(Exec(s, Tick(0, Fault)), Outside(e), []);
    assert Latest(s.world.rows[..0], e.key).None?;
  }

  lemma AdoptingIsEarly(d: Attempt, e: Attempt, now: int, id: string, token: string)
    requires d.grant != RetryGrant(id) && e.grant == RetryGrant(id) && e.key != d.key
    ensures var w := Run(FRESH, Adopting(d, e, now, id, token)).world;
      && |w.rows| == 2 && w.made == {} && Ready(w, 0, now, now, SAFE) && !ReturnsOwn(w, 0)
      && Reviewed(w, 0, id, SAFE) == Some(w) && w.reviews == map[0 := Review(id, Safe)]
      && w.rows[0].grant == d.grant && w.rows[0].number == 1
  {
    AdoptingState(d, e, now, id, token);
    var w := Run(FRESH, Adopting(d, e, now, id, token)).world;
    assert GateRow(w, 0, 1);
  }

  lemma AdoptedFacts(d: Attempt, e: Attempt, now: int, id: string, token: string, n: nat)
    requires d.grant != RetryGrant(id) && e.grant == RetryGrant(id) && e.key != d.key && n >= 16
    ensures var s := Run(Run(FRESH, Adopting(d, e, now, id, token)),
                         [Retry(0, now, now, id, token)] + Ticks(0, SAFE, n));
      && Inv(s) && 0 in s.calls && s.calls[0].pc.Ended? && s.calls[0].pc.result.Some?
      && var i := s.calls[0].pc.result.value;
      && GateRow(s.world, 0, i) && Records(s.world, 0, i) && s.world.made == {}
      && s.world.rows[i].number == 1 && s.world.rows[i].key != s.world.rows[0].key
  {
    var schedule := Adopting(d, e, now, id, token);
    var last := [Retry(0, now, now, id, token)] + Ticks(0, SAFE, n);
    var s0 := Run(FRESH, schedule);
    var s := Run(s0, last);
    AdoptingIsEarly(d, e, now, id, token);
    LoneCallReturns(schedule, 0, now, now, id, token, SAFE, n);
    RunKeeps(schedule);
    RunInv(s0, last);
    RunStays(s0, last);
    assert SameRow(s0.world.rows[0], s.world.rows[0]);
  }

  /**
   After such a run the next call returns the gate's first attempt of another key instead of a retry, and no
   continuation ever inserts a retry.
   */
  lemma AdoptionHappens(d: Attempt, e: Attempt, now: int, id: string, token: string, n: nat, more: seq<Action>)
    requires d.grant != RetryGrant(id) && e.grant == RetryGrant(id) && e.key != d.key && n >= 16
    ensures var s := Run(Run(FRESH, Adopting(d, e, now, id, token)),
                         [Retry(0, now, now, id, token)] + Ticks(0, SAFE, n));
      && 0 in s.calls && s.calls[0].pc.Ended? && s.calls[0].pc.result.Some?
      && var i := s.calls[0].pc.result.value;
      && GateRow(s.world, 0, i) && s.world.rows[i].number == 1 && s.world.rows[i].key != s.world.rows[0].key
      && NoRetry(Run(s, more).world, 0)
  {
    AdoptedFacts(d, e, now, id, token, n);
    var s := Run(Run(FRESH, Adopting(d, e, now, id, token)), [Retry(0, now, now, id, token)] + Ticks(0, SAFE, n));
    RecordedIsFinal(s, more, 0);
  }
}
