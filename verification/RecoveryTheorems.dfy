/** What crash recovery promises over whole runs: one retry at most, and one lone call is enough to get it. */
module RecoveryTheorems {
  import opened Outcomes
  import opened Attempts
  import opened RecoveryProtocol
  import opened RecoveryInvariant

  // ---------------------------------------------------------------------------------------------
  // Safety

  lemma {:induction false} TerminalOnlyLast(trail: seq<AttemptState>, i: nat)
    requires i < |trail| - 1 && forall j | 0 < j < |trail| :: Allowed(trail[j - 1], trail[j])
    ensures !trail[i].Terminal()
  {
    assert Allowed(trail[i + 1 - 1], trail[i + 1]);
  }

  lemma OneRetry(w: World, a: nat, i: nat, j: nat)
    requires WorldOk(w) && RetryOf(w, a, i) && RetryOf(w, a, j)
    ensures i == j
  {
    RetryFollows(w, a, i);
    RetryFollows(w, a, j);
  }

  lemma OriginalNeverSucceeded(w: World, a: nat)
    requires TableOk(w.rows) && a < |w.rows| && w.rows[a].state.Aborted?
    ensures Succeeded !in w.rows[a].trail
  {
    var trail := w.rows[a].trail;
    assert TrailOk(w.rows[a]);
    forall k | 0 <= k < |trail|
      ensures !trail[k].Succeeded?
    {
      if k < |trail| - 1 { TerminalOnlyLast(trail, k); }
    }
  }

  /**
   However calls are cut off and repeated and whatever the gate executes, the coordinator inserts at most one retry
   for a recovery. It carries the grant id derived from the review, the task, intent and key of the original and the
   next number, and exists only for an original that was found safe to retry and was aborted without ever having
   succeeded.
   */
  lemma AtMostOneRetry(schedule: seq<Action>, a: nat, i: nat, j: nat)
    requires RetryOf(Run(FRESH, schedule).world, a, i) && RetryOf(Run(FRESH, schedule).world, a, j)
    ensures var w := Run(FRESH, schedule).world;
      && i == j && a < |w.rows| && Carries(w, a, i)
      && w.rows[i].key == w.rows[a].key && w.rows[i].number == w.rows[a].number + 1
      && w.rows[i].task == w.rows[a].task && w.rows[i].intent == w.rows[a].intent
      && w.reviews[a].decision.Safe? && w.rows[a].state.Aborted? && Succeeded !in w.rows[a].trail
  {
    RunKeeps(schedule);
    var w := Run(FRESH, schedule).world;
    OneRetry(w, a, i, j);
    RetryFollows(w, a, i);
    OriginalNeverSucceeded(w, a);
  }

  /** Every attempt after the first of its key is the retry of exactly one recovery. */
  lemma LaterAttemptsAreRetries(schedule: seq<Action>, i: nat)
    requires var w := Run(FRESH, schedule).world; i < |w.rows| && w.rows[i].number > 1
    ensures var w := Run(FRESH, schedule).world;
      exists a :: RetryOf(w, a, i) && forall b | RetryOf(w, b, i) :: b == a
  {
    RunKeeps(schedule);
    var w := Run(FRESH, schedule).world;
    assert ByRecovery(w, i);
    var a :| RetryOf(w, a, i);
    forall b | RetryOf(w, b, i)
      ensures b == a
    {
      RetryOfOne(w, a, b, i);
    }
  }

  /** Row `i` has the derived grant id, but the gate made it when it executed that grant. */
  ghost predicate GateRow(w: World, a: nat, i: nat) {
    Carries(w, a, i) && !RetryOf(w, a, i)
  }

  /** The gate's rows are told from the retry by their number. */
  lemma GateRowIsFirst(w: World, a: nat, i: nat)
    requires WorldOk(w) && Carries(w, a, i)
    ensures GateRow(w, a, i) <==> w.rows[i].number == 1
  {
    if RetryOf(w, a, i) {
      RetryFollows(w, a, i);
    } else if w.rows[i].number > 1 {
      assert ByRecovery(w, i);
      var b :| RetryOf(w, b, i);
      RetryFollows(w, b, i);
      RetryGrantInjective(w.reviews[a].id, w.reviews[b].id);
    }
  }

  /** A call that returns an attempt returns one with the derived grant id: the retry if its number is above 1, and
      otherwise a first attempt that the gate made. */
  lemma ReturnedIsRetry(schedule: seq<Action>, a: nat)
    requires var s := Run(FRESH, schedule); a in s.calls && s.calls[a].pc.Ended? && s.calls[a].pc.result.Some?
    ensures var s := Run(FRESH, schedule);
      var i := s.calls[a].pc.result.value;
      Carries(s.world, a, i) && (RetryOf(s.world, a, i) <==> s.world.rows[i].number > 1)
  {
    RunKeeps(schedule);
    var s := Run(FRESH, schedule);
    assert CallOk(s.world, a, s.calls[a]);
    GateRowIsFirst(s.world, a, s.calls[a].pc.result.value);
  }

  /** The columns that identify an attempt. */
  predicate SameRow(x: Attempt, y: Attempt) {
    x.grant == y.grant && x.key == y.key && x.number == y.number && x.task == y.task && x.intent == y.intent
  }

  /** Rows and reviews keep what identifies them, and what the coordinator inserted stays inserted. */
  ghost predicate Stays(w: World, w': World) {
    RowsStay(w, w') && ReviewsStay(w, w') && w.made <= w'.made
  }

  ghost predicate RowsStay(w: World, w': World) {
    |w.rows| <= |w'.rows| && forall i | 0 <= i < |w.rows| :: SameRow(w.rows[i], w'.rows[i])
  }

  ghost predicate ReviewsStay(w: World, w': World) {
    forall a | a in w.reviews :: a in w'.reviews && w'.reviews[a].id == w.reviews[a].id
  }

  lemma StepStays(w: World, a: nat, call: Call, env: Env)
    requires a < |w.rows|
    ensures Stays(w, Step(w, a, call, env).0)
  {
    StepRowsStay(w, a, call, env);
    StepReviewsStay(w, a, call, env);
  }

  lemma StepRowsStay(w: World, a: nat, call: Call, env: Env)
    requires a < |w.rows|
    ensures RowsStay(w, Step(w, a, call, env).0) && w.made <= Step(w, a, call, env).0.made
  {
  }

  lemma StepReviewsStay(w: World, a: nat, call: Call, env: Env)
    requires a < |w.rows|
    ensures ReviewsStay(w, Step(w, a, call, env).0)
  {
  }

  lemma ExecStays(s: State, action: Action)
    ensures Stays(s.world, Exec(s, action).world)
  {
    if action.Tick? && action.attempt in s.calls && action.attempt < |s.world.rows| && !action.env.Fault? {
      StepStays(s.world, action.attempt, s.calls[action.attempt], action.env);
    }
  }

  lemma {:induction false} RunStays(s: State, more: seq<Action>)
    ensures Stays(s.world, Run(s, more).world)
  {
    if more != [] {
      var before := Run(s, more[..|more| - 1]);
      RunStays(s, more[..|more| - 1]);
      ExecStays(before, more[|more| - 1]);
      StaysTrans(s.world, before.world, Run(s, more).world);
    }
  }

  lemma StaysTrans(u: World, v: World, w: World)
    requires Stays(u, v) && Stays(v, w)
    ensures Stays(u, w)
  {
    forall i | 0 <= i < |u.rows|
      ensures SameRow(u.rows[i], w.rows[i])
    {
      assert SameRow(u.rows[i], v.rows[i]) && SameRow(v.rows[i], w.rows[i]);
    }
  }

  /** Once inserted, the retry is the retry in every continuation, with the same grant, key, number, task and intent. */
  lemma RetryIsForever(schedule: seq<Action>, more: seq<Action>, a: nat, i: nat)
    requires RetryOf(Run(FRESH, schedule).world, a, i)
    ensures var w, w' := Run(FRESH, schedule).world, Run(Run(FRESH, schedule), more).world;
      RetryOf(w', a, i) && i < |w.rows| <= |w'.rows| && SameRow(w.rows[i], w'.rows[i])
  {
    RunKeeps(schedule);
    RetryFollows(Run(FRESH, schedule).world, a, i);
    RunStays(Run(FRESH, schedule), more);
  }

  // ---------------------------------------------------------------------------------------------
  // The lookup by grant decides

  /** The gate executed the derived grant before the coordinator inserted a retry. */
  ghost predicate Early(w: World, a: nat) {
    exists i :: GateRow(w, a, i) && forall j | RetryOf(w, a, j) :: i < j
  }

  /** The retries have the derived grant id. */
  ghost predicate RetriesCarry(w: World, a: nat) {
    forall j | RetryOf(w, a, j) :: Carries(w, a, j)
  }

  lemma RetriesDoCarry(w: World, a: nat)
    requires WorldOk(w)
    ensures RetriesCarry(w, a)
  {
    forall j | RetryOf(w, a, j)
      ensures Carries(w, a, j)
    {
      RetryFollows(w, a, j);
    }
  }

  /** The lookup finds a row that is not the retry exactly if the gate was early. */
  lemma LookupFinds(w: World, a: nat)
    requires RetriesCarry(w, a) && a in w.reviews
    ensures var found := FindGrant(w.rows, RetryGrant(w.reviews[a].id));
      && (found.Some? ==> Carries(w, a, found.value))
      && (Early(w, a) <==> found.Some? && !RetryOf(w, a, found.value))
  {
    var found := FindGrant(w.rows, RetryGrant(w.reviews[a].id));
    FindGrantFacts(w.rows, RetryGrant(w.reviews[a].id));
    if found.Some? && !RetryOf(w, a, found.value) {
      forall j | RetryOf(w, a, j)
        ensures found.value < j
      {
        assert Carries(w, a, j);
      }
      assert GateRow(w, a, found.value);
    }
  }

  /** After its lookup: a call that will return, if anything, the retry (`own`) or a row of the gate (not `own`). */
  ghost predicate Bound(w: World, a: nat, pc: Pc, own: bool) {
    match pc
    case Ended(result) => result.Some? ==> result.value < |w.rows| && (RetryOf(w, a, result.value) <==> own)
    case MarkCreated(i) => i < |w.rows| && (RetryOf(w, a, i) <==> own)
    case FindKey => own
    case ReadLatest(_) => own
    case InsertRetry(_) => own
    case _ => false
  }

  /** The retries of `a` below `n` stay what they are when only later rows are added. */
  ghost predicate SameBelow(w: World, w': World, a: nat) {
    |w.rows| <= |w'.rows| && forall i | 0 <= i < |w.rows| :: RetryOf(w', a, i) <==> RetryOf(w, a, i)
  }

  lemma BoundStep(w: World, a: nat, call: Call, env: Env, own: bool)
    requires a < |w.rows| && Bound(w, a, call.pc, own)
    ensures Bound(Step(w, a, call, env).0, a, Step(w, a, call, env).1, own)
  {
  }

  lemma StepAddsLater(w: World, c: nat, call: Call, env: Env, a: nat)
    requires c < |w.rows|
    ensures SameBelow(w, Step(w, c, call, env).0, a)
  {
  }

  lemma BoundKept(w: World, w': World, a: nat, pc: Pc, own: bool)
    requires Bound(w, a, pc, own) && SameBelow(w, w', a)
    ensures Bound(w', a, pc, own)
  {
  }

  predicate StartsCall(action: Action, a: nat) {
    action.Retry? && action.attempt == a
  }

  lemma BoundExec(s: State, action: Action, a: nat, own: bool)
    requires a in s.calls && a < |s.world.rows| && Bound(s.world, a, s.calls[a].pc, own) && !StartsCall(action, a)
    ensures var s' := Exec(s, action);
      a in s'.calls && a < |s'.world.rows| && Bound(s'.world, a, s'.calls[a].pc, own)
  {
    var s' := Exec(s, action);
    if action.Tick? && action.attempt in s.calls && action.attempt < |s.world.rows| && !action.env.Fault? {
      if action.attempt == a {
        BoundStep(s.world, a, s.calls[a], action.env, own);
      } else {
        StepAddsLater(s.world, action.attempt, s.calls[action.attempt], action.env, a);
        BoundKept(s.world, s'.world, a, s.calls[a].pc, own);
      }
    } else if !action.Tick? {
      BoundKept(s.world, s'.world, a, s.calls[a].pc, own);
    }
  }

  lemma {:induction false} BoundRun(s: State, more: seq<Action>, a: nat, own: bool)
    requires a in s.calls && a < |s.world.rows| && Bound(s.world, a, s.calls[a].pc, own)
    requires forall k | 0 <= k < |more| :: !StartsCall(more[k], a)
    ensures var s' := Run(s, more);
      a in s'.calls && a < |s'.world.rows| && Bound(s'.world, a, s'.calls[a].pc, own)
  {
    if more != [] {
      BoundRun(s, more[..|more| - 1], a, own);
      BoundExec(Run(s, more[..|more| - 1]), more[|more| - 1], a, own);
    }
  }

  /**
   In every run, what a call returns is settled by its lookup by grant, whatever happens afterwards: the call, if it
   returns an attempt, returns the retry if and only if the gate had not executed the derived grant before the
   coordinator inserted a retry.
   */
  lemma LookupDecides(schedule: seq<Action>, a: nat, env: Env, more: seq<Action>)
    requires var s := Run(FRESH, schedule); a in s.calls && s.calls[a].pc.FindRetry? && env.Answers?
    requires forall k | 0 <= k < |more| :: !StartsCall(more[k], a)
    ensures var s := Run(FRESH, schedule);
      var s' := Run(Exec(s, Tick(a, env)), more);
      && a in s'.calls
      && (s'.calls[a].pc.Ended? && s'.calls[a].pc.result.Some? ==>
            (RetryOf(s'.world, a, s'.calls[a].pc.result.value) <==> !Early(s.world, a)))
  {
    RunKeeps(schedule);
    var s := Run(FRESH, schedule);
    assert CallOk(s.world, a, s.calls[a]);
    OpHasReview(s.world, a);
    RetriesDoCarry(s.world, a);
    LookupFinds(s.world, a);
    BoundRun(Exec(s, Tick(a, env)), more, a, !Early(s.world, a));
  }

  /** What an operation has recorded as created stays recorded, and the recovery inserts nothing more. */
  lemma {:induction false} RecordedIsFinal(s: State, more: seq<Action>, a: nat)
    requires Inv(s) && a in s.world.ops && s.world.ops[a].state.OpCreated?
    ensures var w := Run(s, more).world;
      a in w.ops && w.ops[a] == s.world.ops[a] && forall i :: RetryOf(w, a, i) <==> RetryOf(s.world, a, i)
  {
    if more != [] {
      var before, action := Run(s, more[..|more| - 1]), more[|more| - 1];
      RecordedIsFinal(s, more[..|more| - 1], a);
      RunInv(s, more[..|more| - 1]);
      RecordedStays(before, action, a);
    }
  }

  lemma RecordedStays(s: State, action: Action, a: nat)
    requires Inv(s) && a in s.world.ops && s.world.ops[a].state.OpCreated?
    ensures var w := Exec(s, action).world;
      a in w.ops && w.ops[a] == s.world.ops[a] && forall i :: RetryOf(w, a, i) <==> RetryOf(s.world, a, i)
  {
    if action.Tick? && action.attempt in s.calls && !action.env.Fault? {
      var c := action.attempt;
      assert c < |s.world.rows| && CallOk(s.world, c, s.calls[c]);
      RecordedTick(s.world, action.attempt, s.calls[action.attempt], action.env, a);
    } else {
      RecordedOther(s, action);
    }
  }

  /** Only steps of calls change operations and insert retries. */
  lemma RecordedOther(s: State, action: Action)
    requires !(action.Tick? && action.attempt in s.calls && action.attempt < |s.world.rows| && !action.env.Fault?)
    ensures var w := Exec(s, action).world; w.ops == s.world.ops && w.made == s.world.made
  {
  }

  lemma RecordedTick(w: World, c: nat, call: Call, env: Env, a: nat)
    requires WorldOk(w) && c < |w.rows| && CallOk(w, c, call) && a in w.ops && w.ops[a].state.OpCreated?
    ensures var w' := Step(w, c, call, env).0;
      a in w'.ops && w'.ops[a] == w.ops[a] && forall i :: RetryOf(w', a, i) <==> RetryOf(w, a, i)
  {
    if c == a {
      RecordedStep(w, a, call, env);
    } else {
      StepKeeps(w, c, call, env);
      OtherKept(w, Step(w, c, call, env).0, c, a, call, Step(w, c, call, env).1);
    }
  }

  lemma RecordedStep(w: World, a: nat, call: Call, env: Env)
    requires a < |w.rows| && CallOk(w, a, call) && a in w.ops && w.ops[a].state.OpCreated?
    ensures var w' := Step(w, a, call, env).0; w'.ops == w.ops && w'.made == w.made
  {
  }

  lemma OtherKept(w: World, w': World, c: nat, a: nat, call: Call, pc: Pc)
    requires Good(w, w', c, call, pc) && a != c && a in w.ops
    ensures a in w'.ops && w'.ops[a] == w.ops[a] && forall i :: RetryOf(w', a, i) <==> RetryOf(w, a, i)
  {
    assert Kept(w, w', a);
  }

  lemma {:induction false} RunInv(s: State, more: seq<Action>)
    requires Inv(s)
    ensures Inv(Run(s, more))
  {
    if more != [] {
      RunInv(s, more[..|more| - 1]);
      ExecKeeps(Run(s, more[..|more| - 1]), more[|more| - 1]);
    }
  }
}
