/** The coordinator as an object whose methods change the tables, run without interruption. */
module RecoveryCoordinator {
  import opened Outcomes
  import opened Attempts
  import opened RecoveryProtocol
  import opened RecoveryInvariant
  import opened RecoveryTheorems
  import opened RecoveryCalls

  // ---------------------------------------------------------------------------------------------
  // Following a call step by step

  /** A lone call that starts in `w0` is in `w` at `pc` after `k` steps. */
  ghost predicate Reaches(w0: World, a: nat, call: Call, env: Env, k: nat, w: World, pc: Pc) {
    a < |w0.rows| && a < |w.rows| && Alone(w0, a, call, env, k) == (w, pc)
  }

  lemma {:induction false} OneMore(w0: World, a: nat, call: Call, env: Env, k: nat, w: World, pc: Pc)
    requires Reaches(w0, a, call, env, k, w, pc)
    ensures Reaches(w0, a, call, env, k + 1, Step(w, a, call.(pc := pc), env).0, Step(w, a, call.(pc := pc), env).1)
    decreases k
  {
    if k > 0 {
      var (w', pc') := Step(w0, a, call, env);
      OneMore(w', a, call.(pc := pc'), env, k - 1, w, pc);
    }
  }

  lemma {:induction false} StaysEnded(w0: World, a: nat, call: Call, env: Env, k: nat, n: nat, w: World, pc: Pc)
    requires Reaches(w0, a, call, env, k, w, pc) && pc.Ended? && k <= n
    ensures Reaches(w0, a, call, env, n, w, pc)
    decreases n
  {
    if k < n {
      StaysEnded(w0, a, call, env, k, n - 1, w, pc);
      OneMore(w0, a, call, env, n - 1, w, pc);
    }
  }

  class Coordinator {
    var w: World

    constructor ()
      ensures w == FRESH.world && WorldOk(w)
    {
      w := FRESH.world;
    }

    /** Inserts the operation row, or takes over one whose lease is over. */
    method ClaimRetry(a: nat, now: int, token: string) returns (acquired: bool)
      modifies this
      ensures (w, acquired) == ClaimRow(old(w), a, now, token) && a in w.ops
      ensures acquired <==>
        a in old(w).ops ==>
          var op := old(w).ops[a]; op.state.OpClaimed? && op.lease.Some? && op.lease.value <= now
      ensures acquired ==>
        w.ops[a].state.OpClaimed? && w.ops[a].token == token && w.ops[a].lease == Some(now + CLAIM_LEASE_SECONDS)
      ensures w == old(w).(ops := old(w).ops[a := w.ops[a]]) && (!acquired ==> w == old(w))
    {
      acquired := false;
      var lease := Some(now + CLAIM_LEASE_SECONDS);
      if a !in w.ops {
        w := w.(ops := w.ops[a := Operation(OpClaimed, token, lease, None)]);
        acquired := true;
      } else if w.ops[a].state.OpClaimed? && w.ops[a].lease.Some? && w.ops[a].lease.value <= now {
        w := w.(ops := w.ops[a := w.ops[a].(token := token, lease := lease)]);
        acquired := true;
      }
    }

    /** Moves an operation row forward: with the claim's token out of CLAIMED, once only to CREATED. */
    method UpdateOperation(a: nat, target: OpState, retry: Option<nat>, now: int, token: string) returns (ok: bool)
      requires !target.OpClaimed? && (retry.Some? <==> target.OpCreated?)
      modifies this
      ensures var after := if target.OpCreated? then Create(old(w), a, retry.value)
        else Authorize(old(w), a, now, token);
        ok == after.Some? && w == if ok then after.value else old(w)
      ensures ok ==> a in w.ops && w.ops[a].state == target && w == old(w).(ops := old(w).ops[a := w.ops[a]])
      ensures ok && old(w).ops[a].state != target ==>
        && (old(w).ops[a].state.OpClaimed? <==> target.OpAuthorized?) && (retry.Some? ==> w.ops[a].retry == retry)
        && (old(w).ops[a].state.OpClaimed? ==>
              token == old(w).ops[a].token != "" && (old(w).ops[a].lease.Some? ==> now < old(w).ops[a].lease.value))
    {
      if a !in w.ops { return false; }
      var op := w.ops[a];
      if op.state == target {
        return !(target.OpCreated? && op.retry.Some? && op.retry != retry);
      }
      if !(op.state.OpClaimed? && target.OpAuthorized?) && !(op.state.OpAuthorized? && target.OpCreated?) {
        return false;
      }
      if op.state.OpClaimed? {
        if token == "" || token != op.token { return false; }
        if op.lease.Some? && op.lease.value <= now { return false; }
      }
      w := w.(ops := w.ops[a := Operation(target, "", None, if retry.Some? then retry else op.retry)]);
      return true;
    }

    /** Opens the review if there is none, and has the verifier decide it. */
    method Review(a: nat, call: Call, env: Env, ghost w0: World) returns (ok: bool, ghost k: nat)
      requires env.Answers? && Reaches(w0, a, call, env, 1, w, Inspect) && !Decided(w, a)
      modifies this
      ensures k <= 4 && Reaches(w0, a, call, env, k, w, if ok then Begin else FAILED) && (ok ==> Decided(w, a))
    {
      ok, k := false, 2;
      OneMore(w0, a, call, env, 1, w, Inspect);
      if !w.rows[a].state.Running? || w.rows[a].receipt != "" { return; }
      k := 3;
      OneMore(w0, a, call, env, 2, w, OpenReview);
      if a !in w.reviews {
        if exists b | b in w.reviews :: w.reviews[b].id == call.reviewId { return; }
        w := w.(reviews := w.reviews[a := RecoveryProtocol.Review(call.reviewId, Unknown)]);
      }
      k := 4;
      OneMore(w0, a, call, env, 3, w, Resolve);
      if env.verdict.None? || env.verdict.value.Unknown? { return; }
      w := w.(reviews := w.reviews[a := w.reviews[a].(decision := env.verdict.value)]);
      ok := true;
    }

    /** Closes an attempt whose effect was confirmed or that was quarantined. */
    method Settle(a: nat, to: AttemptState, call: Call, env: Env, ghost w0: World, ghost k: nat) returns (ghost k': nat)
      requires Reaches(w0, a, call, env, k, w, RecoveryProtocol.Settle(to))
      modifies this
      ensures k <= k' <= k + 2 && Reaches(w0, a, call, env, k', w, FAILED)
    {
      k' := k + 1;
      OneMore(w0, a, call, env, k, w, RecoveryProtocol.Settle(to));
      if w.rows[a].state.Running? {
        k' := k + 2;
        OneMore(w0, a, call, env, k + 1, w, SettleWrite(to));
        w := w.(rows := w.rows[a := Moved(w.rows[a], to, call.now, "")]);
      }
    }

    /** Claims the retry and obtains its grant, or finds the retry that was created before. */
    method Obtain(a: nat, call: Call, env: Env, ghost w0: World, ghost k: nat)
      returns (done: bool, result: Option<nat>, ghost k': nat)
      requires env.Answers? && Reaches(w0, a, call, env, k, w, Claim) && a in w.reviews
      modifies this
      ensures k <= k' <= k + 4 && Reaches(w0, a, call, env, k', w, if done then Ended(result) else ReadOriginal)
      ensures !done ==> a in w.reviews
    {
      OneMore(w0, a, call, env, k, w, Claim);
      var acquired := ClaimRetry(a, call.now, call.token);
      var op := w.ops[a];
      OneMore(w0, a, call, env, k + 1, w, AfterClaim(op, acquired));
      if !op.state.OpClaimed? && op.retry.Some? { return true, op.retry, k + 2; }
      var ok := true;
      k' := k + 2;
      if op.state.OpClaimed? && acquired {
        ok, k' := Reauthorize(a, op.token, call, env, w0, k');
        if !ok { return true, None, k'; }
      } else if RetryGrant(w.reviews[a].id) !in w.grants {
        return true, None, k';
      }
      if op.state.OpClaimed? {
        OneMore(w0, a, call, env, k', w, MarkAuthorized(op.token));
        ok := UpdateOperation(a, OpAuthorized, None, call.later, op.token);
        k' := k' + 1;
      }
      done, result := !ok, None;
    }

    /** Has the retry grant issued and registered. */
    method Reauthorize(a: nat, token: string, call: Call, env: Env, ghost w0: World, ghost k: nat)
      returns (ok: bool, ghost k': nat)
      requires env.Answers? && Reaches(w0, a, call, env, k, w, RecoveryProtocol.Reauthorize(token)) && a in w.reviews
      modifies this
      ensures k' == k + 1 && w == old(w).(grants := w.grants)
      ensures Reaches(w0, a, call, env, k', w, if ok then MarkAuthorized(token) else FAILED)
    {
      k' := k + 1;
      OneMore(w0, a, call, env, k, w, RecoveryProtocol.Reauthorize(token));
      var grant := RetryGrant(w.reviews[a].id);
      if env.denied || grant == w.rows[a].grant || (grant in w.grants && !w.grants[grant]) { return false, k'; }
      w := w.(grants := w.grants[grant := true]);
      ok := true;
    }

    /** Closes the original, and finds or inserts its retry. */
    method CloseAndCreate(a: nat, call: Call, env: Env, ghost w0: World, ghost k: nat)
      returns (result: Option<nat>, ghost k': nat)
      requires Reaches(w0, a, call, env, k, w, ReadOriginal) && a in w.reviews
      modifies this
      ensures k <= k' <= k + 7 && Reaches(w0, a, call, env, k', w, Ended(result))
    {
      result, k' := None, k + 1;
      OneMore(w0, a, call, env, k, w, ReadOriginal);
      if w.rows[a].state.Running? {
        k' := k + 2;
        OneMore(w0, a, call, env, k + 1, w, AbortOriginal);
        w := w.(rows := w.rows[a := Moved(w.rows[a], Aborted, call.now, "")]);
      } else if !w.rows[a].state.Aborted? {
        return;
      }
      result, k' := FindOrInsert(a, call, env, w0, k');
    }

    method FindOrInsert(a: nat, call: Call, env: Env, ghost w0: World, ghost k: nat)
      returns (result: Option<nat>, ghost k': nat)
      requires Reaches(w0, a, call, env, k, w, FindRetry) && a in w.reviews
      modifies this
      ensures k <= k' <= k + 5 && Reaches(w0, a, call, env, k', w, Ended(result))
    {
      k' := k + 1;
      OneMore(w0, a, call, env, k, w, FindRetry);
      result := FindGrant(w.rows, RetryGrant(w.reviews[a].id));
      if result.None? {
        result, k' := InsertRetry(a, call, env, w0, k');
        if result.None? { return; }
      }
      OneMore(w0, a, call, env, k', w, MarkCreated(result.value));
      k' := k' + 1;
      var ok := UpdateOperation(a, OpCreated, result, call.now, "");
      if !ok { result := None; }
    }

    method InsertRetry(a: nat, call: Call, env: Env, ghost w0: World, ghost k: nat)
      returns (result: Option<nat>, ghost k': nat)
      requires Reaches(w0, a, call, env, k, w, FindKey) && a in w.reviews
      modifies this
      ensures k <= k' <= k + 3
      ensures Reaches(w0, a, call, env, k', w, if result.Some? then MarkCreated(result.value) else FAILED)
    {
      result, k' := None, k + 2;
      OneMore(w0, a, call, env, k, w, FindKey);
      var row := w.rows[a];
      var latest := Latest(w.rows, row.key);
      LatestFacts(w.rows, row.key);
      OneMore(w0, a, call, env, k + 1, w, ReadLatest(latest));
      var number := NextNumber(if latest.None? then None else Some(w.rows[latest.value]), true);
      if number.Err? { return; }
      OneMore(w0, a, call, env, k + 2, w, RecoveryProtocol.InsertRetry(number.value));
      k' := k + 3;
      if Taken(w.rows, row.key, number.value) { return; }
      result := Some(|w.rows|);
      w := w.(rows := w.rows + [NewAttempt(row.task, RetryGrant(w.reviews[a].id), row.intent, row.key, number.value)],
              made := w.made + {Made(a, |w.rows|)});
    }

    /**
     The whole call. It makes exactly the steps of a lone call, so it keeps the tables good; it returns an attempt
     exactly when it gets a decision and the decided state is ready; and that attempt is the coordinator's retry
     exactly when the recorded one is or the gate did not execute the derived grant before a retry was inserted.
     */
    method RetryIfSafe(a: nat, now: int, later: int, reviewId: string, token: string, env: Env)
      returns (result: Option<nat>)
      requires WorldOk(w) && env.Answers?
      modifies this
      ensures a >= |old(w).rows| ==> w == old(w) && result.None?
      ensures a < |old(w).rows| ==>
        Reaches(old(w), a, Call(now, later, reviewId, "claim_" + token, Begin), env, 16, w, Ended(result))
      ensures WorldOk(w)
      ensures result.Some? <==>
        && a < |old(w).rows|
        && var reviewed := Reviewed(old(w), a, reviewId, env);
           reviewed.Some? && Ready(reviewed.value, a, now, later, env)
      ensures result.Some? ==>
        && Carries(w, a, result.value) && Records(w, a, result.value)
        && (RetryOf(w, a, result.value) <==> ReturnsOwn(Reviewed(old(w), a, reviewId, env).value, a))
        && (RetryOf(w, a, result.value) ==> IsNextOf(w.rows[result.value], old(w).rows[a]))
    {
      if a >= |w.rows| { return None; }
      ghost var w0, k := w, 0;
      var call := Call(now, later, reviewId, "claim_" + token, Begin);
      result, k := Proceed(a, call, env);
      StaysEnded(w0, a, call, env, k, 16, w, Ended(result));
      CallMeans(w0, a, call, env, w, result);
    }

    method Proceed(a: nat, call: Call, env: Env) returns (result: Option<nat>, ghost k: nat)
      requires a < |w.rows| && env.Answers? && call.pc.Begin?
      modifies this
      ensures k <= 16 && Reaches(old(w), a, call, env, k, w, Ended(result))
    {
      ghost var w0 := w;
      k := 1;
      OneMore(w0, a, call, env, 0, w, Begin);
      var go := true;
      result := None;
      if a !in w.reviews || w.reviews[a].decision.Unknown? {
        go, k := Review(a, call, env, w0);
        if go {
          OneMore(w0, a, call, env, k, w, Begin);
          k := k + 1;
        }
      }
      if go {
        match w.reviews[a].decision
        case Confirmed => k := Settle(a, Recovered, call, env, w0, k);
        case Quarantined => k := Settle(a, Aborted, call, env, w0, k);
        case Safe =>
          var done;
          done, result, k := Obtain(a, call, env, w0, k);
          if !done { result, k := CloseAndCreate(a, call, env, w0, k); }
      }
    }
  }

  /** What the end of a lone call means. */
  lemma CallMeans(w0: World, a: nat, call: Call, env: Env, w: World, result: Option<nat>)
    requires WorldOk(w0) && env.Answers? && call.pc.Begin? && call.token != ""
    requires Reaches(w0, a, call, env, 16, w, Ended(result))
    ensures WorldOk(w)
    ensures var reviewed := Reviewed(w0, a, call.reviewId, env);
      && (result.Some? <==> reviewed.Some? && Ready(reviewed.value, a, call.now, call.later, env))
      && (result.Some? ==>
            && Carries(w, a, result.value) && Records(w, a, result.value)
            && (RetryOf(w, a, result.value) <==> ReturnsOwn(reviewed.value, a))
            && (RetryOf(w, a, result.value) ==> IsNextOf(w.rows[result.value], w0.rows[a])))
  {
    FromBegin(w0, a, call, env, 16);
    AloneKeeps(w0, a, call, env, 16);
    EndMeans(w, a, Ended(result), ReviewedEnd(w0, a, call, env));
    AloneStays(w0, a, call, env, 16);
    assert SameRow(w0.rows[a], w.rows[a]);
  }

  lemma {:induction false} AloneStays(w: World, a: nat, call: Call, env: Env, n: nat)
    requires a < |w.rows|
    ensures RowsStay(w, Alone(w, a, call, env, n).0)
    decreases n
  {
    if n > 0 {
      var (w', pc) := Step(w, a, call, env);
      StepRowsStay(w, a, call, env);
      AloneStays(w', a, call.(pc := pc), env, n - 1);
      var last := Alone(w', a, call.(pc := pc), env, n - 1).0;
      forall i | 0 <= i < |w.rows|
        ensures SameRow(w.rows[i], last.rows[i])
      {
        assert SameRow(w.rows[i], w'.rows[i]) && SameRow(w'.rows[i], last.rows[i]);
      }
    }
  }

  lemma {:induction false} AloneKeeps(w: World, a: nat, call: Call, env: Env, n: nat)
    requires At(w, a, call)
    ensures WorldOk(Alone(w, a, call, env, n).0)
    decreases n
  {
    if n > 0 {
      StepKeeps(w, a, call, env);
      var (w', pc) := Step(w, a, call, env);
      AloneKeeps(w', a, call.(pc := pc), env, n - 1);
    }
  }
}
