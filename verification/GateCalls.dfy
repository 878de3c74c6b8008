/** What one gate call does when nothing interferes with it. */
module GateCalls {
  import opened Outcomes
  import opened Attempts
  import opened GateProtocol

  /** The call's steps with nothing in between. */
  function Alone(w: World, proc: Proc, env: Env, now: int, n: nat): (World, Proc)
    decreases n
  {
    if n == 0 then (w, proc)
    else
      var (w', proc') := Step(w, proc, env, now);
      Alone(w', proc', env, now, n - 1)
  }

  /** The call ends in `w'`. */
  ghost predicate Ends(w: World, proc: Proc, env: Env, now: int, n: nat, w': World) {
    Alone(w, proc, env, now, n) == (w', Idle)
  }

  lemma {:induction false} IdleStays(w: World, env: Env, now: int, n: nat)
    ensures Ends(w, Idle, env, now, n, w)
  {
    if n > 0 { IdleStays(w, env, now, n - 1); }
  }

  lemma Peel(w: World, proc: Proc, env: Env, now: int, n: nat, w': World)
    requires n >= 1 && Ends(Step(w, proc, env, now).0, Step(w, proc, env, now).1, env, now, n - 1, w')
    ensures Ends(w, proc, env, now, n, w')
  {
  }

  /** Changing the state of the attempt takes a read and a write, and succeeds along an allowed step. */
  lemma Moves(w: World, attempt: nat, to: AttemptState, purpose: Purpose, env: Env, now: int, n: nat, w': World)
    requires n >= 2 && attempt < |w.rows| && Allowed(w.rows[attempt].state, to)
    requires var next := w.(rows := w.rows[attempt := Moved(w.rows[attempt], to, now, "")]);
      Ends(next, Changed(attempt, purpose), env, now, n - 2, w')
    ensures Ends(w, ReadState(attempt, to, purpose), env, now, n, w')
  {
    var write := WriteState(attempt, w.rows[attempt].state, to, purpose);
    Peel(w, write, env, now, n - 1, w');
    Peel(w, ReadState(attempt, to, purpose), env, now, n, w');
  }

  /** A grant the call may use: registered and active, or new with a nonce no other grant has. */
  predicate Usable(w: World, grant: Grant) {
    if grant.id in w.grants then w.grants[grant.id].status.Active?
    else forall g | g in w.grants :: w.grants[g].nonce != grant.nonce
  }

  function Registered(w: World, grant: Grant): World {
    if grant.id in w.grants then w else w.(grants := w.grants[grant.id := GrantRow(grant.nonce, Active)])
  }

  function Leasing(w: World, grant: Grant, key: string, now: int): World {
    w.(rows := w.rows + [Moved(NewAttempt(grant.task, grant.id, grant.intent, key, 1), Leased, now, "")])
  }

  function Spent(w: World, grant: Grant): World
    requires grant.id in w.grants
  {
    w.(grants := w.grants[grant.id := w.grants[grant.id].(status := Consumed)])
  }

  /** The executor runs, and the leased attempt ends as its result says. */
  function Executed(w: World, grant: Grant, key: string, attempt: nat, env: Env, now: int): World
    requires attempt < |w.rows|
  {
    var running := Moved(w.rows[attempt], Running, now, "");
    w.(nonces := w.nonces + {grant.nonce},
       invoked := w.invoked + [Invocation(grant, key, attempt)],
       rows := w.rows[attempt := Moved(running, if env.Raises? then Failed else Succeeded, now, "")])
  }

  lemma FromInvoke(w: World, grant: Grant, key: string, attempt: nat, env: Env, now: int, n: nat)
    requires n >= 3 && attempt < |w.rows| && w.rows[attempt].state.Running?
    ensures var to := if env.Raises? then Failed else Succeeded;
      Ends(w, Invoke(grant, key, attempt), env, now, n,
           w.(invoked := w.invoked + [Invocation(grant, key, attempt)],
             rows := w.rows[attempt := Moved(w.rows[attempt], to, now, "")]))
  {
    var to := if env.Raises? then Failed else Succeeded;
    var w1 := w.(invoked := w.invoked + [Invocation(grant, key, attempt)]);
    var w2 := w1.(rows := w.rows[attempt := Moved(w.rows[attempt], to, now, "")]);
    IdleStays(w2, env, now, n - 3);
    Moves(w1, attempt, to, Free, env, now, n - 1, w2);
    Peel(w, Invoke(grant, key, attempt), env, now, n, w2);
  }

  lemma FromConsumeNonce(w: World, grant: Grant, key: string, attempt: nat, env: Env, now: int, n: nat)
    requires n >= 6 && attempt < |w.rows| && w.rows[attempt].state.Leased?
    ensures Ends(w, ConsumeNonce(grant, key, attempt), env, now, n,
                 if grant.nonce in w.nonces then w else Executed(w, grant, key, attempt, env, now))
  {
    if grant.nonce in w.nonces {
      IdleStays(w, env, now, n - 1);
      Peel(w, ConsumeNonce(grant, key, attempt), env, now, n, w);
    } else {
      var w1 := w.(nonces := w.nonces + {grant.nonce});
      var w2 := w1.(rows := w.rows[attempt := Moved(w.rows[attempt], Running, now, "")]);
      var done := Executed(w, grant, key, attempt, env, now);
      FromInvoke(w2, grant, key, attempt, env, now, n - 3);
      assert done.rows == w2.rows[attempt := done.rows[attempt]];
      Moves(w1, attempt, Running, ForRun(grant, key), env, now, n - 1, done);
      Peel(w, ConsumeNonce(grant, key, attempt), env, now, n, done);
    }
  }

  /** What is left when an admitted call ends: the grant spent, and, if its nonce was new, the executor run. */
  function Outcome(w: World, grant: Grant, key: string, env: Env, now: int): World
    requires grant.id in w.grants
  {
    var w1 := Spent(Leasing(w, grant, key, now), grant);
    if grant.nonce in w.nonces then w1 else Executed(w1, grant, key, |w.rows|, env, now)
  }

  lemma FromInsert(w: World, grant: Grant, key: string, env: Env, now: int, n: nat)
    requires n >= 10 && grant.id in w.grants && w.grants[grant.id].status.Active? && Latest(w.rows, key).None?
    ensures var row := NewAttempt(grant.task, grant.id, grant.intent, key, 1);
      Ends(w, InsertAttempt(row, Some(grant), None), env, now, n,
                 Outcome(w, grant, key, env, now))
  {
    LatestFacts(w.rows, key);
    var row, id := NewAttempt(grant.task, grant.id, grant.intent, key, 1), |w.rows|;
    var w1, w2, done := w.(rows := w.rows + [row]), Leasing(w, grant, key, now), Outcome(w, grant, key, env, now);
    assert !Taken(w.rows, key, 1);
    FromConsumeNonce(Spent(w2, grant), grant, key, id, env, now, n - 4);
    Peel(w2, ConsumeGrant(grant, key, id), env, now, n - 3, done);
    assert w1.rows[id := Moved(row, Leased, now, "")] == w2.rows;
    Moves(w1, id, Leased, ForLease(grant, key), env, now, n - 1, done);
    Peel(w, InsertAttempt(row, Some(grant), None), env, now, n, done);
  }

  lemma FromBegin(w: World, grant: Grant, key: string, env: Env, now: int, n: nat)
    requires n >= 11 && grant.id in w.grants && w.grants[grant.id].status.Active?
    ensures Ends(w, Begin(grant, key), env, now, n,
      if Latest(w.rows, key).None? then Outcome(w, grant, key, env, now) else w)
  {
    LatestFacts(w.rows, key);
    var latest := Latest(w.rows, key);
    var row := NewAttempt(grant.task, grant.id, grant.intent, key, 1);
    if latest.None? {
      FromInsert(w, grant, key, env, now, n - 1);
      assert row.(number := 1) == row;
      Peel(w, Begin(grant, key), env, now, n, Outcome(w, grant, key, env, now));
    } else {
      IdleStays(w, env, now, n - 2);
      Peel(w, ReadLatest(row, false, Some(grant), latest.value), env, now, n - 1, w);
      Peel(w, Begin(grant, key), env, now, n, w);
    }
  }

  /**
   A lone call with an unusable grant changes nothing; with a used key it only registers the grant; otherwise it
   makes one attempt and spends the grant, and with a new nonce it runs the executor and ends the attempt as
   SUCCEEDED or FAILED. So the executor runs if and only if grant, key and nonce are all unused.
   */
  lemma LoneExecute(w: World, grant: Grant, key: string, env: Env, now: int, n: nat)
    requires n >= 13
    ensures var w1 := Registered(w, grant);
      Ends(w, GateProtocol.FindGrant(grant, key), env, now, n,
           if !Usable(w, grant) then w else if Latest(w.rows, key).Some? then w1 else Outcome(w1, grant, key, env, now))
    ensures var w' := Alone(w, GateProtocol.FindGrant(grant, key), env, now, n).0;
      if Usable(w, grant) && Latest(w.rows, key).None? && grant.nonce !in w.nonces
      then && w'.invoked == w.invoked + [Invocation(grant, key, |w.rows|)] && |w'.rows| == |w.rows| + 1
           && w'.rows[|w.rows|].state == (if env.Raises? then Failed else Succeeded)
           && w'.rows[|w.rows|].task == grant.task && w'.rows[|w.rows|].grant == grant.id
           && w'.rows[|w.rows|].intent == grant.intent && w'.rows[|w.rows|].key == key
      else w'.invoked == w.invoked
  {
    var w1 := Registered(w, grant);
    if grant.id in w.grants && w.grants[grant.id].status.Active? {
      FromBegin(w, grant, key, env, now, n - 1);
    } else if grant.id in w.grants {
      IdleStays(w, env, now, n - 1);
    } else if Usable(w, grant) {
      FromBegin(w1, grant, key, env, now, n - 2);
      Peel(w, RegisterGrant(grant, key), env, now, n - 1,
           if Latest(w.rows, key).Some? then w1 else Outcome(w1, grant, key, env, now));
    } else {
      IdleStays(w, env, now, n - 3);
      Peel(w, RecheckGrant(grant, key), env, now, n - 2, w);
      Peel(w, RegisterGrant(grant, key), env, now, n - 1, w);
    }
  }

  /** A call that finds its grant registered by another one in the meantime goes on exactly if it is active. */
  lemma RegisteredMeanwhile(w: World, grant: Grant, key: string, env: Env, now: int, n: nat)
    requires n >= 13 && grant.id in w.grants
    ensures var goesOn := w.grants[grant.id].status.Active? && Latest(w.rows, key).None?;
      Ends(w, RegisterGrant(grant, key), env, now, n, if goesOn then Outcome(w, grant, key, env, now) else w)
  {
    var goesOn := w.grants[grant.id].status.Active? && Latest(w.rows, key).None?;
    var last := if goesOn then Outcome(w, grant, key, env, now) else w;
    if w.grants[grant.id].status.Active? {
      FromBegin(w, grant, key, env, now, n - 2);
    } else {
      IdleStays(w, env, now, n - 2);
    }
    Peel(w, RecheckGrant(grant, key), env, now, n - 1, last);
    Peel(w, RegisterGrant(grant, key), env, now, n, last);
  }

  // ---------------------------------------------------------------------------------------------
  // A call that is refused on its way

  /** The world with the attempt aborted if it is still open. */
  function WithAborted(w: World, attempt: nat, now: int): World {
    if attempt < |w.rows| && !w.rows[attempt].state.Terminal()
    then w.(rows := w.rows[attempt := Moved(w.rows[attempt], Aborted, now, "")]) else w
  }

  lemma Aborts(w: World, attempt: nat, env: Env, now: int, n: nat)
    requires n >= 2
    ensures Ends(w, ReadState(attempt, Aborted, Free), env, now, n, WithAborted(w, attempt, now))
  {
    if attempt < |w.rows| && !w.rows[attempt].state.Terminal() {
      IdleStays(WithAborted(w, attempt, now), env, now, n - 2);
      Moves(w, attempt, Aborted, Free, env, now, n, WithAborted(w, attempt, now));
    } else {
      IdleStays(w, env, now, n - 1);
      Peel(w, ReadState(attempt, Aborted, Free), env, now, n, w);
    }
  }

  /** A call whose grant is no longer active when it comes to consume it aborts its attempt and does nothing else. */
  lemma ConsumeRefused(w: World, grant: Grant, key: string, attempt: nat, env: Env, now: int, n: nat)
    requires n >= 3 && !(grant.id in w.grants && w.grants[grant.id].status.Active?)
    ensures Ends(w, ConsumeGrant(grant, key, attempt), env, now, n, WithAborted(w, attempt, now))
  {
    Aborts(w, attempt, env, now, n - 1);
    Peel(w, ConsumeGrant(grant, key, attempt), env, now, n, WithAborted(w, attempt, now));
  }

  /** So does a call whose attempt may no longer start running. */
  lemma RunRefused(w: World, grant: Grant, key: string, attempt: nat, env: Env, now: int, n: nat)
    requires n >= 3 && !(attempt < |w.rows| && w.rows[attempt].state.Leased?)
    ensures Ends(w, ReadState(attempt, Running, ForRun(grant, key)), env, now, n, WithAborted(w, attempt, now))
  {
    Aborts(w, attempt, env, now, n - 1);
    Peel(w, ReadState(attempt, Running, ForRun(grant, key)), env, now, n, WithAborted(w, attempt, now));
  }

  /** Steps of one call, nothing in between. */
  function Ticks(s: State, pid: Pid, env: Env, now: int, n: nat): State
    decreases n
  {
    if n == 0 then s else Ticks(Exec(s, Tick(pid, env, now)), pid, env, now, n - 1)
  }

  lemma {:induction false} TicksAlone(s: State, pid: Pid, env: Env, now: int, n: nat)
    requires pid in s.procs && !env.Fault?
    ensures Ticks(s, pid, env, now, n).world == Alone(s.world, s.procs[pid], env, now, n).0
    decreases n
  {
    if n > 0 { TicksAlone(Exec(s, Tick(pid, env, now)), pid, env, now, n - 1); }
  }

  /** In every run, an uninterrupted call runs the executor exactly if grant, key and nonce are unused, once, under the
      given idempotency key or, if that is empty, under the grant's nonce. */
  lemma LoneCallExecutes(schedule: seq<Action>, pid: Pid, grant: Grant, key: string, env: Env, now: int, n: nat)
    requires n >= 13 && !env.Fault?
    ensures var s := Run(schedule);
      var w, w' := s.world, Ticks(Exec(s, Execute(pid, grant, key)), pid, env, now, n).world;
      var used := if key == "" then grant.nonce else key;
      if Usable(w, grant) && Latest(w.rows, used).None? && grant.nonce !in w.nonces
      then && w'.invoked == w.invoked + [Invocation(grant, used, |w.rows|)] && |w'.rows| == |w.rows| + 1
           && w'.rows[|w.rows|].key == used && w'.rows[|w.rows|].grant == grant.id
      else w'.invoked == w.invoked
  {
    var s := Run(schedule);
    var used := if key == "" then grant.nonce else key;
    TicksAlone(Exec(s, Execute(pid, grant, key)), pid, env, now, n);
    LoneExecute(s.world, grant, used, env, now, n);
  }

  /**
   In every run, if the grant of a call is revoked between its lease and its consumption, the call aborts its attempt,
   unless that is over already, never runs the executor, and leaves the grant revoked.
   */
  lemma RevokedIsAborted(schedule: seq<Action>, pid: Pid, env: Env, now: int, n: nat)
    requires var s := Run(schedule);
      && pid in s.procs && s.procs[pid].ConsumeGrant? && s.procs[pid].grant.id in s.world.grants
      && s.world.grants[s.procs[pid].grant.id].status.Active?
    requires n >= 3 && !env.Fault?
    ensures var s := Run(schedule);
      var id, attempt := s.procs[pid].grant.id, s.procs[pid].attempt;
      var w := Ticks(Exec(s, Revoke(id)), pid, env, now, n).world;
      && attempt < |s.world.rows| == |w.rows| && w.invoked == s.world.invoked
      && w.grants == s.world.grants[id := s.world.grants[id].(status := Revoked)]
      && w.rows[attempt].state ==
         if s.world.rows[attempt].state.Terminal() then s.world.rows[attempt].state else Aborted
  {
    RunKeeps(schedule);
    var s := Run(schedule);
    var proc := s.procs[pid];
    assert ProcOk(s.world, proc) && TicketOf(proc).Some?;
    var s1 := Exec(s, Revoke(proc.grant.id));
    TicksAlone(s1, pid, env, now, n);
    ConsumeRefused(s1.world, proc.grant, proc.key, proc.attempt, env, now, n);
  }
}
