/**
 The execution gate as a transition system. Gate calls, direct creations and transitions of attempts,
 and revocations interleave statement by statement over one database; any call may stop anywhere.
 */
module GateProtocol {
  import opened Outcomes
  import opened Attempts

  type Pid = nat

  datatype GrantStatus = Active | Consumed | Revoked

  datatype GrantRow = GrantRow(nonce: string, status: GrantStatus)

  /** A grant that passed signature, authority and binding checks. */
  datatype Grant = Grant(id: string, nonce: string, task: string, intent: string)

  /** One invocation of the injected executor. */
  datatype Invocation = Invocation(grant: Grant, key: string, attempt: nat)

  datatype World = World(rows: Table, grants: map<string, GrantRow>, nonces: set<string>,
                         invoked: seq<Invocation>, revoked: set<string>)

  /** What a state change of an attempt is for. */
  datatype Purpose = Free | ForLease(grant: Grant, key: string) | ForRun(grant: Grant, key: string)

  datatype Proc =
    | Idle
    | FindGrant(grant: Grant, key: string)
    | RegisterGrant(grant: Grant, key: string)
    | RecheckGrant(grant: Grant, key: string)
    | FindKey(draft: Attempt, retry: bool, gate: Option<Grant>)
    | ReadLatest(draft: Attempt, retry: bool, gate: Option<Grant>, latest: nat)
    | InsertAttempt(draft: Attempt, gate: Option<Grant>, previous: Option<nat>)
    | ReadState(attempt: nat, to: AttemptState, purpose: Purpose)
    | WriteState(attempt: nat, from: AttemptState, to: AttemptState, purpose: Purpose)
    | ConsumeGrant(grant: Grant, key: string, attempt: nat)
    | ConsumeNonce(grant: Grant, key: string, attempt: nat)
    | Invoke(grant: Grant, key: string, attempt: nat)

  datatype State = State(world: World, procs: map<Pid, Proc>)

  datatype Env = Normal | Fault | Raises

  datatype Action =
    | Execute(pid: Pid, grant: Grant, key: string)
    | Create(pid: Pid, draft: Attempt, retry: bool)
    | Transition(pid: Pid, attempt: nat, to: AttemptState)
    | Revoke(id: string)
    | Tick(pid: Pid, env: Env, now: int)

  const FRESH := State(World([], map[], {}, [], {}), map[])

  /** Where a call goes when a state change is refused: a gate call that was about to run aborts its
      attempt; the others end. */
  function Refused(attempt: nat, purpose: Purpose): Proc {
    if purpose.ForRun? then ReadState(attempt, Aborted, Free) else Idle
  }

  function Changed(attempt: nat, purpose: Purpose): Proc {
    match purpose
    case Free => Idle
    case ForLease(grant, key) => ConsumeGrant(grant, key, attempt)
    case ForRun(grant, key) => Invoke(grant, key, attempt)
  }

  function Begin(grant: Grant, key: string): Proc {
    FindKey(NewAttempt(grant.task, grant.id, grant.intent, key, 1), false, Some(grant))
  }

  function Step(w: World, proc: Proc, env: Env, now: int): (World, Proc) {
    match proc
    case Idle => (w, Idle)
    case FindGrant(grant, key) =>
      (w, if grant.id !in w.grants then RegisterGrant(grant, key)
          else if w.grants[grant.id].status.Active? then Begin(grant, key)
          else Idle)
    case RegisterGrant(grant, key) =>
      if grant.id in w.grants || exists g | g in w.grants :: w.grants[g].nonce == grant.nonce
      then (w, RecheckGrant(grant, key))
      else (w.(grants := w.grants[grant.id := GrantRow(grant.nonce, Active)]), Begin(grant, key))
    case RecheckGrant(grant, key) =>
      (w, if grant.id in w.grants && w.grants[grant.id].status.Active? then Begin(grant, key) else Idle)
    case FindKey(draft, retry, gate) =>
      (match Latest(w.rows, draft.key)
       case None => (w, InsertAttempt(draft.(number := 1), gate, None))
       case Some(i) => (w, ReadLatest(draft, retry, gate, i)))
    case ReadLatest(draft, retry, gate, i) =>
      if i >= |w.rows| then (w, Idle)
      else
        (match NextNumber(Some(w.rows[i]), retry)
         case Err(_) => (w, Idle)
         case Ok(number) => (w, InsertAttempt(draft.(number := number), gate, Some(i))))
    case InsertAttempt(draft, gate, previous) =>
      if Taken(w.rows, draft.key, draft.number) then (w, Idle)
      else (w.(rows := w.rows + [draft]),
            if gate.None? then Idle else ReadState(|w.rows|, Leased, ForLease(gate.value, draft.key)))
    case ReadState(attempt, to, purpose) =>
      (w, if attempt < |w.rows| && Allowed(w.rows[attempt].state, to)
          then WriteState(attempt, w.rows[attempt].state, to, purpose)
          else Refused(attempt, purpose))
    case WriteState(attempt, from, to, purpose) =>
      if attempt < |w.rows| && w.rows[attempt].state == from
      then (w.(rows := w.rows[attempt := Moved(w.rows[attempt], to, now, "")]), Changed(attempt, purpose))
      else (w, Refused(attempt, purpose))
    case ConsumeGrant(grant, key, attempt) =>
      if grant.id in w.grants && w.grants[grant.id].status.Active?
      then (w.(grants := w.grants[grant.id := w.grants[grant.id].(status := Consumed)]),
            ConsumeNonce(grant, key, attempt))
      else (w, ReadState(attempt, Aborted, Free))
    case ConsumeNonce(grant, key, attempt) =>
      if grant.nonce in w.nonces then (w, Idle)
      else (w.(nonces := w.nonces + {grant.nonce}), ReadState(attempt, Running, ForRun(grant, key)))
    case Invoke(grant, key, attempt) =>
      (w.(invoked := w.invoked + [Invocation(grant, key, attempt)]),
       ReadState(attempt, if env.Raises? then Failed else Succeeded, Free))
  }

  function Exec(s: State, a: Action): State {
    match a
    case Execute(pid, grant, key) =>
      s.(procs := s.procs[pid := FindGrant(grant, if key == "" then grant.nonce else key)])
    case Create(pid, draft, retry) =>
      s.(procs := s.procs[pid := FindKey(NewAttempt(draft.task, draft.grant, draft.intent, draft.key, 1), retry, None)])
    case Transition(pid, attempt, to) =>
      s.(procs := s.procs[pid := ReadState(attempt, to, Free)])
    case Revoke(id) =>
      if id in s.world.grants && s.world.grants[id].status.Active? then
        s.(world := s.world.(grants := s.world.grants[id := s.world.grants[id].(status := Revoked)],
                             revoked := s.world.revoked + {id}))
      else s
    case Tick(pid, env, now) =>
      if pid !in s.procs then s
      else if env.Fault? then s.(procs := s.procs[pid := Idle])
      else
        var (w, proc) := Step(s.world, s.procs[pid], env, now);
        State(w, s.procs[pid := proc])
  }

  function Run(schedule: seq<Action>): State {
    if schedule == [] then FRESH else Exec(Run(schedule[..|schedule| - 1]), schedule[|schedule| - 1])
  }

  // ---------------------------------------------------------------------------------------------
  // The invariant

  /** The grant, key and attempt a gate call is working with, once its attempt exists. */
  ghost function TicketOf(proc: Proc): Option<Invocation> {
    match proc
    case ReadState(attempt, _, purpose) => PurposeTicket(attempt, purpose)
    case WriteState(attempt, _, _, purpose) => PurposeTicket(attempt, purpose)
    case ConsumeGrant(grant, key, attempt) => Some(Invocation(grant, key, attempt))
    case ConsumeNonce(grant, key, attempt) => Some(Invocation(grant, key, attempt))
    case Invoke(grant, key, attempt) => Some(Invocation(grant, key, attempt))
    case _ => None
  }

  ghost function PurposeTicket(attempt: nat, purpose: Purpose): Option<Invocation> {
    if purpose.Free? then None else Some(Invocation(purpose.grant, purpose.key, attempt))
  }

  /** The call has consumed its grant. */
  ghost predicate HasGrant(proc: Proc) {
    proc.ConsumeNonce? || HasNonce(proc)
  }

  /** The call has also consumed its nonce. */
  ghost predicate HasNonce(proc: Proc) {
    proc.Invoke? || ((proc.ReadState? || proc.WriteState?) && proc.purpose.ForRun?)
  }

  /** The attempt exists, has the key, and is the key's first. */
  ghost predicate Owns(w: World, t: Invocation) {
    t.attempt < |w.rows| && w.rows[t.attempt].key == t.key && w.rows[t.attempt].number == 1
  }

  /** The attempt has entered RUNNING. */
  ghost predicate HasRun(w: World, attempt: nat) {
    attempt < |w.rows| && Running in w.rows[attempt].trail
  }

  ghost predicate GrantSpent(w: World, t: Invocation) {
    t.grant.id in w.grants && w.grants[t.grant.id].status.Consumed?
  }

  /** What is true of a call that has not invoked its executor yet. */
  ghost predicate ProcOk(w: World, proc: Proc) {
    && (proc.FindKey? ==> TrailOk(proc.draft) && (proc.gate.Some? ==> !proc.retry))
    && (proc.ReadLatest? ==>
          && TrailOk(proc.draft) && (proc.gate.Some? ==> !proc.retry)
          && proc.latest < |w.rows| && w.rows[proc.latest].key == proc.draft.key)
    && (proc.InsertAttempt? ==>
          && TrailOk(proc.draft)
          && (proc.previous.None? ==> proc.draft.number == 1)
          && (proc.previous.Some? ==>
                && proc.gate.None?
                && proc.previous.value < |w.rows| && w.rows[proc.previous.value].key == proc.draft.key
                && w.rows[proc.previous.value].state.Terminal()
                && w.rows[proc.previous.value].number + 1 == proc.draft.number))
    && (proc.WriteState? ==> Allowed(proc.from, proc.to))
    && (proc.WriteState? && proc.purpose.ForRun? ==> proc.to.Running?)
    && (proc.ReadState? && proc.purpose.ForRun? ==> proc.to.Running?)
    && (proc.Invoke? ==> HasRun(w, proc.attempt))
    && (TicketOf(proc).Some? ==> Unused(w, proc, TicketOf(proc).value))
  }

  ghost predicate Unused(w: World, proc: Proc, t: Invocation) {
    && Owns(w, t)
    && (HasGrant(proc) ==> GrantSpent(w, t))
    && (HasNonce(proc) ==> t.grant.nonce in w.nonces)
    && forall k | 0 <= k < |w.invoked| :: Fresh(proc, t, w.invoked[k])
  }

  /** The call's claims differ from those of an earlier invocation. */
  ghost predicate Fresh(proc: Proc, t: Invocation, used: Invocation) {
    && used.attempt != t.attempt
    && (HasGrant(proc) ==> used.grant.id != t.grant.id)
    && (HasNonce(proc) ==> used.grant.nonce != t.grant.nonce)
  }

  /** Two calls never hold the same attempt, consumed grant or consumed nonce. */
  ghost predicate Apart(a: Proc, b: Proc) {
    TicketOf(a).Some? && TicketOf(b).Some? ==>
      && TicketOf(a).value.attempt != TicketOf(b).value.attempt
      && (HasGrant(a) && HasGrant(b) ==> TicketOf(a).value.grant.id != TicketOf(b).value.grant.id)
      && (HasNonce(a) && HasNonce(b) ==> TicketOf(a).value.grant.nonce != TicketOf(b).value.grant.nonce)
  }

  ghost predicate InvokedOk(w: World, t: Invocation) {
    Owns(w, t) && GrantSpent(w, t) && t.grant.nonce in w.nonces && HasRun(w, t.attempt)
  }

  ghost predicate WorldOk(w: World) {
    && TableOk(w.rows)
    && (forall k | 0 <= k < |w.invoked| :: InvokedOk(w, w.invoked[k]))
    && (forall j, k | 0 <= j < k < |w.invoked| :: Different(w.invoked[j], w.invoked[k]))
    && (forall g | g in w.revoked :: g in w.grants && w.grants[g].status.Revoked?)
  }

  ghost predicate Different(a: Invocation, b: Invocation) {
    a.attempt != b.attempt && a.grant.id != b.grant.id && a.grant.nonce != b.grant.nonce
  }

  ghost predicate Inv(s: State) {
    && WorldOk(s.world)
    && (forall p | p in s.procs :: ProcOk(s.world, s.procs[p]))
    && (forall p, q | p in s.procs && q in s.procs && p != q :: Apart(s.procs[p], s.procs[q]))
  }

  // ---------------------------------------------------------------------------------------------
  // Preservation

  ghost predicate RowKept(w: World, w': World, i: nat)
    requires i < |w.rows|
  {
    && i < |w'.rows| && w'.rows[i].key == w.rows[i].key && w'.rows[i].number == w.rows[i].number
    && (w.rows[i].state.Terminal() ==> w'.rows[i] == w.rows[i])
    && (Running in w.rows[i].trail ==> Running in w'.rows[i].trail)
  }

  /** Rows keep their key and number, finished attempts do not change, consumed grants and nonces stay
      consumed. */
  ghost predicate Grows(w: World, w': World) {
    && |w.rows| <= |w'.rows|
    && (forall i | 0 <= i < |w.rows| :: RowKept(w, w', i))
    && (forall g | g in w.grants && !w.grants[g].status.Active? ::
      g in w'.grants && w'.grants[g].status == w.grants[g].status)
    && w.nonces <= w'.nonces
  }

  lemma OwnsGrows(w: World, w': World, t: Invocation)
    requires Grows(w, w') && Owns(w, t)
    ensures Owns(w', t) && (HasRun(w, t.attempt) ==> HasRun(w', t.attempt))
  {
    assert RowKept(w, w', t.attempt);
  }

  lemma ProcGrows(w: World, w': World, proc: Proc)
    requires Grows(w, w') && ProcOk(w, proc)
    requires TicketOf(proc).Some? ==>
      forall k | 0 <= k < |w'.invoked| :: Fresh(proc, TicketOf(proc).value, w'.invoked[k])
    ensures ProcOk(w', proc)
  {
    if TicketOf(proc).Some? { OwnsGrows(w, w', TicketOf(proc).value); }
    if proc.ReadLatest? { assert RowKept(w, w', proc.latest); }
    if proc.InsertAttempt? && proc.previous.Some? { assert RowKept(w, w', proc.previous.value); }
  }

  lemma InvokedGrows(w: World, w': World)
    requires Grows(w, w') && WorldOk(w) && w'.invoked == w.invoked && TableOk(w'.rows)
    requires forall g | g in w'.revoked :: g in w'.grants && w'.grants[g].status.Revoked?
    ensures WorldOk(w')
  {
    forall k | 0 <= k < |w'.invoked|
      ensures InvokedOk(w', w'.invoked[k])
    {
      assert InvokedOk(w, w.invoked[k]);
      OwnsGrows(w, w', w.invoked[k]);
    }
  }

  /** A step that does not invoke: the world stays good and only grows, and nothing is invoked. */
  lemma QuietWorld(w: World, proc: Proc, env: Env, now: int)
    requires WorldOk(w) && ProcOk(w, proc) && !proc.Invoke?
    ensures var w' := Step(w, proc, env, now).0; WorldOk(w') && Grows(w, w') && w'.invoked == w.invoked
  {
    if proc.InsertAttempt? || proc.WriteState? {
      QuietRows(w, proc, env, now);
    } else {
      QuietGrants(w, proc, env, now);
    }
    InvokedGrows(w, Step(w, proc, env, now).0);
  }

  lemma QuietRows(w: World, proc: Proc, env: Env, now: int)
    requires WorldOk(w) && ProcOk(w, proc) && (proc.InsertAttempt? || proc.WriteState?)
    ensures var w' := Step(w, proc, env, now).0;
      Grows(w, w') && TableOk(w'.rows) && w' == w.(rows := w'.rows)
  {
    if proc.InsertAttempt? {
      if !Taken(w.rows, proc.draft.key, proc.draft.number) { InsertKeeps(w.rows, proc.draft, proc.previous); }
    } else if proc.attempt < |w.rows| && w.rows[proc.attempt].state == proc.from {
      MoveKeeps(w.rows, proc.attempt, proc.to, now, "");
    }
  }

  lemma QuietGrants(w: World, proc: Proc, env: Env, now: int)
    requires WorldOk(w) && !proc.Invoke? && !proc.InsertAttempt? && !proc.WriteState?
    ensures var w' := Step(w, proc, env, now).0;
      && Grows(w, w') && w' == w.(grants := w'.grants, nonces := w'.nonces)
      && forall g | g in w'.revoked :: g in w'.grants && w'.grants[g].status.Revoked?
  {
  }

  lemma SearchProc(w: World, proc: Proc, env: Env, now: int)
    requires ProcOk(w, proc)
    requires proc.FindGrant? || proc.RegisterGrant? || proc.RecheckGrant? || proc.FindKey? || proc.ReadLatest?
    ensures var (w', proc') := Step(w, proc, env, now); ProcOk(w', proc')
  {
    if proc.FindKey? { LatestFacts(w.rows, proc.draft.key); }
  }

  /** A call that takes a new claim, or keeps the ones it has, is still fresh. */
  lemma ClaimStaysFresh(w: World, proc: Proc, proc': Proc, used: Invocation)
    requires ProcOk(w, proc) && InvokedOk(w, used) && TicketOf(proc').Some?
    requires TicketOf(proc).Some? ==> TicketOf(proc) == TicketOf(proc') && Fresh(proc, TicketOf(proc).value, used)
    requires TicketOf(proc).None? ==> TicketOf(proc').value.attempt >= |w.rows| && !HasGrant(proc')
    requires HasGrant(proc') && !HasGrant(proc) ==> !GrantSpent(w, TicketOf(proc').value)
    requires HasNonce(proc') && !HasNonce(proc) ==> TicketOf(proc').value.grant.nonce !in w.nonces
    ensures Fresh(proc', TicketOf(proc').value, used)
  {
  }

  lemma ClaimProc(w: World, proc: Proc, env: Env, now: int)
    requires WorldOk(w) && ProcOk(w, proc) && (proc.InsertAttempt? || proc.ConsumeGrant? || proc.ConsumeNonce?)
    ensures var (w', proc') := Step(w, proc, env, now); ProcOk(w', proc')
  {
    var (w', proc') := Step(w, proc, env, now);
    if TicketOf(proc').Some? {
      forall k | 0 <= k < |w'.invoked|
        ensures Fresh(proc', TicketOf(proc').value, w'.invoked[k])
      {
        assert InvokedOk(w, w.invoked[k]);
        ClaimStaysFresh(w, proc, proc', w.invoked[k]);
      }
    }
  }

  lemma MoveProc(w: World, proc: Proc, env: Env, now: int)
    requires WorldOk(w) && ProcOk(w, proc) && (proc.ReadState? || proc.WriteState?)
    requires Grows(w, Step(w, proc, env, now).0)
    ensures var (w', proc') := Step(w, proc, env, now); ProcOk(w', proc')
  {
    var (w', proc') := Step(w, proc, env, now);
    if TicketOf(proc').Some? {
      OwnsGrows(w, w', TicketOf(proc').value);
      forall k | 0 <= k < |w'.invoked|
        ensures Fresh(proc', TicketOf(proc').value, w'.invoked[k])
      {
        assert InvokedOk(w, w.invoked[k]);
        ClaimStaysFresh(w, proc, proc', w.invoked[k]);
      }
    }
  }

  /** After such a step the call's own facts hold. */
  lemma QuietProc(w: World, proc: Proc, env: Env, now: int)
    requires WorldOk(w) && ProcOk(w, proc) && !proc.Invoke? && Grows(w, Step(w, proc, env, now).0)
    ensures var (w', proc') := Step(w, proc, env, now); ProcOk(w', proc')
  {
    if proc.FindGrant? || proc.RegisterGrant? || proc.RecheckGrant? || proc.FindKey? || proc.ReadLatest? {
      SearchProc(w, proc, env, now);
    } else if proc.ReadState? || proc.WriteState? {
      MoveProc(w, proc, env, now);
    } else if !proc.Idle? {
      ClaimProc(w, proc, env, now);
    }
  }

  /** And it stays apart from every other call. */
  lemma QuietApart(w: World, proc: Proc, env: Env, now: int, other: Proc)
    requires ProcOk(w, proc) && ProcOk(w, other) && Apart(proc, other) && !proc.Invoke?
    ensures Apart(Step(w, proc, env, now).1, other)
  {
  }

  /** Invoking the executor: the new invocation differs from all before it and from every other call. */
  lemma InvokeWorld(w: World, proc: Proc, env: Env, now: int)
    requires WorldOk(w) && ProcOk(w, proc) && proc.Invoke?
    ensures var w' := Step(w, proc, env, now).0; WorldOk(w') && Grows(w, w')
  {
    var t := Invocation(proc.grant, proc.key, proc.attempt);
    var w' := Step(w, proc, env, now).0;
    forall k | 0 <= k < |w'.invoked|
      ensures InvokedOk(w', w'.invoked[k])
    {
      if k < |w.invoked| { assert InvokedOk(w, w.invoked[k]); }
    }
    forall j, k | 0 <= j < k < |w'.invoked|
      ensures Different(w'.invoked[j], w'.invoked[k])
    {
      if k == |w.invoked| {
        assert Fresh(proc, t, w.invoked[j]);
      } else {
        assert Different(w.invoked[j], w.invoked[k]);
      }
    }
  }

  lemma OtherKept(w: World, proc: Proc, env: Env, now: int, other: Proc)
    requires WorldOk(w) && ProcOk(w, proc) && ProcOk(w, other) && Apart(proc, other)
    ensures var (w', proc') := Step(w, proc, env, now); ProcOk(w', other) && Apart(proc', other)
  {
    var w' := Step(w, proc, env, now).0;
    if proc.Invoke? {
      InvokeWorld(w, proc, env, now);
      if TicketOf(other).Some? {
        forall k | 0 <= k < |w'.invoked|
          ensures Fresh(other, TicketOf(other).value, w'.invoked[k])
        {
          if k < |w.invoked| { assert Fresh(other, TicketOf(other).value, w.invoked[k]); }
        }
      }
    } else {
      QuietWorld(w, proc, env, now);
      QuietApart(w, proc, env, now, other);
    }
    ProcGrows(w, w', other);
  }

  lemma ApartSymmetric(a: Proc, b: Proc)
    requires Apart(a, b)
    ensures Apart(b, a)
  {
  }

  lemma StepKeeps(w: World, proc: Proc, env: Env, now: int)
    requires WorldOk(w) && ProcOk(w, proc)
    ensures var (w', proc') := Step(w, proc, env, now); WorldOk(w') && ProcOk(w', proc')
  {
    if proc.Invoke? {
      InvokeWorld(w, proc, env, now);
    } else {
      QuietWorld(w, proc, env, now);
      QuietProc(w, proc, env, now);
    }
  }

  lemma TickKeeps(s: State, pid: Pid, env: Env, now: int)
    requires Inv(s) && pid in s.procs && !env.Fault?
    ensures Inv(Exec(s, Tick(pid, env, now)))
  {
    var proc := s.procs[pid];
    var s' := Exec(s, Tick(pid, env, now));
    StepKeeps(s.world, proc, env, now);
    forall p | p in s'.procs && p != pid
      ensures ProcOk(s'.world, s'.procs[p]) && Apart(s'.procs[pid], s'.procs[p]) && Apart(s'.procs[p], s'.procs[pid])
    {
      OtherKept(s.world, proc, env, now, s.procs[p]);
      ApartSymmetric(s'.procs[pid], s'.procs[p]);
    }
  }

  /** Replacing a call by one that holds nothing keeps the invariant. */
  lemma RestartKeeps(s: State, pid: Pid, proc: Proc)
    requires Inv(s) && ProcOk(s.world, proc) && TicketOf(proc).None?
    ensures Inv(s.(procs := s.procs[pid := proc]))
  {
  }

  lemma RevokeKeeps(s: State, id: string)
    requires Inv(s)
    ensures Inv(Exec(s, Revoke(id)))
  {
    var s' := Exec(s, Revoke(id));
    assert Grows(s.world, s'.world);
    InvokedGrows(s.world, s'.world);
    forall p | p in s'.procs
      ensures ProcOk(s'.world, s'.procs[p])
    {
      ProcGrows(s.world, s'.world, s.procs[p]);
    }
  }

  lemma ExecKeeps(s: State, a: Action)
    requires Inv(s)
    ensures Inv(Exec(s, a))
  {
    match a
    case Execute(pid, grant, key) => RestartKeeps(s, pid, FindGrant(grant, if key == "" then grant.nonce else key));
    case Create(pid, d, retry) =>
      RestartKeeps(s, pid, FindKey(NewAttempt(d.task, d.grant, d.intent, d.key, 1), retry, None));
    case Transition(pid, attempt, to) => RestartKeeps(s, pid, ReadState(attempt, to, Free));
    case Revoke(id) => RevokeKeeps(s, id);
    case Tick(pid, env, now) =>
      if pid in s.procs {
        if env.Fault? { RestartKeeps(s, pid, Idle); } else { TickKeeps(s, pid, env, now); }
      }
  }

  lemma {:induction false} RunKeeps(schedule: seq<Action>)
    ensures Inv(Run(schedule))
  {
    if schedule != [] {
      RunKeeps(schedule[..|schedule| - 1]);
      ExecKeeps(Run(schedule[..|schedule| - 1]), schedule[|schedule| - 1]);
    }
  }

  // ---------------------------------------------------------------------------------------------
  // What every schedule guarantees

  /** The executor runs at most once per grant id, per nonce and per idempotency key. */
  lemma InvokedOnce(schedule: seq<Action>, j: nat, k: nat)
    requires j < k < |Run(schedule).world.invoked|
    ensures var log := Run(schedule).world.invoked;
      log[j].grant.id != log[k].grant.id && log[j].grant.nonce != log[k].grant.nonce && log[j].key != log[k].key
  {
    RunKeeps(schedule);
    var w := Run(schedule).world;
    assert InvokedOk(w, w.invoked[j]) && InvokedOk(w, w.invoked[k]) && Different(w.invoked[j], w.invoked[k]);
  }

  /** The executor runs only under an attempt of its key that has been leased and has entered RUNNING. */
  lemma InvokedRan(schedule: seq<Action>, k: nat)
    requires k < |Run(schedule).world.invoked|
    ensures var w := Run(schedule).world;
      var t := w.invoked[k];
      && t.attempt < |w.rows| && w.rows[t.attempt].key == t.key
      && |w.rows[t.attempt].trail| >= 3 && w.rows[t.attempt].trail[1].Leased? && w.rows[t.attempt].trail[2].Running?
  {
    RunKeeps(schedule);
    var w := Run(schedule).world;
    assert InvokedOk(w, w.invoked[k]);
    assert TrailOk(w.rows[w.invoked[k].attempt]);
    TrailShape(w.rows[w.invoked[k].attempt]);
  }

  /** A grant whose revocation succeeded has no executor run, before or after. */
  lemma RevokedNeverInvoked(schedule: seq<Action>, k: nat)
    requires k < |Run(schedule).world.invoked|
    ensures Run(schedule).world.invoked[k].grant.id !in Run(schedule).world.revoked
  {
    RunKeeps(schedule);
    assert InvokedOk(Run(schedule).world, Run(schedule).world.invoked[k]);
  }

  /** In every interleaving the attempts of a key are numbered from 1 without gaps, all but the last are
      over, and each attempt followed the allowed steps and changed at most three times. */
  lemma AttemptsNumbered(schedule: seq<Action>, i: nat)
    requires i < |Run(schedule).world.rows|
    ensures var rows := Run(schedule).world.rows;
      && (forall n | 1 <= n < rows[i].number :: FinishedAt(rows, rows[i].key, n))
      && (forall k | 0 <= k < |rows| && k != i && rows[k].key == rows[i].key :: rows[k].number != rows[i].number)
      && (!rows[i].state.Terminal() ==>
        forall k | 0 <= k < |rows| && rows[k].key == rows[i].key :: rows[k].number <= rows[i].number)
      && TrailOk(rows[i]) && |rows[i].trail| <= 4
  {
    RunKeeps(schedule);
    var rows := Run(schedule).world.rows;
    forall n | 1 <= n < rows[i].number
      ensures FinishedAt(rows, rows[i].key, n)
    {
      NumbersContiguous(rows, i, n);
    }
    if !rows[i].state.Terminal() {
      forall k | 0 <= k < |rows| && rows[k].key == rows[i].key
        ensures rows[k].number <= rows[i].number
      {
        OpenIsLast(rows, i, k);
      }
    }
    TrailIsShort(rows[i]);
  }
}
