/**
 Crash recovery of execution attempts as a transition system.

 For each attempt there is at most one recovery call at a time, but a call may be cut off after any
 commit and started again. Calls for different attempts, executors that move attempts, and the gate
 interleave freely: the gate makes first attempts of new keys under any grant, the coordinator's own
 retry grants included, and grants may be consumed or revoked at any time.
 */
module RecoveryProtocol {
  import opened Outcomes
  import opened Attempts

  datatype Decision = Unknown | Confirmed | Safe | Quarantined

  datatype Review = Review(id: string, decision: Decision)

  datatype OpState = OpClaimed | OpAuthorized | OpCreated

  datatype Operation = Operation(state: OpState, token: string, lease: Option<int>, retry: Option<nat>)

  const CLAIM_LEASE_SECONDS := 60

  /** The coordinator inserted the row as the retry of the original. */
  datatype Made = Made(original: nat, row: nat)

  /** Reviews and operations are keyed by the attempt they are about; `grants` tells for each registered
      grant whether it is still active; `made` records every insert of the coordinator. */
  datatype World = World(rows: Table, reviews: map<nat, Review>, ops: map<nat, Operation>,
                         grants: map<string, bool>, made: set<Made>)

  datatype Pc =
    | Ended(result: Option<nat>)
    | Begin
    | Inspect
    | OpenReview
    | Resolve
    | Settle(to: AttemptState)
    | SettleWrite(to: AttemptState)
    | Claim
    | AfterClaim(op: Operation, acquired: bool)
    | Reauthorize(token: string)
    | MarkAuthorized(token: string)
    | ReadOriginal
    | AbortOriginal
    | FindRetry
    | FindKey
    | ReadLatest(latest: Option<nat>)
    | InsertRetry(number: nat)
    | MarkCreated(retry: nat)

  /** One call of `retry_if_safe`: its clock readings when it claims and when it records the
      authorization, the ids it would generate, and where it stands. */
  datatype Call = Call(now: int, later: int, reviewId: string, token: string, pc: Pc)

  datatype State = State(world: World, calls: map<nat, Call>)

  /** What the outside answers to one step: the process dies, or the verifier has its verdict and the
      authorizer grants or denies. */
  datatype Env = Fault | Answers(verdict: Option<Decision>, denied: bool)

  datatype Action =
    | Retry(attempt: nat, now: int, later: int, reviewId: string, token: string)
    | Tick(attempt: nat, env: Env)
    | Outside(draft: Attempt)
    | Move(attempt: nat, to: AttemptState, now: int, receipt: string)
    | Spend(grant: string)

  const FRESH := State(World([], map[], map[], map[], {}), map[])

  const FAILED := Ended(None)

  const PREFIX := "retry-grant_"

  function RetryGrant(reviewId: string): string {
    PREFIX + reviewId
  }

  /** The first row with the grant: the table has no index on it, so rows are scanned as inserted. */
  function FindGrant(rows: Table, grant: string): Option<nat> {
    if rows == [] then None
    else
      var before := FindGrant(rows[..|rows| - 1], grant);
      if before.Some? then before else if rows[|rows| - 1].grant == grant then Some(|rows| - 1) else None
  }

  lemma {:induction false} FindGrantFacts(rows: Table, grant: string)
    ensures FindGrant(rows, grant).None? ==> forall i | 0 <= i < |rows| :: rows[i].grant != grant
    ensures FindGrant(rows, grant).Some? ==>
      && FindGrant(rows, grant).value < |rows| && rows[FindGrant(rows, grant).value].grant == grant
      && forall i | 0 <= i < FindGrant(rows, grant).value :: rows[i].grant != grant
  {
    if rows != [] { FindGrantFacts(rows[..|rows| - 1], grant); }
  }

  /** The claim transaction: inserts the operation, or takes over one whose lease is over. */
  function ClaimRow(w: World, a: nat, now: int, token: string): (World, bool) {
    var mine := Operation(OpClaimed, token, Some(now + CLAIM_LEASE_SECONDS), None);
    if a !in w.ops then (w.(ops := w.ops[a := mine]), true)
    else if w.ops[a].state.OpClaimed? && w.ops[a].lease.Some? && w.ops[a].lease.value <= now
    then (w.(ops := w.ops[a := w.ops[a].(token := token, lease := Some(now + CLAIM_LEASE_SECONDS))]), true)
    else (w, false)
  }

  /** The authorized update, which needs the current claim's token and an unexpired lease. */
  function Authorize(w: World, a: nat, now: int, token: string): Option<World> {
    if a !in w.ops then None
    else if w.ops[a].state.OpAuthorized? then Some(w)
    else if w.ops[a].state.OpCreated? || token == "" || w.ops[a].token != token
      || (w.ops[a].lease.Some? && w.ops[a].lease.value <= now) then None
    else Some(w.(ops := w.ops[a := Operation(OpAuthorized, "", None, w.ops[a].retry)]))
  }

  function Create(w: World, a: nat, retry: nat): Option<World> {
    if a !in w.ops then None
    else if w.ops[a].state.OpCreated? then if w.ops[a].retry in {None, Some(retry)} then Some(w) else None
    else if w.ops[a].state.OpAuthorized? then Some(w.(ops := w.ops[a := Operation(OpCreated, "", None, Some(retry))]))
    else None
  }

  function Step(w: World, a: nat, call: Call, env: Env): (r: (World, Pc))
    requires a < |w.rows|
    ensures |w.rows| <= |r.0.rows|
  {
    var row := w.rows[a];
    var grant := if a in w.reviews then RetryGrant(w.reviews[a].id) else "";
    match call.pc
    case Ended(_) => (w, call.pc)
    case Begin =>
      (w, if a !in w.reviews || w.reviews[a].decision.Unknown? then Inspect
          else match w.reviews[a].decision
               case Confirmed => Settle(Recovered)
               case Quarantined => Settle(Aborted)
               case _ => Claim)
    case Inspect => (w, if row.state.Running? && row.receipt == "" then OpenReview else FAILED)
    case OpenReview =>
      if a in w.reviews then (w, if w.reviews[a].decision.Unknown? then Resolve else Begin)
      else if exists b | b in w.reviews :: w.reviews[b].id == call.reviewId then (w, FAILED)
      else (w.(reviews := w.reviews[a := Review(call.reviewId, Unknown)]), Resolve)
    case Resolve =>
      if a in w.reviews && w.reviews[a].decision.Unknown? && env.Answers? && env.verdict.Some?
         && !env.verdict.value.Unknown?
      then (w.(reviews := w.reviews[a := w.reviews[a].(decision := env.verdict.value)]), Begin)
      else (w, FAILED)
    case Settle(to) => (w, if row.state.Running? then SettleWrite(to) else FAILED)
    case SettleWrite(to) =>
      if row.state.Running? then (w.(rows := w.rows[a := Moved(row, to, call.now, "")]), FAILED) else (w, FAILED)
    case Claim =>
      var (w', acquired) := ClaimRow(w, a, call.now, call.token);
      (w', AfterClaim(w'.ops[a], acquired))
    case AfterClaim(op, acquired) =>
      (w, if !op.state.OpClaimed? && op.retry.Some? then Ended(op.retry)
          else if op.state.OpClaimed? && acquired then Reauthorize(op.token)
          else if grant !in w.grants then FAILED
          else if op.state.OpClaimed? then MarkAuthorized(op.token)
          else ReadOriginal)
    case Reauthorize(token) =>
      if env.Fault? || env.denied || grant == row.grant || (grant in w.grants && !w.grants[grant]) then (w, FAILED)
      else (w.(grants := w.grants[grant := true]), MarkAuthorized(token))
    case MarkAuthorized(token) =>
      (match Authorize(w, a, call.later, token)
       case Some(w') => (w', ReadOriginal)
       case None => (w, FAILED))
    case ReadOriginal =>
      (w, if row.state.Running? then AbortOriginal else if row.state.Aborted? then FindRetry else FAILED)
    case AbortOriginal =>
      if row.state.Running? then (w.(rows := w.rows[a := Moved(row, Aborted, call.now, "")]), FindRetry)
      else (w, FAILED)
    case FindRetry =>
      (match FindGrant(w.rows, grant)
       case Some(i) => (w, MarkCreated(i))
       case None => (w, FindKey))
    case FindKey => (w, ReadLatest(Latest(w.rows, row.key)))
    case ReadLatest(latest) =>
      if latest.Some? && latest.value >= |w.rows| then (w, FAILED)
      else
        (match NextNumber(if latest.None? then None else Some(w.rows[latest.value]), true)
         case Ok(number) => (w, InsertRetry(number))
         case Err(_) => (w, FAILED))
    case InsertRetry(number) =>
      if Taken(w.rows, row.key, number) then (w, FAILED)
      else (w.(rows := w.rows + [NewAttempt(row.task, grant, row.intent, row.key, number)],
               made := w.made + {Made(a, |w.rows|)}),
            MarkCreated(|w.rows|))
    case MarkCreated(retry) =>
      (match Create(w, a, retry)
       case Some(w') => (w', Ended(Some(retry)))
       case None => (w, FAILED))
  }

  function Exec(s: State, action: Action): State {
    match action
    case Retry(a, now, later, reviewId, token) =>
      if a >= |s.world.rows| then s
      else s.(calls := s.calls[a := Call(now, later, reviewId, "claim_" + token, Begin)])
    case Tick(a, env) =>
      if a !in s.calls || a >= |s.world.rows| then s
      else if env.Fault? then s.(calls := s.calls[a := s.calls[a].(pc := FAILED)])
      else
        var (w, pc) := Step(s.world, a, s.calls[a], env);
        State(w, s.calls[a := s.calls[a].(pc := pc)])
    case Outside(d) =>
      if Latest(s.world.rows, d.key).Some? then s
      else s.(world := s.world.(rows := s.world.rows + [NewAttempt(d.task, d.grant, d.intent, d.key, 1)]))
    case Move(a, to, now, receipt) =>
      if a < |s.world.rows| && Allowed(s.world.rows[a].state, to)
      then s.(world := s.world.(rows := s.world.rows[a := Moved(s.world.rows[a], to, now, receipt)]))
      else s
    case Spend(grant) =>
      if grant in s.world.grants then s.(world := s.world.(grants := s.world.grants[grant := false])) else s
  }

  function Run(s: State, schedule: seq<Action>): State {
    if schedule == [] then s else Exec(Run(s, schedule[..|schedule| - 1]), schedule[|schedule| - 1])
  }
}
