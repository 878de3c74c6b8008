/** An agent's dynamic authority: its state machine, its epochs, and the grants that epochs invalidate. */
module Authority {
  import opened Outcomes

  // ---------------------------------------------------------------------------------------------
  // One agent's state machine

  datatype Standing = Probation | Limited | Standard | Elevated | Suspended

  datatype Policy = Policy(minTrusted: int, maxFailed: int, governance: bool) {
    predicate Valid() { minTrusted >= 1 && maxFailed >= 0 }
  }

  const DEFAULT := Policy(3, 0, true)

  datatype Transition = Transition(previous: Standing, current: Standing, reason: string, proof: string)

  datatype Machine = Machine(state: Standing, trusted: nat, failed: nat, proof: string, history: seq<Transition>)

  const NEW := Machine(Probation, 0, 0, "", [])

  datatype Status = Trusted | Expired | Untrusted | Other

  datatype Change =
    | Trust(status: Status, proof: string)
    | Promote(reason: string, proof: string)
    | Suspend(reason: string)
    | Reset(reason: string)

  function EvaluateTrusted(current: Standing): (Standing, string) {
    match current
    case Suspended => (Suspended, "suspended_requires_governance_reset")
    case Elevated => (Elevated, "elevated_authority_requires_governance_change")
    case _ => (Standard, "trusted_attested_outcome")
  }

  predicate CanPromote(policy: Policy, trusted: nat, failed: nat) {
    policy.governance && trusted >= policy.minTrusted && failed <= policy.maxFailed
  }

  function Moved(m: Machine, to: Standing, reason: string, proof: string): Machine {
    m.(state := to, history := m.history + [Transition(m.state, to, reason, proof)])
  }

  /** The machine after a change, or `None` when the change is refused. */
  function Changed(policy: Policy, m: Machine, change: Change): Option<Machine> {
    match change
    case Trust(status, proof) =>
      if proof == "" || status.Other? then None
      else if status.Trusted? then
        var (to, reason) := EvaluateTrusted(m.state);
        Some(Moved(m, to, reason, proof).(trusted := m.trusted + 1, proof := proof))
      else if status.Expired? then Some(Moved(m, Limited, "attestation_expired", proof).(proof := proof))
      else Some(Moved(m, Limited, "untrusted_outcome", proof).(failed := m.failed + 1, proof := proof))
    case Promote(reason, proof) =>
      if reason == "" || m.state.Suspended? || !CanPromote(policy, m.trusted, m.failed) then None
      else Some(Moved(m, Elevated, reason, proof).(proof := if proof != "" then proof else m.proof))
    case Suspend(reason) => if reason == "" then None else Some(Moved(m, Suspended, reason, ""))
    case Reset(reason) =>
      if reason == "" then None
      else Some(Moved(m, Probation, "governance_reset", "").(trusted := 0, failed := 0, proof := ""))
  }

  // ---------------------------------------------------------------------------------------------
  // The registry

  datatype Agent = Agent(machine: Machine, version: string, epoch: nat)

  type Registry = map<string, Agent>

  datatype Action =
    | Register(version: string)
    | Change(change: Change)
    | Rotate(version: string)

  /** A call about an agent. A call that is cut off has saved the machine but not the new epoch. */
  datatype Event = Event(agent: string, action: Action, complete: bool)

  /** Whether a change calls for a new epoch: trust outcomes only when they move the state, governance always. */
  predicate NeedsEpoch(before: Machine, after: Machine, change: Change) {
    !change.Trust? || after.state != before.state
  }

  function Exec(policy: Policy, s: Registry, e: Event): Registry {
    match e.action
    case Register(version) =>
      if e.agent == "" || e.agent in s || !e.complete then s else s[e.agent := Agent(NEW, version, 1)]
    case Rotate(version) =>
      if e.agent !in s || version == "" || !e.complete then s
      else s[e.agent := s[e.agent].(version := version, epoch := s[e.agent].epoch + 1)]
    case Change(change) =>
      if e.agent !in s then s
      else
        var was := s[e.agent];
        match Changed(policy, was.machine, change)
        case None => s
        case Some(m) =>
          var moves := e.complete && NeedsEpoch(was.machine, m, change);
          s[e.agent := was.(machine := m, epoch := was.epoch + if moves then 1 else 0)]
  }

  function Run(policy: Policy, events: seq<Event>): Registry {
    if events == [] then map[] else Exec(policy, Run(policy, events[..|events| - 1]), events[|events| - 1])
  }

  function After(policy: Policy, events: seq<Event>, i: nat): Registry
    requires i <= |events|
  {
    Run(policy, events[..i])
  }

  lemma AfterNext(policy: Policy, events: seq<Event>, i: nat)
    requires i < |events|
    ensures After(policy, events, i + 1) == Exec(policy, After(policy, events, i), events[i])
  {
    assert events[..i + 1][..i] == events[..i];
  }

  // ---------------------------------------------------------------------------------------------
  // Epochs

  /** The authority that a grant is issued under. */
  predicate SameAuthority(x: Agent, y: Agent) {
    x.machine.state == y.machine.state && x.version == y.version
  }

  /** The event moves the agent's epoch. */
  predicate Bumps(policy: Policy, s: Registry, e: Event, a: string)
    requires a in s
  {
    && e.agent == a && e.complete
    && match e.action
       case Register(_) => false
       case Rotate(version) => version != ""
       case Change(change) =>
         var m := Changed(policy, s[a].machine, change); m.Some? && NeedsEpoch(s[a].machine, m.value, change)
  }

  /** The event is a call cut off between saving a different state and moving the epoch. */
  predicate LosesEpoch(policy: Policy, s: Registry, e: Event, a: string)
    requires a in s
  {
    && e.agent == a && !e.complete && e.action.Change?
    && var m := Changed(policy, s[a].machine, e.action.change); m.Some? && m.value.state != s[a].machine.state
  }

  /** One event, seen from one registered agent. */
  lemma OneEvent(policy: Policy, s: Registry, e: Event, a: string)
    requires a in s
    ensures var s' := Exec(policy, s, e);
      && a in s'
      && s'[a].epoch == s[a].epoch + (if Bumps(policy, s, e, a) then 1 else 0)
      && (!Bumps(policy, s, e, a) ==> (SameAuthority(s[a], s'[a]) <==> !LosesEpoch(policy, s, e, a)))
  {
  }

  /** A registered agent stays registered and its epoch never falls; while the epoch stands, no event moves it. */
  lemma {:induction false} EpochGrows(policy: Policy, events: seq<Event>, a: string, i: nat, j: nat)
    requires i <= j <= |events| && a in After(policy, events, i)
    ensures a in After(policy, events, j)
    ensures After(policy, events, i)[a].epoch <= After(policy, events, j)[a].epoch
    decreases j - i
  {
    if i < j {
      EpochGrows(policy, events, a, i, j - 1);
      EpochNext(policy, events, a, j - 1);
    }
  }

  /** No event from `i` to `j` moves the agent's epoch. */
  ghost predicate Quiet(policy: Policy, events: seq<Event>, a: string, i: nat, j: nat) {
    i <= j <= |events| && forall t | i <= t < j :: QuietAt(policy, events, a, t)
  }

  ghost predicate QuietAt(policy: Policy, events: seq<Event>, a: string, t: nat)
    requires t < |events|
  {
    a in After(policy, events, t) && !Bumps(policy, After(policy, events, t), events[t], a)
  }

  lemma EpochNext(policy: Policy, events: seq<Event>, a: string, j: nat)
    requires j < |events| && a in After(policy, events, j)
    ensures a in After(policy, events, j + 1)
    ensures After(policy, events, j + 1)[a].epoch ==
      After(policy, events, j)[a].epoch + if Bumps(policy, After(policy, events, j), events[j], a) then 1 else 0
  {
    AfterNext(policy, events, j);
    OneEvent(policy, After(policy, events, j), events[j], a);
  }

  lemma QuietNext(policy: Policy, events: seq<Event>, a: string, i: nat, j: nat)
    requires i <= j < |events| && a in After(policy, events, j)
    ensures Quiet(policy, events, a, i, j + 1) <==> Quiet(policy, events, a, i, j) && QuietAt(policy, events, a, j)
  {
  }

  lemma {:induction false} EqualEpochIffQuiet(policy: Policy, events: seq<Event>, a: string, i: nat, j: nat)
    requires i <= j <= |events| && a in After(policy, events, i)
    ensures a in After(policy, events, j)
    ensures After(policy, events, i)[a].epoch == After(policy, events, j)[a].epoch <==> Quiet(policy, events, a, i, j)
    decreases j - i
  {
    if i < j {
      EqualEpochIffQuiet(policy, events, a, i, j - 1);
      EpochGrows(policy, events, a, i, j - 1);
      QuietNext(policy, events, a, i, j - 1);
      EpochNext(policy, events, a, j - 1);
    }
  }

  /** No call about the agent is cut off between saving a different state and moving the epoch. */
  ghost predicate NothingLost(policy: Policy, events: seq<Event>, a: string) {
    forall t | 0 <= t < |events| ::
      var s := After(policy, events, t); a in s ==> !LosesEpoch(policy, s, events[t], a)
  }

  /** Equal epochs at two points mean the same authority at both and at every point between. */
  ghost predicate EpochsTell(policy: Policy, events: seq<Event>, a: string) {
    forall i, j | 0 <= i <= j <= |events| && a in After(policy, events, i) && a in After(policy, events, j)
      && After(policy, events, i)[a].epoch == After(policy, events, j)[a].epoch ::
      SameAuthority(After(policy, events, i)[a], After(policy, events, j)[a])
  }

  lemma {:induction false} QuietKeepsAuthority(policy: Policy, events: seq<Event>, a: string, i: nat, j: nat)
    requires Quiet(policy, events, a, i, j) && a in After(policy, events, i)
    requires NothingLost(policy, events, a)
    ensures a in After(policy, events, j) && SameAuthority(After(policy, events, i)[a], After(policy, events, j)[a])
    decreases j - i
  {
    if i < j {
      assert Quiet(policy, events, a, i, j - 1);
      QuietKeepsAuthority(policy, events, a, i, j - 1);
      var s := After(policy, events, j - 1);
      assert QuietAt(policy, events, a, j - 1);
      AfterNext(policy, events, j - 1);
      OneEvent(policy, s, events[j - 1], a);
    }
  }

  /** Epochs tell the authority apart exactly in the runs in which no epoch is lost. */
  lemma EpochsTellIff(policy: Policy, events: seq<Event>, a: string)
    ensures EpochsTell(policy, events, a) <==> NothingLost(policy, events, a)
  {
    if NothingLost(policy, events, a) {
      forall i, j | 0 <= i <= j <= |events| && a in After(policy, events, i) && a in After(policy, events, j)
        && After(policy, events, i)[a].epoch == After(policy, events, j)[a].epoch
        ensures SameAuthority(After(policy, events, i)[a], After(policy, events, j)[a])
      {
        EqualEpochIffQuiet(policy, events, a, i, j);
        QuietKeepsAuthority(policy, events, a, i, j);
      }
    } else {
      var t :| 0 <= t < |events| && a in After(policy, events, t)
        && LosesEpoch(policy, After(policy, events, t), events[t], a);
      AfterNext(policy, events, t);
      OneEvent(policy, After(policy, events, t), events[t], a);
      assert !SameAuthority(After(policy, events, t)[a], After(policy, events, t + 1)[a]);
    }
  }

  // ---------------------------------------------------------------------------------------------
  // Grants

  datatype Grant = Grant(agent: string, epoch: nat, state: Standing, version: string)

  /** The grant that fits an agent's current authority. */
  function Issue(s: Registry, a: string): Grant
    requires a in s
  {
    Grant(a, s[a].epoch, s[a].machine.state, s[a].version)
  }

  /** The gate's authority check; the gate itself runs under one policy version. */
  predicate Accepts(s: Registry, grant: Grant, version: string) {
    && grant.version == version && grant.agent in s
    && grant.epoch == s[grant.agent].epoch && grant.state == s[grant.agent].machine.state
    && grant.version == s[grant.agent].version
  }

  /**
   A grant issued at one point is accepted at a later one exactly when no event in between moved the epoch and the
   authority is the same, so after any completed governance call, rotation or change of state it is refused for
   good. If no epoch is lost, an accepted grant has seen the same authority throughout.
   */
  lemma GrantDiesWithChange(policy: Policy, events: seq<Event>, a: string, i: nat, j: nat)
    requires i <= j <= |events| && a in After(policy, events, i)
    ensures a in After(policy, events, j)
    ensures var s := After(policy, events, i);
      Accepts(After(policy, events, j), Issue(s, a), s[a].version) <==>
      Quiet(policy, events, a, i, j) && SameAuthority(s[a], After(policy, events, j)[a])
    ensures Quiet(policy, events, a, i, j) && NothingLost(policy, events, a) ==>
      forall k | i <= k <= j ::
        a in After(policy, events, k) && SameAuthority(After(policy, events, i)[a], After(policy, events, k)[a])
  {
    EqualEpochIffQuiet(policy, events, a, i, j);
    if Quiet(policy, events, a, i, j) && NothingLost(policy, events, a) {
      forall k | i <= k <= j
        ensures a in After(policy, events, k) && SameAuthority(After(policy, events, i)[a], After(policy, events, k)[a])
      {
        assert Quiet(policy, events, a, i, k);
        QuietKeepsAuthority(policy, events, a, i, k);
      }
    }
  }

  /** Two cut-off calls can bring back the state a grant was issued under, and the grant with it. */
  lemma LostEpochsReviveGrant(a: string, proof: string)
    requires a != "" && proof != ""
    ensures var events := [
        Event(a, Register("v"), true),
        Event(a, Change(Trust(Trusted, proof)), true),
        Event(a, Change(Trust(Expired, proof)), false),
        Event(a, Change(Trust(Trusted, proof)), false)];
      && a in After(DEFAULT, events, 2) && a in After(DEFAULT, events, 3)
      && After(DEFAULT, events, 3)[a].machine.state != After(DEFAULT, events, 2)[a].machine.state
      && Accepts(After(DEFAULT, events, 4), Issue(After(DEFAULT, events, 2), a), "v")
  {
    var events := [
      Event(a, Register("v"), true),
      Event(a, Change(Trust(Trusted, proof)), true),
      Event(a, Change(Trust(Expired, proof)), false),
      Event(a, Change(Trust(Trusted, proof)), false)];
    AfterNext(DEFAULT, events, 0);
    AfterNext(DEFAULT, events, 1);
    AfterNext(DEFAULT, events, 2);
    AfterNext(DEFAULT, events, 3);
  }

  /** How many events since its registration moved the agent's epoch. */
  function Bumped(policy: Policy, events: seq<Event>, a: string): nat {
    if events == [] then 0
    else
      var before := events[..|events| - 1];
      var s := Run(policy, before);
      Bumped(policy, before, a) + if a in s && Bumps(policy, s, events[|events| - 1], a) then 1 else 0
  }

  /** The policy version of the last rotation, or of the registration. */
  function LatestVersion(policy: Policy, events: seq<Event>, a: string): string {
    if events == [] then ""
    else
      var before, e := events[..|events| - 1], events[|events| - 1];
      var s := Run(policy, before);
      if e.agent != a || !e.complete then LatestVersion(policy, before, a)
      else match e.action
           case Register(version) => if a in s || a == "" then LatestVersion(policy, before, a) else version
           case Rotate(version) => if a in s && version != "" then version else LatestVersion(policy, before, a)
           case Change(_) => LatestVersion(policy, before, a)
  }

  lemma {:induction false} UnregisteredUntouched(policy: Policy, events: seq<Event>, a: string)
    requires a !in Run(policy, events)
    ensures Bumped(policy, events, a) == 0
  {
    if events != [] {
      var before := events[..|events| - 1];
      if a in Run(policy, before) { OneEvent(policy, Run(policy, before), events[|events| - 1], a); }
      UnregisteredUntouched(policy, before, a);
    }
  }

  /** In every run the epoch is 1 more than the number of events that moved it, and the policy version is the one that
      was set last. */
  lemma {:induction false} EpochCounts(policy: Policy, events: seq<Event>, a: string)
    requires a in Run(policy, events)
    ensures Run(policy, events)[a].epoch == 1 + Bumped(policy, events, a)
    ensures Run(policy, events)[a].version == LatestVersion(policy, events, a)
  {
    var before, e := events[..|events| - 1], events[|events| - 1];
    if a in Run(policy, before) {
      EpochCounts(policy, before, a);
      OneEvent(policy, Run(policy, before), e, a);
    } else {
      UnregisteredUntouched(policy, before, a);
    }
  }

  // ---------------------------------------------------------------------------------------------
  // Which event put an agent where it is

  predicate IsTrust(e: Event, a: string, status: Status) {
    && e.agent == a && e.action.Change? && e.action.change.Trust? && e.action.change.status == status
    && e.action.change.proof != ""
  }

  /** The event puts the agent in the standing. */
  predicate Puts(policy: Policy, s: Registry, e: Event, a: string, to: Standing) {
    match to
    case Probation => IsReset(e, a) || (a !in s && a != "" && e.agent == a && e.action.Register? && e.complete)
    case Standard => a in s && IsTrust(e, a, Trusted) && s[a].machine.state in {Probation, Limited, Standard}
    case Limited => IsTrust(e, a, Expired) || IsTrust(e, a, Untrusted)
    case Elevated => a in s && Promotes(policy, s, e, a)
    case Suspended => e.agent == a && e.action.Change? && e.action.change.Suspend? && e.action.change.reason != ""
  }

  /** The event puts the agent in another standing. */
  predicate PutsElsewhere(policy: Policy, s: Registry, e: Event, a: string, to: Standing) {
    || (!to.Probation? && Puts(policy, s, e, a, Probation)) || (!to.Limited? && Puts(policy, s, e, a, Limited))
    || (!to.Standard? && Puts(policy, s, e, a, Standard)) || (!to.Elevated? && Puts(policy, s, e, a, Elevated))
    || (!to.Suspended? && Puts(policy, s, e, a, Suspended))
  }

  /** One event puts a registered agent in a standing or leaves it in its own. */
  lemma OnePuts(policy: Policy, s: Registry, e: Event, a: string, to: Standing)
    requires a in s
    ensures var s' := Exec(policy, s, e);
      && a in s'
      && (s'[a].machine.state == to <==>
            Puts(policy, s, e, a, to) || (s[a].machine.state == to && !PutsElsewhere(policy, s, e, a, to)))
      && !(Puts(policy, s, e, a, to) && PutsElsewhere(policy, s, e, a, to))
  {
    if e.agent == a && e.action.Change? && Changed(policy, s[a].machine, e.action.change).Some? {
      ChangePuts(policy, s[a].machine, e.action.change, to);
    }
  }

  /** Where a change takes the state, seen from the machine. */
  lemma ChangePuts(policy: Policy, m: Machine, change: Change, to: Standing)
    requires Changed(policy, m, change).Some?
    ensures Changed(policy, m, change).value.state == to <==>
      match change
      case Trust(status, _) =>
        if !status.Trusted? then to.Limited?
        else to == if m.state.Suspended? || m.state.Elevated? then m.state else Standard
      case Promote(_, _) => to.Elevated?
      case Suspend(_) => to.Suspended?
      case Reset(_) => to.Probation?
  {
  }

  /** The event that registers an agent puts it in probation. */
  lemma FirstPuts(policy: Policy, s: Registry, e: Event, a: string)
    requires a !in s && a in Exec(policy, s, e)
    ensures Puts(policy, s, e, a, Probation) && Exec(policy, s, e)[a].machine.state.Probation?
    ensures !PutsElsewhere(policy, s, e, a, Probation)
  {
  }

  /** Event `t` put the agent in the standing, and no later one puts it elsewhere. */
  ghost predicate LastPut(policy: Policy, events: seq<Event>, a: string, to: Standing, t: nat) {
    && t < |events| && PutsAt(policy, events, a, to, t)
    && forall u | t < u < |events| :: StaysAt(policy, events, a, to, u)
  }

  /** Event `t` puts the agent, registered with it at the latest, in the standing. */
  ghost predicate PutsAt(policy: Policy, events: seq<Event>, a: string, to: Standing, t: nat)
    requires t < |events|
  {
    Puts(policy, After(policy, events, t), events[t], a, to) && a in Exec(policy, After(policy, events, t), events[t])
  }

  ghost predicate StaysAt(policy: Policy, events: seq<Event>, a: string, to: Standing, u: nat)
    requires u < |events|
  {
    !PutsElsewhere(policy, After(policy, events, u), events[u], a, to)
  }

  lemma SamePrefix(policy: Policy, events: seq<Event>, a: string, to: Standing, u: nat)
    requires u < |events| - 1
    ensures PutsAt(policy, events[..|events| - 1], a, to, u) <==> PutsAt(policy, events, a, to, u)
    ensures StaysAt(policy, events[..|events| - 1], a, to, u) <==> StaysAt(policy, events, a, to, u)
  {
    assert events[..|events| - 1][..u] == events[..u];
  }

  /** What the last event does to the last put. */
  lemma LastPutNext(policy: Policy, events: seq<Event>, a: string, to: Standing, t: nat)
    requires events != []
    ensures var n := |events| - 1;
      LastPut(policy, events, a, to, t) <==>
      || (t == n && PutsAt(policy, events, a, to, n))
      || (LastPut(policy, events[..n], a, to, t) && StaysAt(policy, events, a, to, n))
  {
    var n := |events| - 1;
    forall u | 0 <= u < n
      ensures PutsAt(policy, events[..n], a, to, u) <==> PutsAt(policy, events, a, to, u)
      ensures StaysAt(policy, events[..n], a, to, u) <==> StaysAt(policy, events, a, to, u)
    {
      SamePrefix(policy, events, a, to, u);
    }
  }

  /** An agent that was put anywhere is registered. */
  lemma PutIsRegistered(policy: Policy, events: seq<Event>, a: string, to: Standing, t: nat)
    requires LastPut(policy, events, a, to, t)
    ensures a in Run(policy, events)
  {
    AfterNext(policy, events, t);
    EpochGrows(policy, events, a, t + 1, |events|);
    assert events[..|events|] == events;
  }

  /**
   After any run, an agent is STANDARD exactly if its last move was a trusted outcome in PROBATION, LIMITED or STANDARD;
   LIMITED exactly if it was an expired or untrusted outcome; PROBATION exactly if it was its registration or a reset;
   ELEVATED exactly if it was an allowed promotion; and SUSPENDED exactly if it was a suspension.
   */
  lemma {:induction false} StandingLaw(policy: Policy, events: seq<Event>, a: string, to: Standing)
    requires a in Run(policy, events)
    ensures Run(policy, events)[a].machine.state == to <==> exists t :: LastPut(policy, events, a, to, t)
  {
    var n, before := |events| - 1, events[..|events| - 1];
    var s, e := Run(policy, before), events[n];
    assert After(policy, events, n) == s;
    forall t
      ensures LastPut(policy, events, a, to, t) <==>
        || (t == n && PutsAt(policy, events, a, to, n))
        || (LastPut(policy, before, a, to, t) && StaysAt(policy, events, a, to, n))
    {
      LastPutNext(policy, events, a, to, t);
    }
    if a in s {
      StandingLaw(policy, before, a, to);
      OnePuts(policy, s, e, a, to);
      if t: nat :| LastPut(policy, before, a, to, t) { assert s[a].machine.state == to; }
    } else {
      FirstPuts(policy, s, e, a);
      if t: nat :| LastPut(policy, before, a, to, t) { PutIsRegistered(policy, before, a, to, t); }
    }
    if PutsAt(policy, events, a, to, n) { assert LastPut(policy, events, a, to, n); }
  }

  // ---------------------------------------------------------------------------------------------
  // Suspension

  /** The event takes a suspended agent out of suspension: a reset, or an expired or untrusted outcome. */
  predicate EndsSuspension(e: Event, a: string) {
    && e.agent == a && e.action.Change?
    && match e.action.change
       case Trust(status, proof) => proof != "" && (status.Expired? || status.Untrusted?)
       case Reset(reason) => reason != ""
       case _ => false
  }

  predicate IsSuspended(s: Registry, a: string) {
    a in s && s[a].machine.state.Suspended?
  }

  /** From `i` to `j` a suspended agent stays suspended, and then leaves by the next event exactly if that event
      ends suspension: trusted outcomes and promotions never do. */
  lemma {:induction false} SuspensionHolds(policy: Policy, events: seq<Event>, a: string, i: nat, j: nat)
    requires i <= j < |events| && IsSuspended(After(policy, events, i), a)
    requires forall t | i <= t < j :: !EndsSuspension(events[t], a)
    ensures IsSuspended(After(policy, events, j), a)
    ensures IsSuspended(After(policy, events, j + 1), a) <==> !EndsSuspension(events[j], a)
    decreases j - i
  {
    if i < j { SuspensionHolds(policy, events, a, i, j - 1); }
    AfterNext(policy, events, j);
  }

  /** The event is a promotion that the agent's record allows. */
  predicate Promotes(policy: Policy, s: Registry, e: Event, a: string)
    requires a in s
  {
    && e.agent == a && e.action.Change? && e.action.change.Promote? && e.action.change.reason != ""
    && !s[a].machine.state.Suspended? && policy.governance
    && s[a].machine.trusted >= policy.minTrusted && s[a].machine.failed <= policy.maxFailed
  }

  /** Only governance elevates: an agent that is elevated after an event was so before, or was promoted by it. */
  lemma OnlyGovernanceElevates(policy: Policy, events: seq<Event>, a: string, j: nat)
    requires j < |events| && a in After(policy, events, j) && !After(policy, events, j)[a].machine.state.Elevated?
    ensures a in After(policy, events, j + 1)
    ensures After(policy, events, j + 1)[a].machine.state.Elevated? <==>
      Promotes(policy, After(policy, events, j), events[j], a)
  {
    AfterNext(policy, events, j);
  }

  // ---------------------------------------------------------------------------------------------
  // Elevation

  /** How many outcomes of one kind were recorded for the agent since its last reset. */
  function SinceReset(policy: Policy, events: seq<Event>, a: string, status: Status): nat {
    if events == [] then 0
    else
      var before, e := events[..|events| - 1], events[|events| - 1];
      if a !in Run(policy, before) || e.agent != a || !e.action.Change? then SinceReset(policy, before, a, status)
      else match e.action.change
           case Trust(st, proof) => SinceReset(policy, before, a, status) + if st == status && proof != "" then 1 else 0
           case Reset(reason) => if reason == "" then SinceReset(policy, before, a, status) else 0
           case _ => SinceReset(policy, before, a, status)
  }

  /** The proof on record: that of the last outcome, or of a promotion that names one, since the last reset. */
  function LatestProof(policy: Policy, events: seq<Event>, a: string): string {
    if events == [] then ""
    else
      var before, e := events[..|events| - 1], events[|events| - 1];
      var earlier := LatestProof(policy, before, a);
      if a !in Run(policy, before) || e.agent != a || !e.action.Change? then earlier
      else match e.action.change
           case Trust(status, proof) => if status.Other? || proof == "" then earlier else proof
           case Promote(_, proof) =>
             if proof == "" || !Promotes(policy, Run(policy, before), e, a) then earlier else proof
           case Reset(reason) => if reason == "" then earlier else ""
           case Suspend(_) => earlier
  }

  lemma {:induction false} UnregisteredHasNoProof(policy: Policy, events: seq<Event>, a: string)
    requires a !in Run(policy, events)
    ensures LatestProof(policy, events, a) == ""
  {
    if events != [] {
      var before := events[..|events| - 1];
      if a in Run(policy, before) { OneEvent(policy, Run(policy, before), events[|events| - 1], a); }
      UnregisteredHasNoProof(policy, before, a);
    }
  }

  /** In every run the record shows the latest proof. */
  lemma {:induction false} ProofIsLatest(policy: Policy, events: seq<Event>, a: string)
    requires a in Run(policy, events)
    ensures Run(policy, events)[a].machine.proof == LatestProof(policy, events, a)
  {
    var before := events[..|events| - 1];
    if a in Run(policy, before) {
      ProofIsLatest(policy, before, a);
    } else {
      UnregisteredHasNoProof(policy, before, a);
    }
  }

  /** Why a change was made, as the history tells it. */
  function ReasonFor(m: Machine, change: Change): string {
    match change
    case Trust(status, _) =>
      if status.Untrusted? then "untrusted_outcome"
      else if status.Expired? then "attestation_expired"
      else if m.state.Suspended? then "suspended_requires_governance_reset"
      else if m.state.Elevated? then "elevated_authority_requires_governance_change"
      else "trusted_attested_outcome"
    case Promote(reason, _) => reason
    case Suspend(reason) => reason
    case Reset(_) => "governance_reset"
  }

  /** A change adds one transition to the history: from the old state to the new, with its reason and proof. */
  lemma HistoryTells(policy: Policy, m: Machine, change: Change)
    requires Changed(policy, m, change).Some?
    ensures var m' := Changed(policy, m, change).value;
      var proof := if change.Trust? || change.Promote? then change.proof else "";
      m'.history == m.history + [Transition(m.state, m'.state, ReasonFor(m, change), proof)]
  {
  }

  lemma {:induction false} UnregisteredCountsNothing(policy: Policy, events: seq<Event>, a: string, status: Status)
    requires a !in Run(policy, events)
    ensures SinceReset(policy, events, a, status) == 0
  {
    if events != [] {
      var before := events[..|events| - 1];
      if a in Run(policy, before) { OneEvent(policy, Run(policy, before), events[|events| - 1], a); }
      UnregisteredCountsNothing(policy, before, a, status);
    }
  }

  /** The transitions on record lead from probation to the current state without a gap. */
  ghost predicate Linked(m: Machine) {
    && (forall k | 0 < k < |m.history| :: m.history[k].previous == m.history[k - 1].current)
    && (m.history == [] ==> m.state.Probation?)
    && (m.history != [] ==> m.history[0].previous.Probation? && m.history[|m.history| - 1].current == m.state)
  }

  ghost predicate MachineOk(policy: Policy, m: Machine) {
    Linked(m) && (m.state.Elevated? ==> CanPromote(policy, m.trusted, m.failed))
  }

  lemma MoveKeepsLinks(m: Machine, to: Standing, reason: string, proof: string)
    requires Linked(m)
    ensures Linked(Moved(m, to, reason, proof))
  {
  }

  lemma ChangeKeeps(policy: Policy, m: Machine, change: Change)
    requires MachineOk(policy, m) && Changed(policy, m, change).Some?
    ensures MachineOk(policy, Changed(policy, m, change).value)
  {
    var step := Changed(policy, m, change).value.history[|m.history|];
    MoveKeepsLinks(m, step.current, step.reason, step.proof);
  }

  lemma EventKeeps(policy: Policy, s: Registry, e: Event, a: string)
    requires a in s && MachineOk(policy, s[a].machine)
    ensures a in Exec(policy, s, e) && MachineOk(policy, Exec(policy, s, e)[a].machine)
  {
    if e.agent == a && e.action.Change? && Changed(policy, s[a].machine, e.action.change).Some? {
      ChangeKeeps(policy, s[a].machine, e.action.change);
    }
  }

  /** The record's counters and the counts since the last reset move together. */
  lemma CountsFollow(policy: Policy, events: seq<Event>, a: string)
    requires events != [] && a in Run(policy, events[..|events| - 1])
    ensures var before := events[..|events| - 1];
      var m, m' := Run(policy, before)[a].machine, Run(policy, events)[a].machine;
      && (m.trusted == SinceReset(policy, before, a, Trusted) ==> m'.trusted == SinceReset(policy, events, a, Trusted))
      && (m.failed == SinceReset(policy, before, a, Untrusted) ==>
        m'.failed == SinceReset(policy, events, a, Untrusted))
  {
    OneEvent(policy, Run(policy, events[..|events| - 1]), events[|events| - 1], a);
  }

  /** In every run, cut-off calls included, the record counts the outcomes since the last reset, the history
      is linked, and an elevated agent meets the thresholds. */
  lemma {:induction false} RunKeeps(policy: Policy, events: seq<Event>, a: string)
    requires a in Run(policy, events)
    ensures var m := Run(policy, events)[a].machine;
      && MachineOk(policy, m) && m.trusted == SinceReset(policy, events, a, Trusted)
      && m.failed == SinceReset(policy, events, a, Untrusted)
  {
    var before, e := events[..|events| - 1], events[|events| - 1];
    if a in Run(policy, before) {
      RunKeeps(policy, before, a);
      EventKeeps(policy, Run(policy, before), e, a);
      CountsFollow(policy, events, a);
    } else {
      UnregisteredCountsNothing(policy, before, a, Trusted);
      UnregisteredCountsNothing(policy, before, a, Untrusted);
    }
  }

  /** An elevated agent has had its trusted outcomes, and no more untrusted ones than allowed, since its last
      reset; under the default thresholds none at all. */
  lemma ElevatedMeansClean(policy: Policy, events: seq<Event>, a: string)
    requires a in Run(policy, events) && Run(policy, events)[a].machine.state.Elevated?
    ensures policy.governance && SinceReset(policy, events, a, Trusted) >= policy.minTrusted
    ensures SinceReset(policy, events, a, Untrusted) <= policy.maxFailed
    ensures policy == DEFAULT ==> SinceReset(policy, events, a, Untrusted) == 0
  {
    RunKeeps(policy, events, a);
  }

  /** The event is a reset of the agent that takes effect. */
  predicate IsReset(e: Event, a: string) {
    e.agent == a && e.action.Change? && e.action.change.Reset? && e.action.change.reason != ""
  }

  predicate IsUntrusted(e: Event, a: string) {
    && e.agent == a && e.action.Change? && e.action.change.Trust? && e.action.change.status.Untrusted?
    && e.action.change.proof != ""
  }

  lemma {:induction false} FailuresStay(policy: Policy, events: seq<Event>, a: string, t: nat, n: nat)
    requires t < n <= |events| && a in After(policy, events, t) && IsUntrusted(events[t], a)
    requires forall k | t < k < n :: !IsReset(events[k], a)
    ensures SinceReset(policy, events[..n], a, Untrusted) >= 1
    decreases n
  {
    assert events[..n][..n - 1] == events[..n - 1];
    if t < n - 1 {
      FailuresStay(policy, events, a, t, n - 1);
    }
  }

  /** Under the default thresholds, an agent is never elevated after an untrusted outcome until it is reset. */
  lemma NoElevationAfterFailure(events: seq<Event>, a: string, t: nat)
    requires t < |events| && a in After(DEFAULT, events, t) && IsUntrusted(events[t], a)
    requires forall k | t < k < |events| :: !IsReset(events[k], a)
    ensures a in Run(DEFAULT, events) && !Run(DEFAULT, events)[a].machine.state.Elevated?
  {
    assert events[..|events|] == events;
    EpochGrows(DEFAULT, events, a, t, |events|);
    FailuresStay(DEFAULT, events, a, t, |events|);
    if Run(DEFAULT, events)[a].machine.state.Elevated? { ElevatedMeansClean(DEFAULT, events, a); }
  }
}
