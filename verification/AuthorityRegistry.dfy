/** The authority state machine and the registry as objects that update their fields and tables. */
module AuthorityRegistry {
  import opened Outcomes
  import opened Authority

  datatype AuthorityError = AgentRequired | NotRegistered | Refused | VersionRequired

  /** One agent's machine: its record and its history change together. */
  class StateMachine {
    const policy: Policy
    var state: Standing
    var trusted: nat
    var failed: nat
    var proof: string
    var history: seq<Transition>

    ghost function View(): Machine
      reads this
    {
      Machine(state, trusted, failed, proof, history)
    }

    constructor (policy: Policy, m: Machine)
      ensures View() == m && this.policy == policy
    {
      this.policy := policy;
      state, trusted, failed, proof, history := m.state, m.trusted, m.failed, m.proof, m.history;
    }

    method ApplyTrust(status: Status, proofId: string) returns (r: Result<Transition, AuthorityError>)
      modifies this
      ensures var after := Changed(policy, old(View()), Trust(status, proofId));
        r.Ok? == after.Some? && View() == if r.Ok? then after.value else old(View())
      ensures r.Ok? ==> history == old(history) + [r.value] && r.value.current == state
    {
      if proofId == "" { return Err(Refused); }
      var previous, reason := state, "";
      match status {
        case Trusted =>
          trusted := trusted + 1;
          var (to, why) := EvaluateTrusted(previous);
          state, reason := to, why;
        case Expired =>
          state, reason := Limited, "attestation_expired";
        case Untrusted =>
          failed := failed + 1;
          state, reason := Limited, "untrusted_outcome";
        case Other =>
          return Err(Refused);
      }
      proof := proofId;
      r := Ok(Transition(previous, state, reason, proofId));
      history := history + [r.value];
    }

    method PromoteElevated(reason: string, proofId: string) returns (r: Result<Transition, AuthorityError>)
      modifies this
      ensures var after := Changed(policy, old(View()), Promote(reason, proofId));
        r.Ok? == after.Some? && View() == if r.Ok? then after.value else old(View())
      ensures r.Ok? ==> history == old(history) + [r.value]
    {
      if reason == "" || state.Suspended? || !CanPromote(policy, trusted, failed) { return Err(Refused); }
      r := Ok(Transition(state, Elevated, reason, proofId));
      state := Elevated;
      if proofId != "" { proof := proofId; }
      history := history + [r.value];
    }

    method Suspend(reason: string) returns (r: Result<Transition, AuthorityError>)
      modifies this
      ensures var after := Changed(policy, old(View()), Authority.Suspend(reason));
        r.Ok? == after.Some? && View() == if r.Ok? then after.value else old(View())
      ensures r.Ok? ==> history == old(history) + [r.value]
    {
      if reason == "" { return Err(Refused); }
      r := Ok(Transition(state, Suspended, reason, ""));
      state := Suspended;
      history := history + [r.value];
    }

    method Reset() returns (transition: Transition)
      modifies this
      ensures forall reason | reason != "" :: Changed(policy, old(View()), Authority.Reset(reason)) == Some(View())
      ensures history == old(history) + [transition]
    {
      transition := Transition(state, Probation, "governance_reset", "");
      state, trusted, failed, proof := Probation, 0, 0, "";
      history := history + [transition];
    }
  }

  datatype Row = Row(version: string, epoch: nat)

  /** The state table and the registry table, saved one after the other by each call. */
  class Registry {
    const policy: Policy
    var states: map<string, Machine>
    var rows: map<string, Row>

    /** Every registered agent has a saved machine. */
    ghost predicate Valid()
      reads this
    {
      rows.Keys <= states.Keys
    }

    ghost function View(): Authority.Registry
      reads this
      requires Valid()
    {
      map a | a in rows :: Agent(states[a], rows[a].version, rows[a].epoch)
    }

    constructor (policy: Policy)
      ensures Valid() && View() == map[] && this.policy == policy
    {
      this.policy := policy;
      states, rows := map[], map[];
    }

    method Register(a: string, version: string) returns (r: Result<Agent, AuthorityError>)
      requires Valid()
      modifies this
      ensures Valid() && View() == Exec(policy, old(View()), Event(a, Authority.Register(version), true))
      ensures r.Ok? <==> a != ""
      ensures r.Ok? ==> a in View() && r.value == View()[a]
    {
      if a == "" { return Err(AgentRequired); }
      if a !in rows {
        states := states[a := NEW];
        rows := rows[a := Row(version, 1)];
      }
      return Ok(Agent(states[a], rows[a].version, rows[a].epoch));
    }

    method Get(a: string) returns (r: Result<Agent, AuthorityError>)
      requires Valid()
      ensures r.Ok? <==> a != "" && a in View()
      ensures r.Ok? ==> r.value == View()[a]
    {
      if a == "" { return Err(AgentRequired); }
      if a !in rows { return Err(NotRegistered); }
      return Ok(Agent(states[a], rows[a].version, rows[a].epoch));
    }

    /** Writes the machine's row and its whole history. */
    method Save(a: string, machine: StateMachine)
      requires Valid() && a in rows
      modifies this
      ensures Valid() && states == old(states)[a := machine.View()] && rows == old(rows)
    {
      states := states[a := Machine(machine.state, machine.trusted, machine.failed, machine.proof, machine.history)];
    }

    method IncrementEpoch(a: string)
      requires Valid() && a in rows
      modifies this
      ensures Valid() && states == old(states)
      ensures rows == old(rows)[a := Row(old(rows)[a].version, old(rows)[a].epoch + 1)]
    {
      rows := rows[a := rows[a].(epoch := rows[a].epoch + 1)];
    }

    method RecordTrust(a: string, status: Status, proof: string) returns (r: Result<Transition, AuthorityError>)
      requires Valid()
      modifies this
      ensures Valid() && View() == Exec(policy, old(View()), Event(a, Change(Trust(status, proof)), true))
      ensures r.Ok? <==> a in old(View()) && Changed(policy, old(View())[a].machine, Trust(status, proof)).Some?
    {
      if a !in rows { return Err(NotRegistered); }
      var machine := new StateMachine(policy, states[a]);
      var previous := machine.state;
      r := machine.ApplyTrust(status, proof);
      if r.Err? { return; }
      assert NeedsEpoch(states[a], machine.View(), Trust(status, proof)) <==> r.value.current != previous;
      Save(a, machine);
      if r.value.current != previous { IncrementEpoch(a); }
    }

    method PromoteElevated(a: string, reason: string, proof: string) returns (r: Result<Transition, AuthorityError>)
      requires Valid()
      modifies this
      ensures Valid() && View() == Exec(policy, old(View()), Event(a, Change(Promote(reason, proof)), true))
      ensures r.Ok? <==> a in old(View()) && Changed(policy, old(View())[a].machine, Promote(reason, proof)).Some?
    {
      if a !in rows { return Err(NotRegistered); }
      var machine := new StateMachine(policy, states[a]);
      r := machine.PromoteElevated(reason, proof);
      if r.Err? { return; }
      Save(a, machine);
      IncrementEpoch(a);
    }

    method Suspend(a: string, reason: string) returns (r: Result<Transition, AuthorityError>)
      requires Valid()
      modifies this
      ensures Valid() && View() == Exec(policy, old(View()), Event(a, Change(Authority.Suspend(reason)), true))
      ensures r.Ok? <==> a in old(View()) && reason != ""
    {
      if a !in rows { return Err(NotRegistered); }
      var machine := new StateMachine(policy, states[a]);
      r := machine.Suspend(reason);
      if r.Err? { return; }
      Save(a, machine);
      IncrementEpoch(a);
    }

    method Reset(a: string, reason: string) returns (r: Result<Transition, AuthorityError>)
      requires Valid()
      modifies this
      ensures Valid() && View() == Exec(policy, old(View()), Event(a, Change(Authority.Reset(reason)), true))
      ensures r.Ok? <==> a in old(View()) && reason != ""
    {
      if reason == "" { return Err(Refused); }
      if a !in rows { return Err(NotRegistered); }
      var machine := new StateMachine(policy, states[a]);
      var transition := machine.Reset();
      Save(a, machine);
      IncrementEpoch(a);
      r := Ok(transition);
    }

    method RotatePolicy(a: string, version: string) returns (r: Result<Agent, AuthorityError>)
      requires Valid()
      modifies this
      ensures Valid() && View() == Exec(policy, old(View()), Event(a, Rotate(version), true))
      ensures r.Ok? <==> a in old(View()) && version != ""
    {
      if version == "" { return Err(VersionRequired); }
      if a !in rows { return Err(NotRegistered); }
      rows := rows[a := Row(version, rows[a].epoch + 1)];
      r := Ok(Agent(states[a], rows[a].version, rows[a].epoch));
    }
  }
}
