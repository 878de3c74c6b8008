/**
 Whole scheduler runs: a plan is issued, its ready tasks are started one by one while others finish,
 and failed tasks are queued again when a retry is allowed.
 */
module SchedulerRuns {
  import opened Outcomes
  import opened TaskGraph
  import opened SchedulePlan

  /** `issued` is what is left to start of the last plan; `moves` counts every change of a status. */
  datatype Sched = Sched(status: Statuses, starts: map<string, nat>, issued: seq<string>, moves: nat)

  datatype Action = Issue | Start(index: nat) | Finish(task: string, outcome: Status) | Requeue(task: string)

  function Initial(g: Graph): Sched {
    Sched(map n | n in g.nodes :: Pending, map n | n in g.nodes :: 0, [], 0)
  }

  function Exec(g: Graph, order: seq<string>, s: Sched, a: Action): Sched {
    match a
    case Issue => s.(issued := Scan(g, s.status, order).ready)
    case Start(k) =>
      if k >= |s.issued| || s.issued[k] !in s.starts then s
      else
        var n := s.issued[k];
        Sched(s.status[n := Running], s.starts[n := s.starts[n] + 1], s.issued[..k] + s.issued[k + 1..], s.moves + 1)
    case Finish(n, outcome) =>
      if n !in s.status || !s.status[n].Running? || outcome.Running? || outcome.Pending? then s
      else s.(status := s.status[n := outcome], moves := s.moves + 1)
    case Requeue(n) =>
      if n in s.status && n in s.starts && RetryAllowed(g, n, s.starts[n], s.status[n]) == Ok(true)
      then s.(status := s.status[n := Pending], moves := s.moves + 1)
      else s
  }

  function Run(g: Graph, order: seq<string>, schedule: seq<Action>): Sched {
    if schedule == [] then Initial(g)
    else Exec(g, order, Run(g, order, schedule[..|schedule| - 1]), schedule[|schedule| - 1])
  }

  // ---------------------------------------------------------------------------------------------
  // Sums over the nodes

  function Sum(f: string -> int, ids: seq<string>): int {
    if ids == [] then 0 else Sum(f, ids[..|ids| - 1]) + f(ids[|ids| - 1])
  }

  /** Two functions that differ at one node. */
  lemma {:induction false} SumUpdate(f: string -> int, h: string -> int, ids: seq<string>, n: string)
    requires Distinct(ids) && forall m | m != n :: f(m) == h(m)
    ensures Sum(h, ids) == Sum(f, ids) + if n in ids then h(n) - f(n) else 0
  {
    if ids != [] {
      var rest := ids[..|ids| - 1];
      SumUpdate(f, h, rest, n);
      assert n in ids <==> n in rest || n == ids[|ids| - 1];
    }
  }

  lemma {:induction false} SumBelow(f: string -> int, h: string -> int, ids: seq<string>)
    requires forall n | n in ids :: f(n) <= h(n)
    ensures Sum(f, ids) <= Sum(h, ids)
  {
    if ids != [] { SumBelow(f, h, ids[..|ids| - 1]); }
  }

  lemma {:induction false} SumScales(f: string -> int, h: string -> int, k: int, ids: seq<string>)
    requires forall n | n in ids :: h(n) == k * f(n)
    ensures Sum(h, ids) == k * Sum(f, ids)
  {
    if ids != [] { SumScales(f, h, k, ids[..|ids| - 1]); }
  }

  function Load(g: Graph, st: Statuses, n: string): int {
    if n in st && st[n].Running? && n in g.nodes then g.nodes[n].units else 0
  }

  lemma {:induction false} RunningUpdate(g: Graph, st: Statuses, ids: seq<string>, n: string, v: Status)
    requires Distinct(ids) && n in g.nodes && n in st
    ensures RunningCount(st[n := v], ids) == RunningCount(st, ids)
      + if n in ids then (if v.Running? then 1 else 0) - (if st[n].Running? then 1 else 0) else 0
    ensures RunningUnits(g, st[n := v], ids) == RunningUnits(g, st, ids)
      + if n in ids then Load(g, st[n := v], n) - Load(g, st, n) else 0
  {
    if ids != [] {
      var rest := ids[..|ids| - 1];
      RunningUpdate(g, st, rest, n, v);
      assert n in ids <==> n in rest || n == ids[|ids| - 1];
    }
  }

  lemma {:induction false} UnitsConcat(g: Graph, a: seq<string>, b: seq<string>)
    ensures UnitsOf(g, a + b) == UnitsOf(g, a) + UnitsOf(g, b)
  {
    if b == [] {
      assert a + b == a;
    } else {
      UnitsConcat(g, a, b[..|b| - 1]);
      assert (a + b)[..|a + b| - 1] == a + b[..|b| - 1];
    }
  }

  lemma UnitsWithout(g: Graph, a: seq<string>, k: nat)
    requires k < |a| && a[k] in g.nodes
    ensures UnitsOf(g, a[..k] + a[k + 1..]) == UnitsOf(g, a) - g.nodes[a[k]].units
  {
    var x, y, one := a[..k], a[k + 1..], [a[k]];
    UnitsConcat(g, x, y);
    UnitsConcat(g, x, one);
    UnitsConcat(g, x + one, y);
    assert a == (x + one) + y;
    UnitsOne(g, a[k]);
  }

  lemma UnitsOne(g: Graph, n: string)
    requires n in g.nodes
    ensures UnitsOf(g, [n]) == g.nodes[n].units
  {
    assert [n][..0] == [];
  }

  // ---------------------------------------------------------------------------------------------
  // The invariant

  /** How many attempts a node has used, given its status. */
  ghost predicate AttemptsOk(g: Graph, s: Sched, n: string)
    requires n in g.nodes
  {
    && n in s.status && n in s.starts
    && s.starts[n] <= g.nodes[n].maxAttempts
    && (s.status[n].Pending? ==> s.starts[n] < g.nodes[n].maxAttempts)
    && (!s.status[n].Pending? ==> s.starts[n] >= 1)
  }

  ghost predicate IssuedOk(g: Graph, st: Statuses, n: string) {
    n in g.nodes && n in st && st[n].Pending? && Satisfied(g, st, n)
  }

  ghost predicate AllAttemptsOk(g: Graph, s: Sched) {
    s.status.Keys == g.nodes.Keys == s.starts.Keys && forall n | n in g.nodes :: AttemptsOk(g, s, n)
  }

  ghost predicate AllIssuedOk(g: Graph, st: Statuses, issued: seq<string>) {
    Distinct(issued) && forall k | 0 <= k < |issued| :: IssuedOk(g, st, issued[k])
  }

  /** What runs and what may still be started from the last plan fit in both budgets together. */
  ghost predicate BudgetOk(g: Graph, st: Statuses, issued: seq<string>) {
    && RunningCount(st, g.ids) + |issued| <= g.maxParallelism
    && RunningUnits(g, st, g.ids) + UnitsOf(g, issued) <= g.maxUnits
  }

  ghost predicate Inv(g: Graph, s: Sched) {
    && Consistent(g, s.status) && AllAttemptsOk(g, s)
    && AllIssuedOk(g, s.status, s.issued) && BudgetOk(g, s.status, s.issued)
  }

  lemma {:induction false} UnitsNonNegative(g: Graph, ids: seq<string>)
    requires Closed(g)
    ensures UnitsOf(g, ids) >= 0
  {
    if ids != [] {
      UnitsNonNegative(g, ids[..|ids| - 1]);
      if ids[|ids| - 1] in g.nodes { assert NodeFits(g, ids[|ids| - 1]); }
    }
  }

  lemma InvPlannable(g: Graph, s: Sched)
    requires WellFormed(g) && Inv(g, s)
    ensures Total(g, s.status) && Plannable(g, s.status)
  {
    UnitsNonNegative(g, s.issued);
  }

  lemma {:induction false} InitialCounts(g: Graph, st: Statuses, ids: seq<string>)
    requires forall n | n in st :: st[n].Pending?
    ensures RunningCount(st, ids) == 0 && RunningUnits(g, st, ids) == 0
  {
    if ids != [] { InitialCounts(g, st, ids[..|ids| - 1]); }
  }

  lemma InitialInv(g: Graph)
    requires WellFormed(g)
    ensures Inv(g, Initial(g))
  {
    InitialCounts(g, Initial(g).status, g.ids);
    assert forall n | n in g.nodes :: NodeFits(g, n) ==> AttemptsOk(g, Initial(g), n);
  }

  lemma IssueKeeps(g: Graph, order: seq<string>, s: Sched)
    requires WellFormed(g) && Topological(g, order) && Inv(g, s)
    ensures Inv(g, Exec(g, order, s, Issue))
  {
    InvPlannable(g, s);
    PlanIssued(g, order, s.status);
    IssueAttempts(g, s, Scan(g, s.status, order).ready);
  }

  /** What a plan calls ready may be started. */
  lemma PlanIssued(g: Graph, order: seq<string>, st: Statuses)
    requires WellFormed(g) && Topological(g, order) && Total(g, st) && Plannable(g, st)
    ensures AllIssuedOk(g, st, Scan(g, st, order).ready) && BudgetOk(g, st, Scan(g, st, order).ready)
  {
    PlanContract(g, order, st);
    var plan := Scan(g, st, order);
    assert forall k | 0 <= k < |plan.ready| :: plan.ready[k] in plan.ready;
  }

  lemma IssueAttempts(g: Graph, s: Sched, issued: seq<string>)
    requires AllAttemptsOk(g, s)
    ensures AllAttemptsOk(g, s.(issued := issued))
  {
    assert forall n | n in g.nodes :: AttemptsOk(g, s, n) ==> AttemptsOk(g, s.(issued := issued), n);
  }

  /** A status that changes to anything but SUCCEEDED's opposite leaves dependents satisfied. */
  lemma SatisfiedKept(g: Graph, st: Statuses, n: string, v: Status, m: string)
    requires m in g.nodes && n in st && !st[n].Succeeded? && Satisfied(g, st, m)
    ensures Satisfied(g, st[n := v], m)
  {
  }

  lemma ConsistentKept(g: Graph, st: Statuses, n: string, v: Status)
    requires n in g.nodes && n in st && !st[n].Succeeded? && Consistent(g, st)
    requires v.Running? || v.Succeeded? ==> Satisfied(g, st, n)
    ensures Consistent(g, st[n := v])
  {
    forall m | m in g.nodes && m in st[n := v] && (st[n := v][m].Running? || st[n := v][m].Succeeded?)
      ensures Satisfied(g, st[n := v], m)
    {
      SatisfiedKept(g, st, n, v, m);
    }
  }

  lemma StartBudget(g: Graph, st: Statuses, issued: seq<string>, k: nat)
    requires WellFormed(g) && k < |issued| && IssuedOk(g, st, issued[k]) && BudgetOk(g, st, issued)
    ensures BudgetOk(g, st[issued[k] := Running], issued[..k] + issued[k + 1..])
  {
    RunningUpdate(g, st, g.ids, issued[k], Running);
    UnitsWithout(g, issued, k);
  }

  lemma StartIssued(g: Graph, st: Statuses, issued: seq<string>, k: nat)
    requires k < |issued| && AllIssuedOk(g, st, issued)
    ensures AllIssuedOk(g, st[issued[k] := Running], issued[..k] + issued[k + 1..])
  {
    var n, rest := issued[k], issued[..k] + issued[k + 1..];
    assert forall j | 0 <= j < |rest| :: rest[j] == issued[if j < k then j else j + 1];
    forall j | 0 <= j < |rest|
      ensures IssuedOk(g, st[n := Running], rest[j])
    {
      var m := issued[if j < k then j else j + 1];
      assert IssuedOk(g, st, m) && IssuedOk(g, st, n);
      SatisfiedKept(g, st, n, Running, m);
    }
  }

  lemma StartAttempts(g: Graph, order: seq<string>, s: Sched, k: nat)
    requires AllAttemptsOk(g, s) && k < |s.issued| && s.issued[k] in g.nodes && s.status[s.issued[k]].Pending?
    ensures AllAttemptsOk(g, Exec(g, order, s, Start(k)))
  {
    forall m | m in g.nodes
      ensures AttemptsOk(g, Exec(g, order, s, Start(k)), m)
    {
      assert AttemptsOk(g, s, m);
    }
  }

  lemma StartKeeps(g: Graph, order: seq<string>, s: Sched, k: nat)
    requires WellFormed(g) && Inv(g, s) && k < |s.issued|
    ensures Inv(g, Exec(g, order, s, Start(k)))
  {
    assert IssuedOk(g, s.status, s.issued[k]);
    ConsistentKept(g, s.status, s.issued[k], Running);
    StartBudget(g, s.status, s.issued, k);
    StartIssued(g, s.status, s.issued, k);
    StartAttempts(g, order, s, k);
  }

  lemma ChangeIssued(g: Graph, st: Statuses, issued: seq<string>, n: string, v: Status)
    requires n in st && !st[n].Pending? && !st[n].Succeeded? && AllIssuedOk(g, st, issued)
    ensures AllIssuedOk(g, st[n := v], issued)
  {
    forall j | 0 <= j < |issued|
      ensures IssuedOk(g, st[n := v], issued[j])
    {
      assert IssuedOk(g, st, issued[j]);
      SatisfiedKept(g, st, n, v, issued[j]);
    }
  }

  lemma ChangeAttempts(g: Graph, s: Sched, n: string, v: Status)
    requires AllAttemptsOk(g, s) && n in g.nodes && !s.status[n].Pending?
    requires v.Pending? ==> s.starts[n] < g.nodes[n].maxAttempts
    ensures AllAttemptsOk(g, s.(status := s.status[n := v], moves := s.moves + 1))
  {
    forall m | m in g.nodes
      ensures AttemptsOk(g, s.(status := s.status[n := v], moves := s.moves + 1), m)
    {
      assert AttemptsOk(g, s, m);
    }
  }

  lemma ChangeBudget(g: Graph, st: Statuses, issued: seq<string>, n: string, v: Status)
    requires WellFormed(g) && n in g.nodes && n in st && !v.Running? && BudgetOk(g, st, issued)
    ensures BudgetOk(g, st[n := v], issued)
  {
    RunningUpdate(g, st, g.ids, n, v);
    assert NodeFits(g, n);
  }

  /** Finishing or queueing a task that is not issued keeps the invariant. */
  lemma ChangeKeeps(g: Graph, s: Sched, n: string, v: Status)
    requires WellFormed(g) && Inv(g, s) && n in g.nodes && !s.status[n].Pending? && !s.status[n].Succeeded?
    requires !v.Running? && (v.Succeeded? ==> s.status[n].Running?)
    requires v.Pending? ==> s.starts[n] < g.nodes[n].maxAttempts
    ensures Inv(g, s.(status := s.status[n := v], moves := s.moves + 1))
  {
    ConsistentKept(g, s.status, n, v);
    ChangeIssued(g, s.status, s.issued, n, v);
    ChangeBudget(g, s.status, s.issued, n, v);
    ChangeAttempts(g, s, n, v);
  }

  lemma ExecKeeps(g: Graph, order: seq<string>, s: Sched, a: Action)
    requires WellFormed(g) && Topological(g, order) && Inv(g, s)
    ensures Inv(g, Exec(g, order, s, a))
  {
    match a
    case Issue => IssueKeeps(g, order, s);
    case Start(k) => if k < |s.issued| { StartKeeps(g, order, s, k); }
    case Finish(n, outcome) => FinishKeeps(g, order, s, n, outcome);
    case Requeue(n) => RequeueKeeps(g, order, s, n);
  }

  lemma FinishKeeps(g: Graph, order: seq<string>, s: Sched, n: string, outcome: Status)
    requires WellFormed(g) && Inv(g, s)
    ensures Inv(g, Exec(g, order, s, Finish(n, outcome)))
  {
    if n in s.status && s.status[n].Running? && !outcome.Running? && !outcome.Pending? {
      ChangeKeeps(g, s, n, outcome);
    }
  }

  lemma RequeueKeeps(g: Graph, order: seq<string>, s: Sched, n: string)
    requires WellFormed(g) && Inv(g, s)
    ensures Inv(g, Exec(g, order, s, Requeue(n)))
  {
    RequeueChanges(g, order, s, n);
    if Exec(g, order, s, Requeue(n)) != s { ChangeKeeps(g, s, n, Pending); }
  }

  /** Queueing again changes nothing, or only the status of a known task that failed and has attempts left. */
  lemma RequeueChanges(g: Graph, order: seq<string>, s: Sched, n: string)
    ensures var s' := Exec(g, order, s, Requeue(n));
      || s' == s
      || (&& s' == s.(status := s.status[n := Pending], moves := s.moves + 1)
          && n in s.status && n in s.starts && n in g.nodes && s.starts[n] < g.nodes[n].maxAttempts
          && !s.status[n].Pending? && !s.status[n].Succeeded?)
  {
    if n in s.status && n in s.starts && RetryAllowed(g, n, s.starts[n], s.status[n]) == Ok(true) {
      RetryMeans(g, n, s.starts[n], s.status[n]);
    }
  }

  /** A retry is only allowed for a known task that failed and has attempts left. */
  lemma RetryMeans(g: Graph, n: string, used: int, last: Status)
    requires RetryAllowed(g, n, used, last) == Ok(true)
    ensures n in g.nodes && used < g.nodes[n].maxAttempts && !last.Pending? && !last.Succeeded? && !last.Running?
  {
  }

  lemma {:induction false} RunInv(g: Graph, order: seq<string>, schedule: seq<Action>)
    requires WellFormed(g) && Topological(g, order)
    ensures Inv(g, Run(g, order, schedule))
  {
    if schedule == [] {
      InitialInv(g);
    } else {
      RunInv(g, order, schedule[..|schedule| - 1]);
      ExecKeeps(g, order, Run(g, order, schedule[..|schedule| - 1]), schedule[|schedule| - 1]);
    }
  }

  // ---------------------------------------------------------------------------------------------
  // What every run guarantees

  /** In every run, the next plan never raises. */
  lemma PlanNeverRaises(g: Graph, order: seq<string>, schedule: seq<Action>)
    requires WellFormed(g) && Topological(g, order)
    ensures Plannable(g, Run(g, order, schedule).status) && Total(g, Run(g, order, schedule).status)
  {
    RunInv(g, order, schedule);
    InvPlannable(g, Run(g, order, schedule));
  }

  /** A task that failed, timed out or ended incomplete, and has been started fewer times than it may be. */
  predicate Retryable(g: Graph, s: Sched, n: string) {
    && n in g.nodes && n in s.status && (s.status[n].Failed? || s.status[n].TimedOut? || s.status[n].Incomplete?)
    && n in s.starts && s.starts[n] < g.nodes[n].maxAttempts
  }

  /** In every run, queueing a task again makes it pending exactly if it is retryable, and changes nothing else. */
  lemma RequeueExactly(g: Graph, order: seq<string>, schedule: seq<Action>, n: string)
    requires WellFormed(g) && Topological(g, order)
    ensures var s := Run(g, order, schedule);
      Exec(g, order, s, Requeue(n)) ==
      if Retryable(g, s, n) then s.(status := s.status[n := Pending], moves := s.moves + 1) else s
  {
    RunInv(g, order, schedule);
    var s := Run(g, order, schedule);
    if n in g.nodes { assert AttemptsOk(g, s, n); }
  }

  function LimitOf(g: Graph, n: string): int {
    if n in g.nodes then g.nodes[n].maxAttempts else 0
  }

  function StartsOf(s: Sched, n: string): int {
    if n in s.starts then s.starts[n] else 0
  }

  function Limit(g: Graph): string -> int {
    n => LimitOf(g, n)
  }

  function Started(s: Sched): string -> int {
    n => StartsOf(s, n)
  }

  /** In every run, the number of starts never exceeds the sum of the attempt limits. */
  lemma StartsBounded(g: Graph, order: seq<string>, schedule: seq<Action>)
    requires WellFormed(g) && Topological(g, order)
    ensures Sum(Started(Run(g, order, schedule)), g.ids) <= Sum(Limit(g), g.ids)
  {
    RunInv(g, order, schedule);
    var s := Run(g, order, schedule);
    assert forall n | n in g.nodes :: AttemptsOk(g, s, n);
    SumBelow(Started(s), Limit(g), g.ids);
  }

  function Unfinished(status: Status): int {
    match status
    case Running => 2
    case Failed => 1
    case TimedOut => 1
    case Incomplete => 1
    case _ => 0
  }

  /** What is left to do for one node: three moves per unused attempt, and those of the current one. */
  function DebtOf(g: Graph, s: Sched, n: string): int {
    3 * (LimitOf(g, n) - StartsOf(s, n)) + if n in s.status then Unfinished(s.status[n]) else 0
  }

  function Debt(g: Graph, s: Sched): string -> int {
    n => DebtOf(g, s, n)
  }

  /** A change at one node that lowers its debt lowers the sum. */
  lemma DebtShrinks(g: Graph, s: Sched, s': Sched, n: string)
    requires Distinct(g.ids) && n in g.ids
    requires forall m | m != n :: DebtOf(g, s, m) == DebtOf(g, s', m)
    requires DebtOf(g, s', n) < DebtOf(g, s, n)
    ensures Sum(Debt(g, s'), g.ids) < Sum(Debt(g, s), g.ids)
  {
    SumUpdate(Debt(g, s), Debt(g, s'), g.ids, n);
  }

  lemma StartPays(g: Graph, order: seq<string>, s: Sched, k: nat)
    requires Distinct(g.ids) && k < |s.issued| && s.issued[k] in g.ids && s.issued[k] in s.starts
    requires s.issued[k] in s.status && s.status[s.issued[k]].Pending?
    ensures Sum(Debt(g, Exec(g, order, s, Start(k))), g.ids) < Sum(Debt(g, s), g.ids)
  {
    DebtShrinks(g, s, Exec(g, order, s, Start(k)), s.issued[k]);
  }

  lemma ChangePays(g: Graph, s: Sched, n: string, v: Status, s': Sched)
    requires Distinct(g.ids) && n in g.ids && n in s.status && Unfinished(v) < Unfinished(s.status[n])
    requires s' == s.(status := s.status[n := v], moves := s.moves + 1)
    ensures Sum(Debt(g, s'), g.ids) < Sum(Debt(g, s), g.ids)
  {
    DebtShrinks(g, s, s', n);
  }

  /** Every move pays off some debt. */
  lemma MovePays(g: Graph, order: seq<string>, s: Sched, a: Action)
    requires Distinct(g.ids) && (forall n | n in g.nodes :: n in g.ids)
    requires s.status.Keys == g.nodes.Keys && AllIssuedOk(g, s.status, s.issued)
    ensures var s' := Exec(g, order, s, a);
      s'.moves + Sum(Debt(g, s'), g.ids) <= s.moves + Sum(Debt(g, s), g.ids)
  {
    var s' := Exec(g, order, s, a);
    match a
    case Issue =>
      assert forall n :: DebtOf(g, s', n) == DebtOf(g, s, n);
      SumBelow(Debt(g, s'), Debt(g, s), g.ids);
    case Start(k) =>
      if s' != s {
        assert IssuedOk(g, s.status, s.issued[k]);
        StartPays(g, order, s, k);
      }
    case Finish(n, v) => if s' != s { ChangePays(g, s, n, v, s'); }
    case Requeue(n) => if s' != s { ChangePays(g, s, n, Pending, s'); }
  }

  lemma {:induction false} MovesPaid(g: Graph, order: seq<string>, schedule: seq<Action>)
    requires WellFormed(g) && Topological(g, order)
    ensures Run(g, order, schedule).moves + Sum(Debt(g, Run(g, order, schedule)), g.ids) <= 3 * Sum(Limit(g), g.ids)
  {
    if schedule == [] {
      SumScales(Limit(g), Debt(g, Initial(g)), 3, g.ids);
    } else {
      var rest := schedule[..|schedule| - 1];
      RunInv(g, order, rest);
      MovesPaid(g, order, rest);
      MovePays(g, order, Run(g, order, rest), schedule[|schedule| - 1]);
    }
  }

  lemma {:induction false} SumNonNegative(f: string -> int, ids: seq<string>)
    requires forall n | n in ids :: f(n) >= 0
    ensures Sum(f, ids) >= 0
  {
    if ids != [] { SumNonNegative(f, ids[..|ids| - 1]); }
  }

  lemma DebtNonNegative(g: Graph, s: Sched)
    requires AllAttemptsOk(g, s) && forall n | n in g.ids :: n in g.nodes
    ensures Sum(Debt(g, s), g.ids) >= 0
  {
    forall n | n in g.ids
      ensures DebtOf(g, s, n) >= 0
    {
      assert AttemptsOk(g, s, n);
    }
    SumNonNegative(Debt(g, s), g.ids);
  }

  /** No run makes more than three status changes per allowed attempt. */
  lemma MovesBounded(g: Graph, order: seq<string>, schedule: seq<Action>)
    requires WellFormed(g) && Topological(g, order)
    ensures Run(g, order, schedule).moves <= 3 * Sum(Limit(g), g.ids)
  {
    MovesPaid(g, order, schedule);
    RunInv(g, order, schedule);
    DebtNonNegative(g, Run(g, order, schedule));
  }

  /** A run only stops with everything decided: when nothing runs and the plan admits nothing, every
      task is terminal or blocked, and the blocked ones are those with a failed transitive dependency. */
  lemma StuckMeansDone(g: Graph, order: seq<string>, schedule: seq<Action>, n: string)
    requires WellFormed(g) && Topological(g, order) && n in g.nodes
    requires RunningCount(Run(g, order, schedule).status, g.ids) == 0
    requires Scan(g, Run(g, order, schedule).status, order).ready == []
    ensures Total(g, Run(g, order, schedule).status)
    ensures var st := Run(g, order, schedule).status;
      || st[n].Succeeded? || st[n].Failure()
      || (n in Scan(g, st, order).blocked && Doomed(g, st, n))
  {
    PlanNeverRaises(g, order, schedule);
    var st := Run(g, order, schedule).status;
    PlanContract(g, order, st);
    NoneRunning(g, st, g.ids);
  }
}
