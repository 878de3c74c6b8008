/** One scheduling decision: which pending tasks are blocked, which may start, which wait. */
module SchedulePlan {
  import opened Outcomes
  import opened TaskGraph

  datatype Status = Pending | Running | Succeeded | Failed | TimedOut | Incomplete | Blocked {
    predicate Failure() { Failed? || TimedOut? || Incomplete? || Blocked? }
  }

  /** A status for every node; missing ones are PENDING. */
  type Statuses = map<string, Status>

  function Normalize(g: Graph, given: Statuses): Statuses {
    map n | n in g.nodes :: if n in given then given[n] else Pending
  }

  /** What the caller means by its statuses: one for every task, and PENDING where it gave none. */
  ghost predicate Completes(g: Graph, given: Statuses, st: Statuses) {
    && st.Keys == g.nodes.Keys
    && forall n | n in g.nodes :: if n in given then st[n] == given[n] else st[n].Pending?
  }

  lemma NormalizeCompletes(g: Graph, given: Statuses)
    ensures Completes(g, given, Normalize(g, given))
    ensures forall st | Completes(g, given, st) :: st == Normalize(g, given)
  {
    forall st | Completes(g, given, st)
      ensures st == Normalize(g, given)
    {
      assert forall n | n in g.nodes :: st[n] == Normalize(g, given)[n];
    }
  }

  ghost predicate Total(g: Graph, st: Statuses) {
    (forall n | n in g.nodes :: n in st) && Closed(g)
  }

  predicate Satisfied(g: Graph, st: Statuses, n: string)
    requires n in g.nodes
  {
    forall d | d in g.Deps(n) :: d in st && st[d].Succeeded?
  }

  /** A task runs or succeeded only after all its dependencies succeeded. */
  predicate Consistent(g: Graph, st: Statuses) {
    forall n | n in g.nodes && n in st && (st[n].Running? || st[n].Succeeded?) :: Satisfied(g, st, n)
  }

  function RunningCount(st: Statuses, ids: seq<string>): nat {
    if ids == [] then 0
    else RunningCount(st, ids[..|ids| - 1]) + if ids[|ids| - 1] in st && st[ids[|ids| - 1]].Running? then 1 else 0
  }

  function RunningUnits(g: Graph, st: Statuses, ids: seq<string>): int {
    if ids == [] then 0
    else
      var n := ids[|ids| - 1];
      RunningUnits(g, st, ids[..|ids| - 1]) + if n in st && st[n].Running? && n in g.nodes then g.nodes[n].units else 0
  }

  function UnitsOf(g: Graph, ids: seq<string>): int {
    if ids == [] then 0
    else UnitsOf(g, ids[..|ids| - 1]) + if ids[|ids| - 1] in g.nodes then g.nodes[ids[|ids| - 1]].units else 0
  }

  /** `plan` does not raise. */
  predicate Plannable(g: Graph, st: Statuses) {
    && Consistent(g, st)
    && RunningCount(st, g.ids) <= g.maxParallelism
    && RunningUnits(g, st, g.ids) <= g.maxUnits
  }

  /** The three lists and what is left of the two budgets. */
  datatype Plan = Plan(ready: seq<string>, blocked: seq<string>, waiting: seq<string>, freeSlots: int, freeUnits: int)

  predicate Hopeless(g: Graph, st: Statuses, plan: Plan, n: string)
    requires n in g.nodes
  {
    exists d | d in g.Deps(n) :: (d in st && st[d].Failure()) || d in plan.blocked
  }

  /** Classifies one node, given the classification of the nodes before it. */
  function Place(g: Graph, st: Statuses, plan: Plan, n: string): Plan {
    if n !in g.nodes || n !in st || !st[n].Pending? then plan
    else if Hopeless(g, st, plan, n) then plan.(blocked := plan.blocked + [n])
    else if Satisfied(g, st, n) && plan.freeSlots > 0 && g.nodes[n].units <= plan.freeUnits then
      plan.(ready := plan.ready + [n], freeSlots := plan.freeSlots - 1, freeUnits := plan.freeUnits - g.nodes[n].units)
    else plan.(waiting := plan.waiting + [n])
  }

  /** One pass over the order. */
  function Scan(g: Graph, st: Statuses, order: seq<string>): Plan {
    if order == [] then
      Plan([], [], [], g.maxParallelism - RunningCount(st, g.ids), g.maxUnits - RunningUnits(g, st, g.ids))
    else Place(g, st, Scan(g, st, order[..|order| - 1]), order[|order| - 1])
  }

  method CountRunning(g: Graph, st: Statuses) returns (count: nat, units: int)
    requires WellFormed(g) && forall n | n in g.nodes :: n in st
    ensures count == RunningCount(st, g.ids) && units == RunningUnits(g, st, g.ids)
  {
    count, units := 0, 0;
    for i := 0 to |g.ids|
      invariant count == RunningCount(st, g.ids[..i]) && units == RunningUnits(g, st, g.ids[..i])
    {
      var n := g.ids[i];
      assert n in g.nodes && g.ids[..i + 1][..i] == g.ids[..i];
      if st[n].Running? { count, units := count + 1, units + g.nodes[n].units; }
    }
    assert g.ids[..|g.ids|] == g.ids;
  }

  method Classify(g: Graph, st: Statuses, order: seq<string>, freeSlots: int, freeUnits: int) returns (plan: Plan)
    requires Closed(g) && (forall n | n in g.nodes :: n in st) && forall n | n in order :: n in g.nodes
    requires freeSlots == g.maxParallelism - RunningCount(st, g.ids)
    requires freeUnits == g.maxUnits - RunningUnits(g, st, g.ids)
    ensures plan == Scan(g, st, order)
  {
    plan := Plan([], [], [], freeSlots, freeUnits);
    for i := 0 to |order|
      invariant plan == Scan(g, st, order[..i])
    {
      var n := order[i];
      assert order[..i + 1][..i] == order[..i];
      assert NodeFits(g, n);
      if st[n] != Pending { continue; }
      if exists d | d in g.Deps(n) :: st[d].Failure() || d in plan.blocked {
        plan := plan.(blocked := plan.blocked + [n]);
      } else if exists d | d in g.Deps(n) :: !st[d].Succeeded? {
        plan := plan.(waiting := plan.waiting + [n]);
      } else if plan.freeSlots > 0 && g.nodes[n].units <= plan.freeUnits {
        plan := plan.(ready := plan.ready + [n], freeSlots := plan.freeSlots - 1,
                      freeUnits := plan.freeUnits - g.nodes[n].units);
      } else {
        plan := plan.(waiting := plan.waiting + [n]);
      }
    }
    assert order[..|order|] == order;
  }

  /** The decision for the given statuses, or the check that failed: the plan is about exactly the tasks that are
      pending or have no status, and without any statuses some task is ready. */
  method MakePlan(g: Graph, order: seq<string>, given: Statuses) returns (r: Result<Plan, GraphError>)
    requires WellFormed(g) && Topological(g, order)
    ensures forall st | Completes(g, given, st) ::
      && (r.Ok? <==> given.Keys <= g.nodes.Keys && Plannable(g, st))
      && (r.Ok? ==> r.value == Scan(g, st, order))
    ensures r.Ok? ==> forall n :: n in r.value.ready || n in r.value.blocked || n in r.value.waiting <==>
      n in g.nodes && (n in given ==> given[n].Pending?)
    ensures given == map[] ==> r.Ok? && r.value.ready != [] && r.value.blocked == []
  {
    NormalizeCompletes(g, given);
    if given == map[] { FirstPlan(g, order); }
    if exists n | n in given :: n !in g.nodes { return Err(UnknownTask); }
    var st := Normalize(g, given);
    if exists n | n in g.nodes :: (st[n].Running? || st[n].Succeeded?) && !Satisfied(g, st, n) {
      return Err(Inconsistent);
    }
    var count, units := CountRunning(g, st);
    if count > g.maxParallelism { return Err(TooManyRunning); }
    if units > g.maxUnits { return Err(TooManyUnits); }
    OrderListed(g, order);
    var plan := Classify(g, st, order, g.maxParallelism - count, g.maxUnits - units);
    PlanContract(g, order, st);
    r := Ok(plan);
  }

  lemma OrderListed(g: Graph, order: seq<string>)
    requires Ordered(g, order)
    ensures forall n | n in order :: n in g.nodes
  {
    forall n | n in order
      ensures n in g.nodes
    {
      var i :| 0 <= i < |order| && order[i] == n;
      assert AfterDeps(g, order, i);
    }
  }

  // ---------------------------------------------------------------------------------------------
  // What a plan says

  ghost predicate Listed(g: Graph, st: Statuses, order: seq<string>) {
    Total(g, st) && forall n | n in order :: n in g.nodes && n in st
  }

  /** The three lists split the pending nodes of the order. */
  ghost predicate Splits(st: Statuses, order: seq<string>, plan: Plan) {
    && Distinct(plan.ready) && Distinct(plan.blocked) && Distinct(plan.waiting)
    && (forall n :: n in plan.ready || n in plan.blocked || n in plan.waiting <==>
      n in order && n in st && st[n].Pending?)
    && (forall n | n in plan.ready :: n !in plan.blocked && n !in plan.waiting)
    && (forall n | n in plan.blocked :: n !in plan.waiting)
  }

  lemma {:induction false} ScanSplits(g: Graph, st: Statuses, order: seq<string>)
    requires Listed(g, st, order) && Distinct(order)
    ensures Splits(st, order, Scan(g, st, order))
  {
    if order == [] {
    } else {
      var rest, n := order[..|order| - 1], order[|order| - 1];
      ScanSplits(g, st, rest);
      assert n !in rest;
      assert forall m :: m in order <==> m in rest || m == n;
      PlaceSplits(g, st, rest, Scan(g, st, rest), n);
    }
  }

  lemma PlaceSplits(g: Graph, st: Statuses, rest: seq<string>, plan: Plan, n: string)
    requires Splits(st, rest, plan) && n !in rest && n in g.nodes && n in st
    ensures Splits(st, rest + [n], Place(g, st, plan, n))
  {
    var next := Place(g, st, plan, n);
    if st[n].Pending? {
      assert n !in plan.ready && n !in plan.blocked && n !in plan.waiting;
    }
    assert forall m :: m in rest + [n] <==> m in rest || m == n;
  }

  /** Running and admitted tasks together stay within both budgets, and admitted tasks may start. */
  ghost predicate WithinBudget(g: Graph, st: Statuses, plan: Plan) {
    && plan.freeSlots >= 0 && plan.freeUnits >= 0
    && plan.freeSlots == g.maxParallelism - RunningCount(st, g.ids) - |plan.ready|
    && plan.freeUnits == g.maxUnits - RunningUnits(g, st, g.ids) - UnitsOf(g, plan.ready)
    && forall n | n in plan.ready :: n in g.nodes && Satisfied(g, st, n)
  }

  lemma {:induction false} ScanWithinBudget(g: Graph, st: Statuses, order: seq<string>)
    requires Listed(g, st, order) && Plannable(g, st)
    ensures WithinBudget(g, st, Scan(g, st, order))
  {
    if order == [] {
    } else {
      var plan := Scan(g, st, order[..|order| - 1]);
      ScanWithinBudget(g, st, order[..|order| - 1]);
      var n := order[|order| - 1];
      assert (plan.ready + [n])[..|plan.ready|] == plan.ready;
    }
  }

  /** No waiting task whose dependencies succeeded fits in what is left. */
  ghost predicate Saturated(g: Graph, st: Statuses, plan: Plan) {
    forall n | n in plan.waiting && n in g.nodes && Satisfied(g, st, n) ::
      plan.freeSlots <= 0 || g.nodes[n].units > plan.freeUnits
  }

  lemma {:induction false} ScanSaturates(g: Graph, st: Statuses, order: seq<string>)
    requires Listed(g, st, order)
    ensures Saturated(g, st, Scan(g, st, order))
  {
    if order == [] {
    } else {
      var n := order[|order| - 1];
      ScanSaturates(g, st, order[..|order| - 1]);
      assert NodeFits(g, n);
    }
  }

  /** A path of dependencies from the node to a task that failed. */
  ghost predicate DoomPath(g: Graph, st: Statuses, n: string, p: seq<string>) {
    IsPath(g, p) && |p| >= 2 && p[0] == n && p[|p| - 1] in st && st[p[|p| - 1]].Failure()
  }

  /** Some direct or transitive dependency failed. */
  ghost predicate Doomed(g: Graph, st: Statuses, n: string) {
    exists p :: DoomPath(g, st, n, p)
  }

  /** Beyond a task that runs or succeeded, everything succeeded. */
  lemma {:induction false} SuccessBelow(g: Graph, st: Statuses, p: seq<string>)
    requires Total(g, st) && Consistent(g, st) && IsPath(g, p) && |p| >= 2
    requires p[0] in st && (st[p[0]].Running? || st[p[0]].Succeeded?)
    ensures st[p[|p| - 1]].Succeeded?
    decreases |p|
  {
    assert Edge(g, p, 0) && Satisfied(g, st, p[0]);
    if |p| > 2 {
      PathTail(g, p, 1);
      SuccessBelow(g, st, p[1..]);
    }
  }

  lemma {:induction false} PathStart(g: Graph, n: string, d: string, p: seq<string>)
    requires n in g.nodes && d in g.Deps(n) && IsPath(g, p) && p[0] == d
    ensures IsPath(g, [n] + p)
  {
    var q := [n] + p;
    forall i | 0 <= i < |q| - 1
      ensures Edge(g, q, i)
    {
      if i > 0 { assert Edge(g, p, i - 1); }
    }
  }

  lemma FailedDependencyDooms(g: Graph, st: Statuses, n: string, d: string)
    requires Total(g, st) && n in g.nodes && d in g.Deps(n) && st[d].Failure()
    ensures Doomed(g, st, n)
  {
    PathStart(g, n, d, [d]);
    assert DoomPath(g, st, n, [n] + [d]);
  }

  lemma DoomedDependencyDooms(g: Graph, st: Statuses, n: string, d: string)
    requires n in g.nodes && d in g.Deps(n) && Doomed(g, st, d)
    ensures Doomed(g, st, n)
  {
    var p :| DoomPath(g, st, d, p);
    PathStart(g, n, d, p);
    assert DoomPath(g, st, n, [n] + p);
  }

  /** A doomed node has a dependency that failed, or that is pending and doomed itself. */
  lemma DoomComesFrom(g: Graph, st: Statuses, n: string) returns (d: string)
    requires Total(g, st) && Consistent(g, st) && n in g.nodes && Doomed(g, st, n)
    ensures d in g.Deps(n) && d in st && (st[d].Failure() || (st[d].Pending? && Doomed(g, st, d)))
  {
    var p :| DoomPath(g, st, n, p);
    assert Edge(g, p, 0) && NodeFits(g, n);
    d := p[1];
    if |p| > 2 && !st[d].Failure() {
      PathTail(g, p, 1);
      if st[d].Pending? {
        assert DoomPath(g, st, d, p[1..]);
      } else {
        SuccessBelow(g, st, p[1..]);
      }
    }
  }

  /** A node is hopeless, judged by the nodes before it, exactly when it is doomed. */
  lemma HopelessIsDoomed(g: Graph, st: Statuses, plan: Plan, n: string)
    requires Total(g, st) && Consistent(g, st) && n in g.nodes
    requires forall d | d in g.Deps(n) && d in st && st[d].Pending? :: d in plan.blocked <==> Doomed(g, st, d)
    requires forall d | d in plan.blocked :: d in st && st[d].Pending?
    ensures Hopeless(g, st, plan, n) <==> Doomed(g, st, n)
  {
    if Hopeless(g, st, plan, n) {
      var d :| d in g.Deps(n) && ((d in st && st[d].Failure()) || d in plan.blocked);
      if d in plan.blocked {
        DoomedDependencyDooms(g, st, n, d);
      } else {
        FailedDependencyDooms(g, st, n, d);
      }
    }
    if Doomed(g, st, n) {
      var d := DoomComesFrom(g, st, n);
    }
  }

  /** One pass over the topological order blocks exactly the doomed pending nodes. */
  lemma {:induction false} ScanBlocksDoomed(g: Graph, st: Statuses, order: seq<string>, n: string)
    requires Listed(g, st, order) && Consistent(g, st) && Ordered(g, order) && n in order && st[n].Pending?
    ensures n in Scan(g, st, order).blocked <==> Doomed(g, st, n)
    decreases |order|
  {
    var rest, last := order[..|order| - 1], order[|order| - 1];
    OrderedPrefix(g, order);
    ScanSplits(g, st, rest);
    if n != last {
      assert n in rest;
      ScanBlocksDoomed(g, st, rest, n);
    } else {
      var plan := Scan(g, st, rest);
      assert AfterDeps(g, order, |order| - 1) && NodeFits(g, n);
      forall d | d in g.Deps(n) && d in st && st[d].Pending?
        ensures d in plan.blocked <==> Doomed(g, st, d)
      {
        ScanBlocksDoomed(g, st, rest, d);
      }
      assert n !in rest;
      HopelessIsDoomed(g, st, plan, n);
    }
  }

  lemma OrderedPrefix(g: Graph, order: seq<string>)
    requires Ordered(g, order) && order != []
    ensures Ordered(g, order[..|order| - 1])
  {
    var rest := order[..|order| - 1];
    forall i | 0 <= i < |rest|
      ensures AfterDeps(g, rest, i)
    {
      assert AfterDeps(g, order, i);
      assert rest[..i] == order[..i];
    }
  }

  /** With nothing running and nothing admitted, nothing waits. */
  lemma {:induction false} NothingWaits(g: Graph, st: Statuses, order: seq<string>)
    requires WellFormed(g) && Listed(g, st, order) && Ordered(g, order)
    requires RunningCount(st, g.ids) == 0 && RunningUnits(g, st, g.ids) == 0
    requires forall n | n in g.nodes :: !st[n].Running?
    requires Scan(g, st, order).ready == []
    ensures Scan(g, st, order).waiting == []
    ensures Scan(g, st, order).freeSlots == g.maxParallelism && Scan(g, st, order).freeUnits == g.maxUnits
  {
    if order == [] {
    } else {
      var rest, n := order[..|order| - 1], order[|order| - 1];
      var plan := Scan(g, st, rest);
      OrderedPrefix(g, order);
      NothingWaits(g, st, rest);
      ScanSplits(g, st, rest);
      assert NodeFits(g, n) && AfterDeps(g, order, |order| - 1);
      if st[n].Pending? && !Hopeless(g, st, plan, n) {
        forall d | d in g.Deps(n)
          ensures d in st && st[d].Succeeded?
        {
          assert d in rest && d in g.nodes;
          assert d !in plan.blocked && !st[d].Failure();
        }
        assert Satisfied(g, st, n);
      }
    }
  }

  lemma {:induction false} NoneRunning(g: Graph, st: Statuses, ids: seq<string>)
    requires RunningCount(st, ids) == 0
    ensures RunningUnits(g, st, ids) == 0 && forall n | n in ids && n in st :: !st[n].Running?
  {
    if ids != [] { NoneRunning(g, st, ids[..|ids| - 1]); }
  }

  /** The whole contract of a plan: it splits the pending nodes, blocks exactly the doomed ones, admits
      within both budgets, leaves nothing admissible waiting, and never lets everything wait. */
  lemma PlanContract(g: Graph, order: seq<string>, st: Statuses)
    requires WellFormed(g) && Topological(g, order) && Total(g, st) && Plannable(g, st)
    ensures Listed(g, st, order)
    ensures var plan := Scan(g, st, order);
      && Splits(st, order, plan)
      && (forall n | n in g.nodes && st[n].Pending? :: n in plan.blocked <==> Doomed(g, st, n))
      && WithinBudget(g, st, plan)
      && Saturated(g, st, plan)
      && (plan.waiting != [] ==> RunningCount(st, g.ids) > 0 || plan.ready != [])
  {
    OrderListed(g, order);
    var plan := Scan(g, st, order);
    ScanSplits(g, st, order);
    ScanWithinBudget(g, st, order);
    ScanSaturates(g, st, order);
    forall n | n in g.nodes && st[n].Pending?
      ensures n in plan.blocked <==> Doomed(g, st, n)
    {
      ScanBlocksDoomed(g, st, order, n);
    }
    if RunningCount(st, g.ids) == 0 && plan.ready == [] {
      NoneRunning(g, st, g.ids);
      NothingWaits(g, st, order);
    }
  }

  // ---------------------------------------------------------------------------------------------
  // Order and priority

  /** The list is what is left of the order when some nodes are taken out. */
  predicate Subsequence(list: seq<string>, order: seq<string>)
    decreases |order|
  {
    if order == [] then list == []
    else
      var rest, n := order[..|order| - 1], order[|order| - 1];
      || Subsequence(list, rest)
      || (list != [] && list[|list| - 1] == n && Subsequence(list[..|list| - 1], rest))
  }

  lemma SubsequenceMore(list: seq<string>, order: seq<string>)
    requires order != [] && Subsequence(list, order[..|order| - 1])
    ensures Subsequence(list, order) && Subsequence(list + [order[|order| - 1]], order)
  {
    var longer := list + [order[|order| - 1]];
    assert longer[..|longer| - 1] == list;
  }

  /** All three lists keep the stored order. */
  lemma {:induction false} PlanInOrder(g: Graph, st: Statuses, order: seq<string>)
    ensures var plan := Scan(g, st, order);
      Subsequence(plan.ready, order) && Subsequence(plan.blocked, order) && Subsequence(plan.waiting, order)
  {
    if order != [] {
      var rest := order[..|order| - 1];
      var plan := Scan(g, st, rest);
      PlanInOrder(g, st, rest);
      SubsequenceMore(plan.ready, order);
      SubsequenceMore(plan.blocked, order);
      SubsequenceMore(plan.waiting, order);
    }
  }

  /** What the scan has decided it does not take back. */
  lemma {:induction false} ScanGrows(g: Graph, st: Statuses, order: seq<string>, k: nat)
    requires k <= |order|
    ensures Scan(g, st, order[..k]).ready <= Scan(g, st, order).ready
    decreases |order|
  {
    if k < |order| {
      assert order[..|order| - 1][..k] == order[..k];
      ScanGrows(g, st, order[..|order| - 1], k);
    } else {
      assert order[..k] == order;
    }
  }

  /** First come, first served: a pending task is ready exactly if its dependencies succeeded and it fits with what runs
      and with the tasks before it in the stored order that are ready, which are the first of the ready list. */
  lemma FirstFit(g: Graph, st: Statuses, order: seq<string>, k: nat)
    requires Listed(g, st, order) && Distinct(order) && k < |order| && st[order[k]].Pending?
    ensures var n, ready := order[k], Scan(g, st, order).ready;
      var earlier := Scan(g, st, order[..k]).ready;
      && earlier <= ready && (forall m | m in earlier :: m in order[..k])
      && (n in ready <==>
            && (forall d | d in g.Deps(n) :: st[d].Succeeded?)
            && RunningCount(st, g.ids) + |earlier| < g.maxParallelism
            && RunningUnits(g, st, g.ids) + UnitsOf(g, earlier) + g.nodes[n].units <= g.maxUnits)
  {
    var n := order[k];
    assert NodeFits(g, n);
    ListedPrefix(g, st, order, k);
    ScanGrows(g, st, order, k);
    ScanSplits(g, st, order[..k]);
    ScanLeaves(g, st, order[..k]);
    assert order[..k + 1][..k] == order[..k] && n !in order[..k];
    ReadyLater(g, st, order, k);
    if Satisfied(g, st, n) { SatisfiedIsHopeful(g, st, order[..k], n); }
  }

  /** A task whose dependencies all succeeded is not blocked. */
  lemma SatisfiedIsHopeful(g: Graph, st: Statuses, order: seq<string>, n: string)
    requires Listed(g, st, order) && Distinct(order) && n in g.nodes && Satisfied(g, st, n)
    ensures !Hopeless(g, st, Scan(g, st, order), n)
  {
    ScanSplits(g, st, order);
  }

  /** Whether a task is ready is decided when the scan comes to it. */
  lemma {:induction false} ReadyLater(g: Graph, st: Statuses, order: seq<string>, k: nat)
    requires Distinct(order) && k < |order|
    ensures order[k] in Scan(g, st, order).ready <==> order[k] in Scan(g, st, order[..k + 1]).ready
    decreases |order|
  {
    if k < |order| - 1 {
      assert order[..|order| - 1][..k + 1] == order[..k + 1];
      ReadyLater(g, st, order[..|order| - 1], k);
    } else {
      assert order[..k + 1] == order;
    }
  }

  lemma ListedPrefix(g: Graph, st: Statuses, order: seq<string>, k: nat)
    requires Listed(g, st, order) && Distinct(order) && k <= |order|
    ensures Listed(g, st, order[..k]) && Distinct(order[..k])
  {
  }

  /** A pending task is blocked exactly if a chain of dependencies leads from it to a task that failed, timed out, ended
      incomplete or is blocked. */
  lemma BlockedMeans(g: Graph, order: seq<string>, st: Statuses, n: string)
    requires WellFormed(g) && Topological(g, order) && Total(g, st) && Plannable(g, st) && n in g.nodes
    requires st[n].Pending?
    ensures n in Scan(g, st, order).blocked <==>
      exists p :: IsPath(g, p) && |p| >= 2 && p[0] == n && st[p[|p| - 1]] in {Failed, TimedOut, Incomplete, Blocked}
  {
    PlanContract(g, order, st);
    if Doomed(g, st, n) {
      var p :| DoomPath(g, st, n, p);
    }
    if p :| IsPath(g, p) && |p| >= 2 && p[0] == n && st[p[|p| - 1]] in {Failed, TimedOut, Incomplete, Blocked} {
      assert DoomPath(g, st, n, p);
    }
  }

  /** The tasks that run. */
  function Runners(st: Statuses, ids: seq<string>): seq<string> {
    if ids == [] then []
    else
      var n := ids[|ids| - 1];
      Runners(st, ids[..|ids| - 1]) + if n in st && st[n] == Running then [n] else []
  }

  /** Planning does not raise exactly if every task that runs or succeeded has only dependencies that succeeded, and
      those that run are within both budgets. */
  lemma {:induction false} PlannableMeans(g: Graph, st: Statuses)
    requires Total(g, st)
    ensures Plannable(g, st) <==>
      && (forall n, d | n in g.nodes && (st[n] == Running || st[n] == Succeeded) && d in g.Deps(n) ::
        st[d] == Succeeded)
      && |Runners(st, g.ids)| <= g.maxParallelism && UnitsOf(g, Runners(st, g.ids)) <= g.maxUnits
  {
    CountMeans(g, st, g.ids);
    assert forall n | n in g.nodes :: NodeFits(g, n);
  }

  lemma {:induction false} CountMeans(g: Graph, st: Statuses, ids: seq<string>)
    ensures RunningCount(st, ids) == |Runners(st, ids)| && RunningUnits(g, st, ids) == UnitsOf(g, Runners(st, ids))
  {
    if ids != [] {
      var rest, n := Runners(st, ids[..|ids| - 1]), ids[|ids| - 1];
      CountMeans(g, st, ids[..|ids| - 1]);
      assert (rest + [n])[..|rest|] == rest && rest + [] == rest;
    }
  }

  /** What is left of the budgets is what running and ready tasks do not use. */
  lemma {:induction false} ScanLeaves(g: Graph, st: Statuses, order: seq<string>)
    ensures var plan := Scan(g, st, order);
      && plan.freeSlots == g.maxParallelism - RunningCount(st, g.ids) - |plan.ready|
      && plan.freeUnits == g.maxUnits - RunningUnits(g, st, g.ids) - UnitsOf(g, plan.ready)
  {
    if order != [] {
      var rest, n := order[..|order| - 1], order[|order| - 1];
      ScanLeaves(g, st, rest);
      var ready := Scan(g, st, rest).ready;
      assert (ready + [n])[..|ready|] == ready;
    }
  }

  lemma {:induction false} NothingRuns(g: Graph, st: Statuses, ids: seq<string>)
    requires forall n | n in st :: !st[n].Running?
    ensures RunningCount(st, ids) == 0 && RunningUnits(g, st, ids) == 0
  {
    if ids != [] { NothingRuns(g, st, ids[..|ids| - 1]); }
  }

  /** The first plan of a graph: nothing is blocked, and something is ready. */
  lemma FirstPlan(g: Graph, order: seq<string>)
    requires WellFormed(g) && Topological(g, order)
    ensures var st := Normalize(g, map[]);
      Plannable(g, st) && Scan(g, st, order).ready != [] && Scan(g, st, order).blocked == []
  {
    var st := Normalize(g, map[]);
    assert forall n | n in st :: st[n].Pending?;
    NothingRuns(g, st, g.ids);
    AllPendingPlan(g, order, st);
  }

  lemma NothingDooms(g: Graph, st: Statuses, n: string)
    requires forall m | m in st :: st[m].Pending?
    ensures !Doomed(g, st, n)
  {
  }

  lemma AllPendingPlan(g: Graph, order: seq<string>, st: Statuses)
    requires WellFormed(g) && Topological(g, order) && Total(g, st) && Plannable(g, st)
    requires (forall n | n in st :: st[n].Pending?) && RunningCount(st, g.ids) == 0
    ensures Scan(g, st, order).ready != [] && Scan(g, st, order).blocked == []
  {
    PlanContract(g, order, st);
    var plan, n := Scan(g, st, order), g.ids[0];
    if plan.blocked != [] { NothingDooms(g, st, plan.blocked[0]); }
    assert n in order && n in st;
    NothingDooms(g, st, n);
  }

  /** A retry is allowed only after an explicit failure and while attempts remain. */
  function RetryAllowed(g: Graph, n: string, attemptsUsed: int, last: Status): Result<bool, GraphError> {
    if n !in g.nodes then Err(UnknownTask)
    else if attemptsUsed < 1 then Err(BadAttempts)
    else Ok((last.Failed? || last.TimedOut? || last.Incomplete?) && attemptsUsed < g.nodes[n].maxAttempts)
  }
}
