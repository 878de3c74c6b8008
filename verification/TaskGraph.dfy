/** Task graphs: construction with the depth-first cycle check, and its topological order. */
module TaskGraph {
  import opened Outcomes

  datatype TaskNode = TaskNode(id: string, dependencies: seq<string>, maxAttempts: int, units: int)

  datatype GraphError =
    | NoNodes | BadBudget | BadNode | DuplicateNode | UnknownDependency | OverBudget | Cycle
    | UnknownTask | Inconsistent | TooManyRunning | TooManyUnits | BadAttempts

  /** The nodes by id, with the ids in insertion order. */
  datatype Graph = Graph(nodes: map<string, TaskNode>, ids: seq<string>, maxParallelism: int, maxUnits: int) {
    function Deps(n: string): seq<string>
      requires n in nodes
    {
      nodes[n].dependencies
    }
  }

  predicate Alphanumeric(c: char) {
    'a' <= c <= 'z' || 'A' <= c <= 'Z' || '0' <= c <= '9'
  }

  predicate ValidName(s: string) {
    && 1 <= |s| <= 128 && Alphanumeric(s[0])
    && forall i | 0 <= i < |s| :: Alphanumeric(s[i]) || s[i] in "_.:-"
  }

  predicate NodeOk(n: TaskNode) {
    && ValidName(n.id)
    && (forall d | d in n.dependencies :: ValidName(d))
    && (forall i, j | 0 <= i < j < |n.dependencies| :: n.dependencies[i] != n.dependencies[j])
    && n.id !in n.dependencies && n.maxAttempts >= 1 && n.units >= 1
  }

  predicate Distinct(s: seq<string>) {
    forall i, j | 0 <= i < j < |s| :: s[i] != s[j]
  }

  /** A node's fields are sound and its dependencies are nodes of the graph. */
  predicate NodeFits(g: Graph, n: string)
    requires n in g.nodes
  {
    && g.nodes[n].id == n && NodeOk(g.nodes[n]) && g.nodes[n].units <= g.maxUnits
    && forall d | d in g.Deps(n) :: d in g.nodes
  }

  predicate Closed(g: Graph) {
    forall n | n in g.nodes :: NodeFits(g, n)
  }

  ghost predicate WellFormed(g: Graph) {
    && g.maxParallelism >= 1 && g.maxUnits >= 1 && g.ids != []
    && Distinct(g.ids)
    && (forall n :: n in g.ids <==> n in g.nodes)
    && Closed(g)
  }

  // ---------------------------------------------------------------------------------------------
  // Paths, cycles, orders

  ghost predicate Edge(g: Graph, p: seq<string>, i: nat)
    requires i + 1 < |p|
  {
    p[i] in g.nodes && p[i + 1] in g.Deps(p[i])
  }

  /** Each element depends directly on the next one. */
  ghost predicate IsPath(g: Graph, p: seq<string>) {
    |p| >= 1 && p[|p| - 1] in g.nodes && forall i | 0 <= i < |p| - 1 :: Edge(g, p, i)
  }

  ghost predicate IsCycle(g: Graph, p: seq<string>) {
    IsPath(g, p) && |p| >= 2 && p[0] == p[|p| - 1]
  }

  ghost predicate Acyclic(g: Graph) {
    forall p :: !IsCycle(g, p)
  }

  ghost predicate AfterDeps(g: Graph, order: seq<string>, i: nat)
    requires i < |order|
  {
    order[i] in g.nodes && forall d | d in g.Deps(order[i]) :: d in order[..i]
  }

  /** Every listed node comes once, after all its dependencies. */
  ghost predicate Ordered(g: Graph, order: seq<string>) {
    Distinct(order) && forall i | 0 <= i < |order| :: AfterDeps(g, order, i)
  }

  ghost predicate Topological(g: Graph, order: seq<string>) {
    Ordered(g, order) && forall n | n in g.nodes :: n in order
  }

  lemma PathTail(g: Graph, p: seq<string>, i: nat)
    requires IsPath(g, p) && i < |p|
    ensures IsPath(g, p[i..])
  {
    forall k | 0 <= k < |p[i..]| - 1
      ensures Edge(g, p[i..], k)
    {
      assert Edge(g, p, i + k);
    }
  }

  lemma PathAppend(g: Graph, p: seq<string>, n: string)
    requires IsPath(g, p) && n in g.nodes && n in g.Deps(p[|p| - 1])
    ensures IsPath(g, p + [n])
  {
    forall k | 0 <= k < |p + [n]| - 1
      ensures Edge(g, p + [n], k)
    {
      if k < |p| - 1 { assert Edge(g, p, k); }
    }
  }

  /** Along a path the positions in the order strictly decrease. */
  lemma {:induction false} PathDescends(g: Graph, order: seq<string>, p: seq<string>, i: nat) returns (j: nat)
    requires Ordered(g, order) && IsPath(g, p) && i < |order| && order[i] == p[0]
    ensures j <= i && order[j] == p[|p| - 1] && (|p| > 1 ==> j < i)
    decreases |p|
  {
    if |p| == 1 {
      j := i;
    } else {
      assert AfterDeps(g, order, i) && Edge(g, p, 0);
      var k :| 0 <= k < i && order[k] == p[1];
      PathTail(g, p, 1);
      j := PathDescends(g, order, p[1..], k);
    }
  }

  lemma TopologicalIsAcyclic(g: Graph, order: seq<string>)
    requires Topological(g, order)
    ensures Acyclic(g)
  {
    forall p
      ensures !IsCycle(g, p)
    {
      if IsCycle(g, p) {
        var i :| 0 <= i < |order| && order[i] == p[0];
        var j := PathDescends(g, order, p, i);
      }
    }
  }

  // ---------------------------------------------------------------------------------------------
  // The depth-first check

  ghost predicate Sound(g: Graph, visiting: set<string>, visited: set<string>, order: seq<string>) {
    && visiting !! visited
    && visiting <= g.nodes.Keys
    && Ordered(g, order)
    && (forall n :: n in visited <==> n in order)
  }

  /** The nodes being visited are exactly the call stack, each one a dependency of the one before. */
  ghost predicate OnStack(g: Graph, visiting: set<string>, stack: seq<string>) {
    && (forall n :: n in visiting <==> n in stack)
    && (stack != [] ==> IsPath(g, stack))
  }

  ghost predicate Reachable(g: Graph, stack: seq<string>, n: string) {
    n in g.nodes && (stack != [] ==> stack[|stack| - 1] in g.nodes && n in g.Deps(stack[|stack| - 1]))
  }

  lemma StackCloses(g: Graph, visiting: set<string>, stack: seq<string>, n: string)
    requires OnStack(g, visiting, stack) && Reachable(g, stack, n) && n in visiting
    ensures !Acyclic(g)
  {
    var i :| 0 <= i < |stack| && stack[i] == n;
    PathTail(g, stack, i);
    PathAppend(g, stack[i..], n);
    assert IsCycle(g, stack[i..] + [n]);
  }

  lemma StackGrows(g: Graph, visiting: set<string>, visited: set<string>, order: seq<string>, stack: seq<string>,
                   n: string)
    requires Sound(g, visiting, visited, order) && OnStack(g, visiting, stack) && Reachable(g, stack, n)
    requires n !in visiting && n !in visited
    ensures Sound(g, visiting + {n}, visited, order) && OnStack(g, visiting + {n}, stack + [n])
    ensures |g.nodes.Keys - (visiting + {n})| < |g.nodes.Keys - visiting|
  {
    assert g.nodes.Keys - visiting == (g.nodes.Keys - (visiting + {n})) + {n};
    if stack != [] { PathAppend(g, stack, n); }
  }

  lemma Leaves(g: Graph, visiting: set<string>, visited: set<string>, order: seq<string>, n: string)
    requires Sound(g, visiting + {n}, visited, order) && n !in visiting && n in g.nodes
    requires forall d | d in g.Deps(n) :: d in visited
    ensures visiting + {n} - {n} == visiting && Sound(g, visiting, visited + {n}, order + [n])
  {
    OrderedGrows(g, order, n);
  }

  /** The three collections the recursive visit works on. */
  class CycleCheck {
    const g: Graph
    var visiting: set<string>
    var visited: set<string>
    var order: seq<string>

    ghost predicate Valid()
      reads this
    {
      Closed(g) && Sound(g, visiting, visited, order)
    }

    constructor (graph: Graph)
      requires Closed(graph)
      ensures Valid() && g == graph && visiting == {} && visited == {} && order == []
    {
      g, visiting, visited, order := graph, {}, {}, [];
    }

    /** Visits a node; false means a cycle was found, and then there is one. */
    method Visit(n: string, ghost stack: seq<string>) returns (ok: bool)
      requires Valid() && OnStack(g, visiting, stack) && Reachable(g, stack, n)
      modifies this
      ensures ok ==> Valid() && visiting == old(visiting) && old(visited) <= visited && n in visited
      ensures !ok ==> !Acyclic(g)
      decreases |g.nodes.Keys - visiting|, 1
    {
      if n in visiting {
        StackCloses(g, visiting, stack, n);
        return false;
      }
      if n in visited { return true; }
      ok := Expand(n, stack);
    }

    /** Visits the dependencies of a new node, then lists the node. */
    method Expand(n: string, ghost stack: seq<string>) returns (ok: bool)
      requires Valid() && OnStack(g, visiting, stack) && Reachable(g, stack, n)
      requires n !in visiting && n !in visited
      modifies this
      ensures ok ==> Valid() && visiting == old(visiting) && old(visited) <= visited && n in visited
      ensures !ok ==> !Acyclic(g)
      decreases |g.nodes.Keys - visiting|, 0
    {
      StackGrows(g, visiting, visited, order, stack, n);
      visiting := visiting + {n};
      ok := VisitDependencies(n, stack + [n]);
      if ok { Leave(n, old(visiting)); }
    }

    /** Lists a node whose dependencies are all listed. */
    method Leave(n: string, ghost below: set<string>)
      requires Valid() && visiting == below + {n} && n !in below && n in g.nodes
      requires forall d | d in g.Deps(n) :: d in visited
      modifies this
      ensures Valid() && visiting == below && visited == old(visited) + {n} && order == old(order) + [n]
    {
      Leaves(g, below, visited, order, n);
      visiting, visited, order := visiting - {n}, visited + {n}, order + [n];
    }

    method VisitDependencies(n: string, ghost stack: seq<string>) returns (ok: bool)
      requires Valid() && OnStack(g, visiting, stack) && n in g.nodes && stack != [] && stack[|stack| - 1] == n
      modifies this
      ensures ok ==> Valid() && visiting == old(visiting) && old(visited) <= visited
      ensures ok ==> forall d | d in g.Deps(n) :: d in visited
      ensures !ok ==> !Acyclic(g)
      decreases |g.nodes.Keys - visiting|, 2
    {
      var deps := g.Deps(n);
      for k := 0 to |deps|
        invariant Valid() && visiting == old(visiting) && old(visited) <= visited
        invariant forall j | 0 <= j < k :: deps[j] in visited
      {
        assert NodeFits(g, n);
        ok := Visit(deps[k], stack);
        if !ok { return false; }
      }
      ok := true;
    }
  }

  lemma OrderedGrows(g: Graph, order: seq<string>, n: string)
    requires Ordered(g, order) && n in g.nodes && n !in order && forall d | d in g.Deps(n) :: d in order
    ensures Ordered(g, order + [n])
  {
    var longer := order + [n];
    forall i | 0 <= i < |longer|
      ensures AfterDeps(g, longer, i)
    {
      if i < |order| { assert AfterDeps(g, order, i); }
      assert longer[..i] == order[..i];
    }
  }

  /** Returns an order exactly when the graph has no cycle, and then it is topological. */
  method ValidateAcyclic(g: Graph) returns (r: Result<seq<string>, GraphError>)
    requires WellFormed(g)
    ensures r.Ok? <==> Acyclic(g)
    ensures r.Ok? ==> Topological(g, r.value) && |r.value| == |g.ids|
  {
    var check := new CycleCheck(g);
    for i := 0 to |g.ids|
      invariant check.Valid() && check.g == g && check.visiting == {}
      invariant forall j | 0 <= j < i :: g.ids[j] in check.visited
    {
      assert g.ids[i] in g.nodes;
      var ok := check.Visit(g.ids[i], []);
      if !ok { return Err(Cycle); }
    }
    TopologicalIsAcyclic(g, check.order);
    forall n | n in check.order
      ensures n in g.nodes
    {
      var i :| 0 <= i < |check.order| && check.order[i] == n;
      assert AfterDeps(g, check.order, i);
    }
    SameLength(g.ids, check.order);
    r := Ok(check.order);
  }

  /** Two lists without repetition and with the same members have the same length. */
  lemma {:induction false} SameLength(a: seq<string>, b: seq<string>)
    requires Distinct(a) && Distinct(b) && forall n :: n in a <==> n in b
    ensures |a| == |b|
  {
    var s, t := set n | n in a, set n | n in b;
    SetOfDistinct(a);
    SetOfDistinct(b);
    assert s == t;
  }

  lemma {:induction false} SetOfDistinct(a: seq<string>)
    requires Distinct(a)
    ensures |set n | n in a| == |a|
  {
    if a == [] {
    } else {
      var last, rest := a[|a| - 1], a[..|a| - 1];
      SetOfDistinct(rest);
      assert (set n | n in a) == (set n | n in rest) + {last};
    }
  }

  /** Builds a graph from checked nodes exactly when it is well formed and has no cycle, together with
      the order of the cycle check. */
  method Construct(nodes: seq<TaskNode>, maxParallelism: int, maxUnits: int)
    returns (r: Result<(Graph, seq<string>), GraphError>)
    requires forall i | 0 <= i < |nodes| :: NodeOk(nodes[i])
    ensures var g := ById(nodes, maxParallelism, maxUnits);
      && (r.Ok? <==> WellFormed(g) && Acyclic(g))
      && (r.Ok? ==> r.value.0 == g && Topological(g, r.value.1))
      && (r == Err(Cycle) <==> WellFormed(g) && !Acyclic(g))
  {
    if nodes == [] { return Err(NoNodes); }
    if maxParallelism < 1 || maxUnits < 1 { return Err(BadBudget); }
    var g := ById(nodes, maxParallelism, maxUnits);
    if !Distinct(g.ids) { return Err(DuplicateNode); }
    ByIdFacts(nodes, maxParallelism, maxUnits);
    if exists i, d | 0 <= i < |nodes| && d in nodes[i].dependencies :: d !in g.nodes {
      ghost var i, d :| 0 <= i < |nodes| && d in nodes[i].dependencies && d !in g.nodes;
      assert !NodeFits(g, nodes[i].id);
      return Err(UnknownDependency);
    }
    if exists i | 0 <= i < |nodes| :: nodes[i].units > maxUnits {
      ghost var i :| 0 <= i < |nodes| && nodes[i].units > maxUnits;
      assert !NodeFits(g, nodes[i].id);
      return Err(OverBudget);
    }
    AllFit(nodes, maxParallelism, maxUnits);
    var order := ValidateAcyclic(g);
    if order.Err? { return Err(Cycle); }
    r := Ok((g, order.value));
  }

  function Ids(nodes: seq<TaskNode>): seq<string> {
    seq(|nodes|, i requires 0 <= i < |nodes| => nodes[i].id)
  }

  function ById(nodes: seq<TaskNode>, maxParallelism: int, maxUnits: int): Graph {
    Graph(NodeMap(nodes), Ids(nodes), maxParallelism, maxUnits)
  }

  function NodeMap(nodes: seq<TaskNode>): map<string, TaskNode> {
    if nodes == [] then map[]
    else NodeMap(nodes[..|nodes| - 1])[nodes[|nodes| - 1].id := nodes[|nodes| - 1]]
  }

  lemma ByIdFacts(nodes: seq<TaskNode>, maxParallelism: int, maxUnits: int)
    requires Distinct(Ids(nodes))
    ensures var g := ById(nodes, maxParallelism, maxUnits);
      && (forall n :: n in g.ids <==> n in g.nodes)
      && (forall i | 0 <= i < |nodes| :: nodes[i].id in g.nodes && g.nodes[nodes[i].id] == nodes[i])
      && (forall n | n in g.nodes :: exists i :: 0 <= i < |nodes| && nodes[i].id == n)
  {
    assert forall i | 0 <= i < |nodes| :: Ids(nodes)[i] == nodes[i].id;
    forall i | 0 <= i < |nodes|
      ensures nodes[i].id in NodeMap(nodes) && NodeMap(nodes)[nodes[i].id] == nodes[i]
    {
      NodeMapHas(nodes, i);
    }
    forall n | n in NodeMap(nodes)
      ensures exists i :: 0 <= i < |nodes| && nodes[i].id == n
    {
      var i := NodeMapOnly(nodes, n);
    }
  }

  lemma AllFit(nodes: seq<TaskNode>, maxParallelism: int, maxUnits: int)
    requires Distinct(Ids(nodes)) && forall i | 0 <= i < |nodes| :: NodeOk(nodes[i]) && nodes[i].units <= maxUnits
    requires forall i, d | 0 <= i < |nodes| && d in nodes[i].dependencies :: d in NodeMap(nodes)
    ensures Closed(ById(nodes, maxParallelism, maxUnits))
  {
    ByIdFacts(nodes, maxParallelism, maxUnits);
    var g := ById(nodes, maxParallelism, maxUnits);
    forall n | n in g.nodes
      ensures NodeFits(g, n)
    {
      var i :| 0 <= i < |nodes| && nodes[i].id == n;
    }
  }

  /** The graph holds exactly the given nodes, in their order, and the given budgets. */
  lemma BuiltGraph(nodes: seq<TaskNode>, maxParallelism: int, maxUnits: int)
    requires forall i, j | 0 <= i < j < |nodes| :: nodes[i].id != nodes[j].id
    ensures var g := ById(nodes, maxParallelism, maxUnits);
      && g.maxParallelism == maxParallelism && g.maxUnits == maxUnits && |g.ids| == |nodes|
      && (forall i | 0 <= i < |nodes| :: g.ids[i] == nodes[i].id && nodes[i].id in g.nodes)
      && (forall i | 0 <= i < |nodes| && nodes[i].id in g.nodes :: g.nodes[nodes[i].id] == nodes[i])
      && (forall n | n in g.nodes :: exists i :: 0 <= i < |nodes| && nodes[i].id == n)
  {
    ByIdFacts(nodes, maxParallelism, maxUnits);
  }

  lemma {:induction false} NodeMapHas(nodes: seq<TaskNode>, i: nat)
    requires i < |nodes| && forall j, k | 0 <= j < k < |nodes| :: nodes[j].id != nodes[k].id
    ensures nodes[i].id in NodeMap(nodes) && NodeMap(nodes)[nodes[i].id] == nodes[i]
  {
    if i < |nodes| - 1 { NodeMapHas(nodes[..|nodes| - 1], i); }
  }

  lemma {:induction false} NodeMapOnly(nodes: seq<TaskNode>, n: string) returns (i: nat)
    requires n in NodeMap(nodes)
    ensures i < |nodes| && nodes[i].id == n
  {
    i := |nodes| - 1;
    if n != nodes[i].id { i := NodeMapOnly(nodes[..|nodes| - 1], n); }
  }
}
