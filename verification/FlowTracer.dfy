/** Level-by-level tracing of transaction flows from a seed address. */
module FlowTracer {
  import opened Hops

  datatype Tx = Tx(hash: string, source: string, target: string, value: string, token: string, success: bool)

  datatype Flow = Flow(source: string, target: string, hash: string, value: string, token: string, depth: nat)

  function LowerChar(c: char): char {
    if 'A' <= c <= 'Z' then c - 'A' + 'a' else c
  }

  /** Lower case on the ASCII letters that addresses are written in. */
  function Lower(s: string): string {
    seq(|s|, i requires 0 <= i < |s| => LowerChar(s[i]))
  }

  lemma LowerTwice(s: string)
    ensures Lower(Lower(s)) == Lower(s)
  {
  }

  /** No capital letter is left, and nothing but capital letters changes. */
  lemma LowerMeans(s: string, i: nat)
    requires i < |s|
    ensures |Lower(s)| == |s| && !('A' <= Lower(s)[i] <= 'Z')
    ensures Lower(s)[i] == s[i] || ('A' <= s[i] <= 'Z' && Lower(s)[i] as int == s[i] as int + 32)
  {
  }

  function FlowOf(tx: Tx, depth: nat): Flow {
    Flow(Lower(tx.source), Lower(tx.target), tx.hash, tx.value, tx.token, depth)
  }

  // ---------------------------------------------------------------------------------------------
  // What the flows should be

  /** Money moves from source to target, whatever the transaction's outcome. */
  ghost function FlowGraph(txs: seq<Tx>): Hops.Graph {
    iset i | 0 <= i < |txs| :: (Lower(txs[i].source), Lower(txs[i].target))
  }

  /** The flows whose source is `d` hops from the seed, in list order. */
  ghost function Level(g: Hops.Graph, txs: seq<Tx>, seed: string, d: nat): seq<Flow> {
    if txs == [] then []
    else
      var tx := txs[|txs| - 1];
      Level(g, txs[..|txs| - 1], seed, d) + if Distance(g, seed, Lower(tx.source), d) then [FlowOf(tx, d)] else []
  }

  /** The flows of the first `n` levels. */
  ghost function Levels(g: Hops.Graph, txs: seq<Tx>, seed: string, n: nat): seq<Flow> {
    if n == 0 then [] else Levels(g, txs, seed, n - 1) + Level(g, txs, seed, n - 1)
  }

  ghost predicate Distinct(txs: seq<Tx>) {
    forall i, j | 0 <= i < j < |txs| :: txs[i].hash != txs[j].hash
  }

  /** The address is the target of a transaction whose source is `d` hops away. */
  ghost predicate Fed(g: Hops.Graph, txs: seq<Tx>, seed: string, d: nat, a: string) {
    exists i | 0 <= i < |txs| :: Lower(txs[i].target) == a && Distance(g, seed, Lower(txs[i].source), d)
  }

  /** The addresses from which the scan of level `d` picks: all at distance `d`, none farther. */
  ghost predicate Frontier(g: Hops.Graph, seed: string, d: nat, current: set<string>) {
    && (forall a | a in current :: Within(g, seed, a, d))
    && (forall a | Distance(g, seed, a, d) :: a in current)
  }

  /** The hashes seen before level `d`: those of the transactions with a nearer source. */
  ghost predicate SeenBefore(g: Hops.Graph, txs: seq<Tx>, seed: string, d: nat, visited: set<string>) {
    forall i | 0 <= i < |txs| :: txs[i].hash in visited <==> d > 0 && Within(g, seed, Lower(txs[i].source), d - 1)
  }

  /** The hashes seen when the first `k` transactions of level `d` have been scanned. */
  ghost predicate SeenAt(g: Hops.Graph, txs: seq<Tx>, seed: string, d: nat, k: nat, visited: set<string>) {
    forall i | 0 <= i < |txs| :: txs[i].hash in visited <==>
      (d > 0 && Within(g, seed, Lower(txs[i].source), d - 1)) || (i < k && Distance(g, seed, Lower(txs[i].source), d))
  }

  // ---------------------------------------------------------------------------------------------
  // The levels contain every transaction in range once

  lemma {:induction false} LevelHas(g: Hops.Graph, txs: seq<Tx>, seed: string, d: nat, i: nat)
    requires i < |txs| && Distance(g, seed, Lower(txs[i].source), d)
    ensures FlowOf(txs[i], d) in Level(g, txs, seed, d)
    decreases |txs|
  {
    if i < |txs| - 1 { LevelHas(g, txs[..|txs| - 1], seed, d, i); }
  }

  lemma {:induction false} LevelOnly(g: Hops.Graph, txs: seq<Tx>, seed: string, d: nat, f: Flow) returns (i: nat)
    requires f in Level(g, txs, seed, d)
    ensures i < |txs| && f == FlowOf(txs[i], d) && Distance(g, seed, Lower(txs[i].source), d)
    decreases |txs|
  {
    if f in Level(g, txs[..|txs| - 1], seed, d) {
      i := LevelOnly(g, txs[..|txs| - 1], seed, d, f);
    } else {
      i := |txs| - 1;
    }
  }

  lemma {:induction false} LevelsHave(g: Hops.Graph, txs: seq<Tx>, seed: string, n: nat, i: nat, d: nat)
    requires i < |txs| && d < n && Distance(g, seed, Lower(txs[i].source), d)
    ensures FlowOf(txs[i], d) in Levels(g, txs, seed, n)
    decreases n
  {
    if d == n - 1 { LevelHas(g, txs, seed, d, i); } else { LevelsHave(g, txs, seed, n - 1, i, d); }
  }

  lemma {:induction false} LevelsOnly(g: Hops.Graph, txs: seq<Tx>, seed: string, n: nat, f: Flow) returns (i: nat)
    requires f in Levels(g, txs, seed, n)
    ensures i < |txs| && f.depth < n && f == FlowOf(txs[i], f.depth) && Distance(g, seed, Lower(txs[i].source), f.depth)
    decreases n
  {
    if f in Level(g, txs, seed, n - 1) {
      i := LevelOnly(g, txs, seed, n - 1, f);
    } else {
      i := LevelsOnly(g, txs, seed, n - 1, f);
    }
  }

  /** No hash occurs twice. */
  ghost predicate EachOnce(flows: seq<Flow>) {
    forall i, j | 0 <= i < j < |flows| :: flows[i].hash != flows[j].hash
  }

  lemma {:induction false} LevelEachOnce(g: Hops.Graph, txs: seq<Tx>, seed: string, d: nat)
    requires Distinct(txs)
    ensures EachOnce(Level(g, txs, seed, d))
  {
    if txs != [] {
      var before := Level(g, txs[..|txs| - 1], seed, d);
      LevelEachOnce(g, txs[..|txs| - 1], seed, d);
      forall k | 0 <= k < |before|
        ensures before[k].hash != txs[|txs| - 1].hash
      {
        var i := LevelOnly(g, txs[..|txs| - 1], seed, d, before[k]);
      }
    }
  }

  lemma {:induction false} LevelsEachOnce(g: Hops.Graph, txs: seq<Tx>, seed: string, n: nat)
    requires Distinct(txs)
    ensures EachOnce(Levels(g, txs, seed, n))
  {
    if n > 0 {
      var before, last := Levels(g, txs, seed, n - 1), Level(g, txs, seed, n - 1);
      LevelsEachOnce(g, txs, seed, n - 1);
      LevelEachOnce(g, txs, seed, n - 1);
      forall k, l | 0 <= k < |before| && 0 <= l < |last|
        ensures before[k].hash != last[l].hash
      {
        var i := LevelsOnly(g, txs, seed, n - 1, before[k]);
        var j := LevelOnly(g, txs, seed, n - 1, last[l]);
        if i == j { DistanceUnique(g, seed, Lower(txs[i].source), before[k].depth, n - 1); }
      }
    }
  }

  /** The flow tells the transaction: its ends in lower case, and its hash, value and token. */
  predicate Carries(f: Flow, tx: Tx) {
    && f.source == Lower(tx.source) && f.target == Lower(tx.target)
    && f.hash == tx.hash && f.value == tx.value && f.token == tx.token
  }

  /**
   With distinct hashes, a transaction is among the flows exactly when its source is within range, and then
   exactly once: as an edge of the graph with its value and token, at the shortest distance of its source.
   */
  lemma LevelsEmitOnce(txs: seq<Tx>, seed: string, n: nat, i: nat)
    requires Distinct(txs) && i < |txs|
    ensures var g, flows := FlowGraph(txs), Levels(FlowGraph(txs), txs, seed, n);
      && ((exists k | 0 <= k < |flows| :: flows[k].hash == txs[i].hash) <==>
        n > 0 && Within(g, seed, Lower(txs[i].source), n - 1))
      && (forall k | 0 <= k < |flows| && flows[k].hash == txs[i].hash ::
            && Carries(flows[k], txs[i]) && (flows[k].source, flows[k].target) in g
            && Distance(g, seed, flows[k].source, flows[k].depth)
            && forall l | 0 <= l < |flows| && flows[l].hash == txs[i].hash :: l == k)
  {
    var g, flows := FlowGraph(txs), Levels(FlowGraph(txs), txs, seed, n);
    LevelsEachOnce(g, txs, seed, n);
    if n > 0 && Within(g, seed, Lower(txs[i].source), n - 1) {
      var d := HasDistance(g, seed, Lower(txs[i].source), n - 1);
      LevelsHave(g, txs, seed, n, i, d);
    }
    forall k | 0 <= k < |flows| && flows[k].hash == txs[i].hash
      ensures flows[k] == FlowOf(txs[i], flows[k].depth) && Distance(g, seed, Lower(txs[i].source), flows[k].depth)
      ensures n > 0 && Within(g, seed, Lower(txs[i].source), n - 1)
    {
      var j := LevelsOnly(g, txs, seed, n, flows[k]);
      assert j == i;
      WithinGrows(g, seed, Lower(txs[i].source), flows[k].depth, n - 1);
    }
  }

  // ---------------------------------------------------------------------------------------------
  // The scan of one level

  lemma NextFrontier(txs: seq<Tx>, seed: string, d: nat, next: set<string>)
    requires forall a :: a in next <==> Fed(FlowGraph(txs), txs, seed, d, a)
    ensures Frontier(FlowGraph(txs), seed, d + 1, next)
  {
    var g := FlowGraph(txs);
    forall a | a in next
      ensures Within(g, seed, a, d + 1)
    {
      var i :| 0 <= i < |txs| && Lower(txs[i].target) == a && Distance(g, seed, Lower(txs[i].source), d);
      assert (Lower(txs[i].source), a) in g;
    }
    forall a | Distance(g, seed, a, d + 1)
      ensures a in next
    {
      var b := NearerNeighbour(g, seed, a, d);
      var i :| 0 <= i < |txs| && (Lower(txs[i].source), Lower(txs[i].target)) == (b, a);
      assert Fed(g, txs, seed, d, a);
    }
  }

  /** A transaction is picked at level `d` exactly when its source is `d` hops away. */
  lemma PickedExactly(g: Hops.Graph, txs: seq<Tx>, seed: string, d: nat, k: nat, current: set<string>,
                      visited: set<string>)
    requires k < |txs| && Frontier(g, seed, d, current) && SeenAt(g, txs, seed, d, k, visited)
    ensures Lower(txs[k].source) in current && txs[k].hash !in visited <==> Distance(g, seed, Lower(txs[k].source), d)
  {
  }

  lemma NextSeen(g: Hops.Graph, txs: seq<Tx>, seed: string, d: nat, k: nat, visited: set<string>, visited': set<string>)
    requires k < |txs| && Distinct(txs) && SeenAt(g, txs, seed, d, k, visited)
    requires visited' == if Distance(g, seed, Lower(txs[k].source), d) then visited + {txs[k].hash} else visited
    ensures SeenAt(g, txs, seed, d, k + 1, visited')
  {
  }

  /** Every flow's hash is marked as visited, and no hash occurs twice. */
  ghost predicate Logged(flows: seq<Flow>, visited: set<string>) {
    EachOnce(flows) && forall k | 0 <= k < |flows| :: flows[k].hash in visited
  }

  lemma LoggedNext(flows: seq<Flow>, visited: set<string>, f: Flow)
    requires Logged(flows, visited) && f.hash !in visited
    ensures Logged(flows + [f], visited + {f.hash})
  {
  }

  lemma LevelNext(g: Hops.Graph, txs: seq<Tx>, seed: string, d: nat, k: nat)
    requires k < |txs|
    ensures Level(g, txs[..k + 1], seed, d) ==
      Level(g, txs[..k], seed, d) + if Distance(g, seed, Lower(txs[k].source), d) then [FlowOf(txs[k], d)] else []
  {
    assert txs[..k + 1][..k] == txs[..k];
  }

  lemma FedNext(g: Hops.Graph, txs: seq<Tx>, seed: string, d: nat, k: nat)
    requires k < |txs|
    ensures forall a :: Fed(g, txs[..k + 1], seed, d, a) <==>
      Fed(g, txs[..k], seed, d, a) || (a == Lower(txs[k].target) && Distance(g, seed, Lower(txs[k].source), d))
  {
    var longer, shorter := txs[..k + 1], txs[..k];
    forall a
      ensures Fed(g, longer, seed, d, a) <==>
        Fed(g, shorter, seed, d, a) || (a == Lower(txs[k].target) && Distance(g, seed, Lower(txs[k].source), d))
    {
      if Fed(g, shorter, seed, d, a) {
        var i :| 0 <= i < k && Lower(shorter[i].target) == a && Distance(g, seed, Lower(shorter[i].source), d);
        assert longer[i] == shorter[i];
      }
      assert longer[k] == txs[k];
    }
  }

  method ScanLevel(txs: seq<Tx>, ghost seed: string, d: nat, current: set<string>, visited: set<string>,
                   flows: seq<Flow>)
    returns (next: set<string>, visited': set<string>, flows': seq<Flow>)
    requires Logged(flows, visited)
    ensures Logged(flows', visited')
    ensures var g := FlowGraph(txs);
      Distinct(txs) && Frontier(g, seed, d, current) && SeenBefore(g, txs, seed, d, visited) ==>
      && flows' == flows + Level(g, txs, seed, d)
      && Frontier(g, seed, d + 1, next)
      && SeenBefore(g, txs, seed, d + 1, visited')
  {
    ghost var g := FlowGraph(txs);
    ghost var good := Distinct(txs) && Frontier(g, seed, d, current) && SeenBefore(g, txs, seed, d, visited);
    next, visited', flows' := {}, visited, flows;
    for k := 0 to |txs|
      invariant Logged(flows', visited')
      invariant good ==> SeenAt(g, txs, seed, d, k, visited')
      invariant good ==> flows' == flows + Level(g, txs[..k], seed, d)
      invariant good ==> forall a :: a in next <==> Fed(g, txs[..k], seed, d, a)
    {
      var tx := txs[k];
      var source, target := Lower(tx.source), Lower(tx.target);
      if good { PickedExactly(g, txs, seed, d, k, current, visited'); }
      ghost var was := visited';
      LevelNext(g, txs, seed, d, k);
      FedNext(g, txs, seed, d, k);
      if source in current && tx.hash !in visited' {
        LoggedNext(flows', visited', FlowOf(tx, d));
        visited' := visited' + {tx.hash};
        flows' := flows' + [Flow(source, target, tx.hash, tx.value, tx.token, d)];
        next := next + {target};
      }
      if good { NextSeen(g, txs, seed, d, k, was, visited'); }
    }
    assert txs[..|txs|] == txs;
    if good { NextFrontier(txs, seed, d, next); }
  }

  lemma {:induction false} LevelsEnd(g: Hops.Graph, txs: seq<Tx>, seed: string, d: nat, n: nat)
    requires d <= n && forall a :: !Distance(g, seed, a, d)
    ensures Levels(g, txs, seed, n) == Levels(g, txs, seed, d)
    decreases n
  {
    if d < n {
      LevelsEnd(g, txs, seed, d, n - 1);
      NoLevel(g, txs, seed, d, n - 1);
    }
  }

  lemma {:induction false} NoLevel(g: Hops.Graph, txs: seq<Tx>, seed: string, d: nat, k: nat)
    requires d <= k && forall a :: !Distance(g, seed, a, d)
    ensures Level(g, txs, seed, k) == []
    decreases |txs|
  {
    if txs != [] {
      var a := Lower(txs[|txs| - 1].source);
      NoLevel(g, txs[..|txs| - 1], seed, d, k);
      if Distance(g, seed, a, k) {
        EmptyLevelEnds(g, seed, a, d, k);
        WithinGrows(g, seed, a, d - 1, k - 1);
      }
    }
  }

  /**
   Emits no hash twice; with distinct hashes, the flows are exactly the transactions whose source is fewer than
   `maxDepth` hops from the seed, level by level and each with its source's distance.
   */
  method BuildFlows(txs: seq<Tx>, seed: string, maxDepth: int) returns (flows: seq<Flow>)
    ensures EachOnce(flows)
    ensures Distinct(txs) ==> flows == Levels(FlowGraph(txs), txs, Lower(seed), if maxDepth < 1 then 0 else maxDepth)
  {
    flows := [];
    if maxDepth < 1 { return; }
    ghost var g := FlowGraph(txs);
    ghost var start := Lower(seed);
    var current, visited: set<string> := {Lower(seed)}, {};
    for depth := 0 to maxDepth
      invariant Logged(flows, visited)
      invariant Distinct(txs) ==> Frontier(g, start, depth, current) && SeenBefore(g, txs, start, depth, visited)
      invariant Distinct(txs) ==> flows == Levels(g, txs, start, depth)
    {
      var next;
      next, visited, flows := ScanLevel(txs, start, depth, current, visited, flows);
      current := next;
      if current == {} {
        if Distinct(txs) { LevelsEnd(g, txs, start, depth + 1, maxDepth); }
        return;
      }
    }
  }
}
