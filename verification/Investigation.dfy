/** Breadth-first expansion of an investigation from a seed address. */
module Investigation {
  import opened Outcomes
  import opened Hops
  import opened FlowTracer

  datatype Node = Node(depth: nat, parent: Option<string>, via: Option<string>)

  /** What the collector returns for an address. */
  type Collector = string -> seq<Tx>

  // ---------------------------------------------------------------------------------------------
  // Which addresses are related

  /** The transaction relates the collected address to another one. */
  predicate Links(tx: Tx, address: string, other: string) {
    && tx.hash != "" && tx.success && other != "" && other != address
    && (other == Lower(tx.source) || other == Lower(tx.target))
  }

  predicate Related(txs: seq<Tx>, address: string, other: string) {
    exists i | 0 <= i < |txs| :: Links(txs[i], address, other)
  }

  /** A transaction with the hash relates the two addresses. */
  ghost predicate LinkedBy(txs: seq<Tx>, address: string, other: string, hash: string) {
    exists i | 0 <= i < |txs| :: txs[i].hash == hash && Links(txs[i], address, other)
  }

  ghost function Neighbours(collect: Collector): Hops.Graph {
    iset a, b | Related(collect(a), a, b) :: (a, b)
  }

  /** An address leads to another exactly if a successful transaction with a hash, collected from it, has that other,
      non-empty address at one of its ends; never to itself. */
  lemma NeighboursMeans(collect: Collector, a: string, b: string)
    ensures (a, b) in Neighbours(collect) <==>
      && b != a && b != ""
      && exists i | 0 <= i < |collect(a)| ::
           && collect(a)[i].success && collect(a)[i].hash != ""
           && (Lower(collect(a)[i].source) == b || Lower(collect(a)[i].target) == b)
  {
    if b != a && b != "" {
      forall i | 0 <= i < |collect(a)|
        ensures Links(collect(a)[i], a, b) <==>
          && collect(a)[i].success && collect(a)[i].hash != ""
          && (Lower(collect(a)[i].source) == b || Lower(collect(a)[i].target) == b)
      {
      }
    }
  }

  // ---------------------------------------------------------------------------------------------
  // What an investigation should find

  /** The node's depth is its distance; unless it is the seed, its parent is one hop nearer and the recorded
      transaction, collected from the parent, relates the two. */
  ghost predicate NodeOk(collect: Collector, seed: string, nodes: map<string, Node>, a: string)
    requires a in nodes
  {
    var node := nodes[a];
    && Distance(Neighbours(collect), seed, a, node.depth)
    && (a == seed ==> node.parent.None? && node.via.None?)
    && (a != seed ==>
          && node.parent.Some? && node.via.Some? && node.parent.value in nodes
          && nodes[node.parent.value].depth + 1 == node.depth
          && LinkedBy(collect(node.parent.value), node.parent.value, a, node.via.value))
  }

  /** The transactions kept are those of the visited addresses, one for each hash. */
  ghost predicate Gathered(collect: Collector, visited: set<string>, seen: set<string>, all: seq<Tx>) {
    && Distinct(all)
    && (forall h :: h in seen <==> exists k | 0 <= k < |all| :: all[k].hash == h)
    && (forall k | 0 <= k < |all| :: all[k].hash != "" && exists a | a in visited :: all[k] in collect(a))
    && (forall a, i | a in visited && 0 <= i < |collect(a)| && collect(a)[i].hash != "" :: collect(a)[i].hash in seen)
  }

  // ---------------------------------------------------------------------------------------------
  // One address

  /** The nodes after the first transactions of one address: old ones as they were, new ones beneath it. */
  ghost predicate Expanded(nodes: map<string, Node>, nodes': map<string, Node>, address: string, txs: seq<Tx>,
                           depth: nat, deeper: bool)
  {
    && (forall a :: a in nodes' <==> a in nodes || (deeper && Related(txs, address, a)))
    && (forall a | a in nodes :: nodes'[a] == nodes[a])
    && (forall a | a in nodes' && a !in nodes :: NewNode(nodes'[a], address, txs, depth, a))
  }

  ghost predicate NewNode(node: Node, address: string, txs: seq<Tx>, depth: nat, a: string) {
    && node.depth == depth + 1 && node.parent == Some(address) && node.via.Some?
    && LinkedBy(txs, address, a, node.via.value)
  }

  /** The addresses to expand next. */
  ghost predicate Queued(next: set<string>, next': set<string>, visited: set<string>, address: string, txs: seq<Tx>,
                         deeper: bool)
  {
    forall a :: a in next' <==> a in next || (deeper && Related(txs, address, a) && a !in visited)
  }

  lemma RelatedMore(txs: seq<Tx>, k: nat, address: string, a: string)
    requires k < |txs|
    ensures Related(txs[..k + 1], address, a) <==> Related(txs[..k], address, a) || Links(txs[k], address, a)
  {
    if Links(txs[k], address, a) { assert txs[..k + 1][k] == txs[k]; }
    if Related(txs[..k], address, a) {
      var i :| 0 <= i < k && Links(txs[..k][i], address, a);
      assert txs[..k + 1][i] == txs[..k][i];
    }
  }

  /** The addresses one transaction relates to the collected one, sender first. */
  function RelatedList(tx: Tx, address: string): (r: seq<string>)
    ensures tx.hash != "" ==> forall a :: a in r <==> Links(tx, address, a)
  {
    if !tx.success then []
    else
      var sender, recipient := Lower(tx.source), Lower(tx.target);
      (if sender != "" && sender != address then [sender] else []) +
      (if recipient != "" && recipient != address then [recipient] else [])
  }

  /** Records the addresses one transaction relates. */
  method Attach(tx: Tx, address: string, depth: nat, deeper: bool, visited: set<string>, nodes: map<string, Node>,
                next: set<string>)
    returns (nodes': map<string, Node>, next': set<string>)
    requires tx.hash != ""
    ensures forall a :: a in nodes' <==> a in nodes || (deeper && Links(tx, address, a))
    ensures forall a | a in nodes' ::
      nodes'[a] == if a in nodes then nodes[a] else Node(depth + 1, Some(address), Some(tx.hash))
    ensures forall a :: a in next' <==> a in next || (deeper && Links(tx, address, a) && a !in visited)
  {
    nodes', next' := nodes, next;
    var related := RelatedList(tx, address);
    for k := 0 to |related|
      invariant forall a :: a in nodes' <==> a in nodes || (deeper && a in related[..k])
      invariant forall a | a in nodes' ::
        nodes'[a] == if a in nodes then nodes[a] else Node(depth + 1, Some(address), Some(tx.hash))
      invariant forall a :: a in next' <==> a in next || (deeper && a in related[..k] && a !in visited)
    {
      assert related[..k + 1] == related[..k] + [related[k]];
      var other := related[k];
      if !deeper { continue; }
      if other !in nodes' { nodes' := nodes'[other := Node(depth + 1, Some(address), Some(tx.hash))]; }
      if other !in visited { next' := next' + {other}; }
    }
    assert related[..|related|] == related;
  }

  lemma ExpandMore(nodes: map<string, Node>, mid: map<string, Node>, nodes': map<string, Node>,
                   address: string, txs: seq<Tx>, k: nat, depth: nat, deeper: bool)
    requires k < |txs| && Expanded(nodes, mid, address, txs[..k], depth, deeper)
    requires forall a :: a in nodes' <==> a in mid || (deeper && Links(txs[k], address, a))
    requires forall a | a in nodes' ::
      nodes'[a] == if a in mid then mid[a] else Node(depth + 1, Some(address), Some(txs[k].hash))
    ensures Expanded(nodes, nodes', address, txs[..k + 1], depth, deeper)
  {
    forall a
      ensures Related(txs[..k + 1], address, a) <==> Related(txs[..k], address, a) || Links(txs[k], address, a)
    {
      RelatedMore(txs, k, address, a);
    }
    forall a | a in nodes' && a !in nodes
      ensures NewNode(nodes'[a], address, txs[..k + 1], depth, a)
    {
      if a in mid { NewNodeMore(mid[a], address, txs, k, depth, a); } else { assert txs[..k + 1][k] == txs[k]; }
    }
  }

  lemma NewNodeMore(node: Node, address: string, txs: seq<Tx>, k: nat, depth: nat, a: string)
    requires k < |txs| && NewNode(node, address, txs[..k], depth, a)
    ensures NewNode(node, address, txs[..k + 1], depth, a)
  {
    var i :| 0 <= i < k && txs[..k][i].hash == node.via.value && Links(txs[..k][i], address, a);
    assert txs[..k + 1][i] == txs[..k][i];
  }

  lemma QueueMore(next: set<string>, mid: set<string>, next': set<string>, visited: set<string>,
                  address: string, txs: seq<Tx>, k: nat, deeper: bool)
    requires k < |txs| && Queued(next, mid, visited, address, txs[..k], deeper)
    requires forall a :: a in next' <==> a in mid || (deeper && Links(txs[k], address, a) && a !in visited)
    ensures Queued(next, next', visited, address, txs[..k + 1], deeper)
  {
    forall a
      ensures Related(txs[..k + 1], address, a) <==> Related(txs[..k], address, a) || Links(txs[k], address, a)
    {
      RelatedMore(txs, k, address, a);
    }
  }

  /** The part of the gathered transactions that one address contributes. */
  ghost predicate Added(seen: set<string>, all: seq<Tx>, seen': set<string>, all': seq<Tx>, txs: seq<Tx>) {
    && |all| <= |all'| && all'[..|all|] == all && Distinct(all') && seen <= seen'
    && (forall h :: h in seen' <==> exists k | 0 <= k < |all'| :: all'[k].hash == h)
    && (forall k | |all| <= k < |all'| :: all'[k].hash != "" && all'[k] in txs)
    && (forall i | 0 <= i < |txs| && txs[i].hash != "" :: txs[i].hash in seen')
  }

  lemma AddOne(seen: set<string>, all: seq<Tx>, seen': set<string>, all': seq<Tx>, txs: seq<Tx>, k: nat)
    requires k < |txs| && Added(seen, all, seen', all', txs[..k]) && txs[k].hash != ""
    ensures txs[k].hash in seen' ==> Added(seen, all, seen', all', txs[..k + 1])
    ensures txs[k].hash !in seen' ==> Added(seen, all, seen' + {txs[k].hash}, all' + [txs[k]], txs[..k + 1])
  {
    assert txs[..k + 1] == txs[..k] + [txs[k]];
    if txs[k].hash !in seen' {
      var more := all' + [txs[k]];
      forall h
        ensures h in seen' + {txs[k].hash} <==> exists i | 0 <= i < |more| :: more[i].hash == h
      {
        if h in seen' {
          var i :| 0 <= i < |all'| && all'[i].hash == h;
          assert more[i].hash == h;
        }
        assert more[|all'|].hash == txs[k].hash;
      }
    }
  }

  /** Goes through the transactions collected from one address. */
  method Expand(address: string, txs: seq<Tx>, depth: nat, deeper: bool, visited: set<string>,
                nodes: map<string, Node>, next: set<string>, seen: set<string>, all: seq<Tx>)
    returns (nodes': map<string, Node>, next': set<string>, seen': set<string>, all': seq<Tx>)
    requires Distinct(all) && forall h :: h in seen <==> exists k | 0 <= k < |all| :: all[k].hash == h
    ensures Expanded(nodes, nodes', address, txs, depth, deeper)
    ensures Queued(next, next', visited, address, txs, deeper)
    ensures Added(seen, all, seen', all', txs)
  {
    nodes', next', seen', all' := nodes, next, seen, all;
    for k := 0 to |txs|
      invariant Expanded(nodes, nodes', address, txs[..k], depth, deeper)
      invariant Queued(next, next', visited, address, txs[..k], deeper)
      invariant Added(seen, all, seen', all', txs[..k])
    {
      var tx := txs[k];
      ghost var midNodes, midNext := nodes', next';
      if tx.hash != "" {
        AddOne(seen, all, seen', all', txs, k);
        if tx.hash !in seen' {
          seen' := seen' + {tx.hash};
          all' := all' + [tx];
        }
        nodes', next' := Attach(tx, address, depth, deeper, visited, nodes', next');
      } else {
        assert txs[..k + 1] == txs[..k] + [tx];
      }
      ExpandMore(nodes, midNodes, nodes', address, txs, k, depth, deeper);
      QueueMore(next, midNext, next', visited, address, txs, k, deeper);
    }
    assert txs[..|txs|] == txs;
  }

  // ---------------------------------------------------------------------------------------------
  // One level

  /** Every address met is in lower case. */
  lemma {:induction false} WithinIsLower(collect: Collector, seed: string, a: string, k: nat)
    requires Lower(seed) == seed && Within(Neighbours(collect), seed, a, k)
    ensures Lower(a) == a
  {
    var g := Neighbours(collect);
    if k > 0 {
      if Within(g, seed, a, k - 1) {
        WithinIsLower(collect, seed, a, k - 1);
      } else {
        var b :| Within(g, seed, b, k - 1) && (b, a) in g;
        var i :| 0 <= i < |collect(b)| && Links(collect(b)[i], b, a);
        LowerTwice(collect(b)[i].source);
        LowerTwice(collect(b)[i].target);
      }
    }
  }

  /** The nodes cover everything within `d` hops and nothing beyond the limit. */
  ghost predicate NodesOk(collect: Collector, seed: string, d: nat, limit: nat, nodes: map<string, Node>) {
    && (forall a | Within(Neighbours(collect), seed, a, d) :: a in nodes)
    && (forall a | a in nodes :: Within(Neighbours(collect), seed, a, limit))
    && (forall a {:trigger NodeOk(collect, seed, nodes, a)} | a in nodes :: NodeOk(collect, seed, nodes, a))
  }

  ghost predicate VisitedOk(collect: Collector, seed: string, d: nat, visited: set<string>) {
    forall a :: a in visited <==> d > 0 && Within(Neighbours(collect), seed, a, d - 1)
  }

  /** In the middle of level `d`, when all of the frontier but `rest` has been expanded. */
  ghost predicate Partway(collect: Collector, seed: string, d: nat, frontier: set<string>, rest: set<string>,
                          visited: set<string>)
  {
    forall a :: a in visited <==>
      (d > 0 && Within(Neighbours(collect), seed, a, d - 1)) || (a in frontier && a !in rest)
  }

  /** Everything one hop from the expanded part is a node. */
  ghost predicate Covered(collect: Collector, frontier: set<string>, rest: set<string>, nodes: map<string, Node>) {
    forall b, a | b in frontier && b !in rest && (b, a) in Neighbours(collect) :: a in nodes
  }

  /** The next frontier holds the new nodes and nothing farther. */
  ghost predicate NextOk(collect: Collector, seed: string, d: nat, nodes: map<string, Node>, next: set<string>) {
    && (forall a | a in next :: Within(Neighbours(collect), seed, a, d + 1))
    && (forall a | a in nodes && Distance(Neighbours(collect), seed, a, d + 1) :: a in next)
  }

  lemma FrontierAddress(collect: Collector, seed: string, d: nat, frontier: set<string>, rest: set<string>,
                        visited: set<string>, address: string)
    requires Frontier(Neighbours(collect), seed, d, frontier) && Partway(collect, seed, d, frontier, rest, visited)
    requires address in rest && rest <= frontier
    ensures address !in visited ==> Distance(Neighbours(collect), seed, address, d)
    ensures address in visited ==> d > 0 && Within(Neighbours(collect), seed, address, d - 1)
  {
  }

  /** Expanding an address at distance `d` keeps the nodes right. */
  lemma ExpandKeepsNodes(collect: Collector, seed: string, d: nat, address: string, deeper: bool,
                         nodes: map<string, Node>, nodes': map<string, Node>)
    requires NodesOk(collect, seed, d, if deeper then d + 1 else d, nodes)
    requires Distance(Neighbours(collect), seed, address, d)
    requires Expanded(nodes, nodes', address, collect(address), d, deeper)
    ensures NodesOk(collect, seed, d, if deeper then d + 1 else d, nodes')
  {
    var g := Neighbours(collect);
    assert NodeOk(collect, seed, nodes, address);
    DistanceUnique(g, seed, address, d, nodes[address].depth);
    WithinGrows(g, seed, seed, 0, d);
    forall a | a in nodes'
      ensures Within(g, seed, a, if deeper then d + 1 else d) && NodeOk(collect, seed, nodes', a)
    {
      if a in nodes {
        OldNodeOk(collect, seed, nodes, nodes', a);
      } else {
        assert NewNode(nodes'[a], address, collect(address), d, a);
        NewNodeOk(collect, seed, d, address, nodes', a);
      }
    }
  }

  lemma OldNodeOk(collect: Collector, seed: string, nodes: map<string, Node>, nodes': map<string, Node>, a: string)
    requires a in nodes && NodeOk(collect, seed, nodes, a)
    requires forall b | b in nodes :: b in nodes' && nodes'[b] == nodes[b]
    ensures NodeOk(collect, seed, nodes', a)
  {
  }

  lemma NewNodeOk(collect: Collector, seed: string, d: nat, address: string, nodes: map<string, Node>, a: string)
    requires a in nodes && address in nodes && nodes[address].depth == d
    requires Distance(Neighbours(collect), seed, address, d)
    requires NewNode(nodes[a], address, collect(address), d, a) && !Within(Neighbours(collect), seed, a, d) && a != seed
    ensures Within(Neighbours(collect), seed, a, d + 1) && NodeOk(collect, seed, nodes, a)
  {
    assert (address, a) in Neighbours(collect);
  }

  lemma ExpandKeepsNext(collect: Collector, seed: string, d: nat, address: string, deeper: bool, visited: set<string>,
                        nodes: map<string, Node>, nodes': map<string, Node>, next: set<string>, next': set<string>)
    requires NextOk(collect, seed, d, nodes, next) && Distance(Neighbours(collect), seed, address, d)
    requires forall a | a in visited :: Within(Neighbours(collect), seed, a, d)
    requires Expanded(nodes, nodes', address, collect(address), d, deeper)
    requires Queued(next, next', visited, address, collect(address), deeper)
    ensures NextOk(collect, seed, d, nodes', next')
  {
    var g := Neighbours(collect);
    forall a | a in next'
      ensures Within(g, seed, a, d + 1)
    {
      if a !in next { assert (address, a) in g; }
    }
  }

  lemma ExpandCovers(collect: Collector, frontier: set<string>, rest: set<string>, address: string,
                     nodes: map<string, Node>, nodes': map<string, Node>, depth: nat)
    requires Covered(collect, frontier, rest, nodes)
    requires Expanded(nodes, nodes', address, collect(address), depth, true)
    ensures Covered(collect, frontier, rest - {address}, nodes')
  {
  }

  lemma SkipCovers(collect: Collector, seed: string, d: nat, frontier: set<string>, rest: set<string>,
                   address: string, nodes: map<string, Node>)
    requires Covered(collect, frontier, rest, nodes) && d > 0 && Within(Neighbours(collect), seed, address, d - 1)
    requires forall a | Within(Neighbours(collect), seed, a, d) :: a in nodes
    ensures Covered(collect, frontier, rest - {address}, nodes)
  {
  }

  lemma GatherMore(collect: Collector, visited: set<string>, address: string,
                   seen: set<string>, all: seq<Tx>, seen': set<string>, all': seq<Tx>)
    requires Gathered(collect, visited, seen, all) && Added(seen, all, seen', all', collect(address))
    ensures Gathered(collect, visited + {address}, seen', all')
  {
    forall k | 0 <= k < |all'|
      ensures all'[k].hash != "" && exists a | a in visited + {address} :: all'[k] in collect(a)
    {
      if k < |all| {
        assert all'[..|all|][k] == all[k];
        var a :| a in visited && all[k] in collect(a);
      } else {
        assert address in visited + {address};
      }
    }
  }

  /** A whole level brings the nodes, the visited addresses and the frontier one hop further. */
  lemma LevelDone(collect: Collector, seed: string, d: nat, frontier: set<string>, visited: set<string>,
                  nodes: map<string, Node>, next: set<string>, deeper: bool)
    requires Frontier(Neighbours(collect), seed, d, frontier) && Partway(collect, seed, d, frontier, {}, visited)
    requires NodesOk(collect, seed, d, if deeper then d + 1 else d, nodes) && NextOk(collect, seed, d, nodes, next)
    requires deeper ==> Covered(collect, frontier, {}, nodes)
    ensures VisitedOk(collect, seed, d + 1, visited)
    ensures deeper ==> NodesOk(collect, seed, d + 1, d + 1, nodes) && Frontier(Neighbours(collect), seed, d + 1, next)
  {
    var g := Neighbours(collect);
    forall a | Within(g, seed, a, d)
      ensures a in visited
    {
      if !(d > 0 && Within(g, seed, a, d - 1)) {
        assert Distance(g, seed, a, d);
      }
    }
    forall a | a in visited
      ensures Within(g, seed, a, d)
    {
      if d > 0 && Within(g, seed, a, d - 1) {
        WithinGrows(g, seed, a, d - 1, d);
      }
    }
    if deeper {
      forall a | Within(g, seed, a, d + 1)
        ensures a in nodes
      {
        if !Within(g, seed, a, d) {
          assert Distance(g, seed, a, d + 1);
          var b := NearerNeighbour(g, seed, a, d);
          assert b in frontier;
        }
      }
    }
  }

  /** Expands the frontier in whatever order its addresses come. */
  method ExpandLevel(collect: Collector, seed: string, d: nat, deeper: bool, frontier: set<string>,
                     visited: set<string>, nodes: map<string, Node>, seen: set<string>, all: seq<Tx>)
    returns (visited': set<string>, nodes': map<string, Node>, next: set<string>, seen': set<string>, all': seq<Tx>)
    requires Lower(seed) == seed && Frontier(Neighbours(collect), seed, d, frontier)
    requires VisitedOk(collect, seed, d, visited) && NodesOk(collect, seed, d, d, nodes)
    requires Gathered(collect, visited, seen, all)
    ensures VisitedOk(collect, seed, d + 1, visited') && Gathered(collect, visited', seen', all')
    ensures deeper ==> NodesOk(collect, seed, d + 1, d + 1, nodes') && Frontier(Neighbours(collect), seed, d + 1, next)
    ensures !deeper ==> NodesOk(collect, seed, d, d, nodes')
  {
    ghost var g := Neighbours(collect);
    ghost var limit := if deeper then d + 1 else d;
    visited', nodes', next, seen', all' := visited, nodes, {}, seen, all;
    var rest := frontier;
    StartLevel(collect, seed, d, limit, nodes);
    while rest != {}
      invariant rest <= frontier && Partway(collect, seed, d, frontier, rest, visited')
      invariant NodesOk(collect, seed, d, limit, nodes') && NextOk(collect, seed, d, nodes', next)
      invariant deeper ==> Covered(collect, frontier, rest, nodes')
      invariant Gathered(collect, visited', seen', all')
      decreases |rest|
    {
      var raw :| raw in rest;
      WithinIsLower(collect, seed, raw, d);
      var address := Lower(raw);
      FrontierAddress(collect, seed, d, frontier, rest, visited', address);
      if address in visited' {
        if deeper { SkipCovers(collect, seed, d, frontier, rest, address, nodes'); }
      } else {
        ghost var midNodes, midNext, midSeen, midAll, midVisited := nodes', next, seen', all', visited';
        visited' := visited' + {address};
        nodes', next, seen', all' := Expand(address, collect(address), d, deeper, visited', nodes', next, seen', all');
        ExpandKeepsNodes(collect, seed, d, address, deeper, midNodes, nodes');
        VisitedNear(collect, seed, d, frontier, rest, midVisited, address);
        ExpandKeepsNext(collect, seed, d, address, deeper, visited', midNodes, nodes', midNext, next);
        GatherMore(collect, midVisited, address, midSeen, midAll, seen', all');
        if deeper { ExpandCovers(collect, frontier, rest, address, midNodes, nodes', d); }
      }
      rest := rest - {raw};
    }
    LevelDone(collect, seed, d, frontier, visited', nodes', next, deeper);
  }

  lemma StartLevel(collect: Collector, seed: string, d: nat, limit: nat, nodes: map<string, Node>)
    requires NodesOk(collect, seed, d, d, nodes) && d <= limit
    ensures NodesOk(collect, seed, d, limit, nodes) && NextOk(collect, seed, d, nodes, {})
  {
    forall a | a in nodes
      ensures Within(Neighbours(collect), seed, a, limit)
    {
      WithinGrows(Neighbours(collect), seed, a, d, limit);
    }
  }

  lemma VisitedNear(collect: Collector, seed: string, d: nat, frontier: set<string>, rest: set<string>,
                    visited: set<string>, address: string)
    requires Frontier(Neighbours(collect), seed, d, frontier) && Partway(collect, seed, d, frontier, rest, visited)
    requires address in frontier
    ensures forall a | a in visited + {address} :: Within(Neighbours(collect), seed, a, d)
  {
    forall a | a in visited + {address}
      ensures Within(Neighbours(collect), seed, a, d)
    {
      if d > 0 && Within(Neighbours(collect), seed, a, d - 1) { WithinGrows(Neighbours(collect), seed, a, d - 1, d); }
    }
  }

  // ---------------------------------------------------------------------------------------------
  // The whole investigation

  lemma EmptyFrontierEnds(collect: Collector, seed: string, d: nat, depth: nat, visited: set<string>,
                          nodes: map<string, Node>)
    requires Frontier(Neighbours(collect), seed, d, {}) && d <= depth
    requires VisitedOk(collect, seed, d, visited) && NodesOk(collect, seed, d, d, nodes)
    ensures VisitedOk(collect, seed, depth + 1, visited) && NodesOk(collect, seed, depth, depth, nodes)
  {
    var g := Neighbours(collect);
    forall a
      ensures Within(g, seed, a, depth) <==> d > 0 && Within(g, seed, a, d - 1)
      ensures Within(g, seed, a, depth) <==> Within(g, seed, a, d)
    {
      if Within(g, seed, a, depth) { EmptyLevelEnds(g, seed, a, d, depth); WithinGrows(g, seed, a, d - 1, d); }
      if d > 0 && Within(g, seed, a, d - 1) { WithinGrows(g, seed, a, d - 1, depth); }
      if Within(g, seed, a, d) { WithinGrows(g, seed, a, d, depth); }
    }
  }

  lemma Start(collect: Collector, seed: string)
    ensures Gathered(collect, {}, {}, []) && VisitedOk(collect, seed, 0, {})
    ensures NodesOk(collect, seed, 0, 0, map[seed := Node(0, None, None)])
    ensures Frontier(Neighbours(collect), seed, 0, {seed})
  {
  }

  /** The level loop. */
  method ExpandAll(collect: Collector, seed: string, depth: int)
    returns (nodes: map<string, Node>, visited: set<string>, seen: set<string>, all: seq<Tx>)
    requires Lower(seed) == seed
    ensures Gathered(collect, visited, seen, all)
    ensures var limit := if depth < 0 then 0 else depth; NodesOk(collect, seed, limit, limit, nodes)
    ensures VisitedOk(collect, seed, if depth < 0 then 0 else depth + 1, visited)
  {
    seen, visited, nodes, all := {}, {}, map[seed := Node(0, None, None)], [];
    var frontier := {seed};
    Start(collect, seed);
    var levels := if depth < 0 then 0 else depth + 1;
    for d := 0 to levels
      invariant Gathered(collect, visited, seen, all) && VisitedOk(collect, seed, d, visited)
      invariant d == 0 || d < levels ==>
        NodesOk(collect, seed, d, d, nodes) && Frontier(Neighbours(collect), seed, d, frontier)
      invariant d == levels && d > 0 ==> NodesOk(collect, seed, levels - 1, levels - 1, nodes)
    {
      if frontier == {} {
        EmptyFrontierEnds(collect, seed, d, depth, visited, nodes);
        return;
      }
      visited, nodes, frontier, seen, all :=
        ExpandLevel(collect, seed, d, d < depth, frontier, visited, nodes, seen, all);
    }
  }

  /**
   Finds exactly the addresses within `depth` hops of the seed, each with its shortest distance and a parent one
   hop nearer, and visits each of them; keeps one transaction for each hash collected on the way, and traces
   their flows.
   */
  method Investigate(collect: Collector, rawSeed: string, depth: int)
    returns (nodes: map<string, Node>, visited: set<string>, all: seq<Tx>, flows: seq<Flow>)
    ensures var seed, g := Lower(rawSeed), Neighbours(collect);
      && (forall a :: a in nodes <==> Within(g, seed, a, if depth < 0 then 0 else depth))
      && (forall a | a in nodes :: NodeOk(collect, seed, nodes, a))
      && (forall a :: a in visited <==> depth >= 0 && Within(g, seed, a, depth))
    ensures exists seen :: Gathered(collect, visited, seen, all)
    ensures flows == Levels(FlowGraph(all), all, Lower(rawSeed), if depth < 0 then 0 else depth + 1)
  {
    var seed := Lower(rawSeed);
    LowerTwice(rawSeed);
    var seen;
    nodes, visited, seen, all := ExpandAll(collect, seed, depth);
    flows := BuildFlows(all, seed, depth + 1);
  }
}
