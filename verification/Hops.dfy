/** Hop distances in a graph of addresses. */
module Hops {

  type Graph = iset<(string, string)>

  /** At most `k` hops lead from the seed to the address. */
  ghost predicate Within(g: Graph, seed: string, a: string, k: nat)
    decreases k
  {
    if k == 0 then a == seed
    else Within(g, seed, a, k - 1) || exists b :: Within(g, seed, b, k - 1) && (b, a) in g
  }

  /** The shortest way from the seed to the address has `d` hops. */
  ghost predicate Distance(g: Graph, seed: string, a: string, d: nat) {
    Within(g, seed, a, d) && (d > 0 ==> !Within(g, seed, a, d - 1))
  }

  ghost predicate IsPath(g: Graph, path: seq<string>, seed: string, a: string) {
    && path != [] && path[0] == seed && path[|path| - 1] == a
    && forall i | 0 < i < |path| :: (path[i - 1], path[i]) in g
  }

  lemma {:induction false} WithinGrows(g: Graph, seed: string, a: string, k: nat, n: nat)
    requires Within(g, seed, a, k) && k <= n
    ensures Within(g, seed, a, n)
    decreases n
  {
    if k < n { WithinGrows(g, seed, a, k, n - 1); }
  }

  lemma {:induction false} WithinHasPath(g: Graph, seed: string, a: string, k: nat) returns (path: seq<string>)
    requires Within(g, seed, a, k)
    ensures IsPath(g, path, seed, a) && |path| <= k + 1
    decreases k
  {
    if k == 0 {
      path := [seed];
    } else if Within(g, seed, a, k - 1) {
      path := WithinHasPath(g, seed, a, k - 1);
    } else {
      var b :| Within(g, seed, b, k - 1) && (b, a) in g;
      path := WithinHasPath(g, seed, b, k - 1);
      path := path + [a];
    }
  }

  lemma {:induction false} PathGivesWithin(g: Graph, path: seq<string>, seed: string, a: string)
    requires IsPath(g, path, seed, a)
    ensures Within(g, seed, a, |path| - 1)
    decreases |path|
  {
    if |path| > 1 {
      var b := path[|path| - 2];
      assert (path[|path| - 1 - 1], path[|path| - 1]) in g;
      PathGivesWithin(g, path[..|path| - 1], seed, b);
    }
  }

  /** The distance is the length of a shortest path. */
  lemma DistanceIsShortestPath(g: Graph, seed: string, a: string, d: nat)
    ensures Distance(g, seed, a, d) <==>
      && (exists path :: IsPath(g, path, seed, a) && |path| == d + 1)
      && (forall path | IsPath(g, path, seed, a) :: |path| >= d + 1)
  {
    if Distance(g, seed, a, d) {
      var path := WithinHasPath(g, seed, a, d);
      forall other | IsPath(g, other, seed, a)
        ensures |other| >= d + 1
      {
        PathGivesWithin(g, other, seed, a);
        if |other| < d + 1 { WithinGrows(g, seed, a, |other| - 1, d - 1); }
      }
    }
    if
      && (exists path :: IsPath(g, path, seed, a) && |path| == d + 1)
      && (forall path | IsPath(g, path, seed, a) :: |path| >= d + 1)
    {
      var path :| IsPath(g, path, seed, a) && |path| == d + 1;
      PathGivesWithin(g, path, seed, a);
      if d > 0 && Within(g, seed, a, d - 1) {
        var shorter := WithinHasPath(g, seed, a, d - 1);
      }
    }
  }

  lemma DistanceUnique(g: Graph, seed: string, a: string, d: nat, e: nat)
    requires Distance(g, seed, a, d) && Distance(g, seed, a, e)
    ensures d == e
  {
    if d < e { WithinGrows(g, seed, a, d, e - 1); }
    if e < d { WithinGrows(g, seed, a, e, d - 1); }
  }

  lemma {:induction false} HasDistance(g: Graph, seed: string, a: string, k: nat) returns (d: nat)
    requires Within(g, seed, a, k)
    ensures d <= k && Distance(g, seed, a, d)
  {
    if k > 0 && Within(g, seed, a, k - 1) { d := HasDistance(g, seed, a, k - 1); } else { d := k; }
  }

  /** An address at distance `d + 1` has a neighbour at distance `d`. */
  lemma NearerNeighbour(g: Graph, seed: string, a: string, d: nat) returns (b: string)
    requires Distance(g, seed, a, d + 1)
    ensures Distance(g, seed, b, d) && (b, a) in g
  {
    b :| Within(g, seed, b, d) && (b, a) in g;
  }

  /** Where no address has distance `d`, none is farther. */
  lemma {:induction false} EmptyLevelEnds(g: Graph, seed: string, a: string, d: nat, k: nat)
    requires forall b :: !Distance(g, seed, b, d)
    requires Within(g, seed, a, k) && d <= k
    ensures d > 0 && Within(g, seed, a, d - 1)
    decreases k
  {
    var e := HasDistance(g, seed, a, k);
    if e > d {
      var b := NearerNeighbour(g, seed, a, e - 1);
      EmptyLevelEnds(g, seed, b, d, e - 1);
      WithinGrows(g, seed, b, d - 1, e - 2);
    } else if e < d {
      WithinGrows(g, seed, a, e, d - 1);
    }
  }
}
