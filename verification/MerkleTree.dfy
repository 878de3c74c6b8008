/**
 The Merkle tree of the attestation registry: domain-separated hashing with the prefixes of section
 2.1 of RFC 6962, but with an odd last node duplicated at every level.

 The hash and the canonical JSON encoding are arbitrary functions. Results hold outright or name two
 different byte strings, both hashed while building the tree or checking the proof, with one digest.
 */
module MerkleTree {
  import opened Outcomes

  type Byte = b: int | 0 <= b < 256

  type Digest = d: seq<Byte> | |d| == 32 witness seq(32, _ => 0)

  datatype Meta = Meta(attestationId: string, attestationDigest: string, caseDigest: string,
                       verdict: string, issuedAt: string, keyId: string)

  /** A registry entry; a submitted one may leave its index out. */
  datatype Entry = Entry(index: Option<int>, meta: Meta)

  datatype Hashing = Hashing(sha: seq<Byte> -> Digest, json: Entry -> seq<Byte>) {
    ghost predicate Faithful() {
      forall a, b | json(a) == json(b) :: a == b
    }

    function LeafInput(e: Entry): seq<Byte> {
      [0] + json(e)
    }

    function Leaf(e: Entry): Digest {
      sha(LeafInput(e))
    }

    function Parent(l: Digest, r: Digest): Digest {
      sha(ParentInput(l, r))
    }
  }

  function ParentInput(l: Digest, r: Digest): seq<Byte> {
    [1] + l + r
  }

  function Ascii(s: string): seq<Byte> {
    seq(|s|, i requires 0 <= i < |s| => s[i] as int % 256)
  }

  // Written as a sum so that its first character, which tells it from every leaf and parent input, is a literal of
  // its own and the other forty-four are never looked at.
  const EMPTY_TEXT := "A" + "egisForge attestation registry empty root v1"

  const EMPTY_INPUT: seq<Byte> := Ascii(EMPTY_TEXT)

  type Level = seq<Digest>

  /** The node at `i`, where the position after an odd last node repeats that node. */
  function NodeAt(level: Level, i: nat): Digest
    requires level != []
  {
    if i < |level| then level[i] else level[|level| - 1]
  }

  /** The string hashed for the `i`-th pair of a level. */
  function PairInput(level: Level, i: nat): seq<Byte>
    requires 2 * i < |level|
  {
    ParentInput(level[2 * i], NodeAt(level, 2 * i + 1))
  }

  /** The next level: one parent per pair. */
  function Up(h: Hashing, level: Level): (up: Level)
    requires level != []
    ensures |up| == (|level| + 1) / 2
  {
    seq((|level| + 1) / 2, i requires 0 <= i < (|level| + 1) / 2 => h.Parent(level[2 * i], NodeAt(level, 2 * i + 1)))
  }

  function RootOf(h: Hashing, level: Level): Digest
    requires level != []
    decreases |level|
  {
    if |level| == 1 then level[0] else RootOf(h, Up(h, level))
  }

  function Leaves(h: Hashing, entries: seq<Entry>): Level {
    seq(|entries|, i requires 0 <= i < |entries| => h.Leaf(entries[i]))
  }

  function Root(h: Hashing, entries: seq<Entry>): Digest {
    if entries == [] then h.sha(EMPTY_INPUT) else RootOf(h, Leaves(h, entries))
  }

  /** The sibling of node `i` at each level below the root. */
  function Siblings(h: Hashing, level: Level, i: nat): seq<Digest>
    requires i < |level|
    decreases |level|
  {
    if |level| == 1 then []
    else [NodeAt(level, if i % 2 == 1 then i - 1 else i + 1)] + Siblings(h, Up(h, level), i / 2)
  }

  /** Recomputes a root from a node and its siblings; None when the sibling list does not fit. */
  function Fold(h: Hashing, node: Digest, i: nat, width: nat, siblings: seq<Digest>): Option<Digest>
    decreases |siblings|
  {
    if width <= 1 then if siblings == [] then Some(node) else None
    else if siblings == [] then None
    else if i % 2 == 0 then
      if i + 1 >= width && siblings[0] != node then None
      else Fold(h, h.Parent(node, siblings[0]), i / 2, (width + 1) / 2, siblings[1..])
    else Fold(h, h.Parent(siblings[0], node), i / 2, (width + 1) / 2, siblings[1..])
  }

  function Halvings(width: nat): nat {
    if width <= 1 then 0 else 1 + Halvings((width + 1) / 2)
  }

  // ---------------------------------------------------------------------------------------------
  // What was hashed

  ghost function ParentInputs(h: Hashing, level: Level): set<seq<Byte>>
    requires level != []
    decreases |level|
  {
    if |level| == 1 then {}
    else (set i | 0 <= i < (|level| + 1) / 2 :: PairInput(level, i))
         + ParentInputs(h, Up(h, level))
  }

  /** Every byte string hashed to compute the root of the entries. */
  ghost function TreeInputs(h: Hashing, entries: seq<Entry>): set<seq<Byte>> {
    if entries == [] then {EMPTY_INPUT}
    else (set i | 0 <= i < |entries| :: h.LeafInput(entries[i])) + ParentInputs(h, Leaves(h, entries))
  }

  /** Every byte string hashed by `Fold`. */
  ghost function FoldInputs(h: Hashing, node: Digest, i: nat, width: nat, siblings: seq<Digest>): set<seq<Byte>>
    decreases |siblings|
  {
    if width <= 1 || siblings == [] then {}
    else
      var (l, r) := if i % 2 == 0 then (node, siblings[0]) else (siblings[0], node);
      {ParentInput(l, r)} + FoldInputs(h, h.Parent(l, r), i / 2, (width + 1) / 2, siblings[1..])
  }

  /** A member of `xs` and a different member of `ys` have the same digest. */
  ghost predicate Clash(h: Hashing, xs: set<seq<Byte>>, ys: set<seq<Byte>>) {
    exists x, y :: x in xs && y in ys && x != y && h.sha(x) == h.sha(y)
  }

  lemma ClashGrows(h: Hashing, xs: set<seq<Byte>>, ys: set<seq<Byte>>, xs': set<seq<Byte>>, ys': set<seq<Byte>>)
    requires Clash(h, xs, ys) && xs <= xs' && ys <= ys'
    ensures Clash(h, xs', ys')
  {
  }

  lemma NoClashShrinks(h: Hashing, xs: set<seq<Byte>>, ys: set<seq<Byte>>, xs': set<seq<Byte>>, ys': set<seq<Byte>>)
    requires !Clash(h, xs', ys') && xs <= xs' && ys <= ys'
    ensures !Clash(h, xs, ys)
  {
  }

  lemma ParentInputsDiffer(l: Digest, r: Digest, l': Digest, r': Digest)
    requires ParentInput(l, r) == ParentInput(l', r')
    ensures l == l' && r == r'
  {
    assert ParentInput(l, r)[1..33] == l && ParentInput(l', r')[1..33] == l';
    assert ParentInput(l, r)[33..] == r && ParentInput(l', r')[33..] == r';
  }

  // ---------------------------------------------------------------------------------------------
  // Completeness

  lemma PairHashed(h: Hashing, level: Level, i: nat)
    requires |level| > 1 && i < |Up(h, level)|
    ensures Up(h, level)[i] == h.sha(PairInput(level, i)) && PairInput(level, i) in ParentInputs(h, level)
  {
  }

  /** One step of the fold stays on the path: the node and its sibling are the pair above them. */
  lemma SiblingPairs(level: Level, i: nat)
    requires |level| > 1 && i < |level|
    ensures var sibling := NodeAt(level, if i % 2 == 1 then i - 1 else i + 1);
      && PairInput(level, i / 2)
        == (if i % 2 == 0 then ParentInput(level[i], sibling) else ParentInput(sibling, level[i]))
      && (i % 2 == 0 && i + 1 >= |level| ==> sibling == level[i])
  {
    var half := i / 2;
    assert i == 2 * half || i == 2 * half + 1;
  }

  /** Folding a node with its own siblings gives the root, and hashes nothing the tree did not hash. */
  lemma {:induction false} FoldOfSiblings(h: Hashing, level: Level, i: nat)
    requires i < |level|
    ensures Fold(h, level[i], i, |level|, Siblings(h, level, i)) == Some(RootOf(h, level))
    ensures FoldInputs(h, level[i], i, |level|, Siblings(h, level, i)) <= ParentInputs(h, level)
    ensures |Siblings(h, level, i)| == Halvings(|level|)
    decreases |level|
  {
    if |level| > 1 {
      var up := Up(h, level);
      FoldOfSiblings(h, up, i / 2);
      SiblingPairs(level, i);
      PairHashed(h, level, i / 2);
      assert Siblings(h, level, i)[1..] == Siblings(h, up, i / 2);
      assert ParentInputs(h, up) <= ParentInputs(h, level);
    }
  }

  // ---------------------------------------------------------------------------------------------
  // Which siblings fold to a given root

  /** A fold of the right width that reaches the root is that of the node itself with its own siblings, or two hashed
      inputs clash. */
  lemma {:induction false} FoldPins(h: Hashing, level: Level, i: nat, node: Digest, siblings: seq<Digest>)
    requires i < |level| && Fold(h, node, i, |level|, siblings) == Some(RootOf(h, level))
    ensures
      || (node == level[i] && siblings == Siblings(h, level, i))
      || Clash(h, FoldInputs(h, node, i, |level|, siblings), ParentInputs(h, level))
    decreases |level|
  {
    if |level| > 1 {
      var up, rest := Up(h, level), siblings[1..];
      var (l, r) := if i % 2 == 0 then (node, siblings[0]) else (siblings[0], node);
      FoldPins(h, up, i / 2, h.Parent(l, r), rest);
      PairHashed(h, level, i / 2);
      SiblingPairs(level, i);
      if h.Parent(l, r) == up[i / 2] && rest == Siblings(h, up, i / 2) {
        if ParentInput(l, r) == PairInput(level, i / 2) {
          var sibling := NodeAt(level, if i % 2 == 1 then i - 1 else i + 1);
          if i % 2 == 0 {
            ParentInputsDiffer(l, r, level[i], sibling);
          } else {
            ParentInputsDiffer(l, r, sibling, level[i]);
          }
          assert siblings == [siblings[0]] + rest;
        }
      } else {
        ClashGrows(h, FoldInputs(h, h.Parent(l, r), i / 2, |up|, rest), ParentInputs(h, up),
                   FoldInputs(h, node, i, |level|, siblings), ParentInputs(h, level));
      }
    }
  }

  /** On its way to the root the node is never the odd last one of a level, which is paired with itself. */
  predicate NeverLast(i: nat, width: nat) {
    width <= 1 || (!(i % 2 == 0 && i + 1 >= width) && NeverLast(i / 2, (width + 1) / 2))
  }

  /** Where the levels above agree and nothing clashes, so do the nodes below. */
  lemma PairsEqual(h: Hashing, a: Level, b: Level, j: nat)
    requires |a| == |b| > 1 && j < |a| && Up(h, a)[j / 2] == Up(h, b)[j / 2]
    requires !Clash(h, ParentInputs(h, a), ParentInputs(h, b))
    ensures a[j] == b[j]
  {
    PairHashed(h, a, j / 2);
    PairHashed(h, b, j / 2);
    SiblingPairs(a, j);
    SiblingPairs(b, j);
    var x := if j % 2 == 1 then j - 1 else j + 1;
    if j % 2 == 0 {
      ParentInputsDiffer(a[j], NodeAt(a, x), b[j], NodeAt(b, x));
    } else {
      ParentInputsDiffer(NodeAt(a, x), a[j], NodeAt(b, x), b[j]);
    }
  }

  /** Equal siblings fix every other node, and the node itself if it is ever an odd last one. */
  lemma {:induction false} SiblingsPin(h: Hashing, a: Level, b: Level, i: nat)
    requires |a| == |b| && i < |a| && Siblings(h, a, i) == Siblings(h, b, i)
    requires !Clash(h, ParentInputs(h, a), ParentInputs(h, b))
    ensures forall j | 0 <= j < |a| && j != i :: a[j] == b[j]
    ensures !NeverLast(i, |a|) ==> a[i] == b[i]
    decreases |a|
  {
    if |a| > 1 {
      SiblingsSplit(h, a, b, i);
      NoClashAbove(h, a, b);
      SiblingsPin(h, Up(h, a), Up(h, b), i / 2);
      PinBelow(h, a, b, i);
    }
  }

  lemma SiblingsSplit(h: Hashing, a: Level, b: Level, i: nat)
    requires |a| == |b| > 1 && i < |a| && Siblings(h, a, i) == Siblings(h, b, i)
    ensures var k := if i % 2 == 1 then i - 1 else i + 1; NodeAt(a, k) == NodeAt(b, k)
    ensures Siblings(h, Up(h, a), i / 2) == Siblings(h, Up(h, b), i / 2)
  {
    var x, y := Siblings(h, a, i), Siblings(h, b, i);
    assert x[1..] == Siblings(h, Up(h, a), i / 2) && y[1..] == Siblings(h, Up(h, b), i / 2);
    assert x[0] == y[0];
  }

  lemma NoClashAbove(h: Hashing, a: Level, b: Level)
    requires |a| == |b| > 1 && !Clash(h, ParentInputs(h, a), ParentInputs(h, b))
    ensures !Clash(h, ParentInputs(h, Up(h, a)), ParentInputs(h, Up(h, b)))
  {
    NoClashShrinks(h, ParentInputs(h, Up(h, a)), ParentInputs(h, Up(h, b)), ParentInputs(h, a), ParentInputs(h, b));
  }

  /** The level above agrees except above the node, and there too if the node is ever an odd last one from there on. */
  ghost predicate PinnedAbove(h: Hashing, a: Level, b: Level, i: nat)
    requires |a| == |b| > 1 && i < |a|
  {
    var up, up' := Up(h, a), Up(h, b);
    && (forall k | 0 <= k < |up| && k != i / 2 :: up[k] == up'[k])
    && (!NeverLast(i / 2, |up|) ==> up[i / 2] == up'[i / 2])
  }

  lemma PinOther(h: Hashing, a: Level, b: Level, i: nat, j: nat)
    requires |a| == |b| > 1 && i < |a| && j < |a| && j != i && !Clash(h, ParentInputs(h, a), ParentInputs(h, b))
    requires var k := if i % 2 == 1 then i - 1 else i + 1; NodeAt(a, k) == NodeAt(b, k)
    requires j / 2 != i / 2 ==> Up(h, a)[j / 2] == Up(h, b)[j / 2]
    ensures a[j] == b[j]
  {
    if j / 2 == i / 2 {
      assert j == if i % 2 == 1 then i - 1 else i + 1;
    } else {
      PairsEqual(h, a, b, j);
    }
  }

  /** One level down. */
  lemma PinBelow(h: Hashing, a: Level, b: Level, i: nat)
    requires |a| == |b| > 1 && i < |a| && !Clash(h, ParentInputs(h, a), ParentInputs(h, b))
    requires var k := if i % 2 == 1 then i - 1 else i + 1; NodeAt(a, k) == NodeAt(b, k)
    requires PinnedAbove(h, a, b, i)
    ensures forall j | 0 <= j < |a| && j != i :: a[j] == b[j]
    ensures !NeverLast(i, |a|) ==> a[i] == b[i]
  {
    forall j | 0 <= j < |a| && j != i
      ensures a[j] == b[j]
    {
      PinOther(h, a, b, i, j);
    }
    if !NeverLast(i, |a|) && !(i % 2 == 0 && i + 1 >= |a|) { PairsEqual(h, a, b, i); }
  }

  /** Levels that agree but for one node, which is never an odd last one, give it the same siblings. */
  lemma {:induction false} SiblingsAgree(h: Hashing, a: Level, b: Level, i: nat)
    requires |a| == |b| && i < |a| && NeverLast(i, |a|) && forall j | 0 <= j < |a| && j != i :: a[j] == b[j]
    ensures Siblings(h, a, i) == Siblings(h, b, i)
    decreases |a|
  {
    if |a| > 1 {
      var up, up' := Up(h, a), Up(h, b);
      forall k | 0 <= k < |up| && k != i / 2
        ensures up[k] == up'[k]
      {
        assert 2 * k != i && 2 * k + 1 != i;
      }
      SiblingsAgree(h, up, up', i / 2);
    }
  }

  // ---------------------------------------------------------------------------------------------
  // Soundness

  /** The digest occurs `height` levels above the given level. */
  ghost predicate InTree(h: Hashing, level: Level, x: Digest, height: nat)
    requires level != []
    decreases height
  {
    if height == 0 then x in level else |level| > 1 && InTree(h, Up(h, level), x, height - 1)
  }

  lemma {:induction false} RootInTree(h: Hashing, level: Level)
    requires level != []
    ensures InTree(h, level, RootOf(h, level), Halvings(|level|))
    decreases |level|
  {
    if |level| > 1 { RootInTree(h, Up(h, level)); }
  }

  lemma ParentInputsGrow(h: Hashing, level: Level)
    requires |level| > 1
    ensures ParentInputs(h, Up(h, level)) <= ParentInputs(h, level)
  {
  }

  lemma UpSplits(h: Hashing, level: Level, x: Digest) returns (l: Digest, r: Digest)
    requires |level| > 1 && x in Up(h, level)
    ensures x == h.Parent(l, r) && ParentInput(l, r) in ParentInputs(h, level) && l in level && r in level
  {
    var i :| 0 <= i < |Up(h, level)| && Up(h, level)[i] == x;
    PairHashed(h, level, i);
    l, r := level[2 * i], NodeAt(level, 2 * i + 1);
  }

  /** The two digests are a pair whose parent is the given digest, one level below it. */
  ghost predicate Splits(h: Hashing, level: Level, x: Digest, height: nat, l: Digest, r: Digest)
    requires level != []
  {
    && height > 0 && x == h.Parent(l, r) && ParentInput(l, r) in ParentInputs(h, level)
    && InTree(h, level, l, height - 1) && InTree(h, level, r, height - 1)
  }

  lemma SplitsBelow(h: Hashing, level: Level, x: Digest, height: nat, l: Digest, r: Digest)
    requires |level| > 1 && Splits(h, Up(h, level), x, height, l, r)
    ensures Splits(h, level, x, height + 1, l, r)
  {
    ParentInputsGrow(h, level);
  }

  /** Above the leaves, a node is the hash of two nodes one level below. */
  lemma {:induction false} InTreeSplits(h: Hashing, level: Level, x: Digest, height: nat) returns (l: Digest, r: Digest)
    requires level != [] && height > 0 && InTree(h, level, x, height)
    ensures Splits(h, level, x, height, l, r)
    decreases height
  {
    if height == 1 {
      l, r := UpSplits(h, level, x);
    } else {
      l, r := InTreeSplits(h, Up(h, level), x, height - 1);
      SplitsBelow(h, level, x, height - 1, l, r);
    }
  }

  /** If folding a node reaches a digest of the tree, the node itself, and its first sibling, are in the
      tree, at one and the same level; or two hashed inputs clash. */
  lemma {:induction false} FoldDescends(h: Hashing, entries: seq<Entry>, node: Digest, i: nat, width: nat,
                                        siblings: seq<Digest>) returns (height: nat)
    requires entries != [] && Fold(h, node, i, width, siblings) == Some(Root(h, entries))
    ensures
      || (InTree(h, Leaves(h, entries), node, height)
          && (siblings != [] ==> InTree(h, Leaves(h, entries), siblings[0], height)))
      || Clash(h, FoldInputs(h, node, i, width, siblings), TreeInputs(h, entries))
    decreases |siblings|
  {
    var level := Leaves(h, entries);
    if width <= 1 {
      RootInTree(h, level);
      height := Halvings(|level|);
    } else {
      var (l, r) := if i % 2 == 0 then (node, siblings[0]) else (siblings[0], node);
      var above := FoldDescends(h, entries, h.Parent(l, r), i / 2, (width + 1) / 2, siblings[1..]);
      height := if above == 0 then 0 else above - 1;
      var xs := FoldInputs(h, node, i, width, siblings);
      if InTree(h, level, h.Parent(l, r), above) {
        if above == 0 {
          var k :| 0 <= k < |level| && level[k] == h.Parent(l, r);
          LeafIsNoParent(h, entries, k, l, r, xs);
        } else {
          var l', r' := InTreeSplits(h, level, h.Parent(l, r), above);
          if ParentInput(l, r) == ParentInput(l', r') {
            ParentInputsDiffer(l, r, l', r');
          } else {
            assert ParentInput(l, r) in xs && ParentInput(l', r') in TreeInputs(h, entries);
            assert h.sha(ParentInput(l, r)) == h.sha(ParentInput(l', r'));
          }
        }
      } else {
        ClashGrows(h, FoldInputs(h, h.Parent(l, r), i / 2, (width + 1) / 2, siblings[1..]), TreeInputs(h, entries),
                   xs, TreeInputs(h, entries));
      }
    }
  }

  lemma LeafIsNoParent(h: Hashing, entries: seq<Entry>, k: nat, l: Digest, r: Digest, xs: set<seq<Byte>>)
    requires k < |entries| && h.Leaf(entries[k]) == h.Parent(l, r) && ParentInput(l, r) in xs
    ensures Clash(h, xs, TreeInputs(h, entries))
  {
    var x, y := ParentInput(l, r), h.LeafInput(entries[k]);
    assert x[0] == 1 && y[0] == 0;
    assert y in TreeInputs(h, entries);
  }

  /** Every string hashed to check one inclusion proof. */
  ghost function ProofInputs(h: Hashing, e: Entry, i: nat, width: nat, siblings: seq<Digest>): set<seq<Byte>> {
    {h.LeafInput(e)} + FoldInputs(h, h.Leaf(e), i, width, siblings)
  }

  /** A leaf digest found in the tree is a leaf of the tree. */
  lemma LeafFound(h: Hashing, entries: seq<Entry>, e: Entry, height: nat, xs: set<seq<Byte>>)
    requires h.Faithful() && entries != [] && InTree(h, Leaves(h, entries), h.Leaf(e), height) && h.LeafInput(e) in xs
    ensures e in entries || Clash(h, xs, TreeInputs(h, entries))
    ensures height == 0 || Clash(h, xs, TreeInputs(h, entries))
  {
    var level, x := Leaves(h, entries), h.LeafInput(e);
    if height == 0 {
      var k :| 0 <= k < |level| && level[k] == h.Leaf(e);
      var y := h.LeafInput(entries[k]);
      assert y in TreeInputs(h, entries);
      if x == y {
        assert x[1..] == h.json(e) && y[1..] == h.json(entries[k]);
      }
    } else {
      var l, r := InTreeSplits(h, level, h.Leaf(e), height);
      var y := ParentInput(l, r);
      assert x[0] == 0 && y[0] == 1 && y in TreeInputs(h, entries);
    }
  }

  /** An accepted leaf is one of the entries, or two hashed inputs clash. */
  lemma FoldSound(h: Hashing, entries: seq<Entry>, e: Entry, i: nat, width: nat, siblings: seq<Digest>)
    requires h.Faithful() && Fold(h, h.Leaf(e), i, width, siblings) == Some(Root(h, entries))
    ensures e in entries || Clash(h, ProofInputs(h, e, i, width, siblings), TreeInputs(h, entries))
  {
    var xs := ProofInputs(h, e, i, width, siblings);
    if entries == [] {
      var x := FoldEnds(h, h.Leaf(e), h.LeafInput(e), i, width, siblings);
      assert EMPTY_TEXT[0] == 'A' && 'A' as int == 65;
      assert EMPTY_INPUT[0] == 65;
      assert x in xs && EMPTY_INPUT in TreeInputs(h, entries) && x != EMPTY_INPUT;
    } else {
      var height := FoldDescends(h, entries, h.Leaf(e), i, width, siblings);
      if InTree(h, Leaves(h, entries), h.Leaf(e), height) {
        LeafFound(h, entries, e, height, xs);
      } else {
        ClashGrows(h, FoldInputs(h, h.Leaf(e), i, width, siblings), TreeInputs(h, entries), xs, TreeInputs(h, entries));
      }
    }
  }

  /** The last input hashed by a fold starts with one of the two prefixes. */
  lemma {:induction false} FoldEnds(h: Hashing, node: Digest, input: seq<Byte>, i: nat, width: nat,
                                    siblings: seq<Digest>) returns (x: seq<Byte>)
    requires Fold(h, node, i, width, siblings).Some? && h.sha(input) == node && |input| > 0 && input[0] <= 1
    ensures x in {input} + FoldInputs(h, node, i, width, siblings)
    ensures |x| > 0 && x[0] <= 1 && Some(h.sha(x)) == Fold(h, node, i, width, siblings)
    decreases |siblings|
  {
    if width <= 1 {
      x := input;
    } else {
      var (l, r) := if i % 2 == 0 then (node, siblings[0]) else (siblings[0], node);
      x := FoldEnds(h, h.Parent(l, r), ParentInput(l, r), i / 2, (width + 1) / 2, siblings[1..]);
    }
  }
}
