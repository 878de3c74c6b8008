/** Registry snapshots, their inclusion proofs and their append-only chain. */
module AttestationRegistry {
  import opened Outcomes
  import opened MerkleTree

  datatype RegistryError =
    | EntryInvalid | DuplicateId | SizeMismatch | RootMismatch | CheckpointInvalid | IdNotFound
    | TreeSizeInvalid | LeafIndexInvalid | SiblingMissing | DuplicateLastMismatch | ExtraSiblings | ProofInvalid

  datatype Checkpoint = Checkpoint(size: int, root: Digest, registryDigest: Digest)

  datatype Registry = Registry(size: int, entries: seq<Entry>, root: Digest, previous: Option<Checkpoint>)

  datatype Proof = Proof(treeSize: int, leafIndex: int, entry: Entry, siblings: seq<Digest>, root: Digest)

  const ALLOWED_VERDICTS := {"REPRODUCED", "NOT_REPRODUCED", "INCONCLUSIVE", "OUT_OF_SCOPE"}

  predicate IsHash(s: string) {
    |s| == 64 && forall i | 0 <= i < 64 :: '0' <= s[i] <= '9' || 'a' <= s[i] <= 'f'
  }

  predicate MetaOk(m: Meta) {
    && IsHash(m.attestationId) && IsHash(m.attestationDigest) && IsHash(m.caseDigest)
    && m.verdict in ALLOWED_VERDICTS && m.issuedAt != "" && m.keyId != ""
  }

  /** An entry may stand at position `i`: if it names an index, the index is `i`. */
  predicate EntryOk(e: Entry, i: nat) {
    (e.index.Some? ==> e.index.value == i) && MetaOk(e.meta)
  }

  function Normal(e: Entry, i: nat): Entry {
    Entry(Some(i), e.meta)
  }

  function Normals(entries: seq<Entry>): seq<Entry> {
    seq(|entries|, i requires 0 <= i < |entries| => Normal(entries[i], i))
  }

  predicate DistinctIds(entries: seq<Entry>) {
    forall i, j | 0 <= i < j < |entries| :: entries[i].meta.attestationId != entries[j].meta.attestationId
  }

  predicate EntriesOk(entries: seq<Entry>) {
    (forall i | 0 <= i < |entries| :: EntryOk(entries[i], i)) && DistinctIds(entries)
  }

  /** Every entry carries its index. */
  predicate Indexed(entries: seq<Entry>) {
    forall i | 0 <= i < |entries| :: entries[i].index.Some?
  }

  predicate Valid(h: Hashing, r: Registry) {
    && r.size == |r.entries| && EntriesOk(r.entries) && r.root == Root(h, Normals(r.entries))
    && (r.previous.Some? ==> r.previous.value.size >= 0)
  }

  /** Accepts a proof against a pinned root and, optionally, a pinned size. */
  predicate Accepts(h: Hashing, p: Proof, root: Digest, size: Option<int>) {
    && p.root == root && p.treeSize >= 1 && (size.Some? ==> size.value == p.treeSize)
    && 0 <= p.leafIndex < p.treeSize && EntryOk(p.entry, p.leafIndex)
    && Fold(h, h.Leaf(Normal(p.entry, p.leafIndex)), p.leafIndex, p.treeSize, p.siblings) == Some(root)
  }

  /** The proof the builder makes for position `i`; it hashes the entries as they are stored. */
  function ProofAt(h: Hashing, r: Registry, i: nat): Proof
    requires i < |r.entries|
  {
    Proof(r.size, i, r.entries[i], Siblings(h, Leaves(h, r.entries), i), r.root)
  }

  // ---------------------------------------------------------------------------------------------
  // The loops

  /** Hashes level by level, appending a copy of an odd last node. */
  method NextLevel(h: Hashing, nodes: Level) returns (up: Level)
    requires |nodes| > 1
    ensures up == Up(h, nodes)
  {
    var level := nodes;
    if |level| % 2 == 1 { level := level + [level[|level| - 1]]; }
    up := [];
    var position := 0;
    while position < |level|
      invariant 0 <= position <= |level| && position == 2 * |up|
      invariant forall k | 0 <= k < |up| :: up[k] == Up(h, nodes)[k]
    {
      up := up + [h.Parent(level[position], level[position + 1])];
      position := position + 2;
    }
  }

  method RootFromEntries(h: Hashing, entries: seq<Entry>) returns (root: Digest)
    ensures root == Root(h, entries)
  {
    if entries == [] { return h.sha(EMPTY_INPUT); }
    var level := Leaves(h, entries);
    while |level| > 1
      invariant level != [] && RootOf(h, level) == Root(h, entries)
      decreases |level|
    {
      level := NextLevel(h, level);
    }
    root := level[0];
  }

  method BuildRegistry(h: Hashing, entries: seq<Entry>, previous: Option<Checkpoint>)
    returns (r: Result<Registry, RegistryError>)
    ensures r.Ok? <==> EntriesOk(entries) && (previous.Some? ==> previous.value.size >= 0)
    ensures r.Ok? ==> Valid(h, r.value) && Indexed(r.value.entries)
    ensures r.Ok? ==> r.value.entries == Normals(entries) && r.value.previous == previous
  {
    if exists i | 0 <= i < |entries| :: !EntryOk(entries[i], i) { return Err(EntryInvalid); }
    var normalized := Normals(entries);
    assert forall i | 0 <= i < |entries| :: normalized[i].meta == entries[i].meta;
    if !DistinctIds(normalized) { return Err(DuplicateId); }
    if previous.Some? && previous.value.size < 0 { return Err(CheckpointInvalid); }
    var root := RootFromEntries(h, normalized);
    assert Normals(normalized) == normalized;
    r := Ok(Registry(|normalized|, normalized, root, previous));
  }

  method VerifyRegistry(h: Hashing, r: Registry) returns (outcome: Result<Digest, RegistryError>)
    ensures outcome.Ok? <==> Valid(h, r)
    ensures outcome.Ok? ==> outcome.value == r.root
  {
    if r.size != |r.entries| { return Err(SizeMismatch); }
    if exists i | 0 <= i < |r.entries| :: !EntryOk(r.entries[i], i) { return Err(EntryInvalid); }
    if !DistinctIds(r.entries) { return Err(DuplicateId); }
    var root := RootFromEntries(h, Normals(r.entries));
    if r.root != root { return Err(RootMismatch); }
    if r.previous.Some? && r.previous.value.size < 0 { return Err(CheckpointInvalid); }
    outcome := Ok(root);
  }

  /** The siblings taken so far are the first of those of the leaf; the rest are those of the current node. */
  ghost predicate TakenUpTo(h: Hashing, all: seq<Digest>, taken: seq<Digest>, level: Level, i: nat) {
    i < |level| && |taken| <= |all| && all[..|taken|] == taken && all[|taken|..] == Siblings(h, level, i)
  }

  lemma TakeSibling(h: Hashing, all: seq<Digest>, taken: seq<Digest>, level: Level, i: nat, sibling: Digest)
    requires TakenUpTo(h, all, taken, level, i) && |level| > 1
    requires sibling == NodeAt(level, if i % 2 == 1 then i - 1 else i + 1)
    ensures TakenUpTo(h, all, taken + [sibling], Up(h, level), i / 2)
  {
    var rest := Siblings(h, Up(h, level), i / 2);
    assert all[|taken|..] == [sibling] + rest;
    assert all[|taken|] == sibling && all[|taken| + 1..] == all[|taken|..][1..] == rest;
  }

  lemma AllTaken(h: Hashing, all: seq<Digest>, taken: seq<Digest>, level: Level, i: nat)
    requires TakenUpTo(h, all, taken, level, i) && |level| == 1
    ensures taken == all
  {
    assert all[|taken|..] == [];
  }

  /** Moves one level up: the node's sibling, the next level and the parent's index. */
  method ClimbOnce(h: Hashing, level: Level, index: nat) returns (sibling: Digest, level': Level, index': nat)
    requires index < |level| && |level| > 1
    ensures sibling == NodeAt(level, if index % 2 == 1 then index - 1 else index + 1)
    ensures level' == Up(h, level) && index' == index / 2
  {
    sibling := level[if index % 2 == 1 then index - 1 else if index + 1 < |level| then index + 1 else |level| - 1];
    level' := NextLevel(h, level);
    index' := index / 2;
  }

  method CollectSiblings(h: Hashing, leaves: Level, leafIndex: nat) returns (siblings: seq<Digest>)
    requires leafIndex < |leaves|
    ensures siblings == Siblings(h, leaves, leafIndex)
  {
    var level, index: nat := leaves, leafIndex;
    siblings := [];
    ghost var all := Siblings(h, leaves, leafIndex);
    while |level| > 1
      invariant TakenUpTo(h, all, siblings, level, index)
      decreases |level|
    {
      var sibling, level', index' := ClimbOnce(h, level, index);
      TakeSibling(h, all, siblings, level, index, sibling);
      siblings, level, index := siblings + [sibling], level', index';
    }
    AllTaken(h, all, siblings, level, index);
  }

  /** The first entry with the id, or the number of entries. */
  method FindEntry(entries: seq<Entry>, id: string) returns (k: nat)
    ensures k <= |entries| && (k < |entries| ==> entries[k].meta.attestationId == id)
    ensures forall i | 0 <= i < k :: entries[i].meta.attestationId != id
  {
    k := 0;
    while k < |entries| && entries[k].meta.attestationId != id
      invariant k <= |entries| && forall i | 0 <= i < k :: entries[i].meta.attestationId != id
    {
      k := k + 1;
    }
  }

  method BuildInclusionProof(h: Hashing, r: Registry, id: string) returns (p: Result<Proof, RegistryError>)
    ensures p.Ok? <==> Valid(h, r) && exists i | 0 <= i < |r.entries| :: r.entries[i].meta.attestationId == id
    ensures p.Ok? ==> 0 <= p.value.leafIndex < |r.entries| && r.entries[p.value.leafIndex].meta.attestationId == id
    ensures p.Ok? ==> p.value == ProofAt(h, r, p.value.leafIndex)
    ensures p.Ok? ==> forall j | 0 <= j < |r.entries| && r.entries[j].meta.attestationId == id :: j == p.value.leafIndex
  {
    var valid := VerifyRegistry(h, r);
    if valid.Err? { return Err(valid.error); }
    var leafIndex := FindEntry(r.entries, id);
    if leafIndex == |r.entries| { return Err(IdNotFound); }
    var siblings := CollectSiblings(h, Leaves(h, r.entries), leafIndex);
    p := Ok(Proof(r.size, leafIndex, r.entries[leafIndex], siblings, r.root));
  }

  method VerifyInclusionProof(h: Hashing, p: Proof, root: Digest, size: Option<int>)
    returns (r: Result<string, RegistryError>)
    ensures r.Ok? <==> Accepts(h, p, root, size)
    ensures r.Ok? ==> r.value == p.entry.meta.attestationId
  {
    if p.root != root { return Err(RootMismatch); }
    if p.treeSize < 1 { return Err(TreeSizeInvalid); }
    if size.Some? && size.value != p.treeSize { return Err(TreeSizeInvalid); }
    if !(0 <= p.leafIndex < p.treeSize) { return Err(LeafIndexInvalid); }
    if !EntryOk(p.entry, p.leafIndex) { return Err(EntryInvalid); }
    var current, index, width, position := h.Leaf(Normal(p.entry, p.leafIndex)), p.leafIndex, p.treeSize, 0;
    while width > 1
      invariant 0 <= position <= |p.siblings| && index >= 0 && width >= 1
      invariant Fold(h, current, index, width, p.siblings[position..])
             == Fold(h, h.Leaf(Normal(p.entry, p.leafIndex)), p.leafIndex, p.treeSize, p.siblings)
      decreases width
    {
      if position >= |p.siblings| { return Err(SiblingMissing); }
      var sibling := p.siblings[position];
      assert p.siblings[position..][0] == sibling && p.siblings[position..][1..] == p.siblings[position + 1..];
      if index % 2 == 0 {
        if index + 1 >= width && sibling != current { return Err(DuplicateLastMismatch); }
        current := h.Parent(current, sibling);
      } else {
        current := h.Parent(sibling, current);
      }
      index, width, position := index / 2, (width + 1) / 2, position + 1;
    }
    if position != |p.siblings| { return Err(ExtraSiblings); }
    if current != root { return Err(ProofInvalid); }
    r := Ok(p.entry.meta.attestationId);
  }

  // ---------------------------------------------------------------------------------------------
  // Inclusion proofs

  /** Every string hashed to check the proof. */
  ghost function InputsOf(h: Hashing, p: Proof): set<seq<Byte>>
    requires 0 <= p.leafIndex && 0 <= p.treeSize
  {
    ProofInputs(h, Normal(p.entry, p.leafIndex), p.leafIndex, p.treeSize, p.siblings)
  }

  /** Soundness: a proof accepted under the root of a valid registry, even without a pinned size, shows
      that registry's own entry at that position; or the proof and the tree hashed clashing inputs. */
  lemma InclusionSound(h: Hashing, p: Proof, r: Registry, size: Option<int>)
    requires h.Faithful() && Valid(h, r) && Accepts(h, p, r.root, size)
    ensures
      || (p.leafIndex < |r.entries| && Normal(p.entry, p.leafIndex) == Normal(r.entries[p.leafIndex], p.leafIndex))
      || Clash(h, InputsOf(h, p), TreeInputs(h, Normals(r.entries)))
  {
    FoldSound(h, Normals(r.entries), Normal(p.entry, p.leafIndex), p.leafIndex, p.treeSize, p.siblings);
  }

  /** Completeness, when the stored entries carry their indices or there is only one. */
  lemma InclusionComplete(h: Hashing, r: Registry, i: nat)
    requires Valid(h, r) && i < |r.entries| && (|r.entries| == 1 || Indexed(r.entries))
    ensures Accepts(h, ProofAt(h, r, i), r.root, Some(r.size))
    ensures |ProofAt(h, r, i).siblings| == Halvings(|r.entries|)
    ensures InputsOf(h, ProofAt(h, r, i)) <= TreeInputs(h, Normals(r.entries))
  {
    var normal := Normals(r.entries);
    FoldOfSiblings(h, Leaves(h, normal), i);
    if |r.entries| == 1 {
    } else {
      assert forall k | 0 <= k < |r.entries| :: EntryOk(r.entries[k], k) ==> normal[k] == r.entries[k];
      assert r.entries == normal;
    }
    assert h.LeafInput(normal[i]) in TreeInputs(h, normal);
  }

  lemma {:induction false} FoldUsesAll(h: Hashing, node: Digest, i: nat, width: nat, siblings: seq<Digest>)
    requires Fold(h, node, i, width, siblings).Some?
    ensures |siblings| == Halvings(width)
    decreases |siblings|
  {
    if width > 1 {
      var next := if i % 2 == 0 then h.Parent(node, siblings[0]) else h.Parent(siblings[0], node);
      FoldUsesAll(h, next, i / 2, (width + 1) / 2, siblings[1..]);
    }
  }

  /** An accepted proof names the expected root and a position of its tree, has exactly one sibling for each halving,
      and shows an entry with hashes where hashes belong, an allowed verdict, and no other index than the position. */
  lemma AcceptedIsWellFormed(h: Hashing, p: Proof, root: Digest, size: Option<int>)
    requires Accepts(h, p, root, size)
    ensures p.root == root && 0 <= p.leafIndex < p.treeSize && |p.siblings| == Halvings(p.treeSize)
    ensures p.entry.index in {None, Some(p.leafIndex)} && p.entry.meta.verdict in ALLOWED_VERDICTS
    ensures IsHash(p.entry.meta.attestationId) && IsHash(p.entry.meta.attestationDigest)
    ensures IsHash(p.entry.meta.caseDigest)
    ensures p.entry.meta.issuedAt != "" && p.entry.meta.keyId != ""
  {
    FoldUsesAll(h, h.Leaf(Normal(p.entry, p.leafIndex)), p.leafIndex, p.treeSize, p.siblings);
  }

  /** A pinned size is checked: it accepts what no pin accepts, and only for the proof's own tree size. So the proof of
      a valid registry is refused for every size but the registry's. */
  lemma SizePinned(h: Hashing, p: Proof, root: Digest, size: int)
    ensures Accepts(h, p, root, Some(size)) <==> Accepts(h, p, root, None) && p.treeSize == size
    ensures forall r: Registry, i: nat | Valid(h, r) && i < |r.entries| && p == ProofAt(h, r, i) ::
      Accepts(h, p, root, Some(size)) ==> size == |r.entries|
  {
  }

  /** The position whose proof shows the stored hash of entry `k` as its first sibling. */
  function Buddy(k: nat, size: nat): nat
    requires k < size
  {
    if k % 2 == 1 then k - 1 else if k + 1 < size then k + 1 else k
  }

  /** An entry stored without its index spoils the proof of its neighbour. */
  lemma UnindexedProofFails(h: Hashing, r: Registry, k: nat)
    requires h.Faithful() && Valid(h, r) && k < |r.entries| && |r.entries| > 1 && r.entries[k].index.None?
    ensures var p := ProofAt(h, r, Buddy(k, |r.entries|));
      || !Accepts(h, p, r.root, Some(r.size))
      || Clash(h, InputsOf(h, p) + {h.LeafInput(r.entries[k])}, TreeInputs(h, Normals(r.entries)))
  {
    var i := Buddy(k, |r.entries|);
    var p, normal := ProofAt(h, r, i), Normals(r.entries);
    var xs := InputsOf(h, p) + {h.LeafInput(r.entries[k])};
    assert p.siblings[0] == h.Leaf(r.entries[k]);
    if Accepts(h, p, r.root, Some(r.size)) {
      var height := FoldDescends(h, normal, h.Leaf(Normal(p.entry, i)), i, p.treeSize, p.siblings);
      if InTree(h, Leaves(h, normal), p.siblings[0], height) {
        LeafFound(h, normal, r.entries[k], height, xs);
        assert r.entries[k] !in normal;
      } else {
        ClashGrows(h, FoldInputs(h, h.Leaf(Normal(p.entry, i)), i, p.treeSize, p.siblings), TreeInputs(h, normal),
                   xs, TreeInputs(h, normal));
      }
    }
  }

  /** Completeness holds exactly for the registries whose entries all carry their index, and for those
      of at most one entry; short of a clash, any other valid registry has an entry whose proof fails. */
  lemma CompleteExactly(h: Hashing, r: Registry)
    requires h.Faithful() && Valid(h, r)
    ensures |r.entries| <= 1 || Indexed(r.entries) ==>
      forall i | 0 <= i < |r.entries| :: Accepts(h, ProofAt(h, r, i), r.root, Some(r.size))
    ensures |r.entries| > 1 && !Indexed(r.entries) ==>
      exists i, k :: 0 <= i < |r.entries| && 0 <= k < |r.entries| &&
        (!Accepts(h, ProofAt(h, r, i), r.root, Some(r.size))
         || Clash(h, InputsOf(h, ProofAt(h, r, i)) + {h.LeafInput(r.entries[k])}, TreeInputs(h, Normals(r.entries))))
  {
    if |r.entries| <= 1 || Indexed(r.entries) {
      forall i | 0 <= i < |r.entries|
        ensures Accepts(h, ProofAt(h, r, i), r.root, Some(r.size))
      {
        InclusionComplete(h, r, i);
      }
    } else {
      var k :| 0 <= k < |r.entries| && r.entries[k].index.None?;
      UnindexedProofFails(h, r, k);
      var i := Buddy(k, |r.entries|);
      assert 0 <= i < |r.entries|;
    }
  }

  /** What the proof of one position needs: every other entry carries its index, and so does its own unless its node
      is never the odd last one of a level. */
  predicate ProvableAt(entries: seq<Entry>, i: nat)
    requires i < |entries|
  {
    && (forall j | 0 <= j < |entries| && j != i :: entries[j].index.Some?)
    && (entries[i].index.Some? || NeverLast(i, |entries|))
  }

  /** Where it is met, the siblings built from the stored entries are those of the normalized tree. */
  lemma ProvableSiblings(h: Hashing, r: Registry, i: nat)
    requires Valid(h, r) && i < |r.entries| && ProvableAt(r.entries, i)
    ensures Siblings(h, Leaves(h, r.entries), i) == Siblings(h, Leaves(h, Normals(r.entries)), i)
  {
    var normal := Normals(r.entries);
    forall j | 0 <= j < |r.entries| && r.entries[j].index.Some?
      ensures r.entries[j] == normal[j]
    {
      assert EntryOk(r.entries[j], j);
    }
    if r.entries[i].index.Some? {
      assert r.entries == normal;
    } else {
      SiblingsAgree(h, Leaves(h, r.entries), Leaves(h, normal), i);
    }
  }

  /** Every string hashed to build the proof from the stored entries and to check it. */
  ghost function BuiltInputs(h: Hashing, r: Registry, i: nat): set<seq<Byte>>
    requires Valid(h, r) && i < |r.entries|
  {
    InputsOf(h, ProofAt(h, r, i)) + TreeInputs(h, r.entries)
  }

  /** A stored entry with the leaf of its normalized form carries its index. */
  lemma LeafShowsIndex(h: Hashing, entries: seq<Entry>, j: nat)
    requires h.Faithful() && j < |entries| && h.Leaf(entries[j]) == h.Leaf(Normals(entries)[j])
    requires !Clash(h, TreeInputs(h, entries), TreeInputs(h, Normals(entries)))
    ensures entries[j].index.Some?
  {
    var normal := Normals(entries);
    assert h.LeafInput(entries[j]) in TreeInputs(h, entries) && h.LeafInput(normal[j]) in TreeInputs(h, normal);
    assert h.LeafInput(entries[j])[1..] == h.LeafInput(normal[j])[1..];
  }

  /** The siblings of an accepted proof are those of the normalized tree. */
  lemma AcceptedSiblings(h: Hashing, r: Registry, i: nat)
    requires Valid(h, r) && i < |r.entries| && Accepts(h, ProofAt(h, r, i), r.root, Some(r.size))
    requires !Clash(h, BuiltInputs(h, r, i), TreeInputs(h, Normals(r.entries)))
    ensures Siblings(h, Leaves(h, r.entries), i) == Siblings(h, Leaves(h, Normals(r.entries)), i)
  {
    var p, level := ProofAt(h, r, i), Leaves(h, Normals(r.entries));
    NoClashShrinks(h, FoldInputs(h, level[i], i, |level|, p.siblings), ParentInputs(h, level),
                   BuiltInputs(h, r, i), TreeInputs(h, Normals(r.entries)));
    FoldPins(h, level, i, level[i], p.siblings);
  }

  /** Equal siblings mean that the position is provable. */
  lemma SiblingsShowProvable(h: Hashing, entries: seq<Entry>, i: nat)
    requires h.Faithful() && i < |entries| && !Clash(h, TreeInputs(h, entries), TreeInputs(h, Normals(entries)))
    requires Siblings(h, Leaves(h, entries), i) == Siblings(h, Leaves(h, Normals(entries)), i)
    ensures ProvableAt(entries, i)
  {
    var raw, level := Leaves(h, entries), Leaves(h, Normals(entries));
    NoClashShrinks(h, ParentInputs(h, raw), ParentInputs(h, level), TreeInputs(h, entries),
      TreeInputs(h, Normals(entries)));
    SiblingsPin(h, raw, level, i);
    forall j | 0 <= j < |entries| && (j != i || !NeverLast(i, |entries|))
      ensures entries[j].index.Some?
    {
      assert raw[j] == level[j];
      LeafShowsIndex(h, entries, j);
    }
  }

  lemma AcceptedIsProvable(h: Hashing, r: Registry, i: nat)
    requires h.Faithful() && Valid(h, r) && i < |r.entries| && Accepts(h, ProofAt(h, r, i), r.root, Some(r.size))
    requires !Clash(h, BuiltInputs(h, r, i), TreeInputs(h, Normals(r.entries)))
    ensures ProvableAt(r.entries, i)
  {
    AcceptedSiblings(h, r, i);
    NoClashShrinks(h, TreeInputs(h, r.entries), TreeInputs(h, Normals(r.entries)),
                   BuiltInputs(h, r, i), TreeInputs(h, Normals(r.entries)));
    SiblingsShowProvable(h, r.entries, i);
  }

  /** The proof of one position of a valid registry is accepted exactly if the position is provable, or two of the
      strings hashed to build it, to check it or to compute the root clash. */
  lemma CompleteAt(h: Hashing, r: Registry, i: nat)
    requires h.Faithful() && Valid(h, r) && i < |r.entries|
    ensures
      || (Accepts(h, ProofAt(h, r, i), r.root, Some(r.size)) <==> ProvableAt(r.entries, i))
      || Clash(h, BuiltInputs(h, r, i), TreeInputs(h, Normals(r.entries)))
  {
    if ProvableAt(r.entries, i) {
      ProvableSiblings(h, r, i);
      FoldOfSiblings(h, Leaves(h, Normals(r.entries)), i);
      assert EntryOk(r.entries[i], i);
    } else if Accepts(h, ProofAt(h, r, i), r.root, Some(r.size)) {
      if !Clash(h, BuiltInputs(h, r, i), TreeInputs(h, Normals(r.entries))) { AcceptedIsProvable(h, r, i); }
    }
  }

  function PairRegistry(h: Hashing, a: Meta, b: Meta): Registry {
    var entries := [Entry(None, a), Entry(None, b)];
    Registry(2, entries, Root(h, Normals(entries)), None)
  }

  /** Two entries without their indices make a valid registry whose proof of the first is refused, or strings clash that
      are hashed for it. */
  lemma UnindexedExample(h: Hashing, a: Meta, b: Meta)
    requires h.Faithful() && MetaOk(a) && MetaOk(b) && a.attestationId != b.attestationId
    ensures var r := PairRegistry(h, a, b);
      && Valid(h, r)
      && (|| !Accepts(h, ProofAt(h, r, 0), r.root, Some(2))
          || Clash(h, InputsOf(h, ProofAt(h, r, 0)) + {h.LeafInput(r.entries[1])}, TreeInputs(h, Normals(r.entries))))
  {
    UnindexedProofFails(h, PairRegistry(h, a, b), 1);
  }

  /** The root fixes the size and every entry, despite duplicate-last padding: valid registries with
      equal roots have the same entries, or their trees hashed clashing inputs. */
  lemma RootFixesEntries(h: Hashing, a: Registry, b: Registry)
    requires h.Faithful() && Valid(h, a) && Valid(h, b) && a.root == b.root
    ensures
      || (a.size == b.size && Normals(a.entries) == Normals(b.entries))
      || Clash(h, TreeInputs(h, Normals(a.entries)), TreeInputs(h, Normals(b.entries)))
  {
    var xs, ys := TreeInputs(h, Normals(a.entries)), TreeInputs(h, Normals(b.entries));
    if !Clash(h, xs, ys) {
      forall i | 0 <= i < |a.entries|
        ensures i < |b.entries| && Normal(a.entries[i], i) == Normal(b.entries[i], i)
      {
        EntryCarried(h, a, b, i);
      }
      if |b.entries| > |a.entries| {
        EntryCarried(h, b, a, |b.entries| - 1);
        ClashSymmetric(h, ys, xs);
      } else if |a.entries| > |b.entries| {
        EntryCarried(h, a, b, |a.entries| - 1);
      }
    }
  }

  lemma ClashSymmetric(h: Hashing, xs: set<seq<Byte>>, ys: set<seq<Byte>>)
    requires Clash(h, xs, ys)
    ensures Clash(h, ys, xs)
  {
  }

  /** Writing out every index leaves a valid registry valid. */
  lemma NormalizedValid(h: Hashing, a: Registry)
    requires Valid(h, a)
    ensures Normals(Normals(a.entries)) == Normals(a.entries)
    ensures Valid(h, Registry(a.size, Normals(a.entries), a.root, None)) && Indexed(Normals(a.entries))
  {
    assert Normals(Normals(a.entries)) == Normals(a.entries);
  }

  /** An entry of one registry is at the same position of the other, by its inclusion proof. */
  lemma EntryCarried(h: Hashing, a: Registry, b: Registry, i: nat)
    requires h.Faithful() && Valid(h, a) && Valid(h, b) && a.root == b.root && i < |a.entries|
    ensures
      || (i < |b.entries| && Normal(a.entries[i], i) == Normal(b.entries[i], i))
      || Clash(h, TreeInputs(h, Normals(a.entries)), TreeInputs(h, Normals(b.entries)))
  {
    var normal := Normals(a.entries);
    var r := Registry(a.size, normal, a.root, None);
    NormalizedValid(h, a);
    InclusionComplete(h, r, i);
    InclusionSound(h, ProofAt(h, r, i), b, None);
    if Clash(h, InputsOf(h, ProofAt(h, r, i)), TreeInputs(h, Normals(b.entries))) {
      ClashGrows(h, InputsOf(h, ProofAt(h, r, i)), TreeInputs(h, Normals(b.entries)),
                 TreeInputs(h, normal), TreeInputs(h, Normals(b.entries)));
    }
  }

  // ---------------------------------------------------------------------------------------------
  // The chain of snapshots

  function CheckpointFor(h: Hashing, json: Registry -> seq<Byte>, r: Registry): Checkpoint {
    Checkpoint(r.size, r.root, h.sha(json(r)))
  }

  /** `next` is an accepted successor of `r`. */
  predicate Follows(h: Hashing, json: Registry -> seq<Byte>, next: Registry, r: Registry) {
    && Valid(h, next) && Valid(h, r)
    && next.previous == Some(CheckpointFor(h, json, r))
    && next.size > r.size
    && next.entries[..r.size] == r.entries
  }

  /** A registry built by appending to a valid one, with that one's checkpoint, is accepted as its successor exactly if
      the old entries carry their indices, since building writes out all of them. */
  lemma AppendAccepted(h: Hashing, json: Registry -> seq<Byte>, r: Registry, more: seq<Entry>, next: Registry)
    requires Valid(h, r) && Valid(h, next) && more != [] && next.entries == Normals(r.entries + more)
    requires next.previous == Some(CheckpointFor(h, json, r))
    ensures Follows(h, json, next, r) <==> Indexed(r.entries)
  {
    var all := r.entries + more;
    forall i | 0 <= i < |r.entries|
      ensures next.entries[..r.size][i] == r.entries[i] <==> r.entries[i].index.Some?
    {
      assert all[i] == r.entries[i] && EntryOk(r.entries[i], i);
    }
    if Indexed(r.entries) { assert next.entries[..r.size] == r.entries; }
  }

  predicate Chained(h: Hashing, json: Registry -> seq<Byte>, chain: seq<Registry>) {
    forall i | 0 <= i < |chain| - 1 :: Follows(h, json, chain[i + 1], chain[i])
  }

  /** In a chain each snapshot names the size, the root and the digest of the one before it. */
  lemma ChainCheckpoints(h: Hashing, json: Registry -> seq<Byte>, chain: seq<Registry>, i: nat)
    requires Chained(h, json, chain) && i < |chain| - 1
    ensures chain[i + 1].previous.Some?
    ensures var checkpoint := chain[i + 1].previous.value;
      && checkpoint.size == |chain[i].entries| && checkpoint.root == Root(h, Normals(chain[i].entries))
      && checkpoint.registryDigest == h.sha(json(chain[i]))
  {
    assert Follows(h, json, chain[i + 1], chain[i]);
  }

  /** Any two snapshots of a chain: the earlier one's entries are a proper prefix of the later one's. */
  lemma {:induction false} ChainAppends(h: Hashing, json: Registry -> seq<Byte>, chain: seq<Registry>, i: nat, j: nat)
    requires Chained(h, json, chain) && i < j < |chain|
    ensures chain[i].entries < chain[j].entries
    decreases j - i
  {
    assert Follows(h, json, chain[j], chain[j - 1]);
    if i < j - 1 { ChainAppends(h, json, chain, i, j - 1); }
  }

  /** Two snapshots with different encodings have one digest. */
  ghost predicate SnapshotClash(h: Hashing, json: Registry -> seq<Byte>, a: seq<Registry>, b: seq<Registry>) {
    exists i, j :: 0 <= i < |a| && 0 <= j < |b| && json(a[i]) != json(b[j]) && h.sha(json(a[i])) == h.sha(json(b[j]))
  }

  /** The digest of the last snapshot pins the whole history: two chains that end in snapshots with one
      digest agree snapshot by snapshot, counted from the end, or two snapshots clash. */
  lemma {:induction false} DigestPinsHistory(h: Hashing, json: Registry -> seq<Byte>, a: seq<Registry>,
                                             b: seq<Registry>, k: nat)
    requires forall x, y | json(x) == json(y) :: x == y
    requires Chained(h, json, a) && Chained(h, json, b) && k < |a| && k < |b|
    requires h.sha(json(a[|a| - 1])) == h.sha(json(b[|b| - 1]))
    ensures a[|a| - 1 - k] == b[|b| - 1 - k] || SnapshotClash(h, json, a, b)
  {
    var i, j := |a| - 1 - k, |b| - 1 - k;
    if k == 0 {
      if json(a[i]) != json(b[j]) { assert SnapshotClash(h, json, a, b); }
    } else {
      DigestPinsHistory(h, json, a, b, k - 1);
      if !SnapshotClash(h, json, a, b) {
        assert Follows(h, json, a[i + 1], a[i]) && Follows(h, json, b[j + 1], b[j]);
        assert h.sha(json(a[i])) == h.sha(json(b[j]));
      }
    }
  }
}
