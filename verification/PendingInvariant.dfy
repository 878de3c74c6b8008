/** The inductive invariant of the pending-first protocol, and its preservation by every action. */
module PendingInvariant {
  import opened Outcomes
  import opened ReplayRegistry
  import opened PendingProtocol

  // ---------------------------------------------------------------------------------------------
  // The invariant

  /** No two different candidates of the run share a candidate id. */
  ghost predicate NoIdClash(c: Crypto, computed: set<Candidate>) {
    forall a, b | a in computed && b in computed && c.IdOf(a) == c.IdOf(b) :: a == b
  }

  ghost function HeadsOf(rows: seq<JournalRow>): seq<Digest> {
    seq(|rows|, i requires 0 <= i < |rows| => rows[i].head)
  }

  /** The four tables of a provider tell one story: every journal row has its accepted row and the
      evidence that verifies it, and the state row is the tip of a linked chain. */
  ghost predicate TablesOk(c: Crypto, p: Provider, t: Tables) {
    && |t.accepted| == |t.journal| == |t.evidence|
    && (t.state.None? ==> t.journal == [])
    && (t.state.Some? ==> t.state.value == Tip(t.journal))
    && ChainOk(c, p, t.journal)
    && forall i | 0 <= i < |t.journal| :: RowOk(c, p, t, i)
  }

  ghost predicate RowOk(c: Crypto, p: Provider, t: Tables, i: nat)
    requires |t.accepted| == |t.journal| == |t.evidence| && i < |t.journal|
  {
    var row := t.journal[i];
    var e := t.evidence[i];
    && t.accepted[i] == AcceptedRow(row.runId, row.nonce, row.receipt)
    && e == EvidenceRow(i + 1, row.runId, row.nonce, row.receipt, row.head, e.payload)
    && e.payload == Payload(p, row.runId, row.nonce, e.payload.body)
    && row.receipt == c.receiptOf(e.payload)
  }

  /** The candidate that journal row `i` was made from. */
  ghost function Origin(t: Tables, i: nat): Candidate
    requires i < |t.journal| && i < |t.evidence|
  {
    Candidate(t.evidence[i].payload, Point(i, HeadBefore(t.journal, i)))
  }

  /** Journal heads are a prefix of the anchor's heads, which are at most one ahead. */
  ghost predicate Prefixed(w: World, p: Provider) {
    HeadsOf(w.Journal(p)) <= w.Heads(p) && |w.Heads(p)| <= |w.Journal(p)| + 1
  }

  ghost predicate OnAnchor(w: World, p: Provider, at: Point) {
    at.sequence <= |w.Heads(p)| && PointAt(w.Heads(p), at.sequence) == at
  }

  ghost predicate Settled(c: Crypto, w: World, cand: Candidate) {
    var p, at := cand.payload.provider, c.Target(cand);
    at.sequence <= |w.Heads(p)| && (OnAnchor(w, p, at) ==> at.sequence <= |w.Journal(p)|)
  }

  ghost predicate Journaled(c: Crypto, w: World, cand: Candidate) {
    var t := w.db.Of(cand.payload.provider);
    var n := cand.prior.sequence;
    n < |t.journal| && n < |t.evidence| && Origin(t, n) == cand && t.journal[n].head == c.Target(cand).head
  }

  ghost predicate PendingOk(c: Crypto, w: World, id: Digest)
    requires id in w.db.pending
  {
    var row := w.db.pending[id];
    var cand := CandidateOf(row);
    && Bound(c, row)
    && cand in w.computed
    && c.IdOf(cand) == id
    && row.prior.sequence <= |w.Journal(row.provider)|
    && OnAnchor(w, row.provider, row.prior)
    && (row.status.Finalized? ==> Journaled(c, w, cand))
    && (row.status.Conflict? ==> Settled(c, w, cand))
  }

  /** A candidate has its own row in the pending table. */
  ghost predicate Staged(c: Crypto, w: World, cand: Candidate) {
    c.IdOf(cand) in w.db.pending && CandidateOf(w.db.pending[c.IdOf(cand)]) == cand
  }

  ghost predicate Distinct(w: World) {
    forall a, b | a in w.db.pending && b in w.db.pending && a != b ::
      !Competes(w.db.pending[a], w.db.pending[b].payload)
  }

  /** The pending row that explains why the anchor is ahead. */
  ghost predicate Explains(w: World, p: Provider, id: Digest) {
    id in w.db.pending && w.db.pending[id].provider == p && w.db.pending[id].target == w.Anchor(p)
  }

  ghost predicate Explained(w: World, p: Provider) {
    |w.Heads(p)| > |w.Journal(p)| ==> exists id :: Explains(w, p, id)
  }

  ghost predicate OriginsStaged(c: Crypto, w: World, p: Provider)
    requires TablesOk(c, p, w.db.Of(p))
  {
    forall i | 0 <= i < |w.Journal(p)| :: Staged(c, w, Origin(w.db.Of(p), i))
  }

  ghost predicate ProviderOk(c: Crypto, w: World, p: Provider) {
    TablesOk(c, p, w.db.Of(p)) && Prefixed(w, p) && OriginsStaged(c, w, p) && Explained(w, p)
  }

  ghost predicate WorldOk(c: Crypto, w: World) {
    && (forall p :: ProviderOk(c, w, p))
    && (forall id | id in w.db.pending :: PendingOk(c, w, id))
    && Distinct(w)
  }

  /** The candidate is staged and its target is on the anchor's history. */
  ghost predicate Anchored(c: Crypto, w: World, cand: Candidate) {
    Staged(c, w, cand) && OnAnchor(w, cand.payload.provider, c.Target(cand))
  }

  /** A finalizing call holds a faithful copy of an anchored pending row. */
  ghost predicate Holds(c: Crypto, w: World, id: Digest, row: PendingRow) {
    Bound(c, row) && c.IdOf(CandidateOf(row)) == id && Anchored(c, w, CandidateOf(row))
  }

  ghost predicate ProcOk(c: Crypto, w: World, proc: Proc) {
    match proc
    case Ended(accepted) => accepted.Some? ==> Journaled(c, w, accepted.value)
    case ReadPrior(_, _) => true
    case CheckLocal(_, payload, prior) => OnAnchor(w, payload.provider, prior)
    case Stage(_, cand) => cand in w.computed && OnAnchor(w, cand.payload.provider, cand.prior)
    case Reread(_, cand) => Staged(c, w, cand)
    case LoadPending(_, _) => true
    case RecoverRead(_, cand, _) => Staged(c, w, cand)
    case Publish(_, _, cand) => Staged(c, w, cand)
    case Observe(_, refused, _, cand) =>
      && Staged(c, w, cand)
      && (refused ==> |w.Heads(cand.payload.provider)| > cand.prior.sequence)
    case Quarantine(cand) => Staged(c, w, cand) && Settled(c, w, cand)
    case Confirm(_, cand) => Staged(c, w, cand)
    case LoadRow(_, id, again) =>
      && id in w.db.pending
      && Anchored(c, w, CandidateOf(w.db.pending[id]))
      && (again ==> |w.Journal(w.db.pending[id].provider)| >= w.db.pending[id].target.sequence)
    case FinalizeLocal(_, id, row, again) =>
      Holds(c, w, id, row) && (again ==> |w.Journal(row.provider)| >= row.target.sequence)
    case CheckPlan(_, id, row) => Holds(c, w, id, row) && |w.Journal(row.provider)| >= row.target.sequence
    case MarkFinal(id, row) => Holds(c, w, id, row) && |w.Journal(row.provider)| >= row.target.sequence
    case RecordRow(_, id, row, again) => Holds(c, w, id, row) && !again
    case RecheckLocal(_, id, row) => Holds(c, w, id, row)
  }

  ghost predicate Inv(c: Crypto, s: State) {
    WorldOk(c, s.world) && forall pid | pid in s.procs :: ProcOk(c, s.world, s.procs[pid])
  }

  // ---------------------------------------------------------------------------------------------
  // Durable state only grows

  ghost predicate TablesGrow(w: World, w': World, p: Provider) {
    w.Journal(p) <= w'.Journal(p) && w.db.Of(p).evidence <= w'.db.Of(p).evidence && w.Heads(p) <= w'.Heads(p)
  }

  /** The same pending row, possibly with another status. */
  ghost predicate SameRow(a: PendingRow, b: PendingRow) {
    a.(status := b.status) == b
  }

  ghost predicate RowsKept(w: World, w': World) {
    forall id | id in w.db.pending :: id in w'.db.pending && SameRow(w.db.pending[id], w'.db.pending[id])
  }

  ghost predicate Extends(w: World, w': World) {
    (forall p :: TablesGrow(w, w', p)) && RowsKept(w, w') && w.computed <= w'.computed
  }

  lemma ExtendsTrans(a: World, b: World, d: World)
    requires Extends(a, b) && Extends(b, d)
    ensures Extends(a, d)
  {
    forall p
      ensures TablesGrow(a, d, p)
    {
      assert TablesGrow(a, b, p) && TablesGrow(b, d, p);
    }
  }

  lemma JournaledGrows(c: Crypto, w: World, w': World, cand: Candidate)
    requires Extends(w, w') && Journaled(c, w, cand)
    ensures Journaled(c, w', cand)
  {
    var p := cand.payload.provider;
    assert TablesGrow(w, w', p);
  }

  lemma OnAnchorGrows(w: World, w': World, p: Provider, at: Point)
    requires Extends(w, w') && OnAnchor(w, p, at)
    ensures OnAnchor(w', p, at)
  {
    assert TablesGrow(w, w', p);
  }

  lemma SettledGrows(c: Crypto, w: World, w': World, cand: Candidate)
    requires Extends(w, w') && Settled(c, w, cand)
    ensures Settled(c, w', cand)
  {
    var p := cand.payload.provider;
    assert TablesGrow(w, w', p);
  }

  lemma ProcGrows(c: Crypto, w: World, w': World, proc: Proc)
    requires Extends(w, w') && WorldOk(c, w) && WorldOk(c, w') && ProcOk(c, w, proc)
    ensures ProcOk(c, w', proc)
  {
    match proc
    case Ended(accepted) => if accepted.Some? { JournaledGrows(c, w, w', accepted.value); }
    case CheckLocal(_, payload, prior) => OnAnchorGrows(w, w', payload.provider, prior);
    case Stage(_, cand) => OnAnchorGrows(w, w', cand.payload.provider, cand.prior);
    case Observe(_, _, _, cand) => assert TablesGrow(w, w', cand.payload.provider);
    case Quarantine(cand) => SettledGrows(c, w, w', cand);
    case LoadRow(_, id, _) =>
      var row := w.db.pending[id];
      assert PendingOk(c, w, id) && PendingOk(c, w', id);
      OnAnchorGrows(w, w', row.provider, row.target);
      assert TablesGrow(w, w', row.provider);
    case FinalizeLocal(_, _, row, _) => HoldsGrows(c, w, w', row);
    case CheckPlan(_, _, row) => HoldsGrows(c, w, w', row);
    case MarkFinal(_, row) => HoldsGrows(c, w, w', row);
    case RecordRow(_, _, row, _) => HoldsGrows(c, w, w', row);
    case RecheckLocal(_, _, row) => HoldsGrows(c, w, w', row);
    case _ =>
  }

  lemma HoldsGrows(c: Crypto, w: World, w': World, row: PendingRow)
    requires Extends(w, w') && Bound(c, row) && Anchored(c, w, CandidateOf(row))
    ensures Anchored(c, w', CandidateOf(row)) && |w.Journal(row.provider)| <= |w'.Journal(row.provider)|
  {
    OnAnchorGrows(w, w', row.provider, row.target);
    assert TablesGrow(w, w', row.provider);
  }

  // ---------------------------------------------------------------------------------------------
  // Each kind of step

  /** A provider whose tables and anchor did not change stays good when pending rows are kept. */
  lemma ProviderKept(c: Crypto, w: World, w': World, p: Provider)
    requires ProviderOk(c, w, p) && RowsKept(w, w')
    requires w'.db.Of(p) == w.db.Of(p) && w'.Heads(p) == w.Heads(p)
    ensures ProviderOk(c, w', p)
  {
    if |w.Heads(p)| > |w.Journal(p)| {
      var k :| Explains(w, p, k);
      assert SameRow(w.db.pending[k], w'.db.pending[k]);
      assert Explains(w', p, k);
    }
    forall i | 0 <= i < |w.Journal(p)|
      ensures Staged(c, w', Origin(w'.db.Of(p), i))
    {
      StagedGrows(c, w, w', Origin(w.db.Of(p), i));
    }
  }

  lemma StagedGrows(c: Crypto, w: World, w': World, cand: Candidate)
    requires RowsKept(w, w') && Staged(c, w, cand)
    ensures Staged(c, w', cand)
  {
    var id := c.IdOf(cand);
    assert SameRow(w.db.pending[id], w'.db.pending[id]);
  }

  /** An untouched pending row stays good. */
  lemma PendingKept(c: Crypto, w: World, w': World, id: Digest)
    requires id in w.db.pending && PendingOk(c, w, id) && Extends(w, w')
    requires w'.db.pending[id] == w.db.pending[id]
    ensures PendingOk(c, w', id)
  {
    var row := w.db.pending[id];
    OnAnchorGrows(w, w', row.provider, row.prior);
    assert TablesGrow(w, w', row.provider);
    if row.status.Finalized? { JournaledGrows(c, w, w', CandidateOf(row)); }
    if row.status.Conflict? { SettledGrows(c, w, w', CandidateOf(row)); }
  }

  /** A change of the pending table alone keeps every provider good. */
  lemma ProvidersKept(c: Crypto, w: World, w': World)
    requires forall p :: ProviderOk(c, w, p)
    requires RowsKept(w, w') && w'.db.tables == w.db.tables && w'.anchors == w.anchors && w.computed <= w'.computed
    ensures Extends(w, w') && forall p :: ProviderOk(c, w', p)
  {
    forall p
      ensures ProviderOk(c, w', p) && TablesGrow(w, w', p)
    {
      ProviderKept(c, w, w', p);
    }
  }

  ghost function WithStatus(w: World, id: Digest, status: Status): World
    requires id in w.db.pending
  {
    w.(db := w.db.(pending := w.db.pending[id := w.db.pending[id].(status := status)]))
  }

  ghost predicate Justified(c: Crypto, w: World, id: Digest, status: Status)
    requires id in w.db.pending
  {
    && (status.Finalized? ==> Journaled(c, w, CandidateOf(w.db.pending[id])))
    && (status.Conflict? ==> Settled(c, w, CandidateOf(w.db.pending[id])))
  }

  lemma StatusRow(c: Crypto, w: World, id: Digest, status: Status)
    requires id in w.db.pending && PendingOk(c, w, id) && Justified(c, w, id, status)
    ensures PendingOk(c, WithStatus(w, id, status), id)
  {
  }

  /** Changing the status of one row keeps the world good when the new status is justified. */
  lemma StatusKeeps(c: Crypto, w: World, id: Digest, status: Status)
    requires WorldOk(c, w) && id in w.db.pending && Justified(c, w, id, status)
    ensures WorldOk(c, WithStatus(w, id, status)) && Extends(w, WithStatus(w, id, status))
  {
    var w' := WithStatus(w, id, status);
    ProvidersKept(c, w, w');
    StatusRow(c, w, id, status);
    forall k | k in w'.db.pending
      ensures PendingOk(c, w', k)
    {
      if k != id { PendingKept(c, w, w', k); }
    }
    StatusDistinct(w, id, status);
  }

  lemma StatusDistinct(w: World, id: Digest, status: Status)
    requires Distinct(w) && id in w.db.pending
    ensures Distinct(WithStatus(w, id, status))
  {
    var w' := WithStatus(w, id, status);
    forall a, b | a in w'.db.pending && b in w'.db.pending && a != b
      ensures !Competes(w'.db.pending[a], w'.db.pending[b].payload)
    {
      assert !Competes(w.db.pending[a], w.db.pending[b].payload);
    }
  }

  lemma DistinctGrows(c: Crypto, w: World, w': World, cand: Candidate)
    requires WorldOk(c, w)
    requires w'.db.pending == w.db.pending[c.IdOf(cand) := NewRow(c, cand)]
    requires forall other | other in w.db.pending :: !Competes(w.db.pending[other], cand.payload)
    ensures Distinct(w')
  {
    forall a, b | a in w'.db.pending && b in w'.db.pending && a != b
      ensures !Competes(w'.db.pending[a], w'.db.pending[b].payload)
    {
      if a != c.IdOf(cand) { assert PendingOk(c, w, a); }
      if b != c.IdOf(cand) { assert PendingOk(c, w, b); }
    }
  }

  lemma InsertKeeps(c: Crypto, w: World, w': World, cand: Candidate)
    requires WorldOk(c, w) && cand in w.computed && OnAnchor(w, cand.payload.provider, cand.prior)
    requires c.IdOf(cand) !in w.db.pending && cand.prior.sequence <= |w.Journal(cand.payload.provider)|
    requires forall other | other in w.db.pending :: !Competes(w.db.pending[other], cand.payload)
    requires w' == w.(db := w.db.(pending := w.db.pending[c.IdOf(cand) := NewRow(c, cand)]))
    ensures WorldOk(c, w') && Extends(w, w') && Staged(c, w', cand)
  {
    ProvidersKept(c, w, w');
    forall k | k in w'.db.pending
      ensures PendingOk(c, w', k)
    {
      if k != c.IdOf(cand) { PendingKept(c, w, w', k); }
    }
    DistinctGrows(c, w, w', cand);
  }

  /** Staging inserts a row for the candidate, or finds the candidate's own row. */
  lemma StageKeeps(c: Crypto, w: World, cand: Candidate)
    requires WorldOk(c, w) && NoIdClash(c, w.computed)
    requires cand in w.computed && OnAnchor(w, cand.payload.provider, cand.prior)
    requires PersistPending(c, w.db, cand).Ok?
    ensures var w' := w.(db := PersistPending(c, w.db, cand).value);
      WorldOk(c, w') && Extends(w, w') && Staged(c, w', cand)
  {
    var id := c.IdOf(cand);
    if id in w.db.pending {
      assert PendingOk(c, w, id);
    } else {
      LocalReading(c, w, cand.payload.provider);
      InsertKeeps(c, w, w.(db := PersistPending(c, w.db, cand).value), cand);
    }
  }

  /** Publishing moves the anchor by one, to the target of a staged candidate. */
  lemma PublishKeeps(c: Crypto, w: World, cand: Candidate, env: Env)
    requires WorldOk(c, w) && Staged(c, w, cand)
    ensures var (w', reply) := CompareAndSet(c, w, cand, env);
      && WorldOk(c, w') && Extends(w, w')
      && (reply.Refused? ==> |w'.Heads(cand.payload.provider)| > cand.prior.sequence)
  {
    var (w', reply) := CompareAndSet(c, w, cand, env);
    var q, id := cand.payload.provider, c.IdOf(cand);
    assert PendingOk(c, w, id);
    if w.Anchor(q) == cand.prior && w' != w {
      assert w'.Heads(q) == w.Heads(q) + [c.Target(cand).head];
      assert Extends(w, w') by { assert forall p | p != q :: w'.Heads(p) == w.Heads(p); }
      PublishedProviders(c, w, w', cand);
      forall k | k in w'.db.pending
        ensures PendingOk(c, w', k)
      {
        PendingKept(c, w, w', k);
      }
    }
  }

  lemma PublishedProviders(c: Crypto, w: World, w': World, cand: Candidate)
    requires (forall p :: ProviderOk(c, w, p)) && Staged(c, w, cand) && w'.db == w.db && w.computed <= w'.computed
    requires PendingOk(c, w, c.IdOf(cand)) && w.Anchor(cand.payload.provider) == cand.prior
    requires w'.Heads(cand.payload.provider) == w.Heads(cand.payload.provider) + [c.Target(cand).head]
    requires forall p | p != cand.payload.provider :: w'.Heads(p) == w.Heads(p)
    requires Extends(w, w')
    ensures forall p :: ProviderOk(c, w', p)
  {
    forall p
      ensures ProviderOk(c, w', p)
    {
      if p == cand.payload.provider { PublishedProvider(c, w, w', cand); } else { ProviderKept(c, w, w', p); }
    }
  }

  lemma PublishedProvider(c: Crypto, w: World, w': World, cand: Candidate)
    requires ProviderOk(c, w, cand.payload.provider) && Staged(c, w, cand) && w'.db == w.db
    requires PendingOk(c, w, c.IdOf(cand)) && w.Anchor(cand.payload.provider) == cand.prior
    requires w'.Heads(cand.payload.provider) == w.Heads(cand.payload.provider) + [c.Target(cand).head]
    ensures ProviderOk(c, w', cand.payload.provider)
  {
    var p, id := cand.payload.provider, c.IdOf(cand);
    assert Explains(w', p, id);
    assert forall i | 0 <= i < |w.Journal(p)| :: Staged(c, w, Origin(w.db.Of(p), i));
  }

  /** The tables after a candidate was recorded at their tip. */
  ghost function Recorded(c: Crypto, t: Tables, cand: Candidate): Tables {
    var p, receipt, at := cand.payload, c.receiptOf(cand.payload), c.Target(cand);
    Tables(Some(at),
           t.accepted + [AcceptedRow(p.runId, p.nonce, receipt)],
           t.journal + [JournalRow(at.sequence, cand.prior.head, at.head, p.runId, p.nonce, receipt)],
           t.evidence + [EvidenceRow(at.sequence, p.runId, p.nonce, receipt, at.head, p)])
  }

  lemma RecordShape(c: Crypto, keys: Keys, db: Db, cand: Candidate, id: Digest)
    requires TablesOk(c, cand.payload.provider, db.Of(cand.payload.provider))
    requires Record(c, keys, db, cand.payload, Some(cand.prior), Some(id)).Ok?
    ensures var p := cand.payload.provider;
      && Tip(db.Of(p).journal) == cand.prior
      && id in db.pending && db.pending[id].status.Prepared? && db.pending[id].target == c.Target(cand)
      && Record(c, keys, db, cand.payload, Some(cand.prior), Some(id)).value
         == Db(db.tables[p := Recorded(c, db.Of(p), cand)], db.pending[id := db.pending[id].(status := Finalized)])
  {
  }

  lemma RecordedOk(c: Crypto, t: Tables, cand: Candidate)
    requires TablesOk(c, cand.payload.provider, t) && Tip(t.journal) == cand.prior
    ensures TablesOk(c, cand.payload.provider, Recorded(c, t, cand))
    ensures Origin(Recorded(c, t, cand), |t.journal|) == cand
    ensures forall i | 0 <= i < |t.journal| :: Origin(Recorded(c, t, cand), i) == Origin(t, i)
  {
    var p, t' := cand.payload.provider, Recorded(c, t, cand);
    forall i | 0 <= i < |t'.journal|
      ensures LinkOk(c, p, t'.journal, i) && RowOk(c, p, t', i)
    {
      if i < |t.journal| {
        assert LinkOk(c, p, t.journal, i) && RowOk(c, p, t, i);
        assert HeadBefore(t'.journal, i) == HeadBefore(t.journal, i);
      }
    }
  }

  /** Recording appends exactly the anchored candidate. */
  lemma RecordKeeps(c: Crypto, keys: Keys, w: World, id: Digest, row: PendingRow)
    requires WorldOk(c, w) && Holds(c, w, id, row)
    requires Record(c, keys, w.db, row.payload, Some(row.prior), Some(id)).Ok?
    ensures var w' := w.(db := Record(c, keys, w.db, row.payload, Some(row.prior), Some(id)).value);
      WorldOk(c, w') && Extends(w, w') && Journaled(c, w', CandidateOf(row))
  {
    assert ProviderOk(c, w, row.provider) && PendingOk(c, w, id);
    RecordShape(c, keys, w.db, CandidateOf(row), id);
    var w' := w.(db := Record(c, keys, w.db, row.payload, Some(row.prior), Some(id)).value);
    RecordedWorld(c, w, w', CandidateOf(row));
  }

  /** `w'` is `w` with the candidate recorded at the tip of its provider's tables. */
  ghost predicate RecordedIn(c: Crypto, w: World, w': World, cand: Candidate) {
    var q, id := cand.payload.provider, c.IdOf(cand);
    && Staged(c, w, cand)
    && w'.anchors == w.anchors && w'.computed == w.computed
    && w'.db.tables == w.db.tables[q := Recorded(c, w.db.Of(q), cand)]
    && w'.db.pending == w.db.pending[id := w.db.pending[id].(status := Finalized)]
  }

  lemma RecordedExtends(c: Crypto, w: World, w': World, cand: Candidate)
    requires RecordedIn(c, w, w', cand)
    ensures Distinct(w) ==> Distinct(w')
    ensures Extends(w, w')
    ensures forall p | p != cand.payload.provider :: w'.db.Of(p) == w.db.Of(p) && w'.Heads(p) == w.Heads(p)
  {
  }

  lemma RecordedPending(c: Crypto, w: World, w': World, cand: Candidate)
    requires RecordedIn(c, w, w', cand) && PendingOk(c, w, c.IdOf(cand))
    requires Tip(w.Journal(cand.payload.provider)) == cand.prior
    requires TablesOk(c, cand.payload.provider, w.db.Of(cand.payload.provider))
    ensures PendingOk(c, w', c.IdOf(cand)) && Journaled(c, w', cand)
  {
    RecordedExtends(c, w, w', cand);
    RecordedOk(c, w.db.Of(cand.payload.provider), cand);
    OnAnchorGrows(w, w', cand.payload.provider, cand.prior);
  }

  lemma RecordedWorld(c: Crypto, w: World, w': World, cand: Candidate)
    requires WorldOk(c, w) && Anchored(c, w, cand) && Tip(w.Journal(cand.payload.provider)) == cand.prior
    requires RecordedIn(c, w, w', cand)
    ensures WorldOk(c, w') && Extends(w, w') && Journaled(c, w', cand)
  {
    var q, id := cand.payload.provider, c.IdOf(cand);
    assert ProviderOk(c, w, q);
    RecordedExtends(c, w, w', cand);
    RecordedPending(c, w, w', cand);
    forall p
      ensures ProviderOk(c, w', p)
    {
      if p == q { RecordedProvider(c, w, w', cand); } else { ProviderKept(c, w, w', p); }
    }
    forall k | k in w'.db.pending
      ensures PendingOk(c, w', k)
    {
      if k != id { PendingKept(c, w, w', k); }
    }
  }

  lemma RecordedProvider(c: Crypto, w: World, w': World, cand: Candidate)
    requires ProviderOk(c, w, cand.payload.provider) && Anchored(c, w, cand) && RowsKept(w, w')
    requires w'.anchors == w.anchors
    requires w'.db.Of(cand.payload.provider) == Recorded(c, w.db.Of(cand.payload.provider), cand)
    requires Tip(w.Journal(cand.payload.provider)) == cand.prior
    ensures ProviderOk(c, w', cand.payload.provider)
  {
    var p := cand.payload.provider;
    RecordedOk(c, w.db.Of(p), cand);
    assert |w.Heads(p)| == |w.Journal(p)| + 1;
    assert HeadsOf(w'.Journal(p)) == w.Heads(p);
    forall i | 0 <= i < |w'.Journal(p)|
      ensures Staged(c, w', Origin(w'.db.Of(p), i))
    {
      if i < |w.Journal(p)| {
        StagedGrows(c, w, w', Origin(w.db.Of(p), i));
      } else {
        StagedGrows(c, w, w', cand);
      }
    }
  }

  // ---------------------------------------------------------------------------------------------
  // Every action

  /** Marking an anchored, journaled candidate: the journal row at its position is its own. */
  lemma AnchoredIsJournaled(c: Crypto, w: World, id: Digest, row: PendingRow)
    requires WorldOk(c, w) && Holds(c, w, id, row) && EvidenceMatches(w.db.Of(row.provider).evidence, row)
    ensures Journaled(c, w, CandidateOf(row))
  {
    var t := w.db.Of(row.provider);
    assert ProviderOk(c, w, row.provider) && PendingOk(c, w, id);
    var i :| 0 <= i < |t.evidence| && t.evidence[i].sequence == row.target.sequence
             && t.evidence[i].head == row.target.head && t.evidence[i].runId == row.runId;
    assert RowOk(c, row.provider, t, i);
    var origin := Origin(t, i);
    assert Staged(c, w, origin);
    assert Competes(w.db.pending[id], origin.payload);
    assert PendingOk(c, w, c.IdOf(origin));
  }

  lemma ComputedKeeps(c: Crypto, w: World, cand: Candidate)
    requires WorldOk(c, w)
    ensures var w' := w.(computed := w.computed + {cand}); WorldOk(c, w') && Extends(w, w')
  {
    var w' := w.(computed := w.computed + {cand});
    ProvidersKept(c, w, w');
    forall k | k in w'.db.pending
      ensures PendingOk(c, w', k)
    {
      PendingKept(c, w, w', k);
    }
  }

  /** What an anchor read tells about a staged candidate: past its prior point it is settled or confirmed. */
  ghost predicate AnchorTells(c: Crypto, w: World, cand: Candidate) {
    var p := cand.payload.provider;
    && (w.Anchor(p) == c.Target(cand) ==> Anchored(c, w, cand))
    && (w.Anchor(p) != c.Target(cand) && |w.Heads(p)| > cand.prior.sequence ==> Settled(c, w, cand))
    && (w.Anchor(p) != cand.prior ==> |w.Heads(p)| > cand.prior.sequence)
  }

  lemma AnchorReading(c: Crypto, w: World, cand: Candidate)
    requires WorldOk(c, w) && Staged(c, w, cand)
    ensures AnchorTells(c, w, cand)
  {
    assert ProviderOk(c, w, cand.payload.provider) && PendingOk(c, w, c.IdOf(cand));
  }

  /** What a read of the local state tells: it is the tip of the journal. */
  lemma LocalReading(c: Crypto, w: World, p: Provider)
    requires WorldOk(c, w)
    ensures LocalState(w.db, p) == GuardedState(w.db.Of(p)) == Ok(Tip(w.Journal(p)))
  {
    assert ProviderOk(c, w, p);
  }

  /** A step that reads the anchor leaves the call's facts true. */
  lemma AnchorStepKeeps(c: Crypto, w: World, proc: Proc, env: Env)
    requires proc.Reread? || proc.Observe? || proc.Confirm? || proc.RecoverRead?
    requires ProcOk(c, w, proc) && AnchorTells(c, w, proc.cand)
    ensures ProcOk(c, w, Step(c, w, proc, env).1)
  {
  }

  /** A step that reads the pending table or the local state leaves the call's facts true. */
  lemma LocalStepKeeps(c: Crypto, w: World, proc: Proc, env: Env)
    requires proc.FinalizeLocal? || proc.RecheckLocal?
    requires ProcOk(c, w, proc) && LocalState(w.db, proc.row.provider) == Ok(Tip(w.Journal(proc.row.provider)))
    requires proc.id in w.db.pending && PendingOk(c, w, proc.id)
    ensures ProcOk(c, w, Step(c, w, proc, env).1)
  {
  }

  lemma LoadStepKeeps(c: Crypto, w: World, proc: Proc, env: Env)
    requires proc.LoadPending? || proc.LoadRow?
    requires ProcOk(c, w, proc) && (proc.id in w.db.pending ==> PendingOk(c, w, proc.id))
    ensures ProcOk(c, w, Step(c, w, proc, env).1)
  {
  }

  ghost predicate Writes(proc: Proc) {
    proc.Stage? || proc.Publish? || proc.RecordRow? || proc.MarkFinal? || proc.CheckLocal? || proc.Quarantine?
  }

  /** A step that only reads leaves the call's facts true. */
  lemma ReadStepKeeps(c: Crypto, w: World, proc: Proc, env: Env)
    requires WorldOk(c, w) && ProcOk(c, w, proc) && !Writes(proc)
    ensures ProcOk(c, w, Step(c, w, proc, env).1)
  {
    if proc.Reread? || proc.Observe? || proc.Confirm? || proc.RecoverRead? {
      AnchorReading(c, w, proc.cand);
      AnchorStepKeeps(c, w, proc, env);
    } else if proc.FinalizeLocal? || proc.RecheckLocal? {
      LocalReading(c, w, proc.row.provider);
      LocalStepKeeps(c, w, proc, env);
    } else if proc.LoadPending? || proc.LoadRow? {
      LoadStepKeeps(c, w, proc, env);
    }
  }

  /** The step kept the world good, only extended it, and left the call's facts true. */
  ghost predicate Kept(c: Crypto, w: World, after: (World, Proc)) {
    WorldOk(c, after.0) && Extends(w, after.0) && ProcOk(c, after.0, after.1)
  }

  lemma StagingStepKeeps(c: Crypto, w: World, proc: Proc, env: Env)
    requires proc.CheckLocal? || proc.Stage?
    requires WorldOk(c, w) && ProcOk(c, w, proc) && NoIdClash(c, Step(c, w, proc, env).0.computed)
    ensures Kept(c, w, Step(c, w, proc, env))
  {
    if proc.CheckLocal? {
      ComputedKeeps(c, w, Candidate(proc.payload, proc.prior));
    } else if PersistPending(c, w.db, proc.cand).Ok? {
      StageKeeps(c, w, proc.cand);
    }
  }

  lemma AnchoringStepKeeps(c: Crypto, w: World, proc: Proc, env: Env)
    requires proc.Publish? || proc.Quarantine?
    requires WorldOk(c, w) && ProcOk(c, w, proc)
    ensures Kept(c, w, Step(c, w, proc, env))
  {
    if proc.Publish? { PublishStepKeeps(c, w, proc, env); } else { QuarantineStepKeeps(c, w, proc, env); }
  }

  lemma PublishStepKeeps(c: Crypto, w: World, proc: Proc, env: Env)
    requires proc.Publish? && WorldOk(c, w) && ProcOk(c, w, proc)
    ensures Kept(c, w, Step(c, w, proc, env))
  {
    var (w', proc') := Step(c, w, proc, env);
    PublishKeeps(c, w, proc.cand, env);
    StagedGrows(c, w, w', proc.cand);
    KeptBy(c, w, w', proc');
  }

  lemma QuarantineStepKeeps(c: Crypto, w: World, proc: Proc, env: Env)
    requires proc.Quarantine? && WorldOk(c, w) && ProcOk(c, w, proc)
    ensures Kept(c, w, Step(c, w, proc, env))
  {
    var w' := WithStatus(w, c.IdOf(proc.cand), Conflict);
    assert Step(c, w, proc, env) == (w', FAILED);
    StatusKeeps(c, w, c.IdOf(proc.cand), Conflict);
    KeptBy(c, w, w', FAILED);
  }

  lemma MarkStepKeeps(c: Crypto, w: World, proc: Proc, env: Env)
    requires proc.MarkFinal?
    requires WorldOk(c, w) && ProcOk(c, w, proc)
    ensures Kept(c, w, Step(c, w, proc, env))
  {
    var w', id, row := Step(c, w, proc, env).0, proc.id, proc.row;
    if FinalizeCommitted(w.db, id, row).Ok? {
      AnchoredIsJournaled(c, w, id, row);
      StatusKeeps(c, w, id, Finalized);
      JournaledGrows(c, w, w', CandidateOf(row));
    }
  }

  lemma RecordStepKeeps(c: Crypto, w: World, proc: Proc, env: Env)
    requires proc.RecordRow?
    requires WorldOk(c, w) && ProcOk(c, w, proc)
    ensures Kept(c, w, Step(c, w, proc, env))
  {
    var outcome := Record(c, proc.keys, w.db, proc.row.payload, Some(proc.row.prior), Some(proc.id));
    var recheck := RecheckLocal(proc.keys, proc.id, proc.row);
    if outcome.Err? || (env.Split? && !env.effect) {
      assert Step(c, w, proc, env) == (w, recheck);
      KeptSame(c, w, recheck);
    } else {
      RecordKeeps(c, proc.keys, w, proc.id, proc.row);
      RecordedKept(c, w, w.(db := outcome.value), recheck);
    }
  }

  lemma RecordedKept(c: Crypto, w: World, w': World, recheck: Proc)
    requires recheck.RecheckLocal? && Holds(c, w, recheck.id, recheck.row) && WorldOk(c, w') && Extends(w, w')
    requires Journaled(c, w', CandidateOf(recheck.row))
    ensures Kept(c, w, (w', recheck)) && Kept(c, w, (w', Ended(Some(CandidateOf(recheck.row)))))
  {
    HoldsGrows(c, w, w', recheck.row);
  }

  lemma KeptBy(c: Crypto, w: World, w': World, proc: Proc)
    requires WorldOk(c, w') && Extends(w, w') && ProcOk(c, w', proc)
    ensures Kept(c, w, (w', proc))
  {
  }

  lemma KeptSame(c: Crypto, w: World, proc: Proc)
    requires WorldOk(c, w) && ProcOk(c, w, proc)
    ensures Kept(c, w, (w, proc))
  {
  }

  /** A step that writes keeps the world good and only extends it. */
  lemma WriteStepKeeps(c: Crypto, w: World, proc: Proc, env: Env)
    requires WorldOk(c, w) && ProcOk(c, w, proc) && NoIdClash(c, Step(c, w, proc, env).0.computed)
    requires Writes(proc)
    ensures Kept(c, w, Step(c, w, proc, env))
  {
    if proc.CheckLocal? || proc.Stage? { StagingStepKeeps(c, w, proc, env); }
    else if proc.Publish? || proc.Quarantine? { AnchoringStepKeeps(c, w, proc, env); }
    else if proc.MarkFinal? { MarkStepKeeps(c, w, proc, env); }
    else { RecordStepKeeps(c, w, proc, env); }
  }

  /** Every action of every process keeps the invariant, and durable state only grows. */
  lemma ExecKeeps(c: Crypto, s: State, a: Action)
    requires Inv(c, s) && NoIdClash(c, Exec(c, s, a).world.computed)
    ensures Inv(c, Exec(c, s, a)) && Extends(s.world, Exec(c, s, a).world)
  {
    if a.Tick? && a.pid in s.procs && !a.env.Fault? {
      var proc := s.procs[a.pid];
      if Writes(proc) {
        WriteStepKeeps(c, s.world, proc, a.env);
      } else {
        assert Step(c, s.world, proc, a.env).0 == s.world;
        ReadStepKeeps(c, s.world, proc, a.env);
      }
      OthersKept(c, s, a.pid, Step(c, s.world, proc, a.env));
    }
  }

  lemma OthersKept(c: Crypto, s: State, pid: Pid, after: (World, Proc))
    requires Inv(c, s) && Kept(c, s.world, after)
    ensures Inv(c, State(after.0, s.procs[pid := after.1]))
  {
    forall other | other in s.procs && other != pid
      ensures ProcOk(c, after.0, s.procs[other])
    {
      ProcGrows(c, s.world, after.0, s.procs[other]);
    }
  }

  lemma FreshOk(c: Crypto)
    ensures Inv(c, FRESH)
  {
    assert forall p :: ProviderOk(c, FRESH.world, p);
  }

  /** The invariant holds after every schedule that meets no candidate-id collision. */
  lemma {:induction false} RunKeeps(c: Crypto, s: State, schedule: seq<Action>)
    requires Inv(c, s) && NoIdClash(c, Run(c, s, schedule).world.computed)
    ensures Inv(c, Run(c, s, schedule)) && Extends(s.world, Run(c, s, schedule).world)
  {
    if schedule == [] {
    } else {
      var n := |schedule| - 1;
      var before := Run(c, s, schedule[..n]);
      assert before.world.computed <= Run(c, s, schedule).world.computed;
      RunKeeps(c, s, schedule[..n]);
      ExecKeeps(c, before, schedule[n]);
      ExtendsTrans(s.world, before.world, Run(c, s, schedule).world);
    }
  }
}
