/** What every schedule of the pending-first protocol guarantees. */
module PendingTheorems {
  import opened Outcomes
  import opened ReplayRegistry
  import opened PendingProtocol
  import opened PendingInvariant

  /** Two different candidates computed in the run have one candidate id. */
  ghost predicate IdClash(c: Crypto, computed: set<Candidate>) {
    exists a, b :: a in computed && b in computed && a != b && c.IdOf(a) == c.IdOf(b)
  }

  /** Two different events computed in the run have one hash. */
  ghost predicate EventClash(c: Crypto, computed: set<Candidate>) {
    exists a, b :: a in computed && b in computed && c.EventOf(a) != c.EventOf(b)
                   && c.eventHash(c.EventOf(a)) == c.eventHash(c.EventOf(b))
  }

  lemma ReachableOk(c: Crypto, schedule: seq<Action>)
    ensures Inv(c, Run(c, FRESH, schedule)) || IdClash(c, Run(c, FRESH, schedule).world.computed)
  {
    if !IdClash(c, Run(c, FRESH, schedule).world.computed) {
      FreshOk(c);
      RunKeeps(c, FRESH, schedule);
    }
  }

  /** After every schedule the journal's heads are a prefix of the anchor's history, and the anchor is
      at most one event ahead. */
  lemma JournalFollowsAnchor(c: Crypto, schedule: seq<Action>, p: Provider)
    ensures var w := Run(c, FRESH, schedule).world;
      || (HeadsOf(w.Journal(p)) <= w.Heads(p) && |w.Heads(p)| <= |w.Journal(p)| + 1)
      || IdClash(c, w.computed)
  {
    ReachableOk(c, schedule);
    var w := Run(c, FRESH, schedule).world;
    if !IdClash(c, w.computed) { assert ProviderOk(c, w, p); }
  }

  ghost predicate Ahead(w: World, p: Provider) {
    |w.Heads(p)| == |w.Journal(p)| + 1
  }

  lemma ExplainerFacts(c: Crypto, w: World, p: Provider, id: Digest)
    requires WorldOk(c, w) && Ahead(w, p) && Explains(w, p, id)
    ensures w.db.pending[id].status.Prepared? && w.db.pending[id].prior == Tip(w.Journal(p))
    ensures !AcceptedSeen(w.db.Of(p).accepted, w.db.pending[id].payload)
    ensures !JournalSeen(w.Journal(p), w.db.pending[id].payload)
    ensures !EvidenceSeen(w.db.Of(p).evidence, w.db.pending[id].payload, |w.Journal(p)| + 1)
  {
    var row, t := w.db.pending[id], w.db.Of(p);
    assert ProviderOk(c, w, p) && PendingOk(c, w, id);
    assert OnAnchor(w, p, row.target);
    forall i | 0 <= i < |t.journal|
      ensures t.journal[i].runId != row.runId && t.journal[i].nonce != row.nonce
    {
      OriginsCompeteOnce(c, w, p, i, id);
    }
    NothingSeen(c, p, t, row.payload);
  }

  /** What the journal has not seen, the other tables have not seen either. */
  lemma NothingSeen(c: Crypto, p: Provider, t: Tables, x: Payload)
    requires TablesOk(c, p, t)
    requires forall i | 0 <= i < |t.journal| :: t.journal[i].runId != x.runId && t.journal[i].nonce != x.nonce
    ensures !AcceptedSeen(t.accepted, x) && !JournalSeen(t.journal, x) && !EvidenceSeen(t.evidence, x, |t.journal| + 1)
  {
    forall i | 0 <= i < |t.journal|
      ensures t.accepted[i].runId != x.runId && t.accepted[i].nonce != x.nonce
      ensures t.evidence[i].runId != x.runId && t.evidence[i].nonce != x.nonce && t.evidence[i].sequence == i + 1
    {
      assert RowOk(c, p, t, i);
    }
  }

  /** A journal row that shares a run id or nonce with a pending row came from that very row. */
  lemma OriginsCompeteOnce(c: Crypto, w: World, p: Provider, i: nat, id: Digest)
    requires WorldOk(c, w) && id in w.db.pending && w.db.pending[id].provider == p && i < |w.Journal(p)|
    ensures TablesOk(c, p, w.db.Of(p))
    ensures w.Journal(p)[i].runId == w.db.pending[id].runId || w.Journal(p)[i].nonce == w.db.pending[id].nonce ==>
      Origin(w.db.Of(p), i) == CandidateOf(w.db.pending[id])
  {
    var t := w.db.Of(p);
    assert ProviderOk(c, w, p) && PendingOk(c, w, id);
    assert RowOk(c, p, t, i);
    var other := c.IdOf(Origin(t, i));
    assert Staged(c, w, Origin(t, i));
    assert other != id ==> !Competes(w.db.pending[id], w.db.pending[other].payload);
  }

  /** Whenever the anchor is one ahead, exactly one pending row has that point as its target; it is
      still PREPARED and extends the journal's tip. */
  lemma AheadHasOneRow(c: Crypto, schedule: seq<Action>, p: Provider)
    requires Ahead(Run(c, FRESH, schedule).world, p)
    ensures var w := Run(c, FRESH, schedule).world;
      || (exists id :: Explains(w, p, id) && w.db.pending[id].status.Prepared?
                       && w.db.pending[id].prior == Tip(w.Journal(p))
                       && forall other | Explains(w, p, other) :: other == id)
      || IdClash(c, w.computed) || EventClash(c, w.computed)
  {
    ReachableOk(c, schedule);
    var w := Run(c, FRESH, schedule).world;
    if !IdClash(c, w.computed) && !EventClash(c, w.computed) {
      assert ProviderOk(c, w, p);
      var id :| Explains(w, p, id);
      ExplainerFacts(c, w, p, id);
      forall other | Explains(w, p, other)
        ensures other == id
      {
        assert PendingOk(c, w, id) && PendingOk(c, w, other);
        var a, b := CandidateOf(w.db.pending[id]), CandidateOf(w.db.pending[other]);
        assert c.EventOf(a) == c.EventOf(b);
        assert Competes(w.db.pending[id], w.db.pending[other].payload);
      }
    }
  }

  ghost function Ticks(pid: Pid, n: nat): seq<Action> {
    seq(n, i => Tick(pid, Normal))
  }

  lemma {:induction false} TickOnce(c: Crypto, s: State, pid: Pid, n: nat)
    requires pid in s.procs && n > 0
    ensures Run(c, s, Ticks(pid, n)) == Run(c, Exec(c, s, Tick(pid, Normal)), Ticks(pid, n - 1))
  {
    var one := [Tick(pid, Normal)];
    assert Ticks(pid, n) == one + Ticks(pid, n - 1);
    RunAppend(c, s, one, Ticks(pid, n - 1));
    assert one[..0] == [];
    assert Run(c, s, one) == Exec(c, Run(c, s, one[..0]), one[0]);
  }

  /** Recording the explaining row succeeds and closes the gap. */
  lemma ExplainerRecords(c: Crypto, keys: Keys, w: World, p: Provider, id: Digest)
    requires WorldOk(c, w) && Ahead(w, p) && Explains(w, p, id) && c.verifies(keys, w.db.pending[id].payload)
    ensures var row := w.db.pending[id];
      && Record(c, keys, w.db, row.payload, Some(row.prior), Some(id)).Ok?
      && var w' := w.(db := Record(c, keys, w.db, row.payload, Some(row.prior), Some(id)).value);
         && HeadsOf(w'.Journal(p)) == w'.Heads(p)
         && id in w'.db.pending && w'.db.pending[id].status.Finalized?
  {
    var row := w.db.pending[id];
    ExplainerFacts(c, w, p, id);
    assert ProviderOk(c, w, p) && PendingOk(c, w, id);
    RecordsAtTip(c, keys, w.db, CandidateOf(row), id);
    RecordKeeps(c, keys, w, id, row);
    var w' := w.(db := Record(c, keys, w.db, row.payload, Some(row.prior), Some(id)).value);
    RecordShape(c, keys, w.db, CandidateOf(row), id);
    assert ProviderOk(c, w', p);
    assert |w'.Journal(p)| == |w.Journal(p)| + 1 == |w'.Heads(p)|;
    assert HeadsOf(w'.Journal(p)) <= w'.Heads(p);
  }

  lemma RecordsAtTip(c: Crypto, keys: Keys, db: Db, cand: Candidate, id: Digest)
    requires TablesOk(c, cand.payload.provider, db.Of(cand.payload.provider))
    requires Tip(db.Of(cand.payload.provider).journal) == cand.prior && c.verifies(keys, cand.payload)
    requires id in db.pending && db.pending[id] == NewRow(c, cand)
    requires !AcceptedSeen(db.Of(cand.payload.provider).accepted, cand.payload)
    requires !JournalSeen(db.Of(cand.payload.provider).journal, cand.payload)
    requires !EvidenceSeen(db.Of(cand.payload.provider).evidence, cand.payload, cand.prior.sequence + 1)
    ensures Record(c, keys, db, cand.payload, Some(cand.prior), Some(id)).Ok?
  {
  }

  /** One uninterrupted recovery of the explaining row is accepted and makes journal and anchor equal. */
  lemma RecoveryCatchesUp(c: Crypto, schedule: seq<Action>, p: Provider, id: Digest, pid: Pid, keys: Keys)
    requires !IdClash(c, Run(c, FRESH, schedule).world.computed)
    requires Ahead(Run(c, FRESH, schedule).world, p) && Explains(Run(c, FRESH, schedule).world, p, id)
    requires c.verifies(keys, Run(c, FRESH, schedule).world.db.pending[id].payload)
    ensures var s := Run(c, FRESH, schedule);
      var s' := Run(c, s, [Recover(pid, keys, id)] + Ticks(pid, 6));
      && pid in s'.procs && s'.procs[pid] == Ended(Some(CandidateOf(s.world.db.pending[id])))
      && HeadsOf(s'.world.Journal(p)) == s'.world.Heads(p) == s.world.Heads(p)
  {
    var s := Run(c, FRESH, schedule);
    var w := s.world;
    ReachableOk(c, schedule);
    ExplainerFacts(c, w, p, id);
    assert ProviderOk(c, w, p) && PendingOk(c, w, id);
    LocalReading(c, w, p);
    ExplainerRecords(c, keys, w, p, id);
    var s0 := Exec(c, s, Recover(pid, keys, id));
    assert Run(c, s, [Recover(pid, keys, id)]) == s0 by {
      assert [Recover(pid, keys, id)][..0] == [];
    }
    RunAppend(c, s, [Recover(pid, keys, id)], Ticks(pid, 6));
    RecoverySteps(c, s0, p, id, pid, keys);
  }

  /** The six steps of that recovery, one by one. */
  lemma RecoverySteps(c: Crypto, s: State, p: Provider, id: Digest, pid: Pid, keys: Keys)
    requires pid in s.procs && s.procs[pid] == LoadPending(keys, id) && Explains(s.world, p, id)
    requires Usable(c, keys, s.world.db.pending[id]) && s.world.db.pending[id].status.Prepared?
    requires c.IdOf(CandidateOf(s.world.db.pending[id])) == id
    requires LocalState(s.world.db, p) == Ok(s.world.db.pending[id].prior)
    requires Record(c, keys, s.world.db, s.world.db.pending[id].payload,
                    Some(s.world.db.pending[id].prior), Some(id)).Ok?
    ensures var row := s.world.db.pending[id];
      Run(c, s, Ticks(pid, 6)) ==
      State(s.world.(db := Record(c, keys, s.world.db, row.payload, Some(row.prior), Some(id)).value),
            s.procs[pid := Ended(Some(CandidateOf(row)))])
  {
    var row := s.world.db.pending[id];
    var cand := CandidateOf(row);
    var s3 := s.(procs := s.procs[pid := LoadRow(keys, id, false)]);
    ReadingSteps(c, s, p, id, pid, keys, 6);
    FinalizingSteps(c, s3, id, pid, keys);
    assert s3.procs[pid := Ended(Some(cand))] == s.procs[pid := Ended(Some(cand))];
  }

  /** The first three: the row is read and the anchor found to have it. */
  lemma ReadingSteps(c: Crypto, s: State, p: Provider, id: Digest, pid: Pid, keys: Keys, n: nat)
    requires n >= 3 && pid in s.procs && s.procs[pid] == LoadPending(keys, id) && Explains(s.world, p, id)
    requires Usable(c, keys, s.world.db.pending[id]) && c.IdOf(CandidateOf(s.world.db.pending[id])) == id
    ensures Run(c, s, Ticks(pid, n)) == Run(c, s.(procs := s.procs[pid := LoadRow(keys, id, false)]), Ticks(pid, n - 3))
  {
    var row := s.world.db.pending[id];
    var cand := CandidateOf(row);
    var s1 := s.(procs := s.procs[pid := RecoverRead(keys, cand, row.status.Prepared?)]);
    var s2 := s.(procs := s.procs[pid := Confirm(keys, cand)]);
    assert c.Target(cand) == s.world.Anchor(p) != cand.prior;
    Advances(c, s, pid, s1, n);
    Advances(c, s1, pid, s2, n - 1);
    Advances(c, s2, pid, s.(procs := s.procs[pid := LoadRow(keys, id, false)]), n - 2);
  }

  /** The last three: from the anchored row to the journal. */
  lemma FinalizingSteps(c: Crypto, s: State, id: Digest, pid: Pid, keys: Keys)
    requires pid in s.procs && s.procs[pid] == LoadRow(keys, id, false) && id in s.world.db.pending
    requires Usable(c, keys, s.world.db.pending[id]) && s.world.db.pending[id].status.Prepared?
    requires LocalState(s.world.db, s.world.db.pending[id].provider) == Ok(s.world.db.pending[id].prior)
    requires Record(c, keys, s.world.db, s.world.db.pending[id].payload,
                    Some(s.world.db.pending[id].prior), Some(id)).Ok?
    ensures var row := s.world.db.pending[id];
      Run(c, s, Ticks(pid, 3)) ==
      State(s.world.(db := Record(c, keys, s.world.db, row.payload, Some(row.prior), Some(id)).value),
            s.procs[pid := Ended(Some(CandidateOf(row)))])
  {
    var row := s.world.db.pending[id];
    var s4 := s.(procs := s.procs[pid := FinalizeLocal(keys, id, row, false)]);
    var s5 := s.(procs := s.procs[pid := RecordRow(keys, id, row, false)]);
    var s6 := State(s.world.(db := Record(c, keys, s.world.db, row.payload, Some(row.prior), Some(id)).value),
                    s.procs[pid := Ended(Some(CandidateOf(row)))]);
    LoadOnce(c, s, pid, keys, id);
    Advances(c, s4, pid, s5, 2);
    RecordOnce(c, s5, pid, keys, id, row);
    assert s5.procs[pid := s6.procs[pid]] == s6.procs;
    assert Ticks(pid, 0) == [];
  }

  lemma LoadOnce(c: Crypto, s: State, pid: Pid, keys: Keys, id: Digest)
    requires pid in s.procs && s.procs[pid] == LoadRow(keys, id, false) && id in s.world.db.pending
    requires Usable(c, keys, s.world.db.pending[id])
    ensures Run(c, s, Ticks(pid, 3)) ==
      Run(c, s.(procs := s.procs[pid := FinalizeLocal(keys, id, s.world.db.pending[id], false)]), Ticks(pid, 2))
  {
    Advances(c, s, pid, s.(procs := s.procs[pid := FinalizeLocal(keys, id, s.world.db.pending[id], false)]), 3);
  }

  lemma RecordOnce(c: Crypto, s: State, pid: Pid, keys: Keys, id: Digest, row: PendingRow)
    requires pid in s.procs && s.procs[pid] == RecordRow(keys, id, row, false)
    requires Record(c, keys, s.world.db, row.payload, Some(row.prior), Some(id)).Ok?
    ensures Run(c, s, Ticks(pid, 1)) ==
      State(s.world.(db := Record(c, keys, s.world.db, row.payload, Some(row.prior), Some(id)).value),
            s.procs[pid := Ended(Some(CandidateOf(row)))])
  {
    var db := Record(c, keys, s.world.db, row.payload, Some(row.prior), Some(id)).value;
    Advances(c, s, pid, State(s.world.(db := db), s.procs[pid := Ended(Some(CandidateOf(row)))]), 1);
    assert Ticks(pid, 0) == [];
  }

  lemma Advances(c: Crypto, s: State, pid: Pid, next: State, n: nat)
    requires pid in s.procs && n > 0
    requires Step(c, s.world, s.procs[pid], Normal).0 == next.world
    requires s.procs[pid := Step(c, s.world, s.procs[pid], Normal).1] == next.procs
    ensures Run(c, s, Ticks(pid, n)) == Run(c, next, Ticks(pid, n - 1))
  {
    TickOnce(c, s, pid, n);
    assert Exec(c, s, Tick(pid, Normal)) == next;
  }

  /** No two pending rows of a provider share a run id or a nonce, and each run id and nonce is
      accepted at most once. */
  lemma AcceptedOnce(c: Crypto, schedule: seq<Action>, p: Provider)
    ensures var w := Run(c, FRESH, schedule).world;
      || IdClash(c, w.computed)
      || (&& (forall a, b | a in w.db.pending && b in w.db.pending && a != b ::
               !Competes(w.db.pending[a], w.db.pending[b].payload))
          && (forall i, j | 0 <= i < j < |w.db.Of(p).accepted| ::
               w.db.Of(p).accepted[i].runId != w.db.Of(p).accepted[j].runId
               && w.db.Of(p).accepted[i].nonce != w.db.Of(p).accepted[j].nonce))
  {
    ReachableOk(c, schedule);
    var w := Run(c, FRESH, schedule).world;
    var t := w.db.Of(p);
    if !IdClash(c, w.computed) {
      assert ProviderOk(c, w, p);
      forall i, j | 0 <= i < j < |t.accepted|
        ensures t.accepted[i].runId != t.accepted[j].runId && t.accepted[i].nonce != t.accepted[j].nonce
      {
        assert RowOk(c, p, t, i) && RowOk(c, p, t, j);
        assert Staged(c, w, Origin(t, j));
        assert PendingOk(c, w, c.IdOf(Origin(t, j)));
        OriginsCompeteOnce(c, w, p, i, c.IdOf(Origin(t, j)));
      }
    }
  }

  /** The anchor's event at the row's sequence number has another head. */
  ghost predicate LostTo(w: World, row: PendingRow) {
    row.target.sequence <= |w.Heads(row.provider)| && !OnAnchor(w, row.provider, row.target)
  }

  /** A candidate that lost its sequence number is never accepted, whatever happens later: neither its
      run id nor its nonce ever appears among the accepted rows of its provider. */
  lemma LostNeverAccepted(c: Crypto, before: seq<Action>, id: Digest, after: seq<Action>)
    requires var w := Run(c, FRESH, before).world; id in w.db.pending && LostTo(w, w.db.pending[id])
    ensures var s := Run(c, FRESH, before);
      var w' := Run(c, s, after).world;
      || !AcceptedSeen(w'.db.Of(s.world.db.pending[id].provider).accepted, s.world.db.pending[id].payload)
      || IdClash(c, w'.computed)
  {
    var s := Run(c, FRESH, before);
    var s' := Run(c, s, after);
    if !IdClash(c, s'.world.computed) {
      FreshOk(c);
      ComputedGrows(c, s, after);
      RunKeeps(c, FRESH, before);
      RunKeeps(c, s, after);
      assert PendingOk(c, s.world, id);
      LostRowUnaccepted(c, s.world, s'.world, id);
    }
  }

  lemma LostRowUnaccepted(c: Crypto, w: World, w': World, id: Digest)
    requires WorldOk(c, w') && Extends(w, w') && id in w.db.pending && LostTo(w, w.db.pending[id])
    requires Bound(c, w.db.pending[id])
    ensures !AcceptedSeen(w'.db.Of(w.db.pending[id].provider).accepted, w.db.pending[id].payload)
  {
    var row := w.db.pending[id];
    var t := w'.db.Of(row.provider);
    assert ProviderOk(c, w', row.provider);
    forall i | 0 <= i < |t.accepted|
      ensures t.accepted[i].runId != row.payload.runId && t.accepted[i].nonce != row.payload.nonce
    {
      LostRowElsewhere(c, w, w', id, i);
    }
  }

  lemma LostRowElsewhere(c: Crypto, w: World, w': World, id: Digest, i: nat)
    requires WorldOk(c, w') && Extends(w, w') && id in w.db.pending && LostTo(w, w.db.pending[id])
    requires Bound(c, w.db.pending[id]) && i < |w'.db.Of(w.db.pending[id].provider).accepted|
    ensures var row := w.db.pending[id];
      var a := w'.db.Of(row.provider).accepted[i];
      a.runId != row.payload.runId && a.nonce != row.payload.nonce
  {
    var row := w.db.pending[id];
    var t := w'.db.Of(row.provider);
    assert ProviderOk(c, w', row.provider) && TablesGrow(w, w', row.provider);
    assert RowOk(c, row.provider, t, i);
    assert SameRow(row, w'.db.pending[id]);
    OriginsCompeteOnce(c, w', row.provider, i, id);
    LostHeadDiffers(c, w, w', row, i);
  }

  lemma LostHeadDiffers(c: Crypto, w: World, w': World, row: PendingRow, i: nat)
    requires ProviderOk(c, w', row.provider) && TablesGrow(w, w', row.provider) && LostTo(w, row) && Bound(c, row)
    requires i < |w'.Journal(row.provider)|
    ensures Origin(w'.db.Of(row.provider), i) != CandidateOf(row)
  {
    var p, t := row.provider, w'.db.Of(row.provider);
    assert RowOk(c, p, t, i) && LinkOk(c, p, t.journal, i);
    assert w'.Heads(p)[i] == HeadsOf(t.journal)[i] == t.journal[i].head;
  }

  lemma {:induction false} ComputedGrows(c: Crypto, s: State, schedule: seq<Action>)
    ensures s.world.computed <= Run(c, s, schedule).world.computed
  {
    if schedule != [] { ComputedGrows(c, s, schedule[..|schedule| - 1]); }
  }

  /** A finalization that re-entered itself never reaches the acceptance transaction a second time. */
  lemma ReentryNeverRecords(c: Crypto, schedule: seq<Action>, pid: Pid)
    requires pid in Run(c, FRESH, schedule).procs
    ensures var s := Run(c, FRESH, schedule);
      (s.procs[pid].RecordRow? ==> !s.procs[pid].again) || IdClash(c, s.world.computed)
  {
    ReachableOk(c, schedule);
  }

  /** A call that reported acceptance stays accepted in every continuation: its event is in the
      journal, on the anchor's history, and its signed payload is the stored evidence. */
  lemma AcceptanceIsDurable(c: Crypto, before: seq<Action>, pid: Pid, after: seq<Action>)
    requires var s := Run(c, FRESH, before); pid in s.procs && s.procs[pid].Ended? && s.procs[pid].accepted.Some?
    ensures var s := Run(c, FRESH, before);
      var cand := s.procs[pid].accepted.value;
      var w := Run(c, s, after).world;
      var p, n := cand.payload.provider, cand.prior.sequence;
      || IdClash(c, w.computed)
      || (&& n < |w.Journal(p)| && n < |w.Heads(p)| && n < |w.db.Of(p).evidence| && n < |w.db.Of(p).accepted|
          && w.Journal(p)[n].head == w.Heads(p)[n] == c.Target(cand).head
          && w.db.Of(p).evidence[n].payload == cand.payload
          && w.db.Of(p).accepted[n].runId == cand.payload.runId
          && w.db.Of(p).accepted[n].nonce == cand.payload.nonce)
  {
    var s := Run(c, FRESH, before);
    var w := Run(c, s, after).world;
    if !IdClash(c, w.computed) {
      FreshOk(c);
      ComputedGrows(c, s, after);
      RunKeeps(c, FRESH, before);
      RunKeeps(c, s, after);
      var cand := s.procs[pid].accepted.value;
      JournaledGrows(c, s.world, w, cand);
      var p, n := cand.payload.provider, cand.prior.sequence;
      assert ProviderOk(c, w, p);
      assert RowOk(c, p, w.db.Of(p), n);
      assert HeadsOf(w.Journal(p))[n] == w.Journal(p)[n].head;
    }
  }

  lemma RecordOverwrites(c: Crypto, keys: Keys, db: Db, cand: Candidate, finalized: Digest, id: Digest)
    requires TablesOk(c, cand.payload.provider, db.Of(cand.payload.provider))
    requires Record(c, keys, db, cand.payload, Some(cand.prior), Some(finalized)).Ok?
    requires id in db.pending && db.pending[id].status.Finalized?
    ensures var db' := Record(c, keys, db, cand.payload, Some(cand.prior), Some(finalized)).value;
      id in db'.pending && db'.pending[id].status.Finalized?
  {
    RecordShape(c, keys, db, cand, finalized);
  }

  lemma StepOverwrites(c: Crypto, w: World, proc: Proc, env: Env, id: Digest)
    requires forall p :: TablesOk(c, p, w.db.Of(p))
    requires id in w.db.pending && w.db.pending[id].status.Finalized?
    ensures var w' := Step(c, w, proc, env).0;
      && id in w'.db.pending
      && (w'.db.pending[id].status.Finalized? <==> !(proc.Quarantine? && c.IdOf(proc.cand) == id))
  {
    if proc.RecordRow?
       && Record(c, proc.keys, w.db, proc.row.payload, Some(proc.row.prior), Some(proc.id)).Ok? {
      RecordOverwrites(c, proc.keys, w.db, CandidateOf(proc.row), proc.id, id);
    }
  }

  /** The call is a submitter of the candidate at one of the two anchor reads that may quarantine it: before its
      compare-and-set, or after one that was refused. */
  predicate AtGuard(proc: Proc, cand: Candidate) {
    && (proc.Reread? || (proc.Observe? && proc.role.Submitter? && proc.refused))
    && proc.cand == cand
  }

  /** The anchor has an event after the candidate's. */
  ghost predicate Passed(c: Crypto, w: World, cand: Candidate) {
    |w.Heads(cand.payload.provider)| > c.Target(cand).sequence
  }

  /** At these reads a journaled candidate is quarantined exactly if the anchor has passed it. */
  lemma GuardDecides(c: Crypto, w: World, proc: Proc, env: Env, cand: Candidate)
    requires WorldOk(c, w) && AtGuard(proc, cand) && Journaled(c, w, cand)
    ensures var (w', proc') := Step(c, w, proc, env);
      && w' == w && proc' == if Passed(c, w, cand) then Quarantine(cand) else Confirm(proc.keys, cand)
  {
    JournaledAnchor(c, w, cand);
  }

  /** The anchor is past a journaled candidate, or at it. */
  lemma JournaledAnchor(c: Crypto, w: World, cand: Candidate)
    requires WorldOk(c, w) && Journaled(c, w, cand)
    ensures var p, at := cand.payload.provider, c.Target(cand);
      |w.Heads(p)| >= at.sequence > cand.prior.sequence && (|w.Heads(p)| == at.sequence ==> w.Anchor(p) == at)
  {
    var p, n := cand.payload.provider, cand.prior.sequence;
    assert ProviderOk(c, w, p);
    assert HeadsOf(w.Journal(p))[n] == w.Journal(p)[n].head;
  }

  ghost predicate Quarantines(s: State, pid: Pid, cand: Candidate) {
    pid in s.procs && s.procs[pid] == Quarantine(cand)
  }

  /** A step of a call at no such read never leads to the quarantine of a journaled candidate. */
  lemma OnlyGuardsQuarantine(c: Crypto, w: World, proc: Proc, env: Env, cand: Candidate)
    requires !AtGuard(proc, cand)
    ensures Step(c, w, proc, env).1 != Quarantine(cand)
  {
  }

  /**
   In every run, a FINALIZED status is lost in a step exactly if a call already at the quarantine update of that
   candidate makes it; and a call gets there in a step exactly if it is a submitter of the candidate that reads the
   anchor, before its compare-and-set or after a refused one, when the anchor has passed the candidate.
   */
  lemma FinalizedOverwritten(c: Crypto, schedule: seq<Action>, a: Action, id: Digest)
    requires var s := Run(c, FRESH, schedule); id in s.world.db.pending && s.world.db.pending[id].status.Finalized?
    ensures var s := Run(c, FRESH, schedule);
      var s', cand := Exec(c, s, a), CandidateOf(s.world.db.pending[id]);
      || IdClash(c, s.world.computed)
      || (&& id in s'.world.db.pending
          && (!s'.world.db.pending[id].status.Finalized? <==> Steps(s, a) && Quarantines(s, a.pid, cand))
          && (forall pid :: Quarantines(s', pid, cand) && !Quarantines(s, pid, cand) <==>
                Steps(s, a) && a.pid == pid && AtGuard(s.procs[pid], cand) && Passed(c, s.world, cand)))
  {
    var s := Run(c, FRESH, schedule);
    ReachableOk(c, schedule);
    if !IdClash(c, s.world.computed) {
      var cand := CandidateOf(s.world.db.pending[id]);
      assert PendingOk(c, s.world, id);
      StatusLost(c, s, a, id);
      forall pid
        ensures Quarantines(Exec(c, s, a), pid, cand) && !Quarantines(s, pid, cand) <==>
          Steps(s, a) && a.pid == pid && AtGuard(s.procs[pid], cand) && Passed(c, s.world, cand)
      {
        QuarantineReached(c, s, a, pid, cand);
      }
    }
  }

  /** The action is a step of a call that does not die. */
  predicate Steps(s: State, a: Action) {
    a.Tick? && a.pid in s.procs && !a.env.Fault?
  }

  lemma StatusLost(c: Crypto, s: State, a: Action, id: Digest)
    requires Inv(c, s) && id in s.world.db.pending && s.world.db.pending[id].status.Finalized?
    ensures id in Exec(c, s, a).world.db.pending
    ensures !Exec(c, s, a).world.db.pending[id].status.Finalized? <==>
      Steps(s, a) && Quarantines(s, a.pid, CandidateOf(s.world.db.pending[id]))
  {
    if Steps(s, a) {
      assert forall p :: ProviderOk(c, s.world, p) ==> TablesOk(c, p, s.world.db.Of(p));
      StepOverwrites(c, s.world, s.procs[a.pid], a.env, id);
      QuarantineId(c, s, a.pid, id);
    }
  }

  lemma QuarantineReached(c: Crypto, s: State, a: Action, pid: Pid, cand: Candidate)
    requires WorldOk(c, s.world) && Journaled(c, s.world, cand)
    ensures Quarantines(Exec(c, s, a), pid, cand) && !Quarantines(s, pid, cand) <==>
      Steps(s, a) && a.pid == pid && AtGuard(s.procs[pid], cand) && Passed(c, s.world, cand)
  {
    if Steps(s, a) && a.pid == pid { QuarantineEntered(c, s.world, s.procs[pid], a.env, cand); }
  }

  /** A step of a call leads to the quarantine of a journaled candidate exactly at a guard, if the anchor has passed. */
  lemma QuarantineEntered(c: Crypto, w: World, proc: Proc, env: Env, cand: Candidate)
    requires WorldOk(c, w) && Journaled(c, w, cand)
    ensures Step(c, w, proc, env).1 == Quarantine(cand) <==> AtGuard(proc, cand) && Passed(c, w, cand)
  {
    if AtGuard(proc, cand) {
      GuardDecides(c, w, proc, env, cand);
    } else {
      OnlyGuardsQuarantine(c, w, proc, env, cand);
    }
  }

  /** A call about to quarantine an id is about to quarantine the candidate staged under it. */
  lemma QuarantineId(c: Crypto, s: State, pid: Pid, id: Digest)
    requires Inv(c, s) && pid in s.procs && id in s.world.db.pending
    ensures s.procs[pid].Quarantine? && c.IdOf(s.procs[pid].cand) == id <==>
      Quarantines(s, pid, CandidateOf(s.world.db.pending[id]))
  {
    assert ProcOk(c, s.world, s.procs[pid]) && PendingOk(c, s.world, id);
  }

  /** In every run, a submitter of a journaled candidate at either read marks it CONFLICT in its next two steps exactly
      if the anchor has passed the candidate; the candidate stays journaled. */
  lemma LateDuplicateQuarantines(c: Crypto, schedule: seq<Action>, pid: Pid, cand: Candidate)
    requires var s := Run(c, FRESH, schedule);
      pid in s.procs && AtGuard(s.procs[pid], cand) && Journaled(c, s.world, cand)
    ensures var s := Run(c, FRESH, schedule);
      var s', id := Run(c, s, Ticks(pid, 2)), c.IdOf(cand);
      || IdClash(c, s.world.computed)
      || (&& id in s.world.db.pending && id in s'.world.db.pending && Journaled(c, s'.world, cand)
          && s'.world.db.pending[id] ==
             s.world.db.pending[id].(status := if Passed(c, s.world, cand) then Conflict
               else s.world.db.pending[id].status))
  {
    var s := Run(c, FRESH, schedule);
    ReachableOk(c, schedule);
    if !IdClash(c, s.world.computed) {
      assert ProcOk(c, s.world, s.procs[pid]);
      GuardDecides(c, s.world, s.procs[pid], Normal, cand);
      GuardSteps(c, s, pid, s.procs[pid].keys, cand, Passed(c, s.world, cand));
    }
  }

  /** The two steps of a call that the guard sends to the quarantine or on. */
  lemma GuardSteps(c: Crypto, s: State, pid: Pid, keys: Keys, cand: Candidate, passed: bool)
    requires pid in s.procs && c.IdOf(cand) in s.world.db.pending && Journaled(c, s.world, cand)
    requires Step(c, s.world, s.procs[pid], Normal)
      == (s.world, if passed then Quarantine(cand) else Confirm(keys, cand))
    ensures var s', id := Run(c, s, Ticks(pid, 2)), c.IdOf(cand);
      && id in s'.world.db.pending && Journaled(c, s'.world, cand)
      && s'.world.db.pending[id] ==
         s.world.db.pending[id].(status := if passed then Conflict else s.world.db.pending[id].status)
  {
    var next := s.(procs := s.procs[pid := if passed then Quarantine(cand) else Confirm(keys, cand)]);
    var last := Exec(c, next, Tick(pid, Normal));
    Advances(c, s, pid, next, 2);
    Advances(c, next, pid, last, 1);
    assert Ticks(pid, 0) == [];
    assert last.world == if passed then WithStatus(s.world, c.IdOf(cand), Conflict) else s.world;
    assert last.world.db.Of(cand.payload.provider) == s.world.db.Of(cand.payload.provider);
  }

  /** The anchor has moved on from the candidate's prior point, and not to the candidate. */
  ghost predicate Overtaken(c: Crypto, w: World, cand: Candidate) {
    var p := cand.payload.provider;
    |w.Heads(p)| > cand.prior.sequence && w.Anchor(p) != c.Target(cand)
  }

  /** At the two reads, a submitter quarantines its candidate exactly if it was overtaken. */
  lemma OvertakenStep(c: Crypto, w: World, proc: Proc, cand: Candidate)
    requires WorldOk(c, w) && ProcOk(c, w, proc) && AtGuard(proc, cand)
    ensures var (w', proc') := Step(c, w, proc, Normal);
      && w' == w && c.IdOf(cand) in w.db.pending
      && (proc' == Quarantine(cand) <==> Overtaken(c, w, cand))
      && (proc'.Quarantine? || proc'.Confirm? || (proc'.Publish? && proc'.cand == cand))
  {
    assert PendingOk(c, w, c.IdOf(cand));
  }

  /** Only the quarantine touches the row. */
  lemma SecondStep(c: Crypto, w: World, proc: Proc, cand: Candidate)
    requires proc == Quarantine(cand) || proc.Confirm? || proc.Publish?
    requires c.IdOf(cand) in w.db.pending
    ensures Step(c, w, proc, Normal).0.db ==
      if proc == Quarantine(cand) then WithStatus(w, c.IdOf(cand), Conflict).db else w.db
  {
  }

  /** In every run, a submitter at either read marks its candidate CONFLICT in its next two steps exactly if the anchor
      has moved on without it, and touches nothing in the database otherwise. */
  lemma OvertakenIsQuarantined(c: Crypto, schedule: seq<Action>, pid: Pid, cand: Candidate)
    requires var s := Run(c, FRESH, schedule); pid in s.procs && AtGuard(s.procs[pid], cand)
    ensures var s := Run(c, FRESH, schedule);
      || IdClash(c, s.world.computed)
      || (&& c.IdOf(cand) in s.world.db.pending
          && Run(c, s, Ticks(pid, 2)).world.db ==
             if Overtaken(c, s.world, cand) then WithStatus(s.world, c.IdOf(cand), Conflict).db else s.world.db)
  {
    var s := Run(c, FRESH, schedule);
    ReachableOk(c, schedule);
    if !IdClash(c, s.world.computed) {
      assert ProcOk(c, s.world, s.procs[pid]);
      OvertakenStep(c, s.world, s.procs[pid], cand);
      var next := s.(procs := s.procs[pid := Step(c, s.world, s.procs[pid], Normal).1]);
      SecondStep(c, s.world, next.procs[pid], cand);
      TwoTicks(c, s, next, pid);
    }
  }

  lemma TwoTicks(c: Crypto, s: State, next: State, pid: Pid)
    requires pid in s.procs && Exec(c, s, Tick(pid, Normal)) == next && pid in next.procs
    ensures Run(c, s, Ticks(pid, 2)).world == Step(c, next.world, next.procs[pid], Normal).0
  {
    TickOnce(c, s, pid, 2);
    TickOnce(c, next, pid, 1);
    assert Ticks(pid, 0) == [];
  }
}
