/** What one uninterrupted recovery does, after any run. */
module PendingRecovery {
  import opened Outcomes
  import opened ReplayRegistry
  import opened PendingProtocol
  import opened PendingInvariant
  import opened PendingTheorems
  import opened PendingSubmission
  import opened ReplayPlans

  // ---------------------------------------------------------------------------------------------
  // Plans of the states the protocol reaches

  lemma TablesPlannable(c: Crypto, schedule: seq<Action>, p: Provider)
    ensures var w := Run(c, FRESH, schedule).world; WriterOk(c, p, w.db.Of(p)) || IdClash(c, w.computed)
  {
    ReachableOk(c, schedule);
    AcceptedOnce(c, schedule, p);
    var w := Run(c, FRESH, schedule).world;
    if !IdClash(c, w.computed) { assert ProviderOk(c, w, p); }
  }

  /** After every schedule of submitters and recoverers, a plan exists for exactly the points of the journal's own
      history, provided the keys verify the stored evidence; its items describe the signed payloads after the anchor
      and hash from the anchor's head to the terminal one. */
  lemma RunStatesPlannable(c: Crypto, schedule: seq<Action>, p: Provider, keys: Keys, anchor: Point)
    ensures var w := Run(c, FRESH, schedule).world;
      var t := w.db.Of(p);
      || IdClash(c, w.computed)
      || (&& (Plannable(c, keys, t, p, anchor) <==>
                && anchor.sequence <= |t.journal| && anchor.head == HeadBefore(t.journal, anchor.sequence)
                && EvidenceVerifies(c, keys, t))
          && (Plannable(c, keys, t, p, anchor) ==>
                PlanTells(c, p, t, anchor, PlanFor(c, t, p, anchor))))
  {
    var w := Run(c, FRESH, schedule).world;
    var t := w.db.Of(p);
    TablesPlannable(c, schedule, p);
    if !IdClash(c, w.computed) {
      PlannableExactly(c, keys, p, t, anchor);
      if Plannable(c, keys, t, p, anchor) { SuffixComplete(c, p, t, anchor); }
    }
  }

  // ---------------------------------------------------------------------------------------------
  // When a recovery is accepted

  /**
   The row is not in conflict and verifies; and the anchor is at its prior point, or at its target and either the
   journal is behind or all the stored evidence of the provider verifies too, since an event that is already journaled
   is finalized through a plan of the whole journal.
   */
  ghost predicate Recoverable(c: Crypto, w: World, keys: Keys, id: Digest) {
    && id in w.db.pending && !w.db.pending[id].status.Conflict? && c.verifies(keys, w.db.pending[id].payload)
    && var row := w.db.pending[id];
       var p := row.provider;
       || w.Anchor(p) == row.prior
       || (w.Anchor(p) == row.target && (Ahead(w, p) || EvidenceVerifies(c, keys, w.db.Of(p))))
  }

  /** A call that has ended makes no more steps. */
  lemma MoreTicks(c: Crypto, s: State, pid: Pid, n: nat, m: nat)
    requires n <= m && var s' := Run(c, s, Ticks(pid, n)); pid in s'.procs && s'.procs[pid].Ended?
    ensures Run(c, s, Ticks(pid, m)) == Run(c, s, Ticks(pid, n))
  {
    assert Ticks(pid, m) == Ticks(pid, n) + Ticks(pid, m - n);
    RunAppend(c, s, Ticks(pid, n), Ticks(pid, m - n));
    EndedRuns(c, Run(c, s, Ticks(pid, n)), pid, m - n);
  }

  /** Accepted: the call reports the candidate, its row is FINALIZED, and the journal has caught up with the anchor,
      which has its event. */
  ghost predicate Accepted(c: Crypto, s: State, s': State, pid: Pid, row: PendingRow) {
    var p := row.provider;
    && EndsAs(s, s', pid, Ended(Some(CandidateOf(row)))) && IsFinal(s'.world, c.IdOf(CandidateOf(row)))
    && s'.world.Heads(p) == HeadsOf(s'.world.Journal(p))
    && s'.world.Heads(p) == s.world.Heads(p) + if s.world.Anchor(p) == row.prior then [row.target.head] else []
  }

  // ---------------------------------------------------------------------------------------------
  // The anchor is at the prior point

  lemma PriorFacts(c: Crypto, w: World, id: Digest)
    requires WorldOk(c, w) && id in w.db.pending && w.Anchor(w.db.pending[id].provider) == w.db.pending[id].prior
    ensures var row := w.db.pending[id];
      var cand := CandidateOf(row);
      && !Ahead(w, row.provider) && c.IdOf(cand) == id && Staged(c, w, cand) && row == NewRow(c, cand)
  {
    assert PendingOk(c, w, id) && ProviderOk(c, w, w.db.pending[id].provider);
    NextIsPrepared(c, w, id);
  }

  /** The row is read, the anchor moved and confirmed. */
  lemma RepublishSteps(c: Crypto, s: State, w': World, pid: Pid, keys: Keys, cand: Candidate)
    requires pid in s.procs && s.procs[pid] == LoadPending(keys, c.IdOf(cand)) && c.verifies(keys, cand.payload)
    requires c.IdOf(cand) in s.world.db.pending && s.world.db.pending[c.IdOf(cand)] == NewRow(c, cand)
    requires s.world.Anchor(cand.payload.provider) == cand.prior
    requires CompareAndSet(c, s.world, cand, Normal) == (w', Updated)
    requires w'.Anchor(cand.payload.provider) == c.Target(cand)
    ensures Run(c, s, Ticks(pid, 7)) ==
      Run(c, State(w', s.procs[pid := LoadRow(keys, c.IdOf(cand), false)]), Ticks(pid, 3))
  {
    RereadForRecovery(c, s, pid, keys, cand, 7);
    var s2 := s.(procs := s.procs[pid := Publish(Recoverer, keys, cand)]);
    var s3 := State(w', s.procs[pid := Confirm(keys, cand)]);
    Advances(c, s2, pid, s3, 5);
    Advances(c, s3, pid, State(w', s.procs[pid := LoadRow(keys, c.IdOf(cand), false)]), 4);
  }

  lemma RereadForRecovery(c: Crypto, s: State, pid: Pid, keys: Keys, cand: Candidate, n: nat)
    requires n >= 2 && pid in s.procs && s.procs[pid] == LoadPending(keys, c.IdOf(cand))
    requires c.verifies(keys, cand.payload)
    requires c.IdOf(cand) in s.world.db.pending && s.world.db.pending[c.IdOf(cand)] == NewRow(c, cand)
    requires s.world.Anchor(cand.payload.provider) == cand.prior
    ensures Run(c, s, Ticks(pid, n)) ==
      Run(c, s.(procs := s.procs[pid := Publish(Recoverer, keys, cand)]), Ticks(pid, n - 2))
  {
    var s1 := s.(procs := s.procs[pid := RecoverRead(keys, cand, true)]);
    Advances(c, s, pid, s1, n);
    Advances(c, s1, pid, s.(procs := s.procs[pid := Publish(Recoverer, keys, cand)]), n - 1);
  }

  lemma RecoversFromPrior(c: Crypto, s: State, pid: Pid, keys: Keys, id: Digest)
    requires WorldOk(c, s.world) && pid in s.procs && s.procs[pid] == LoadPending(keys, id)
    requires id in s.world.db.pending && c.verifies(keys, s.world.db.pending[id].payload)
    requires s.world.Anchor(s.world.db.pending[id].provider) == s.world.db.pending[id].prior
    ensures Accepted(c, s, Run(c, s, Ticks(pid, 7)), pid, s.world.db.pending[id])
  {
    var cand := CandidateOf(s.world.db.pending[id]);
    PriorFacts(c, s.world, id);
    PublishExplains(c, s.world, cand);
    var w' := CompareAndSet(c, s.world, cand, Normal).0;
    var s' := State(w', s.procs[pid := LoadRow(keys, id, false)]);
    RepublishSteps(c, s, w', pid, keys, cand);
    AnchoredSteps(c, s', pid, keys, cand);
    EndsAfter(s, s', Run(c, s', Ticks(pid, 3)), pid);
  }

  // ---------------------------------------------------------------------------------------------
  // The anchor is at the target

  lemma RecoversAhead(c: Crypto, s: State, pid: Pid, keys: Keys, id: Digest)
    requires WorldOk(c, s.world) && pid in s.procs && s.procs[pid] == LoadPending(keys, id)
    requires id in s.world.db.pending && c.verifies(keys, s.world.db.pending[id].payload)
    requires var row := s.world.db.pending[id];
      s.world.Anchor(row.provider) == row.target && Ahead(s.world, row.provider)
    ensures Accepted(c, s, Run(c, s, Ticks(pid, 7)), pid, s.world.db.pending[id])
  {
    var row := s.world.db.pending[id];
    AheadFacts(c, s.world, keys, id);
    ReadingSteps(c, s, row.provider, id, pid, keys, 7);
    var s' := s.(procs := s.procs[pid := LoadRow(keys, id, false)]);
    AnchoredSteps(c, s', pid, keys, CandidateOf(row));
    MoreTicks(c, s', pid, 3, 4);
    EndsAfter(s, s', Run(c, s', Ticks(pid, 3)), pid);
  }

  /** What the recovery of the event that the journal lacks finds. */
  lemma AheadFacts(c: Crypto, w: World, keys: Keys, id: Digest)
    requires WorldOk(c, w) && id in w.db.pending && c.verifies(keys, w.db.pending[id].payload)
    requires var row := w.db.pending[id]; w.Anchor(row.provider) == row.target && Ahead(w, row.provider)
    ensures var row := w.db.pending[id];
      && Usable(c, keys, row) && c.IdOf(CandidateOf(row)) == id && row == NewRow(c, CandidateOf(row))
      && Explains(w, row.provider, id) && row.target != row.prior
  {
    assert PendingOk(c, w, id);
    ExplainerFacts(c, w, w.db.pending[id].provider, id);
  }

  /** An anchored event that the journal has caught up with has its evidence, or two events share a hash. */
  lemma CaughtUpHasEvidence(c: Crypto, w: World, id: Digest)
    requires WorldOk(c, w) && id in w.db.pending
    requires var row := w.db.pending[id]; w.Anchor(row.provider) == row.target && !Ahead(w, row.provider)
    ensures EvidenceMatches(w.db.Of(w.db.pending[id].provider).evidence, w.db.pending[id]) || EventClash(c, w.computed)
  {
    var row := w.db.pending[id];
    var p, t, i := row.provider, w.db.Of(row.provider), row.prior.sequence;
    assert ProviderOk(c, w, p) && PendingOk(c, w, id);
    TipIsAnchor(c, w, p);
    assert Staged(c, w, Origin(t, i));
    assert PendingOk(c, w, c.IdOf(Origin(t, i)));
    SameEventMatches(c, p, t, i, row);
  }

  /** The journal row with the row's head has the row's evidence, or its event is another one with the same hash. */
  lemma SameEventMatches(c: Crypto, p: Provider, t: Tables, i: nat, row: PendingRow)
    requires TablesOk(c, p, t) && Bound(c, row) && row.provider == p && i < |t.journal|
    requires i + 1 == row.target.sequence && t.journal[i].head == row.target.head
    ensures c.eventHash(c.EventOf(Origin(t, i))) == c.eventHash(c.EventOf(CandidateOf(row)))
    ensures c.EventOf(Origin(t, i)) == c.EventOf(CandidateOf(row)) ==> EvidenceMatches(t.evidence, row)
  {
    assert RowOk(c, p, t, i) && LinkOk(c, p, t.journal, i);
    if c.EventOf(Origin(t, i)) == c.EventOf(CandidateOf(row)) {
      assert t.evidence[i].sequence == row.target.sequence && t.evidence[i].head == row.target.head;
    }
  }

  /** The last four steps when the event is already in the journal. */
  lemma JournaledSteps(c: Crypto, s: State, pid: Pid, keys: Keys, id: Digest, again: bool)
    requires pid in s.procs && s.procs[pid] == LoadRow(keys, id, again) && id in s.world.db.pending
    requires var row := s.world.db.pending[id];
      && Usable(c, keys, row) && LocalState(s.world.db, row.provider) == Ok(row.target)
      && FinalizeCommitted(s.world.db, id, row).Ok?
    ensures var row, s' := s.world.db.pending[id], Run(c, s, Ticks(pid, 4));
      if Plannable(c, keys, s.world.db.Of(row.provider), row.provider, row.target) then
        && EndsAs(s, s', pid, Ended(Some(CandidateOf(row))))
        && s'.world == s.world.(db := FinalizeCommitted(s.world.db, id, row).value)
      else EndsAs(s, s', pid, FAILED) && s'.world == s.world
  {
    var row := s.world.db.pending[id];
    CheckPlanSteps(c, s, pid, keys, id, again);
    if Plannable(c, keys, s.world.db.Of(row.provider), row.provider, row.target) {
      var s3 := s.(procs := s.procs[pid := MarkFinal(id, row)]);
      var s4 := State(s.world.(db := FinalizeCommitted(s.world.db, id, row).value),
                      s.procs[pid := Ended(Some(CandidateOf(row)))]);
      Advances(c, s3, pid, s4, 1);
      assert Ticks(pid, 0) == [];
    } else {
      EndedRuns(c, s.(procs := s.procs[pid := FAILED]), pid, 1);
    }
  }

  lemma CheckPlanSteps(c: Crypto, s: State, pid: Pid, keys: Keys, id: Digest, again: bool)
    requires pid in s.procs && s.procs[pid] == LoadRow(keys, id, again) && id in s.world.db.pending
    requires var row := s.world.db.pending[id];
      Usable(c, keys, row) && LocalState(s.world.db, row.provider) == Ok(row.target)
    ensures var row := s.world.db.pending[id];
      var good := Plannable(c, keys, s.world.db.Of(row.provider), row.provider, row.target);
      Run(c, s, Ticks(pid, 4)) ==
      Run(c, s.(procs := s.procs[pid := if good then MarkFinal(id, row) else FAILED]), Ticks(pid, 1))
  {
    var row := s.world.db.pending[id];
    var good := Plannable(c, keys, s.world.db.Of(row.provider), row.provider, row.target);
    LoadSteps(c, s, pid, keys, id, again);
    var s1 := s.(procs := s.procs[pid := FinalizeLocal(keys, id, row, again)]);
    var s2 := s.(procs := s.procs[pid := CheckPlan(keys, id, row)]);
    LocalStep(c, s1, pid, keys, id, row, again);
    assert s1.procs[pid := CheckPlan(keys, id, row)] == s2.procs;
    PlanStep(c, s2, pid, keys, id, row);
    assert s2.procs[pid := if good then MarkFinal(id, row) else FAILED]
        == s.procs[pid := if good then MarkFinal(id, row) else FAILED];
  }

  lemma PlanStep(c: Crypto, s: State, pid: Pid, keys: Keys, id: Digest, row: PendingRow)
    requires pid in s.procs && s.procs[pid] == CheckPlan(keys, id, row)
    ensures var good := Plannable(c, keys, s.world.db.Of(row.provider), row.provider, row.target);
      Run(c, s, Ticks(pid, 2)) ==
      Run(c, s.(procs := s.procs[pid := if good then MarkFinal(id, row) else FAILED]), Ticks(pid, 1))
  {
    var good := Plannable(c, keys, s.world.db.Of(row.provider), row.provider, row.target);
    Advances(c, s, pid, s.(procs := s.procs[pid := if good then MarkFinal(id, row) else FAILED]), 2);
  }

  lemma LocalStep(c: Crypto, s: State, pid: Pid, keys: Keys, id: Digest, row: PendingRow, again: bool)
    requires pid in s.procs && s.procs[pid] == FinalizeLocal(keys, id, row, again)
    requires LocalState(s.world.db, row.provider) == Ok(row.target)
    ensures Run(c, s, Ticks(pid, 3)) == Run(c, s.(procs := s.procs[pid := CheckPlan(keys, id, row)]), Ticks(pid, 2))
  {
    Advances(c, s, pid, s.(procs := s.procs[pid := CheckPlan(keys, id, row)]), 3);
  }

  lemma LoadSteps(c: Crypto, s: State, pid: Pid, keys: Keys, id: Digest, again: bool)
    requires pid in s.procs && s.procs[pid] == LoadRow(keys, id, again) && id in s.world.db.pending
    requires Usable(c, keys, s.world.db.pending[id])
    ensures Run(c, s, Ticks(pid, 4)) ==
      Run(c, s.(procs := s.procs[pid := FinalizeLocal(keys, id, s.world.db.pending[id], again)]), Ticks(pid, 3))
  {
    Advances(c, s, pid, s.(procs := s.procs[pid := FinalizeLocal(keys, id, s.world.db.pending[id], again)]), 4);
  }

  lemma RecoversJournaled(c: Crypto, s: State, pid: Pid, keys: Keys, id: Digest)
    requires WorldOk(c, s.world) && pid in s.procs && s.procs[pid] == LoadPending(keys, id) && id in s.world.db.pending
    requires var row := s.world.db.pending[id];
      && !row.status.Conflict? && c.verifies(keys, row.payload)
      && WriterOk(c, row.provider, s.world.db.Of(row.provider))
      && s.world.Anchor(row.provider) == row.target && !Ahead(s.world, row.provider)
    ensures var row, s' := s.world.db.pending[id], Run(c, s, Ticks(pid, 7));
      || EventClash(c, s.world.computed)
      || (if EvidenceVerifies(c, keys, s.world.db.Of(row.provider)) then Accepted(c, s, s', pid, row)
          else EndsAs(s, s', pid, FAILED) && s'.world == s.world)
  {
    if !EventClash(c, s.world.computed) {
      JournaledFacts(c, s.world, keys, id);
      JournaledRun(c, s, pid, keys, id);
    }
  }

  lemma JournaledRun(c: Crypto, s: State, pid: Pid, keys: Keys, id: Digest)
    requires pid in s.procs && s.procs[pid] == LoadPending(keys, id) && id in s.world.db.pending
    requires var row := s.world.db.pending[id];
      var p := row.provider;
      && Usable(c, keys, row) && c.IdOf(CandidateOf(row)) == id && row.target != row.prior
      && s.world.Anchor(p) == row.target && LocalState(s.world.db, p) == Ok(row.target)
      && FinalizeCommitted(s.world.db, id, row).Ok? && HeadsOf(s.world.Journal(p)) == s.world.Heads(p)
    ensures var row, s' := s.world.db.pending[id], Run(c, s, Ticks(pid, 7));
      if Plannable(c, keys, s.world.db.Of(row.provider), row.provider, row.target) then Accepted(c, s, s', pid, row)
      else EndsAs(s, s', pid, FAILED) && s'.world == s.world
  {
    ReadingSteps(c, s, s.world.db.pending[id].provider, id, pid, keys, 7);
    var s' := s.(procs := s.procs[pid := LoadRow(keys, id, false)]);
    JournaledSteps(c, s', pid, keys, id, false);
    EndsAfter(s, s', Run(c, s', Ticks(pid, 4)), pid);
  }

  /** What the recovery of a journaled event finds. */
  lemma JournaledFacts(c: Crypto, w: World, keys: Keys, id: Digest)
    requires WorldOk(c, w) && id in w.db.pending && !EventClash(c, w.computed)
    requires var row := w.db.pending[id];
      && !row.status.Conflict? && c.verifies(keys, row.payload) && WriterOk(c, row.provider, w.db.Of(row.provider))
      && w.Anchor(row.provider) == row.target && !Ahead(w, row.provider)
    ensures var row := w.db.pending[id];
      var p := row.provider;
      && Usable(c, keys, row) && c.IdOf(CandidateOf(row)) == id && row.target != row.prior
      && LocalState(w.db, p) == Ok(row.target) && FinalizeCommitted(w.db, id, row).Ok?
      && HeadsOf(w.Journal(p)) == w.Heads(p)
      && (Plannable(c, keys, w.db.Of(p), p, row.target) <==> EvidenceVerifies(c, keys, w.db.Of(p)))
  {
    var row := w.db.pending[id];
    var p := row.provider;
    assert PendingOk(c, w, id);
    LocalReading(c, w, p);
    TipIsAnchor(c, w, p);
    CaughtUpHasEvidence(c, w, id);
    JournalEqualsHeads(c, w, p);
    PlannableExactly(c, keys, p, w.db.Of(p), row.target);
  }

  lemma JournalEqualsHeads(c: Crypto, w: World, p: Provider)
    requires WorldOk(c, w) && !Ahead(w, p)
    ensures HeadsOf(w.Journal(p)) == w.Heads(p)
  {
    assert ProviderOk(c, w, p);
  }

  // ---------------------------------------------------------------------------------------------
  // The whole recovery

  /** Everything else fails in the first two steps. */
  lemma RecoveryRefused(c: Crypto, s: State, pid: Pid, keys: Keys, id: Digest)
    requires pid in s.procs && s.procs[pid] == LoadPending(keys, id) && WorldOk(c, s.world)
    requires id in s.world.db.pending ==>
      var row := s.world.db.pending[id];
      || row.status.Conflict? || !c.verifies(keys, row.payload)
      || (s.world.Anchor(row.provider) != row.prior && s.world.Anchor(row.provider) != row.target)
    ensures var s' := Run(c, s, Ticks(pid, 7)); EndsAs(s, s', pid, FAILED) && s'.world == s.world
  {
    var failed := s.(procs := s.procs[pid := FAILED]);
    if id in s.world.db.pending && Usable(c, keys, s.world.db.pending[id]) {
      ReadRefused(c, s, pid, keys, id);
    } else {
      Advances(c, s, pid, failed, 7);
      EndedRuns(c, failed, pid, 6);
    }
  }

  lemma ReadRefused(c: Crypto, s: State, pid: Pid, keys: Keys, id: Digest)
    requires pid in s.procs && s.procs[pid] == LoadPending(keys, id) && id in s.world.db.pending
    requires var row := s.world.db.pending[id];
      Usable(c, keys, row) && s.world.Anchor(row.provider) != row.prior && s.world.Anchor(row.provider) != row.target
    ensures Run(c, s, Ticks(pid, 7)) == s.(procs := s.procs[pid := FAILED])
  {
    var row := s.world.db.pending[id];
    var failed := s.(procs := s.procs[pid := FAILED]);
    var s1 := s.(procs := s.procs[pid := RecoverRead(keys, CandidateOf(row), row.status.Prepared?)]);
    Advances(c, s, pid, s1, 7);
    Advances(c, s1, pid, failed, 6);
    EndedRuns(c, failed, pid, 5);
  }

  /**
   After any run, an uninterrupted recovery of any id is accepted if and only if the row is recoverable. If accepted,
   the journal has caught up with the anchor, which moved at most by the row's event; if not, nothing changed.
   Otherwise two candidates of the run share an id or two of its events a hash.
   */
  lemma LoneRecovery(c: Crypto, schedule: seq<Action>, pid: Pid, keys: Keys, id: Digest)
    ensures var s := Run(c, FRESH, schedule);
      var s' := Run(c, s, [Recover(pid, keys, id)] + Ticks(pid, 7));
      || IdClash(c, s.world.computed) || EventClash(c, s.world.computed)
      || (if Recoverable(c, s.world, keys, id) then Accepted(c, s, s', pid, s.world.db.pending[id])
          else EndsAs(s, s', pid, FAILED) && s'.world == s.world)
  {
    var s := Run(c, FRESH, schedule);
    var first := [Recover(pid, keys, id)];
    var s0 := Exec(c, s, Recover(pid, keys, id));
    assert Run(c, s, first) == s0 by { assert first[..0] == []; }
    RunAppend(c, s, first, Ticks(pid, 7));
    ReachableOk(c, schedule);
    if !IdClash(c, s.world.computed) {
      RecoveryEnds(c, s0, pid, keys, id, schedule);
      if !EventClash(c, s.world.computed) { EndsAfter(s, s0, Run(c, s0, Ticks(pid, 7)), pid); }
    }
  }

  lemma RecoveryEnds(c: Crypto, s: State, pid: Pid, keys: Keys, id: Digest, schedule: seq<Action>)
    requires WorldOk(c, s.world) && pid in s.procs && s.procs[pid] == LoadPending(keys, id)
    requires s.world == Run(c, FRESH, schedule).world && !IdClash(c, s.world.computed)
    ensures var s' := Run(c, s, Ticks(pid, 7));
      || EventClash(c, s.world.computed)
      || (if Recoverable(c, s.world, keys, id) then Accepted(c, s, s', pid, s.world.db.pending[id])
          else EndsAs(s, s', pid, FAILED) && s'.world == s.world)
  {
    if
      || id !in s.world.db.pending || s.world.db.pending[id].status.Conflict?
      || !c.verifies(keys, s.world.db.pending[id].payload)
    {
      RecoveryRefused(c, s, pid, keys, id);
    } else {
      var row := s.world.db.pending[id];
      if s.world.Anchor(row.provider) == row.prior {
        RecoversFromPrior(c, s, pid, keys, id);
      } else if s.world.Anchor(row.provider) != row.target {
        RecoveryRefused(c, s, pid, keys, id);
      } else if Ahead(s.world, row.provider) {
        RecoversAhead(c, s, pid, keys, id);
      } else {
        TablesPlannable(c, schedule, row.provider);
        RecoversJournaled(c, s, pid, keys, id);
      }
    }
  }
}
