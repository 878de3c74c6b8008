/** What one uninterrupted submission does, after any run. */
module PendingSubmission {
  import opened Outcomes
  import opened ReplayRegistry
  import opened PendingProtocol
  import opened PendingInvariant
  import opened PendingTheorems

  /** The journal has caught up with the anchor, and no other candidate has staged the run id or the nonce. */
  ghost predicate Submittable(w: World, x: Payload) {
    && !Ahead(w, x.provider)
    && forall id | id in w.db.pending && Competes(w.db.pending[id], x) ::
         CandidateOf(w.db.pending[id]) == Candidate(x, w.Anchor(x.provider))
  }

  /** The pending row is FINALIZED. */
  ghost predicate IsFinal(w: World, id: Digest) {
    id in w.db.pending && w.db.pending[id].status.Finalized?
  }

  /** The call stands at `end`, and the others stand where they stood. */
  ghost predicate EndsAs(s: State, s': State, pid: Pid, end: Proc) {
    && pid in s'.procs && s'.procs[pid] == end
    && forall q | q in s.procs && q != pid :: q in s'.procs && s'.procs[q] == s.procs[q]
  }

  lemma EndsAfter(s: State, s1: State, s': State, pid: Pid)
    requires pid in s1.procs && s1.procs == s.procs[pid := s1.procs[pid]] && pid in s'.procs
    ensures EndsAs(s1, s', pid, s'.procs[pid]) ==> EndsAs(s, s', pid, s'.procs[pid])
  {
  }

  lemma {:induction false} EndedRuns(c: Crypto, s: State, pid: Pid, n: nat)
    requires pid in s.procs && s.procs[pid].Ended?
    ensures Run(c, s, Ticks(pid, n)) == s
  {
    if n == 0 {
      assert Ticks(pid, 0) == [];
    } else {
      assert s.procs[pid := s.procs[pid]] == s.procs;
      Advances(c, s, pid, s, n);
      EndedRuns(c, s, pid, n - 1);
    }
  }

  /** Where the journal has caught up, its tip is the anchor. */
  lemma TipIsAnchor(c: Crypto, w: World, p: Provider)
    requires WorldOk(c, w)
    ensures Tip(w.Journal(p)) == w.Anchor(p) <==> !Ahead(w, p)
  {
    assert ProviderOk(c, w, p);
    if !Ahead(w, p) && w.Journal(p) != [] {
      assert HeadsOf(w.Journal(p))[|w.Journal(p)| - 1] == w.Journal(p)[|w.Journal(p)| - 1].head;
    }
  }

  // ---------------------------------------------------------------------------------------------
  // Staging

  /** A candidate for the next event that is already staged is still PREPARED. */
  lemma NextIsPrepared(c: Crypto, w: World, id: Digest)
    requires WorldOk(c, w) && id in w.db.pending && w.db.pending[id].prior == w.Anchor(w.db.pending[id].provider)
    requires !Ahead(w, w.db.pending[id].provider)
    ensures w.db.pending[id] == NewRow(c, CandidateOf(w.db.pending[id]))
    ensures !AcceptedSeen(w.db.Of(w.db.pending[id].provider).accepted, w.db.pending[id].payload)
  {
    var row := w.db.pending[id];
    var p, t := row.provider, w.db.Of(row.provider);
    assert ProviderOk(c, w, p) && PendingOk(c, w, id);
    forall i | 0 <= i < |t.accepted|
      ensures t.accepted[i].runId != row.runId && t.accepted[i].nonce != row.nonce
    {
      OriginsCompeteOnce(c, w, p, i, id);
      assert RowOk(c, p, t, i);
    }
  }

  /** An accepted run id or nonce still has its pending row. */
  lemma AcceptedCompetes(c: Crypto, w: World, x: Payload)
    requires WorldOk(c, w) && AcceptedSeen(w.db.Of(x.provider).accepted, x)
    ensures exists id ::
      && id in w.db.pending && Competes(w.db.pending[id], x)
      && w.db.pending[id].prior.sequence < |w.Journal(x.provider)|
  {
    var t := w.db.Of(x.provider);
    assert ProviderOk(c, w, x.provider);
    var i :| 0 <= i < |t.accepted| && (t.accepted[i].runId == x.runId || t.accepted[i].nonce == x.nonce);
    assert RowOk(c, x.provider, t, i) && Staged(c, w, Origin(t, i));
    var id := c.IdOf(Origin(t, i));
    assert PendingOk(c, w, id);
    assert Competes(w.db.pending[id], x);
  }

  lemma OneCompetitor(w: World, id: Digest, other: Digest)
    requires Distinct(w) && id in w.db.pending && other in w.db.pending
    requires Competes(w.db.pending[other], w.db.pending[id].payload)
    ensures other == id
  {
  }

  /** Staging succeeds exactly when no other candidate competes, and then the row is as new. */
  lemma StagesExactly(c: Crypto, w: World, x: Payload)
    requires WorldOk(c, w) && !Ahead(w, x.provider)
    requires var cand := Candidate(x, w.Anchor(x.provider)); cand in w.computed && NoIdClash(c, w.computed)
    ensures var cand := Candidate(x, w.Anchor(x.provider));
      var r := PersistPending(c, w.db, cand);
      && (r.Ok? <==> Submittable(w, x))
      && (r.Ok? ==> c.IdOf(cand) in r.value.pending && r.value.pending[c.IdOf(cand)] == NewRow(c, cand)
                    && r.value.tables == w.db.tables)
  {
    var cand := Candidate(x, w.Anchor(x.provider));
    var id := c.IdOf(cand);
    LocalReading(c, w, x.provider);
    TipIsAnchor(c, w, x.provider);
    if id in w.db.pending {
      assert PendingOk(c, w, id);
      assert CandidateOf(w.db.pending[id]) == cand;
      NextIsPrepared(c, w, id);
      assert Competes(w.db.pending[id], x);
      forall other | other in w.db.pending && Competes(w.db.pending[other], x)
        ensures other == id
      {
        OneCompetitor(w, id, other);
      }
    } else {
      NewStages(c, w, x);
    }
  }

  lemma NewStages(c: Crypto, w: World, x: Payload)
    requires WorldOk(c, w) && !Ahead(w, x.provider) && c.IdOf(Candidate(x, w.Anchor(x.provider))) !in w.db.pending
    requires GuardedState(w.db.Of(x.provider)) == Ok(w.Anchor(x.provider))
    ensures PersistPending(c, w.db, Candidate(x, w.Anchor(x.provider))).Ok? <==> Submittable(w, x)
  {
    var cand := Candidate(x, w.Anchor(x.provider));
    forall id | id in w.db.pending
      ensures CandidateOf(w.db.pending[id]) != cand
    {
      assert PendingOk(c, w, id);
    }
    if AcceptedSeen(w.db.Of(x.provider).accepted, x) { AcceptedCompetes(c, w, x); }
  }

  // ---------------------------------------------------------------------------------------------
  // The steps

  /** Publishing the staged candidate leaves the anchor one ahead, explained by that candidate. */
  lemma PublishExplains(c: Crypto, w: World, cand: Candidate)
    requires WorldOk(c, w) && Staged(c, w, cand) && w.Anchor(cand.payload.provider) == cand.prior
    requires !Ahead(w, cand.payload.provider)
    requires w.db.pending[c.IdOf(cand)] == NewRow(c, cand)
    ensures var (w', reply) := CompareAndSet(c, w, cand, Normal);
      && reply.Updated? && WorldOk(c, w') && w'.db == w.db && w'.computed == w.computed
      && w'.Heads(cand.payload.provider) == w.Heads(cand.payload.provider) + [c.Target(cand).head]
      && w'.Anchor(cand.payload.provider) == c.Target(cand)
      && Ahead(w', cand.payload.provider) && Explains(w', cand.payload.provider, c.IdOf(cand))
  {
    PublishKeeps(c, w, cand, Normal);
    assert ProviderOk(c, w, cand.payload.provider);
  }

  /** From the staged row to the journal: six steps. */
  lemma StagedSteps(c: Crypto, s: State, pid: Pid, keys: Keys, cand: Candidate)
    requires pid in s.procs && s.procs[pid] == Reread(keys, cand) && WorldOk(c, s.world)
    requires c.verifies(keys, cand.payload)
    requires Staged(c, s.world, cand) && s.world.db.pending[c.IdOf(cand)] == NewRow(c, cand)
    requires s.world.Anchor(cand.payload.provider) == cand.prior && !Ahead(s.world, cand.payload.provider)
    ensures var p, s' := cand.payload.provider, Run(c, s, Ticks(pid, 6));
      && EndsAs(s, s', pid, Ended(Some(cand))) && IsFinal(s'.world, c.IdOf(cand))
      && s'.world.computed == s.world.computed
      && s'.world.Heads(p) == s.world.Heads(p) + [c.Target(cand).head] == HeadsOf(s'.world.Journal(p))
  {
    var w' := CompareAndSet(c, s.world, cand, Normal).0;
    PublishExplains(c, s.world, cand);
    PublishingSteps(c, s, w', pid, keys, cand);
    var s3 := State(w', s.procs[pid := LoadRow(keys, c.IdOf(cand), false)]);
    AnchoredSteps(c, s3, pid, keys, cand);
    EndsAfter(s, s3, Run(c, s3, Ticks(pid, 3)), pid);
  }

  /** The anchor is reread, moved and confirmed. */
  lemma PublishingSteps(c: Crypto, s: State, w': World, pid: Pid, keys: Keys, cand: Candidate)
    requires pid in s.procs && s.procs[pid] == Reread(keys, cand) && s.world.Anchor(cand.payload.provider) == cand.prior
    requires CompareAndSet(c, s.world, cand, Normal) == (w', Updated)
    requires w'.Anchor(cand.payload.provider) == c.Target(cand)
    ensures Run(c, s, Ticks(pid, 6))
      == Run(c, State(w', s.procs[pid := LoadRow(keys, c.IdOf(cand), false)]), Ticks(pid, 3))
  {
    RereadOnce(c, s, pid, keys, cand, 6);
    var s1 := s.(procs := s.procs[pid := Publish(Submitter, keys, cand)]);
    var s2 := State(w', s.procs[pid := Confirm(keys, cand)]);
    Advances(c, s1, pid, s2, 5);
    Advances(c, s2, pid, State(w', s.procs[pid := LoadRow(keys, c.IdOf(cand), false)]), 4);
  }

  lemma RereadOnce(c: Crypto, s: State, pid: Pid, keys: Keys, cand: Candidate, n: nat)
    requires n >= 1 && pid in s.procs && s.procs[pid] == Reread(keys, cand)
    requires s.world.Anchor(cand.payload.provider) == cand.prior
    ensures Run(c, s, Ticks(pid, n))
      == Run(c, s.(procs := s.procs[pid := Publish(Submitter, keys, cand)]), Ticks(pid, n - 1))
  {
    assert c.Target(cand) != cand.prior;
    Advances(c, s, pid, s.(procs := s.procs[pid := Publish(Submitter, keys, cand)]), n);
  }

  /** The anchored row is recorded. */
  lemma AnchoredSteps(c: Crypto, s: State, pid: Pid, keys: Keys, cand: Candidate)
    requires pid in s.procs && s.procs[pid] == LoadRow(keys, c.IdOf(cand), false) && WorldOk(c, s.world)
    requires c.verifies(keys, cand.payload)
    requires Ahead(s.world, cand.payload.provider) && Explains(s.world, cand.payload.provider, c.IdOf(cand))
    requires s.world.db.pending[c.IdOf(cand)] == NewRow(c, cand)
    ensures var p, s' := cand.payload.provider, Run(c, s, Ticks(pid, 3));
      && EndsAs(s, s', pid, Ended(Some(cand))) && IsFinal(s'.world, c.IdOf(cand))
      && s'.world.computed == s.world.computed
      && s'.world.Heads(p) == s.world.Heads(p) == HeadsOf(s'.world.Journal(p))
  {
    var p, id := cand.payload.provider, c.IdOf(cand);
    ExplainerFacts(c, s.world, p, id);
    ExplainerRecords(c, keys, s.world, p, id);
    LocalReading(c, s.world, p);
    FinalizingSteps(c, s, id, pid, keys);
  }

  /** The three steps before: the candidate is computed and staged, or the call gives up. */
  lemma SubmissionSteps(c: Crypto, s: State, pid: Pid, keys: Keys, x: Payload)
    requires pid in s.procs && s.procs[pid] == ReadPrior(keys, x) && WorldOk(c, s.world) && c.verifies(keys, x)
    ensures var p, cand := x.provider, Candidate(x, s.world.Anchor(x.provider));
      var s' := Run(c, s, Ticks(pid, 9));
      if Ahead(s.world, p) then EndsAs(s, s', pid, FAILED) && s'.world == s.world
      else
        && s.world.computed + {cand} <= s'.world.computed
        && (NoIdClash(c, s.world.computed + {cand}) ==>
              if Submittable(s.world, x) then
                && EndsAs(s, s', pid, Ended(Some(cand))) && IsFinal(s'.world, c.IdOf(cand))
                && s'.world.computed == s.world.computed + {cand}
                && s'.world.Heads(p) == s.world.Heads(p) + [c.Target(cand).head] == HeadsOf(s'.world.Journal(p))
              else EndsAs(s, s', pid, FAILED) && s'.world == s.world.(computed := s.world.computed + {cand}))
  {
    var w, p := s.world, x.provider;
    var cand := Candidate(x, w.Anchor(p));
    CheckingSteps(c, s, pid, keys, x, 9);
    if Ahead(w, p) {
      EndedRuns(c, s.(procs := s.procs[pid := FAILED]), pid, 7);
    } else {
      var s2 := State(w.(computed := w.computed + {cand}), s.procs[pid := Stage(keys, cand)]);
      ComputedGrows(c, s2, Ticks(pid, 7));
      if NoIdClash(c, s2.world.computed) {
        ComputedKeeps(c, w, cand);
        StagingSteps(c, w, s2, pid, keys, x);
        EndsAfter(s, s2, Run(c, s2, Ticks(pid, 7)), pid);
      }
    }
  }

  lemma SubmittableSame(w: World, w': World, x: Payload)
    requires w' == w.(computed := w'.computed)
    ensures w'.Anchor(x.provider) == w.Anchor(x.provider) && w'.Heads(x.provider) == w.Heads(x.provider)
    ensures Ahead(w', x.provider) <==> Ahead(w, x.provider)
    ensures Submittable(w', x) <==> Submittable(w, x)
  {
  }

  /** The anchor is read and compared with the journal. */
  lemma CheckingSteps(c: Crypto, s: State, pid: Pid, keys: Keys, x: Payload, n: nat)
    requires n >= 2 && pid in s.procs && s.procs[pid] == ReadPrior(keys, x) && WorldOk(c, s.world)
    ensures var cand := Candidate(x, s.world.Anchor(x.provider));
      Run(c, s, Ticks(pid, n)) == Run(c,
        if Ahead(s.world, x.provider) then s.(procs := s.procs[pid := FAILED])
        else State(s.world.(computed := s.world.computed + {cand}), s.procs[pid := Stage(keys, cand)]),
        Ticks(pid, n - 2))
  {
    var w, p := s.world, x.provider;
    var cand := Candidate(x, w.Anchor(p));
    var s1 := s.(procs := s.procs[pid := CheckLocal(keys, x, w.Anchor(p))]);
    LocalReading(c, w, p);
    TipIsAnchor(c, w, p);
    Advances(c, s, pid, s1, n);
    if Ahead(w, p) {
      Advances(c, s1, pid, s.(procs := s.procs[pid := FAILED]), n - 1);
    } else {
      Advances(c, s1, pid, State(w.(computed := w.computed + {cand}), s.procs[pid := Stage(keys, cand)]), n - 1);
    }
  }

  lemma StagingSteps(c: Crypto, w: World, s: State, pid: Pid, keys: Keys, x: Payload)
    requires WorldOk(c, s.world) && NoIdClash(c, s.world.computed) && c.verifies(keys, x) && !Ahead(w, x.provider)
    requires s.world == w.(computed := s.world.computed)
    requires var cand := Candidate(x, w.Anchor(x.provider));
      cand in s.world.computed && pid in s.procs && s.procs[pid] == Stage(keys, cand)
    ensures var p, cand := x.provider, Candidate(x, w.Anchor(x.provider));
      var s' := Run(c, s, Ticks(pid, 7));
      if Submittable(w, x) then
        && EndsAs(s, s', pid, Ended(Some(cand))) && IsFinal(s'.world, c.IdOf(cand))
        && s'.world.computed == s.world.computed
        && s'.world.Heads(p) == w.Heads(p) + [c.Target(cand).head] == HeadsOf(s'.world.Journal(p))
      else EndsAs(s, s', pid, FAILED) && s'.world == s.world
  {
    SubmittableSame(w, s.world, x);
    if Submittable(w, x) {
      StagingGoesOn(c, s, pid, keys, x);
    } else {
      StagesExactly(c, s.world, x);
      StagingStops(c, s, pid, keys, Candidate(x, w.Anchor(x.provider)));
    }
  }

  lemma StagingStops(c: Crypto, s: State, pid: Pid, keys: Keys, cand: Candidate)
    requires pid in s.procs && s.procs[pid] == Stage(keys, cand) && PersistPending(c, s.world.db, cand).Err?
    ensures var s' := Run(c, s, Ticks(pid, 7)); EndsAs(s, s', pid, FAILED) && s'.world == s.world
  {
    StageOnce(c, s, pid, keys, cand, 7);
    EndedRuns(c, s.(procs := s.procs[pid := FAILED]), pid, 6);
  }

  lemma StagingGoesOn(c: Crypto, s: State, pid: Pid, keys: Keys, x: Payload)
    requires WorldOk(c, s.world) && NoIdClash(c, s.world.computed) && c.verifies(keys, x) && Submittable(s.world, x)
    requires var cand := Candidate(x, s.world.Anchor(x.provider));
      cand in s.world.computed && pid in s.procs && s.procs[pid] == Stage(keys, cand)
    ensures var p, cand := x.provider, Candidate(x, s.world.Anchor(x.provider));
      var s' := Run(c, s, Ticks(pid, 7));
      && EndsAs(s, s', pid, Ended(Some(cand))) && IsFinal(s'.world, c.IdOf(cand))
      && s'.world.computed == s.world.computed
      && s'.world.Heads(p) == s.world.Heads(p) + [c.Target(cand).head] == HeadsOf(s'.world.Journal(p))
  {
    var cand := Candidate(x, s.world.Anchor(x.provider));
    StageOnce(c, s, pid, keys, cand, 7);
    StagedFacts(c, s.world, x);
    var s1 := State(s.world.(db := PersistPending(c, s.world.db, cand).value), s.procs[pid := Reread(keys, cand)]);
    StagedSteps(c, s1, pid, keys, cand);
    EndsAfter(s, s1, Run(c, s1, Ticks(pid, 6)), pid);
  }

  lemma StageOnce(c: Crypto, s: State, pid: Pid, keys: Keys, cand: Candidate, n: nat)
    requires n >= 1 && pid in s.procs && s.procs[pid] == Stage(keys, cand)
    ensures var r := PersistPending(c, s.world.db, cand);
      Run(c, s, Ticks(pid, n)) == Run(c,
        if r.Ok? then State(s.world.(db := r.value), s.procs[pid := Reread(keys, cand)])
        else s.(procs := s.procs[pid := FAILED]),
        Ticks(pid, n - 1))
  {
    var r := PersistPending(c, s.world.db, cand);
    if r.Ok? {
      Advances(c, s, pid, State(s.world.(db := r.value), s.procs[pid := Reread(keys, cand)]), n);
    } else {
      Advances(c, s, pid, s.(procs := s.procs[pid := FAILED]), n);
    }
  }

  lemma StagedFacts(c: Crypto, w: World, x: Payload)
    requires WorldOk(c, w) && NoIdClash(c, w.computed) && Submittable(w, x)
    requires Candidate(x, w.Anchor(x.provider)) in w.computed
    ensures var cand := Candidate(x, w.Anchor(x.provider));
      var r := PersistPending(c, w.db, cand);
      && r.Ok? && var w' := w.(db := r.value);
         && WorldOk(c, w') && Staged(c, w', cand) && w'.db.pending[c.IdOf(cand)] == NewRow(c, cand)
         && w'.Anchor(x.provider) == cand.prior && !Ahead(w', x.provider)
  {
    StagesExactly(c, w, x);
    StageKeeps(c, w, Candidate(x, w.Anchor(x.provider)));
  }

  /**
   After any run, an uninterrupted submission is accepted if and only if its signature verifies, the journal has
   caught up with the anchor, and no other candidate has staged its run id or nonce. If accepted, anchor and
   journal both grow by exactly its event; if not, they and the pending rows are as they were. Otherwise two
   candidates computed in the run share an id.
   */
  lemma LoneSubmission(c: Crypto, schedule: seq<Action>, pid: Pid, keys: Keys, x: Payload)
    ensures var s := Run(c, FRESH, schedule);
      var s' := Run(c, s, [Submit(pid, keys, x)] + Ticks(pid, 9));
      var p, cand := x.provider, Candidate(x, s.world.Anchor(x.provider));
      || IdClash(c, s'.world.computed)
      || (if c.verifies(keys, x) && Submittable(s.world, x) then
            && EndsAs(s, s', pid, Ended(Some(cand))) && IsFinal(s'.world, c.IdOf(cand))
            && s'.world.computed == s.world.computed + {cand}
            && s'.world.Heads(p) == s.world.Heads(p) + [c.Target(cand).head] == HeadsOf(s'.world.Journal(p))
          else EndsAs(s, s', pid, FAILED) && s'.world.db == s.world.db && s'.world.anchors == s.world.anchors)
  {
    var s := Run(c, FRESH, schedule);
    var s0 := Exec(c, s, Submit(pid, keys, x));
    var first := [Submit(pid, keys, x)];
    assert Run(c, s, first) == s0 by { assert first[..0] == []; }
    RunAppend(c, s, first, Ticks(pid, 9));
    ComputedGrows(c, s0, Ticks(pid, 9));
    if !c.verifies(keys, x) {
      EndedRuns(c, s0, pid, 9);
    } else if !IdClash(c, Run(c, s0, Ticks(pid, 9)).world.computed) {
      ReachableOk(c, schedule);
      SubmissionSteps(c, s0, pid, keys, x);
      EndsAfter(s, s0, Run(c, s0, Ticks(pid, 9)), pid);
    }
  }

  // ---------------------------------------------------------------------------------------------
  // A late duplicate

  /** A submitter stages its candidate and pauses; a duplicate of it is accepted, then another submission; the
      first one goes on. */
  ghost function LateDuplicate(keys: Keys, x: Payload, y: Payload): seq<Action> {
    (([Submit(0, keys, x)] + Ticks(0, 3)) + ([Submit(1, keys, x)] + Ticks(1, 9))) + ([Submit(2, keys, y)] + Ticks(2, 9))
  }

  lemma FirstStages(c: Crypto, keys: Keys, x: Payload)
    requires c.verifies(keys, x)
    ensures var cand := Candidate(x, GENESIS_POINT);
      Run(c, FRESH, [Submit(0, keys, x)] + Ticks(0, 3)) ==
      State(World(Db(map[], map[c.IdOf(cand) := NewRow(c, cand)]), map[], {cand}), map[0 := Reread(keys, cand)])
  {
    var first := [Submit(0, keys, x)];
    var s0 := State(FRESH.world, map[0 := ReadPrior(keys, x)]);
    assert Run(c, FRESH, first) == s0 by { assert first[..0] == []; }
    RunAppend(c, FRESH, first, Ticks(0, 3));
    FreshOk(c);
    CheckingSteps(c, s0, 0, keys, x, 3);
    var cand := Candidate(x, GENESIS_POINT);
    var s2 := State(FRESH.world.(computed := {cand}), map[0 := Stage(keys, cand)]);
    assert s0.procs[0 := Stage(keys, cand)] == s2.procs;
    StageOnce(c, s2, 0, keys, cand, 1);
    assert s2.procs[0 := Reread(keys, cand)] == map[0 := Reread(keys, cand)];
    assert Ticks(0, 0) == [];
  }

  /** Candidates of one payload leave room for another payload. */
  lemma OthersSubmittable(c: Crypto, w: World, x: Payload, y: Payload)
    requires WorldOk(c, w) && HeadsOf(w.Journal(y.provider)) == w.Heads(y.provider)
    requires x.runId != y.runId && x.nonce != y.nonce && forall cand | cand in w.computed :: cand.payload == x
    ensures Submittable(w, y)
  {
    assert |HeadsOf(w.Journal(y.provider))| == |w.Journal(y.provider)|;
    forall id | id in w.db.pending
      ensures !Competes(w.db.pending[id], y)
    {
      assert PendingOk(c, w, id);
    }
  }

  /** Before the late duplicate goes on: its candidate was accepted by the other call, and the anchor has moved on. */
  lemma LateDuplicateState(c: Crypto, keys: Keys, x: Payload, y: Payload)
    requires c.verifies(keys, x) && c.verifies(keys, y)
    requires x.provider == y.provider && x.runId != y.runId && x.nonce != y.nonce
    ensures var s, cand := Run(c, FRESH, LateDuplicate(keys, x, y)), Candidate(x, GENESIS_POINT);
      || IdClash(c, s.world.computed)
      || (&& 0 in s.procs && s.procs[0] == Reread(keys, cand)
          && 1 in s.procs && s.procs[1] == Ended(Some(cand)) && |s.world.Heads(x.provider)| == 2)
  {
    var cand := Candidate(x, GENESIS_POINT);
    var one, two, three := [Submit(0, keys, x)] + Ticks(0, 3), [Submit(1, keys, x)] + Ticks(1, 9),
      [Submit(2, keys, y)] + Ticks(2, 9);
    var s1 := Run(c, FRESH, one);
    var s2 := Run(c, s1, two);
    var s3 := Run(c, s2, three);
    RunAppend(c, FRESH, one, two);
    RunAppend(c, FRESH, one + two, three);
    if !IdClash(c, s3.world.computed) {
      ComputedGrows(c, s2, three);
      DuplicateAccepted(c, keys, x);
      ReachableOk(c, one + two);
      OthersSubmittable(c, s2.world, x, y);
      LoneSubmission(c, one + two, 2, keys, y);
    }
  }

  lemma DuplicateAccepted(c: Crypto, keys: Keys, x: Payload)
    requires c.verifies(keys, x)
    ensures var cand := Candidate(x, GENESIS_POINT);
      var s := Run(c, Run(c, FRESH, [Submit(0, keys, x)] + Ticks(0, 3)), [Submit(1, keys, x)] + Ticks(1, 9));
      || IdClash(c, s.world.computed)
      || (&& s.world.computed == {cand} && |s.world.Heads(x.provider)| == 1
          && HeadsOf(s.world.Journal(x.provider)) == s.world.Heads(x.provider)
          && 0 in s.procs && s.procs[0] == Reread(keys, cand) && 1 in s.procs && s.procs[1] == Ended(Some(cand)))
  {
    FirstStages(c, keys, x);
    LoneSubmission(c, [Submit(0, keys, x)] + Ticks(0, 3), 1, keys, x);
  }

  /** In every such run the pending row of an accepted and journaled candidate ends as CONFLICT. */
  lemma OverwriteHappens(c: Crypto, keys: Keys, x: Payload, y: Payload)
    requires c.verifies(keys, x) && c.verifies(keys, y)
    requires x.provider == y.provider && x.runId != y.runId && x.nonce != y.nonce
    ensures var s, cand := Run(c, FRESH, LateDuplicate(keys, x, y) + Ticks(0, 2)), Candidate(x, GENESIS_POINT);
      || IdClash(c, s.world.computed)
      || (&& c.IdOf(cand) in s.world.db.pending && s.world.db.pending[c.IdOf(cand)].status.Conflict?
          && Journaled(c, s.world, cand))
  {
    var cand := Candidate(x, GENESIS_POINT);
    var s := Run(c, FRESH, LateDuplicate(keys, x, y));
    RunAppend(c, FRESH, LateDuplicate(keys, x, y), Ticks(0, 2));
    ComputedGrows(c, s, Ticks(0, 2));
    if !IdClash(c, Run(c, s, Ticks(0, 2)).world.computed) {
      LateDuplicateState(c, keys, x, y);
      ReachableOk(c, LateDuplicate(keys, x, y));
      assert ProcOk(c, s.world, s.procs[0]) && ProcOk(c, s.world, s.procs[1]);
      LateDuplicateQuarantines(c, LateDuplicate(keys, x, y), 0, cand);
    }
  }
}
