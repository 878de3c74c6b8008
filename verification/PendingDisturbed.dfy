/** What a call does when a reply is lost or misreported, or when another call was faster. */
module PendingDisturbed {
  import opened Outcomes
  import opened ReplayRegistry
  import opened PendingProtocol
  import opened PendingInvariant
  import opened PendingTheorems
  import opened PendingSubmission
  import opened PendingRecovery
  import opened ReplayPlans

  // ---------------------------------------------------------------------------------------------
  // A disturbed compare-and-set

  /** One tick between two series of normal ones. */
  ghost function Disturbed(pid: Pid, before: nat, env: Env, after: nat): seq<Action> {
    Ticks(pid, before) + [Tick(pid, env)] + Ticks(pid, after)
  }

  lemma RunDisturbed(c: Crypto, s: State, pid: Pid, before: nat, env: Env, after: nat)
    ensures Run(c, s, Disturbed(pid, before, env, after)) ==
      Run(c, Exec(c, Run(c, s, Ticks(pid, before)), Tick(pid, env)), Ticks(pid, after))
  {
    var one := [Tick(pid, env)];
    var s1 := Run(c, s, Ticks(pid, before));
    RunAppend(c, s, Ticks(pid, before) + one, Ticks(pid, after));
    RunAppend(c, s, Ticks(pid, before), one);
    assert one[..0] == [];
    assert Run(c, s1, one) == Exec(c, s1, Tick(pid, env));
  }

  /** A call that has ended is not disturbed. */
  lemma EndedUndisturbed(c: Crypto, s: State, pid: Pid, env: Env, n: nat)
    requires pid in s.procs && s.procs[pid] == FAILED
    ensures Run(c, Exec(c, s, Tick(pid, env)), Ticks(pid, n)) == s
  {
    assert s.procs[pid := FAILED] == s.procs;
    EndedRuns(c, s, pid, n);
  }

  /** The disturbed compare-and-set itself: whether it takes effect is up to the store, and only then can it be reported
      as an update. */
  lemma DisturbedPublish(c: Crypto, s: State, pid: Pid, role: Role, keys: Keys, cand: Candidate, effect: bool,
                         reply: Reply)
    requires pid in s.procs && s.procs[pid] == Publish(role, keys, cand)
    requires s.world.Anchor(cand.payload.provider) == cand.prior
    ensures var s' := Exec(c, s, Tick(pid, Split(effect, reply)));
      && s'.world == (if effect then CompareAndSet(c, s.world, cand, Normal).0 else s.world)
      && (effect ==>
            s'.procs == s.procs[pid :=
              if reply.Updated? then Confirm(keys, cand) else Observe(role, reply.Refused?, keys, cand)])
      && (!effect ==> s'.procs == s.procs[pid := Observe(role, false, keys, cand)])
  {
  }

  /** A call that finds its event on the anchor, whatever it was told, goes on to record it. */
  lemma ObservedSteps(c: Crypto, s: State, pid: Pid, role: Role, keys: Keys, cand: Candidate)
    requires pid in s.procs && s.world.Anchor(cand.payload.provider) == c.Target(cand)
    requires s.procs[pid] == Confirm(keys, cand) || (exists r :: s.procs[pid] == Observe(role, r, keys, cand))
    ensures var s3 := s.(procs := s.procs[pid := LoadRow(keys, c.IdOf(cand), false)]);
      && (s.procs[pid].Confirm? ==> Run(c, s, Ticks(pid, 5)) == Run(c, s3, Ticks(pid, 4)))
      && (s.procs[pid].Observe? ==> Run(c, s, Ticks(pid, 5)) == Run(c, s3, Ticks(pid, 3)))
  {
    var s3 := s.(procs := s.procs[pid := LoadRow(keys, c.IdOf(cand), false)]);
    if s.procs[pid].Confirm? {
      ConfirmOnce(c, s, pid, keys, cand, 5);
    } else {
      var s2 := s.(procs := s.procs[pid := Confirm(keys, cand)]);
      Advances(c, s, pid, s2, 5);
      ConfirmOnce(c, s2, pid, keys, cand, 4);
      assert s2.procs[pid := LoadRow(keys, c.IdOf(cand), false)] == s3.procs;
    }
  }

  lemma ConfirmOnce(c: Crypto, s: State, pid: Pid, keys: Keys, cand: Candidate, n: nat)
    requires n >= 1 && pid in s.procs && s.procs[pid] == Confirm(keys, cand)
    requires s.world.Anchor(cand.payload.provider) == c.Target(cand)
    ensures Run(c, s, Ticks(pid, n)) ==
      Run(c, s.(procs := s.procs[pid := LoadRow(keys, c.IdOf(cand), false)]), Ticks(pid, n - 1))
  {
    Advances(c, s, pid, s.(procs := s.procs[pid := LoadRow(keys, c.IdOf(cand), false)]), n);
  }

  /** A call that does not find its event on the anchor, and was not refused, ends without touching anything. */
  lemma UnknownSteps(c: Crypto, s: State, pid: Pid, role: Role, keys: Keys, cand: Candidate)
    requires pid in s.procs && s.procs[pid] == Observe(role, false, keys, cand)
    requires s.world.Anchor(cand.payload.provider) != c.Target(cand)
    ensures Run(c, s, Ticks(pid, 5)) == s.(procs := s.procs[pid := FAILED])
  {
    var failed := s.(procs := s.procs[pid := FAILED]);
    Advances(c, s, pid, failed, 5);
    EndedRuns(c, failed, pid, 4);
  }

  /** What the call leaves: with the event on the anchor it is accepted, otherwise it fails and changes nothing. */
  ghost predicate SettledAs(c: Crypto, s: State, s': State, pid: Pid, cand: Candidate, effect: bool) {
    var p := cand.payload.provider;
    if effect then
      && EndsAs(s, s', pid, Ended(Some(cand))) && IsFinal(s'.world, c.IdOf(cand))
      && s'.world.Heads(p) == s.world.Heads(p) + [c.Target(cand).head] == HeadsOf(s'.world.Journal(p))
    else EndsAs(s, s', pid, FAILED) && s'.world == s.world
  }

  /** From the compare-and-set on: the call is accepted exactly if it took effect, whatever was reported. */
  lemma PublishSettles(c: Crypto, s: State, pid: Pid, role: Role, keys: Keys, cand: Candidate, effect: bool,
                       reply: Reply)
    requires pid in s.procs && s.procs[pid] == Publish(role, keys, cand) && WorldOk(c, s.world)
    requires c.verifies(keys, cand.payload) && Staged(c, s.world, cand) && !Ahead(s.world, cand.payload.provider)
    requires s.world.db.pending[c.IdOf(cand)] == NewRow(c, cand) && s.world.Anchor(cand.payload.provider) == cand.prior
    ensures SettledAs(c, s, Run(c, Exec(c, s, Tick(pid, Split(effect, reply))), Ticks(pid, 5)), pid, cand, effect)
  {
    if effect {
      TookEffect(c, s, pid, role, keys, cand, reply);
    } else {
      HadNoEffect(c, s, pid, role, keys, cand, reply);
    }
  }

  lemma HadNoEffect(c: Crypto, s: State, pid: Pid, role: Role, keys: Keys, cand: Candidate, reply: Reply)
    requires pid in s.procs && s.procs[pid] == Publish(role, keys, cand)
    requires s.world.Anchor(cand.payload.provider) == cand.prior
    ensures SettledAs(c, s, Run(c, Exec(c, s, Tick(pid, Split(false, reply))), Ticks(pid, 5)), pid, cand, false)
  {
    DisturbedPublish(c, s, pid, role, keys, cand, false, reply);
    var s1 := Exec(c, s, Tick(pid, Split(false, reply)));
    assert c.Target(cand) != cand.prior;
    UnknownSteps(c, s1, pid, role, keys, cand);
    EndsAfter(s, s1, Run(c, s1, Ticks(pid, 5)), pid);
  }

  lemma TookEffect(c: Crypto, s: State, pid: Pid, role: Role, keys: Keys, cand: Candidate, reply: Reply)
    requires pid in s.procs && s.procs[pid] == Publish(role, keys, cand) && WorldOk(c, s.world)
    requires c.verifies(keys, cand.payload) && Staged(c, s.world, cand) && !Ahead(s.world, cand.payload.provider)
    requires s.world.db.pending[c.IdOf(cand)] == NewRow(c, cand) && s.world.Anchor(cand.payload.provider) == cand.prior
    ensures SettledAs(c, s, Run(c, Exec(c, s, Tick(pid, Split(true, reply))), Ticks(pid, 5)), pid, cand, true)
  {
    DisturbedPublish(c, s, pid, role, keys, cand, true, reply);
    PublishExplains(c, s.world, cand);
    var s1 := Exec(c, s, Tick(pid, Split(true, reply)));
    EffectSettles(c, s1, pid, role, keys, cand);
    EndsAfter(s, s1, Run(c, s1, Ticks(pid, 5)), pid);
  }

  lemma EffectSettles(c: Crypto, s: State, pid: Pid, role: Role, keys: Keys, cand: Candidate)
    requires WorldOk(c, s.world) && c.verifies(keys, cand.payload) && Ahead(s.world, cand.payload.provider)
    requires Explains(s.world, cand.payload.provider, c.IdOf(cand))
    requires s.world.db.pending[c.IdOf(cand)] == NewRow(c, cand)
    requires pid in s.procs
    requires s.procs[pid] == Confirm(keys, cand) || (exists r :: s.procs[pid] == Observe(role, r, keys, cand))
    ensures var p, s' := cand.payload.provider, Run(c, s, Ticks(pid, 5));
      && EndsAs(s, s', pid, Ended(Some(cand))) && IsFinal(s'.world, c.IdOf(cand))
      && s'.world.Heads(p) == s.world.Heads(p) == HeadsOf(s'.world.Journal(p))
  {
    var s3 := s.(procs := s.procs[pid := LoadRow(keys, c.IdOf(cand), false)]);
    ObservedSteps(c, s, pid, role, keys, cand);
    AnchoredSteps(c, s3, pid, keys, cand);
    MoreTicks(c, s3, pid, 3, 4);
    EndsAfter(s, s3, Run(c, s3, Ticks(pid, 3)), pid);
  }

  // ---------------------------------------------------------------------------------------------
  // A submission with a disturbed compare-and-set

  /** The first four steps bring a submittable candidate to its compare-and-set. */
  lemma ToPublish(c: Crypto, s: State, pid: Pid, keys: Keys, x: Payload)
    requires pid in s.procs && s.procs[pid] == ReadPrior(keys, x) && WorldOk(c, s.world) && !Ahead(s.world, x.provider)
    requires NoIdClash(c, s.world.computed + {Candidate(x, s.world.Anchor(x.provider))})
    ensures var cand := Candidate(x, s.world.Anchor(x.provider));
      var w := s.world.(computed := s.world.computed + {cand});
      var r := PersistPending(c, w.db, cand);
      && (r.Ok? <==> Submittable(s.world, x))
      && Run(c, s, Ticks(pid, 4)) ==
         if r.Ok? then State(w.(db := r.value), s.procs[pid := Publish(Submitter, keys, cand)])
         else State(w, s.procs[pid := FAILED])
  {
    var cand := Candidate(x, s.world.Anchor(x.provider));
    var w := s.world.(computed := s.world.computed + {cand});
    var s2 := State(w, s.procs[pid := Stage(keys, cand)]);
    CheckingSteps(c, s, pid, keys, x, 4);
    ComputedKeeps(c, s.world, cand);
    SubmittableSame(s.world, w, x);
    StagesExactly(c, w, x);
    StagedToPublish(c, s2, s.procs, pid, keys, cand);
  }

  /** Staging leads to the compare-and-set, or to failure, when the anchor has not moved. */
  lemma StagedToPublish(c: Crypto, s: State, procs: map<Pid, Proc>, pid: Pid, keys: Keys, cand: Candidate)
    requires s.procs == procs[pid := Stage(keys, cand)] && s.world.Anchor(cand.payload.provider) == cand.prior
    ensures var r := PersistPending(c, s.world.db, cand);
      Run(c, s, Ticks(pid, 2)) ==
      if r.Ok? then State(s.world.(db := r.value), procs[pid := Publish(Submitter, keys, cand)])
      else State(s.world, procs[pid := FAILED])
  {
    var r := PersistPending(c, s.world.db, cand);
    StageOnce(c, s, pid, keys, cand, 2);
    if r.Ok? {
      var s3 := State(s.world.(db := r.value), s.procs[pid := Reread(keys, cand)]);
      RereadOnce(c, s3, pid, keys, cand, 1);
      assert s3.procs[pid := Publish(Submitter, keys, cand)] == procs[pid := Publish(Submitter, keys, cand)];
      assert Ticks(pid, 0) == [];
    } else {
      var failed := s.(procs := s.procs[pid := FAILED]);
      EndedRuns(c, failed, pid, 1);
      assert failed.procs == procs[pid := FAILED];
    }
  }

  /** Whether the call was accepted: then as usual; if it was submittable but the compare-and-set had no effect, the row
      is staged and PREPARED and nothing else changed; otherwise nothing durable changed. */
  ghost predicate SubmissionSettled(c: Crypto, s: State, s': State, pid: Pid, cand: Candidate, staged: bool,
                                    effect: bool)
  {
    var p := cand.payload.provider;
    if staged && effect then
      && EndsAs(s, s', pid, Ended(Some(cand))) && IsFinal(s'.world, c.IdOf(cand))
      && s'.world.Heads(p) == s.world.Heads(p) + [c.Target(cand).head] == HeadsOf(s'.world.Journal(p))
    else
      && EndsAs(s, s', pid, FAILED) && s'.world.anchors == s.world.anchors && s'.world.db.tables == s.world.db.tables
      && (staged ==> c.IdOf(cand) in s'.world.db.pending && s'.world.db.pending[c.IdOf(cand)] == NewRow(c, cand))
      && (!staged ==> s'.world.db.pending == s.world.db.pending)
  }

  lemma SubmissionSettles(c: Crypto, s: State, pid: Pid, keys: Keys, x: Payload, effect: bool, reply: Reply)
    requires pid in s.procs && s.procs[pid] == ReadPrior(keys, x) && WorldOk(c, s.world) && c.verifies(keys, x)
    requires !Ahead(s.world, x.provider) ==> NoIdClash(c, s.world.computed + {Candidate(x, s.world.Anchor(x.provider))})
    ensures SubmissionSettled(c, s, Run(c, s, Disturbed(pid, 4, Split(effect, reply), 5)), pid,
                              Candidate(x, s.world.Anchor(x.provider)), Submittable(s.world, x), effect)
  {
    var cand := Candidate(x, s.world.Anchor(x.provider));
    RunDisturbed(c, s, pid, 4, Split(effect, reply), 5);
    var s4 := Run(c, s, Ticks(pid, 4));
    if Ahead(s.world, x.provider) {
      CheckingSteps(c, s, pid, keys, x, 4);
      EndedRuns(c, s.(procs := s.procs[pid := FAILED]), pid, 2);
      EndedUndisturbed(c, s4, pid, Split(effect, reply), 5);
    } else {
      ToPublish(c, s, pid, keys, x);
      if Submittable(s.world, x) {
        SubmittedSettles(c, s, s4, pid, keys, x, effect, reply);
      } else {
        EndedUndisturbed(c, s4, pid, Split(effect, reply), 5);
      }
    }
  }

  lemma SubmittedSettles(c: Crypto, s: State, s4: State, pid: Pid, keys: Keys, x: Payload, effect: bool, reply: Reply)
    requires WorldOk(c, s.world) && c.verifies(keys, x) && Submittable(s.world, x)
    requires var cand := Candidate(x, s.world.Anchor(x.provider));
      var w := s.world.(computed := s.world.computed + {cand});
      && NoIdClash(c, w.computed) && PersistPending(c, w.db, cand).Ok?
      && s4 == State(w.(db := PersistPending(c, w.db, cand).value), s.procs[pid := Publish(Submitter, keys, cand)])
    ensures SubmissionSettled(c, s, Run(c, Exec(c, s4, Tick(pid, Split(effect, reply))), Ticks(pid, 5)), pid,
                              Candidate(x, s.world.Anchor(x.provider)), true, effect)
  {
    var cand := Candidate(x, s.world.Anchor(x.provider));
    var w := s.world.(computed := s.world.computed + {cand});
    ComputedKeeps(c, s.world, cand);
    SubmittableSame(s.world, w, x);
    StagesExactly(c, w, x);
    StagedFacts(c, w, x);
    PublishSettles(c, s4, pid, Submitter, keys, cand, effect, reply);
    EndsAfter(s, s4, Run(c, Exec(c, s4, Tick(pid, Split(effect, reply))), Ticks(pid, 5)), pid);
  }

  /** The candidate is computed on the way. */
  lemma DisturbedComputes(c: Crypto, s: State, pid: Pid, keys: Keys, x: Payload, env: Env)
    requires pid in s.procs && s.procs[pid] == ReadPrior(keys, x) && WorldOk(c, s.world) && !Ahead(s.world, x.provider)
    ensures s.world.computed + {Candidate(x, s.world.Anchor(x.provider))}
      <= Run(c, s, Disturbed(pid, 4, env, 5)).world.computed
  {
    var cand := Candidate(x, s.world.Anchor(x.provider));
    var s2 := State(s.world.(computed := s.world.computed + {cand}), s.procs[pid := Stage(keys, cand)]);
    var rest := [Tick(pid, env)] + Ticks(pid, 5);
    CheckingSteps(c, s, pid, keys, x, 4);
    assert Disturbed(pid, 4, env, 5) == Ticks(pid, 4) + rest;
    RunAppend(c, s, Ticks(pid, 4), rest);
    ComputedGrows(c, s2, Ticks(pid, 2));
    ComputedGrows(c, Run(c, s2, Ticks(pid, 2)), rest);
  }

  /**
   After any run, a submission whose only disturbance is a lost or misreported reply to its compare-and-set is accepted
   if and only if it verifies, is submittable and the compare-and-set took effect: journal and anchor have then grown by
   its event. If it took no effect, the call fails and leaves its row PREPARED. Otherwise two candidates share an id.
   */
  lemma DisturbedSubmission(c: Crypto, schedule: seq<Action>, pid: Pid, keys: Keys, x: Payload, effect: bool,
                            reply: Reply)
    ensures var s := Run(c, FRESH, schedule);
      var s' := Run(c, s, [Submit(pid, keys, x)] + Disturbed(pid, 4, Split(effect, reply), 5));
      var cand := Candidate(x, s.world.Anchor(x.provider));
      || IdClash(c, s'.world.computed)
      || SubmissionSettled(c, s, s', pid, cand, c.verifies(keys, x) && Submittable(s.world, x), effect)
  {
    var s := Run(c, FRESH, schedule);
    var first, rest := [Submit(pid, keys, x)], Disturbed(pid, 4, Split(effect, reply), 5);
    var s0 := Exec(c, s, Submit(pid, keys, x));
    assert Run(c, s, first) == s0 by { assert first[..0] == []; }
    RunAppend(c, s, first, rest);
    var cand := Candidate(x, s.world.Anchor(x.provider));
    if !c.verifies(keys, x) {
      RunDisturbed(c, s0, pid, 4, Split(effect, reply), 5);
      EndedRuns(c, s0, pid, 4);
      EndedUndisturbed(c, s0, pid, Split(effect, reply), 5);
    } else if !IdClash(c, Run(c, s0, rest).world.computed) {
      ComputedGrows(c, s0, rest);
      ReachableOk(c, schedule);
      assert Inv(c, s);
      if !Ahead(s.world, x.provider) { DisturbedComputes(c, s0, pid, keys, x, Split(effect, reply)); }
      SubmissionSettles(c, s0, pid, keys, x, effect, reply);
      EndsAfter(s, s0, Run(c, s0, rest), pid);
    }
  }

  // ---------------------------------------------------------------------------------------------
  // A recovery with a disturbed compare-and-set

  /**
   After any run, a recovery that moves the anchor itself, and whose only disturbance is a lost or misreported reply to
   that compare-and-set, is accepted if and only if it took effect; otherwise it fails and changes nothing.
   */
  lemma DisturbedRecovery(c: Crypto, schedule: seq<Action>, pid: Pid, keys: Keys, id: Digest, effect: bool,
                          reply: Reply)
    requires var w := Run(c, FRESH, schedule).world;
      && id in w.db.pending && c.verifies(keys, w.db.pending[id].payload)
      && w.Anchor(w.db.pending[id].provider) == w.db.pending[id].prior
    ensures var s := Run(c, FRESH, schedule);
      var s' := Run(c, s, [Recover(pid, keys, id)] + Disturbed(pid, 2, Split(effect, reply), 5));
      || IdClash(c, s.world.computed)
      || SettledAs(c, s, s', pid, CandidateOf(s.world.db.pending[id]), effect)
  {
    var s := Run(c, FRESH, schedule);
    var first, rest := [Recover(pid, keys, id)], Disturbed(pid, 2, Split(effect, reply), 5);
    var s0 := Exec(c, s, Recover(pid, keys, id));
    assert Run(c, s, first) == s0 by { assert first[..0] == []; }
    RunAppend(c, s, first, rest);
    ReachableOk(c, schedule);
    if !IdClash(c, s.world.computed) {
      RunDisturbed(c, s0, pid, 2, Split(effect, reply), 5);
      RecoverySettles(c, s0, pid, keys, id, effect, reply);
      EndsAfter(s, s0, Run(c, s0, rest), pid);
    }
  }

  lemma RecoverySettles(c: Crypto, s: State, pid: Pid, keys: Keys, id: Digest, effect: bool, reply: Reply)
    requires WorldOk(c, s.world) && pid in s.procs && s.procs[pid] == LoadPending(keys, id) && id in s.world.db.pending
    requires c.verifies(keys, s.world.db.pending[id].payload)
    requires s.world.Anchor(s.world.db.pending[id].provider) == s.world.db.pending[id].prior
    ensures var s' := Run(c, Exec(c, Run(c, s, Ticks(pid, 2)), Tick(pid, Split(effect, reply))), Ticks(pid, 5));
      SettledAs(c, s, s', pid, CandidateOf(s.world.db.pending[id]), effect)
  {
    var cand := CandidateOf(s.world.db.pending[id]);
    PriorFacts(c, s.world, id);
    RereadForRecovery(c, s, pid, keys, cand, 2);
    var s2 := s.(procs := s.procs[pid := Publish(Recoverer, keys, cand)]);
    assert Ticks(pid, 0) == [];
    PublishSettles(c, s2, pid, Recoverer, keys, cand, effect, reply);
    EndsAfter(s, s2, Run(c, Exec(c, s2, Tick(pid, Split(effect, reply))), Ticks(pid, 5)), pid);
  }

  // ---------------------------------------------------------------------------------------------
  // A call that another one was faster than

  /** The candidate's row is not in conflict, its event is still the last of the journal, and all the stored evidence of
      the provider verifies. */
  ghost predicate Reenterable(c: Crypto, w: World, keys: Keys, id: Digest, row: PendingRow) {
    && id in w.db.pending && !w.db.pending[id].status.Conflict? && Tip(w.Journal(row.provider)) == row.target
    && EvidenceVerifies(c, keys, w.db.Of(row.provider))
  }

  /** The call is about to record the row, or has just failed to. */
  predicate AtRecord(proc: Proc, keys: Keys, id: Digest, row: PendingRow) {
    proc == RecordRow(keys, id, row, false) || proc == RecheckLocal(keys, id, row)
  }

  ghost predicate ReentrySettled(c: Crypto, s: State, s': State, pid: Pid, id: Digest, row: PendingRow, good: bool) {
    if good then
      && EndsAs(s, s', pid, Ended(Some(CandidateOf(row)))) && id in s.world.db.pending
      && s'.world == WithStatus(s.world, id, Finalized)
    else EndsAs(s, s', pid, FAILED) && s'.world == s.world
  }

  /** Recording again what is journaled fails and leads to the second look at the journal. */
  lemma RecordAgain(c: Crypto, s: State, pid: Pid, keys: Keys, id: Digest, row: PendingRow, n: nat)
    requires n >= 1 && pid in s.procs && s.procs[pid] == RecordRow(keys, id, row, false) && WorldOk(c, s.world)
    requires Journaled(c, s.world, CandidateOf(row)) && row.provider == row.payload.provider
    ensures Run(c, s, Ticks(pid, n)) ==
      Run(c, s.(procs := s.procs[pid := RecheckLocal(keys, id, row)]), Ticks(pid, n - 1))
  {
    LocalReading(c, s.world, row.provider);
    assert Record(c, keys, s.world.db, row.payload, Some(row.prior), Some(id)).Err?;
    Advances(c, s, pid, s.(procs := s.procs[pid := RecheckLocal(keys, id, row)]), n);
  }

  /** What the second look finds. */
  lemma RecheckFacts(c: Crypto, w: World, keys: Keys, id: Digest, row: PendingRow)
    requires WorldOk(c, w) && Holds(c, w, id, row) && Journaled(c, w, CandidateOf(row))
    requires WriterOk(c, row.provider, w.db.Of(row.provider))
    ensures LocalState(w.db, row.provider) == Ok(Tip(w.Journal(row.provider))) && id in w.db.pending
    ensures var now := w.db.pending[id];
      && CandidateOf(now) == CandidateOf(row) && now.target == row.target && now.provider == row.provider
      && Bound(c, now)
      && (EvidenceVerifies(c, keys, w.db.Of(row.provider)) ==> c.verifies(keys, now.payload))
      && (Tip(w.Journal(row.provider)) == row.target ==>
            (Plannable(c, keys, w.db.Of(row.provider), row.provider, row.target) <==>
             EvidenceVerifies(c, keys, w.db.Of(row.provider))))
      && (!now.status.Conflict? ==> FinalizeCommitted(w.db, id, now) == Ok(WithStatus(w, id, Finalized).db))
  {
    var t, n := w.db.Of(row.provider), row.prior.sequence;
    LocalReading(c, w, row.provider);
    assert ProviderOk(c, w, row.provider) && PendingOk(c, w, id);
    assert RowOk(c, row.provider, t, n);
    PlannableExactly(c, keys, row.provider, t, row.target);
    assert EvidenceMatches(t.evidence, w.db.pending[id]) by {
      assert t.evidence[n].sequence == row.target.sequence && t.evidence[n].head == row.target.head;
    }
  }

  /** The steps after a failed recording. */
  lemma RecheckSteps(c: Crypto, s: State, pid: Pid, keys: Keys, id: Digest, row: PendingRow)
    requires pid in s.procs && s.procs[pid] == RecheckLocal(keys, id, row) && WorldOk(c, s.world)
    requires Holds(c, s.world, id, row) && Journaled(c, s.world, CandidateOf(row))
    requires WriterOk(c, row.provider, s.world.db.Of(row.provider))
    ensures ReentrySettled(c, s, Run(c, s, Ticks(pid, 5)), pid, id, row, Reenterable(c, s.world, keys, id, row))
  {
    LocalReading(c, s.world, row.provider);
    RecheckOnce(c, s, pid, keys, id, row);
    if Tip(s.world.Journal(row.provider)) != row.target {
      EndedRuns(c, s.(procs := s.procs[pid := FAILED]), pid, 4);
    } else {
      var s1 := s.(procs := s.procs[pid := LoadRow(keys, id, true)]);
      ReloadSteps(c, s1, pid, keys, id, row);
      EndsAfter(s, s1, Run(c, s1, Ticks(pid, 4)), pid);
    }
  }

  lemma RecheckOnce(c: Crypto, s: State, pid: Pid, keys: Keys, id: Digest, row: PendingRow)
    requires pid in s.procs && s.procs[pid] == RecheckLocal(keys, id, row)
    ensures
      var next := if LocalState(s.world.db, row.provider) == Ok(row.target) then LoadRow(keys, id, true) else FAILED;
      Run(c, s, Ticks(pid, 5)) == Run(c, s.(procs := s.procs[pid := next]), Ticks(pid, 4))
  {
    var next := if LocalState(s.world.db, row.provider) == Ok(row.target) then LoadRow(keys, id, true) else FAILED;
    Advances(c, s, pid, s.(procs := s.procs[pid := next]), 5);
  }

  lemma ReloadSteps(c: Crypto, s: State, pid: Pid, keys: Keys, id: Digest, row: PendingRow)
    requires pid in s.procs && s.procs[pid] == LoadRow(keys, id, true) && WorldOk(c, s.world)
    requires Holds(c, s.world, id, row) && Journaled(c, s.world, CandidateOf(row))
    requires WriterOk(c, row.provider, s.world.db.Of(row.provider)) && Tip(s.world.Journal(row.provider)) == row.target
    ensures ReentrySettled(c, s, Run(c, s, Ticks(pid, 4)), pid, id, row, Reenterable(c, s.world, keys, id, row))
  {
    RecheckFacts(c, s.world, keys, id, row);
    if Usable(c, keys, s.world.db.pending[id]) {
      JournaledSteps(c, s, pid, keys, id, true);
    } else {
      var failed := s.(procs := s.procs[pid := FAILED]);
      Advances(c, s, pid, failed, 4);
      EndedRuns(c, failed, pid, 3);
    }
  }

  /**
   After any run, a call that is about to record its candidate, or has just failed to, when the candidate is already in
   the journal ends, run alone, as accepted if and only if its row is not CONFLICT, its event is still the journal's
   last, and all the stored evidence verifies; its row is then FINALIZED. Otherwise it fails and changes nothing.
   */
  lemma ReentryAccepts(c: Crypto, schedule: seq<Action>, pid: Pid, keys: Keys, id: Digest, row: PendingRow)
    requires var s := Run(c, FRESH, schedule);
      pid in s.procs && AtRecord(s.procs[pid], keys, id, row) && Journaled(c, s.world, CandidateOf(row))
    ensures var s := Run(c, FRESH, schedule);
      || IdClash(c, s.world.computed)
      || ReentrySettled(c, s, Run(c, s, Ticks(pid, 6)), pid, id, row, Reenterable(c, s.world, keys, id, row))
  {
    var s := Run(c, FRESH, schedule);
    ReachableOk(c, schedule);
    if !IdClash(c, s.world.computed) {
      assert ProcOk(c, s.world, s.procs[pid]);
      TablesPlannable(c, schedule, row.provider);
      ReentrySteps(c, s, pid, keys, id, row);
    }
  }

  lemma ReentrySteps(c: Crypto, s: State, pid: Pid, keys: Keys, id: Digest, row: PendingRow)
    requires pid in s.procs && AtRecord(s.procs[pid], keys, id, row) && WorldOk(c, s.world)
    requires Holds(c, s.world, id, row) && Journaled(c, s.world, CandidateOf(row))
    requires WriterOk(c, row.provider, s.world.db.Of(row.provider))
    ensures ReentrySettled(c, s, Run(c, s, Ticks(pid, 6)), pid, id, row, Reenterable(c, s.world, keys, id, row))
  {
    if s.procs[pid].RecordRow? {
      var s1 := s.(procs := s.procs[pid := RecheckLocal(keys, id, row)]);
      RecordAgain(c, s, pid, keys, id, row, 6);
      RecheckSteps(c, s1, pid, keys, id, row);
      EndsAfter(s, s1, Run(c, s1, Ticks(pid, 5)), pid);
    } else {
      RecheckSteps(c, s, pid, keys, id, row);
      MoreTicks(c, s, pid, 5, 6);
    }
  }
}
