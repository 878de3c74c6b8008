/**
 The replay registry as the object the program works on: tables that methods change row by row, a
 full recheck of the stored chain before each append, and rollback when a later statement fails.
 Each transaction is proved equal to its function in ReplayRegistry.
 */
module ReplayStore {
  import opened Outcomes
  import opened ReplayRegistry

  class Store {
    var tables: map<Provider, Tables>
    var pending: map<Digest, PendingRow>

    ghost function View(): Db
      reads this
    {
      Db(tables, pending)
    }

    constructor ()
      ensures View() == Db(map[], map[])
    {
      tables, pending := map[], map[];
    }

    function Rows(p: Provider): Tables
      reads this
    {
      if p in tables then tables[p] else NO_ROWS
    }

    /** Recomputes every link of the stored journal and compares the end with the state row. */
    method CheckChain(c: Crypto, p: Provider, state: Point) returns (ok: bool)
      ensures ok <==> ChainOk(c, p, Rows(p).journal) && Tip(Rows(p).journal) == state
    {
      var rows := Rows(p).journal;
      var expectedSequence, expectedPrevious := 1, GENESIS;
      for i := 0 to |rows|
        invariant expectedSequence == i + 1 && expectedPrevious == HeadBefore(rows, i)
        invariant forall k | 0 <= k < i :: LinkOk(c, p, rows, k)
      {
        var row := rows[i];
        var event := Event(p, expectedSequence, expectedPrevious, row.runId, row.nonce, row.receipt);
        if row.sequence != expectedSequence || row.previous != expectedPrevious || row.head != c.eventHash(event) {
          assert !LinkOk(c, p, rows, i);
          return false;
        }
        expectedSequence, expectedPrevious := expectedSequence + 1, row.head;
      }
      ok := expectedSequence - 1 == state.sequence && expectedPrevious == state.head;
    }

    method AppendJournalEvent(c: Crypto, p: Payload) returns (r: Result<Point, ReplayError>)
      modifies this`tables
      ensures match ReplayRegistry.AppendJournalEvent(c, old(Rows(p.provider)), p)
        case Ok(t) => r == Ok(Tip(t.journal)) && tables == old(tables)[p.provider := t]
        case Err(e) => r == Err(e) && tables == old(tables)
    {
      var t := Rows(p.provider);
      var at := GENESIS_POINT;
      if t.state.None? {
        if t.accepted != [] || t.journal != [] { return Err(LegacyState); }
      } else {
        at := t.state.value;
        var sound := CheckChain(c, p.provider, at);
        if !sound { return Err(ChainCorrupt); }
      }
      var event := Event(p.provider, at.sequence + 1, at.head, p.runId, p.nonce, c.receiptOf(p));
      var head := c.eventHash(event);
      if JournalSeen(t.journal, p) { return Err(ReplayDetected); }
      var row := JournalRow(event.sequence, at.head, head, p.runId, p.nonce, event.receipt);
      tables := tables[p.provider := t.(journal := t.journal + [row])];
      tables := tables[p.provider := Rows(p.provider).(state := Some(Point(event.sequence, head)))];
      r := Ok(Point(event.sequence, head));
    }

    /** The inserts of an acceptance, in the order of the statements; an error may leave some of them. */
    method RecordTables(c: Crypto, p: Payload, expected: Option<Point>) returns (r: Result<Point, ReplayError>)
      modifies this`tables
      ensures match ReplayRegistry.RecordTables(c, old(Rows(p.provider)), p, expected)
        case Ok(t) => r == Ok(Tip(t.journal)) && tables == old(tables)[p.provider := t]
        case Err(e) => r == Err(e)
    {
      var t := Rows(p.provider);
      var at := GENESIS_POINT;
      if t.state.Some? {
        at := t.state.value;
      } else if t.accepted != [] || t.journal != [] {
        return Err(LegacyState);
      }
      if expected.Some? && at != expected.value { return Err(StateChanged); }
      if t.state.None? { tables := tables[p.provider := t.(state := Some(at))]; }
      if AcceptedSeen(t.accepted, p) { return Err(ReplayDetected); }
      var accepted := t.accepted + [AcceptedRow(p.runId, p.nonce, c.receiptOf(p))];
      tables := tables[p.provider := Rows(p.provider).(accepted := accepted)];
      r := AppendJournalEvent(c, p);
      if r.Err? { return; }
      var tip, t2 := r.value, Rows(p.provider);
      if EvidenceSeen(t2.evidence, p, tip.sequence) { return Err(ReplayDetected); }
      var evidence := EvidenceRow(tip.sequence, p.runId, p.nonce, c.receiptOf(p), tip.head, p);
      tables := tables[p.provider := t2.(evidence := t2.evidence + [evidence])];
    }

    /** The acceptance transaction: all of its writes, or none. */
    method Record(c: Crypto, keys: Keys, p: Payload, expected: Option<Point>, finalize: Option<Digest>)
      returns (r: Result<Point, ReplayError>)
      modifies this
      ensures match ReplayRegistry.Record(c, keys, old(View()), p, expected, finalize)
        case Ok(db) => r == Ok(Tip(db.Of(p.provider).journal)) && View() == db
        case Err(e) => r == Err(e) && View() == old(View())
    {
      if !c.verifies(keys, p) { return Err(Unverified); }
      var savedTables, savedPending := tables, pending;
      r := RecordTables(c, p, expected);
      if r.Ok? && finalize.Some? {
        var updated := SetFinalized(c, finalize.value, p, r.value);
        if !updated { r := Err(NotFinalizable); }
      }
      if r.Err? { tables, pending := savedTables, savedPending; }
    }

    method SetFinalized(c: Crypto, id: Digest, p: Payload, tip: Point) returns (updated: bool)
      modifies this`pending
      ensures updated <==> ReplayRegistry.FinalizePrepared(c, old(View()), id, p, tip).Ok?
      ensures View() == if updated then ReplayRegistry.FinalizePrepared(c, old(View()), id, p, tip).value
        else old(View())
    {
      updated := id in pending && pending[id].provider == p.provider && pending[id].runId == p.runId
        && pending[id].nonce == p.nonce && pending[id].receipt == c.receiptOf(p)
        && pending[id].target == tip && pending[id].status == Prepared;
      if updated { pending := pending[id := pending[id].(status := Finalized)]; }
    }

    /** Stages a candidate, or accepts that it is already staged. */
    method PersistPending(c: Crypto, cand: Candidate) returns (r: Result<(), ReplayError>)
      modifies this`pending
      ensures match ReplayRegistry.PersistPending(c, old(View()), cand)
        case Ok(db) => r == Ok(()) && View() == db
        case Err(e) => r == Err(e) && View() == old(View())
    {
      var p, id := cand.payload, c.IdOf(cand);
      var t := Rows(p.provider);
      var current := GENESIS_POINT;
      if t.state.Some? {
        current := t.state.value;
      } else if t.accepted != [] || t.journal != [] {
        return Err(LegacyState);
      }
      if current != cand.prior { return Err(LocalDiffersFromAnchor); }
      if AcceptedSeen(t.accepted, p) { return Err(ReplayDetected); }
      if id in pending {
        if pending[id].target.head != c.Target(cand).head { return Err(IdCollision); }
        if pending[id].status == Conflict { return Err(ConflictNeedsReview); }
        return Ok(());
      }
      if exists other | other in pending :: Competes(pending[other], p) { return Err(AlreadyStaged); }
      pending := pending[id := NewRow(c, cand)];
      r := Ok(());
    }

    /** Walks the journal once, checking each row against the chain, its evidence and its accepted row,
        and collects the events after the anchor. */
    method BuildPlan(c: Crypto, keys: Keys, p: Provider, anchor: Point) returns (r: Result<Plan, ReplayError>)
      ensures r.Ok? <==> Plannable(c, keys, Rows(p), p, anchor)
      ensures r.Ok? ==> r.value == PlanFor(c, Rows(p), p, anchor)
    {
      var t := Rows(p);
      if anchor.sequence == 0 && anchor.head != GENESIS { return Err(AnchorMismatch); }
      if t.state.None? {
        if t.journal != [] || t.evidence != [] || t.accepted != [] { return Err(LegacyState); }
        if anchor != GENESIS_POINT { return Err(AnchorMismatch); }
        return Ok(Plan(p, anchor, GENESIS_POINT, [], true));
      }
      var terminal := t.state.value;
      if anchor.sequence > terminal.sequence { return Err(AnchorAhead); }
      var rows := t.journal;
      if |rows| != terminal.sequence || |t.evidence| != terminal.sequence { return Err(CountMismatch); }
      if |t.accepted| != terminal.sequence { return Err(CountMismatch); }
      var evidence, receipts := EvidenceBySequence(t.evidence), ReceiptByRun(t.accepted);
      var previous, suffix := GENESIS, [];
      for i := 0 to |rows|
        invariant previous == HeadBefore(rows, i)
        invariant forall k | 0 <= k < i :: RowProven(c, keys, p, t, k)
        invariant 0 < anchor.sequence <= i ==> anchor.head == HeadBefore(rows, anchor.sequence)
        invariant |suffix| == if i < anchor.sequence then 0 else i - anchor.sequence
        invariant forall k | 0 <= k < |suffix| :: suffix[k] == SuffixOf(c, t, anchor.sequence + k)
      {
        var row, expected := rows[i], i + 1;
        var head := c.eventHash(Event(p, expected, previous, row.runId, row.nonce, row.receipt));
        if row.sequence != expected || row.previous != previous || row.head != head {
          assert !RowProven(c, keys, p, t, i);
          return Err(ChainCorrupt);
        }
        if expected == anchor.sequence && head != anchor.head { return Err(AnchorMismatch); }
        if expected !in evidence {
          assert !RowProven(c, keys, p, t, i);
          return Err(EvidenceMissing);
        }
        var e := evidence[expected];
        if e.runId != row.runId || e.nonce != row.nonce || e.receipt != row.receipt || e.head != head
           || (row.runId, row.nonce) !in receipts || receipts[(row.runId, row.nonce)] != row.receipt {
          assert !RowProven(c, keys, p, t, i);
          return Err(BindingMismatch);
        }
        if !c.verifies(keys, e.payload) {
          assert !RowProven(c, keys, p, t, i);
          return Err(Unverified);
        }
        if e.payload.provider != p || e.payload.runId != row.runId || e.payload.nonce != row.nonce
           || c.receiptOf(e.payload) != row.receipt {
          assert !RowProven(c, keys, p, t, i);
          return Err(BindingMismatch);
        }
        if expected > anchor.sequence {
          suffix := suffix + [SuffixItem(expected, row.runId, row.nonce, row.receipt, head, c.keyIdOf(e.payload))];
        }
        previous := head;
      }
      if previous != terminal.head { return Err(ChainCorrupt); }
      r := Ok(Plan(p, anchor, terminal, suffix, terminal.sequence == anchor.sequence));
    }

    /** A plan made earlier is good only if it is exactly the plan for the tables and anchor of now. */
    method Revalidate(c: Crypto, keys: Keys, p: Provider, plan: Plan, anchor: Point)
      returns (r: Result<Point, ReplayError>)
      ensures r.Ok? <==> Plannable(c, keys, Rows(p), p, anchor) && plan == PlanFor(c, Rows(p), p, anchor)
      ensures r.Ok? ==> r.value == Tip(Rows(p).journal)
    {
      if plan.provider != p { return Err(PlanStale); }
      var current := BuildPlan(c, keys, p, anchor);
      if current.Err? { return Err(current.error); }
      if plan != current.value { return Err(PlanStale); }
      r := Ok(plan.terminal);
    }
  }
}
