/** What a recovery plan certifies: every state the writer reaches is plannable, and a chain check
    pins down the whole journal. */
module ReplayPlans {
  import opened Outcomes
  import opened ReplayRegistry
  import opened PendingInvariant

  /** One call of the local writer. */
  datatype Call = Call(keys: Keys, payload: Payload, expected: Option<Point>)

  /** The database after a series of writer calls; a refused call changes nothing. */
  function Written(c: Crypto, calls: seq<Call>): Db {
    if calls == [] then Db(map[], map[])
    else
      var db := Written(c, calls[..|calls| - 1]);
      var call := calls[|calls| - 1];
      match Record(c, call.keys, db, call.payload, call.expected, None)
      case Ok(db') => db'
      case Err(_) => db
  }

  /** Consistent tables whose accepted rows have pairwise different run ids and nonces. */
  ghost predicate WriterOk(c: Crypto, p: Provider, t: Tables) {
    && TablesOk(c, p, t)
    && forall i, j | 0 <= i < j < |t.accepted| ::
         t.accepted[i].runId != t.accepted[j].runId && t.accepted[i].nonce != t.accepted[j].nonce
  }

  lemma WriteKeeps(c: Crypto, t: Tables, p: Payload, expected: Option<Point>)
    requires WriterOk(c, p.provider, t) && RecordTables(c, t, p, expected).Ok?
    ensures WriterOk(c, p.provider, RecordTables(c, t, p, expected).value)
  {
    RecordedOk(c, t, Candidate(p, Tip(t.journal)));
    assert RecordTables(c, t, p, expected).value == Recorded(c, t, Candidate(p, Tip(t.journal)));
  }

  lemma {:induction false} WrittenOk(c: Crypto, calls: seq<Call>, p: Provider)
    ensures WriterOk(c, p, Written(c, calls).Of(p))
  {
    if calls == [] {
    } else {
      var n := |calls| - 1;
      var call := calls[n];
      WrittenOk(c, calls[..n], p);
      var t := Written(c, calls[..n]).Of(call.payload.provider);
      if call.payload.provider == p && RecordTables(c, t, call.payload, call.expected).Ok? {
        WriteKeeps(c, t, call.payload, call.expected);
      }
    }
  }

  lemma {:induction false} EvidenceFound(rows: seq<EvidenceRow>, i: nat)
    requires i < |rows| && forall k | 0 <= k < |rows| :: rows[k].sequence == k + 1
    ensures i + 1 in EvidenceBySequence(rows) && EvidenceBySequence(rows)[i + 1] == rows[i]
  {
    if i < |rows| - 1 { EvidenceFound(rows[..|rows| - 1], i); }
  }

  lemma {:induction false} ReceiptFound(rows: seq<AcceptedRow>, i: nat)
    requires i < |rows| && forall k, l | 0 <= k < l < |rows| :: rows[k].runId != rows[l].runId
    ensures (rows[i].runId, rows[i].nonce) in ReceiptByRun(rows)
    ensures ReceiptByRun(rows)[(rows[i].runId, rows[i].nonce)] == rows[i].receipt
  {
    if i < |rows| - 1 { ReceiptFound(rows[..|rows| - 1], i); }
  }

  /** The evidence of journal row `i` is found under sequence `i + 1`. */
  lemma EvidenceInOrder(c: Crypto, p: Provider, t: Tables, i: nat)
    requires TablesOk(c, p, t) && i < |t.journal|
    ensures i + 1 in EvidenceBySequence(t.evidence) && EvidenceBySequence(t.evidence)[i + 1] == t.evidence[i]
    ensures t.evidence[i].payload.runId == t.journal[i].runId
  {
    forall k | 0 <= k < |t.evidence|
      ensures t.evidence[k].sequence == k + 1
    {
      assert RowOk(c, p, t, k);
    }
    EvidenceFound(t.evidence, i);
    assert RowOk(c, p, t, i);
  }

  /** A writer's row is proven exactly when its evidence verifies under the given keys. */
  lemma WriterRowProven(c: Crypto, keys: Keys, p: Provider, t: Tables, i: nat)
    requires WriterOk(c, p, t) && i < |t.journal|
    ensures RowProven(c, keys, p, t, i) <==> c.verifies(keys, t.evidence[i].payload)
  {
    assert RowOk(c, p, t, i) && LinkOk(c, p, t.journal, i);
    EvidenceInOrder(c, p, t, i);
    ReceiptFound(t.accepted, i);
  }

  ghost predicate EvidenceVerifies(c: Crypto, keys: Keys, t: Tables) {
    forall i | 0 <= i < |t.evidence| :: c.verifies(keys, t.evidence[i].payload)
  }

  /** The item describes the signed payload: its run id, nonce, receipt and signer. */
  ghost predicate Describes(c: Crypto, item: SuffixItem, x: Payload) {
    item.runId == x.runId && item.nonce == x.nonce && item.receipt == c.receiptOf(x) && item.keyId == c.keyIdOf(x)
  }

  /** The head after the first `k` items. */
  function HeadAfter(plan: Plan, k: nat): Digest
    requires k <= |plan.suffix|
  {
    if k == 0 then plan.anchor.head else plan.suffix[k - 1].head
  }

  /** The item's head is the hash of its event, linked to the item before it or to the anchor. */
  ghost predicate Linked(c: Crypto, plan: Plan, k: nat)
    requires k < |plan.suffix|
  {
    var item := plan.suffix[k];
    item.head ==
    c.eventHash(Event(plan.provider, item.sequence, HeadAfter(plan, k), item.runId, item.nonce, item.receipt))
  }

  /** The plan is for this provider and anchor. Its suffix has one item per event after the anchor, in order; each
      describes the signed payload stored at that sequence; and hashing the items' events one after another from the
      anchor's head gives each item's head and ends at the terminal point. */
  ghost predicate PlanTells(c: Crypto, p: Provider, t: Tables, anchor: Point, plan: Plan) {
    && plan.provider == p && plan.anchor == anchor && plan.noOp == (plan.suffix == [])
    && |t.journal| == |t.evidence| == anchor.sequence + |plan.suffix|
    && plan.terminal == Point(|t.journal|, HeadAfter(plan, |plan.suffix|))
    && forall k | 0 <= k < |plan.suffix| ::
         && plan.suffix[k].sequence == anchor.sequence + k + 1 && Linked(c, plan, k)
         && Describes(c, plan.suffix[k], t.evidence[anchor.sequence + k].payload)
  }

  lemma SuffixComplete(c: Crypto, p: Provider, t: Tables, anchor: Point)
    requires TablesOk(c, p, t) && anchor.sequence <= |t.journal|
    requires anchor.head == HeadBefore(t.journal, anchor.sequence)
    ensures PlanTells(c, p, t, anchor, PlanFor(c, t, p, anchor))
  {
    var plan := PlanFor(c, t, p, anchor);
    forall k | 0 <= k <= |plan.suffix|
      ensures HeadAfter(plan, k) == HeadBefore(t.journal, anchor.sequence + k)
    {
      if k > 0 { assert plan.suffix[k - 1] == SuffixOf(c, t, anchor.sequence + k - 1); }
    }
    forall k | 0 <= k < |plan.suffix|
      ensures plan.suffix[k].sequence == anchor.sequence + k + 1 && Linked(c, plan, k)
      ensures Describes(c, plan.suffix[k], t.evidence[anchor.sequence + k].payload)
    {
      var i := anchor.sequence + k;
      EvidenceInOrder(c, p, t, i);
      assert RowOk(c, p, t, i) && LinkOk(c, p, t.journal, i);
      assert plan.suffix[k] == SuffixOf(c, t, i);
    }
  }

  lemma PlannableExactly(c: Crypto, keys: Keys, p: Provider, t: Tables, anchor: Point)
    requires WriterOk(c, p, t)
    ensures Plannable(c, keys, t, p, anchor) <==>
      && anchor.sequence <= |t.journal| && anchor.head == HeadBefore(t.journal, anchor.sequence)
      && EvidenceVerifies(c, keys, t)
  {
    forall i | 0 <= i < |t.journal|
      ensures RowProven(c, keys, p, t, i) <==> c.verifies(keys, t.evidence[i].payload)
    {
      WriterRowProven(c, keys, p, t, i);
    }
  }

  /** After any series of writer calls, a plan exists for exactly the points of the journal's own
      history, provided the keys verify the stored evidence; its items describe the signed payloads after
      the anchor and hash from the anchor's head to the terminal one. */
  lemma WriterStatesPlannable(c: Crypto, calls: seq<Call>, p: Provider, keys: Keys, anchor: Point)
    ensures var t := Written(c, calls).Of(p);
      && (Plannable(c, keys, t, p, anchor) <==>
            && anchor.sequence <= |t.journal| && anchor.head == HeadBefore(t.journal, anchor.sequence)
            && EvidenceVerifies(c, keys, t))
      && (Plannable(c, keys, t, p, anchor) ==>
            PlanTells(c, p, t, anchor, PlanFor(c, t, p, anchor)))
  {
    var t := Written(c, calls).Of(p);
    WrittenOk(c, calls, p);
    PlannableExactly(c, keys, p, t, anchor);
    if Plannable(c, keys, t, p, anchor) { SuffixComplete(c, p, t, anchor); }
  }

  /** The two journals hash different events to the same head at position `i`. */
  ghost predicate CollideAt(c: Crypto, p: Provider, a: seq<JournalRow>, b: seq<JournalRow>, i: nat) {
    && i < |a| && i < |b|
    && RowEvent(p, a, i) != RowEvent(p, b, i)
    && c.eventHash(RowEvent(p, a, i)) == c.eventHash(RowEvent(p, b, i))
  }

  /** The terminal point of a checked chain fixes every row: two journals that pass the check and end
      at the same point are equal, or they exhibit two events with one hash. */
  lemma {:induction false} TerminalFixesJournal(c: Crypto, p: Provider, a: seq<JournalRow>, b: seq<JournalRow>)
    requires ChainOk(c, p, a) && ChainOk(c, p, b) && Tip(a) == Tip(b)
    ensures a == b || exists i :: CollideAt(c, p, a, b, i)
  {
    if a == [] {
    } else {
      var n := |a| - 1;
      assert LinkOk(c, p, a, n) && LinkOk(c, p, b, n);
      if RowEvent(p, a, n) != RowEvent(p, b, n) {
        assert CollideAt(c, p, a, b, n);
      } else {
        assert HeadBefore(a[..n], n) == HeadBefore(a, n) && HeadBefore(b[..n], n) == HeadBefore(b, n);
        PrefixChain(c, p, a, n);
        PrefixChain(c, p, b, n);
        TerminalFixesJournal(c, p, a[..n], b[..n]);
        if a[..n] == b[..n] {
          assert a == a[..n] + [a[n]] && b == b[..n] + [b[n]];
        } else {
          var i :| CollideAt(c, p, a[..n], b[..n], i);
          assert RowEvent(p, a[..n], i) == RowEvent(p, a, i) && RowEvent(p, b[..n], i) == RowEvent(p, b, i);
          assert CollideAt(c, p, a, b, i);
        }
      }
    }
  }

  lemma PrefixChain(c: Crypto, p: Provider, rows: seq<JournalRow>, n: nat)
    requires ChainOk(c, p, rows) && n <= |rows|
    ensures ChainOk(c, p, rows[..n])
  {
    forall i | 0 <= i < n
      ensures LinkOk(c, p, rows[..n], i)
    {
      assert LinkOk(c, p, rows, i);
    }
  }

  /** Two sets of tables that admit plans with the same terminal point hold the same journal,
      or exhibit a hash collision. */
  lemma PlanFixesHistory(c: Crypto, keys: Keys, p: Provider, t: Tables, u: Tables, x: Point, y: Point)
    requires Plannable(c, keys, t, p, x) && Plannable(c, keys, u, p, y)
    requires PlanFor(c, t, p, x).terminal == PlanFor(c, u, p, y).terminal
    ensures t.journal == u.journal || exists i :: CollideAt(c, p, t.journal, u.journal, i)
  {
    assert forall i | 0 <= i < |t.journal| :: RowProven(c, keys, p, t, i) ==> LinkOk(c, p, t.journal, i);
    assert forall i | 0 <= i < |u.journal| :: RowProven(c, keys, p, u, i) ==> LinkOk(c, p, u.journal, i);
    TerminalFixesJournal(c, p, t.journal, u.journal);
  }
}
