/** When the replay transactions go through and what they leave, on any database, tampered ones included. */
module ReplayLaws {
  import opened Outcomes
  import opened ReplayRegistry
  import opened PendingInvariant

  /** The local point of a provider: the stored one, or genesis while there are no rows at all. */
  ghost predicate At(t: Tables, at: Point) {
    if t.state.Some? then at == t.state.value else at == GENESIS_POINT && t.accepted == [] && t.journal == []
  }

  /** No accepted, journal or evidence row has the run id or the nonce. */
  ghost predicate Unseen(t: Tables, x: Payload) {
    && (forall i | 0 <= i < |t.accepted| :: t.accepted[i].runId != x.runId && t.accepted[i].nonce != x.nonce)
    && (forall i | 0 <= i < |t.journal| :: t.journal[i].runId != x.runId && t.journal[i].nonce != x.nonce)
    && (forall i | 0 <= i < |t.evidence| :: t.evidence[i].runId != x.runId && t.evidence[i].nonce != x.nonce)
  }

  /** The pending row is PREPARED and is about this payload and event. */
  ghost predicate Finalizable(c: Crypto, db: Db, id: Digest, x: Payload, target: Point) {
    && id in db.pending && db.pending[id].status.Prepared? && db.pending[id].target == target
    && db.pending[id].provider == x.provider && db.pending[id].runId == x.runId && db.pending[id].nonce == x.nonce
    && db.pending[id].receipt == c.receiptOf(x)
  }

  /** A payload may be recorded at a point: it verifies, the local point is that one and the expected one, the stored
      chain is sound and ends there, nothing has its run id or nonce, and no evidence has its sequence number. */
  ghost predicate Recordable(c: Crypto, keys: Keys, t: Tables, x: Payload, expected: Option<Point>, at: Point) {
    && c.verifies(keys, x) && At(t, at) && (expected.Some? ==> expected.value == at) && Unseen(t, x)
    && (t.state.Some? ==> ChainOk(c, x.provider, t.journal) && Tip(t.journal) == at)
    && forall i | 0 <= i < |t.evidence| :: t.evidence[i].sequence != at.sequence + 1
  }

  lemma TablesRecordable(c: Crypto, keys: Keys, t: Tables, x: Payload, expected: Option<Point>, at: Point)
    requires c.verifies(keys, x) && At(t, at)
    ensures RecordTables(c, t, x, expected).Ok? <==> Recordable(c, keys, t, x, expected, at)
    ensures RecordTables(c, t, x, expected).Ok? ==>
      RecordTables(c, t, x, expected).value == Recorded(c, t, Candidate(x, at))
  {
    if AcceptedSeen(t.accepted, x) { assert !Unseen(t, x); }
    if JournalSeen(t.journal, x) { assert !Unseen(t, x); }
  }

  /** The acceptance transaction goes through exactly for recordable payloads whose pending row, if one is named, can be
      finalized, and then adds one row to each table and finalizes that row, and nothing else. */
  lemma RecordExactly(c: Crypto, keys: Keys, db: Db, x: Payload, expected: Option<Point>, finalize: Option<Digest>)
    ensures var r, t := Record(c, keys, db, x, expected, finalize), db.Of(x.provider);
      && (r.Ok? <==> exists at ::
            && Recordable(c, keys, t, x, expected, at)
            && (finalize.Some? ==> Finalizable(c, db, finalize.value, x, c.Target(Candidate(x, at)))))
      && (r.Ok? ==> exists at ::
            && At(t, at)
            && r.value == Db(db.tables[x.provider := Recorded(c, t, Candidate(x, at))],
                 if finalize.None? then db.pending
                 else db.pending[finalize.value := db.pending[finalize.value].(status := Finalized)]))
  {
    var t := db.Of(x.provider);
    if c.verifies(keys, x) && GuardedState(t).Ok? {
      var at := GuardedState(t).value;
      assert At(t, at);
      TablesRecordable(c, keys, t, x, expected, at);
    }
  }

  /** Staging goes through exactly if the local point is the candidate's prior one, no accepted row has its run id or
      nonce, and it is staged already with the same head and not in conflict, or no row competes; a new row shows
      exactly the candidate, its receipt and its event. */
  lemma StageExactly(c: Crypto, db: Db, cand: Candidate)
    ensures var x, t, id := cand.payload, db.Of(cand.payload.provider), c.IdOf(cand);
      var r := PersistPending(c, db, cand);
      && (r.Ok? <==>
            && At(t, cand.prior)
            && (forall i | 0 <= i < |t.accepted| :: t.accepted[i].runId != x.runId && t.accepted[i].nonce != x.nonce)
            && if id in db.pending
               then db.pending[id].target.head == c.Target(cand).head && !db.pending[id].status.Conflict?
               else forall k | k in db.pending && db.pending[k].provider == x.provider ::
                      db.pending[k].runId != x.runId && db.pending[k].nonce != x.nonce)
      && (r.Ok? ==>
            && r.value.tables == db.tables && id in r.value.pending
            && r.value.pending == db.pending[id := r.value.pending[id]]
            && (id in db.pending ==> r.value == db)
            && (id !in db.pending ==>
                  var row := r.value.pending[id];
                  row.status.Prepared? && row.payload == x && row.prior == cand.prior && row.target == c.Target(cand)
                  && row.provider == x.provider && row.runId == x.runId && row.nonce == x.nonce
                  && row.receipt == c.receiptOf(x)))
  {
    var x, t, id := cand.payload, db.Of(cand.payload.provider), c.IdOf(cand);
    assert AcceptedSeen(t.accepted, x) <==>
      !(forall i | 0 <= i < |t.accepted| :: t.accepted[i].runId != x.runId && t.accepted[i].nonce != x.nonce);
    if id in db.pending { assert db.pending == db.pending[id := db.pending[id]]; }
  }

  /** Finalizing a journaled candidate goes through exactly if its evidence is stored and its row, not in conflict,
      still shows it, and changes that row's status only. */
  lemma FinalizeExactly(c: Crypto, db: Db, id: Digest, row: PendingRow)
    ensures var r, evidence := FinalizeCommitted(db, id, row), db.Of(row.provider).evidence;
      && (r.Ok? <==>
            && (exists i | 0 <= i < |evidence| ::
                  && evidence[i].sequence == row.target.sequence && evidence[i].head == row.target.head
                  && evidence[i].runId == row.runId && evidence[i].nonce == row.nonce
                  && evidence[i].receipt == row.receipt)
            && id in db.pending && !db.pending[id].status.Conflict?
            && var now := db.pending[id];
               (now.provider, now.runId, now.nonce, now.receipt, now.target)
               == (row.provider, row.runId, row.nonce, row.receipt, row.target))
      && (r.Ok? ==> r.value == db.(pending := db.pending[id := db.pending[id].(status := Finalized)]))
  {
  }

  /** The local head is the stored one, or genesis while nothing is accepted; rows without a state are refused. */
  lemma LocalExactly(db: Db, p: Provider)
    ensures var r, t := LocalState(db, p), db.Of(p);
      && (r.Ok? <==> t.state.Some? || t.accepted == [])
      && (r.Ok? ==> r.value == if t.state.Some? then t.state.value else GENESIS_POINT)
  {
  }

  // ---------------------------------------------------------------------------------------------
  // What a plan certifies

  lemma {:induction false} EvidenceComesFrom(rows: seq<EvidenceRow>, n: nat) returns (k: nat)
    requires n in EvidenceBySequence(rows)
    ensures k < |rows| && rows[k] == EvidenceBySequence(rows)[n] && rows[k].sequence == n
  {
    k := |rows| - 1;
    if rows[k].sequence != n { k := EvidenceComesFrom(rows[..|rows| - 1], n); }
  }

  lemma {:induction false} ReceiptComesFrom(rows: seq<AcceptedRow>, key: (string, string)) returns (k: nat)
    requires key in ReceiptByRun(rows)
    ensures k < |rows| && (rows[k].runId, rows[k].nonce) == key && rows[k].receipt == ReceiptByRun(rows)[key]
  {
    k := |rows| - 1;
    if (rows[k].runId, rows[k].nonce) != key { k := ReceiptComesFrom(rows[..|rows| - 1], key); }
  }

  /** The evidence row shows the journal row and holds a payload of the provider that verifies and has the journal row's
      run id, nonce and receipt. */
  ghost predicate Proves(c: Crypto, keys: Keys, p: Provider, e: EvidenceRow, row: JournalRow) {
    && e.sequence == row.sequence && e.head == row.head
    && e.runId == row.runId && e.nonce == row.nonce && e.receipt == row.receipt
    && c.verifies(keys, e.payload) && e.payload.provider == p
    && e.payload.runId == row.runId && e.payload.nonce == row.nonce && c.receiptOf(e.payload) == row.receipt
  }

  /** Whatever the tables hold, a plan exists only if the journal is a sound chain through the anchor to the state row,
      every journal row is proved by a stored signed payload and has its accepted row, and no table has more rows. */
  lemma PlanCertifies(c: Crypto, keys: Keys, p: Provider, t: Tables, anchor: Point)
    requires Plannable(c, keys, t, p, anchor)
    ensures |t.journal| == |t.evidence| == |t.accepted| && ChainOk(c, p, t.journal)
    ensures anchor.sequence <= |t.journal| && anchor.head == HeadBefore(t.journal, anchor.sequence)
    ensures t.state.Some? ==> t.state.value == Tip(t.journal)
    ensures forall i | 0 <= i < |t.journal| ::
      && (exists k | 0 <= k < |t.evidence| :: Proves(c, keys, p, t.evidence[k], t.journal[i]))
      && (exists k | 0 <= k < |t.accepted| ::
            t.accepted[k] == AcceptedRow(t.journal[i].runId, t.journal[i].nonce, t.journal[i].receipt))
  {
    forall i | 0 <= i < |t.journal|
      ensures LinkOk(c, p, t.journal, i)
      ensures exists k | 0 <= k < |t.evidence| :: Proves(c, keys, p, t.evidence[k], t.journal[i])
      ensures exists k | 0 <= k < |t.accepted| ::
        t.accepted[k] == AcceptedRow(t.journal[i].runId, t.journal[i].nonce, t.journal[i].receipt)
    {
      assert RowProven(c, keys, p, t, i);
      var k := EvidenceComesFrom(t.evidence, i + 1);
      assert Proves(c, keys, p, t.evidence[k], t.journal[i]);
      var l := ReceiptComesFrom(t.accepted, (t.journal[i].runId, t.journal[i].nonce));
    }
  }
}
