/**
 The SQLite tables of the replay registry and every transaction that reads or changes them.
 A transaction is one function from the tables to the new tables or an error; the class in
 ReplayStore runs the same transactions statement by statement.

 Signatures, canonical JSON and SHA-256 are the fields of `Crypto`: arbitrary functions.
 */
module ReplayRegistry {
  import opened Outcomes

  type Provider = string
  type Digest = string
  type Keys = string

  const GENESIS: Digest := "0000000000000000000000000000000000000000000000000000000000000000"

  /** A position of a provider's chain: how many events, and the head after the last one. */
  datatype Point = Point(sequence: nat, head: Digest)

  const GENESIS_POINT := Point(0, GENESIS)

  /** A dossier together with its signed envelope; `body` is everything but the three named fields. */
  datatype Payload = Payload(provider: Provider, runId: string, nonce: string, body: string)

  datatype Event = Event(provider: Provider, sequence: nat, previous: Digest,
                         runId: string, nonce: string, receipt: Digest)

  /** A payload bound to the chain position it wants to extend. */
  datatype Candidate = Candidate(payload: Payload, prior: Point)

  datatype Crypto = Crypto(
    eventHash: Event -> Digest,
    candidateHash: (Event, Payload) -> Digest,
    receiptOf: Payload -> Digest,
    keyIdOf: Payload -> string,
    verifies: (Keys, Payload) -> bool)
  {
    function EventOf(c: Candidate): Event {
      Event(c.payload.provider, c.prior.sequence + 1, c.prior.head,
            c.payload.runId, c.payload.nonce, receiptOf(c.payload))
    }

    /** The chain position the candidate would create. */
    function Target(c: Candidate): Point {
      Point(c.prior.sequence + 1, eventHash(EventOf(c)))
    }

    function IdOf(c: Candidate): Digest {
      candidateHash(EventOf(c), c.payload)
    }
  }

  datatype AcceptedRow = AcceptedRow(runId: string, nonce: string, receipt: Digest)

  datatype JournalRow = JournalRow(sequence: nat, previous: Digest, head: Digest,
                                   runId: string, nonce: string, receipt: Digest)

  datatype EvidenceRow = EvidenceRow(sequence: nat, runId: string, nonce: string, receipt: Digest,
                                     head: Digest, payload: Payload)

  /** The rows of the four registry tables that carry one provider id, ordered by sequence. */
  datatype Tables = Tables(state: Option<Point>, accepted: seq<AcceptedRow>,
                           journal: seq<JournalRow>, evidence: seq<EvidenceRow>)

  const NO_ROWS := Tables(None, [], [], [])

  datatype Status = Prepared | Conflict | Finalized

  datatype PendingRow = PendingRow(provider: Provider, runId: string, nonce: string, receipt: Digest,
                                   prior: Point, target: Point, payload: Payload, status: Status)

  datatype Db = Db(tables: map<Provider, Tables>, pending: map<Digest, PendingRow>) {
    function Of(p: Provider): Tables {
      if p in tables then tables[p] else NO_ROWS
    }
  }

  datatype ReplayError =
    | LegacyState | AnchorUnavailable | LocalDiffersFromAnchor | ReplayDetected | IdCollision
    | ConflictNeedsReview | AlreadyStaged | Missing | Unverified | BindingMismatch
    | StateChanged | ChainCorrupt | NotFinalizable | EvidenceMissing
    | AnchorAhead | AnchorMismatch | CountMismatch | PlanStale

  // ---------------------------------------------------------------------------------------------
  // Reading

  /** The head to which the row at position `i` must link. */
  function HeadBefore(rows: seq<JournalRow>, i: nat): Digest
    requires i <= |rows|
  {
    if i == 0 then GENESIS else rows[i - 1].head
  }

  function RowEvent(p: Provider, rows: seq<JournalRow>, i: nat): Event
    requires i < |rows|
  {
    Event(p, i + 1, HeadBefore(rows, i), rows[i].runId, rows[i].nonce, rows[i].receipt)
  }

  predicate LinkOk(c: Crypto, p: Provider, rows: seq<JournalRow>, i: nat)
    requires i < |rows|
  {
    && rows[i].sequence == i + 1
    && rows[i].previous == HeadBefore(rows, i)
    && rows[i].head == c.eventHash(RowEvent(p, rows, i))
  }

  predicate ChainOk(c: Crypto, p: Provider, rows: seq<JournalRow>) {
    forall i | 0 <= i < |rows| :: LinkOk(c, p, rows, i)
  }

  function Tip(rows: seq<JournalRow>): Point {
    Point(|rows|, HeadBefore(rows, |rows|))
  }

  /** The state row read inside a write transaction, refusing rows that have no journal state. */
  function GuardedState(t: Tables): Result<Point, ReplayError> {
    if t.state.Some? then Ok(t.state.value)
    else if t.accepted != [] || t.journal != [] then Err(LegacyState)
    else Ok(GENESIS_POINT)
  }

  /** The snapshot read of the local head; it looks at accepted rows only. */
  function LocalState(db: Db, p: Provider): Result<Point, ReplayError> {
    var t := db.Of(p);
    if t.state.Some? then Ok(t.state.value)
    else if t.accepted != [] then Err(LegacyState)
    else Ok(GENESIS_POINT)
  }

  predicate AcceptedSeen(rows: seq<AcceptedRow>, p: Payload) {
    exists i | 0 <= i < |rows| :: rows[i].runId == p.runId || rows[i].nonce == p.nonce
  }

  predicate JournalSeen(rows: seq<JournalRow>, p: Payload) {
    exists i | 0 <= i < |rows| :: rows[i].runId == p.runId || rows[i].nonce == p.nonce
  }

  predicate EvidenceSeen(rows: seq<EvidenceRow>, p: Payload, sequence: nat) {
    exists i | 0 <= i < |rows| ::
      rows[i].runId == p.runId || rows[i].nonce == p.nonce || rows[i].sequence == sequence
  }

  predicate Competes(row: PendingRow, p: Payload) {
    row.provider == p.provider && (row.runId == p.runId || row.nonce == p.nonce)
  }

  // ---------------------------------------------------------------------------------------------
  // Pending rows

  function NewRow(c: Crypto, cand: Candidate): PendingRow {
    var p := cand.payload;
    PendingRow(p.provider, p.runId, p.nonce, c.receiptOf(p), cand.prior, c.Target(cand), p, Prepared)
  }

  function CandidateOf(row: PendingRow): Candidate {
    Candidate(row.payload, row.prior)
  }

  /** The columns of a pending row are exactly those computed from its payload and prior point. */
  predicate Bound(c: Crypto, row: PendingRow) {
    row.(status := Prepared) == NewRow(c, CandidateOf(row))
  }

  /** Stages a candidate: one IMMEDIATE transaction. */
  function PersistPending(c: Crypto, db: Db, cand: Candidate): Result<Db, ReplayError> {
    var p := cand.payload;
    var t := db.Of(p.provider);
    var id := c.IdOf(cand);
    var current :- GuardedState(t);
    if current != cand.prior then Err(LocalDiffersFromAnchor)
    else if AcceptedSeen(t.accepted, p) then Err(ReplayDetected)
    else if id in db.pending then
      if db.pending[id].target.head != c.Target(cand).head then Err(IdCollision)
      else if db.pending[id].status.Conflict? then Err(ConflictNeedsReview)
      else Ok(db)
    else if exists other | other in db.pending :: Competes(db.pending[other], p) then Err(AlreadyStaged)
    else Ok(db.(pending := db.pending[id := NewRow(c, cand)]))
  }

  /** The unguarded status update of a submitter that lost its compare-and-set. */
  function MarkConflict(db: Db, id: Digest): Db {
    if id in db.pending
    then db.(pending := db.pending[id := db.pending[id].(status := Conflict)])
    else db
  }

  predicate EvidenceMatches(rows: seq<EvidenceRow>, row: PendingRow) {
    exists i | 0 <= i < |rows| ::
      && rows[i].sequence == row.target.sequence && rows[i].head == row.target.head
      && rows[i].runId == row.runId && rows[i].nonce == row.nonce && rows[i].receipt == row.receipt
  }

  predicate SameCandidate(a: PendingRow, b: PendingRow) {
    && a.provider == b.provider && a.runId == b.runId && a.nonce == b.nonce
    && a.receipt == b.receipt && a.target == b.target
  }

  /** Marks an already journaled candidate FINALIZED; `row` is the caller's earlier read of it. */
  function FinalizeCommitted(db: Db, id: Digest, row: PendingRow): Result<Db, ReplayError> {
    if !EvidenceMatches(db.Of(row.provider).evidence, row) then Err(EvidenceMissing)
    else if id !in db.pending || !SameCandidate(db.pending[id], row) || db.pending[id].status.Conflict?
      then Err(NotFinalizable)
    else Ok(db.(pending := db.pending[id := db.pending[id].(status := Finalized)]))
  }

  // ---------------------------------------------------------------------------------------------
  // Recording

  function AppendedRow(c: Crypto, p: Payload, at: Point): JournalRow {
    JournalRow(at.sequence + 1, at.head, c.Target(Candidate(p, at)).head, p.runId, p.nonce, c.receiptOf(p))
  }

  /** Appends to the journal after rechecking every link of the stored chain. */
  function AppendJournalEvent(c: Crypto, t: Tables, p: Payload): Result<Tables, ReplayError> {
    var at :- GuardedState(t);
    if t.state.Some? && (!ChainOk(c, p.provider, t.journal) || Tip(t.journal) != at) then Err(ChainCorrupt)
    else if JournalSeen(t.journal, p) then Err(ReplayDetected)
    else
      var row := AppendedRow(c, p, at);
      Ok(t.(journal := t.journal + [row], state := Some(Point(row.sequence, row.head))))
  }

  /** The three inserts of an acceptance: accepted row, journal event, evidence. */
  function RecordTables(c: Crypto, t: Tables, p: Payload, expected: Option<Point>): Result<Tables, ReplayError> {
    var at :- GuardedState(t);
    if expected.Some? && at != expected.value then Err(StateChanged)
    else if AcceptedSeen(t.accepted, p) then Err(ReplayDetected)
    else
      var reserved := t.(state := Some(at),
                         accepted := t.accepted + [AcceptedRow(p.runId, p.nonce, c.receiptOf(p))]);
      var appended :- AppendJournalEvent(c, reserved, p);
      var tip := Tip(appended.journal);
      if EvidenceSeen(appended.evidence, p, tip.sequence) then Err(ReplayDetected)
      else Ok(appended.(evidence := appended.evidence +
             [EvidenceRow(tip.sequence, p.runId, p.nonce, c.receiptOf(p), tip.head, p)]))
  }

  /** The whole acceptance transaction: the inserts and, for a pending candidate, its status. */
  function Record(c: Crypto, keys: Keys, db: Db, p: Payload, expected: Option<Point>, finalize: Option<Digest>)
    : Result<Db, ReplayError>
  {
    if !c.verifies(keys, p) then Err(Unverified)
    else
      var t :- RecordTables(c, db.Of(p.provider), p, expected);
      var db1 := db.(tables := db.tables[p.provider := t]);
      if finalize.None? then Ok(db1)
      else FinalizePrepared(c, db1, finalize.value, p, Tip(t.journal))
  }

  /** The status update inside the acceptance transaction; it requires PREPARED. */
  function FinalizePrepared(c: Crypto, db: Db, id: Digest, p: Payload, tip: Point): Result<Db, ReplayError> {
    if id !in db.pending then Err(NotFinalizable)
    else
      var row := db.pending[id];
      if (row.provider, row.runId, row.nonce, row.receipt, row.target, row.status)
         != (p.provider, p.runId, p.nonce, c.receiptOf(p), tip, Prepared)
      then Err(NotFinalizable)
      else Ok(db.(pending := db.pending[id := row.(status := Finalized)]))
  }

  // ---------------------------------------------------------------------------------------------
  // Recovery plans

  datatype SuffixItem = SuffixItem(sequence: nat, runId: string, nonce: string, receipt: Digest,
                                   head: Digest, keyId: string)

  datatype Plan = Plan(provider: Provider, anchor: Point, terminal: Point, suffix: seq<SuffixItem>,
                       noOp: bool)

  function EvidenceBySequence(rows: seq<EvidenceRow>): map<nat, EvidenceRow> {
    if rows == [] then map[]
    else
      var last := rows[|rows| - 1];
      EvidenceBySequence(rows[..|rows| - 1])[last.sequence := last]
  }

  function ReceiptByRun(rows: seq<AcceptedRow>): map<(string, string), Digest> {
    if rows == [] then map[]
    else
      var last := rows[|rows| - 1];
      ReceiptByRun(rows[..|rows| - 1])[(last.runId, last.nonce) := last.receipt]
  }

  /** The journal row at `i` links, and its evidence and accepted rows agree with it and verify. */
  predicate RowProven(c: Crypto, keys: Keys, p: Provider, t: Tables, i: nat)
    requires i < |t.journal|
  {
    var row := t.journal[i];
    var evidence := EvidenceBySequence(t.evidence);
    var receipts := ReceiptByRun(t.accepted);
    && LinkOk(c, p, t.journal, i)
    && i + 1 in evidence
    && var e := evidence[i + 1];
    && e.runId == row.runId && e.nonce == row.nonce && e.receipt == row.receipt && e.head == row.head
    && (row.runId, row.nonce) in receipts && receipts[(row.runId, row.nonce)] == row.receipt
    && c.verifies(keys, e.payload)
    && e.payload.provider == p && e.payload.runId == row.runId && e.payload.nonce == row.nonce
    && c.receiptOf(e.payload) == row.receipt
  }

  function SuffixOf(c: Crypto, t: Tables, i: nat): SuffixItem
    requires i < |t.journal|
  {
    var row := t.journal[i];
    var evidence := EvidenceBySequence(t.evidence);
    SuffixItem(i + 1, row.runId, row.nonce, row.receipt, row.head,
               if i + 1 in evidence then c.keyIdOf(evidence[i + 1].payload) else "")
  }

  /** What a recovery plan needs of the tables; `anchor` is the externally read point. */
  predicate Plannable(c: Crypto, keys: Keys, t: Tables, p: Provider, anchor: Point) {
    if t.state.None? then
      t.journal == [] && t.evidence == [] && t.accepted == [] && anchor == GENESIS_POINT
    else
      && (anchor.sequence == 0 ==> anchor.head == GENESIS)
      && |t.journal| == |t.evidence| == |t.accepted| == t.state.value.sequence
      && anchor.sequence <= |t.journal|
      && (forall i | 0 <= i < |t.journal| :: RowProven(c, keys, p, t, i))
      && t.state.value == Tip(t.journal)
      && anchor.head == HeadBefore(t.journal, anchor.sequence)
  }

  function PlanFor(c: Crypto, t: Tables, p: Provider, anchor: Point): Plan
    requires anchor.sequence <= |t.journal|
  {
    var n := |t.journal|;
    Plan(p, anchor, Tip(t.journal),
         seq(n - anchor.sequence, i requires 0 <= i < n - anchor.sequence => SuffixOf(c, t, anchor.sequence + i)),
         anchor.sequence == n)
  }
}
