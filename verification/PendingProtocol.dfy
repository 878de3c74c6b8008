/**
 The pending-first anchored replay protocol as a transition system.

 Any number of submitters and recoverers share one database and one external anchor. One SQLite
 transaction, one anchor read or one anchor compare-and-set is one step; the schedule chooses who
 steps, which steps fail, and what a compare-and-set reports. A crash is a failed step: the process
 ends and whatever it committed before stays.
 */
module PendingProtocol {
  import opened Outcomes
  import opened ReplayRegistry

  type Pid = nat

  function PointAt(heads: seq<Digest>, n: nat): Point
    requires n <= |heads|
  {
    Point(n, if n == 0 then GENESIS else heads[n - 1])
  }

  /** Durable state: the database, each provider's anchor with all its past heads, and the record
      of every candidate a submitter ever computed (used only to name hash collisions). */
  datatype World = World(db: Db, anchors: map<Provider, seq<Digest>>, computed: set<Candidate>) {
    function Heads(p: Provider): seq<Digest> {
      if p in anchors then anchors[p] else []
    }

    function Anchor(p: Provider): Point {
      PointAt(Heads(p), |Heads(p)|)
    }

    function Journal(p: Provider): seq<JournalRow> {
      db.Of(p).journal
    }
  }

  datatype Role = Submitter | Recoverer

  /** Where a call stands between two steps, with the values it carries. */
  datatype Proc =
    | Ended(accepted: Option<Candidate>)
    | ReadPrior(keys: Keys, payload: Payload)
    | CheckLocal(keys: Keys, payload: Payload, prior: Point)
    | Stage(keys: Keys, cand: Candidate)
    | Reread(keys: Keys, cand: Candidate)
    | LoadPending(keys: Keys, id: Digest)
    | RecoverRead(keys: Keys, cand: Candidate, prepared: bool)
    | Publish(role: Role, keys: Keys, cand: Candidate)
    | Observe(role: Role, refused: bool, keys: Keys, cand: Candidate)
    | Quarantine(cand: Candidate)
    | Confirm(keys: Keys, cand: Candidate)
    | LoadRow(keys: Keys, id: Digest, again: bool)
    | FinalizeLocal(keys: Keys, id: Digest, row: PendingRow, again: bool)
    | CheckPlan(keys: Keys, id: Digest, row: PendingRow)
    | MarkFinal(id: Digest, row: PendingRow)
    | RecordRow(keys: Keys, id: Digest, row: PendingRow, again: bool)
    | RecheckLocal(keys: Keys, id: Digest, row: PendingRow)

  datatype State = State(world: World, procs: map<Pid, Proc>)

  datatype Reply = Updated | Refused | Lost

  /** What the environment does to a step: nothing, a failure or crash, or (for a compare-and-set and
      for the acceptance transaction) an effect and a report that are chosen independently. */
  datatype Env = Normal | Fault | Split(effect: bool, reply: Reply)

  datatype Action =
    | Submit(pid: Pid, keys: Keys, payload: Payload)
    | Recover(pid: Pid, keys: Keys, id: Digest)
    | Tick(pid: Pid, env: Env)

  const FRESH := State(World(Db(map[], map[]), map[], {}), map[])

  const FAILED := Ended(None)

  /** The compare-and-set: it can only replace the exact expected point by its successor. It reports
      `Updated` only if it took effect, and `Refused` only if the anchor is no longer at the expected
      point; any report may be lost. */
  function CompareAndSet(c: Crypto, w: World, cand: Candidate, env: Env): (World, Reply) {
    var p := cand.payload.provider;
    var effect := w.Anchor(p) == cand.prior && (env.Split? ==> env.effect);
    var w' := if effect then w.(anchors := w.anchors[p := w.Heads(p) + [c.Target(cand).head]]) else w;
    var honest := if effect then Updated else if w.Anchor(p) != cand.prior then Refused else Lost;
    (w', if !env.Split? || env.reply.Updated? then honest
         else if env.reply.Refused? && honest.Lost? then Lost
         else env.reply)
  }

  /** The pending row read back must verify and recompute to itself. */
  predicate Usable(c: Crypto, keys: Keys, row: PendingRow) {
    && !row.status.Conflict?
    && c.verifies(keys, row.payload)
    && Bound(c, row)
  }

  /** One step of a call, given that it does not fail. */
  function Step(c: Crypto, w: World, proc: Proc, env: Env): (World, Proc) {
    match proc
    case Ended(_) => (w, proc)
    case ReadPrior(keys, payload) =>
      (w, CheckLocal(keys, payload, w.Anchor(payload.provider)))
    case CheckLocal(keys, payload, prior) =>
      if LocalState(w.db, payload.provider) == Ok(prior) then
        var cand := Candidate(payload, prior);
        (w.(computed := w.computed + {cand}), Stage(keys, cand))
      else (w, FAILED)
    case Stage(keys, cand) =>
      (match PersistPending(c, w.db, cand)
       case Ok(db) => (w.(db := db), Reread(keys, cand))
       case Err(_) => (w, FAILED))
    case Reread(keys, cand) =>
      var now := w.Anchor(cand.payload.provider);
      (w, if now == c.Target(cand) then Confirm(keys, cand)
          else if now == cand.prior then Publish(Submitter, keys, cand)
          else Quarantine(cand))
    case LoadPending(keys, id) =>
      (w, if id in w.db.pending && Usable(c, keys, w.db.pending[id])
          then RecoverRead(keys, CandidateOf(w.db.pending[id]), w.db.pending[id].status.Prepared?)
          else FAILED)
    case RecoverRead(keys, cand, prepared) =>
      var now := w.Anchor(cand.payload.provider);
      (w, if now == cand.prior then if prepared then Publish(Recoverer, keys, cand) else FAILED
          else if now == c.Target(cand) then Confirm(keys, cand)
          else FAILED)
    case Publish(role, keys, cand) =>
      var (w', reply) := CompareAndSet(c, w, cand, env);
      (w', if reply.Updated? then Confirm(keys, cand) else Observe(role, reply.Refused?, keys, cand))
    case Observe(role, refused, keys, cand) =>
      (w, if w.Anchor(cand.payload.provider) == c.Target(cand) then Confirm(keys, cand)
          else if role.Submitter? && refused then Quarantine(cand)
          else FAILED)
    case Quarantine(cand) =>
      (w.(db := MarkConflict(w.db, c.IdOf(cand))), FAILED)
    case Confirm(keys, cand) =>
      (w, if w.Anchor(cand.payload.provider) == c.Target(cand)
          then LoadRow(keys, c.IdOf(cand), false) else FAILED)
    case LoadRow(keys, id, again) =>
      (w, if id in w.db.pending && Usable(c, keys, w.db.pending[id])
          then FinalizeLocal(keys, id, w.db.pending[id], again) else FAILED)
    case FinalizeLocal(keys, id, row, again) =>
      var local := LocalState(w.db, row.provider);
      (w, if local == Ok(row.target) then CheckPlan(keys, id, row)
          else if local == Ok(row.prior) then RecordRow(keys, id, row, again)
          else FAILED)
    case CheckPlan(keys, id, row) =>
      (w, if Plannable(c, keys, w.db.Of(row.provider), row.provider, row.target)
          then MarkFinal(id, row) else FAILED)
    case MarkFinal(id, row) =>
      (match FinalizeCommitted(w.db, id, row)
       case Ok(db) => (w.(db := db), Ended(Some(CandidateOf(row))))
       case Err(_) => (w, FAILED))
    case RecordRow(keys, id, row, again) =>
      (match Record(c, keys, w.db, row.payload, Some(row.prior), Some(id))
       case Ok(db) =>
         if env.Split? && !env.effect then (w, RecheckLocal(keys, id, row))
         else (w.(db := db), if env.Split? && !env.reply.Updated? then RecheckLocal(keys, id, row)
                             else Ended(Some(CandidateOf(row))))
       case Err(_) => (w, RecheckLocal(keys, id, row)))
    case RecheckLocal(keys, id, row) =>
      (w, if LocalState(w.db, row.provider) == Ok(row.target) then LoadRow(keys, id, true) else FAILED)
  }

  function Exec(c: Crypto, s: State, a: Action): State {
    match a
    case Submit(pid, keys, payload) =>
      s.(procs := s.procs[pid := if c.verifies(keys, payload) then ReadPrior(keys, payload) else FAILED])
    case Recover(pid, keys, id) =>
      s.(procs := s.procs[pid := LoadPending(keys, id)])
    case Tick(pid, env) =>
      if pid !in s.procs then s
      else if env.Fault? then s.(procs := s.procs[pid := FAILED])
      else
        var (w, proc) := Step(c, s.world, s.procs[pid], env);
        State(w, s.procs[pid := proc])
  }

  /** The state after a whole schedule. */
  function Run(c: Crypto, s: State, schedule: seq<Action>): State {
    if schedule == [] then s
    else Exec(c, Run(c, s, schedule[..|schedule| - 1]), schedule[|schedule| - 1])
  }

  lemma {:induction false} RunAppend(c: Crypto, s: State, first: seq<Action>, second: seq<Action>)
    ensures Run(c, s, first + second) == Run(c, Run(c, s, first), second)
  {
    if second == [] {
      assert first + second == first;
    } else {
      var n := |second| - 1;
      RunAppend(c, s, first, second[..n]);
      assert (first + second)[..|first| + n] == first + second[..n];
    }
  }
}
