/** Execution attempts: the state machine of one attempt and the table that holds them all. */
module Attempts {
  import opened Outcomes

  datatype AttemptState = Authorized | Leased | Running | Succeeded | Recovered | Failed | TimedOut | Aborted {
    predicate Terminal() { Succeeded? || Recovered? || Failed? || TimedOut? || Aborted? }
  }

  predicate Allowed(from: AttemptState, to: AttemptState) {
    match from
    case Authorized => to.Leased? || to.Aborted?
    case Leased => to.Running? || to.TimedOut? || to.Aborted?
    case Running => to.Terminal()
    case _ => false
  }

  /** One row; its id is its position in the table. `trail` lists the states it has been in, and `times` when it
      entered each of them but the first. */
  datatype Attempt = Attempt(task: string, grant: string, intent: string, key: string, number: nat,
                             state: AttemptState, lease: Option<int>, started: Option<int>, finished: Option<int>,
                             receipt: string, trail: seq<AttemptState>, times: seq<int>)

  type Table = seq<Attempt>

  datatype AttemptError = FieldRequired | KeyActive | KeyReused | NotFound | InvalidTransition | StateConflict

  const LEASE_SECONDS := 300

  /** The row with the highest number of a key. */
  function Latest(rows: Table, key: string): Option<nat> {
    if rows == [] then None
    else
      var last := |rows| - 1;
      var before := Latest(rows[..last], key);
      if rows[last].key != key || (before.Some? && before.value < last && rows[before.value].number > rows[last].number)
      then before else Some(last)
  }

  lemma {:induction false} LatestFacts(rows: Table, key: string)
    ensures Latest(rows, key).None? ==> forall i | 0 <= i < |rows| :: rows[i].key != key
    ensures Latest(rows, key).Some? ==>
      && Latest(rows, key).value < |rows| && rows[Latest(rows, key).value].key == key
      && forall i | 0 <= i < |rows| && rows[i].key == key :: rows[i].number <= rows[Latest(rows, key).value].number
  {
    if rows != [] { LatestFacts(rows[..|rows| - 1], key); }
  }

  /** One more than the highest number of the key. */
  function NumberAfter(rows: Table, key: string): nat {
    LatestFacts(rows, key);
    var latest := Latest(rows, key);
    if latest.None? then 1 else rows[latest.value].number + 1
  }

  predicate Taken(rows: Table, key: string, number: nat) {
    exists i | 0 <= i < |rows| :: rows[i].key == key && rows[i].number == number
  }

  function NewAttempt(task: string, grant: string, intent: string, key: string, number: nat): Attempt {
    Attempt(task, grant, intent, key, number, Authorized, None, None, None, "", [Authorized], [])
  }

  /** The attempt has just been made for these. */
  predicate IsFor(a: Attempt, task: string, grant: string, intent: string, key: string) {
    a.task == task && a.grant == grant && a.intent == intent && a.key == key && a.state.Authorized?
  }

  /** The number a creator may try after reading the latest attempt of its key. */
  function NextNumber(previous: Option<Attempt>, retry: bool): Result<nat, AttemptError> {
    if previous.None? then Ok(1)
    else if !previous.value.state.Terminal() then Err(KeyActive)
    else if !retry then Err(KeyReused)
    else Ok(previous.value.number + 1)
  }

  /** The columns a transition writes. */
  function Moved(a: Attempt, to: AttemptState, now: int, receipt: string): Attempt {
    a.(state := to,
       lease := if to.Leased? then Some(now + LEASE_SECONDS) else a.lease,
       started := if to.Running? && a.started.None? then Some(now) else a.started,
       finished := if to.Terminal() then Some(now) else a.finished,
       receipt := if receipt != "" then receipt else a.receipt,
       trail := a.trail + [to], times := a.times + [now])
  }

  // ---------------------------------------------------------------------------------------------
  // What every table reached by inserts and conditional updates keeps

  /** The trail starts AUTHORIZED, ends at the current state, each step is allowed, and the times fit it. */
  ghost predicate TrailOk(a: Attempt) {
    && |a.trail| >= 1 && a.trail[0].Authorized? && a.trail[|a.trail| - 1] == a.state
    && (forall i | 0 < i < |a.trail| :: Allowed(a.trail[i - 1], a.trail[i]))
    && TimesOk(a)
  }

  /** The times are written when the states they belong to are entered: the lease runs from there, and start and
      finish are those moments. */
  ghost predicate TimesOk(a: Attempt) {
    && |a.trail| == |a.times| + 1
    && (a.lease.Some? <==> Leased in a.trail)
    && (a.started.Some? <==> Running in a.trail)
    && (a.finished.Some? <==> a.state.Terminal())
    && forall k | 0 <= k < |a.times| :: StampOk(a, a.trail[k + 1], a.times[k])
  }

  /** What the columns say of a state entered at a time. */
  predicate StampOk(a: Attempt, entered: AttemptState, at: int) {
    && (entered.Leased? ==> a.lease == Some(at + LEASE_SECONDS))
    && (entered.Running? ==> a.started == Some(at))
    && (entered.Terminal() ==> a.finished == Some(at))
  }

  /** Where the clock did not run backwards, an attempt was leased before it started and started before it finished,
      and its lease ends five minutes after it was given. */
  lemma TimesOrdered(a: Attempt)
    requires TrailOk(a) && forall j, k | 0 <= j < k < |a.times| :: a.times[j] <= a.times[k]
    ensures a.lease.Some? && a.started.Some? ==> a.lease.value - LEASE_SECONDS <= a.started.value
    ensures a.started.Some? && a.finished.Some? ==> a.started.value <= a.finished.value
    ensures a.started.Some? ==> a.lease.Some?
    ensures a.lease.Some? && a.finished.Some? ==> a.lease.value - LEASE_SECONDS <= a.finished.value
  {
    TrailShape(a);
    if |a.times| > 0 { assert StampOk(a, a.trail[0 + 1], a.times[0]); }
    if |a.times| > 1 { assert StampOk(a, a.trail[1 + 1], a.times[1]); }
    if |a.times| > 2 { assert StampOk(a, a.trail[2 + 1], a.times[2]); }
  }

  /** The trails there are. */
  lemma TrailShape(a: Attempt)
    requires TrailOk(a)
    ensures |a.trail| <= 4 && |a.trail| == |a.times| + 1
    ensures |a.trail| > 1 ==> a.trail[1] == Leased || (a.trail[1] == Aborted && |a.trail| == 2)
    ensures |a.trail| > 2 ==> a.trail[2] == Running || (a.trail[2].Terminal() && |a.trail| == 3)
    ensures |a.trail| > 3 ==> a.trail[3].Terminal()
  {
    TrailIsShort(a);
    if |a.trail| > 1 { assert Allowed(a.trail[1 - 1], a.trail[1]); }
    if |a.trail| > 2 { assert Allowed(a.trail[2 - 1], a.trail[2]); }
    if |a.trail| > 3 { assert Allowed(a.trail[3 - 1], a.trail[3]); }
  }

  function Rank(s: AttemptState): nat {
    match s
    case Authorized => 0
    case Leased => 1
    case Running => 2
    case _ => 3
  }

  /** An attempt changes its state at most three times. */
  lemma {:induction false} TrailIsShort(a: Attempt)
    requires TrailOk(a)
    ensures |a.trail| - 1 <= Rank(a.state) <= 3
  {
    TrailRank(a.trail, |a.trail| - 1);
  }

  lemma {:induction false} TrailRank(trail: seq<AttemptState>, i: nat)
    requires i < |trail| && forall j | 0 < j < |trail| :: Allowed(trail[j - 1], trail[j])
    ensures i <= Rank(trail[i])
  {
    if i > 0 { TrailRank(trail, i - 1); }
  }

  /** The key has a finished attempt with the number. */
  ghost predicate FinishedAt(rows: Table, key: string, number: nat) {
    exists j :: 0 <= j < |rows| && rows[j].key == key && rows[j].number == number && rows[j].state.Terminal()
  }

  /** The attempt before this one of the same key exists and is over. */
  ghost predicate Succeeds(rows: Table, i: nat)
    requires i < |rows|
  {
    rows[i].number == 1 ||
    exists j ::
      0 <= j < |rows| && rows[j].key == rows[i].key && rows[j].number + 1 == rows[i].number && rows[j].state.Terminal()
  }

  ghost predicate TableOk(rows: Table) {
    && (forall i | 0 <= i < |rows| :: rows[i].number >= 1 && TrailOk(rows[i]))
    && (forall i | 0 <= i < |rows| :: Succeeds(rows, i))
    && (forall i, j | 0 <= i < j < |rows| :: rows[i].key != rows[j].key || rows[i].number != rows[j].number)
  }

  /** An insert keeps the table good if its number follows a finished attempt and is not taken. */
  lemma InsertKeeps(rows: Table, a: Attempt, previous: Option<nat>)
    requires TableOk(rows) && TrailOk(a) && !Taken(rows, a.key, a.number)
    requires previous.None? ==> a.number == 1
    requires previous.Some? ==>
      && previous.value < |rows| && rows[previous.value].key == a.key
      && rows[previous.value].number + 1 == a.number && rows[previous.value].state.Terminal()
    ensures TableOk(rows + [a])
  {
    var longer := rows + [a];
    forall i | 0 <= i < |longer|
      ensures Succeeds(longer, i)
    {
      if i < |rows| {
        assert Succeeds(rows, i);
        if rows[i].number != 1 {
          var j :| 0 <= j < |rows| && rows[j].key == rows[i].key && rows[j].number + 1 == rows[i].number
            && rows[j].state.Terminal();
          assert longer[j].state.Terminal();
        }
      } else if previous.Some? {
        assert longer[previous.value].state.Terminal();
      }
    }
  }

  lemma MoveKeepsTrail(a: Attempt, to: AttemptState, now: int, receipt: string)
    requires TrailOk(a) && Allowed(a.state, to)
    ensures TrailOk(Moved(a, to, now, receipt))
  {
    var after := Moved(a, to, now, receipt);
    assert after.trail == a.trail + [to];
    assert after.trail[|a.trail|] == to;
    TrailShape(a);
    forall k | 0 <= k < |after.times|
      ensures StampOk(after, after.trail[k + 1], after.times[k])
    {
      if k < |a.times| { assert StampOk(a, a.trail[k + 1], a.times[k]); }
    }
  }

  /** A conditional update along an allowed step keeps the table good. */
  lemma MoveKeeps(rows: Table, id: nat, to: AttemptState, now: int, receipt: string)
    requires TableOk(rows) && id < |rows| && Allowed(rows[id].state, to)
    ensures TableOk(rows[id := Moved(rows[id], to, now, receipt)])
  {
    var after := rows[id := Moved(rows[id], to, now, receipt)];
    MoveKeepsTrail(rows[id], to, now, receipt);
    forall i | 0 <= i < |after|
      ensures Succeeds(after, i)
    {
      assert Succeeds(rows, i);
      if rows[i].number != 1 {
        var j :| 0 <= j < |rows| && rows[j].key == rows[i].key && rows[j].number + 1 == rows[i].number
          && rows[j].state.Terminal();
        assert after[j].state.Terminal();
      }
    }
  }

  /** Numbers of a key have no gaps: below any number in use, every number is in use by a finished attempt. */
  lemma {:induction false} NumbersContiguous(rows: Table, i: nat, number: nat)
    requires TableOk(rows) && i < |rows| && 1 <= number < rows[i].number
    ensures FinishedAt(rows, rows[i].key, number)
    decreases rows[i].number
  {
    assert Succeeds(rows, i);
    var j :| 0 <= j < |rows| && rows[j].key == rows[i].key && rows[j].number + 1 == rows[i].number
      && rows[j].state.Terminal();
    if rows[j].number != number { NumbersContiguous(rows, j, number); }
  }

  /** Only the last attempt of a key may still be open. */
  lemma OpenIsLast(rows: Table, i: nat, k: nat)
    requires TableOk(rows) && i < |rows| && k < |rows| && rows[i].key == rows[k].key && !rows[i].state.Terminal()
    ensures rows[k].number <= rows[i].number
  {
    if rows[k].number > rows[i].number {
      NumbersContiguous(rows, k, rows[i].number);
    }
  }

  // ---------------------------------------------------------------------------------------------
  // The store as an object

  /** The attempt table with its methods, each one call without interleaving. */
  class AttemptStore {
    var rows: Table

    constructor ()
      ensures rows == [] && TableOk(rows)
    {
      rows := [];
    }

    method Create(task: string, grant: string, intent: string, key: string, retry: bool)
      returns (r: Result<nat, AttemptError>)
      requires TableOk(rows)
      modifies this
      ensures TableOk(rows)
      ensures r.Err? ==> rows == old(rows)
      ensures r == Err(FieldRequired) <==> task == "" || grant == "" || intent == "" || key == ""
      ensures r.Ok? ==>
        && r.value == |old(rows)|
        && rows == old(rows) + [NewAttempt(task, grant, intent, key, NumberAfter(old(rows), key))]
        && IsFor(rows[r.value], task, grant, intent, key)
      ensures task != "" && grant != "" && intent != "" && key != "" ==>
        (r.Ok? <==> forall i | 0 <= i < |old(rows)| && old(rows)[i].key == key ::
          retry && old(rows)[i].state.Terminal())
    {
      if task == "" || grant == "" || intent == "" || key == "" { return Err(FieldRequired); }
      var previous := Latest(rows, key);
      LatestFacts(rows, key);
      var number := 1;
      if previous.Some? {
        var last := rows[previous.value];
        if !last.state.Terminal() { return Err(KeyActive); }
        if !retry { return Err(KeyReused); }
        number := last.number + 1;
        forall i | 0 <= i < |rows| && rows[i].key == key
          ensures rows[i].state.Terminal()
        {
          if !rows[i].state.Terminal() { OpenIsLast(rows, i, previous.value); }
        }
      }
      assert !Taken(rows, key, number);
      InsertKeeps(rows, NewAttempt(task, grant, intent, key, number), previous);
      r := Ok(|rows|);
      rows := rows + [NewAttempt(task, grant, intent, key, number)];
    }

    method Transition(id: nat, to: AttemptState, now: int, receipt: string) returns (r: Result<Attempt, AttemptError>)
      requires TableOk(rows)
      modifies this
      ensures TableOk(rows)
      ensures r.Ok? <==> id < |old(rows)| && Allowed(old(rows)[id].state, to)
      ensures r == Err(NotFound) <==> id >= |old(rows)|
      ensures r.Ok? ==> rows == old(rows)[id := Moved(old(rows)[id], to, now, receipt)] && r.value == rows[id]
      ensures r.Ok? ==>
        && r.value.state == to && (receipt != "" ==> r.value.receipt == receipt)
        && r.value == old(rows)[id].(state := to, lease := r.value.lease, started := r.value.started,
                                     finished := r.value.finished, trail := r.value.trail, times := r.value.times,
                                     receipt := if receipt == "" then old(rows)[id].receipt else receipt)
      ensures r.Err? ==> rows == old(rows)
    {
      if id >= |rows| { return Err(NotFound); }
      if !Allowed(rows[id].state, to) { return Err(InvalidTransition); }
      MoveKeeps(rows, id, to, now, receipt);
      rows := rows[id := Moved(rows[id], to, now, receipt)];
      r := Ok(rows[id]);
    }

    predicate LeaseOver(a: Attempt, now: int) {
      a.state.Leased? && a.lease.Some? && a.lease.value <= now
    }

    /** Times out exactly the leased attempts whose lease is over, and reports exactly those. */
    method ExpireLeases(now: int) returns (expired: seq<nat>)
      requires TableOk(rows)
      modifies this
      ensures TableOk(rows) && |rows| == |old(rows)|
      ensures forall i | 0 <= i < |rows| ::
        rows[i] == if LeaseOver(old(rows)[i], now) then Moved(old(rows)[i], TimedOut, now, "") else old(rows)[i]
      ensures forall i :: i in expired <==> 0 <= i < |rows| && LeaseOver(old(rows)[i], now)
    {
      expired := [];
      ghost var was := rows;
      for k := 0 to |rows|
        invariant TableOk(rows) && |rows| == |was|
        invariant forall i | 0 <= i < k ::
          rows[i] == if LeaseOver(was[i], now) then Moved(was[i], TimedOut, now, "") else was[i]
        invariant forall i | k <= i < |rows| :: rows[i] == was[i]
        invariant forall i :: i in expired <==> 0 <= i < k && LeaseOver(was[i], now)
      {
        if LeaseOver(rows[k], now) {
          var r := Transition(k, TimedOut, now, "");
          expired := expired + [k];
        }
      }
    }
  }
}
