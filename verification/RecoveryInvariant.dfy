/** The inductive invariant of crash recovery, and its preservation by every action. */
module RecoveryInvariant {
  import opened Outcomes
  import opened Attempts
  import opened RecoveryProtocol

  // ---------------------------------------------------------------------------------------------
  // The invariant

  /** Row `i` is the retry that the recovery of attempt `a` inserted. */
  ghost predicate RetryOf(w: World, a: nat, i: nat) {
    Made(a, i) in w.made
  }

  /** Row `i` has the grant id derived from the review of attempt `a`. */
  ghost predicate Carries(w: World, a: nat, i: nat) {
    a in w.reviews && i < |w.rows| && w.rows[i].grant == RetryGrant(w.reviews[a].id)
  }

  /** What an inserted retry looks like: the derived grant, the task and intent of the original and the next number of
      its key, made after the original, whose review found the retry safe, was aborted. */
  ghost predicate RetryOk(w: World, a: nat, i: nat) {
    && Carries(w, a, i) && a < |w.rows|
    && w.rows[i].key == w.rows[a].key && w.rows[i].number == w.rows[a].number + 1
    && w.rows[i].task == w.rows[a].task && w.rows[i].intent == w.rows[a].intent
    && w.rows[a].state.Aborted? && w.reviews[a].decision.Safe? && Closing(w, a)
  }

  ghost predicate ByRecovery(w: World, i: nat) {
    exists a :: RetryOf(w, a, i)
  }

  ghost predicate OpOk(w: World, a: nat)
    requires a in w.ops
  {
    && a in w.reviews && w.reviews[a].decision.Safe?
    && (w.ops[a].state.OpClaimed? ==> w.ops[a].lease.Some? && w.ops[a].token != "" && w.ops[a].retry.None?)
    && (w.ops[a].state.OpAuthorized? ==> w.ops[a].retry.None?)
    && (!w.ops[a].state.OpClaimed? ==> RetryGrant(w.reviews[a].id) in w.grants)
    && (w.ops[a].state.OpCreated? ==> w.ops[a].retry.Some? && Carries(w, a, w.ops[a].retry.value))
  }

  ghost predicate WorldOk(w: World) {
    && TableOk(w.rows)
    && (forall a | a in w.reviews :: a < |w.rows|)
    && (forall a, b | a in w.reviews && b in w.reviews && a != b :: w.reviews[a].id != w.reviews[b].id)
    && (forall a, i | RetryOf(w, a, i) :: RetryOk(w, a, i))
    && (forall i | 0 <= i < |w.rows| && w.rows[i].number > 1 :: ByRecovery(w, i))
    && (forall a | a in w.ops :: OpOk(w, a))
  }

  ghost predicate NoRetry(w: World, a: nat) {
    forall i :: !RetryOf(w, a, i)
  }

  ghost predicate Closing(w: World, a: nat) {
    a in w.ops && !w.ops[a].state.OpClaimed?
  }

  /** The retry is authorized and not yet recorded as created. */
  ghost predicate Granted(w: World, a: nat) {
    a in w.ops && w.ops[a].state.OpAuthorized?
  }

  ghost predicate CallOk(w: World, a: nat, call: Call)
    requires a < |w.rows|
  {
    call.token != "" && match call.pc
    case Ended(result) => result.Some? ==> Carries(w, a, result.value)
    case Settle(to) => to.Terminal()
    case SettleWrite(to) => to.Terminal()
    case Claim => a in w.reviews && w.reviews[a].decision.Safe?
    case AfterClaim(op, _) => a in w.ops && w.ops[a] == op
    case Reauthorize(token) => a in w.ops && w.ops[a].state.OpClaimed? && token != ""
    case MarkAuthorized(token) =>
      && a in w.ops && w.ops[a].state.OpClaimed?
      && a in w.reviews && RetryGrant(w.reviews[a].id) in w.grants
    case ReadOriginal => Granted(w, a)
    case AbortOriginal => Granted(w, a)
    case FindRetry => Granted(w, a) && w.rows[a].state.Aborted?
    case FindKey => Granted(w, a) && w.rows[a].state.Aborted? && NoRetry(w, a)
    case ReadLatest(latest) => Granted(w, a) && w.rows[a].state.Aborted? && NoRetry(w, a) && latest == Some(a)
    case InsertRetry(number) =>
      Granted(w, a) && w.rows[a].state.Aborted? && NoRetry(w, a) && number == w.rows[a].number + 1
    case MarkCreated(retry) => Granted(w, a) && Carries(w, a, retry)
    case _ => true
  }

  ghost predicate Inv(s: State) {
    && WorldOk(s.world)
    && forall a | a in s.calls :: a < |s.world.rows| && CallOk(s.world, a, s.calls[a])
  }

  lemma RetryFollows(w: World, a: nat, i: nat)
    requires WorldOk(w) && RetryOf(w, a, i)
    ensures RetryOk(w, a, i)
  {
  }

  lemma OpHasReview(w: World, a: nat)
    requires WorldOk(w) && a in w.ops
    ensures OpOk(w, a)
  {
  }

  // ---------------------------------------------------------------------------------------------
  // What other calls and executors leave alone

  ghost predicate RowKept(w: World, w': World, i: nat)
    requires i < |w.rows|
  {
    && i < |w'.rows| && w'.rows[i].key == w.rows[i].key && w'.rows[i].number == w.rows[i].number
    && w'.rows[i].grant == w.rows[i].grant && w'.rows[i].task == w.rows[i].task && w'.rows[i].intent == w.rows[i].intent
    && (w.rows[i].state.Terminal() ==> w'.rows[i] == w.rows[i])
  }

  ghost predicate RowsKept(w: World, w': World) {
    |w.rows| <= |w'.rows| && forall i | 0 <= i < |w.rows| :: RowKept(w, w', i)
  }

  /** The recovery of attempt `b` is untouched. */
  ghost predicate Kept(w: World, w': World, b: nat) {
    && RowsKept(w, w') && w.grants.Keys <= w'.grants.Keys
    && (b in w.reviews ==> b in w'.reviews && w'.reviews[b] == w.reviews[b])
    && (b in w.ops ==> b in w'.ops && w'.ops[b] == w.ops[b])
    && forall i :: RetryOf(w', b, i) <==> RetryOf(w, b, i)
  }

  lemma CallKept(w: World, w': World, b: nat, call: Call)
    requires WorldOk(w) && Kept(w, w', b) && b < |w.rows| && CallOk(w, b, call)
    ensures b < |w'.rows| && CallOk(w', b, call)
  {
    assert RowKept(w, w', b);
    if b in w.ops { OpHasReview(w, b); }
    forall i | Carries(w, b, i)
      ensures Carries(w', b, i)
    {
      assert RowKept(w, w', i);
    }
  }

  // ---------------------------------------------------------------------------------------------
  // Each kind of change keeps the world good

  /** Moving an attempt along an allowed step. */
  lemma MoveWorld(w: World, id: nat, to: AttemptState, now: int, receipt: string)
    requires WorldOk(w) && id < |w.rows| && Allowed(w.rows[id].state, to)
    ensures var w' := w.(rows := w.rows[id := Moved(w.rows[id], to, now, receipt)]);
      WorldOk(w') && forall b :: Kept(w, w', b)
  {
    var w' := w.(rows := w.rows[id := Moved(w.rows[id], to, now, receipt)]);
    MoveKeeps(w.rows, id, to, now, receipt);
    assert RowsKept(w, w');
    SameRetries(w, w');
  }

  /** When the retries are the same rows, and rows, reviews and operations are kept, so is the rest. */
  lemma SameRetries(w: World, w': World)
    requires WorldOk(w) && RowsKept(w, w') && |w'.rows| == |w.rows| && TableOk(w'.rows)
    requires w' == w.(rows := w'.rows)
    ensures WorldOk(w')
  {
    forall a, i | RetryOf(w', a, i)
      ensures RetryOk(w', a, i)
    {
      RetryFollows(w, a, i);
      assert RowKept(w, w', a) && RowKept(w, w', i);
    }
    forall i | 0 <= i < |w'.rows| && w'.rows[i].number > 1
      ensures ByRecovery(w', i)
    {
      assert RowKept(w, w', i) && ByRecovery(w, i);
      var a :| RetryOf(w, a, i);
      assert RetryOf(w', a, i);
    }
    forall a | a in w'.ops
      ensures OpOk(w', a)
    {
      OpHasReview(w, a);
      if w.ops[a].state.OpCreated? { assert RowKept(w, w', w.ops[a].retry.value); }
    }
  }

  lemma RetryGrantInjective(x: string, y: string)
    requires RetryGrant(x) == RetryGrant(y)
    ensures x == y
  {
    assert RetryGrant(x)[|PREFIX|..] == x && RetryGrant(y)[|PREFIX|..] == y;
  }

  lemma RetryOfOne(w: World, a: nat, b: nat, i: nat)
    requires WorldOk(w) && RetryOf(w, a, i) && RetryOf(w, b, i)
    ensures a == b
  {
    RetryFollows(w, a, i);
    RetryFollows(w, b, i);
    RetryGrantInjective(w.reviews[a].id, w.reviews[b].id);
  }

  /** Only the operation of attempt `a` changed, to one that fits its retry. */
  lemma OpWorld(w: World, w': World, a: nat)
    requires WorldOk(w) && a in w.reviews && a in w'.ops && w'.ops == w.ops[a := w'.ops[a]]
    requires w' == w.(ops := w'.ops)
    requires OpOk(w', a) && (w'.ops[a].state.OpClaimed? ==> NoRetry(w, a))
    ensures WorldOk(w') && forall b | b != a :: Kept(w, w', b)
  {
    forall b, i | RetryOf(w', b, i)
      ensures RetryOk(w', b, i)
    {
      RetryFollows(w, b, i);
    }
    forall i | 0 <= i < |w'.rows| && w'.rows[i].number > 1
      ensures ByRecovery(w', i)
    {
      var b :| RetryOf(w, b, i);
      assert RetryOf(w', b, i);
    }
    forall b | b in w'.ops
      ensures OpOk(w', b)
    {
      if b != a { assert OpOk(w, b); }
    }
  }

  lemma GrantWorld(w: World, w': World)
    requires WorldOk(w) && w' == w.(grants := w'.grants) && w.grants.Keys <= w'.grants.Keys
    ensures WorldOk(w') && forall b :: Kept(w, w', b)
  {
    forall b, i | RetryOf(w', b, i)
      ensures RetryOk(w', b, i)
    {
      RetryFollows(w, b, i);
    }
    forall i | 0 <= i < |w'.rows| && w'.rows[i].number > 1
      ensures ByRecovery(w', i)
    {
      var b :| RetryOf(w, b, i);
      assert RetryOf(w', b, i);
    }
    forall b | b in w'.ops
      ensures OpOk(w', b)
    {
      assert OpOk(w, b);
    }
  }

  /** Only the review of attempt `a` changed, and `a` has neither operation nor retry. */
  lemma ReviewWorld(w: World, w': World, a: nat)
    requires WorldOk(w) && a < |w.rows| && a in w'.reviews && w'.reviews == w.reviews[a := w'.reviews[a]]
    requires w' == w.(reviews := w'.reviews) && a !in w.ops
    requires forall b | b in w.reviews && b != a :: w.reviews[b].id != w'.reviews[a].id
    requires NoRetry(w, a)
    ensures WorldOk(w') && forall b | b != a :: Kept(w, w', b)
  {
    ReviewRetries(w, w', a);
    forall i | 0 <= i < |w'.rows| && w'.rows[i].number > 1
      ensures ByRecovery(w', i)
    {
      var b :| RetryOf(w, b, i);
      assert RetryOf(w', b, i);
    }
    forall b | b in w'.ops
      ensures OpOk(w', b)
    {
      assert OpOk(w, b);
    }
  }

  lemma ReviewRetries(w: World, w': World, a: nat)
    requires WorldOk(w) && a in w'.reviews && w'.reviews == w.reviews[a := w'.reviews[a]]
    requires w' == w.(reviews := w'.reviews) && NoRetry(w, a)
    ensures forall b, i | RetryOf(w', b, i) :: RetryOk(w', b, i)
  {
    forall b, i | RetryOf(w', b, i)
      ensures RetryOk(w', b, i)
    {
      RetryFollows(w, b, i);
    }
  }

  /** The rows grew by one: a retry of `a`, or a first attempt. */
  ghost predicate Appended(w: World, w': World, a: nat, isRetry: bool) {
    var n := |w.rows|;
    && |w'.rows| == n + 1 && w'.rows[..n] == w.rows
    && w' == w.(rows := w'.rows, made := if isRetry then w.made + {Made(a, n)} else w.made)
    && if isRetry then RetryOk(w', a, n) else w'.rows[n].number == 1
  }

  lemma AppendRetries(w: World, w': World, a: nat, isRetry: bool)
    requires WorldOk(w) && Appended(w, w', a, isRetry)
    ensures forall b, i | RetryOf(w', b, i) :: RetryOk(w', b, i)
  {
    forall b, i | RetryOf(w', b, i)
      ensures RetryOk(w', b, i)
    {
      if RetryOf(w, b, i) { RetryFollows(w, b, i); }
    }
  }

  lemma AppendByRecovery(w: World, w': World, a: nat, isRetry: bool)
    requires WorldOk(w) && Appended(w, w', a, isRetry)
    ensures forall i | 0 <= i < |w'.rows| && w'.rows[i].number > 1 :: ByRecovery(w', i)
  {
    forall i | 0 <= i < |w'.rows| && w'.rows[i].number > 1
      ensures ByRecovery(w', i)
    {
      if i < |w.rows| { assert ByRecovery(w, i); }
      AppendedBy(w, w', a, isRetry, i);
    }
  }

  lemma AppendedBy(w: World, w': World, a: nat, isRetry: bool, i: nat)
    requires Appended(w, w', a, isRetry) && i < |w'.rows| && w'.rows[i].number > 1
    requires i < |w.rows| ==> ByRecovery(w, i)
    ensures ByRecovery(w', i)
  {
    if i < |w.rows| {
      var b :| RetryOf(w, b, i);
      assert RetryOf(w', b, i);
    } else {
      assert RetryOf(w', a, i);
    }
  }

  lemma AppendWorld(w: World, w': World, a: nat, isRetry: bool)
    requires WorldOk(w) && TableOk(w'.rows) && Appended(w, w', a, isRetry)
    ensures WorldOk(w')
  {
    AppendRetries(w, w', a, isRetry);
    AppendByRecovery(w, w', a, isRetry);
    forall b | b in w'.ops
      ensures OpOk(w', b)
    {
      OpHasReview(w, b);
    }
  }

  lemma AppendKept(w: World, w': World, a: nat, isRetry: bool, b: nat)
    requires Appended(w, w', a, isRetry) && (isRetry ==> b != a)
    ensures Kept(w, w', b)
  {
    assert RowsKept(w, w');
  }

  // ---------------------------------------------------------------------------------------------
  // The numbering leaves room for exactly one retry

  /** While no retry exists, the number after the original is free. */
  lemma NextIsFree(w: World, a: nat)
    requires WorldOk(w) && a < |w.rows| && NoRetry(w, a)
    ensures !Taken(w.rows, w.rows[a].key, w.rows[a].number + 1)
  {
    if Taken(w.rows, w.rows[a].key, w.rows[a].number + 1) {
      var j :| 0 <= j < |w.rows| && w.rows[j].key == w.rows[a].key && w.rows[j].number == w.rows[a].number + 1;
      assert w.rows[j].number > 1 && ByRecovery(w, j);
      var b :| RetryOf(w, b, j);
      RetryFollows(w, b, j);
    }
  }

  /** So the original is the latest attempt of its key. */
  lemma LatestIsOriginal(w: World, a: nat)
    requires WorldOk(w) && a < |w.rows| && NoRetry(w, a)
    ensures Latest(w.rows, w.rows[a].key) == Some(a)
  {
    var key, number := w.rows[a].key, w.rows[a].number;
    LatestFacts(w.rows, key);
    NextIsFree(w, a);
    var last := Latest(w.rows, key).value;
    if w.rows[last].number > number + 1 {
      NumbersContiguous(w.rows, last, number + 1);
      assert false;
    }
  }

  // ---------------------------------------------------------------------------------------------
  // Every step keeps the invariant

  ghost predicate Good(w: World, w': World, a: nat, call: Call, pc: Pc) {
    WorldOk(w') && a < |w'.rows| && CallOk(w', a, call.(pc := pc)) && forall b | b != a :: Kept(w, w', b)
  }

  lemma OpenKeeps(w: World, a: nat, call: Call, env: Env)
    requires WorldOk(w) && a < |w.rows| && CallOk(w, a, call) && call.pc.OpenReview?
    ensures Good(w, Step(w, a, call, env).0, a, call, Step(w, a, call, env).1)
  {
    var w' := Step(w, a, call, env).0;
    if w' != w {
      if a in w.ops { OpHasReview(w, a); }
      forall i: nat
        ensures !RetryOf(w, a, i)
      {
        if RetryOf(w, a, i) { RetryFollows(w, a, i); }
      }
      ReviewWorld(w, w', a);
    }
  }

  lemma ResolveKeeps(w: World, a: nat, call: Call, env: Env)
    requires WorldOk(w) && a < |w.rows| && CallOk(w, a, call) && call.pc.Resolve?
    ensures Good(w, Step(w, a, call, env).0, a, call, Step(w, a, call, env).1)
  {
    var w' := Step(w, a, call, env).0;
    if w' != w {
      if a in w.ops { OpHasReview(w, a); }
      forall i: nat
        ensures !RetryOf(w, a, i)
      {
        if RetryOf(w, a, i) { RetryFollows(w, a, i); }
      }
      ReviewWorld(w, w', a);
    }
  }

  lemma ClaimKeeps(w: World, a: nat, call: Call, env: Env)
    requires WorldOk(w) && a < |w.rows| && CallOk(w, a, call) && call.pc.Claim?
    ensures Good(w, Step(w, a, call, env).0, a, call, Step(w, a, call, env).1)
  {
    var w' := Step(w, a, call, env).0;
    if ClaimRow(w, a, call.now, call.token).1 {
      if a in w.ops { OpHasReview(w, a); }
      forall i: nat
        ensures !RetryOf(w, a, i)
      {
        if RetryOf(w, a, i) { RetryFollows(w, a, i); }
      }
      OpWorld(w, w', a);
    }
  }

  lemma ReauthorizeKeeps(w: World, a: nat, call: Call, env: Env)
    requires WorldOk(w) && a < |w.rows| && CallOk(w, a, call) && call.pc.Reauthorize?
    ensures Good(w, Step(w, a, call, env).0, a, call, Step(w, a, call, env).1)
  {
    assert OpOk(w, a);
    GrantWorld(w, Step(w, a, call, env).0);
  }

  lemma AuthorizeKeeps(w: World, a: nat, call: Call, env: Env)
    requires WorldOk(w) && a < |w.rows| && CallOk(w, a, call) && call.pc.MarkAuthorized?
    ensures Good(w, Step(w, a, call, env).0, a, call, Step(w, a, call, env).1)
  {
    OpHasReview(w, a);
    var w' := Authorize(w, a, call.later, call.pc.token);
    if w'.Some? && w'.value != w {
      assert OpOk(w'.value, a);
      OpWorld(w, w'.value, a);
    }
  }

  lemma MoveStepKeeps(w: World, a: nat, call: Call, env: Env)
    requires WorldOk(w) && a < |w.rows| && CallOk(w, a, call) && (call.pc.SettleWrite? || call.pc.AbortOriginal?)
    requires call.pc.SettleWrite? ==> call.pc.to.Terminal()
    ensures Good(w, Step(w, a, call, env).0, a, call, Step(w, a, call, env).1)
  {
    if w.rows[a].state.Running? {
      MoveWorld(w, a, if call.pc.SettleWrite? then call.pc.to else Aborted, call.now, "");
    }
  }

  lemma ReadOnly(w: World, a: nat, call: Call, pc: Pc)
    requires WorldOk(w) && a < |w.rows| && CallOk(w, a, call.(pc := pc))
    ensures Good(w, w, a, call, pc)
  {
  }

  lemma FindGrantMeans(w: World, a: nat)
    requires WorldOk(w) && a in w.reviews
    ensures var found := FindGrant(w.rows, RetryGrant(w.reviews[a].id));
      if found.Some? then Carries(w, a, found.value) else NoRetry(w, a)
  {
    FindGrantFacts(w.rows, RetryGrant(w.reviews[a].id));
    forall i: nat | RetryOf(w, a, i)
      ensures Carries(w, a, i)
    {
      RetryFollows(w, a, i);
    }
  }

  lemma FindRetryKeeps(w: World, a: nat, call: Call, env: Env)
    requires WorldOk(w) && a < |w.rows| && CallOk(w, a, call) && call.pc.FindRetry?
    ensures Good(w, Step(w, a, call, env).0, a, call, Step(w, a, call, env).1)
  {
    OpHasReview(w, a);
    FindGrantMeans(w, a);
    ReadOnly(w, a, call, Step(w, a, call, env).1);
  }

  lemma FindKeyKeeps(w: World, a: nat, call: Call, env: Env)
    requires WorldOk(w) && a < |w.rows| && CallOk(w, a, call) && call.pc.FindKey?
    ensures Good(w, Step(w, a, call, env).0, a, call, Step(w, a, call, env).1)
  {
    LatestIsOriginal(w, a);
    assert Step(w, a, call, env) == (w, ReadLatest(Some(a)));
    ReadOnly(w, a, call, ReadLatest(Some(a)));
  }

  lemma ReadLatestKeeps(w: World, a: nat, call: Call, env: Env)
    requires WorldOk(w) && a < |w.rows| && CallOk(w, a, call) && call.pc.ReadLatest?
    ensures Good(w, Step(w, a, call, env).0, a, call, Step(w, a, call, env).1)
  {
  }

  lemma InsertStepKeeps(w: World, a: nat, call: Call, env: Env)
    requires WorldOk(w) && a < |w.rows| && CallOk(w, a, call) && call.pc.InsertRetry?
    ensures Good(w, Step(w, a, call, env).0, a, call, Step(w, a, call, env).1)
  {
    assert OpOk(w, a);
    var row := NewAttempt(w.rows[a].task, RetryGrant(w.reviews[a].id), w.rows[a].intent, w.rows[a].key, call.pc.number);
    if !Taken(w.rows, w.rows[a].key, call.pc.number) {
      var w' := w.(rows := w.rows + [row], made := w.made + {Made(a, |w.rows|)});
      InsertKeeps(w.rows, row, Some(a));
      AppendWorld(w, w', a, true);
      forall b | b != a ensures Kept(w, w', b) { AppendKept(w, w', a, true, b); }
    }
  }

  lemma CreatedOp(w: World, a: nat, retry: nat)
    requires Granted(w, a) && OpOk(w, a) && Carries(w, a, retry)
    ensures var r := Create(w, a, retry);
      && r.Some? && r.value.ops == w.ops[a := r.value.ops[a]] && r.value == w.(ops := r.value.ops)
      && OpOk(r.value, a) && Closing(r.value, a) && Carries(r.value, a, retry)
  {
  }

  lemma CreatedKeeps(w: World, a: nat, call: Call, env: Env)
    requires WorldOk(w) && a < |w.rows| && CallOk(w, a, call) && call.pc.MarkCreated?
    ensures Good(w, Step(w, a, call, env).0, a, call, Step(w, a, call, env).1)
  {
    OpHasReview(w, a);
    CreatedOp(w, a, call.pc.retry);
    var w' := Create(w, a, call.pc.retry).value;
    OpWorld(w, w', a);
    assert Step(w, a, call, env) == (w', Ended(Some(call.pc.retry)));
  }

  lemma ReadKeeps(w: World, a: nat, call: Call, env: Env)
    requires WorldOk(w) && a < |w.rows| && CallOk(w, a, call)
    requires
      || call.pc.Ended? || call.pc.Begin? || call.pc.Inspect? || call.pc.Settle? || call.pc.AfterClaim?
      || call.pc.ReadOriginal?
    ensures Good(w, Step(w, a, call, env).0, a, call, Step(w, a, call, env).1)
  {
    if a in w.ops { OpHasReview(w, a); }
    ReadCallOk(w, a, call, env);
    ReadOnly(w, a, call, Step(w, a, call, env).1);
  }

  /** A step that only reads leaves the call's facts true. */
  lemma ReadCallOk(w: World, a: nat, call: Call, env: Env)
    requires a < |w.rows| && CallOk(w, a, call) && (a in w.ops ==> OpOk(w, a))
    requires
      || call.pc.Ended? || call.pc.Begin? || call.pc.Inspect? || call.pc.Settle? || call.pc.AfterClaim?
      || call.pc.ReadOriginal?
    ensures Step(w, a, call, env).0 == w && CallOk(w, a, call.(pc := Step(w, a, call, env).1))
  {
  }

  lemma StepKeeps(w: World, a: nat, call: Call, env: Env)
    requires WorldOk(w) && a < |w.rows| && CallOk(w, a, call)
    ensures Good(w, Step(w, a, call, env).0, a, call, Step(w, a, call, env).1)
  {
    match call.pc
    case OpenReview => OpenKeeps(w, a, call, env);
    case Resolve => ResolveKeeps(w, a, call, env);
    case Claim => ClaimKeeps(w, a, call, env);
    case Reauthorize(_) => ReauthorizeKeeps(w, a, call, env);
    case MarkAuthorized(_) => AuthorizeKeeps(w, a, call, env);
    case SettleWrite(_) => MoveStepKeeps(w, a, call, env);
    case AbortOriginal => MoveStepKeeps(w, a, call, env);
    case FindRetry => FindRetryKeeps(w, a, call, env);
    case FindKey => FindKeyKeeps(w, a, call, env);
    case ReadLatest(_) => ReadLatestKeeps(w, a, call, env);
    case InsertRetry(_) => InsertStepKeeps(w, a, call, env);
    case MarkCreated(_) => CreatedKeeps(w, a, call, env);
    case _ => ReadKeeps(w, a, call, env);
  }

  lemma OutsideKeeps(w: World, d: Attempt)
    requires WorldOk(w) && Latest(w.rows, d.key).None?
    ensures var w' := w.(rows := w.rows + [NewAttempt(d.task, d.grant, d.intent, d.key, 1)]);
      WorldOk(w') && forall b :: Kept(w, w', b)
  {
    var row := NewAttempt(d.task, d.grant, d.intent, d.key, 1);
    LatestFacts(w.rows, d.key);
    var w' := w.(rows := w.rows + [row]);
    InsertKeeps(w.rows, row, None);
    AppendWorld(w, w', 0, false);
    forall b ensures Kept(w, w', b) { AppendKept(w, w', 0, false, b); }
  }

  lemma OthersKeep(s: State, w: World, a: nat)
    requires Inv(s) && forall b | b in s.calls && b != a :: Kept(s.world, w, b)
    ensures forall b | b in s.calls && b != a :: b < |w.rows| && CallOk(w, b, s.calls[b])
  {
    forall b | b in s.calls && b != a
      ensures b < |w.rows| && CallOk(w, b, s.calls[b])
    {
      CallKept(s.world, w, b, s.calls[b]);
    }
  }

  lemma TickKeeps(s: State, a: nat, env: Env)
    requires Inv(s)
    ensures Inv(Exec(s, Tick(a, env)))
  {
    if a in s.calls && !env.Fault? {
      StepKeeps(s.world, a, s.calls[a], env);
      OthersKeep(s, Exec(s, Tick(a, env)).world, a);
    }
  }

  lemma ExecKeeps(s: State, action: Action)
    requires Inv(s)
    ensures Inv(Exec(s, action))
  {
    var s' := Exec(s, action);
    match action
    case Retry(_, _, _, _, _) =>
    case Tick(a, env) => TickKeeps(s, a, env);
    case Outside(d) =>
      if Latest(s.world.rows, d.key).None? {
        OutsideKeeps(s.world, d);
        OthersKeep(s, s'.world, |s.world.rows|);
      }
    case Move(a, to, now, receipt) =>
      if a < |s.world.rows| && Allowed(s.world.rows[a].state, to) {
        MoveWorld(s.world, a, to, now, receipt);
        OthersKeep(s, s'.world, |s.world.rows|);
      }
    case Spend(_) =>
      GrantWorld(s.world, s'.world);
      OthersKeep(s, s'.world, |s.world.rows|);
  }

  lemma {:induction false} RunKeeps(schedule: seq<Action>)
    ensures Inv(Run(FRESH, schedule))
  {
    if schedule != [] {
      RunKeeps(schedule[..|schedule| - 1]);
      ExecKeeps(Run(FRESH, schedule[..|schedule| - 1]), schedule[|schedule| - 1]);
    }
  }
}
