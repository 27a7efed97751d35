/**
 The per-deployer operation mutex (`deploy/serialize.ts`).

 A call claims its slot synchronously at entry: it chains on the deployer's tail promise and
 becomes the new tail. The async store is set around every keyed body, so any call made from
 inside one is refused. A call with no deployer handle runs free and sets no store.
 */
module Serialize {
  import opened Wrappers

  type Host = nat
  type CallId = nat

  /** How a promise settled; a rejection names the call whose body threw. */
  datatype Settlement = Fulfilled | Rejected(origin: CallId)

  datatype Body = Waiting | Active | Settled(how: Settlement)

  /** `issuer` is the call whose body made this one, `waits` the calls its body awaits. */
  datatype Call = Call(host: Option<Host>, pred: Option<CallId>, issuer: Option<CallId>, waits: set<CallId>, body: Body)

  datatype State = State(calls: seq<Call>, tails: map<Host, CallId>)

  const Initial: State := State([], map[])

  datatype Reply = NestedOperation | Accepted(id: CallId)

  /** The value of the async store in the body of `issuer`: set only around keyed bodies. */
  function Store(s: State, issuer: Option<CallId>): (store: Option<Host>)
    requires issuer.Some? ==> issuer.value < |s.calls|
  {
    if issuer.None? then None else s.calls[issuer.value].host
  }

  /** The private tail promise: both arms of its `then` answer `undefined`. */
  function Absorbed(how: Settlement): Settlement {
    match how
    case Fulfilled => Fulfilled
    case Rejected(_) => Fulfilled
  }

  /** `tail.then(() => active.run(host, run))`: a rejected tail would skip the body. */
  function ThenRun(tail: Settlement): Body {
    match tail
    case Fulfilled => Active
    case Rejected(e) => Settled(Rejected(e))
  }

  ghost predicate CanIssue(s: State, issuer: Option<CallId>) {
    issuer.Some? ==> issuer.value < |s.calls| && s.calls[issuer.value].body != Waiting
  }

  function Issue(s: State, issuer: Option<CallId>, host: Option<Host>): (r: (State, Reply))
    requires issuer.Some? ==> issuer.value < |s.calls|
  {
    var id := |s.calls|;
    if Store(s, issuer).Some? then (s, NestedOperation)
    else if host.None? then (s.(calls := s.calls + [Call(None, None, issuer, {}, Active)]), Accepted(id))
    else
      var pred := if host.value in s.tails then Some(s.tails[host.value]) else None;
      var body := if pred.None? then Active else Waiting;
      (State(s.calls + [Call(host, pred, issuer, {}, body)], s.tails[host.value := id]), Accepted(id))
  }

  ghost predicate CanStart(s: State, i: CallId) {
    && i < |s.calls| && s.calls[i].body.Waiting?
    && s.calls[i].pred.Some? && s.calls[i].pred.value < |s.calls|
    && s.calls[s.calls[i].pred.value].body.Settled?
  }

  function Start(s: State, i: CallId): State
    requires CanStart(s, i)
  {
    var tail := Absorbed(s.calls[s.calls[i].pred.value].body.how);
    s.(calls := s.calls[i := s.calls[i].(body := ThenRun(tail))])
  }

  /** A body may await only calls it made itself. */
  ghost predicate CanAwait(s: State, i: CallId, j: CallId) {
    && i < |s.calls| && j < |s.calls|
    && s.calls[i].body.Active? && s.calls[j].issuer == Some(i)
  }

  function Await(s: State, i: CallId, j: CallId): State
    requires CanAwait(s, i, j)
  {
    s.(calls := s.calls[i := s.calls[i].(waits := s.calls[i].waits + {j})])
  }

  ghost predicate CanSettle(s: State, i: CallId) {
    && i < |s.calls| && s.calls[i].body.Active?
    && forall j <- s.calls[i].waits :: j < |s.calls| && s.calls[j].body.Settled?
  }

  function Settle(s: State, i: CallId, ok: bool): State
    requires CanSettle(s, i)
  {
    s.(calls := s.calls[i := s.calls[i].(body := Settled(if ok then Fulfilled else Rejected(i)))])
  }

  datatype Event =
    | Issued(issuer: Option<CallId>, host: Option<Host>)
    | Started(i: CallId)
    | Awaited(i: CallId, j: CallId)
    | Finished(i: CallId, ok: bool)

  ghost predicate Enabled(s: State, e: Event) {
    match e
    case Issued(issuer, _) => CanIssue(s, issuer)
    case Started(i) => CanStart(s, i)
    case Awaited(i, j) => CanAwait(s, i, j)
    case Finished(i, _) => CanSettle(s, i)
  }

  ghost function Apply(s: State, e: Event): State
    requires Enabled(s, e)
  {
    match e
    case Issued(issuer, host) => Issue(s, issuer, host).0
    case Started(i) => Start(s, i)
    case Awaited(i, j) => Await(s, i, j)
    case Finished(i, ok) => Settle(s, i, ok)
  }

  /** The state after a run, or None when some event of it was not enabled. */
  ghost function Run(events: seq<Event>): Option<State>
    decreases |events|
  {
    if events == [] then Some(Initial)
    else
      var before := Run(events[..|events| - 1]);
      var e := events[|events| - 1];
      if before.Some? && Enabled(before.value, e) then Some(Apply(before.value, e)) else None
  }

  ghost predicate SameHost(s: State, i: CallId, j: CallId)
    requires i < |s.calls| && j < |s.calls|
  {
    s.calls[i].host.Some? && s.calls[i].host == s.calls[j].host
  }

  /** What holds of one call: its links point backwards, and it waits only behind a predecessor. */
  ghost predicate CallOk(s: State, i: CallId) {
    && i < |s.calls|
    && var c := s.calls[i];
    && (c.pred.Some? ==> c.pred.value < i && SameHost(s, c.pred.value, i))
    && (c.body.Waiting? ==> c.pred.Some?)
    && (c.issuer.Some? ==> c.issuer.value < i && s.calls[c.issuer.value].host.None?)
    && (forall j <- c.waits :: i < j < |s.calls| && s.calls[j].issuer == Some(i))
    && (c.body.Settled? && c.body.how.Rejected? ==> c.body.how.origin == i)
  }

  /** What holds of two calls on one deployer: the later one chains behind and starts after the earlier one. */
  ghost predicate PairOk(s: State, i: CallId, j: CallId) {
    i < j < |s.calls| && SameHost(s, i, j) ==>
      && s.calls[j].pred.Some? && i <= s.calls[j].pred.value
      && (!s.calls[j].body.Waiting? ==> s.calls[i].body.Settled?)
  }

  /** The tail of a deployer is its latest call. */
  ghost predicate TailOk(s: State, h: Host) {
    && (h in s.tails ==> s.tails[h] < |s.calls| && s.calls[s.tails[h]].host == Some(h))
    && (forall i | 0 <= i < |s.calls| && s.calls[i].host == Some(h) :: h in s.tails && i <= s.tails[h])
  }

  ghost predicate Inv(s: State) {
    && (forall i | 0 <= i < |s.calls| :: CallOk(s, i))
    && (forall i: nat, j: nat :: PairOk(s, i, j))
    && (forall h: Host :: TailOk(s, h))
  }

  lemma IssueKeepsInv(s: State, issuer: Option<CallId>, host: Option<Host>)
    requires Inv(s) && CanIssue(s, issuer)
    ensures Inv(Issue(s, issuer, host).0)
  {
    var t := Issue(s, issuer, host).0;
    if t != s {
      var id := |s.calls|;
      forall i | 0 <= i <= id ensures CallOk(t, i) {
        if i < id { assert CallOk(s, i); }
        if host.Some? { assert TailOk(s, host.value); }
      }
      forall i: nat, j: nat ensures PairOk(t, i, j) {
        assert PairOk(s, i, j);
        if host.Some? && j == id {
          assert TailOk(s, host.value);
        }
      }
      forall h: Host ensures TailOk(t, h) {
        assert TailOk(s, h);
      }
    }
  }

  /** Two states whose calls differ only in the body of `i` and in awaited calls. */
  ghost predicate OnlyMoved(s: State, t: State, i: CallId) {
    && |t.calls| == |s.calls| && t.tails == s.tails
    && forall k | 0 <= k < |s.calls| :: t.calls[k] == s.calls[k].(body := t.calls[k].body) && (k != i ==> t.calls[k] == s.calls[k])
  }

  lemma MoveKeepsInv(s: State, t: State, i: CallId)
    requires Inv(s) && i < |s.calls| && OnlyMoved(s, t, i)
    requires !t.calls[i].body.Waiting? && !s.calls[i].body.Settled?
    requires s.calls[i].body.Waiting? ==> CanStart(s, i)
    requires t.calls[i].body.Settled? && t.calls[i].body.how.Rejected? ==> t.calls[i].body.how.origin == i
    ensures Inv(t)
  {
    forall k | 0 <= k < |t.calls| ensures CallOk(t, k) { assert CallOk(s, k); }
    forall a: nat, b: nat ensures PairOk(t, a, b) {
      assert PairOk(s, a, b);
      assert CallOk(s, i);
      if b == i && s.calls[i].body.Waiting? {
        assert PairOk(s, a, s.calls[i].pred.value);
      }
    }
    forall h: Host ensures TailOk(t, h) { assert TailOk(s, h); }
  }

  lemma StartKeepsInv(s: State, i: CallId)
    requires Inv(s) && CanStart(s, i)
    ensures Inv(Start(s, i))
  {
    MoveKeepsInv(s, Start(s, i), i);
  }

  lemma SettleKeepsInv(s: State, i: CallId, ok: bool)
    requires Inv(s) && CanSettle(s, i)
    ensures Inv(Settle(s, i, ok))
  {
    MoveKeepsInv(s, Settle(s, i, ok), i);
  }

  lemma AwaitKeepsInv(s: State, i: CallId, j: CallId)
    requires Inv(s) && CanAwait(s, i, j)
    ensures Inv(Await(s, i, j))
  {
    var t := Await(s, i, j);
    assert CallOk(s, j);
    forall k | 0 <= k < |t.calls| ensures CallOk(t, k) { assert CallOk(s, k); }
    forall a: nat, b: nat ensures PairOk(t, a, b) { assert PairOk(s, a, b); }
    forall h: Host ensures TailOk(t, h) { assert TailOk(s, h); }
  }

  /** Every reachable state satisfies the invariant, whatever the issue pattern. */
  lemma {:induction false} RunKeepsInv(events: seq<Event>)
    requires Run(events).Some?
    ensures Inv(Run(events).value)
    decreases |events|
  {
    if events != [] {
      var front, e := events[..|events| - 1], events[|events| - 1];
      RunKeepsInv(front);
      var s := Run(front).value;
      match e
      case Issued(issuer, host) => IssueKeepsInv(s, issuer, host);
      case Started(i) => StartKeepsInv(s, i);
      case Awaited(i, j) => AwaitKeepsInv(s, i, j);
      case Finished(i, ok) => SettleKeepsInv(s, i, ok);
    }
  }

  /** At most one body per deployer is active, and an active body's earlier calls have all settled. */
  lemma MutualExclusion(events: seq<Event>, i: CallId, j: CallId)
    requires Run(events).Some?
    requires i < |Run(events).value.calls| && j < |Run(events).value.calls| && i != j
    requires SameHost(Run(events).value, i, j)
    ensures !(Run(events).value.calls[i].body.Active? && Run(events).value.calls[j].body.Active?)
    ensures i < j && !Run(events).value.calls[j].body.Waiting? ==> Run(events).value.calls[i].body.Settled?
  {
    RunKeepsInv(events);
    assert PairOk(Run(events).value, i, j) && PairOk(Run(events).value, j, i);
  }

  /** A rejection that reaches the caller of `i` was thrown by the body of `i`. */
  lemma FailureReachesOnlyItsCaller(events: seq<Event>, i: CallId)
    requires Run(events).Some? && i < |Run(events).value.calls|
    requires Run(events).value.calls[i].body.Settled? && Run(events).value.calls[i].body.how.Rejected?
    ensures Run(events).value.calls[i].body.how.origin == i
  {
    RunKeepsInv(events);
    assert CallOk(Run(events).value, i);
  }

  /** A call from inside a keyed body is refused and leaves every tail as it was; any other call is accepted. */
  lemma RefusedIffInsideKeyedBody(s: State, issuer: Option<CallId>, host: Option<Host>)
    requires CanIssue(s, issuer)
    ensures Issue(s, issuer, host).1.NestedOperation? <==>
            issuer.Some? && s.calls[issuer.value].host.Some?
    ensures Issue(s, issuer, host).1.NestedOperation? ==> Issue(s, issuer, host).0 == s
    ensures host.None? ==> Issue(s, issuer, host).0.tails == s.tails
  {
  }

  // ---------- deadlock freedom ----------

  /** `i` cannot move before `j` has settled. */
  ghost predicate WaitsFor(s: State, i: CallId, j: CallId)
    requires i < |s.calls|
  {
    || (s.calls[i].body.Waiting? && s.calls[i].pred == Some(j))
    || (s.calls[i].body.Active? && j in s.calls[i].waits)
  }

  /** Keyed calls rank by issue order; free calls rank above them, in reverse order. */
  function Rank(s: State, i: CallId): nat
    requires i < |s.calls|
  {
    if s.calls[i].host.Some? then i else 2 * |s.calls| - i
  }

  /** Every waits-for edge goes down in rank, so no cycle of waits exists. */
  lemma WaitsGoDown(s: State, i: CallId, j: CallId)
    requires Inv(s) && i < |s.calls| && WaitsFor(s, i, j)
    ensures j < |s.calls| && Rank(s, j) < Rank(s, i)
    ensures s.calls[i].host.Some? ==> j < i && SameHost(s, j, i)
  {
    assert CallOk(s, i);
    if j < |s.calls| { assert CallOk(s, j); }
  }

  function Load(b: Body): nat {
    match b
    case Waiting => 2
    case Active => 1
    case Settled(_) => 0
  }

  function Measure(calls: seq<Call>): nat {
    if calls == [] then 0 else Measure(calls[..|calls| - 1]) + Load(calls[|calls| - 1].body)
  }

  lemma {:induction false} MeasureUpdate(calls: seq<Call>, i: CallId, c: Call)
    requires i < |calls|
    ensures Measure(calls[i := c]) == Measure(calls) - Load(calls[i].body) + Load(c.body)
    decreases |calls|
  {
    var last := |calls| - 1;
    if i == last {
      assert calls[i := c][..last] == calls[..last];
    } else {
      MeasureUpdate(calls[..last], i, c);
      assert calls[i := c][..last] == calls[..last][i := c];
    }
  }

  lemma {:induction false} MeasureZero(calls: seq<Call>)
    ensures Measure(calls) == 0 <==> forall i | 0 <= i < |calls| :: calls[i].body.Settled?
    decreases |calls|
  {
    if calls != [] {
      var last := |calls| - 1;
      MeasureZero(calls[..last]);
      assert forall i | 0 <= i < last :: calls[..last][i] == calls[i];
      if forall i | 0 <= i < |calls| :: calls[i].body.Settled? {
        forall i | 0 <= i < last ensures calls[..last][i].body.Settled? {
          assert calls[i].body.Settled?;
        }
      }
    }
  }

  ghost predicate Moving(e: Event) {
    e.Started? || e.Finished?
  }

  /** Following waits from any unsettled call reaches a call that can start or settle now. */
  lemma {:induction false} SomeoneCanMove(s: State, i: CallId) returns (e: Event)
    requires Inv(s) && i < |s.calls| && !s.calls[i].body.Settled?
    ensures Moving(e) && Enabled(s, e)
    decreases Rank(s, i)
  {
    assert CallOk(s, i);
    if s.calls[i].body.Waiting? {
      var p := s.calls[i].pred.value;
      assert WaitsFor(s, i, p);
      WaitsGoDown(s, i, p);
      if s.calls[p].body.Settled? {
        e := Started(i);
      } else {
        e := SomeoneCanMove(s, p);
      }
    } else if j :| j in s.calls[i].waits && !s.calls[j].body.Settled? {
      assert WaitsFor(s, i, j);
      WaitsGoDown(s, i, j);
      e := SomeoneCanMove(s, j);
    } else {
      e := Finished(i, true);
    }
  }

  /** A started call runs its body: an earlier failure never takes its place. */
  lemma EachMoveCountsDown(s: State, e: Event)
    requires Inv(s) && Moving(e) && Enabled(s, e)
    ensures Inv(Apply(s, e)) && |Apply(s, e).calls| == |s.calls|
    ensures Measure(Apply(s, e).calls) == Measure(s.calls) - 1
    ensures e.Started? ==> Apply(s, e).calls[e.i].body == Active
  {
    var i := e.i;
    var t := Apply(s, e);
    MeasureUpdate(s.calls, i, t.calls[i]);
    match e
    case Started(_) => StartKeepsInv(s, i);
    case Finished(_, ok) => SettleKeepsInv(s, i, ok);
  }

  /** The state after moves only, or None when one of them was not enabled. */
  ghost function Moves(s: State, moves: seq<Event>): Option<State>
    decreases |moves|
  {
    if moves == [] then Some(s)
    else if Moving(moves[0]) && Enabled(s, moves[0]) then Moves(Apply(s, moves[0]), moves[1..])
    else None
  }

  ghost predicate AllSettled(s: State) {
    forall i | 0 <= i < |s.calls| :: s.calls[i].body.Settled?
  }

  /**
   Deadlock freedom with an explicit measure: from every reachable state, any sequence of starts
   and settlements is at most `Measure` long, and one that cannot be extended has settled every
   accepted call.
   */
  lemma {:induction false} NoDeadlock(s: State, moves: seq<Event>)
    requires Inv(s) && Moves(s, moves).Some?
    ensures |moves| <= Measure(s.calls)
    ensures |moves| == Measure(s.calls) <==> AllSettled(Moves(s, moves).value)
    ensures AllSettled(Moves(s, moves).value) ||
            exists e :: Moving(e) && Enabled(Moves(s, moves).value, e)
    decreases |moves|
  {
    if moves == [] {
      MeasureZero(s.calls);
      if !AllSettled(s) {
        var i :| 0 <= i < |s.calls| && !s.calls[i].body.Settled?;
        var e := SomeoneCanMove(s, i);
      }
    } else {
      EachMoveCountsDown(s, moves[0]);
      NoDeadlock(Apply(s, moves[0]), moves[1..]);
    }
  }

  /** The module-level state: the `tails` map overwritten per call, and the calls made so far. */
  class Serializer {
    var calls: seq<Call>
    var tails: map<Host, CallId>

    function Abs(): State
      reads this
    {
      State(calls, tails)
    }

    constructor ()
      ensures Abs() == Initial
    {
      calls, tails := [], map[];
    }

    /** `serializeOperation`, called in the async context of `issuer`. */
    method SerializeOperation(issuer: Option<CallId>, host: Option<Host>) returns (reply: Reply)
      requires CanIssue(Abs(), issuer) && Inv(Abs())
      modifies this
      ensures (Abs(), reply) == Issue(old(Abs()), issuer, host)
      ensures Inv(Abs())
    {
      IssueKeepsInv(Abs(), issuer, host);
      if issuer.Some? && calls[issuer.value].host.Some? {
        return NestedOperation;
      }
      var id := |calls|;
      reply := Accepted(id);
      if host.None? {
        calls := calls + [Call(None, None, issuer, {}, Active)];
        return;
      }
      if host.value !in tails {
        calls := calls + [Call(host, None, issuer, {}, Active)];
      } else {
        calls := calls + [Call(host, Some(tails[host.value]), issuer, {}, Waiting)];
      }
      tails := tails[host.value := id];
    }

    /** The tail settled: the reaction that enters the store around the body runs. */
    method TailSettled(i: CallId)
      requires CanStart(Abs(), i) && Inv(Abs())
      modifies this`calls
      ensures Abs() == Start(old(Abs()), i) && Inv(Abs())
      ensures calls[i].body == Active
    {
      StartKeepsInv(Abs(), i);
      calls := calls[i := calls[i].(body := Active)];
    }

    method BodySettled(i: CallId, ok: bool)
      requires CanSettle(Abs(), i) && Inv(Abs())
      modifies this`calls
      ensures Abs() == Settle(old(Abs()), i, ok) && Inv(Abs())
    {
      SettleKeepsInv(Abs(), i, ok);
      calls := calls[i := calls[i].(body := Settled(if ok then Fulfilled else Rejected(i)))];
    }
  }
}
