/**
 Why the upgrade guarantee asks for final transactions: with a receipt wait that may give up, an
 operation can return while its upgrade call is still pending, and the next upgrade compares an
 implementation that is no longer live when its own call lands.
 */
module LateLanding {
  import opened Wrappers
  import opened World
  import opened Operations
  import Dispatch
  import Safety
  import Serialize
  import opened Upgrades

  /** As under the mutex, but an operation may return with its transaction pending. */
  ghost predicate LooseEnabled(s: Upgrades.State, e: Upgrades.Event, h: Host) {
    match e
    case Returned(i) =>
      Active(s, i) && Operations.Final(s.sys.ops[i].phase) && Serialize.CanSettle(s.sched, i)
    case _ => Upgrades.Enabled(s, e, h)
  }

  ghost function LooseApply(s: Upgrades.State, e: Upgrades.Event, h: Host): Upgrades.State
    requires LooseEnabled(s, e, h)
  {
    match e
    case Returned(i) => s.(sched := Serialize.Settle(s.sched, i, s.sys.ops[i].phase.Done?))
    case _ => Upgrades.Apply(s, e, h)
  }

  ghost function LooseRun(events: seq<Upgrades.Event>, h: Host): Option<Upgrades.State>
    decreases |events|
  {
    if events == [] then Some(Upgrades.Initial)
    else
      var before := LooseRun(events[..|events| - 1], h);
      var e := events[|events| - 1];
      if before.Some? && LooseEnabled(before.value, e, h) then Some(LooseApply(before.value, e, h)) else None
  }

  lemma Next(events: seq<Upgrades.Event>, s: Upgrades.State, e: Upgrades.Event, h: Host)
    returns (more: seq<Upgrades.Event>, t: Upgrades.State)
    requires LooseRun(events, h) == Some(s) && LooseEnabled(s, e, h)
    ensures LooseRun(more, h) == Some(t) && t == LooseApply(s, e, h)
  {
    more, t := events + [e], LooseApply(s, e, h);
    assert more[..|more| - 1] == events;
  }

  /** The state with operation `i` moved to phase `q` and the world to `w`. */
  ghost function Put(s: Upgrades.State, i: nat, q: Phase, w: World): Upgrades.State
    requires i < |s.sys.ops|
  {
    s.(sys := Safety.System(w, s.sys.ops[i := s.sys.ops[i].(phase := q)]))
  }

  /** One step of operation `i` that sends nothing. */
  lemma Take(events: seq<Upgrades.Event>, base: Upgrades.State, h: Host, i: nat, p: Phase, u: World, a: Answer, q: Phase, w: World)
    returns (more: seq<Upgrades.Event>)
    requires i < |base.sys.ops| && LooseRun(events, h) == Some(Put(base, i, p, u)) && Active(base, i)
    requires Safety.Steppable(u, p)
    requires Advance(u, base.sys.ops[i].host, base.sys.ops[i].request, p, a) == (q, w)
    requires |w.txs| == |u.txs|
    ensures LooseRun(more, h) == Some(Put(base, i, q, w))
  {
    var s := Put(base, i, p, u);
    var t;
    more, t := Next(events, s, Stepped(i, a), h);
    assert t.sys.ops == Put(base, i, q, w).sys.ops;
  }

  ghost predicate Upgradable(w: World, r: Request, current: Address, layout: Layout) {
    && r.UpgradeProxy? && !r.hasCallData && r.v.redeploy == OnChange && layout in r.v.accepts
    && r.proxy in w.code && w.code[r.proxy].Proxy? && w.code[r.proxy].implementation == current
    && w.code[r.proxy].admin.None? && UupsOf(w.code, current) == Some(Dispatch.V5)
    && (r.proxy in w.proxies ==> w.proxies[r.proxy] == Uups)
    && StoredLayout(w.impls, current) == Some(layout)
  }

  ghost function At(r: Request, current: Address): Target
    requires r.UpgradeProxy?
  {
    Target(r.proxy, current, None)
  }

  ghost function From(r: Request, current: Address, layout: Layout): Basis
    requires r.UpgradeProxy?
  {
    Basis(current, layout, r.v.accepts)
  }

  const Plan5: Option<Dispatch.Plan> := Some(Dispatch.Plan(Dispatch.UupsV5, Dispatch.UpgradeToAndCall, true))

  function CallOf(account: Address, proxy: Address, target: Address): Dispatch.Call {
    Dispatch.Call(Dispatch.UupsProxy, account, proxy, Dispatch.UpgradeToAndCall, None, target, Some(false))
  }

  /** A valid upgrade of a UUPS proxy passes every check before the queue. */
  lemma UpgradeChecks(w: World, h: Host, r: Request, current: Address, layout: Layout)
    requires Upgradable(w, r, current, layout)
    ensures Advance(w, Some(h), r, Begun, Completed) == (Gated, w)
    ensures Advance(w, Some(h), r, Gated, Completed) == (SlotsRead(At(r, current)), w)
    ensures Advance(w, Some(h), r, SlotsRead(At(r, current)), OfKind(Uups)) == (KindKnown(At(r, current), Uups), w)
    ensures Advance(w, Some(h), r, KindKnown(At(r, current), Uups), Completed) == (LayoutFound(At(r, current), Uups, layout), w)
    ensures Advance(w, Some(h), r, LayoutFound(At(r, current), Uups, layout), Completed)
         == (Compared(At(r, current), Uups, From(r, current, layout)), w)
    ensures Advance(w, Some(h), r, Compared(At(r, current), Uups, From(r, current, layout)), Completed)
         == (Queued(Uups, Some(Upgrade(At(r, current), From(r, current, layout), Plan5))), w)
  {
  }

  lemma UpgradeGetsQueued(events: seq<Upgrades.Event>, s: Upgrades.State, h: Host, i: nat, current: Address, layout: Layout)
    returns (more: seq<Upgrades.Event>)
    requires LooseRun(events, h) == Some(s) && Active(s, i)
    requires s.sys.ops[i].host == Some(h) && s.sys.ops[i].phase.Begun?
    requires Upgradable(s.sys.world, s.sys.ops[i].request, current, layout)
    ensures var r := s.sys.ops[i].request;
            LooseRun(more, h) == Some(Put(s, i, Queued(Uups, Some(Upgrade(At(r, current), From(r, current, layout), Plan5))), s.sys.world))
  {
    var r, w := s.sys.ops[i].request, s.sys.world;
    var at, basis := At(r, current), From(r, current, layout);
    UpgradeChecks(w, h, r, current, layout);
    assert s == Put(s, i, Begun, w);
    more := Take(events, s, h, i, Begun, w, Completed, Gated, w);
    more := Take(more, s, h, i, Gated, w, Completed, SlotsRead(at), w);
    more := Take(more, s, h, i, SlotsRead(at), w, OfKind(Uups), KindKnown(at, Uups), w);
    more := Take(more, s, h, i, KindKnown(at, Uups), w, Completed, LayoutFound(at, Uups, layout), w);
    more := Take(more, s, h, i, LayoutFound(at, Uups, layout), w, Completed, Compared(at, Uups, basis), w);
    more := Take(more, s, h, i, Compared(at, Uups, basis), w, Completed, Queued(Uups, Some(Upgrade(at, basis, Plan5))), w);
  }

  ghost function WithTarget(w: World, v: Validated, target: Address): World {
    StoreFor(DeployImpl(w, v, target), v, target)
  }

  ghost function AfterSend(s: Upgrades.State, i: nat, target: Address, current: Address, layout: Layout): Upgrades.State
    requires i < |s.sys.ops| && s.sys.ops[i].request.UpgradeProxy?
  {
    var r := s.sys.ops[i].request;
    var w := WithTarget(s.sys.world, r.v, target);
    Put(s, i, Sent(Uups, r.proxy, target, |w.txs|), Send(w, Repoint(r.proxy, target, From(r, current, layout), CallOf(r.account, r.proxy, target))))
      .(senders := s.senders + [i])
  }

  lemma UpgradeSends(w: World, h: Host, r: Request, current: Address, layout: Layout, target: Address)
    requires r.UpgradeProxy? && !r.hasCallData
    ensures Advance(w, Some(h), r, Fetched(Uups, Some(Upgrade(At(r, current), From(r, current, layout), Plan5)), target), Completed)
         == (Sent(Uups, r.proxy, target, |w.txs|), Send(w, Repoint(r.proxy, target, From(r, current, layout), CallOf(r.account, r.proxy, target))))
  {
  }

  /** It then deploys and stores the new implementation, and makes its call. */
  lemma UpgradeGetsSent(events: seq<Upgrades.Event>, s: Upgrades.State, h: Host, i: nat, target: Address, current: Address, layout: Layout)
    returns (more: seq<Upgrades.Event>)
    requires LooseRun(events, h) == Some(s) && Active(s, i)
    requires s.sys.ops[i].host == Some(h) && s.sys.ops[i].phase.Begun?
    requires Upgradable(s.sys.world, s.sys.ops[i].request, current, layout)
    requires EntryFor(s.sys.world.impls, s.sys.ops[i].request.v.version).None? && Fresh(s.sys.world, target)
    ensures LooseRun(more, h) == Some(AfterSend(s, i, target, current, layout))
  {
    var r := s.sys.ops[i].request;
    var upgrade := Some(Upgrade(At(r, current), From(r, current, layout), Plan5));
    var w := WithTarget(s.sys.world, r.v, target);
    more := UpgradeGetsQueued(events, s, h, i, current, layout);
    more := Take(more, s, h, i, Queued(Uups, upgrade), s.sys.world, Fetching(Deploys(target)), Fetched(Uups, upgrade, target), w);
    var u := Put(s, i, Fetched(Uups, upgrade, target), w);
    UpgradeSends(w, h, r, current, layout, target);
    var t;
    more, t := Next(more, u, Stepped(i, Completed), h);
    assert t.sys.ops == AfterSend(s, i, target, current, layout).sys.ops;
  }

  const A: Address := 1
  const P: Address := 2
  const OWNER: Address := 8
  const Uups1: Code := Code(1, Some(Dispatch.V5))
  const Uups2: Code := Code(2, Some(Dispatch.V5))
  const Uups3: Code := Code(3, Some(Dispatch.V5))
  const V1: Version := Version(Uups1, 0)
  const V2: Version := Version(Uups2, 0)
  const V3: Version := Version(Uups3, 0)
  const AdoptA: Request := ForceImport(Validated(V1, 10, {}, OnChange), P, None)
  const ToB: Request := UpgradeProxy(Validated(V2, 20, {10}, OnChange), P, false, OWNER)
  const ToC: Request := UpgradeProxy(Validated(V3, 30, {10}, OnChange), P, false, OWNER)

  const Code0: map<Address, Contract> := map[A := Implementation(Uups1), P := Proxy(A, None, OWNER)]
  const World0: World := World(Code0, [], [], [], map[])
  const Layouts1: seq<ImplEntry> := [ImplEntry(V1, A, {}, 10)]
  const World1: World := World(Code0, [], [], Layouts1, map[P := Uups])

  /** One settled call, and operation `op` at the head of the list. */
  ghost function After(h: Host, ops: seq<Safety.Op>, w: World, calls: seq<Serialize.Call>, tail: nat, senders: seq<nat>): Upgrades.State {
    State(Safety.System(w, ops), Serialize.State(calls, map[h := tail]), senders)
  }

  const Ok0: Serialize.Body := Serialize.Settled(Serialize.Fulfilled)

  function CallAt(h: Host, pred: Option<nat>, body: Serialize.Body): Serialize.Call {
    Serialize.Call(Some(h), pred, None, {}, body)
  }

  /** The mutex's side of a call issued behind a settled one, and of its start. */
  lemma SlotClaimed(h: Host, calls: seq<Serialize.Call>)
    requires |calls| > 0 && calls[|calls| - 1].body.Settled?
    ensures var n := |calls|;
            var was := Serialize.State(calls, map[h := n - 1]);
            var waiting := Serialize.State(calls + [CallAt(h, Some(n - 1), Serialize.Waiting)], map[h := n]);
            && Serialize.CanIssue(was, None) && Serialize.Issue(was, None, Some(h)) == (waiting, Serialize.Accepted(n))
            && Serialize.CanStart(waiting, n)
            && Serialize.Start(waiting, n) == Serialize.State(calls + [CallAt(h, Some(n - 1), Serialize.Active)], map[h := n])
  {
    var n := |calls|;
    var waiting := calls + [CallAt(h, Some(n - 1), Serialize.Waiting)];
    assert map[h := n - 1][h := n] == map[h := n];
    assert waiting[n - 1] == calls[n - 1];
    assert waiting[n := CallAt(h, Some(n - 1), Serialize.Active)] == calls + [CallAt(h, Some(n - 1), Serialize.Active)];
  }

  /** A call issued behind a settled one, and started. */
  lemma Begins(events: seq<Upgrades.Event>, h: Host, ops: seq<Safety.Op>, w: World, calls: seq<Serialize.Call>, senders: seq<nat>, r: Request)
    returns (more: seq<Upgrades.Event>)
    requires |ops| == |calls| > 0 && calls[|calls| - 1].body.Settled?
    requires LooseRun(events, h) == Some(After(h, ops, w, calls, |calls| - 1, senders))
    ensures LooseRun(more, h) ==
            Some(After(h, ops + [Safety.Op(Some(h), r, Begun)], w, calls + [CallAt(h, Some(|calls| - 1), Serialize.Active)], |calls|, senders))
  {
    var s := After(h, ops, w, calls, |calls| - 1, senders);
    SlotClaimed(h, calls);
    more, s := Next(events, s, Issued(None, Some(h), r), h);
    more, s := Next(more, s, Started(|calls|), h);
  }

  ghost function Adopting(p: Phase, w: World): Upgrades.State {
    After(0, [Safety.Op(Some(0), AdoptA, p)], w, [CallAt(0, None, Serialize.Active)], 0, [])
  }

  /** Someone deploys an implementation and a UUPS proxy of it; an adoption of the proxy begins. */
  lemma AdoptionBegins() returns (events: seq<Upgrades.Event>)
    ensures LooseRun(events, 0) == Some(Adopting(Begun, World0))
  {
    var s := Upgrades.Initial;
    events, s := Next([], s, Outside(Safety.DeployedOutside(A, Implementation(Uups1))), 0);
    events, s := Next(events, s, Outside(Safety.DeployedOutside(P, Proxy(A, None, OWNER))), 0);
    assert s.sys.world == World0;
    events, s := Next(events, s, Issued(None, Some(0), AdoptA), 0);
    assert s.sys == Safety.System(World0, [Safety.Op(Some(0), AdoptA, Begun)]);
    assert s.sched == Serialize.State([CallAt(0, None, Serialize.Active)], map[0 := 0]);
  }

  lemma AdoptStep(events: seq<Upgrades.Event>, p: Phase, u: World, q: Phase, w: World) returns (more: seq<Upgrades.Event>)
    requires LooseRun(events, 0) == Some(Adopting(p, u)) && Safety.Steppable(u, p)
    requires Advance(u, Some(0), AdoptA, p, Completed) == (q, w) && |w.txs| == |u.txs|
    ensures LooseRun(more, 0) == Some(Adopting(q, w))
  {
    var base := Adopting(p, u);
    assert base == Put(base, 0, p, u);
    more := Take(events, base, 0, 0, p, u, Completed, q, w);
    assert Put(base, 0, q, w).sys.ops == Adopting(q, w).sys.ops;
  }

  lemma AdoptChecks()
    ensures var found := FoundProxy(Uups);
            && Advance(World0, Some(0), AdoptA, Begun, Completed) == (Classified(found, A), World0)
            && Advance(World0, Some(0), AdoptA, Classified(found, A), Completed) == (CodeMatched(found, A), World0)
            && Advance(World0, Some(0), AdoptA, CodeMatched(found, A), Completed) == (KindAgreed(found, A, true), World0)
            && Advance(World0, Some(0), AdoptA, KindAgreed(found, A, true), Completed)
               == (LayoutStored(found, A, true), World0.(impls := Layouts1))
            && Advance(World0.(impls := Layouts1), Some(0), AdoptA, LayoutStored(found, A, true), Completed)
               == (Done(P, A, None), World1)
  {
  }

  lemma Adopted() returns (events: seq<Upgrades.Event>)
    ensures LooseRun(events, 0) == Some(After(0, [Op0], World1, [Call0], 0, []))
  {
    var found := FoundProxy(Uups);
    var stored := World0.(impls := Layouts1);
    AdoptChecks();
    events := AdoptionBegins();
    events := AdoptStep(events, Begun, World0, Classified(found, A), World0);
    events := AdoptStep(events, Classified(found, A), World0, CodeMatched(found, A), World0);
    events := AdoptStep(events, CodeMatched(found, A), World0, KindAgreed(found, A, true), World0);
    events := AdoptStep(events, KindAgreed(found, A, true), World0, LayoutStored(found, A, true), stored);
    events := AdoptStep(events, LayoutStored(found, A, true), stored, Done(P, A, None), World1);
    var s := Adopting(Done(P, A, None), World1);
    assert Serialize.Settle(s.sched, 0, true).calls == [Call0];
    events, s := Next(events, s, Returned(0), 0);
  }

  const World2: World := World(
    Code0[3 := Implementation(Uups2)], [Tx(Repoint(P, 3, Basis(A, 10, {10}), CallOf(OWNER, P, 3)), Pending)], [],
    Layouts1 + [ImplEntry(V2, 3, {}, 20)], map[P := Uups])

  const Op0: Safety.Op := Safety.Op(Some(0), AdoptA, Done(P, A, None))
  const Op1: Safety.Op := Safety.Op(Some(0), ToB, Failed(Indeterminate(0, None)))
  const Call0: Serialize.Call := CallAt(0, None, Ok0)
  const Call1: Serialize.Call := CallAt(0, Some(0), Serialize.Settled(Serialize.Rejected(1)))

  ghost function Queued1(): seq<Safety.Op> { [Op0, Safety.Op(Some(0), ToB, Begun)] }

  ghost function Queued2(): seq<Safety.Op> { [Op0, Op1, Safety.Op(Some(0), ToC, Begun)] }

  lemma FirstSend()
    ensures WithTarget(World1, ToB.v, 3).impls == World2.impls
    ensures WithTarget(World1, ToB.v, 3) == World2.(txs := [])
    ensures Upgradable(World1, ToB, A, 10) && Fresh(World1, 3) && EntryFor(World1.impls, V2).None?
  {
    assert World1.impls[1..] == [];
    assert StoreImpl([], V2, 3, 20) == [ImplEntry(V2, 3, {}, 20)];
    assert StoreImpl(Layouts1, V2, 3, 20) == [Layouts1[0]] + StoreImpl(Layouts1[1..], V2, 3, 20);
    assert StoreImpl(World1.impls, V2, 3, 20) == World2.impls;
  }

  lemma SecondSend()
    ensures Upgradable(World2, ToC, A, 10) && Fresh(World2, 4) && EntryFor(World2.impls, V3).None?
    ensures WithTarget(World2, ToC.v, 4).impls == World2.impls + [ImplEntry(V3, 4, {}, 30)]
  {
    var e := ImplEntry(V2, 3, {}, 20);
    assert World2.impls[1..] == [e];
    assert World2.impls[1..][1..] == [];
    assert StoreImpl([], V3, 4, 30) == [ImplEntry(V3, 4, {}, 30)];
    assert StoreImpl([e], V3, 4, 30) == [e, ImplEntry(V3, 4, {}, 30)] by { assert [e][1..] == []; }
    assert StoreImpl(World2.impls, V3, 4, 30) == [World2.impls[0]] + StoreImpl([e], V3, 4, 30);
  }

  ghost function GivingUp(p: Phase): Upgrades.State {
    After(0, [Op0, Safety.Op(Some(0), ToB, p)], World2, [Call0, CallAt(0, Some(0), Serialize.Active)], 1, [1])
  }

  ghost function Upgrading(): Upgrades.State {
    After(0, Queued1(), World1, [Call0, CallAt(0, Some(0), Serialize.Active)], 1, [])
  }

  lemma FirstBegins() returns (events: seq<Upgrades.Event>)
    ensures LooseRun(events, 0) == Some(Upgrading())
  {
    events := Adopted();
    events := Begins(events, 0, [Op0], World1, [Call0], [], ToB);
    assert [Op0] + [Safety.Op(Some(0), ToB, Begun)] == Queued1();
    assert [Call0] + [CallAt(0, Some(0), Serialize.Active)] == [Call0, CallAt(0, Some(0), Serialize.Active)];
  }

  lemma FirstSendGivesUp()
    ensures AfterSend(Upgrading(), 1, 3, A, 10) == GivingUp(Sent(Uups, P, 3, 0))
  {
    FirstSend();
    var t := AfterSend(Upgrading(), 1, 3, A, 10);
    assert t.sys.world == World2;
    assert t.sys.ops == GivingUp(Sent(Uups, P, 3, 0)).sys.ops;
  }

  /** The first upgrade sends its call. */
  lemma FirstSent() returns (events: seq<Upgrades.Event>)
    ensures LooseRun(events, 0) == Some(GivingUp(Sent(Uups, P, 3, 0)))
  {
    events := FirstBegins();
    FirstSend();
    FirstSendGivesUp();
    events := UpgradeGetsSent(events, Upgrading(), 0, 1, 3, A, 10);
  }

  /** It hears no receipt, and returns. */
  lemma GaveUp() returns (events: seq<Upgrades.Event>)
    ensures LooseRun(events, 0) == Some(After(0, [Op0, Op1], World2, [Call0, Call1], 1, [1]))
  {
    var t, u := GivingUp(Sent(Uups, P, 3, 0)), GivingUp(Failed(Indeterminate(0, None)));
    events := FirstSent();
    assert t == Put(t, 1, Sent(Uups, P, 3, 0), World2);
    events := Take(events, t, 0, 1, Sent(Uups, P, 3, 0), World2, Receipt(false), Failed(Indeterminate(0, None)), World2);
    assert Put(t, 1, Failed(Indeterminate(0, None)), World2).sys.ops == u.sys.ops;
    assert Serialize.Settle(u.sched, 1, false).calls == [Call0, Call1];
    events, u := Next(events, u, Returned(1), 0);
  }

  /**
   Without finality the guarantee fails, on one deployer and under the mutex: the first upgrade gives
   up waiting and returns, the second compares the same old implementation, and then both calls land.
   The second replaces an implementation whose stored layout its own storage report does not accept.
   */
  lemma FinalityIsNeeded() returns (events: seq<Upgrades.Event>)
    ensures LooseRun(events, 0).Some?
    ensures var w := LooseRun(events, 0).value.sys.world;
            && |w.swaps| == 2
            && var x := w.swaps[1];
            && x.at == P && x.previous != x.basis.current
            && StoredLayout(w.impls, x.previous).Some?
            && StoredLayout(w.impls, x.previous).value !in x.basis.accepts
  {
    events := GaveUp();
    events := Begins(events, 0, [Op0, Op1], World2, [Call0, Call1], [1], ToC);
    var calls := [Call0, Call1, CallAt(0, Some(1), Serialize.Active)];
    var s := After(0, Queued2(), World2, calls, 2, [1]);
    assert [Op0, Op1] + [Safety.Op(Some(0), ToC, Begun)] == Queued2();
    assert [Call0, Call1] + [CallAt(0, Some(1), Serialize.Active)] == calls;
    SecondSend();
    events := UpgradeGetsSent(events, s, 0, 2, 4, A, 10);
    BothLand(events, s);
    var t := AfterSend(s, 2, 4, A, 10);
    events, s := Next(events, t, Outside(Safety.Mined(0, true)), 0);
    events, s := Next(events, s, Outside(Safety.Mined(1, true)), 0);
  }

  lemma BothLand(events: seq<Upgrades.Event>, s: Upgrades.State)
    requires |s.sys.ops| == 3 && s.sys.ops[2].request == ToC && s.sys.world == World2
    ensures var w := AfterSend(s, 2, 4, A, 10).sys.world;
            && CanMine(w, 0) && CanMine(Mine(w, 0, true), 1)
            && var z := Mine(Mine(w, 0, true), 1, true);
            && |z.swaps| == 2 && z.swaps[1] == Swap(P, 3, 4, Basis(A, 10, {10}))
            && StoredLayout(z.impls, 3) == Some(20)
  {
    var w := AfterSend(s, 2, 4, A, 10).sys.world;
    SecondSend();
    assert w.impls[1..] == [ImplEntry(V2, 3, {}, 20), ImplEntry(V3, 4, {}, 30)];
  }
}
