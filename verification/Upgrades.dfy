/**
 Upgrades under the mutex: with every operation issued on one deployer (or with none), and every
 transaction final when its operation returns, what an upgrade compared is what it replaces.
 */
module Upgrades {
  import opened Wrappers
  import opened World
  import opened Operations
  import Safety
  import Dispatch
  import Serialize

  /** `senders[t]` is the operation that sent transaction `t`. */
  datatype State = State(sys: Safety.System, sched: Serialize.State, senders: seq<nat>)

  datatype Event =
    | Issued(issuer: Option<nat>, host: Option<Host>, request: Request)
    | Started(i: nat)
    | Stepped(i: nat, answer: Answer)
    | Returned(i: nat)
    | Outside(e: Safety.Event)

  const Initial: State := State(Safety.Initial, Serialize.Initial, [])

  ghost predicate Final(s: State, i: nat) {
    forall t | 0 <= t < |s.senders| && s.senders[t] == i :: t < |s.sys.world.txs| && !s.sys.world.txs[t].status.Pending?
  }

  ghost predicate Active(s: State, i: nat) {
    i < |s.sys.ops| && i < |s.sched.calls| && s.sched.calls[i].body.Active?
  }

  /** `h` is the one deployer of the run. */
  ghost predicate Enabled(s: State, e: Event, h: Host) {
    match e
    case Issued(issuer, host, _) => Serialize.CanIssue(s.sched, issuer) && (host.Some? ==> host.value == h)
    case Started(i) => Serialize.CanStart(s.sched, i)
    case Stepped(i, a) => Active(s, i) && Safety.Enabled(s.sys, Safety.Stepped(i, a))
    case Returned(i) =>
      && Active(s, i) && Operations.Final(s.sys.ops[i].phase) && Final(s, i)
      && Serialize.CanSettle(s.sched, i)
    case Outside(x) => !x.Issued? && !x.Stepped? && Safety.Enabled(s.sys, x)
  }

  ghost function Apply(s: State, e: Event, h: Host): State
    requires Enabled(s, e, h)
  {
    match e
    case Issued(issuer, host, request) =>
      var (sched, reply) := Serialize.Issue(s.sched, issuer, host);
      if reply.NestedOperation? then s
      else s.(sys := Safety.Apply(s.sys, Safety.Issued(host, request)), sched := sched)
    case Started(i) => s.(sched := Serialize.Start(s.sched, i))
    case Stepped(i, a) =>
      var sys := Safety.Apply(s.sys, Safety.Stepped(i, a));
      State(sys, s.sched, if |sys.world.txs| > |s.sys.world.txs| then s.senders + [i] else s.senders)
    case Returned(i) => s.(sched := Serialize.Settle(s.sched, i, s.sys.ops[i].phase.Done?))
    case Outside(x) => s.(sys := Safety.Apply(s.sys, x))
  }

  ghost function Run(events: seq<Event>, h: Host): Option<State>
    decreases |events|
  {
    if events == [] then Some(Initial)
    else
      var before := Run(events[..|events| - 1], h);
      var e := events[|events| - 1];
      if before.Some? && Enabled(before.value, e, h) then Some(Apply(before.value, e, h)) else None
  }

  // ---------- the stored layout of an implementation ----------

  ghost predicate Lists(impls: seq<ImplEntry>, a: Address, layout: Layout) {
    exists e <- impls :: Answers(e, a) && e.layout == layout
  }

  lemma {:induction false} LookupLists(impls: seq<ImplEntry>, a: Address)
    requires StoredLayout(impls, a).Some?
    ensures Lists(impls, a, StoredLayout(impls, a).value)
  {
    if Answers(impls[0], a) {
      assert impls[0] in impls;
    } else {
      LookupLists(impls[1..], a);
      var e :| e in impls[1..] && Answers(e, a) && e.layout == StoredLayout(impls, a).value;
      assert e in impls;
    }
  }

  lemma {:induction false} StoreKeepsEntry(impls: seq<ImplEntry>, v: Version, b: Address, layout: Layout, e: ImplEntry)
    requires e in impls
    ensures exists f <- StoreImpl(impls, v, b, layout) ::
              f.layout == e.layout && forall a: Address :: Answers(e, a) ==> Answers(f, a)
  {
    var r := StoreImpl(impls, v, b, layout);
    if impls[0].version == v {
      if e == impls[0] {
        assert r[0] in r;
      } else {
        assert e in impls[1..] && e in r;
      }
    } else if e == impls[0] {
      assert r[0] == e && r[0] in r;
    } else {
      assert e in impls[1..];
      StoreKeepsEntry(impls[1..], v, b, layout, e);
      var f :| f in StoreImpl(impls[1..], v, b, layout) && f.layout == e.layout && forall a: Address :: Answers(e, a) ==> Answers(f, a);
      assert f in r;
    }
  }

  /** What every step but a mined transaction leaves alone. */
  ghost predicate Frame(w: World, u: World) {
    && (forall at: Address :: Live(w.code, at).Some? ==> Live(u.code, at) == Live(w.code, at))
    && (forall a <- w.code :: a in u.code && Nature(u.code[a]) == Nature(w.code[a]))
    && (forall a <- w.code, layout: Layout | Lists(w.impls, a, layout) :: Lists(u.impls, a, layout))
    && u.swaps == w.swaps
  }

  lemma StoreFrame(w: World, v: Validated, b: Address)
    ensures Frame(w, StoreFor(w, v, b))
  {
    forall a: Address, layout: Layout | Lists(w.impls, a, layout) ensures Lists(StoreFor(w, v, b).impls, a, layout) {
      var e :| e in w.impls && Answers(e, a) && e.layout == layout;
      StoreKeepsEntry(w.impls, v.version, b, v.layout, e);
    }
  }

  lemma DropFrame(w: World, k: nat)
    requires CanDrop(w, k)
    ensures Frame(w, Drop(w, k))
  {
    forall a <- w.code, layout: Layout | Lists(w.impls, a, layout) ensures Lists(Drop(w, k).impls, a, layout) {
      var e :| e in w.impls && Answers(e, a) && e.layout == layout;
      var j :| 0 <= j < |w.impls| && w.impls[j] == e;
      assert j != k;
      assert Drop(w, k).impls[if j < k then j else j - 1] == e;
    }
  }

  lemma NewCodeFrame(w: World, at: Address, c: Contract)
    requires at !in w.code
    ensures Frame(w, w.(code := w.code[at := c]))
  {
    assert forall x: Address | x != at :: Live(w.code[at := c], x) == Live(w.code, x);
  }

  lemma HandOverFrame(w: World, at: Address, owner: Address)
    requires CanHandOver(w, at)
    ensures Frame(w, HandOver(w, at, owner))
  {
    assert forall x: Address :: Live(HandOver(w, at, owner).code, x) == Live(w.code, x);
  }

  lemma FrameTransitive(w: World, u: World, x: World)
    requires Frame(w, u) && Frame(u, x)
    ensures Frame(w, x)
  {
  }

  lemma FetchFrame(w: World, v: Validated, f: FetchAnswer)
    ensures Frame(w, FetchOrDeploy(w, v, f).1) && FetchOrDeploy(w, v, f).1.txs == w.txs
  {
    match f
    case Reuse =>
    case Deploys(at) => if Fresh(w, at) { DeployFrame(w, v, at); }
    case DropsThenDeploys(at) =>
      var k := EntryFor(w.impls, v.version);
      if k.Some? && CanDrop(w, k.value) && Fresh(w, at) {
        DropFrame(w, k.value);
        DeployFrame(Drop(w, k.value), v, at);
        FrameTransitive(w, Drop(w, k.value), StoreFor(DeployImpl(Drop(w, k.value), v, at), v, at));
      }
    case DeploysUnstored(at, _) => if Fresh(w, at) { DeployFrame(w, v, at); }
    case StoresUnconfirmed(at, landed) => if Fresh(w, at) { DeployFrame(w, v, at); StoreFrame(w, v, at); }
    case EngineFault =>
  }

  lemma DeployFrame(w: World, v: Validated, at: Address)
    requires Fresh(w, at)
    ensures Frame(w, DeployImpl(w, v, at)) && Frame(w, StoreFor(DeployImpl(w, v, at), v, at))
  {
    NewCodeFrame(w, at, Implementation(v.version.code));
    StoreFrame(DeployImpl(w, v, at), v, at);
    FrameTransitive(w, DeployImpl(w, v, at), StoreFor(DeployImpl(w, v, at), v, at));
  }

  /** An operation sends at most one transaction, in one step, and only with a deployer. */
  ghost predicate Sends(p: Phase, w: World, u: World) {
    && |u.txs| == |w.txs| + 1 && u.txs[..|w.txs|] == w.txs && u.txs[|w.txs|].status.Pending?
    && p.Fetched?
    && var e := u.txs[|w.txs|].effect;
    (e.Repoint? ==> p.upgrade.Some? && e.at == p.upgrade.value.t.at && e.basis == p.upgrade.value.basis)
  }

  lemma ImportFrame(w: World, r: Request, p: Phase, a: Answer)
    requires r.ForceImport? && !Operations.Final(p)
    ensures var u := AdvanceImport(w, r, p, a).1; Frame(w, u) && u.txs == w.txs
  {
    if p.KindAgreed? { StoreFrame(w, r.v, p.implementation); }
  }

  lemma FetchStepFrame(w: World, r: Request, p: Phase, a: Answer)
    requires !r.ForceImport? && p.Queued?
    ensures var u := AdvanceSend(w, r, p, a).1; Frame(w, u) && u.txs == w.txs
  {
    if !r.DeployBeaconProxy? && a.Fetching? { FetchFrame(w, r.v, a.fetch); }
  }

  lemma SpendFrame(w: World, r: Request, p: Phase, a: Answer)
    requires !r.ForceImport? && p.Fetched?
    ensures var u := AdvanceSend(w, r, p, a).1; Frame(w, u) && (u.txs == w.txs || Sends(p, w, u))
  {
  }

  lemma SettleFrame(w: World, r: Request, p: Phase, a: Answer)
    requires !r.ForceImport? && (p.Sent? || p.Confirmed? || p.Checked?) && p.tx < |w.txs|
    ensures var u := AdvanceSettle(w, r, p, a).1; Frame(w, u) && u.txs == w.txs
  {
  }

  lemma AdvanceFrame(w: World, host: Option<Host>, r: Request, p: Phase, a: Answer)
    requires Safety.Steppable(w, p)
    ensures var u := Advance(w, host, r, p, a).1;
            Frame(w, u) && (u.txs == w.txs || Sends(p, w, u))
  {
    if r.ForceImport? { ImportFrame(w, r, p, a); }
    else if PreQueue(p) { }
    else if p.Queued? { FetchStepFrame(w, r, p, a); }
    else if p.Fetched? { SpendFrame(w, r, p, a); }
    else if p.Sent? || p.Confirmed? || p.Checked? { SettleFrame(w, r, p, a); }
  }

  // ---------- the invariant ----------

  ghost predicate BasisOk(w: World, at: Address, b: Basis) {
    && Live(w.code, at) == Some(b.current)
    && b.layout in b.accepts
    && Lists(w.impls, b.current, b.layout)
  }

  ghost predicate CurrentOk(w: World, p: Phase) {
    match p
    case SlotsRead(t) => Live(w.code, t.at) == Some(t.current)
    case KindKnown(t, _) => Live(w.code, t.at) == Some(t.current)
    case LayoutFound(t, _, layout) => Live(w.code, t.at) == Some(t.current) && Lists(w.impls, t.current, layout)
    case Compared(t, _, basis) => BasisOk(w, t.at, basis)
    case Queued(kind, upgrade) =>
      upgrade.Some? ==> BasisOk(w, upgrade.value.t.at, upgrade.value.basis) && PlanHolds(w, kind, upgrade.value)
    case Fetched(kind, upgrade, _) =>
      upgrade.Some? ==> BasisOk(w, upgrade.value.t.at, upgrade.value.basis) && PlanHolds(w, kind, upgrade.value)
    case _ => true
  }

  /** The plan still fits the ProxyAdmin or the implementation it was made for; of an admin without code it assumed the old generation. */
  ghost predicate PlanHolds(w: World, kind: Kind, u: Upgrade) {
    u.plan.Some? ==>
      var route := u.plan.value.route;
      if kind == Transparent then
        u.t.admin.Some? &&
        if u.t.admin.value !in w.code then route.AdminV4?
        else w.code[u.t.admin.value].ProxyAdmin? ==>
               Dispatch.VersionOfRoute(route) == Dispatch.VersionOf(w.code[u.t.admin.value].generation) || route.AdminV4?
      else Dispatch.VersionOfRoute(route) == UupsVersion(w.code, u.basis.current)
  }

  lemma PlanFrame(w: World, u: World, kind: Kind, x: Upgrade)
    requires Frame(w, u) && PlanHolds(w, kind, x) && x.basis.current in w.code
    ensures PlanHolds(u, kind, x)
  {
    if x.t.admin.Some? && x.t.admin.value in w.code {
      assert Nature(u.code[x.t.admin.value]) == Nature(w.code[x.t.admin.value]);
    }
    assert Nature(u.code[x.basis.current]) == Nature(w.code[x.basis.current]);
  }

  ghost predicate CallOk(s: State, i: nat, h: Host)
    requires i < |s.sys.ops| && i < |s.sched.calls|
  {
    var op := s.sys.ops[i];
    && op.host == s.sched.calls[i].host && (op.host.Some? ==> op.host.value == h)
    && (s.sched.calls[i].body.Waiting? ==> op.phase.Begun?)
    && (op.phase.Queued? || op.phase.Fetched? || op.phase.Sent? || op.phase.Confirmed? || op.phase.Checked? ==> op.host.Some?)
    && (op.phase.Judged? || op.phase.Vouched? ==> op.host.Some?)
    && (op.request.UpgradeProxy? && !op.phase.Begun? && !Operations.Final(op.phase) ==> op.host.Some?)
    && (BeforeSend(op.phase) ==> forall t | 0 <= t < |s.senders| :: s.senders[t] != i)
    && (op.host.Some? && s.sched.calls[i].body.Active? ==> CurrentOk(s.sys.world, op.phase))
  }

  ghost predicate TxOk(s: State, t: nat)
    requires t < |s.senders| && t < |s.sys.world.txs|
  {
    var tx := s.sys.world.txs[t];
    && s.senders[t] < |s.sys.ops| && s.sys.ops[s.senders[t]].host.Some?
    && (tx.status.Pending? ==> Active(s, s.senders[t]))
    && (tx.status.Pending? && tx.effect.Repoint? ==> BasisOk(s.sys.world, tx.effect.at, tx.effect.basis))
    && forall u | 0 <= u < |s.senders| && s.senders[u] == s.senders[t] :: u == t
  }

  ghost predicate SwapOk(w: World, x: Swap) {
    && x.previous == x.basis.current && x.previous in w.code
    && x.basis.layout in x.basis.accepts
    && Lists(w.impls, x.previous, x.basis.layout)
  }

  ghost predicate Inv(s: State, h: Host) {
    && Safety.Inv(s.sys) && Serialize.Inv(s.sched)
    && |s.sys.ops| == |s.sched.calls| && |s.senders| == |s.sys.world.txs|
    && (forall i | 0 <= i < |s.sys.ops| :: CallOk(s, i, h))
    && (forall t | 0 <= t < |s.senders| :: TxOk(s, t))
    && (forall x <- s.sys.world.swaps :: SwapOk(s.sys.world, x))
  }

  /** At most one keyed operation is active. */
  lemma OneActive(s: State, h: Host, i: nat, j: nat)
    requires Inv(s, h) && Active(s, i) && Active(s, j)
    requires s.sys.ops[i].host.Some? && s.sys.ops[j].host.Some?
    ensures i == j
  {
    assert CallOk(s, i, h) && CallOk(s, j, h);
    assert Serialize.PairOk(s.sched, i, j) && Serialize.PairOk(s.sched, j, i);
  }

  /** While an operation has sent nothing, no transaction is pending. */
  lemma NothingPending(s: State, h: Host, i: nat, t: nat)
    requires Inv(s, h) && Active(s, i) && s.sys.ops[i].host.Some? && BeforeSend(s.sys.ops[i].phase)
    requires t < |s.senders|
    ensures !s.sys.world.txs[t].status.Pending?
  {
    assert TxOk(s, t) && CallOk(s, i, h);
    if s.sys.world.txs[t].status.Pending? { OneActive(s, h, i, s.senders[t]); }
  }

  lemma BasisFrame(w: World, u: World, at: Address, b: Basis)
    requires Sound(w) && Frame(w, u) && BasisOk(w, at, b)
    ensures BasisOk(u, at, b)
  {
    assert b.current in w.code;
  }

  lemma CurrentFrame(w: World, u: World, p: Phase)
    requires Sound(w) && Frame(w, u) && CurrentOk(w, p)
    ensures CurrentOk(u, p)
  {
    match p
    case Compared(t, _, basis) => BasisFrame(w, u, t.at, basis);
    case Queued(kind, x) => if x.Some? { BasisFrame(w, u, x.value.t.at, x.value.basis); PlanFrame(w, u, kind, x.value); }
    case Fetched(kind, x, _) => if x.Some? { BasisFrame(w, u, x.value.t.at, x.value.basis); PlanFrame(w, u, kind, x.value); }
    case LayoutFound(t, _, _) => assert t.current in w.code;
    case _ =>
  }

  lemma UpgradeReadsCurrent(w: World, host: Option<Host>, r: Request, p: Phase, a: Answer)
    requires CurrentOk(w, p) && PreQueue(p) && (r.UpgradeProxy? || r.UpgradeBeacon?) && Safety.OpOk(w, r, p)
    ensures CurrentOk(w, Advance(w, host, r, p, a).0)
  {
    if p.KindKnown? && StoredLayout(w.impls, p.t.current).Some? { LookupLists(w.impls, p.t.current); }
  }

  function Stage(p: Phase): nat {
    if PreQueue(p) then 0
    else if p.Queued? then 1
    else if p.Fetched? then 2
    else if p.Sent? then 3
    else if p.Confirmed? then 4
    else if p.Checked? then 5
    else 6
  }

  lemma PreQueueOrder(w: World, host: Option<Host>, r: Request, p: Phase, a: Answer)
    requires PreQueue(p) && !r.ForceImport?
    ensures Stage(Advance(w, host, r, p, a).0) in {0, 1, 6}
  {
    if r.UpgradeProxy? { var q := AdvanceUpgradeProxy(w, host, r, p, a); }
    else if r.UpgradeBeacon? { var q := AdvanceUpgradeBeacon(w, host, r, p, a); }
    else if r.DeployProxy? { var q := AdvanceDeployProxy(w, host, r, p, a); }
    else { var q := AdvanceBeaconCreation(w, host, r, p, a); }
  }

  lemma ImportOrder(w: World, r: Request, p: Phase, a: Answer)
    requires r.ForceImport? && !Operations.Final(p)
    ensures Stage(AdvanceImport(w, r, p, a).0) == 6
  {
  }

  lemma SpendOrder(w: World, r: Request, p: Phase, a: Answer)
    requires !r.ForceImport? && (p.Queued? || p.Fetched?)
    ensures var (q, u) := AdvanceSend(w, r, p, a);
            Stage(q) in {Stage(p) + 1, 6} && (BeforeSend(q) ==> p.Queued?)
  {
  }

  lemma SettleOrder(w: World, r: Request, p: Phase, a: Answer)
    requires !r.ForceImport? && (p.Sent? || p.Confirmed? || p.Checked?) && p.tx < |w.txs|
    ensures Stage(AdvanceSettle(w, r, p, a).0) in {Stage(p) + 1, 6}
  {
  }

  /** The order of the phases: an operation sends from one phase only, and never goes back before it. */
  lemma PhaseOrder(w: World, host: Option<Host>, r: Request, p: Phase, a: Answer)
    requires Safety.Steppable(w, p)
    ensures var (q, u) := Advance(w, host, r, p, a);
            && ((PreQueue(p) && Stage(q) in {0, 1, 6}) || Stage(q) == Stage(p) + 1 || Stage(q) == 6)
            && (BeforeSend(q) ==> u.txs == w.txs)
  {
    if r.ForceImport? {
      ImportOrder(w, r, p, a);
    } else if PreQueue(p) {
      PreQueueOrder(w, host, r, p, a);
    } else if p.Queued? || p.Fetched? {
      SpendOrder(w, r, p, a);
      if p.Queued? { FetchStepFrame(w, r, p, a); }
    } else if p.Sent? || p.Confirmed? || p.Checked? {
      SettleOrder(w, r, p, a);
    }
  }

  /** Only an operation with a deployer handle reaches its queued step: the deployer gate comes before it. */
  lemma QueueNeedsDeployer(w: World, host: Option<Host>, r: Request, p: Phase, a: Answer)
    requires Safety.Steppable(w, p) && PreQueue(p) && Safety.OpOk(w, r, p) && (r.UpgradeProxy? && !p.Begun? ==> host.Some?)
    requires p.Judged? || p.Vouched? ==> host.Some?
    ensures var q := Advance(w, host, r, p, a).0; q.Queued? || q.Judged? || q.Vouched? ==> host.Some?
    ensures r.UpgradeProxy? && !Operations.Final(Advance(w, host, r, p, a).0) ==> host.Some?
  {
  }

  /** The step that moves an operation on reads its baseline from the world as it is. */
  lemma AdvanceCurrent(w: World, host: Option<Host>, r: Request, p: Phase, a: Answer)
    requires Sound(w) && Safety.Steppable(w, p) && CurrentOk(w, p) && Safety.OpOk(w, r, p)
    ensures CurrentOk(Advance(w, host, r, p, a).1, Advance(w, host, r, p, a).0)
  {
    if PreQueue(p) && !r.ForceImport? {
      ChecksReadCurrent(w, host, r, p, a);
    } else if p.Queued? && !r.ForceImport? {
      FetchKeepsCurrent(w, r, p, a);
    } else {
      PhaseOrder(w, host, r, p, a);
      LaterIsCurrent(Advance(w, host, r, p, a).1, Advance(w, host, r, p, a).0);
    }
  }

  lemma LaterIsCurrent(w: World, p: Phase)
    requires Stage(p) >= 3
    ensures CurrentOk(w, p)
  {
  }

  lemma ChecksReadCurrent(w: World, host: Option<Host>, r: Request, p: Phase, a: Answer)
    requires CurrentOk(w, p) && PreQueue(p) && !r.ForceImport? && Safety.OpOk(w, r, p)
    ensures CurrentOk(w, Advance(w, host, r, p, a).0)
  {
    if r.UpgradeProxy? || r.UpgradeBeacon? { UpgradeReadsCurrent(w, host, r, p, a); }
    else if r.DeployProxy? { var q := AdvanceDeployProxy(w, host, r, p, a); }
    else { var q := AdvanceBeaconCreation(w, host, r, p, a); }
  }

  lemma FetchKeepsCurrent(w: World, r: Request, p: Phase, a: Answer)
    requires Sound(w) && !r.ForceImport? && p.Queued? && CurrentOk(w, p)
    ensures var (q, u) := AdvanceSend(w, r, p, a); CurrentOk(u, q)
  {
    FetchStepFrame(w, r, p, a);
    CurrentFrame(w, AdvanceSend(w, r, p, a).1, p);
  }

  // ---------- every step keeps the invariant ----------

  /** The world moved on without a transaction landing and nothing else changed. */
  lemma WorldFrameKeepsInv(s: State, t: State, h: Host)
    requires Inv(s, h) && t == s.(sys := t.sys) && t.sys.ops == s.sys.ops
    requires Safety.Inv(t.sys) && Frame(s.sys.world, t.sys.world) && t.sys.world.txs == s.sys.world.txs
    ensures Inv(t, h)
  {
    var w, u := s.sys.world, t.sys.world;
    forall i | 0 <= i < |t.sys.ops| ensures CallOk(t, i, h) {
      assert CallOk(s, i, h);
      if CurrentOk(w, s.sys.ops[i].phase) { CurrentFrame(w, u, s.sys.ops[i].phase); }
    }
    forall k | 0 <= k < |t.senders| ensures TxOk(t, k) {
      assert TxOk(s, k);
      var tx := w.txs[k];
      if tx.status.Pending? && tx.effect.Repoint? { BasisFrame(w, u, tx.effect.at, tx.effect.basis); }
    }
  }

  lemma StartedKeepsInv(s: State, i: nat, h: Host)
    requires Inv(s, h) && Enabled(s, Started(i), h)
    ensures Inv(Apply(s, Started(i), h), h)
  {
    var t := Apply(s, Started(i), h);
    Serialize.StartKeepsInv(s.sched, i);
    forall k | 0 <= k < |t.sys.ops| ensures CallOk(t, k, h) { assert CallOk(s, k, h); }
    forall k | 0 <= k < |t.senders| ensures TxOk(t, k) { assert TxOk(s, k); }
  }

  lemma ReturnedKeepsInv(s: State, i: nat, h: Host)
    requires Inv(s, h) && Enabled(s, Returned(i), h)
    ensures Inv(Apply(s, Returned(i), h), h)
  {
    var t := Apply(s, Returned(i), h);
    Serialize.SettleKeepsInv(s.sched, i, s.sys.ops[i].phase.Done?);
    forall k | 0 <= k < |t.sys.ops| ensures CallOk(t, k, h) { assert CallOk(s, k, h); }
    forall k | 0 <= k < |t.senders| ensures TxOk(t, k) { assert TxOk(s, k); }
  }

  lemma IssuedKeepsInv(s: State, e: Event, h: Host)
    requires Inv(s, h) && e.Issued? && Enabled(s, e, h)
    ensures Inv(Apply(s, e, h), h)
  {
    var t := Apply(s, e, h);
    Serialize.IssueKeepsInv(s.sched, e.issuer, e.host);
    Safety.ApplyKeepsInv(s.sys, Safety.Issued(e.host, e.request));
    if t != s {
      forall k | 0 <= k < |t.sys.ops| ensures CallOk(t, k, h) {
        if k < |s.sys.ops| { assert CallOk(s, k, h); }
        else {
          forall x | 0 <= x < |t.senders| ensures t.senders[x] != k { assert TxOk(s, x); }
        }
      }
      forall k | 0 <= k < |t.senders| ensures TxOk(t, k) { assert TxOk(s, k); }
    }
  }

  lemma OutsideKeepsInv(s: State, x: Safety.Event, h: Host)
    requires Inv(s, h) && Enabled(s, Outside(x), h) && !x.Mined?
    ensures Inv(Apply(s, Outside(x), h), h)
  {
    Safety.ApplyKeepsInv(s.sys, x);
    if x.DeployedOutside? { NewCodeFrame(s.sys.world, x.at, x.contract); }
    else if x.LandedLate? { NewCodeFrame(s.sys.world, x.at, Implementation(s.sys.world.impls[x.k].version.code)); }
    else if x.HandedOver? { HandOverFrame(s.sys.world, x.at, x.owner); }
    else { DropFrame(s.sys.world, x.k); }
    WorldFrameKeepsInv(s, Apply(s, Outside(x), h), h);
  }

  /** Only the one pending transaction can land, and no operation is then between its baseline and its send. */
  lemma MinedKeepsInv(s: State, n: nat, ok: bool, h: Host)
    requires Inv(s, h) && CanMine(s.sys.world, n)
    ensures Inv(Apply(s, Outside(Safety.Mined(n, ok)), h), h)
  {
    var t := Apply(s, Outside(Safety.Mined(n, ok)), h);
    var w, u := s.sys.world, t.sys.world;
    Safety.ApplyKeepsInv(s.sys, Safety.Mined(n, ok));
    assert TxOk(s, n);
    forall k | 0 <= k < |t.sys.ops| ensures CallOk(t, k, h) {
      assert CallOk(s, k, h);
      if Active(s, k) && s.sys.ops[k].host.Some? && BeforeSend(s.sys.ops[k].phase) {
        NothingPending(s, h, k, n);
      }
    }
    forall k | 0 <= k < |t.senders| ensures TxOk(t, k) {
      assert TxOk(s, k);
      if w.txs[k].status.Pending? && k != n {
        OneActive(s, h, s.senders[k], s.senders[n]);
      }
    }
    forall x | x in u.swaps ensures SwapOk(u, x) {
      if x in w.swaps { assert SwapOk(w, x); }
    }
  }

  lemma SteppedKeepsCalls(s: State, i: nat, a: Answer, h: Host)
    requires Inv(s, h) && Enabled(s, Stepped(i, a), h)
    ensures var t := Apply(s, Stepped(i, a), h);
            forall k | 0 <= k < |t.sys.ops| :: CallOk(t, k, h)
  {
    var t := Apply(s, Stepped(i, a), h);
    var w, u := s.sys.world, t.sys.world;
    var op := s.sys.ops[i];
    assert op in s.sys.ops;
    assert CallOk(s, i, h);
    AdvanceFrame(w, op.host, op.request, op.phase, a);
    forall k | 0 <= k < |t.sys.ops| ensures CallOk(t, k, h) {
      assert CallOk(s, k, h);
      if k == i {
        OwnStepKeepsCall(s, i, a, h);
      } else if CurrentOk(w, s.sys.ops[k].phase) {
        CurrentFrame(w, u, s.sys.ops[k].phase);
      }
    }
  }

  lemma OwnStepKeepsCall(s: State, i: nat, a: Answer, h: Host)
    requires Inv(s, h) && Enabled(s, Stepped(i, a), h)
    ensures CallOk(Apply(s, Stepped(i, a), h), i, h)
  {
    var t := Apply(s, Stepped(i, a), h);
    var op := s.sys.ops[i];
    assert op in s.sys.ops && CallOk(s, i, h);
    PhaseOrder(s.sys.world, op.host, op.request, op.phase, a);
    if PreQueue(op.phase) { QueueNeedsDeployer(s.sys.world, op.host, op.request, op.phase, a); }
    if op.host.Some? { AdvanceCurrent(s.sys.world, op.host, op.request, op.phase, a); }
    assert t.sys.ops[i].phase == Advance(s.sys.world, op.host, op.request, op.phase, a).0;
  }

  /** A transaction that was there stays as it was, if its target does. */
  lemma OldTxStaysOk(s: State, i: nat, a: Answer, h: Host, k: nat)
    requires Inv(s, h) && Enabled(s, Stepped(i, a), h) && k < |s.senders|
    requires Frame(s.sys.world, Apply(s, Stepped(i, a), h).sys.world)
    requires var (w, u) := (s.sys.world, Apply(s, Stepped(i, a), h).sys.world);
             k < |u.txs| && u.txs[k] == w.txs[k]
    requires forall x | 0 <= x < |Apply(s, Stepped(i, a), h).senders| && x >= |s.senders| ::
               Apply(s, Stepped(i, a), h).senders[x] == i && BeforeSend(s.sys.ops[i].phase)
    ensures TxOk(Apply(s, Stepped(i, a), h), k)
  {
    var t := Apply(s, Stepped(i, a), h);
    assert TxOk(s, k) && CallOk(s, i, h);
    var tx := s.sys.world.txs[k];
    if tx.status.Pending? && tx.effect.Repoint? { BasisFrame(s.sys.world, t.sys.world, tx.effect.at, tx.effect.basis); }
  }

  lemma NewTxIsOk(s: State, i: nat, a: Answer, h: Host)
    requires Inv(s, h) && Enabled(s, Stepped(i, a), h)
    requires Sends(s.sys.ops[i].phase, s.sys.world, Apply(s, Stepped(i, a), h).sys.world)
    requires Frame(s.sys.world, Apply(s, Stepped(i, a), h).sys.world)
    ensures var t := Apply(s, Stepped(i, a), h); |t.senders| == |t.sys.world.txs| && TxOk(t, |s.senders|)
  {
    var t, op := Apply(s, Stepped(i, a), h), s.sys.ops[i];
    assert CallOk(s, i, h);
    if op.phase.upgrade.Some? {
      BasisFrame(s.sys.world, t.sys.world, op.phase.upgrade.value.t.at, op.phase.upgrade.value.basis);
    }
  }

  lemma SteppedKeepsTxs(s: State, i: nat, a: Answer, h: Host)
    requires Inv(s, h) && Enabled(s, Stepped(i, a), h)
    ensures var t := Apply(s, Stepped(i, a), h);
            |t.senders| == |t.sys.world.txs| && forall k | 0 <= k < |t.senders| :: TxOk(t, k)
  {
    var t := Apply(s, Stepped(i, a), h);
    var w, u := s.sys.world, t.sys.world;
    var op := s.sys.ops[i];
    assert op in s.sys.ops && CallOk(s, i, h);
    AdvanceFrame(w, op.host, op.request, op.phase, a);
    if u.txs != w.txs { NewTxIsOk(s, i, a, h); }
    forall k | 0 <= k < |t.senders| ensures TxOk(t, k) {
      if k < |s.senders| {
        assert u.txs[k] == w.txs[k] by { if u.txs != w.txs { assert u.txs[..|w.txs|][k] == w.txs[k]; } }
        OldTxStaysOk(s, i, a, h, k);
      }
    }
  }

  lemma SteppedKeepsInv(s: State, i: nat, a: Answer, h: Host)
    requires Inv(s, h) && Enabled(s, Stepped(i, a), h)
    ensures Inv(Apply(s, Stepped(i, a), h), h)
  {
    var op := s.sys.ops[i];
    Safety.ApplyKeepsInv(s.sys, Safety.Stepped(i, a));
    AdvanceFrame(s.sys.world, op.host, op.request, op.phase, a);
    SteppedKeepsCalls(s, i, a, h);
    SteppedKeepsTxs(s, i, a, h);
  }

  lemma {:induction false} RunKeepsInv(events: seq<Event>, h: Host)
    requires Run(events, h).Some?
    ensures Inv(Run(events, h).value, h)
    decreases |events|
  {
    if events != [] {
      var e := events[|events| - 1];
      RunKeepsInv(events[..|events| - 1], h);
      var s := Run(events[..|events| - 1], h).value;
      match e
      case Issued(_, _, _) => IssuedKeepsInv(s, e, h);
      case Started(i) => StartedKeepsInv(s, i, h);
      case Stepped(i, a) => SteppedKeepsInv(s, i, a, h);
      case Returned(i) => ReturnedKeepsInv(s, i, h);
      case Outside(x) => if x.Mined? { MinedKeepsInv(s, x.t, x.ok, h); } else { OutsideKeepsInv(s, x, h); }
    }
  }

  /**
   Over every run, each swap of a live implementation replaced exactly the implementation whose
   stored layout the upgrade compared, and the storage report had accepted that layout.
   */
  lemma WhatWasComparedIsWhatIsReplaced(events: seq<Event>, h: Host, k: nat)
    requires Run(events, h).Some? && k < |Run(events, h).value.sys.world.swaps|
    ensures var w := Run(events, h).value.sys.world;
            var x := w.swaps[k];
            && x.previous == x.basis.current
            && x.basis.layout in x.basis.accepts
            && Lists(w.impls, x.previous, x.basis.layout)
  {
    RunKeepsInv(events, h);
    var w := Run(events, h).value.sys.world;
    assert w.swaps[k] in w.swaps && SwapOk(w, w.swaps[k]);
  }

  /** When an upgrade call is sent, the implementation live behind its target is the compared one. */
  lemma LiveWhenSent(events: seq<Event>, h: Host, i: nat)
    requires Run(events, h).Some? && Active(Run(events, h).value, i)
    requires var op := Run(events, h).value.sys.ops[i]; op.phase.Fetched? && op.phase.upgrade.Some?
    ensures var s := Run(events, h).value;
            var u := s.sys.ops[i].phase.upgrade.value;
            && Live(s.sys.world.code, u.t.at) == Some(u.basis.current)
            && u.basis.layout in u.basis.accepts
            && Lists(s.sys.world.impls, u.basis.current, u.basis.layout)
            && forall t <- s.sys.world.txs :: !t.status.Pending?
  {
    RunKeepsInv(events, h);
    var s := Run(events, h).value;
    assert CallOk(s, i, h);
    forall t | t in s.sys.world.txs ensures !t.status.Pending? {
      var n :| 0 <= n < |s.sys.world.txs| && s.sys.world.txs[n] == t;
      NothingPending(s, h, i, n);
    }
  }

  /** A ProxyAdmin of the new generation has appeared where the probe found no code, and was planned for as an old one. */
  predicate Outdated(w: World, kind: Kind, u: Upgrade) {
    && kind == Transparent && u.plan.Some? && u.plan.value.route.AdminV4? && u.plan.value.call.Upgrade?
    && u.t.admin.Some? && u.t.admin.value in w.code
    && w.code[u.t.admin.value].ProxyAdmin? && w.code[u.t.admin.value].generation.V5?
  }

  lemma HeldPlanIsUnderstood(w: World, r: Request, kind: Kind, u: Upgrade, implementation: Address)
    requires Safety.UpgradeOk(w, r, kind, Some(u)) && PlanHolds(w, kind, u) && Live(w.code, u.t.at) == Some(u.basis.current)
    requires Safety.Accepts(w.code, u.t.at, if r.UpgradeBeacon? then ViaBeacon else kind, AccountOf(r), implementation)
    ensures Safety.Understands(w.code, u.t.at, CallFor(r, kind, u, implementation)) <==> !Outdated(w, kind, u)
  {
  }

  /**
   When an upgrade call is sent, its target obeys it exactly when it accepts it: the probe's answer still
   holds, but for an admin that had no code when it was asked.
   */
  lemma ObeyedWhenSentIff(events: seq<Event>, h: Host, i: nat)
    requires Run(events, h).Some? && Active(Run(events, h).value, i)
    requires var op := Run(events, h).value.sys.ops[i]; op.phase.Fetched? && op.phase.upgrade.Some?
    ensures var w := Run(events, h).value.sys.world;
            var r := Run(events, h).value.sys.ops[i].request;
            var Fetched(kind, upgrade, implementation) := Run(events, h).value.sys.ops[i].phase;
            var u := upgrade.value;
            Executes(w.code, CallFor(r, kind, u, implementation)) == Some(u.t.at) <==>
            Safety.Accepts(w.code, u.t.at, if r.UpgradeBeacon? then ViaBeacon else kind, AccountOf(r), implementation)
            && !Outdated(w, kind, u)
  {
    RunKeepsInv(events, h);
    var s := Run(events, h).value;
    assert CallOk(s, i, h);
    Safety.OpsAreOk(s.sys, i);
    ObeyedNowIff(s.sys.world, s.sys.ops[i].request, s.sys.ops[i].phase);
  }

  lemma ObeyedNowIff(w: World, r: Request, p: Phase)
    requires p.Fetched? && p.upgrade.Some? && CurrentOk(w, p) && Safety.OpOk(w, r, p)
    ensures Executes(w.code, CallFor(r, p.kind, p.upgrade.value, p.implementation)) == Some(p.upgrade.value.t.at) <==>
            Safety.Accepts(w.code, p.upgrade.value.t.at, if r.UpgradeBeacon? then ViaBeacon else p.kind, AccountOf(r), p.implementation)
            && !Outdated(w, p.kind, p.upgrade.value)
  {
    var u := p.upgrade.value;
    var call := CallFor(r, p.kind, u, p.implementation);
    Safety.AddressedCall(w, r, p.kind, u, p.implementation);
    Safety.AddressedIsObeyedIff(w.code, u.t.at, p.implementation, call);
    if Safety.Accepts(w.code, u.t.at, if r.UpgradeBeacon? then ViaBeacon else p.kind, AccountOf(r), p.implementation) {
      HeldPlanIsUnderstood(w, r, p.kind, u, p.implementation);
    }
  }
}
