/**
 Upgrades that are sent in vain. The pipelines compare storage and ask for a version; they do not ask who
 owns the ProxyAdmin, the proxy or the beacon, what is at the admin slot, or whether an implementation is
 a UUPS one. Whatever the target is, one run shows what comes of it: the upgrade, or an orphan.
 */
module InVain {
  import opened Wrappers
  import opened World
  import opened Operations
  import opened Safety
  import Dispatch

  const A: Address := 1
  const P: Address := 2
  const B: Address := 3
  const ADMIN: Address := 9

  /** A target at `P` in front of old code at `A`, what is at its admin slot, and who upgrades it as what. */
  datatype Setup = Setup(oldCode: Code, newCode: Code, target: Contract, admin: Option<Contract>, kind: Kind, account: Address)

  function Code0(x: Setup): map<Address, Contract> {
    if x.admin.None? then map[A := Implementation(x.oldCode), P := x.target]
    else map[A := Implementation(x.oldCode), P := x.target, ADMIN := x.admin.value]
  }

  function RequestOf(x: Setup): Request {
    var v := Validated(Version(x.newCode, 0), 20, {10}, OnChange);
    if x.target.Beacon? then UpgradeBeacon(v, P, x.account) else UpgradeProxy(v, P, false, x.account)
  }

  function TargetAt(x: Setup): Target {
    Target(P, A, if x.target.Proxy? then x.target.admin else None)
  }

  function Probed(x: Setup): Dispatch.InterfaceVersion {
    ProbedVersion(Code0(x), ProbeSubject(TargetAt(x), x.kind))
  }

  /** The pipeline has nothing to say against it. */
  predicate Viable(x: Setup) {
    && x.oldCode.hash != x.newCode.hash
    && (x.admin.Some? ==> PointsAtCode(map[A := Implementation(x.oldCode)], x.admin.value))
    && match x.target
       case Beacon(implementation, _) => implementation == A && x.kind == ViaBeacon
       case Proxy(implementation, admin, _) =>
         && implementation == A && admin in {None, Some(ADMIN)} && x.kind != ViaBeacon
         && (x.kind == Transparent ==> admin.Some?) && !Probed(x).Other?
       case _ => false
  }

  const Compared10: Basis := Basis(A, 10, {10})

  function UpgradeOf(x: Setup): Upgrade
    requires Viable(x)
  {
    var plan := if x.target.Beacon? then None
                else Some(Dispatch.PlanUpgradeDispatch(SideOf(x.kind), Probed(x), false).value);
    Upgrade(TargetAt(x), Compared10, plan)
  }

  function Adopted1(x: Setup): ImplEntry { ImplEntry(Version(x.oldCode, 0), A, {}, 10) }

  function World0(x: Setup): World { World(Code0(x), [], [], [], map[]) }

  function World1(x: Setup): World { World(Code0(x), [], [], [Adopted1(x)], map[]) }

  function World2(x: Setup): World {
    World(Code0(x)[B := Implementation(x.newCode)], [], [], [Adopted1(x), ImplEntry(Version(x.newCode, 0), B, {}, 20)], map[])
  }

  function CallOf(x: Setup): Dispatch.Call
    requires Viable(x)
  {
    CallFor(RequestOf(x), x.kind, UpgradeOf(x), B)
  }

  function Sending(x: Setup): World
    requires Viable(x)
  {
    Send(World2(x), Repoint(P, B, Compared10, CallOf(x)))
  }

  /** The target accepts the upgrade. */
  predicate Accepted(x: Setup) {
    Accepts(World2(x).code, P, x.kind, x.account, B)
  }

  // ---------- building a run ----------

  lemma Then(events: seq<Event>, s: System, e: Event) returns (more: seq<Event>)
    requires Run(events) == Some(s) && Enabled(s, e)
    ensures Run(more) == Some(Apply(s, e))
  {
    more := events + [e];
    assert more[..|more| - 1] == events;
  }

  /** One step of the last operation. */
  lemma Steps(events: seq<Event>, ops: seq<Op>, host: Option<Host>, r: Request, p: Phase, w: World, a: Answer, q: Phase, u: World)
    returns (more: seq<Event>)
    requires Run(events) == Some(System(w, ops + [Op(host, r, p)])) && Steppable(w, p)
    requires Advance(w, host, r, p, a) == (q, u)
    ensures Run(more) == Some(System(u, ops + [Op(host, r, q)]))
  {
    var s := System(w, ops + [Op(host, r, p)]);
    more := Then(events, s, Stepped(|ops|, a));
    assert s.ops[|ops| := Op(host, r, q)] == ops + [Op(host, r, q)];
  }

  lemma Issues(events: seq<Event>, ops: seq<Op>, w: World, host: Option<Host>, r: Request) returns (more: seq<Event>)
    requires Run(events) == Some(System(w, ops))
    ensures Run(more) == Some(System(w, ops + [Op(host, r, Begun)]))
  {
    more := Then(events, System(w, ops), Issued(host, r));
  }

  /** Others deploy the old implementation, the target, and what is at the admin slot. */
  lemma OthersDeploy(x: Setup) returns (events: seq<Event>)
    requires Viable(x)
    ensures Run(events) == Some(System(World0(x), []))
  {
    events := Then([], Initial, DeployedOutside(A, Implementation(x.oldCode)));
    var code := map[A := Implementation(x.oldCode)];
    events := Then(events, System(World(code, [], [], [], map[]), []), DeployedOutside(P, x.target));
    code := code[P := x.target];
    var w := World(code, [], [], [], map[]);
    assert code == map[A := Implementation(x.oldCode), P := x.target];
    if x.admin.Some? {
      events := Then(events, System(w, []), DeployedOutside(ADMIN, x.admin.value));
      assert code[ADMIN := x.admin.value] == Code0(x);
    }
  }

  // ---------- the old implementation is adopted ----------

  function AdoptOld(x: Setup): Request { ForceImport(Validated(Version(x.oldCode, 0), 10, {}, OnChange), A, None) }

  lemma AdoptionSteps(x: Setup)
    requires Viable(x)
    ensures var (r, w, found) := (AdoptOld(x), World0(x), FoundImplementation);
            && Advance(w, None, r, Begun, Completed) == (Classified(found, A), w)
            && Advance(w, None, r, Classified(found, A), Completed) == (CodeMatched(found, A), w)
            && Advance(w, None, r, CodeMatched(found, A), Completed) == (KindAgreed(found, A, false), w)
            && Advance(w, None, r, KindAgreed(found, A, false), Completed) == (LayoutStored(found, A, false), World1(x))
            && Advance(World1(x), None, r, LayoutStored(found, A, false), Completed) == (Done(A, A, None), World1(x))
  {
  }

  lemma OldIsAdopted(x: Setup) returns (events: seq<Event>)
    requires Viable(x)
    ensures Run(events) == Some(System(World1(x), [] + [Op(None, AdoptOld(x), Done(A, A, None))]))
  {
    var (r, w, found) := (AdoptOld(x), World0(x), FoundImplementation);
    AdoptionSteps(x);
    events := OthersDeploy(x);
    events := Issues(events, [], w, None, r);
    events := Steps(events, [], None, r, Begun, w, Completed, Classified(found, A), w);
    events := Steps(events, [], None, r, Classified(found, A), w, Completed, CodeMatched(found, A), w);
    events := Steps(events, [], None, r, CodeMatched(found, A), w, Completed, KindAgreed(found, A, false), w);
    events := Steps(events, [], None, r, KindAgreed(found, A, false), w, Completed, LayoutStored(found, A, false), World1(x));
    events := Steps(events, [], None, r, LayoutStored(found, A, false), World1(x), Completed, Done(A, A, None), World1(x));
  }

  // ---------- the upgrade passes every check ----------

  lemma TargetIsRead(x: Setup)
    requires Viable(x) && x.target.Proxy?
    ensures var (r, w, t) := (RequestOf(x), World1(x), TargetAt(x));
            && Advance(w, Some(0), r, Begun, Completed) == (Gated, w)
            && Advance(w, Some(0), r, Gated, Completed) == (SlotsRead(t), w)
            && Advance(w, Some(0), r, SlotsRead(t), OfKind(x.kind)) == (KindKnown(t, x.kind), w)
  {
  }

  lemma TargetIsCompared(x: Setup)
    requires Viable(x) && x.target.Proxy?
    ensures var (r, w, t) := (RequestOf(x), World1(x), TargetAt(x));
            && Advance(w, Some(0), r, KindKnown(t, x.kind), Completed) == (LayoutFound(t, x.kind, 10), w)
            && Advance(w, Some(0), r, LayoutFound(t, x.kind, 10), Completed) == (Compared(t, x.kind, Compared10), w)
            && Advance(w, Some(0), r, Compared(t, x.kind, Compared10), Completed) == (Queued(x.kind, Some(UpgradeOf(x))), w)
  {
  }

  lemma BeaconChecksPass(x: Setup)
    requires Viable(x) && x.target.Beacon?
    ensures var (r, w, t) := (RequestOf(x), World1(x), TargetAt(x));
            && Advance(w, Some(0), r, Begun, Completed) == (SlotsRead(t), w)
            && Advance(w, Some(0), r, SlotsRead(t), Completed) == (KindKnown(t, ViaBeacon), w)
            && Advance(w, Some(0), r, KindKnown(t, ViaBeacon), Completed) == (LayoutFound(t, ViaBeacon, 10), w)
            && Advance(w, Some(0), r, LayoutFound(t, ViaBeacon, 10), Completed) == (Compared(t, ViaBeacon, Compared10), w)
            && Advance(w, Some(0), r, Compared(t, ViaBeacon, Compared10), Completed) == (Queued(ViaBeacon, Some(UpgradeOf(x))), w)
  {
  }

  lemma Queues(x: Setup, events: seq<Event>, ops: seq<Op>) returns (more: seq<Event>)
    requires Viable(x) && Run(events) == Some(System(World1(x), ops + [Op(Some(0), RequestOf(x), Begun)]))
    ensures Run(more) == Some(System(World1(x), ops + [Op(Some(0), RequestOf(x), Queued(x.kind, Some(UpgradeOf(x))))]))
  {
    var (r, w, t) := (RequestOf(x), World1(x), TargetAt(x));
    if x.target.Proxy? {
      TargetIsRead(x);
      TargetIsCompared(x);
      more := Steps(events, ops, Some(0), r, Begun, w, Completed, Gated, w);
      more := Steps(more, ops, Some(0), r, Gated, w, Completed, SlotsRead(t), w);
      more := Steps(more, ops, Some(0), r, SlotsRead(t), w, OfKind(x.kind), KindKnown(t, x.kind), w);
    } else {
      BeaconChecksPass(x);
      more := Steps(events, ops, Some(0), r, Begun, w, Completed, SlotsRead(t), w);
      more := Steps(more, ops, Some(0), r, SlotsRead(t), w, Completed, KindKnown(t, x.kind), w);
    }
    more := Steps(more, ops, Some(0), r, KindKnown(t, x.kind), w, Completed, LayoutFound(t, x.kind, 10), w);
    more := Steps(more, ops, Some(0), r, LayoutFound(t, x.kind, 10), w, Completed, Compared(t, x.kind, Compared10), w);
    more := Steps(more, ops, Some(0), r, Compared(t, x.kind, Compared10), w, Completed, Queued(x.kind, Some(UpgradeOf(x))), w);
  }

  // ---------- it deploys, and sends its call ----------

  lemma NewIsStored(x: Setup)
    requires Viable(x)
    ensures EntryFor(World1(x).impls, Version(x.newCode, 0)).None?
    ensures StoreImpl(World1(x).impls, Version(x.newCode, 0), B, 20) == World2(x).impls
  {
    assert World1(x).impls[1..] == [];
    assert StoreImpl(World1(x).impls[1..], Version(x.newCode, 0), B, 20) == [ImplEntry(Version(x.newCode, 0), B, {}, 20)];
  }

  lemma QueuedSteps(x: Setup)
    requires Viable(x)
    ensures Advance(World1(x), Some(0), RequestOf(x), Queued(x.kind, Some(UpgradeOf(x))), Fetching(Deploys(B)))
         == (Fetched(x.kind, Some(UpgradeOf(x)), B), World2(x))
    ensures Advance(World2(x), Some(0), RequestOf(x), Fetched(x.kind, Some(UpgradeOf(x)), B), Completed)
         == (Sent(x.kind, P, B, 0), Sending(x))
  {
    NewIsStored(x);
  }

  lemma CallIsSent(x: Setup, events: seq<Event>, past: Op) returns (more: seq<Event>)
    requires Viable(x) && Run(events) == Some(System(World1(x), [past]))
    ensures Run(more) == Some(System(Sending(x), [past] + [Op(Some(0), RequestOf(x), Sent(x.kind, P, B, 0))]))
  {
    var r, queued := RequestOf(x), Queued(x.kind, Some(UpgradeOf(x)));
    var fetched := Fetched(x.kind, Some(UpgradeOf(x)), B);
    more := Issues(events, [past], World1(x), Some(0), r);
    more := Queues(x, more, [past]);
    QueuedSteps(x);
    more := Steps(more, [past], Some(0), r, queued, World1(x), Fetching(Deploys(B)), fetched, World2(x));
    more := Steps(more, [past], Some(0), r, fetched, World2(x), Completed, Sent(x.kind, P, B, 0), Sending(x));
  }

  // ---------- and it lands, or not ----------

  lemma AcceptedIff(x: Setup)
    requires Viable(x)
    ensures Executes(World2(x).code, CallOf(x)) == Some(P) <==> Accepted(x)
  {
    CallIsObeyedIff(World2(x), RequestOf(x), x.kind, UpgradeOf(x), B);
  }

  function LandedWorld(x: Setup): World
    requires Viable(x)
  {
    World2(x).(code := World2(x).code[P := Repointed(x.target, B)],
               txs := [Tx(Repoint(P, B, Compared10, CallOf(x)), Landed)],
               swaps := [Swap(P, A, B, Compared10)])
  }

  function RevertedWorld(x: Setup): World
    requires Viable(x)
  {
    World2(x).(txs := [Tx(Repoint(P, B, Compared10, CallOf(x)), Reverted)])
  }

  lemma Mined0(x: Setup)
    requires Viable(x)
    ensures CanMine(Sending(x), 0)
    ensures Mine(Sending(x), 0, true) == if Accepted(x) then LandedWorld(x) else RevertedWorld(x)
  {
    AcceptedIff(x);
  }

  /** An upgrade of a proxy goes into the record. */
  function EndWorld(x: Setup): World
    requires Viable(x)
  {
    if !Accepted(x) then RevertedWorld(x)
    else if x.target.Beacon? then LandedWorld(x)
    else RecordProxy(LandedWorld(x), P, x.kind)
  }

  function End(x: Setup): Phase {
    if Accepted(x) then Done(P, B, Some(0)) else Failed(TransactionReverted(0))
  }

  lemma LandedSteps(x: Setup)
    requires Viable(x) && Accepted(x)
    ensures var (r, w) := (RequestOf(x), LandedWorld(x));
            && Advance(w, Some(0), r, Sent(x.kind, P, B, 0), Receipt(true)) == (Confirmed(x.kind, P, B, 0), w)
            && Advance(w, Some(0), r, Confirmed(x.kind, P, B, 0), Completed)
               == (if x.target.Beacon? then End(x) else Checked(x.kind, P, B, 0), w)
            && (x.target.Proxy? ==> Advance(w, Some(0), r, Checked(x.kind, P, B, 0), Completed) == (End(x), EndWorld(x)))
  {
  }

  lemma RevertedStep(x: Setup)
    requires Viable(x) && !Accepted(x)
    ensures Advance(RevertedWorld(x), Some(0), RequestOf(x), Sent(x.kind, P, B, 0), Receipt(true)) == (End(x), RevertedWorld(x))
  {
  }

  lemma Ends(x: Setup, events: seq<Event>, past: Op) returns (more: seq<Event>)
    requires Viable(x) && Run(events) == Some(System(World1(x), [past]))
    ensures Run(more) == Some(System(EndWorld(x), [past] + [Op(Some(0), RequestOf(x), End(x))]))
  {
    var r := RequestOf(x);
    more := CallIsSent(x, events, past);
    Mined0(x);
    more := Then(more, System(Sending(x), [past] + [Op(Some(0), r, Sent(x.kind, P, B, 0))]), Mined(0, true));
    if Accepted(x) {
      LandedSteps(x);
      var w := LandedWorld(x);
      more := Steps(more, [past], Some(0), r, Sent(x.kind, P, B, 0), w, Receipt(true), Confirmed(x.kind, P, B, 0), w);
      if x.target.Beacon? {
        more := Steps(more, [past], Some(0), r, Confirmed(x.kind, P, B, 0), w, Completed, End(x), w);
      } else {
        more := Steps(more, [past], Some(0), r, Confirmed(x.kind, P, B, 0), w, Completed, Checked(x.kind, P, B, 0), w);
        more := Steps(more, [past], Some(0), r, Checked(x.kind, P, B, 0), w, Completed, End(x), EndWorld(x));
      }
    } else {
      RevertedStep(x);
      more := Steps(more, [past], Some(0), r, Sent(x.kind, P, B, 0), RevertedWorld(x), Receipt(true), End(x), RevertedWorld(x));
    }
  }

  /**
   For every target the pipeline has nothing to say against, there is a run that upgrades it, with the node
   failing nothing: if the target accepts the upgrade it runs the new implementation; otherwise the call is
   reverted, the target is as it was, nothing is recorded, and the new implementation is left on chain.
   */
  lemma UpgradeSucceedsIff(x: Setup) returns (events: seq<Event>)
    requires Viable(x)
    ensures Run(events).Some? && |Run(events).value.ops| == 2
    ensures var s := Run(events).value;
            && s.ops[1].request == RequestOf(x) && B in s.world.code && P in s.world.code
            && if Accepted(x) then s.ops[1].phase == Done(P, B, Some(0)) && Live(s.world.code, P) == Some(B)
               else s.ops[1].phase == Failed(TransactionReverted(0)) && s.world.code[P] == x.target && P !in s.world.proxies
  {
    events := OldIsAdopted(x);
    var past := Op(None, AdoptOld(x), Done(A, A, None));
    assert [] + [past] == [past];
    events := Ends(x, events, past);
  }

  // ---------- one failing input for each clause ----------

  const ME: Address := 8
  const OTHER: Address := 7
  const Plain1: Code := Code(1, None)
  const Plain2: Code := Code(2, None)
  const Uups1: Code := Code(1, Some(Dispatch.V5))
  const Uups2: Code := Code(2, Some(Dispatch.V5))

  /** Somebody else owns the ProxyAdmin. */
  const ForeignAdmin: Setup :=
    Setup(Plain1, Plain2, Proxy(A, Some(ADMIN), 0), Some(ProxyAdmin(Dispatch.V5, OTHER)), Transparent, ME)

  /** The admin slot holds a plain account. */
  const AccountAsAdmin: Setup := Setup(Plain1, Plain2, Proxy(A, Some(ADMIN), 0), None, Transparent, ME)

  /** The admin slot holds a contract that is no ProxyAdmin. */
  const StrangeAdmin: Setup := Setup(Plain1, Plain2, Proxy(A, Some(ADMIN), 0), Some(OtherCode(Dispatch.Absent)), Transparent, ME)

  /** The implementation has no entry points of its own. */
  const PlainImplementation: Setup := Setup(Plain1, Uups2, Proxy(A, None, ME), None, Uups, ME)

  /** Somebody else owns the proxy. */
  const ForeignOwner: Setup := Setup(Uups1, Uups2, Proxy(A, None, OTHER), None, Uups, ME)

  /** The new implementation is not a UUPS one. */
  const PlainSuccessor: Setup := Setup(Uups1, Plain2, Proxy(A, None, ME), None, Uups, ME)

  /** A proxy with a ProxyAdmin is taken for a UUPS one. */
  const PastTheAdmin: Setup := Setup(Plain1, Plain2, Proxy(A, Some(ADMIN), 0), Some(ProxyAdmin(Dispatch.V5, ME)), Uups, ME)

  /** Somebody else owns the beacon. */
  const ForeignBeacon: Setup := Setup(Plain1, Plain2, Beacon(A, OTHER), None, ViaBeacon, ME)

  lemma FailingInputs()
    ensures forall x <- {ForeignAdmin, AccountAsAdmin, StrangeAdmin, PlainImplementation, ForeignOwner, PlainSuccessor,
                         PastTheAdmin, ForeignBeacon} :: Viable(x) && !Accepted(x)
  {
  }

  // ---------- a UUPS call past an admin ----------

  /** A proxy with an admin in front of a UUPS implementation, both the account's own. */
  const BothWays: Setup := Setup(Uups1, Uups2, Proxy(A, Some(ADMIN), ME), Some(ProxyAdmin(Dispatch.V5, ME)), Uups, ME)

  function AdoptProxy(x: Setup): Request { ForceImport(Validated(Version(x.oldCode, 0), 10, {}, OnChange), P, None) }

  lemma BothWaysIsAccepted()
    ensures Viable(BothWays) && Accepted(BothWays)
  {
  }

  const ThisProxy: Found := FoundProxy(Transparent)

  lemma ProxyAdoptionReads()
    ensures var (r, w) := (AdoptProxy(BothWays), World0(BothWays));
            && Advance(w, None, r, Begun, Completed) == (Classified(ThisProxy, A), w)
            && Advance(w, None, r, Classified(ThisProxy, A), Completed) == (CodeMatched(ThisProxy, A), w)
            && Advance(w, None, r, CodeMatched(ThisProxy, A), Completed) == (KindAgreed(ThisProxy, A, true), w)
  {
  }

  lemma ProxyAdoptionStores()
    ensures Advance(World0(BothWays), None, AdoptProxy(BothWays), KindAgreed(ThisProxy, A, true), Completed)
         == (LayoutStored(ThisProxy, A, true), World1(BothWays))
  {
  }

  const Paused: Op := Op(None, AdoptProxy(BothWays), LayoutStored(ThisProxy, A, true))

  /** An adoption of the proxy has stored the layout, and not yet recorded the proxy. */
  lemma AdoptionPauses() returns (events: seq<Event>)
    ensures Run(events) == Some(System(World1(BothWays), [Paused]))
  {
    var r, w := AdoptProxy(BothWays), World0(BothWays);
    BothWaysIsAccepted();
    ProxyAdoptionReads();
    ProxyAdoptionStores();
    events := OthersDeploy(BothWays);
    events := Issues(events, [], w, None, r);
    events := Steps(events, [], None, r, Begun, w, Completed, Classified(ThisProxy, A), w);
    events := Steps(events, [], None, r, Classified(ThisProxy, A), w, Completed, CodeMatched(ThisProxy, A), w);
    events := Steps(events, [], None, r, CodeMatched(ThisProxy, A), w, Completed, KindAgreed(ThisProxy, A, true), w);
    events := Steps(events, [], None, r, KindAgreed(ThisProxy, A, true), w, Completed, LayoutStored(ThisProxy, A, true), World1(BothWays));
    assert [] + [Paused] == [Paused];
  }

  lemma AdoptionEnds(w: World)
    requires Viable(BothWays) && Accepted(BothWays) && w == EndWorld(BothWays)
    ensures P in w.proxies && w.proxies[P] == Uups && P in w.code && !KindFits(w.code[P], Uups)
    ensures Advance(w, None, Paused.request, Paused.phase, Completed) == (Done(P, A, None), RecordProxy(w, P, Transparent))
  {
  }

  /**
   A run in which a UUPS upgrade goes past the admin of a proxy and lands: the proxy is recorded as a uups
   one although it has an admin, and an adoption that had read no record then changes it to transparent.
   */
  lemma RecordChangesPastTheAdmin() returns (before: seq<Event>, events: seq<Event>)
    ensures |events| == |before| + 1 && events[..|before|] == before && Run(before).Some? && Run(events).Some?
    ensures var (w, u) := (Run(before).value.world, Run(events).value.world);
            && P in w.proxies && w.proxies[P] == Uups && P in w.code && !KindFits(w.code[P], Uups)
            && P in u.proxies && u.proxies[P] == Transparent
  {
    BothWaysIsAccepted();
    before := AdoptionPauses();
    before := Ends(BothWays, before, Paused);
    var w := EndWorld(BothWays);
    AdoptionEnds(w);
    events := LastStep(before, w, [Paused] + [Op(Some(0), RequestOf(BothWays), End(BothWays))]);
  }

  lemma LastStep(before: seq<Event>, w: World, ops: seq<Op>) returns (events: seq<Event>)
    requires Run(before) == Some(System(w, ops)) && ops != [] && ops[0] == Paused
    requires Advance(w, None, Paused.request, Paused.phase, Completed) == (Done(P, A, None), RecordProxy(w, P, Transparent))
    ensures |events| == |before| + 1 && events[..|before|] == before && Run(events).Some?
    ensures Run(events).value.world == RecordProxy(w, P, Transparent)
  {
    events := before + [Stepped(0, Completed)];
    assert events[..|before|] == before;
  }
}
