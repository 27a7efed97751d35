/**
 Whole-run safety with no assumption on scheduling: any number of operations, on any deployers, in
 any interleaving, each cut short anywhere, with transactions landing late, reverting or never
 being mined, and with other people deploying contracts in between.
 */
module Safety {
  import opened Wrappers
  import opened World
  import opened Operations
  import Dispatch

  datatype Op = Op(host: Option<Host>, request: Request, phase: Phase)

  datatype System = System(world: World, ops: seq<Op>)

  datatype Event =
    | Issued(host: Option<Host>, request: Request)
    | Stepped(i: nat, answer: Answer)
    | Mined(t: TxId, ok: bool)
    | DeployedOutside(at: Address, contract: Contract)
    | Dropped(k: nat)
    | LandedLate(k: nat, at: Address)
    | HandedOver(at: Address, owner: Address)

  const Initial: System := System(Empty, [])

  predicate Steppable(w: World, p: Phase) {
    !Final(p) && (p.Sent? || p.Confirmed? || p.Checked? ==> p.tx < |w.txs|)
  }

  ghost predicate Enabled(s: System, e: Event) {
    match e
    case Issued(_, _) => true
    case Stepped(i, _) => i < |s.ops| && Steppable(s.world, s.ops[i].phase)
    case Mined(t, _) => CanMine(s.world, t)
    case DeployedOutside(at, c) => CanDeployOutside(s.world, at, c)
    case Dropped(k) => CanDrop(s.world, k)
    case LandedLate(k, at) => CanLandStored(s.world, k, at)
    case HandedOver(at, _) => CanHandOver(s.world, at)
  }

  ghost function Apply(s: System, e: Event): System
    requires Enabled(s, e)
  {
    match e
    case Issued(host, request) => s.(ops := s.ops + [Op(host, request, Begun)])
    case Stepped(i, a) =>
      var op := s.ops[i];
      var (p, w) := Advance(s.world, op.host, op.request, op.phase, a);
      System(w, s.ops[i := op.(phase := p)])
    case Mined(t, ok) => s.(world := Mine(s.world, t, ok))
    case DeployedOutside(at, c) => s.(world := DeployOutside(s.world, at, c))
    case Dropped(k) => s.(world := Drop(s.world, k))
    case LandedLate(k, at) => s.(world := LandStored(s.world, k, at))
    case HandedOver(at, owner) => s.(world := HandOver(s.world, at, owner))
  }

  ghost function Run(events: seq<Event>): Option<System>
    decreases |events|
  {
    if events == [] then Some(Initial)
    else
      var before := Run(events[..|events| - 1]);
      var e := events[|events| - 1];
      if before.Some? && Enabled(before.value, e) then Some(Apply(before.value, e)) else None
  }

  // ---------- what an operation in flight knows ----------

  ghost predicate IsUpgrade(r: Request) { r.UpgradeProxy? || r.UpgradeBeacon? }

  /** What the chain said about the target of an upgrade still holds of it. */
  ghost predicate TargetOk(w: World, r: Request, t: Target) {
    && Live(w.code, t.at).Some?
    && match r
       case UpgradeProxy(_, _, _, _) => w.code[t.at].Proxy? && w.code[t.at].admin == t.admin
       case UpgradeBeacon(_, _, _) => w.code[t.at].Beacon?
       case _ => false
  }

  ghost predicate KindKnownOk(w: World, r: Request, t: Target, kind: Kind) {
    TargetOk(w, r, t) && (r.UpgradeProxy? ==> kind != ViaBeacon)
  }

  function SideOf(kind: Kind): Dispatch.Side {
    if kind == Transparent then Dispatch.AdminSide else Dispatch.ProxySide
  }

  ghost predicate PlanOk(r: Request, kind: Kind, u: Upgrade) {
    if r.UpgradeProxy? then
      && u.plan.Some? && Dispatch.PlanFits(SideOf(kind), u.plan.value, r.hasCallData)
      && (kind == Transparent ==> u.t.admin.Some?)
    else u.plan.None?
  }

  ghost predicate UpgradeOk(w: World, r: Request, kind: Kind, u: Option<Upgrade>) {
    if u.Some? then KindKnownOk(w, r, u.value.t, kind) && PlanOk(r, kind, u.value)
    else !IsUpgrade(r) && !r.ForceImport? && (kind != ViaBeacon <==> r.DeployProxy?)
  }

  /** The call goes through the admin exactly when the upgrade went by the transparent kind. */
  ghost predicate RoutedBy(c: Contract, kind: Kind, call: Dispatch.Call) {
    && c.Proxy? && kind != ViaBeacon && !call.facade.UpgradeableBeacon?
    && (call.facade.UupsProxy? <==> kind == Uups) && (kind == Transparent ==> c.admin.Some?)
  }

  /** The operation's transaction is the one it sent: it creates, or repoints, the address reported. */
  ghost predicate SentOk(w: World, r: Request, p: Phase)
    requires p.Sent? || p.Confirmed? || p.Checked?
  {
    && p.tx < |w.txs| && !r.ForceImport?
    && var e := w.txs[p.tx].effect;
    && e.at == p.at
    && (IsUpgrade(r) <==> e.Repoint?)
    && (IsUpgrade(r) ==> e.implementation == p.implementation && Live(w.code, p.at).Some?)
    && (r.UpgradeProxy? ==> RoutedBy(w.code[p.at], p.kind, e.call))
    && (r.DeployProxy? ==> p.kind != ViaBeacon && KindFits(e.contract, p.kind))
    && (r.DeployBeaconProxy? ==> KindFits(e.contract, p.kind))
  }

  /** The operations whose proxy goes into the record. */
  ghost predicate RecordsProxy(r: Request) { r.DeployProxy? || r.DeployBeaconProxy? || r.UpgradeProxy? }

  ghost predicate FoundOk(w: World, r: Request, found: Found, implementation: Address) {
    r.ForceImport? && (found.FoundProxy? ==>
      && found.kind != ViaBeacon
      && Live(w.code, r.address).Some? && KindFits(w.code[r.address], found.kind)
      && (Live(w.code, r.address) == Some(implementation) || LiveUsable(w, r.address)))
  }

  /** The code at the address is what the artifact compiles to. */
  ghost predicate Verified(w: World, r: Request, implementation: Address) {
    r.ForceImport? && implementation in w.code && w.code[implementation] == Implementation(r.v.version.code)
  }

  ghost predicate OpOk(w: World, r: Request, p: Phase) {
    match p
    case Begun => true
    case Gated => !r.ForceImport?
    case Opened(_) => r.DeployProxy?
    case Judged(kind, _) => r.DeployProxy? && kind != ViaBeacon
    case Vouched(kind) => r.DeployProxy? && kind != ViaBeacon
    case SlotsRead(t) => TargetOk(w, r, t)
    case KindKnown(t, kind) => KindKnownOk(w, r, t, kind)
    case LayoutFound(t, kind, _) => KindKnownOk(w, r, t, kind)
    case Compared(t, kind, _) => KindKnownOk(w, r, t, kind)
    case Queued(kind, upgrade) => UpgradeOk(w, r, kind, upgrade)
    case Fetched(kind, upgrade, implementation) =>
      UpgradeOk(w, r, kind, upgrade) && (r.DeployBeaconProxy? || Usable(w, implementation))
    case Sent(_, _, _, _) => SentOk(w, r, p)
    case Confirmed(_, _, _, tx) => SentOk(w, r, p) && w.txs[tx].status.Landed?
    case Checked(_, at, _, tx) =>
      SentOk(w, r, p) && w.txs[tx].status.Landed? && RecordsProxy(r) && (IsUpgrade(r) ==> LiveUsable(w, at))
    case Classified(found, implementation) => FoundOk(w, r, found, implementation)
    case CodeMatched(found, implementation) => FoundOk(w, r, found, implementation) && Verified(w, r, implementation)
    case KindAgreed(found, implementation, _) => FoundOk(w, r, found, implementation) && Verified(w, r, implementation)
    case LayoutStored(found, implementation, _) =>
      && Verified(w, r, implementation) && Usable(w, implementation)
      && (found.FoundProxy? ==>
            found.kind != ViaBeacon && LiveUsable(w, r.address) && KindFits(w.code[r.address], found.kind))
    case Done(at, implementation, sent) =>
      && (sent.Some? ==> SettledAt(w, at, sent.value, Landed))
      && (r.ForceImport? ==> Verified(w, r, implementation) && Usable(w, implementation))
    case Failed(error) => ErrorOk(w, r, error)
  }

  ghost predicate SettledAt(w: World, at: Address, tx: TxId, status: Status) {
    tx < |w.txs| && w.txs[tx].effect.at == at && w.txs[tx].status == status
  }

  /** What a failed operation may claim: a revert that was mined, or the address its transaction creates. */
  ghost predicate ErrorOk(w: World, r: Request, error: Error) {
    match error
    case TransactionReverted(tx) => tx < |w.txs| && w.txs[tx].status.Reverted?
    case Indeterminate(tx, live) =>
      && tx < |w.txs|
      && (live.Some? <==> !IsUpgrade(r))
      && (live.Some? ==> w.txs[tx].effect.Create? && w.txs[tx].effect.at == live.value)
    case SenderMismatch(at, tx) => SettledAt(w, at, tx, Landed) && !IsUpgrade(r)
    case VerificationFailed(at, tx) => SettledAt(w, at, tx, Landed) && IsUpgrade(r)
    case RecordWriteFailed(at, tx) => SettledAt(w, at, tx, Landed)
    case ReadBackFailed(tx) => IsUpgrade(r)
    case RecordReadFailed => IsUpgrade(r)
    case AdoptionWriteFailed => r.ForceImport?
    case _ => true
  }

  lemma GrowsKeepsSentOk(w: World, u: World, r: Request, p: Phase)
    requires Grows(w, u) && (p.Sent? || p.Confirmed? || p.Checked?) && OpOk(w, r, p)
    ensures OpOk(u, r, p)
  {
    assert forall a <- w.code :: Nature(u.code[a]) == Nature(w.code[a]);
    if p.Checked? && LiveUsable(w, p.at) { GrowsKeepsLiveUsable(w, u, p.at); }
  }

  lemma GrowsKeepsAdoptionOk(w: World, u: World, r: Request, p: Phase)
    requires Grows(w, u) && OpOk(w, r, p) && (p.Classified? || p.CodeMatched? || p.KindAgreed? || p.LayoutStored?)
    ensures OpOk(u, r, p)
  {
    assert forall a <- w.code :: Nature(u.code[a]) == Nature(w.code[a]);
    if LiveUsable(w, r.address) { GrowsKeepsLiveUsable(w, u, r.address); }
  }

  lemma GrowsKeepsChecksOk(w: World, u: World, r: Request, p: Phase)
    requires Grows(w, u) && OpOk(w, r, p) && (BeforeSend(p) || p.Failed?)
    ensures OpOk(u, r, p)
  {
    assert forall a <- w.code :: Nature(u.code[a]) == Nature(w.code[a]);
  }

  lemma GrowsKeepsDoneOk(w: World, u: World, r: Request, p: Phase)
    requires Grows(w, u) && OpOk(w, r, p) && p.Done?
    ensures OpOk(u, r, p)
  {
    if r.ForceImport? { assert Nature(u.code[p.implementation]) == Nature(w.code[p.implementation]); }
  }

  /** The facts an operation relies on survive everything anybody else does. */
  lemma GrowsKeepsOpOk(w: World, u: World, r: Request, p: Phase)
    requires Grows(w, u) && OpOk(w, r, p)
    ensures OpOk(u, r, p)
  {
    if p.Sent? || p.Confirmed? || p.Checked? { GrowsKeepsSentOk(w, u, r, p); }
    else if p.Done? { GrowsKeepsDoneOk(w, u, r, p); }
    else if BeforeSend(p) || p.Failed? { GrowsKeepsChecksOk(w, u, r, p); }
    else { GrowsKeepsAdoptionOk(w, u, r, p); }
  }

  lemma DeployImplIsSafe(w: World, v: Validated, at: Address)
    requires Sound(w) && Fresh(w, at)
    ensures Sound(DeployImpl(w, v, at)) && Grows(w, DeployImpl(w, v, at))
  {
    NewCodeIsSafe(w, at, Implementation(v.version.code));
  }

  lemma ForeignCodeIsSafe(w: World, at: Address, c: Contract)
    requires Sound(w) && CanDeployOutside(w, at, c)
    ensures Sound(DeployOutside(w, at, c)) && Grows(w, DeployOutside(w, at, c))
  {
    NewCodeIsSafe(w, at, c);
  }

  lemma GrowsTransitive(w: World, u: World, x: World)
    requires Grows(w, u) && Grows(u, x)
    ensures Grows(w, x)
  {
    forall at: Address | Live(w.code, at).Some?
      ensures Live(x.code, at).Some? &&
              (Live(x.code, at) == Live(w.code, at) || Usable(x, Live(x.code, at).value))
    {
      assert Live(u.code, at).Some?;
    }
    forall p <- w.proxies ensures p in x.proxies && (x.proxies[p] == w.proxies[p] || Bypassed(x, p)) {
      if Bypassed(u, p) { GrowsKeepsBypassed(u, x, p); }
    }
  }

  lemma StoreForIsSafe(w: World, v: Validated, at: Address)
    requires Sound(w) && Storable(w, v.version, at)
    ensures Sound(StoreFor(w, v, at)) && Grows(w, StoreFor(w, v, at))
    ensures StoredLayout(StoreFor(w, v, at).impls, at).Some?
  {
    StoreIsSafe(w, v.version, at, v.layout);
  }

  /** A reused implementation is recorded: the entry of its version lists it. */
  lemma {:induction false} EntryIsStored(impls: seq<ImplEntry>, k: nat)
    requires k < |impls|
    ensures StoredLayout(impls, impls[k].primary).Some?
  {
    if k > 0 { EntryIsStored(impls[1..], k - 1); }
  }

  lemma FetchIsSafe(w: World, v: Validated, f: FetchAnswer)
    requires Sound(w)
    ensures var (address, u) := FetchOrDeploy(w, v, f);
            Sound(u) && Grows(w, u) && (address.Some? ==> Usable(u, address.value))
  {
    var k := EntryFor(w.impls, v.version);
    match f
    case Reuse => if k.Some? { EntryIsStored(w.impls, k.value); }
    case Deploys(at) => if Fresh(w, at) { DeployAndStoreIsSafe(w, v, at); }
    case DropsThenDeploys(at) =>
      if k.Some? && CanDrop(w, k.value) && Fresh(w, at) {
        DropIsSafe(w, k.value);
        var d := Drop(w, k.value);
        DeployAndStoreIsSafe(d, v, at);
        GrowsTransitive(w, d, StoreFor(DeployImpl(d, v, at), v, at));
      }
    case DeploysUnstored(at, _) => if Fresh(w, at) { DeployImplIsSafe(w, v, at); }
    case StoresUnconfirmed(at, landed) =>
      if Fresh(w, at) {
        DeployAndStoreIsSafe(w, v, at);
        StoreForIsSafe(w, v, at);
      }
    case EngineFault =>
  }

  lemma DeployAndStoreIsSafe(w: World, v: Validated, at: Address)
    requires Sound(w) && Fresh(w, at)
    ensures var u := StoreFor(DeployImpl(w, v, at), v, at);
            Sound(u) && Grows(w, u) && Usable(u, at)
  {
    DeployImplIsSafe(w, v, at);
    var d := DeployImpl(w, v, at);
    StoreForIsSafe(d, v, at);
    GrowsTransitive(w, d, StoreFor(d, v, at));
  }

  /** Who obeys an upgrade of a kind, sent from an account: facts a caller can read before the call. */
  predicate Accepts(code: map<Address, Contract>, at: Address, kind: Kind, account: Address, implementation: Address) {
    && at in code
    && match kind
       // The contract at the admin slot is a ProxyAdmin, of a generation there is, and the account owns it.
       case Transparent =>
         && code[at].Proxy? && code[at].admin.Some? && code[at].admin.value in code
         && code[code[at].admin.value].ProxyAdmin? && !code[code[at].admin.value].generation.Later?
         && code[code[at].admin.value].owner == account
       // The account is the proxy's admin; or it is the owner, and the implementations are UUPS ones.
       case Uups =>
         && code[at].Proxy?
         && (code[at].admin == Some(account) ||
             (code[at].owner == account && UupsOf(code, implementation).Some?
              && UupsOf(code, code[at].implementation).Some? && UupsOf(code, code[at].implementation) != Some(Dispatch.Later)))
       case ViaBeacon => code[at].Beacon? && code[at].owner == account
  }

  /** The plan was made for what the probe finds now. */
  predicate PlanIsCurrent(w: World, r: Request, kind: Kind, u: Upgrade) {
    r.UpgradeProxy? && u.plan.Some? ==>
      Dispatch.VersionOfRoute(u.plan.value.route) == ProbedVersion(w.code, ProbeSubject(u.t, kind))
  }

  /** The kind an upgrade call goes by. */
  function KindOfCall(call: Dispatch.Call): Kind {
    match call.facade
    case UpgradeableBeacon => ViaBeacon
    case UupsProxy => Uups
    case _ => Transparent
  }

  /** The contract that is asked has the entry point, if it is one that could obey. */
  predicate Understands(code: map<Address, Contract>, at: Address, call: Dispatch.Call)
    requires at in code
  {
    match KindOfCall(call)
    case Transparent =>
      call.to in code && code[call.to].ProxyAdmin? ==>
        Dispatch.ExecutedBy(Dispatch.AdminSide, code[call.to].generation, call).Some?
    case Uups =>
      code[at].Proxy? && code[at].admin != Some(call.from) && UupsOf(code, code[at].implementation).Some? ==>
        Dispatch.ExecutedBy(Dispatch.ProxySide, UupsOf(code, code[at].implementation).value, call).Some?
    case ViaBeacon => true
  }

  /** A call made for its target is obeyed exactly when the target accepts it, and has the entry point. */
  lemma AddressedIsObeyedIff(code: map<Address, Contract>, at: Address, implementation: Address, call: Dispatch.Call)
    requires at in code && implementation in code && Addressed(code[at], at, implementation, call)
    ensures Executes(code, call) == Some(at) <==>
            Accepts(code, at, KindOfCall(call), call.from, implementation) && Understands(code, at, call)
  {
  }

  /** A call planned for what the probe finds has an entry point that is found there. */
  lemma PlannedIsUnderstood(w: World, r: Request, kind: Kind, u: Upgrade, implementation: Address)
    requires UpgradeOk(w, r, kind, Some(u)) && PlanIsCurrent(w, r, kind, u)
    ensures Understands(w.code, u.t.at, CallFor(r, kind, u, implementation))
  {
  }

  /**
   While the plan is the one for what the probe finds, the call of an upgrade is obeyed exactly when the
   target accepts it: the contract at the admin slot is a ProxyAdmin the account owns; or, for the uups
   kind, the account is the proxy's admin or the owner its UUPS implementation asks for, and the new
   implementation is a UUPS one; or the account owns the beacon.
   */
  lemma CallIsObeyedIff(w: World, r: Request, kind: Kind, u: Upgrade, implementation: Address)
    requires UpgradeOk(w, r, kind, Some(u)) && PlanIsCurrent(w, r, kind, u) && implementation in w.code
    ensures Executes(w.code, CallFor(r, kind, u, implementation)) == Some(u.t.at) <==>
            Accepts(w.code, u.t.at, if r.UpgradeBeacon? then ViaBeacon else kind, AccountOf(r), implementation)
  {
    AddressedCall(w, r, kind, u, implementation);
    PlannedIsUnderstood(w, r, kind, u, implementation);
    AddressedIsObeyedIff(w.code, u.t.at, implementation, CallFor(r, kind, u, implementation));
  }

  lemma AddressedCall(w: World, r: Request, kind: Kind, u: Upgrade, implementation: Address)
    requires UpgradeOk(w, r, kind, Some(u))
    ensures Addressed(w.code[u.t.at], u.t.at, implementation, CallFor(r, kind, u, implementation))
  {
  }

  lemma FetchStepIsSafe(w: World, r: Request, p: Phase, a: Answer)
    requires Sound(w) && OpOk(w, r, p) && !r.ForceImport? && p.Queued?
    ensures var (q, u) := AdvanceSend(w, r, p, a);
            Sound(u) && Grows(w, u) && OpOk(u, r, q)
  {
    if !r.DeployBeaconProxy? && a.Fetching? {
      FetchIsSafe(w, r.v, a.fetch);
      GrowsKeepsOpOk(w, FetchOrDeploy(w, r.v, a.fetch).1, r, p);
    }
  }

  lemma UpgradeSendIsSafe(w: World, r: Request, p: Phase, a: Answer)
    requires Sound(w) && OpOk(w, r, p) && !r.ForceImport? && p.Fetched? && p.upgrade.Some?
    ensures var (q, u) := AdvanceSend(w, r, p, a);
            Sound(u) && Grows(w, u) && OpOk(u, r, q)
  {
    var Fetched(kind, upgrade, implementation) := p;
    var call := CallFor(r, kind, upgrade.value, implementation);
    AddressedCall(w, r, kind, upgrade.value, implementation);
    SendIsSafe(w, Repoint(upgrade.value.t.at, implementation, upgrade.value.basis, call));
  }

  lemma CreationSendIsSafe(w: World, r: Request, p: Phase, a: Answer)
    requires Sound(w) && OpOk(w, r, p) && !r.ForceImport? && p.Fetched? && p.upgrade.None?
    ensures var (q, u) := AdvanceSend(w, r, p, a);
            Sound(u) && Grows(w, u) && OpOk(u, r, q)
  {
    if a.Created? {
      var c := NewContract(r, p.kind, p.implementation, a.admin, a.owner);
      if CanCreate(w, a.at, c) { SendIsSafe(w, Create(a.at, c, OwnerOf(r))); }
    }
  }

  lemma SpendStepIsSafe(w: World, r: Request, p: Phase, a: Answer)
    requires Sound(w) && OpOk(w, r, p) && !r.ForceImport? && p.Fetched?
    ensures var (q, u) := AdvanceSend(w, r, p, a);
            Sound(u) && Grows(w, u) && OpOk(u, r, q)
  {
    if p.upgrade.Some? { UpgradeSendIsSafe(w, r, p, a); } else { CreationSendIsSafe(w, r, p, a); }
  }

  lemma SendStepIsSafe(w: World, r: Request, p: Phase, a: Answer)
    requires Sound(w) && OpOk(w, r, p) && !r.ForceImport? && (p.Queued? || p.Fetched?)
    ensures var (q, u) := AdvanceSend(w, r, p, a);
            Sound(u) && Grows(w, u) && OpOk(u, r, q)
  {
    if p.Queued? { FetchStepIsSafe(w, r, p, a); } else { SpendStepIsSafe(w, r, p, a); }
  }

  lemma SentStepIsSafe(w: World, r: Request, p: Phase, a: Answer)
    requires OpOk(w, r, p) && !r.ForceImport? && p.Sent?
    ensures AdvanceSettle(w, r, p, a).1 == w && OpOk(w, r, AdvanceSettle(w, r, p, a).0)
  {
  }

  lemma ConfirmedStepIsSafe(w: World, r: Request, p: Phase, a: Answer)
    requires Sound(w) && OpOk(w, r, p) && !r.ForceImport? && p.Confirmed?
    ensures AdvanceSettle(w, r, p, a).1 == w && OpOk(w, r, AdvanceSettle(w, r, p, a).0)
  {
    assert TxOk(w, w.txs[p.tx]);
  }

  lemma ConfirmStepIsSafe(w: World, r: Request, p: Phase, a: Answer)
    requires Sound(w) && OpOk(w, r, p) && !r.ForceImport? && (p.Sent? || p.Confirmed?)
    ensures AdvanceSettle(w, r, p, a).1 == w && OpOk(w, r, AdvanceSettle(w, r, p, a).0)
  {
    if p.Sent? { SentStepIsSafe(w, r, p, a); } else { ConfirmedStepIsSafe(w, r, p, a); }
  }

  /** The proxy of a landed transaction can be recorded under the operation's kind. */
  lemma CheckedIsRecordable(w: World, r: Request, p: Phase)
    requires Sound(w) && OpOk(w, r, p) && p.Checked?
    ensures Recordable(w, p.at, p.kind)
  {
    assert TxOk(w, w.txs[p.tx]);
    if r.UpgradeProxy? && p.kind == Uups && w.code[p.at].admin.Some? { assert LandedPast(w.code[p.at], p.at, w.txs[p.tx]); }
  }

  lemma RecordStepEnds(w: World, r: Request, p: Phase, a: Answer)
    requires OpOk(w, r, p) && !r.ForceImport? && p.Checked?
    ensures var (q, u) := AdvanceSettle(w, r, p, a);
            (u == w || u == RecordProxy(w, p.at, p.kind)) && OpOk(u, r, q)
  {
    assert SettledAt(w, p.at, p.tx, Landed);
  }

  lemma RecordStepIsSafe(w: World, r: Request, p: Phase, a: Answer)
    requires Sound(w) && OpOk(w, r, p) && !r.ForceImport? && p.Checked?
    ensures var (q, u) := AdvanceSettle(w, r, p, a);
            Sound(u) && Grows(w, u) && OpOk(u, r, q)
  {
    CheckedIsRecordable(w, r, p);
    RecordIsSafe(w, p.at, p.kind);
    RecordStepEnds(w, r, p, a);
  }

  /** An adoption's reads change nothing, and what they establish holds. */
  lemma ImportReadsAreSafe(w: World, r: Request, p: Phase, a: Answer)
    requires Sound(w) && OpOk(w, r, p) && r.ForceImport? && !Final(p) && !p.KindAgreed? && !p.LayoutStored?
    ensures AdvanceImport(w, r, p, a).1 == w && OpOk(w, r, AdvanceImport(w, r, p, a).0)
  {
  }

  lemma ImportStoreIsSafe(w: World, r: Request, p: Phase, a: Answer)
    requires Sound(w) && OpOk(w, r, p) && r.ForceImport? && p.KindAgreed?
    ensures var (q, u) := AdvanceImport(w, r, p, a);
            Sound(u) && Grows(w, u) && OpOk(u, r, q)
  {
    StoreForIsSafe(w, r.v, p.implementation);
    GrowsKeepsOpOk(w, StoreFor(w, r.v, p.implementation), r, p);
  }

  lemma ImportRecordEnds(w: World, r: Request, p: Phase, a: Answer)
    requires OpOk(w, r, p) && r.ForceImport? && p.LayoutStored?
    ensures var (q, u) := AdvanceImport(w, r, p, a);
            (u == w || (p.found.FoundProxy? && u == RecordProxy(w, r.address, p.found.kind))) && OpOk(u, r, q)
  {
    assert Verified(w, r, p.implementation) && Usable(w, p.implementation);
  }

  lemma ImportRecordIsSafe(w: World, r: Request, p: Phase, a: Answer)
    requires Sound(w) && OpOk(w, r, p) && r.ForceImport? && p.LayoutStored?
    ensures var (q, u) := AdvanceImport(w, r, p, a);
            Sound(u) && Grows(w, u) && OpOk(u, r, q)
  {
    if p.found.FoundProxy? { RecordIsSafe(w, r.address, p.found.kind); }
    ImportRecordEnds(w, r, p, a);
  }

  lemma ImportStepIsSafe(w: World, r: Request, p: Phase, a: Answer)
    requires Sound(w) && OpOk(w, r, p) && r.ForceImport? && !Final(p)
    ensures var (q, u) := AdvanceImport(w, r, p, a);
            Sound(u) && Grows(w, u) && OpOk(u, r, q)
  {
    if p.KindAgreed? { ImportStoreIsSafe(w, r, p, a); }
    else if p.LayoutStored? { ImportRecordIsSafe(w, r, p, a); }
    else { ImportReadsAreSafe(w, r, p, a); }
  }

  lemma ProxyChecksAreSafe(w: World, host: Option<Host>, r: Request, p: Phase, a: Answer)
    requires r.UpgradeProxy? && OpOk(w, r, p) && PreQueue(p)
    ensures OpOk(w, r, AdvanceUpgradeProxy(w, host, r, p, a))
  {
  }

  lemma BeaconChecksAreSafe(w: World, host: Option<Host>, r: Request, p: Phase, a: Answer)
    requires r.UpgradeBeacon? && OpOk(w, r, p) && PreQueue(p)
    ensures OpOk(w, r, AdvanceUpgradeBeacon(w, host, r, p, a))
  {
  }

  lemma CreationChecksAreSafe(w: World, host: Option<Host>, r: Request, p: Phase, a: Answer)
    requires (r.DeployProxy? || r.DeployBeacon? || r.DeployBeaconProxy?) && PreQueue(p) && OpOk(w, r, p)
    ensures r.DeployProxy? ==> OpOk(w, r, AdvanceDeployProxy(w, host, r, p, a))
    ensures !r.DeployProxy? ==> OpOk(w, r, AdvanceBeaconCreation(w, host, r, p, a))
  {
  }

  lemma PreQueueStepIsSafe(w: World, host: Option<Host>, r: Request, p: Phase, a: Answer)
    requires OpOk(w, r, p) && !r.ForceImport? && PreQueue(p)
    ensures Advance(w, host, r, p, a).1 == w && OpOk(w, r, Advance(w, host, r, p, a).0)
  {
    if r.UpgradeProxy? { ProxyChecksAreSafe(w, host, r, p, a); }
    else if r.UpgradeBeacon? { BeaconChecksAreSafe(w, host, r, p, a); }
    else { CreationChecksAreSafe(w, host, r, p, a); }
  }

  /** Every step of every operation keeps both stores sound, whatever the node, host and engine answer. */
  lemma AdvanceIsSafe(w: World, host: Option<Host>, r: Request, p: Phase, a: Answer)
    requires Sound(w) && OpOk(w, r, p) && Steppable(w, p)
    ensures var (q, u) := Advance(w, host, r, p, a);
            Sound(u) && Grows(w, u) && OpOk(u, r, q)
  {
    if r.ForceImport? { ImportStepIsSafe(w, r, p, a); }
    else if PreQueue(p) { PreQueueStepIsSafe(w, host, r, p, a); }
    else if p.Queued? || p.Fetched? { SendStepIsSafe(w, r, p, a); }
    else if p.Sent? || p.Confirmed? { ConfirmStepIsSafe(w, r, p, a); }
    else if p.Checked? { RecordStepIsSafe(w, r, p, a); }
  }

  ghost predicate Inv(s: System) {
    Sound(s.world) && forall op <- s.ops :: OpOk(s.world, op.request, op.phase)
  }

  lemma ApplyKeepsInv(s: System, e: Event)
    requires Inv(s) && Enabled(s, e)
    ensures Inv(Apply(s, e)) && Grows(s.world, Apply(s, e).world)
  {
    var t := Apply(s, e);
    match e {
      case Issued(_, _) =>
      case Stepped(i, a) =>
        var op := s.ops[i];
        AdvanceIsSafe(s.world, op.host, op.request, op.phase, a);
      case Mined(x, ok) => MineIsSafe(s.world, x, ok);
      case DeployedOutside(at, c) => ForeignCodeIsSafe(s.world, at, c);
      case Dropped(k) => DropIsSafe(s.world, k);
      case LandedLate(k, at) => LandStoredIsSafe(s.world, k, at);
      case HandedOver(at, owner) => HandOverIsSafe(s.world, at, owner);
    }
    forall op <- t.ops ensures OpOk(t.world, op.request, op.phase) {
      var j :| 0 <= j < |t.ops| && t.ops[j] == op;
      if j < |s.ops| && t.ops[j] == s.ops[j] {
        assert s.ops[j] in s.ops;
        GrowsKeepsOpOk(s.world, t.world, op.request, op.phase);
      }
    }
  }

  lemma {:induction false} RunKeepsInv(events: seq<Event>)
    requires Run(events).Some?
    ensures Inv(Run(events).value)
    decreases |events|
  {
    if events != [] {
      RunKeepsInv(events[..|events| - 1]);
      ApplyKeepsInv(Run(events[..|events| - 1]).value, events[|events| - 1]);
    }
  }

  /**
   Over every run, every transparent or UUPS proxy in the record runs an implementation that is on
   chain and whose layout is stored, so the baseline read of a later upgrade never finds it missing.
   */
  lemma RecordedProxiesHaveStoredLayouts(events: seq<Event>, p: Address)
    requires Run(events).Some?
    requires p in Run(events).value.world.proxies && Run(events).value.world.proxies[p] != ViaBeacon
    ensures var w := Run(events).value.world;
            Live(w.code, p).Some? && Usable(w, Live(w.code, p).value)
  {
    RunKeepsInv(events);
    assert ProxyOk(Run(events).value.world, p);
  }

  /**
   Over every run, each recorded proxy is of its recorded kind: transparent only with an admin, beacon
   only if it is a beacon proxy, uups only without an admin, or else a UUPS call to it landed although it
   has one. Only proxies are recorded.
   */
  lemma RecordedKindsFit(events: seq<Event>, p: Address)
    requires Run(events).Some? && p in Run(events).value.world.proxies
    ensures var w := Run(events).value.world;
            p in w.code && (KindFits(w.code[p], w.proxies[p]) || (w.proxies[p] == Uups && Bypassed(w, p)))
  {
    RunKeepsInv(events);
    assert ProxyOk(Run(events).value.world, p);
  }

  /**
   Over every run, the record tells the truth: an address an entry answers for, once it has code, has
   the code of that entry's version. So a layout found by address is the layout of what runs there.
   */
  lemma RecordTellsTheTruth(events: seq<Event>, e: ImplEntry, a: Address)
    requires Run(events).Some?
    requires var w := Run(events).value.world; e in w.impls && Answers(e, a) && a in w.code
    ensures Run(events).value.world.code[a] == Implementation(e.version.code)
  {
    RunKeepsInv(events);
  }

  /**
   Over every run, at any moment, an upgrade call the plugin sent would repoint its target exactly when
   the target accepts it as things stand, and the contract asked has the entry point.
   */
  lemma SentCallsAreObeyedIff(events: seq<Event>, t: TxId)
    requires Run(events).Some? && t < |Run(events).value.world.txs| && Run(events).value.world.txs[t].effect.Repoint?
    ensures var w := Run(events).value.world;
            var e := w.txs[t].effect;
            && e.at in w.code
            && (Applicable(w.code, e) <==>
                  Accepts(w.code, e.at, KindOfCall(e.call), e.call.from, e.implementation) && Understands(w.code, e.at, e.call))
  {
    RunKeepsInv(events);
    var w := Run(events).value.world;
    var e := w.txs[t].effect;
    assert TxOk(w, w.txs[t]);
    AddressedIsObeyedIff(w.code, e.at, e.implementation, e.call);
  }

  /**
   Over every run, mining a pending upgrade call lands it, and repoints its target, exactly when the
   target accepts it at that moment and the node does not fail it; otherwise it is reverted and the chain
   stays as it was.
   */
  lemma CallsLandIff(events: seq<Event>, t: TxId, ok: bool)
    requires Run(events).Some? && CanMine(Run(events).value.world, t)
    requires Run(events).value.world.txs[t].effect.Repoint?
    ensures var w := Run(events).value.world;
            var e := w.txs[t].effect;
            var u := Mine(w, t, ok);
            e.at in w.code &&
            if ok && Accepts(w.code, e.at, KindOfCall(e.call), e.call.from, e.implementation) && Understands(w.code, e.at, e.call)
            then u.txs[t].status.Landed? && Live(u.code, e.at) == Some(e.implementation)
            else u.txs[t].status.Reverted? && u.code == w.code && u.swaps == w.swaps
  {
    SentCallsAreObeyedIff(events, t);
  }

  /**
   Over every run, a transparent proxy or a beacon that a creation puts on chain accepts upgrades from the
   owner the creation was given.
   */
  lemma CreationsAcceptTheirOwner(events: seq<Event>, t: TxId, implementation: Address)
    requires Run(events).Some? && CanMine(Run(events).value.world, t)
    requires Run(events).value.world.txs[t].effect.Create? && Applicable(Run(events).value.world.code, Run(events).value.world.txs[t].effect)
    ensures var e := Run(events).value.world.txs[t].effect;
            var u := Mine(Run(events).value.world, t, true);
            && (e.contract.Proxy? && e.contract.admin.Some? ==> Accepts(u.code, e.at, Transparent, e.owner, implementation))
            && (e.contract.Beacon? ==> Accepts(u.code, e.at, ViaBeacon, e.contract.owner, implementation))
  {
  }

  /** The operation failed without a transaction of its own, or the host threw while it sent one. */
  ghost predicate FailedBeforeSent(e: Error) {
    e.Refused? || e.ImplementationFailed? || e.SendFailed?
  }

  /** A mined revert, or the address the transaction creates, or the live proxy or beacon it created. */
  ghost predicate NamesWhatIsLive(w: World, e: Error) {
    || (e.TransactionReverted? && e.tx < |w.txs| && w.txs[e.tx].status.Reverted?)
    || (e.Indeterminate? && e.live.Some? && e.tx < |w.txs| && w.txs[e.tx].effect.Create? && w.txs[e.tx].effect.at == e.live.value)
    || ((e.SenderMismatch? || e.RecordWriteFailed?) && SettledAt(w, e.at, e.tx, Landed) && e.at in w.code)
  }

  lemma FailureIsTrue(w: World, r: Request, p: Phase)
    requires Sound(w) && OpOk(w, r, p)
    requires p.Failed? && !FailedBeforeSent(p.error) && !IsUpgrade(r) && !r.ForceImport?
    ensures NamesWhatIsLive(w, p.error)
  {
    assert ErrorOk(w, r, p.error);
    if p.error.SenderMismatch? || p.error.RecordWriteFailed? { assert TxOk(w, w.txs[p.error.tx]); }
  }

  lemma OpsAreOk(s: System, i: nat)
    requires Inv(s) && i < |s.ops|
    ensures OpOk(s.world, s.ops[i].request, s.ops[i].phase)
  {
    assert s.ops[i] in s.ops;
  }

  /**
   Over every run, a proxy or beacon creation that failed once its transaction was known names either a
   transaction that was mined and reverted, or the address its transaction creates.
   */
  lemma FailedCreationsNameWhatIsLive(events: seq<Event>, i: nat)
    requires Run(events).Some? && i < |Run(events).value.ops|
    requires var op := Run(events).value.ops[i];
             op.phase.Failed? && !FailedBeforeSent(op.phase.error) && !IsUpgrade(op.request) && !op.request.ForceImport?
    ensures NamesWhatIsLive(Run(events).value.world, Run(events).value.ops[i].phase.error)
  {
    RunKeepsInv(events);
    var s := Run(events).value;
    OpsAreOk(s, i);
    FailureIsTrue(s.world, s.ops[i].request, s.ops[i].phase);
  }

  /** No transaction the plugin ever sends names an implementation the record does not hold. */
  lemma SentTransactionsNameStoredImplementations(events: seq<Event>, t: TxId)
    requires Run(events).Some? && t < |Run(events).value.world.txs|
    ensures var w := Run(events).value.world;
            var e := w.txs[t].effect;
            && (e.Repoint? ==> Usable(w, e.implementation))
            && (e.Create? && (e.contract.Proxy? || e.contract.Beacon?) ==> Usable(w, e.contract.implementation))
  {
    RunKeepsInv(events);
    var w := Run(events).value.world;
    assert TxOk(w, w.txs[t]);
  }
}
