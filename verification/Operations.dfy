/**
 The operations as step machines over the world (`proxy/deploy-proxy.ts`, `proxy/upgrade-proxy.ts`,
 `beacon/index.ts`, `adopt/index.ts`).

 One step is one awaited effect. The `Answer` says what the node, the host and the engine did with
 it, so every refusal, revert, lost receipt and torn write is some sequence of answers; an operation
 that is cut short simply takes no further step.
 */
module Operations {
  import opened Wrappers
  import opened World
  import Dispatch
  import Serialize

  type Host = Serialize.Host

  datatype Redeploy = Always | Never | OnChange

  /** `accepts`: the stored layouts the storage report lets this implementation follow, under the options of this call. */
  datatype Validated = Validated(version: Version, layout: Layout, accepts: set<Layout>, redeploy: Redeploy)

  datatype Found = FoundProxy(kind: Kind) | FoundBeacon | FoundImplementation

  datatype Request =
    | DeployProxy(v: Validated, kind: Option<Kind>, initialOwner: Option<Address>, sender: Option<Address>,
                  prior: Option<Address>, initializerFalse: bool, cheatcodeArg: bool)
    | DeployBeacon(v: Validated, initialOwner: Option<Address>, sender: Option<Address>)
    | DeployBeaconProxy(beacon: Address, initializerFalse: bool)
    | UpgradeProxy(v: Validated, proxy: Address, hasCallData: bool, account: Address)
    | UpgradeBeacon(v: Validated, beacon: Address, account: Address)
    | ForceImport(v: Validated, address: Address, asserted: Option<Found>)

  datatype Refusal =
    | ValidationFailed | DeployerAbsent | KindUnsupported | OwnerUnsupported | StaleProxyRecord
    | AdminAsOwner | CheatcodeCollision | EmptyInitializer | InitialOwnerRequired | NotABeacon | NothingToAdopt
    | IsBeaconProxy(beacon: Address) | KindMismatch | NotTransparent | NoStoredLayout
    | StorageIncompatible | UnknownGeneration | CodeMismatch | RoundTripFailed

  datatype Error =
    | Refused(why: Refusal)
    | ImplementationFailed
    | SendFailed
    | TransactionReverted(tx: TxId)
    | Indeterminate(tx: TxId, live: Option<Address>)
    | SenderMismatch(at: Address, tx: TxId)
    | VerificationFailed(at: Address, tx: TxId)
    | ReadBackFailed(tx: TxId)
    | RecordReadFailed
    | RecordWriteFailed(at: Address, tx: TxId)
    | AdoptionWriteFailed

  /** What runs behind a proxy or beacon when an upgrade starts, and the authority over it. */
  datatype Target = Target(at: Address, current: Address, admin: Option<Address>)

  /** What the record's report says of the address a contract named before. */
  datatype Replay = Proceed | UnlessImplementation | Stale

  /** An upgrade that passed its storage comparison, with its dispatch plan if it is a proxy's. */
  datatype Upgrade = Upgrade(t: Target, basis: Basis, plan: Option<Dispatch.Plan>)

  datatype Phase =
    | Begun
    | Gated
    | Opened(replay: Replay)
    | Judged(kind: Kind, replay: Replay)
    | Vouched(kind: Kind)
    | SlotsRead(t: Target)
    | KindKnown(t: Target, kind: Kind)
    | LayoutFound(t: Target, kind: Kind, layout: Layout)
    | Compared(t: Target, kind: Kind, basis: Basis)
    | Queued(kind: Kind, upgrade: Option<Upgrade>)
    | Fetched(kind: Kind, upgrade: Option<Upgrade>, implementation: Address)
    | Sent(kind: Kind, at: Address, implementation: Address, tx: TxId)
    | Confirmed(kind: Kind, at: Address, implementation: Address, tx: TxId)
    | Checked(kind: Kind, at: Address, implementation: Address, tx: TxId)
    | Classified(found: Found, implementation: Address)
    | CodeMatched(found: Found, implementation: Address)
    | KindAgreed(found: Found, implementation: Address, recordProxy: bool)
    | LayoutStored(found: Found, implementation: Address, recordProxy: bool)
    | Done(at: Address, implementation: Address, sent: Option<TxId>)
    | Failed(error: Error)

  datatype FetchAnswer =
    | Reuse
    | Deploys(at: Address)
    | DropsThenDeploys(at: Address)
    | DeploysUnstored(at: Address, named: bool)
    | StoresUnconfirmed(at: Address, landed: bool)
    | EngineFault

  datatype Answer =
    | Fault
    | Completed
    | Torn
    | OfKind(kind: Kind)
    | AdminProbe(looksLikeAdmin: bool)
    | Fetching(fetch: FetchAnswer)
    | Created(at: Address, admin: Address, owner: Address, thrown: bool)
    | Receipt(heard: bool)
    | Signer(from: Option<Address>)

  predicate Final(p: Phase) {
    p.Done? || p.Failed?
  }

  /** Before the one queued step begins. */
  predicate PreQueue(p: Phase) {
    || p.Begun? || p.Gated? || p.Opened? || p.Judged? || p.Vouched?
    || p.SlotsRead? || p.KindKnown? || p.LayoutFound? || p.Compared?
  }

  /** The operation has not sent anything yet. */
  predicate BeforeSend(p: Phase) {
    PreQueue(p) || p.Queued? || p.Fetched?
  }

  function Refuse(why: Refusal): Phase { Failed(Refused(why)) }

  // ---------- implementations ----------

  predicate MayDeploy(w: World, v: Validated) {
    match v.redeploy
    case Always => true
    case OnChange => EntryFor(w.impls, v.version).None?
    case Never => false
  }

  function DeployImpl(w: World, v: Validated, at: Address): World {
    w.(code := w.code[at := Implementation(v.version.code)])
  }

  function StoreFor(w: World, v: Validated, at: Address): World {
    w.(impls := StoreImpl(w.impls, v.version, at, v.layout))
  }

  /** `fetchOrDeployImplementation`: reuse, or deploy and store, under the record's lock. */
  function FetchOrDeploy(w: World, v: Validated, f: FetchAnswer): (Option<Address>, World) {
    var k := EntryFor(w.impls, v.version);
    match f
    case Reuse =>
      if v.redeploy != Always && k.Some? && w.impls[k.value].primary in w.code
      then (Some(w.impls[k.value].primary), w) else (None, w)
    case Deploys(at) =>
      if MayDeploy(w, v) && Fresh(w, at) then (Some(at), StoreFor(DeployImpl(w, v, at), v, at)) else (None, w)
    case DropsThenDeploys(at) =>
      if k.Some? && CanDrop(w, k.value) && v.redeploy != Never && Fresh(w, at)
      then (Some(at), StoreFor(DeployImpl(Drop(w, k.value), v, at), v, at)) else (None, w)
    case DeploysUnstored(at, _) =>
      if MayDeploy(w, v) && Fresh(w, at) then (None, DeployImpl(w, v, at)) else (None, w)
    case StoresUnconfirmed(at, landed) =>
      if MayDeploy(w, v) && Fresh(w, at)
      then (None, StoreFor(if landed then DeployImpl(w, v, at) else w, v, at)) else (None, w)
    case EngineFault => (None, w)
  }

  // ---------- shared queued steps ----------

  function Confirm(w: World, tx: TxId, heard: bool): Status
    requires tx < |w.txs|
  {
    if heard then w.txs[tx].status else Pending
  }

  /** `decideDeployReplay`, on the report the record session takes when it opens. */
  function DecideReplay(w: World, prior: Option<Address>): Replay {
    if prior.None? then Proceed
    else if prior.value !in w.code then Stale
    else if prior.value in w.proxies then Proceed
    else UnlessImplementation
  }

  /** The decision, with the exception for an implementation the record knows. */
  predicate ReplayProceeds(w: World, prior: Option<Address>) {
    || prior.None?
    || (prior.value in w.proxies && prior.value in w.code)
    || (prior.value !in w.proxies && prior.value in w.code && StoredLayout(w.impls, prior.value).Some?)
  }

  /** `admin` is where a transparent proxy's own ProxyAdmin goes, `owner` what the initializer makes of the proxy. */
  function NewContract(r: Request, kind: Kind, implementation: Address, admin: Address, owner: Address): Contract {
    match r
    case DeployBeacon(_, _, _) => Beacon(implementation, OwnerOf(r))
    case DeployBeaconProxy(beacon, _) => BeaconProxy(beacon)
    case _ => Proxy(implementation, if kind == Transparent then Some(admin) else None, owner)
  }

  /** The owner a creation is given: the caller's, or the sender. */
  function OwnerOf(r: Request): Address {
    match r
    case DeployProxy(_, _, owner, sender, _, _, _) => if owner.Some? then owner.value else if sender.Some? then sender.value else 0
    case DeployBeacon(_, owner, sender) => if owner.Some? then owner.value else if sender.Some? then sender.value else 0
    case _ => 0
  }

  /** The account an upgrade is sent from. */
  function AccountOf(r: Request): Address {
    match r
    case UpgradeProxy(_, _, _, account) => account
    case UpgradeBeacon(_, _, account) => account
    case _ => 0
  }

  /** The call an upgrade sends: by plan for a proxy, through its admin when it is transparent. */
  function CallFor(r: Request, kind: Kind, u: Upgrade, implementation: Address): Dispatch.Call {
    if u.plan.None? then Dispatch.BeaconCall(u.t.at, implementation, AccountOf(r))
    else Dispatch.UpgradeCall(u.plan.value, u.t.at, if kind == Transparent then u.t.admin else None,
                              implementation, r.UpgradeProxy? && r.hasCallData, AccountOf(r))
  }

  /** Fetch, then the one transaction of the operation, for all five sending operations. */
  function AdvanceSend(w: World, r: Request, p: Phase, a: Answer): (Phase, World)
    requires !r.ForceImport? && (p.Queued? || p.Fetched?)
  {
    match p
    case Queued(kind, upgrade) =>
      if r.DeployBeaconProxy? then (Fetched(kind, upgrade, r.beacon), w)
      else if !a.Fetching? then (Failed(ImplementationFailed), w)
      else
        var (address, u) := FetchOrDeploy(w, r.v, a.fetch);
        if address.None? then (Failed(ImplementationFailed), u)
        else (Fetched(kind, upgrade, address.value), u)
    case Fetched(kind, upgrade, implementation) =>
      if upgrade.Some? then
        if !a.Completed? && !a.Torn? then (Failed(SendFailed), w)
        else
          var u := Send(w, Repoint(upgrade.value.t.at, implementation, upgrade.value.basis, CallFor(r, kind, upgrade.value, implementation)));
          (if a.Torn? then Failed(SendFailed) else Sent(kind, upgrade.value.t.at, implementation, |w.txs|), u)
      else if a.Created? && CanCreate(w, a.at, NewContract(r, kind, implementation, a.admin, a.owner)) then
        var u := Send(w, Create(a.at, NewContract(r, kind, implementation, a.admin, a.owner), OwnerOf(r)));
        (if a.thrown then Failed(SendFailed) else Sent(kind, a.at, implementation, |w.txs|), u)
      else (Failed(SendFailed), w)
  }

  /** Only a creation's refusals name the address that may be live. */
  function LiveFact(r: Request, at: Address): Option<Address> {
    if r.UpgradeProxy? || r.UpgradeBeacon? then None else Some(at)
  }

  function AdvanceSettle(w: World, r: Request, p: Phase, a: Answer): (Phase, World)
    requires !r.ForceImport? && (p.Sent? || p.Confirmed? || p.Checked?)
    requires p.tx < |w.txs|
  {
    match p
    case Sent(kind, at, implementation, tx) =>
      (match Confirm(w, tx, a.Receipt? && a.heard)
       case Landed => (Confirmed(kind, at, implementation, tx), w)
       case Reverted => (Failed(TransactionReverted(tx)), w)
       case Pending => (Failed(Indeterminate(tx, LiveFact(r, at))), w))
    case Confirmed(kind, at, implementation, tx) =>
      (match r
       case DeployProxy(_, _, _, sender, _, _, _) =>
         if a.Signer? && a.from.Some? && sender.Some? && a.from != sender then (Failed(SenderMismatch(at, tx)), w)
         else (Checked(kind, at, implementation, tx), w)
       case DeployBeacon(_, _, _) => (Done(at, implementation, Some(tx)), w)
       case DeployBeaconProxy(_, _) => (Checked(kind, at, implementation, tx), w)
       case UpgradeBeacon(_, _, _) =>
         if a.Fault? then (Failed(ReadBackFailed(tx)), w)
         else if Live(w.code, at) != Some(implementation) then (Failed(VerificationFailed(at, tx)), w)
         else (Done(at, implementation, Some(tx)), w)
       case UpgradeProxy(_, _, _, _) =>
         if a.Fault? then (Failed(ReadBackFailed(tx)), w)
         else if Live(w.code, at) != Some(implementation) then (Failed(VerificationFailed(at, tx)), w)
         else (Checked(kind, at, implementation, tx), w))
    case Checked(kind, at, implementation, tx) =>
      if r.UpgradeProxy? && at in w.proxies then
        (if a.Fault? then Failed(RecordReadFailed) else Done(at, implementation, Some(tx)), w)
      else match a
        case Fault => (Failed(RecordWriteFailed(at, tx)), w)
        case Torn => (Failed(RecordWriteFailed(at, tx)), RecordProxy(w, at, kind))
        case _ => (Done(at, implementation, Some(tx)), RecordProxy(w, at, kind))
  }

  // ---------- before the queue ----------

  /** Where the version is asked for: the admin of a transparent proxy, or the proxy. */
  function ProbeSubject(t: Target, kind: Kind): Address {
    if kind == Transparent && t.admin.Some? then t.admin.value else t.at
  }

  function AdvanceUpgradeProxy(w: World, host: Option<Host>, r: Request, p: Phase, a: Answer): Phase
    requires r.UpgradeProxy? && PreQueue(p)
  {
    if a.Fault? then (if p.Begun? then Refuse(ValidationFailed) else Refuse(RoundTripFailed))
    else match p
      case Begun => if host.None? then Refuse(DeployerAbsent) else Gated
      case Gated =>
        (if r.proxy !in w.code then Refuse(NothingToAdopt)
         else match w.code[r.proxy]
           case Proxy(implementation, admin, _) => SlotsRead(Target(r.proxy, implementation, admin))
           case BeaconProxy(beacon) => Refuse(IsBeaconProxy(beacon))
           case _ => Refuse(NothingToAdopt))
      case SlotsRead(t) =>
        if !a.OfKind? || a.kind == ViaBeacon then Refuse(KindUnsupported)
        else if t.at in w.proxies && w.proxies[t.at] != a.kind then Refuse(KindMismatch)
        else KindKnown(t, a.kind)
      case KindKnown(t, kind) =>
        var layout := StoredLayout(w.impls, t.current);
        if layout.None? then Refuse(NoStoredLayout) else LayoutFound(t, kind, layout.value)
      case LayoutFound(t, kind, layout) =>
        if layout !in r.v.accepts then Refuse(StorageIncompatible)
        else Compared(t, kind, Basis(t.current, layout, r.v.accepts))
      case Compared(t, kind, basis) =>
        if kind == Transparent && t.admin.None? then Refuse(NotTransparent)
        else
          var side := if kind == Transparent then Dispatch.AdminSide else Dispatch.ProxySide;
          var plan := Dispatch.PlanUpgradeDispatch(side, ProbedVersion(w.code, ProbeSubject(t, kind)), r.hasCallData);
          if plan.Err? then Refuse(UnknownGeneration)
          else Queued(kind, Some(Upgrade(t, basis, Some(plan.value))))
      case _ => Refuse(RoundTripFailed)
  }

  function AdvanceUpgradeBeacon(w: World, host: Option<Host>, r: Request, p: Phase, a: Answer): Phase
    requires r.UpgradeBeacon? && PreQueue(p)
  {
    if a.Fault? then (if p.SlotsRead? then Refuse(ValidationFailed) else Refuse(RoundTripFailed))
    else match p
      case Begun =>
        (if r.beacon !in w.code then Refuse(NotABeacon)
         else match w.code[r.beacon]
           case Beacon(implementation, _) => SlotsRead(Target(r.beacon, implementation, None))
           case _ => Refuse(NotABeacon))
      case SlotsRead(t) => KindKnown(t, ViaBeacon)
      case KindKnown(t, kind) =>
        var layout := StoredLayout(w.impls, t.current);
        if layout.None? then Refuse(NoStoredLayout) else LayoutFound(t, kind, layout.value)
      case LayoutFound(t, kind, layout) =>
        if layout !in r.v.accepts then Refuse(StorageIncompatible)
        else Compared(t, kind, Basis(t.current, layout, r.v.accepts))
      case Compared(t, kind, basis) =>
        if host.None? then Refuse(DeployerAbsent) else Queued(kind, Some(Upgrade(t, basis, None)))
      case _ => Refuse(RoundTripFailed)
  }

  /** The session opens; validation and the kind; the record's word on a prior address; the owner probe. */
  function AdvanceDeployProxy(w: World, host: Option<Host>, r: Request, p: Phase, a: Answer): Phase
    requires r.DeployProxy? && PreQueue(p)
  {
    match p
    case Begun => if a.Fault? then Refuse(RoundTripFailed) else Opened(DecideReplay(w, r.prior))
    case Opened(replay) =>
      if !a.OfKind? then Refuse(ValidationFailed)
      else
        var kind := if r.kind.Some? then r.kind.value else a.kind;
        if kind == ViaBeacon then Refuse(KindUnsupported)
        else if kind == Uups && r.initialOwner.Some? then Refuse(OwnerUnsupported)
        else if host.None? then Refuse(DeployerAbsent)
        else if replay.Stale? then Refuse(StaleProxyRecord)
        else Judged(kind, replay)
    case Judged(kind, replay) =>
      if replay.UnlessImplementation? && a.Fault? then Refuse(RoundTripFailed)
      else if replay.UnlessImplementation? && r.prior.Some? && StoredLayout(w.impls, r.prior.value).None? then Refuse(StaleProxyRecord)
      else if r.cheatcodeArg then Refuse(CheatcodeCollision)
      else if r.initializerFalse then Refuse(EmptyInitializer)
      else if kind == Transparent && r.initialOwner.None? && r.sender.None? then Refuse(InitialOwnerRequired)
      else Vouched(kind)
    case Vouched(kind) =>
      if a.Fault? then Refuse(RoundTripFailed)
      else if kind != Transparent then Queued(kind, None)
      else if !a.AdminProbe? then Refuse(RoundTripFailed)
      else if a.looksLikeAdmin then Refuse(AdminAsOwner)
      else Queued(kind, None)
    case _ => Refuse(RoundTripFailed)
  }

  function AdvanceBeaconCreation(w: World, host: Option<Host>, r: Request, p: Phase, a: Answer): Phase
    requires (r.DeployBeacon? || r.DeployBeaconProxy?) && PreQueue(p)
  {
    if a.Fault? || !p.Begun? then Refuse(ValidationFailed)
    else match r
      case DeployBeacon(_, owner, sender) =>
        if host.None? then Refuse(DeployerAbsent)
        else if owner.None? && sender.None? then Refuse(InitialOwnerRequired)
        else Queued(ViaBeacon, None)
      case DeployBeaconProxy(beacon, initializerFalse) =>
        if beacon !in w.code || !w.code[beacon].Beacon? then Refuse(NotABeacon)
        else if initializerFalse then Refuse(EmptyInitializer)
        else if host.None? then Refuse(DeployerAbsent)
        else Queued(ViaBeacon, None)
  }

  // ---------- adoption ----------

  /** What `runForceImport` finds at an address, and the implementation it will record. */
  function Classify(w: World, at: Address): Result<(Found, Address), Refusal> {
    if at !in w.code then Err(NothingToAdopt)
    else match w.code[at]
      case BeaconProxy(beacon) =>
        if beacon in w.code && w.code[beacon].Beacon? then Ok((FoundBeacon, w.code[beacon].implementation))
        else Err(NothingToAdopt)
      case Proxy(implementation, admin, _) =>
        Ok((FoundProxy(if admin.None? then Uups else Transparent), implementation))
      case Beacon(implementation, _) => Ok((FoundBeacon, implementation))
      case _ => Ok((FoundImplementation, at))
  }

  function AdvanceImport(w: World, r: Request, p: Phase, a: Answer): (Phase, World)
    requires r.ForceImport? && !Final(p)
  {
    if a.Fault? then (if p.LayoutStored? then Failed(AdoptionWriteFailed) else Refuse(RoundTripFailed), w)
    else match p
      case Begun =>
        (match Classify(w, r.address)
         case Err(why) => (Refuse(why), w)
         case Ok((found, implementation)) =>
           if r.asserted.Some? && r.asserted.value != found then (Refuse(KindMismatch), w)
           else (Classified(found, implementation), w))
      case Classified(found, implementation) =>
        if implementation !in w.code || w.code[implementation] != Implementation(r.v.version.code)
        then (Refuse(CodeMismatch), w)
        else (CodeMatched(found, implementation), w)
      case CodeMatched(found, implementation) =>
        if !found.FoundProxy? then (KindAgreed(found, implementation, false), w)
        else if r.address in w.proxies && w.proxies[r.address] != found.kind then (Refuse(KindMismatch), w)
        else (KindAgreed(found, implementation, r.address !in w.proxies), w)
      case KindAgreed(found, implementation, recordProxy) =>
        var u := StoreFor(w, r.v, implementation);
        if a.Torn? then (Failed(AdoptionWriteFailed), u) else (LayoutStored(found, implementation, recordProxy), u)
      case LayoutStored(found, implementation, recordProxy) =>
        var u := if recordProxy && found.FoundProxy? then RecordProxy(w, r.address, found.kind) else w;
        (if a.Torn? then Failed(AdoptionWriteFailed) else Done(r.address, implementation, None), u)
      case _ => (Refuse(RoundTripFailed), w)
  }

  /** One step of an operation that has not finished. */
  function Advance(w: World, host: Option<Host>, r: Request, p: Phase, a: Answer): (Phase, World)
    requires !Final(p)
    requires p.Sent? || p.Confirmed? || p.Checked? ==> p.tx < |w.txs|
  {
    if r.ForceImport? then AdvanceImport(w, r, p, a)
    else if PreQueue(p) then
      (if r.UpgradeProxy? then AdvanceUpgradeProxy(w, host, r, p, a)
       else if r.UpgradeBeacon? then AdvanceUpgradeBeacon(w, host, r, p, a)
       else if r.DeployProxy? then AdvanceDeployProxy(w, host, r, p, a)
       else AdvanceBeaconCreation(w, host, r, p, a), w)
    else if p.Queued? || p.Fetched? then AdvanceSend(w, r, p, a)
    else if p.Sent? || p.Confirmed? || p.Checked? then AdvanceSettle(w, r, p, a)
    else (Refuse(RoundTripFailed), w)
  }
}
