/**
 The operations in the form they run: each awaits a round trip or an engine call, the rest of the
 world moves meanwhile, and the stores and the write-backs are updated in place. Every pipeline is
 tied to the step machine of `Operations`, and says what it leaves in the artifacts.
 */
module Pipelines {
  import opened Wrappers
  import opened World
  import opened Operations
  import opened WriteBacks
  import opened Exits
  import Dispatch
  import Safety

  /** The chain and the record, as the operations share them. */
  class Stores {
    var world: World

    constructor ()
      ensures world == Empty
    {
      world := Empty;
    }

    method Await(turn: Turn) returns (a: Answer)
      modifies this
      ensures world == Elsewhere(old(world), turn.others) && a == turn.answer
      ensures |world.txs| == |old(world).txs|
    {
      world := Elsewhere(world, turn.others);
      a := turn.answer;
    }

    method Spend(e: Effect) returns (tx: TxId)
      modifies this
      ensures tx == |old(world).txs| && world == Send(old(world), e)
    {
      tx := |world.txs|;
      world := Send(world, e);
    }
  }

  // ---------- the toolkit ----------

  /** What a fetch leaves in the user's artifact: a reuse leaves it alone. */
  ghost predicate NamesFetched(was: WriteBack, now: WriteBack, implementation: Address) {
    now == was || now == Naming(implementation, OfImplementation(implementation))
  }

  /** `fetchOrDeployImplementation`, deploying through the user's own contract. */
  method FetchImplementation(s: Stores, contract: Abstraction, v: Validated, a: Answer) returns (address: Option<Address>)
    modifies s, contract
    ensures a.Fetching? ==> (address, s.world) == FetchOrDeploy(old(s.world), v, a.fetch)
    ensures !a.Fetching? ==> address == None && s.world == old(s.world)
    ensures old(contract.network).Some? ==> contract.network.Some?
    ensures address.Some? ==> NamesFetched(old(contract.ReadWriteBack()), contract.ReadWriteBack(), address.value)
  {
    if !a.Fetching? { return None; }
    var v0 := EntryFor(s.world.impls, v.version);
    match a.fetch {
      case Reuse =>
        if v.redeploy == Always || v0.None? || s.world.impls[v0.value].primary !in s.world.code { return None; }
        return Some(s.world.impls[v0.value].primary);
      case Deploys(at) =>
        if !MayDeploy(s.world, v) || !Fresh(s.world, at) { return None; }
        HostDeployImplementation(s, contract, v, at);
        s.world := StoreFor(s.world, v, at);
        return Some(at);
      case DropsThenDeploys(at) =>
        if v0.None? || !CanDrop(s.world, v0.value) || v.redeploy == Never || !Fresh(s.world, at) { return None; }
        s.world := Drop(s.world, v0.value);
        HostDeployImplementation(s, contract, v, at);
        s.world := StoreFor(s.world, v, at);
        return Some(at);
      case DeploysUnstored(at, named) =>
        if !MayDeploy(s.world, v) || !Fresh(s.world, at) { return None; }
        if named {
          HostDeployImplementation(s, contract, v, at);
        } else {
          s.world := DeployImpl(s.world, v, at);
        }
        return None;
      case StoresUnconfirmed(at, landed) =>
        if !MayDeploy(s.world, v) || !Fresh(s.world, at) { return None; }
        contract.AssignDeployed(at, OfImplementation(at));
        s.world := StoreFor(if landed then DeployImpl(s.world, v, at) else s.world, v, at);
        return None;
      case EngineFault => return None;
    }
  }

  method HostDeployImplementation(s: Stores, contract: Abstraction, v: Validated, at: Address)
    modifies s, contract
    ensures s.world == DeployImpl(old(s.world), v, at)
    ensures contract.network.Some? && contract.ReadWriteBack() == Naming(at, OfImplementation(at))
  {
    s.world := DeployImpl(s.world, v, at);
    contract.AssignDeployed(at, OfImplementation(at));
  }

  // ---------- creations ----------

  /** What a creation leaves in the abstraction its own transaction deploys through. */
  ghost function Left(was: WriteBack, end: Phase): WriteBack {
    match end
    case Done(at, _, Some(tx)) => Naming(at, OfTx(tx))
    case Failed(Indeterminate(tx, Some(at))) => Naming(at, OfTx(tx))
    case Failed(SenderMismatch(at, tx)) => Naming(at, OfTx(tx))
    case Failed(RecordWriteFailed(at, tx)) => Naming(at, OfTx(tx))
    case _ => was
  }

  predicate Creates(r: Request) {
    r.DeployProxy? || r.DeployBeacon? || r.DeployBeaconProxy?
  }

  /** `recordingLiveProxy` around the record write: a failure names what is live. */
  method RecordLive(s: Stores, host: Option<Host>, r: Request, checked: Phase, script: Script, k: nat) returns (end: Phase)
    requires Creates(r) && checked.Checked? && checked.tx < |s.world.txs|
    modifies s
    ensures (end, s.world) == Play(old(s.world), host, r, checked, script, k)
    ensures end in {Done(checked.at, checked.implementation, Some(checked.tx)), Failed(RecordWriteFailed(checked.at, checked.tx))}
  {
    var Checked(kind, at, implementation, tx) := checked;
    ghost var w0 := s.world;
    var a := s.Await(script(k));
    if a.Fault? {
      end := Failed(RecordWriteFailed(at, tx));
    } else {
      s.world := RecordProxy(s.world, at, kind);
      end := if a.Torn? then Failed(RecordWriteFailed(at, tx)) else Done(at, implementation, Some(tx));
    }
    Turned(w0, host, r, checked, script, k, end, s.world);
  }

  /** After the verdict: the sender comparison, where the operation makes one, and the record. */
  method FinishCreation(s: Stores, host: Option<Host>, r: Request, confirmed: Phase, script: Script, k: nat) returns (end: Phase)
    requires Creates(r) && confirmed.Confirmed? && confirmed.tx < |s.world.txs|
    modifies s
    ensures (end, s.world) == Play(old(s.world), host, r, confirmed, script, k)
    ensures end in {Done(confirmed.at, confirmed.implementation, Some(confirmed.tx)),
                    Failed(SenderMismatch(confirmed.at, confirmed.tx)),
                    Failed(RecordWriteFailed(confirmed.at, confirmed.tx))}
  {
    var Confirmed(kind, at, implementation, tx) := confirmed;
    ghost var w0 := s.world;
    var a := s.Await(script(k));
    if r.DeployBeacon? {
      end := Done(at, implementation, Some(tx));
      Turned(w0, host, r, confirmed, script, k, end, s.world);
      return;
    }
    if r.DeployProxy? && a.Signer? && a.from.Some? && r.sender.Some? && a.from != r.sender {
      end := Failed(SenderMismatch(at, tx));
      Turned(w0, host, r, confirmed, script, k, end, s.world);
      return;
    }
    var checked := Checked(kind, at, implementation, tx);
    Turned(w0, host, r, confirmed, script, k, checked, s.world);
    end := RecordLive(s, host, r, checked, script, k + 1);
  }

  /** `confirm` and its verdict. */
  method HearVerdict(s: Stores, host: Option<Host>, r: Request, sent: Phase, script: Script, k: nat) returns (p: Phase)
    requires Creates(r) && sent.Sent? && sent.tx < |s.world.txs|
    modifies s
    ensures Play(s.world, host, r, p, script, k + 1) == Play(old(s.world), host, r, sent, script, k)
    ensures sent.tx < |s.world.txs|
    ensures p in {Confirmed(sent.kind, sent.at, sent.implementation, sent.tx),
                  Failed(TransactionReverted(sent.tx)), Failed(Indeterminate(sent.tx, Some(sent.at)))}
  {
    ghost var w0 := s.world;
    var a := s.Await(script(k));
    match Confirm(s.world, sent.tx, a.Receipt? && a.heard) {
      case Reverted => p := Failed(TransactionReverted(sent.tx));
      case Pending => p := Failed(Indeterminate(sent.tx, Some(sent.at)));
      case Landed => p := Confirmed(sent.kind, sent.at, sent.implementation, sent.tx);
    }
    Turned(w0, host, r, sent, script, k, p, s.world);
  }

  /** How a creation can end once it was sent. */
  ghost predicate EndsCreation(sent: Phase, end: Phase)
    requires sent.Sent?
  {
    || end == Done(sent.at, sent.implementation, Some(sent.tx))
    || end == Failed(TransactionReverted(sent.tx))
    || end == Failed(Indeterminate(sent.tx, Some(sent.at)))
    || end == Failed(SenderMismatch(sent.at, sent.tx))
    || end == Failed(RecordWriteFailed(sent.at, sent.tx))
  }

  lemma LeftAtTheEnd(prior: WriteBack, sent: Phase, end: Phase)
    requires sent.Sent? && EndsCreation(sent, end)
    ensures Left(prior, end) == if end == Failed(TransactionReverted(sent.tx)) then prior else Naming(sent.at, OfTx(sent.tx))
  {
  }

  method ConfirmCreation(s: Stores, host: Option<Host>, r: Request, sent: Phase, script: Script, k: nat) returns (end: Phase)
    requires Creates(r) && sent.Sent? && sent.tx < |s.world.txs|
    modifies s
    ensures (end, s.world) == Play(old(s.world), host, r, sent, script, k)
    ensures EndsCreation(sent, end)
  {
    end := HearVerdict(s, host, r, sent, script, k);
    if end.Confirmed? {
      end := FinishCreation(s, host, r, end, script, k + 1);
    } else {
      Ended(s.world, host, r, end, script, k + 1);
    }
  }

  /** The verdict and what follows it, and the undo that only a revert gets. */
  method SettleCreation(s: Stores, shell: Abstraction, prior: WriteBack, host: Option<Host>, r: Request, sent: Phase, script: Script, k: nat)
    returns (end: Phase)
    requires Creates(r) && sent.Sent? && sent.tx < |s.world.txs|
    requires shell.network.Some? && shell.ReadWriteBack() == Naming(sent.at, OfTx(sent.tx))
    modifies s, shell
    ensures (end, s.world) == Play(old(s.world), host, r, sent, script, k)
    ensures end.Done? || end.Failed?
    ensures shell.network.Some? && shell.ReadWriteBack() == Left(prior, end)
    ensures end.Done? ==> end == Done(sent.at, sent.implementation, Some(sent.tx))
  {
    end := ConfirmCreation(s, host, r, sent, script, k);
    LeftAtTheEnd(prior, sent, end);
    if end == Failed(TransactionReverted(sent.tx)) { shell.RestoreWriteBack(prior); }
  }

  /** `restoringWriteBackOnFailure` around the rest of a compound step that deploys through `contract`. */
  method RestoreOnFailure(contract: Abstraction, prior: WriteBack, end: Phase)
    requires prior.address.Some? || prior.hash.None? || contract.network.Some?
    modifies contract
    ensures end.Failed? ==> contract.ReadWriteBack() == prior
    ensures !end.Failed? ==> contract.network == old(contract.network)
  {
    if end.Failed? { contract.RestoreWriteBack(prior); }
  }

  /**
   The queued step of `deployProxy` and `deployBeacon`. Every failing exit gives the user's contract
   its entry write-back; the shell's is undone on a revert and kept on every other outcome of its
   own transaction.
   */
  method CreationStep(s: Stores, contract: Abstraction, shell: Abstraction, host: Option<Host>, r: Request, kind: Kind, script: Script, k: nat)
    returns (end: Phase)
    requires r.DeployProxy? || r.DeployBeacon?
    modifies s, contract, shell
    ensures (end, s.world) == Play(old(s.world), host, r, Queued(kind, None), script, k)
    ensures (end.Done? && end.sent.Some?) || end.Failed?
    ensures end.Failed? ==> contract.ReadWriteBack() == old(contract.ReadWriteBack())
    ensures contract != shell ==> shell.ReadWriteBack() == Left(old(shell.ReadWriteBack()), end)
    ensures contract != shell && end.Done? ==>
              NamesFetched(old(contract.ReadWriteBack()), contract.ReadWriteBack(), end.implementation)
  {
    var prior := contract.ReadWriteBack();
    end := CreationBody(s, contract, shell, host, r, kind, script, k);
    RestoreOnFailure(contract, prior, end);
  }

  method CreationBody(s: Stores, contract: Abstraction, shell: Abstraction, host: Option<Host>, r: Request, kind: Kind, script: Script, k: nat)
    returns (end: Phase)
    requires r.DeployProxy? || r.DeployBeacon?
    modifies s, contract, shell
    ensures (end, s.world) == Play(old(s.world), host, r, Queued(kind, None), script, k)
    ensures (end.Done? && end.sent.Some?) || end.Failed?
    ensures old(contract.network).Some? ==> contract.network.Some?
    ensures contract != shell ==> shell.ReadWriteBack() == Left(old(shell.ReadWriteBack()), end)
    ensures contract != shell && end.Done? ==>
              NamesFetched(old(contract.ReadWriteBack()), contract.ReadWriteBack(), end.implementation)
  {
    ghost var w0 := s.world;
    var a := s.Await(script(k));
    var fetched := FetchImplementation(s, contract, r.v, a);
    if fetched.None? {
      end := Failed(ImplementationFailed);
      Turned(w0, host, r, Queued(kind, None), script, k, end, s.world);
      return;
    }
    var implementation := fetched.value;
    Turned(w0, host, r, Queued(kind, None), script, k, Fetched(kind, None, implementation), s.world);
    end := SpendCreation(s, shell, host, r, kind, implementation, script, k + 1);
  }

  /** `hostDeploy` of the proxy, the beacon or the beacon proxy, and everything after it. */
  method SpendCreation(s: Stores, shell: Abstraction, host: Option<Host>, r: Request, kind: Kind, implementation: Address, script: Script, k: nat)
    returns (end: Phase)
    requires Creates(r)
    modifies s, shell
    ensures (end, s.world) == Play(old(s.world), host, r, Fetched(kind, None, implementation), script, k)
    ensures (end.Done? && end.sent.Some?) || end.Failed?
    ensures old(shell.network).Some? ==> shell.network.Some?
    ensures shell.ReadWriteBack() == Left(old(shell.ReadWriteBack()), end)
    ensures end.Done? ==> end.implementation == implementation
  {
    ghost var w0 := s.world;
    var prior := shell.ReadWriteBack();
    var a := s.Await(script(k));
    if !a.Created? || !CanCreate(s.world, a.at, NewContract(r, kind, implementation, a.admin, a.owner)) {
      return Failed(SendFailed);
    }
    var tx := s.Spend(Create(a.at, NewContract(r, kind, implementation, a.admin, a.owner), OwnerOf(r)));
    if a.thrown {
      return Failed(SendFailed);
    }
    shell.AssignDeployed(a.at, OfTx(tx));
    var sent := Sent(kind, a.at, implementation, tx);
    assert Play(w0, host, r, Fetched(kind, None, implementation), script, k) == Play(s.world, host, r, sent, script, k + 1);
    end := SettleCreation(s, shell, prior, host, r, sent, script, k + 1);
  }

  /** The queued step of `deployProxy`, then step 9b: the write-back that completes the recognition key. */
  method QueueDeployProxy(s: Stores, contract: Abstraction, shell: Abstraction, host: Option<Host>, r: Request, kind: Kind, script: Script, k: nat)
    returns (end: Phase)
    requires r.DeployProxy?
    modifies s, contract, shell
    ensures (end, s.world) == Play(old(s.world), host, r, Queued(kind, None), script, k)
    ensures (end.Done? && end.sent.Some?) || end.Failed?
    ensures end.Done? ==> contract.ReadWriteBack() == Naming(end.at, OfTx(end.sent.value))
    ensures end.Failed? ==> contract.ReadWriteBack() == old(contract.ReadWriteBack())
    ensures contract != shell ==> shell.ReadWriteBack() == Left(old(shell.ReadWriteBack()), end)
  {
    end := CreationStep(s, contract, shell, host, r, kind, script, k);
    if end.Done? {
      contract.AssignDeployed(end.at, OfTx(end.sent.value));
    }
  }

  /**
   `runDeployProxy`. A success makes the user's contract name the proxy, never the implementation
   deployed on the way; a failure leaves the write-back the contract came with.
   */
  method RunDeployProxy(s: Stores, contract: Abstraction, shell: Abstraction, host: Option<Host>, r: Request, script: Script)
    returns (end: Phase)
    requires r.DeployProxy? && r.prior == contract.ReadWriteBack().address
    modifies s, contract, shell
    ensures (end, s.world) == Play(old(s.world), host, r, Begun, script, 0)
    ensures (end.Done? && end.sent.Some?) || end.Failed?
    ensures end.Done? ==> contract.ReadWriteBack() == Naming(end.at, OfTx(end.sent.value))
    ensures end.Failed? ==> contract.ReadWriteBack() == old(contract.ReadWriteBack())
    ensures contract != shell ==> shell.ReadWriteBack() == Left(old(shell.ReadWriteBack()), end)
  {
    ghost var w0 := s.world;
    var a := s.Await(script(0));
    var session := Opened(DecideReplay(s.world, r.prior));
    end := if a.Fault? then Refuse(RoundTripFailed) else session;
    Turned(w0, host, r, Begun, script, 0, end, s.world);
    if end == session {
      end := DeployInSession(s, contract, shell, host, r, session, script, 1);
    }
  }

  /** Validation, the kind, and what the report says of the prior address; then the rest. */
  method DeployInSession(s: Stores, contract: Abstraction, shell: Abstraction, host: Option<Host>, r: Request, session: Phase, script: Script, k: nat)
    returns (end: Phase)
    requires r.DeployProxy? && session.Opened?
    modifies s, contract, shell
    ensures (end, s.world) == Play(old(s.world), host, r, session, script, k)
    ensures (end.Done? && end.sent.Some?) || end.Failed?
    ensures end.Done? ==> contract.ReadWriteBack() == Naming(end.at, OfTx(end.sent.value))
    ensures end.Failed? ==> contract.ReadWriteBack() == old(contract.ReadWriteBack())
    ensures contract != shell ==> shell.ReadWriteBack() == Left(old(shell.ReadWriteBack()), end)
  {
    ghost var w0 := s.world;
    var a := s.Await(script(k));
    end := JudgeKind(host, r, session.replay, a);
    Turned(w0, host, r, session, script, k, end, s.world);
    if end.Judged? {
      end := DeployJudgedProxy(s, contract, shell, host, r, end, script, k + 1);
    }
  }

  method JudgeKind(host: Option<Host>, r: Request, replay: Replay, a: Answer) returns (p: Phase)
    requires r.DeployProxy?
    ensures forall w: World :: p == AdvanceDeployProxy(w, host, r, Opened(replay), a)
    ensures p.Judged? || p.Failed?
    ensures p.Judged? ==> host.Some? && !p.replay.Stale? && p.kind != ViaBeacon && (r.initialOwner.Some? ==> p.kind == Transparent)
  {
    if !a.OfKind? { return Refuse(ValidationFailed); }
    var kind := if r.kind.Some? then r.kind.value else a.kind;
    if kind == ViaBeacon { return Refuse(KindUnsupported); }
    if kind == Uups && r.initialOwner.Some? { return Refuse(OwnerUnsupported); }
    if host.None? { return Refuse(DeployerAbsent); }
    if replay.Stale? { return Refuse(StaleProxyRecord); }
    p := Judged(kind, replay);
  }

  /** The record's word on a prior implementation, the refusals that need no chain, and the owner probe. */
  method VouchDeployProxy(s: Stores, host: Option<Host>, r: Request, judged: Phase, script: Script, k: nat) returns (p: Phase)
    requires r.DeployProxy? && judged.Judged?
    modifies s
    ensures Play(s.world, host, r, p, script, k + 2) == Play(old(s.world), host, r, judged, script, k)
    ensures (p.Failed? && p.error.Refused?) || (p.Queued? && p.upgrade.None? && p.kind == judged.kind)
  {
    ghost var w0 := s.world;
    var a := s.Await(script(k));
    p := CheckDeployProxy(s.world, host, r, judged, a);
    Turned(w0, host, r, judged, script, k, p, s.world);
    if p.Failed? {
      Ended(s.world, host, r, p, script, k + 2);
      return;
    }
    var vouched := p;
    w0 := s.world;
    a := s.Await(script(k + 1));
    p := if a.Fault? then Refuse(RoundTripFailed)
         else if vouched.kind != Transparent then Queued(vouched.kind, None)
         else if !a.AdminProbe? then Refuse(RoundTripFailed)
         else if a.looksLikeAdmin then Refuse(AdminAsOwner)
         else Queued(vouched.kind, None);
    Turned(w0, host, r, vouched, script, k + 1, p, s.world);
  }

  method CheckDeployProxy(w: World, host: Option<Host>, r: Request, judged: Phase, a: Answer) returns (p: Phase)
    requires r.DeployProxy? && judged.Judged?
    ensures p == AdvanceDeployProxy(w, host, r, judged, a)
    ensures (p.Failed? && p.error.Refused?) || p == Vouched(judged.kind)
  {
    if judged.replay.UnlessImplementation? {
      if a.Fault? { return Refuse(RoundTripFailed); }
      if r.prior.Some? && StoredLayout(w.impls, r.prior.value).None? { return Refuse(StaleProxyRecord); }
    }
    if r.cheatcodeArg { return Refuse(CheatcodeCollision); }
    if r.initializerFalse { return Refuse(EmptyInitializer); }
    if judged.kind == Transparent {
      var owner := if r.initialOwner.Some? then r.initialOwner else r.sender;
      if owner.None? { return Refuse(InitialOwnerRequired); }
    }
    p := Vouched(judged.kind);
  }

  method DeployJudgedProxy(s: Stores, contract: Abstraction, shell: Abstraction, host: Option<Host>, r: Request, judged: Phase, script: Script, k: nat)
    returns (end: Phase)
    requires r.DeployProxy? && judged.Judged?
    modifies s, contract, shell
    ensures (end, s.world) == Play(old(s.world), host, r, judged, script, k)
    ensures (end.Done? && end.sent.Some?) || end.Failed?
    ensures end.Done? ==> contract.ReadWriteBack() == Naming(end.at, OfTx(end.sent.value))
    ensures end.Failed? ==> contract.ReadWriteBack() == old(contract.ReadWriteBack())
    ensures contract != shell ==> shell.ReadWriteBack() == Left(old(shell.ReadWriteBack()), end)
  {
    end := VouchDeployProxy(s, host, r, judged, script, k);
    if end.Queued? {
      end := QueueDeployProxy(s, contract, shell, host, r, end.kind, script, k + 2);
    } else {
      Ended(s.world, host, r, end, script, k + 2);
    }
  }

  /** `runDeployBeacon`: a success leaves the implementation's write-back on the user's contract. */
  method RunDeployBeacon(s: Stores, contract: Abstraction, beacon: Abstraction, host: Option<Host>, r: Request, script: Script)
    returns (end: Phase)
    requires r.DeployBeacon?
    modifies s, contract, beacon
    ensures (end, s.world) == Play(old(s.world), host, r, Begun, script, 0)
    ensures (end.Done? && end.sent.Some?) || end.Failed?
    ensures end.Failed? ==> contract.ReadWriteBack() == old(contract.ReadWriteBack())
    ensures contract != beacon ==> beacon.ReadWriteBack() == Left(old(beacon.ReadWriteBack()), end)
    ensures contract != beacon && end.Done? ==>
              NamesFetched(old(contract.ReadWriteBack()), contract.ReadWriteBack(), end.implementation)
  {
    ghost var w0 := s.world;
    var a := s.Await(script(0));
    end := if a.Fault? then Refuse(ValidationFailed)
           else if host.None? then Refuse(DeployerAbsent)
           else if r.initialOwner.None? && r.sender.None? then Refuse(InitialOwnerRequired)
           else Queued(ViaBeacon, None);
    Turned(w0, host, r, Begun, script, 0, end, s.world);
    if end.Queued? {
      end := CreationStep(s, contract, beacon, host, r, ViaBeacon, script, 1);
    }
  }

  /** `runDeployBeaconProxy` deploys nothing through the user's contract, so it restores nothing there. */
  method RunDeployBeaconProxy(s: Stores, shell: Abstraction, host: Option<Host>, r: Request, script: Script) returns (end: Phase)
    requires r.DeployBeaconProxy?
    modifies s, shell
    ensures (end, s.world) == Play(old(s.world), host, r, Begun, script, 0)
    ensures (end.Done? && end.sent.Some?) || end.Failed?
    ensures shell.ReadWriteBack() == Left(old(shell.ReadWriteBack()), end)
  {
    ghost var w0 := s.world;
    var a := s.Await(script(0));
    end := if a.Fault? then Refuse(ValidationFailed)
           else if r.beacon !in s.world.code || !s.world.code[r.beacon].Beacon? then Refuse(NotABeacon)
           else if r.initializerFalse then Refuse(EmptyInitializer)
           else if host.None? then Refuse(DeployerAbsent)
           else Queued(ViaBeacon, None);
    Turned(w0, host, r, Begun, script, 0, end, s.world);
    if end.Queued? {
      ghost var w1 := s.world;
      a := s.Await(script(1));
      var fetched := Fetched(ViaBeacon, None, r.beacon);
      Turned(w1, host, r, end, script, 1, fetched, s.world);
      end := SpendCreation(s, shell, host, r, ViaBeacon, r.beacon, script, 2);
    }
  }

  // ---------- upgrades ----------

  /** The queued step of `upgradeProxy` and `upgradeBeacon`. */
  method UpgradeStep(s: Stores, contract: Abstraction, host: Option<Host>, r: Request, queued: Phase, script: Script, k: nat)
    returns (end: Phase)
    requires r.UpgradeProxy? || r.UpgradeBeacon?
    requires queued.Queued? && queued.upgrade.Some?
    modifies s, contract
    ensures (end, s.world) == Play(old(s.world), host, r, queued, script, k)
    ensures end.Done? || end.Failed?
    ensures end.Failed? ==> contract.ReadWriteBack() == old(contract.ReadWriteBack())
    ensures end.Done? ==> NamesFetched(old(contract.ReadWriteBack()), contract.ReadWriteBack(), end.implementation)
  {
    var prior := contract.ReadWriteBack();
    ghost var w0 := s.world;
    var a := s.Await(script(k));
    var fetched := FetchImplementation(s, contract, r.v, a);
    if fetched.None? {
      end := Failed(ImplementationFailed);
      Turned(w0, host, r, queued, script, k, end, s.world);
    } else {
      var p := Fetched(queued.kind, queued.upgrade, fetched.value);
      Turned(w0, host, r, queued, script, k, p, s.world);
      end := SpendUpgrade(s, host, r, p, script, k + 1);
    }
    RestoreOnFailure(contract, prior, end);
  }

  /** The dispatched call, its confirmation, and the read back. */
  method SpendUpgrade(s: Stores, host: Option<Host>, r: Request, fetched: Phase, script: Script, k: nat) returns (end: Phase)
    requires r.UpgradeProxy? || r.UpgradeBeacon?
    requires fetched.Fetched? && fetched.upgrade.Some?
    modifies s
    ensures (end, s.world) == Play(old(s.world), host, r, fetched, script, k)
    ensures end.Done? || end.Failed?
    ensures end.Done? ==> end.implementation == fetched.implementation
  {
    var Fetched(kind, upgrade, implementation) := fetched;
    var at := upgrade.value.t.at;
    ghost var w0 := s.world;
    var a := s.Await(script(k));
    if !a.Completed? && !a.Torn? {
      end := Failed(SendFailed);
      Turned(w0, host, r, fetched, script, k, end, s.world);
      return;
    }
    var tx := s.Spend(Repoint(at, implementation, upgrade.value.basis, CallFor(r, kind, upgrade.value, implementation)));
    if a.Torn? {
      end := Failed(SendFailed);
      Turned(w0, host, r, fetched, script, k, end, s.world);
      return;
    }
    var sent := Sent(kind, at, implementation, tx);
    Turned(w0, host, r, fetched, script, k, sent, s.world);
    w0 := s.world;
    a := s.Await(script(k + 1));
    match Confirm(s.world, tx, a.Receipt? && a.heard) {
      case Reverted =>
        end := Failed(TransactionReverted(tx));
        Turned(w0, host, r, sent, script, k + 1, end, s.world);
      case Pending =>
        end := Failed(Indeterminate(tx, None));
        Turned(w0, host, r, sent, script, k + 1, end, s.world);
      case Landed =>
        var confirmed := Confirmed(kind, at, implementation, tx);
        Turned(w0, host, r, sent, script, k + 1, confirmed, s.world);
        end := VerifyUpgrade(s, host, r, confirmed, script, k + 2);
    }
  }

  /** Trust, but verify: what the target answers now must be the new implementation. */
  method VerifyUpgrade(s: Stores, host: Option<Host>, r: Request, confirmed: Phase, script: Script, k: nat) returns (end: Phase)
    requires r.UpgradeProxy? || r.UpgradeBeacon?
    requires confirmed.Confirmed? && confirmed.tx < |s.world.txs|
    modifies s
    ensures (end, s.world) == Play(old(s.world), host, r, confirmed, script, k)
    ensures end.Done? || end.Failed?
    ensures end.Done? ==> end.implementation == confirmed.implementation
  {
    var Confirmed(kind, at, implementation, tx) := confirmed;
    ghost var w0 := s.world;
    var a := s.Await(script(k));
    var checked := Checked(kind, at, implementation, tx);
    end := if a.Fault? then Failed(ReadBackFailed(tx))
           else if Live(s.world.code, at) != Some(implementation) then Failed(VerificationFailed(at, tx))
           else if r.UpgradeBeacon? then Done(at, implementation, Some(tx))
           else checked;
    Turned(w0, host, r, confirmed, script, k, end, s.world);
    if end == checked {
      w0 := s.world;
      a := s.Await(script(k + 1));
      if at in s.world.proxies {
        end := if a.Fault? then Failed(RecordReadFailed) else Done(at, implementation, Some(tx));
      } else if a.Fault? {
        end := Failed(RecordWriteFailed(at, tx));
      } else {
        s.world := RecordProxy(s.world, at, kind);
        end := if a.Torn? then Failed(RecordWriteFailed(at, tx)) else Done(at, implementation, Some(tx));
      }
      Turned(w0, host, r, checked, script, k + 1, end, s.world);
    }
  }

  // ---------- the checks of an upgrade, all before any spend ----------

  /** The three slots in one read. */
  method ReadSlots(s: Stores, host: Option<Host>, r: Request, script: Script, k: nat) returns (p: Phase)
    requires r.UpgradeProxy?
    modifies s
    ensures Play(s.world, host, r, p, script, k + 1) == Play(old(s.world), host, r, Gated, script, k)
    ensures p.SlotsRead? || p.Failed?
  {
    ghost var w0 := s.world;
    var a := s.Await(script(k));
    if a.Fault? {
      p := Refuse(RoundTripFailed);
    } else if r.proxy !in s.world.code {
      p := Refuse(NothingToAdopt);
    } else {
      match s.world.code[r.proxy] {
        case BeaconProxy(beacon) => p := Refuse(IsBeaconProxy(beacon));
        case Proxy(implementation, admin, _) => p := SlotsRead(Target(r.proxy, implementation, admin));
        case _ => p := Refuse(NothingToAdopt);
      }
    }
    Turned(w0, host, r, Gated, script, k, p, s.world);
  }

  /** The kind, cross-checked with the record. */
  method ProcessProxyKind(s: Stores, host: Option<Host>, r: Request, slots: Phase, script: Script, k: nat) returns (p: Phase)
    requires r.UpgradeProxy? && slots.SlotsRead?
    modifies s
    ensures Play(s.world, host, r, p, script, k + 1) == Play(old(s.world), host, r, slots, script, k)
    ensures p.KindKnown? || p.Failed?
  {
    ghost var w0 := s.world;
    var a := s.Await(script(k));
    if a.Fault? {
      p := Refuse(RoundTripFailed);
    } else if !a.OfKind? || a.kind == ViaBeacon {
      p := Refuse(KindUnsupported);
    } else if slots.t.at in s.world.proxies && s.world.proxies[slots.t.at] != a.kind {
      p := Refuse(KindMismatch);
    } else {
      p := KindKnown(slots.t, a.kind);
    }
    Turned(w0, host, r, slots, script, k, p, s.world);
  }

  /** `storedLayoutFor` the implementation the chain named. */
  method FindLayout(s: Stores, host: Option<Host>, r: Request, known: Phase, script: Script, k: nat) returns (p: Phase)
    requires (r.UpgradeProxy? || r.UpgradeBeacon?) && known.KindKnown?
    modifies s
    ensures Play(s.world, host, r, p, script, k + 1) == Play(old(s.world), host, r, known, script, k)
    ensures p.Failed? || (p.LayoutFound? && p.t == known.t && p.kind == known.kind)
  {
    ghost var w0 := s.world;
    var a := s.Await(script(k));
    var layout := StoredLayout(s.world.impls, known.t.current);
    p := if a.Fault? then Refuse(RoundTripFailed)
         else if layout.None? then Refuse(NoStoredLayout)
         else LayoutFound(known.t, known.kind, layout.value);
    Turned(w0, host, r, known, script, k, p, s.world);
  }

  /** `assertStorageCompatible`. */
  method CompareLayouts(s: Stores, host: Option<Host>, r: Request, found: Phase, script: Script, k: nat) returns (p: Phase)
    requires (r.UpgradeProxy? || r.UpgradeBeacon?) && found.LayoutFound?
    modifies s
    ensures Play(s.world, host, r, p, script, k + 1) == Play(old(s.world), host, r, found, script, k)
    ensures p.Failed? || (p.Compared? && p.t == found.t && p.basis == Basis(found.t.current, found.layout, r.v.accepts))
    ensures p.Compared? ==> found.layout in r.v.accepts
  {
    ghost var w0 := s.world;
    var a := s.Await(script(k));
    p := if a.Fault? then Refuse(RoundTripFailed)
         else if found.layout !in r.v.accepts then Refuse(StorageIncompatible)
         else Compared(found.t, found.kind, Basis(found.t.current, found.layout, r.v.accepts));
    Turned(w0, host, r, found, script, k, p, s.world);
  }

  /** The layout stored for the implementation the chain named, compared with the new one. */
  method CompareStorage(s: Stores, host: Option<Host>, r: Request, known: Phase, script: Script, k: nat) returns (p: Phase)
    requires (r.UpgradeProxy? || r.UpgradeBeacon?) && known.KindKnown?
    modifies s
    ensures Play(s.world, host, r, p, script, k + 2) == Play(old(s.world), host, r, known, script, k)
    ensures p.Compared? || p.Failed?
    ensures p.Compared? ==> p.t == known.t && p.basis.current == known.t.current && p.basis.layout in r.v.accepts
  {
    p := FindLayout(s, host, r, known, script, k);
    if p.Failed? {
      Ended(s.world, host, r, p, script, k + 1);
      Ended(s.world, host, r, p, script, k + 2);
      return;
    }
    p := CompareLayouts(s, host, r, p, script, k + 1);
  }

  /** The authority and the dispatch plan, before the new implementation deploys. */
  method PlanCall(s: Stores, host: Option<Host>, r: Request, compared: Phase, script: Script, k: nat) returns (p: Phase)
    requires r.UpgradeProxy? && compared.Compared?
    modifies s
    ensures Play(s.world, host, r, p, script, k + 1) == Play(old(s.world), host, r, compared, script, k)
    ensures (p.Queued? && p.upgrade.Some? && p.upgrade.value.t == compared.t && p.upgrade.value.basis == compared.basis) || p.Failed?
  {
    ghost var w0 := s.world;
    var a := s.Await(script(k));
    if a.Fault? {
      p := Refuse(RoundTripFailed);
    } else if compared.kind == Transparent && compared.t.admin.None? {
      p := Refuse(NotTransparent);
    } else {
      var side := if compared.kind == Transparent then Dispatch.AdminSide else Dispatch.ProxySide;
      var plan := Dispatch.PlanUpgradeDispatch(side, ProbedVersion(s.world.code, ProbeSubject(compared.t, compared.kind)), r.hasCallData);
      p := if plan.Err? then Refuse(UnknownGeneration) else Queued(compared.kind, Some(Upgrade(compared.t, compared.basis, Some(plan.value))));
    }
    Turned(w0, host, r, compared, script, k, p, s.world);
  }

  method CompareAndPlan(s: Stores, host: Option<Host>, r: Request, known: Phase, script: Script, k: nat) returns (p: Phase)
    requires r.UpgradeProxy? && known.KindKnown?
    modifies s
    ensures Play(s.world, host, r, p, script, k + 3) == Play(old(s.world), host, r, known, script, k)
    ensures (p.Queued? && p.upgrade.Some?) || p.Failed?
  {
    p := CompareStorage(s, host, r, known, script, k);
    if p.Compared? { p := PlanCall(s, host, r, p, script, k + 2); }
    else { Ended(s.world, host, r, p, script, k + 2); Ended(s.world, host, r, p, script, k + 3); }
  }

  method UpgradeKnownProxy(s: Stores, contract: Abstraction, host: Option<Host>, r: Request, known: Phase, script: Script, k: nat)
    returns (end: Phase)
    requires r.UpgradeProxy? && known.KindKnown?
    modifies s, contract
    ensures (end, s.world) == Play(old(s.world), host, r, known, script, k)
    ensures end.Done? || end.Failed?
    ensures end.Failed? ==> contract.ReadWriteBack() == old(contract.ReadWriteBack())
    ensures end.Done? ==> NamesFetched(old(contract.ReadWriteBack()), contract.ReadWriteBack(), end.implementation)
  {
    end := CompareAndPlan(s, host, r, known, script, k);
    if end.Queued? { end := UpgradeStep(s, contract, host, r, end, script, k + 3); }
    else { Ended(s.world, host, r, end, script, k + 3); }
  }

  method UpgradeReadProxy(s: Stores, contract: Abstraction, host: Option<Host>, r: Request, slots: Phase, script: Script, k: nat)
    returns (end: Phase)
    requires r.UpgradeProxy? && slots.SlotsRead?
    modifies s, contract
    ensures (end, s.world) == Play(old(s.world), host, r, slots, script, k)
    ensures end.Done? || end.Failed?
    ensures end.Failed? ==> contract.ReadWriteBack() == old(contract.ReadWriteBack())
    ensures end.Done? ==> NamesFetched(old(contract.ReadWriteBack()), contract.ReadWriteBack(), end.implementation)
  {
    end := ProcessProxyKind(s, host, r, slots, script, k);
    if end.KindKnown? { end := UpgradeKnownProxy(s, contract, host, r, end, script, k + 1); }
    else { Ended(s.world, host, r, end, script, k + 1); }
  }

  method UpgradeGatedProxy(s: Stores, contract: Abstraction, host: Option<Host>, r: Request, script: Script, k: nat)
    returns (end: Phase)
    requires r.UpgradeProxy?
    modifies s, contract
    ensures (end, s.world) == Play(old(s.world), host, r, Gated, script, k)
    ensures end.Done? || end.Failed?
    ensures end.Failed? ==> contract.ReadWriteBack() == old(contract.ReadWriteBack())
    ensures end.Done? ==> NamesFetched(old(contract.ReadWriteBack()), contract.ReadWriteBack(), end.implementation)
  {
    end := ReadSlots(s, host, r, script, k);
    if end.SlotsRead? { end := UpgradeReadProxy(s, contract, host, r, end, script, k + 1); }
    else { Ended(s.world, host, r, end, script, k + 1); }
  }

  /**
   `runUpgradeProxy`. Every failing exit leaves the user's contract the write-back it came with; a
   success leaves that, or the new implementation's.
   */
  method RunUpgradeProxy(s: Stores, contract: Abstraction, host: Option<Host>, r: Request, script: Script) returns (end: Phase)
    requires r.UpgradeProxy?
    modifies s, contract
    ensures (end, s.world) == Play(old(s.world), host, r, Begun, script, 0)
    ensures end.Done? || end.Failed?
    ensures end.Failed? ==> contract.ReadWriteBack() == old(contract.ReadWriteBack())
    ensures end.Done? ==> NamesFetched(old(contract.ReadWriteBack()), contract.ReadWriteBack(), end.implementation)
  {
    ghost var w0 := s.world;
    var a := s.Await(script(0));
    end := if a.Fault? then Refuse(ValidationFailed) else if host.None? then Refuse(DeployerAbsent) else Gated;
    Turned(w0, host, r, Begun, script, 0, end, s.world);
    if end.Gated? { end := UpgradeGatedProxy(s, contract, host, r, script, 1); }
  }

  /** `requireBeacon`, validation, the comparison and the deployer gate, in `runUpgradeBeacon`'s order. */
  method ReadBeaconTarget(s: Stores, host: Option<Host>, r: Request, script: Script) returns (p: Phase)
    requires r.UpgradeBeacon?
    modifies s
    ensures Play(s.world, host, r, p, script, 2) == Play(old(s.world), host, r, Begun, script, 0)
    ensures p.KindKnown? || p.Failed?
  {
    ghost var w0 := s.world;
    var a := s.Await(script(0));
    if a.Fault? {
      p := Refuse(RoundTripFailed);
    } else if r.beacon !in s.world.code || !s.world.code[r.beacon].Beacon? {
      p := Refuse(NotABeacon);
    } else {
      p := SlotsRead(Target(r.beacon, s.world.code[r.beacon].implementation, None));
    }
    Turned(w0, host, r, Begun, script, 0, p, s.world);
    if p.Failed? { return; }
    var slots := p;
    w0 := s.world;
    a := s.Await(script(1));
    p := if a.Fault? then Refuse(ValidationFailed) else KindKnown(slots.t, ViaBeacon);
    Turned(w0, host, r, slots, script, 1, p, s.world);
  }

  method GateBeacon(s: Stores, host: Option<Host>, r: Request, compared: Phase, script: Script, k: nat) returns (p: Phase)
    requires r.UpgradeBeacon? && compared.Compared?
    modifies s
    ensures Play(s.world, host, r, p, script, k + 1) == Play(old(s.world), host, r, compared, script, k)
    ensures (p.Queued? && p.upgrade.Some? && p.upgrade.value.t == compared.t && p.upgrade.value.basis == compared.basis) || p.Failed?
  {
    ghost var w0 := s.world;
    var a := s.Await(script(k));
    p := if a.Fault? then Refuse(RoundTripFailed)
         else if host.None? then Refuse(DeployerAbsent)
         else Queued(compared.kind, Some(Upgrade(compared.t, compared.basis, None)));
    Turned(w0, host, r, compared, script, k, p, s.world);
  }

  method CompareAndGate(s: Stores, host: Option<Host>, r: Request, known: Phase, script: Script, k: nat) returns (p: Phase)
    requires r.UpgradeBeacon? && known.KindKnown?
    modifies s
    ensures Play(s.world, host, r, p, script, k + 3) == Play(old(s.world), host, r, known, script, k)
    ensures (p.Queued? && p.upgrade.Some?) || p.Failed?
  {
    p := CompareStorage(s, host, r, known, script, k);
    if p.Compared? { p := GateBeacon(s, host, r, p, script, k + 2); }
    else { Ended(s.world, host, r, p, script, k + 2); Ended(s.world, host, r, p, script, k + 3); }
  }

  method UpgradeKnownBeacon(s: Stores, contract: Abstraction, host: Option<Host>, r: Request, known: Phase, script: Script, k: nat)
    returns (end: Phase)
    requires r.UpgradeBeacon? && known.KindKnown?
    modifies s, contract
    ensures (end, s.world) == Play(old(s.world), host, r, known, script, k)
    ensures end.Done? || end.Failed?
    ensures end.Failed? ==> contract.ReadWriteBack() == old(contract.ReadWriteBack())
    ensures end.Done? ==> NamesFetched(old(contract.ReadWriteBack()), contract.ReadWriteBack(), end.implementation)
  {
    end := CompareAndGate(s, host, r, known, script, k);
    if end.Queued? { end := UpgradeStep(s, contract, host, r, end, script, k + 3); }
    else { Ended(s.world, host, r, end, script, k + 3); }
  }

  /** `runUpgradeBeacon`: the same rule for the user's contract. */
  method RunUpgradeBeacon(s: Stores, contract: Abstraction, host: Option<Host>, r: Request, script: Script) returns (end: Phase)
    requires r.UpgradeBeacon?
    modifies s, contract
    ensures (end, s.world) == Play(old(s.world), host, r, Begun, script, 0)
    ensures end.Done? || end.Failed?
    ensures end.Failed? ==> contract.ReadWriteBack() == old(contract.ReadWriteBack())
    ensures end.Done? ==> NamesFetched(old(contract.ReadWriteBack()), contract.ReadWriteBack(), end.implementation)
  {
    end := ReadBeaconTarget(s, host, r, script);
    if end.KindKnown? { end := UpgradeKnownBeacon(s, contract, host, r, end, script, 2); }
    else { Ended(s.world, host, r, end, script, 2); }
  }

  // ---------- adoption ----------

  /** What is at the address, and the code behind it against the reference. */
  method VerifyAdoption(s: Stores, host: Option<Host>, r: Request, script: Script) returns (p: Phase)
    requires r.ForceImport?
    modifies s
    ensures Play(s.world, host, r, p, script, 2) == Play(old(s.world), host, r, Begun, script, 0)
    ensures p.CodeMatched? || p.Failed?
  {
    ghost var w0 := s.world;
    var a := s.Await(script(0));
    var found := Classify(s.world, r.address);
    p := if a.Fault? then Refuse(RoundTripFailed)
         else if found.Err? then Refuse(found.error)
         else if r.asserted.Some? && r.asserted.value != found.value.0 then Refuse(KindMismatch)
         else Classified(found.value.0, found.value.1);
    Turned(w0, host, r, Begun, script, 0, p, s.world);
    if p.Failed? { return; }
    var classified := p;
    w0 := s.world;
    a := s.Await(script(1));
    var implementation := classified.implementation;
    p := if a.Fault? then Refuse(RoundTripFailed)
         else if implementation !in s.world.code || s.world.code[implementation] != Implementation(r.v.version.code) then Refuse(CodeMismatch)
         else CodeMatched(classified.found, implementation);
    Turned(w0, host, r, classified, script, 1, p, s.world);
  }

  /** The conflict read comes before both writes; the layout is stored before the proxy is recorded. */
  method AdoptInOrder(s: Stores, host: Option<Host>, r: Request, matched: Phase, script: Script, k: nat) returns (end: Phase)
    requires r.ForceImport? && matched.CodeMatched?
    modifies s
    ensures (end, s.world) == Play(old(s.world), host, r, matched, script, k)
    ensures end.Done? || end.Failed?
  {
    var CodeMatched(found, implementation) := matched;
    ghost var w0 := s.world;
    var a := s.Await(script(k));
    end := if a.Fault? then Refuse(RoundTripFailed)
           else if !found.FoundProxy? then KindAgreed(found, implementation, false)
           else if r.address in s.world.proxies && s.world.proxies[r.address] != found.kind then Refuse(KindMismatch)
           else KindAgreed(found, implementation, r.address !in s.world.proxies);
    Turned(w0, host, r, matched, script, k, end, s.world);
    if end.KindAgreed? {
      end := WriteAdoption(s, host, r, end, script, k + 1);
    }
  }

  method WriteAdoption(s: Stores, host: Option<Host>, r: Request, agreed: Phase, script: Script, k: nat) returns (end: Phase)
    requires r.ForceImport? && agreed.KindAgreed?
    modifies s
    ensures (end, s.world) == Play(old(s.world), host, r, agreed, script, k)
    ensures end.Done? || end.Failed?
  {
    var KindAgreed(found, implementation, recordProxy) := agreed;
    ghost var w0 := s.world;
    var a := s.Await(script(k));
    if a.Fault? {
      end := Refuse(RoundTripFailed);
      Turned(w0, host, r, agreed, script, k, end, s.world);
      return;
    }
    s.world := StoreFor(s.world, r.v, implementation);
    var stored := LayoutStored(found, implementation, recordProxy);
    end := if a.Torn? then Failed(AdoptionWriteFailed) else stored;
    Turned(w0, host, r, agreed, script, k, end, s.world);
    if end == stored {
      w0 := s.world;
      a := s.Await(script(k + 1));
      if a.Fault? {
        end := Failed(AdoptionWriteFailed);
      } else {
        if recordProxy && found.FoundProxy? {
          s.world := RecordProxy(s.world, r.address, found.kind);
        }
        end := if a.Torn? then Failed(AdoptionWriteFailed) else Done(r.address, implementation, None);
      }
      Turned(w0, host, r, stored, script, k + 1, end, s.world);
    }
  }

  /** `runForceImport`; it deploys nothing, so it touches no write-back. */
  method RunForceImport(s: Stores, host: Option<Host>, r: Request, script: Script) returns (end: Phase)
    requires r.ForceImport?
    modifies s
    ensures (end, s.world) == Play(old(s.world), host, r, Begun, script, 0)
    ensures end.Done? || end.Failed?
  {
    end := VerifyAdoption(s, host, r, script);
    if end.CodeMatched? { end := AdoptInOrder(s, host, r, end, script, 2); }
  }

  // ---------- what the pipelines keep, whatever others do meanwhile ----------

  /** A prior address the replay decision accepts stays acceptable, whatever happens to the stores. */
  lemma ReplayStaysProceeding(w: World, u: World, prior: Option<Address>)
    requires Grows(w, u) && ReplayProceeds(w, prior)
    ensures ReplayProceeds(u, prior)
  {
  }

  ghost predicate RecordsWhenDone(w: World, p: Phase) {
    p.Done? ==> p.at in w.proxies
  }

  /** A finished proxy creation is in the record. */
  lemma {:induction false} DoneIsRecorded(w: World, host: Option<Host>, r: Request, p: Phase, script: Script, k: nat)
    requires r.DeployProxy? && RecordsWhenDone(w, p)
    ensures RecordsWhenDone(Play(w, host, r, p, script, k).1, Play(w, host, r, p, script, k).0)
    decreases Remaining(p)
  {
    if !Final(p) {
      var u := Elsewhere(w, script(k).others);
      if Safety.Steppable(u, p) {
        EveryStepShortens(u, host, r, p, script(k).answer);
        var (q, x) := Advance(u, host, r, p, script(k).answer);
        DoneIsRecorded(x, host, r, q, script, k + 1);
      }
    }
  }

  /**
   Running a migration again is never refused as stale because of what the first run did: if the
   replay decision accepted the address the contract named, it accepts the one the contract names
   after any exit, the proxy's after a success and the old one after a failure.
   */
  lemma RerunIsNeverStale(w: World, host: Option<Host>, r: Request, script: Script, after: WriteBack)
    requires Sound(w) && r.DeployProxy? && ReplayProceeds(w, r.prior)
    requires var (end, u) := Play(w, host, r, Begun, script, 0);
             after.address == if end.Done? then Some(end.at) else r.prior
    requires var end := Play(w, host, r, Begun, script, 0).0; end.Done? ==> end.sent.Some?
    ensures ReplayProceeds(Play(w, host, r, Begun, script, 0).1, after.address)
  {
    PlayIsSafe(w, host, r, Begun, script, 0);
    DoneIsRecorded(w, host, r, Begun, script, 0);
    ReplayStaysProceeding(w, Play(w, host, r, Begun, script, 0).1, r.prior);
  }
}
