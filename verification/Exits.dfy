/**
 How one operation ends: what each kind of exit has and has not changed. One operation runs here, while
 transactions land, contracts appear and the engine drops entries; for what holds beside other
 operations, see `Safety` and `Provenance`.
 */
module Exits {
  import opened Wrappers
  import opened World
  import opened Operations
  import opened Safety
  import Dispatch

  function Remaining(p: Phase): nat {
    match p
    case Begun => 11
    case Gated => 10
    case Opened(_) => 10
    case Judged(_, _) => 9
    case Vouched(_) => 8
    case SlotsRead(_) => 9
    case KindKnown(_, _) => 8
    case LayoutFound(_, _, _) => 7
    case Compared(_, _, _) => 6
    case Queued(_, _) => 5
    case Fetched(_, _, _) => 4
    case Sent(_, _, _, _) => 3
    case Confirmed(_, _, _, _) => 2
    case Checked(_, _, _, _) => 1
    case Classified(_, _) => 4
    case CodeMatched(_, _) => 3
    case KindAgreed(_, _, _) => 2
    case LayoutStored(_, _, _) => 1
    case Done(_, _, _) => 0
    case Failed(_) => 0
  }

  lemma UpgradeChecksShorten(w: World, host: Option<Host>, r: Request, p: Phase, a: Answer)
    requires PreQueue(p)
    ensures r.UpgradeProxy? ==> Remaining(AdvanceUpgradeProxy(w, host, r, p, a)) < Remaining(p)
    ensures r.UpgradeBeacon? ==> Remaining(AdvanceUpgradeBeacon(w, host, r, p, a)) < Remaining(p)
  {
  }

  lemma CreationChecksShorten(w: World, host: Option<Host>, r: Request, p: Phase, a: Answer)
    requires PreQueue(p)
    ensures r.DeployProxy? ==> Remaining(AdvanceDeployProxy(w, host, r, p, a)) < Remaining(p)
    ensures r.DeployBeacon? || r.DeployBeaconProxy? ==> Remaining(AdvanceBeaconCreation(w, host, r, p, a)) < Remaining(p)
  {
  }

  lemma ImportShortens(w: World, r: Request, p: Phase, a: Answer)
    requires r.ForceImport? && !Final(p)
    ensures Remaining(AdvanceImport(w, r, p, a).0) < Remaining(p)
  {
  }

  lemma SpendShortens(w: World, r: Request, p: Phase, a: Answer)
    requires !r.ForceImport? && Steppable(w, p)
    ensures p.Queued? || p.Fetched? ==> Remaining(AdvanceSend(w, r, p, a).0) < Remaining(p)
    ensures p.Sent? || p.Confirmed? || p.Checked? ==> Remaining(AdvanceSettle(w, r, p, a).0) < Remaining(p)
  {
  }

  /** Every operation ends: each step of it strictly shortens what is left. */
  lemma EveryStepShortens(w: World, host: Option<Host>, r: Request, p: Phase, a: Answer)
    requires Steppable(w, p)
    ensures Remaining(Advance(w, host, r, p, a).0) < Remaining(p)
  {
    if r.ForceImport? { ImportShortens(w, r, p, a); }
    else if PreQueue(p) {
      UpgradeChecksShorten(w, host, r, p, a);
      CreationChecksShorten(w, host, r, p, a);
    } else { SpendShortens(w, r, p, a); }
  }

  /** One await: what others did to the stores meanwhile, and its answer. */
  datatype Turn = Turn(others: seq<Event>, answer: Answer)

  type Script = nat -> Turn

  /** A transaction or a stored implementation landing, a foreign deployment, an engine drop; one that cannot happen does not. */
  function Happened(w: World, e: Event): World {
    match e
    case Mined(t, ok) => if CanMine(w, t) then Mine(w, t, ok) else w
    case DeployedOutside(at, c) => if CanDeployOutside(w, at, c) then DeployOutside(w, at, c) else w
    case Dropped(k) => if CanDrop(w, k) then Drop(w, k) else w
    case LandedLate(k, at) => if CanLandStored(w, k, at) then LandStored(w, k, at) else w
    case HandedOver(at, owner) => if CanHandOver(w, at) then HandOver(w, at, owner) else w
    case _ => w
  }

  function Elsewhere(w: World, events: seq<Event>): (u: World)
    ensures |u.txs| == |w.txs|
    decreases |events|
  {
    if events == [] then w else Elsewhere(Happened(w, events[0]), events[1..])
  }

  /** The machine, driven by a script from its turn `k` on. */
  ghost function Play(w: World, host: Option<Host>, r: Request, p: Phase, script: Script, k: nat): (Phase, World)
    decreases Remaining(p)
  {
    if Final(p) then (p, w)
    else
      var u := Elsewhere(w, script(k).others);
      if !Steppable(u, p) then (p, u)
      else
        EveryStepShortens(u, host, r, p, script(k).answer);
        var (q, x) := Advance(u, host, r, p, script(k).answer);
        Play(x, host, r, q, script, k + 1)
  }

  /** One turn of the machine. */
  lemma Turned(w: World, host: Option<Host>, r: Request, p: Phase, script: Script, k: nat, q: Phase, x: World)
    requires !Final(p) && Steppable(Elsewhere(w, script(k).others), p)
    requires Advance(Elsewhere(w, script(k).others), host, r, p, script(k).answer) == (q, x)
    ensures Play(w, host, r, p, script, k) == Play(x, host, r, q, script, k + 1)
    ensures Final(q) ==> Play(w, host, r, p, script, k) == (q, x)
  {
  }

  /** A finished operation takes no more turns. */
  lemma Ended(w: World, host: Option<Host>, r: Request, p: Phase, script: Script, k: nat)
    requires Final(p)
    ensures Play(w, host, r, p, script, k) == (p, w)
  {
  }

  /** Nothing has been written yet. */
  ghost predicate Untouched(p: Phase) {
    PreQueue(p) || p.Queued? || p.Classified? || p.CodeMatched? || p.KindAgreed?
  }

  ghost predicate IsRefusal(p: Phase) {
    p.Failed? && p.error.Refused?
  }

  /** The phases of an adoption, and those of the sending operations. */
  ghost predicate Fits(r: Request, p: Phase) {
    Final(p) || p.Begun? || (r.ForceImport? <==> p.Classified? || p.CodeMatched? || p.KindAgreed? || p.LayoutStored?)
  }

  lemma RefusedImportStep(w: World, r: Request, p: Phase, a: Answer)
    requires r.ForceImport? && !Final(p) && Fits(r, p)
    ensures var (q, u) := AdvanceImport(w, r, p, a);
            Fits(r, q) && (IsRefusal(q) || Untouched(q) ==> Untouched(p) && u == w)
  {
  }

  /** Once the queued step has begun, no error is a refusal. */
  lemma SpentStepRefusesNothing(w: World, r: Request, p: Phase, a: Answer)
    requires !r.ForceImport? && (p.Queued? || p.Fetched? || ((p.Sent? || p.Confirmed? || p.Checked?) && p.tx < |w.txs|))
    ensures var q := if p.Queued? || p.Fetched? then AdvanceSend(w, r, p, a).0 else AdvanceSettle(w, r, p, a).0;
            q.Fetched? || q.Sent? || q.Confirmed? || q.Checked? || q.Done? || (q.Failed? && !q.error.Refused?)
  {
  }

  /** Before the queue an operation goes on to its own next checks, or refuses. */
  lemma ChecksGoOn(w: World, host: Option<Host>, r: Request, p: Phase, a: Answer)
    requires PreQueue(p)
    ensures r.UpgradeProxy? ==> var q := AdvanceUpgradeProxy(w, host, r, p, a); PreQueue(q) || q.Queued? || IsRefusal(q)
    ensures r.UpgradeBeacon? ==> var q := AdvanceUpgradeBeacon(w, host, r, p, a); PreQueue(q) || q.Queued? || IsRefusal(q)
    ensures r.DeployProxy? ==> var q := AdvanceDeployProxy(w, host, r, p, a); PreQueue(q) || q.Queued? || IsRefusal(q)
    ensures r.DeployBeacon? || r.DeployBeaconProxy? ==>
              var q := AdvanceBeaconCreation(w, host, r, p, a); PreQueue(q) || q.Queued? || IsRefusal(q)
  {
  }

  /** A refusal is only ever the outcome of a step that changed nothing, from a phase that had changed nothing. */
  lemma RefusedStep(w: World, host: Option<Host>, r: Request, p: Phase, a: Answer)
    requires Steppable(w, p) && Fits(r, p)
    ensures var (q, u) := Advance(w, host, r, p, a);
            Fits(r, q) && (IsRefusal(q) || Untouched(q) ==> Untouched(p) && u == w)
  {
    if r.ForceImport? { RefusedImportStep(w, r, p, a); }
    else if PreQueue(p) { ChecksGoOn(w, host, r, p, a); }
    else { SpentStepRefusesNothing(w, r, p, a); }
  }

  lemma HappenedIsSafe(w: World, e: Event)
    requires Sound(w)
    ensures Sound(Happened(w, e)) && Grows(w, Happened(w, e))
  {
    match e
    case Mined(t, ok) => if CanMine(w, t) { MineIsSafe(w, t, ok); }
    case DeployedOutside(at, c) => if CanDeployOutside(w, at, c) { ForeignCodeIsSafe(w, at, c); }
    case Dropped(k) => if CanDrop(w, k) { DropIsSafe(w, k); }
    case LandedLate(k, at) => if CanLandStored(w, k, at) { LandStoredIsSafe(w, k, at); }
    case HandedOver(at, owner) => if CanHandOver(w, at) { HandOverIsSafe(w, at, owner); }
    case _ =>
  }

  lemma {:induction false} ElsewhereIsSafe(w: World, events: seq<Event>)
    requires Sound(w)
    ensures Sound(Elsewhere(w, events)) && Grows(w, Elsewhere(w, events))
    decreases |events|
  {
    if events != [] {
      var u := Happened(w, events[0]);
      HappenedIsSafe(w, events[0]);
      ElsewhereIsSafe(u, events[1..]);
      GrowsTransitive(w, u, Elsewhere(u, events[1..]));
    }
  }

  /** A turn keeps both stores sound, only adds to them, and keeps what the operation relies on. */
  lemma TurnIsSafe(w: World, host: Option<Host>, r: Request, p: Phase, script: Script, k: nat)
    requires Sound(w) && OpOk(w, r, p) && !Final(p)
    ensures Steppable(Elsewhere(w, script(k).others), p) && OpOk(Elsewhere(w, script(k).others), r, p)
    ensures var (q, x) := Advance(Elsewhere(w, script(k).others), host, r, p, script(k).answer);
            Sound(x) && Grows(w, x) && OpOk(x, r, q)
  {
    var u := Elsewhere(w, script(k).others);
    ElsewhereIsSafe(w, script(k).others);
    GrowsKeepsOpOk(w, u, r, p);
    AdvanceIsSafe(u, host, r, p, script(k).answer);
    GrowsTransitive(w, u, Advance(u, host, r, p, script(k).answer).1);
  }

  /** Every operation ends; it keeps both stores sound, only adds to them, and what it reports is true of them. */
  lemma {:induction false} PlayIsSafe(w: World, host: Option<Host>, r: Request, p: Phase, script: Script, k: nat)
    requires Sound(w) && OpOk(w, r, p)
    ensures var (q, u) := Play(w, host, r, p, script, k);
            Sound(u) && Grows(w, u) && OpOk(u, r, q) && Final(q)
    decreases Remaining(p)
  {
    if !Final(p) {
      var u := Elsewhere(w, script(k).others);
      TurnIsSafe(w, host, r, p, script, k);
      EveryStepShortens(u, host, r, p, script(k).answer);
      var (q, x) := Advance(u, host, r, p, script(k).answer);
      PlayIsSafe(x, host, r, q, script, k + 1);
      GrowsTransitive(w, x, Play(x, host, r, q, script, k + 1).1);
    }
  }

  /** What others alone make of the stores in `n` turns. */
  ghost function OthersOnly(w: World, script: Script, k: nat, n: nat): World
    decreases n
  {
    if n == 0 then w else OthersOnly(Elsewhere(w, script(k).others), script, k + 1, n - 1)
  }

  /** One turn of an operation that will end in a refusal. */
  lemma RefusedTurn(w: World, host: Option<Host>, r: Request, p: Phase, script: Script, k: nat)
    requires Fits(r, p) && !Final(p)
    requires IsRefusal(Play(w, host, r, p, script, k).0)
    ensures var u := Elsewhere(w, script(k).others);
            Steppable(u, p) &&
            var (q, x) := Advance(u, host, r, p, script(k).answer);
            && Remaining(q) < Remaining(p) && Fits(r, q)
            && (IsRefusal(q) || Untouched(q) ==> Untouched(p) && x == u)
            && Play(w, host, r, p, script, k) == Play(x, host, r, q, script, k + 1)
  {
    var u := Elsewhere(w, script(k).others);
    if Steppable(u, p) {
      var (q, x) := Advance(u, host, r, p, script(k).answer);
      EveryStepShortens(u, host, r, p, script(k).answer);
      RefusedStep(u, host, r, p, script(k).answer);
      Turned(w, host, r, p, script, k, q, x);
    }
  }

  /** An operation that ends in a refusal has itself changed neither the chain nor the record. */
  lemma {:induction false} RefusalChangesNothing(w: World, host: Option<Host>, r: Request, p: Phase, script: Script, k: nat) returns (n: nat)
    requires Fits(r, p) && !Final(p)
    requires IsRefusal(Play(w, host, r, p, script, k).0)
    ensures Untouched(p) && n <= Remaining(p)
    ensures Play(w, host, r, p, script, k).1 == OthersOnly(w, script, k, n)
    decreases Remaining(p)
  {
    var u := Elsewhere(w, script(k).others);
    RefusedTurn(w, host, r, p, script, k);
    var (q, x) := Advance(u, host, r, p, script(k).answer);
    if Final(q) {
      Ended(x, host, r, q, script, k + 1);
      n := 1;
      assert OthersOnly(u, script, k + 1, 0) == u;
    } else {
      var m := RefusalChangesNothing(x, host, r, q, script, k + 1);
      n := m + 1;
    }
  }

  // ---------- what an operation may spend ----------

  /** The address an upgrade is for. */
  function TargetOf(r: Request): Option<Address> {
    match r
    case UpgradeProxy(_, proxy, _, _) => Some(proxy)
    case UpgradeBeacon(_, beacon, _) => Some(beacon)
    case _ => None
  }

  /** The upgrade in flight is for the address that was asked for, and passed its own storage report. */
  ghost predicate AimedAt(r: Request, t: Target, basis: Basis) {
    && TargetOf(r) == Some(t.at) && basis.current == t.current
    && basis.accepts == r.v.accepts && basis.layout in r.v.accepts
  }

  ghost predicate Aimed(r: Request, p: Phase) {
    match p
    case Opened(_) => r.DeployProxy?
    case Judged(kind, _) =>
      r.DeployProxy? && kind != ViaBeacon && (r.kind.Some? ==> r.kind.value == kind) && (r.initialOwner.Some? ==> kind == Transparent)
    case Vouched(kind) => r.DeployProxy? && kind != ViaBeacon && Askable(r, kind)
    case SlotsRead(t) => TargetOf(r) == Some(t.at)
    case KindKnown(t, _) => TargetOf(r) == Some(t.at)
    case LayoutFound(t, _, _) => TargetOf(r) == Some(t.at)
    case Compared(t, _, basis) => AimedAt(r, t, basis)
    case Queued(kind, upgrade) => AimedUpgrade(r, kind, upgrade)
    case Fetched(kind, upgrade, _) => AimedUpgrade(r, kind, upgrade)
    case _ => true
  }

  /** What a creation must have been asked with, to be sent as a contract of this kind. */
  ghost predicate Askable(r: Request, kind: Kind) {
    match r
    case DeployProxy(_, explicit, owner, sender, _, initializerFalse, cheatcodeArg) =>
      && !initializerFalse && !cheatcodeArg && (explicit.Some? ==> explicit.value == kind)
      && (owner.Some? ==> kind == Transparent) && (kind == Transparent ==> owner.Some? || sender.Some?)
    case DeployBeacon(_, owner, sender) => owner.Some? || sender.Some?
    case DeployBeaconProxy(_, initializerFalse) => !initializerFalse
    case _ => true
  }

  ghost predicate AimedUpgrade(r: Request, kind: Kind, upgrade: Option<Upgrade>) {
    && !r.ForceImport? && (upgrade.Some? <==> IsUpgrade(r))
    && (upgrade.Some? ==> AimedAt(r, upgrade.value.t, upgrade.value.basis))
    && (upgrade.Some? ==> PlanOk(r, kind, upgrade.value))
    && (r.DeployProxy? <==> !IsUpgrade(r) && kind != ViaBeacon) && Askable(r, kind)
  }

  /** Some generation executes the call as asked: this target, this implementation, a call only with call data. */
  ghost predicate ExecutesAs(c: Dispatch.Call, at: Address, implementation: Address, calls: bool) {
    exists route :: Dispatch.Executed(route, c) == Some(Dispatch.Upgraded(at, implementation, calls))
  }

  /** The one transaction each operation may send. */
  ghost predicate Fitting(r: Request, e: Effect) {
    match r
    case DeployProxy(_, _, _, _, _, _, _) =>
      e.Create? && e.contract.Proxy? && e.owner == OwnerOf(r) && Askable(r, if e.contract.admin.Some? then Transparent else Uups)
    case DeployBeacon(_, _, _) => e.Create? && e.contract.Beacon? && e.contract.owner == OwnerOf(r) && Askable(r, ViaBeacon)
    case DeployBeaconProxy(beacon, _) => e.Create? && e.contract == BeaconProxy(beacon) && Askable(r, ViaBeacon)
    case ForceImport(_, _, _) => false
    case _ =>
      && e.Repoint? && Some(e.at) == TargetOf(r) && e.basis.accepts == r.v.accepts && e.basis.layout in r.v.accepts
      && e.call.from == AccountOf(r)
      && (r.UpgradeProxy? ==> ExecutesAs(e.call, e.at, e.implementation, r.hasCallData))
      && (r.UpgradeBeacon? ==> e.call == Dispatch.BeaconCall(e.at, e.implementation, AccountOf(r)))
  }

  lemma UpgradeChecksAim(w: World, host: Option<Host>, r: Request, p: Phase, a: Answer)
    requires PreQueue(p) && Aimed(r, p)
    ensures r.UpgradeProxy? ==> Aimed(r, AdvanceUpgradeProxy(w, host, r, p, a))
    ensures r.UpgradeBeacon? ==> Aimed(r, AdvanceUpgradeBeacon(w, host, r, p, a))
  {
  }

  lemma CreationChecksAim(w: World, host: Option<Host>, r: Request, p: Phase, a: Answer)
    requires PreQueue(p) && Aimed(r, p)
    ensures r.DeployProxy? ==> Aimed(r, AdvanceDeployProxy(w, host, r, p, a))
    ensures r.DeployBeacon? || r.DeployBeaconProxy? ==> Aimed(r, AdvanceBeaconCreation(w, host, r, p, a))
  {
  }

  lemma PreQueueAims(w: World, host: Option<Host>, r: Request, p: Phase, a: Answer)
    requires !r.ForceImport? && PreQueue(p) && Aimed(r, p)
    ensures Advance(w, host, r, p, a).1.txs == w.txs && Aimed(r, Advance(w, host, r, p, a).0)
  {
    if IsUpgrade(r) { UpgradeChecksAim(w, host, r, p, a); } else { CreationChecksAim(w, host, r, p, a); }
  }

  lemma CallExecutes(r: Request, kind: Kind, u: Upgrade, implementation: Address)
    requires r.UpgradeProxy? && PlanOk(r, kind, u)
    ensures ExecutesAs(CallFor(r, kind, u, implementation), u.t.at, implementation, r.hasCallData)
  {
    var call := CallFor(r, kind, u, implementation);
    assert Dispatch.Executed(u.plan.value.route, call) == Some(Dispatch.Upgraded(u.t.at, implementation, r.hasCallData));
  }

  lemma SendAims(w: World, r: Request, p: Phase, a: Answer)
    requires !r.ForceImport? && (p.Queued? || p.Fetched?) && Aimed(r, p)
    ensures var (q, u) := AdvanceSend(w, r, p, a);
            && Aimed(r, q)
            && (u.txs == w.txs || (!BeforeSend(q) && |u.txs| == |w.txs| + 1 && u.txs[..|w.txs|] == w.txs && Fitting(r, u.txs[|w.txs|].effect)))
  {
    if r.UpgradeProxy? && p.Fetched? { CallExecutes(r, p.kind, p.upgrade.value, p.implementation); }
  }

  /** A step sends nothing, or the one fitting transaction, after which the operation can send no other. */
  lemma StepSpends(w: World, host: Option<Host>, r: Request, p: Phase, a: Answer)
    requires Steppable(w, p) && Fits(r, p) && Aimed(r, p)
    ensures var (q, u) := Advance(w, host, r, p, a);
            && Fits(r, q) && Aimed(r, q) && (BeforeSend(q) ==> BeforeSend(p) && u.txs == w.txs)
            && (u.txs == w.txs ||
                (BeforeSend(p) && |u.txs| == |w.txs| + 1 && u.txs[..|w.txs|] == w.txs && Fitting(r, u.txs[|w.txs|].effect)))
  {
    RefusedStep(w, host, r, p, a);
    if r.ForceImport? { var (q, u) := AdvanceImport(w, r, p, a); }
    else if PreQueue(p) { PreQueueAims(w, host, r, p, a); }
    else if p.Queued? || p.Fetched? { SendAims(w, r, p, a); }
    else { var (q, u) := AdvanceSettle(w, r, p, a); }
  }

  /** Others mine transactions; they do not change what was sent. */
  lemma {:induction false} OthersSendNothing(w: World, events: seq<Safety.Event>, k: nat)
    requires k < |w.txs|
    ensures Elsewhere(w, events).txs[k].effect == w.txs[k].effect
    decreases |events|
  {
    if events != [] { OthersSendNothing(Happened(w, events[0]), events[1..], k); }
  }

  /**
   An operation sends at most one transaction over its whole run, whatever lands meanwhile, and it is
   the one asked for: the creation of its kind, or a call to the named target whose stored layout the
   operation's own storage report accepted. An adoption sends none.
   */
  lemma {:induction false} AtMostOneFittingTransaction(w: World, host: Option<Host>, r: Request, p: Phase, script: Script, k: nat)
    requires Fits(r, p) && Aimed(r, p)
    ensures var u := Play(w, host, r, p, script, k).1;
            && |w.txs| <= |u.txs| <= |w.txs| + 1
            && (|u.txs| == |w.txs| + 1 ==> (BeforeSend(p) || p.Begun?) && Fitting(r, u.txs[|w.txs|].effect))
            && forall t | 0 <= t < |w.txs| :: u.txs[t].effect == w.txs[t].effect
    decreases Remaining(p)
  {
    if !Final(p) {
      var u := Elsewhere(w, script(k).others);
      forall t | 0 <= t < |w.txs| ensures u.txs[t].effect == w.txs[t].effect { OthersSendNothing(w, script(k).others, t); }
      if Steppable(u, p) {
        var (q, x) := Advance(u, host, r, p, script(k).answer);
        EveryStepShortens(u, host, r, p, script(k).answer);
        StepSpends(u, host, r, p, script(k).answer);
        Turned(w, host, r, p, script, k, q, x);
        AtMostOneFittingTransaction(x, host, r, q, script, k + 1);
      }
    }
  }
}
