/** The upgrade-dispatch matrix (`proxy/dispatch.ts`) and what each planned call does on chain. */
module Dispatch {
  import opened Wrappers

  /** The generation of a ProxyAdmin or of a UUPS implementation; `Later` is one this plugin does not know. */
  datatype Generation = Pre5 | V5 | Later

  /** The answer of `UPGRADE_INTERFACE_VERSION()`: absent when the getter reverted. */
  datatype InterfaceVersion = Absent | Version5 | Other

  datatype Side = AdminSide | ProxySide

  datatype Route = AdminV5 | AdminV4 | UupsV5 | UupsPre5

  datatype Entry = UpgradeAndCall | Upgrade | UpgradeToAndCall | UpgradeTo

  datatype Plan = Plan(route: Route, call: Entry, carriesData: bool)

  datatype Refusal = UnknownGeneration(side: Side)

  function PlanUpgradeDispatch(side: Side, version: InterfaceVersion, hasCallData: bool): Result<Plan, Refusal> {
    if version.Other? then Err(UnknownGeneration(side))
    else if side.AdminSide? then
      if version.Version5? then Ok(Plan(AdminV5, UpgradeAndCall, true))
      else if hasCallData then Ok(Plan(AdminV4, UpgradeAndCall, true))
      else Ok(Plan(AdminV4, Upgrade, false))
    else if version.Version5? then Ok(Plan(UupsV5, UpgradeToAndCall, true))
    else if hasCallData then Ok(Plan(UupsPre5, UpgradeToAndCall, true))
    else Ok(Plan(UupsPre5, UpgradeTo, false))
  }

  /** The contract generation found at an address, as the probe can tell it. */
  function RouteOf(side: Side, version: InterfaceVersion): Route
    requires !version.Other?
  {
    if side.AdminSide? then (if version.Version5? then AdminV5 else AdminV4)
    else (if version.Version5? then UupsV5 else UupsPre5)
  }

  /** What a contract of a generation answers to the probe. */
  function VersionOf(g: Generation): InterfaceVersion {
    match g
    case Pre5 => Absent
    case V5 => Version5
    case Later => Other
  }

  function RouteFor(side: Side, g: Generation): Option<Route> {
    if g.Later? then None else Some(RouteOf(side, VersionOf(g)))
  }

  /** The probe's answer a route stands for. */
  function VersionOfRoute(route: Route): InterfaceVersion {
    if route.AdminV5? || route.UupsV5? then Version5 else Absent
  }

  /** The entry points each generation's contract has. */
  predicate Exposes(route: Route, call: Entry) {
    match route
    case AdminV5 => call.UpgradeAndCall?
    case AdminV4 => call.UpgradeAndCall? || call.Upgrade?
    case UupsV5 => call.UpgradeToAndCall?
    case UupsPre5 => call.UpgradeToAndCall? || call.UpgradeTo?
  }

  /** Does the entry point call into the new implementation, given the data it was sent? */
  predicate CallsImplementation(route: Route, call: Entry, dataIsEmpty: bool) {
    match call
    case Upgrade => false
    case UpgradeTo => false
    // Version 5 skips the call on empty data; the older generations force it.
    case UpgradeAndCall => route.AdminV4? || !dataIsEmpty
    case UpgradeToAndCall => route.UupsPre5? || !dataIsEmpty
  }

  // ---------- the call that is sent ----------

  datatype Facade = ProxyAdmin | ProxyAdminV4 | UupsProxy | UpgradeableBeacon

  /**
   One call: the interface it goes through, the account it is sent from, the contract it is sent to, and
   its arguments. The data
   argument, when there is one, is the caller's call data (`Some(true)`) or empty (`Some(false)`).
   */
  datatype Call = Call(facade: Facade, from: nat, to: nat, entry: Entry, proxy: Option<nat>, implementation: nat, data: Option<bool>)

  /** `sendUpgradeCall`. */
  function UpgradeCall(plan: Plan, proxy: nat, admin: Option<nat>, implementation: nat, hasCallData: bool, from: nat): Call {
    var facade := match plan.route
      case AdminV5 => ProxyAdmin
      case AdminV4 => ProxyAdminV4
      case _ => UupsProxy;
    var to := if admin.None? then proxy else admin.value;
    var data := Some(plan.carriesData && hasCallData);
    if plan.route.AdminV5? || plan.route.AdminV4? then
      (if plan.call.Upgrade? then Call(facade, from, to, plan.call, Some(proxy), implementation, None)
       else Call(facade, from, to, plan.call, Some(proxy), implementation, data))
    else if plan.call.UpgradeTo? then Call(facade, from, to, plan.call, None, implementation, None)
    else Call(facade, from, to, plan.call, None, implementation, data)
  }

  /** The call of a beacon upgrade. */
  function BeaconCall(beacon: nat, implementation: nat, from: nat): Call {
    Call(UpgradeableBeacon, from, beacon, UpgradeTo, None, implementation, None)
  }

  /** What a call does: the proxy it repoints, what it then runs, and whether the new implementation is called. */
  datatype Upgraded = Upgraded(proxy: nat, implementation: nat, calls: bool)

  /** The contract of a generation, executing a call: an admin repoints the proxy it is given, a proxy itself. */
  function Executed(route: Route, c: Call): Option<Upgraded> {
    var takesData := c.entry.UpgradeAndCall? || c.entry.UpgradeToAndCall?;
    if !Exposes(route, c.entry) || c.data.Some? != takesData then None
    else
      var calls := CallsImplementation(route, c.entry, c.data.None? || !c.data.value);
      if route.AdminV5? || route.AdminV4? then
        (if c.proxy.None? then None else Some(Upgraded(c.proxy.value, c.implementation, calls)))
      else if c.proxy.Some? then None
      else Some(Upgraded(c.to, c.implementation, calls))
  }

  /** The same by generation; of a later one nothing is known. */
  function ExecutedBy(side: Side, g: Generation, c: Call): Option<Upgraded> {
    var route := RouteFor(side, g);
    if route.None? then None else Executed(route.value, c)
  }

  /** The plan was made for this side, and for call data if the caller supplied any. */
  predicate PlanFits(side: Side, plan: Plan, hasCallData: bool) {
    && (side.AdminSide? <==> plan.route.AdminV5? || plan.route.AdminV4?)
    && Exposes(plan.route, plan.call)
    && (plan.carriesData <==> plan.call.UpgradeAndCall? || plan.call.UpgradeToAndCall?)
    && (CallsImplementation(plan.route, plan.call, !plan.carriesData || !hasCallData) <==> hasCallData)
  }

  /**
   For every probe: a plan is refused exactly for an unknown generation, and otherwise the call sent,
   executed by the contract the probe found, repoints that proxy to that implementation and calls into
   it exactly when the caller supplied call data.
   */
  lemma DispatchFitsGeneration(side: Side, version: InterfaceVersion, hasCallData: bool, proxy: nat, admin: nat, implementation: nat, from: nat)
    ensures PlanUpgradeDispatch(side, version, hasCallData).Err? <==> version.Other?
    ensures !version.Other? ==>
              var plan := PlanUpgradeDispatch(side, version, hasCallData).value;
              var call := UpgradeCall(plan, proxy, if side.AdminSide? then Some(admin) else None, implementation, hasCallData, from);
              && PlanFits(side, plan, hasCallData)
              && call.to == (if side.AdminSide? then admin else proxy)
              && Executed(RouteOf(side, version), call) == Some(Upgraded(proxy, implementation, hasCallData))
  {
  }
}
