/**
 The two shared stores the operations change step by step: the chain (contracts, transactions) and
 the deployment record (implementations with their storage layouts, proxies with their kinds).
 */
module World {
  import opened Wrappers
  import Dispatch

  /** A 20-byte identity; every comparison in the operations is on the canonical form. */
  type Address = nat
  type Layout = nat
  type TxId = nat

  /** Compiled code: what it hashes to, and the generation of its UUPS entry points, if it has any. */
  datatype Code = Code(hash: nat, uups: Option<Dispatch.Generation>)

  /** The record's key: what the compiled code and the constructor's arguments hash to. */
  datatype Version = Version(code: Code, arguments: nat)

  datatype Kind = Transparent | Uups | ViaBeacon

  /**
   A proxy's `owner` is the account its UUPS implementation lets upgrade it, kept in the proxy's storage.
   What other code answers to the version probe is its own affair.
   */
  datatype Contract =
    | Implementation(code: Code)
    | Proxy(implementation: Address, admin: Option<Address>, owner: Address)
    | BeaconProxy(beacon: Address)
    | Beacon(implementation: Address, owner: Address)
    | ProxyAdmin(generation: Dispatch.Generation, owner: Address)
    | OtherCode(says: Dispatch.InterfaceVersion)

  /** What an upgrade compared before it was sent. */
  datatype Basis = Basis(current: Address, layout: Layout, accepts: set<Layout>)

  /** A transparent proxy brings its own ProxyAdmin, of the given owner. */
  datatype Effect =
    | Create(at: Address, contract: Contract, owner: Address)
    | Repoint(at: Address, implementation: Address, basis: Basis, call: Dispatch.Call)

  datatype Status = Pending | Landed | Reverted

  datatype Tx = Tx(effect: Effect, status: Status)

  /** One swap of a live implementation, logged when its transaction lands. */
  datatype Swap = Swap(at: Address, previous: Address, next: Address, basis: Basis)

  datatype ImplEntry = ImplEntry(version: Version, primary: Address, others: set<Address>, layout: Layout)

  datatype World = World(
    code: map<Address, Contract>,
    txs: seq<Tx>,
    swaps: seq<Swap>,
    impls: seq<ImplEntry>,
    proxies: map<Address, Kind>)

  const Empty: World := World(map[], [], [], [], map[])

  /** The implementation an ERC-1967 proxy or a beacon answers with now. */
  function Live(code: map<Address, Contract>, at: Address): Option<Address> {
    if at !in code then None
    else match code[at]
      case Proxy(implementation, _, _) => Some(implementation)
      case Beacon(implementation, _) => Some(implementation)
      case _ => None
  }

  predicate Answers(e: ImplEntry, a: Address) {
    a == e.primary || a in e.others
  }

  /** The engine's lookup by address: the first entry, in record order, that lists it. */
  function StoredLayout(impls: seq<ImplEntry>, a: Address): Option<Layout> {
    if impls == [] then None
    else if Answers(impls[0], a) then Some(impls[0].layout)
    else StoredLayout(impls[1..], a)
  }

  ghost predicate Usable(w: World, a: Address) {
    a in w.code && StoredLayout(w.impls, a).Some?
  }

  ghost predicate LiveUsable(w: World, at: Address) {
    Live(w.code, at).Some? && Usable(w, Live(w.code, at).value)
  }

  predicate Unlisted(impls: seq<ImplEntry>, a: Address) {
    forall e <- impls :: !Answers(e, a)
  }

  /** What a creation puts on chain. */
  function NewCode(at: Address, c: Contract, owner: Address): map<Address, Contract> {
    if c.Proxy? && c.admin.Some? then map[at := c, c.admin.value := ProxyAdmin(Dispatch.V5, owner)] else map[at := c]
  }

  /** The addresses a transaction is about. */
  function Claims(e: Effect): set<Address> {
    match e
    case Create(at, contract, owner) => NewCode(at, contract, owner).Keys
    case Repoint(at, _, _, _) => {at}
  }

  /** An address no contract has, no transaction creates, and no deployment in the record is waiting for. */
  predicate Fresh(w: World, a: Address) {
    a !in w.code && (forall t <- w.txs :: a !in Claims(t.effect)) && Unlisted(w.impls, a)
  }

  /** The addresses of a new contract, and of the admin it brings, are fresh. */
  predicate CanCreate(w: World, at: Address, c: Contract) {
    && Fresh(w, at)
    && (c.Proxy? && c.admin.Some? ==> c.admin.value != at && Fresh(w, c.admin.value))
  }

  // ---------- the chain ----------

  /** The proxies and the beacon refuse an implementation without code. */
  predicate PointsAtCode(code: map<Address, Contract>, c: Contract) {
    match c
    case Proxy(implementation, _, _) => implementation in code
    case Beacon(implementation, _) => implementation in code
    case _ => true
  }

  /** The UUPS entry points of the code at an address. */
  function UupsOf(code: map<Address, Contract>, a: Address): Option<Dispatch.Generation> {
    if a in code && code[a].Implementation? then code[a].code.uups else None
  }

  /** What `UPGRADE_INTERFACE_VERSION()` answers at an address; a proxy passes the question on. */
  function ProbedVersion(code: map<Address, Contract>, a: Address): Dispatch.InterfaceVersion {
    if a !in code then Dispatch.Absent
    else match code[a]
      case ProxyAdmin(generation, _) => Dispatch.VersionOf(generation)
      case Implementation(_) => UupsVersion(code, a)
      case Proxy(implementation, _, _) => UupsVersion(code, implementation)
      case BeaconProxy(beacon) =>
        if Live(code, beacon).Some? then UupsVersion(code, Live(code, beacon).value) else Dispatch.Absent
      case Beacon(_, _) => Dispatch.Absent
      case OtherCode(says) => says
  }

  function UupsVersion(code: map<Address, Contract>, a: Address): Dispatch.InterfaceVersion {
    if UupsOf(code, a).None? then Dispatch.Absent else Dispatch.VersionOf(UupsOf(code, a).value)
  }

  /**
   What a call does, by the contract it is sent to: the proxy or beacon it repoints, if it is obeyed.
   A ProxyAdmin obeys its owner, through an entry point of its generation, about a proxy whose admin it
   is. A proxy obeys its own admin; anybody else's call goes to its implementation, which obeys the
   proxy's owner through an entry point of its generation, and takes only another UUPS implementation.
   A beacon obeys its owner.
   */
  function Executes(code: map<Address, Contract>, call: Dispatch.Call): Option<Address> {
    if call.to !in code || call.implementation !in code then None
    else match code[call.to]
      case ProxyAdmin(generation, owner) =>
        var done := Dispatch.ExecutedBy(Dispatch.AdminSide, generation, call);
        if owner == call.from && done.Some? && done.value.proxy in code
           && code[done.value.proxy].Proxy? && code[done.value.proxy].admin == Some(call.to)
        then Some(done.value.proxy) else None
      case Proxy(implementation, admin, owner) =>
        if admin == Some(call.from) then
          (if call.proxy.None? && (call.entry.UpgradeTo? || call.entry.UpgradeToAndCall?) then Some(call.to) else None)
        else
          var uups := UupsOf(code, implementation);
          if owner == call.from && uups.Some? && UupsOf(code, call.implementation).Some?
             && Dispatch.ExecutedBy(Dispatch.ProxySide, uups.value, call).Some?
          then Some(call.to) else None
      case Beacon(_, owner) =>
        if owner == call.from && call.proxy.None? && call.entry.UpgradeTo? && call.data.None? then Some(call.to) else None
      case _ => None
  }

  /** A UUPS call to a proxy that has an admin. */
  predicate Bypasses(c: Contract, at: Address, call: Dispatch.Call) {
    c.Proxy? && c.admin.Some? && call.facade.UupsProxy? && call.to == at
  }

  predicate Applicable(code: map<Address, Contract>, e: Effect) {
    match e
    case Create(at, contract, owner) =>
      && PointsAtCode(code, contract) && NewCode(at, contract, owner).Keys !! code.Keys
      && (contract.Proxy? ==> contract.admin != Some(at))
    case Repoint(at, implementation, _, call) => call.implementation == implementation && Executes(code, call) == Some(at)
  }

  function Repointed(c: Contract, implementation: Address): Contract {
    match c
    case Proxy(_, admin, owner) => Proxy(implementation, admin, owner)
    case Beacon(_, owner) => Beacon(implementation, owner)
    case _ => c
  }

  function ApplyEffect(code: map<Address, Contract>, e: Effect): map<Address, Contract>
    requires Applicable(code, e)
  {
    match e
    case Create(at, contract, owner) => code + NewCode(at, contract, owner)
    case Repoint(at, implementation, _, _) => code[at := Repointed(code[at], implementation)]
  }

  predicate CanMine(w: World, t: TxId) {
    t < |w.txs| && w.txs[t].status.Pending?
  }

  /** A transaction lands, or is mined and reverted. */
  function Mine(w: World, t: TxId, ok: bool): World
    requires CanMine(w, t)
  {
    var e := w.txs[t].effect;
    if ok && Applicable(w.code, e) then
      w.(txs := w.txs[t := Tx(e, Landed)],
         code := ApplyEffect(w.code, e),
         swaps := if e.Create? then w.swaps
                  else w.swaps + [Swap(e.at, Live(w.code, e.at).value, e.implementation, e.basis)])
    else w.(txs := w.txs[t := Tx(e, Reverted)])
  }

  function Send(w: World, e: Effect): World {
    w.(txs := w.txs + [Tx(e, Pending)])
  }

  /** Someone else deploys a contract: the plugin's own proxies and beacons have no other writer. */
  predicate CanDeployOutside(w: World, at: Address, c: Contract) {
    Fresh(w, at) && PointsAtCode(w.code, c)
  }

  function DeployOutside(w: World, at: Address, c: Contract): World {
    w.(code := w.code[at := c])
  }

  /** Someone hands over the authority over a proxy, a beacon or a ProxyAdmin. */
  predicate CanHandOver(w: World, at: Address) {
    at in w.code && (w.code[at].Proxy? || w.code[at].Beacon? || w.code[at].ProxyAdmin?)
  }

  function HandOver(w: World, at: Address, owner: Address): World
    requires CanHandOver(w, at)
  {
    w.(code := w.code[at := Owned(w.code[at], owner)])
  }

  function Owned(c: Contract, owner: Address): Contract {
    match c
    case Proxy(implementation, admin, _) => Proxy(implementation, admin, owner)
    case Beacon(implementation, _) => Beacon(implementation, owner)
    case ProxyAdmin(generation, _) => ProxyAdmin(generation, owner)
    case _ => c
  }

  /** An implementation that was stored before its transaction was confirmed, landing late. */
  predicate CanLandStored(w: World, k: nat, a: Address) {
    k < |w.impls| && Answers(w.impls[k], a) && a !in w.code
  }

  function LandStored(w: World, k: nat, a: Address): World
    requires k < |w.impls|
  {
    w.(code := w.code[a := Implementation(w.impls[k].version.code)])
  }

  // ---------- the record ----------

  function EntryFor(impls: seq<ImplEntry>, v: Version): (k: Option<nat>)
    ensures k.Some? ==> k.value < |impls| && impls[k.value].version == v
  {
    if impls == [] then None
    else if impls[0].version == v then Some(0)
    else
      var rest := EntryFor(impls[1..], v);
      if rest.None? then None else Some(rest.value + 1)
  }

  /** The engine's set-or-merge: a second address under a version joins the entry and keeps its layout. */
  function StoreImpl(impls: seq<ImplEntry>, v: Version, a: Address, layout: Layout): (r: seq<ImplEntry>)
  {
    if impls == [] then [ImplEntry(v, a, {}, layout)]
    else if impls[0].version == v then [impls[0].(others := impls[0].others + {a})] + impls[1..]
    else [impls[0]] + StoreImpl(impls[1..], v, a, layout)
  }

  /** An entry the engine may drop as invalid: none of its addresses has code. */
  predicate CanDrop(w: World, k: nat) {
    && k < |w.impls|
    && forall a <- w.code :: !Answers(w.impls[k], a)
  }

  function Drop(w: World, k: nat): World
    requires k < |w.impls|
  {
    w.(impls := w.impls[..k] + w.impls[k + 1..])
  }

  function RecordProxy(w: World, at: Address, kind: Kind): World {
    w.(proxies := w.proxies[at := kind])
  }

  /** Storing an implementation keeps every answer the record already gave, and adds one for it. */
  lemma {:induction false} StoreImplAnswers(impls: seq<ImplEntry>, v: Version, a: Address, layout: Layout, b: Address)
    ensures StoredLayout(StoreImpl(impls, v, a, layout), a).Some?
    ensures StoredLayout(impls, b).Some? ==>
              StoredLayout(StoreImpl(impls, v, a, layout), b) == StoredLayout(impls, b) || b == a
    ensures b == a && StoredLayout(impls, a).Some? ==> StoredLayout(StoreImpl(impls, v, a, layout), a).Some?
  {
    var r := StoreImpl(impls, v, a, layout);
    if impls != [] {
      assert r[1..] == if impls[0].version == v then impls[1..] else StoreImpl(impls[1..], v, a, layout);
      if impls[0].version != v { StoreImplAnswers(impls[1..], v, a, layout, b); }
    }
  }

  lemma {:induction false} DropAnswers(impls: seq<ImplEntry>, k: nat, a: Address)
    requires k < |impls| && !Answers(impls[k], a)
    ensures StoredLayout(impls[..k] + impls[k + 1..], a) == StoredLayout(impls, a)
  {
    var r := impls[..k] + impls[k + 1..];
    if k == 0 {
      assert r == impls[1..];
    } else {
      assert r[1..] == impls[1..][..k - 1] + impls[1..][k..];
      DropAnswers(impls[1..], k - 1, a);
    }
  }

  /** A stored entry stands for an entry there was, or for the address just stored. */
  lemma {:induction false} StoreImplEntries(impls: seq<ImplEntry>, v: Version, a: Address, layout: Layout, e: ImplEntry, b: Address)
    requires e in StoreImpl(impls, v, a, layout) && Answers(e, b)
    ensures (b == a && e.version == v) || exists f <- impls :: f.version == e.version && Answers(f, b)
  {
    if impls != [] {
      assert impls[0] in impls;
      if impls[0].version == v {
        if e in impls[1..] { assert e in impls; }
      } else if e != impls[0] {
        StoreImplEntries(impls[1..], v, a, layout, e, b);
        if !(b == a && e.version == v) {
          var f :| f in impls[1..] && f.version == e.version && Answers(f, b);
          assert f in impls;
        }
      }
    }
  }

  // ---------- what no step takes away ----------

  /** What a contract is for good: only its implementation and its owner change. */
  function Nature(c: Contract): Contract { Owned(Repointed(c, 0), 0) }

  /** The kind a contract can be recorded under. */
  predicate KindFits(c: Contract, kind: Kind) {
    match kind
    case Transparent => c.Proxy? && c.admin.Some?
    case Uups => c.Proxy? && c.admin.None?
    case ViaBeacon => c.BeaconProxy?
  }

  /** A UUPS call to a proxy with an admin landed. */
  ghost predicate Bypassed(w: World, p: Address) {
    p in w.code && exists t :: 0 <= t < |w.txs| && LandedPast(w.code[p], p, w.txs[t])
  }

  ghost predicate LandedPast(c: Contract, p: Address, t: Tx) {
    t.status.Landed? && t.effect.Repoint? && t.effect.at == p && Bypasses(c, p, t.effect.call)
  }

  /** No deployment in the record waits for this address. */
  ghost predicate Spare(w: World, a: Address) {
    a in w.code || Unlisted(w.impls, a)
  }

  /** The chain and the record only grow, no proxy record changes but of a bypassed proxy, and a live implementation is only ever replaced by a stored one. */
  ghost predicate Grows(w: World, u: World) {
    && (forall a <- w.code :: a in u.code && Nature(u.code[a]) == Nature(w.code[a]))
    && (forall a <- w.code :: StoredLayout(w.impls, a).Some? ==> StoredLayout(u.impls, a).Some?)
    && (forall at: Address :: Live(w.code, at).Some? ==>
          Live(u.code, at).Some? &&
          (Live(u.code, at) == Live(w.code, at) || Usable(u, Live(u.code, at).value)))
    && |w.txs| <= |u.txs|
    && (forall t | 0 <= t < |w.txs| ::
          && u.txs[t].effect == w.txs[t].effect && (!w.txs[t].status.Pending? ==> u.txs[t] == w.txs[t])
          && (forall x <- Claims(w.txs[t].effect) :: Spare(w, x) ==> Spare(u, x)))
    && (forall p <- w.proxies :: p in u.proxies && (u.proxies[p] == w.proxies[p] || Bypassed(u, p)))
  }

  lemma GrowsKeepsLiveUsable(w: World, u: World, at: Address)
    requires Grows(w, u) && LiveUsable(w, at)
    ensures LiveUsable(u, at)
  {
    var a := Live(w.code, at).value;
    assert a in w.code;
  }

  /** The call was made for this target: to its admin about it, or to itself. */
  predicate Addressed(c: Contract, at: Address, implementation: Address, call: Dispatch.Call) {
    && call.implementation == implementation
    && match call.facade
       case UpgradeableBeacon => c.Beacon? && call == Dispatch.BeaconCall(at, implementation, call.from)
       case UupsProxy =>
         c.Proxy? && call.to == at && call.proxy.None? && (call.entry.UpgradeTo? || call.entry.UpgradeToAndCall?)
       case _ => c.Proxy? && c.admin == Some(call.to) && call.proxy == Some(at)
  }

  ghost predicate TxOk(w: World, t: Tx) {
    match t.effect
    case Create(at, contract, owner) =>
      && (contract.Proxy? || contract.Beacon? ==> Usable(w, contract.implementation))
      && (t.status.Pending? ==> forall x <- Claims(t.effect) :: Spare(w, x))
      && (t.status.Landed? ==> at in w.code && Nature(w.code[at]) == Nature(contract) && HasAdmin(w, contract))
      && (t.status.Landed? && (contract.Proxy? || contract.Beacon?) ==> LiveUsable(w, at))
    case Repoint(at, implementation, _, call) =>
      Usable(w, implementation) && Live(w.code, at).Some? && Addressed(w.code[at], at, implementation, call)
  }

  /** A transparent proxy's own ProxyAdmin is where its admin slot says. */
  ghost predicate HasAdmin(w: World, c: Contract) {
    c.Proxy? && c.admin.Some? ==>
      c.admin.value in w.code && w.code[c.admin.value].ProxyAdmin? && w.code[c.admin.value].generation.V5?
  }

  /** A recorded proxy is of its recorded kind, unless it was upgraded past its admin and recorded as that. */
  ghost predicate ProxyOk(w: World, p: Address)
    requires p in w.proxies
  {
    && p in w.code && (KindFits(w.code[p], w.proxies[p]) || (w.proxies[p] == Uups && Bypassed(w, p)))
    && (w.proxies[p] != ViaBeacon ==> LiveUsable(w, p))
  }

  /** Each entry's addresses carry, or will carry, the code of its version. */
  ghost predicate Truthful(w: World) {
    && (forall e <- w.impls, a <- w.code :: Answers(e, a) ==> w.code[a] == Implementation(e.version.code))
    && (forall e <- w.impls, f <- w.impls, a: Address :: Answers(e, a) && Answers(f, a) ==> e.version.code == f.version.code)
  }

  /**
   Every sent transaction names a stored implementation and is made for its target, every recorded proxy
   is of its recorded kind or was upgraded past its admin, and runs a stored implementation, and the record tells the truth
   about the code at its addresses.
   */
  ghost predicate Sound(w: World) {
    && (forall t <- w.txs :: TxOk(w, t))
    && (forall p <- w.proxies :: ProxyOk(w, p))
    && (forall at: Address :: Live(w.code, at).Some? ==> Live(w.code, at).value in w.code)
    && Truthful(w)
  }

  lemma GrowsKeepsTxOk(w: World, u: World, k: nat)
    requires Grows(w, u) && k < |w.txs| && TxOk(w, w.txs[k])
    ensures TxOk(u, w.txs[k])
  {
    var t := w.txs[k];
    if t.effect.Create? && LiveUsable(w, t.effect.at) { GrowsKeepsLiveUsable(w, u, t.effect.at); }
    if t.effect.Repoint? { assert Nature(u.code[t.effect.at]) == Nature(w.code[t.effect.at]); }
  }

  lemma GrowsKeepsBypassed(w: World, u: World, p: Address)
    requires Grows(w, u) && Bypassed(w, p)
    ensures Bypassed(u, p)
  {
    var t :| 0 <= t < |w.txs| && LandedPast(w.code[p], p, w.txs[t]);
    assert Nature(u.code[p]) == Nature(w.code[p]);
    assert LandedPast(u.code[p], p, u.txs[t]);
  }

  lemma GrowsKeepsProxyOk(w: World, u: World, p: Address)
    requires Grows(w, u) && p in w.proxies && ProxyOk(w, p) && p in u.proxies && u.proxies[p] == w.proxies[p]
    ensures ProxyOk(u, p)
  {
    assert Nature(u.code[p]) == Nature(w.code[p]);
    if Bypassed(w, p) { GrowsKeepsBypassed(w, u, p); }
    if w.proxies[p] != ViaBeacon { GrowsKeepsLiveUsable(w, u, p); }
  }

  /** The transactions and the proxies of a grown world are as sound as they were, if they are the same ones. */
  lemma GrowsKeepsTheRest(w: World, u: World)
    requires Sound(w) && Grows(w, u) && u.txs == w.txs && u.proxies == w.proxies
    ensures forall t <- u.txs :: TxOk(u, t)
    ensures forall p <- u.proxies :: ProxyOk(u, p)
  {
    forall t <- u.txs ensures TxOk(u, t) {
      var k :| 0 <= k < |w.txs| && w.txs[k] == t;
      GrowsKeepsTxOk(w, u, k);
    }
    forall p <- u.proxies ensures ProxyOk(u, p) { GrowsKeepsProxyOk(w, u, p); }
  }

  lemma LandingKeepsNature(w: World, e: Effect)
    requires Applicable(w.code, e)
    ensures forall a <- w.code :: a in ApplyEffect(w.code, e) && Nature(ApplyEffect(w.code, e)[a]) == Nature(w.code[a])
    ensures forall a <- w.code | a != e.at :: ApplyEffect(w.code, e)[a] == w.code[a]
  {
  }

  lemma LandingKeepsTruth(w: World, t: TxId)
    requires Sound(w) && CanMine(w, t) && Applicable(w.code, w.txs[t].effect)
    ensures Truthful(w.(code := ApplyEffect(w.code, w.txs[t].effect)))
  {
    var e := w.txs[t].effect;
    var code := ApplyEffect(w.code, e);
    assert TxOk(w, w.txs[t]);
    LandingKeepsNature(w, e);
    assert forall a <- code :: a in w.code || (a in Claims(e) && Unlisted(w.impls, a)) by {
      forall a <- code ensures a in w.code || (a in Claims(e) && Unlisted(w.impls, a)) {
        if a in Claims(e) { assert Spare(w, a) || e.Repoint?; }
      }
    }
    forall i <- w.impls, a <- code | Answers(i, a) ensures code[a] == Implementation(i.version.code) {
      if a in w.code { assert w.code[a] == Implementation(i.version.code); }
    }
  }

  lemma CreationLands(w: World, t: TxId)
    requires Sound(w) && CanMine(w, t) && w.txs[t].effect.Create? && Applicable(w.code, w.txs[t].effect)
    ensures Grows(w, Mine(w, t, true)) && TxOk(Mine(w, t, true), Mine(w, t, true).txs[t])
  {
    assert TxOk(w, w.txs[t]);
    LandingKeepsNature(w, w.txs[t].effect);
    var u := Mine(w, t, true);
    assert forall a: Address | Live(w.code, a).Some? :: Live(u.code, a) == Live(w.code, a);
  }

  lemma RepointLands(w: World, t: TxId)
    requires Sound(w) && CanMine(w, t) && w.txs[t].effect.Repoint? && Applicable(w.code, w.txs[t].effect)
    ensures Grows(w, Mine(w, t, true)) && TxOk(Mine(w, t, true), Mine(w, t, true).txs[t])
  {
    assert TxOk(w, w.txs[t]);
    LandingKeepsNature(w, w.txs[t].effect);
    var u, e := Mine(w, t, true), w.txs[t].effect;
    assert Live(u.code, e.at) == Some(e.implementation);
    assert forall a: Address | a != e.at :: Live(u.code, a) == Live(w.code, a);
    assert Nature(u.code[e.at]) == Nature(w.code[e.at]);
  }

  lemma MineGrows(w: World, t: TxId, ok: bool)
    requires Sound(w) && CanMine(w, t)
    ensures Grows(w, Mine(w, t, ok)) && Truthful(Mine(w, t, ok))
    ensures TxOk(Mine(w, t, ok), Mine(w, t, ok).txs[t])
  {
    assert TxOk(w, w.txs[t]);
    if ok && Applicable(w.code, w.txs[t].effect) {
      LandingKeepsTruth(w, t);
      if w.txs[t].effect.Create? { CreationLands(w, t); } else { RepointLands(w, t); }
    }
  }

  /** A transaction landing at any time, or reverting, keeps both stores sound. */
  lemma MineIsSafe(w: World, t: TxId, ok: bool)
    requires Sound(w) && CanMine(w, t)
    ensures Sound(Mine(w, t, ok)) && Grows(w, Mine(w, t, ok))
  {
    var u := Mine(w, t, ok);
    MineGrows(w, t, ok);
    forall x <- u.txs ensures TxOk(u, x) {
      var k :| 0 <= k < |u.txs| && u.txs[k] == x;
      if k != t {
        assert w.txs[k] in w.txs;
        GrowsKeepsTxOk(w, u, k);
      }
    }
    forall p <- u.proxies ensures ProxyOk(u, p) { GrowsKeepsProxyOk(w, u, p); }
  }

  lemma SendIsSafe(w: World, e: Effect)
    requires Sound(w) && TxOk(w, Tx(e, Pending))
    ensures Sound(Send(w, e)) && Grows(w, Send(w, e))
  {
    var u := Send(w, e);
    forall x <- u.txs ensures TxOk(u, x) {
      var k :| 0 <= k < |u.txs| && u.txs[k] == x;
      if k < |w.txs| { GrowsKeepsTxOk(w, u, k); }
    }
    forall p <- u.proxies ensures ProxyOk(u, p) { GrowsKeepsProxyOk(w, u, p); }
  }

  /** New code where none was disturbs nothing, if it is what the record expects there. */
  lemma NewCodeIsSafe(w: World, at: Address, c: Contract)
    requires Sound(w) && at !in w.code && PointsAtCode(w.code, c)
    requires forall e <- w.impls | Answers(e, at) :: c == Implementation(e.version.code)
    ensures Sound(DeployOutside(w, at, c)) && Grows(w, DeployOutside(w, at, c))
  {
    var u := DeployOutside(w, at, c);
    assert forall a <- w.code :: u.code[a] == w.code[a];
    assert forall x: Address | x != at :: Live(u.code, x) == Live(w.code, x);
    GrowsKeepsTheRest(w, u);
  }

  lemma LandStoredIsSafe(w: World, k: nat, a: Address)
    requires Sound(w) && CanLandStored(w, k, a)
    ensures Sound(LandStored(w, k, a)) && Grows(w, LandStored(w, k, a))
  {
    assert w.impls[k] in w.impls;
    NewCodeIsSafe(w, a, Implementation(w.impls[k].version.code));
  }

  /** What may be stored: code of the version, or an address a deployment of it was given. */
  ghost predicate Storable(w: World, v: Version, a: Address) {
    if a in w.code then w.code[a] == Implementation(v.code)
    else Unlisted(w.impls, a) && forall t <- w.txs :: a !in Claims(t.effect)
  }

  lemma StoreIsTruthful(w: World, v: Version, a: Address, layout: Layout)
    requires Truthful(w) && Storable(w, v, a)
    ensures Truthful(w.(impls := StoreImpl(w.impls, v, a, layout)))
  {
    var u := w.(impls := StoreImpl(w.impls, v, a, layout));
    forall e <- u.impls, b <- u.code | Answers(e, b) ensures u.code[b] == Implementation(e.version.code) {
      StoreImplEntries(w.impls, v, a, layout, e, b);
    }
    forall e <- u.impls, f <- u.impls, b: Address | Answers(e, b) && Answers(f, b)
      ensures e.version.code == f.version.code
    {
      StoreImplEntries(w.impls, v, a, layout, e, b);
      StoreImplEntries(w.impls, v, a, layout, f, b);
    }
  }

  /** Storing or merging an implementation keeps both stores sound, and the record answers for it from then on. */
  lemma StoreIsSafe(w: World, v: Version, a: Address, layout: Layout)
    requires Sound(w) && Storable(w, v, a)
    ensures Sound(w.(impls := StoreImpl(w.impls, v, a, layout)))
    ensures Grows(w, w.(impls := StoreImpl(w.impls, v, a, layout)))
    ensures StoredLayout(StoreImpl(w.impls, v, a, layout), a).Some?
  {
    var u := w.(impls := StoreImpl(w.impls, v, a, layout));
    forall b: Address ensures StoredLayout(w.impls, b).Some? ==> StoredLayout(u.impls, b).Some? {
      StoreImplAnswers(w.impls, v, a, layout, b);
    }
    StoreImplAnswers(w.impls, v, a, layout, a);
    forall t, b | 0 <= t < |w.txs| && b in Claims(w.txs[t].effect) && Spare(w, b) ensures Spare(u, b) {
      assert w.txs[t] in w.txs;
      forall e <- u.impls ensures b in u.code || !Answers(e, b) {
        if Answers(e, b) { StoreImplEntries(w.impls, v, a, layout, e, b); }
      }
    }
    GrowsKeepsTheRest(w, u);
    StoreIsTruthful(w, v, a, layout);
  }

  lemma DropIsSafe(w: World, k: nat)
    requires Sound(w) && CanDrop(w, k)
    ensures Sound(Drop(w, k)) && Grows(w, Drop(w, k))
  {
    var u := Drop(w, k);
    assert forall e <- u.impls :: e in w.impls;
    forall a | a in w.code ensures StoredLayout(u.impls, a) == StoredLayout(w.impls, a) {
      DropAnswers(w.impls, k, a);
    }
    GrowsKeepsTheRest(w, u);
  }

  /** Authority changing hands changes nothing the operations recorded or rely on. */
  lemma HandOverIsSafe(w: World, at: Address, owner: Address)
    requires Sound(w) && CanHandOver(w, at)
    ensures Sound(HandOver(w, at, owner)) && Grows(w, HandOver(w, at, owner))
  {
    var u := HandOver(w, at, owner);
    assert forall x: Address :: Live(u.code, x) == Live(w.code, x);
    assert forall a <- w.code :: Nature(u.code[a]) == Nature(w.code[a]);
    assert forall a <- w.code :: w.code[a].Implementation? ==> u.code[a] == w.code[a];
    assert !w.code[at].Implementation?;
    GrowsKeepsTheRest(w, u);
  }

  /** A proxy that may be recorded under a kind: it is of that kind, or was upgraded past its admin as a UUPS one. */
  ghost predicate Recordable(w: World, at: Address, kind: Kind) {
    && at in w.code && (KindFits(w.code[at], kind) || (kind == Uups && Bypassed(w, at)))
    && (kind != ViaBeacon ==> LiveUsable(w, at))
  }

  lemma StillBypassed(w: World, u: World, at: Address)
    requires Bypassed(w, at) && u.txs == w.txs && u.code == w.code
    ensures Bypassed(u, at)
  {
    var t :| 0 <= t < |w.txs| && LandedPast(w.code[at], at, w.txs[t]);
    assert LandedPast(u.code[at], at, u.txs[t]);
  }

  lemma RecordIsSafe(w: World, at: Address, kind: Kind)
    requires Sound(w) && Recordable(w, at, kind)
    ensures Sound(RecordProxy(w, at, kind)) && Grows(w, RecordProxy(w, at, kind))
  {
    var u := RecordProxy(w, at, kind);
    if Bypassed(w, at) { StillBypassed(w, u, at); }
    if at in w.proxies { assert ProxyOk(w, at); }
    forall x <- u.txs ensures TxOk(u, x) {
      var k :| 0 <= k < |u.txs| && u.txs[k] == x;
      GrowsKeepsTxOk(w, u, k);
    }
    forall p <- u.proxies ensures ProxyOk(u, p) {
      if p != at { GrowsKeepsProxyOk(w, u, p); }
    }
  }
}
