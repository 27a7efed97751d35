/** What an operation knows on its way, and what its success means: step by step, whatever others do. */
module Outcomes {
  import opened Wrappers
  import opened World
  import opened Operations
  import opened Safety
  import opened Exits

  /** The effect of the operation's transaction is the reported implementation, at the reported address. */
  ghost predicate Carries(r: Request, kind: Kind, at: Address, implementation: Address, e: Effect) {
    && e.at == at
    && (e.Create? ==> exists admin, owner :: e.contract == NewContract(r, kind, implementation, admin, owner))
    && (e.Repoint? ==> e.implementation == implementation)
    && (e.Repoint? <==> IsUpgrade(r))
  }

  /** The kind of a proxy: transparent exactly when it has an admin. */
  function KindOf(c: Contract): Kind
    requires c.Proxy?
  {
    if c.admin.Some? then Transparent else Uups
  }

  /** What was found is what the chain says, and what the caller said if the caller said anything. */
  ghost predicate FoundIs(w: World, r: Request, found: Found) {
    && r.ForceImport? && r.address in w.code
    && (w.code[r.address].Proxy? <==> found.FoundProxy?)
    && (found.FoundProxy? ==> found.kind == KindOf(w.code[r.address]))
    && (r.asserted.Some? ==> r.asserted.value == found)
  }

  /** The record holds the address as found, or is about to. */
  ghost predicate AdoptsAs(w: World, r: Request, found: Found, recordProxy: bool) {
    && FoundIs(w, r, found)
    && (found.FoundProxy? ==> recordProxy || Recorded(w, r.address, found.kind))
  }

  /** The record has the address under this kind; or some kind, if it was upgraded past its admin as a UUPS one. */
  ghost predicate Recorded(w: World, at: Address, kind: Kind) {
    at in w.proxies && (w.proxies[at] == kind || Bypassed(w, at))
  }

  /** The implementation runs the code the request's contract compiles to. */
  ghost predicate Compiled(w: World, r: Request, implementation: Address) {
    !r.DeployBeaconProxy? ==> implementation in w.code && w.code[implementation] == Implementation(r.v.version.code)
  }

  /** What the contract named before a proxy deployment is a proxy or an implementation the record knows. */
  ghost predicate NotStale(w: World, r: Request) {
    r.DeployProxy? && r.prior.Some? ==>
      r.prior.value in w.code && (r.prior.value in w.proxies || StoredLayout(w.impls, r.prior.value).Some?)
  }

  /** What the report said when the session opened still holds. */
  ghost predicate Reported(w: World, r: Request, replay: Replay) {
    match replay
    case Proceed => NotStale(w, r)
    case UnlessImplementation => r.DeployProxy? && r.prior.Some? && r.prior.value in w.code
    case Stale => true
  }

  ghost predicate CarriedBy(w: World, r: Request, kind: Kind, at: Address, implementation: Address, tx: TxId) {
    && tx < |w.txs| && Carries(r, kind, at, implementation, w.txs[tx].effect)
    && NotStale(w, r) && Compiled(w, r, implementation)
  }

  ghost predicate Honest(w: World, r: Request, p: Phase) {
    match p
    case Opened(replay) => Reported(w, r, replay)
    case Judged(_, replay) => !replay.Stale? && Reported(w, r, replay)
    case Vouched(_) => NotStale(w, r)
    case Queued(_, _) => NotStale(w, r)
    case Fetched(_, _, implementation) => NotStale(w, r) && Compiled(w, r, implementation)
    case Sent(kind, at, implementation, tx) => CarriedBy(w, r, kind, at, implementation, tx)
    case Confirmed(kind, at, implementation, tx) => CarriedBy(w, r, kind, at, implementation, tx)
    case Checked(kind, at, implementation, tx) => CarriedBy(w, r, kind, at, implementation, tx)
    case Classified(found, _) => FoundIs(w, r, found)
    case CodeMatched(found, implementation) => FoundIs(w, r, found) && Verified(w, r, implementation)
    case KindAgreed(found, implementation, recordProxy) =>
      Verified(w, r, implementation) && AdoptsAs(w, r, found, recordProxy)
    case LayoutStored(found, implementation, recordProxy) =>
      Verified(w, r, implementation) && Usable(w, implementation) && AdoptsAs(w, r, found, recordProxy)
    case Done(at, implementation, sent) => Successful(w, r, at, implementation, sent)
    case _ => true
  }

  /** The reported transaction landed and carries what is reported, and the record has its kind. */
  ghost predicate Settled(w: World, r: Request, kind: Kind, at: Address, implementation: Address, tx: TxId) {
    && CarriedBy(w, r, kind, at, implementation, tx) && w.txs[tx].status.Landed?
    && (RecordsProxy(r) ==> Recorded(w, at, kind))
  }

  /** What a finished operation may be believed about. */
  ghost predicate Successful(w: World, r: Request, at: Address, implementation: Address, sent: Option<TxId>) {
    if r.ForceImport? then
      && at == r.address && at in w.code && Usable(w, implementation) && Verified(w, r, implementation)
      && (w.code[at].Proxy? ==> Recorded(w, at, KindOf(w.code[at])))
      && (w.code[at].Proxy? && r.asserted.Some? ==> r.asserted.value == FoundProxy(KindOf(w.code[at])))
    else sent.Some? && exists kind :: Settled(w, r, kind, at, implementation, sent.value)
  }

  lemma GrowsKeepsSettled(w: World, u: World, r: Request, kind: Kind, at: Address, implementation: Address, tx: TxId)
    requires Grows(w, u) && Settled(w, r, kind, at, implementation, tx)
    ensures Settled(u, r, kind, at, implementation, tx)
  {
    assert forall a <- w.code :: Nature(u.code[a]) == Nature(w.code[a]);
  }

  lemma GrowsKeepsSuccessful(w: World, u: World, r: Request, at: Address, implementation: Address, sent: Option<TxId>)
    requires Grows(w, u) && Successful(w, r, at, implementation, sent)
    ensures Successful(u, r, at, implementation, sent)
  {
    assert forall a <- w.code :: Nature(u.code[a]) == Nature(w.code[a]);
    if !r.ForceImport? {
      var kind :| Settled(w, r, kind, at, implementation, sent.value);
      GrowsKeepsSettled(w, u, r, kind, at, implementation, sent.value);
    }
  }

  lemma GrowsKeepsHonest(w: World, u: World, r: Request, p: Phase)
    requires Grows(w, u) && Honest(w, r, p)
    ensures Honest(u, r, p)
  {
    if p.Done? {
      GrowsKeepsSuccessful(w, u, r, p.at, p.implementation, p.sent);
    } else {
      assert forall a <- w.code :: Nature(u.code[a]) == Nature(w.code[a]);
    }
  }

  // ---------- every step is honest ----------

  lemma ImportIsHonest(w: World, r: Request, p: Phase, a: Answer)
    requires Sound(w) && r.ForceImport? && !Final(p) && Honest(w, r, p) && OpOk(w, r, p) && Fits(r, p)
    ensures var (q, u) := AdvanceImport(w, r, p, a); Honest(u, r, q)
  {
    if p.KindAgreed? { StoreIsSafe(w, r.v.version, p.implementation, r.v.layout); }
  }

  /** Reused or deployed, the implementation is the one asked for: the record tells the truth. */
  lemma FetchedIsCompiled(w: World, v: Validated, f: FetchAnswer)
    requires Sound(w)
    ensures var (address, u) := FetchOrDeploy(w, v, f);
            address.Some? ==> address.value in u.code && u.code[address.value] == Implementation(v.version.code)
  {
    var k := EntryFor(w.impls, v.version);
    if f.Reuse? && k.Some? { assert w.impls[k.value] in w.impls && Answers(w.impls[k.value], w.impls[k.value].primary); }
  }

  lemma FetchIsHonest(w: World, r: Request, p: Phase, a: Answer)
    requires Sound(w) && !r.ForceImport? && p.Queued? && Honest(w, r, p)
    ensures var (q, u) := AdvanceSend(w, r, p, a); Honest(u, r, q)
  {
    if !r.DeployBeaconProxy? && a.Fetching? {
      FetchIsSafe(w, r.v, a.fetch);
      FetchedIsCompiled(w, r.v, a.fetch);
    }
  }

  lemma SpendIsHonest(w: World, r: Request, p: Phase, a: Answer)
    requires !r.ForceImport? && p.Fetched? && Honest(w, r, p) && OpOk(w, r, p)
    ensures var (q, u) := AdvanceSend(w, r, p, a); Honest(u, r, q)
  {
    if p.upgrade.None? && a.Created? {
      var e := Create(a.at, NewContract(r, p.kind, p.implementation, a.admin, a.owner), OwnerOf(r));
      assert Carries(r, p.kind, a.at, p.implementation, e);
    }
  }

  /** A landed transaction made, or found, a proxy of the operation's own kind, or went past its admin. */
  lemma LandedKindFits(w: World, r: Request, p: Phase)
    requires Sound(w) && (p.Confirmed? || p.Checked?) && OpOk(w, r, p) && RecordsProxy(r)
    ensures p.at in w.code && (KindFits(w.code[p.at], p.kind) || Bypassed(w, p.at))
  {
    assert TxOk(w, w.txs[p.tx]);
    if r.UpgradeProxy? && p.kind == Uups && w.code[p.at].admin.Some? { assert LandedPast(w.code[p.at], p.at, w.txs[p.tx]); }
  }

  lemma ConfirmingIsHonest(w: World, r: Request, p: Phase, a: Answer)
    requires !r.ForceImport? && (p.Sent? || p.Confirmed?) && OpOk(w, r, p) && Honest(w, r, p)
    ensures var (q, u) := AdvanceSettle(w, r, p, a); Honest(u, r, q)
  {
    var (q, u) := AdvanceSettle(w, r, p, a);
    if q.Done? { assert Settled(u, r, p.kind, p.at, p.implementation, p.tx); }
  }

  lemma RecordingIsHonest(w: World, r: Request, p: Phase, a: Answer)
    requires Sound(w) && !r.ForceImport? && p.Checked? && OpOk(w, r, p) && Honest(w, r, p)
    ensures var (q, u) := AdvanceSettle(w, r, p, a); Honest(u, r, q)
  {
    LandedKindFits(w, r, p);
    if p.at in w.proxies { assert ProxyOk(w, p.at); }
    var (q, u) := AdvanceSettle(w, r, p, a);
    if q.Done? { assert Settled(u, r, p.kind, p.at, p.implementation, p.tx); }
  }

  lemma SettleIsHonest(w: World, r: Request, p: Phase, a: Answer)
    requires Sound(w) && !r.ForceImport? && (p.Sent? || p.Confirmed? || p.Checked?) && OpOk(w, r, p) && Honest(w, r, p)
    ensures var (q, u) := AdvanceSettle(w, r, p, a); Honest(u, r, q)
  {
    if p.Checked? { RecordingIsHonest(w, r, p, a); } else { ConfirmingIsHonest(w, r, p, a); }
  }

  lemma UpgradeChecksAreHonest(w: World, host: Option<Host>, r: Request, p: Phase, a: Answer)
    requires PreQueue(p) && Honest(w, r, p)
    ensures r.UpgradeProxy? ==> Honest(w, r, AdvanceUpgradeProxy(w, host, r, p, a))
    ensures r.UpgradeBeacon? ==> Honest(w, r, AdvanceUpgradeBeacon(w, host, r, p, a))
  {
  }

  lemma CreationChecksAreHonest(w: World, host: Option<Host>, r: Request, p: Phase, a: Answer)
    requires PreQueue(p) && Honest(w, r, p) && OpOk(w, r, p)
    ensures r.DeployProxy? ==> Honest(w, r, AdvanceDeployProxy(w, host, r, p, a))
    ensures r.DeployBeacon? || r.DeployBeaconProxy? ==> Honest(w, r, AdvanceBeaconCreation(w, host, r, p, a))
  {
  }

  lemma PreQueueIsHonest(w: World, host: Option<Host>, r: Request, p: Phase, a: Answer)
    requires !r.ForceImport? && PreQueue(p) && Honest(w, r, p) && OpOk(w, r, p)
    ensures Honest(Advance(w, host, r, p, a).1, r, Advance(w, host, r, p, a).0)
  {
    if IsUpgrade(r) { UpgradeChecksAreHonest(w, host, r, p, a); } else { CreationChecksAreHonest(w, host, r, p, a); }
  }

  lemma StepIsHonest(w: World, host: Option<Host>, r: Request, p: Phase, a: Answer)
    requires Sound(w) && Steppable(w, p) && Honest(w, r, p) && OpOk(w, r, p) && Fits(r, p)
    ensures var (q, u) := Advance(w, host, r, p, a); Honest(u, r, q)
  {
    if r.ForceImport? { ImportIsHonest(w, r, p, a); }
    else if PreQueue(p) { PreQueueIsHonest(w, host, r, p, a); }
    else if p.Queued? { FetchIsHonest(w, r, p, a); }
    else if p.Fetched? { SpendIsHonest(w, r, p, a); }
    else { SettleIsHonest(w, r, p, a); }
  }
}
