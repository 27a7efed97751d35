/**
 Where everything on chain and in the record comes from, over every run of the operations: any number
 of them on any deployers, in any interleaving, each cut short anywhere.
 */
module Provenance {
  import opened Wrappers
  import opened World
  import opened Operations
  import opened Safety
  import opened Exits
  import opened Outcomes

  ghost predicate Known(w: World, r: Request, p: Phase) {
    Fits(r, p) && Aimed(r, p) && Honest(w, r, p)
  }

  // ---------- who sent a transaction ----------

  /** The operation is still on its way with this transaction, or reports it at its end. */
  ghost predicate Reports(p: Phase, t: TxId) {
    match p
    case Sent(_, _, _, tx) => tx == t
    case Confirmed(_, _, _, tx) => tx == t
    case Checked(_, _, _, tx) => tx == t
    case Done(_, _, sent) => sent == Some(t)
    case Failed(error) =>
      (match error
       case TransactionReverted(tx) => tx == t
       case Indeterminate(tx, _) => tx == t
       case SenderMismatch(_, tx) => tx == t
       case VerificationFailed(_, tx) => tx == t
       case ReadBackFailed(tx) => tx == t
       case RecordWriteFailed(_, tx) => tx == t
       case _ => false)
    case _ => false
  }

  /** The two ends that say nothing of the transaction: the host threw, or the record could not be read. */
  ghost predicate Silent(p: Phase) {
    p == Failed(SendFailed) || p == Failed(RecordReadFailed)
  }

  /** The implementation of a transaction runs the code of the request's own contract. */
  ghost predicate CompiledEffect(w: World, r: Request, e: Effect) {
    match e
    case Create(_, contract, _) => contract.Proxy? || contract.Beacon? ==> Compiled(w, r, contract.implementation)
    case Repoint(_, implementation, _, _) => Compiled(w, r, implementation)
  }

  ghost predicate SentBy(s: System, t: TxId, i: nat) {
    && t < |s.world.txs| && i < |s.ops|
    && Fitting(s.ops[i].request, s.world.txs[t].effect)
    && CompiledEffect(s.world, s.ops[i].request, s.world.txs[t].effect)
    && (Reports(s.ops[i].phase, t) || Silent(s.ops[i].phase))
  }

  // ---------- who replaced an implementation ----------

  /** The upgrade was for this address and its new implementation, and its storage report accepted the basis. */
  ghost predicate SwappedBy(s: System, x: Swap, i: nat) {
    && i < |s.ops| && IsUpgrade(s.ops[i].request)
    && var r := s.ops[i].request;
    && TargetOf(r) == Some(x.at) && x.basis.accepts == r.v.accepts && x.basis.layout in r.v.accepts
    && Compiled(s.world, r, x.next)
  }

  // ---------- who wrote a proxy record ----------

  /** An operation past its record write for `at`: over its own landed transaction, or an adoption. */
  ghost predicate RecordedBy(s: System, at: Address, i: nat) {
    && i < |s.ops|
    && var (r, p) := (s.ops[i].request, s.ops[i].phase);
    if r.ForceImport? then
      r.address == at && LiveUsable(s.world, at) && (p.Done? || p == Failed(AdoptionWriteFailed))
    else
      RecordsProxy(r) && match p
      case Done(a, _, Some(tx)) => a == at && SettledAt(s.world, at, tx, Landed)
      case Failed(RecordWriteFailed(a, tx)) => a == at && SettledAt(s.world, at, tx, Landed)
      case _ => false
  }

  ghost predicate HasSender(s: System, t: TxId) { exists i :: SentBy(s, t, i) }

  ghost predicate HasUpgrader(s: System, x: Swap) { exists i :: SwappedBy(s, x, i) }

  ghost predicate HasRecorder(s: System, at: Address) { exists i :: RecordedBy(s, at, i) }

  ghost predicate AllKnown(s: System) {
    forall i | 0 <= i < |s.ops| :: Known(s.world, s.ops[i].request, s.ops[i].phase)
  }

  ghost predicate Traced(s: System) {
    && (forall t | 0 <= t < |s.world.txs| :: HasSender(s, t))
    && (forall x <- s.world.swaps :: HasUpgrader(s, x))
    && (forall p <- s.world.proxies :: HasRecorder(s, p))
  }

  ghost predicate Inv(s: System) {
    Safety.Inv(s) && AllKnown(s) && Traced(s)
  }

  // ---------- what every event keeps ----------

  /** Operations keep their requests and, once they reported a transaction or a record, their word. */
  ghost predicate Continues(s: System, t: System) {
    && Grows(s.world, t.world) && |s.ops| <= |t.ops|
    && forall i | 0 <= i < |s.ops| ::
         && t.ops[i].request == s.ops[i].request
         && (Operations.Final(s.ops[i].phase) ==> t.ops[i].phase == s.ops[i].phase)
         && (forall x: TxId :: Reports(s.ops[i].phase, x) ==> Reports(t.ops[i].phase, x) || Silent(t.ops[i].phase))
  }

  lemma CompiledStays(w: World, u: World, r: Request, implementation: Address)
    requires Grows(w, u) && Compiled(w, r, implementation)
    ensures Compiled(u, r, implementation)
  {
    if !r.DeployBeaconProxy? { assert Nature(u.code[implementation]) == Nature(w.code[implementation]); }
  }

  lemma SentByStays(s: System, t: System, k: TxId, i: nat)
    requires Continues(s, t) && SentBy(s, k, i)
    ensures SentBy(t, k, i)
  {
    var (r, e) := (s.ops[i].request, s.world.txs[k].effect);
    match e
    case Create(_, contract, _) =>
      if contract.Proxy? || contract.Beacon? { CompiledStays(s.world, t.world, r, contract.implementation); }
    case Repoint(_, implementation, _, _) => CompiledStays(s.world, t.world, r, implementation);
  }

  lemma SwappedByStays(s: System, t: System, x: Swap, i: nat)
    requires Continues(s, t) && SwappedBy(s, x, i)
    ensures SwappedBy(t, x, i)
  {
    CompiledStays(s.world, t.world, s.ops[i].request, x.next);
  }

  lemma RecordedByStays(s: System, t: System, at: Address, i: nat)
    requires Continues(s, t) && RecordedBy(s, at, i)
    ensures RecordedBy(t, at, i)
  {
    if s.ops[i].request.ForceImport? { GrowsKeepsLiveUsable(s.world, t.world, at); }
  }

  /** An operation that has reported a transaction goes on reporting it, or falls silent for good. */
  lemma StepReports(w: World, host: Option<Host>, r: Request, p: Phase, a: Answer, t: TxId)
    requires Steppable(w, p) && Fits(r, p) && Reports(p, t)
    ensures var q := Advance(w, host, r, p, a).0; Reports(q, t) || Silent(q)
  {
  }

  lemma ApplyContinues(s: System, e: Event)
    requires Inv(s) && Enabled(s, e)
    ensures Continues(s, Apply(s, e)) && Safety.Inv(Apply(s, e))
  {
    ApplyKeepsInv(s, e);
    if e.Stepped? {
      var op := s.ops[e.i];
      forall x: TxId | Reports(op.phase, x)
        ensures Reports(Apply(s, e).ops[e.i].phase, x) || Silent(Apply(s, e).ops[e.i].phase)
      {
        StepReports(s.world, op.host, op.request, op.phase, e.answer, x);
      }
    }
  }

  lemma StepIsKnown(w: World, host: Option<Host>, r: Request, p: Phase, a: Answer)
    requires Sound(w) && Steppable(w, p) && OpOk(w, r, p) && Known(w, r, p)
    ensures var (q, u) := Advance(w, host, r, p, a); Known(u, r, q)
  {
    StepSpends(w, host, r, p, a);
    StepIsHonest(w, host, r, p, a);
  }

  lemma OpsStayKnown(s: System, e: Event)
    requires Inv(s) && Enabled(s, e)
    ensures AllKnown(Apply(s, e))
  {
    var t := Apply(s, e);
    ApplyContinues(s, e);
    forall i | 0 <= i < |t.ops| ensures Known(t.world, t.ops[i].request, t.ops[i].phase) {
      if e.Stepped? && i == e.i {
        OpsAreOk(s, i);
        StepIsKnown(s.world, s.ops[i].host, s.ops[i].request, s.ops[i].phase, e.answer);
      } else if i < |s.ops| {
        GrowsKeepsHonest(s.world, t.world, s.ops[i].request, s.ops[i].phase);
      }
    }
  }

  /** A step that sends reports what it sent, unless the host threw after broadcasting. */
  lemma SendStep(w: World, r: Request, p: Phase, a: Answer)
    requires !r.ForceImport? && p.Fetched? && Known(w, r, p)
    ensures var (q, u) := AdvanceSend(w, r, p, a);
            u.txs == w.txs ||
            (|u.txs| == |w.txs| + 1 && (Reports(q, |w.txs|) || Silent(q)) && CompiledEffect(u, r, u.txs[|w.txs|].effect))
  {
  }

  lemma OnlyFetchedSends(w: World, host: Option<Host>, r: Request, p: Phase, a: Answer)
    requires Steppable(w, p) && Fits(r, p) && Advance(w, host, r, p, a).1.txs != w.txs
    ensures p.Fetched? && !r.ForceImport?
  {
  }

  lemma SteppedTxs(s: System, i: nat, a: Answer)
    requires Inv(s) && Enabled(s, Stepped(i, a))
    ensures var t := Apply(s, Stepped(i, a));
            t.world.txs == s.world.txs || (|t.world.txs| == |s.world.txs| + 1 && SentBy(t, |s.world.txs|, i))
  {
    var op := s.ops[i];
    if Apply(s, Stepped(i, a)).world.txs != s.world.txs {
      OnlyFetchedSends(s.world, op.host, op.request, op.phase, a);
      StepSpends(s.world, op.host, op.request, op.phase, a);
      SendStep(s.world, op.request, op.phase, a);
    }
  }

  lemma SenderStays(s: System, t: System, k: TxId)
    requires Continues(s, t) && HasSender(s, k)
    ensures HasSender(t, k)
  {
    var i :| SentBy(s, k, i);
    SentByStays(s, t, k, i);
  }

  lemma TxsStaySent(s: System, e: Event)
    requires Inv(s) && Enabled(s, e)
    ensures var t := Apply(s, e); forall k | 0 <= k < |t.world.txs| :: HasSender(t, k)
  {
    var t := Apply(s, e);
    ApplyContinues(s, e);
    if e.Stepped? { SteppedTxs(s, e.i, e.answer); } else { OthersSend(s, e); }
    forall k | 0 <= k < |t.world.txs| ensures HasSender(t, k) {
      if k < |s.world.txs| { SenderStays(s, t, k); }
    }
  }

  lemma OthersSend(s: System, e: Event)
    requires Enabled(s, e) && !e.Stepped?
    ensures |Apply(s, e).world.txs| == |s.world.txs|
  {
  }

  lemma SwapsStay(s: System, e: Event)
    requires Inv(s) && Enabled(s, e)
    ensures var t := Apply(s, e); forall x <- t.world.swaps :: HasUpgrader(t, x)
  {
    var t := Apply(s, e);
    ApplyContinues(s, e);
    if e.Stepped? { StepSwapsNothing(s.world, s.ops[e.i].host, s.ops[e.i].request, s.ops[e.i].phase, e.answer); }
    forall x <- t.world.swaps ensures HasUpgrader(t, x) {
      if x in s.world.swaps {
        assert HasUpgrader(s, x);
        var i :| SwappedBy(s, x, i);
        SwappedByStays(s, t, x, i);
      } else {
        assert HasSender(s, e.t);
        var i :| SentBy(s, e.t, i);
        SentByStays(s, t, e.t, i);
        assert SwappedBy(t, x, i);
      }
    }
  }

  lemma StepSwapsNothing(w: World, host: Option<Host>, r: Request, p: Phase, a: Answer)
    requires Steppable(w, p)
    ensures Advance(w, host, r, p, a).1.swaps == w.swaps
  {
  }

  // ---------- proxy records ----------

  /** Only the last step of a recording operation, or of an adoption, writes a proxy record. */
  lemma ImportRecords(w: World, r: Request, p: Phase, a: Answer)
    requires Sound(w) && r.ForceImport? && !Final(p) && OpOk(w, r, p) && AdvanceImport(w, r, p, a).1.proxies != w.proxies
    ensures var (q, u) := AdvanceImport(w, r, p, a);
            && u.proxies.Keys == w.proxies.Keys + {r.address} && LiveUsable(u, r.address)
            && (q.Done? || q == Failed(AdoptionWriteFailed))
  {
    assert p.LayoutStored?;
    GrowsKeepsLiveUsable(w, RecordProxy(w, r.address, p.found.kind), r.address) by {
      RecordIsSafe(w, r.address, p.found.kind);
    }
  }

  lemma SettleRecords(w: World, r: Request, p: Phase, a: Answer)
    requires !r.ForceImport? && p.Checked? && OpOk(w, r, p) && AdvanceSettle(w, r, p, a).1.proxies != w.proxies
    ensures var (q, u) := AdvanceSettle(w, r, p, a);
            && u.proxies.Keys == w.proxies.Keys + {p.at} && RecordsProxy(r) && SettledAt(u, p.at, p.tx, Landed)
            && (q == Failed(RecordWriteFailed(p.at, p.tx)) || (q.Done? && q.at == p.at && q.sent == Some(p.tx)))
  {
  }

  lemma ChecksRecordNothing(w: World, r: Request, p: Phase, a: Answer)
    requires r.ForceImport? && !Operations.Final(p) && !p.LayoutStored?
    ensures AdvanceImport(w, r, p, a).1.proxies == w.proxies
  {
  }

  lemma SpendRecordsNothing(w: World, r: Request, p: Phase, a: Answer)
    requires !r.ForceImport? && Steppable(w, p)
    ensures p.Queued? || p.Fetched? ==> AdvanceSend(w, r, p, a).1.proxies == w.proxies
    ensures p.Sent? || p.Confirmed? ==> AdvanceSettle(w, r, p, a).1.proxies == w.proxies
  {
  }

  lemma OthersRecordNothing(w: World, host: Option<Host>, r: Request, p: Phase, a: Answer)
    requires Steppable(w, p) && Fits(r, p) && !p.LayoutStored? && !p.Checked?
    ensures Advance(w, host, r, p, a).1.proxies == w.proxies
  {
    if r.ForceImport? { ChecksRecordNothing(w, r, p, a); }
    else if !PreQueue(p) { SpendRecordsNothing(w, r, p, a); }
  }

  /** The step of operation `i` writes at most one record, and accounts for it. */
  lemma StepAccounts(s: System, i: nat, a: Answer)
    requires Inv(s) && Enabled(s, Stepped(i, a))
    requires Apply(s, Stepped(i, a)).world.proxies != s.world.proxies
    ensures var t := Apply(s, Stepped(i, a));
            exists at :: t.world.proxies.Keys == s.world.proxies.Keys + {at} && RecordedBy(t, at, i)
  {
    var op := s.ops[i];
    var t := Apply(s, Stepped(i, a));
    OpsAreOk(s, i);
    if !op.phase.LayoutStored? && !op.phase.Checked? { OthersRecordNothing(s.world, op.host, op.request, op.phase, a); }
    else if op.request.ForceImport? {
      ImportRecords(s.world, op.request, op.phase, a);
      assert RecordedBy(t, op.request.address, i);
    } else {
      SettleRecords(s.world, op.request, op.phase, a);
      assert RecordedBy(t, op.phase.at, i);
    }
  }

  lemma SteppedRecords(s: System, i: nat, a: Answer)
    requires Inv(s) && Enabled(s, Stepped(i, a))
    ensures var t := Apply(s, Stepped(i, a));
            forall p <- t.world.proxies :: p in s.world.proxies || RecordedBy(t, p, i)
  {
    if Apply(s, Stepped(i, a)).world.proxies != s.world.proxies { StepAccounts(s, i, a); }
  }

  lemma RecordsStay(s: System, e: Event)
    requires Inv(s) && Enabled(s, e)
    ensures var t := Apply(s, e); forall p <- t.world.proxies :: HasRecorder(t, p)
  {
    var t := Apply(s, e);
    ApplyContinues(s, e);
    if e.Stepped? { SteppedRecords(s, e.i, e.answer); }
    forall p <- t.world.proxies ensures HasRecorder(t, p) {
      if p in s.world.proxies {
        assert HasRecorder(s, p);
        var i :| RecordedBy(s, p, i);
        RecordedByStays(s, t, p, i);
      }
    }
  }

  lemma ApplyKeepsProvenance(s: System, e: Event)
    requires Inv(s) && Enabled(s, e)
    ensures Inv(Apply(s, e))
  {
    ApplyContinues(s, e);
    OpsStayKnown(s, e);
    TxsStaySent(s, e);
    SwapsStay(s, e);
    RecordsStay(s, e);
  }

  lemma {:induction false} RunKeepsInv(events: seq<Event>)
    requires Run(events).Some?
    ensures Inv(Run(events).value)
    decreases |events|
  {
    if events != [] {
      RunKeepsInv(events[..|events| - 1]);
      ApplyKeepsProvenance(Run(events[..|events| - 1]).value, events[|events| - 1]);
    }
  }

  // ---------- the results ----------

  lemma OpIsHonest(s: System, i: nat)
    requires AllKnown(s) && i < |s.ops|
    ensures Honest(s.world, s.ops[i].request, s.ops[i].phase)
  {
    assert Known(s.world, s.ops[i].request, s.ops[i].phase);
  }

  /**
   Over every run, whatever other operations do meanwhile: an operation that reports success reports a
   transaction that landed and is the creation or the call it was asked for, of an implementation that
   runs the code of the contract it was given; its proxy is in the record under the operation's kind; and
   an adoption leaves an implementation stored whose code is the artifact's, and a proxy recorded under
   the kind its own admin slot gives it.
   */
  lemma SuccessIsTrue(events: seq<Event>, i: nat)
    requires Run(events).Some? && i < |Run(events).value.ops| && Run(events).value.ops[i].phase.Done?
    ensures var s := Run(events).value;
            var (r, p) := (s.ops[i].request, s.ops[i].phase);
            Successful(s.world, r, p.at, p.implementation, p.sent)
  {
    RunKeepsInv(events);
    OpIsHonest(Run(events).value, i);
  }

  /** The step in which a beacon upgrade succeeds leaves the beacon running what it reports. */
  lemma BeaconRunsWhatWasReported(events: seq<Event>, i: nat, a: Answer)
    requires Run(events).Some? && Enabled(Run(events).value, Stepped(i, a))
    requires Run(events).value.ops[i].request.UpgradeBeacon?
    ensures var t := Apply(Run(events).value, Stepped(i, a));
            var p := t.ops[i].phase;
            p.Done? ==> Live(t.world.code, p.at) == Some(p.implementation)
  {
    Safety.RunKeepsInv(events);
    OpsAreOk(Run(events).value, i);
  }

  /**
   Over every run, no proxy is recorded before a confirmed verdict: each record was written by an
   operation whose own transaction for it landed, or by an adoption of it.
   */
  lemma NoRecordBeforeConfirmation(events: seq<Event>, at: Address) returns (i: nat)
    requires Run(events).Some? && at in Run(events).value.world.proxies
    ensures RecordedBy(Run(events).value, at, i)
  {
    RunKeepsInv(events);
    assert HasRecorder(Run(events).value, at);
    i :| RecordedBy(Run(events).value, at, i);
  }

  lemma {:induction false} RunGrows(events: seq<Event>, n: nat)
    requires n <= |events| && Run(events).Some?
    ensures Run(events[..n]).Some? && Grows(Run(events[..n]).value.world, Run(events).value.world)
    decreases |events|
  {
    if n == |events| {
      assert events[..n] == events;
    } else {
      var (before, e) := (events[..|events| - 1], events[|events| - 1]);
      assert before[..n] == events[..n];
      RunGrows(before, n);
      Safety.RunKeepsInv(before);
      ApplyKeepsInv(Run(before).value, e);
      GrowsTransitive(Run(events[..n]).value.world, Run(before).value.world, Run(events).value.world);
    }
  }

  /**
   A record once written is never removed, and never changed whatever other operations write, unless a
   UUPS call to the proxy landed although it has an admin.
   */
  lemma RecordsChangeOnlyIfBypassed(events: seq<Event>, n: nat, p: Address)
    requires n <= |events| && Run(events).Some? && Run(events[..n]).Some?
    requires p in Run(events[..n]).value.world.proxies
    ensures var (w, u) := (Run(events[..n]).value.world, Run(events).value.world);
            p in u.proxies && (u.proxies[p] == w.proxies[p] || Bypassed(u, p))
  {
    RunGrows(events, n);
  }

  // ---------- who sent what ----------

  /** The operations that sent the transactions of a run, in the order they were sent. */
  ghost function Senders(events: seq<Event>): seq<nat>
    requires Run(events).Some?
    decreases |events|
  {
    if events == [] then []
    else
      var before := events[..|events| - 1];
      After(Run(before).value, events[|events| - 1], Senders(before))
  }

  /** The senders after an event: a step of operation `i` that sends adds it. */
  ghost function After(s: System, e: Event, senders: seq<nat>): seq<nat>
    requires Enabled(s, e)
  {
    if e.Stepped? && |Apply(s, e).world.txs| > |s.world.txs| then senders + [e.i] else senders
  }

  ghost predicate AllSent(s: System, senders: seq<nat>) {
    |senders| == |s.world.txs| && forall t | 0 <= t < |senders| :: SentBy(s, t, senders[t])
  }

  ghost predicate OnceEach(senders: seq<nat>) {
    forall t, x | 0 <= t < |senders| && 0 <= x < |senders| && senders[t] == senders[x] :: t == x
  }

  /** An operation reports only what it sent. */
  ghost predicate ReportOwn(s: System, senders: seq<nat>) {
    forall i, t: TxId {:trigger Reports(s.ops[i].phase, t)} |
      0 <= i < |s.ops| && Reports(s.ops[i].phase, t) :: t < |senders| && senders[t] == i
  }

  /** An operation that may yet send has sent nothing. */
  ghost predicate Unsent(s: System, senders: seq<nat>) {
    forall i, t | 0 <= i < |s.ops| && 0 <= t < |senders| && BeforeSend(s.ops[i].phase) :: senders[t] != i
  }

  ghost predicate Attributed(s: System, senders: seq<nat>) {
    AllSent(s, senders) && OnceEach(senders) && ReportOwn(s, senders) && Unsent(s, senders)
  }

  lemma ImportReportsNothing(w: World, r: Request, p: Phase, a: Answer)
    requires r.ForceImport? && !Operations.Final(p)
    ensures forall t: TxId :: !Reports(AdvanceImport(w, r, p, a).0, t)
  {
  }

  lemma SpendReports(w: World, r: Request, p: Phase, a: Answer)
    requires !r.ForceImport? && Steppable(w, p)
    ensures p.Queued? || p.Fetched? ==>
              var (q, u) := AdvanceSend(w, r, p, a);
              forall t: TxId :: Reports(q, t) ==> t == |w.txs| && |u.txs| == |w.txs| + 1
    ensures p.Sent? || p.Confirmed? || p.Checked? ==>
              forall t: TxId :: Reports(AdvanceSettle(w, r, p, a).0, t) ==> Reports(p, t)
  {
  }

  /** What an operation reports after a step it reported before, or has just sent. */
  lemma ReportsAreNew(w: World, host: Option<Host>, r: Request, p: Phase, a: Answer, t: TxId)
    requires Steppable(w, p) && Fits(r, p) && Reports(Advance(w, host, r, p, a).0, t)
    ensures Reports(p, t) || (t == |w.txs| && |Advance(w, host, r, p, a).1.txs| == |w.txs| + 1)
  {
    if r.ForceImport? { ImportReportsNothing(w, r, p, a); }
    else if PreQueue(p) { ChecksGoOn(w, host, r, p, a); }
    else { SpendReports(w, r, p, a); }
  }

  lemma OtherIsAttributed(s: System, e: Event, senders: seq<nat>)
    requires Inv(s) && Enabled(s, e) && !e.Stepped? && Attributed(s, senders)
    ensures Attributed(Apply(s, e), senders) && |Apply(s, e).world.txs| == |s.world.txs|
  {
    var u := Apply(s, e);
    ApplyContinues(s, e);
    OthersSend(s, e);
    forall t | 0 <= t < |senders| ensures SentBy(u, t, senders[t]) { SentByStays(s, u, t, senders[t]); }
    forall i, t | 0 <= i < |u.ops| && 0 <= t < |senders| && BeforeSend(u.ops[i].phase) ensures senders[t] != i {
      assert SentBy(s, t, senders[t]);
    }
  }

  lemma StepAllSent(s: System, i: nat, a: Answer, senders: seq<nat>)
    requires Inv(s) && Enabled(s, Stepped(i, a)) && AllSent(s, senders)
    ensures AllSent(Apply(s, Stepped(i, a)), After(s, Stepped(i, a), senders))
  {
    var u := Apply(s, Stepped(i, a));
    ApplyContinues(s, Stepped(i, a));
    SteppedTxs(s, i, a);
    forall t | 0 <= t < |senders| ensures SentBy(u, t, senders[t]) { SentByStays(s, u, t, senders[t]); }
  }

  /** What the step does to what may be sent and what was. */
  lemma StepSpendsOnce(s: System, i: nat, a: Answer)
    requires Inv(s) && Enabled(s, Stepped(i, a))
    ensures var (p, u) := (s.ops[i].phase, Apply(s, Stepped(i, a)));
            && (BeforeSend(u.ops[i].phase) ==> BeforeSend(p) && u.world.txs == s.world.txs)
            && (u.world.txs != s.world.txs ==> BeforeSend(p) && |u.world.txs| == |s.world.txs| + 1)
  {
    assert Known(s.world, s.ops[i].request, s.ops[i].phase);
    StepSpends(s.world, s.ops[i].host, s.ops[i].request, s.ops[i].phase, a);
  }

  lemma StepUnsent(s: System, i: nat, a: Answer, senders: seq<nat>)
    requires Inv(s) && Enabled(s, Stepped(i, a)) && OnceEach(senders) && Unsent(s, senders)
    ensures OnceEach(After(s, Stepped(i, a), senders)) && Unsent(Apply(s, Stepped(i, a)), After(s, Stepped(i, a), senders))
  {
    StepSpendsOnce(s, i, a);
  }

  lemma OthersReport(s: System, i: nat, a: Answer, senders: seq<nat>, j: nat, t: TxId)
    requires Enabled(s, Stepped(i, a)) && ReportOwn(s, senders)
    requires j < |s.ops| && j != i && Reports(Apply(s, Stepped(i, a)).ops[j].phase, t)
    ensures t < |senders| && senders[t] == j
  {
    assert Apply(s, Stepped(i, a)).ops[j] == s.ops[j];
  }

  lemma OwnReport(s: System, i: nat, a: Answer, senders: seq<nat>, t: TxId)
    requires Inv(s) && Enabled(s, Stepped(i, a)) && |senders| == |s.world.txs| && ReportOwn(s, senders)
    requires Reports(Apply(s, Stepped(i, a)).ops[i].phase, t)
    ensures (t < |senders| && senders[t] == i) || (t == |senders| && |Apply(s, Stepped(i, a)).world.txs| > |senders|)
  {
    var op := s.ops[i];
    assert Known(s.world, op.request, op.phase);
    ReportsAreNew(s.world, op.host, op.request, op.phase, a, t);
  }

  lemma StepReportOwn(s: System, i: nat, a: Answer, senders: seq<nat>)
    requires Inv(s) && Enabled(s, Stepped(i, a)) && |senders| == |s.world.txs| && ReportOwn(s, senders)
    ensures ReportOwn(Apply(s, Stepped(i, a)), After(s, Stepped(i, a), senders))
  {
    var u, after := Apply(s, Stepped(i, a)), After(s, Stepped(i, a), senders);
    forall j, t: TxId | 0 <= j < |u.ops| && Reports(u.ops[j].phase, t) ensures t < |after| && after[t] == j {
      if j == i { OwnReport(s, i, a, senders, t); } else { OthersReport(s, i, a, senders, j, t); }
    }
  }

  lemma StepIsAttributed(s: System, i: nat, a: Answer, senders: seq<nat>)
    requires Inv(s) && Enabled(s, Stepped(i, a)) && Attributed(s, senders)
    ensures Attributed(Apply(s, Stepped(i, a)), After(s, Stepped(i, a), senders))
  {
    StepAllSent(s, i, a, senders);
    StepUnsent(s, i, a, senders);
    StepReportOwn(s, i, a, senders);
  }

  lemma {:induction false} RunIsAttributed(events: seq<Event>)
    requires Run(events).Some?
    ensures Attributed(Run(events).value, Senders(events))
    decreases |events|
  {
    if events != [] {
      RunIsAttributed(events[..|events| - 1]);
      RunKeepsInv(events[..|events| - 1]);
      ApplyIsAttributed(Run(events[..|events| - 1]).value, events[|events| - 1], Senders(events[..|events| - 1]));
    }
  }

  lemma ApplyIsAttributed(s: System, e: Event, senders: seq<nat>)
    requires Inv(s) && Enabled(s, e) && Attributed(s, senders)
    ensures Attributed(Apply(s, e), After(s, e, senders))
  {
    if e.Stepped? { StepIsAttributed(s, e.i, e.answer, senders); } else { OtherIsAttributed(s, e, senders); }
  }

  /**
   Over every run, every transaction the plugin ever sent has one sender among its operations, which it
   fits, and whose contract's code it carries; and nothing reports it exactly when that operation ended
   because the host threw after it had broadcast it, or because the record could not be read after.
   */
  lemma EveryTransactionIsAccountedFor(events: seq<Event>, t: TxId) returns (i: nat)
    requires Run(events).Some? && t < |Run(events).value.world.txs|
    ensures var s := Run(events).value;
            && SentBy(s, t, i)
            && ((forall j | 0 <= j < |s.ops| :: !Reports(s.ops[j].phase, t)) <==> Silent(s.ops[i].phase))
  {
    RunIsAttributed(events);
    var s := Run(events).value;
    i := Senders(events)[t];
    assert SentBy(s, t, i);
  }

  // ---------- when a call landed ----------

  /** A transaction starts pending, and only mining it changes that. */
  lemma StatusChanges(s: System, e: Event, t: TxId)
    requires Inv(s) && Enabled(s, e) && t < |Apply(s, e).world.txs|
    ensures !Apply(s, e).world.txs[t].status.Pending? ==>
              t < |s.world.txs| && (Apply(s, e).world.txs[t].status == s.world.txs[t].status || (e.Mined? && e.t == t))
  {
    if e.Stepped? {
      var op := s.ops[e.i];
      assert Known(s.world, op.request, op.phase);
      StepSpends(s.world, op.host, op.request, op.phase, e.answer);
      SentIsPending(s.world, op.host, op.request, op.phase, e.answer);
      var u := Apply(s, e).world;
      if t < |s.world.txs| && u.txs != s.world.txs { assert u.txs[..|s.world.txs|][t] == s.world.txs[t]; }
    }
  }

  lemma SentIsPending(w: World, host: Option<Host>, r: Request, p: Phase, a: Answer)
    requires Steppable(w, p) && Fits(r, p)
    ensures var u := Advance(w, host, r, p, a).1;
            |u.txs| == |w.txs| + 1 ==> u.txs[|w.txs|].status.Pending?
  {
    if Advance(w, host, r, p, a).1.txs != w.txs { OnlyFetchedSends(w, host, r, p, a); }
  }

  /** What a target had to be for the call to land. */
  ghost predicate WasAccepted(w: World, e: Effect)
    requires e.Repoint?
  {
    && e.at in w.code && Accepts(w.code, e.at, KindOfCall(e.call), e.call.from, e.implementation)
    && Understands(w.code, e.at, e.call)
  }

  /**
   Over every run, an upgrade call that has landed was accepted by its target when it was mined: by the
   owner of its ProxyAdmin, by the owner its implementation asks for, by its own admin, or by the beacon's
   owner, through an entry point of what was found there.
   */
  lemma {:induction false} LandedCallsWereAccepted(events: seq<Event>, t: TxId) returns (n: nat)
    requires Run(events).Some? && t < |Run(events).value.world.txs|
    requires Run(events).value.world.txs[t].status.Landed? && Run(events).value.world.txs[t].effect.Repoint?
    ensures n < |events| && events[n] == Mined(t, true) && Run(events[..n]).Some?
    ensures WasAccepted(Run(events[..n]).value.world, Run(events).value.world.txs[t].effect)
    decreases |events|
  {
    n := |events| - 1;
    var s, e := Run(events[..n]).value, events[n];
    RunKeepsInv(events[..n]);
    ApplyContinues(s, e);
    StatusChanges(s, e, t);
    if s.world.txs[t].status.Landed? {
      var m := LandedCallsWereAccepted(events[..n], t);
      assert events[..n][..m] == events[..m];
      n := m;
    } else {
      CallsLandIff(events[..n], t, e.ok);
    }
  }
}
