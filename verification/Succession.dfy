/** The line of implementations behind one proxy or beacon, over whole runs. */
module Succession {
  import opened Wrappers
  import opened World
  import opened Operations
  import opened Exits
  import Safety
  import Outcomes
  import Provenance
  import Upgrades

  /** What the latest of these swaps put behind `at`. */
  function Latest(swaps: seq<Swap>, at: Address): Option<Address> {
    if swaps == [] then None
    else if swaps[|swaps| - 1].at == at then Some(swaps[|swaps| - 1].next)
    else Latest(swaps[..|swaps| - 1], at)
  }

  /** Each swap starts from what the swap before it, at the same address, put there. */
  ghost predicate Chained(swaps: seq<Swap>) {
    forall k | 0 <= k < |swaps| ::
      Latest(swaps[..k], swaps[k].at).Some? ==> Latest(swaps[..k], swaps[k].at) == Some(swaps[k].previous)
  }

  ghost predicate Faithful(w: World) {
    && Chained(w.swaps)
    && forall at: Address :: Latest(w.swaps, at).Some? ==> Latest(w.swaps, at) == Live(w.code, at)
  }

  lemma FrameKeepsFaithful(w: World, u: World)
    requires Faithful(w) && Upgrades.Frame(w, u)
    ensures Faithful(u)
  {
  }

  /** What the latest swap at an address put there is live, before and after one more swap. */
  lemma OneMoreSwap(w: World, u: World, x: Swap)
    requires Faithful(w) && u.swaps == w.swaps + [x]
    requires Live(w.code, x.at) == Some(x.previous) && Live(u.code, x.at) == Some(x.next)
    requires forall at: Address | at != x.at && Live(w.code, at).Some? :: Live(u.code, at) == Live(w.code, at)
    ensures Faithful(u)
  {
    var n := |w.swaps|;
    assert u.swaps[..n] == w.swaps;
    forall k | 0 <= k < |u.swaps| && Latest(u.swaps[..k], u.swaps[k].at).Some?
      ensures Latest(u.swaps[..k], u.swaps[k].at) == Some(u.swaps[k].previous)
    {
      assert u.swaps[..k] == w.swaps[..k];
      if k == n { assert w.swaps[..n] == w.swaps; }
    }
  }

  lemma NoMoreSwaps(w: World, u: World)
    requires Faithful(w) && u.swaps == w.swaps
    requires forall at: Address | Live(w.code, at).Some? :: Live(u.code, at) == Live(w.code, at)
    ensures Faithful(u)
  {
  }

  lemma MineKeepsFaithful(w: World, t: TxId, ok: bool)
    requires Faithful(w) && CanMine(w, t)
    ensures Faithful(Mine(w, t, ok))
  {
    var u, e := Mine(w, t, ok), w.txs[t].effect;
    if ok && Applicable(w.code, e) && e.Repoint? {
      OneMoreSwap(w, u, Swap(e.at, Live(w.code, e.at).value, e.implementation, e.basis));
    } else {
      NoMoreSwaps(w, u);
    }
  }

  /** Over every run of the operations, in any interleaving, the log of swaps is the history of what was live. */
  lemma {:induction false} RunKeepsFaithful(events: seq<Safety.Event>)
    requires Safety.Run(events).Some?
    ensures Faithful(Safety.Run(events).value.world)
    decreases |events|
  {
    if events != [] {
      var e := events[|events| - 1];
      RunKeepsFaithful(events[..|events| - 1]);
      var s := Safety.Run(events[..|events| - 1]).value;
      match e
      case Issued(_, _) =>
      case Stepped(i, a) =>
        var op := s.ops[i];
        Upgrades.AdvanceFrame(s.world, op.host, op.request, op.phase, a);
        FrameKeepsFaithful(s.world, Safety.Apply(s, e).world);
      case Mined(t, ok) => MineKeepsFaithful(s.world, t, ok);
      case DeployedOutside(at, c) =>
        Upgrades.NewCodeFrame(s.world, at, c);
        FrameKeepsFaithful(s.world, Safety.Apply(s, e).world);
      case Dropped(k) =>
        Upgrades.DropFrame(s.world, k);
        FrameKeepsFaithful(s.world, Safety.Apply(s, e).world);
      case HandedOver(at, owner) =>
        Upgrades.HandOverFrame(s.world, at, owner);
        FrameKeepsFaithful(s.world, Safety.Apply(s, e).world);
      case LandedLate(k, at) =>
        Upgrades.NewCodeFrame(s.world, at, Implementation(s.world.impls[k].version.code));
        FrameKeepsFaithful(s.world, Safety.Apply(s, e).world);
    }
  }

  /** A run under the mutex is a run of the operations: refused calls and the scheduler's own moves drop out. */
  lemma {:induction false} GuardedRunIsARun(events: seq<Upgrades.Event>, h: Host) returns (plain: seq<Safety.Event>)
    requires Upgrades.Run(events, h).Some?
    ensures Safety.Run(plain) == Some(Upgrades.Run(events, h).value.sys)
    decreases |events|
  {
    if events == [] {
      plain := [];
    } else {
      var e := events[|events| - 1];
      plain := GuardedRunIsARun(events[..|events| - 1], h);
      var s := Upgrades.Run(events[..|events| - 1], h).value;
      var next: Option<Safety.Event> :=
        match e
        case Issued(issuer, host, request) =>
          if Upgrades.Apply(s, e, h) == s then None else Some(Safety.Issued(host, request))
        case Stepped(i, a) => Some(Safety.Stepped(i, a))
        case Outside(x) => Some(x)
        case _ => None;
      if next.Some? {
        assert (plain + [next.value])[..|plain|] == plain;
        plain := plain + [next.value];
      }
    }
  }

  /** Under the mutex too, a reported success is true and every proxy record was written on confirmation. */
  lemma GuardedOutcomes(events: seq<Upgrades.Event>, h: Host, i: nat, at: Address)
    requires Upgrades.Run(events, h).Some?
    ensures var s := Upgrades.Run(events, h).value.sys;
            && (i < |s.ops| && s.ops[i].phase.Done? ==>
                  Outcomes.Successful(s.world, s.ops[i].request, s.ops[i].phase.at, s.ops[i].phase.implementation, s.ops[i].phase.sent))
            && (at in s.world.proxies ==> Provenance.HasRecorder(s, at))
  {
    var plain := GuardedRunIsARun(events, h);
    var s := Upgrades.Run(events, h).value.sys;
    if i < |s.ops| && s.ops[i].phase.Done? { Provenance.SuccessIsTrue(plain, i); }
    Provenance.RunKeepsInv(plain);
  }

  /**
   The storage report of some upgrade accepted a layout that the record holds for the code of `previous`,
   and `next` runs the code of the very contract that upgrade was asked for.
   */
  ghost predicate Compatible(s: Safety.System, previous: Address, next: Address, i: nat, e: ImplEntry) {
    && i < |s.ops| && Safety.IsUpgrade(s.ops[i].request)
    && var v := s.ops[i].request.v;
    && e in s.world.impls && Answers(e, previous) && e.layout in v.accepts
    && previous in s.world.code && s.world.code[previous] == Implementation(e.version.code)
    && next in s.world.code && s.world.code[next] == Implementation(v.version.code)
  }

  /** The implementations a swap removes and installs are compatible, by the upgrade that made the swap. */
  lemma SwapIsCompatible(events: seq<Upgrades.Event>, h: Host, k: nat) returns (i: nat, e: ImplEntry)
    requires Upgrades.Run(events, h).Some? && k < |Upgrades.Run(events, h).value.sys.world.swaps|
    ensures var s := Upgrades.Run(events, h).value.sys;
            var x := s.world.swaps[k];
            && Compatible(s, x.previous, x.next, i, e) && e.layout == x.basis.layout
            && TargetOf(s.ops[i].request) == Some(x.at)
  {
    var s := Upgrades.Run(events, h).value.sys;
    var x := s.world.swaps[k];
    var plain := GuardedRunIsARun(events, h);
    Provenance.RunKeepsInv(plain);
    assert Provenance.HasUpgrader(s, x);
    i :| Provenance.SwappedBy(s, x, i);
    Upgrades.WhatWasComparedIsWhatIsReplaced(events, h, k);
    Upgrades.RunKeepsInv(events, h);
    assert Upgrades.SwapOk(s.world, x);
    e :| e in s.world.impls && Answers(e, x.previous) && e.layout == x.basis.layout;
  }

  /**
   Under the mutex with final transactions, the implementations behind a proxy or beacon are pairwise
   compatible in succession: of two swaps at one address with none between them, the second removes what
   the first installed, and an upgrade whose contract compiles to the code it installs compared that code
   against a layout stored for the code it removes. What the last swap installed is live.
   */
  lemma SuccessiveImplementationsAreCompatible(events: seq<Upgrades.Event>, h: Host, j: nat, k: nat)
    returns (i: nat, e: ImplEntry)
    requires Upgrades.Run(events, h).Some? && j < k < |Upgrades.Run(events, h).value.sys.world.swaps|
    requires var swaps := Upgrades.Run(events, h).value.sys.world.swaps;
             swaps[j].at == swaps[k].at && forall m | j < m < k :: swaps[m].at != swaps[k].at
    ensures var s := Upgrades.Run(events, h).value.sys;
            var swaps := s.world.swaps;
            && swaps[k].previous == swaps[j].next
            && Compatible(s, swaps[j].next, swaps[k].next, i, e)
            && TargetOf(s.ops[i].request) == Some(swaps[k].at)
    ensures var w := Upgrades.Run(events, h).value.sys.world;
            Latest(w.swaps, w.swaps[k].at) == Live(w.code, w.swaps[k].at)
  {
    var w := Upgrades.Run(events, h).value.sys.world;
    var plain := GuardedRunIsARun(events, h);
    RunKeepsFaithful(plain);
    LatestIs(w.swaps, j, k);
    SomeLatest(w.swaps, k);
    i, e := SwapIsCompatible(events, h, k);
  }

  /** With no swap at its address in between, what a swap installed is still the latest. */
  lemma {:induction false} LatestIs(swaps: seq<Swap>, j: nat, k: nat)
    requires j < k <= |swaps| && forall m | j < m < k :: swaps[m].at != swaps[j].at
    ensures Latest(swaps[..k], swaps[j].at) == Some(swaps[j].next)
    decreases k
  {
    assert swaps[..k][..k - 1] == swaps[..k - 1];
    if j < k - 1 { LatestIs(swaps, j, k - 1); }
  }

  lemma {:induction false} SomeLatest(swaps: seq<Swap>, k: nat)
    requires k < |swaps|
    ensures Latest(swaps, swaps[k].at).Some?
    decreases |swaps|
  {
    if k < |swaps| - 1 { SomeLatest(swaps[..|swaps| - 1], k); }
  }
}
