/**
 The owned-promise bridge over the host's migration chain (`deploy/queue.ts`).

 Before `start()` every plugin step appends a `then` link and a `catch` link to the one host chain;
 after it, each step gets a bare promise of its own, which is a chain of just those two links.
 */
module Queue {
  import opened Wrappers

  datatype Reason = Failure(code: nat) | SettledTwice

  /** How the code of a step ends. */
  datatype Body = Returns(value: nat) | Throws(code: nat)

  datatype Chain = Fulfilled | Rejected(reason: Reason)

  datatype Outcome = Resolved(value: nat) | Refused(reason: Reason)

  /** The promise `runThroughQueue` allocates, with every settlement it received. */
  datatype Owned = Owned(settled: bool, outcomes: seq<Outcome>)

  const Unsettled: Owned := Owned(false, [])

  datatype Step = UserStep(body: Body) | PluginStep(body: Body)

  datatype Link = Then(i: nat) | Catch(i: nat)

  /** `settleOnce`: the second component is whether it threw the invariant error. */
  function SettleOnce(p: Owned, o: Outcome): (Owned, bool) {
    if p.settled then (p, true) else (Owned(true, p.outcomes + [o]), false)
  }

  function OutcomeOf(b: Body): Outcome {
    match b
    case Returns(v) => Resolved(v)
    case Throws(code) => Refused(Failure(code))
  }

  /** The queued wrapper: its try arm settles with the value, its catch arm with whatever was thrown. */
  function Wrapper(p: Owned, b: Body): (Owned, Chain) {
    var (q, threw) := SettleOnce(p, OutcomeOf(b));
    if !threw then (q, Fulfilled)
    else if b.Throws? then (q, Rejected(SettledTwice))
    else
      var (z, again) := SettleOnce(q, Refused(SettledTwice));
      (z, if again then Rejected(SettledTwice) else Fulfilled)
  }

  /** The appended rejection handler: settles a skipped step's promise, and rethrows. */
  function OnRejected(p: Owned, failure: Reason): (Owned, Chain) {
    (if p.settled then p else SettleOnce(p, Refused(failure)).0, Rejected(failure))
  }

  /** `ran` lists the steps whose code ran, in order. */
  datatype State = State(chain: Chain, ran: seq<nat>, promises: seq<Owned>)

  function Blank(n: nat): seq<Owned> { seq(n, _ => Unsettled) }

  function Exec(s: State, steps: seq<Step>, link: Link): (t: State)
    requires link.i < |steps| == |s.promises|
    ensures |t.promises| == |steps|
  {
    var i := link.i;
    if link.Then? then
      if s.chain.Rejected? then s
      else match steps[i]
        case UserStep(b) => State(if b.Throws? then Rejected(Failure(b.code)) else Fulfilled, s.ran + [i], s.promises)
        case PluginStep(b) =>
          var (p, chain) := Wrapper(s.promises[i], b);
          State(chain, s.ran + [i], s.promises[i := p])
    else if s.chain.Fulfilled? then s
    else
      var (p, chain) := OnRejected(s.promises[i], s.chain.reason);
      State(chain, s.ran, s.promises[i := p])
  }

  /** The links one step appends; a host value without a `catch` gets none. */
  function Appended(step: Step, i: nat, catchable: bool): seq<Link> {
    if step.UserStep? || !catchable then [Then(i)] else [Then(i), Catch(i)]
  }

  function DriveLinks(s: State, steps: seq<Step>, links: seq<Link>): (t: State)
    requires |s.promises| == |steps| && forall l <- links :: l.i < |steps|
    ensures |t.promises| == |steps|
    decreases |links|
  {
    if links == [] then s else DriveLinks(Exec(s, steps, links[0]), steps, links[1..])
  }

  /** The host drives the chain of the first `n` registered steps. */
  function Drive(steps: seq<Step>, n: nat, catchable: bool): (t: State)
    requires n <= |steps|
    ensures |t.promises| == |steps|
  {
    if n == 0 then State(Fulfilled, [], Blank(|steps|))
    else DriveLinks(Drive(steps, n - 1, catchable), steps, Appended(steps[n - 1], n - 1, catchable))
  }

  // ---------- what the migration author expects ----------

  /** The failure that stops the migration: that of the first user step that throws. */
  function FirstFailure(steps: seq<Step>, n: nat): Option<Reason>
    requires n <= |steps|
  {
    if n == 0 then None
    else
      var before := FirstFailure(steps, n - 1);
      if before.Some? then before
      else if steps[n - 1].UserStep? && steps[n - 1].body.Throws? then Some(Failure(steps[n - 1].body.code))
      else None
  }

  function Expected(steps: seq<Step>, i: nat, catchable: bool): Owned
    requires i < |steps|
  {
    if steps[i].UserStep? then Unsettled
    else match FirstFailure(steps, i)
      case None => Owned(true, [OutcomeOf(steps[i].body)])
      case Some(failure) => if catchable then Owned(true, [Refused(failure)]) else Unsettled
  }

  predicate Within(ran: seq<nat>, n: nat) {
    forall k | 0 <= k < |ran| :: ran[k] < n
  }

  /** The steps before the first failing user step, and that one. */
  function Reached(steps: seq<Step>, n: nat): (r: seq<nat>)
    requires n <= |steps|
    ensures Within(r, n)
  {
    if n == 0 then []
    else Reached(steps, n - 1) + if FirstFailure(steps, n - 1).None? then [n - 1] else []
  }

  ghost predicate AsExpected(s: State, steps: seq<Step>, n: nat, catchable: bool)
    requires n <= |steps|
  {
    && s.chain == (match FirstFailure(steps, n) case None => Fulfilled case Some(failure) => Rejected(failure))
    && s.ran == Reached(steps, n)
    && |s.promises| == |steps|
    && forall i | 0 <= i < |steps| :: s.promises[i] == if i < n then Expected(steps, i, catchable) else Unsettled
  }

  lemma OneMoreStep(s: State, steps: seq<Step>, n: nat, catchable: bool)
    requires n < |steps| && AsExpected(s, steps, n, catchable)
    ensures AsExpected(DriveLinks(s, steps, Appended(steps[n], n, catchable)), steps, n + 1, catchable)
  {
    var links := Appended(steps[n], n, catchable);
    var t := Exec(s, steps, Then(n));
    if |links| == 1 {
      assert links[1..] == [];
      assert DriveLinks(s, steps, links) == t;
    } else {
      assert links[1..] == [Catch(n)] && [Catch(n)][1..] == [];
      assert DriveLinks(s, steps, links) == DriveLinks(t, steps, [Catch(n)]);
      assert DriveLinks(t, steps, [Catch(n)]) == DriveLinks(Exec(t, steps, Catch(n)), steps, []);
    }
  }

  /**
   For every chain of user steps, any of which may throw, and plugin steps: the code that runs, the
   chain's state and every settlement are the expected ones.
   */
  lemma {:induction false} DriveIsExpected(steps: seq<Step>, n: nat, catchable: bool)
    requires n <= |steps|
    ensures AsExpected(Drive(steps, n, catchable), steps, n, catchable)
  {
    if n > 0 {
      DriveIsExpected(steps, n - 1, catchable);
      OneMoreStep(Drive(steps, n - 1, catchable), steps, n - 1, catchable);
    }
  }

  /** Membership in the reached steps is exactly "no earlier user step failed". */
  lemma {:induction false} ReachedIff(steps: seq<Step>, n: nat, i: nat)
    requires n <= |steps| && i < n
    ensures i in Reached(steps, n) <==> FirstFailure(steps, i).None?
  {
    if n - 1 > i { ReachedIff(steps, n - 1, i); }
    else if n > 1 { ReachedIff(steps, n - 1, 0); }
  }

  /** An owned promise settles exactly once, or never: never only for a skipped step of a host without `catch`. */
  lemma SettlesExactlyOnce(steps: seq<Step>, i: nat, catchable: bool)
    requires i < |steps| && steps[i].PluginStep?
    ensures var p := Drive(steps, |steps|, catchable).promises[i];
            && |p.outcomes| <= 1
            && (|p.outcomes| == 1 <==> catchable || FirstFailure(steps, i).None?)
            && Refused(SettledTwice) !in p.outcomes
  {
    DriveIsExpected(steps, |steps|, catchable);
    FailuresAreTheirs(steps, i);
  }

  lemma {:induction false} FailuresAreTheirs(steps: seq<Step>, n: nat)
    requires n <= |steps|
    ensures FirstFailure(steps, n).Some? ==> FirstFailure(steps, n).value.Failure?
  {
    if n > 0 { FailuresAreTheirs(steps, n - 1); }
  }

  /** A plugin step runs iff no earlier user step failed; otherwise its promise rejects with that failure. */
  lemma RunsIffNothingFailed(steps: seq<Step>, i: nat)
    requires i < |steps| && steps[i].PluginStep?
    ensures var s := Drive(steps, |steps|, true);
            && (i in s.ran <==> FirstFailure(steps, i).None?)
            && s.promises[i].outcomes ==
               [if i in s.ran then OutcomeOf(steps[i].body) else Refused(FirstFailure(steps, i).value)]
  {
    DriveIsExpected(steps, |steps|, true);
    ReachedIff(steps, |steps|, i);
  }

  // ---------- the plugin links are invisible to the migration ----------

  function UserSteps(steps: seq<Step>, n: nat): seq<Step>
    requires n <= |steps|
  {
    if n == 0 then []
    else UserSteps(steps, n - 1) + if steps[n - 1].UserStep? then [steps[n - 1]] else []
  }

  /** The user code that ran, in order. */
  function UserCode(steps: seq<Step>, ran: seq<nat>): seq<Body>
    requires Within(ran, |steps|)
  {
    if ran == [] then []
    else
      var last := ran[|ran| - 1];
      UserCode(steps, ran[..|ran| - 1]) + if steps[last].UserStep? then [steps[last].body] else []
  }

  lemma CodeSnoc(steps: seq<Step>, ran: seq<nat>, k: nat)
    requires Within(ran, |steps|) && k < |steps|
    ensures UserCode(steps, ran + [k]) == UserCode(steps, ran) + if steps[k].UserStep? then [steps[k].body] else []
  {
    assert (ran + [k])[..|ran|] == ran;
  }

  function CodeReached(steps: seq<Step>, n: nat): seq<Body>
    requires n <= |steps|
  {
    if n == 0 then []
    else CodeReached(steps, n - 1)
         + if FirstFailure(steps, n - 1).None? && steps[n - 1].UserStep? then [steps[n - 1].body] else []
  }

  lemma {:induction false} CodeOfReached(steps: seq<Step>, n: nat)
    requires n <= |steps|
    ensures UserCode(steps, Reached(steps, n)) == CodeReached(steps, n)
  {
    if n > 0 {
      CodeOfReached(steps, n - 1);
      if FirstFailure(steps, n - 1).None? {
        CodeSnoc(steps, Reached(steps, n - 1), n - 1);
        assert Reached(steps, n) == Reached(steps, n - 1) + [n - 1];
      } else {
        assert Reached(steps, n) == Reached(steps, n - 1);
      }
    }
  }

  /** Extending a migration does not change what its first steps did. */
  lemma {:induction false} PrefixAgrees(steps: seq<Step>, more: seq<Step>, n: nat)
    requires n <= |steps|
    ensures FirstFailure(steps + more, n) == FirstFailure(steps, n)
    ensures CodeReached(steps + more, n) == CodeReached(steps, n)
  {
    if n > 0 { PrefixAgrees(steps, more, n - 1); }
  }

  /** The user steps alone fail alike, and run the same user code. */
  lemma {:induction false} ErasureAgrees(steps: seq<Step>, n: nat)
    requires n <= |steps|
    ensures var users := UserSteps(steps, n);
            && FirstFailure(users, |users|) == FirstFailure(steps, n)
            && CodeReached(users, |users|) == CodeReached(steps, n)
  {
    if n > 0 {
      ErasureAgrees(steps, n - 1);
      var before := UserSteps(steps, n - 1);
      if steps[n - 1].UserStep? {
        PrefixAgrees(before, [steps[n - 1]], |before|);
        assert UserSteps(steps, n)[|before|] == steps[n - 1];
      } else {
        assert UserSteps(steps, n) == before;
      }
    }
  }

  /** Erasing the plugin links changes neither the user code that runs nor the chain's final state. */
  lemma PluginLinksAreInvisible(steps: seq<Step>)
    ensures var users := UserSteps(steps, |steps|);
            var s, u := Drive(steps, |steps|, true), Drive(users, |users|, true);
            && s.chain == u.chain
            && Within(s.ran, |steps|) && Within(u.ran, |users|)
            && UserCode(steps, s.ran) == UserCode(users, u.ran)
  {
    var users := UserSteps(steps, |steps|);
    DriveIsExpected(steps, |steps|, true);
    DriveIsExpected(users, |users|, true);
    ErasureAgrees(steps, |steps|);
    CodeOfReached(steps, |steps|);
    CodeOfReached(users, |users|);
  }

  /** After `start()` nothing can precede a step: its code runs, its promise settles with it, its chain stays fulfilled. */
  lemma PostStartSettles(b: Body, catchable: bool)
    ensures Drive([PluginStep(b)], 1, catchable) == State(Fulfilled, [0], [Owned(true, [OutcomeOf(b)])])
  {
    DriveIsExpected([PluginStep(b)], 1, catchable);
    var s := Drive([PluginStep(b)], 1, catchable);
    assert FirstFailure([PluginStep(b)], 0).None?;
    assert s.promises == [Owned(true, [OutcomeOf(b)])];
    assert Reached([PluginStep(b)], 1) == Reached([PluginStep(b)], 0) + [0];
  }

  // ---------- the bridge itself ----------

  /** The closure state of one `runThroughQueue` call: the promise and its shared `settled` flag. */
  class QueuedStep {
    var settled: bool
    var outcomes: seq<Outcome>

    function Value(): Owned
      reads this
    {
      Owned(settled, outcomes)
    }

    constructor ()
      ensures Value() == Unsettled
    {
      settled, outcomes := false, [];
    }

    method Settle(o: Outcome) returns (threw: bool)
      modifies this
      ensures (Value(), threw) == SettleOnce(old(Value()), o)
    {
      if settled { return true; }
      settled := true;
      outcomes := outcomes + [o];
      threw := false;
    }

    method RunWrapper(b: Body) returns (chain: Chain)
      modifies this
      ensures (Value(), chain) == Wrapper(old(Value()), b)
      ensures !old(Value().settled) ==> chain.Fulfilled? && Value() == Owned(true, old(Value().outcomes) + [OutcomeOf(b)])
    {
      var threw := Settle(OutcomeOf(b));
      if threw && b.Returns? {
        threw := Settle(Refused(SettledTwice));
      }
      chain := if threw then Rejected(SettledTwice) else Fulfilled;
    }

    method RunCatch(failure: Reason) returns (chain: Chain)
      modifies this
      ensures (Value(), chain) == OnRejected(old(Value()), failure)
      ensures chain == Rejected(failure) && Value().settled
      ensures old(Value().settled) ==> Value() == old(Value())
      ensures !old(Value().settled) ==> Value().outcomes == old(Value().outcomes) + [Refused(failure)]
    {
      if !settled {
        var threw := Settle(Refused(failure));
      }
      chain := Rejected(failure);
    }
  }

  /** What one registered step does to the chain and to its own promise. */
  function StepOf(p: Owned, chain: Chain, step: Step, catchable: bool): (Owned, Chain) {
    match step
    case UserStep(b) => (p, if chain.Fulfilled? && b.Throws? then Rejected(Failure(b.code)) else chain)
    case PluginStep(b) =>
      var (q, next) := if chain.Fulfilled? then Wrapper(p, b) else (p, chain);
      if catchable && next.Rejected? then OnRejected(q, next.reason) else (q, next)
  }

  method RunStep(promise: QueuedStep, was: Chain, step: Step, catchable: bool) returns (chain: Chain)
    modifies promise
    ensures (promise.Value(), chain) == StepOf(old(promise.Value()), was, step, catchable)
  {
    chain := was;
    match step {
      case UserStep(b) =>
        if chain.Fulfilled? && b.Throws? { chain := Rejected(Failure(b.code)); }
      case PluginStep(b) =>
        if chain.Fulfilled? { chain := promise.RunWrapper(b); }
        if catchable && chain.Rejected? { chain := promise.RunCatch(chain.reason); }
    }
  }

  /** The host drives the chain: every promise is settled as expected, and the migration ends as its user steps say. */
  method RunMigration(steps: seq<Step>, promises: seq<QueuedStep>, catchable: bool) returns (chain: Chain, ran: seq<nat>)
    requires |promises| == |steps|
    requires forall i, j | 0 <= i < j < |promises| :: promises[i] != promises[j]
    requires forall i | 0 <= i < |promises| :: promises[i].Value() == Unsettled
    modifies promises
    ensures chain == (match FirstFailure(steps, |steps|) case None => Fulfilled case Some(failure) => Rejected(failure))
    ensures ran == Reached(steps, |steps|)
    ensures forall i | 0 <= i < |steps| :: promises[i].Value() == Expected(steps, i, catchable)
  {
    chain, ran := Fulfilled, [];
    for i := 0 to |steps|
      invariant chain == (match FirstFailure(steps, i) case None => Fulfilled case Some(failure) => Rejected(failure))
      invariant ran == Reached(steps, i)
      invariant forall k | 0 <= k < i :: promises[k].Value() == Expected(steps, k, catchable)
      invariant forall k | i <= k < |steps| :: promises[k].Value() == Unsettled
    {
      if chain.Fulfilled? { ran := ran + [i]; }
      chain := RunStep(promises[i], chain, steps[i], catchable);
    }
  }
}
