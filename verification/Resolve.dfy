/**
 The environment resolver (`environment/resolve.ts` and `environment/config-lineage.ts`): eight slots
 from five handles, field groups cross-checked between the two config lineages, and three diagnoses.
 */
module Resolve {
  import opened Wrappers

  datatype SlotName = Paths | Network | Artifacts | Chain | Receipts | Scheduling | Output | Compiler

  /** A compared field's value; equality is `Object.is`. */
  type Scalar = nat
  type Failure = nat

  datatype Source = FromSolc | FromNested | NoSettings

  /** What projecting one field group from one config gives. */
  datatype Projection = Values(scalars: seq<Scalar>, source: Source) | Unprojectable(failure: Failure)

  /** What a settings read gives: an object by identity, anything else, or a throw. */
  datatype Settings = Object(id: nat, cloneable: bool) | NotAnObject(id: nat) | ReadThrew(failure: Failure)

  datatype Config = Config(
    paths: Projection, network: Projection, compiler: Projection,
    solc: Settings, nested: Settings,
    logger: bool, quiet: bool,
    resolver: Option<nat>)

  datatype Lineage = Absent | Malformed(failure: Failure) | Present(config: Config)

  /** A host handle of the chain or receipts slots. */
  datatype Handle = NotSupplied | Broken(failure: Failure) | Usable(id: nat)

  datatype Deployer = NoDeployer | Deployer(lineage: Lineage, queues: bool, logger: bool)

  /** `wraps` is the resolver object the intercept was found over. */
  datatype ArtifactsHandle = NoArtifacts | ArtifactsHandle(lineage: Lineage, intercept: bool, wraps: nat)

  datatype Facts = Facts(deployer: Deployer, artifacts: ArtifactsHandle, tronWrap: Handle, tronWeb: Handle, wait: Handle)

  /** A supplied handle's lineage is never absent. */
  predicate Coherent(f: Facts) {
    (f.deployer.Deployer? ==> !f.deployer.lineage.Absent?) && (f.artifacts.ArtifactsHandle? ==> !f.artifacts.lineage.Absent?)
  }

  function ViaDeployer(f: Facts): Lineage { if f.deployer.NoDeployer? then Absent else f.deployer.lineage }

  function ViaArtifacts(f: Facts): Lineage { if f.artifacts.NoArtifacts? then Absent else f.artifacts.lineage }

  datatype Group = PathsGroup | NetworkGroup | CompilerGroup

  datatype Built =
    | BuiltPaths(scalars: seq<Scalar>)
    | BuiltNetwork(scalars: seq<Scalar>)
    | BuiltArtifacts(scalars: seq<Scalar>)
    | BuiltChain(id: nat)
    | BuiltReceipts(id: nat)
    | BuiltScheduling
    | BuiltOutput(viaDeployer: bool)
    | BuiltCompiler(scalars: seq<Scalar>, source: Source, settings: Option<nat>)

  datatype Diagnosis = Diagnosis(slot: SlotName, failure: Failure)

  datatype Inconsistency =
    | FieldDiffers(group: Group, field: nat)
    | SettingsConflict
    | ChainHandleConflict
    | ResolverMismatch

  datatype Outcome =
    | EnvironmentAbsent
    | Incomplete(diagnoses: seq<Diagnosis>)
    | Inconsistent(inconsistencies: seq<Inconsistency>)
    | Resolved(slots: map<SlotName, Built>)

  const MISSING: Failure := 0
  const INVARIANT: Failure := 1

  // ---------- one field group ----------

  function Project(c: Config, g: Group): Projection {
    match g
    case PathsGroup => c.paths
    case NetworkGroup => c.network
    case CompilerGroup => c.compiler
  }

  /** A lineage that cannot be read, or does not construct the group. */
  predicate Fails(l: Lineage, g: Group) {
    l.Malformed? || (l.Present? && Project(l.config, g).Unprojectable?)
  }

  predicate GroupFails(a: Lineage, b: Lineage, g: Group) { Fails(a, g) || Fails(b, g) }

  /** What the group is worth: every reachable lineage constructs it and they agree. */
  function GroupValue(a: Lineage, b: Lineage, g: Group): (v: Option<Projection>)
    ensures v.Some? ==> v.value.Values?
  {
    if GroupFails(a, b, g) then None
    else if a.Absent? && b.Absent? then None
    else if b.Absent? then Some(Project(a.config, g))
    else if a.Absent? then Some(Project(b.config, g))
    else if Project(a.config, g) == Project(b.config, g) then Some(Project(a.config, g))
    else None
  }

  predicate GroupDisagrees(a: Lineage, b: Lineage, g: Group) {
    !GroupFails(a, b, g) && a.Present? && b.Present? && Project(a.config, g) != Project(b.config, g)
  }

  datatype GroupOutcome = GroupOutcome(values: Option<Projection>, failures: seq<Failure>, inconsistencies: seq<Inconsistency>)

  /** The fields at which two records differ; the settings source is the last field. */
  method CompareConfigValues(g: Group, x: Projection, y: Projection) returns (r: seq<Inconsistency>)
    requires x.Values? && y.Values? && |x.scalars| == |y.scalars|
    ensures r == [] <==> x == y
    ensures forall k: nat :: FieldDiffers(g, k) in r <==>
              (k < |x.scalars| && x.scalars[k] != y.scalars[k]) || (k == |x.scalars| && x.source != y.source)
  {
    r := [];
    for i := 0 to |x.scalars|
      invariant r == [] <==> x.scalars[..i] == y.scalars[..i]
      invariant forall k: nat :: FieldDiffers(g, k) in r <==> k < i && x.scalars[k] != y.scalars[k]
    {
      assert x.scalars[..i + 1] == x.scalars[..i] + [x.scalars[i]] && y.scalars[..i + 1] == y.scalars[..i] + [y.scalars[i]];
      if x.scalars[i] != y.scalars[i] { r := r + [FieldDiffers(g, i)]; }
    }
    assert x.scalars[..|x.scalars|] == x.scalars && y.scalars[..|x.scalars|] == y.scalars;
    if x.source != y.source { r := r + [FieldDiffers(g, |x.scalars|)]; }
  }

  /** Records of one group carry the same fields. */
  predicate SameFields(a: Lineage, b: Lineage, g: Group) {
    a.Present? && b.Present? && Project(a.config, g).Values? && Project(b.config, g).Values? ==>
      |Project(a.config, g).scalars| == |Project(b.config, g).scalars|
  }

  /** A lineage's projection, once the loop has passed it. */
  function Reached(l: Lineage, g: Group, passed: bool): seq<Projection> {
    if passed && l.Present? then [Project(l.config, g)] else []
  }

  /**
   `resolveGroup`: every reachable lineage must construct before anything is compared, and there is a
   value exactly when they all agree.
   */
  method ResolveGroup(a: Lineage, b: Lineage, g: Group) returns (r: GroupOutcome)
    requires SameFields(a, b, g)
    ensures r.values == GroupValue(a, b, g)
    ensures r.failures != [] <==> GroupFails(a, b, g)
    ensures r.inconsistencies != [] <==> GroupDisagrees(a, b, g)
  {
    var failures: seq<Failure> := [];
    var projections: seq<Projection> := [];
    var lineages := [a, b];
    for i := 0 to 2
      invariant failures != [] <==> (i > 0 && Fails(a, g)) || (i > 1 && Fails(b, g))
      invariant failures == [] ==> projections == Reached(a, g, i > 0) + Reached(b, g, i > 1)
    {
      match lineages[i] {
        case Absent =>
        case Malformed(failure) => failures := failures + [failure];
        case Present(config) =>
          var projected := Project(config, g);
          if projected.Unprojectable? { failures := failures + [projected.failure]; }
          else { projections := projections + [projected]; }
      }
    }
    if failures != [] {
      return GroupOutcome(None, failures, []);
    }
    if |projections| == 2 {
      var differences := CompareConfigValues(g, projections[0], projections[1]);
      return GroupOutcome(if differences == [] then Some(projections[0]) else None, [], differences);
    }
    r := GroupOutcome(if projections == [] then None else Some(projections[0]), [], []);
  }

  /** Exchanging what the two lineages hold changes no value, failure or disagreement. */
  lemma SwapChangesNoValue(a: Lineage, b: Lineage, g: Group)
    ensures GroupValue(a, b, g) == GroupValue(b, a, g)
    ensures GroupFails(a, b, g) == GroupFails(b, a, g) && GroupDisagrees(a, b, g) == GroupDisagrees(b, a, g)
  {
  }

  // ---------- compiler settings ----------

  datatype SettingsOutcome = SettingsResolved(settings: Option<nat>) | SettingsFailed(failure: Failure) | SettingsDiffer

  function SettingsAt(c: Config, source: Source): Settings {
    if source.FromSolc? then c.solc else c.nested
  }

  function Usably(s: Settings): SettingsOutcome {
    match s
    case Object(id, cloneable) => if cloneable then SettingsResolved(Some(id)) else SettingsFailed(INVARIANT)
    case NotAnObject(_) => SettingsFailed(INVARIANT)
    case ReadThrew(failure) => SettingsFailed(failure)
  }

  /** Two reads give the identical value. */
  predicate SameSettings(x: Settings, y: Settings) {
    (x.Object? && y.Object? && x.id == y.id) || (x.NotAnObject? && y.NotAnObject? && x.id == y.id)
  }

  /** `compareCompilerSettings`. */
  function CompareSettings(a: Lineage, b: Lineage, source: Source): SettingsOutcome {
    if source.NoSettings? then SettingsResolved(None)
    else if a.Present? && SettingsAt(a.config, source).ReadThrew? then SettingsFailed(SettingsAt(a.config, source).failure)
    else if b.Present? && SettingsAt(b.config, source).ReadThrew? then SettingsFailed(SettingsAt(b.config, source).failure)
    else if a.Present? && b.Present? && !SameSettings(SettingsAt(a.config, source), SettingsAt(b.config, source)) then SettingsDiffer
    else if a.Present? then Usably(SettingsAt(a.config, source))
    else if b.Present? then Usably(SettingsAt(b.config, source))
    else SettingsFailed(INVARIANT)
  }

  /** One object is cloneable or not, through whichever lineage it is reached. */
  predicate OneIdentity(a: Lineage, b: Lineage) {
    forall source: Source :: a.Present? && b.Present? && SameSettings(SettingsAt(a.config, source), SettingsAt(b.config, source)) ==>
      SettingsAt(a.config, source) == SettingsAt(b.config, source)
  }

  lemma SwapChangesNoSettings(a: Lineage, b: Lineage, source: Source)
    requires OneIdentity(a, b)
    ensures CompareSettings(a, b, source).SettingsResolved? ==> CompareSettings(b, a, source) == CompareSettings(a, b, source)
    ensures CompareSettings(a, b, source).SettingsDiffer? <==> CompareSettings(b, a, source).SettingsDiffer?
  {
  }

  /** The key the source names holds this object, and it can be copied out. */
  predicate HoldsSettings(l: Lineage, source: Source, id: nat) {
    l.Present? ==>
      && (source.FromSolc? ==> l.config.solc == Object(id, true))
      && (source.FromNested? ==> l.config.nested == Object(id, true))
  }

  /**
   Settings are used exactly when some lineage is reachable and every reachable one holds that very
   object, copyable, under the key the source names; without a source there are none.
   */
  lemma SettingsResolveExactly(a: Lineage, b: Lineage, source: Source, id: nat)
    requires OneIdentity(a, b)
    ensures CompareSettings(a, b, source) == SettingsResolved(None) <==> source.NoSettings?
    ensures CompareSettings(a, b, source) == SettingsResolved(Some(id)) <==>
            && !source.NoSettings? && (a.Present? || b.Present?)
            && HoldsSettings(a, source, id) && HoldsSettings(b, source, id)
  {
  }

  // ---------- what each slot needs ----------

  predicate Supplied(f: Facts, slot: SlotName) {
    match slot
    case Artifacts => !f.artifacts.NoArtifacts?
    case Chain => !f.tronWrap.NotSupplied? || !f.tronWeb.NotSupplied?
    case Receipts => !f.wait.NotSupplied?
    case Scheduling => !f.deployer.NoDeployer?
    case _ => !f.deployer.NoDeployer? || !f.artifacts.NoArtifacts?
  }

  predicate GroupReachable(f: Facts) { !f.deployer.NoDeployer? || !f.artifacts.NoArtifacts? }

  function Value(f: Facts, g: Group): Option<Projection> { GroupValue(ViaDeployer(f), ViaArtifacts(f), g) }

  predicate FailsIn(f: Facts, g: Group) { GroupFails(ViaDeployer(f), ViaArtifacts(f), g) }

  predicate DiffersIn(f: Facts, g: Group) { GroupDisagrees(ViaDeployer(f), ViaArtifacts(f), g) }

  function SettingsOf(f: Facts): SettingsOutcome
    requires Value(f, CompilerGroup).Some?
  {
    CompareSettings(ViaDeployer(f), ViaArtifacts(f), Value(f, CompilerGroup).value.source)
  }

  predicate OutputWorks(f: Facts) {
    match f.deployer
    case Deployer(lineage, _, logger) => lineage.Present? && logger && lineage.config.quiet
    case NoDeployer =>
      match ViaArtifacts(f)
      case Present(config) => config.logger && config.quiet
      case _ => false
  }

  /** Nothing about the handles stops the slot, disagreements aside. */
  predicate Constructible(f: Facts, slot: SlotName) {
    match slot
    case Paths => GroupReachable(f) && !FailsIn(f, PathsGroup)
    case Network => GroupReachable(f) && !FailsIn(f, NetworkGroup)
    case Compiler =>
      GroupReachable(f) && !FailsIn(f, CompilerGroup) && (Value(f, CompilerGroup).Some? ==> !SettingsOf(f).SettingsFailed?)
    case Artifacts => f.artifacts.ArtifactsHandle? && f.artifacts.intercept && !FailsIn(f, PathsGroup)
    case Chain => Supplied(f, Chain) && !f.tronWrap.Broken? && !f.tronWeb.Broken?
    case Receipts => f.wait.Usable?
    case Scheduling => f.deployer.Deployer? && f.deployer.queues
    case Output => OutputWorks(f)
  }

  predicate BothPresent(f: Facts) { ViaDeployer(f).Present? && ViaArtifacts(f).Present? }

  /** The deployer's own resolver cannot be read, so the pairing cannot be checked. */
  predicate PairingBroken(f: Facts) { BothPresent(f) && ViaDeployer(f).config.resolver.None? }

  predicate PairingDiffers(f: Facts) {
    BothPresent(f) && ViaDeployer(f).config.resolver.Some? && ViaDeployer(f).config.resolver.value != f.artifacts.wraps
  }

  const LINEAGE_SLOTS: set<SlotName> := {Artifacts, Paths, Network, Output, Compiler}

  predicate Unsatisfied(f: Facts, slot: SlotName) {
    !Constructible(f, slot) || (slot in LINEAGE_SLOTS && PairingBroken(f))
  }

  /** The sources disagree about something a requested slot exposes, or the handles are mispaired. */
  predicate Disagreement(f: Facts, requested: set<SlotName>) {
    || ((Paths in requested || Artifacts in requested) && DiffersIn(f, PathsGroup))
    || (Network in requested && DiffersIn(f, NetworkGroup))
    || (Compiler in requested && DiffersIn(f, CompilerGroup))
    || (Compiler in requested && Value(f, CompilerGroup).Some? && SettingsOf(f).SettingsDiffer?)
    || (Chain in requested && f.tronWrap.Usable? && f.tronWeb.Usable? && f.tronWrap.id != f.tronWeb.id)
    || PairingDiffers(f)
  }

  /** What a slot is built from, where it is. */
  function BuiltFor(f: Facts, slot: SlotName): Option<Built> {
    match slot
    case Paths => if Value(f, PathsGroup).Some? then Some(BuiltPaths(Value(f, PathsGroup).value.scalars)) else None
    case Network => if Value(f, NetworkGroup).Some? then Some(BuiltNetwork(Value(f, NetworkGroup).value.scalars)) else None
    case Compiler =>
      if Value(f, CompilerGroup).Some? && SettingsOf(f).SettingsResolved?
      then Some(BuiltCompiler(Value(f, CompilerGroup).value.scalars, Value(f, CompilerGroup).value.source, SettingsOf(f).settings))
      else None
    case Artifacts =>
      if f.artifacts.ArtifactsHandle? && f.artifacts.intercept && Value(f, PathsGroup).Some?
      then Some(BuiltArtifacts(Value(f, PathsGroup).value.scalars)) else None
    case Chain =>
      if f.tronWrap.Broken? || f.tronWeb.Broken? then None
      else if f.tronWrap.Usable? && f.tronWeb.Usable? && f.tronWrap.id != f.tronWeb.id then None
      else if f.tronWrap.Usable? then Some(BuiltChain(f.tronWrap.id))
      else if f.tronWeb.Usable? then Some(BuiltChain(f.tronWeb.id))
      else None
    case Receipts => if f.wait.Usable? then Some(BuiltReceipts(f.wait.id)) else None
    case Scheduling => if f.deployer.Deployer? && f.deployer.queues then Some(BuiltScheduling) else None
    case Output => if OutputWorks(f) then Some(BuiltOutput(f.deployer.Deployer?)) else None
  }

  /** A slot that is neither built nor diagnosed is part of a disagreement: the last check finds no gap. */
  lemma NoGap(f: Facts, slot: SlotName, requested: set<SlotName>)
    requires Coherent(f) && slot in requested && Constructible(f, slot) && BuiltFor(f, slot).None?
    ensures Disagreement(f, requested)
  {
  }

  // ---------- the resolver itself ----------

  class Resolver {
    const f: Facts
    const required: set<SlotName>
    const requested: set<SlotName>
    var slots: map<SlotName, Built>
    var unsatisfied: seq<Diagnosis>
    var inconsistencies: seq<Inconsistency>

    constructor (f: Facts, required: set<SlotName>, requested: set<SlotName>)
      ensures this.f == f && this.required == required && this.requested == requested
      ensures slots == map[] && unsatisfied == [] && inconsistencies == []
    {
      this.f, this.required, this.requested := f, required, requested;
      slots, unsatisfied, inconsistencies := map[], [], [];
    }

    /** Only what the caller required can fail the resolution. */
    method Fail(slot: SlotName, failures: seq<Failure>)
      modifies this`unsatisfied
      ensures unsatisfied != [] <==> old(unsatisfied) != [] || (slot in required && failures != [])
      ensures forall d <- unsatisfied :: d in old(unsatisfied) || (d.slot == slot && slot in required)
    {
      if slot in required {
        unsatisfied := unsatisfied + seq(|failures|, i requires 0 <= i < |failures| => Diagnosis(slot, failures[i]));
      }
    }

    /** The handle-missing diagnoses: none when every bearing handle was supplied. */
    method MissingHandles(slot: SlotName) returns (r: seq<Failure>)
      ensures !Supplied(f, slot) ==> r != []
    {
      r := if Supplied(f, slot) then [] else [MISSING];
    }

    twostate predicate FailedFor(slot: SlotName, because: bool)
      reads this
    {
      && (unsatisfied != [] <==> old(unsatisfied) != [] || (slot in required && because))
      && (forall d <- unsatisfied :: d in old(unsatisfied) || d.slot in required)
    }

    /** A field group's outcome, charged to one of the slots it backs. */
    method ChargeGroup(slot: SlotName, g: Group, outcome: GroupOutcome)
      requires Coherent(f)
      requires slot in {Paths, Network, Compiler, Artifacts}
      requires outcome.values == Value(f, g) && (outcome.failures != [] <==> FailsIn(f, g))
      requires outcome.inconsistencies != [] <==> DiffersIn(f, g)
      modifies this`unsatisfied
      ensures FailedFor(slot, FailsIn(f, g) || !GroupReachable(f))
    {
      if outcome.failures != [] {
        Fail(slot, outcome.failures);
      } else if outcome.values.None? && outcome.inconsistencies == [] {
        var missing := MissingHandles(slot);
        Fail(slot, missing);
      }
    }

    method ResolvePaths()
      requires Coherent(f) && SameFields(ViaDeployer(f), ViaArtifacts(f), PathsGroup)
      modifies this
      ensures unsatisfied != [] <==>
              || old(unsatisfied) != []
              || (((Paths in requested && Paths in required) || (Artifacts in requested && Artifacts in required))
                  && (FailsIn(f, PathsGroup) || !GroupReachable(f)))
      ensures forall d <- unsatisfied :: d in old(unsatisfied) || d.slot in required
      ensures inconsistencies != [] <==>
              || old(inconsistencies) != []
              || ((Paths in requested || Artifacts in requested) && DiffersIn(f, PathsGroup))
      ensures slots == if Paths in requested && BuiltFor(f, Paths).Some? then old(slots)[Paths := BuiltFor(f, Paths).value] else old(slots)
    {
      if Paths !in requested && Artifacts !in requested { return; }
      var outcome := ResolveGroup(ViaDeployer(f), ViaArtifacts(f), PathsGroup);
      inconsistencies := inconsistencies + outcome.inconsistencies;
      if Paths in requested { ChargeGroup(Paths, PathsGroup, outcome); }
      if Artifacts in requested { ChargeGroup(Artifacts, PathsGroup, outcome); }
      if Paths in requested && outcome.values.Some? {
        slots := slots[Paths := BuiltPaths(outcome.values.value.scalars)];
      }
    }

    method ResolveNetwork()
      requires Coherent(f) && SameFields(ViaDeployer(f), ViaArtifacts(f), NetworkGroup)
      modifies this
      ensures FailedFor(Network, Network in requested && !Constructible(f, Network))
      ensures inconsistencies != [] <==> old(inconsistencies) != [] || (Network in requested && DiffersIn(f, NetworkGroup))
      ensures slots == if Network in requested && BuiltFor(f, Network).Some? then old(slots)[Network := BuiltFor(f, Network).value] else old(slots)
    {
      if Network !in requested { return; }
      var outcome := ResolveGroup(ViaDeployer(f), ViaArtifacts(f), NetworkGroup);
      inconsistencies := inconsistencies + outcome.inconsistencies;
      ChargeGroup(Network, NetworkGroup, outcome);
      if outcome.values.Some? {
        slots := slots[Network := BuiltNetwork(outcome.values.value.scalars)];
      }
    }

    method ResolveCompiler()
      requires Coherent(f) && SameFields(ViaDeployer(f), ViaArtifacts(f), CompilerGroup)
      modifies this
      ensures FailedFor(Compiler, Compiler in requested && !Constructible(f, Compiler))
      ensures inconsistencies != [] <==>
              || old(inconsistencies) != []
              || (Compiler in requested &&
                  (DiffersIn(f, CompilerGroup) || (Value(f, CompilerGroup).Some? && SettingsOf(f).SettingsDiffer?)))
      ensures slots == if Compiler in requested && BuiltFor(f, Compiler).Some? then old(slots)[Compiler := BuiltFor(f, Compiler).value] else old(slots)
    {
      if Compiler !in requested { return; }
      var outcome := ResolveGroup(ViaDeployer(f), ViaArtifacts(f), CompilerGroup);
      inconsistencies := inconsistencies + outcome.inconsistencies;
      ChargeGroup(Compiler, CompilerGroup, outcome);
      if outcome.values.Some? {
        // The agreed source decides which key to read.
        var v := outcome.values.value;
        match CompareSettings(ViaDeployer(f), ViaArtifacts(f), v.source) {
          case SettingsResolved(settings) => slots := slots[Compiler := BuiltCompiler(v.scalars, v.source, settings)];
          case SettingsDiffer => inconsistencies := inconsistencies + [SettingsConflict];
          case SettingsFailed(failure) => Fail(Compiler, [failure]);
        }
      }
    }

    method ResolveArtifacts()
      requires Coherent(f)
      modifies this
      ensures FailedFor(Artifacts, Artifacts in requested && !(f.artifacts.ArtifactsHandle? && f.artifacts.intercept))
      ensures inconsistencies == old(inconsistencies)
      ensures slots == if Artifacts in requested && BuiltFor(f, Artifacts).Some? then old(slots)[Artifacts := BuiltFor(f, Artifacts).value] else old(slots)
    {
      if Artifacts !in requested { return; }
      if f.artifacts.NoArtifacts? {
        Fail(Artifacts, [MISSING]);
      } else if !f.artifacts.intercept {
        Fail(Artifacts, [INVARIANT]);
      } else if Value(f, PathsGroup).Some? {
        slots := slots[Artifacts := BuiltArtifacts(Value(f, PathsGroup).value.scalars)];
      }
    }

    /** Both names are accepted; two different usable handles are a conflict, never a preference. */
    method ResolveChain()
      modifies this
      ensures FailedFor(Chain, Chain in requested && !Constructible(f, Chain))
      ensures inconsistencies != [] <==>
              || old(inconsistencies) != []
              || (Chain in requested && f.tronWrap.Usable? && f.tronWeb.Usable? && f.tronWrap.id != f.tronWeb.id)
      ensures slots == if Chain in requested && BuiltFor(f, Chain).Some? then old(slots)[Chain := BuiltFor(f, Chain).value] else old(slots)
    {
      if Chain !in requested { return; }
      if f.tronWrap.NotSupplied? && f.tronWeb.NotSupplied? {
        Fail(Chain, [MISSING]);
        return;
      }
      var candidates := [f.tronWrap, f.tronWeb];
      var failures: seq<Failure> := [];
      var valid: seq<nat> := [];
      for i := 0 to 2
        invariant failures != [] <==> (i > 0 && f.tronWrap.Broken?) || (i > 1 && f.tronWeb.Broken?)
        invariant valid == (if i > 0 && f.tronWrap.Usable? then [f.tronWrap.id] else []) + (if i > 1 && f.tronWeb.Usable? then [f.tronWeb.id] else [])
      {
        match candidates[i] {
          case NotSupplied =>
          case Broken(failure) => failures := failures + [failure];
          case Usable(id) => valid := valid + [id];
        }
      }
      if failures != [] {
        Fail(Chain, failures);
      } else if |valid| == 2 && valid[0] != valid[1] {
        inconsistencies := inconsistencies + [ChainHandleConflict];
      } else {
        slots := slots[Chain := BuiltChain(valid[0])];
      }
    }

    method ResolveReceipts()
      modifies this
      ensures FailedFor(Receipts, Receipts in requested && !Constructible(f, Receipts))
      ensures inconsistencies == old(inconsistencies)
      ensures slots == if Receipts in requested && BuiltFor(f, Receipts).Some? then old(slots)[Receipts := BuiltFor(f, Receipts).value] else old(slots)
    {
      if Receipts !in requested { return; }
      match f.wait {
        case Usable(id) => slots := slots[Receipts := BuiltReceipts(id)];
        case NotSupplied => Fail(Receipts, [MISSING]);
        case Broken(failure) => Fail(Receipts, [failure]);
      }
    }

    method ResolveScheduling()
      modifies this
      ensures FailedFor(Scheduling, Scheduling in requested && !Constructible(f, Scheduling))
      ensures inconsistencies == old(inconsistencies)
      ensures slots == if Scheduling in requested && BuiltFor(f, Scheduling).Some? then old(slots)[Scheduling := BuiltFor(f, Scheduling).value] else old(slots)
    {
      if Scheduling !in requested { return; }
      if f.deployer.NoDeployer? {
        Fail(Scheduling, [MISSING]);
      } else if f.deployer.queues {
        slots := slots[Scheduling := BuiltScheduling];
      } else {
        Fail(Scheduling, [INVARIANT]);
      }
    }

    method ResolveOutput()
      requires Coherent(f)
      modifies this
      ensures FailedFor(Output, Output in requested && !Constructible(f, Output))
      ensures inconsistencies == old(inconsistencies)
      ensures slots == if Output in requested && BuiltFor(f, Output).Some? then old(slots)[Output := BuiltFor(f, Output).value] else old(slots)
    {
      if Output !in requested { return; }
      if f.deployer.NoDeployer? && f.artifacts.NoArtifacts? {
        var missing := MissingHandles(Output);
        Fail(Output, missing);
      } else if OutputWorks(f) {
        slots := slots[Output := BuiltOutput(f.deployer.Deployer?)];
      } else {
        Fail(Output, [INVARIANT]);
      }
    }

    /** `checkResolverPairing`: it runs whenever both lineages are present, whatever was requested. */
    method CheckPairing()
      modifies this
      ensures unsatisfied != [] <==>
              || old(unsatisfied) != []
              || (PairingBroken(f) && exists slot :: slot in LINEAGE_SLOTS && slot in requested && slot in required)
      ensures forall d <- unsatisfied :: d in old(unsatisfied) || d.slot in required
      ensures inconsistencies != [] <==> old(inconsistencies) != [] || PairingDiffers(f)
      ensures slots == old(slots)
    {
      if !BothPresent(f) { return; }
      if PairingDiffers(f) {
        inconsistencies := inconsistencies + [ResolverMismatch];
      } else if PairingBroken(f) {
        var order := [Artifacts, Paths, Network, Output, Compiler];
        assert forall slot :: slot in LINEAGE_SLOTS <==> slot in order;
        for i := 0 to |order|
          invariant unsatisfied != [] <==> old(unsatisfied) != [] || exists k :: 0 <= k < i && order[k] in requested && order[k] in required
          invariant forall d <- unsatisfied :: d in old(unsatisfied) || d.slot in required
          invariant inconsistencies == old(inconsistencies) && slots == old(slots)
        {
          if order[i] in requested { Fail(order[i], [INVARIANT]); }
        }
      }
    }
  }

  predicate Bearing(f: Facts, requested: set<SlotName>) {
    exists slot <- requested :: Supplied(f, slot)
  }

  predicate WellFormed(f: Facts) {
    && Coherent(f)
    && SameFields(ViaDeployer(f), ViaArtifacts(f), PathsGroup)
    && SameFields(ViaDeployer(f), ViaArtifacts(f), NetworkGroup)
    && SameFields(ViaDeployer(f), ViaArtifacts(f), CompilerGroup)
  }

  function Requested(slots: seq<SlotName>): (r: set<SlotName>)
    ensures forall slot: SlotName :: slot in r <==> slot in slots
  {
    set slot | slot in slots
  }

  /** What the resolver has collected once `done` has been gone through. */
  ghost predicate Collected(r: Resolver, done: set<SlotName>, differs: bool)
    reads r
  {
    && (r.unsatisfied != [] <==> exists slot <- done :: slot in r.required && !Constructible(r.f, slot))
    && (forall d <- r.unsatisfied :: d.slot in r.required)
    && (r.inconsistencies != [] <==> differs)
    && (forall slot: SlotName :: slot in r.slots <==> slot in done && slot in r.requested && BuiltFor(r.f, slot).Some?)
    && (forall slot <- r.slots :: r.slots[slot] == BuiltFor(r.f, slot).value)
  }

  predicate LineagesDiffer(f: Facts, requested: set<SlotName>) {
    || ((Paths in requested || Artifacts in requested) && DiffersIn(f, PathsGroup))
    || (Network in requested && DiffersIn(f, NetworkGroup))
    || (Compiler in requested && DiffersIn(f, CompilerGroup))
    || (Compiler in requested && Value(f, CompilerGroup).Some? && SettingsOf(f).SettingsDiffer?)
  }

  predicate ChainDiffers(f: Facts, requested: set<SlotName>) {
    Chain in requested && f.tronWrap.Usable? && f.tronWeb.Usable? && f.tronWrap.id != f.tronWeb.id
  }

  method ResolveLineageSlots(r: Resolver)
    requires WellFormed(r.f) && r.slots == map[] && r.unsatisfied == [] && r.inconsistencies == []
    requires r.required <= r.requested
    modifies r
    ensures Collected(r, {Paths, Network, Compiler, Artifacts}, LineagesDiffer(r.f, r.requested))
  {
    r.ResolvePaths();
    r.ResolveNetwork();
    r.ResolveCompiler();
    r.ResolveArtifacts();
    var done := {Paths, Network, Compiler, Artifacts};
    ghost var f, q := r.f, r.required;
    assert (exists slot <- done :: slot in q && !Constructible(f, slot)) <==>
           || (Paths in q && !Constructible(f, Paths)) || (Network in q && !Constructible(f, Network))
           || (Compiler in q && !Constructible(f, Compiler)) || (Artifacts in q && !Constructible(f, Artifacts));
  }

  method ResolveChainSlots(r: Resolver)
    requires WellFormed(r.f) && r.required <= r.requested
    requires Collected(r, {Paths, Network, Compiler, Artifacts}, LineagesDiffer(r.f, r.requested))
    modifies r
    ensures Collected(r, {Paths, Network, Compiler, Artifacts, Chain, Receipts},
                      LineagesDiffer(r.f, r.requested) || ChainDiffers(r.f, r.requested))
  {
    r.ResolveChain();
    r.ResolveReceipts();
    ghost var f, q := r.f, r.required;
    ghost var before, done := {Paths, Network, Compiler, Artifacts}, {Paths, Network, Compiler, Artifacts, Chain, Receipts};
    assert (exists slot <- done :: slot in q && !Constructible(f, slot)) <==>
           || (exists slot <- before :: slot in q && !Constructible(f, slot))
           || (Chain in q && !Constructible(f, Chain)) || (Receipts in q && !Constructible(f, Receipts));
  }

  method ResolveHandleSlots(r: Resolver)
    requires WellFormed(r.f) && r.required <= r.requested
    requires Collected(r, {Paths, Network, Compiler, Artifacts}, LineagesDiffer(r.f, r.requested))
    modifies r
    ensures Collected(r, {Paths, Network, Compiler, Artifacts, Chain, Receipts, Scheduling, Output},
                      LineagesDiffer(r.f, r.requested) || ChainDiffers(r.f, r.requested))
  {
    ResolveChainSlots(r);
    r.ResolveScheduling();
    r.ResolveOutput();
    ghost var f, q := r.f, r.required;
    ghost var before := {Paths, Network, Compiler, Artifacts, Chain, Receipts};
    ghost var done := {Paths, Network, Compiler, Artifacts, Chain, Receipts, Scheduling, Output};
    assert (exists slot <- done :: slot in q && !Constructible(f, slot)) <==>
           || (exists slot <- before :: slot in q && !Constructible(f, slot))
           || (Scheduling in q && !Constructible(f, Scheduling)) || (Output in q && !Constructible(f, Output));
  }

  /** The slots one after another, in the order of the source, and the pairing of the handles. */
  method ResolveSlots(r: Resolver)
    requires WellFormed(r.f) && r.slots == map[] && r.unsatisfied == [] && r.inconsistencies == []
    requires r.required <= r.requested
    modifies r
    ensures r.unsatisfied != [] <==> exists slot <- r.required :: Unsatisfied(r.f, slot)
    ensures r.inconsistencies != [] <==> Disagreement(r.f, r.requested)
    ensures forall d <- r.unsatisfied :: d.slot in r.required
    ensures forall slot: SlotName :: slot in r.slots <==> slot in r.requested && BuiltFor(r.f, slot).Some?
    ensures forall slot <- r.slots :: r.slots[slot] == BuiltFor(r.f, slot).value
  {
    ResolveLineageSlots(r);
    ResolveHandleSlots(r);
    var all := {Paths, Network, Compiler, Artifacts, Chain, Receipts, Scheduling, Output};
    forall slot: SlotName ensures slot in all {
      match slot
      case Paths => case Network => case Artifacts => case Chain =>
      case Receipts => case Scheduling => case Output => case Compiler =>
    }
    r.CheckPairing();
  }

  /** What a resolution comes to. */
  datatype Verdict = AbsentEnvironment | IncompleteEnvironment | InconsistentEnvironment | ResolvedEnvironment

  function VerdictOf(outcome: Outcome): Verdict {
    match outcome
    case EnvironmentAbsent => AbsentEnvironment
    case Incomplete(_) => IncompleteEnvironment
    case Inconsistent(_) => InconsistentEnvironment
    case Resolved(_) => ResolvedEnvironment
  }

  function VerdictFor(f: Facts, required: set<SlotName>, requested: set<SlotName>): Verdict {
    if requested != {} && !Bearing(f, requested) then AbsentEnvironment
    else if exists slot <- required :: Unsatisfied(f, slot) then IncompleteEnvironment
    else if Disagreement(f, requested) then InconsistentEnvironment
    else ResolvedEnvironment
  }

  /**
   `resolveEnvironment`. It answers with slots exactly when some handle bears on what was asked, every
   required slot can be constructed and no sources disagree; a disagreement is reported only when
   nothing required is unsatisfied.
   */
  method ResolveEnvironment(f: Facts, require: seq<SlotName>, optional: seq<SlotName>) returns (outcome: Outcome)
    requires WellFormed(f)
    ensures var required, requested := Requested(require), Requested(require + optional);
            && VerdictOf(outcome) == VerdictFor(f, required, requested)
            && (outcome.Incomplete? ==> outcome.diagnoses != [] && forall d <- outcome.diagnoses :: d.slot in required)
            && (outcome.Inconsistent? ==> outcome.inconsistencies != [])
            && (outcome.Resolved? ==>
                  && (forall slot <- required :: slot in outcome.slots)
                  && (forall slot <- outcome.slots :: slot in requested && BuiltFor(f, slot) == Some(outcome.slots[slot])))
  {
    var required, requested := Requested(require), Requested(require + optional);
    if requested != {} && !Bearing(f, requested) {
      return EnvironmentAbsent;
    }
    var r := new Resolver(f, required, requested);
    ResolveSlots(r);
    if r.unsatisfied != [] {
      return Incomplete(r.unsatisfied);
    }
    if r.inconsistencies != [] {
      return Inconsistent(r.inconsistencies);
    }
    forall slot | slot in required ensures slot in r.slots {
      if BuiltFor(f, slot).None? { NoGap(f, slot, requested); }
    }
    outcome := Resolved(r.slots);
  }

  // ---------- what a resolution means ----------

  /** The lineage holds exactly these values for the group. */
  predicate HoldsValues(l: Lineage, g: Group, scalars: seq<Scalar>) {
    l.Present? ==> Project(l.config, g).Values? && Project(l.config, g).scalars == scalars
  }

  /** A built slot's lineage-derived values, the compiler's settings included, are what every reachable lineage holds. */
  lemma ResolvedValuesAgree(f: Facts, slot: SlotName, l: Lineage)
    requires BuiltFor(f, slot).Some? && l in {ViaDeployer(f), ViaArtifacts(f)} && OneIdentity(ViaDeployer(f), ViaArtifacts(f))
    ensures match BuiltFor(f, slot).value
            case BuiltPaths(scalars) => HoldsValues(l, PathsGroup, scalars)
            case BuiltArtifacts(scalars) => HoldsValues(l, PathsGroup, scalars)
            case BuiltNetwork(scalars) => HoldsValues(l, NetworkGroup, scalars)
            case BuiltCompiler(scalars, source, settings) =>
              HoldsValues(l, CompilerGroup, scalars) && (settings.Some? ==> HoldsSettings(l, source, settings.value))
            case _ => true
  {
    if slot.Compiler? && SettingsOf(f) == SettingsResolved(SettingsOf(f).settings) && SettingsOf(f).settings.Some? {
      SettingsResolveExactly(ViaDeployer(f), ViaArtifacts(f), Value(f, CompilerGroup).value.source, SettingsOf(f).settings.value);
    }
  }

  /** Both handles supplied, with what their lineages hold exchanged. */
  function Swapped(f: Facts): Facts
    requires f.deployer.Deployer? && f.artifacts.ArtifactsHandle?
  {
    f.(deployer := f.deployer.(lineage := f.artifacts.lineage), artifacts := f.artifacts.(lineage := f.deployer.lineage))
  }

  /** Neither lineage is preferred: exchanging them changes no path, network or compiler value. */
  lemma NoLineageIsPreferred(f: Facts, slot: SlotName)
    requires f.deployer.Deployer? && f.artifacts.ArtifactsHandle? && slot in {Paths, Network, Compiler}
    requires OneIdentity(ViaDeployer(f), ViaArtifacts(f))
    ensures BuiltFor(Swapped(f), slot) == BuiltFor(f, slot)
  {
    var a, b := ViaDeployer(f), ViaArtifacts(f);
    if Value(f, CompilerGroup).Some? {
      SwapChangesNoSettings(a, b, Value(f, CompilerGroup).value.source);
      SwapChangesNoSettings(b, a, Value(f, CompilerGroup).value.source);
    }
  }

  /** The sources disagree about what this one slot exposes. */
  predicate DisagreesAbout(f: Facts, slot: SlotName) {
    match slot
    case Paths => DiffersIn(f, PathsGroup)
    case Artifacts => DiffersIn(f, PathsGroup)
    case Network => DiffersIn(f, NetworkGroup)
    case Compiler => DiffersIn(f, CompilerGroup) || (Value(f, CompilerGroup).Some? && SettingsOf(f).SettingsDiffer?)
    case Chain => f.tronWrap.Usable? && f.tronWeb.Usable? && f.tronWrap.id != f.tronWeb.id
    case _ => false
  }

  lemma DisagreementBySlot(f: Facts, requested: set<SlotName>)
    ensures Disagreement(f, requested) <==> PairingDiffers(f) || exists slot <- requested :: DisagreesAbout(f, slot)
  {
    if Disagreement(f, requested) && !PairingDiffers(f) {
      var slot :| slot in {Paths, Artifacts, Network, Compiler, Chain} && slot in requested && DisagreesAbout(f, slot);
    }
  }

  /**
   What optional slots can do to a resolution: asked for beside these required ones, they never make the
   environment incomplete or absent, and turn a result into an inconsistency exactly when the sources
   disagree about one of them.
   */
  lemma OptionalSlotsCanDisagree(f: Facts, required: set<SlotName>, optional: set<SlotName>)
    requires Bearing(f, required)
    ensures VerdictFor(f, required, required + optional) == IncompleteEnvironment <==>
            VerdictFor(f, required, required) == IncompleteEnvironment
    ensures VerdictFor(f, required, required + optional) != AbsentEnvironment
    ensures VerdictFor(f, required, required) == ResolvedEnvironment ==>
              (VerdictFor(f, required, required + optional) == InconsistentEnvironment <==>
               exists slot <- optional :: DisagreesAbout(f, slot))
  {
    var slot :| slot in required && Supplied(f, slot);
    assert slot in required + optional;
    DisagreementBySlot(f, required);
    DisagreementBySlot(f, required + optional);
  }
}
