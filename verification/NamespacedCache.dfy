/**
 The namespaced-recompile cache (`hardhat-tron-upgrades/src/utils/namespaced.ts`): memory over disk
 over recomputation, with the severity of a failure decided by each call's own rule.
 */
module NamespacedCache {
  import opened Wrappers

  type Id = nat
  type Output = nat
  type Line = nat

  datatype Entry = OutputEntry(output: Option<Output>) | Unsupported | CompileFailed(errorLines: seq<Line>)

  datatype Kind = KindOutput | KindUnsupported | KindCompileFailed | KindOther

  /** What the cache file parses to, if it is there and parses at all. */
  datatype Json = Json(schema: int, kind: Kind, output: Option<Output>, errorLines: Option<seq<Line>>)

  const SCHEMA: int := 2

  /** `isCacheEntry`. */
  predicate IsCacheEntry(v: Json) {
    v.schema == SCHEMA &&
    match v.kind
    case KindOutput => v.output.Some?
    case KindUnsupported => true
    case KindCompileFailed => v.errorLines.Some?
    case KindOther => false
  }

  function Parse(v: Json): Entry
    requires IsCacheEntry(v)
  {
    match v.kind
    case KindOutput => OutputEntry(v.output)
    case KindUnsupported => Unsupported
    case KindCompileFailed => CompileFailed(v.errorLines.value)
  }

  function Stringify(e: Entry): Json {
    match e
    case OutputEntry(o) => Json(SCHEMA, KindOutput, o, None)
    case Unsupported => Json(SCHEMA, KindUnsupported, None, None)
    case CompileFailed(lines) => Json(SCHEMA, KindCompileFailed, None, Some(lines))
  }

  datatype Rule = Error | Warn | Ignore

  /** A build: its compile, the same every time, and whether its sources declare namespaces. */
  datatype Build = Build(compiled: Option<Entry>, hasNamespaces: bool)

  /** Ids are content hashes: one id, one build. */
  type Builds = Id -> Build

  datatype Answer =
    | Returned(output: Option<Output>)
    | CompileError(id: Id, lines: seq<Line>)
    | Threw

  datatype State = State(memory: map<Id, Entry>, warned: set<Id>, warnings: seq<Id>, disk: map<Id, Json>)

  const Initial: State := State(map[], {}, [], map[])

  datatype Event =
    | Call(rule: Rule, id: Id, diskWrites: bool)
    | NewProcess
    | Corrupted(id: Id, junk: Json)
    | Deleted(id: Id)

  /** `resolveNamespacedEntry`; None when the compile itself threw. */
  function Resolve(builds: Builds, s: State, id: Id, diskWrites: bool): (State, Option<Entry>) {
    if id in s.memory then (s, Some(s.memory[id]))
    else if id in s.disk && IsCacheEntry(s.disk[id]) then
      var e := Parse(s.disk[id]);
      (s.(memory := s.memory[id := e]), Some(e))
    else match builds(id).compiled
      case None => (s, None)
      case Some(e) =>
        var t := s.(memory := s.memory[id := e]);
        (if diskWrites then t.(disk := t.disk[id := Stringify(e)]) else t, Some(e))
  }

  function WarnOnce(s: State, id: Id): State {
    if id in s.warned then s else s.(warned := s.warned + {id}, warnings := s.warnings + [id])
  }

  /** `getNamespacedOutput`'s switch over the entry, under the caller's current rule. */
  function Consume(builds: Builds, s: State, rule: Rule, id: Id, e: Entry): (State, Answer) {
    match e
    case OutputEntry(o) => (s, Returned(o))
    case Unsupported => (if builds(id).hasNamespaces then WarnOnce(s, id) else s, Returned(None))
    case CompileFailed(lines) =>
      match rule
      case Error => (s, CompileError(id, lines))
      case Warn => (WarnOnce(s, id), Returned(None))
      case Ignore => (s, Returned(None))
  }

  function Get(builds: Builds, s: State, rule: Rule, id: Id, diskWrites: bool): (State, Answer) {
    var (t, e) := Resolve(builds, s, id, diskWrites);
    if e.None? then (t, Threw) else Consume(builds, t, rule, id, e.value)
  }

  predicate Possible(e: Event) {
    e.Corrupted? ==> !IsCacheEntry(e.junk)
  }

  function Apply(builds: Builds, s: State, e: Event): State {
    match e
    case Call(rule, id, diskWrites) => Get(builds, s, rule, id, diskWrites).0
    case NewProcess => s.(memory := map[], warned := {}, warnings := [])
    case Corrupted(id, junk) => s.(disk := s.disk[id := junk])
    case Deleted(id) => s.(disk := s.disk - {id})
  }

  function Run(builds: Builds, events: seq<Event>): State {
    if events == [] then Initial else Apply(builds, Run(builds, events[..|events| - 1]), events[|events| - 1])
  }

  // ---------- the reference: no cache at all ----------

  /** What recomputing under the rule would return or throw. */
  function Recompute(builds: Builds, rule: Rule, id: Id): Answer {
    match builds(id).compiled
    case None => Threw
    case Some(OutputEntry(o)) => Returned(o)
    case Some(Unsupported) => Returned(None)
    case Some(CompileFailed(lines)) => if rule.Error? then CompileError(id, lines) else Returned(None)
  }

  /** Whether it would announce reduced precision. */
  predicate Announces(builds: Builds, rule: Rule, id: Id) {
    match builds(id).compiled
    case Some(Unsupported) => builds(id).hasNamespaces
    case Some(CompileFailed(_)) => rule.Warn?
    case _ => false
  }

  ghost predicate Inv(builds: Builds, s: State) {
    && (forall id <- s.memory :: builds(id).compiled == Some(s.memory[id]))
    && (forall id <- s.disk :: IsCacheEntry(s.disk[id]) ==> builds(id).compiled == Some(Parse(s.disk[id])))
    && (forall id: Id :: id in s.warned <==> id in s.warnings)
    && (forall i, j | 0 <= i < j < |s.warnings| :: s.warnings[i] != s.warnings[j])
  }

  /** An entry survives its file, unless it is the one the validator must refuse. */
  lemma EntrySurvivesDisk(e: Entry)
    ensures IsCacheEntry(Stringify(e)) <==> !(e.OutputEntry? && e.output.None?)
    ensures IsCacheEntry(Stringify(e)) ==> Parse(Stringify(e)) == e
  {
  }

  lemma ResolveIsTransparent(builds: Builds, s: State, id: Id, diskWrites: bool)
    requires Inv(builds, s)
    ensures var (t, e) := Resolve(builds, s, id, diskWrites);
            Inv(builds, t) && e == builds(id).compiled && t.warnings == s.warnings
  {
    if builds(id).compiled.Some? { EntrySurvivesDisk(builds(id).compiled.value); }
  }

  lemma ConsumeIsTransparent(builds: Builds, s: State, rule: Rule, id: Id, e: Entry)
    requires Inv(builds, s) && builds(id).compiled == Some(e)
    ensures var (t, answer) := Consume(builds, s, rule, id, e);
            && Inv(builds, t) && answer == Recompute(builds, rule, id)
            && t.warnings == s.warnings + if Announces(builds, rule, id) && id !in s.warnings then [id] else []
  {
  }

  /** One call: transparent, and its announcement is the reference's, unless already made. */
  lemma GetIsTransparent(builds: Builds, s: State, rule: Rule, id: Id, diskWrites: bool)
    requires Inv(builds, s)
    ensures var (t, answer) := Get(builds, s, rule, id, diskWrites);
            && Inv(builds, t) && answer == Recompute(builds, rule, id)
            && t.warnings == s.warnings + if Announces(builds, rule, id) && id !in s.warnings then [id] else []
  {
    var (t, e) := Resolve(builds, s, id, diskWrites);
    ResolveIsTransparent(builds, s, id, diskWrites);
    if e.Some? { ConsumeIsTransparent(builds, t, rule, id, e.value); }
  }

  lemma {:induction false} RunKeepsInv(builds: Builds, events: seq<Event>)
    requires forall e <- events :: Possible(e)
    ensures Inv(builds, Run(builds, events))
    decreases |events|
  {
    if events != [] {
      var front, e := events[..|events| - 1], events[|events| - 1];
      assert e in events;
      forall x | x in front ensures Possible(x) { assert x in events; }
      RunKeepsInv(builds, front);
      if e.Call? { GetIsTransparent(builds, Run(builds, front), e.rule, e.id, e.diskWrites); }
    }
  }

  /**
   After every history of calls under changing rules, process restarts, lost files and files holding
   anything but a well-formed entry, a call answers what recomputing under its own rule would.
   */
  lemma CacheIsTransparent(builds: Builds, events: seq<Event>, rule: Rule, id: Id, diskWrites: bool)
    requires forall e <- events :: Possible(e)
    ensures Get(builds, Run(builds, events), rule, id, diskWrites).1 == Recompute(builds, rule, id)
  {
    RunKeepsInv(builds, events);
    GetIsTransparent(builds, Run(builds, events), rule, id, diskWrites);
  }

  /** Did some call of the current process, the events since its start, call for an announcement of `id`? */
  ghost predicate Called(builds: Builds, events: seq<Event>, id: Id)
    decreases |events|
  {
    if events == [] then false
    else
      var front, e := events[..|events| - 1], events[|events| - 1];
      if e.NewProcess? then false
      else (e.Call? && e.id == id && Announces(builds, e.rule, id)) || Called(builds, front, id)
  }

  /** Each id is announced at most once per process, and exactly when some call of the process asks for it. */
  lemma {:induction false} AnnouncedOnceIffCalledFor(builds: Builds, events: seq<Event>, id: Id)
    requires forall e <- events :: Possible(e)
    ensures var w := Run(builds, events).warnings;
            && (id in w <==> Called(builds, events, id))
            && forall i, j | 0 <= i < j < |w| :: w[i] != w[j]
    decreases |events|
  {
    RunKeepsInv(builds, events);
    if events != [] {
      var front, e := events[..|events| - 1], events[|events| - 1];
      forall x | x in front ensures Possible(x) { assert x in events; }
      RunKeepsInv(builds, front);
      AnnouncedOnceIffCalledFor(builds, front, id);
      if e.Call? { GetIsTransparent(builds, Run(builds, front), e.rule, e.id, e.diskWrites); }
    }
  }

  // ---------- the module itself ----------

  /** The module-level caches, and the build-info directory. */
  class Cache {
    const builds: Builds
    var memory: map<Id, Entry>
    var warned: set<Id>
    var warnings: seq<Id>
    var disk: map<Id, Json>

    function Abs(): State
      reads this
    {
      State(memory, warned, warnings, disk)
    }

    constructor (builds: Builds)
      ensures Abs() == Initial && this.builds == builds
    {
      this.builds := builds;
      memory, warned, warnings, disk := map[], {}, [], map[];
    }

    method ResolveNamespacedEntry(id: Id, diskWrites: bool) returns (e: Option<Entry>)
      modifies this`memory, this`disk
      ensures (Abs(), e) == Resolve(builds, old(Abs()), id, diskWrites)
    {
      if id in memory { return Some(memory[id]); }
      if id in disk && IsCacheEntry(disk[id]) {
        memory := memory[id := Parse(disk[id])];
        return Some(memory[id]);
      }
      e := builds(id).compiled;
      if e.None? { return; }
      memory := memory[id := e.value];
      if diskWrites { disk := disk[id := Stringify(e.value)]; }
    }

    method WarnNamespacedFallback(id: Id)
      modifies this`warned, this`warnings
      ensures Abs() == WarnOnce(old(Abs()), id)
    {
      if id in warned { return; }
      warned := warned + {id};
      warnings := warnings + [id];
    }

    method GetNamespacedOutput(rule: Rule, id: Id, diskWrites: bool) returns (answer: Answer)
      requires Inv(builds, Abs())
      modifies this
      ensures (Abs(), answer) == Get(builds, old(Abs()), rule, id, diskWrites)
      ensures answer == Recompute(builds, rule, id) && Inv(builds, Abs())
    {
      GetIsTransparent(builds, Abs(), rule, id, diskWrites);
      var e := ResolveNamespacedEntry(id, diskWrites);
      if e.None? { return Threw; }
      match e.value {
        case OutputEntry(o) => return Returned(o);
        case Unsupported =>
          if builds(id).hasNamespaces { WarnNamespacedFallback(id); }
          return Returned(None);
        case CompileFailed(lines) =>
          match rule {
            case Error => return CompileError(id, lines);
            case Warn => WarnNamespacedFallback(id); return Returned(None);
            case Ignore => return Returned(None);
          }
      }
    }
  }
}
