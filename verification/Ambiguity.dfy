/**
 The artifact ambiguity index (`environment/ambiguity.ts`), the memoized access over it
 (`environment/artifacts.ts`) and the triage of a proxy artifact (`proxy/artifacts.ts`).
 */
module Ambiguity {
  import opened Wrappers
  import opened StableSort

  datatype Candidate = Candidate(sourcePath: string, contractName: string, buildInfoFile: string)

  /** A source's contract map, which may not be an object. */
  datatype Source = Source(path: string, names: seq<string>) | NotAnObject(path: string)

  /** A parsed output file, which may carry no contract map. */
  datatype File = File(file: string, contained: bool, sources: seq<Source>) | Mapless(file: string, contained: bool)

  datatype Read = Raised | Absent | Unreadable(file: string, contained: bool) | Files(files: seq<File>)

  datatype Reason = BuildInfoAbsent | BuildInfoUnreadable(file: string) | LacksContractMap(file: string)

  datatype Index =
    | Indeterminate(reason: Reason)
    | Indexed(byName: map<string, seq<Candidate>>, collisions: seq<string>, indexedFrom: seq<string>)

  // ---------- names ----------

  function StripDot(s: string): string {
    if |s| >= 2 && s[0] == '.' && s[1] == '/' then s[2..] else s
  }

  predicate EndsSol(s: string) {
    && |s| >= 4 && s[|s| - 4] == '.'
    && (s[|s| - 3] == 's' || s[|s| - 3] == 'S')
    && (s[|s| - 2] == 'o' || s[|s| - 2] == 'O')
    && (s[|s| - 1] == 'l' || s[|s| - 1] == 'L')
  }

  function StripSol(s: string): string {
    if EndsSol(s) then s[..|s| - 4] else s
  }

  /** `normalizeArtifactName`: one leading `./` and one trailing `.sol`, in that order. */
  function Normalize(s: string): string {
    StripSol(StripDot(s))
  }

  /** It strips once: "A.sol.sol" takes two passes. */
  lemma NormalizeIsNotIdempotent()
    ensures Normalize("A.sol.sol") == "A.sol" && Normalize("A.sol") == "A"
  {
    assert "A.sol.sol"[..5] == "A.sol";
    assert "A.sol"[..1] == "A";
  }

  /** A second pass changes a name exactly when the first left something to strip. */
  lemma SecondPassIff(s: string)
    ensures Normalize(Normalize(s)) == Normalize(s) <==>
            StripDot(Normalize(s)) == Normalize(s) && !EndsSol(Normalize(s))
  {
  }

  /** A name without a dot is left alone. */
  lemma PlainNamesStay(s: string)
    requires '.' !in s
    ensures Normalize(s) == s
  {
  }

  // ---------- order ----------

  /** Where a collation puts a text; `localeCompare` compares these. */
  type Collation = string -> real

  predicate CandidateOrder(key: Collation, a: Candidate, b: Candidate) {
    if key(a.sourcePath) != key(b.sourcePath) then key(a.sourcePath) < key(b.sourcePath)
    else if key(a.contractName) != key(b.contractName) then key(a.contractName) < key(b.contractName)
    else key(a.buildInfoFile) <= key(b.buildInfoFile)
  }

  function ByCandidate(key: Collation): (Candidate, Candidate) -> bool {
    (a: Candidate, b: Candidate) => CandidateOrder(key, a, b)
  }

  function ByName(key: Collation): (string, string) -> bool {
    (a: string, b: string) => key(a) <= key(b)
  }

  lemma OrdersArePreorders(key: Collation)
    ensures TotalPreorder(ByCandidate(key)) && TotalPreorder(ByName(key))
  {
  }

  // ---------- the naive scan ----------

  function NameCandidates(file: string, source: string, names: seq<string>, n: nat): seq<Candidate>
    requires n <= |names|
  {
    if n == 0 then [] else NameCandidates(file, source, names, n - 1) + [Candidate(source, names[n - 1], file)]
  }

  function NamesOf(s: Source): seq<string> {
    if s.NotAnObject? then [] else s.names
  }

  function SourceCandidates(file: string, sources: seq<Source>, n: nat): seq<Candidate>
    requires n <= |sources|
  {
    if n == 0 then []
    else
      var names := NamesOf(sources[n - 1]);
      SourceCandidates(file, sources, n - 1) + NameCandidates(file, sources[n - 1].path, names, |names|)
  }

  function FileCandidates(f: File): seq<Candidate> {
    if f.Mapless? then [] else SourceCandidates(f.file, f.sources, |f.sources|)
  }

  /** Every (source, contract, file) triple of the first `n` files. */
  function Candidates(files: seq<File>, n: nat): seq<Candidate>
    requires n <= |files|
  {
    if n == 0 then [] else Candidates(files, n - 1) + FileCandidates(files[n - 1])
  }

  /** Those whose normalized contract name is `name`. */
  function Named(cs: seq<Candidate>, name: string): seq<Candidate> {
    if cs == [] then []
    else Named(cs[..|cs| - 1], name)
         + if Normalize(cs[|cs| - 1].contractName) == name then [cs[|cs| - 1]] else []
  }

  function Problem(f: File, directory: string): Option<Reason> {
    if !f.contained then Some(BuildInfoUnreadable(directory))
    else if f.Mapless? || exists i :: 0 <= i < |f.sources| && f.sources[i].NotAnObject? then Some(LacksContractMap(f.file))
    else None
  }

  /** The first file that cannot be used. */
  function FirstProblem(files: seq<File>, directory: string, n: nat): Option<Reason>
    requires n <= |files|
  {
    if n == 0 then None
    else if FirstProblem(files, directory, n - 1).Some? then FirstProblem(files, directory, n - 1)
    else Problem(files[n - 1], directory)
  }

  function FileNames(files: seq<File>): (r: seq<string>)
    ensures |r| == |files|
  {
    seq(|files|, i requires 0 <= i < |files| => files[i].file)
  }

  // ---------- the index as the loops fill it ----------

  /** A JavaScript map of buckets: its keys in the order they were first set. */
  datatype Groups = Groups(order: seq<string>, byName: map<string, seq<Candidate>>)

  const Empty: Groups := Groups([], map[])

  /** The bucket a candidate goes into. */
  type Bucket = Candidate -> string

  function ByNormalizedName(): Bucket {
    (c: Candidate) => Normalize(c.contractName)
  }

  function Pushed(bucket: Bucket, g: Groups, c: Candidate): Groups {
    var name := bucket(c);
    if name in g.byName then g.(byName := g.byName[name := g.byName[name] + [c]])
    else Groups(g.order + [name], g.byName[name := [c]])
  }

  /** The buckets after the first `n` of these candidates were pushed, one by one. */
  function FoldTo(bucket: Bucket, g: Groups, cs: seq<Candidate>, n: nat): Groups
    requires n <= |cs|
  {
    if n == 0 then g else Pushed(bucket, FoldTo(bucket, g, cs, n - 1), cs[n - 1])
  }

  function Fold(bucket: Bucket, g: Groups, cs: seq<Candidate>): Groups { FoldTo(bucket, g, cs, |cs|) }

  lemma {:induction false} FoldPrefix(bucket: Bucket, g: Groups, a: seq<Candidate>, b: seq<Candidate>, n: nat)
    requires n <= |a|
    ensures FoldTo(bucket, g, a + b, n) == FoldTo(bucket, g, a, n)
  {
    if n > 0 { FoldPrefix(bucket, g, a, b, n - 1); }
  }

  lemma {:induction false} FoldOn(bucket: Bucket, g: Groups, a: seq<Candidate>, b: seq<Candidate>, n: nat)
    requires n <= |b|
    ensures FoldTo(bucket, g, a + b, |a| + n) == FoldTo(bucket, Fold(bucket, g, a), b, n)
  {
    if n == 0 { FoldPrefix(bucket, g, a, b, |a|); } else { FoldOn(bucket, g, a, b, n - 1); }
  }

  lemma FoldConcat(bucket: Bucket, g: Groups, a: seq<Candidate>, b: seq<Candidate>)
    ensures Fold(bucket, g, a + b) == Fold(bucket, Fold(bucket, g, a), b)
  {
    FoldOn(bucket, g, a, b, |b|);
  }

  lemma FoldLast(bucket: Bucket, g: Groups, cs: seq<Candidate>)
    requires cs != []
    ensures Fold(bucket, g, cs) == Pushed(bucket, Fold(bucket, g, cs[..|cs| - 1]), cs[|cs| - 1])
  {
    var front, last := cs[..|cs| - 1], cs[|cs| - 1];
    FoldPrefix(bucket, g, front, [last], |front|);
    assert cs == front + [last];
  }

  lemma OneMoreName(bucket: Bucket, g: Groups, file: string, path: string, names: seq<string>, n: nat)
    requires n < |names|
    ensures Fold(bucket, g, NameCandidates(file, path, names, n + 1))
         == Pushed(bucket, Fold(bucket, g, NameCandidates(file, path, names, n)), Candidate(path, names[n], file))
  {
    var cs := NameCandidates(file, path, names, n + 1);
    assert cs[..|cs| - 1] == NameCandidates(file, path, names, n);
    FoldLast(bucket, g, cs);
  }

  lemma OneMoreSource(bucket: Bucket, g: Groups, file: string, sources: seq<Source>, n: nat)
    requires n < |sources|
    ensures var names := NamesOf(sources[n]);
            Fold(bucket, g, SourceCandidates(file, sources, n + 1))
            == Fold(bucket, Fold(bucket, g, SourceCandidates(file, sources, n)), NameCandidates(file, sources[n].path, names, |names|))
  {
    var names := NamesOf(sources[n]);
    FoldConcat(bucket, g, SourceCandidates(file, sources, n), NameCandidates(file, sources[n].path, names, |names|));
  }

  lemma OneMoreFile(bucket: Bucket, g: Groups, files: seq<File>, n: nat)
    requires n < |files|
    ensures Fold(bucket, g, Candidates(files, n + 1)) == Fold(bucket, Fold(bucket, g, Candidates(files, n)), FileCandidates(files[n]))
  {
    FoldConcat(bucket, g, Candidates(files, n), FileCandidates(files[n]));
  }

  /** The names with two candidates or more, in map order. */
  function Colliding(g: Groups, n: nat): seq<string>
    requires n <= |g.order|
  {
    if n == 0 then []
    else
      var name := g.order[n - 1];
      Colliding(g, n - 1) + if name in g.byName && |g.byName[name]| > 1 then [name] else []
  }

  /** A complete index over the buckets. */
  function Complete(key: Collation, g: Groups, indexedFrom: seq<string>): Index {
    Indexed(map name | name in g.byName :: Sort(ByCandidate(key), g.byName[name]),
            Sort(ByName(key), Colliding(g, |g.order|)),
            indexedFrom)
  }

  function IndexOf(key: Collation, read: Read, directory: string): Index {
    match read
    case Raised => Indeterminate(BuildInfoUnreadable(directory))
    case Absent => Indeterminate(BuildInfoAbsent)
    case Unreadable(file, contained) => Indeterminate(BuildInfoUnreadable(if contained then file else directory))
    case Files(files) =>
      if files == [] then Indeterminate(BuildInfoAbsent)
      else match FirstProblem(files, directory, |files|)
        case Some(why) => Indeterminate(why)
        case None => Complete(key, Fold(ByNormalizedName(), Empty, Candidates(files, |files|)), FileNames(files))
  }

  // ---------- building it ----------

  /** The map the nested loops push into. */
  class Builder {
    var order: seq<string>
    var byName: map<string, seq<Candidate>>
    const bucket: Bucket

    constructor (bucket: Bucket)
      ensures Value() == Empty && this.bucket == bucket
    {
      order, byName := [], map[];
      this.bucket := bucket;
    }

    function Value(): Groups
      reads this
    {
      Groups(order, byName)
    }

    method Push(c: Candidate)
      modifies this
      ensures Value() == Pushed(bucket, old(Value()), c)
    {
      var name := bucket(c);
      if name in byName {
        byName := byName[name := byName[name] + [c]];
      } else {
        byName := byName[name := [c]];
        order := order + [name];
      }
    }

    method PushAll(file: string, path: string, names: seq<string>)
      modifies this
      ensures Value() == Fold(bucket, old(Value()), NameCandidates(file, path, names, |names|))
    {
      for i := 0 to |names|
        invariant Value() == Fold(bucket, old(Value()), NameCandidates(file, path, names, i))
      {
        OneMoreName(bucket, old(Value()), file, path, names, i);
        Push(Candidate(path, names[i], file));
      }
    }

    method PushSource(file: string, sources: seq<Source>, i: nat, ghost g: Groups)
      requires i < |sources| && sources[i].Source? && Value() == Fold(bucket, g, SourceCandidates(file, sources, i))
      modifies this
      ensures Value() == Fold(bucket, g, SourceCandidates(file, sources, i + 1))
    {
      OneMoreSource(bucket, g, file, sources, i);
      PushAll(file, sources[i].path, NamesOf(sources[i]));
    }

    method IndexSources(file: string, sources: seq<Source>) returns (ok: bool)
      modifies this
      ensures ok <==> forall i | 0 <= i < |sources| :: sources[i].Source?
      ensures ok ==> Value() == Fold(bucket, old(Value()), SourceCandidates(file, sources, |sources|))
    {
      for i := 0 to |sources|
        invariant Value() == Fold(bucket, old(Value()), SourceCandidates(file, sources, i))
        invariant forall k | 0 <= k < i :: sources[k].Source?
      {
        if sources[i].NotAnObject? { return false; }
        PushSource(file, sources, i, old(Value()));
      }
      ok := true;
    }

    method IndexFile(f: File, directory: string) returns (problem: Option<Reason>)
      modifies this
      ensures problem == Problem(f, directory)
      ensures problem.None? ==> Value() == Fold(bucket, old(Value()), FileCandidates(f))
    {
      if !f.contained { return Some(BuildInfoUnreadable(directory)); }
      if f.Mapless? { return Some(LacksContractMap(f.file)); }
      var ok := IndexSources(f.file, f.sources);
      problem := if ok then None else Some(LacksContractMap(f.file));
    }

    method AddFile(files: seq<File>, i: nat, directory: string) returns (problem: Option<Reason>)
      requires i < |files| && Value() == Fold(bucket, Empty, Candidates(files, i))
      requires FirstProblem(files, directory, i).None?
      modifies this
      ensures problem == FirstProblem(files, directory, i + 1)
      ensures problem.Some? ==> problem == FirstProblem(files, directory, |files|)
      ensures problem.None? ==> Value() == Fold(bucket, Empty, Candidates(files, i + 1))
    {
      OneMoreFile(bucket, Empty, files, i);
      problem := IndexFile(files[i], directory);
      if problem.Some? { ProblemStays(files, directory, i + 1); }
    }

    /** The first file that cannot be used stops the loop. */
    method AddFiles(files: seq<File>, directory: string) returns (problem: Option<Reason>)
      requires Value() == Empty
      modifies this
      ensures problem == FirstProblem(files, directory, |files|)
      ensures problem.None? ==> Value() == Fold(bucket, Empty, Candidates(files, |files|))
    {
      for i := 0 to |files|
        invariant FirstProblem(files, directory, i).None?
        invariant Value() == Fold(bucket, Empty, Candidates(files, i))
      {
        problem := AddFile(files, i, directory);
        if problem.Some? { return; }
      }
      problem := None;
    }

    method Collisions() returns (r: seq<string>)
      ensures r == Colliding(Value(), |order|)
    {
      r := [];
      for i := 0 to |order|
        invariant r == Colliding(Value(), i)
      {
        if order[i] in byName && |byName[order[i]]| > 1 { r := r + [order[i]]; }
      }
    }

    method Finish(key: Collation, indexedFrom: seq<string>) returns (index: Index)
      ensures index == Complete(key, Value(), indexedFrom)
    {
      var collisions := Collisions();
      index := Indexed(map name | name in byName :: Sort(ByCandidate(key), byName[name]),
                       Sort(ByName(key), collisions), indexedFrom);
    }
  }

  lemma {:induction false} ProblemStays(files: seq<File>, directory: string, n: nat)
    requires n <= |files| && FirstProblem(files, directory, n).Some?
    ensures FirstProblem(files, directory, |files|) == FirstProblem(files, directory, n)
    decreases |files| - n
  {
    if n < |files| { ProblemStays(files, directory, n + 1); }
  }

  method IndexFiles(key: Collation, files: seq<File>, directory: string) returns (index: Index)
    requires files != []
    ensures index == IndexOf(key, Files(files), directory)
  {
    var builder := new Builder(ByNormalizedName());
    var problem := builder.AddFiles(files, directory);
    if problem.Some? { return Indeterminate(problem.value); }
    index := builder.Finish(key, FileNames(files));
  }

  /** `buildArtifactAmbiguityIndex`. */
  method BuildIndex(key: Collation, read: Read, directory: string) returns (index: Index)
    ensures index == IndexOf(key, read, directory)
    ensures index.Indexed? <==> read.Files? && read.files != [] && forall f <- read.files :: Usable(f)
    ensures index.Indexed? ==>
              forall name: string :: CandidatesFor(index, name) == Answer(key, Candidates(read.files, |read.files|), Normalize(name))
  {
    IndexedIff(key, read, directory);
    if IndexOf(key, read, directory).Indexed? {
      forall name: string
        ensures CandidatesFor(IndexOf(key, read, directory), name) == Answer(key, Candidates(read.files, |read.files|), Normalize(name))
      {
        AnswersAre(key, read.files, directory, name);
      }
    }
    match read {
      case Raised => return Indeterminate(BuildInfoUnreadable(directory));
      case Absent => return Indeterminate(BuildInfoAbsent);
      case Unreadable(file, contained) => return Indeterminate(BuildInfoUnreadable(if contained then file else directory));
      case Files(files) =>
        if files == [] { return Indeterminate(BuildInfoAbsent); }
        index := IndexFiles(key, files, directory);
    }
  }

  // ---------- the buckets are the naive scan's answers ----------

  /** A bucket holds what the scan names; the map's keys are the names with one, each once. */
  lemma {:induction false} FoldGroups(cs: seq<Candidate>, name: string)
    ensures var g := Fold(ByNormalizedName(), Empty, cs);
            && (name in g.byName <==> Named(cs, name) != [])
            && (name in g.byName ==> g.byName[name] == Named(cs, name))
            && (name in g.order <==> name in g.byName)
  {
    if cs != [] {
      FoldGroups(cs[..|cs| - 1], name);
      FoldLast(ByNormalizedName(), Empty, cs);
    }
  }

  lemma {:induction false} CollidingNames(g: Groups, n: nat, name: string)
    requires n <= |g.order|
    ensures name in Colliding(g, n) <==>
            name in g.byName && |g.byName[name]| > 1 && exists i :: 0 <= i < n && g.order[i] == name
  {
    if n > 0 { CollidingNames(g, n - 1, name); }
  }

  // ---------- what it promises ----------

  /** `candidates(name)`. */
  function CandidatesFor(index: Index, name: string): seq<Candidate> {
    if index.Indexed? && Normalize(name) in index.byName then index.byName[Normalize(name)] else []
  }

  predicate Usable(f: File) {
    f.contained && f.File? && forall i | 0 <= i < |f.sources| :: f.sources[i].Source?
  }

  /** A triple some file names. */
  ghost predicate Compiled(files: seq<File>, c: Candidate) {
    exists i :: 0 <= i < |files| && c in FileCandidates(files[i])
  }

  lemma CandidatesAreCompiled(files: seq<File>, n: nat, c: Candidate)
    requires n <= |files|
    ensures c in Candidates(files, n) <==> exists i :: 0 <= i < n && c in FileCandidates(files[i])
  {
    CandidatesConcat(files, n);
    ConcatMapHolds(FileCandidates, files[..n], c);
    assert forall i | 0 <= i < n :: files[..n][i] == files[i];
  }

  lemma {:induction false} CandidatesConcat(files: seq<File>, n: nat)
    requires n <= |files|
    ensures Candidates(files, n) == ConcatMap(FileCandidates, files[..n])
  {
    if n > 0 {
      CandidatesConcat(files, n - 1);
      assert files[..n][..n - 1] == files[..n - 1];
    }
  }

  lemma {:induction false} NamedHolds(cs: seq<Candidate>, name: string, c: Candidate)
    ensures multiset(Named(cs, name))[c] == if Normalize(c.contractName) == name then multiset(cs)[c] else 0
  {
    if cs != [] {
      var front, last := cs[..|cs| - 1], cs[|cs| - 1];
      NamedHolds(front, name, c);
      assert cs == front + [last];
      assert multiset(cs)[c] == multiset(front)[c] + if last == c then 1 else 0;
      if Normalize(last.contractName) == name {
        assert multiset(Named(cs, name))[c] == multiset(Named(front, name))[c] + if last == c then 1 else 0;
      }
    }
  }

  lemma {:induction false} ProblemIff(files: seq<File>, directory: string, n: nat)
    requires n <= |files|
    ensures FirstProblem(files, directory, n).None? <==> forall i | 0 <= i < n :: Usable(files[i])
  {
    if n > 0 { ProblemIff(files, directory, n - 1); }
  }

  /** The index is complete exactly when something was read and every file is usable: one bad file makes every answer indeterminate. */
  lemma IndexedIff(key: Collation, read: Read, directory: string)
    ensures IndexOf(key, read, directory).Indexed? <==>
            read.Files? && read.files != [] && forall f <- read.files :: Usable(f)
  {
    if read.Files? { ProblemIff(read.files, directory, |read.files|); }
  }

  /** What the naive scan answers: the triples of that name, in candidate order. */
  function Answer(key: Collation, cs: seq<Candidate>, name: string): seq<Candidate> {
    Sort(ByCandidate(key), Named(cs, name))
  }

  lemma AnswersAre(key: Collation, files: seq<File>, directory: string, name: string)
    requires IndexOf(key, Files(files), directory).Indexed?
    ensures CandidatesFor(IndexOf(key, Files(files), directory), name)
         == Answer(key, Candidates(files, |files|), Normalize(name))
  {
    FoldGroups(Candidates(files, |files|), Normalize(name));
  }

  lemma AnswerHolds(key: Collation, cs: seq<Candidate>, name: string, c: Candidate)
    ensures var found := Answer(key, cs, name);
            && multiset(found)[c] == (if Normalize(c.contractName) == name then multiset(cs)[c] else 0)
            && (c in found <==> Normalize(c.contractName) == name && c in cs)
            && Sorted(ByCandidate(key), found)
  {
    OrdersArePreorders(key);
    SortPermutes(ByCandidate(key), Named(cs, name));
    SortSorts(ByCandidate(key), Named(cs, name));
    NamedHolds(cs, name, c);
    var found := Answer(key, cs, name);
    assert c in found <==> c in multiset(found);
    assert c in cs <==> c in multiset(cs);
  }

  /** A complete index answers a name with exactly the triples a naive scan finds, each as often. */
  lemma IndexIsNaiveScan(key: Collation, files: seq<File>, directory: string, name: string, c: Candidate)
    requires IndexOf(key, Files(files), directory).Indexed?
    ensures var found := CandidatesFor(IndexOf(key, Files(files), directory), name);
            && multiset(found)[c] == (if Normalize(c.contractName) == Normalize(name) then multiset(Candidates(files, |files|))[c] else 0)
            && (c in found <==> Normalize(c.contractName) == Normalize(name) && Compiled(files, c))
            && Sorted(ByCandidate(key), found)
  {
    AnswersAre(key, files, directory, name);
    AnswerHolds(key, Candidates(files, |files|), Normalize(name), c);
    CandidatesAreCompiled(files, |files|, c);
  }

  lemma CollisionsOf(key: Collation, cs: seq<Candidate>, name: string)
    ensures var g := Fold(ByNormalizedName(), Empty, cs);
            var collisions := Sort(ByName(key), Colliding(g, |g.order|));
            (name in collisions <==> |Named(cs, name)| > 1) && Sorted(ByName(key), collisions)
  {
    var g := Fold(ByNormalizedName(), Empty, cs);
    var colliding := Colliding(g, |g.order|);
    FoldGroups(cs, name);
    CollidingNames(g, |g.order|, name);
    OrdersArePreorders(key);
    SortPermutes(ByName(key), colliding);
    SortSorts(ByName(key), colliding);
    assert name in Sort(ByName(key), colliding) <==> name in multiset(Sort(ByName(key), colliding));
    assert name in colliding <==> name in multiset(colliding);
  }

  /** The collisions are exactly the names with two candidates or more, in collation order. */
  lemma CollisionsExactly(key: Collation, files: seq<File>, directory: string, name: string)
    requires IndexOf(key, Files(files), directory).Indexed?
    ensures var index := IndexOf(key, Files(files), directory);
            && (name in index.collisions <==> |Named(Candidates(files, |files|), name)| > 1)
            && Sorted(ByName(key), index.collisions)
  {
    CollisionsOf(key, Candidates(files, |files|), name);
  }

  // ---------- the order the files are read in ----------

  /** No two candidates of the name from different files tie: the collation tells at least those apart. */
  ghost predicate TellsFilesApart(key: Collation, cs: seq<Candidate>, name: string) {
    forall c, d | c in cs && d in cs && Normalize(c.contractName) == name && Normalize(d.contractName) == name ::
      Tie(ByCandidate(key), c, d) ==> c.buildInfoFile == d.buildInfoFile
  }

  /** A directory lists a file once. */
  ghost predicate OneEach(files: seq<File>) {
    forall i, j | 0 <= i < j < |files| :: files[i].file != files[j].file
  }

  /** The candidates of the name in one file that tie with `x`. */
  function TiedIn(key: Collation, x: Candidate, name: string): File -> seq<Candidate> {
    (f: File) => Tied(ByCandidate(key), x, Named(FileCandidates(f), name))
  }

  lemma {:induction false} NamedConcat(a: seq<Candidate>, b: seq<Candidate>, name: string)
    ensures Named(a + b, name) == Named(a, name) + Named(b, name)
    decreases |b|
  {
    if b == [] {
      assert a + b == a;
    } else {
      assert (a + b)[..|a + b| - 1] == a + b[..|b| - 1];
      NamedConcat(a, b[..|b| - 1], name);
    }
  }

  lemma {:induction false} TiesByFile(key: Collation, x: Candidate, files: seq<File>, name: string, n: nat)
    requires n <= |files|
    ensures Tied(ByCandidate(key), x, Named(Candidates(files, n), name)) == ConcatMap(TiedIn(key, x, name), files[..n])
  {
    if n > 0 {
      TiesByFile(key, x, files, name, n - 1);
      var (cs, more) := (Candidates(files, n - 1), FileCandidates(files[n - 1]));
      NamedConcat(cs, more, name);
      TiedConcat(ByCandidate(key), x, Named(cs, name), Named(more, name));
      assert files[..n][..n - 1] == files[..n - 1];
    }
  }

  lemma {:induction false} NameCandidatesOf(file: string, source: string, names: seq<string>, n: nat, c: Candidate)
    requires n <= |names| && c in NameCandidates(file, source, names, n)
    ensures c.buildInfoFile == file
  {
    if n > 0 && c in NameCandidates(file, source, names, n - 1) { NameCandidatesOf(file, source, names, n - 1, c); }
  }

  lemma {:induction false} SourceCandidatesOf(file: string, sources: seq<Source>, n: nat, c: Candidate)
    requires n <= |sources| && c in SourceCandidates(file, sources, n)
    ensures c.buildInfoFile == file
  {
    if n > 0 {
      var names := NamesOf(sources[n - 1]);
      if c in SourceCandidates(file, sources, n - 1) { SourceCandidatesOf(file, sources, n - 1, c); }
      else { NameCandidatesOf(file, sources[n - 1].path, names, |names|, c); }
    }
  }

  lemma NamedIn(cs: seq<Candidate>, name: string, c: Candidate)
    ensures c in Named(cs, name) <==> c in cs && Normalize(c.contractName) == name
  {
    NamedHolds(cs, name, c);
    assert c in Named(cs, name) <==> c in multiset(Named(cs, name));
    assert c in cs <==> c in multiset(cs);
  }

  lemma TiedInHolds(key: Collation, x: Candidate, name: string, f: File, c: Candidate)
    ensures c in TiedIn(key, x, name)(f) <==>
            c in FileCandidates(f) && Normalize(c.contractName) == name && Tie(ByCandidate(key), x, c)
    ensures c in TiedIn(key, x, name)(f) ==> c.buildInfoFile == f.file
  {
    TiedHolds(ByCandidate(key), x, Named(FileCandidates(f), name), c);
    NamedIn(FileCandidates(f), name, c);
    if c in FileCandidates(f) { SourceCandidatesOf(f.file, f.sources, |f.sources|, c); }
  }

  lemma ToldApart(key: Collation, cs: seq<Candidate>, name: string, c: Candidate, d: Candidate)
    requires TellsFilesApart(key, cs, name) && c in cs && d in cs && Tie(ByCandidate(key), c, d)
    requires Normalize(c.contractName) == name && Normalize(d.contractName) == name
    ensures c.buildInfoFile == d.buildInfoFile
  {
  }

  lemma SomeTied(key: Collation, x: Candidate, files: seq<File>, name: string, i: nat) returns (c: Candidate)
    requires i < |files| && TiedIn(key, x, name)(files[i]) != []
    ensures c in Candidates(files, |files|) && Normalize(c.contractName) == name
    ensures Tie(ByCandidate(key), x, c) && c.buildInfoFile == files[i].file
  {
    c := TiedIn(key, x, name)(files[i])[0];
    TiedInHolds(key, x, name, files[i], c);
    CandidatesAreCompiled(files, |files|, c);
  }

  /** Of candidates that tie, told apart by file, only one file has any. */
  lemma OneFileHasTies(key: Collation, x: Candidate, files: seq<File>, name: string, i: nat, j: nat)
    requires OneEach(files) && i < |files| && j < |files| && i != j
    requires TellsFilesApart(key, Candidates(files, |files|), name)
    requires TiedIn(key, x, name)(files[i]) != []
    ensures TiedIn(key, x, name)(files[j]) == []
  {
    if TiedIn(key, x, name)(files[j]) != [] {
      var c := SomeTied(key, x, files, name, i);
      var d := SomeTied(key, x, files, name, j);
      OrdersArePreorders(key);
      TiesAreEqual(ByCandidate(key), x, c, d);
      TiesAreEqual(ByCandidate(key), x, d, c);
      ToldApart(key, Candidates(files, |files|), name, c, d);
    }
  }

  lemma SameFiles(files: seq<File>, again: seq<File>, i: nat) returns (j: nat)
    requires multiset(files) == multiset(again) && i < |files|
    ensures j < |again| && again[j] == files[i]
  {
    assert files[i] in multiset(again);
    j :| 0 <= j < |again| && again[j] == files[i];
  }

  lemma TiesInAnyOrder(key: Collation, x: Candidate, files: seq<File>, again: seq<File>, name: string)
    requires OneEach(files) && OneEach(again) && multiset(files) == multiset(again)
    requires TellsFilesApart(key, Candidates(files, |files|), name)
    ensures ConcatMap(TiedIn(key, x, name), files) == ConcatMap(TiedIn(key, x, name), again)
  {
    var g := TiedIn(key, x, name);
    if i :| 0 <= i < |files| && g(files[i]) != [] {
      forall j | 0 <= j < |files| && j != i ensures g(files[j]) == [] { OneFileHasTies(key, x, files, name, i, j); }
      ConcatMapOnly(g, files, i);
      var k := SameFiles(files, again, i);
      forall j | 0 <= j < |again| && j != k ensures g(again[j]) == [] {
        var m := SameFiles(again, files, j);
      }
      ConcatMapOnly(g, again, k);
    } else {
      ConcatMapNone(g, files);
      forall j | 0 <= j < |again| ensures g(again[j]) == [] { var m := SameFiles(again, files, j); }
      ConcatMapNone(g, again);
    }
  }

  lemma AnswerTies(key: Collation, x: Candidate, files: seq<File>, name: string)
    ensures Tied(ByCandidate(key), x, Answer(key, Candidates(files, |files|), name)) == ConcatMap(TiedIn(key, x, name), files)
  {
    OrdersArePreorders(key);
    SortKeepsTies(ByCandidate(key), x, Named(Candidates(files, |files|), name));
    TiesByFile(key, x, files, name, |files|);
    assert files[..|files|] == files;
  }

  lemma AnswerInAnyOrder(key: Collation, files: seq<File>, again: seq<File>, name: string)
    requires OneEach(files) && OneEach(again) && multiset(files) == multiset(again)
    requires TellsFilesApart(key, Candidates(files, |files|), name)
    ensures Answer(key, Candidates(files, |files|), name) == Answer(key, Candidates(again, |again|), name)
  {
    var (s, t) := (Answer(key, Candidates(files, |files|), name), Answer(key, Candidates(again, |again|), name));
    OrdersArePreorders(key);
    SortSorts(ByCandidate(key), Named(Candidates(files, |files|), name));
    SortSorts(ByCandidate(key), Named(Candidates(again, |again|), name));
    forall x: Candidate ensures Tied(ByCandidate(key), x, s) == Tied(ByCandidate(key), x, t) {
      AnswerTies(key, x, files, name);
      AnswerTies(key, x, again, name);
      TiesInAnyOrder(key, x, files, again, name);
    }
    TiesDecide(ByCandidate(key), s, t);
  }

  /** The files with the one at `i` read first. */
  function ReadFirst(files: seq<File>, i: nat): seq<File>
    requires i < |files|
  {
    [files[i]] + (files[..i] + files[i + 1..])
  }

  lemma ReadFirstPermutes(files: seq<File>, i: nat)
    requires i < |files|
    ensures |ReadFirst(files, i)| == |files| && multiset(ReadFirst(files, i)) == multiset(files)
  {
    assert files == files[..i] + [files[i]] + files[i + 1..];
  }

  lemma TiesReadFirst(key: Collation, x: Candidate, files: seq<File>, i: nat, name: string)
    requires i < |files|
    ensures Tied(ByCandidate(key), x, Answer(key, Candidates(ReadFirst(files, i), |files|), name))
         == TiedIn(key, x, name)(files[i]) + ConcatMap(TiedIn(key, x, name), files[..i] + files[i + 1..])
  {
    ReadFirstPermutes(files, i);
    AnswerTies(key, x, ReadFirst(files, i), name);
    ImagesReadFirst(TiedIn(key, x, name), files, i);
  }

  lemma ImagesReadFirst(g: File -> seq<Candidate>, files: seq<File>, i: nat)
    requires i < |files|
    ensures ConcatMap(g, ReadFirst(files, i)) == g(files[i]) + ConcatMap(g, files[..i] + files[i + 1..])
  {
    ConcatMapHead(g, files[i], files[..i] + files[i + 1..]);
  }

  /** The first of the ties comes from the file read first, if it has one. */
  lemma FirstTie(key: Collation, x: Candidate, files: seq<File>, i: nat, name: string)
    requires i < |files| && TiedIn(key, x, name)(files[i]) != []
    ensures var ties := Tied(ByCandidate(key), x, Answer(key, Candidates(ReadFirst(files, i), |files|), name));
            ties != [] && ties[0].buildInfoFile == files[i].file
  {
    TiesReadFirst(key, x, files, i, name);
    TiedInHolds(key, x, name, files[i], TiedIn(key, x, name)(files[i])[0]);
  }

  /** Every order of reading these files gives this name the same answer. */
  ghost predicate OrderIsForgotten(key: Collation, files: seq<File>, directory: string, name: string) {
    forall again: seq<File> | multiset(again) == multiset(files) ::
      CandidatesFor(IndexOf(key, Files(again), directory), name) == CandidatesFor(IndexOf(key, Files(files), directory), name)
  }

  lemma IndexedInAnyOrder(key: Collation, files: seq<File>, again: seq<File>, directory: string)
    requires IndexOf(key, Files(files), directory).Indexed? && multiset(files) == multiset(again)
    requires OneEach(files)
    ensures IndexOf(key, Files(again), directory).Indexed? && OneEach(again) && |again| == |files|
  {
    assert |files| == |multiset(files)| && |again| == |multiset(again)|;
    IndexedIff(key, Files(files), directory);
    IndexedIff(key, Files(again), directory);
    forall f <- again ensures Usable(f) { assert f in multiset(files); }
    forall i, j | 0 <= i < j < |again| ensures again[i].file != again[j].file { OnceEach(files, again, i, j); }
  }

  lemma OnceEach(files: seq<File>, again: seq<File>, i: nat, j: nat)
    requires OneEach(files) && multiset(files) == multiset(again) && i < j < |again|
    ensures again[i].file != again[j].file
  {
    var m := SameFiles(again, files, i);
    var n := SameFiles(again, files, j);
    if m == n {
      Twice(again, i, j);
      OccursOnce(files, m);
    }
  }

  lemma Twice(s: seq<File>, i: nat, j: nat)
    requires i < j < |s| && s[i] == s[j]
    ensures multiset(s)[s[i]] >= 2
  {
    var a, b := s[..j], s[j..];
    assert s == a + b && a[i] == s[i] && b[0] == s[i];
    assert multiset(s) == multiset(a) + multiset(b);
    assert s[i] in multiset(a) && s[i] in multiset(b);
  }

  lemma OccursOnce(files: seq<File>, m: nat)
    requires OneEach(files) && m < |files|
    ensures multiset(files)[files[m]] == 1
  {
    var f, a, b := files[m], files[..m], files[m + 1..];
    assert files == a + [f] + b;
    assert multiset(files) == multiset(a) + multiset{f} + multiset(b);
    assert f !in a && f !in b;
    assert f !in multiset(a) && f !in multiset(b);
  }

  lemma TiesAcrossFilesShow(key: Collation, files: seq<File>, directory: string, name: string, c: Candidate, d: Candidate)
    requires IndexOf(key, Files(files), directory).Indexed? && OneEach(files)
    requires c in Candidates(files, |files|) && d in Candidates(files, |files|) && c.buildInfoFile != d.buildInfoFile
    requires Normalize(c.contractName) == Normalize(name) == Normalize(d.contractName) && Tie(ByCandidate(key), c, d)
    ensures !OrderIsForgotten(key, files, directory, name)
  {
    CandidatesAreCompiled(files, |files|, c);
    CandidatesAreCompiled(files, |files|, d);
    var i :| 0 <= i < |files| && c in FileCandidates(files[i]);
    var j :| 0 <= j < |files| && d in FileCandidates(files[j]);
    TiedInHolds(key, c, Normalize(name), files[i], c);
    TiedInHolds(key, c, Normalize(name), files[j], d);
    FirstTie(key, c, files, i, Normalize(name));
    FirstTie(key, c, files, j, Normalize(name));
    ReadFirstPermutes(files, i);
    ReadFirstPermutes(files, j);
    IndexedInAnyOrder(key, files, ReadFirst(files, i), directory);
    IndexedInAnyOrder(key, files, ReadFirst(files, j), directory);
    AnswersAre(key, ReadFirst(files, i), directory, name);
    AnswersAre(key, ReadFirst(files, j), directory, name);
  }

  /**
   Reading the same files in another order changes no answer for a name exactly when no two of its
   candidates from different files tie in the host's collation.
   */
  lemma AnswersIgnoreFileOrderIff(key: Collation, files: seq<File>, directory: string, name: string)
    requires IndexOf(key, Files(files), directory).Indexed? && OneEach(files)
    ensures OrderIsForgotten(key, files, directory, name) <==>
            TellsFilesApart(key, Candidates(files, |files|), Normalize(name))
  {
    var cs := Candidates(files, |files|);
    if TellsFilesApart(key, cs, Normalize(name)) {
      AnswersAre(key, files, directory, name);
      forall again: seq<File> | multiset(again) == multiset(files)
        ensures CandidatesFor(IndexOf(key, Files(again), directory), name) == CandidatesFor(IndexOf(key, Files(files), directory), name)
      {
        IndexedInAnyOrder(key, files, again, directory);
        AnswersAre(key, again, directory, name);
        AnswerInAnyOrder(key, files, again, Normalize(name));
      }
    } else {
      var c, d :| c in cs && d in cs && Normalize(c.contractName) == Normalize(name) && Normalize(d.contractName) == Normalize(name)
                  && Tie(ByCandidate(key), c, d) && c.buildInfoFile != d.buildInfoFile;
      TiesAcrossFilesShow(key, files, directory, name, c, d);
    }
  }

  /**
   Two files of one compilation unit whose names a collation does not tell apart, as a composed and a
   decomposed letter are not: which of the two candidates comes first is which file was read first.
   */
  lemma TiedFileNamesSwap(key: Collation, x: string, y: string, directory: string)
    requires x != y && key(x) == key(y)
    ensures var (f, g) := (File(x, true, [Source("A.sol", ["A"])]), File(y, true, [Source("A.sol", ["A"])]));
            var (c, d) := (Candidate("A.sol", "A", x), Candidate("A.sol", "A", y));
            && CandidatesFor(IndexOf(key, Files([f, g]), directory), "A") == [c, d]
            && CandidatesFor(IndexOf(key, Files([g, f]), directory), "A") == [d, c]
  {
    TwoTiedFiles(key, x, y, directory);
    TwoTiedFiles(key, y, x, directory);
  }

  lemma OneContractFile(file: string)
    ensures FileCandidates(File(file, true, [Source("A.sol", ["A"])])) == [Candidate("A.sol", "A", file)]
  {
    var names := ["A"];
    var sources := [Source("A.sol", names)];
    assert NameCandidates(file, "A.sol", names, 1) == NameCandidates(file, "A.sol", names, 0) + [Candidate("A.sol", "A", file)];
    assert SourceCandidates(file, sources, 1) == SourceCandidates(file, sources, 0) + NameCandidates(file, "A.sol", names, 1);
  }

  lemma TwoCandidates(x: string, y: string)
    ensures Candidates([File(x, true, [Source("A.sol", ["A"])]), File(y, true, [Source("A.sol", ["A"])])], 2)
         == [Candidate("A.sol", "A", x), Candidate("A.sol", "A", y)]
  {
    var files := [File(x, true, [Source("A.sol", ["A"])]), File(y, true, [Source("A.sol", ["A"])])];
    OneContractFile(x);
    OneContractFile(y);
    assert Candidates(files, 1) == Candidates(files, 0) + [Candidate("A.sol", "A", x)];
  }

  lemma TwoAnswers(key: Collation, c: Candidate, d: Candidate)
    requires c.contractName == "A" == d.contractName && Tie(ByCandidate(key), c, d)
    ensures Answer(key, [c, d], "A") == [c, d]
  {
    PlainNamesStay("A");
    assert [c, d][..1] == [c] && [c][..0] == [];
    assert Named([c], "A") == [c] && Named([c, d], "A") == [c, d];
    assert Sort(ByCandidate(key), [c]) == [c];
  }

  lemma TwoTiedFiles(key: Collation, x: string, y: string, directory: string)
    requires key(x) == key(y)
    ensures CandidatesFor(IndexOf(key, Files([File(x, true, [Source("A.sol", ["A"])]), File(y, true, [Source("A.sol", ["A"])])]), directory), "A")
         == [Candidate("A.sol", "A", x), Candidate("A.sol", "A", y)]
  {
    var files := [File(x, true, [Source("A.sol", ["A"])]), File(y, true, [Source("A.sol", ["A"])])];
    TwoCandidates(x, y);
    TwoAnswers(key, Candidate("A.sol", "A", x), Candidate("A.sol", "A", y));
    PlainNamesStay("A");
    IndexedIff(key, Files(files), directory);
    AnswersAre(key, files, directory, "A");
  }

  // ---------- resolving a name ----------

  datatype Resolution =
    | Unique
    | AmbiguousName(candidates: seq<Candidate>)
    | Unverified(reason: Reason)
    | Unresolved

  /** The host's artifacts by name; an abstraction may carry its own source path. */
  datatype Lookup = NotThere | Abstraction(ownSource: Option<string>)

  type Host = string -> Lookup

  /** The intercept's `require`, which normalizes its argument too. */
  function Require(host: Host, input: string): Lookup { host(Normalize(input)) }

  /**
   `resolve`: the name is normalized, resolved through the host, and looked up; the intercept and the
   index each normalize what they are given once more.
   */
  function Resolved(index: Index, host: Host, name: string): Resolution {
    match Require(host, Normalize(name))
    case NotThere => Unresolved
    case Abstraction(ownSource) =>
      match index
      case Indeterminate(reason) => Unverified(reason)
      case Indexed(_, _, _) =>
        var cs := CandidatesFor(index, Normalize(name));
        if |cs| > 1 then AmbiguousName(cs)
        else if cs == [] && ownSource.None? then Unresolved
        else Unique
  }

  /** The name under which the host looks for the artifact. */
  function Asked(name: string): string { Normalize(Normalize(name)) }

  datatype Refusal = Missing | Collision(sources: set<string>)

  function Joined(c: Candidate): string { c.sourcePath + ":" + c.contractName }

  /** `requireProxyArtifact`. */
  function RequireProxyArtifact(r: Resolution): Result<(), Refusal> {
    match r
    case Unique => Ok(())
    case AmbiguousName(cs) =>
      if |set c <- cs :: Joined(c)| <= 1 then Ok(()) else Err(Collision(set c <- cs :: c.sourcePath))
    case Unverified(_) => Err(Missing)
    case Unresolved => Err(Missing)
  }

  /** All candidates are one contract of one source, however many files compiled it. */
  ghost predicate OneContract(cs: seq<Candidate>) {
    forall c, d | c in cs && d in cs :: c.sourcePath == d.sourcePath && c.contractName == d.contractName
  }

  /** Solidity identifiers have no colon. */
  ghost predicate Identifiers(cs: seq<Candidate>) {
    forall c <- cs :: ':' !in c.contractName
  }

  ghost predicate LastColon(s: string, p: int) {
    0 <= p < |s| && s[p] == ':' && forall i | p < i < |s| :: s[i] != ':'
  }

  lemma JoinSplits(c: Candidate)
    requires ':' !in c.contractName
    ensures var s := Joined(c);
            var p := |c.sourcePath|;
            LastColon(s, p) && s[..p] == c.sourcePath && s[p + 1..] == c.contractName
  {
    var s, p := Joined(c), |c.sourcePath|;
    assert forall i | p < i < |s| :: s[i] == c.contractName[i - p - 1];
  }

  lemma LastColonIsOne(s: string, p: int, q: int)
    requires LastColon(s, p) && LastColon(s, q)
    ensures p == q
  {
  }

  lemma JoinTellsApart(c: Candidate, d: Candidate)
    requires ':' !in c.contractName && ':' !in d.contractName
    ensures Joined(c) == Joined(d) <==> c.sourcePath == d.sourcePath && c.contractName == d.contractName
  {
    JoinSplits(c);
    JoinSplits(d);
    if Joined(c) == Joined(d) { LastColonIsOne(Joined(c), |c.sourcePath|, |d.sourcePath|); }
  }

  lemma AtMostOne<T>(s: set<T>)
    ensures |s| <= 1 <==> forall x, y | x in s && y in s :: x == y
  {
    if x :| x in s {
      assert |s - {x}| == |s| - 1;
      if |s| <= 1 {
        assert s - {x} == {};
        assert s == {x} + (s - {x});
      } else {
        assert s - {x} != {};
        var y :| y in s - {x};
      }
    }
  }

  lemma OneJoinIffOneContract(cs: seq<Candidate>)
    requires Identifiers(cs)
    ensures |set c <- cs :: Joined(c)| <= 1 <==> OneContract(cs)
  {
    var joins := set c <- cs :: Joined(c);
    AtMostOne(joins);
    forall c, d | c in cs && d in cs ensures Joined(c) in joins && Joined(d) in joins {}
    forall c, d | c in cs && d in cs
      ensures Joined(c) == Joined(d) <==> c.sourcePath == d.sourcePath && c.contractName == d.contractName
    {
      JoinTellsApart(c, d);
    }
  }

  /** A proxy artifact is handed out exactly when the host has one, the index is complete, and all that was compiled under the name is one contract. */
  lemma RequiredIff(index: Index, host: Host, name: string)
    requires Identifiers(CandidatesFor(index, Normalize(name)))
    ensures RequireProxyArtifact(Resolved(index, host, name)).Ok? <==>
            && host(Asked(name)).Abstraction? && index.Indexed?
            && OneContract(CandidatesFor(index, Normalize(name)))
            && (CandidatesFor(index, Normalize(name)) != [] || host(Asked(name)).ownSource.Some?)
  {
    var cs := CandidatesFor(index, Normalize(name));
    OneJoinIffOneContract(cs);
    if |cs| == 1 { assert OneContract(cs); }
  }

  /**
   For every name, however many suffixes it carries, the collision check looks at exactly the contracts
   compiled under the name the host is asked for; where those are identifiers, at exactly those so named.
   */
  lemma CheckCoversTheName(key: Collation, files: seq<File>, directory: string, name: string, c: Candidate)
    requires IndexOf(key, Files(files), directory).Indexed?
    ensures var cs := CandidatesFor(IndexOf(key, Files(files), directory), Normalize(name));
            && (c in cs <==> Normalize(c.contractName) == Asked(name) && Compiled(files, c))
            && ('.' !in c.contractName ==> (c in cs <==> c.contractName == Asked(name) && Compiled(files, c)))
  {
    IndexIsNaiveScan(key, files, directory, Normalize(name), c);
    if '.' !in c.contractName { PlainNamesStay(c.contractName); }
  }

  /** A name and its spellings with a leading `./` or a trailing `.sol` resolve alike. */
  lemma SpellingsResolveAlike(index: Index, host: Host, name: string)
    requires '.' !in name
    ensures Resolved(index, host, name + ".sol") == Resolved(index, host, name)
    ensures Resolved(index, host, "./" + name + ".sol") == Resolved(index, host, name)
  {
    SpellingsNormalize(name);
    PlainNamesStay(name);
  }

  lemma SpellingsNormalize(name: string)
    requires '.' !in name
    ensures Normalize(name + ".sol") == name && Normalize("./" + name + ".sol") == name
  {
    var (a, b) := (name + ".sol", "./" + name + ".sol");
    assert a[..|a| - 4] == name && b[2..] == a;
    assert StripDot(a) == a by { if |name| >= 1 { assert a[0] == name[0]; } else { assert a[1] == 's'; } }
    assert StripDot(b) == a;
  }

  /** The access over one index: built when first needed, then kept. */
  class ArtifactAccess {
    const key: Collation
    const directory: string
    var index: Option<Index>

    constructor (key: Collation, directory: string)
      ensures index.None? && this.key == key && this.directory == directory
    {
      this.key, this.directory, index := key, directory, None;
    }

    /** `getIndex`; `now` is what the build directory holds. */
    method GetIndex(now: Read) returns (r: Index)
      modifies this
      ensures r == if old(index).Some? then old(index).value else IndexOf(key, now, directory)
      ensures index == Some(r)
    {
      if index.None? {
        var built := BuildIndex(key, now, directory);
        index := Some(built);
      }
      r := index.value;
    }

    /** An unresolved name never costs an index. */
    method Resolve(host: Host, name: string, now: Read) returns (r: Resolution)
      modifies this
      ensures host(Asked(name)).NotThere? ==> r == Unresolved && index == old(index)
      ensures host(Asked(name)).Abstraction? ==> index.Some? && r == Resolved(index.value, host, name)
      ensures old(index).Some? ==> index == old(index)
      ensures index.Some? && old(index).None? ==> index.value == IndexOf(key, now, directory)
    {
      var outcome := Require(host, Normalize(name));
      if outcome.NotThere? { return Unresolved; }
      var i := GetIndex(now);
      if i.Indeterminate? { return Unverified(i.reason); }
      var cs := CandidatesFor(i, Normalize(name));
      if |cs| > 1 { return AmbiguousName(cs); }
      r := if cs == [] && outcome.ownSource.None? then Unresolved else Unique;
    }
  }
}
