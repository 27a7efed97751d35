/**
 The Hardhat plugin's manifest (`hardhat-tron-upgrades/src/utils/manifest.ts`): the address rewrite
 with its unlocked probe and locked re-read, and the merging record of an implementation, run by any
 number of processes at once.
 */
module HardhatManifest {
  import opened Wrappers
  import opened RecordMigration
  import Address

  /** `canon`: None when the checksummer throws; a text that is not 0x-hex is left alone. */
  type Canon = string -> Option<string>

  function CanonOf(lib: Address.Library): Canon {
    (s: string) =>
      if Address.PrefixedHex(s) && |s| == Address.TAIL + 2 then Address.Try(lib, s) else Some(s)
  }

  lemma TheCanonIsLawful(lib: Address.Library)
    ensures Lawful(CanonOf(lib))
  {
    forall s: string | CanonOf(lib)(s).Some? ensures CanonOf(lib)(CanonOf(lib)(s).value) == CanonOf(lib)(s) {
      if Address.PrefixedHex(s) && |s| == Address.TAIL + 2 { Address.MintIsCanonical(lib, s); }
    }
  }

  // ---------- the rewrite ----------

  predicate AllCanon(canon: Canon, s: seq<string>) {
    forall i | 0 <= i < |s| :: canon(s[i]).Some?
  }

  predicate SlotIsSound(canon: Canon, e: Slot) {
    e.impl.Some? ==>
      canon(e.impl.value.address).Some? && (e.impl.value.allAddresses.Some? ==> AllCanon(canon, e.impl.value.allAddresses.value))
  }

  /** No stored address makes the checksummer throw. */
  predicate Canonicalizable(canon: Canon, m: Manifest) {
    && (forall i | 0 <= i < |m.proxies| :: canon(m.proxies[i].address).Some?)
    && (forall i | 0 <= i < |m.impls| :: SlotIsSound(canon, m.impls[i]))
    && (m.admin.Some? ==> canon(m.admin.value.address).Some?)
  }

  predicate NeedsRewrite(canon: Canon, m: Manifest) {
    MigratedManifest(canon, m) != m
  }

  // ---------- recording ----------

  function SlotOf(impls: seq<Slot>, key: string): (k: Option<nat>)
    ensures k.Some? ==> k.value < |impls| && impls[k.value].key == key
    ensures k.None? <==> forall i | 0 <= i < |impls| :: impls[i].key != key
  {
    if impls == [] then None
    else if impls[|impls| - 1].key == key then Some(|impls| - 1)
    else SlotOf(impls[..|impls| - 1], key)
  }

  function Others(e: Impl): seq<string> {
    if e.allAddresses.None? then [] else e.allAddresses.value
  }

  /** `recordImpl` on a manifest that was read. */
  function Recorded(m: Manifest, key: string, address: string, rest: nat): Manifest {
    match SlotOf(m.impls, key)
    case None => m.(impls := m.impls + [Slot(key, Some(Impl(address, None, rest)))])
    case Some(k) =>
      var e := m.impls[k].impl;
      var now := if e.None? then Impl(address, None, rest)
                 else e.value.(allAddresses := Some(Distinct([e.value.address, address] + Others(e.value))));
      m.(impls := m.impls[k := Slot(key, Some(now))])
  }

  // ---------- what a manifest remembers ----------

  /** An address up to its spelling. */
  function Identity(canon: Canon, a: string): string { Migrated(canon, a) }

  ghost predicate Names(canon: Canon, e: Impl, id: string) {
    Identity(canon, e.address) == id || exists a <- Others(e) :: Identity(canon, a) == id
  }

  /** Some implementation with this identity is recorded under the version key. */
  ghost predicate Holds(canon: Canon, m: Manifest, key: string, id: string) {
    exists i :: 0 <= i < |m.impls| && m.impls[i].key == key && m.impls[i].impl.Some? && Names(canon, m.impls[i].impl.value, id)
  }

  ghost predicate KeysDistinct(m: Manifest) {
    forall i, j | 0 <= i < j < |m.impls| :: m.impls[i].key != m.impls[j].key
  }

  /** The identity of a key's primary address, and the layout and hash stored with it. */
  function Primary(canon: Canon, m: Manifest, key: string): Option<(string, nat)> {
    match SlotOf(m.impls, key)
    case None => None
    case Some(k) =>
      if m.impls[k].impl.None? then None
      else Some((Identity(canon, m.impls[k].impl.value.address), m.impls[k].impl.value.rest))
  }

  lemma NamesMigrated(canon: Canon, e: Impl, id: string)
    requires Lawful(canon)
    ensures Names(canon, MigratedImpl(canon, e), id) <==> Names(canon, e, id)
  {
    var now := MigratedImpl(canon, e);
    MigratedTwice(canon, e.address);
    var old_, new_ := Others(e), Others(now);
    forall i | 0 <= i < |old_| ensures Identity(canon, new_[i]) == Identity(canon, old_[i]) { MigratedTwice(canon, old_[i]); }
    if a :| a in old_ && Identity(canon, a) == id {
      var i :| 0 <= i < |old_| && old_[i] == a;
      assert new_[i] in new_;
    }
    if a :| a in new_ && Identity(canon, a) == id {
      var i :| 0 <= i < |new_| && new_[i] == a;
      assert old_[i] in old_;
    }
  }

  lemma {:induction false} SlotOfMigrated(canon: Canon, impls: seq<Slot>, key: string)
    ensures SlotOf(MigratedImpls(canon, impls), key) == SlotOf(impls, key)
  {
    if impls != [] {
      assert MigratedImpls(canon, impls)[..|impls| - 1] == MigratedImpls(canon, impls[..|impls| - 1]);
      SlotOfMigrated(canon, impls[..|impls| - 1], key);
    }
  }

  /** What every write keeps: keys stay distinct, nothing recorded is lost, and primaries stay. */
  ghost predicate Keeps(canon: Canon, m: Manifest, d: Manifest) {
    && (KeysDistinct(m) ==> KeysDistinct(d))
    && (forall key: string, id: string :: Holds(canon, m, key, id) ==> Holds(canon, d, key, id))
    && (forall key: string :: Primary(canon, m, key).Some? ==> Primary(canon, d, key) == Primary(canon, m, key))
  }

  lemma RewriteKeeps(canon: Canon, m: Manifest)
    requires Lawful(canon)
    ensures Keeps(canon, m, MigratedManifest(canon, m))
  {
    var d := MigratedManifest(canon, m);
    forall key: string, id: string | Holds(canon, m, key, id) ensures Holds(canon, d, key, id) {
      var i :| 0 <= i < |m.impls| && m.impls[i].key == key && m.impls[i].impl.Some? && Names(canon, m.impls[i].impl.value, id);
      NamesMigrated(canon, m.impls[i].impl.value, id);
      assert d.impls[i].key == key;
    }
    forall key: string | Primary(canon, m, key).Some? ensures Primary(canon, d, key) == Primary(canon, m, key) {
      SlotOfMigrated(canon, m.impls, key);
      MigratedTwice(canon, m.impls[SlotOf(m.impls, key).value].impl.value.address);
    }
  }

  lemma MergeNames(canon: Canon, e: Impl, address: string, id: string)
    ensures var now := e.(allAddresses := Some(Distinct([e.address, address] + Others(e))));
            && (Names(canon, e, id) ==> Names(canon, now, id))
            && Names(canon, now, Identity(canon, address))
  {
    var merged := Distinct([e.address, address] + Others(e));
    assert address in [e.address, address] + Others(e);
    if a :| a in Others(e) && Identity(canon, a) == id {
      assert a in merged;
    }
  }

  /** The other keys of a manifest keep their slots when one is written. */
  lemma OtherSlots(impls: seq<Slot>, k: nat, s: Slot, key: string)
    requires k < |impls| && impls[k].key == s.key && key != s.key
    ensures SlotOf(impls[k := s], key) == SlotOf(impls, key)
    decreases |impls|
  {
    var n := |impls| - 1;
    if k < n {
      assert impls[k := s][..n] == impls[..n][k := s];
      OtherSlots(impls[..n], k, s, key);
    } else {
      assert impls[k := s][..n] == impls[..n];
    }
  }

  lemma RecordAddsAndKeepsHeld(canon: Canon, m: Manifest, key: string, address: string, rest: nat)
    requires KeysDistinct(m)
    ensures var d := Recorded(m, key, address, rest);
            && KeysDistinct(d) && Holds(canon, d, key, Identity(canon, address))
            && forall k: string, id: string :: Holds(canon, m, k, id) ==> Holds(canon, d, k, id)
  {
    var d := Recorded(m, key, address, rest);
    var slot := SlotOf(m.impls, key);
    var at := if slot.None? then |m.impls| else slot.value;
    assert d.impls[at].key == key && d.impls[at].impl.Some?;
    if slot.Some? && m.impls[at].impl.Some? { MergeNames(canon, m.impls[at].impl.value, address, ""); }
    assert Names(canon, d.impls[at].impl.value, Identity(canon, address));
    forall k: string, id: string | Holds(canon, m, k, id) ensures Holds(canon, d, k, id) {
      var i :| 0 <= i < |m.impls| && m.impls[i].key == k && m.impls[i].impl.Some? && Names(canon, m.impls[i].impl.value, id);
      if slot.Some? && i == at { MergeNames(canon, m.impls[i].impl.value, address, id); }
      assert d.impls[i].key == k;
    }
  }

  lemma RecordKeepsPrimary(canon: Canon, m: Manifest, key: string, address: string, rest: nat, k: string)
    requires KeysDistinct(m) && Primary(canon, m, k).Some?
    ensures Primary(canon, Recorded(m, key, address, rest), k) == Primary(canon, m, k)
  {
    var d := Recorded(m, key, address, rest);
    match SlotOf(m.impls, key)
    case None =>
      assert d.impls[..|m.impls|] == m.impls;
    case Some(at) =>
      if k != key { OtherSlots(m.impls, at, d.impls[at], k); }
      else {
        var j := SlotOf(d.impls, key);
        assert d.impls[at].key == key;
        assert j.Some? && d.impls[j.value].key == key;
        assert j.value == at;
      }
  }

  lemma RecordKeeps(canon: Canon, m: Manifest, key: string, address: string, rest: nat)
    requires KeysDistinct(m)
    ensures Keeps(canon, m, Recorded(m, key, address, rest))
    ensures Holds(canon, Recorded(m, key, address, rest), key, Identity(canon, address))
  {
    RecordAddsAndKeepsHeld(canon, m, key, address, rest);
    forall k: string | Primary(canon, m, k).Some?
      ensures Primary(canon, Recorded(m, key, address, rest), k) == Primary(canon, m, k)
    {
      RecordKeepsPrimary(canon, m, key, address, rest, k);
    }
  }

  // ---------- processes ----------

  datatype Task = Canonicalize | Record(key: string, address: string, rest: nat)

  datatype Process =
    | Begun(task: Task)
    | Wants(task: Task)
    | Locked(task: Task)
    | Holding(task: Task, data: Manifest)
    | Finished(task: Task)
    | Failed(task: Task)

  /** `writes` logs who wrote, and what the file was before. */
  datatype State = State(file: Manifest, owner: Option<nat>, processes: seq<Process>, writes: seq<(Task, Manifest)>)

  datatype Event = Started(task: Task) | Moved(i: nat) | Died(i: nat)

  predicate Over(p: Process) { p.Finished? || p.Failed? }

  predicate InLock(p: Process) { p.Locked? || p.Holding? }

  predicate Enabled(s: State, e: Event) {
    match e
    case Started(_) => true
    case Moved(i) => i < |s.processes| && !Over(s.processes[i]) && (s.processes[i].Wants? ==> s.owner.None?)
    case Died(i) => i < |s.processes| && !Over(s.processes[i])
  }

  function Put(s: State, i: nat, p: Process): State
    requires i < |s.processes|
  {
    s.(processes := s.processes[i := p])
  }

  /** The last statement under the lock, and its release. */
  function Release(s: State, i: nat, p: Process): State
    requires i < |s.processes|
  {
    Put(s, i, p).(owner := None)
  }

  function Write(s: State, i: nat, task: Task, data: Manifest): State
    requires i < |s.processes|
  {
    Release(s, i, Finished(task)).(file := data, writes := s.writes + [(task, s.file)])
  }

  function Move(canon: Canon, s: State, i: nat): State
    requires Enabled(s, Moved(i))
  {
    match s.processes[i]
    case Begun(task) =>
      // The probe reads without the lock.
      if task.Record? then Put(s, i, Wants(task))
      else if !Canonicalizable(canon, s.file) then Put(s, i, Failed(task))
      else if NeedsRewrite(canon, s.file) then Put(s, i, Wants(task))
      else Put(s, i, Finished(task))
    case Wants(task) => Put(s, i, Locked(task)).(owner := Some(i))
    case Locked(task) => Put(s, i, Holding(task, s.file))
    case Holding(task, data) =>
      if task.Record? then Write(s, i, task, Recorded(data, task.key, task.address, task.rest))
      else if !Canonicalizable(canon, data) then Release(s, i, Failed(task))
      else if NeedsRewrite(canon, data) then Write(s, i, task, MigratedManifest(canon, data))
      else Release(s, i, Finished(task))
    case _ => s
  }

  function Apply(canon: Canon, s: State, e: Event): State
    requires Enabled(s, e)
  {
    match e
    case Started(task) => s.(processes := s.processes + [Begun(task)])
    case Moved(i) => Move(canon, s, i)
    case Died(i) =>
      var p := s.processes[i];
      Put(s, i, Failed(p.task)).(owner := if InLock(p) then None else s.owner)
  }

  function Run(canon: Canon, file: Manifest, events: seq<Event>): Option<State>
    decreases |events|
  {
    if events == [] then Some(State(file, None, [], []))
    else
      var before := Run(canon, file, events[..|events| - 1]);
      var e := events[|events| - 1];
      if before.Some? && Enabled(before.value, e) then Some(Apply(canon, before.value, e)) else None
  }

  ghost predicate ProcessOk(canon: Canon, s: State, i: nat)
    requires i < |s.processes|
  {
    var p := s.processes[i];
    && (InLock(p) <==> s.owner == Some(i))
    && (p.Holding? ==> p.data == s.file)
    && (p.Finished? && p.task.Record? ==> Holds(canon, s.file, p.task.key, Identity(canon, p.task.address)))
  }

  ghost predicate Inv(canon: Canon, file: Manifest, s: State) {
    && KeysDistinct(s.file)
    && Keeps(canon, file, s.file)
    && (s.owner.Some? ==> s.owner.value < |s.processes|)
    && (forall i | 0 <= i < |s.processes| :: ProcessOk(canon, s, i))
    && (forall w <- s.writes :: w.0.Canonicalize? ==> NeedsRewrite(canon, w.1))
  }

  lemma KeepsTransitive(canon: Canon, m: Manifest, d: Manifest, e: Manifest)
    requires Keeps(canon, m, d) && Keeps(canon, d, e)
    ensures Keeps(canon, m, e)
  {
  }

  /** What one move does to the file: nothing, or one of the two writes on exactly what is there. */
  lemma MoveWrites(canon: Canon, file: Manifest, s: State, i: nat)
    requires Lawful(canon) && Inv(canon, file, s) && Enabled(s, Moved(i))
    ensures var t := Move(canon, s, i);
            && Keeps(canon, s.file, t.file)
            && (t.file != s.file ==> s.owner == Some(i) && t.owner.None?)
            && (t.processes[i].Finished? && t.processes[i].task.Record? ==>
                  Holds(canon, t.file, t.processes[i].task.key, Identity(canon, t.processes[i].task.address)))
            && (t.writes == s.writes ||
                (t.writes == s.writes + [(s.processes[i].task, s.file)] &&
                 (s.processes[i].task.Canonicalize? ==> NeedsRewrite(canon, s.file))))
  {
    assert ProcessOk(canon, s, i);
    var p := s.processes[i];
    if p.Holding? {
      if p.task.Record? { RecordKeeps(canon, s.file, p.task.key, p.task.address, p.task.rest); }
      else { RewriteKeeps(canon, s.file); }
    }
  }

  lemma MoveKeepsInv(canon: Canon, file: Manifest, s: State, i: nat)
    requires Lawful(canon) && Inv(canon, file, s) && Enabled(s, Moved(i))
    ensures Inv(canon, file, Move(canon, s, i))
  {
    var t := Move(canon, s, i);
    MoveWrites(canon, file, s, i);
    KeepsTransitive(canon, file, s.file, t.file);
    assert ProcessOk(canon, s, i);
    forall k | 0 <= k < |t.processes| ensures ProcessOk(canon, t, k) {
      assert ProcessOk(canon, s, k);
    }
  }

  lemma {:induction false} RunKeepsInv(canon: Canon, file: Manifest, events: seq<Event>)
    requires Lawful(canon) && KeysDistinct(file) && Run(canon, file, events).Some?
    ensures Inv(canon, file, Run(canon, file, events).value)
    decreases |events|
  {
    if events != [] {
      var e := events[|events| - 1];
      RunKeepsInv(canon, file, events[..|events| - 1]);
      var s := Run(canon, file, events[..|events| - 1]).value;
      var t := Apply(canon, s, e);
      match e {
        case Started(_) =>
          forall k | 0 <= k < |t.processes| ensures ProcessOk(canon, t, k) { if k < |s.processes| { assert ProcessOk(canon, s, k); } }
        case Moved(i) => MoveKeepsInv(canon, file, s, i);
        case Died(i) =>
          assert ProcessOk(canon, s, i);
          forall k | 0 <= k < |t.processes| ensures ProcessOk(canon, t, k) { assert ProcessOk(canon, s, k); }
      }
    }
  }

  /**
   Under any interleaving of rewrites and records, each process dying anywhere, no recorded
   implementation is lost and every key keeps its primary identity and layout.
   */
  lemma NothingIsLost(canon: Canon, file: Manifest, events: seq<Event>, key: string, id: string)
    requires Lawful(canon) && KeysDistinct(file) && Run(canon, file, events).Some?
    ensures var now := Run(canon, file, events).value.file;
            && (Holds(canon, file, key, id) ==> Holds(canon, now, key, id))
            && (Primary(canon, file, key).Some? ==> Primary(canon, now, key) == Primary(canon, file, key))
  {
    RunKeepsInv(canon, file, events);
  }

  /** A record that finished is in the file from then on. */
  lemma FinishedRecordsAreHeld(canon: Canon, file: Manifest, events: seq<Event>, i: nat)
    requires Lawful(canon) && KeysDistinct(file) && Run(canon, file, events).Some?
    requires i < |Run(canon, file, events).value.processes|
    requires var p := Run(canon, file, events).value.processes[i]; p.Finished? && p.task.Record?
    ensures var s := Run(canon, file, events).value;
            Holds(canon, s.file, s.processes[i].task.key, Identity(canon, s.processes[i].task.address))
  {
    RunKeepsInv(canon, file, events);
    assert ProcessOk(canon, Run(canon, file, events).value, i);
  }

  /** The rewrite writes only a file that was not canonical when it held the lock. */
  lemma CanonicalFilesAreNotRewritten(canon: Canon, file: Manifest, events: seq<Event>, k: nat)
    requires Lawful(canon) && KeysDistinct(file) && Run(canon, file, events).Some?
    requires k < |Run(canon, file, events).value.writes| && Run(canon, file, events).value.writes[k].0.Canonicalize?
    ensures NeedsRewrite(canon, Run(canon, file, events).value.writes[k].1)
  {
    RunKeepsInv(canon, file, events);
    var w := Run(canon, file, events).value.writes;
    assert w[k] in w;
  }

  // ---------- once rewritten, canonical ----------

  predicate AllFixed(canon: Canon, s: seq<string>) {
    forall i | 0 <= i < |s| :: canon(s[i]) == Some(s[i])
  }

  predicate ImplIsFixed(canon: Canon, e: Impl) {
    canon(e.address) == Some(e.address) && AllFixed(canon, Others(e))
  }

  predicate SlotIsFixed(canon: Canon, e: Slot) {
    e.impl.Some? ==> ImplIsFixed(canon, e.impl.value)
  }

  /** Every stored address is spelled as the checksummer spells it, so an exact match finds it. */
  predicate IsCanonical(canon: Canon, m: Manifest) {
    && (forall i | 0 <= i < |m.proxies| :: canon(m.proxies[i].address) == Some(m.proxies[i].address))
    && (forall i | 0 <= i < |m.impls| :: SlotIsFixed(canon, m.impls[i]))
    && (m.admin.Some? ==> canon(m.admin.value.address) == Some(m.admin.value.address))
  }

  lemma SlotMigratesFixed(canon: Canon, e: Slot)
    requires Lawful(canon) && SlotIsSound(canon, e)
    ensures SlotIsFixed(canon, MigratedEntry(canon, e))
    ensures MigratedEntry(canon, e) == e ==> SlotIsFixed(canon, e)
  {
    if e.impl.Some? && e.impl.value.allAddresses.Some? {
      var all := e.impl.value.allAddresses.value;
      assert forall i | 0 <= i < |all| :: canon(all[i]).Some?;
    }
  }

  /** What the rewrite leaves is canonical, and what it does not rewrite was. */
  lemma RewriteCanonicalizes(canon: Canon, m: Manifest)
    requires Lawful(canon) && Canonicalizable(canon, m)
    ensures IsCanonical(canon, MigratedManifest(canon, m))
    ensures !NeedsRewrite(canon, m) ==> IsCanonical(canon, m)
  {
    var d := MigratedManifest(canon, m);
    forall i | 0 <= i < |d.impls| ensures SlotIsFixed(canon, d.impls[i]) { SlotMigratesFixed(canon, m.impls[i]); }
    forall i | 0 <= i < |d.proxies| ensures canon(d.proxies[i].address) == Some(d.proxies[i].address) {
      assert canon(m.proxies[i].address).Some?;
    }
  }

  /** Recording a canonical address keeps a canonical manifest canonical. */
  lemma RecordStaysCanonical(canon: Canon, m: Manifest, key: string, address: string, rest: nat)
    requires IsCanonical(canon, m) && canon(address) == Some(address)
    ensures IsCanonical(canon, Recorded(m, key, address, rest))
  {
    var d := Recorded(m, key, address, rest);
    match SlotOf(m.impls, key)
    case None =>
    case Some(k) =>
      assert SlotIsFixed(canon, m.impls[k]);
      if m.impls[k].impl.Some? {
        var e := m.impls[k].impl.value;
        var list := [e.address, address] + Others(e);
        var merged := Distinct(list);
        forall i | 0 <= i < |merged| ensures canon(merged[i]) == Some(merged[i]) {
          assert merged[i] in merged && merged[i] in list;
        }
      }
  }

  /** Once some rewrite has finished, the file is canonical. */
  ghost predicate CanonicalOnceRewritten(canon: Canon, s: State) {
    (exists p <- s.processes :: p.Finished? && p.task.Canonicalize?) ==> IsCanonical(canon, s.file)
  }

  ghost predicate RecordsCanonical(canon: Canon, t: Task) {
    t.Record? ==> canon(t.address) == Some(t.address)
  }

  lemma MoveStaysCanonical(canon: Canon, file: Manifest, s: State, i: nat)
    requires Lawful(canon) && Inv(canon, file, s) && Enabled(s, Moved(i))
    requires CanonicalOnceRewritten(canon, s) && RecordsCanonical(canon, s.processes[i].task)
    ensures CanonicalOnceRewritten(canon, Move(canon, s, i))
  {
    var t := Move(canon, s, i);
    assert ProcessOk(canon, s, i);
    var p := s.processes[i];
    if p.task.Canonicalize? {
      if Canonicalizable(canon, s.file) { RewriteCanonicalizes(canon, s.file); }
      if p.Holding? || p.Begun? { assert t.processes[i].Finished? ==> IsCanonical(canon, t.file); }
    } else if IsCanonical(canon, s.file) {
      RecordStaysCanonical(canon, s.file, p.task.key, p.task.address, p.task.rest);
    }
    if IsCanonical(canon, s.file) { CanonicalManifestMigratesToItself(canon, s.file); }
    forall q <- t.processes | q.Finished? && q.task.Canonicalize? ensures IsCanonical(canon, t.file) {
      var k :| 0 <= k < |t.processes| && t.processes[k] == q;
      if k != i { assert s.processes[k] in s.processes; }
    }
  }

  lemma CanonicalManifestMigratesToItself(canon: Canon, m: Manifest)
    requires IsCanonical(canon, m)
    ensures MigratedManifest(canon, m) == m
  {
    var d := MigratedManifest(canon, m);
    forall i | 0 <= i < |m.impls| ensures d.impls[i] == m.impls[i] {
      assert SlotIsFixed(canon, m.impls[i]);
      if m.impls[i].impl.Some? && m.impls[i].impl.value.allAddresses.Some? {
        var all := m.impls[i].impl.value.allAddresses.value;
        assert MigratedAll(canon, all) == all;
      }
    }
    assert d.impls == m.impls;
    assert d.proxies == m.proxies;
  }

  /**
   Under any interleaving: from the moment any rewrite finishes, whether it wrote or only probed, every
   address in the file is in its canonical spelling, and stays so, if what is recorded is.
   */
  lemma {:induction false} RewrittenFilesStayCanonical(canon: Canon, file: Manifest, events: seq<Event>)
    requires Lawful(canon) && KeysDistinct(file) && Run(canon, file, events).Some?
    requires forall e <- events :: e.Started? ==> RecordsCanonical(canon, e.task)
    ensures var s := Run(canon, file, events).value;
            && CanonicalOnceRewritten(canon, s)
            && forall p <- s.processes :: RecordsCanonical(canon, p.task)
    decreases |events|
  {
    if events != [] {
      var n := |events| - 1;
      var e := events[n];
      assert e in events;
      RewrittenFilesStayCanonical(canon, file, events[..n]);
      RunKeepsInv(canon, file, events[..n]);
      var s := Run(canon, file, events[..n]).value;
      match e {
        case Started(_) =>
        case Moved(i) => MoveStaysCanonical(canon, file, s, i);
        case Died(i) =>
      }
      var t := Apply(canon, s, e);
      forall p <- t.processes ensures RecordsCanonical(canon, p.task) {
        var k :| 0 <= k < |t.processes| && t.processes[k] == p;
        if k < |s.processes| { assert s.processes[k] in s.processes; }
      }
    }
  }

  /**
   For the real checksummer: under any interleaving nothing recorded is lost, every key keeps its primary,
   and from the first finished rewrite on every address is checksummed, if what is recorded is.
   */
  lemma ChecksummedManifests(lib: Address.Library, file: Manifest, events: seq<Event>, key: string, id: string)
    requires KeysDistinct(file) && Run(CanonOf(lib), file, events).Some?
    ensures var now := Run(CanonOf(lib), file, events).value.file;
            && (Holds(CanonOf(lib), file, key, id) ==> Holds(CanonOf(lib), now, key, id))
            && (Primary(CanonOf(lib), file, key).Some? ==> Primary(CanonOf(lib), now, key) == Primary(CanonOf(lib), file, key))
    ensures (forall e <- events :: e.Started? ==> RecordsCanonical(CanonOf(lib), e.task)) ==>
              CanonicalOnceRewritten(CanonOf(lib), Run(CanonOf(lib), file, events).value)
  {
    TheCanonIsLawful(lib);
    NothingIsLost(CanonOf(lib), file, events, key, id);
    if forall e <- events :: e.Started? ==> RecordsCanonical(CanonOf(lib), e.task) {
      RewrittenFilesStayCanonical(CanonOf(lib), file, events);
    }
  }

  // ---------- the rewrite, in place ----------

  /** An entry of the parsed document; one without `allAddresses` has an empty array. */
  class Entry {
    var address: string
    const all: array<string>

    constructor (address: string, all: array<string>)
      ensures this.address == address && this.all == all
    {
      this.address := address;
      this.all := all;
    }

    ghost function Value(): (string, seq<string>)
      reads this, all
    {
      (address, all[..])
    }
  }

  ghost function MigratedValue(canon: Canon, v: (string, seq<string>)): (string, seq<string>) {
    (Migrated(canon, v.0), MigratedAll(canon, v.1))
  }

  ghost predicate SoundValue(canon: Canon, v: (string, seq<string>)) {
    canon(v.0).Some? && AllCanon(canon, v.1)
  }

  /** None when the checksummer threw half way, otherwise whether anything changed. */
  method FixAll(canon: Canon, all: array<string>) returns (changed: Option<bool>)
    modifies all
    ensures changed.Some? <==> AllCanon(canon, old(all[..]))
    ensures changed.Some? ==> all[..] == MigratedAll(canon, old(all[..]))
    ensures changed.Some? ==> (changed.value <==> all[..] != old(all[..]))
  {
    var any := false;
    for i := 0 to all.Length
      invariant forall k | 0 <= k < i :: canon(old(all[k])).Some? && all[k] == Migrated(canon, old(all[k]))
      invariant forall k | i <= k < all.Length :: all[k] == old(all[k])
      invariant any <==> exists k :: 0 <= k < i && all[k] != old(all[k])
    {
      var canonical := canon(all[i]);
      if canonical.None? {
        assert canon(old(all[..])[i]).None?;
        return None;
      }
      if canonical.value != all[i] {
        all[i] := canonical.value;
        any := true;
      }
    }
    assert AllCanon(canon, old(all[..]));
    assert all[..] == MigratedAll(canon, old(all[..]));
    assert all[..] != old(all[..]) <==> exists k :: 0 <= k < all.Length && all[k] != old(all[k]) by {
      if forall k | 0 <= k < all.Length :: all[k] == old(all[k]) { assert all[..] == old(all[..]); }
      if k :| 0 <= k < all.Length && all[k] != old(all[k]) { assert all[..][k] != old(all[..])[k]; }
    }
    changed := Some(any);
  }

  method FixEntry(canon: Canon, e: Entry) returns (changed: Option<bool>)
    modifies e, e.all
    ensures changed.Some? <==> SoundValue(canon, old(e.Value()))
    ensures changed.Some? ==> e.Value() == MigratedValue(canon, old(e.Value()))
    ensures changed.Some? ==> (changed.value <==> e.Value() != old(e.Value()))
  {
    var canonical := canon(e.address);
    if canonical.None? { return None; }
    var any := canonical.value != e.address;
    e.address := canonical.value;
    var others := FixAll(canon, e.all);
    changed := if others.None? then None else Some(any || others.value);
  }

  /** Parsing shares nothing between entries. */
  ghost predicate Unshared(entries: seq<Entry>) {
    forall i, j | 0 <= i < j < |entries| :: entries[i] != entries[j] && entries[i].all != entries[j].all
  }

  /**
   `rewrite` over the proxies, the implementations and the admin of one parsed document: it throws
   exactly when some address does, and otherwise every entry is migrated and the answer says whether
   any changed.
   */
  method RewriteInPlace(canon: Canon, entries: seq<Entry>) returns (changed: Option<bool>)
    requires Unshared(entries)
    modifies entries, set e | e in entries :: e.all
    ensures changed.Some? <==> forall e <- entries :: SoundValue(canon, old(e.Value()))
    ensures changed.Some? ==> forall e <- entries :: e.Value() == MigratedValue(canon, old(e.Value()))
    ensures changed.Some? ==> (changed.value <==> exists e <- entries :: e.Value() != old(e.Value()))
  {
    var any := false;
    for i := 0 to |entries|
      invariant forall k | 0 <= k < i :: SoundValue(canon, old(entries[k].Value()))
      invariant forall k | 0 <= k < i :: entries[k].Value() == MigratedValue(canon, old(entries[k].Value()))
      invariant forall k | i <= k < |entries| :: entries[k].Value() == old(entries[k].Value())
      invariant any <==> exists k :: 0 <= k < i && entries[k].Value() != old(entries[k].Value())
    {
      assert entries[i] in entries;
      label before:
      var one := FixEntry(canon, entries[i]);
      assert forall k | 0 <= k < |entries| && k != i :: entries[k].Value() == old@before(entries[k].Value());
      if one.None? { return None; }
      any := any || one.value;
    }
    changed := Some(any);
  }
}
