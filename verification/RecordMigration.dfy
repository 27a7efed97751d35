/**
 The load-time migration of stored addresses (`record/manifest.ts:198-241`), and the lookups the
 engine then makes by exact string equality.
 */
module RecordMigration {
  import opened Wrappers
  import Address

  /** `tryCanonicalizeAddress`, as the migration uses it. */
  type Mint = string -> Option<string>

  /** What a mint answers, it answers again. */
  ghost predicate Lawful(mint: Mint) {
    forall s: string :: mint(s).Some? ==> mint(mint(s).value) == mint(s)
  }

  /** The mint of the record layer is one. */
  lemma TheMintIsLawful(lib: Address.Library)
    ensures Lawful((s: string) => Address.Try(lib, s))
    ensures forall a: string :: Address.IsCanonical(lib, a) <==> Address.Try(lib, a) == Some(a)
  {
    forall s: string ensures Address.Try(lib, s).Some? ==> Address.Try(lib, Address.Try(lib, s).value) == Address.Try(lib, s) {
      if Address.Try(lib, s).Some? { Address.MintIsCanonical(lib, s); }
    }
    forall a: string ensures Address.IsCanonical(lib, a) <==> Address.Try(lib, a) == Some(a) {
      Address.CanonicalIffFixed(lib, a);
    }
  }

  /** `rest` stands for every other field of an entry. */
  datatype Impl = Impl(address: string, allAddresses: Option<seq<string>>, rest: nat)

  /** One key of the implementations object; a key may hold nothing. */
  datatype Slot = Slot(key: string, impl: Option<Impl>)

  datatype Proxy = Proxy(address: string, rest: nat)

  /** `impls` in key order. */
  datatype Manifest = Manifest(
    impls: seq<Slot>,
    proxies: seq<Proxy>,
    admin: Option<Proxy>,
    rest: nat)

  function RecordCount(m: Manifest): nat {
    |m.proxies| + |m.impls| + if m.admin.None? then 0 else 1
  }

  /** One stored address. */
  function Migrated(mint: Mint, s: string): string {
    match mint(s) case Some(a) => a case None => s
  }

  function MigratedAll(mint: Mint, s: seq<string>): (r: seq<string>)
    ensures |r| == |s| && forall i | 0 <= i < |s| :: r[i] == Migrated(mint, s[i])
  {
    seq(|s|, i requires 0 <= i < |s| => Migrated(mint, s[i]))
  }

  function MigratedImpl(mint: Mint, e: Impl): Impl {
    Impl(Migrated(mint, e.address),
         if e.allAddresses.None? then None else Some(MigratedAll(mint, e.allAddresses.value)),
         e.rest)
  }

  function MigratedEntry(mint: Mint, e: Slot): Slot {
    Slot(e.key, if e.impl.None? then None else Some(MigratedImpl(mint, e.impl.value)))
  }

  function MigratedProxy(mint: Mint, p: Proxy): Proxy {
    p.(address := Migrated(mint, p.address))
  }

  function MigratedImpls(mint: Mint, s: seq<Slot>): (r: seq<Slot>)
    ensures |r| == |s| && forall i | 0 <= i < |s| :: r[i] == MigratedEntry(mint, s[i])
  {
    seq(|s|, i requires 0 <= i < |s| => MigratedEntry(mint, s[i]))
  }

  function MigratedProxies(mint: Mint, s: seq<Proxy>): (r: seq<Proxy>)
    ensures |r| == |s| && forall i | 0 <= i < |s| :: r[i] == MigratedProxy(mint, s[i])
  {
    seq(|s|, i requires 0 <= i < |s| => MigratedProxy(mint, s[i]))
  }

  function MigratedManifest(mint: Mint, m: Manifest): Manifest {
    Manifest(MigratedImpls(mint, m.impls), MigratedProxies(mint, m.proxies),
             if m.admin.None? then None else Some(MigratedProxy(mint, m.admin.value)), m.rest)
  }

  // ---------- counting ----------

  type Weigh = string -> nat

  /** 1 for a stored string the migration changes. */
  function Changed(mint: Mint): Weigh {
    (s: string) => if Migrated(mint, s) != s then 1 else 0
  }

  /** 1 for a stored string that names no identity, and is left alone. */
  function Stuck(mint: Mint): Weigh {
    (s: string) => if mint(s).None? then 1 else 0
  }

  /** The weight of the first `n` strings. */
  function ListWeight(f: Weigh, s: seq<string>, n: nat): nat
    requires n <= |s|
  {
    if n == 0 then 0 else ListWeight(f, s, n - 1) + f(s[n - 1])
  }

  function SlotWeight(f: Weigh, e: Slot): nat {
    if e.impl.None? then 0
    else
      var all := e.impl.value.allAddresses;
      f(e.impl.value.address) + if all.None? then 0 else ListWeight(f, all.value, |all.value|)
  }

  function ImplWeight(f: Weigh, s: seq<Slot>, n: nat): nat
    requires n <= |s|
  {
    if n == 0 then 0 else ImplWeight(f, s, n - 1) + SlotWeight(f, s[n - 1])
  }

  function ProxyWeight(f: Weigh, s: seq<Proxy>, n: nat): nat
    requires n <= |s|
  {
    if n == 0 then 0 else ProxyWeight(f, s, n - 1) + f(s[n - 1].address)
  }

  /** Over every stored address of the manifest. */
  function Weight(f: Weigh, m: Manifest): nat {
    ImplWeight(f, m.impls, |m.impls|) + ProxyWeight(f, m.proxies, |m.proxies|)
    + if m.admin.None? then 0 else f(m.admin.value.address)
  }

  // ---------- the migration itself ----------

  /** The two counters and the closure that bumps them. */
  class Migration {
    const mint: Mint
    var rewritten: nat
    var unmigratable: nat

    constructor (mint: Mint)
      ensures this.mint == mint && rewritten == 0 && unmigratable == 0
    {
      this.mint := mint;
      rewritten, unmigratable := 0, 0;
    }

    method Migrate(value: string) returns (r: string)
      modifies this
      ensures r == Migrated(mint, value)
      ensures rewritten == old(rewritten) + Changed(mint)(value)
      ensures unmigratable == old(unmigratable) + Stuck(mint)(value)
    {
      var canonical := mint(value);
      if canonical.None? {
        unmigratable := unmigratable + 1;
        return value;
      }
      if canonical.value != value {
        rewritten := rewritten + 1;
      }
      r := canonical.value;
    }

    method MigrateAll(values: seq<string>) returns (r: seq<string>)
      modifies this
      ensures r == MigratedAll(mint, values)
      ensures rewritten == old(rewritten) + ListWeight(Changed(mint), values, |values|)
      ensures unmigratable == old(unmigratable) + ListWeight(Stuck(mint), values, |values|)
    {
      r := [];
      for i := 0 to |values|
        invariant |r| == i && forall k | 0 <= k < i :: r[k] == Migrated(mint, values[k])
        invariant rewritten == old(rewritten) + ListWeight(Changed(mint), values, i)
        invariant unmigratable == old(unmigratable) + ListWeight(Stuck(mint), values, i)
      {
        var one := Migrate(values[i]);
        r := r + [one];
      }
    }

    method MigrateSlot(e: Slot) returns (r: Slot)
      modifies this
      ensures r == MigratedEntry(mint, e)
      ensures rewritten == old(rewritten) + SlotWeight(Changed(mint), e)
      ensures unmigratable == old(unmigratable) + SlotWeight(Stuck(mint), e)
    {
      if e.impl.None? { return e; }
      var impl := e.impl.value;
      var address := Migrate(impl.address);
      if impl.allAddresses.None? {
        r := e.(impl := Some(impl.(address := address)));
      } else {
        var all := MigrateAll(impl.allAddresses.value);
        r := e.(impl := Some(impl.(address := address, allAddresses := Some(all))));
      }
    }

    method MigrateImpls(impls: seq<Slot>) returns (r: seq<Slot>)
      modifies this
      ensures r == MigratedImpls(mint, impls)
      ensures rewritten == old(rewritten) + ImplWeight(Changed(mint), impls, |impls|)
      ensures unmigratable == old(unmigratable) + ImplWeight(Stuck(mint), impls, |impls|)
    {
      r := [];
      for i := 0 to |impls|
        invariant |r| == i && forall k | 0 <= k < i :: r[k] == MigratedEntry(mint, impls[k])
        invariant rewritten == old(rewritten) + ImplWeight(Changed(mint), impls, i)
        invariant unmigratable == old(unmigratable) + ImplWeight(Stuck(mint), impls, i)
      {
        var one := MigrateSlot(impls[i]);
        r := r + [one];
      }
    }

    method MigrateProxies(proxies: seq<Proxy>) returns (r: seq<Proxy>)
      modifies this
      ensures r == MigratedProxies(mint, proxies)
      ensures rewritten == old(rewritten) + ProxyWeight(Changed(mint), proxies, |proxies|)
      ensures unmigratable == old(unmigratable) + ProxyWeight(Stuck(mint), proxies, |proxies|)
    {
      r := [];
      for i := 0 to |proxies|
        invariant |r| == i && forall k | 0 <= k < i :: r[k] == MigratedProxy(mint, proxies[k])
        invariant rewritten == old(rewritten) + ProxyWeight(Changed(mint), proxies, i)
        invariant unmigratable == old(unmigratable) + ProxyWeight(Stuck(mint), proxies, i)
      {
        var address := Migrate(proxies[i].address);
        r := r + [proxies[i].(address := address)];
      }
    }
  }

  /** `canonicalizeStoredAddresses`. */
  method CanonicalizeStoredAddresses(mint: Mint, m: Manifest) returns (data: Manifest, rewritten: nat, unmigratable: nat)
    ensures data == MigratedManifest(mint, m)
    ensures rewritten == Weight(Changed(mint), m) && unmigratable == Weight(Stuck(mint), m)
  {
    var pass := new Migration(mint);
    var impls := pass.MigrateImpls(m.impls);
    var proxies := pass.MigrateProxies(m.proxies);
    data := m.(impls := impls, proxies := proxies);
    if m.admin.Some? {
      var address := pass.Migrate(m.admin.value.address);
      data := data.(admin := Some(m.admin.value.(address := address)));
    }
    rewritten, unmigratable := pass.rewritten, pass.unmigratable;
  }

  // ---------- what it promises ----------

  lemma MigratedTwice(mint: Mint, s: string)
    requires Lawful(mint)
    ensures Migrated(mint, Migrated(mint, s)) == Migrated(mint, s)
    ensures mint(Migrated(mint, s)) == mint(s)
  {
  }

  lemma {:induction false} ListUnchanged(mint: Mint, s: seq<string>, n: nat)
    requires n <= |s|
    ensures ListWeight(Changed(mint), s, n) == 0 <==> forall i | 0 <= i < n :: Migrated(mint, s[i]) == s[i]
  {
    if n > 0 { ListUnchanged(mint, s, n - 1); }
  }

  lemma SlotUnchanged(mint: Mint, e: Slot)
    ensures SlotWeight(Changed(mint), e) == 0 <==> MigratedEntry(mint, e) == e
  {
    if e.impl.Some? && e.impl.value.allAddresses.Some? {
      var all := e.impl.value.allAddresses.value;
      ListUnchanged(mint, all, |all|);
      assert MigratedAll(mint, all) == all <==> forall i | 0 <= i < |all| :: Migrated(mint, all[i]) == all[i];
    }
  }

  lemma {:induction false} ImplsUnchanged(mint: Mint, s: seq<Slot>, n: nat)
    requires n <= |s|
    ensures ImplWeight(Changed(mint), s, n) == 0 <==> forall i | 0 <= i < n :: MigratedEntry(mint, s[i]) == s[i]
  {
    if n > 0 {
      ImplsUnchanged(mint, s, n - 1);
      SlotUnchanged(mint, s[n - 1]);
    }
  }

  lemma {:induction false} ProxiesUnchanged(mint: Mint, s: seq<Proxy>, n: nat)
    requires n <= |s|
    ensures ProxyWeight(Changed(mint), s, n) == 0 <==> forall i | 0 <= i < n :: MigratedProxy(mint, s[i]) == s[i]
  {
    if n > 0 { ProxiesUnchanged(mint, s, n - 1); }
  }

  /** Zero rewrites means exactly that the data is unchanged. */
  lemma ZeroIffUnchanged(mint: Mint, m: Manifest)
    ensures Weight(Changed(mint), m) == 0 <==> MigratedManifest(mint, m) == m
  {
    var d := MigratedManifest(mint, m);
    ImplsUnchanged(mint, m.impls, |m.impls|);
    ProxiesUnchanged(mint, m.proxies, |m.proxies|);
    assert d.impls == m.impls <==> forall i | 0 <= i < |m.impls| :: MigratedEntry(mint, m.impls[i]) == m.impls[i];
    assert d.proxies == m.proxies <==> forall i | 0 <= i < |m.proxies| :: MigratedProxy(mint, m.proxies[i]) == m.proxies[i];
  }

  lemma SlotTwice(mint: Mint, e: Slot)
    requires Lawful(mint)
    ensures MigratedEntry(mint, MigratedEntry(mint, e)) == MigratedEntry(mint, e)
  {
    if e.impl.Some? {
      MigratedTwice(mint, e.impl.value.address);
      if e.impl.value.allAddresses.Some? {
        var all := e.impl.value.allAddresses.value;
        forall i | 0 <= i < |all| ensures Migrated(mint, Migrated(mint, all[i])) == Migrated(mint, all[i]) {
          MigratedTwice(mint, all[i]);
        }
        assert MigratedAll(mint, MigratedAll(mint, all)) == MigratedAll(mint, all);
      }
    }
  }

  /** A second pass rewrites nothing. */
  lemma SecondPassIsSilent(mint: Mint, m: Manifest)
    requires Lawful(mint)
    ensures MigratedManifest(mint, MigratedManifest(mint, m)) == MigratedManifest(mint, m)
    ensures Weight(Changed(mint), MigratedManifest(mint, m)) == 0
  {
    var d := MigratedManifest(mint, m);
    forall i | 0 <= i < |m.impls| ensures MigratedEntry(mint, d.impls[i]) == d.impls[i] { SlotTwice(mint, m.impls[i]); }
    forall i | 0 <= i < |m.proxies| ensures MigratedProxy(mint, d.proxies[i]) == d.proxies[i] {
      MigratedTwice(mint, m.proxies[i].address);
    }
    if m.admin.Some? { MigratedTwice(mint, m.admin.value.address); }
    assert MigratedImpls(mint, d.impls) == d.impls;
    assert MigratedProxies(mint, d.proxies) == d.proxies;
    ZeroIffUnchanged(mint, d);
  }

  /** Entry order, keys, counts and every other field survive. */
  lemma OnlyAddressesChange(mint: Mint, m: Manifest)
    ensures var d := MigratedManifest(mint, m);
            && RecordCount(d) == RecordCount(m) && d.rest == m.rest && d.admin.Some? == m.admin.Some?
            && |d.impls| == |m.impls| && |d.proxies| == |m.proxies|
            && (forall i | 0 <= i < |m.proxies| :: d.proxies[i].rest == m.proxies[i].rest)
            && (forall i | 0 <= i < |m.impls| ::
                  && d.impls[i].key == m.impls[i].key && d.impls[i].impl.Some? == m.impls[i].impl.Some?
                  && (m.impls[i].impl.Some? ==>
                        && d.impls[i].impl.value.rest == m.impls[i].impl.value.rest
                        && d.impls[i].impl.value.allAddresses.Some? == m.impls[i].impl.value.allAddresses.Some?))
  {
  }

  // ---------- lookups ----------

  /** The engine's lookup of a proxy: the first whose address is that exact string. */
  function FindProxy(proxies: seq<Proxy>, a: string): Option<nat> {
    if proxies == [] then None
    else if proxies[0].address == a then Some(0)
    else match FindProxy(proxies[1..], a) case None => None case Some(k) => Some(k + 1)
  }

  /** The slow lookup over the original: the first whose address mints to that form. */
  function ScanProxies(mint: Mint, proxies: seq<Proxy>, a: string): Option<nat> {
    if proxies == [] then None
    else if mint(proxies[0].address) == Some(a) then Some(0)
    else match ScanProxies(mint, proxies[1..], a) case None => None case Some(k) => Some(k + 1)
  }

  predicate Lists(e: Option<Impl>, a: string) {
    e.Some? && (e.value.address == a || (e.value.allAddresses.Some? && a in e.value.allAddresses.value))
  }

  predicate ListsIdentity(mint: Mint, e: Option<Impl>, a: string) {
    && e.Some?
    && (|| mint(e.value.address) == Some(a)
        || (e.value.allAddresses.Some? && exists x <- e.value.allAddresses.value :: mint(x) == Some(a)))
  }

  /** The engine's lookup of an implementation: the first version whose entry lists that exact string. */
  function FindImpl(impls: seq<Slot>, a: string): Option<nat> {
    if impls == [] then None
    else if Lists(impls[0].impl, a) then Some(0)
    else match FindImpl(impls[1..], a) case None => None case Some(k) => Some(k + 1)
  }

  function ScanImpls(mint: Mint, impls: seq<Slot>, a: string): Option<nat> {
    if impls == [] then None
    else if ListsIdentity(mint, impls[0].impl, a) then Some(0)
    else match ScanImpls(mint, impls[1..], a) case None => None case Some(k) => Some(k + 1)
  }

  /** A canonical address equals a migrated one exactly when the stored text names its identity. */
  lemma MatchesByIdentity(mint: Mint, s: string, a: string)
    requires mint(a) == Some(a)
    ensures Migrated(mint, s) == a <==> mint(s) == Some(a)
  {
  }

  lemma ListsByIdentity(mint: Mint, e: Impl, a: string)
    requires mint(a) == Some(a)
    ensures Lists(Some(MigratedImpl(mint, e)), a) <==> ListsIdentity(mint, Some(e), a)
  {
    MatchesByIdentity(mint, e.address, a);
    if e.allAddresses.Some? {
      var all := e.allAddresses.value;
      var now := MigratedAll(mint, all);
      if a in now {
        var i :| 0 <= i < |now| && now[i] == a;
        MatchesByIdentity(mint, all[i], a);
        assert all[i] in all;
      }
      if x :| x in all && mint(x) == Some(a) {
        var i :| 0 <= i < |all| && all[i] == x;
        assert now[i] in now;
      }
    }
  }

  /** Fast agrees with slow for proxies. */
  lemma {:induction false} ProxyLookupAgrees(mint: Mint, proxies: seq<Proxy>, a: string)
    requires mint(a) == Some(a)
    ensures FindProxy(MigratedProxies(mint, proxies), a) == ScanProxies(mint, proxies, a)
  {
    if proxies != [] {
      MatchesByIdentity(mint, proxies[0].address, a);
      assert MigratedProxies(mint, proxies)[1..] == MigratedProxies(mint, proxies[1..]);
      ProxyLookupAgrees(mint, proxies[1..], a);
    }
  }

  /** And for implementations, under their primary or any other listed address. */
  lemma {:induction false} ImplLookupAgrees(mint: Mint, impls: seq<Slot>, a: string)
    requires mint(a) == Some(a)
    ensures FindImpl(MigratedImpls(mint, impls), a) == ScanImpls(mint, impls, a)
  {
    if impls != [] {
      if impls[0].impl.Some? { ListsByIdentity(mint, impls[0].impl.value, a); }
      assert MigratedImpls(mint, impls)[1..] == MigratedImpls(mint, impls[1..]);
      ImplLookupAgrees(mint, impls[1..], a);
    }
  }
}
