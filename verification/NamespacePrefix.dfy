/**
 The namespace-collision scan (`hardhat-tron-upgrades/src/utils/namespace-prefix.ts`): two prefixes
 that hash to one slot, and a first-seen map that must decide every pair.
 */
module NamespacePrefix {
  import opened Wrappers

  /** A struct with the one storage location its annotation names; any other node, malformed annotations included. */
  datatype Node = Namespaced(name: string, location: string) | OtherNode

  datatype Contract = Contract(name: string, nodes: seq<Node>)

  /** One namespace declaration, in linearization order. */
  datatype Decl = Decl(location: string, contractName: string, structName: string)

  const ERC: string := "erc7201:"
  const TRC: string := "trc7201:"

  function CanonicalNamespaceId(location: string): string {
    if ERC <= location then ERC + location[|ERC|..]
    else if TRC <= location then ERC + location[|TRC|..]
    else location
  }

  /** Two different locations share a slot exactly when they are one id under the two prefixes. */
  lemma SharesSlotIff(s: string, t: string)
    ensures CanonicalNamespaceId(s) == CanonicalNamespaceId(t) && s != t <==>
            || (ERC <= s && TRC <= t && s[|ERC|..] == t[|TRC|..])
            || (TRC <= s && ERC <= t && s[|TRC|..] == t[|ERC|..])
  {
    assert ERC[0] == 'e' && TRC[0] == 't' && |ERC| == |TRC|;
    Parts(s);
    Parts(t);
  }

  lemma Parts(s: string)
    ensures ERC <= s ==> s == ERC + s[|ERC|..] && CanonicalNamespaceId(s) == s
    ensures TRC <= s ==> s == TRC + s[|TRC|..] && CanonicalNamespaceId(s) == ERC + s[|TRC|..] && CanonicalNamespaceId(s)[|ERC|..] == s[|TRC|..]
  {
  }

  // ---------- the declarations, flattened ----------

  function DeclsOfNodes(name: string, nodes: seq<Node>, n: nat): seq<Decl>
    requires n <= |nodes|
  {
    if n == 0 then []
    else if nodes[n - 1].OtherNode? then DeclsOfNodes(name, nodes, n - 1)
    else DeclsOfNodes(name, nodes, n - 1) + [Decl(nodes[n - 1].location, name, nodes[n - 1].name)]
  }

  function Decls(contracts: seq<Contract>, n: nat): seq<Decl>
    requires n <= |contracts|
  {
    if n == 0 then []
    else Decls(contracts, n - 1) + DeclsOfNodes(contracts[n - 1].name, contracts[n - 1].nodes, |contracts[n - 1].nodes|)
  }

  type Canonical = string -> string

  predicate Collide(canonical: Canonical, x: Decl, y: Decl) {
    canonical(x.location) == canonical(y.location) && x.location != y.location
  }

  /** Some pair of declarations names one slot in two ways. */
  ghost predicate SomeCollision(canonical: Canonical, ds: seq<Decl>) {
    exists i, j :: 0 <= i < j < |ds| && Collide(canonical, ds[i], ds[j])
  }

  /** Each id maps to its first declaration, and all others of that id are spelled like it. */
  ghost predicate FirstSeen(canonical: Canonical, seen: map<string, Decl>, ds: seq<Decl>) {
    && (forall i | 0 <= i < |ds| ::
          canonical(ds[i].location) in seen && seen[canonical(ds[i].location)].location == ds[i].location)
    && (forall id <- seen :: seen[id] in ds && canonical(seen[id].location) == id)
  }

  lemma FirstSeenMeansNone(canonical: Canonical, seen: map<string, Decl>, ds: seq<Decl>)
    requires FirstSeen(canonical, seen, ds)
    ensures !SomeCollision(canonical, ds)
  {
  }

  lemma CollisionStays(canonical: Canonical, ds: seq<Decl>, more: seq<Decl>)
    requires SomeCollision(canonical, ds)
    ensures SomeCollision(canonical, ds + more)
  {
    var i, j :| 0 <= i < j < |ds| && Collide(canonical, ds[i], ds[j]);
    assert (ds + more)[i] == ds[i] && (ds + more)[j] == ds[j];
  }

  /** One declaration: recorded if it is the first of its id, and refused if spelled otherwise. */
  method Check(canonical: Canonical, was: map<string, Decl>, d: Decl, ghost ds: seq<Decl>)
    returns (seen: map<string, Decl>, clash: Option<(Decl, Decl)>)
    requires FirstSeen(canonical, was, ds)
    ensures clash.None? ==> FirstSeen(canonical, seen, ds + [d])
    ensures clash.Some? ==> clash.value.0 in ds && clash.value.1 == d && Collide(canonical, clash.value.0, d)
    ensures clash.Some? ==> SomeCollision(canonical, ds + [d])
  {
    var id := canonical(d.location);
    seen := was;
    if id !in was {
      seen := was[id := d];
      return seen, None;
    }
    if was[id].location == d.location {
      return was, None;
    }
    clash := Some((was[id], d));
    ghost var i :| 0 <= i < |ds| && ds[i] == was[id];
    assert (ds + [d])[i] == was[id] && (ds + [d])[|ds|] == d;
  }

  lemma {:induction false} NodesGrow(name: string, nodes: seq<Node>, n: nat)
    requires n <= |nodes|
    ensures DeclsOfNodes(name, nodes, n) <= DeclsOfNodes(name, nodes, |nodes|)
    decreases |nodes| - n
  {
    if n < |nodes| { NodesGrow(name, nodes, n + 1); }
  }

  lemma NodesCollide(canonical: Canonical, ds: seq<Decl>, name: string, nodes: seq<Node>, n: nat)
    requires n <= |nodes| && SomeCollision(canonical, ds + DeclsOfNodes(name, nodes, n))
    ensures SomeCollision(canonical, ds + DeclsOfNodes(name, nodes, |nodes|))
  {
    var some, all := DeclsOfNodes(name, nodes, n), DeclsOfNodes(name, nodes, |nodes|);
    NodesGrow(name, nodes, n);
    CollisionStays(canonical, ds + some, all[|some|..]);
    assert ds + some + all[|some|..] == ds + all;
  }

  method ScanNodes(canonical: Canonical, was: map<string, Decl>, name: string, nodes: seq<Node>, ghost ds: seq<Decl>)
    returns (seen: map<string, Decl>, clash: Option<(Decl, Decl)>)
    requires FirstSeen(canonical, was, ds)
    ensures clash.None? ==> FirstSeen(canonical, seen, ds + DeclsOfNodes(name, nodes, |nodes|))
    ensures clash.Some? ==> Collide(canonical, clash.value.0, clash.value.1)
    ensures clash.Some? ==> SomeCollision(canonical, ds + DeclsOfNodes(name, nodes, |nodes|))
  {
    seen, clash := was, None;
    assert ds + [] == ds;
    for n := 0 to |nodes|
      invariant clash.None? && FirstSeen(canonical, seen, ds + DeclsOfNodes(name, nodes, n))
    {
      if nodes[n].OtherNode? { continue; }
      var d := Decl(nodes[n].location, name, nodes[n].name);
      ghost var sofar := ds + DeclsOfNodes(name, nodes, n);
      seen, clash := Check(canonical, seen, d, sofar);
      assert sofar + [d] == ds + DeclsOfNodes(name, nodes, n + 1);
      if clash.Some? {
        NodesCollide(canonical, ds, name, nodes, n + 1);
        return;
      }
    }
  }

  lemma {:induction false} DeclsGrow(contracts: seq<Contract>, n: nat)
    requires n <= |contracts|
    ensures Decls(contracts, n) <= Decls(contracts, |contracts|)
    decreases |contracts| - n
  {
    if n < |contracts| { DeclsGrow(contracts, n + 1); }
  }

  lemma DeclsCollide(canonical: Canonical, contracts: seq<Contract>, n: nat)
    requires n <= |contracts| && SomeCollision(canonical, Decls(contracts, n))
    ensures SomeCollision(canonical, Decls(contracts, |contracts|))
  {
    var some, all := Decls(contracts, n), Decls(contracts, |contracts|);
    DeclsGrow(contracts, n);
    CollisionStays(canonical, some, all[|some|..]);
    assert some + all[|some|..] == all;
  }

  /** The nested loops over the linearized contracts, for any canonical form. */
  method Scan(canonical: Canonical, contracts: seq<Contract>) returns (clash: Option<(Decl, Decl)>)
    ensures clash.Some? <==> SomeCollision(canonical, Decls(contracts, |contracts|))
    ensures clash.Some? ==> Collide(canonical, clash.value.0, clash.value.1)
  {
    var seen: map<string, Decl> := map[];
    for n := 0 to |contracts|
      invariant FirstSeen(canonical, seen, Decls(contracts, n))
    {
      seen, clash := ScanNodes(canonical, seen, contracts[n].name, contracts[n].nodes, Decls(contracts, n));
      if clash.Some? {
        DeclsCollide(canonical, contracts, n + 1);
        return;
      }
    }
    FirstSeenMeansNone(canonical, seen, Decls(contracts, |contracts|));
    clash := None;
  }

  /**
   `assertNoNamespaceSlotCollisions`: it throws exactly when some pair of the declarations in the
   inheritance chain, not only neighbours or pairs with the first, names one slot in two ways.
   */
  method AssertNoNamespaceSlotCollisions(contracts: seq<Contract>) returns (clash: Option<(Decl, Decl)>)
    ensures clash.Some? <==> SomeCollision(CanonicalNamespaceId, Decls(contracts, |contracts|))
    ensures clash.Some? ==> Collide(CanonicalNamespaceId, clash.value.0, clash.value.1)
  {
    clash := Scan(CanonicalNamespaceId, contracts);
  }
}
