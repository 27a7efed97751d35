/** The host's stable sort, as insertion of each element after everything it does not precede. */
module StableSort {

  function Insert<T>(le: (T, T) -> bool, x: T, s: seq<T>): (r: seq<T>)
    ensures |r| == |s| + 1
  {
    if s == [] then [x]
    else
      var n := |s| - 1;
      if le(s[n], x) then s + [x] else Insert(le, x, s[..n]) + [s[n]]
  }

  function Sort<T>(le: (T, T) -> bool, s: seq<T>): (r: seq<T>)
    ensures |r| == |s|
  {
    if s == [] then [] else Insert(le, s[|s| - 1], Sort(le, s[..|s| - 1]))
  }

  ghost predicate TotalPreorder<T(!new)>(le: (T, T) -> bool) {
    && (forall x, y :: le(x, y) || le(y, x))
    && (forall x, y, z :: le(x, y) && le(y, z) ==> le(x, z))
  }

  ghost predicate Sorted<T>(le: (T, T) -> bool, s: seq<T>) {
    forall i, j | 0 <= i < j < |s| :: le(s[i], s[j])
  }

  lemma {:induction false} InsertPermutes<T>(le: (T, T) -> bool, x: T, s: seq<T>)
    ensures multiset(Insert(le, x, s)) == multiset(s) + multiset{x}
  {
    if s != [] {
      var n := |s| - 1;
      assert s == s[..n] + [s[n]];
      if !le(s[n], x) { InsertPermutes(le, x, s[..n]); }
    }
  }

  lemma {:induction false} SortPermutes<T>(le: (T, T) -> bool, s: seq<T>)
    ensures multiset(Sort(le, s)) == multiset(s)
  {
    if s != [] {
      var n := |s| - 1;
      SortPermutes(le, s[..n]);
      InsertPermutes(le, s[n], Sort(le, s[..n]));
      assert s == s[..n] + [s[n]];
    }
  }

  lemma {:induction false} InsertSorts<T(!new)>(le: (T, T) -> bool, x: T, s: seq<T>)
    requires TotalPreorder(le) && Sorted(le, s)
    ensures Sorted(le, Insert(le, x, s))
  {
    if s != [] {
      var n := |s| - 1;
      if !le(s[n], x) {
        InsertSorts(le, x, s[..n]);
        InsertPermutes(le, x, s[..n]);
        var r := Insert(le, x, s[..n]);
        forall i | 0 <= i < |r| ensures le(r[i], s[n]) {
          assert r[i] in multiset(r);
          if r[i] != x { assert r[i] in s[..n]; }
        }
      } else {
        forall i | 0 <= i < n ensures le(s[i], x) { assert le(s[i], s[n]); }
      }
    }
  }

  lemma {:induction false} SortSorts<T(!new)>(le: (T, T) -> bool, s: seq<T>)
    requires TotalPreorder(le)
    ensures Sorted(le, Sort(le, s))
  {
    if s != [] {
      SortSorts(le, s[..|s| - 1]);
      InsertSorts(le, s[|s| - 1], Sort(le, s[..|s| - 1]));
    }
  }

  // ---------- ties ----------

  predicate Tie<T>(le: (T, T) -> bool, x: T, y: T) { le(x, y) && le(y, x) }

  /** The elements that tie with `x`, in their order. */
  function Tied<T>(le: (T, T) -> bool, x: T, s: seq<T>): seq<T> {
    if s == [] then []
    else Tied(le, x, s[..|s| - 1]) + if Tie(le, x, s[|s| - 1]) then [s[|s| - 1]] else []
  }

  lemma {:induction false} TiedConcat<T>(le: (T, T) -> bool, x: T, a: seq<T>, b: seq<T>)
    ensures Tied(le, x, a + b) == Tied(le, x, a) + Tied(le, x, b)
    decreases |b|
  {
    if b == [] {
      assert a + b == a;
    } else {
      assert (a + b)[..|a + b| - 1] == a + b[..|b| - 1];
      TiedConcat(le, x, a, b[..|b| - 1]);
    }
  }

  lemma {:induction false} TiedHolds<T>(le: (T, T) -> bool, x: T, s: seq<T>, y: T)
    ensures y in Tied(le, x, s) <==> y in s && Tie(le, x, y)
  {
    if s != [] {
      TiedHolds(le, x, s[..|s| - 1], y);
      assert s == s[..|s| - 1] + [s[|s| - 1]];
    }
  }

  lemma TiesAreEqual<T(!new)>(le: (T, T) -> bool, z: T, x: T, y: T)
    requires TotalPreorder(le) && Tie(le, z, x) && Tie(le, z, y)
    ensures le(x, y)
  {
    assert le(x, z) && le(z, y);
  }

  /** Of two elements that do not tie, at most one is among the ties of a third, so their order there is free. */
  lemma OneTies<T(!new)>(le: (T, T) -> bool, z: T, x: T, y: T)
    requires TotalPreorder(le) && !le(y, x)
    ensures Tied(le, z, [x]) + Tied(le, z, [y]) == Tied(le, z, [y]) + Tied(le, z, [x])
  {
    if Tie(le, z, x) && Tie(le, z, y) { TiesAreEqual(le, z, y, x); }
  }

  /** Insertion is stable: among the elements that tie, the new one comes last. */
  lemma {:induction false} InsertKeepsTies<T(!new)>(le: (T, T) -> bool, z: T, x: T, s: seq<T>)
    requires TotalPreorder(le)
    ensures Tied(le, z, Insert(le, x, s)) == Tied(le, z, s) + Tied(le, z, [x])
  {
    if s != [] {
      var n := |s| - 1;
      if le(s[n], x) {
        TiedConcat(le, z, s, [x]);
      } else {
        InsertKeepsTies(le, z, x, s[..n]);
        TiedConcat(le, z, Insert(le, x, s[..n]), [s[n]]);
        TiedConcat(le, z, s[..n], [s[n]]);
        assert s == s[..n] + [s[n]];
        OneTies(le, z, x, s[n]);
      }
    }
  }

  /** Sorting keeps the order of the elements that tie. */
  lemma {:induction false} SortKeepsTies<T(!new)>(le: (T, T) -> bool, z: T, s: seq<T>)
    requires TotalPreorder(le)
    ensures Tied(le, z, Sort(le, s)) == Tied(le, z, s)
  {
    if s != [] {
      var n := |s| - 1;
      SortKeepsTies(le, z, s[..n]);
      InsertKeepsTies(le, z, s[n], Sort(le, s[..n]));
      TiedConcat(le, z, s[..n], [s[n]]);
      assert s == s[..n] + [s[n]];
    }
  }

  lemma LastTies<T(!new)>(le: (T, T) -> bool, s: seq<T>, t: seq<T>)
    requires TotalPreorder(le) && Sorted(le, s) && s != [] && t != []
    requires Tied(le, t[|t| - 1], s) == Tied(le, t[|t| - 1], t)
    ensures le(t[|t| - 1], s[|s| - 1])
  {
    var y := t[|t| - 1];
    TiedHolds(le, y, t, y);
    TiedHolds(le, y, s, y);
    var i :| 0 <= i < |s| && s[i] == y;
    assert i == |s| - 1 || le(s[i], s[|s| - 1]);
  }

  lemma SameLast<T(!new)>(le: (T, T) -> bool, s: seq<T>, t: seq<T>)
    requires TotalPreorder(le) && Sorted(le, s) && Sorted(le, t) && s != [] && t != []
    requires Tied(le, s[|s| - 1], s) == Tied(le, s[|s| - 1], t) && Tied(le, t[|t| - 1], s) == Tied(le, t[|t| - 1], t)
    ensures s[|s| - 1] == t[|t| - 1]
  {
    var x, y := s[|s| - 1], t[|t| - 1];
    LastTies(le, s, t);
    LastTies(le, t, s);
    assert le(x, x);
    assert Tied(le, x, s) == Tied(le, x, s[..|s| - 1]) + [x];
    assert Tied(le, x, t) == Tied(le, x, t[..|t| - 1]) + [y];
    assert Tied(le, x, s)[|Tied(le, x, s)| - 1] == x;
  }

  lemma FrontTies<T(!new)>(le: (T, T) -> bool, x: T, s: seq<T>, t: seq<T>)
    requires s != [] && t != [] && s[|s| - 1] == t[|t| - 1] && Tied(le, x, s) == Tied(le, x, t)
    ensures Tied(le, x, s[..|s| - 1]) == Tied(le, x, t[..|t| - 1])
  {
    var last := if Tie(le, x, s[|s| - 1]) then [s[|s| - 1]] else [];
    var a, b := Tied(le, x, s[..|s| - 1]), Tied(le, x, t[..|t| - 1]);
    assert a + last == b + last;
    assert a == (a + last)[..|a|] && b == (b + last)[..|b|];
  }

  ghost predicate SameTies<T(!new)>(le: (T, T) -> bool, s: seq<T>, t: seq<T>) {
    forall x :: Tied(le, x, s) == Tied(le, x, t)
  }

  lemma FrontsTie<T(!new)>(le: (T, T) -> bool, s: seq<T>, t: seq<T>)
    requires s != [] && t != [] && s[|s| - 1] == t[|t| - 1] && SameTies(le, s, t)
    ensures SameTies(le, s[..|s| - 1], t[..|t| - 1])
  {
    var a, b := s[..|s| - 1], t[..|t| - 1];
    forall x ensures Tied(le, x, a) == Tied(le, x, b) {
      assert Tied(le, x, s) == Tied(le, x, t);
      FrontTies(le, x, s, t);
    }
  }

  lemma NoneEmpty<T(!new)>(le: (T, T) -> bool, s: seq<T>, t: seq<T>)
    requires TotalPreorder(le) && SameTies(le, s, t) && t != []
    ensures s != []
  {
    TiedHolds(le, t[0], t, t[0]);
    assert Tied(le, t[0], s) == Tied(le, t[0], t);
  }

  lemma FrontSorted<T(!new)>(le: (T, T) -> bool, s: seq<T>)
    requires Sorted(le, s) && s != []
    ensures Sorted(le, s[..|s| - 1])
  {
  }

  /** Two sorted lists with the same ties in the same order are the same list. */
  lemma {:induction false} TiesDecide<T(!new)>(le: (T, T) -> bool, s: seq<T>, t: seq<T>)
    requires TotalPreorder(le) && Sorted(le, s) && Sorted(le, t) && SameTies(le, s, t)
    ensures s == t
    decreases |s|
  {
    if s == [] {
      if t != [] { NoneEmpty(le, s, t); }
    } else if t == [] {
      NoneEmpty(le, t, s);
    } else {
      var m, n := |s| - 1, |t| - 1;
      assert Tied(le, s[m], s) == Tied(le, s[m], t) && Tied(le, t[n], s) == Tied(le, t[n], t);
      SameLast(le, s, t);
      FrontsTie(le, s, t);
      FrontSorted(le, s);
      FrontSorted(le, t);
      TiesDecide(le, s[..m], t[..n]);
      assert s == s[..m] + [s[m]] && t == t[..n] + [t[n]];
    }
  }

  // ---------- concatenating ----------

  function ConcatMap<S, T>(g: S -> seq<T>, s: seq<S>): seq<T> {
    if s == [] then [] else ConcatMap(g, s[..|s| - 1]) + g(s[|s| - 1])
  }

  lemma {:induction false} ConcatMapSplits<S, T>(g: S -> seq<T>, a: seq<S>, b: seq<S>)
    ensures ConcatMap(g, a + b) == ConcatMap(g, a) + ConcatMap(g, b)
    decreases |b|
  {
    if b == [] {
      assert a + b == a;
    } else {
      assert (a + b)[..|a + b| - 1] == a + b[..|b| - 1];
      ConcatMapSplits(g, a, b[..|b| - 1]);
    }
  }

  lemma ConcatMapHead<S, T>(g: S -> seq<T>, x: S, rest: seq<S>)
    ensures ConcatMap(g, [x] + rest) == g(x) + ConcatMap(g, rest)
  {
    ConcatMapSplits(g, [x], rest);
    assert [x][..0] == [];
  }

  lemma {:induction false} ConcatMapHolds<S, T>(g: S -> seq<T>, s: seq<S>, y: T)
    ensures y in ConcatMap(g, s) <==> exists i :: 0 <= i < |s| && y in g(s[i])
  {
    if s != [] { ConcatMapHolds(g, s[..|s| - 1], y); }
  }

  /** When only one image is not empty, the concatenation is that image. */
  lemma {:induction false} ConcatMapOnly<S, T>(g: S -> seq<T>, s: seq<S>, i: nat)
    requires i < |s| && forall j | 0 <= j < |s| && j != i :: g(s[j]) == []
    ensures ConcatMap(g, s) == g(s[i])
  {
    var n := |s| - 1;
    if i < n { ConcatMapOnly(g, s[..n], i); } else { ConcatMapNone(g, s[..n]); }
  }

  lemma {:induction false} ConcatMapNone<S, T>(g: S -> seq<T>, s: seq<S>)
    requires forall j | 0 <= j < |s| :: g(s[j]) == []
    ensures ConcatMap(g, s) == []
  {
    if s != [] { ConcatMapNone(g, s[..|s| - 1]); }
  }
}
