/** Generic list operations used by the model: `Array.prototype.filter`,
    `reduce` with `+`, `new Set(...)` de-duplication, `slice(0, n)`. */
module Listes {

  /** `s.filter(garde)`: the elements satisfying `garde`, in their original order. */
  function Filtrer<T>(s: seq<T>, garde: T -> bool): (r: seq<T>)
    ensures |r| <= |s|
    ensures forall i :: 0 <= i < |r| ==> r[i] in s && garde(r[i])
  {
    if s == [] then []
    else
      assert s == [s[0]] + s[1..];
      (if garde(s[0]) then [s[0]] else []) + Filtrer(s[1..], garde)
  }

  /** `filter` keeps every element that passes the guard. */
  lemma {:induction false} FiltrerGarde<T>(s: seq<T>, garde: T -> bool)
    ensures forall i :: 0 <= i < |s| && garde(s[i]) ==> s[i] in Filtrer(s, garde)
  {
    if s != [] {
      FiltrerGarde(s[1..], garde);
      forall i | 0 <= i < |s| && garde(s[i]) ensures s[i] in Filtrer(s, garde) {
        if i > 0 {
          assert s[i] == s[1..][i - 1];
        }
      }
    }
  }

  /** `filter` keeps the order of first occurrences: of two kept elements,
      the one met first in the result is met first in the input. */
  lemma {:induction false} FiltrerPremierIndex<T>(s: seq<T>, garde: T -> bool, x: T, y: T)
    requires x in Filtrer(s, garde) && y in Filtrer(s, garde)
    requires PremierIndex(Filtrer(s, garde), x) < PremierIndex(Filtrer(s, garde), y)
    ensures x in s && y in s && PremierIndex(s, x) < PremierIndex(s, y)
  {
    var f := Filtrer(s, garde);
    var reste := Filtrer(s[1..], garde);
    var kx, ky := PremierIndex(f, x), PremierIndex(f, y);
    assert f[kx] in s && garde(f[kx]) && f[ky] in s && garde(f[ky]);
    if garde(s[0]) && x == s[0] {
      PremierIndexSuite(s, y);
    } else {
      if garde(s[0]) {
        assert f == [s[0]] + reste;
        PremierIndexSuite(f, x);
        PremierIndexSuite(f, y);
        assert f[1..] == reste;
      } else {
        assert f == reste;
      }
      FiltrerPremierIndex(s[1..], garde, x, y);
      PremierIndexSuite(s, x);
      PremierIndexSuite(s, y);
    }
  }

  /** Past a different head, the first occurrence is one further than in the tail. */
  lemma PremierIndexSuite<T>(s: seq<T>, x: T)
    requires x in s && s[0] != x
    ensures x in s[1..] && PremierIndex(s, x) == 1 + PremierIndex(s[1..], x)
  {
    var k :| 0 <= k < |s| && s[k] == x;
    assert s[1..][k - 1] == x;
  }

  /** De-duplicating the kept elements lists them in the order of their
      first occurrence in the input. */
  lemma DistinctsFiltresOrdre<T>(s: seq<T>, garde: T -> bool, i: nat, j: nat)
    requires i < j < |Distincts(Filtrer(s, garde))|
    ensures Distincts(Filtrer(s, garde))[i] in s && Distincts(Filtrer(s, garde))[j] in s
    ensures PremierIndex(s, Distincts(Filtrer(s, garde))[i]) < PremierIndex(s, Distincts(Filtrer(s, garde))[j])
  {
    var f := Filtrer(s, garde);
    var d := Distincts(f);
    DistinctsOrdrePremiereOccurrence(f, i, j);
    FiltrerPremierIndex(s, garde, d[i], d[j]);
  }

  lemma {:induction false} FiltrerConcat<T>(a: seq<T>, b: seq<T>, garde: T -> bool)
    ensures Filtrer(a + b, garde) == Filtrer(a, garde) + Filtrer(b, garde)
  {
    if a == [] {
      assert a + b == b;
    } else {
      assert (a + b)[0] == a[0];
      assert (a + b)[1..] == a[1..] + b;
      FiltrerConcat(a[1..], b, garde);
    }
  }

  /** Filtering twice is filtering once with the conjunction: successive filter
      steps keep the relative order of what survives. */
  lemma {:induction false} FiltrerCompose<T>(s: seq<T>, f: T -> bool, g: T -> bool)
    ensures Filtrer(Filtrer(s, f), g) == Filtrer(s, x => f(x) && g(x))
  {
    if s != [] {
      FiltrerCompose(s[1..], f, g);
      FiltrerConcat(if f(s[0]) then [s[0]] else [], Filtrer(s[1..], f), g);
    }
  }

  /** Two guards that agree everywhere select the same elements. */
  lemma {:induction false} FiltrerExtensionnel<T>(s: seq<T>, f: T -> bool, g: T -> bool)
    requires forall x :: f(x) == g(x)
    ensures Filtrer(s, f) == Filtrer(s, g)
  {
    if s != [] {
      FiltrerExtensionnel(s[1..], f, g);
    }
  }

  /** A second filter step on the result of a first is one filter with a
      guard equivalent to both. */
  lemma FiltrerSuccessifs<T>(s: seq<T>, f: T -> bool, g: T -> bool, h: T -> bool)
    requires forall x :: h(x) == (f(x) && g(x))
    ensures Filtrer(Filtrer(s, f), g) == Filtrer(s, h)
  {
    FiltrerCompose(s, f, g);
    FiltrerExtensionnel(s, x => f(x) && g(x), h);
  }

  /** A filter that rejects nothing returns the list unchanged. */
  lemma {:induction false} FiltrerIdentite<T>(s: seq<T>, garde: T -> bool)
    requires forall x :: x in s ==> garde(x)
    ensures Filtrer(s, garde) == s
  {
    if s != [] {
      FiltrerIdentite(s[1..], garde);
    }
  }

  /** Removing the elements that fail `garde` when exactly one element (at
      index `i`) fails it deletes that index and keeps the rest in order. */
  lemma {:induction false} FiltrerUnSeul<T>(s: seq<T>, garde: T -> bool, i: nat)
    requires i < |s|
    requires !garde(s[i])
    requires forall j :: 0 <= j < |s| && j != i ==> garde(s[j])
    ensures Filtrer(s, garde) == s[..i] + s[i + 1..]
  {
    assert s == [s[0]] + s[1..];
    if i == 0 {
      forall x | x in s[1..] ensures garde(x) {
        var j :| 0 <= j < |s[1..]| && s[1..][j] == x;
        assert s[1..][j] == s[j + 1];
      }
      FiltrerIdentite(s[1..], garde);
      assert s[..0] + s[1..] == s[1..];
    } else {
      var t := s[1..];
      forall j | 0 <= j < |t| && j != i - 1 ensures garde(t[j]) {
        assert t[j] == s[j + 1];
      }
      FiltrerUnSeul(t, garde, i - 1);
      assert garde(s[0]);
      assert s[..i] == [s[0]] + t[..i - 1];
      assert s[i + 1..] == t[i..];
    }
  }

  /** `s.reduce((acc, x) => acc + f(x), 0)`, a left fold. */
  function SommeReelle<T>(s: seq<T>, f: T -> real): real
  {
    if s == [] then 0.0 else SommeReelle(s[..|s| - 1], f) + f(s[|s| - 1])
  }

  lemma {:induction false} SommeReelleConcat<T>(a: seq<T>, b: seq<T>, f: T -> real)
    ensures SommeReelle(a + b, f) == SommeReelle(a, f) + SommeReelle(b, f)
  {
    if b == [] {
      assert a + b == a;
    } else {
      assert (a + b)[..|a + b| - 1] == a + b[..|b| - 1];
      SommeReelleConcat(a, b[..|b| - 1], f);
    }
  }

  /** Sum of the first element and the rest: the fold read from the left. */
  lemma SommeReelleTete<T>(s: seq<T>, f: T -> real)
    requires s != []
    ensures SommeReelle(s, f) == f(s[0]) + SommeReelle(s[1..], f)
  {
    assert s == [s[0]] + s[1..];
    SommeReelleConcat([s[0]], s[1..], f);
    assert [s[0]][..0] == [];
  }

  /** Two lists that agree pointwise on `f` have the same sum. */
  lemma {:induction false} SommeReellePointAPoint<T>(a: seq<T>, b: seq<T>, f: T -> real, g: T -> real)
    requires |a| == |b|
    requires forall i :: 0 <= i < |a| ==> f(a[i]) == g(b[i])
    ensures SommeReelle(a, f) == SommeReelle(b, g)
  {
    if a != [] {
      SommeReellePointAPoint(a[..|a| - 1], b[..|b| - 1], f, g);
    }
  }

  /** Terms that are all non-negative add up to a non-negative sum. */
  lemma {:induction false} SommeReellePositive<T>(s: seq<T>, f: T -> real)
    ensures (forall i :: 0 <= i < |s| ==> f(s[i]) >= 0.0) ==> SommeReelle(s, f) >= 0.0
  {
    if s != [] && forall i :: 0 <= i < |s| ==> f(s[i]) >= 0.0 {
      var debut := s[..|s| - 1];
      assert forall i :: 0 <= i < |debut| ==> debut[i] == s[i];
      SommeReellePositive(debut, f);
    }
  }

  /** Integer counterpart of `SommeReelle`. */
  function SommeEntiere<T>(s: seq<T>, f: T -> int): int
  {
    if s == [] then 0 else SommeEntiere(s[..|s| - 1], f) + f(s[|s| - 1])
  }

  lemma {:induction false} SommeEntiereConcat<T>(a: seq<T>, b: seq<T>, f: T -> int)
    ensures SommeEntiere(a + b, f) == SommeEntiere(a, f) + SommeEntiere(b, f)
  {
    if b == [] {
      assert a + b == a;
    } else {
      assert (a + b)[..|a + b| - 1] == a + b[..|b| - 1];
      SommeEntiereConcat(a, b[..|b| - 1], f);
    }
  }

  /** Terms that are all at least 1 add up to at least the length. */
  lemma {:induction false} SommeEntiereMinoree<T>(s: seq<T>, f: T -> int)
    ensures (forall i :: 0 <= i < |s| ==> f(s[i]) >= 1) ==> SommeEntiere(s, f) >= |s|
  {
    if s != [] && forall i :: 0 <= i < |s| ==> f(s[i]) >= 1 {
      var debut := s[..|s| - 1];
      assert forall i :: 0 <= i < |debut| ==> debut[i] == s[i];
      SommeEntiereMinoree(debut, f);
    }
  }

  /** Replacing one element changes the sum by the difference of the two. */
  lemma SommeEntiereMiseAJour<T>(s: seq<T>, k: nat, x: T, f: T -> int)
    requires k < |s|
    ensures SommeEntiere(s[k := x], f) == SommeEntiere(s, f) - f(s[k]) + f(x)
  {
    assert s == s[..k] + [s[k]] + s[k + 1..];
    assert s[k := x] == s[..k] + [x] + s[k + 1..];
    SommeEntiereConcat(s[..k] + [s[k]], s[k + 1..], f);
    SommeEntiereConcat(s[..k], [s[k]], f);
    SommeEntiereConcat(s[..k] + [x], s[k + 1..], f);
    SommeEntiereConcat(s[..k], [x], f);
    assert SommeEntiere([s[k]], f) == f(s[k]) by {
      assert [s[k]][..0] == [];
    }
    assert SommeEntiere([x], f) == f(x) by {
      assert [x][..0] == [];
    }
  }

  /** `s.slice(0, n)` for `n >= 0`. */
  function Prendre<T>(s: seq<T>, n: nat): (r: seq<T>)
    ensures |r| <= n && |r| <= |s|
    ensures |s| <= n ==> r == s
    ensures r <= s
  {
    if |s| <= n then s else s[..n]
  }

  /** No element occurs twice. */
  predicate SansDoublon<T(==)>(s: seq<T>)
  {
    forall i, j :: 0 <= i < j < |s| ==> s[i] != s[j]
  }

  /** `Array.from(new Set(s))`: the distinct elements, each at the place of
      its first occurrence. */
  function Distincts<T(==)>(s: seq<T>): (r: seq<T>)
    ensures SansDoublon(r)
    ensures forall i :: 0 <= i < |r| ==> r[i] in s
    ensures forall i :: 0 <= i < |s| ==> s[i] in r
    ensures |r| <= |s|
  {
    if s == [] then []
    else
      var debut := Distincts(s[..|s| - 1]);
      if s[|s| - 1] in debut then debut else debut + [s[|s| - 1]]
  }

  /** A list without duplicates is its own de-duplication. */
  lemma {:induction false} DistinctsSansDoublon<T>(s: seq<T>)
    requires SansDoublon(s)
    ensures Distincts(s) == s
  {
    if s != [] {
      var init := s[..|s| - 1];
      assert SansDoublon(init);
      DistinctsSansDoublon(init);
      assert s == init + [s[|s| - 1]];
      assert s[|s| - 1] !in init;
    }
  }

  /** Index of the first occurrence of `x` in `s`. */
  function PremierIndex<T(==)>(s: seq<T>, x: T): (k: nat)
    requires x in s
    ensures k < |s| && s[k] == x
    ensures forall j :: 0 <= j < k ==> s[j] != x
  {
    if s[0] == x then 0 else 1 + PremierIndex(s[1..], x)
  }

  lemma PremierIndexPrefixe<T>(s: seq<T>, t: seq<T>, x: T)
    requires x in s
    ensures PremierIndex(s + t, x) == PremierIndex(s, x)
  {
    var k := PremierIndex(s, x);
    var u := s + t;
    assert u[k] == x;
    assert forall j :: 0 <= j < k ==> u[j] == s[j];
  }

  /** The elements of `Distincts(s)` appear in the order of their first
      occurrence in `s`. */
  lemma {:induction false} DistinctsOrdrePremiereOccurrence<T>(s: seq<T>, i: nat, j: nat)
    requires i < j < |Distincts(s)|
    ensures PremierIndex(s, Distincts(s)[i]) < PremierIndex(s, Distincts(s)[j])
  {
    var init := s[..|s| - 1];
    var d := Distincts(init);
    var x := s[|s| - 1];
    assert s == init + [x];
    var r := Distincts(s);
    assert r[i] in d;
    PremierIndexPrefixe(init, [x], r[i]);
    if j < |d| {
      DistinctsOrdrePremiereOccurrence(init, i, j);
      PremierIndexPrefixe(init, [x], r[j]);
    } else {
      assert r[j] == x && x !in init;
      assert PremierIndex(s, x) == |s| - 1;
    }
  }
}
