/**
 * Stable insertion sort by a caller-given "goes no later than" relation.
 * The queries of the system sort by creation time (newest first), by zone
 * name and by recommendation score; each passes its own relation here.
 */
module Orden {

  /** Any two elements are comparable one way or the other. */
  ghost predicate Total<T(!new)>(le: (T, T) -> bool)
  {
    forall a, b :: le(a, b) || le(b, a)
  }

  ghost predicate Transitiva<T(!new)>(le: (T, T) -> bool)
  {
    forall a, b, c :: le(a, b) && le(b, c) ==> le(a, c)
  }

  /** Every element goes no later than every element after it. */
  ghost predicate Ordenada<T>(s: seq<T>, le: (T, T) -> bool)
  {
    forall i, j :: 0 <= i < j < |s| ==> le(s[i], s[j])
  }

  /**
   * Inserts x before the first element it may go ahead of; equal
   * elements already in s stay ahead of x only if le(x, them) fails.
   */
  function Insertar<T>(x: T, s: seq<T>, le: (T, T) -> bool): (r: seq<T>)
    ensures multiset(r) == multiset(s) + multiset{x}
    ensures |r| == |s| + 1
  {
    if s == [] || le(x, s[0]) then [x] + s
    else
      assert s == [s[0]] + s[1..];
      [s[0]] + Insertar(x, s[1..], le)
  }

  /** Insertion sort: the first element is inserted into the sorted rest. */
  function Ordenar<T>(s: seq<T>, le: (T, T) -> bool): (r: seq<T>)
    ensures multiset(r) == multiset(s)
    ensures |r| == |s|
  {
    if s == [] then []
    else
      assert s == [s[0]] + s[1..];
      Insertar(s[0], Ordenar(s[1..], le), le)
  }

  lemma {:induction false} InsertarOrdenada<T(!new)>(x: T, s: seq<T>, le: (T, T) -> bool)
    requires Total(le) && Transitiva(le)
    requires Ordenada(s, le)
    ensures Ordenada(Insertar(x, s, le), le)
  {
    if s == [] || le(x, s[0]) {
      var r := [x] + s;
      forall i, j | 0 <= i < j < |r| ensures le(r[i], r[j]) {
        if i > 0 {
          assert le(s[i - 1], s[j - 1]);
        } else if j > 1 {
          assert le(x, s[0]) && le(s[0], s[j - 1]);
        }
      }
    } else {
      var t := Insertar(x, s[1..], le);
      assert Ordenada(s[1..], le) by {
        forall i, j | 0 <= i < j < |s[1..]| ensures le(s[1..][i], s[1..][j]) {
          assert le(s[i + 1], s[j + 1]);
        }
      }
      InsertarOrdenada(x, s[1..], le);
      var r := [s[0]] + t;
      assert le(s[0], x);
      forall k | 0 <= k < |t| ensures le(s[0], t[k]) {
        assert t[k] in multiset(t);
        assert t[k] in multiset(s[1..]) + multiset{x};
        if t[k] != x {
          assert t[k] in multiset(s[1..]);
          var m :| 0 <= m < |s[1..]| && s[1..][m] == t[k];
          assert le(s[0], s[m + 1]);
        }
      }
      forall i, j | 0 <= i < j < |r| ensures le(r[i], r[j]) {
        if i == 0 {
          assert r[j] == t[j - 1];
        } else {
          assert r[i] == t[i - 1] && r[j] == t[j - 1];
        }
      }
    }
  }

  /** With a total preorder the sort's result is ordered. */
  lemma {:induction false} OrdenarOrdenada<T(!new)>(s: seq<T>, le: (T, T) -> bool)
    requires Total(le) && Transitiva(le)
    ensures Ordenada(Ordenar(s, le), le)
  {
    if s != [] {
      OrdenarOrdenada(s[1..], le);
      InsertarOrdenada(s[0], Ordenar(s[1..], le), le);
    }
  }

  /** The subsequence of the elements that weigh the same as v. */
  function Equivalentes<T>(s: seq<T>, v: T, le: (T, T) -> bool): (r: seq<T>)
    ensures |r| <= |s|
    ensures forall k :: 0 <= k < |r| ==> le(r[k], v) && le(v, r[k])
  {
    if s == [] then []
    else if le(s[0], v) && le(v, s[0]) then [s[0]] + Equivalentes(s[1..], v, le)
    else Equivalentes(s[1..], v, le)
  }

  lemma {:induction false} InsertarEstable<T(!new)>(x: T, s: seq<T>, v: T, le: (T, T) -> bool)
    requires Total(le) && Transitiva(le)
    requires Ordenada(s, le)
    ensures Equivalentes(Insertar(x, s, le), v, le)
         == (if le(x, v) && le(v, x) then [x] else []) + Equivalentes(s, v, le)
  {
    if s == [] || le(x, s[0]) {
      assert Insertar(x, s, le) == [x] + s;
      assert ([x] + s)[1..] == s;
    } else {
      var r := Insertar(x, s, le);
      assert r == [s[0]] + Insertar(x, s[1..], le);
      assert r[1..] == Insertar(x, s[1..], le);
      assert Ordenada(s[1..], le) by {
        forall i, j | 0 <= i < j < |s[1..]| ensures le(s[1..][i], s[1..][j]) {
          assert le(s[i + 1], s[j + 1]);
        }
      }
      InsertarEstable(x, s[1..], v, le);
      // x goes strictly after s[0], so by transitivity it cannot weigh
      // the same as v when s[0] does
    }
  }

  /**
   * Stability: for every weight, the elements of that weight appear in the
   * sorted result in the same relative order as in the input.
   */
  lemma {:induction false} OrdenarEstable<T(!new)>(s: seq<T>, v: T, le: (T, T) -> bool)
    requires Total(le) && Transitiva(le)
    ensures Equivalentes(Ordenar(s, le), v, le) == Equivalentes(s, v, le)
  {
    if s != [] {
      OrdenarEstable(s[1..], v, le);
      OrdenarOrdenada(s[1..], le);
      InsertarEstable(s[0], Ordenar(s[1..], le), v, le);
    }
  }

  /** Sorting keeps exactly the elements of its input. */
  lemma OrdenarMismosElementos<T>(s: seq<T>, le: (T, T) -> bool, x: T)
    ensures x in Ordenar(s, le) <==> x in s
  {
    assert x in Ordenar(s, le) <==> x in multiset(Ordenar(s, le));
    assert x in s <==> x in multiset(s);
  }
}
