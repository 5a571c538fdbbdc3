/**
 * List helpers for the list queries and the KPI figures: Mongo's `.sort({ createdAt: -1 })`,
 * an `Array.prototype.sort` whose comparator is `b.localeCompare(a)` on timestamps or
 * `b - a` on amounts, `filter`, `slice` and a summing `reduce`.
 *
 * Timestamps are ISO-8601 strings of one shape, so the collation order `localeCompare`
 * applies to them is the code-unit lexicographic order `StrLe` below.
 */
module Sorting {

  /** Code-unit lexicographic order: `a` is `b`, a prefix of `b`, or smaller at the first difference. */
  predicate StrLe(a: string, b: string)
    decreases |a|
  {
    a == [] || (b != [] && (a[0] < b[0] || (a[0] == b[0] && StrLe(a[1..], b[1..]))))
  }

  lemma {:induction false} StrLeRefl(a: string)
    ensures StrLe(a, a)
    decreases |a|
  {
    if a != [] {
      StrLeRefl(a[1..]);
    }
  }

  lemma {:induction false} StrLeTotal(a: string, b: string)
    ensures StrLe(a, b) || StrLe(b, a)
    decreases |a|
  {
    if a != [] && b != [] && a[0] == b[0] {
      StrLeTotal(a[1..], b[1..]);
    }
  }

  lemma {:induction false} StrLeTrans(a: string, b: string, c: string)
    requires StrLe(a, b) && StrLe(b, c)
    ensures StrLe(a, c)
    decreases |a|
  {
    if a != [] && b != [] && c != [] && a[0] == b[0] && b[0] == c[0] {
      StrLeTrans(a[1..], b[1..], c[1..]);
    }
  }

  /** Non-increasing by a string key: newest first when the key is a timestamp. */
  predicate SortedDescByStr<T>(s: seq<T>, key: T -> string) {
    forall i, j :: 0 <= i < j < |s| ==> StrLe(key(s[j]), key(s[i]))
  }

  function InsertByStr<T>(x: T, s: seq<T>, key: T -> string): (r: seq<T>)
    ensures |r| == |s| + 1
    ensures multiset(r) == multiset(s) + multiset{x}
  {
    if s == [] then [x]
    else if StrLe(key(s[0]), key(x)) then [x] + s
    else assert s == [s[0]] + s[1..]; [s[0]] + InsertByStr(x, s[1..], key)
  }

  /** Every element of `t`, which holds `x` and the elements of `u`, is at most `bound` when they all are. */
  lemma AllStrBelow<T>(t: seq<T>, u: seq<T>, x: T, bound: string, key: T -> string)
    requires multiset(t) == multiset(u) + multiset{x}
    requires StrLe(key(x), bound) && forall k :: 0 <= k < |u| ==> StrLe(key(u[k]), bound)
    ensures forall j :: 0 <= j < |t| ==> StrLe(key(t[j]), bound)
  {
    forall j | 0 <= j < |t|
      ensures StrLe(key(t[j]), bound)
    {
      assert t[j] in multiset(t);
      if t[j] != x {
        assert t[j] in multiset(u);
        var k :| 0 <= k < |u| && u[k] == t[j];
      }
    }
  }

  /** A newest-first list behind a head at least as new as all of it is newest first. */
  lemma ConsSortedByStr<T>(h: T, t: seq<T>, key: T -> string)
    requires SortedDescByStr(t, key)
    requires forall j :: 0 <= j < |t| ==> StrLe(key(t[j]), key(h))
    ensures SortedDescByStr([h] + t, key)
  {
    var r := [h] + t;
    forall i, j | 0 <= i < j < |r|
      ensures StrLe(key(r[j]), key(r[i]))
    {
      if i == 0 {
        assert r[j] == t[j - 1];
      } else {
        assert r[i] == t[i - 1] && r[j] == t[j - 1];
      }
    }
  }

  /** Inserting into a newest-first list keeps it newest first. */
  lemma {:induction false} InsertByStrSorted<T>(x: T, s: seq<T>, key: T -> string)
    requires SortedDescByStr(s, key)
    ensures SortedDescByStr(InsertByStr(x, s, key), key)
  {
    if s == [] {
    } else if StrLe(key(s[0]), key(x)) {
      forall j | 0 <= j < |s|
        ensures StrLe(key(s[j]), key(x))
      {
        if j > 0 {
          StrLeTrans(key(s[j]), key(s[0]), key(x));
        }
      }
      ConsSortedByStr(x, s, key);
    } else {
      StrLeTotal(key(s[0]), key(x));
      var t := InsertByStr(x, s[1..], key);
      InsertByStrSorted(x, s[1..], key);
      assert forall k :: 0 <= k < |s[1..]| ==> s[1..][k] == s[k + 1];
      AllStrBelow(t, s[1..], x, key(s[0]), key);
      ConsSortedByStr(s[0], t, key);
    }
  }

  /** An insertion sort, newest (largest key) first. */
  function SortDescByStr<T>(s: seq<T>, key: T -> string): (r: seq<T>)
    ensures |r| == |s|
    ensures multiset(r) == multiset(s)
  {
    if s == [] then []
    else assert s == [s[0]] + s[1..]; InsertByStr(s[0], SortDescByStr(s[1..], key), key)
  }

  lemma {:induction false} SortDescByStrSorted<T>(s: seq<T>, key: T -> string)
    ensures SortedDescByStr(SortDescByStr(s, key), key)
  {
    if s != [] {
      assert s == [s[0]] + s[1..];
      SortDescByStrSorted(s[1..], key);
      InsertByStrSorted(s[0], SortDescByStr(s[1..], key), key);
    }
  }

  /** Non-increasing by a numeric key. */
  predicate SortedDescByReal<T>(s: seq<T>, key: T -> real) {
    forall i, j :: 0 <= i < j < |s| ==> key(s[j]) <= key(s[i])
  }

  function InsertByReal<T>(x: T, s: seq<T>, key: T -> real): (r: seq<T>)
    ensures |r| == |s| + 1
    ensures multiset(r) == multiset(s) + multiset{x}
  {
    if s == [] then [x]
    else if key(s[0]) <= key(x) then [x] + s
    else assert s == [s[0]] + s[1..]; [s[0]] + InsertByReal(x, s[1..], key)
  }

  /** Every element of `t`, which holds `x` and the elements of `u`, is at most `bound` when they all are. */
  lemma AllRealBelow<T>(t: seq<T>, u: seq<T>, x: T, bound: real, key: T -> real)
    requires multiset(t) == multiset(u) + multiset{x}
    requires key(x) <= bound && forall k :: 0 <= k < |u| ==> key(u[k]) <= bound
    ensures forall j :: 0 <= j < |t| ==> key(t[j]) <= bound
  {
    forall j | 0 <= j < |t|
      ensures key(t[j]) <= bound
    {
      assert t[j] in multiset(t);
      if t[j] != x {
        assert t[j] in multiset(u);
        var k :| 0 <= k < |u| && u[k] == t[j];
      }
    }
  }

  /** A non-increasing list behind a head at least as large as all of it is non-increasing. */
  lemma ConsSortedByReal<T>(h: T, t: seq<T>, key: T -> real)
    requires SortedDescByReal(t, key)
    requires forall j :: 0 <= j < |t| ==> key(t[j]) <= key(h)
    ensures SortedDescByReal([h] + t, key)
  {
    var r := [h] + t;
    forall i, j | 0 <= i < j < |r|
      ensures key(r[j]) <= key(r[i])
    {
      if i == 0 {
        assert r[j] == t[j - 1];
      } else {
        assert r[i] == t[i - 1] && r[j] == t[j - 1];
      }
    }
  }

  lemma {:induction false} InsertByRealSorted<T>(x: T, s: seq<T>, key: T -> real)
    requires SortedDescByReal(s, key)
    ensures SortedDescByReal(InsertByReal(x, s, key), key)
  {
    if s == [] {
    } else if key(s[0]) <= key(x) {
      ConsSortedByReal(x, s, key);
    } else {
      var t := InsertByReal(x, s[1..], key);
      InsertByRealSorted(x, s[1..], key);
      assert forall k :: 0 <= k < |s[1..]| ==> s[1..][k] == s[k + 1];
      AllRealBelow(t, s[1..], x, key(s[0]), key);
      ConsSortedByReal(s[0], t, key);
    }
  }

  /** An insertion sort, largest key first. */
  function SortDescByReal<T>(s: seq<T>, key: T -> real): (r: seq<T>)
    ensures |r| == |s|
    ensures multiset(r) == multiset(s)
  {
    if s == [] then []
    else assert s == [s[0]] + s[1..]; InsertByReal(s[0], SortDescByReal(s[1..], key), key)
  }

  lemma {:induction false} SortDescByRealSorted<T>(s: seq<T>, key: T -> real)
    ensures SortedDescByReal(SortDescByReal(s, key), key)
  {
    if s != [] {
      SortDescByRealSorted(s[1..], key);
      InsertByRealSorted(s[0], SortDescByReal(s[1..], key), key);
    }
  }

  /** Elements of `s` satisfying `p`, in their original order (`Array.prototype.filter`). */
  function Filter<T(!new)>(s: seq<T>, p: T -> bool): (r: seq<T>)
    ensures |r| <= |s|
    ensures forall x :: x in r <==> x in s && p(x)
    ensures multiset(r) <= multiset(s)
  {
    if s == [] then []
    else
      assert s == s[..|s| - 1] + [s[|s| - 1]];
      if p(s[|s| - 1]) then Filter(s[..|s| - 1], p) + [s[|s| - 1]]
      else Filter(s[..|s| - 1], p)
  }

  /** `s.slice(0, n)`. */
  function Take<T>(s: seq<T>, n: nat): (r: seq<T>)
    ensures |r| == if |s| < n then |s| else n
    ensures r == s[..|r|]
  {
    if |s| <= n then s else s[..n]
  }

  /** `s.reduce((sum, x) => sum + f(x), 0)`. */
  function SumOf<T>(s: seq<T>, f: T -> real): real {
    if s == [] then 0.0 else SumOf(s[..|s| - 1], f) + f(s[|s| - 1])
  }

  lemma {:induction false} SumOfAppend<T>(a: seq<T>, b: seq<T>, f: T -> real)
    ensures SumOf(a + b, f) == SumOf(a, f) + SumOf(b, f)
    decreases |b|
  {
    if b == [] {
      assert a + b == a;
    } else {
      assert (a + b)[..|a + b| - 1] == a + b[..|b| - 1];
      SumOfAppend(a, b[..|b| - 1], f);
    }
  }

  /** A sum does not depend on the order of the list. */
  lemma {:induction false} SumOfPermutation<T>(a: seq<T>, b: seq<T>, f: T -> real)
    requires multiset(a) == multiset(b)
    ensures SumOf(a, f) == SumOf(b, f)
    decreases |a|
  {
    if a != [] {
      var x := a[|a| - 1];
      var a' := a[..|a| - 1];
      assert a == a' + [x];
      assert x in multiset(b);
      var j :| 0 <= j < |b| && b[j] == x;
      var b' := b[..j] + b[j + 1..];
      assert b == b[..j] + [x] + b[j + 1..];
      assert multiset(a') == multiset(a) - multiset{x};
      assert multiset(b') == multiset(b) - multiset{x};
      SumOfPermutation(a', b', f);
      SumOfAppend(b[..j] + [x], b[j + 1..], f);
      SumOfAppend(b[..j], [x], f);
      SumOfAppend(b[..j], b[j + 1..], f);
      assert SumOf([x], f) == f(x) by {
        assert [x][..0] == [];
      }
    }
  }

  /** With no negative term, the sum is at least 0. */
  lemma {:induction false} SumOfNonNegative<T>(s: seq<T>, f: T -> real)
    requires forall i :: 0 <= i < |s| ==> f(s[i]) >= 0.0
    ensures SumOf(s, f) >= 0.0
  {
    if s != [] {
      SumOfNonNegative(s[..|s| - 1], f);
    }
  }

  /** A sum of terms each at most those of another function is at most that function's sum. */
  lemma {:induction false} SumOfMonotone<T>(s: seq<T>, f: T -> real, g: T -> real)
    requires forall i :: 0 <= i < |s| ==> f(s[i]) <= g(s[i])
    ensures SumOf(s, f) <= SumOf(s, g)
  {
    if s != [] {
      SumOfMonotone(s[..|s| - 1], f, g);
    }
  }
}
