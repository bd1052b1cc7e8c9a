/** Python's `sorted`: a stable sort by a total preorder. It is modelled by
    insertion sort; a stable sort by a total preorder has only one possible
    result, so any stable algorithm (TimSort included) gives the same
    sequence. */
module Sorting {
  import opened Seqs
  import opened Text

  /** `le` is total and transitive: the comparison a `key=` function induces. */
  ghost predicate TotalPreorder<T(!new)>(le: (T, T) -> bool)
  {
    && (forall a, b :: le(a, b) || le(b, a))
    && (forall a, b, c :: le(a, b) && le(b, c) ==> le(a, c))
  }

  predicate Sorted<T>(s: seq<T>, le: (T, T) -> bool)
  {
    forall i, j :: 0 <= i < j < |s| ==> le(s[i], s[j])
  }

  /** Places `x` after every element of the sorted `t` that is not greater
      than it. */
  function Insert<T>(t: seq<T>, x: T, le: (T, T) -> bool): (r: seq<T>)
    ensures |r| == |t| + 1
    ensures multiset(r) == multiset(t) + multiset{x}
  {
    if t == [] || le(t[|t| - 1], x) then t + [x]
    else
      assert t == t[..|t| - 1] + [t[|t| - 1]];
      Insert(t[..|t| - 1], x, le) + [t[|t| - 1]]
  }

  /** `sorted(s, key=...)`: the result is a permutation of `s`. */
  function Sort<T>(s: seq<T>, le: (T, T) -> bool): (r: seq<T>)
    ensures |r| == |s|
    ensures multiset(r) == multiset(s)
  {
    if s == [] then []
    else
      assert s == s[..|s| - 1] + [s[|s| - 1]];
      Insert(Sort(s[..|s| - 1], le), s[|s| - 1], le)
  }

  lemma {:induction false} InsertSorted<T(!new)>(t: seq<T>, x: T, le: (T, T) -> bool)
    requires TotalPreorder(le) && Sorted(t, le)
    ensures Sorted(Insert(t, x, le), le)
  {
    if t != [] && !le(t[|t| - 1], x) {
      var last := t[|t| - 1];
      var front := t[..|t| - 1];
      InsertSorted(front, x, le);
      var u := Insert(front, x, le);
      forall i | 0 <= i < |u|
        ensures le(u[i], last)
      {
        assert u[i] in multiset(u);
        if u[i] != x {
          assert u[i] in multiset(front);
          assert u[i] in front;
        }
      }
    }
  }

  /** The result of `Sort` is sorted. */
  lemma {:induction false} SortSorted<T(!new)>(s: seq<T>, le: (T, T) -> bool)
    requires TotalPreorder(le)
    ensures Sorted(Sort(s, le), le)
  {
    if s != [] {
      SortSorted(s[..|s| - 1], le);
      InsertSorted(Sort(s[..|s| - 1], le), s[|s| - 1], le);
    }
  }

  /** The elements of `s` that compare equal to `x`, in their order in `s`. */
  function Ties<T>(s: seq<T>, le: (T, T) -> bool, x: T): seq<T>
  {
    if s == [] then []
    else
      var y := s[|s| - 1];
      Ties(s[..|s| - 1], le, x) + (if le(x, y) && le(y, x) then [y] else [])
  }

  lemma {:induction false} InsertTies<T(!new)>(t: seq<T>, y: T, le: (T, T) -> bool, x: T)
    requires TotalPreorder(le)
    ensures Ties(Insert(t, y, le), le, x) == Ties(t, le, x) + (if le(x, y) && le(y, x) then [y] else [])
  {
    if t == [] || le(t[|t| - 1], y) {
      assert (t + [y])[..|t + [y]| - 1] == t;
    } else {
      var last := t[|t| - 1];
      var front := t[..|t| - 1];
      var u := Insert(front, y, le);
      InsertTies(front, y, le, x);
      assert (u + [last])[..|u + [last]| - 1] == u;
      // `last` is strictly greater than `y`, so they are not both tied with `x`.
      assert !(le(x, y) && le(y, x) && le(x, last) && le(last, x));
    }
  }

  /** Stability: elements that compare equal keep their relative order. */
  lemma {:induction false} SortStable<T(!new)>(s: seq<T>, le: (T, T) -> bool, x: T)
    requires TotalPreorder(le)
    ensures Ties(Sort(s, le), le, x) == Ties(s, le, x)
  {
    if s != [] {
      SortStable(s[..|s| - 1], le, x);
      InsertTies(Sort(s[..|s| - 1], le), s[|s| - 1], le, x);
    }
  }

  lemma {:induction false} StrLeIsTotalPreorder()
    ensures TotalPreorder(StrLe)
  {
    forall a, b ensures StrLe(a, b) || StrLe(b, a) {
      StrLeTotal(a, b);
    }
    forall a, b, c | StrLe(a, b) && StrLe(b, c) ensures StrLe(a, c) {
      StrLeTrans(a, b, c);
    }
  }

  /** Strictly increasing in string order. */
  predicate StrictlyIncreasing(s: seq<string>)
  {
    forall i, j :: 0 <= i < j < |s| ==> StrLe(s[i], s[j]) && s[i] != s[j]
  }

  /** The elements of a set, each once, in an order the model leaves open
      (the iteration order of a Python set). */
  method SetElements<T>(s: set<T>) returns (items: seq<T>)
    ensures forall x :: x in items <==> x in s
    ensures NoDup(items)
    ensures |items| == |s|
  {
    items := [];
    var rest := s;
    while rest != {}
      invariant forall x :: x in s <==> x in rest || x in items
      invariant forall x :: x in items ==> x !in rest
      invariant NoDup(items)
      invariant |items| + |rest| == |s|
      decreases |rest|
    {
      var x :| x in rest;
      items := items + [x];
      rest := rest - {x};
    }
  }

  /** `sorted(s)` for a set of strings: every element once, in increasing
      code-point order. */
  method SortedStrings(s: set<string>) returns (r: seq<string>)
    ensures forall x :: x in r <==> x in s
    ensures |r| == |s|
    ensures StrictlyIncreasing(r)
  {
    var items := SetElements(s);
    StrLeIsTotalPreorder();
    r := Sort(items, StrLe);
    SortSorted(items, StrLe);
    PermutationNoDup(items, r);
    forall x ensures x in r <==> x in items {
      assert x in r <==> x in multiset(r);
      assert x in items <==> x in multiset(items);
    }
  }

  lemma {:induction false} NoDupCount<T>(s: seq<T>, x: T)
    requires NoDup(s)
    ensures multiset(s)[x] <= 1
  {
    if s != [] {
      var front := s[..|s| - 1];
      assert s == front + [s[|s| - 1]];
      NoDupCount(front, x);
      if s[|s| - 1] == x {
        assert x !in front;
      }
    }
  }

  /** A permutation of a duplicate-free sequence is duplicate-free. */
  lemma {:induction false} PermutationNoDup<T>(a: seq<T>, b: seq<T>)
    requires NoDup(a) && multiset(a) == multiset(b)
    ensures NoDup(b)
  {
    forall i, j | 0 <= i < j < |b| ensures b[i] != b[j] {
      if b[i] == b[j] {
        assert b == b[..i] + [b[i]] + b[i + 1..j] + [b[j]] + b[j + 1..];
        assert multiset(b)[b[i]] >= 2;
        NoDupCount(a, b[i]);
      }
    }
  }

  /** No two elements of `s` have the same `f`. */
  predicate DistinctBy<T, K(==)>(s: seq<T>, f: T -> K)
  {
    forall i, j :: 0 <= i < j < |s| ==> f(s[i]) != f(s[j])
  }

  /** Reordering keeps the values of `f` distinct. */
  lemma {:induction false} PermutationDistinctBy<T, K>(a: seq<T>, b: seq<T>, f: T -> K)
    requires DistinctBy(a, f) && multiset(a) == multiset(b)
    ensures DistinctBy(b, f)
  {
    assert NoDup(a);
    PermutationNoDup(a, b);
    forall i, j | 0 <= i < j < |b| ensures f(b[i]) != f(b[j]) {
      assert b[i] in multiset(a) && b[j] in multiset(a);
      var i' :| 0 <= i' < |a| && a[i'] == b[i];
      var j' :| 0 <= j' < |a| && a[j'] == b[j];
      assert i' != j';
      if i' < j' {
        assert f(a[i']) != f(a[j']);
      } else {
        assert f(a[j']) != f(a[i']);
      }
    }
  }
}
