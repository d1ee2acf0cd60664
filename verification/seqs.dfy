/** Sequence operations shared by the Python and JavaScript models: list
    comprehensions with a condition (`Filter`), `list(dict.fromkeys(xs))`
    (`Dedup`) and the stable `Array.prototype.sort` (`SortBy`). */
module Seqs {

  // ---------------------------------------------------------------------------
  // Filtering: `[x for x in s if keep(x)]`, `s.filter(keep)`
  // ---------------------------------------------------------------------------

  function Filter<T>(s: seq<T>, keep: T -> bool): (r: seq<T>)
    ensures |r| <= |s|
  {
    if s == [] then []
    else (if keep(s[0]) then [s[0]] else []) + Filter(s[1..], keep)
  }

  /** Every element the filter returns passes the test and comes from the input, and every passing element is returned. */
  lemma {:induction false} FilterMembers<T>(s: seq<T>, keep: T -> bool)
    ensures forall i :: 0 <= i < |Filter(s, keep)| ==> keep(Filter(s, keep)[i])
    ensures forall x :: x in Filter(s, keep) ==> x in s
    ensures forall i :: 0 <= i < |s| && keep(s[i]) ==> s[i] in Filter(s, keep)
  {
    if s != [] {
      FilterMembers(s[1..], keep);
      var head := if keep(s[0]) then [s[0]] else [];
      var r := Filter(s, keep);
      assert r == head + Filter(s[1..], keep);
      forall i | 0 <= i < |s| && keep(s[i])
        ensures s[i] in r
      {
        if i > 0 {
          assert s[i] == s[1..][i - 1];
        }
      }
    }
  }

  /** Filtering keeps every kept element as often as it occurs and drops every other one. */
  lemma {:induction false} FilterCounts<T>(s: seq<T>, keep: T -> bool, x: T)
    ensures multiset(Filter(s, keep))[x] == if keep(x) then multiset(s)[x] else 0
  {
    if s != [] {
      FilterCounts(s[1..], keep, x);
      var head := if keep(s[0]) then [s[0]] else [];
      assert Filter(s, keep) == head + Filter(s[1..], keep);
      assert multiset(Filter(s, keep)) == multiset(head) + multiset(Filter(s[1..], keep));
      assert s == [s[0]] + s[1..];
      assert multiset(s) == multiset{s[0]} + multiset(s[1..]);
    }
  }

  /** Filtering distributes over concatenation, so the relative order of kept elements is unchanged. */
  lemma {:induction false} FilterConcat<T>(a: seq<T>, b: seq<T>, keep: T -> bool)
    ensures Filter(a + b, keep) == Filter(a, keep) + Filter(b, keep)
  {
    if a == [] {
      assert a + b == b;
    } else {
      var head := if keep(a[0]) then [a[0]] else [];
      assert (a + b)[0] == a[0];
      assert (a + b)[1..] == a[1..] + b;
      assert Filter(a + b, keep) == head + Filter(a[1..] + b, keep);
      FilterConcat(a[1..], b, keep);
      assert Filter(a, keep) == head + Filter(a[1..], keep);
    }
  }

  /** A filter whose condition holds everywhere returns its input. */
  lemma {:induction false} FilterKeepsAll<T>(s: seq<T>, keep: T -> bool)
    requires forall i :: 0 <= i < |s| ==> keep(s[i])
    ensures Filter(s, keep) == s
  {
    if s != [] {
      FilterKeepsAll(s[1..], keep);
    }
  }

  // ---------------------------------------------------------------------------
  // First-occurrence de-duplication: `list(dict.fromkeys(s))`
  // ---------------------------------------------------------------------------

  predicate NoDuplicates<T(==)>(s: seq<T>) {
    forall i, j :: 0 <= i < j < |s| ==> s[i] != s[j]
  }

  /** The index of the first occurrence of `x` in `s`. */
  function FirstIndex<T(==)>(s: seq<T>, x: T): (i: nat)
    requires x in s
    ensures i < |s| && s[i] == x && x !in s[..i]
  {
    if s[0] == x then 0 else 1 + FirstIndex(s[1..], x)
  }

  /** Inserting keys one by one into an insertion-ordered dictionary: a key already present keeps its place. */
  function Dedup<T(==)>(s: seq<T>): (r: seq<T>)
    ensures NoDuplicates(r)
    decreases |s|
  {
    if s == [] then []
    else
      var p := s[..|s| - 1];
      var r := Dedup(p);
      if s[|s| - 1] in r then r else r + [s[|s| - 1]]
  }

  /** `Dedup` keeps exactly the elements of its input. */
  lemma {:induction false} DedupMembers<T>(s: seq<T>)
    ensures forall x :: x in Dedup(s) <==> x in s
    decreases |s|
  {
    if s != [] {
      var p := s[..|s| - 1];
      DedupMembers(p);
      assert s == p + [s[|s| - 1]];
    }
  }

  lemma {:induction false} FirstIndexOfPrefix<T>(s: seq<T>, y: T)
    requires s != [] && y in s[..|s| - 1]
    ensures FirstIndex(s, y) == FirstIndex(s[..|s| - 1], y)
  {
    var p := s[..|s| - 1];
    if s[0] != y {
      var t := s[1..];
      assert p[0] == s[0];
      assert t[..|t| - 1] == p[1..];
      assert y in p[1..] by {
        assert p == [p[0]] + p[1..];
      }
      FirstIndexOfPrefix(t, y);
      assert FirstIndex(s, y) == 1 + FirstIndex(t, y);
      assert FirstIndex(p, y) == 1 + FirstIndex(p[1..], y);
    }
  }

  /** An element kept from the prefix is first found at the same place in the whole list. */
  lemma DedupPrefixIndex<T>(s: seq<T>, y: T)
    requires s != [] && y in Dedup(s[..|s| - 1])
    ensures y in s && y in s[..|s| - 1]
    ensures FirstIndex(s, y) == FirstIndex(s[..|s| - 1], y) < |s| - 1
  {
    DedupMembers(s[..|s| - 1]);
    FirstIndexOfPrefix(s, y);
  }

  /** `Dedup` lists the distinct elements in the order of their first occurrence. */
  lemma {:induction false} DedupFirstOccurrenceOrder<T>(s: seq<T>)
    ensures forall x :: x in Dedup(s) <==> x in s
    ensures forall i, j :: 0 <= i < j < |Dedup(s)| ==> FirstIndex(s, Dedup(s)[i]) < FirstIndex(s, Dedup(s)[j])
  {
    DedupMembers(s);
    if s != [] {
      var p := s[..|s| - 1];
      var x := s[|s| - 1];
      DedupFirstOccurrenceOrder(p);
      var r, d := Dedup(p), Dedup(s);
      if x !in r {
        DedupMembers(p);
        assert d == r + [x];
        assert FirstIndex(s, x) == |p|;
      }
      forall i, j | 0 <= i < j < |d|
        ensures FirstIndex(s, d[i]) < FirstIndex(s, d[j])
      {
        assert d[i] == r[i];
        DedupPrefixIndex(s, r[i]);
        if j < |r| {
          assert d[j] == r[j];
          DedupPrefixIndex(s, r[j]);
        }
      }
    }
  }

  /** A list without duplicates is left as it is. */
  lemma {:induction false} DedupKeepsDistinct<T>(s: seq<T>)
    requires NoDuplicates(s)
    ensures Dedup(s) == s
  {
    if s != [] {
      var p := s[..|s| - 1];
      assert NoDuplicates(p);
      DedupKeepsDistinct(p);
      assert s[|s| - 1] !in p;
      assert s == p + [s[|s| - 1]];
    }
  }

  // ---------------------------------------------------------------------------
  // Stable sort with a comparator: `list.sort(cmp)` on a fresh copy
  // ---------------------------------------------------------------------------

  /** `le(a, b)`: the comparator allows `a` before `b`. */
  ghost predicate Total<T(!new)>(le: (T, T) -> bool) {
    forall a, b :: le(a, b) || le(b, a)
  }

  ghost predicate Transitive<T(!new)>(le: (T, T) -> bool) {
    forall a, b, c :: le(a, b) && le(b, c) ==> le(a, c)
  }

  predicate SortedBy<T>(s: seq<T>, le: (T, T) -> bool) {
    forall i, j :: 0 <= i < j < |s| ==> le(s[i], s[j])
  }

  /** Places `x` in front of the first element it may precede, so that it stays ahead of equal elements. */
  function Insert<T>(x: T, s: seq<T>, le: (T, T) -> bool): (r: seq<T>)
    ensures multiset(r) == multiset(s) + multiset{x}
  {
    if s == [] || le(x, s[0]) then [x] + s
    else
      assert s == [s[0]] + s[1..];
      [s[0]] + Insert(x, s[1..], le)
  }

  function SortBy<T>(s: seq<T>, le: (T, T) -> bool): (r: seq<T>)
    ensures multiset(r) == multiset(s)
    ensures |r| == |s|
  {
    if s == [] then []
    else
      assert s == [s[0]] + s[1..];
      Insert(s[0], SortBy(s[1..], le), le)
  }

  lemma {:induction false} InsertSorted<T(!new)>(x: T, s: seq<T>, le: (T, T) -> bool)
    requires Total(le) && Transitive(le)
    requires SortedBy(s, le)
    ensures SortedBy(Insert(x, s, le), le)
  {
    if s != [] && !le(x, s[0]) {
      InsertSorted(x, s[1..], le);
      var r := Insert(x, s, le);
      var t := Insert(x, s[1..], le);
      assert r == [s[0]] + t;
      forall k | 0 <= k < |t| ensures le(s[0], t[k]) {
        assert t[k] in multiset(t);
        assert t[k] == x || t[k] in multiset(s[1..]);
        if t[k] != x {
          assert t[k] in s[1..];
        }
      }
    }
  }

  /** With a total, transitive comparator the result is ordered. */
  lemma {:induction false} SortBySorted<T(!new)>(s: seq<T>, le: (T, T) -> bool)
    requires Total(le) && Transitive(le)
    ensures SortedBy(SortBy(s, le), le)
  {
    if s != [] {
      SortBySorted(s[1..], le);
      InsertSorted(s[0], SortBy(s[1..], le), le);
    }
  }

  /** Input that is already in order comes back unchanged. */
  lemma {:induction false} SortByKeepsSorted<T>(s: seq<T>, le: (T, T) -> bool)
    requires SortedBy(s, le)
    ensures SortBy(s, le) == s
  {
    if s != [] {
      SortByKeepsSorted(s[1..], le);
      assert s == [s[0]] + s[1..];
    }
  }

  /** The elements the comparator ties with `c`: allowed both before and after it. */
  function Tied<T>(le: (T, T) -> bool, c: T): T -> bool {
    y => le(c, y) && le(y, c)
  }

  /** The comparator allows any two elements `keep` picks in either order. */
  ghost predicate Interchangeable<T(!new)>(keep: T -> bool, le: (T, T) -> bool) {
    forall a, b :: keep(a) && keep(b) ==> le(a, b)
  }

  /** With a transitive comparator, the elements tied with `c` are interchangeable. */
  lemma TiedInterchangeable<T(!new)>(le: (T, T) -> bool, c: T)
    requires Transitive(le)
    ensures Interchangeable(Tied(le, c), le)
  {
    forall a, b | Tied(le, c)(a) && Tied(le, c)(b)
      ensures le(a, b)
    {
      assert le(a, c) && le(c, b);
    }
  }

  /** Filtering a list with a head keeps the head iff it passes, then filters the rest. */
  lemma FilterCons<T>(y: T, r: seq<T>, keep: T -> bool)
    ensures Filter([y] + r, keep) == (if keep(y) then [y] else []) + Filter(r, keep)
  {
    assert ([y] + r)[0] == y && ([y] + r)[1..] == r;
  }

  /** `Insert` only moves `x` past elements that `keep` does not pick along with it. */
  lemma {:induction false} InsertKeepsOrder<T(!new)>(x: T, s: seq<T>, le: (T, T) -> bool, keep: T -> bool)
    requires Interchangeable(keep, le)
    ensures Filter(Insert(x, s, le), keep) == Filter([x] + s, keep)
  {
    if s != [] && !le(x, s[0]) {
      var t := Insert(x, s[1..], le);
      InsertKeepsOrder(x, s[1..], le, keep);
      assert Insert(x, s, le) == [s[0]] + t;
      assert s == [s[0]] + s[1..];
      assert !(keep(x) && keep(s[0]));
      FilterCons(s[0], t, keep);
      FilterCons(x, s[1..], keep);
      FilterCons(s[0], s[1..], keep);
      FilterCons(x, s, keep);
      var rest := Filter(s[1..], keep);
      if keep(x) {
        assert Filter(Insert(x, s, le), keep) == Filter(t, keep) == [x] + rest;
        assert Filter(s, keep) == rest;
      } else {
        assert Filter(t, keep) == rest;
        assert Filter([x] + s, keep) == Filter(s, keep);
      }
    } else {
      assert Insert(x, s, le) == [x] + s;
    }
  }

  /** Sorting keeps the relative order of the elements `keep` picks. */
  lemma {:induction false} SortByKeepsOrder<T(!new)>(s: seq<T>, le: (T, T) -> bool, keep: T -> bool)
    requires Interchangeable(keep, le)
    ensures Filter(SortBy(s, le), keep) == Filter(s, keep)
  {
    if s != [] {
      SortByKeepsOrder(s[1..], le, keep);
      InsertKeepsOrder(s[0], SortBy(s[1..], le), le, keep);
      assert s == [s[0]] + s[1..];
      FilterCons(s[0], SortBy(s[1..], le), keep);
      FilterCons(s[0], s[1..], keep);
    }
  }

  /** Stability: the elements tied with any `c` come out in the order they went in. */
  lemma SortByStable<T(!new)>(s: seq<T>, le: (T, T) -> bool, c: T)
    requires Transitive(le)
    ensures Filter(SortBy(s, le), Tied(le, c)) == Filter(s, Tied(le, c))
  {
    TiedInterchangeable(le, c);
    SortByKeepsOrder(s, le, Tied(le, c));
  }
}
