/**
 * The label selector's ranking: (PostCount, name) pairs compared as Python
 * compares tuples, sorted largest first, the first K kept, and of those the
 * names whose PostCount is positive.
 */
module Labels {

  /** The (PostCount, name) pair a tag is ranked by. */
  datatype Rank = Rank(count: int, name: string)

  /** Python's string order: by code point, a proper prefix first. */
  predicate StrLess(a: string, b: string)
    decreases |a|
  {
    if |a| == 0 then |b| > 0
    else if |b| == 0 then false
    else a[0] < b[0] || (a[0] == b[0] && StrLess(a[1..], b[1..]))
  }

  /** Python's tuple order on (PostCount, name). */
  predicate RankLess(a: Rank, b: Rank) {
    a.count < b.count || (a.count == b.count && StrLess(a.name, b.name))
  }

  lemma {:induction false} StrLessIrreflexive(a: string)
    ensures !StrLess(a, a)
  {
    if |a| > 0 {
      StrLessIrreflexive(a[1..]);
    }
  }

  lemma {:induction false} StrLessTransitive(a: string, b: string, c: string)
    requires StrLess(a, b) && StrLess(b, c)
    ensures StrLess(a, c)
    decreases |a|
  {
    if |a| > 0 && a[0] == b[0] && b[0] == c[0] {
      StrLessTransitive(a[1..], b[1..], c[1..]);
    }
  }

  lemma {:induction false} StrLessTotal(a: string, b: string)
    requires a != b
    ensures StrLess(a, b) || StrLess(b, a)
    decreases |a|
  {
    if |a| > 0 && |b| > 0 && a[0] == b[0] {
      assert a == [a[0]] + a[1..] && b == [b[0]] + b[1..];
      StrLessTotal(a[1..], b[1..]);
    }
  }

  lemma RankLessIrreflexive(a: Rank)
    ensures !RankLess(a, a)
  {
    StrLessIrreflexive(a.name);
  }

  lemma RankLessTransitive(a: Rank, b: Rank, c: Rank)
    requires RankLess(a, b) && RankLess(b, c)
    ensures RankLess(a, c)
  {
    if a.count == b.count == c.count {
      StrLessTransitive(a.name, b.name, c.name);
    }
  }

  lemma RankLessTotal(a: Rank, b: Rank)
    requires a != b
    ensures RankLess(a, b) || RankLess(b, a)
  {
    if a.count == b.count {
      StrLessTotal(a.name, b.name);
    }
  }

  /** "Not below" is transitive, since RankLess is a strict total order. */
  lemma NotBelowTransitive(a: Rank, b: Rank, c: Rank)
    requires !RankLess(a, b) && !RankLess(b, c)
    ensures !RankLess(a, c)
  {
    if RankLess(a, c) {
      if b == c {
      } else {
        RankLessTotal(b, c);
        RankLessTransitive(a, c, b);
      }
    }
  }

  /** Largest first: no element is below a later one. */
  ghost predicate SortedDesc(s: seq<Rank>) {
    forall i, j :: 0 <= i < j < |s| ==> !RankLess(s[i], s[j])
  }

  /** Places x in front of the first element it is not below. */
  function Insert(x: Rank, s: seq<Rank>): seq<Rank> {
    if |s| == 0 then [x]
    else if !RankLess(x, s[0]) then [x] + s
    else [s[0]] + Insert(x, s[1..])
  }

  lemma {:induction false} InsertPermutes(x: Rank, s: seq<Rank>)
    ensures multiset(Insert(x, s)) == multiset(s) + multiset{x}
  {
    if |s| > 0 && RankLess(x, s[0]) {
      InsertPermutes(x, s[1..]);
      assert s == [s[0]] + s[1..];
    }
  }

  /** Inserting into a largest-first sequence keeps it largest first. */
  lemma {:induction false} InsertSorted(x: Rank, s: seq<Rank>)
    requires SortedDesc(s)
    ensures SortedDesc(Insert(x, s))
  {
    if |s| == 0 {
    } else if !RankLess(x, s[0]) {
      forall j | 0 <= j < |s| ensures !RankLess(x, s[j]) {
        if j > 0 { NotBelowTransitive(x, s[0], s[j]); }
      }
    } else {
      SortedTail(s);
      InsertSorted(x, s[1..]);
      InsertPermutes(x, s[1..]);
      var tail := Insert(x, s[1..]);
      assert s == [s[0]] + s[1..];
      forall j | 0 <= j < |tail| ensures !RankLess(s[0], tail[j]) {
        assert tail[j] in multiset(s[1..]) + multiset{x};
        if tail[j] == x {
          if RankLess(s[0], x) { RankLessTransitive(x, s[0], x); RankLessIrreflexive(x); }
        } else {
          assert tail[j] in s[1..];
        }
      }
    }
  }

  /** Insertion sort, largest first: Python's sorted(..., reverse=True). */
  function SortDesc(s: seq<Rank>): seq<Rank> {
    if |s| == 0 then [] else Insert(s[0], SortDesc(s[1..]))
  }

  /** Sorting only reorders. */
  lemma {:induction false} SortDescPermutes(s: seq<Rank>)
    ensures multiset(SortDesc(s)) == multiset(s)
  {
    if |s| > 0 {
      SortDescPermutes(s[1..]);
      InsertPermutes(s[0], SortDesc(s[1..]));
      assert s == [s[0]] + s[1..];
    }
  }

  lemma {:induction false} SortDescSorted(s: seq<Rank>)
    ensures SortedDesc(SortDesc(s))
  {
    if |s| > 0 {
      SortDescSorted(s[1..]);
      InsertSorted(s[0], SortDesc(s[1..]));
    }
  }

  /** The head of a largest-first sequence is not below any of its elements. */
  lemma HeadIsLargest(a: seq<Rank>, x: Rank)
    requires SortedDesc(a) && x in a
    ensures !RankLess(a[0], x)
  {
    var i :| 0 <= i < |a| && a[i] == x;
    if i == 0 { RankLessIrreflexive(x); }
  }

  lemma SortedTail(a: seq<Rank>)
    requires SortedDesc(a) && |a| > 0
    ensures SortedDesc(a[1..])
  {
    forall i, j | 0 <= i < j < |a| - 1 ensures !RankLess(a[1..][i], a[1..][j]) {
      assert a[1..][i] == a[i + 1] && a[1..][j] == a[j + 1];
    }
  }

  lemma MultisetTail(a: seq<Rank>)
    requires |a| > 0
    ensures multiset(a[1..]) == multiset(a) - multiset{a[0]}
  {
    assert a == [a[0]] + a[1..];
  }

  /** Two largest-first orderings of the same multiset are the same sequence. */
  lemma {:induction false} SortedUnique(a: seq<Rank>, b: seq<Rank>)
    requires SortedDesc(a) && SortedDesc(b)
    requires multiset(a) == multiset(b)
    ensures a == b
  {
    assert |a| == |multiset(a)| == |multiset(b)| == |b|;
    if |a| > 0 {
      assert a[0] in multiset(b) && b[0] in multiset(a);
      HeadIsLargest(b, a[0]);
      HeadIsLargest(a, b[0]);
      if a[0] != b[0] { RankLessTotal(a[0], b[0]); }
      MultisetTail(a);
      MultisetTail(b);
      SortedTail(a);
      SortedTail(b);
      SortedUnique(a[1..], b[1..]);
    }
  }

  /** heapq.nlargest(k, pairs): the k largest pairs, largest first. */
  function TopK(s: seq<Rank>, k: nat): (r: seq<Rank>)
    ensures |r| == if |s| < k then |s| else k
    ensures multiset(r) <= multiset(s)
  {
    var sorted := SortDesc(s);
    var n := if |s| < k then |s| else k;
    SortDescPermutes(s);
    assert sorted == sorted[..n] + sorted[n..];
    sorted[..n]
  }

  /** Every kept pair is at least as large as every pair left out. */
  lemma TopKDominates(s: seq<Rank>, k: nat, x: Rank, y: Rank)
    requires x in TopK(s, k) && y in multiset(s) - multiset(TopK(s, k))
    ensures !RankLess(x, y)
  {
    var sorted := SortDesc(s);
    var n := if |s| < k then |s| else k;
    SortDescSorted(s);
    SortDescPermutes(s);
    SplitSorted(sorted, n);
  }

  /** Cutting a largest-first sequence: the front dominates the back, and the back is what the front leaves over. */
  lemma SplitSorted(sorted: seq<Rank>, n: nat)
    requires SortedDesc(sorted) && n <= |sorted|
    ensures multiset(sorted) - multiset(sorted[..n]) == multiset(sorted[n..])
    ensures forall x, y :: x in sorted[..n] && y in multiset(sorted) - multiset(sorted[..n]) ==> !RankLess(x, y)
  {
    assert sorted == sorted[..n] + sorted[n..];
    assert multiset(sorted) == multiset(sorted[..n]) + multiset(sorted[n..]);
    forall x, y | x in sorted[..n] && y in multiset(sorted[n..]) ensures !RankLess(x, y) {
      var i :| 0 <= i < n && sorted[..n][i] == x;
      var j :| 0 <= j < |sorted| - n && sorted[n..][j] == y;
      assert sorted[i] == x && sorted[n + j] == y;
    }
  }

  /** The names of the pairs whose count is positive. */
  function PositiveNames(top: seq<Rank>): (r: set<string>)
    ensures |r| <= |top|
  {
    if |top| == 0 then {}
    else (if top[0].count > 0 then {top[0].name} else {}) + PositiveNames(top[1..])
  }

  /** A name is kept exactly when some pair with a positive count carries it. */
  lemma {:induction false} PositiveNamesMembers(top: seq<Rank>, n: string)
    ensures n in PositiveNames(top) <==> exists i :: 0 <= i < |top| && top[i].name == n && top[i].count > 0
  {
    if |top| > 0 {
      PositiveNamesMembers(top[1..], n);
      assert forall i :: 1 <= i < |top| ==> top[i] == top[1..][i - 1];
    }
  }

  /** The selector: the positive-count names among the k largest pairs. */
  function SelectNames(s: seq<Rank>, k: nat): (r: set<string>)
    ensures |r| <= k
  {
    PositiveNames(TopK(s, k))
  }

  /**
   * Each selected name comes from a pair of the input whose count is
   * positive; a name without such a pair is never selected.
   */
  lemma SelectNamesBounds(s: seq<Rank>, k: nat)
    ensures forall n :: n in SelectNames(s, k) ==> exists c :: c > 0 && Rank(c, n) in s
  {
    var top := TopK(s, k);
    forall n | n in SelectNames(s, k) ensures exists c :: c > 0 && Rank(c, n) in s {
      PositiveNamesMembers(top, n);
      var i :| 0 <= i < |top| && top[i].name == n && top[i].count > 0;
      assert top[i] in multiset(s);
      assert Rank(top[i].count, n) in s;
    }
  }

  /**
   * A positive pair whose name is not selected is outranked: k pairs are kept
   * and each is at least as large as it (so ties go to the larger name).
   */
  lemma SelectNamesIsTopK(s: seq<Rank>, k: nat, c: int, n: string)
    requires c > 0 && Rank(c, n) in s && n !in SelectNames(s, k)
    ensures |TopK(s, k)| == k
    ensures forall x :: x in TopK(s, k) ==> !RankLess(x, Rank(c, n))
  {
    var top := TopK(s, k);
    var y := Rank(c, n);
    PositiveNamesMembers(top, n);
    assert y !in top;
    assert y in multiset(s) - multiset(top);
    if |s| < k {
      MultisetSubsetSameSize(multiset(top), multiset(s));
    }
    forall x | x in top ensures !RankLess(x, y) {
      TopKDominates(s, k, x, y);
    }
  }

  lemma MultisetSubsetSameSize<T>(a: multiset<T>, b: multiset<T>)
    requires a <= b && |a| == |b|
    ensures a == b
  {
    var d := b - a;
    assert b == a + d;
    assert |d| == 0;
  }

  /**
   * The selection depends only on the multiset of pairs, not on the order in
   * which the spatial index returns them.
   */
  lemma SelectNamesOrderIndependent(s: seq<Rank>, t: seq<Rank>, k: nat)
    requires multiset(s) == multiset(t)
    ensures SelectNames(s, k) == SelectNames(t, k)
  {
    SortDescSorted(s);
    SortDescSorted(t);
    SortDescPermutes(s);
    SortDescPermutes(t);
    SortedUnique(SortDesc(s), SortDesc(t));
  }
}
