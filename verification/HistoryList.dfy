/**
 * The history listing: the query that limits each branch, merges and slices is
 * the whole filtered list, sorted and sliced.
 */
module HistoryList {
  import opened Prelude
  import opened RowOrder

  // Filters of a request; the dates are the bounds of the caller's days.
  datatype Filters = Filters(
    zone: string, start: Option<int>, end: Option<int>, model: Option<string>, status: Option<string>,
    images: Option<bool>, email: Option<string>)

  datatype Query = Query(actor: string, admin: bool, filters: Filters)

  predicate Wanted(r: Row, q: Query, asOf: int) {
    var f := q.filters;
    && r.created <= asOf
    && (q.admin || r.user == q.actor)
    && (f.start.Some? ==> r.created >= f.start.value)
    && (f.end.Some? ==> r.created < f.end.value)
    && (f.model.Some? ==> r.model == f.model.value)
    && (q.admin && f.email.Some? ==> r.email == f.email.value)
    && (f.images.Some? ==> r.image == f.images.value)
    && (f.status.Some? ==> r.status == f.status.value)
  }

  // The keyset bound a cursor adds.
  datatype Bound = Everything | Under(key: SortKey) | Over(key: SortKey)

  predicate InBound(r: Row, bound: Bound) {
    match bound
    case Everything => true
    case Under(key) => KeyBefore(KeyOf(r), key)
    case Over(key) => KeyBefore(key, KeyOf(r))
  }

  // The conditions of one selection.
  datatype Where = Where(image: Option<bool>, query: Option<Query>, asOf: int, bound: Bound)

  predicate Meets(r: Row, p: Where) {
    && (p.image.Some? ==> r.image == p.image.value)
    && (p.query.Some? ==> Wanted(r, p.query.value, p.asOf))
    && InBound(r, p.bound)
  }

  function Inside(bound: Bound): Where {
    Where(None, None, 0, bound)
  }

  function Filter(s: seq<Row>, p: Where): seq<Row> {
    if s == [] then [] else (if Meets(s[0], p) then [s[0]] else []) + Filter(s[1..], p)
  }

  function Drop(s: seq<Row>, n: nat): seq<Row> {
    if n <= |s| then s[n..] else []
  }

  function Reverse(s: seq<Row>): (t: seq<Row>)
    ensures |t| == |s|
  {
    seq(|s|, i requires 0 <= i < |s| => s[|s| - 1 - i])
  }

  /** One branch: the wanted rows of one kind inside the bound. */
  function Branch(rows: seq<Row>, q: Query, asOf: int, bound: Bound, image: bool): seq<Row> {
    Filter(rows, Where(Some(image), Some(q), asOf, bound))
  }

  /** The first rows of two sorted branches, merged by sorting and sliced. */
  function SliceBranches(images: seq<Row>, videos: seq<Row>, asc: bool, offset: nat, n: nat): seq<Row> {
    Take(Drop(Sort(Take(images, offset + n) + Take(videos, offset + n), asc), offset), n)
  }

  /** The listing query: each branch sorted and limited, then merged, sorted and sliced. */
  function ListSql(rows: seq<Row>, q: Query, asOf: int, bound: Bound, offset: nat, pageSize: nat): seq<Row> {
    var asc := bound.Over?;
    SliceBranches(Sort(Branch(rows, q, asOf, bound, true), asc), Sort(Branch(rows, q, asOf, bound, false), asc), asc,
                  offset, pageSize + 1)
  }

  /** Everything wanted, newest first. */
  function Listing(rows: seq<Row>, q: Query, asOf: int): seq<Row> {
    Sort(Filter(rows, Where(None, Some(q), asOf, Everything)), false)
  }

  /** What the query means: the sorted list, cut at the bound and sliced. */
  function Slice(list: seq<Row>, bound: Bound, offset: nat, n: nat): seq<Row> {
    match bound
    case Everything => Take(Drop(list, offset), n)
    case Under(_) => Take(Drop(Filter(list, Inside(bound)), offset), n)
    case Over(_) => Take(Drop(Reverse(Filter(list, Inside(bound))), offset), n)
  }

  // -------------------------------------------------------------- filtering

  lemma {:induction false} FilterCount(s: seq<Row>, p: Where, x: Row)
    ensures multiset(Filter(s, p))[x] == if Meets(x, p) then multiset(s)[x] else 0
  {
    if s != [] {
      assert s == [s[0]] + s[1..];
      FilterCount(s[1..], p, x);
    }
  }

  lemma {:induction false} FilterMembers(s: seq<Row>, p: Where)
    ensures forall x :: x in Filter(s, p) <==> x in s && Meets(x, p)
  {
    if s != [] {
      FilterMembers(s[1..], p);
    }
  }

  lemma {:induction false} FilterKeeps(s: seq<Row>, p: Where, asc: bool)
    ensures DistinctKeys(s) ==> DistinctKeys(Filter(s, p))
    ensures Sorted(s, asc) ==> Sorted(Filter(s, p), asc)
  {
    if s != [] {
      FilterKeeps(s[1..], p, asc);
      FilterMembers(s[1..], p);
      var rest := Filter(s[1..], p);
      forall i | 0 <= i < |rest|
        ensures DistinctKeys(s) ==> KeyOf(rest[i]) != KeyOf(s[0])
        ensures Sorted(s, asc) ==> Precedes(s[0], rest[i], asc)
      {
        assert rest[i] in s[1..];
        var k :| 0 <= k < |s[1..]| && s[1..][k] == rest[i];
      }
    }
  }

  lemma FilterElements(s: seq<Row>, t: seq<Row>, p: Where)
    requires multiset(s) == multiset(t)
    ensures multiset(Filter(s, p)) == multiset(Filter(t, p))
  {
    forall x ensures multiset(Filter(s, p))[x] == multiset(Filter(t, p))[x] {
      FilterCount(s, p, x);
      FilterCount(t, p, x);
    }
  }

  /** Filtering commutes with sorting. */
  lemma SortFilter(s: seq<Row>, p: Where, asc: bool)
    requires DistinctKeys(s)
    ensures Sort(Filter(s, p), asc) == Filter(Sort(s, asc), p)
  {
    FilterKeeps(s, p, asc);
    SortSorts(s, asc);
    SortSorts(Filter(s, p), asc);
    FilterKeeps(Sort(s, asc), p, asc);
    SortElements(s, asc);
    SortElements(Filter(s, p), asc);
    FilterElements(s, Sort(s, asc), p);
    SortedUnique(Sort(Filter(s, p), asc), Filter(Sort(s, asc), p), asc);
  }

  lemma {:induction false} ReverseElements(s: seq<Row>)
    ensures multiset(Reverse(s)) == multiset(s)
  {
    if s != [] {
      ReverseElements(s[1..]);
      assert s == [s[0]] + s[1..];
      assert Reverse(s) == Reverse(s[1..]) + [s[0]];
    }
  }

  /** Ascending order is descending order reversed. */
  lemma SortReverse(s: seq<Row>)
    requires DistinctKeys(s)
    ensures Sort(s, true) == Reverse(Sort(s, false))
  {
    SortSorts(s, true);
    SortSorts(s, false);
    SortElements(s, true);
    SortElements(s, false);
    ReverseElements(Sort(s, false));
    SortedUnique(Sort(s, true), Reverse(Sort(s, false)), true);
  }

  lemma {:induction false} FilterTwice(s: seq<Row>, p: Where, q: Where, both: Where)
    requires forall r :: Meets(r, both) <==> Meets(r, p) && Meets(r, q)
    ensures Filter(s, both) == Filter(Filter(s, p), q)
  {
    if s != [] {
      FilterTwice(s[1..], p, q, both);
      assert Meets(s[0], both) <==> Meets(s[0], p) && Meets(s[0], q);
      if Meets(s[0], p) {
        assert Filter(s, p) == [s[0]] + Filter(s[1..], p);
        assert Filter(s, p)[1..] == Filter(s[1..], p);
      } else {
        assert Filter(s, p) == Filter(s[1..], p);
      }
    }
  }

  // ------------------------------------------------------------- refinement

  lemma BranchesApart(rows: seq<Row>, q: Query, asOf: int, bound: Bound)
    requires DistinctKeys(rows)
    ensures var images, videos := Branch(rows, q, asOf, bound, true), Branch(rows, q, asOf, bound, false);
      && DistinctKeys(images) && DistinctKeys(videos)
      && (forall x, y :: x in images && y in videos ==> KeyOf(x) != KeyOf(y))
      && multiset(images) + multiset(videos) == multiset(Filter(rows, Where(None, Some(q), asOf, bound)))
  {
    var pi := Where(Some(true), Some(q), asOf, bound);
    var pv := Where(Some(false), Some(q), asOf, bound);
    var p := Where(None, Some(q), asOf, bound);
    FilterKeeps(rows, pi, true);
    FilterKeeps(rows, pv, true);
    FilterMembers(rows, pi);
    FilterMembers(rows, pv);
    forall x ensures (multiset(Filter(rows, pi)) + multiset(Filter(rows, pv)))[x] == multiset(Filter(rows, p))[x] {
      FilterCount(rows, pi, x);
      FilterCount(rows, pv, x);
      FilterCount(rows, p, x);
    }
  }

  lemma TakeSorted(s: seq<Row>, n: nat, asc: bool)
    requires Sorted(s, asc)
    ensures Sorted(Take(s, n), asc) && (forall r :: r in Take(s, n) ==> r in s)
  {
  }

  /** Sorting two sorted lists with different keys is merging them. */
  lemma SortIsMerge(a: seq<Row>, b: seq<Row>, s: seq<Row>, asc: bool)
    requires Sorted(a, asc) && Sorted(b, asc) && ApartKeys(a, b)
    requires multiset(s) == multiset(a) + multiset(b) && DistinctKeys(s)
    ensures Sort(s, asc) == Merge(a, b, asc)
  {
    SortSorts(s, asc);
    SortElements(s, asc);
    MergeSorted(a, b, asc);
    MergeElements(a, b, asc);
    SortedUnique(Sort(s, asc), Merge(a, b, asc), asc);
  }

  lemma ApartDistinct(a: seq<Row>, b: seq<Row>, asc: bool)
    requires Sorted(a, asc) && Sorted(b, asc) && ApartKeys(a, b)
    ensures DistinctKeys(a + b)
  {
    forall i, j | 0 <= i < j < |a + b| ensures KeyOf((a + b)[i]) != KeyOf((a + b)[j]) {
      PrecedesTotal((a + b)[i], (a + b)[j], asc);
      if j < |a| || |a| <= i {
        assert Precedes((a + b)[i], (a + b)[j], asc);
      }
    }
  }

  lemma TakeDrop(s: seq<Row>, t: seq<Row>, offset: nat, n: nat)
    requires Take(s, offset + n) == Take(t, offset + n)
    ensures Take(Drop(s, offset), n) == Take(Drop(t, offset), n)
  {
    assert Take(Drop(s, offset), n) == Drop(Take(s, offset + n), offset);
    assert Take(Drop(t, offset), n) == Drop(Take(t, offset + n), offset);
  }

  lemma SortedBranches(rows: seq<Row>, q: Query, asOf: int, bound: Bound, asc: bool)
    requires DistinctKeys(rows)
    ensures var a := Sort(Branch(rows, q, asOf, bound, true), asc);
      var b := Sort(Branch(rows, q, asOf, bound, false), asc);
      && Sorted(a, asc) && Sorted(b, asc) && ApartKeys(a, b)
      && Sort(Filter(rows, Where(None, Some(q), asOf, bound)), asc) == Merge(a, b, asc)
  {
    var all := Filter(rows, Where(None, Some(q), asOf, bound));
    var a0, b0 := Branch(rows, q, asOf, bound, true), Branch(rows, q, asOf, bound, false);
    BranchesApart(rows, q, asOf, bound);
    FilterKeeps(rows, Where(None, Some(q), asOf, bound), asc);
    var a, b := Sort(a0, asc), Sort(b0, asc);
    SortSorts(a0, asc);
    SortSorts(b0, asc);
    SortElements(a0, asc);
    SortElements(b0, asc);
    SameElements(a0, a);
    SameElements(b0, b);
    forall i, j | 0 <= i < |a| && 0 <= j < |b| ensures KeyOf(a[i]) != KeyOf(b[j]) {
      assert a[i] in a0 && b[j] in b0;
    }
    SortIsMerge(a, b, all, asc);
  }

  lemma LimitedMerge(a: seq<Row>, b: seq<Row>, n: nat, asc: bool)
    requires Sorted(a, asc) && Sorted(b, asc) && ApartKeys(a, b)
    ensures Take(Sort(Take(a, n) + Take(b, n), asc), n) == Take(Merge(a, b, asc), n)
  {
    var a', b' := Take(a, n), Take(b, n);
    TakeSorted(a, n, asc);
    TakeSorted(b, n, asc);
    assert ApartKeys(a', b');
    ApartDistinct(a', b', asc);
    SortIsMerge(a', b', a' + b', asc);
    MergeTake(a, b, n, n, asc);
  }

  /** Limiting each branch to the rows the slice can reach loses nothing. */
  lemma BranchLimitHarmless(rows: seq<Row>, q: Query, asOf: int, bound: Bound, offset: nat, pageSize: nat)
    requires DistinctKeys(rows)
    ensures ListSql(rows, q, asOf, bound, offset, pageSize)
            == Take(Drop(Sort(Filter(rows, Where(None, Some(q), asOf, bound)), bound.Over?), offset), pageSize + 1)
  {
    var asc := bound.Over?;
    var all := Sort(Filter(rows, Where(None, Some(q), asOf, bound)), asc);
    var a := Sort(Branch(rows, q, asOf, bound, true), asc);
    var b := Sort(Branch(rows, q, asOf, bound, false), asc);
    SortedBranches(rows, q, asOf, bound, asc);
    LimitedSlice(a, b, all, asc, offset, pageSize + 1);
  }

  lemma LimitedSlice(a: seq<Row>, b: seq<Row>, all: seq<Row>, asc: bool, offset: nat, n: nat)
    requires Sorted(a, asc) && Sorted(b, asc) && ApartKeys(a, b) && all == Merge(a, b, asc)
    ensures SliceBranches(a, b, asc, offset, n) == Take(Drop(all, offset), n)
  {
    LimitedMerge(a, b, offset + n, asc);
    TakeDrop(all, Sort(Take(a, offset + n) + Take(b, offset + n), asc), offset, n);
  }

  /**
   * The listing query equals slicing the fully sorted list, for every filter, in
   * both directions and with the keyset bound applied.
   */
  lemma ListSqlRefines(rows: seq<Row>, q: Query, asOf: int, bound: Bound, offset: nat, pageSize: nat)
    requires DistinctKeys(rows)
    ensures ListSql(rows, q, asOf, bound, offset, pageSize) == Slice(Listing(rows, q, asOf), bound, offset, pageSize + 1)
  {
    var wanted := Where(None, Some(q), asOf, Everything);
    var inside := Inside(bound);
    var both := Where(None, Some(q), asOf, bound);
    BranchLimitHarmless(rows, q, asOf, bound, offset, pageSize);
    FilterTwice(rows, wanted, inside, both);
    FilterKeeps(rows, wanted, false);
    FilterKeeps(rows, both, false);
    SortFilter(Filter(rows, wanted), inside, false);
    SortReverse(Filter(rows, both));
    if bound.Everything? {
      FilterAll(Listing(rows, q, asOf), inside);
    }
  }

  lemma {:induction false} FilterAll(s: seq<Row>, p: Where)
    requires forall r :: r in s ==> Meets(r, p)
    ensures Filter(s, p) == s
  {
    if s != [] {
      FilterAll(s[1..], p);
    }
  }

  lemma {:induction false} FilterNone(s: seq<Row>, p: Where)
    requires forall r :: r in s ==> !Meets(r, p)
    ensures Filter(s, p) == []
  {
    if s != [] {
      FilterNone(s[1..], p);
    }
  }

  lemma {:induction false} FilterConcat(s: seq<Row>, t: seq<Row>, p: Where)
    ensures Filter(s + t, p) == Filter(s, p) + Filter(t, p)
  {
    if s == [] {
      assert s + t == t;
    } else {
      FilterConcat(s[1..], t, p);
      assert (s + t)[1..] == s[1..] + t;
    }
  }

  lemma BoundPosition(list: seq<Row>, i: nat, k: nat)
    requires Sorted(list, false) && i < |list| && k < |list|
    ensures InBound(list[k], Under(KeyOf(list[i]))) <==> i < k
    ensures InBound(list[k], Over(KeyOf(list[i]))) <==> k < i
  {
    KeyTotal(KeyOf(list[k]), KeyOf(list[i]));
    assert k < i ==> Precedes(list[k], list[i], false);
    assert i < k ==> Precedes(list[i], list[k], false);
  }

  lemma UnderCuts(list: seq<Row>, i: nat)
    requires Sorted(list, false) && i < |list|
    ensures Filter(list, Inside(Under(KeyOf(list[i])))) == list[i + 1..]
  {
    var under := Inside(Under(KeyOf(list[i])));
    forall k | 0 <= k < |list| ensures Meets(list[k], under) <==> i < k {
      BoundPosition(list, i, k);
    }
    assert list == list[..i + 1] + list[i + 1..];
    FilterConcat(list[..i + 1], list[i + 1..], under);
    FilterNone(list[..i + 1], under);
    FilterAll(list[i + 1..], under);
  }

  lemma OverCuts(list: seq<Row>, i: nat)
    requires Sorted(list, false) && i < |list|
    ensures Filter(list, Inside(Over(KeyOf(list[i])))) == list[..i]
  {
    var over := Inside(Over(KeyOf(list[i])));
    forall k | 0 <= k < |list| ensures Meets(list[k], over) <==> k < i {
      BoundPosition(list, i, k);
    }
    assert list == list[..i] + list[i..];
    FilterConcat(list[..i], list[i..], over);
    FilterAll(list[..i], over);
    FilterNone(list[i..], over);
  }

  /** A bound at a listed row cuts the list just after, or just before, that row. */
  lemma BoundCuts(list: seq<Row>, i: nat, n: nat)
    requires Sorted(list, false) && i < |list|
    ensures Slice(list, Under(KeyOf(list[i])), 0, n) == Take(list[i + 1..], n)
    ensures Slice(list, Over(KeyOf(list[i])), 0, n) == Take(Reverse(list[..i]), n)
  {
    UnderCuts(list, i);
    OverCuts(list, i);
  }

  /** Rows created after the reference time do not show. */
  lemma LaterRowsInvisible(rows: seq<Row>, later: seq<Row>, q: Query, asOf: int)
    requires forall r :: r in later ==> r.created > asOf
    ensures Listing(rows + later, q, asOf) == Listing(rows, q, asOf)
  {
    var wanted := Where(None, Some(q), asOf, Everything);
    FilterConcat(rows, later, wanted);
    FilterNone(later, wanted);
    assert Filter(rows + later, wanted) == Filter(rows, wanted);
  }
}
