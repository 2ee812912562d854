/**
 * The order of history rows, and sorted lists of them: sorting, merging,
 * filtering and reversing determine one another.
 */
module RowOrder {
  import opened Prelude

  // `rank` is 1 for an image and 0 for a video.
  datatype SortKey = SortKey(created: int, rank: int, id: string)

  datatype Row = Row(image: bool, id: string, created: int, user: string, email: string, model: string, status: string)

  function KeyOf(r: Row): SortKey {
    SortKey(r.created, if r.image then 1 else 0, r.id)
  }

  predicate KeyBefore(a: SortKey, b: SortKey) {
    || a.created < b.created
    || (a.created == b.created && (a.rank < b.rank || (a.rank == b.rank && TextBefore(a.id, b.id))))
  }

  lemma KeyTotal(a: SortKey, b: SortKey)
    ensures KeyBefore(a, b) || a == b || KeyBefore(b, a)
    ensures !(KeyBefore(a, b) && KeyBefore(b, a)) && !KeyBefore(a, a)
  {
    TextTotal(a.id, b.id);
    TextTotal(a.id, a.id);
  }

  lemma KeyTransitive(a: SortKey, b: SortKey, c: SortKey)
    requires KeyBefore(a, b) && KeyBefore(b, c)
    ensures KeyBefore(a, c)
  {
    if a.created == b.created == c.created && a.rank == b.rank == c.rank {
      TextTransitive(a.id, b.id, c.id);
    }
  }

  // The row order of a listing: ascending or descending keys.
  predicate Precedes(a: Row, b: Row, asc: bool) {
    if asc then KeyBefore(KeyOf(a), KeyOf(b)) else KeyBefore(KeyOf(b), KeyOf(a))
  }

  lemma PrecedesTransitive(a: Row, b: Row, c: Row, asc: bool)
    requires Precedes(a, b, asc) && Precedes(b, c, asc)
    ensures Precedes(a, c, asc)
  {
    if asc { KeyTransitive(KeyOf(a), KeyOf(b), KeyOf(c)); } else { KeyTransitive(KeyOf(c), KeyOf(b), KeyOf(a)); }
  }

  lemma PrecedesTotal(a: Row, b: Row, asc: bool)
    ensures KeyOf(a) == KeyOf(b) || Precedes(a, b, asc) || Precedes(b, a, asc)
    ensures !(Precedes(a, b, asc) && Precedes(b, a, asc)) && !Precedes(a, a, asc)
  {
    KeyTotal(KeyOf(a), KeyOf(b));
    KeyTotal(KeyOf(a), KeyOf(a));
  }

  ghost predicate Sorted(s: seq<Row>, asc: bool) {
    forall i, j :: 0 <= i < j < |s| ==> Precedes(s[i], s[j], asc)
  }

  ghost predicate DistinctKeys(s: seq<Row>) {
    forall i, j :: 0 <= i < j < |s| ==> KeyOf(s[i]) != KeyOf(s[j])
  }

  // -------------------------------------------------------------- sorting

  function Insert(r: Row, s: seq<Row>, asc: bool): seq<Row> {
    if s == [] then [r]
    else if Precedes(r, s[0], asc) then [r] + s
    else [s[0]] + Insert(r, s[1..], asc)
  }

  /** ORDER BY created_at, kind_rank, id. */
  function Sort(s: seq<Row>, asc: bool): seq<Row> {
    if s == [] then [] else Insert(s[0], Sort(s[1..], asc), asc)
  }

  lemma {:induction false} InsertElements(r: Row, s: seq<Row>, asc: bool)
    ensures multiset(Insert(r, s, asc)) == multiset(s) + multiset{r}
  {
    if s != [] && !Precedes(r, s[0], asc) {
      InsertElements(r, s[1..], asc);
      MultisetUncons(s);
    }
  }

  /** Sorting only rearranges. */
  lemma {:induction false} SortElements(s: seq<Row>, asc: bool)
    ensures multiset(Sort(s, asc)) == multiset(s)
  {
    if s != [] {
      SortElements(s[1..], asc);
      InsertElements(s[0], Sort(s[1..], asc), asc);
      MultisetUncons(s);
    }
  }

  lemma SameElements(s: seq<Row>, t: seq<Row>)
    requires multiset(s) == multiset(t)
    ensures |s| == |t| && forall r :: r in s <==> r in t
  {
    assert |s| == |multiset(s)| && |t| == |multiset(t)|;
    forall r ensures r in s <==> r in t {
      assert r in s <==> r in multiset(s);
      assert r in t <==> r in multiset(t);
    }
  }

  lemma {:induction false} InsertSorted(r: Row, s: seq<Row>, asc: bool)
    requires Sorted(s, asc) && forall x :: x in s ==> KeyOf(x) != KeyOf(r)
    ensures Sorted(Insert(r, s, asc), asc)
  {
    if s != [] && !Precedes(r, s[0], asc) {
      InsertSorted(r, s[1..], asc);
      PrecedesTotal(r, s[0], asc);
      var rest := Insert(r, s[1..], asc);
      InsertElements(r, s[1..], asc);
      assert multiset(rest) == multiset(s[1..] + [r]);
      SameElements(rest, s[1..] + [r]);
      forall j | 0 <= j < |rest| ensures Precedes(s[0], rest[j], asc) {
        assert rest[j] in s[1..] + [r];
      }
    } else if s != [] {
      forall j | 0 < j < |s| ensures Precedes(r, s[j], asc) {
        PrecedesTransitive(r, s[0], s[j], asc);
      }
    }
  }

  lemma {:induction false} SortSorts(s: seq<Row>, asc: bool)
    requires DistinctKeys(s)
    ensures Sorted(Sort(s, asc), asc)
  {
    if s != [] {
      SortSorts(s[1..], asc);
      SortElements(s[1..], asc);
      SameElements(s[1..], Sort(s[1..], asc));
      forall x | x in Sort(s[1..], asc) ensures KeyOf(x) != KeyOf(s[0]) {
        var k :| 0 <= k < |s[1..]| && s[1..][k] == x;
      }
      InsertSorted(s[0], Sort(s[1..], asc), asc);
    }
  }

  lemma HeadPrecedes(s: seq<Row>, asc: bool)
    requires Sorted(s, asc) && s != []
    ensures forall x :: x in s ==> x == s[0] || Precedes(s[0], x, asc)
  {
  }

  lemma SameHead(s: seq<Row>, t: seq<Row>, asc: bool)
    requires Sorted(s, asc) && Sorted(t, asc) && multiset(s) == multiset(t) && s != [] && t != []
    ensures s[0] == t[0]
  {
    SameElements(s, t);
    HeadPrecedes(s, asc);
    HeadPrecedes(t, asc);
    assert t[0] in s && s[0] in t;
    PrecedesTotal(s[0], t[0], asc);
  }

  lemma SameTails(s: seq<Row>, t: seq<Row>)
    requires s != [] && t != [] && s[0] == t[0] && multiset(s) == multiset(t)
    ensures multiset(s[1..]) == multiset(t[1..])
  {
    MultisetUncons(s);
    MultisetUncons(t);
    assert multiset(s[1..]) == multiset(s) - multiset{s[0]};
    assert multiset(t[1..]) == multiset(t) - multiset{t[0]};
  }

  /** A list has only one sorted arrangement. */
  lemma {:induction false} SortedUnique(s: seq<Row>, t: seq<Row>, asc: bool)
    requires Sorted(s, asc) && Sorted(t, asc) && multiset(s) == multiset(t)
    ensures s == t
  {
    SameElements(s, t);
    if s != [] {
      SameHead(s, t, asc);
      SameTails(s, t);
      SortedUnique(s[1..], t[1..], asc);
      assert s == [s[0]] + s[1..] && t == [t[0]] + t[1..];
    }
  }

  // -------------------------------------------------------------- merging

  function Merge(a: seq<Row>, b: seq<Row>, asc: bool): seq<Row> {
    if a == [] then b
    else if b == [] then a
    else if Precedes(a[0], b[0], asc) then [a[0]] + Merge(a[1..], b, asc)
    else [b[0]] + Merge(a, b[1..], asc)
  }

  lemma {:induction false} MergeElements(a: seq<Row>, b: seq<Row>, asc: bool)
    ensures multiset(Merge(a, b, asc)) == multiset(a) + multiset(b)
  {
    if a != [] && b != [] {
      if Precedes(a[0], b[0], asc) {
        MergeElements(a[1..], b, asc);
        MultisetUncons(a);
        MultisetUncons([a[0]] + Merge(a[1..], b, asc));
      } else {
        MergeElements(a, b[1..], asc);
        MultisetUncons(b);
        MultisetUncons([b[0]] + Merge(a, b[1..], asc));
      }
    }
  }

  ghost predicate ApartKeys(a: seq<Row>, b: seq<Row>) {
    forall i, j :: 0 <= i < |a| && 0 <= j < |b| ==> KeyOf(a[i]) != KeyOf(b[j])
  }

  lemma HeadFirst(head: Row, a: seq<Row>, b: seq<Row>, rest: seq<Row>, asc: bool)
    requires multiset(rest) == multiset(a) + multiset(b) && Sorted(rest, asc)
    requires forall x :: x in a || x in b ==> Precedes(head, x, asc)
    ensures Sorted([head] + rest, asc)
  {
    forall j | 0 <= j < |rest| ensures Precedes(head, rest[j], asc) {
      assert rest[j] in multiset(rest);
    }
  }

  lemma {:induction false} MergeSorted(a: seq<Row>, b: seq<Row>, asc: bool)
    requires Sorted(a, asc) && Sorted(b, asc) && ApartKeys(a, b)
    ensures Sorted(Merge(a, b, asc), asc)
  {
    if a != [] && b != [] {
      PrecedesTotal(a[0], b[0], asc);
      if Precedes(a[0], b[0], asc) {
        MergeSorted(a[1..], b, asc);
        MergeElements(a[1..], b, asc);
        forall x | x in a[1..] || x in b ensures Precedes(a[0], x, asc) {
          if x in b && x != b[0] { PrecedesTransitive(a[0], b[0], x, asc); }
        }
        HeadFirst(a[0], a[1..], b, Merge(a[1..], b, asc), asc);
      } else {
        MergeSorted(a, b[1..], asc);
        MergeElements(a, b[1..], asc);
        forall x | x in a || x in b[1..] ensures Precedes(b[0], x, asc) {
          if x in a && x != a[0] { PrecedesTransitive(b[0], a[0], x, asc); }
        }
        HeadFirst(b[0], a, b[1..], Merge(a, b[1..], asc), asc);
      }
    }
  }

  function Take(s: seq<Row>, n: nat): seq<Row> {
    if n <= |s| then s[..n] else s
  }

  lemma TakeHead(head: Row, s: seq<Row>, n: nat)
    requires 0 < n
    ensures Take([head] + s, n) == [head] + Take(s, n - 1)
  {
  }

  lemma {:induction false} MergeTakeLeft(a: seq<Row>, b: seq<Row>, n: nat, m: nat, asc: bool)
    requires n <= m
    ensures Take(Merge(a, b, asc), n) == Take(Merge(Take(a, m), b, asc), n)
    decreases |a| + |b|
  {
    if 0 < n && a != [] && b != [] {
      var top := Take(a, m);
      assert top[0] == a[0] && top[1..] == Take(a[1..], m - 1);
      if Precedes(a[0], b[0], asc) {
        MergeTakeLeft(a[1..], b, n - 1, m - 1, asc);
        TakeHead(a[0], Merge(a[1..], b, asc), n);
        TakeHead(a[0], Merge(top[1..], b, asc), n);
      } else {
        MergeTakeLeft(a, b[1..], n - 1, m, asc);
        TakeHead(b[0], Merge(a, b[1..], asc), n);
        TakeHead(b[0], Merge(top, b[1..], asc), n);
      }
    }
  }

  lemma {:induction false} MergeTakeRight(a: seq<Row>, b: seq<Row>, n: nat, m: nat, asc: bool)
    requires n <= m
    ensures Take(Merge(a, b, asc), n) == Take(Merge(a, Take(b, m), asc), n)
    decreases |a| + |b|
  {
    if 0 < n && a != [] && b != [] {
      var top := Take(b, m);
      assert top[0] == b[0] && top[1..] == Take(b[1..], m - 1);
      if Precedes(a[0], b[0], asc) {
        MergeTakeRight(a[1..], b, n - 1, m, asc);
        TakeHead(a[0], Merge(a[1..], b, asc), n);
        TakeHead(a[0], Merge(a[1..], top, asc), n);
      } else {
        MergeTakeRight(a, b[1..], n - 1, m - 1, asc);
        TakeHead(b[0], Merge(a, b[1..], asc), n);
        TakeHead(b[0], Merge(a, top[1..], asc), n);
      }
    }
  }

  /** The first rows of a merge need only the first rows of its inputs. */
  lemma MergeTake(a: seq<Row>, b: seq<Row>, n: nat, m: nat, asc: bool)
    requires n <= m
    ensures Take(Merge(a, b, asc), n) == Take(Merge(Take(a, m), Take(b, m), asc), n)
  {
    MergeTakeLeft(a, b, n, m, asc);
    MergeTakeRight(Take(a, m), b, n, m, asc);
  }
}
