/**
 * Walking a history: every page reached by cursors, forwards or backwards, is the
 * page its number names in the whole sorted list, and the pages make up the list.
 */
module HistoryWalk {
  import opened Prelude
  import opened RowOrder
  import opened HistoryList
  import opened History

  /** The page that starts at position `from`, with its neighbours' cursors. */
  function PageAt(list: seq<Row>, q: Query, secret: string, asOf: int, k: nat, from: nat, ps: nat): Response
    requires ps >= 1
  {
    Response(asOf, k, Take(Drop(list, from), ps), |list|,
             if from + ps < |list| then Some(CursorFrom(list[from + ps - 1], q, secret, true, k + 1, ps, asOf)) else None,
             if k > 1 && from < |list| then Some(CursorFrom(list[from], q, secret, false, k - 1, ps, asOf)) else None)
  }

  /** Page `k` by position in the list. */
  function PageOf(list: seq<Row>, q: Query, secret: string, asOf: int, k: nat, ps: nat): Response
    requires k >= 1 && ps >= 1
  {
    PageAt(list, q, secret, asOf, k, (k - 1) * ps, ps)
  }

  lemma PageStarts(k: nat, ps: nat)
    requires k >= 1
    ensures k * ps == (k - 1) * ps + ps
  {
  }

  lemma Cut(list: seq<Row>, from: nat, n: nat)
    requires from <= |list|
    ensures Take(Drop(list, from), n) == list[from..Min(from + n, |list|)]
  {
  }

  lemma RowsFrom(list: seq<Row>, from: nat, ps: nat)
    requires ps >= 1
    ensures var selected := Slice(list, Everything, from, ps + 1); var kept := Take(selected, ps);
      && kept == Take(Drop(list, from), ps) && (|selected| > ps <==> from + ps < |list|)
      && (kept != [] <==> from < |list|) && (from < |list| ==> kept[0] == list[from])
      && (from + ps < |list| ==> |kept| == ps && kept[ps - 1] == list[from + ps - 1])
  {
    if from <= |list| {
      Cut(list, from, ps + 1);
      Cut(list, from, ps);
    }
  }

  /** Asking for a page by its number gives that page. */
  lemma OffsetPage(list: seq<Row>, q: Query, secret: string, asOf: int, k: nat, ps: nat)
    requires k >= 1 && ps >= 1
    ensures Answer(list, q, secret, asOf, Everything, (k - 1) * ps, k, ps) == PageOf(list, q, secret, asOf, k, ps)
  {
    var from := (k - 1) * ps;
    RowsFrom(list, from, ps);
    FromOffset(list, q, secret, asOf, k, from, ps);
  }

  lemma FromOffset(list: seq<Row>, q: Query, secret: string, asOf: int, k: nat, from: nat, ps: nat)
    requires k >= 1 && ps >= 1
    ensures var kept := Take(Drop(list, from), ps);
      Build(q, secret, asOf, Everything, k, ps, kept, from + ps < |list|, |list|) == PageAt(list, q, secret, asOf, k, from, ps)
  {
    RowsFrom(list, from, ps);
  }

  lemma RowsAfter(list: seq<Row>, from: nat, ps: nat)
    requires Sorted(list, false) && 0 < from < |list|
    ensures var selected := Slice(list, Under(KeyOf(list[from - 1])), 0, ps + 1);
      && Take(selected, ps) == Take(Drop(list, from), ps)
      && (|selected| > ps <==> from + ps < |list|)
  {
    BoundCuts(list, from - 1, ps + 1);
    var selected := Slice(list, Under(KeyOf(list[from - 1])), 0, ps + 1);
    assert selected == Take(list[from..], ps + 1);
  }

  /** The cursor after a row gives the page that starts behind it. */
  lemma NextPage(list: seq<Row>, q: Query, secret: string, asOf: int, from: nat, k: nat, ps: nat)
    requires Sorted(list, false) && k >= 1 && ps >= 1 && 0 < from < |list|
    ensures Answer(list, q, secret, asOf, Under(KeyOf(list[from - 1])), 0, k + 1, ps)
            == PageAt(list, q, secret, asOf, k + 1, from, ps)
  {
    var bound := Under(KeyOf(list[from - 1]));
    RowsAfter(list, from, ps);
    var kept := Take(Drop(list, from), ps);
    assert Answer(list, q, secret, asOf, bound, 0, k + 1, ps)
        == Build(q, secret, asOf, bound, k + 1, ps, kept, from + ps < |list|, |list|);
    assert kept[0] == list[from];
    assert from + ps < |list| ==> kept[|kept| - 1] == list[from + ps - 1];
  }

  lemma TakeReversed(s: seq<Row>, n: nat)
    requires n <= |s|
    ensures Reverse(Take(Reverse(s), n)) == s[|s| - n..]
  {
    var t := Take(Reverse(s), n);
    forall i | 0 <= i < n ensures Reverse(t)[i] == s[|s| - n..][i] {
      assert Reverse(t)[i] == t[n - 1 - i] == Reverse(s)[n - 1 - i];
    }
  }

  lemma RowsBefore(list: seq<Row>, from: nat, ps: nat)
    requires Sorted(list, false) && ps <= from < |list|
    ensures var selected := Slice(list, Over(KeyOf(list[from])), 0, ps + 1);
      && Reverse(Take(selected, ps)) == list[from - ps..from] == Take(Drop(list, from - ps), ps)
      && (|selected| > ps <==> from > ps)
  {
    var before := list[..from];
    BoundCuts(list, from, ps + 1);
    TakeReversed(before, ps);
    var selected := Slice(list, Over(KeyOf(list[from])), 0, ps + 1);
    assert Take(selected, ps) == Take(Reverse(before), ps);
    Cut(list, from - ps, ps);
  }

  /** The cursor before a row gives the page that ends in front of it. */
  lemma PreviousPage(list: seq<Row>, q: Query, secret: string, asOf: int, from: nat, k: nat, ps: nat)
    requires Sorted(list, false) && ps >= 1 && k >= 1 && ps <= from < |list| && (k > 1 <==> from > ps)
    ensures Answer(list, q, secret, asOf, Over(KeyOf(list[from])), 0, k, ps)
            == PageAt(list, q, secret, asOf, k, from - ps, ps)
  {
    RowsBefore(list, from, ps);
    BuildBefore(list, q, secret, asOf, Over(KeyOf(list[from])), from, k, ps);
  }

  lemma BuildBefore(list: seq<Row>, q: Query, secret: string, asOf: int, bound: Bound, from: nat, k: nat, ps: nat)
    requires ps >= 1 && k >= 1 && ps <= from < |list| && (k > 1 <==> from > ps) && bound.Over?
    ensures Build(q, secret, asOf, bound, k, ps, list[from - ps..from], from > ps, |list|)
            == PageAt(list, q, secret, asOf, k, from - ps, ps)
  {
    Cut(list, from - ps, ps);
    var kept := list[from - ps..from];
    assert kept[0] == list[from - ps] && kept[ps - 1] == list[from - 1];
  }

  lemma {:induction false} Grows(k: nat, ps: nat)
    requires k >= 1
    ensures k * ps >= ps && (ps >= 1 ==> (k > 1 <==> k * ps > ps))
  {
    if k > 1 {
      Grows(k - 1, ps);
      PageStarts(k, ps);
    }
  }

  // ------------------------------------------------------------- following

  // Rows whose cursors fit the limits a cursor is checked against.
  predicate Addressable(list: seq<Row>) {
    forall r | r in list :: r.id != "" && |r.id| <= 512 && r.created != NO_TIME
  }

  lemma ListedRows(rows: seq<Row>, q: Query, asOf: int)
    requires DistinctKeys(rows)
    ensures Sorted(Listing(rows, q, asOf), false)
    ensures forall r :: r in Listing(rows, q, asOf) ==> Wanted(r, q, asOf)
  {
    var wanted := Where(None, Some(q), asOf, Everything);
    FilterKeeps(rows, wanted, false);
    SortSorts(Filter(rows, wanted), false);
    SortElements(Filter(rows, wanted), false);
    SameElements(Filter(rows, wanted), Listing(rows, q, asOf));
    FilterMembers(rows, wanted);
    forall r | r in Listing(rows, q, asOf) ensures Wanted(r, q, asOf) {
      assert r in Filter(rows, wanted);
      assert Meets(r, wanted);
    }
  }

  // A later look at rows that did not change below the reference time.
  ghost predicate Frozen(list: seq<Row>, rows: seq<Row>, q: Query, asOf: int, now: int) {
    DistinctKeys(rows) && Listing(rows, q, asOf) == list && asOf != NO_TIME && asOf <= now && |q.actor| <= 512 && Addressable(list)
  }

  lemma CursorAccepted(
    list: seq<Row>, rows: seq<Row>, q: Query, secret: string, asOf: int, now: int, i: nat, forward: bool, bound: Bound, page: int, ps: int)
    requires Frozen(list, rows, q, asOf, now) && i < |list| && page >= 1 && 1 <= ps <= 50
    requires bound == if forward then Under(KeyOf(list[i])) else Over(KeyOf(list[i]))
    ensures LoadCursor(rows, q, secret, CursorFrom(list[i], q, secret, forward, page, ps, asOf), page, ps, now)
            == Ok(Answer(list, q, secret, asOf, bound, 0, page, ps))
  {
    ListedRows(rows, q, asOf);
    assert list[i] in list && Citable(list[i], q, asOf);
    CursorParses(list[i], q, secret, asOf, now, forward, page, ps);
  }

  // A row whose cursor passes every check on its content.
  predicate Citable(r: Row, q: Query, asOf: int) {
    Wanted(r, q, asOf) && r.id != "" && |r.id| <= 512 && r.created != NO_TIME && asOf != NO_TIME && |q.actor| <= 512
  }

  lemma CursorParses(r: Row, q: Query, secret: string, asOf: int, now: int, forward: bool, page: int, ps: int)
    requires Citable(r, q, asOf) && asOf <= now && page >= 1 && 1 <= ps <= 50
    ensures var c := Parse(CursorFrom(r, q, secret, forward, page, ps, asOf), q, secret, page, ps, now);
      && c.Ok? && c.value.key == KeyOf(r) && c.value.forward == forward && c.value.asOf == asOf && !OutsideDates(c.value, q.filters)
  {
  }

  lemma TokenAcceptedExactly(
    r: Row, q: Query, secret: string, forward: bool, page: int, ps: int, asOf: int,
    rows: seq<Row>, q': Query, secret': string, page': int, ps': int, now: int)
    requires Citable(r, q, asOf) && TrimSpace(secret) != "" && page >= 1 && 1 <= ps <= 50 && page' >= 1 && 1 <= ps' <= 50
    ensures Load(rows, q', secret', Request(Some(CursorFrom(r, q, secret, forward, page, ps, asOf)), page', ps'), now).Ok?
            <==> q' == q && secret' == secret && page' == page && ps' == ps && asOf <= now
  {
    var t := CursorFrom(r, q, secret, forward, page, ps, asOf);
    if Parse(t, q', secret', page', ps', now).Ok? {
      ParseOnlySigned(t, q', secret', page', ps', now);
    }
  }

  lemma {:induction false} FilterWithin(s: seq<Row>, p: Where)
    ensures forall x :: x in Filter(s, p) ==> x in s
  {
    FilterMembers(s, p);
  }

  /** A response shows listed rows only. */
  lemma RecordsListed(list: seq<Row>, q: Query, secret: string, asOf: int, bound: Bound, offset: nat, page: int, ps: nat)
    requires page >= 1
    ensures forall x :: x in Answer(list, q, secret, asOf, bound, offset, page, ps).records ==> x in list
  {
    FilterWithin(list, Inside(bound));
    var selected := Slice(list, bound, offset, ps + 1);
    assert forall x :: x in selected ==> x in list;
  }

  // The cursor of a response in one direction.
  function TokenOf(r: Response, forward: bool): Option<Token> {
    if forward then r.next else r.previous
  }

  /**
   * A returned cursor opens exactly the neighbouring page: it is accepted by
   * requests with the same secret, audience, actor, filters and page size for that
   * page number, at or after the reference time, whatever rows exist then, and by
   * no others.
   */
  lemma ReturnedCursorAcceptedExactly(
    rows: seq<Row>, q: Query, secret: string, req: Request, now: int, forward: bool,
    rows': seq<Row>, q': Query, secret': string, page': int, ps': int, now': int)
    requires DistinctKeys(rows) && req.page >= 1 && 1 <= req.pageSize <= 50 && page' >= 1 && 1 <= ps' <= 50
    requires Load(rows, q, secret, req, now).Ok?
    requires var r := Load(rows, q, secret, req, now).value;
      TokenOf(r, forward).Some? && Addressable(r.records) && r.asOf != NO_TIME && |q.actor| <= 512
    ensures var r := Load(rows, q, secret, req, now).value;
      Load(rows', q', secret', Request(TokenOf(r, forward), page', ps'), now').Ok?
      <==> q' == q && secret' == secret && ps' == req.pageSize && page' == (if forward then r.page + 1 else r.page - 1)
           && r.asOf <= now'
  {
    var r := Load(rows, q, secret, req, now).value;
    var x, page := LoadedToken(rows, q, secret, req, now, forward);
    TokenAcceptedExactly(x, q, secret, forward, page, req.pageSize, r.asOf, rows', q', secret', page', ps', now');
  }

  lemma AnswerToken(
    list: seq<Row>, q: Query, secret: string, asOf: int, bound: Bound, offset: nat, page: int, ps: nat, forward: bool)
      returns (x: Row)
    requires page >= 1 && TokenOf(Answer(list, q, secret, asOf, bound, offset, page, ps), forward).Some?
    ensures x in Answer(list, q, secret, asOf, bound, offset, page, ps).records && x in list
    ensures forward || page > 1
    ensures TokenOf(Answer(list, q, secret, asOf, bound, offset, page, ps), forward)
            == Some(CursorFrom(x, q, secret, forward, if forward then page + 1 else page - 1, ps, asOf))
  {
    RecordsListed(list, q, secret, asOf, bound, offset, page, ps);
    var kept := Answer(list, q, secret, asOf, bound, offset, page, ps).records;
    x := if forward then kept[|kept| - 1] else kept[0];
  }

  lemma LoadIsAnswer(rows: seq<Row>, q: Query, secret: string, req: Request, now: int) returns (bound: Bound, offset: nat)
    requires req.page >= 1 && 1 <= req.pageSize <= 50 && Load(rows, q, secret, req, now).Ok?
    ensures var r := Load(rows, q, secret, req, now).value;
      && r.page >= 1 && TrimSpace(secret) != ""
      && r == Answer(Listing(rows, q, r.asOf), q, secret, r.asOf, bound, offset, r.page, req.pageSize)
  {
    if req.token.None? {
      bound := Everything;
      offset := NumberedIsAnswer(rows, q, secret, req.page, req.pageSize, now);
    } else {
      var c := req.token.value.payload;
      bound, offset := if c.forward then Under(c.key) else Over(c.key), 0;
      CursorIsAnswer(rows, q, secret, req.token.value, req.page, req.pageSize, now);
    }
  }

  lemma NumberedIsAnswer(rows: seq<Row>, q: Query, secret: string, page: int, ps: nat, now: int) returns (offset: nat)
    requires page >= 1 && 1 <= ps <= 50
    ensures var r := LoadNumbered(rows, q, secret, page, ps, now);
      r.asOf == now && r.page >= 1 && r == Answer(Listing(rows, q, now), q, secret, now, Everything, offset, r.page, ps)
  {
    offset := (Min(page, PageCount(|Listing(rows, q, now)|, ps)) - 1) * ps;
  }

  lemma CursorIsAnswer(rows: seq<Row>, q: Query, secret: string, t: Token, page: int, ps: nat, now: int)
    requires page >= 1 && 1 <= ps <= 50 && LoadCursor(rows, q, secret, t, page, ps, now).Ok?
    ensures var r, c := LoadCursor(rows, q, secret, t, page, ps, now).value, t.payload;
      && r.page == page
      && r == Answer(Listing(rows, q, r.asOf), q, secret, r.asOf, if c.forward then Under(c.key) else Over(c.key), 0, page, ps)
  {
  }

  lemma LoadedToken(rows: seq<Row>, q: Query, secret: string, req: Request, now: int, forward: bool) returns (x: Row, page: int)
    requires DistinctKeys(rows) && req.page >= 1 && 1 <= req.pageSize <= 50 && Load(rows, q, secret, req, now).Ok?
    requires var r := Load(rows, q, secret, req, now).value;
      TokenOf(r, forward).Some? && Addressable(r.records) && r.asOf != NO_TIME && |q.actor| <= 512
    ensures var r := Load(rows, q, secret, req, now).value;
      && page == (if forward then r.page + 1 else r.page - 1) && page >= 1
      && Citable(x, q, r.asOf) && TrimSpace(secret) != ""
      && TokenOf(r, forward) == Some(CursorFrom(x, q, secret, forward, page, req.pageSize, r.asOf))
  {
    var bound, offset := LoadIsAnswer(rows, q, secret, req, now);
    x, page := TokenOfAnswer(rows, q, secret, Load(rows, q, secret, req, now).value, bound, offset, req.pageSize, forward);
  }

  lemma TokenOfAnswer(
    rows: seq<Row>, q: Query, secret: string, r: Response, bound: Bound, offset: nat, ps: nat, forward: bool)
      returns (x: Row, page: int)
    requires DistinctKeys(rows) && r.page >= 1 && TokenOf(r, forward).Some?
    requires r == Answer(Listing(rows, q, r.asOf), q, secret, r.asOf, bound, offset, r.page, ps)
    requires Addressable(r.records) && r.asOf != NO_TIME && |q.actor| <= 512
    ensures page == (if forward then r.page + 1 else r.page - 1) && page >= 1 && Citable(x, q, r.asOf)
    ensures TokenOf(r, forward) == Some(CursorFrom(x, q, secret, forward, page, ps, r.asOf))
  {
    var list := Listing(rows, q, r.asOf);
    page := if forward then r.page + 1 else r.page - 1;
    x := AnswerToken(list, q, secret, r.asOf, bound, offset, r.page, ps, forward);
    ListedCitable(rows, q, r.asOf, r.records, x);
  }

  lemma ListedCitable(rows: seq<Row>, q: Query, asOf: int, records: seq<Row>, x: Row)
    requires DistinctKeys(rows) && x in Listing(rows, q, asOf) && x in records
    requires Addressable(records) && asOf != NO_TIME && |q.actor| <= 512
    ensures Citable(x, q, asOf)
  {
    ListedRows(rows, q, asOf);
  }

  lemma PageFrom(list: seq<Row>, q: Query, secret: string, asOf: int, k: nat, from: nat, ps: nat)
    requires k >= 1 && ps >= 1 && from == (k - 1) * ps
    ensures PageOf(list, q, secret, asOf, k, ps) == PageAt(list, q, secret, asOf, k, from, ps)
  {
  }

  lemma ListingSorted(list: seq<Row>, rows: seq<Row>, q: Query, asOf: int)
    requires DistinctKeys(rows) && Listing(rows, q, asOf) == list
    ensures Sorted(list, false)
  {
    ListedRows(rows, q, asOf);
  }

  lemma NextListed(list: seq<Row>, rows: seq<Row>, q: Query, secret: string, asOf: int, from: nat, k: nat, ps: nat)
    requires DistinctKeys(rows) && Listing(rows, q, asOf) == list && k >= 1 && ps >= 1 && 0 < from < |list|
    ensures Answer(list, q, secret, asOf, Under(KeyOf(list[from - 1])), 0, k + 1, ps)
            == PageAt(list, q, secret, asOf, k + 1, from, ps)
  {
    ListingSorted(list, rows, q, asOf);
    NextPage(list, q, secret, asOf, from, k, ps);
  }

  lemma NextLoads(list: seq<Row>, rows: seq<Row>, q: Query, secret: string, asOf: int, now: int, from: nat, k: nat, ps: nat)
    requires Frozen(list, rows, q, asOf, now) && k >= 1 && 1 <= ps <= 50 && 0 < from < |list|
    ensures LoadCursor(rows, q, secret, CursorFrom(list[from - 1], q, secret, true, k + 1, ps, asOf), k + 1, ps, now)
            == Ok(PageAt(list, q, secret, asOf, k + 1, from, ps))
  {
    CursorAccepted(list, rows, q, secret, asOf, now, from - 1, true, Under(KeyOf(list[from - 1])), k + 1, ps);
    NextListed(list, rows, q, secret, asOf, from, k, ps);
  }

  lemma NextToken(list: seq<Row>, q: Query, secret: string, asOf: int, k: nat, ps: nat)
    requires k >= 1 && ps >= 1 && k * ps < |list|
    ensures k * ps >= 1 && PageOf(list, q, secret, asOf, k, ps).next
            == Some(CursorFrom(list[k * ps - 1], q, secret, true, k + 1, ps, asOf))
  {
    Grows(k, ps);
    PageStarts(k, ps);
  }

  /** Following the next cursor of page `k` gives page `k + 1`, also after newer rows appeared. */
  lemma FollowNext(list: seq<Row>, rows: seq<Row>, q: Query, secret: string, asOf: int, now: int, k: nat, ps: nat)
    requires Frozen(list, rows, q, asOf, now) && k >= 1 && 1 <= ps <= 50 && TrimSpace(secret) != "" && k * ps < |list|
    ensures Load(rows, q, secret, Request(PageOf(list, q, secret, asOf, k, ps).next, k + 1, ps), now)
            == Ok(PageOf(list, q, secret, asOf, k + 1, ps))
  {
    NextToken(list, q, secret, asOf, k, ps);
    PageFrom(list, q, secret, asOf, k + 1, k * ps, ps);
    NextLoads(list, rows, q, secret, asOf, now, k * ps, k, ps);
  }

  lemma PreviousListed(list: seq<Row>, rows: seq<Row>, q: Query, secret: string, asOf: int, from: nat, k: nat, ps: nat)
    requires DistinctKeys(rows) && Listing(rows, q, asOf) == list
    requires ps >= 1 && k >= 1 && ps <= from < |list| && (k > 1 <==> from > ps)
    ensures Answer(list, q, secret, asOf, Over(KeyOf(list[from])), 0, k, ps)
            == PageAt(list, q, secret, asOf, k, from - ps, ps)
  {
    ListingSorted(list, rows, q, asOf);
    PreviousPage(list, q, secret, asOf, from, k, ps);
  }

  lemma PreviousLoads(list: seq<Row>, rows: seq<Row>, q: Query, secret: string, asOf: int, now: int, from: nat, k: nat, ps: nat)
    requires Frozen(list, rows, q, asOf, now) && k >= 1 && 1 <= ps <= 50
    requires ps <= from < |list| && (k > 1 <==> from > ps)
    ensures LoadCursor(rows, q, secret, CursorFrom(list[from], q, secret, false, k, ps, asOf), k, ps, now)
            == Ok(PageAt(list, q, secret, asOf, k, from - ps, ps))
  {
    CursorAccepted(list, rows, q, secret, asOf, now, from, false, Over(KeyOf(list[from])), k, ps);
    PreviousListed(list, rows, q, secret, asOf, from, k, ps);
  }

  /** Following the previous cursor of page `k` gives exactly page `k - 1`. */
  lemma FollowPrevious(list: seq<Row>, rows: seq<Row>, q: Query, secret: string, asOf: int, now: int, k: nat, ps: nat)
    requires Frozen(list, rows, q, asOf, now) && k >= 2 && 1 <= ps <= 50 && TrimSpace(secret) != "" && (k - 1) * ps < |list|
    ensures Load(rows, q, secret, Request(PageOf(list, q, secret, asOf, k, ps).previous, k - 1, ps), now)
            == Ok(PageOf(list, q, secret, asOf, k - 1, ps))
  {
    var from := PageBehind(list, q, secret, asOf, k - 1, ps);
    PreviousLoads(list, rows, q, secret, asOf, now, from, k - 1, ps);
  }

  // Where page `k + 1` starts, its cursor back and the page it leads to.
  lemma PageBehind(list: seq<Row>, q: Query, secret: string, asOf: int, k: nat, ps: nat) returns (from: nat)
    requires k >= 1 && ps >= 1 && k * ps < |list|
    ensures ps <= from < |list| && (k > 1 <==> from > ps)
    ensures PageOf(list, q, secret, asOf, k + 1, ps).previous == Some(CursorFrom(list[from], q, secret, false, k, ps, asOf))
    ensures PageOf(list, q, secret, asOf, k, ps) == PageAt(list, q, secret, asOf, k, from - ps, ps)
  {
    Grows(k, ps);
    PageStarts(k, ps);
    from := k * ps;
    PageFrom(list, q, secret, asOf, k, from - ps, ps);
  }

  /** A page asked for by number, clipped to the last page, at the time of the request. */
  lemma NumberedPage(rows: seq<Row>, q: Query, secret: string, now: int, k: nat, ps: nat)
    requires k >= 1 && 1 <= ps <= 50 && TrimSpace(secret) != ""
    ensures var list := Listing(rows, q, now);
      Load(rows, q, secret, Request(None, k, ps), now)
      == Ok(PageOf(list, q, secret, now, Min(k, PageCount(|list|, ps)), ps))
  {
    var list := Listing(rows, q, now);
    OffsetPage(list, q, secret, now, Min(k, PageCount(|list|, ps)), ps);
  }

  // ------------------------------------------------------------------ walks

  // One request of a walk: the rows stored then and the time.
  datatype Visit = Visit(rows: seq<Row>, now: int)

  function Send(visit: Visit, q: Query, secret: string, token: Option<Token>, page: nat, ps: nat): Option<Response>
    requires page >= 1 && 1 <= ps <= 50
  {
    var r := Load(visit.rows, q, secret, Request(token, page, ps), visit.now);
    if r.Ok? then Some(r.value) else None
  }

  /** Follows the next cursor of a response, if there is one. */
  function Follow(earlier: Option<Response>, visit: Visit, q: Query, secret: string, ps: nat): Option<Response>
    requires 1 <= ps <= 50
  {
    if earlier.None? || earlier.value.next.None? || earlier.value.page < 0 then None
    else Send(visit, q, secret, earlier.value.next, earlier.value.page + 1, ps)
  }

  /** The response after opening page 1 and following next cursors through the visits. */
  function Walk(visits: seq<Visit>, q: Query, secret: string, ps: nat): Option<Response>
    requires visits != [] && 1 <= ps <= 50
  {
    var last := visits[|visits| - 1];
    if |visits| == 1 then Send(last, q, secret, None, 1, ps)
    else Follow(Walk(visits[..|visits| - 1], q, secret, ps), last, q, secret, ps)
  }

  ghost predicate FrozenWalk(list: seq<Row>, visits: seq<Visit>, q: Query, asOf: int) {
    forall v :: 0 <= v < |visits| ==> Frozen(list, visits[v].rows, q, asOf, visits[v].now)
  }

  lemma FollowsNext(list: seq<Row>, visit: Visit, q: Query, secret: string, asOf: int, k: nat, ps: nat)
    requires Frozen(list, visit.rows, q, asOf, visit.now) && k >= 1 && 1 <= ps <= 50 && TrimSpace(secret) != ""
    requires k * ps < |list|
    ensures Follow(Some(PageOf(list, q, secret, asOf, k, ps)), visit, q, secret, ps)
            == Some(PageOf(list, q, secret, asOf, k + 1, ps))
  {
    PageStarts(k, ps);
    FollowNext(list, visit.rows, q, secret, asOf, visit.now, k, ps);
  }

  lemma Opens(list: seq<Row>, visit: Visit, q: Query, secret: string, ps: nat)
    requires Frozen(list, visit.rows, q, visit.now, visit.now) && 1 <= ps <= 50 && TrimSpace(secret) != ""
    ensures Send(visit, q, secret, None, 1, ps) == Some(PageOf(list, q, secret, visit.now, 1, ps))
  {
    OffsetPage(list, q, secret, visit.now, 1, ps);
  }

  lemma WalkAdvances(list: seq<Row>, visits: seq<Visit>, q: Query, secret: string, asOf: int, k: nat, ps: nat)
    requires |visits| == k + 1 && k >= 1 && Frozen(list, visits[k].rows, q, asOf, visits[k].now)
    requires 1 <= ps <= 50 && TrimSpace(secret) != "" && k * ps < |list|
    requires Walk(visits[..k], q, secret, ps) == Some(PageOf(list, q, secret, asOf, k, ps))
    ensures Walk(visits, q, secret, ps) == Some(PageOf(list, q, secret, asOf, k + 1, ps))
  {
    assert Walk(visits, q, secret, ps) == Follow(Walk(visits[..k], q, secret, ps), visits[k], q, secret, ps);
    FollowsNext(list, visits[k], q, secret, asOf, k, ps);
  }

  /** Walking `n` visits ends on page `n`, the same page a request by number gives. */
  lemma {:induction false} WalkReaches(list: seq<Row>, visits: seq<Visit>, q: Query, secret: string, asOf: int, ps: nat)
    requires visits != [] && FrozenWalk(list, visits, q, asOf) && visits[0].now == asOf
    requires 1 <= ps <= 50 && TrimSpace(secret) != ""
    requires |visits| == 1 || (|visits| - 1) * ps < |list|
    ensures Walk(visits, q, secret, ps) == Some(PageOf(list, q, secret, asOf, |visits|, ps))
    decreases |visits|
  {
    var n := |visits| - 1;
    if n == 0 {
      Opens(list, visits[n], q, secret, ps);
    } else {
      assert (n - 1) * ps < |list| by { PageStarts(n, ps); }
      var earlier := visits[..n];
      assert |earlier| == n && earlier[0] == visits[0];
      assert FrozenWalk(list, earlier, q, asOf);
      WalkReaches(list, earlier, q, secret, asOf, ps);
      WalkAdvances(list, visits, q, secret, asOf, n, ps);
    }
  }

  function Pages(list: seq<Row>, n: nat, ps: nat): seq<Row> {
    if n == 0 then [] else Pages(list, n - 1, ps) + Take(Drop(list, (n - 1) * ps), ps)
  }

  lemma TakeFurther(list: seq<Row>, from: nat, n: nat)
    ensures Take(list, from) + Take(Drop(list, from), n) == Take(list, from + n)
  {
    if from <= |list| {
      Cut(list, from, n);
    }
  }

  /** The first `n` pages put together are the first rows of the list, in order, none twice. */
  lemma {:induction false} PagesTile(list: seq<Row>, n: nat, ps: nat)
    ensures Pages(list, n, ps) == Take(list, n * ps)
  {
    if n > 0 {
      PagesTile(list, n - 1, ps);
      PageStarts(n, ps);
      TakeFurther(list, (n - 1) * ps, ps);
    }
  }

  /** The last page is the one without a next cursor, and the pages up to it are the whole list. */
  lemma PagesCover(list: seq<Row>, q: Query, secret: string, asOf: int, n: nat, ps: nat)
    requires n >= 1 && ps >= 1
    ensures PageOf(list, q, secret, asOf, n, ps).next.None? <==> Pages(list, n, ps) == list
  {
    PagesTile(list, n, ps);
    PageStarts(n, ps);
  }
}
