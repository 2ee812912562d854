/**
 * Loading one history page, signed cursors included, and walking a history by
 * its cursors. Signatures are symbolic: equal only for equal inputs.
 */
module History {
  import opened Prelude
  import opened RowOrder
  import opened HistoryList

  // --------------------------------------------------------------- cursors

  datatype FilterDigest = FilterDigest(secret: string, admin: bool, filters: Filters)

  datatype Cursor = Cursor(
    sub: string, filter: FilterDigest, forward: bool, page: int, pageSize: int, asOf: int, key: SortKey)

  datatype Mac = Mac(secret: string, admin: bool, payload: Cursor)

  datatype Token = Token(payload: Cursor, mac: Mac)

  datatype HistoryError = MissingSecret | BadCursor

  // The zero value of a time.
  const NO_TIME := 0

  function Sign(c: Cursor, secret: string, admin: bool): Token {
    Token(c, Mac(secret, admin, c))
  }

  function DigestOf(q: Query, secret: string): FilterDigest {
    FilterDigest(secret, q.admin, q.filters)
  }

  function Parse(t: Token, q: Query, secret: string, page: int, pageSize: int, now: int): Result<Cursor, HistoryError> {
    var c := t.payload;
    if t.mac != Mac(secret, q.admin, c) then Err(BadCursor)
    else if c.sub != q.actor || |c.sub| > 512 || c.filter != DigestOf(q, secret) || c.page != page || c.pageSize != pageSize
            || c.page < 1 || c.pageSize < 1 || c.pageSize > 50 || c.asOf == NO_TIME || c.asOf > now
            || c.key.created == NO_TIME || c.key.created > c.asOf || c.key.rank < 0 || c.key.rank > 1
            || c.key.id == "" || |c.key.id| > 512 then Err(BadCursor)
    else Ok(c)
  }

  /** A parsed cursor was signed with this secret for this audience, actor, filter and page. */
  lemma ParseOnlySigned(t: Token, q: Query, secret: string, page: int, pageSize: int, now: int)
    requires Parse(t, q, secret, page, pageSize, now).Ok?
    ensures t == Sign(t.payload, secret, q.admin)
    ensures t.payload.sub == q.actor && t.payload.filter == DigestOf(q, secret) && t.payload.page == page
    ensures forall other: Query :: other.admin != q.admin || other.filters != q.filters || other.actor != q.actor
              ==> Parse(t, other, secret, page, pageSize, now).Err?
  {
  }

  // --------------------------------------------------------------- loading

  datatype Request = Request(token: Option<Token>, page: int, pageSize: int)

  datatype Response = Response(
    asOf: int, page: int, records: seq<Row>, total: nat, next: Option<Token>, previous: Option<Token>)

  function PageCount(total: nat, pageSize: int): int
    requires pageSize >= 1
  {
    Max(1, (total + pageSize - 1) / pageSize)
  }

  /** A cursor to the neighbouring page, starting from a row. */
  function CursorFrom(r: Row, q: Query, secret: string, forward: bool, page: int, pageSize: int, asOf: int): Token {
    Sign(Cursor(q.actor, DigestOf(q, secret), forward, page, pageSize, asOf, KeyOf(r)), secret, q.admin)
  }

  predicate OutsideDates(c: Cursor, f: Filters) {
    (f.start.Some? && c.key.created < f.start.value) || (f.end.Some? && c.key.created >= f.end.value)
  }

  /** The response around the rows of one page. */
  function Build(
    q: Query, secret: string, asOf: int, bound: Bound, page: int, pageSize: nat, kept: seq<Row>, extra: bool, total: nat)
    : Response
  {
    var canNext := if bound.Over? then true else extra;
    var canPrevious := if bound.Over? then extra else !bound.Everything? || page > 1;
    Response(asOf, page, kept, total,
             if kept != [] && canNext then Some(CursorFrom(kept[|kept| - 1], q, secret, true, page + 1, pageSize, asOf)) else None,
             if kept != [] && canPrevious && page > 1 then Some(CursorFrom(kept[0], q, secret, false, page - 1, pageSize, asOf))
             else None)
  }

  /** The response made of the rows selected by a bound on the sorted list. */
  function Answer(list: seq<Row>, q: Query, secret: string, asOf: int, bound: Bound, offset: nat, page: int, pageSize: nat)
      : Response
    requires page >= 1
  {
    var selected := Slice(list, bound, offset, pageSize + 1);
    var kept := if bound.Over? then Reverse(Take(selected, pageSize)) else Take(selected, pageSize);
    Build(q, secret, asOf, bound, page, pageSize, kept, |selected| > pageSize, |list|)
  }

  /** A page asked for by number. */
  function LoadNumbered(rows: seq<Row>, q: Query, secret: string, page: int, pageSize: int, now: int): Response
    requires page >= 1 && 1 <= pageSize <= 50
  {
    var list := Listing(rows, q, now);
    var clipped := Min(page, PageCount(|list|, pageSize));
    Answer(list, q, secret, now, Everything, (clipped - 1) * pageSize, clipped, pageSize)
  }

  /** A page asked for by cursor. */
  function LoadCursor(rows: seq<Row>, q: Query, secret: string, t: Token, page: int, pageSize: int, now: int)
      : Result<Response, HistoryError>
    requires page >= 1 && 1 <= pageSize <= 50
  {
    var c :- Parse(t, q, secret, page, pageSize, now);
    if OutsideDates(c, q.filters) then Err(BadCursor)
    else Ok(Answer(Listing(rows, q, c.asOf), q, secret, c.asOf, if c.forward then Under(c.key) else Over(c.key), 0, page, pageSize))
  }

  /** What a request must be answered, given all rows. */
  function Load(rows: seq<Row>, q: Query, secret: string, req: Request, now: int): Result<Response, HistoryError>
    requires req.page >= 1 && 1 <= req.pageSize <= 50
  {
    if TrimSpace(secret) == "" then Err(MissingSecret)
    else if req.token.None? then Ok(LoadNumbered(rows, q, secret, req.page, req.pageSize, now))
    else LoadCursor(rows, q, secret, req.token.value, req.page, req.pageSize, now)
  }

  // The first `n` rows with everything outside `i..j` already swapped.
  predicate SwappedAround(was: seq<Row>, rows: seq<Row>, n: nat, i: int, j: int)
    requires n <= |was| == |rows|
  {
    && (forall k :: 0 <= k < n && i <= k <= j ==> rows[k] == was[k])
    && (forall k :: 0 <= k < n && !(i <= k <= j) ==> rows[k] == was[n - 1 - k])
  }

  lemma SwapStep(was: seq<Row>, rows: seq<Row>, n: nat, i: int, j: int)
    requires n <= |was| == |rows| && 0 <= i < j && i + j == n - 1 && SwappedAround(was, rows, n, i, j)
    ensures SwappedAround(was, rows[i := rows[j]][j := rows[i]], n, i + 1, j - 1)
  {
    var next := rows[i := rows[j]][j := rows[i]];
    forall k | 0 <= k < n && !(i + 1 <= k <= j - 1) ensures next[k] == was[n - 1 - k] {
      assert k == i || k == j || !(i <= k <= j);
    }
  }

  /** Reverses the first rows of a buffer in place. */
  method ReverseRows(selected: array<Row>, n: nat)
    requires n <= selected.Length
    modifies selected
    ensures selected[..n] == Reverse(old(selected[..n]))
    ensures selected[n..] == old(selected[n..])
  {
    ghost var was := selected[..];
    var i, j := 0, n - 1;
    while i < j
      invariant 0 <= i <= n && i + j == n - 1
      invariant SwappedAround(was, selected[..], n, i, j)
      invariant selected[n..] == was[n..]
    {
      ghost var before := selected[..];
      SwapStep(was, before, n, i, j);
      selected[i], selected[j] := selected[j], selected[i];
      assert selected[..] == before[i := before[j]][j := before[i]];
      i, j := i + 1, j - 1;
    }
    assert was[..n] == old(selected[..n]);
    forall k | 0 <= k < n ensures selected[..n][k] == Reverse(was[..n])[k] {
      assert selected[..][k] == was[n - 1 - k];
    }
  }

  /** Truncates a query result to the page and puts it in listing order. */
  method KeepPage(fetched: seq<Row>, backward: bool, pageSize: nat) returns (kept: seq<Row>, extra: bool)
    ensures extra <==> |fetched| > pageSize
    ensures kept == if backward then Reverse(Take(fetched, pageSize)) else Take(fetched, pageSize)
  {
    var selected := new Row[|fetched|](i requires 0 <= i < |fetched| => fetched[i]);
    var n := |fetched|;
    extra := n > pageSize;
    if extra {
      n := pageSize;
    }
    assert selected[..n] == Take(fetched, pageSize);
    if backward {
      ReverseRows(selected, n);
    }
    kept := selected[..n];
  }

  lemma SortLength(s: seq<Row>, asc: bool)
    ensures |Sort(s, asc)| == |s|
  {
    SortElements(s, asc);
    SameElements(s, Sort(s, asc));
  }

  /** Adds the neighbouring cursors to a page. */
  method WithCursors(
    q: Query, secret: string, asOf: int, bound: Bound, page: int, pageSize: nat, selected: seq<Row>, extra: bool, total: nat)
    returns (r: Response)
    ensures r == Build(q, secret, asOf, bound, page, pageSize, selected, extra, total)
  {
    var canNext, canPrevious := extra, !bound.Everything? || page > 1;
    if bound.Over? {
      canNext, canPrevious := true, extra;
    }
    var next, back := None, None;
    if |selected| > 0 {
      if canNext {
        next := Some(CursorFrom(selected[|selected| - 1], q, secret, true, page + 1, pageSize, asOf));
      }
      if canPrevious && page > 1 {
        back := Some(CursorFrom(selected[0], q, secret, false, page - 1, pageSize, asOf));
      }
    }
    return Response(asOf, page, selected, total, next, back);
  }

  /** COUNT(*) over both branches. */
  method CountWanted(rows: seq<Row>, q: Query, asOf: int) returns (total: nat)
    ensures total == |Listing(rows, q, asOf)|
  {
    var wanted := Filter(rows, Where(None, Some(q), asOf, Everything));
    SortLength(wanted, false);
    return |wanted|;
  }

  /** Runs the branch-limited query and builds the response. */
  method Fetch(
    rows: seq<Row>, q: Query, secret: string, asOf: int, bound: Bound, offset: nat, page: int, pageSize: nat, total: nat)
    returns (r: Response)
    requires DistinctKeys(rows) && page >= 1 && total == |Listing(rows, q, asOf)|
    ensures r == Answer(Listing(rows, q, asOf), q, secret, asOf, bound, offset, page, pageSize)
  {
    ghost var list := Listing(rows, q, asOf);
    ListSqlRefines(rows, q, asOf, bound, offset, pageSize);
    var fetched := ListSql(rows, q, asOf, bound, offset, pageSize);
    assert fetched == Slice(list, bound, offset, pageSize + 1);
    var selected, extra := KeepPage(fetched, bound.Over?, pageSize);
    r := WithCursors(q, secret, asOf, bound, page, pageSize, selected, extra, total);
  }

  /** Answers one request. */
  method LoadHistory(rows: seq<Row>, q: Query, secret: string, req: Request, now: int)
    returns (r: Result<Response, HistoryError>)
    requires DistinctKeys(rows) && req.page >= 1 && 1 <= req.pageSize <= 50
    ensures r == Load(rows, q, secret, req, now)
  {
    if TrimSpace(secret) == "" {
      return Err(MissingSecret);
    }
    var asOf, bound, page, offset := now, Everything, req.page, 0;
    if req.token.Some? {
      var c :- Parse(req.token.value, q, secret, req.page, req.pageSize, now);
      if OutsideDates(c, q.filters) {
        return Err(BadCursor);
      }
      asOf, bound := c.asOf, if c.forward then Under(c.key) else Over(c.key);
    }
    var total := CountWanted(rows, q, asOf);
    if req.token.None? {
      page, offset := ClipPage(total, req.page, req.pageSize);
    }
    var answer := Fetch(rows, q, secret, asOf, bound, offset, page, req.pageSize, total);
    return Ok(answer);
  }

  /** Brings a requested page number down to the last page. */
  method ClipPage(total: nat, requested: int, pageSize: nat) returns (page: int, offset: nat)
    requires requested >= 1 && pageSize >= 1
    ensures page == Min(requested, PageCount(total, pageSize)) && page >= 1 && offset == (page - 1) * pageSize
  {
    var pages := (total + pageSize - 1) / pageSize;
    if pages < 1 {
      pages := 1;
    }
    page := if requested > pages then pages else requested;
    offset := (page - 1) * pageSize;
  }
}
