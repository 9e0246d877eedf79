/**
Paging through the audit log: the keyset query, its cursors, the legacy offset
pages, and walks over a table that stays fixed or changes between page loads.
*/
module Listing {
  import opened AuditEvent
  import opened Clock

  /** A stored event with the sequence number the database gave it. */
  datatype Row = Row(seqNo: int, event: Event)

  /** Rows in the order they were inserted. */
  predicate ValidTable(table: seq<Row>) {
    && (forall i :: 0 <= i < |table| ==> table[i].seqNo > 0 && table[i].event.timestamp != ZERO_TIME)
    && (forall i, j :: 0 <= i < j < |table| ==> table[i].seqNo != table[j].seqNo)
  }

  // ----- Cursors -----

  datatype Cursor = Cursor(timestamp: Time, seqNo: int)

  const NO_CURSOR := Cursor(ZERO_TIME, 0)

  /** What a caller passes as a cursor: nothing, the encoding of a cursor, or text that is not one. */
  datatype Token = Blank | Encoded(cursor: Cursor) | Garbage

  datatype Result<T> = Success(value: T) | Failure

  predicate ValidCursor(c: Cursor) {
    c.timestamp != ZERO_TIME && c.seqNo > 0
  }

  function EncodeCursor(c: Cursor): Result<Token> {
    if c.timestamp == ZERO_TIME || c.seqNo <= 0 then Failure else Success(Encoded(c))
  }

  function DecodeCursor(token: Token): Result<Cursor> {
    match token
    case Blank => Success(NO_CURSOR)
    case Garbage => Failure
    case Encoded(c) => if c.timestamp == ZERO_TIME || c.seqNo <= 0 then Failure else Success(c)
  }

  /** Encoding accepts exactly the cursors that decoding gives back. */
  lemma CursorRoundTrip(c: Cursor)
    ensures EncodeCursor(c).Success? <==> ValidCursor(c)
    ensures EncodeCursor(c).Success? ==> DecodeCursor(EncodeCursor(c).value) == Success(c)
    ensures forall token :: DecodeCursor(token) == Success(c) && token != Blank ==> EncodeCursor(c) == Success(token)
  {
  }

  // ----- The query -----

  function CursorOf(r: Row): Cursor {
    Cursor(r.event.timestamp, r.seqNo)
  }

  /** Newest first; of one instant, the last inserted first. */
  predicate Before(a: Cursor, b: Cursor) {
    a.timestamp > b.timestamp || (a.timestamp == b.timestamp && a.seqNo > b.seqNo)
  }

  predicate Ordered(rows: seq<Row>) {
    forall i, j :: 0 <= i < j < |rows| ==> Before(CursorOf(rows[i]), CursorOf(rows[j]))
  }

  function Where(table: seq<Row>, matches: Row -> bool): seq<Row> {
    if table == [] then []
    else Where(table[..|table| - 1], matches) + if matches(table[|table| - 1]) then [table[|table| - 1]] else []
  }

  function Place(r: Row, sorted: seq<Row>): seq<Row> {
    if sorted == [] then [r]
    else if Before(CursorOf(r), CursorOf(sorted[0])) then [r] + sorted
    else [sorted[0]] + Place(r, sorted[1..])
  }

  function OrderBy(rows: seq<Row>): seq<Row> {
    if rows == [] then [] else Place(rows[|rows| - 1], OrderBy(rows[..|rows| - 1]))
  }

  /** The rows that match a filter, in listing order. */
  function Listed(table: seq<Row>, matches: Row -> bool): seq<Row> {
    OrderBy(Where(table, matches))
  }

  lemma {:induction false} WhereMembers(table: seq<Row>, matches: Row -> bool)
    ensures forall r :: r in Where(table, matches) <==> r in table && matches(r)
    ensures |Where(table, matches)| <= |table|
  {
    if table != [] {
      WhereMembers(table[..|table| - 1], matches);
      assert table == table[..|table| - 1] + [table[|table| - 1]];
    }
  }

  lemma {:induction false} WhereValid(table: seq<Row>, matches: Row -> bool)
    requires ValidTable(table)
    ensures ValidTable(Where(table, matches))
  {
    if table != [] {
      var prefix := table[..|table| - 1];
      WhereValid(prefix, matches);
      WhereMembers(prefix, matches);
      var rows := Where(prefix, matches);
      forall i | 0 <= i < |rows| ensures rows[i].seqNo != table[|table| - 1].seqNo {
        assert rows[i] in prefix;
      }
    }
  }

  lemma PlaceMembers(r: Row, sorted: seq<Row>)
    ensures forall x :: x in Place(r, sorted) <==> x == r || x in sorted
    ensures |Place(r, sorted)| == |sorted| + 1
  {
  }

  lemma {:induction false} PlaceOrdered(r: Row, sorted: seq<Row>)
    requires Ordered(sorted) && forall x :: x in sorted ==> x.seqNo != r.seqNo
    ensures Ordered(Place(r, sorted))
  {
    if sorted != [] && !Before(CursorOf(r), CursorOf(sorted[0])) {
      PlaceOrdered(r, sorted[1..]);
      PlaceMembers(r, sorted[1..]);
      var tail := Place(r, sorted[1..]);
      forall j | 0 <= j < |tail| ensures Before(CursorOf(sorted[0]), CursorOf(tail[j])) {
        assert tail[j] in tail;
        if tail[j] != r {
          var k :| 0 <= k < |sorted[1..]| && sorted[1..][k] == tail[j];
          assert sorted[k + 1] == tail[j];
        }
      }
    }
  }

  lemma {:induction false} OrderByWorks(rows: seq<Row>)
    requires ValidTable(rows)
    ensures Ordered(OrderBy(rows)) && |OrderBy(rows)| == |rows|
    ensures forall r :: r in OrderBy(rows) <==> r in rows
  {
    hide Place, Before;
    if rows != [] {
      var prefix, last := rows[..|rows| - 1], rows[|rows| - 1];
      OrderByWorks(prefix);
      PlaceMembers(last, OrderBy(prefix));
      forall x | x in OrderBy(prefix) ensures x.seqNo != last.seqNo {
        var i :| 0 <= i < |prefix| && prefix[i] == x;
        assert rows[i] == x;
      }
      PlaceOrdered(last, OrderBy(prefix));
      assert rows == prefix + [last];
    }
  }

  /** The listing is in strict order and has exactly the matching rows. */
  lemma ListedWorks(table: seq<Row>, matches: Row -> bool)
    requires ValidTable(table)
    ensures Ordered(Listed(table, matches))
    ensures forall r :: r in Listed(table, matches) <==> r in table && matches(r)
    ensures forall r :: r in Listed(table, matches) ==> ValidCursor(CursorOf(r))
  {
    WhereValid(table, matches);
    WhereMembers(table, matches);
    OrderByWorks(Where(table, matches));
  }

  /** Newer rows come first, and of one instant the row with the higher sequence number. */
  lemma NewestFirst(table: seq<Row>, matches: Row -> bool, i: nat, j: nat)
    requires ValidTable(table) && i < j < |Listed(table, matches)|
    ensures var (a, b) := (Listed(table, matches)[i], Listed(table, matches)[j]);
      b.event.timestamp < a.event.timestamp || (b.event.timestamp == a.event.timestamp && b.seqNo < a.seqNo)
  {
    ListedWorks(table, matches);
    hide Listed, ValidTable;
    assert Before(CursorOf(Listed(table, matches)[i]), CursorOf(Listed(table, matches)[j]));
  }

  lemma HasMember(rows: seq<Row>)
    requires rows != []
    ensures exists r :: r in rows
  {
    assert rows[0] in rows;
  }

  /** Rows in strict order are determined by which rows they are. */
  lemma {:induction false} OrderedUnique(a: seq<Row>, b: seq<Row>)
    requires Ordered(a) && Ordered(b) && forall r :: r in a <==> r in b
    ensures a == b
  {
    if a == [] {
      if b != [] { HasMember(b); }
    } else {
      assert a[0] in b && b != [];
      assert b[0] in a;
      assert a[0] == b[0];
      forall r | r in a[1..] ensures r in b[1..] {
        assert r in b && r != b[0];
      }
      forall r | r in b[1..] ensures r in a[1..] {
        assert r in a && r != a[0];
      }
      OrderedUnique(a[1..], b[1..]);
    }
  }

  // ----- Pages -----

  datatype Filter = Filter(matches: Row -> bool, limit: int, token: Token, offset: int)

  datatype Page = Page(items: seq<Row>, total: nat, next: Token, hasNext: bool)

  function NormalLimit(limit: int): (n: nat)
    ensures 1 <= n <= 200
  {
    if limit <= 0 then 50 else if limit > 200 then 200 else limit
  }

  /** The filter's rows after a cursor; no cursor means all of them. */
  predicate Past(c: Cursor, r: Row) {
    c.timestamp == ZERO_TIME || Before(c, CursorOf(r))
  }

  function Restricted(matches: Row -> bool, c: Cursor): Row -> bool {
    r => matches(r) && Past(c, r)
  }

  function Cut(rows: seq<Row>, from: int, to: int): seq<Row> {
    var lo := if from < 0 then 0 else if from > |rows| then |rows| else from;
    var hi := if to < lo then lo else if to > |rows| then |rows| else to;
    rows[lo..hi]
  }

  /** At most `limit + 1` rows past the cursor, or past an offset when there is no cursor. */
  function Query(table: seq<Row>, matches: Row -> bool, c: Cursor, offset: int, limit: nat): seq<Row> {
    var skip := if c.timestamp == ZERO_TIME && offset > 0 then offset else 0;
    Cut(Listed(table, Restricted(matches, c)), skip, skip + limit + 1)
  }

  /** Lists one page, with the total of the filter. */
  method List(table: seq<Row>, filter: Filter) returns (r: Result<Page>)
    requires ValidTable(table)
    ensures r == PageAt(table, filter)
  {
    hide Query, Where;
    var limit := filter.limit;
    if limit <= 0 {
      limit := 50;
    }
    if limit > 200 {
      limit := 200;
    }
    var decoded := DecodeCursor(filter.token);
    if decoded.Failure? {
      return Failure;
    }
    var cursor := decoded.value;
    var total := |Where(table, filter.matches)|;
    var models := Query(table, filter.matches, cursor, filter.offset, limit);
    ghost var fetched := models;
    var hasNext := |models| > limit;
    if hasNext {
      models := models[..limit];
    }
    var items := [];
    for i := 0 to |models|
      invariant items == models[..i]
    {
      items := items + [models[i]];
    }
    assert items == models == if |fetched| > limit then fetched[..limit] else fetched;
    var next := Blank;
    if hasNext && |items| > 0 {
      var last := items[|items| - 1];
      var encoded := EncodeCursor(Cursor(last.event.timestamp, last.seqNo));
      if encoded.Failure? {
        return Failure;
      }
      next := encoded.value;
    }
    return Success(Page(items, total, next, hasNext));
  }

  function PageAt(table: seq<Row>, filter: Filter): Result<Page> {
    match DecodeCursor(filter.token)
    case Failure => Failure
    case Success(c) =>
      var limit := NormalLimit(filter.limit);
      var fetched := Query(table, filter.matches, c, filter.offset, limit);
      var total := |Where(table, filter.matches)|;
      if |fetched| <= limit then Success(Page(fetched, total, Blank, false))
      else
        match EncodeCursor(CursorOf(fetched[limit - 1]))
        case Failure => Failure
        case Success(next) => Success(Page(fetched[..limit], total, next, true))
  }

  /** A page can always be encoded: only a garbled cursor makes List fail. */
  lemma PageExists(table: seq<Row>, filter: Filter)
    requires ValidTable(table)
    ensures PageAt(table, filter).Success? <==> DecodeCursor(filter.token).Success?
    ensures PageAt(table, filter).Success? ==> var page := PageAt(table, filter).value;
      && |page.items| <= NormalLimit(filter.limit) && page.total == |Listed(table, filter.matches)|
      && (page.hasNext <==> page.next != Blank)
      && (page.hasNext ==> page.items != [] && page.next == Encoded(CursorOf(page.items[|page.items| - 1])))
  {
    WhereValid(table, filter.matches);
    OrderByWorks(Where(table, filter.matches));
    if DecodeCursor(filter.token).Success? {
      var c, limit := DecodeCursor(filter.token).value, NormalLimit(filter.limit);
      var fetched := Query(table, filter.matches, c, filter.offset, limit);
      ListedWorks(table, Restricted(filter.matches, c));
      if |fetched| > limit {
        assert fetched[limit - 1] in fetched;
        assert fetched[limit - 1] in Listed(table, Restricted(filter.matches, c));
      }
    }
  }

  /** What follows a row of the listing is what the keyset condition of its cursor selects. */
  lemma PastRow(table: seq<Row>, matches: Row -> bool, k: nat)
    requires ValidTable(table) && k < |Listed(table, matches)|
    ensures Listed(table, Restricted(matches, CursorOf(Listed(table, matches)[k]))) == Listed(table, matches)[k + 1..]
  {
    var all := Listed(table, matches);
    var c := CursorOf(all[k]);
    ListedWorks(table, matches);
    ListedWorks(table, Restricted(matches, c));
    assert all[k] in all;
    var rest := Listed(table, Restricted(matches, c));
    forall r | r in rest ensures r in all[k + 1..] {
      var i :| 0 <= i < |all| && all[i] == r;
      assert i > k;
      assert all[k + 1..][i - k - 1] == r;
    }
    forall r | r in all[k + 1..] ensures r in rest {
      var i :| 0 <= i < |all[k + 1..]| && all[k + 1..][i] == r;
      assert all[i + k + 1] == r;
    }
    OrderedUnique(rest, all[k + 1..]);
  }

  lemma PastNothing(table: seq<Row>, matches: Row -> bool)
    requires ValidTable(table)
    ensures Listed(table, Restricted(matches, NO_CURSOR)) == Listed(table, matches)
  {
    ListedWorks(table, matches);
    ListedWorks(table, Restricted(matches, NO_CURSOR));
    OrderedUnique(Listed(table, Restricted(matches, NO_CURSOR)), Listed(table, matches));
  }

  // ----- A walk over a fixed table -----

  /** The cursor that opens page `k`, following the cursors from the first page. */
  function TokenAt(table: seq<Row>, matches: Row -> bool, limit: int, k: nat): Token {
    if k == 0 then Blank
    else
      match PageAt(table, Filter(matches, limit, TokenAt(table, matches, limit, k - 1), 0))
      case Failure => Garbage
      case Success(page) => page.next
  }

  /** Where page `k` starts. */
  function Start(size: nat, k: nat): nat {
    k * size
  }

  lemma NextStart(size: nat, k: nat)
    ensures Start(size, k + 1) == Start(size, k) + size && Start(size, 0) == 0
  {
  }

  /** Page `k` is the `k`-th slice of the whole listing, and knows whether there is another. */
  ghost predicate IsSlice(page: Page, rows: seq<Row>, size: nat, from: nat)
    requires size > 0
  {
    && page.items == Cut(rows, from, from + size) && page.total == |rows|
    && (page.hasNext <==> from + size < |rows|)
    && page.next == if page.hasNext then Encoded(CursorOf(rows[from + size - 1])) else Blank
  }

  /** The page that page `k` of the walk is. */
  function WalkPage(table: seq<Row>, matches: Row -> bool, limit: int, k: nat): Result<Page> {
    PageAt(table, Filter(matches, limit, TokenAt(table, matches, limit, k), 0))
  }

  lemma {:induction false} KeysetPage(table: seq<Row>, matches: Row -> bool, limit: int, k: nat)
    requires ValidTable(table)
    requires k == 0 || Start(NormalLimit(limit), k) < |Listed(table, matches)|
    ensures WalkPage(table, matches, limit, k).Success?
    ensures var (all, size) := (Listed(table, matches), NormalLimit(limit));
      IsSlice(WalkPage(table, matches, limit, k).value, all, size, Start(size, k))
  {
    hide Start, Listed, NormalLimit, TokenAt, PageAt, IsSlice, Restricted, ValidTable;
    var all, size := Listed(table, matches), NormalLimit(limit);
    NextStart(size, k);
    if k == 0 {
      PastNothing(table, matches);
      NoToken(table, matches, limit);
      PageIsSlice(table, matches, limit, Blank, NO_CURSOR, 0);
    } else {
      NextStart(size, k - 1);
      KeysetPage(table, matches, limit, k - 1);
      TokenOfSlice(table, matches, limit, k);
      PastRow(table, matches, Start(size, k) - 1);
      var last := CursorOf(all[Start(size, k) - 1]);
      PageIsSlice(table, matches, limit, Encoded(last), last, Start(size, k));
    }
  }

  lemma NoToken(table: seq<Row>, matches: Row -> bool, limit: int)
    ensures TokenAt(table, matches, limit, 0) == Blank && DecodeCursor(Blank) == Success(NO_CURSOR)
  {
  }

  /** The page before, being a slice, gives the cursor of its last row. */
  lemma TokenOfSlice(table: seq<Row>, matches: Row -> bool, limit: int, k: nat)
    requires ValidTable(table) && k > 0 && WalkPage(table, matches, limit, k - 1).Success?
    requires var (all, size) := (Listed(table, matches), NormalLimit(limit));
      Start(size, k) < |all| && IsSlice(WalkPage(table, matches, limit, k - 1).value, all, size, Start(size, k - 1))
    ensures Start(NormalLimit(limit), k) > 0
    ensures var last := CursorOf(Listed(table, matches)[Start(NormalLimit(limit), k) - 1]);
      TokenAt(table, matches, limit, k) == Encoded(last) && DecodeCursor(Encoded(last)) == Success(last)
  {
    hide Start, Listed, NormalLimit, PageAt, WalkPage, TokenAt, ValidTable, Ordered, Before, Cut;
    var all, size := Listed(table, matches), NormalLimit(limit);
    NextStart(size, k - 1);
    TokenIsNext(table, matches, limit, k);
    ListedWorks(table, matches);
    assert all[Start(size, k) - 1] in all;
  }

  lemma TokenIsNext(table: seq<Row>, matches: Row -> bool, limit: int, k: nat)
    requires k > 0 && WalkPage(table, matches, limit, k - 1).Success?
    ensures TokenAt(table, matches, limit, k) == WalkPage(table, matches, limit, k - 1).value.next
  {
    hide PageAt;
  }

  /** A page past a cursor, when that leaves the listing from `from` on. */
  lemma PageIsSlice(table: seq<Row>, matches: Row -> bool, limit: int, token: Token, c: Cursor, from: nat)
    requires ValidTable(table) && DecodeCursor(token) == Success(c) && from <= |Listed(table, matches)|
    requires Listed(table, Restricted(matches, c)) == Listed(table, matches)[from..]
    ensures var r := PageAt(table, Filter(matches, limit, token, 0));
      r.Success? && IsSlice(r.value, Listed(table, matches), NormalLimit(limit), from)
  {
    hide Listed, NormalLimit;
    PageExists(table, Filter(matches, limit, token, 0));
    var all, size := Listed(table, matches), NormalLimit(limit);
    var fetched := Query(table, matches, c, 0, size);
    assert fetched == Cut(all[from..], 0, size + 1) == Cut(all, from, from + size + 1);
    if |fetched| > size {
      assert fetched[..size] == Cut(all, from, from + size);
      assert fetched[size - 1] == all[from + size - 1];
    } else {
      assert fetched == Cut(all, from, from + size);
    }
  }

  /** The offset page at `offset` is the listing from there on. */
  lemma OffsetPage(table: seq<Row>, matches: Row -> bool, limit: int, offset: nat)
    requires ValidTable(table)
    ensures var r := PageAt(table, Filter(matches, limit, Blank, offset));
      var all := Listed(table, matches);
      r.Success? && r.value.items == Cut(all, offset, offset + NormalLimit(limit)) && r.value.total == |all|
  {
    hide Listed, Cut, NormalLimit, Query, Restricted;
    PastNothing(table, matches);
    PageExists(table, Filter(matches, limit, Blank, offset));
    var size := NormalLimit(limit);
    FirstQuery(table, matches, offset, size);
    CutShorter(Listed(table, matches), offset, size);
  }

  lemma FirstQuery(table: seq<Row>, matches: Row -> bool, offset: nat, limit: nat)
    requires ValidTable(table)
    ensures Query(table, matches, NO_CURSOR, offset, limit) == Cut(Listed(table, matches), offset, offset + limit + 1)
  {
    hide Listed, Cut;
    PastNothing(table, matches);
  }

  lemma CutShorter(rows: seq<Row>, from: nat, n: nat)
    ensures var (longer, cut) := (Cut(rows, from, from + n + 1), Cut(rows, from, from + n));
      if |longer| <= n then longer == cut else longer[..n] == cut
  {
  }

  /** The first page has as many rows as there are, up to the limit: 50 if none is given, and never more than 200. */
  lemma FirstPageSize(table: seq<Row>, matches: Row -> bool, limit: int)
    requires ValidTable(table)
    ensures var (r, all) := (PageAt(table, Filter(matches, limit, Blank, 0)), |Listed(table, matches)|);
      && r.Success?
      && (limit <= 0 ==> |r.value.items| == if all < 50 then all else 50)
      && (0 < limit <= 200 ==> |r.value.items| == if all < limit then all else limit)
      && (limit > 200 ==> |r.value.items| == if all < 200 then all else 200)
  {
    OffsetPage(table, matches, limit, 0);
    hide Listed, PageAt, ValidTable;
  }

  /** Page `k` of the cursor walk is the offset page at `k * limit`, total included. */
  lemma KeysetIsOffset(table: seq<Row>, matches: Row -> bool, limit: int, k: nat)
    requires ValidTable(table)
    requires k == 0 || Start(NormalLimit(limit), k) < |Listed(table, matches)|
    ensures var (byCursor, byOffset) := (WalkPage(table, matches, limit, k),
        PageAt(table, Filter(matches, limit, Blank, Start(NormalLimit(limit), k))));
      byCursor.Success? && byOffset.Success?
      && byCursor.value.items == byOffset.value.items && byCursor.value.total == byOffset.value.total
  {
    hide WalkPage, PageAt, Listed, Start, NormalLimit;
    KeysetPage(table, matches, limit, k);
    OffsetPage(table, matches, limit, Start(NormalLimit(limit), k));
  }

  /** Everything the walk returns from page `k` on; it stops at the first page without a next one. */
  function WalkFrom(table: seq<Row>, matches: Row -> bool, limit: int, k: nat): seq<Row>
    requires ValidTable(table)
    requires k == 0 || Start(NormalLimit(limit), k) < |Listed(table, matches)|
    decreases |Listed(table, matches)| - Start(NormalLimit(limit), k)
  {
    KeysetPage(table, matches, limit, k);
    NextStart(NormalLimit(limit), k);
    var page := WalkPage(table, matches, limit, k).value;
    page.items + if page.next == Blank then [] else WalkFrom(table, matches, limit, k + 1)
  }

  lemma {:induction false} WalkIsListing(table: seq<Row>, matches: Row -> bool, limit: int, k: nat)
    requires ValidTable(table)
    requires k == 0 || Start(NormalLimit(limit), k) < |Listed(table, matches)|
    ensures Start(NormalLimit(limit), k) <= |Listed(table, matches)|
    ensures WalkFrom(table, matches, limit, k) == Listed(table, matches)[Start(NormalLimit(limit), k)..]
    decreases |Listed(table, matches)| - Start(NormalLimit(limit), k)
  {
    hide WalkFrom, WalkPage, Listed, Start, NormalLimit, ValidTable, TokenAt;
    var all, size := Listed(table, matches), NormalLimit(limit);
    var from := Start(size, k);
    KeysetPage(table, matches, limit, k);
    NextStart(size, k);
    NextStart(size, 0);
    WalkStep(table, matches, limit, k);
    var page := WalkPage(table, matches, limit, k).value;
    if from + size < |all| {
      WalkIsListing(table, matches, limit, k + 1);
      assert page.items == all[from..from + size];
      SplitRows(all, from, from + size);
    }
  }

  lemma SplitRows(rows: seq<Row>, from: nat, mid: nat)
    requires from <= mid <= |rows|
    ensures rows[from..] == rows[from..mid] + rows[mid..]
  {
  }

  lemma WalkStep(table: seq<Row>, matches: Row -> bool, limit: int, k: nat)
    requires ValidTable(table)
    requires k == 0 || Start(NormalLimit(limit), k) < |Listed(table, matches)|
    ensures WalkPage(table, matches, limit, k).Success?
    ensures var page := WalkPage(table, matches, limit, k).value;
      && (page.next != Blank ==> Start(NormalLimit(limit), k + 1) < |Listed(table, matches)|)
      && WalkFrom(table, matches, limit, k)
        == page.items + if page.next == Blank then [] else WalkFrom(table, matches, limit, k + 1)
  {
    hide WalkPage, Listed, Start, NormalLimit, ValidTable;
    KeysetPage(table, matches, limit, k);
    NextStart(NormalLimit(limit), k);
  }

  /** Following the cursors from the first page ends, and returns the whole listing in order. */
  lemma WalkReturnsEverything(table: seq<Row>, matches: Row -> bool, limit: int)
    requires ValidTable(table)
    ensures WalkFrom(table, matches, limit, 0) == Listed(table, matches)
  {
    hide WalkFrom, Listed;
    WalkIsListing(table, matches, limit, 0);
    NextStart(NormalLimit(limit), 0);
  }

  // ----- The admin endpoint -----

  datatype NextCursor = NoNext | NextOffset(offset: int) | NextToken(token: Token)

  datatype Reply = BadRequest | ServerError | Listing(page: Page, next: NextCursor)

  /** Offsets are honoured when there is no cursor and an offset was given. */
  method AuditEvents(table: seq<Row>, filter: Filter, offsetGiven: bool) returns (reply: Reply)
    requires ValidTable(table)
    ensures reply == AuditEventsReply(table, filter, offsetGiven)
    ensures reply != ServerError
  {
    var legacyOffsetMode := filter.token == Blank && offsetGiven;
    if filter.token != Blank {
      if DecodeCursor(filter.token).Failure? {
        return BadRequest;
      }
    }
    PageExists(table, filter);
    var listed := List(table, filter);
    if listed.Failure? {
      return ServerError;
    }
    var page := listed.value;
    var nextCursor := NoNext;
    if legacyOffsetMode {
      var limit := filter.limit;
      if limit <= 0 {
        limit := 50;
      }
      var nextOffset := filter.offset + limit;
      if nextOffset < page.total {
        nextCursor := NextOffset(nextOffset);
      }
    } else if page.next != Blank {
      nextCursor := NextToken(page.next);
    }
    return Listing(page, nextCursor);
  }

  /** The step between legacy pages; unlike the page size it has no upper bound. */
  function LegacyStep(limit: int): (n: nat)
    ensures n > 0
  {
    if limit <= 0 then 50 else limit
  }

  function AuditEventsReply(table: seq<Row>, filter: Filter, offsetGiven: bool): Reply {
    match PageAt(table, filter)
    case Failure => BadRequest
    case Success(page) =>
      if filter.token == Blank && offsetGiven then
        var nextOffset := filter.offset + LegacyStep(filter.limit);
        Listing(page, if nextOffset < page.total then NextOffset(nextOffset) else NoNext)
      else Listing(page, if page.next != Blank then NextToken(page.next) else NoNext)
  }

  /** Everything a client gets by following the offsets from `offset`. */
  function LegacyWalk(table: seq<Row>, matches: Row -> bool, limit: int, offset: nat): seq<Row>
    requires ValidTable(table)
    decreases |Listed(table, matches)| - offset
  {
    OffsetPage(table, matches, limit, offset);
    var reply := AuditEventsReply(table, Filter(matches, limit, Blank, offset), true);
    reply.page.items + match reply.next
      case NextOffset(next) => LegacyWalk(table, matches, limit, next)
      case _ => []
  }

  /** One page, then the rest. */
  lemma LegacyOnce(table: seq<Row>, matches: Row -> bool, limit: int, offset: nat)
    requires ValidTable(table)
    ensures var all, next := Listed(table, matches), offset + LegacyStep(limit);
      LegacyWalk(table, matches, limit, offset) == Cut(all, offset, offset + NormalLimit(limit))
        + if next < |all| then LegacyWalk(table, matches, limit, next) else []
  {
    hide PageAt, Listed, ValidTable, LegacyWalk, Cut, NormalLimit;
    OffsetPage(table, matches, limit, offset);
    LegacyUnrolls(table, matches, limit, offset);
  }

  lemma LegacyUnrolls(table: seq<Row>, matches: Row -> bool, limit: int, offset: nat)
    requires ValidTable(table)
    requires var reply := AuditEventsReply(table, Filter(matches, limit, Blank, offset), true);
      reply.Listing? && (reply.next.NextOffset? ==> reply.next.offset > offset)
    ensures var reply := AuditEventsReply(table, Filter(matches, limit, Blank, offset), true);
      LegacyWalk(table, matches, limit, offset) == reply.page.items
        + if reply.next.NextOffset? then LegacyWalk(table, matches, limit, reply.next.offset) else []
  {
    hide AuditEventsReply, Listed, ValidTable;
    OffsetPage(table, matches, limit, offset);
  }

  lemma {:induction false} LegacyWalkWithinLimit(table: seq<Row>, matches: Row -> bool, limit: int, offset: nat)
    requires ValidTable(table) && limit <= 200 && offset <= |Listed(table, matches)|
    ensures LegacyWalk(table, matches, limit, offset) == Listed(table, matches)[offset..]
    decreases |Listed(table, matches)| - offset
  {
    hide LegacyWalk, Listed, ValidTable;
    var all, next := Listed(table, matches), offset + LegacyStep(limit);
    LegacyOnce(table, matches, limit, offset);
    if next < |all| {
      LegacyWalkWithinLimit(table, matches, limit, next);
      assert all[offset..] == all[offset..next] + all[next..];
    }
  }

  lemma {:induction false} LegacyWalkShort(table: seq<Row>, matches: Row -> bool, limit: int, offset: nat)
    requires ValidTable(table) && limit > 200
    ensures var rest := |Listed(table, matches)| - offset;
      |LegacyWalk(table, matches, limit, offset)| <= if rest > 0 then rest else 0
    ensures var rest := |Listed(table, matches)| - offset;
      200 < rest ==> |LegacyWalk(table, matches, limit, offset)| < rest
    decreases |Listed(table, matches)| - offset
  {
    hide LegacyWalk, Listed, ValidTable;
    LegacyOnce(table, matches, limit, offset);
    if offset + limit < |Listed(table, matches)| {
      LegacyWalkShort(table, matches, limit, offset + limit);
    }
  }

  /** The legacy walk returns the whole listing exactly when the limit, or the listing, is at most 200. */
  lemma LegacyWalkReturnsEverything(table: seq<Row>, matches: Row -> bool, limit: int)
    requires ValidTable(table)
    ensures LegacyWalk(table, matches, limit, 0) == Listed(table, matches)
      <==> limit <= 200 || |Listed(table, matches)| <= 200
  {
    if limit <= 200 {
      LegacyWalkWithinLimit(table, matches, limit, 0);
    } else {
      LegacyWalkShort(table, matches, limit, 0);
      LegacyOnce(table, matches, limit, 0);
    }
  }

  // ----- A walk over a changing table -----

  /**
   A client loads a page, follows its cursor, and so on; before each load the table
   may have gained and lost any rows. `tables[i]` is what page `i` was loaded from.
   */
  ghost predicate Walk(tables: seq<seq<Row>>, matches: Row -> bool, limit: int, pages: seq<Page>) {
    && |tables| == |pages| > 0
    && (forall i :: 0 <= i < |tables| ==> ValidTable(tables[i]))
    && (forall i :: 0 <= i < |pages| ==>
      PageAt(tables[i], Filter(matches, limit, TokenBefore(pages, i), 0)) == Success(pages[i]))
    && (forall i :: 0 <= i < |pages| - 1 ==> pages[i].hasNext)
  }

  function TokenBefore(pages: seq<Page>, i: nat): Token
    requires i <= |pages|
  {
    if i == 0 then Blank else pages[i - 1].next
  }

  /** A page has the first of the matching rows past its cursor, in order; the others are past its last row. */
  lemma PagePartition(table: seq<Row>, matches: Row -> bool, limit: int, token: Token, c: Cursor, page: Page)
    requires ValidTable(table) && DecodeCursor(token) == Success(c)
    requires PageAt(table, Filter(matches, limit, token, 0)) == Success(page)
    ensures Ordered(page.items) && forall r :: r in page.items ==> r in table && matches(r) && Past(c, r)
    ensures page.hasNext ==> page.items != [] && page.next == Encoded(Last(page))
    ensures forall r :: r in table && matches(r) && Past(c, r) ==>
      r in page.items || (page.hasNext && Before(Last(page), CursorOf(r)))
  {
    hide Listed, ValidTable, Before;
    PageExists(table, Filter(matches, limit, token, 0));
    var rest := Listed(table, Restricted(matches, c));
    ListedWorks(table, Restricted(matches, c));
    var n := |page.items|;
    assert page.items == rest[..n] && (!page.hasNext ==> n == |rest|);
    hide PageAt;
    forall r | r in page.items ensures r in rest {}
    forall r | r in table && matches(r) && Past(c, r)
      ensures r in page.items || (page.hasNext && Before(Last(page), CursorOf(r))) {
      assert r in rest;
      var k :| 0 <= k < |rest| && rest[k] == r;
      if k < n { assert page.items[k] == r; }
    }
  }

  /** What one page of a walk has, relative to the cursor that opened it. */
  lemma PageOfWalk(tables: seq<seq<Row>>, matches: Row -> bool, limit: int, pages: seq<Page>, i: nat)
    requires Walk(tables, matches, limit, pages) && i < |pages|
    ensures Ordered(pages[i].items)
    ensures i > 0 ==> pages[i - 1].items != []
    ensures forall r :: r in pages[i].items ==> i == 0 || Before(Last(pages[i - 1]), CursorOf(r))
    ensures forall r :: r in tables[i] && matches(r) && (i == 0 || Before(Last(pages[i - 1]), CursorOf(r))) ==>
      r in pages[i].items || (pages[i].hasNext && Before(Last(pages[i]), CursorOf(r)))
  {
    hide PageAt, Ordered, ValidTable;
    var token := TokenBefore(pages, i);
    assert PageAt(tables[i], Filter(matches, limit, token, 0)) == Success(pages[i]);
    PageExists(tables[i], Filter(matches, limit, token, 0));
    var c := DecodeCursor(token).value;
    PagePartition(tables[i], matches, limit, token, c, pages[i]);
    if i > 0 {
      var token' := TokenBefore(pages, i - 1);
      assert PageAt(tables[i - 1], Filter(matches, limit, token', 0)) == Success(pages[i - 1]);
      PageExists(tables[i - 1], Filter(matches, limit, token', 0));
      PagePartition(tables[i - 1], matches, limit, token', DecodeCursor(token').value, pages[i - 1]);
      assert c == Last(pages[i - 1]) && c.timestamp != ZERO_TIME;
    }
  }

  /** The position of a page's last row. */
  function Last(page: Page): Cursor {
    if page.items == [] then NO_CURSOR else CursorOf(page.items[|page.items| - 1])
  }

  /** Whatever the table does meanwhile, the walk goes strictly forward: no row is returned twice. */
  lemma {:induction false} WalkNeverRepeats(tables: seq<seq<Row>>, matches: Row -> bool, limit: int,
        pages: seq<Page>, i: nat, j: nat, a: Row, b: Row)
    requires Walk(tables, matches, limit, pages) && i < j < |pages|
    requires a in pages[i].items && b in pages[j].items
    ensures Before(CursorOf(a), CursorOf(b)) && a != b && Ordered(pages[i].items)
    decreases j
  {
    hide PageAt, ValidTable;
    PageOfWalk(tables, matches, limit, pages, j);
    PageOfWalk(tables, matches, limit, pages, i);
    assert b in pages[j].items && Before(Last(pages[j - 1]), CursorOf(b));
    hide Walk;
    var z := pages[j - 1].items[|pages[j - 1].items| - 1];
    if i < j - 1 {
      WalkNeverRepeats(tables, matches, limit, pages, i, j - 1, a, z);
    } else {
      var k :| 0 <= k < |pages[i].items| && pages[i].items[k] == a;
      assert k == |pages[i].items| - 1 || Before(CursorOf(a), CursorOf(z));
    }
  }

  /** A matching row that is there at every load is returned by page `i`, or is still ahead after it. */
  lemma {:induction false} WalkReaches(tables: seq<seq<Row>>, matches: Row -> bool, limit: int,
        pages: seq<Page>, i: nat, r: Row)
    requires Walk(tables, matches, limit, pages) && i < |pages| && matches(r)
    requires forall k :: 0 <= k < |tables| ==> r in tables[k]
    ensures ReturnedBy(pages, i, r) || (pages[i].hasNext && Before(Last(pages[i]), CursorOf(r)))
  {
    hide PageAt, ValidTable, Ordered;
    PageOfWalk(tables, matches, limit, pages, i);
    if i > 0 { WalkReaches(tables, matches, limit, pages, i - 1, r); }
  }

  /** The row is on one of the pages up to page `i`. */
  predicate ReturnedBy(pages: seq<Page>, i: nat, r: Row)
    requires i < |pages|
  {
    exists k :: 0 <= k <= i && r in pages[k].items
  }

  /** The row is on page `i` and on no other. */
  predicate OnlyOn(pages: seq<Page>, i: nat, r: Row)
    requires i < |pages|
  {
    r in pages[i].items && forall j :: 0 <= j < |pages| && r in pages[j].items ==> j == i
  }

  /** No row is on two pages. */
  lemma OnOnePage(tables: seq<seq<Row>>, matches: Row -> bool, limit: int, pages: seq<Page>, i: nat, r: Row)
    requires Walk(tables, matches, limit, pages) && i < |pages| && r in pages[i].items
    ensures OnlyOn(pages, i, r)
  {
    forall j | 0 <= j < |pages| && r in pages[j].items ensures j == i {
      hide Walk, Ordered, Before;
      if i < j { WalkNeverRepeats(tables, matches, limit, pages, i, j, r, r); }
      if j < i { WalkNeverRepeats(tables, matches, limit, pages, j, i, r, r); }
    }
  }

  lemma WalkHasPages(tables: seq<seq<Row>>, matches: Row -> bool, limit: int, pages: seq<Page>)
    requires Walk(tables, matches, limit, pages)
    ensures |pages| > 0
  {
  }

  lemma FoundOnOnePage(tables: seq<seq<Row>>, matches: Row -> bool, limit: int, pages: seq<Page>, n: nat, r: Row)
    requires Walk(tables, matches, limit, pages) && n < |pages| && ReturnedBy(pages, n, r)
    ensures exists i :: 0 <= i < |pages| && OnlyOn(pages, i, r)
  {
    var i :| 0 <= i <= n && r in pages[i].items;
    hide *;
    OnOnePage(tables, matches, limit, pages, i, r);
  }

  /** A finished walk has returned every matching row that was there throughout, exactly once. */
  lemma WalkMissesNothing(tables: seq<seq<Row>>, matches: Row -> bool, limit: int, pages: seq<Page>, r: Row)
    requires Walk(tables, matches, limit, pages) && !pages[|pages| - 1].hasNext && matches(r)
    requires forall k :: 0 <= k < |tables| ==> r in tables[k]
    ensures exists i :: 0 <= i < |pages| && OnlyOn(pages, i, r)
  {
    hide *;
    WalkHasPages(tables, matches, limit, pages);
    var n := |pages| - 1;
    WalkReaches(tables, matches, limit, pages, n, r);
    FoundOnOnePage(tables, matches, limit, pages, n, r);
  }
}
