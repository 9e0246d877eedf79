/** The audit page of the dashboard: the cursor stack behind its pages, and its row of page numbers. */
module Dashboard {
  import opened Listing

  // ----- The cursor stack -----

  /** `next` opens a page strictly further on than `token` does. */
  predicate Ahead(token: Token, next: Token) {
    next.Encoded? && ValidCursor(next.cursor) && (token.Encoded? ==> Before(token.cursor, next.cursor))
  }

  /** Cursors that open the first page, the second page, and so on. */
  predicate Chain(path: seq<Token>) {
    path != [] && path[0] == Blank && forall i :: 0 <= i < |path| - 1 ==> Ahead(path[i], path[i + 1])
  }

  /** A page that `token` opened. */
  predicate OpenedBy(token: Token, page: Page) {
    && (page.next != Blank ==> Ahead(token, page.next))
    && (forall r :: r in page.items && token.Encoded? ==> Before(token.cursor, CursorOf(r)))
  }

  lemma ChainExtends(path: seq<Token>, next: Token)
    requires Chain(path) && Ahead(path[|path| - 1], next)
    ensures Chain(path + [next])
  {
    hide Ahead;
    var longer := path + [next];
    forall i | 0 <= i < |longer| - 1 ensures Ahead(longer[i], longer[i + 1]) {
      if i < |path| - 1 { assert Ahead(path[i], path[i + 1]); }
    }
  }

  lemma ChainShortens(path: seq<Token>, n: nat)
    requires Chain(path) && n < |path|
    ensures Chain(path[..n + 1])
  {
  }

  lemma CursorDecodes(path: seq<Token>, i: nat)
    requires Chain(path) && i < |path|
    ensures DecodeCursor(path[i]).Success?
  {
    if i > 0 { assert Ahead(path[i - 1], path[i]); }
  }

  /** The page size for what was asked for. */
  function PageSizeFor(wanted: int): (size: nat)
    ensures 1 <= size <= 200 && (1 <= wanted <= 200 ==> size == wanted)
    ensures (wanted > 200 ==> size == 200) && (wanted <= 0 ==> size == 25)
  {
    if wanted > 0 then if wanted < 200 then wanted else 200 else 25
  }

  class AuditView {
    var matches: Row -> bool
    var pageSize: nat
    var cursor: Token
    var pageIndex: nat
    var cursorStack: seq<Token>
    var page: Page
    var auditLoading: bool

    /** `wanted` is the page size asked for. */
    constructor (matches: Row -> bool, wanted: int)
      ensures Valid() && pageIndex == 0 && !auditLoading && this.matches == matches
      ensures pageSize == PageSizeFor(wanted)
    {
      this.matches := matches;
      pageSize := PageSizeFor(wanted);
      cursor, pageIndex, cursorStack := Blank, 0, [];
      page, auditLoading := Page([], 0, Blank, false), false;
    }

    /** The cursors of the pages up to the current one. */
    function Path(): (path: seq<Token>)
      reads this
    {
      cursorStack + [cursor]
    }

    /** Whatever happens to the table: one cursor per page, each strictly ahead of the one before. */
    predicate Valid()
      reads this
    {
      && 1 <= pageSize <= 200
      && |cursorStack| == pageIndex && Chain(Path()) && (!auditLoading ==> OpenedBy(cursor, page))
    }

    /** On a table that stays fixed: every cursor is that of the walk, and the page is the walk's. */
    ghost predicate OnTable(t: seq<Row>)
      reads this
    {
      && (pageIndex == 0 || Start(NormalLimit(pageSize), pageIndex) < |Listed(t, matches)|)
      && |cursorStack| == pageIndex && cursor == TokenAt(t, matches, pageSize, pageIndex)
      && (forall i :: 0 <= i < pageIndex ==> cursorStack[i] == TokenAt(t, matches, pageSize, i))
      && (!auditLoading ==> WalkPage(t, matches, pageSize, pageIndex) == Success(page))
    }

    function KnownPageCount(): (n: nat)
      reads this
      ensures pageIndex < n
    {
      pageIndex + 1 + if page.hasNext && page.next != Blank then 1 else 0
    }

    /** The position changes when a load starts, the page when it ends. */
    method LoadAudit(nextCursor: Token, nextPageIndex: nat, nextCursorStack: seq<Token>)
      requires 1 <= pageSize <= 200 && |nextCursorStack| == nextPageIndex && Chain(nextCursorStack + [nextCursor])
      modifies `cursor, `pageIndex, `cursorStack, `auditLoading
      ensures Valid() && auditLoading
      ensures cursor == nextCursor && pageIndex == nextPageIndex && cursorStack == nextCursorStack
    {
      auditLoading := true;
      cursor := nextCursor;
      pageIndex := nextPageIndex;
      cursorStack := nextCursorStack;
    }

    /** The reply to the load: the page of whatever the table is by then. */
    method Loaded(table: seq<Row>)
      requires Valid() && auditLoading && ValidTable(table)
      modifies `page, `auditLoading
      ensures Valid() && !auditLoading
      ensures PageAt(table, Filter(matches, pageSize, cursor, 0)) == Success(page)
      ensures old(OnTable(table)) ==> OnTable(table)
    {
      hide PageAt, Listed;
      var filter := Filter(matches, pageSize, cursor, 0);
      var reply := AuditEvents(table, filter, false);
      PageExists(table, filter);
      CursorDecodes(Path(), pageIndex);
      PagePartition(table, matches, pageSize, cursor, DecodeCursor(cursor).value, reply.page);
      var next := if reply.next.NextToken? then reply.next.token else Blank;
      page := Page(reply.page.items, reply.page.total, next, reply.page.hasNext);
      auditLoading := false;
      assert page == reply.page;
      PageIsOpened(table, matches, pageSize, cursor, page);
    }

    /** A fresh start, maybe with other filters or another page size, and whether or not a page is loading. */
    method Reload(newMatches: Row -> bool, wanted: int)
      modifies `matches, `pageSize, `cursor, `pageIndex, `cursorStack, `auditLoading
      ensures Valid() && auditLoading && Path() == [Blank]
      ensures matches == newMatches && pageSize == PageSizeFor(wanted)
      ensures forall t :: OnTable(t)
    {
      matches := newMatches;
      pageSize := PageSizeFor(wanted);
      LoadAudit(Blank, 0, []);
    }

    /** Nothing moves while a page is loading. */
    method LoadNextAuditPage()
      requires Valid()
      modifies `cursor, `pageIndex, `cursorStack, `auditLoading
      ensures Valid()
      ensures pageIndex == old(pageIndex) + if !old(auditLoading) && page.next != Blank then 1 else 0
      ensures auditLoading == (old(auditLoading) || pageIndex != old(pageIndex))
      ensures Path() == old(Path()) + if pageIndex > old(pageIndex) then [old(page.next)] else []
      ensures forall t :: ValidTable(t) && old(OnTable(t)) ==> OnTable(t)
    {
      if page.next == Blank || auditLoading {
        return;
      }
      StepsForward(this);
      ChainExtends(Path(), page.next);
      LoadAudit(page.next, pageIndex + 1, cursorStack + [cursor]);
    }

    method LoadPreviousAuditPage()
      requires Valid()
      modifies `cursor, `pageIndex, `cursorStack, `auditLoading
      ensures Valid()
      ensures pageIndex == if !old(auditLoading) && old(pageIndex) > 0 then old(pageIndex) - 1 else old(pageIndex)
      ensures auditLoading == (old(auditLoading) || pageIndex != old(pageIndex))
      ensures Path() == old(Path())[..pageIndex + 1]
      ensures forall t :: ValidTable(t) && old(OnTable(t)) ==> OnTable(t)
    {
      if pageIndex == 0 || auditLoading {
        return;
      }
      LoadAuditPageNumber(pageIndex);
    }

    /** The page a number stands for: the nearest known one. */
    function Target(pageNumber: int): (target: nat)
      reads this
      ensures target < KnownPageCount()
    {
      var wanted := if pageNumber - 1 > 0 then pageNumber - 1 else 0;
      if wanted < KnownPageCount() - 1 then wanted else KnownPageCount() - 1
    }

    method LoadAuditPageNumber(pageNumber: int)
      requires Valid()
      modifies `cursor, `pageIndex, `cursorStack, `auditLoading
      ensures Valid()
      ensures pageIndex == if old(auditLoading) then old(pageIndex) else old(Target(pageNumber))
      ensures auditLoading == (old(auditLoading) || pageIndex != old(pageIndex))
      ensures pageIndex <= old(pageIndex) ==> Path() == old(Path())[..pageIndex + 1]
      ensures pageIndex > old(pageIndex) ==> Path() == old(Path()) + [old(page.next)]
      ensures forall t :: ValidTable(t) && old(OnTable(t)) ==> OnTable(t)
    {
      hide Listed, Start, NormalLimit, WalkPage, TokenAt, Chain, ValidTable;
      if auditLoading {
        return;
      }
      var nextPageIndex := Target(pageNumber);
      if nextPageIndex == pageIndex {
        return;
      }
      if nextPageIndex == pageIndex + 1 && page.next != Blank {
        StepsForward(this);
        ChainExtends(Path(), page.next);
        LoadAudit(page.next, nextPageIndex, cursorStack + [cursor]);
        return;
      }
      var nextCursor := CursorForPageIndex(nextPageIndex);
      StepsBack(this, nextPageIndex);
      ChainShortens(Path(), nextPageIndex);
      assert Path()[..nextPageIndex + 1] == cursorStack[..nextPageIndex] + [nextCursor];
      LoadAudit(nextCursor, nextPageIndex, cursorStack[..nextPageIndex]);
    }

    /** The cursor that opened a page at or before the current one. */
    method CursorForPageIndex(target: nat) returns (found: Token)
      requires Valid()
      ensures found == if target <= pageIndex then Path()[target] else Blank
    {
      if target <= 0 {
        return Blank;
      }
      if target == pageIndex {
        return cursor;
      }
      return if target < |cursorStack| then cursorStack[target] else Blank;
    }

    method PaginationItems() returns (items: seq<PaginationItem>)
      ensures |items| <= 7 && Number(pageIndex + 1) in items
      ensures Spans(items, KnownPageCount())
    {
      items := BuildPaginationItems(pageIndex + 1, KnownPageCount());
    }
  }

  lemma PageIsOpened(table: seq<Row>, matches: Row -> bool, size: nat, token: Token, page: Page)
    requires ValidTable(table) && DecodeCursor(token).Success?
    requires PageAt(table, Filter(matches, size, token, 0)) == Success(page)
    ensures OpenedBy(token, page)
  {
    hide PageAt;
    PageExists(table, Filter(matches, size, token, 0));
    PagePartition(table, matches, size, token, DecodeCursor(token).value, page);
    if page.next != Blank {
      var last := page.items[|page.items| - 1];
      assert last in page.items && last in table;
      var i :| 0 <= i < |table| && table[i] == last;
    }
  }

  /** Past the page on show, on any table that does not change. */
  lemma StepsForward(view: AuditView)
    requires view.Valid() && !view.auditLoading && view.page.next != Blank
    ensures forall t :: ValidTable(t) && view.OnTable(t) ==>
      && Start(NormalLimit(view.pageSize), view.pageIndex + 1) < |Listed(t, view.matches)|
      && view.page.next == TokenAt(t, view.matches, view.pageSize, view.pageIndex + 1)
  {
    hide Listed, Start, NormalLimit, WalkPage;
    forall t | ValidTable(t) && view.OnTable(t)
      ensures Start(NormalLimit(view.pageSize), view.pageIndex + 1) < |Listed(t, view.matches)|
      ensures view.page.next == TokenAt(t, view.matches, view.pageSize, view.pageIndex + 1) {
      FollowingToken(t, view.matches, view.pageSize, view.pageIndex);
    }
  }

  lemma FollowingToken(t: seq<Row>, matches: Row -> bool, size: nat, k: nat)
    requires ValidTable(t) && (k == 0 || Start(NormalLimit(size), k) < |Listed(t, matches)|)
    ensures WalkPage(t, matches, size, k).Success?
    ensures WalkPage(t, matches, size, k).value.next == TokenAt(t, matches, size, k + 1)
    ensures WalkPage(t, matches, size, k).value.next != Blank ==> Start(NormalLimit(size), k + 1) < |Listed(t, matches)|
  {
    KeysetPage(t, matches, size, k);
    NextStart(NormalLimit(size), k);
    hide Listed, Start, NormalLimit, PageAt;
  }

  lemma StartGrows(size: nat, i: nat, j: nat)
    requires i <= j
    ensures Start(size, i) <= Start(size, j)
  {
    assert j * size == i * size + (j - i) * size;
  }

  lemma StepsBack(view: AuditView, target: nat)
    requires view.Valid() && target < view.pageIndex
    ensures forall t :: ValidTable(t) && view.OnTable(t) ==>
      Start(NormalLimit(view.pageSize), target) < |Listed(t, view.matches)|
  {
    StartGrows(NormalLimit(view.pageSize), target, view.pageIndex);
  }

  /** On a fixed table, the page at index `i` is rows `i * pageSize` up to `(i + 1) * pageSize` of the listing. */
  lemma ShownIsSlice(view: AuditView, t: seq<Row>)
    requires ValidTable(t) && view.Valid() && view.OnTable(t) && !view.auditLoading
    ensures view.page.items
      == Cut(Listed(t, view.matches), view.pageIndex * view.pageSize, (view.pageIndex + 1) * view.pageSize)
    ensures view.page.total == |Listed(t, view.matches)|
    ensures view.page.next != Blank <==> (view.pageIndex + 1) * view.pageSize < |Listed(t, view.matches)|
  {
    hide Listed, WalkPage, TokenAt;
    KeysetPage(t, view.matches, view.pageSize, view.pageIndex);
    NextStart(view.pageSize, view.pageIndex);
  }

  /** The pages known are those up to the current one, and one more exactly if rows remain; only then can one go on. */
  lemma KnownPages(view: AuditView, t: seq<Row>)
    requires ValidTable(t) && view.Valid() && view.OnTable(t) && !view.auditLoading
    ensures var more := (view.pageIndex + 1) * view.pageSize < |Listed(t, view.matches)|;
      && view.KnownPageCount() == view.pageIndex + (if more then 2 else 1)
      && view.Target(view.pageIndex + 2) == view.pageIndex + if more then 1 else 0
  {
    hide Listed, WalkPage, TokenAt;
    ShownIsSlice(view, t);
    KeysetPage(t, view.matches, view.pageSize, view.pageIndex);
  }

  // ----- The row of page numbers -----

  datatype PaginationItem = Number(n: int) | Ellipsis

  /** Two items side by side: neighbouring pages, or an ellipsis for the one or more pages it hides. */
  predicate Fits(items: seq<PaginationItem>, i: nat)
    requires i < |items| - 1
  {
    if items[i].Number? && items[i + 1].Number? then items[i + 1].n == items[i].n + 1
    else if items[i].Ellipsis? then
      0 < i && items[i - 1].Number? && items[i + 1].Number? && items[i + 1].n >= items[i - 1].n + 2
    else i + 2 < |items|
  }

  /** The items cover pages 1 to `total` without a gap or a repetition. */
  predicate Spans(items: seq<PaginationItem>, total: int) {
    && |items| > 0 && items[0] == Number(1) && items[|items| - 1] == Number(total)
    && forall i :: 0 <= i < |items| - 1 ==> Fits(items, i)
  }

  method BuildPaginationItems(current: int, knownTotal: int) returns (items: seq<PaginationItem>)
    ensures knownTotal >= 1 ==> Spans(items, knownTotal)
    ensures 1 <= current <= knownTotal ==> Number(current) in items
    ensures 1 <= current - 1 && current <= knownTotal ==> Number(current - 1) in items
    ensures 1 <= current && current + 1 <= knownTotal ==> Number(current + 1) in items
    ensures |items| <= 7
    ensures knownTotal <= 7 ==> forall i :: 0 <= i < |items| ==> items[i].Number?
  {
    hide Spans, Fits;
    if knownTotal <= 7 {
      items := seq(if knownTotal > 0 then knownTotal else 0, index => Number(index + 1));
      if knownTotal >= 1 { AllNumbersSpan(items, knownTotal); }
      if 1 <= current <= knownTotal { assert items[current - 1] == Number(current); }
      if 1 <= current - 1 && current <= knownTotal { assert items[current - 2] == Number(current - 1); }
      if 1 <= current && current + 1 <= knownTotal { assert items[current] == Number(current + 1); }
      return;
    }
    items := [Number(1)];
    var start := if current - 1 > 2 then current - 1 else 2;
    var end := if current + 1 < knownTotal - 1 then current + 1 else knownTotal - 1;
    if current <= 3 {
      start, end := 2, 4;
    } else if current >= knownTotal - 2 {
      start, end := knownTotal - 3, knownTotal - 1;
    }
    if start > 2 {
      items := items + [Ellipsis];
    }
    ghost var left := items;
    var pageNumber := start;
    while pageNumber <= end
      invariant start <= pageNumber <= end + 1
      invariant items == left + Numbers(start, pageNumber - start)
    {
      items := items + [Number(pageNumber)];
      pageNumber := pageNumber + 1;
    }
    hide Numbers;
    ghost var right := if end < knownTotal - 1 then [Ellipsis, Number(knownTotal)] else [Number(knownTotal)];
    SpansMiddle(left, start, end, right, knownTotal);
    if end < knownTotal - 1 {
      items := items + [Ellipsis];
    }
    items := items + [Number(knownTotal)];
    assert items == left + Numbers(start, end + 1 - start) + right;
    assert forall n :: start <= n <= end || n == 1 || n == knownTotal ==> Number(n) in items by {
      MiddleShown(left, start, end, right, knownTotal);
    }
  }

  lemma AllNumbersSpan(items: seq<PaginationItem>, total: int)
    requires 1 <= total == |items| && forall i :: 0 <= i < |items| ==> items[i] == Number(i + 1)
    ensures Spans(items, total)
  {
    assert items[0] == Number(1) && items[|items| - 1] == Number(total);
  }

  /** The numbers `start`, `start + 1`, and so on. */
  function Numbers(start: int, count: nat): (items: seq<PaginationItem>)
    ensures |items| == count
  {
    seq(count, i => Number(start + i))
  }

  lemma MiddleShown(left: seq<PaginationItem>, start: int, end: int, right: seq<PaginationItem>, total: int)
    requires start <= end && left != [] && right != []
    requires left[0] == Number(1) && right[|right| - 1] == Number(total)
    ensures var items := left + Numbers(start, end + 1 - start) + right;
      forall n :: start <= n <= end || n == 1 || n == total ==> Number(n) in items
  {
    var items := left + Numbers(start, end + 1 - start) + right;
    assert items[0] == Number(1) && items[|items| - 1] == Number(total);
    forall n | start <= n <= end ensures Number(n) in items {
      assert items[|left| + n - start] == Number(n);
    }
  }

  /** A run of numbers between the first page and the last, with an ellipsis on a side where pages are left out. */
  lemma SpansMiddle(left: seq<PaginationItem>, start: int, end: int, right: seq<PaginationItem>, total: int)
    requires 2 <= start <= end < total
    requires left == if start > 2 then [Number(1), Ellipsis] else [Number(1)]
    requires right == if end < total - 1 then [Ellipsis, Number(total)] else [Number(total)]
    ensures Spans(left + Numbers(start, end + 1 - start) + right, total)
  {
    var middle := Numbers(start, end + 1 - start);
    var items := left + middle + right;
    assert forall i :: |left| <= i < |left| + |middle| ==> items[i] == Number(start + i - |left|);
    forall i | 0 <= i < |items| - 1 ensures Fits(items, i) {
      if |left| <= i < |left| + |middle| - 1 {
        assert items[i] == Number(start + i - |left|) && items[i + 1] == Number(start + i + 1 - |left|);
      }
    }
  }

  /** Numbers that span the pages are strictly increasing. */
  lemma {:induction false} SpanIncreases(items: seq<PaginationItem>, total: int, i: nat, j: nat)
    requires Spans(items, total) && i < j < |items| && items[i].Number? && items[j].Number?
    ensures items[i].n < items[j].n
    decreases j
  {
    assert Fits(items, j - 1);
    if items[j - 1].Number? {
      if i < j - 1 { SpanIncreases(items, total, i, j - 1); }
    } else {
      if i < j - 2 { SpanIncreases(items, total, i, j - 2); }
    }
  }
}
