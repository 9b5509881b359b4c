/**
 Backward paging of a response's tool events: the initial window and the pages chained to it
 deliver every event once, in order, however many events are appended meanwhile.
 */
module ToolPaging {
  import opened Wrappers

  datatype Event = Event(id: nat, response: int, special: bool, resolved: bool, hasSubagent: bool, hasActivity: bool, isError: bool)

  /** A session's events in id order, its settled responses, and those a steer targets. */
  datatype Session = Session(events: seq<Event>, settled: set<int>, steered: set<int>)

  /** Event ids are given out in increasing order. */
  ghost predicate Ordered(events: seq<Event>) {
    forall i, j :: 0 <= i < j < |events| ==> events[i].id < events[j].id
  }

  function RowsOf(events: seq<Event>, response: int): (rows: seq<Event>)
    ensures forall e :: e in rows <==> e in events && e.response == response
  {
    if events == [] then []
    else
      var last := events[|events| - 1];
      assert events == events[..|events| - 1] + [last];
      RowsOf(events[..|events| - 1], response) + if last.response == response then [last] else []
  }

  function Clamp(n: int): (r: nat)
    ensures 1 <= r <= 100
  {
    if n < 1 then 1 else if n > 100 then 100 else n
  }

  // ----- the initial window ---------------------------------------------------------------

  predicate MayPage(rows: seq<Event>) {
    forall i :: 0 <= i < |rows| ==> rows[i].resolved && !rows[i].hasSubagent && !rows[i].hasActivity && !rows[i].special
  }

  /** Only settled, unsteered responses of plain finished events are paged, and only large ones. */
  predicate Paged(s: Session, response: int, size: nat) {
    && response in s.settled && response !in s.steered
    && |RowsOf(s.events, response)| > size && MayPage(RowsOf(s.events, response))
  }

  datatype PageInfo = PageInfo(response: int, total: nat, errors: nat, nextBeforeId: nat)

  function Errors(rows: seq<Event>): nat {
    if rows == [] then 0 else Errors(rows[..|rows| - 1]) + if rows[|rows| - 1].isError then 1 else 0
  }

  /** What the window shows of one response. */
  function WindowRows(s: Session, response: int, size: nat): seq<Event> {
    var rows := RowsOf(s.events, response);
    if Paged(s, response, size) then rows[|rows| - size..] else rows
  }

  /** The window's page entry of one response: its last `size` events start at the cutoff. */
  function InfoFor(s: Session, response: int, size: nat): Option<PageInfo>
    requires size > 0
  {
    var rows := RowsOf(s.events, response);
    if Paged(s, response, size) then Some(PageInfo(response, |rows|, Errors(rows), rows[|rows| - size].id)) else None
  }

  function WindowItems(s: Session, min: int, max: int, size: nat): seq<Event>
    decreases max - min
  {
    if max < min then [] else WindowItems(s, min, max - 1, size) + WindowRows(s, max, size)
  }

  function WindowPages(s: Session, min: int, max: int, size: nat): seq<PageInfo>
    requires size > 0
    decreases max - min
  {
    if max < min then []
    else WindowPages(s, min, max - 1, size) + match InfoFor(s, max, size) case Some(info) => [info] case None => []
  }

  function GetSessionToolEventTranscriptWindow(s: Session, min: int, max: int, pageSize: int): (seq<Event>, seq<PageInfo>) {
    (WindowItems(s, min, max, Clamp(pageSize)), WindowPages(s, min, max, Clamp(pageSize)))
  }

  // ----- later pages ------------------------------------------------------------------------

  datatype Page = Page(items: seq<Event>, total: nat, hasEarlier: bool, nextBeforeId: Option<nat>)

  function Before(rows: seq<Event>, before: Option<nat>): seq<Event> {
    if rows == [] then []
    else
      var last := rows[|rows| - 1];
      Before(rows[..|rows| - 1], before) + if before.None? || last.id < before.value then [last] else []
  }

  /** The newest rows before the cursor, one more than the limit being the sign of earlier ones. */
  function PageOf(rows: seq<Event>, before: Option<nat>, limit: nat): Page
    requires limit > 0
  {
    var earlier := Before(rows, before);
    var newest := if |earlier| > limit + 1 then earlier[|earlier| - limit - 1..] else earlier;
    var hasEarlier := |newest| > limit;
    var items := if hasEarlier then newest[1..] else newest;
    Page(items, |rows|, hasEarlier, if hasEarlier then Some(items[0].id) else None)
  }

  function GetSessionToolEventPage(s: Session, response: int, before: Option<nat>, limit: int): Page {
    PageOf(RowsOf(s.events, response), before, Clamp(limit))
  }

  // ----- rows of a response -----------------------------------------------------------------

  lemma {:induction false} RowsStayOrdered(events: seq<Event>, response: int)
    requires Ordered(events)
    ensures Ordered(RowsOf(events, response))
  {
    if events != [] {
      var init, last := events[..|events| - 1], events[|events| - 1];
      RowsStayOrdered(init, response);
      forall e | e in RowsOf(init, response) ensures e.id < last.id {
        var i :| 0 <= i < |init| && init[i] == e;
        assert events[i] == e;
      }
    }
  }

  lemma {:induction false} RowsOfAppended(events: seq<Event>, more: seq<Event>, response: int)
    ensures RowsOf(events + more, response) == RowsOf(events, response) + RowsOf(more, response)
  {
    if more == [] {
      assert events + more == events;
    } else {
      var init := more[..|more| - 1];
      assert (events + more)[..|events + more| - 1] == events + init;
      RowsOfAppended(events, init, response);
    }
  }

  /** The rows before a row's id are the rows that precede it. */
  lemma {:induction false} BeforeIsPrefix(rows: seq<Event>, k: nat)
    requires Ordered(rows) && k < |rows|
    ensures Before(rows, Some(rows[k].id)) == rows[..k]
  {
    BeforeOfPrefix(rows, k, |rows|);
    assert rows[..|rows|] == rows;
  }

  lemma {:induction false} BeforeOfPrefix(rows: seq<Event>, k: nat, n: nat)
    requires Ordered(rows) && k < |rows| && n <= |rows|
    ensures Before(rows[..n], Some(rows[k].id)) == rows[..if n <= k then n else k]
  {
    if n > 0 {
      assert rows[..n][..n - 1] == rows[..n - 1];
      BeforeOfPrefix(rows, k, n - 1);
    }
  }

  // ----- chained pages -----------------------------------------------------------------------

  /** A page request against the table as it was then. */
  datatype Fetch = Fetch(table: Session, limit: int)

  /** The table with later events appended and any state of its messages. */
  ghost predicate Grown(s: Session, t: Session) {
    Ordered(t.events) && |s.events| <= |t.events| && t.events[..|s.events|] == s.events
  }

  /** The events of a chain of pages, earliest first: each page asks before the first of the one after. */
  function Chain(response: int, before: nat, fetches: seq<Fetch>): seq<Event>
    decreases |fetches|
  {
    if fetches == [] then []
    else
      var page := GetSessionToolEventPage(fetches[0].table, response, Some(before), fetches[0].limit);
      if page.hasEarlier then Chain(response, page.nextBeforeId.value, fetches[1..]) + page.items else page.items
  }

  /** How many pages the chain takes until none is earlier. */
  function Fetched(response: int, before: nat, fetches: seq<Fetch>): nat
    decreases |fetches|
  {
    if fetches == [] then 0
    else
      var page := GetSessionToolEventPage(fetches[0].table, response, Some(before), fetches[0].limit);
      if page.hasEarlier then 1 + Fetched(response, page.nextBeforeId.value, fetches[1..]) else 1
  }

  /** The page before a row. */
  function PageBefore(rows: seq<Event>, k: nat, limit: nat): Page
    requires k < |rows| && limit > 0
  {
    if k > limit then Page(rows[k - limit..k], |rows|, true, Some(rows[k - limit].id))
    else Page(rows[..k], |rows|, false, None)
  }

  lemma PageIsBefore(rows: seq<Event>, k: nat, limit: nat)
    requires Ordered(rows) && k < |rows| && limit > 0
    ensures PageOf(rows, Some(rows[k].id), limit) == PageBefore(rows, k, limit)
  {
    BeforeIsPrefix(rows, k);
    var earlier := rows[..k];
    if k > limit + 1 {
      assert earlier[k - limit - 1..][1..] == rows[k - limit..k];
    } else if k == limit + 1 {
      assert earlier[1..] == rows[k - limit..k];
    }
  }

  lemma AppendedRowsFollow(s: Session, t: Session, response: int)
    requires Grown(s, t)
    ensures RowsOf(s.events, response) <= RowsOf(t.events, response)
  {
    assert t.events == s.events + t.events[|s.events|..];
    RowsOfAppended(s.events, t.events[|s.events|..], response);
  }

  lemma SamePageBefore(rows: seq<Event>, grown: seq<Event>, k: nat, limit: nat)
    requires rows <= grown && k < |rows| && limit > 0
    ensures PageBefore(grown, k, limit) == PageBefore(rows, k, limit).(total := |grown|)
  {
    assert grown[..k] == rows[..k];
    if k > limit { assert grown[k - limit..k] == rows[k - limit..k]; }
  }

  /** Events appended meanwhile show only in the total of a page before an old row. */
  lemma PageIgnoresAppended(s: Session, t: Session, response: int, k: nat, limit: nat)
    requires Grown(s, t) && k < |RowsOf(s.events, response)| && limit > 0
    ensures PageOf(RowsOf(t.events, response), Some(RowsOf(s.events, response)[k].id), limit)
         == PageBefore(RowsOf(s.events, response), k, limit).(total := |RowsOf(t.events, response)|)
  {
    AppendedRowsFollow(s, t, response);
    RowsStayOrdered(t.events, response);
    PageIsBefore(RowsOf(t.events, response), k, limit);
    SamePageBefore(RowsOf(s.events, response), RowsOf(t.events, response), k, limit);
  }

  lemma ChainNext(response: int, before: nat, fetches: seq<Fetch>, page: Page)
    requires fetches != [] && page == PageOf(RowsOf(fetches[0].table.events, response), Some(before), Clamp(fetches[0].limit))
    ensures Chain(response, before, fetches)
         == if page.hasEarlier then Chain(response, page.nextBeforeId.value, fetches[1..]) + page.items else page.items
  {
  }

  /** What a page holds, and where the next one starts. */
  lemma {:induction false} PageCompletes(rows: seq<Event>, k: nat, limit: nat, page: Page)
    requires k < |rows| && limit > 0 && page == PageBefore(rows, k, limit).(total := page.total)
    ensures page.hasEarlier <==> k > limit
    ensures if k > limit then page.nextBeforeId == Some(rows[k - limit].id) && rows[..k - limit] + page.items == rows[..k] else page.items == rows[..k]
  {
    if k > limit { Rejoin(rows, k - limit, k); }
  }

  /** The chain delivers exactly the rows before its cursor, in order. */
  lemma {:induction false} ChainIsLossless(s: Session, response: int, k: nat, fetches: seq<Fetch>)
    requires Ordered(s.events) && k < |RowsOf(s.events, response)|
    requires forall i :: 0 <= i < |fetches| ==> Grown(s, fetches[i].table)
    requires |fetches| >= k && fetches != []
    ensures Chain(response, RowsOf(s.events, response)[k].id, fetches) == RowsOf(s.events, response)[..k]
    decreases k
  {
    var rows, limit := RowsOf(s.events, response), Clamp(fetches[0].limit);
    var page := PageBefore(rows, k, limit).(total := |RowsOf(fetches[0].table.events, response)|);
    PageIgnoresAppended(s, fetches[0].table, response, k, limit);
    ChainNext(response, rows[k].id, fetches, page);
    if k > limit { ChainIsLossless(s, response, k - limit, fetches[1..]); }
    PageCompletes(rows, k, limit, page);
  }

  lemma Rejoin<T>(rows: seq<T>, j: nat, k: nat)
    requires j <= k <= |rows|
    ensures rows[..j] + rows[j..k] == rows[..k]
  {
  }

  /** As many pages as are needed for the rows and no more. */
  predicate EnoughPages(rows: nat, limit: nat, pages: nat) {
    (pages - 1) * limit < rows <= pages * limit
  }

  lemma OneMorePage(rows: nat, limit: nat, pages: nat)
    requires limit <= rows && EnoughPages(rows - limit, limit, pages)
    ensures EnoughPages(rows, limit, pages + 1)
  {
    assert (pages + 1) * limit == pages * limit + limit;
    assert (pages - 1) * limit == pages * limit - limit;
  }

  /** With one page limit throughout, the chain stops after the expected number of pages. */
  lemma {:induction false} ChainStopsAsExpected(s: Session, response: int, k: nat, fetches: seq<Fetch>, limit: int)
    requires Ordered(s.events) && 0 < k < |RowsOf(s.events, response)|
    requires forall i :: 0 <= i < |fetches| ==> Grown(s, fetches[i].table) && fetches[i].limit == limit
    requires |fetches| >= k
    ensures EnoughPages(k, Clamp(limit), Fetched(response, RowsOf(s.events, response)[k].id, fetches))
    decreases k
  {
    var l := Clamp(limit);
    PageIgnoresAppended(s, fetches[0].table, response, k, l);
    if k > l {
      ChainStopsAsExpected(s, response, k - l, fetches[1..], limit);
      OneMorePage(k, l, Fetched(response, RowsOf(s.events, response)[k - l].id, fetches[1..]));
    }
  }

  lemma ChainMeetsWindow(s: Session, response: int, k: nat, fetches: seq<Fetch>)
    requires Ordered(s.events) && k < |RowsOf(s.events, response)|
    requires forall i :: 0 <= i < |fetches| ==> Grown(s, fetches[i].table)
    requires |fetches| >= k && fetches != []
    ensures Chain(response, RowsOf(s.events, response)[k].id, fetches) + RowsOf(s.events, response)[k..] == RowsOf(s.events, response)
  {
    ChainIsLossless(s, response, k, fetches);
    Rejoin(RowsOf(s.events, response), k, |RowsOf(s.events, response)|);
  }

  lemma {:induction false} OwnRows(rows: seq<Event>, response: int, other: int)
    requires forall i :: 0 <= i < |rows| ==> rows[i].response == response
    ensures RowsOf(rows, other) == if other == response then rows else []
  {
    if rows != [] {
      var init := rows[..|rows| - 1];
      assert rows == init + [rows[|init|]];
      OwnRows(init, response, other);
    }
  }

  lemma {:induction false} WindowRowsAreOwn(s: Session, response: int, size: nat, other: int)
    ensures RowsOf(WindowRows(s, response, size), other) == if other == response then WindowRows(s, response, size) else []
  {
    var rows := RowsOf(s.events, response);
    forall i | 0 <= i < |rows| ensures rows[i].response == response { assert rows[i] in rows; }
    OwnRows(WindowRows(s, response, size), response, other);
  }

  lemma {:induction false} WindowItemsOf(s: Session, min: int, max: int, size: nat, response: int)
    ensures RowsOf(WindowItems(s, min, max, size), response) == if min <= response <= max then WindowRows(s, response, size) else []
    decreases max - min
  {
    if min <= max {
      WindowItemsOf(s, min, max - 1, size, response);
      RowsOfAppended(WindowItems(s, min, max - 1, size), WindowRows(s, max, size), response);
      WindowRowsAreOwn(s, max, size, response);
    }
  }

  lemma {:induction false} WindowPagesOf(s: Session, min: int, max: int, size: nat, info: PageInfo)
    requires size > 0
    ensures info in WindowPages(s, min, max, size) <==> min <= info.response <= max && InfoFor(s, info.response, size) == Some(info)
    decreases max - min
  {
    if min <= max { WindowPagesOf(s, min, max - 1, size, info); }
  }

  lemma {:induction false} InfoIs(s: Session, response: int, size: nat, info: PageInfo)
    requires size > 0
    ensures var rows := RowsOf(s.events, response);
            InfoFor(s, response, size) == Some(info) <==>
              Paged(s, response, size) && info == PageInfo(response, |rows|, Errors(rows), rows[|rows| - size].id)
  {
  }

  lemma {:induction false} WindowRowsAre(s: Session, response: int, size: nat)
    ensures WindowRows(s, response, size) ==
              if Paged(s, response, size) then RowsOf(s.events, response)[|RowsOf(s.events, response)| - size..] else RowsOf(s.events, response)
  {
  }

  lemma {:induction false} ItemsShow(s: Session, min: int, max: int, size: nat, response: int)
    ensures var rows := RowsOf(s.events, response);
            RowsOf(WindowItems(s, min, max, size), response) ==
              if !(min <= response <= max) then [] else if Paged(s, response, size) then rows[|rows| - size..] else rows
  {
    WindowItemsOf(s, min, max, size, response);
    WindowRowsAre(s, response, size);
  }

  lemma {:induction false} PagesShow(s: Session, min: int, max: int, size: nat, response: int, info: PageInfo)
    requires size > 0
    ensures var rows := RowsOf(s.events, response);
            info in WindowPages(s, min, max, size) && info.response == response <==>
              min <= response <= max && Paged(s, response, size) && info == PageInfo(response, |rows|, Errors(rows), rows[|rows| - size].id)
  {
    WindowPagesOf(s, min, max, size, info);
    InfoIs(s, response, size, info);
  }

  /** The window holds exactly the responses in range: one that is not paged with all its events, a paged one
      with its last events and a page entry that counts the rest. */
  lemma {:induction false} WindowShowsResponse(s: Session, min: int, max: int, pageSize: int, response: int, info: PageInfo)
    ensures var (items, pages) := GetSessionToolEventTranscriptWindow(s, min, max, pageSize);
            var rows := RowsOf(s.events, response);
            && RowsOf(items, response) ==
                 (if !(min <= response <= max) then [] else if Paged(s, response, Clamp(pageSize)) then rows[|rows| - Clamp(pageSize)..] else rows)
            && (info in pages && info.response == response <==>
                  && min <= response <= max && Paged(s, response, Clamp(pageSize))
                  && info == PageInfo(response, |rows|, Errors(rows), rows[|rows| - Clamp(pageSize)].id))
  {
    ItemsShow(s, min, max, Clamp(pageSize), response);
    PagesShow(s, min, max, Clamp(pageSize), response, info);
  }

  lemma {:induction false} InfoStarts(s: Session, response: int, size: nat, info: PageInfo)
    requires size > 0 && InfoFor(s, response, size) == Some(info)
    ensures Paged(s, response, size) && |RowsOf(s.events, response)| > size
    ensures info.nextBeforeId == RowsOf(s.events, response)[|RowsOf(s.events, response)| - size].id && info.total == |RowsOf(s.events, response)|
  {
  }

  /** What a page entry of the window says of its response. */
  lemma {:induction false} EntryStarts(s: Session, min: int, max: int, size: nat, info: PageInfo)
    requires size > 0 && info in WindowPages(s, min, max, size)
    ensures min <= info.response <= max && Paged(s, info.response, size)
    ensures var rows := RowsOf(s.events, info.response);
            |rows| > size && info.nextBeforeId == rows[|rows| - size].id && info.total == |rows|
  {
    WindowPagesOf(s, min, max, size, info);
    InfoStarts(s, info.response, size, info);
  }

  /** The initial window of a paged response and the pages chained to it deliver its events exactly
      once, in order, in the expected number of pages, whatever is appended meanwhile. */
  lemma {:induction false} WindowAndPagesAreLossless(s: Session, min: int, max: int, pageSize: int, info: PageInfo, fetches: seq<Fetch>, limit: int)
    requires Ordered(s.events) && info in GetSessionToolEventTranscriptWindow(s, min, max, pageSize).1
    requires forall i :: 0 <= i < |fetches| ==> Grown(s, fetches[i].table) && fetches[i].limit == limit
    requires |fetches| >= |RowsOf(s.events, info.response)|
    ensures var shown := RowsOf(GetSessionToolEventTranscriptWindow(s, min, max, pageSize).0, info.response);
            && Chain(info.response, info.nextBeforeId, fetches) + shown == RowsOf(s.events, info.response)
            && info.total == |RowsOf(s.events, info.response)| > |shown|
            && EnoughPages(info.total - |shown|, Clamp(limit), Fetched(info.response, info.nextBeforeId, fetches))
  {
    EntryStarts(s, min, max, Clamp(pageSize), info);
    ItemsShow(s, min, max, Clamp(pageSize), info.response);
    var k := |RowsOf(s.events, info.response)| - Clamp(pageSize);
    ChainMeetsWindow(s, info.response, k, fetches);
    ChainStopsAsExpected(s, info.response, k, fetches, limit);
  }

  function FailedAt(rows: seq<Event>): set<nat> {
    set i: nat | i < |rows| && rows[i].isError
  }

  /** The errors shown for a response are as many as its failed events. */
  lemma {:induction false} ErrorsAreCounted(rows: seq<Event>)
    ensures Errors(rows) == |FailedAt(rows)|
  {
    if rows == [] {
      assert FailedAt(rows) == {};
    } else {
      var n: nat := |rows| - 1;
      ErrorsAreCounted(rows[..n]);
      assert FailedAt(rows) == if rows[n].isError then FailedAt(rows[..n]) + {n} else FailedAt(rows[..n]);
    }
  }

  /** A response is paged exactly if it is settled, no steer targets it, it has more events than fit a page of one to a
      hundred, and each of them is resolved, of no special kind, and shows neither subagent nor activity. */
  lemma {:induction false} PagedExactly(s: Session, response: int, pageSize: int)
    ensures var size := if pageSize > 100 then 100 else if pageSize <= 0 then 1 else pageSize;
            Clamp(pageSize) == size
            && (Paged(s, response, Clamp(pageSize)) <==>
                  && response in s.settled && response !in s.steered && |RowsOf(s.events, response)| >= size + 1
                  && forall e :: e in s.events && e.response == response ==> e.resolved && !(e.special || e.hasSubagent || e.hasActivity))
  {
    var rows := RowsOf(s.events, response);
    assert forall i :: 0 <= i < |rows| ==> rows[i] in rows;
  }
}
