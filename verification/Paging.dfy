/** Keyset paging: pages follow a cursor through rows ordered by a three-part key. */
module Paging {
  import opened Options

  /** Time, identifier, attempt number.  Task status pages use the first two parts. */
  datatype Key = Key(at: int, id: int, attempt: int)

  /** The condition a query puts on a row's key, clause by clause. */
  predicate KeyCondition(row: Key, cursor: Key, newer: bool) {
    var compareTime := if newer then row.at > cursor.at else row.at < cursor.at;
    var compareJob := if newer then row.id > cursor.id else row.id < cursor.id;
    var compareAttempt := if newer then row.attempt > cursor.attempt else row.attempt < cursor.attempt;
    compareTime
    || (row.at == cursor.at && compareJob)
    || (row.at == cursor.at && row.id == cursor.id && compareAttempt)
  }

  /** The condition of the status query, which has two parts. */
  predicate StatusCondition(createdAt: int, id: int, cursorCreatedAt: int, cursorId: int) {
    createdAt < cursorCreatedAt || (createdAt == cursorCreatedAt && id < cursorId)
  }

  /** The order of the rows: lexicographic. */
  predicate Less(a: Key, b: Key) {
    if a.at != b.at then a.at < b.at
    else if a.id != b.id then a.id < b.id
    else a.attempt < b.attempt
  }

  /** Both query conditions cut the order exactly at the cursor. */
  lemma ConditionsCutTheOrder(row: Key, cursor: Key)
    ensures KeyCondition(row, cursor, false) <==> Less(row, cursor)
    ensures KeyCondition(row, cursor, true) <==> Less(cursor, row)
    ensures row.attempt == cursor.attempt ==> (StatusCondition(row.at, row.id, cursor.at, cursor.id) <==> Less(row, cursor))
  {
  }

  // ----- one page

  predicate BelowCursor(row: Key, before: Option<Key>) {
    before.Some? ==> Less(row, before.value)
  }

  predicate Descending(rows: seq<Key>) {
    forall i, j :: 0 <= i < j < |rows| ==> Less(rows[j], rows[i])
  }

  datatype Page = Page(items: seq<Key>, next: Option<Key>)

  /** The newest `limit` rows before the cursor, and a cursor exactly when older ones remain. */
  ghost predicate IsPage(rows: set<Key>, before: Option<Key>, limit: nat, page: Page) {
    Descending(page.items) && |page.items| <= limit
    && (forall k :: k in page.items ==> k in rows && BelowCursor(k, before))
    && (page.next.None? ==> forall k :: k in rows && BelowCursor(k, before) ==> k in page.items)
    && (page.next.Some? ==>
          |page.items| == limit && limit > 0 && page.next.value == page.items[limit - 1]
          && (forall k :: k in rows && BelowCursor(k, before) && !Less(k, page.next.value) ==> k in page.items)
          && exists k :: k in rows && Less(k, page.next.value))
  }

  method Greatest(rows: set<Key>) returns (greatest: Key)
    requires rows != {}
    ensures greatest in rows && forall k :: k in rows && k != greatest ==> Less(k, greatest)
  {
    greatest :| greatest in rows;
    var rest := rows - {greatest};
    while rest != {}
      invariant greatest in rows && rest <= rows && greatest !in rest
      invariant forall k :: k in rows && k !in rest && k != greatest ==> Less(k, greatest)
      decreases |rest|
    {
      var k :| k in rest;
      rest := rest - {k};
      if Less(greatest, k) {
        greatest := k;
      }
    }
  }

  /** `status` and `load_scraper_errors`: one row more than the page decides whether there is a next cursor. */
  method LoadPage(rows: set<Key>, before: Option<Key>, limit: nat) returns (page: Page)
    requires limit >= 1
    ensures IsPage(rows, before, limit, page)
  {
    var rest := set k | k in rows && (before.Some? ==> KeyCondition(k, before.value, false));
    forall k | k in rows ensures k in rest <==> BelowCursor(k, before) {
      if before.Some? {
        ConditionsCutTheOrder(k, before.value);
      }
    }
    var found: seq<Key> := [];
    while rest != {} && |found| < limit + 1
      invariant |found| <= limit + 1 && rest <= rows && Descending(found)
      invariant forall k :: k in rows && BelowCursor(k, before) <==> k in rest || k in found
      invariant forall i, k :: 0 <= i < |found| && k in rest ==> Less(k, found[i])
      decreases limit + 1 - |found|
    {
      var next := Greatest(rest);
      found := found + [next];
      rest := rest - {next};
    }
    var items := if |found| > limit then found[..limit] else found;
    var cursor := if |found| > limit then Some(items[limit - 1]) else None;
    page := Page(items, cursor);
    if |found| > limit {
      assert found == items + [found[limit]];
      assert found[limit] in found;
      forall k | k in rows && BelowCursor(k, before) && !Less(k, items[limit - 1]) ensures k in items {
        assert k in rest || k in found;
      }
    }
  }

  // ----- following the cursors

  function Concat(pages: seq<Page>): seq<Key> {
    if pages == [] then [] else Concat(pages[..|pages| - 1]) + pages[|pages| - 1].items
  }

  /** The cursor under which page `i` is read: that of the page before it. */
  function CursorOf(pages: seq<Page>, i: nat): Option<Key>
    requires i <= |pages|
  {
    if i == 0 then None else pages[i - 1].next
  }

  /** Page `i` is read from `tables[i]`, and only if the page before it had a next cursor. */
  ghost predicate PageAt(tables: seq<set<Key>>, limit: nat, pages: seq<Page>, i: nat)
    requires i < |pages| <= |tables|
  {
    IsPage(tables[i], CursorOf(pages, i), limit, pages[i]) && (i > 0 ==> CursorOf(pages, i).Some?)
  }

  ghost predicate Follows(tables: seq<set<Key>>, limit: nat, pages: seq<Page>) {
    |pages| <= |tables| && forall i: nat :: i < |pages| ==> PageAt(tables, limit, pages, i)
  }

  /** Between two reads the table changes only at keys the cursor has already passed. */
  ghost predicate ChangesAbove(before: set<Key>, after: set<Key>, cursor: Key) {
    forall k :: Less(k, cursor) ==> (k in before <==> k in after)
  }

  ghost predicate OnlyNewer(tables: seq<set<Key>>, pages: seq<Page>) {
    |pages| <= |tables|
    && forall i: nat :: 0 < i < |pages| && CursorOf(pages, i).Some? ==> ChangesAbove(tables[i - 1], tables[i], CursorOf(pages, i).value)
  }

  lemma EarlierPages(tables: seq<set<Key>>, limit: nat, pages: seq<Page>)
    requires pages != [] && Follows(tables, limit, pages)
    ensures Follows(tables, limit, pages[..|pages| - 1])
    ensures OnlyNewer(tables, pages) ==> OnlyNewer(tables, pages[..|pages| - 1])
    ensures PageAt(tables, limit, pages, |pages| - 1)
  {
    hide IsPage, ChangesAbove;
    var earlier := pages[..|pages| - 1];
    forall i: nat | i < |earlier| ensures PageAt(tables, limit, earlier, i) && CursorOf(earlier, i) == CursorOf(pages, i) {
      assert PageAt(tables, limit, pages, i);
    }
  }

  /** What has been listed after some pages: the first table's rows down to the cursor, newest first. */
  ghost predicate ListedDownTo(rows: set<Key>, listed: seq<Key>, cursor: Option<Key>) {
    Descending(listed)
    && (forall k :: k in listed <==> k in rows && (cursor.Some? ==> !Less(k, cursor.value)))
  }

  lemma {:induction false} PagesList(tables: seq<set<Key>>, limit: nat, pages: seq<Page>)
    requires Follows(tables, limit, pages) && OnlyNewer(tables, pages) && pages != []
    ensures ListedDownTo(tables[0], Concat(pages), pages[|pages| - 1].next)
    ensures pages[|pages| - 1].next.Some? ==>
              ChangesAbove(tables[0], tables[|pages| - 1], pages[|pages| - 1].next.value)
    decreases |pages|
  {
    hide IsPage, ChangesAbove, ListedDownTo;
    var n := |pages| - 1;
    EarlierPages(tables, limit, pages);
    assert Concat(pages) == Concat(pages[..n]) + pages[n].items;
    if n == 0 {
      assert Concat(pages) == pages[0].items;
      FirstPage(tables[0], limit, pages[0]);
    } else {
      PagesList(tables, limit, pages[..n]);
      assert CursorOf(pages, n) == pages[..n][n - 1].next;
      NextPage(tables[0], tables[n - 1], tables[n], limit, Concat(pages[..n]), CursorOf(pages, n).value, pages[n]);
    }
  }

  lemma FirstPage(rows: set<Key>, limit: nat, page: Page)
    requires IsPage(rows, None, limit, page)
    ensures ListedDownTo(rows, page.items, page.next)
    ensures page.next.Some? ==> ChangesAbove(rows, rows, page.next.value)
  {
    if page.next.Some? {
      forall k | k in page.items ensures !Less(k, page.next.value) {
        var i :| 0 <= i < |page.items| && page.items[i] == k;
      }
    }
  }

  lemma LessTransitive(a: Key, b: Key, c: Key)
    ensures Less(a, b) && Less(b, c) ==> Less(a, c)
    ensures Less(a, b) && !Less(c, b) ==> Less(a, c)
    ensures !Less(a, a)
  {
  }

  /** A page below the cursor that has a next cursor: that is its last row, and below the cursor too. */
  lemma NextBelow(rows: set<Key>, limit: nat, cursor: Key, page: Page)
    requires IsPage(rows, Some(cursor), limit, page) && page.next.Some?
    ensures Less(page.next.value, cursor)
    ensures forall k :: k in page.items ==> !Less(k, page.next.value)
    ensures forall k :: k in rows && Less(k, cursor) && !Less(k, page.next.value) ==> k in page.items
  {
    hide Less;
    assert page.next.value in page.items && BelowCursor(page.next.value, Some(cursor));
    forall k | k in page.items ensures !Less(k, page.next.value) {
      var i :| 0 <= i < |page.items| && page.items[i] == k;
      LessTransitive(k, page.next.value, k);
    }
    assert forall k :: BelowCursor(k, Some(cursor)) <==> Less(k, cursor);
  }

  /** What the page adds to the listing. */
  lemma NextListed(first: set<Key>, rows: set<Key>, limit: nat, listed: seq<Key>, cursor: Key, page: Page)
    requires ListedDownTo(first, listed, Some(cursor)) && IsPage(rows, Some(cursor), limit, page)
    requires ChangesAbove(first, rows, cursor)
    ensures forall k :: k in listed + page.items <==> k in first && (page.next.Some? ==> !Less(k, page.next.value))
  {
    hide Less, Descending;
    forall k ensures k in listed + page.items <==> k in first && (page.next.Some? ==> !Less(k, page.next.value)) {
      assert k in listed + page.items <==> k in listed || k in page.items;
      assert BelowCursor(k, Some(cursor)) <==> Less(k, cursor);
      if page.next.Some? {
        NextBelow(rows, limit, cursor, page);
        LessTransitive(k, page.next.value, cursor);
      }
    }
  }

  /** One more page continues the listing. */
  lemma NextPage(first: set<Key>, last: set<Key>, rows: set<Key>, limit: nat, listed: seq<Key>, cursor: Key, page: Page)
    requires ListedDownTo(first, listed, Some(cursor)) && IsPage(rows, Some(cursor), limit, page)
    requires ChangesAbove(first, last, cursor) && ChangesAbove(last, rows, cursor)
    ensures ListedDownTo(first, listed + page.items, page.next)
    ensures page.next.Some? ==> ChangesAbove(first, rows, page.next.value)
  {
    hide Less;
    forall k | Less(k, cursor) ensures k in first <==> k in rows {
      assert k in first <==> k in last;
    }
    NextListed(first, rows, limit, listed, cursor, page);
    var all := listed + page.items;
    forall i, j | 0 <= i < j < |all| ensures Less(all[j], all[i]) {
      if i < |listed| <= j {
        assert all[i] in listed && all[j] in page.items && BelowCursor(all[j], Some(cursor));
        LessTransitive(all[j], cursor, all[i]);
      }
    }
    if page.next.Some? {
      NextBelow(rows, limit, cursor, page);
      forall k | Less(k, page.next.value) ensures k in first <==> k in rows {
        LessTransitive(k, page.next.value, cursor);
      }
    }
  }

  /** Following the cursors from the start to the end lists every row of the first table exactly once, newest
      first, even while newer rows are inserted between the pages. */
  lemma CursorsEnumerate(tables: seq<set<Key>>, limit: nat, pages: seq<Page>)
    requires Follows(tables, limit, pages) && OnlyNewer(tables, pages) && pages != [] && pages[|pages| - 1].next.None?
    ensures Descending(Concat(pages)) && forall k :: k in Concat(pages) <==> k in tables[0]
  {
    PagesList(tables, limit, pages);
  }

  lemma {:induction false} ListedSize(tables: seq<set<Key>>, limit: nat, pages: seq<Page>)
    requires Follows(tables, limit, pages) && pages != []
    ensures |Concat(pages)| == (|pages| - 1) * limit + |pages[|pages| - 1].items|
    decreases |pages|
  {
    hide IsPage;
    var n := |pages| - 1;
    EarlierPages(tables, limit, pages);
    if n == 0 {
      assert Concat(pages[..0]) == [];
    } else {
      ListedSize(tables, limit, pages[..n]);
      EarlierPages(tables, limit, pages[..n]);
      assert CursorOf(pages, n).Some?;
      FullPage(tables[n - 1], CursorOf(pages[..n], n - 1), limit, pages[n - 1]);
      OneMorePage(n, limit);
    }
  }

  lemma OneMorePage(n: int, limit: int)
    ensures (n - 1) * limit + limit == n * limit
  {
  }

  lemma FullPage(rows: set<Key>, before: Option<Key>, limit: nat, page: Page)
    requires IsPage(rows, before, limit, page) && page.next.Some?
    ensures |page.items| == limit
  {
  }

  lemma {:induction false} DescendingSize(listed: seq<Key>, rows: set<Key>)
    requires Descending(listed) && forall k :: k in listed ==> k in rows
    ensures |listed| <= |rows|
    decreases |listed|
  {
    if listed != [] {
      var n := |listed| - 1;
      DescendingSize(listed[..n], rows - {listed[n]});
    }
  }

  /** Cursors run out: no more pages than it takes to list the first table's rows. */
  lemma CursorsRunOut(tables: seq<set<Key>>, limit: nat, pages: seq<Page>)
    requires Follows(tables, limit, pages) && OnlyNewer(tables, pages) && pages != []
    ensures (|pages| - 1) * limit + |pages[|pages| - 1].items| <= |tables[0]|
    ensures |pages| > 1 ==> |pages[|pages| - 1].items| > 0
  {
    PagesList(tables, limit, pages);
    ListedSize(tables, limit, pages);
    DescendingSize(Concat(pages), tables[0]);
    var n := |pages| - 1;
    if n > 0 {
      MoreRemains(tables, limit, pages);
    }
  }

  /** A page that had a next cursor is followed by a page with rows. */
  lemma MoreRemains(tables: seq<set<Key>>, limit: nat, pages: seq<Page>)
    requires Follows(tables, limit, pages) && OnlyNewer(tables, pages) && |pages| > 1
    ensures |pages[|pages| - 1].items| > 0
  {
    var n := |pages| - 1;
    assert PageAt(tables, limit, pages, n) && PageAt(tables, limit, pages, n - 1);
    var cursor := CursorOf(pages, n).value;
    var k :| k in tables[n - 1] && Less(k, cursor);
    assert k in tables[n] && BelowCursor(k, CursorOf(pages, n));
    if pages[n].next.None? {
      assert k in pages[n].items;
    }
  }

  // ----- the live stream, oldest first

  predicate Ascending(rows: seq<Key>) {
    forall i, j :: 0 <= i < j < |rows| ==> Less(rows[i], rows[j])
  }

  /** What one poll emits after the cursor: the oldest `limit` newer rows. */
  ghost predicate IsPoll(rows: set<Key>, after: Key, limit: nat, items: seq<Key>) {
    Ascending(items) && |items| <= limit
    && (forall k :: k in items ==> k in rows && Less(after, k))
    && (forall k :: k in rows && Less(after, k) && k !in items ==>
          |items| == limit && forall i :: 0 <= i < |items| ==> Less(items[i], k))
  }

  /** The stream's cursor after some polls. */
  function CursorAfter(start: Key, polls: seq<seq<Key>>): Key {
    if polls == [] then start
    else
      var items := polls[|polls| - 1];
      if items == [] then CursorAfter(start, polls[..|polls| - 1]) else items[|items| - 1]
  }

  function Emitted(polls: seq<seq<Key>>): seq<Key> {
    if polls == [] then [] else Emitted(polls[..|polls| - 1]) + polls[|polls| - 1]
  }

  /** Poll `i` reads `tables[i]`; rows are only ever added. */
  ghost predicate Streams(tables: seq<set<Key>>, start: Key, limit: nat, polls: seq<seq<Key>>) {
    |polls| <= |tables|
    && (forall i, j :: 0 <= i < j < |tables| ==> tables[i] <= tables[j])
    && forall i :: 0 <= i < |polls| ==> IsPoll(tables[i], CursorAfter(start, polls[..i]), limit, polls[i])
  }

  lemma EarlierPolls(tables: seq<set<Key>>, start: Key, limit: nat, polls: seq<seq<Key>>)
    requires polls != [] && Streams(tables, start, limit, polls)
    ensures var n := |polls| - 1;
            Streams(tables, start, limit, polls[..n]) && IsPoll(tables[n], CursorAfter(start, polls[..n]), limit, polls[n])
  {
    hide IsPoll, CursorAfter;
    var n := |polls| - 1;
    assert forall i :: 0 <= i < n ==> polls[..n][..i] == polls[..i];
  }

  /** One more poll after the cursor. */
  lemma PollExtends(rows: set<Key>, start: Key, limit: nat, before: seq<Key>, cursor: Key, items: seq<Key>)
    requires Ascending(before) && (forall k :: k in before ==> Less(start, k) && !Less(cursor, k)) && !Less(cursor, start)
    requires IsPoll(rows, cursor, limit, items)
    ensures var later := if items == [] then cursor else items[|items| - 1];
            Ascending(before + items) && !Less(later, start)
            && forall k :: k in before + items ==> Less(start, k) && !Less(later, k)
  {
    var later := if items == [] then cursor else items[|items| - 1];
    assert items != [] ==> later in items;
    forall k | k in before + items ensures Less(start, k) && !Less(later, k) {
      if k in items {
        var i :| 0 <= i < |items| && items[i] == k;
      }
    }
    forall i, j | 0 <= i < j < |before + items| ensures Less((before + items)[i], (before + items)[j]) {
      if i < |before| <= j {
        assert before[i] in before && items[j - |before|] in items;
      }
    }
  }

  lemma {:induction false} StreamAscends(tables: seq<set<Key>>, start: Key, limit: nat, polls: seq<seq<Key>>)
    requires Streams(tables, start, limit, polls)
    ensures Ascending(Emitted(polls))
    ensures forall k :: k in Emitted(polls) ==> Less(start, k) && !Less(CursorAfter(start, polls), k)
    ensures !Less(CursorAfter(start, polls), start)
    decreases |polls|
  {
    hide Streams, IsPoll, Ascending, Less;
    if polls != [] {
      var n := |polls| - 1;
      EarlierPolls(tables, start, limit, polls);
      StreamAscends(tables, start, limit, polls[..n]);
      PollLength(tables, start, limit, polls);
      PollExtends(tables[n], start, limit, Emitted(polls[..n]), CursorAfter(start, polls[..n]), polls[n]);
    } else {
      NothingEmitted(start);
    }
  }

  lemma PollLength(tables: seq<set<Key>>, start: Key, limit: nat, polls: seq<seq<Key>>)
    requires Streams(tables, start, limit, polls)
    ensures |polls| <= |tables|
  {
  }

  lemma GrowingTables(tables: seq<set<Key>>, start: Key, limit: nat, polls: seq<seq<Key>>, i: nat, j: nat)
    requires Streams(tables, start, limit, polls) && i <= j < |tables|
    ensures tables[i] <= tables[j]
  {
    hide IsPoll;
  }

  lemma NothingEmitted(start: Key)
    ensures Ascending([]) && !Less(start, start)
  {
  }

  lemma PollReaches(rows: set<Key>, cursor: Key, limit: nat, items: seq<Key>, row: Key)
    requires IsPoll(rows, cursor, limit, items) && row in rows && Less(cursor, row)
    requires !Less(if items == [] then cursor else items[|items| - 1], row)
    ensures row in items
  {
    assert items != [] ==> items[|items| - 1] in items;
  }

  /** The stream repeats nothing, and skips no row that was there while its cursor was still behind it:
      once the cursor has reached or passed such a row, the row has been emitted. */
  lemma {:induction false} StreamSkipsNothing(tables: seq<set<Key>>, start: Key, limit: nat, polls: seq<seq<Key>>, seen: nat, row: Key)
    requires Streams(tables, start, limit, polls) && seen < |polls|
    requires row in tables[seen] && Less(CursorAfter(start, polls[..seen]), row) && !Less(CursorAfter(start, polls), row)
    ensures row in Emitted(polls) && Ascending(Emitted(polls))
    decreases |polls|
  {
    hide IsPoll, Less, Ascending, Streams;
    StreamAscends(tables, start, limit, polls);
    var n := |polls| - 1;
    PollLength(tables, start, limit, polls);
    EarlierPolls(tables, start, limit, polls);
    var before := CursorAfter(start, polls[..n]);
    if Less(before, row) {
      GrowingTables(tables, start, limit, polls, seen, n);
      PollReaches(tables[n], before, limit, polls[n], row);
    } else {
      assert seen < n && polls[..n][..seen] == polls[..seen];
      StreamSkipsNothing(tables, start, limit, polls[..n], seen, row);
    }
  }
}
