/**
 The two paged reads of an instance's messages: by cursor in either direction,
 and by page number. A message is stood for by its place in the order.
 */
module MessagePages {
  import opened Results
  import opened Ordering

  const DEFAULT_LIMIT := 50
  const MAX_LIMIT := 200
  const INT32_MAX := 0x7FFF_FFFF

  predicate IsInt32(n: int) { -0x8000_0000 <= n <= INT32_MAX }

  /** Signed 32-bit wrap-around. */
  function Wrap32(n: int): (r: int)
    ensures IsInt32(r) && (IsInt32(n) ==> r == n)
  {
    (n + 0x8000_0000) % 0x1_0000_0000 - 0x8000_0000
  }

  function Limited(limit: int): (r: nat)
    ensures 1 <= r <= MAX_LIMIT
  {
    if limit <= 0 then DEFAULT_LIMIT else if limit > MAX_LIMIT then MAX_LIMIT else limit
  }

  function Min(a: nat, b: nat): nat { if a < b then a else b }

  function Reversed(s: seq<Key>): seq<Key> {
    seq(|s|, i requires 0 <= i < |s| => s[|s| - 1 - i])
  }

  function First(s: seq<Key>, n: nat): seq<Key> { s[..Min(n, |s|)] }

  function Last(s: seq<Key>, n: nat): seq<Key> { s[|s| - Min(n, |s|)..] }

  /** The `n` entries from an offset on, as far as the list has them. */
  function Window(s: seq<Key>, offset: nat, n: nat): seq<Key> {
    First(s[Min(offset, |s|)..], n)
  }

  // ---------------------------------------------------------------- by cursor

  datatype Direction = Forward | Backward

  /**
   The rows the statement ranges over. The cursor row is looked up among all
   messages of the instance, whatever the filters; when there is none its time
   is NULL and no row compares.
   */
  ghost function Eligible(rows: set<Key>, times: map<int, int>, cursor: Option<int>, direction: Direction): set<Key> {
    if cursor.None? then rows
    else if cursor.value !in times then {}
    else
      var place := Key(times[cursor.value], cursor.value);
      if direction == Backward then UpTo(rows, place) else After(rows, place)
  }

  lemma ReversedStart(s: seq<Key>, n: nat)
    ensures Reversed(First(Reversed(s), n)) == Last(s, n)
  {
  }

  method ReverseInPlace(items: array<Key>)
    modifies items
    ensures items[..] == Reversed(old(items[..]))
  {
    var left, right := 0, items.Length - 1;
    while left < right
      invariant 0 <= left <= items.Length && left + right == items.Length - 1
      invariant forall k | 0 <= k < left || right < k < items.Length :: items[k] == old(items[items.Length - 1 - k])
      invariant forall k | left <= k <= right :: items[k] == old(items[k])
    {
      items[left], items[right] := items[right], items[left];
      left, right := left + 1, right - 1;
    }
  }

  /**
   A list by cursor is in ascending order in both directions: going forward it
   is the first rows past the cursor, going backward the last rows before it.
   `eligible` are the rows the WHERE clause admits; the statement reads them in
   the order, and up to the limit, that the body computes.
   */
  method List(ghost rows: set<Key>, ghost times: map<int, int>, cursor: Option<int>, direction: Direction, limit: int,
              eligible: seq<Key>)
    returns (records: seq<Key>)
    requires eligible == Listing(Eligible(rows, times, cursor, direction))
    ensures var listing := Listing(Eligible(rows, times, cursor, direction));
            var size := if limit <= 0 then 50 else if limit > 200 then 200 else limit;
            records == if |listing| <= size then listing
                       else if direction == Backward then listing[|listing| - size..] else listing[..size]
  {
    var size: nat := DEFAULT_LIMIT;
    if limit > 0 {
      size := limit;
    }
    if size > MAX_LIMIT {
      size := MAX_LIMIT;
    }
    var answer := First(if direction == Backward then Reversed(eligible) else eligible, size);
    var items := new Key[|answer|](i requires 0 <= i < |answer| => answer[i]);
    assert items[..] == answer;
    if direction == Backward {
      ReverseInPlace(items);
      ReversedStart(eligible, size);
    }
    records := items[..];
  }

  /** With the cursor on the i-th listed row, the pages are exactly the windows on either side of it. */
  lemma PagesBesideTheCursor(rows: set<Key>, times: map<int, int>, i: nat, n: nat)
    requires i < |Listing(rows)|
    requires var c := Listing(rows)[i]; c.id in times && times[c.id] == c.createdAt
    ensures var c := Some(Listing(rows)[i].id);
      && First(Listing(Eligible(rows, times, c, Forward)), n) == Window(Listing(rows), i + 1, n)
      && Last(Listing(Eligible(rows, times, c, Backward)), n) == Listing(rows)[i - Min(n, i)..i]
  {
    var keys := Listing(rows);
    assert Key(times[keys[i].id], keys[i].id) == keys[i];
    ListingAfter(rows, i);
    ListingUpTo(rows, i);
  }

  /** Cursors that name stored messages. */
  ghost predicate Known(rows: set<Key>, times: map<int, int>) {
    forall c | c in rows :: c.id in times && times[c.id] == c.createdAt
  }

  lemma ListedIsKnown(rows: set<Key>, times: map<int, int>, i: nat)
    requires i < |Listing(rows)| && Known(rows, times)
    ensures var c := Listing(rows)[i]; c.id in times && times[c.id] == c.createdAt
  {
    assert Listing(rows)[i] in Listing(rows);
  }

  lemma ForwardStartsAfter(rows: set<Key>, times: map<int, int>, i: nat, n: nat)
    requires i + 1 < |Listing(rows)| && n > 0 && Known(rows, times)
    ensures var forward := First(Listing(Eligible(rows, times, Some(Listing(rows)[i].id), Forward)), n);
            forward != [] && forward[0] == Listing(rows)[i + 1]
  {
    ListedIsKnown(rows, times, i);
    PagesBesideTheCursor(rows, times, i, n);
    WindowStart(Listing(rows), i + 1, n);
  }

  lemma WindowStart(s: seq<Key>, place: nat, n: nat)
    requires place < |s| && n > 0
    ensures Window(s, place, n) != [] && Window(s, place, n)[0] == s[place]
  {
  }

  lemma BackwardEndsBefore(rows: set<Key>, times: map<int, int>, i: nat, n: nat)
    requires 0 < i < |Listing(rows)| && n > 0 && Known(rows, times)
    ensures var back := Last(Listing(Eligible(rows, times, Some(Listing(rows)[i].id), Backward)), n);
            back != [] && back[|back| - 1] == Listing(rows)[i - 1]
  {
    ListedIsKnown(rows, times, i);
    PagesBesideTheCursor(rows, times, i, n);
    WindowEnd(Listing(rows), i, n);
  }

  lemma WindowEnd(s: seq<Key>, place: nat, n: nat)
    requires 0 < place <= |s| && n > 0
    ensures var w := s[place - Min(n, place)..place]; w != [] && w[|w| - 1] == s[place - 1]
  {
  }

  /**
   Going forward and then back returns to the cursor: the page before the first
   row of the page after row i ends with row i.
   */
  lemma BackwardUndoesForward(rows: set<Key>, times: map<int, int>, i: nat, n: nat)
    requires i + 1 < |Listing(rows)| && n > 0 && Known(rows, times)
    ensures var forward := First(Listing(Eligible(rows, times, Some(Listing(rows)[i].id), Forward)), n);
      && forward != []
      && var back := Last(Listing(Eligible(rows, times, Some(forward[0].id), Backward)), n);
      && back != [] && back[|back| - 1] == Listing(rows)[i]
  {
    ForwardStartsAfter(rows, times, i, n);
    BackwardEndsBefore(rows, times, i + 1, n);
  }

  /** A cursor whose message is gone gives an empty list in either direction. */
  lemma GoneCursorGivesNothing(rows: set<Key>, times: map<int, int>, cursor: int, direction: Direction)
    ensures cursor !in times ==> Listing(Eligible(rows, times, Some(cursor), direction)) == []
  {
  }

  // ---------------------------------------------------------------- by page number

  datatype Dialect = PostgreSQL | SQLite

  /** A negative offset is refused by PostgreSQL and read as zero by SQLite. */
  function Effective(dialect: Dialect, offset: int): Option<nat> {
    if offset >= 0 then Some(offset) else if dialect == SQLite then Some(0) else None
  }

  function PageNumber(page: int): nat {
    if page <= 0 then 1 else page
  }

  /** The place where a page begins. */
  function Place(page: int, limit: nat): nat {
    (PageNumber(page) - 1) * limit
  }

  function Ceiling(total: nat, limit: nat): nat
    requires limit > 0
  {
    (total + limit - 1) / limit
  }

  lemma CeilingIsTight(total: nat, limit: nat)
    requires limit > 0
    ensures (Ceiling(total, limit) - 1) * limit < total <= Ceiling(total, limit) * limit
  {
    var q := (total + limit - 1) / limit;
    assert total + limit - 1 == q * limit + (total + limit - 1) % limit;
  }

  datatype MessageList = MessageList(total: nat, pages: nat, currentPage: int, records: seq<Key>)

  /** The newest message comes first. */
  ghost function Newest(rows: set<Key>): seq<Key> {
    Reversed(Listing(rows))
  }

  /** What the list holds from a place on. */
  ghost function RecordsAt(rows: set<Key>, place: nat, limit: nat): seq<Key> {
    Window(Newest(rows), place, limit)
  }

  /** What the statement answers at a place computed in 32 bits: nothing when the database refuses it. */
  ghost function SelectAt(dialect: Dialect, rows: set<Key>, place: nat, limit: nat): Option<seq<Key>> {
    var offset := Effective(dialect, Wrap32(place));
    if offset.None? then None else Some(RecordsAt(rows, offset.value, limit))
  }

  /** The listing statement with LIMIT and OFFSET, as each database runs it. */
  method RunPage(dialect: Dialect, newest: seq<Key>, limit: nat, offset: int) returns (answer: Option<seq<Key>>)
    ensures answer == if Effective(dialect, offset).None? then None
                      else Some(Window(newest, Effective(dialect, offset).value, limit))
  {
    var start := offset;
    if offset < 0 {
      if dialect == PostgreSQL {
        return None;
      }
      start := 0;
    }
    var rest := newest[Min(start, |newest|)..];
    answer := Some(rest[..Min(limit, |rest|)]);
  }

  /**
   What a page that begins at this place answers: the right records whenever the
   place fits 32 bits, and otherwise what the database makes of the wrapped one.
   */
  ghost predicate PageAnswer(rows: set<Key>, newest: seq<Key>, dialect: Dialect, place: nat, size: nat, number: int,
                             total: nat, r: Option<MessageList>) {
    && (r.None? <==> Wrap32(place) < 0 && dialect == PostgreSQL)
    && (r.Some? ==>
          && r.value.total == total && r.value.currentPage == number
          && (r.value.pages - 1) * size < total <= r.value.pages * size
          && Some(r.value.records) == SelectAt(dialect, rows, place, size)
          && (place <= 0x7FFF_FFFF ==>
                r.value.records == if place >= |newest| then []
                                   else if place + size >= |newest| then newest[place..]
                                       else newest[place..place + size]))
  }

  lemma AnswerAtPlace(rows: set<Key>, newest: seq<Key>, dialect: Dialect, place: nat, size: nat, number: int,
                      total: nat)
    requires newest == Newest(rows) && size > 0
    ensures var offset := Effective(dialect, Wrap32(place));
            PageAnswer(rows, newest, dialect, place, size, number, total,
                       if offset.None? then None
                       else Some(MessageList(total, Ceiling(total, size), number, Window(newest, offset.value, size))))
  {
    CeilingIsTight(total, size);
  }

  /** The two statements of a page. */
  method SelectPage(ghost rows: set<Key>, newest: seq<Key>, dialect: Dialect, place: nat, size: nat, number: int,
                    total: nat)
    returns (r: Option<MessageList>)
    requires newest == Newest(rows) && size > 0
    ensures PageAnswer(rows, newest, dialect, place, size, number, total, r)
  {
    var answer := RunPage(dialect, newest, size, Wrap32(place));
    AnswerAtPlace(rows, newest, dialect, place, size, number, total);
    if answer.None? {
      return None;
    }
    r := Some(MessageList(total, (total + size - 1) / size, number, answer.value));
  }

  /**
   One page of the newest-first list, with the totals that a second statement
   counts: the right records whenever the place fits 32 bits, and otherwise what
   the database makes of the wrapped one.
   */
  method ListPage(ghost rows: set<Key>, newest: seq<Key>, dialect: Dialect, page: int, limit: int, total: nat)
    returns (r: Option<MessageList>)
    requires newest == Newest(rows)
    ensures var size := if limit <= 0 then 50 else if limit > 200 then 200 else limit;
            var number := if page <= 0 then 1 else page;
            PageAnswer(rows, newest, dialect, (number - 1) * size, size, number, total, r)
  {
    var size: nat, number: nat := DEFAULT_LIMIT, 1;
    if limit > 0 {
      size := limit;
    }
    if size > MAX_LIMIT {
      size := MAX_LIMIT;
    }
    if page > 0 {
      number := page;
    }
    r := SelectPage(rows, newest, dialect, (number - 1) * size, size, number, total);
  }

  /** Newest first: every message stands before those that are older, or as old with a smaller id. */
  lemma NewestFirst(rows: set<Key>, i: nat, j: nat)
    requires i < j < |Newest(rows)|
    ensures Before(Newest(rows)[j], Newest(rows)[i])
    ensures Newest(rows)[j].createdAt <= Newest(rows)[i].createdAt
    ensures Newest(rows)[j].createdAt == Newest(rows)[i].createdAt ==> Newest(rows)[j].id < Newest(rows)[i].id
  {
  }

  lemma NewestIsDistinct(rows: set<Key>, i: nat, j: nat)
    requires i < j < |rows|
    ensures Newest(rows)[i] != Newest(rows)[j]
  {
    var keys := Listing(rows);
    assert Before(keys[|rows| - 1 - j], keys[|rows| - 1 - i]);
  }

  /** Two windows of a duplicate-free list agree when they begin at the same place or both begin past its end. */
  lemma WindowsAgree(rows: set<Key>, a: nat, b: nat, n: nat)
    requires n > 0
    ensures Window(Newest(rows), a, n) == Window(Newest(rows), b, n) <==> a == b || (a >= |rows| && b >= |rows|)
  {
    var list := Newest(rows);
    var x, y := Window(list, a, n), Window(list, b, n);
    if a < |rows| && b < |rows| && a != b {
      assert x[0] == list[a] && y[0] == list[b];
      NewestIsDistinct(rows, if a < b then a else b, if a < b then b else a);
    } else if a < |rows| && b >= |rows| {
      assert |x| > 0 && |y| == 0;
    } else if b < |rows| && a >= |rows| {
      assert |y| > 0 && |x| == 0;
    }
  }

  /**
   Exactly when a page holds what it should: when its place fits 32 bits, or
   when the wrapped place, as the database reads it, is past the end as well.
   */
  lemma WhenPagesAreRight(dialect: Dialect, rows: set<Key>, place: nat, limit: nat)
    requires limit > 0
    ensures var offset := Effective(dialect, Wrap32(place));
            SelectAt(dialect, rows, place, limit) == Some(RecordsAt(rows, place, limit)) <==>
              place <= INT32_MAX || (offset.Some? && offset.value >= |rows|)
  {
    var offset := Effective(dialect, Wrap32(place));
    if offset.Some? {
      WindowsAgree(rows, offset.value, place, limit);
    }
  }

  /** The numbered pages that exist never wrap in a list of at most 2^31 - 1 messages. */
  lemma ExistingPagesFit(total: nat, page: nat, limit: nat)
    requires limit > 0 && total <= INT32_MAX && 1 <= page <= Ceiling(total, limit)
    ensures Place(page, limit) < total
  {
    CeilingIsTight(total, limit);
    assert (page - 1) * limit <= (Ceiling(total, limit) - 1) * limit;
  }

  /** This page begins 100 * 2^30 rows in, which wraps to the start of the list: it repeats the first page. */
  lemma FarPageRepeatsTheFirst(dialect: Dialect, rows: set<Key>)
    ensures SelectAt(dialect, rows, Place(536_870_913, 200), 200) == Some(RecordsAt(rows, Place(1, 200), 200))
  {
  }

  /**
   This page begins past 2^31 rows, which wraps below zero: PostgreSQL refuses it
   and SQLite repeats the first page.
   */
  lemma FarPageIsRefused(rows: set<Key>)
    ensures SelectAt(PostgreSQL, rows, Place(10_737_420, 200), 200) == None
    ensures SelectAt(SQLite, rows, Place(10_737_420, 200), 200) == Some(RecordsAt(rows, Place(1, 200), 200))
  {
  }

  /** The records of pages 1 to `page`, one after the other. */
  ghost function Concatenated(dialect: Dialect, rows: set<Key>, page: nat, limit: nat): seq<Key> {
    if page == 0 then []
    else
      var answer := SelectAt(dialect, rows, Place(page, limit), limit);
      Concatenated(dialect, rows, page - 1, limit) + if answer.None? then [] else answer.value
  }

  lemma WindowExtends(s: seq<Key>, place: nat, n: nat)
    requires place <= |s|
    ensures s[..place] + Window(s, place, n) == s[..Min(place + n, |s|)]
  {
  }

  lemma NextPlace(page: nat, limit: nat)
    requires page > 0
    ensures Place(page + 1, limit) == Place(page, limit) + limit
  {
    assert page * limit == (page - 1) * limit + limit;
  }

  lemma OnePageMore(dialect: Dialect, rows: set<Key>, place: nat, limit: nat)
    requires limit > 0 && |rows| <= INT32_MAX && place < |rows|
    ensures var answer := SelectAt(dialect, rows, place, limit);
            answer.Some? && Newest(rows)[..place] + answer.value == Newest(rows)[..Min(place + limit, |rows|)]
  {
    WhenPagesAreRight(dialect, rows, place, limit);
    WindowExtends(Newest(rows), place, limit);
  }

  lemma {:induction false} PagesAddUp(dialect: Dialect, rows: set<Key>, page: nat, limit: nat)
    requires limit > 0 && |rows| <= INT32_MAX && page <= Ceiling(|rows|, limit)
    ensures Concatenated(dialect, rows, page, limit) == Newest(rows)[..Min(Place(page + 1, limit), |rows|)]
  {
    if page > 0 {
      PagesAddUp(dialect, rows, page - 1, limit);
      ExistingPagesFit(|rows|, page, limit);
      OnePageMore(dialect, rows, Place(page, limit), limit);
      NextPlace(page, limit);
    } else {
      assert Place(1, limit) == 0;
    }
  }

  /** Pages 1 to the last are the whole list, newest first. */
  lemma PagesAreTheWholeList(dialect: Dialect, rows: set<Key>, limit: nat)
    requires limit > 0 && |rows| <= INT32_MAX
    ensures Concatenated(dialect, rows, Ceiling(|rows|, limit), limit) == Newest(rows)
  {
    PagesAddUp(dialect, rows, Ceiling(|rows|, limit), limit);
    CeilingIsTight(|rows|, limit);
  }
}
