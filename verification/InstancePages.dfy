/**
 Keyset pages over a tenant's instances. A row is stood for by its place in the
 order; the rows of a query are the tenant's rows that pass its name filter at
 the moment the query runs.
 */
module InstancePages {
  import opened Results
  import opened Ordering

  const DEFAULT_LIMIT := 200
  const MAX_LIMIT := 200
  const MAX_NAME := 255

  /** The zero time, which no stored row carries. */
  const ZERO_TIME := -62_135_596_800_000_000_000

  datatype Error = InvalidInput | InvalidCursor

  /** What stands in a cursor after the text was taken apart. */
  datatype Cursor = Absent | Garbled | Place(key: Key)

  /** The name filter arrives trimmed, as bytes. */
  datatype Query = Query(sort: string, limit: int, cursor: Cursor, name: Option<string>)

  datatype Page = Page(items: seq<Key>, next: Cursor)

  predicate Storable(rows: set<Key>) {
    forall k | k in rows :: k.id >= 1 && k.createdAt != ZERO_TIME
  }

  function Decode(c: Cursor): Result<Option<Key>, Error> {
    match c
    case Absent => Ok(None)
    case Garbled => Err(InvalidCursor)
    case Place(key) => if key.id < 1 || key.createdAt == ZERO_TIME then Err(InvalidCursor) else Ok(Some(key))
  }

  /** The limit in force, or nothing when the query is refused. */
  function Checked(q: Query): Option<nat> {
    var limit := if q.limit == 0 then DEFAULT_LIMIT else q.limit;
    if q.sort != "" || limit < 1 || limit > MAX_LIMIT then None
    else if q.name.Some? && (q.name.value == "" || |q.name.value| > MAX_NAME) then None
    else Some(limit)
  }

  /** The rows a query with this cursor ranges over. */
  function Rest(rows: set<Key>, cursor: Option<Key>): set<Key> {
    if cursor.None? then rows else After(rows, cursor.value)
  }

  function Min(a: nat, b: nat): nat { if a < b then a else b }

  /** What the listing statement returns: the first rows past the cursor, in order. */
  ghost function Select(rows: set<Key>, cursor: Option<Key>, count: nat): seq<Key> {
    var listing := Listing(Rest(rows, cursor));
    listing[..Min(count, |listing|)]
  }

  /** The page that belongs to a cursor: the next rows, and where to go on when there are more. */
  ghost function PageAt(rows: set<Key>, cursor: Option<Key>, limit: nat): Page
    requires limit > 0
  {
    var listing := Listing(Rest(rows, cursor));
    if |listing| <= limit then Page(listing, Absent) else Page(listing[..limit], Place(listing[limit - 1]))
  }

  /** Asking for one row more than fit tells whether there are more. */
  function Cut(answer: seq<Key>, limit: nat): Page
    requires limit > 0
  {
    if |answer| > limit then Page(answer[..limit], Place(answer[limit - 1])) else Page(answer, Absent)
  }

  lemma CutIsThePage(rows: set<Key>, cursor: Option<Key>, limit: nat)
    requires limit > 0
    ensures Cut(Select(rows, cursor, limit + 1), limit) == PageAt(rows, cursor, limit)
  {
  }

  /**
   One page. `checked` are the rows when the cursor was looked up and `rows`
   those when the list was read; rows may come and go in between. `past` are the
   rows that the WHERE clause admits, in order; the statement reads one more of
   them than fit the page.
   */
  method ListPage(q: Query, ghost rows: set<Key>, checked: set<Key>, past: seq<Key>) returns (r: Result<Page, Error>)
    requires Decode(q.cursor).Ok? ==> past == Listing(Rest(rows, Decode(q.cursor).value))
    ensures r == Err(InvalidInput) <==> Checked(q).None?
    ensures r == Err(InvalidCursor) <==>
            && Checked(q).Some?
            && (Decode(q.cursor).Err? || (Decode(q.cursor).value.Some? && Decode(q.cursor).value.value !in checked))
    ensures r.Ok? ==> r.value == PageAt(rows, Decode(q.cursor).value, Checked(q).value)
    ensures r == Err(InvalidInput) <==>
            || q.sort != "" || q.limit < 0 || q.limit > 200
            || (q.name.Some? && (q.name.value == "" || |q.name.value| > 255))
    ensures r != Err(InvalidInput) ==>
            && (q.cursor.Absent? ==> r.Ok?)
            && (q.cursor.Garbled? ==> r == Err(InvalidCursor))
            && (q.cursor.Place? ==>
                  (r.Ok? <==> && q.cursor.key.id >= 1 && q.cursor.key.createdAt != -62_135_596_800_000_000_000
                              && q.cursor.key in checked))
    ensures r.Ok? ==> |r.value.items| <= if q.limit == 0 then 200 else q.limit
    ensures r.Ok? && r.value.next.Place? ==> |r.value.items| == if q.limit == 0 then 200 else q.limit
    ensures r.Ok? ==> forall k | k in r.value.items :: k in rows && (q.cursor.Place? ==> Before(q.cursor.key, k))
  {
    if q.sort != "" {
      return Err(InvalidInput);
    }
    var limit := q.limit;
    if limit == 0 {
      limit := DEFAULT_LIMIT;
    }
    if limit < 1 || limit > MAX_LIMIT {
      return Err(InvalidInput);
    }
    if q.name.Some? && (q.name.value == "" || |q.name.value| > MAX_NAME) {
      return Err(InvalidInput);
    }
    var cursor := Decode(q.cursor);
    if cursor.Err? {
      return Err(cursor.error);
    }
    if cursor.value.Some? && cursor.value.value !in checked {
      return Err(InvalidCursor);
    }
    var items: seq<Key> := [];
    while |items| < limit + 1 && |items| < |past|
      invariant |items| <= Min(limit + 1, |past|) && items == past[..|items|]
    {
      items := items + [past[|items|]];
    }
    assert items == Select(rows, cursor.value, limit + 1);
    var page := Page(items, Absent);
    if |items| > limit {
      page := Page(items[..limit], Place(items[limit - 1]));
    }
    PagesSkipNothing(rows, cursor.value, limit);
    r := Ok(page);
  }

  /** A cursor handed out with a page is taken back, and names the last row of the page. */
  lemma CursorsRoundTrip(rows: set<Key>, cursor: Option<Key>, limit: nat)
    requires limit > 0 && Storable(rows) && PageAt(rows, cursor, limit).next != Absent
    ensures var p := PageAt(rows, cursor, limit);
            Decode(p.next) == Ok(Some(p.next.key)) && p.next.key in rows && p.items[|p.items| - 1] == p.next.key
  {
    var listing := Listing(Rest(rows, cursor));
    assert listing[limit - 1] in listing;
  }

  // ---------------------------------------------------------------- following the cursors

  /** The rows seen by the two statements of one page. */
  datatype Moment = Moment(checked: set<Key>, rows: set<Key>)

  datatype Stop = Finished | Refused | Going(next: Option<Key>)

  datatype Walk = Walk(items: seq<Key>, stop: Stop)

  /** Follows the cursors, one page at each moment, until there are no more pages or a cursor is refused. */
  ghost function Follow(moments: seq<Moment>, cursor: Option<Key>, limit: nat): Walk
    requires limit > 0
    decreases |moments|
  {
    if moments == [] then Walk([], Going(cursor))
    else if cursor.Some? && cursor.value !in moments[0].checked then Walk([], Refused)
    else
      var page := PageAt(moments[0].rows, cursor, limit);
      if page.next == Absent then Walk(page.items, Finished)
      else
        var later := Follow(moments[1..], Some(page.next.key), limit);
        Walk(page.items + later.items, later.stop)
  }

  /** One page: in order, past the cursor, and nothing left out up to the place where the next page goes on. */
  lemma PagesSkipNothing(rows: set<Key>, cursor: Option<Key>, limit: nat)
    requires limit > 0
    ensures var p := PageAt(rows, cursor, limit);
      && Ascending(p.items)
      && !p.next.Garbled?
      && (forall k | k in p.items :: k in Rest(rows, cursor))
      && (p.next.Place? ==> |p.items| == limit && p.items[limit - 1] == p.next.key)
      && (forall k | k in Rest(rows, cursor) :: k in p.items || (p.next.Place? && Before(p.next.key, k)))
  {
    var listing := Listing(Rest(rows, cursor));
    forall k | k in Rest(rows, cursor) && |listing| > limit
      ensures k in listing[..limit] || Before(listing[limit - 1], k)
    {
      assert k in listing;
      var i :| 0 <= i < |listing| && listing[i] == k;
    }
  }

  lemma AscendingJoin(a: seq<Key>, b: seq<Key>)
    requires Ascending(a) && Ascending(b)
    requires a != [] ==> forall k | k in b :: Before(a[|a| - 1], k)
    ensures Ascending(a + b)
  {
    if a != [] {
      forall i, j | 0 <= i < |a| && 0 <= j < |b|
        ensures Before(a[i], b[j])
      {
        assert b[j] in b;
        assert Before(a[|a| - 1], b[j]);
      }
    }
  }

  /**
   Whatever comes and goes between the pages, and between the two statements of
   a page, the rows come in order, hence none twice, and all after the cursor.
   */
  lemma {:induction false} NoRowRepeats(moments: seq<Moment>, cursor: Option<Key>, limit: nat)
    requires limit > 0
    ensures Ascending(Follow(moments, cursor, limit).items)
    ensures cursor.Some? ==> forall k | k in Follow(moments, cursor, limit).items :: Before(cursor.value, k)
    decreases |moments|
  {
    if moments != [] && (cursor.Some? ==> cursor.value in moments[0].checked) {
      var page := PageAt(moments[0].rows, cursor, limit);
      PagesSkipNothing(moments[0].rows, cursor, limit);
      if page.next != Absent {
        var later := Follow(moments[1..], Some(page.next.key), limit).items;
        NoRowRepeats(moments[1..], Some(page.next.key), limit);
        AscendingJoin(page.items, later);
        assert page.next.key in page.items;
      }
    }
  }

  /** The part of the order a walk is done with when it stops. */
  ghost predicate Passed(stop: Stop, k: Key) {
    stop.Finished? || (stop.Going? && stop.next.Some? && !Before(stop.next.value, k))
  }

  /**
   A row that is there and matches at every page is returned, unless a cursor
   is refused on the way. What is returned was there when its page was read.
   */
  lemma {:induction false} LastingRowsAreReturned(moments: seq<Moment>, cursor: Option<Key>, limit: nat, k: Key)
    requires limit > 0
    requires forall m | m in moments :: k in m.rows
    requires cursor.Some? ==> Before(cursor.value, k)
    ensures Passed(Follow(moments, cursor, limit).stop, k) ==> k in Follow(moments, cursor, limit).items
    decreases |moments|
  {
    if moments != [] && (cursor.Some? ==> cursor.value in moments[0].checked) {
      var page := PageAt(moments[0].rows, cursor, limit);
      PagesSkipNothing(moments[0].rows, cursor, limit);
      assert moments[0] in moments && k in Rest(moments[0].rows, cursor);
      if page.next != Absent && k !in page.items {
        assert forall m | m in moments[1..] :: m in moments;
        LastingRowsAreReturned(moments[1..], Some(page.next.key), limit, k);
      }
    }
  }

  lemma {:induction false} ReturnedRowsWereThere(moments: seq<Moment>, cursor: Option<Key>, limit: nat, k: Key)
    requires limit > 0 && k in Follow(moments, cursor, limit).items
    ensures exists m | m in moments :: k in m.rows
    decreases |moments|
  {
    var page := PageAt(moments[0].rows, cursor, limit);
    PagesSkipNothing(moments[0].rows, cursor, limit);
    if k in page.items {
      assert moments[0] in moments && k in moments[0].rows;
    } else {
      ReturnedRowsWereThere(moments[1..], Some(page.next.key), limit, k);
      var m :| m in moments[1..] && k in m.rows;
      assert m in moments;
    }
  }

  /** A walk is refused only when a row vanished between the page that named it and the lookup of its cursor. */
  lemma {:induction false} OnlyVanishedRowsRefuse(moments: seq<Moment>, cursor: Option<Key>, limit: nat)
    requires limit > 0
    requires moments != [] && cursor.Some? ==> cursor.value in moments[0].checked
    requires forall i | 0 <= i < |moments| - 1 :: moments[i].rows <= moments[i + 1].checked
    ensures !Follow(moments, cursor, limit).stop.Refused?
    decreases |moments|
  {
    if moments != [] {
      var page := PageAt(moments[0].rows, cursor, limit);
      PagesSkipNothing(moments[0].rows, cursor, limit);
      if page.next != Absent {
        assert page.next.key in page.items;
        OnlyVanishedRowsRefuse(moments[1..], Some(page.next.key), limit);
      }
    }
  }

  /** The pages a list of this length takes; an empty list still takes one. */
  function Pages(length: nat, limit: nat): (n: nat)
    requires limit > 0
    ensures n >= 1
    decreases length
  {
    if length <= limit then 1 else 1 + Pages(length - limit, limit)
  }

  lemma {:induction false} PagesIsTheCeiling(length: nat, limit: nat)
    requires limit > 0
    ensures (Pages(length, limit) - 1) * limit <= length <= Pages(length, limit) * limit
    ensures length > 0 ==> (Pages(length, limit) - 1) * limit < length
    decreases length
  {
    if length > limit {
      PagesIsTheCeiling(length - limit, limit);
    }
  }

  lemma RestAfter(rows: set<Key>, cursor: Option<Key>, last: Key)
    requires last in Rest(rows, cursor)
    ensures Rest(rows, Some(last)) == After(Rest(rows, cursor), last)
  {
  }

  lemma GoingOn(rows: set<Key>, cursor: Option<Key>, limit: nat)
    requires limit > 0 && PageAt(rows, cursor, limit).next != Absent
    ensures var p := PageAt(rows, cursor, limit);
      && p.next.Place? && p.next.key in rows
      && Listing(Rest(rows, cursor)) == p.items + Listing(Rest(rows, Some(p.next.key)))
      && Pages(|Rest(rows, cursor)|, limit) == 1 + Pages(|Rest(rows, Some(p.next.key))|, limit)
  {
    ListingSplits(Rest(rows, cursor), limit);
    RestAfter(rows, cursor, PageAt(rows, cursor, limit).next.key);
  }

  lemma StillStep(moments: seq<Moment>, rows: set<Key>, cursor: Option<Key>, limit: nat)
    requires limit > 0 && moments != [] && moments[0] == Moment(rows, rows) && (cursor.Some? ==> cursor.value in rows)
    ensures var p := PageAt(rows, cursor, limit);
      && (p.next == Absent ==> Follow(moments, cursor, limit) == Walk(Listing(Rest(rows, cursor)), Finished))
      && (p.next != Absent ==>
            var later := Follow(moments[1..], Some(p.next.key), limit);
            Follow(moments, cursor, limit) == Walk(p.items + later.items, later.stop))
  {
  }

  /**
   On a table that does not change, the walk ends after exactly the pages its
   length needs and has returned the whole listing.
   */
  lemma {:induction false} FixedTableIsListed(moments: seq<Moment>, rows: set<Key>, cursor: Option<Key>, limit: nat)
    requires limit > 0 && (cursor.Some? ==> cursor.value in rows)
    requires forall i | 0 <= i < |moments| :: moments[i] == Moment(rows, rows)
    requires |moments| == Pages(|Rest(rows, cursor)|, limit)
    ensures Follow(moments, cursor, limit) == Walk(Listing(Rest(rows, cursor)), Finished)
    decreases |moments|
  {
    var next := PageAt(rows, cursor, limit).next;
    StillStep(moments, rows, cursor, limit);
    if next != Absent {
      GoingOn(rows, cursor, limit);
      var later := moments[1..];
      assert |later| == Pages(|Rest(rows, Some(next.key))|, limit);
      assert forall i | 0 <= i < |later| :: later[i] == Moment(rows, rows);
      FixedTableIsListed(later, rows, Some(next.key), limit);
    }
  }
}
