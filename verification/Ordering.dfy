/**
 The order every paged list shares: by creation time, then by id.
 */
module Ordering {
  datatype Key = Key(createdAt: int, id: int)

  predicate Before(a: Key, b: Key) {
    a.createdAt < b.createdAt || (a.createdAt == b.createdAt && a.id < b.id)
  }

  /** Older first; of two equally old the smaller id first. */
  lemma OlderThenSmaller(a: Key, b: Key)
    requires Before(a, b)
    ensures a.createdAt <= b.createdAt && (a.createdAt == b.createdAt ==> a.id < b.id)
    ensures !Before(b, a)
  {
  }

  predicate Ascending(keys: seq<Key>) {
    forall i, j | 0 <= i < j < |keys| :: Before(keys[i], keys[j])
  }

  lemma {:induction false} LeastExists(rows: set<Key>)
    requires rows != {}
    ensures exists k | k in rows :: forall other | other in rows && other != k :: Before(k, other)
    decreases |rows|
  {
    var any :| any in rows;
    var rest := rows - {any};
    if rest == {} {
      assert rows == {any};
    } else {
      LeastExists(rest);
      var least :| least in rest && forall other | other in rest && other != least :: Before(least, other);
      var k := if Before(any, least) then any else least;
      forall other | other in rows && other != k ensures Before(k, other) {
        assert other == any || other == least || other in rest - {least};
      }
    }
  }

  ghost predicate IsListing(keys: seq<Key>, rows: set<Key>) {
    Ascending(keys) && |keys| == |rows| && forall k :: k in keys <==> k in rows
  }

  lemma {:induction false} ListingExists(rows: set<Key>)
    ensures exists keys :: IsListing(keys, rows)
    decreases |rows|
  {
    if rows == {} {
      assert IsListing([], rows);
    } else {
      LeastExists(rows);
      var k :| k in rows && forall other | other in rows && other != k :: Before(k, other);
      ListingExists(rows - {k});
      var rest :| IsListing(rest, rows - {k});
      LeastFirst(rows, k, rest);
    }
  }

  lemma LeastFirst(rows: set<Key>, k: Key, rest: seq<Key>)
    requires k in rows && IsListing(rest, rows - {k})
    requires forall other | other in rows && other != k :: Before(k, other)
    ensures IsListing([k] + rest, rows)
  {
    forall j | 0 <= j < |rest| ensures Before(k, rest[j]) {
      assert rest[j] in rest;
    }
  }

  /** The rows in order. */
  ghost function Listing(rows: set<Key>): (keys: seq<Key>)
    ensures IsListing(keys, rows)
  {
    ListingExists(rows);
    var keys :| IsListing(keys, rows);
    keys
  }

  lemma TailHas(a: seq<Key>, k: Key)
    requires Ascending(a) && a != []
    ensures k in a[1..] <==> k in a && k != a[0]
  {
    if k in a && k != a[0] {
      var i :| 0 <= i < |a| && a[i] == k;
      assert a[1..][i - 1] == k;
    }
  }

  lemma TailsAgree(a: seq<Key>, b: seq<Key>)
    requires Ascending(a) && Ascending(b) && a != [] && b != [] && a[0] == b[0]
    requires forall k :: k in a <==> k in b
    ensures forall k :: k in a[1..] <==> k in b[1..]
  {
    forall k ensures k in a[1..] <==> k in b[1..] {
      TailHas(a, k);
      TailHas(b, k);
    }
  }

  lemma {:induction false} AscendingIsUnique(a: seq<Key>, b: seq<Key>)
    requires Ascending(a) && Ascending(b) && forall k :: k in a <==> k in b
    ensures a == b
    decreases |a|
  {
    assert a != [] ==> a[0] in b;
    assert b != [] ==> b[0] in a;
    if a != [] {
      var i :| 0 <= i < |b| && b[i] == a[0];
      var j :| 0 <= j < |a| && a[j] == b[0];
      assert a[0] == b[0];
      TailsAgree(a, b);
      AscendingIsUnique(a[1..], b[1..]);
      assert a == [a[0]] + a[1..] && b == [b[0]] + b[1..];
    }
  }

  /** There is only one way to list a set of rows in order. */
  lemma ListingIsUnique(keys: seq<Key>, rows: set<Key>)
    requires Ascending(keys) && forall k :: k in keys <==> k in rows
    ensures keys == Listing(rows)
  {
    AscendingIsUnique(keys, Listing(rows));
  }

  /** The rows strictly after a place in the order. */
  function After(rows: set<Key>, place: Key): set<Key> {
    set k | k in rows && Before(place, k)
  }

  /** The rows strictly before a place in the order. */
  function UpTo(rows: set<Key>, place: Key): set<Key> {
    set k | k in rows && Before(k, place)
  }

  /** Going on after the i-th listed row lists the remainder. */
  lemma ListingAfter(rows: set<Key>, i: nat)
    requires i < |Listing(rows)|
    ensures Listing(After(rows, Listing(rows)[i])) == Listing(rows)[i + 1..]
  {
    var keys := Listing(rows);
    ListingIsUnique(keys[i + 1..], After(rows, keys[i]));
  }

  /** The first `n` listed rows, and then the listing of what comes after the last of them. */
  lemma ListingSplits(rows: set<Key>, n: nat)
    requires 0 < n <= |Listing(rows)|
    ensures Listing(rows)[n - 1] in rows
    ensures Listing(rows) == Listing(rows)[..n] + Listing(After(rows, Listing(rows)[n - 1]))
    ensures |rows| == n + |After(rows, Listing(rows)[n - 1])|
  {
    var keys := Listing(rows);
    ListingAfter(rows, n - 1);
    assert keys[n - 1] in keys;
    assert keys == keys[..n] + keys[n..];
  }

  /** Going back from the i-th listed row lists what stands before it. */
  lemma ListingUpTo(rows: set<Key>, i: nat)
    requires i < |Listing(rows)|
    ensures Listing(UpTo(rows, Listing(rows)[i])) == Listing(rows)[..i]
  {
    var keys := Listing(rows);
    ListingIsUnique(keys[..i], UpTo(rows, keys[i]));
  }
}
