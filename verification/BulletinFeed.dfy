/** The public bulletin list, a page at a time. */
module BulletinFeed {
  import opened Options
  import opened Sequences

  /** `listed` is public and classified. */
  datatype Bulletin = Bulletin(postedAt: Option<int>, listed: bool, deleted: bool)

  type Table = map<nat, Bulletin>

  /* ----- The order ----- */

  /** Newest first, those without a date last, and by falling id among equals. */
  predicate Ahead(t: Table, a: nat, b: nat)
    requires a in t && b in t
  {
    var (x, y) := (t[a].postedAt, t[b].postedAt);
    if x == y then a > b else x.Some? && (y.None? || x.value > y.value)
  }

  predicate Shown(t: Table, id: nat, withDeleted: bool) {
    id in t && t[id].listed && (withDeleted || !t[id].deleted)
  }

  function ShownIds(t: Table, withDeleted: bool): (ids: set<nat>)
    ensures ids <= t.Keys
  {
    set id | id in t && Shown(t, id, withDeleted)
  }

  predicate InOrder(t: Table, s: seq<nat>) {
    && (forall i :: 0 <= i < |s| ==> s[i] in t)
    && (forall i, j :: 0 <= i < j < |s| ==> Ahead(t, s[i], s[j]))
  }

  /** `s` is `ids` in the feed's order. */
  predicate Orders(t: Table, s: seq<nat>, ids: set<nat>) { InOrder(t, s) && Members(s) == ids }

  /** There is one such order. */
  lemma {:induction false} OneOrder(t: Table, a: seq<nat>, b: seq<nat>, ids: set<nat>)
    requires Orders(t, a, ids) && Orders(t, b, ids)
    ensures a == b
    decreases |a|
  {
    assert a != [] ==> a[0] in Members(a);
    assert b != [] ==> b[0] in Members(b);
    if a != [] {
      SameHead(t, a, b, ids);
      TailOrders(t, a, ids);
      TailOrders(t, b, ids);
      OneOrder(t, a[1..], b[1..], ids - {a[0]});
      assert a == [a[0]] + a[1..] && b == [b[0]] + b[1..];
    }
  }

  lemma SameHead(t: Table, a: seq<nat>, b: seq<nat>, ids: set<nat>)
    requires Orders(t, a, ids) && Orders(t, b, ids) && a != [] && b != []
    ensures a[0] == b[0]
  {
    assert a[0] in Members(b) && b[0] in Members(a);
    var i :| 0 <= i < |b| && b[i] == a[0];
    var j :| 0 <= j < |a| && a[j] == b[0];
  }

  lemma TailOrders(t: Table, s: seq<nat>, ids: set<nat>)
    requires Orders(t, s, ids) && s != []
    ensures Orders(t, s[1..], ids - {s[0]})
  {
    assert s == [s[0]] + s[1..];
    assert Members(s) == {s[0]} + Members(s[1..]);
    forall x | x in s[1..] ensures x != s[0] {
      var i :| 0 <= i < |s[1..]| && s[1..][i] == x;
      assert Ahead(t, s[0], s[i + 1]);
    }
  }

  lemma {:induction false} FirstOf(t: Table, ids: set<nat>) returns (first: nat)
    requires ids != {} && ids <= t.Keys
    ensures first in ids && forall x :: x in ids && x != first ==> Ahead(t, first, x)
    decreases |ids|
  {
    first :| first in ids;
    var rest := ids - {first};
    assert ids == rest + {first};
    if rest != {} {
      var other := FirstOf(t, rest);
      if Ahead(t, other, first) { first := other; }
    }
  }

  lemma FirstExists(t: Table, ids: set<nat>)
    requires ids != {} && ids <= t.Keys
    ensures exists first :: first in ids && forall x :: x in ids && x != first ==> Ahead(t, first, x)
  {
    var first := FirstOf(t, ids);
  }

  ghost function First(t: Table, ids: set<nat>): (first: nat)
    requires ids != {} && ids <= t.Keys
    ensures first in ids && forall x :: x in ids && x != first ==> Ahead(t, first, x)
  {
    FirstExists(t, ids);
    var first :| first in ids && forall x :: x in ids && x != first ==> Ahead(t, first, x);
    first
  }

  /** `ids` in the feed's order. */
  ghost function Feed(t: Table, ids: set<nat>): seq<nat>
    requires ids <= t.Keys
    decreases |ids|
  {
    if ids == {} then [] else [First(t, ids)] + Feed(t, ids - {First(t, ids)})
  }

  lemma {:induction false} FeedOrders(t: Table, ids: set<nat>)
    requires ids <= t.Keys
    ensures Orders(t, Feed(t, ids), ids)
    decreases |ids|
  {
    if ids != {} {
      var first := First(t, ids);
      FeedOrders(t, ids - {first});
      FirstThenRest(t, first, Feed(t, ids - {first}), ids);
    }
  }

  lemma FirstThenRest(t: Table, first: nat, rest: seq<nat>, ids: set<nat>)
    requires first in ids && ids <= t.Keys && Orders(t, rest, ids - {first})
    requires forall x :: x in ids && x != first ==> Ahead(t, first, x)
    ensures Orders(t, [first] + rest, ids)
  {
    assert forall i :: 0 <= i < |rest| ==> rest[i] in Members(rest);
    assert Members([first] + rest) == {first} + Members(rest);
  }

  /** The query: `ids` in order. */
  method Select(t: Table, ids: set<nat>) returns (rows: seq<nat>)
    requires ids <= t.Keys
    ensures rows == Feed(t, ids)
  {
    rows := [];
    var rest := ids;
    while rest != {}
      invariant rest <= ids && InOrder(t, rows) && Members(rows) == ids - rest
      invariant forall i, x :: 0 <= i < |rows| && x in rest ==> Ahead(t, rows[i], x)
      decreases rest
    {
      ghost var f := FirstOf(t, rest);
      var id: nat :| id in rest && forall x :: x in rest && x != id ==> Ahead(t, id, x);
      assert Members(rows + [id]) == Members(rows) + {id};
      rows := rows + [id];
      rest := rest - {id};
    }
    FeedOrders(t, ids);
    OneOrder(t, rows, Feed(t, ids), ids);
  }

  /** The feed is newest first: dated before undated, later dates before earlier, and higher ids first among equals. */
  lemma FeedIsNewestFirst(t: Table, ids: set<nat>, i: nat, j: nat)
    requires ids <= t.Keys && i < j < |Feed(t, ids)|
    ensures var (a, b) := (Feed(t, ids)[i], Feed(t, ids)[j]);
            && a in t && b in t && a in ids && b in ids
            && (t[a].postedAt.None? ==> t[b].postedAt.None?)
            && (t[b].postedAt.Some? ==> t[a].postedAt.value >= t[b].postedAt.value)
            && (t[a].postedAt == t[b].postedAt ==> a > b)
  {
    FeedOrders(t, ids);
    var feed := Feed(t, ids);
    assert feed[i] in Members(feed) && feed[j] in Members(feed) && Ahead(t, feed[i], feed[j]);
  }

  /** The whole feed is what is listed, and not deleted unless asked for. */
  lemma FeedShows(t: Table, withDeleted: bool)
    ensures forall id :: id in Feed(t, ShownIds(t, withDeleted)) <==>
              id in t && t[id].listed && (t[id].deleted ==> withDeleted)
  {
    var ids := ShownIds(t, withDeleted);
    FeedOrders(t, ids);
    assert forall id :: id in Feed(t, ids) <==> id in Members(Feed(t, ids));
  }

  /* ----- One page ----- */

  /** The rows past the cursor's, as the query asks for them. */
  predicate Past(t: Table, cursor: nat, id: nat)
    requires cursor in t && id in t
  {
    var (c, x) := (t[cursor].postedAt, t[id].postedAt);
    if c.Some? then (x.Some? && x.value < c.value) || (x == c && id < cursor) || x.None?
    else x.None? && id < cursor
  }

  /** Those are the rows after it in the feed, whatever dates are missing or equal. */
  lemma PastIsAfter(t: Table, cursor: nat, id: nat)
    requires cursor in t && id in t
    ensures Past(t, cursor, id) <==> Ahead(t, cursor, id)
  {
  }

  function From(t: Table, cursor: Option<nat>, withDeleted: bool): (ids: set<nat>)
    ensures ids <= t.Keys
  {
    set id | id in ShownIds(t, withDeleted) && (cursor.Some? && cursor.value in t ==> Past(t, cursor.value, id))
  }

  /** What a page is cut from: rows that are shown, and with no cursor all of them. */
  lemma PageShows(t: Table, cursor: Option<nat>, withDeleted: bool)
    ensures forall id :: id in Feed(t, From(t, cursor, withDeleted)) ==>
              id in t && t[id].listed && (t[id].deleted ==> withDeleted)
    ensures cursor.None? ==> forall id :: id in t && t[id].listed && (t[id].deleted ==> withDeleted) ==>
              id in Feed(t, From(t, cursor, withDeleted))
  {
    var all := Feed(t, From(t, cursor, withDeleted));
    FeedOrders(t, From(t, cursor, withDeleted));
    assert forall id :: id in all <==> id in Members(all);
  }

  method ListBulletins(t: Table, limit: nat, cursor: Option<nat>, withDeleted: bool)
    returns (items: seq<nat>, next: Option<nat>)
    requires limit >= 1
    ensures var all := Feed(t, From(t, cursor, withDeleted));
            if |all| <= limit then items == all && next == None
            else items == all[..limit] && next == Some(all[limit - 1])
    ensures |items| <= limit
    ensures forall id :: id in items ==> id in t && t[id].listed && (t[id].deleted ==> withDeleted)
    ensures next.None? && cursor.None? ==>
              forall id :: id in t && t[id].listed && (t[id].deleted ==> withDeleted) ==> id in items
  {
    PageShows(t, cursor, withDeleted);
    ghost var all := Feed(t, From(t, cursor, withDeleted));
    var rows := Select(t, From(t, cursor, withDeleted));
    rows := if |rows| <= limit + 1 then rows else rows[..limit + 1];
    items := if |rows| <= limit then rows else rows[..limit];
    next := if |rows| > limit then Some(items[|items| - 1]) else None;
    assert forall id :: id in items ==> id in all;
  }

  /* ----- All pages ----- */

  /** What follows the k-th bulletin of the feed is what the cursor on it asks for. */
  lemma CursorCuts(t: Table, feed: seq<nat>, k: nat, withDeleted: bool)
    requires Orders(t, feed, ShownIds(t, withDeleted)) && k < |feed|
    ensures Orders(t, feed[k + 1..], From(t, Some(feed[k]), withDeleted))
  {
    var rest := feed[k + 1..];
    forall id | id in Members(rest) ensures id in From(t, Some(feed[k]), withDeleted) {
      var i :| 0 <= i < |rest| && rest[i] == id;
      assert feed[k + 1 + i] == id && id in Members(feed);
      PastIsAfter(t, feed[k], id);
    }
    forall id | id in From(t, Some(feed[k]), withDeleted) ensures id in Members(rest) {
      PastIsAfter(t, feed[k], id);
      assert id in Members(feed);
      var i :| 0 <= i < |feed| && feed[i] == id;
      assert i > k;
      assert rest[i - (k + 1)] == id;
    }
  }

  lemma CursorGoesOn(t: Table, k: nat, withDeleted: bool)
    requires k < |Feed(t, ShownIds(t, withDeleted))|
    ensures var feed := Feed(t, ShownIds(t, withDeleted)); Feed(t, From(t, Some(feed[k]), withDeleted)) == feed[k + 1..]
  {
    var feed := Feed(t, ShownIds(t, withDeleted));
    var ids := From(t, Some(feed[k]), withDeleted);
    FeedOrders(t, ShownIds(t, withDeleted));
    CursorCuts(t, feed, k, withDeleted);
    FeedOrders(t, ids);
    OneOrder(t, Feed(t, ids), feed[k + 1..], ids);
  }

  lemma OnePageMore(feed: seq<nat>, k: nat, limit: nat)
    requires k <= |feed| && limit >= 1
    ensures var rest := feed[k..];
            if |rest| <= limit then feed[..k] + rest == feed
            else feed[..k] + rest[..limit] == feed[..k + limit] && rest[limit - 1] == feed[k + limit - 1]
  {
  }

  /** `all` is the start of the feed and the cursor asks for the rest. */
  ghost predicate Followed(t: Table, withDeleted: bool, all: seq<nat>, cursor: Option<nat>) {
    var feed := Feed(t, ShownIds(t, withDeleted));
    |all| <= |feed| && all == feed[..|all|] && Feed(t, From(t, cursor, withDeleted)) == feed[|all|..]
  }

  lemma PageFollows(t: Table, limit: nat, withDeleted: bool, all: seq<nat>, cursor: Option<nat>)
    requires limit >= 1 && Followed(t, withDeleted, all, cursor)
    ensures var feed, page := Feed(t, ShownIds(t, withDeleted)), Feed(t, From(t, cursor, withDeleted));
            if |page| <= limit then all + page == feed
            else |all| + limit <= |feed| && Followed(t, withDeleted, all + page[..limit], Some(page[limit - 1]))
  {
    var feed, page := Feed(t, ShownIds(t, withDeleted)), Feed(t, From(t, cursor, withDeleted));
    OnePageMore(feed, |all|, limit);
    if |page| > limit { CursorGoesOn(t, |all| + limit - 1, withDeleted); }
  }

  /**
   Following the cursors from the start gives the whole feed: in order, nothing skipped or repeated, for every
   limit.
   */
  method FollowAll(t: Table, limit: nat, withDeleted: bool) returns (all: seq<nat>)
    requires limit >= 1
    ensures all == Feed(t, ShownIds(t, withDeleted))
    ensures forall id :: id in all <==> id in t && t[id].listed && (t[id].deleted ==> withDeleted)
  {
    FeedShows(t, withDeleted);
    ghost var feed := Feed(t, ShownIds(t, withDeleted));
    var cursor: Option<nat> := None;
    all := [];
    assert From(t, None, withDeleted) == ShownIds(t, withDeleted);
    while true
      invariant Followed(t, withDeleted, all, cursor)
      decreases |feed| - |all|
    {
      PageFollows(t, limit, withDeleted, all, cursor);
      var items, next := ListBulletins(t, limit, cursor, withDeleted);
      all, cursor := all + items, next;
      if next.None? {
        return;
      }
    }
  }
}
