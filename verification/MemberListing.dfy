/** The keyset-paginated member list of a room. */
module MemberListing {
  import opened Wrappers
  import opened Cursor
  import opened RoomUsers
  import opened Chronology

  type Filter = RoomUser -> bool

  function PositionOf(r: RoomUser): Position { Position(r.lastJoinedAt, r.id) }

  // The order (last_joined_at, id) of the list.
  predicate Precedes(p: Position, q: Position) {
    Earlier(p.joinedAt, q.joinedAt) || (p.joinedAt == q.joinedAt && p.id < q.id)
  }

  // A membership table: primary keys are unique, times are real ones with four-digit years.
  ghost predicate WellFormed(rows: seq<RoomUser>) {
    && (forall r :: r in rows ==> r.lastJoinedAt.Valid())
    && (forall i, j :: 0 <= i < j < |rows| ==> rows[i].id != rows[j].id)
  }

  /// The query

  predicate Matches(r: RoomUser, room: RoomId, keep: Filter) {
    r.roomId == room && !r.isBlocked && keep(r)
  }

  predicate PastCursor(r: RoomUser, after: Option<Position>) {
    after.Some? ==> Precedes(after.value, PositionOf(r))
  }

  // WHERE
  function Select(rows: seq<RoomUser>, room: RoomId, keep: Filter, after: Option<Position>): seq<RoomUser> {
    if rows == [] then []
    else
      var tail := Select(rows[1..], room, keep, after);
      if Matches(rows[0], room, keep) && PastCursor(rows[0], after) then [rows[0]] + tail else tail
  }

  // ORDER BY last_joined_at ASC, id ASC
  function OrderBy(rows: seq<RoomUser>): seq<RoomUser> {
    if rows == [] then [] else Insert(rows[0], OrderBy(rows[1..]))
  }

  function Insert(r: RoomUser, s: seq<RoomUser>): seq<RoomUser> {
    if s == [] || Precedes(PositionOf(r), PositionOf(s[0])) then [r] + s else [s[0]] + Insert(r, s[1..])
  }

  ghost predicate Ordered(s: seq<RoomUser>) {
    forall i, j :: 0 <= i < j < |s| ==> Precedes(PositionOf(s[i]), PositionOf(s[j]))
  }

  lemma {:induction false} SelectKeepsMatching(rows: seq<RoomUser>, room: RoomId, keep: Filter, after: Option<Position>)
    ensures forall r :: r in Select(rows, room, keep, after) <==>
                        r in rows && Matches(r, room, keep) && PastCursor(r, after)
    ensures WellFormed(rows) ==> WellFormed(Select(rows, room, keep, after))
  {
    if rows == [] {
    } else {
      SelectKeepsMatching(rows[1..], room, keep, after);
      if WellFormed(rows) {
        assert WellFormed(rows[1..]);
        forall r | r in rows[1..] ensures r.id != rows[0].id {
          var i :| 0 <= i < |rows[1..]| && rows[1..][i] == r;
          assert rows[i + 1] == r;
        }
        var tail := Select(rows[1..], room, keep, after);
        assert forall i :: 0 <= i < |tail| ==> tail[i] in rows[1..];
      }
    }
  }

  lemma {:induction false} InsertOrders(r: RoomUser, s: seq<RoomUser>)
    ensures |Insert(r, s)| == |s| + 1
    ensures forall x :: x in Insert(r, s) <==> x == r || x in s
    ensures Ordered(s) && (forall x :: x in s ==> x.id != r.id) ==> Ordered(Insert(r, s))
  {
    if s != [] && !Precedes(PositionOf(r), PositionOf(s[0])) {
      InsertOrders(r, s[1..]);
      var t := Insert(r, s[1..]);
      if Ordered(s) && (forall x :: x in s ==> x.id != r.id) {
        assert forall x :: x in s[1..] ==> x in s;
        assert s[0] in s;
        assert Precedes(PositionOf(s[0]), PositionOf(r));
        forall k | 0 <= k < |t| ensures Precedes(PositionOf(s[0]), PositionOf(t[k])) {
          assert t[k] in t;
        }
      }
    } else if s != [] {
      var t := [r] + s;
      if Ordered(s) {
        forall k | 0 <= k < |s| ensures Precedes(PositionOf(r), PositionOf(s[k])) {
          EarlierIsStrictOrder(r.lastJoinedAt, s[0].lastJoinedAt, s[k].lastJoinedAt);
        }
        assert forall k :: 0 < k < |t| ==> t[k] == s[k - 1];
      }
    }
  }

  lemma {:induction false} OrderBySorts(rows: seq<RoomUser>)
    ensures |OrderBy(rows)| == |rows|
    ensures forall r :: r in OrderBy(rows) <==> r in rows
    ensures WellFormed(rows) ==> Ordered(OrderBy(rows))
  {
    if rows == [] {
    } else {
      OrderBySorts(rows[1..]);
      InsertOrders(rows[0], OrderBy(rows[1..]));
      if WellFormed(rows) {
        assert WellFormed(rows[1..]);
        forall r | r in rows[1..] ensures r.id != rows[0].id {
          var i :| 0 <= i < |rows[1..]| && rows[1..][i] == r;
          assert rows[i + 1] == r;
        }
      }
    }
  }

  // The whole list, and the part of it past a cursor.
  function Listed(rows: seq<RoomUser>, room: RoomId, keep: Filter, after: Option<Position>): seq<RoomUser> {
    OrderBy(Select(rows, room, keep, after))
  }

  // Position p comes first in time, or at the same time with the smaller id.
  predicate Sooner(p: Position, q: Position) {
    || Instant(p.joinedAt) < Instant(q.joinedAt)
    || (Instant(p.joinedAt) == Instant(q.joinedAt) && p.id < q.id)
  }

  lemma PrecedesIffSooner(p: Position, q: Position)
    requires p.joinedAt.Valid() && q.joinedAt.Valid()
    ensures Precedes(p, q) <==> Sooner(p, q)
  {
    EarlierIffSooner(p.joinedAt, q.joinedAt);
  }

  lemma ListedIs(rows: seq<RoomUser>, room: RoomId, keep: Filter, after: Option<Position>)
    requires WellFormed(rows)
    ensures Ordered(Listed(rows, room, keep, after))
    ensures forall r :: r in Listed(rows, room, keep, after) <==>
                        r in rows && Matches(r, room, keep) && PastCursor(r, after)
    ensures forall i, j :: 0 <= i < j < |Listed(rows, room, keep, after)| ==>
              Sooner(PositionOf(Listed(rows, room, keep, after)[i]), PositionOf(Listed(rows, room, keep, after)[j]))
  {
    SelectKeepsMatching(rows, room, keep, after);
    OrderBySorts(Select(rows, room, keep, after));
    var s := Listed(rows, room, keep, after);
    forall i, j | 0 <= i < j < |s| ensures Sooner(PositionOf(s[i]), PositionOf(s[j])) {
      assert s[i] in s && s[j] in s;
      PrecedesIffSooner(PositionOf(s[i]), PositionOf(s[j]));
    }
  }

  // The rows after a position, cut at the limit. One row more than the limit is fetched,
  // to learn whether another page follows.
  datatype Slice = Slice(items: seq<RoomUser>, hasMore: bool)

  function PageFrom(rows: seq<RoomUser>, room: RoomId, keep: Filter, after: Option<Position>, limit: nat): Slice {
    var ordered := Listed(rows, room, keep, after);
    var fetched := if |ordered| <= limit + 1 then ordered else ordered[..limit + 1];
    var hasMore := |fetched| > limit;
    Slice(if hasMore then fetched[..limit] else fetched, hasMore)
  }

  // Where the next page starts; an empty page starts over.
  function EndOf(items: seq<RoomUser>): Option<Position> {
    if items == [] then None else Some(PositionOf(items[|items| - 1]))
  }

  datatype Page = Page(items: seq<RoomUser>, hasMore: bool, nextCursor: string)

  function ListByRoomID(rows: seq<RoomUser>, room: RoomId, keep: Filter, cursor: string, limit: nat): Page
    requires WellFormed(rows)
  {
    var slice := PageFrom(rows, room, keep, Decode(cursor), limit);
    Page(slice.items, slice.hasMore, NextCursor(rows, slice.items))
  }

  function NextCursor(rows: seq<RoomUser>, items: seq<RoomUser>): string
    requires WellFormed(rows)
  {
    if items == [] then ""
    else
      var last := items[|items| - 1];
      if last in rows then EncodeCursor(last.lastJoinedAt, last.id) else ""
  }

  lemma NextCursorDecodes(rows: seq<RoomUser>, items: seq<RoomUser>)
    requires WellFormed(rows)
    requires forall r :: r in items ==> r in rows
    ensures Decode(NextCursor(rows, items)) == EndOf(items)
  {
    if items == [] {
      assert Split("", '_') == [""];
    } else {
      var last := items[|items| - 1];
      CursorRoundTrip(last.lastJoinedAt, last.id);
    }
  }

  // A row the request asks for: of the room, not blocked, kept by the filter and, if the request
  // carries a readable cursor, later than it says.
  predicate IsWanted(r: RoomUser, room: RoomId, keep: Filter, cursor: string) {
    && r.roomId == room && !r.isBlocked && keep(r)
    && (Decode(cursor).Some? ==> Sooner(Decode(cursor).value, PositionOf(r)))
  }

  // A page holds the soonest of the wanted rows, in chronological order, as many as the limit allows,
  // and says whether there are more.
  lemma PageIsExact(rows: seq<RoomUser>, room: RoomId, keep: Filter, cursor: string, limit: nat)
    requires WellFormed(rows)
    ensures var page := ListByRoomID(rows, room, keep, cursor, limit);
            && |page.items| <= limit && (page.hasMore ==> |page.items| == limit)
            && (forall r :: r in page.items ==> r in rows && IsWanted(r, room, keep, cursor))
            && (forall i, j :: 0 <= i < j < |page.items| ==>
                  Sooner(PositionOf(page.items[i]), PositionOf(page.items[j])))
            && (forall r, q :: r in rows && IsWanted(r, room, keep, cursor) && r !in page.items && q in page.items ==>
                  Sooner(PositionOf(q), PositionOf(r)))
            && (page.hasMore <==> exists r :: r in rows && IsWanted(r, room, keep, cursor) && r !in page.items)
  {
    var after := Decode(cursor);
    var ordered, page := Listed(rows, room, keep, after), ListByRoomID(rows, room, keep, cursor, limit);
    ListedIs(rows, room, keep, after);
    DecodedIsValid(cursor);
    forall r | r in rows ensures r in ordered <==> IsWanted(r, room, keep, cursor) {
      if after.Some? { PrecedesIffSooner(after.value, PositionOf(r)); }
    }
    PrefixOf(ordered, page.items, limit);
    if page.hasMore {
      var r := ordered[limit];
      assert r in rows && IsWanted(r, room, keep, cursor) && r !in page.items;
    }
  }

  // What a list without repeats leaves out of a prefix comes after all of it.
  lemma PrefixOf(ordered: seq<RoomUser>, items: seq<RoomUser>, limit: nat)
    requires forall i, j :: 0 <= i < j < |ordered| ==> Sooner(PositionOf(ordered[i]), PositionOf(ordered[j]))
    requires items == if |ordered| > limit then ordered[..limit] else ordered
    ensures forall r :: r in items ==> r in ordered
    ensures forall r, q :: r in ordered && r !in items && q in items ==> Sooner(PositionOf(q), PositionOf(r))
    ensures |ordered| > limit ==> ordered[limit] in ordered && ordered[limit] !in items
  {
    forall r, q | r in ordered && r !in items && q in items ensures Sooner(PositionOf(q), PositionOf(r)) {
      var i :| 0 <= i < |ordered| && ordered[i] == r;
      var j :| 0 <= j < |items| && items[j] == q;
      assert j < i;
    }
  }

  /// Walks: each request passes on the cursor of the page before, until there is no more

  ghost predicate IsWalk(tables: seq<seq<RoomUser>>, pages: seq<Page>, room: RoomId, keep: Filter, limit: nat) {
    && |pages| == |tables| > 0
    && (forall k :: 0 <= k < |tables| ==> WellFormed(tables[k]))
    && (forall k :: 0 <= k < |pages| ==> Answers(tables[k], pages, room, keep, limit, k))
    && (forall k :: 0 <= k < |pages| ==> (pages[k].hasMore <==> k < |pages| - 1))
  }

  // Page k answers the request that carries the cursor of the page before it.
  ghost predicate Answers(rows: seq<RoomUser>, pages: seq<Page>, room: RoomId, keep: Filter, limit: nat, k: nat)
    requires k < |pages| && WellFormed(rows)
  {
    pages[k] == ListByRoomID(rows, room, keep, CursorBefore(pages, k), limit)
  }

  function CursorBefore(pages: seq<Page>, k: nat): string
    requires k <= |pages|
  {
    if k == 0 then "" else pages[k - 1].nextCursor
  }

  function Items(pages: seq<Page>): seq<RoomUser> {
    if pages == [] then [] else Items(pages[..|pages| - 1]) + pages[|pages| - 1].items
  }

  function Min(a: nat, b: nat): nat { if a <= b then a else b }

  // The same walk with cursors replaced by the positions they stand for.
  function PositionBefore(pages: seq<Page>, k: nat): Option<Position>
    requires k <= |pages|
  {
    if k == 0 then None else EndOf(pages[k - 1].items)
  }

  ghost predicate IsPage(rows: seq<RoomUser>, pages: seq<Page>, room: RoomId, keep: Filter, limit: nat, k: nat)
    requires k < |pages|
  {
    Slice(pages[k].items, pages[k].hasMore) == PageFrom(rows, room, keep, PositionBefore(pages, k), limit)
  }

  ghost predicate IsPositionWalk(tables: seq<seq<RoomUser>>, pages: seq<Page>, room: RoomId, keep: Filter, limit: nat) {
    && |pages| == |tables| > 0
    && (forall k :: 0 <= k < |tables| ==> WellFormed(tables[k]))
    && (forall k :: 0 <= k < |pages| ==> IsPage(tables[k], pages, room, keep, limit, k))
    && (forall k :: 0 <= k < |pages| ==> (pages[k].hasMore <==> k < |pages| - 1))
  }

  lemma WalkByPositions(tables: seq<seq<RoomUser>>, pages: seq<Page>, room: RoomId, keep: Filter, limit: nat)
    requires IsWalk(tables, pages, room, keep, limit)
    ensures IsPositionWalk(tables, pages, room, keep, limit)
  {
    forall k | 0 <= k < |pages| ensures IsPage(tables[k], pages, room, keep, limit, k) {
      CursorsArePositions(tables, pages, room, keep, limit, k);
    }
  }

  lemma CursorsArePositions(tables: seq<seq<RoomUser>>, pages: seq<Page>, room: RoomId, keep: Filter, limit: nat,
                            k: nat)
    requires IsWalk(tables, pages, room, keep, limit) && k < |pages|
    ensures IsPage(tables[k], pages, room, keep, limit, k)
  {
    if k == 0 {
      assert Split("", '_') == [""];
    } else {
      var before := Decode(CursorBefore(pages, k - 1));
      ListedIs(tables[k - 1], room, keep, before);
      var ordered := Listed(tables[k - 1], room, keep, before);
      assert pages[k - 1].items <= ordered;
      assert forall r :: r in pages[k - 1].items ==> r in ordered;
      NextCursorDecodes(tables[k - 1], pages[k - 1].items);
    }
  }

  // A strictly ordered list is determined by its members.
  lemma {:induction false} OrderedUnique(a: seq<RoomUser>, b: seq<RoomUser>)
    requires Ordered(a) && Ordered(b)
    requires forall r :: r in a <==> r in b
    ensures a == b
  {
    if a != [] && b != [] {
      assert a[0] in b && b[0] in a;
      FirstIsLeast(a, b[0]);
      FirstIsLeast(b, a[0]);
      assert a[0] == b[0];
      FirstNotInTail(a);
      FirstNotInTail(b);
      forall r ensures r in a[1..] <==> r in b[1..] {
        assert r in a <==> r == a[0] || r in a[1..];
        assert r in b <==> r == b[0] || r in b[1..];
      }
      OrderedUnique(a[1..], b[1..]);
      assert a == [a[0]] + a[1..] && b == [b[0]] + b[1..];
    } else {
      assert forall s: seq<RoomUser> :: |s| > 0 ==> s[0] in s;
    }
  }

  lemma FirstIsLeast(s: seq<RoomUser>, r: RoomUser)
    requires Ordered(s) && r in s
    ensures r == s[0] || Precedes(PositionOf(s[0]), PositionOf(r))
  {
  }

  lemma FirstNotInTail(s: seq<RoomUser>)
    requires Ordered(s) && s != []
    ensures s[0] !in s[1..]
  {
  }

  // The position of the k-th row selects exactly the rows after it.
  lemma SuffixAfterCursor(rows: seq<RoomUser>, room: RoomId, keep: Filter, k: nat)
    requires WellFormed(rows)
    requires 0 < k <= |Listed(rows, room, keep, None)|
    ensures var all := Listed(rows, room, keep, None);
            Listed(rows, room, keep, Some(PositionOf(all[k - 1]))) == all[k..]
  {
    var all := Listed(rows, room, keep, None);
    var cut := Some(PositionOf(all[k - 1]));
    ListedIs(rows, room, keep, None);
    ListedIs(rows, room, keep, cut);
    forall r ensures r in Listed(rows, room, keep, cut) <==> r in all[k..] {
      InSuffix(all, k, r);
    }
    OrderedUnique(Listed(rows, room, keep, cut), all[k..]);
  }

  lemma InSuffix(s: seq<RoomUser>, k: nat, r: RoomUser)
    requires Ordered(s) && 0 < k <= |s|
    ensures r in s[k..] <==> r in s && Precedes(PositionOf(s[k - 1]), PositionOf(r))
  {
    if r in s {
      var i :| 0 <= i < |s| && s[i] == r;
      if i >= k { assert s[k..][i - k] == r; }
      if r in s[k..] {
        var j :| 0 <= j < |s[k..]| && s[k..][j] == r;
        assert s[k + j] == r;
      }
    }
  }

  // The page that follows the first k rows of a table.
  lemma PageAfter(rows: seq<RoomUser>, room: RoomId, keep: Filter, limit: nat, k: nat, after: Option<Position>)
    requires WellFormed(rows) && limit >= 1
    requires k <= |Listed(rows, room, keep, None)|
    requires after == EndOf(Listed(rows, room, keep, None)[..k])
    ensures var all := Listed(rows, room, keep, None);
            var end := Min(k + limit, |all|);
            PageFrom(rows, room, keep, after, limit) == Slice(all[k..end], k + limit < |all|)
  {
    if k > 0 {
      SuffixAfterCursor(rows, room, keep, k);
    }
    assert Listed(rows, room, keep, after) == Listed(rows, room, keep, None)[k..];
  }

  /// A walk over a table that does not change

  ghost predicate IsFixedWalk(table: seq<RoomUser>, pages: seq<Page>, room: RoomId, keep: Filter, limit: nat) {
    IsWalk(seq(|pages|, i => table), pages, room, keep, limit)
  }

  ghost predicate IsFixedPositionWalk(table: seq<RoomUser>, pages: seq<Page>, room: RoomId, keep: Filter, limit: nat) {
    && (forall k :: 0 <= k < |pages| ==> IsPage(table, pages, room, keep, limit, k))
    && (forall k :: 0 <= k < |pages| ==> (pages[k].hasMore <==> k < |pages| - 1))
  }

  // How many rows come before page k when every page is full.
  function Start(k: nat, limit: nat): nat {
    if k == 0 then 0 else Start(k - 1, limit) + limit
  }

  lemma {:induction false} StartIsProduct(k: nat, limit: nat)
    ensures Start(k, limit) == k * limit
  {
    if k == 0 {
    } else {
      StartIsProduct(k - 1, limit);
      assert (k - 1) * limit + limit == k * limit;
    }
  }

  // A page that holds the rows of a list from a given place on, as far as the limit goes.
  predicate IsPiece(all: seq<RoomUser>, page: Page, from: nat, limit: nat) {
    && from <= |all|
    && page.items == all[from..Min(from + limit, |all|)]
    && (page.hasMore <==> from + limit < |all|)
  }

  // Wherever in the list the page before ends, page k goes on from there.
  ghost predicate GoesOn(all: seq<RoomUser>, pages: seq<Page>, limit: nat, k: nat)
    requires k < |pages|
  {
    forall from: nat :: from <= |all| && PositionBefore(pages, k) == EndOf(all[..from]) ==>
      IsPiece(all, pages[k], from, limit)
  }

  ghost predicate IsPieceWalk(all: seq<RoomUser>, pages: seq<Page>, limit: nat) {
    && (forall k :: 0 <= k < |pages| ==> GoesOn(all, pages, limit, k))
    && (forall k :: 0 <= k < |pages| ==> (pages[k].hasMore <==> k < |pages| - 1))
  }

  lemma PageGoesOn(table: seq<RoomUser>, pages: seq<Page>, room: RoomId, keep: Filter, limit: nat, k: nat)
    requires limit >= 1 && WellFormed(table) && k < |pages| && IsPage(table, pages, room, keep, limit, k)
    ensures GoesOn(Listed(table, room, keep, None), pages, limit, k)
  {
    var all := Listed(table, room, keep, None);
    forall from: nat | from <= |all| && PositionBefore(pages, k) == EndOf(all[..from])
      ensures IsPiece(all, pages[k], from, limit)
    {
      PageAfter(table, room, keep, limit, from, PositionBefore(pages, k));
    }
  }

  lemma {:induction false} PiecesSoFar(all: seq<RoomUser>, pages: seq<Page>, limit: nat, k: nat)
    requires limit >= 1 && IsPieceWalk(all, pages, limit) && k < |pages|
    ensures var from := Start(k, limit);
            IsPiece(all, pages[k], from, limit) && (k > 0 ==> from < |all|) && Items(pages[..k]) == all[..from]
  {
    var from := Start(k, limit);
    assert GoesOn(all, pages, limit, k);
    if k > 0 {
      PiecesSoFar(all, pages, limit, k - 1);
      assert pages[k - 1].hasMore;
      NextPiece(all, pages, k, Start(k - 1, limit), from);
    }
  }

  lemma NextPiece(all: seq<RoomUser>, pages: seq<Page>, k: nat, before: nat, from: nat)
    requires 0 < k <= |pages| && before < from <= |all|
    requires Items(pages[..k - 1]) == all[..before] && pages[k - 1].items == all[before..from]
    ensures Items(pages[..k]) == all[..from]
    ensures PositionBefore(pages, k) == EndOf(all[..from])
  {
    assert pages[..k][..k - 1] == pages[..k - 1];
    assert all[..before] + all[before..from] == all[..from];
  }

  lemma PiecesAreAll(all: seq<RoomUser>, pages: seq<Page>, limit: nat)
    requires limit >= 1 && IsPieceWalk(all, pages, limit) && |pages| > 0
    ensures Items(pages) == all
    ensures if all == [] then |pages| == 1 else Start(|pages| - 1, limit) < |all| <= Start(|pages|, limit)
  {
    var last := |pages| - 1;
    PiecesSoFar(all, pages, limit, last);
    var from := Start(last, limit);
    assert all[..from] + all[from..|all|] == all;
    assert pages[..last] == pages[..|pages| - 1];
  }

  lemma FixedWalkByPieces(table: seq<RoomUser>, pages: seq<Page>, room: RoomId, keep: Filter, limit: nat)
    requires limit >= 1 && IsFixedWalk(table, pages, room, keep, limit)
    ensures WellFormed(table) && |pages| > 0 && IsPieceWalk(Listed(table, room, keep, None), pages, limit)
  {
    var tables := seq(|pages|, i => table);
    WalkByPositions(tables, pages, room, keep, limit);
    assert WellFormed(table) by { assert tables[0] == table; }
    forall k | 0 <= k < |pages| ensures GoesOn(Listed(table, room, keep, None), pages, limit, k) {
      assert IsPage(tables[k], pages, room, keep, limit, k);
      PageGoesOn(table, pages, room, keep, limit, k);
    }
  }

  // As many pages as the rows need, and one for none.
  predicate NoPageWasted(n: nat, pages: nat, limit: nat) {
    if n == 0 then pages == 1 else (pages - 1) * limit < n <= pages * limit
  }

  lemma PagesAreFull(n: nat, pages: nat, limit: nat)
    requires pages > 0 && if n == 0 then pages == 1 else Start(pages - 1, limit) < n <= Start(pages, limit)
    ensures NoPageWasted(n, pages, limit)
  {
    StartIsProduct(pages - 1, limit);
    StartIsProduct(pages, limit);
  }

  lemma FixedWalkIsListed(table: seq<RoomUser>, pages: seq<Page>, room: RoomId, keep: Filter, limit: nat)
    requires limit >= 1 && IsFixedWalk(table, pages, room, keep, limit)
    ensures WellFormed(table) && Items(pages) == Listed(table, room, keep, None)
    ensures NoPageWasted(|Items(pages)|, |pages|, limit)
  {
    FixedWalkByPieces(table, pages, room, keep, limit);
    PiecesAreAll(Listed(table, room, keep, None), pages, limit);
    PagesAreFull(|Items(pages)|, |pages|, limit);
  }

  // Every matching row is returned, in list order, exactly once, and no page is wasted.
  lemma FixedWalkIsComplete(table: seq<RoomUser>, pages: seq<Page>, room: RoomId, keep: Filter, limit: nat)
    requires limit >= 1 && IsFixedWalk(table, pages, room, keep, limit)
    ensures Ordered(Items(pages))
    ensures forall r :: r in Items(pages) <==> r in table && Matches(r, room, keep)
    ensures NoPageWasted(|Items(pages)|, |pages|, limit)
  {
    FixedWalkIsListed(table, pages, room, keep, limit);
    ListedIs(table, room, keep, None);
  }

  // Such a walk can always be finished.
  lemma FixedWalkExists(table: seq<RoomUser>, room: RoomId, keep: Filter, limit: nat) returns (walk: seq<Page>)
    requires limit >= 1 && WellFormed(table)
    ensures IsFixedWalk(table, walk, room, keep, limit)
  {
    var pages := FixedWalkFrom(table, room, keep, limit, [], 0);
    walk := WithCursors(table, pages);
    SameSlices(table, pages, walk, room, keep, limit);
    PositionsAnswer(table, walk, room, keep, limit);
  }

  lemma WithCursors(table: seq<RoomUser>, pages: seq<Page>) returns (walk: seq<Page>)
    requires WellFormed(table)
    ensures |walk| == |pages|
    ensures forall i :: 0 <= i < |walk| ==> walk[i].items == pages[i].items && walk[i].hasMore == pages[i].hasMore
    ensures forall i :: 0 <= i < |walk| ==> walk[i].nextCursor == NextCursor(table, walk[i].items)
  {
    if pages == [] {
      walk := [];
    } else {
      var page := pages[|pages| - 1];
      walk := WithCursors(table, pages[..|pages| - 1]);
      walk := walk + [Page(page.items, page.hasMore, NextCursor(table, page.items))];
    }
  }

  lemma SameSlices(table: seq<RoomUser>, pages: seq<Page>, walk: seq<Page>, room: RoomId, keep: Filter, limit: nat)
    requires |walk| == |pages| && IsFixedPositionWalk(table, pages, room, keep, limit)
    requires forall i :: 0 <= i < |walk| ==> walk[i].items == pages[i].items && walk[i].hasMore == pages[i].hasMore
    ensures IsFixedPositionWalk(table, walk, room, keep, limit)
  {
    forall k | 0 <= k < |walk| ensures IsPage(table, walk, room, keep, limit, k) {
      assert IsPage(table, pages, room, keep, limit, k);
    }
  }

  lemma PositionsAnswer(table: seq<RoomUser>, walk: seq<Page>, room: RoomId, keep: Filter, limit: nat)
    requires |walk| > 0 && WellFormed(table) && IsFixedPositionWalk(table, walk, room, keep, limit)
    requires forall i :: 0 <= i < |walk| ==> walk[i].nextCursor == NextCursor(table, walk[i].items)
    ensures IsFixedWalk(table, walk, room, keep, limit)
  {
    var tables := seq(|walk|, i => table);
    forall k | 0 <= k < |walk| ensures Answers(tables[k], walk, room, keep, limit, k) {
      assert IsPage(table, walk, room, keep, limit, k);
      assert k > 0 ==> IsPage(table, walk, room, keep, limit, k - 1);
      PositionAnswers(table, walk, room, keep, limit, k);
    }
  }

  lemma PositionAnswers(table: seq<RoomUser>, walk: seq<Page>, room: RoomId, keep: Filter, limit: nat, k: nat)
    requires k < |walk| && WellFormed(table)
    requires forall i :: 0 <= i < |walk| ==> walk[i].nextCursor == NextCursor(table, walk[i].items)
    requires IsPage(table, walk, room, keep, limit, k)
    requires k > 0 ==> IsPage(table, walk, room, keep, limit, k - 1)
    ensures Answers(table, walk, room, keep, limit, k)
  {
    if k > 0 { OnlyRowsOfTheTable(table, walk, room, keep, limit, k - 1); }
    CursorStandsFor(table, walk, k);
    PageIsAnswer(table, room, keep, limit, CursorBefore(walk, k), PositionBefore(walk, k), walk[k]);
  }

  lemma PageIsAnswer(table: seq<RoomUser>, room: RoomId, keep: Filter, limit: nat, cursor: string,
                     after: Option<Position>, page: Page)
    requires WellFormed(table) && Decode(cursor) == after
    requires Slice(page.items, page.hasMore) == PageFrom(table, room, keep, after, limit)
    requires page.nextCursor == NextCursor(table, page.items)
    ensures page == ListByRoomID(table, room, keep, cursor, limit)
  {
  }

  lemma CursorStandsFor(table: seq<RoomUser>, walk: seq<Page>, k: nat)
    requires k < |walk| && WellFormed(table)
    requires k > 0 ==> walk[k - 1].nextCursor == NextCursor(table, walk[k - 1].items)
    requires k > 0 ==> forall r :: r in walk[k - 1].items ==> r in table
    ensures Decode(CursorBefore(walk, k)) == PositionBefore(walk, k)
  {
    if k == 0 {
      assert Split("", '_') == [""];
    } else {
      NextCursorDecodes(table, walk[k - 1].items);
    }
  }

  lemma OnlyRowsOfTheTable(table: seq<RoomUser>, pages: seq<Page>, room: RoomId, keep: Filter, limit: nat, k: nat)
    requires k < |pages| && WellFormed(table) && IsPage(table, pages, room, keep, limit, k)
    ensures forall r :: r in pages[k].items ==> r in table
  {
    ListedIs(table, room, keep, PositionBefore(pages, k));
    assert pages[k].items <= Listed(table, room, keep, PositionBefore(pages, k));
  }

  // The pages so far and the one that follows them.
  lemma Extended(table: seq<RoomUser>, room: RoomId, keep: Filter, limit: nat, pages: seq<Page>)
    returns (longer: seq<Page>)
    requires forall i :: 0 <= i < |pages| ==> IsPage(table, pages, room, keep, limit, i)
    ensures |longer| == |pages| + 1 && longer[..|pages|] == pages
    ensures forall i :: 0 <= i < |longer| ==> IsPage(table, longer, room, keep, limit, i)
    ensures Slice(longer[|pages|].items, longer[|pages|].hasMore)
            == PageFrom(table, room, keep, PositionBefore(pages, |pages|), limit)
  {
    var slice := PageFrom(table, room, keep, PositionBefore(pages, |pages|), limit);
    longer := pages + [Page(slice.items, slice.hasMore, "")];
    forall i | 0 <= i < |longer| ensures IsPage(table, longer, room, keep, limit, i) {
      assert PositionBefore(longer, i) == PositionBefore(pages, i);
      assert i < |pages| ==> IsPage(table, pages, room, keep, limit, i);
    }
  }

  lemma {:induction false} FixedWalkFrom(table: seq<RoomUser>, room: RoomId, keep: Filter, limit: nat,
                                         pages: seq<Page>, k: nat) returns (walk: seq<Page>)
    requires limit >= 1 && WellFormed(table)
    requires forall i :: 0 <= i < |pages| ==> IsPage(table, pages, room, keep, limit, i)
    requires forall i :: 0 <= i < |pages| ==> pages[i].hasMore
    requires k <= |Listed(table, room, keep, None)|
    requires PositionBefore(pages, |pages|) == EndOf(Listed(table, room, keep, None)[..k])
    ensures |walk| > 0 && IsFixedPositionWalk(table, walk, room, keep, limit)
    decreases |Listed(table, room, keep, None)| - k
  {
    var all := Listed(table, room, keep, None);
    PageAfter(table, room, keep, limit, k, PositionBefore(pages, |pages|));
    var longer := Extended(table, room, keep, limit, pages);
    var slice := longer[|pages|];
    if slice.hasMore {
      assert slice.items[|slice.items| - 1] == all[k + limit - 1] == all[..k + limit][k + limit - 1];
      assert PositionBefore(longer, |longer|) == EndOf(all[..k + limit]);
      walk := FixedWalkFrom(table, room, keep, limit, longer, k + limit);
    } else {
      walk := longer;
    }
  }

  /// A walk over a table that changes between pages

  // The row with which one member answers each page's query: it matches throughout,
  // and its position never moves towards the start of the list.
  ghost predicate KeepsMatching(tables: seq<seq<RoomUser>>, trail: seq<RoomUser>, room: RoomId, keep: Filter) {
    && |trail| == |tables|
    && (forall k :: 0 <= k < |trail| ==> trail[k] in tables[k] && Matches(trail[k], room, keep))
    && (forall k :: 0 < k < |trail| ==> StaysOrMovesOn(trail, k))
  }

  ghost predicate StaysOrMovesOn(trail: seq<RoomUser>, k: nat)
    requires 0 < k < |trail|
  {
    !Precedes(PositionOf(trail[k]), PositionOf(trail[k - 1]))
  }

  // A row past the start of a page is either on it or past its end, with more to come.
  lemma OnPageOrLater(rows: seq<RoomUser>, pages: seq<Page>, room: RoomId, keep: Filter, limit: nat, k: nat,
                      r: RoomUser)
    requires limit >= 1 && k < |pages| && WellFormed(rows) && IsPage(rows, pages, room, keep, limit, k)
    requires r in rows && Matches(r, room, keep) && PastCursor(r, PositionBefore(pages, k))
    ensures var page := pages[k];
            r in page.items || (page.hasMore && page.items != [] && PastCursor(r, EndOf(page.items)))
  {
    var after := PositionBefore(pages, k);
    var ordered := Listed(rows, room, keep, after);
    ListedIs(rows, room, keep, after);
    assert r in ordered;
    if limit < |ordered| {
      InSuffix(ordered, limit, r);
      assert ordered == ordered[..limit] + ordered[limit..];
    }
  }

  lemma NeverMovesBack(p: Position, older: RoomUser, newer: RoomUser)
    requires Precedes(p, PositionOf(older)) && !Precedes(PositionOf(newer), PositionOf(older))
    ensures Precedes(p, PositionOf(newer))
  {
    EarlierIsStrictOrder(p.joinedAt, older.lastJoinedAt, newer.lastJoinedAt);
    EarlierIsStrictOrder(older.lastJoinedAt, newer.lastJoinedAt, p.joinedAt);
  }

  lemma NotSkippedOnPage(rows: seq<RoomUser>, pages: seq<Page>, older: RoomUser, newer: RoomUser,
                         room: RoomId, keep: Filter, limit: nat, k: nat)
    requires limit >= 1 && 0 < k < |pages| && WellFormed(rows) && IsPage(rows, pages, room, keep, limit, k - 1)
    requires older in rows && Matches(older, room, keep) && PastCursor(older, PositionBefore(pages, k - 1))
    requires !Precedes(PositionOf(newer), PositionOf(older))
    ensures older in pages[k - 1].items || PastCursor(newer, PositionBefore(pages, k))
  {
    OnPageOrLater(rows, pages, room, keep, limit, k - 1, older);
    if older !in pages[k - 1].items {
      NeverMovesBack(EndOf(pages[k - 1].items).value, older, newer);
    }
  }

  ghost predicate Seen(pages: seq<Page>, trail: seq<RoomUser>, k: nat)
    requires k <= |pages| == |trail|
  {
    exists i :: 0 <= i < k && trail[i] in pages[i].items
  }

  // A member past the cursor of page k - 1 is seen there or is past the cursor of page k.
  ghost predicate CarriesOver(pages: seq<Page>, trail: seq<RoomUser>, k: nat)
    requires 0 < k < |pages| == |trail|
  {
    PastCursor(trail[k - 1], PositionBefore(pages, k - 1)) ==>
      trail[k - 1] in pages[k - 1].items || PastCursor(trail[k], PositionBefore(pages, k))
  }

  lemma WalkCarriesOver(tables: seq<seq<RoomUser>>, pages: seq<Page>, trail: seq<RoomUser>,
                        room: RoomId, keep: Filter, limit: nat, k: nat)
    requires limit >= 1 && IsPositionWalk(tables, pages, room, keep, limit)
    requires KeepsMatching(tables, trail, room, keep)
    requires 0 < k < |pages|
    ensures CarriesOver(pages, trail, k)
  {
    assert StaysOrMovesOn(trail, k);
    assert IsPage(tables[k - 1], pages, room, keep, limit, k - 1);
    if PastCursor(trail[k - 1], PositionBefore(pages, k - 1)) {
      NotSkippedOnPage(tables[k - 1], pages, trail[k - 1], trail[k], room, keep, limit, k);
    }
  }

  lemma {:induction false} NotSkippedUpTo(pages: seq<Page>, trail: seq<RoomUser>, k: nat)
    requires k < |pages| == |trail|
    requires forall i :: 0 < i < |pages| ==> CarriesOver(pages, trail, i)
    ensures Seen(pages, trail, k) || PastCursor(trail[k], PositionBefore(pages, k))
  {
    if k == 0 {
    } else {
      NotSkippedUpTo(pages, trail, k - 1);
      assert CarriesOver(pages, trail, k);
    }
  }

  // However the table changes between pages, a row that matches throughout and only moves
  // towards the end of the list is on some page of a finished walk.
  lemma ChangingWalkSkipsNothing(tables: seq<seq<RoomUser>>, pages: seq<Page>, trail: seq<RoomUser>,
                                 room: RoomId, keep: Filter, limit: nat)
    requires limit >= 1 && IsWalk(tables, pages, room, keep, limit)
    requires KeepsMatching(tables, trail, room, keep)
    ensures exists k :: 0 <= k < |pages| && trail[k] in pages[k].items
  {
    var last := |pages| - 1;
    WalkByPositions(tables, pages, room, keep, limit);
    forall k | 0 < k < |pages| ensures CarriesOver(pages, trail, k) {
      WalkCarriesOver(tables, pages, trail, room, keep, limit, k);
    }
    NotSkippedUpTo(pages, trail, last);
    if PastCursor(trail[last], PositionBefore(pages, last)) {
      OnPageOrLater(tables[last], pages, room, keep, limit, last, trail[last]);
    }
  }
}
