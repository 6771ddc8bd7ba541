/** Walking the member list of a room while its members come and go. */
module MemberWalks {
  import opened RoomUsers
  import opened Membership
  import opened MembershipLaws
  import opened MemberListing

  // The rows of the database in some order, which is what a query runs over.
  ghost predicate IsTable(table: seq<RoomUser>, rows: Rows) {
    forall r :: r in table <==> exists k :: k in rows && rows[k] == r
  }

  // Nobody joins at a time before one on record.
  ghost predicate Timely(w: World, c: Call) {
    c.AddRoomUser? ==> forall k :: k in w.rows ==> NotLater(w.rows[k].lastJoinedAt, c.now)
  }

  // A row that a call leaves in place keeps its id and never joins earlier than it did.
  ghost predicate MovesOn(older: RoomUser, newer: RoomUser) {
    newer.id == older.id && NotLater(older.lastJoinedAt, newer.lastJoinedAt)
  }

  lemma CallMovesOn(w: World, c: Call, k: Key)
    requires Consistent(w) && Timely(w, c)
    requires k in w.rows && k in Perform(w, c).world.rows
    ensures MovesOn(w.rows[k], Perform(w, c).world.rows[k])
  {
  }

  // The worlds at which the pages are asked for, in the order of the walk.
  ghost predicate InOrder(moments: seq<nat>, last: nat) {
    && (forall j :: 0 <= j < |moments| ==> moments[j] <= last)
    && (forall i, j :: 0 <= i < j < |moments| ==> moments[i] <= moments[j])
  }

  ghost predicate IsTimelyRun(worlds: seq<World>, calls: seq<Call>) {
    && IsRun(worlds, calls) && Consistent(worlds[0])
    && (forall i :: 0 <= i < |calls| ==> Timely(worlds[i], calls[i]))
  }

  lemma {:induction false} MemberMovesOn(worlds: seq<World>, calls: seq<Call>, k: Key, i: nat, j: nat)
    requires IsTimelyRun(worlds, calls) && i <= j <= |calls|
    requires forall n :: i <= n <= j ==> k in worlds[n].rows
    ensures MovesOn(worlds[i].rows[k], worlds[j].rows[k])
  {
    if i < j {
      MemberMovesOn(worlds, calls, k, i, j - 1);
      RunPrefix(worlds, calls, j - 1);
      RunKeepsConsistent(worlds[..j], calls[..j - 1]);
      assert IsStep(worlds, calls, j - 1);
      CallMovesOn(worlds[j - 1], calls[j - 1], k);
      EarlierIsStrictOrder(worlds[i].rows[k].lastJoinedAt, worlds[j - 1].rows[k].lastJoinedAt,
                           worlds[j].rows[k].lastJoinedAt);
    }
  }

  function Trail(worlds: seq<World>, moments: seq<nat>, k: Key): (trail: seq<RoomUser>)
    requires forall j :: 0 <= j < |moments| ==> moments[j] < |worlds| && k in worlds[moments[j]].rows
    ensures |trail| == |moments| && forall j :: 0 <= j < |trail| ==> trail[j] == worlds[moments[j]].rows[k]
  {
    seq(|moments|, j requires 0 <= j < |moments| => worlds[moments[j]].rows[k])
  }

  ghost predicate Stays(worlds: seq<World>, moments: seq<nat>, k: Key)
    requires moments != [] && forall j :: 0 <= j < |moments| ==> moments[j] < |worlds|
  {
    forall n :: moments[0] <= n <= moments[|moments| - 1] ==> k in worlds[n].rows
  }

  lemma TrailMovesOn(worlds: seq<World>, calls: seq<Call>, moments: seq<nat>, k: Key, j: nat)
    requires IsTimelyRun(worlds, calls) && InOrder(moments, |calls|) && 0 < j < |moments|
    requires Stays(worlds, moments, k)
    requires forall i :: 0 <= i < |moments| ==> k in worlds[moments[i]].rows
    ensures StaysOrMovesOn(Trail(worlds, moments, k), j)
  {
    var older, newer := worlds[moments[j - 1]].rows[k], worlds[moments[j]].rows[k];
    MemberMovesOn(worlds, calls, k, moments[j - 1], moments[j]);
    EarlierIsStrictOrder(older.lastJoinedAt, newer.lastJoinedAt, older.lastJoinedAt);
  }

  lemma InTable(table: seq<RoomUser>, rows: Rows, k: Key)
    requires IsTable(table, rows) && k in rows
    ensures rows[k] in table
  {
  }

  // However members join, rejoin, leave, are blocked or removed while somebody pages through the
  // list, a member whose row stays and matches whenever a page is asked for is on some page.
  lemma NoMemberIsSkipped(worlds: seq<World>, calls: seq<Call>, moments: seq<nat>, tables: seq<seq<RoomUser>>,
                          pages: seq<Page>, room: RoomId, keep: Filter, limit: nat, k: Key)
    requires IsTimelyRun(worlds, calls) && InOrder(moments, |calls|) && moments != []
    requires |moments| == |tables| && forall j :: 0 <= j < |tables| ==> IsTable(tables[j], worlds[moments[j]].rows)
    requires limit >= 1 && IsWalk(tables, pages, room, keep, limit)
    requires Stays(worlds, moments, k)
    requires forall j :: 0 <= j < |moments| ==>
               k in worlds[moments[j]].rows && Matches(worlds[moments[j]].rows[k], room, keep)
    ensures exists j :: 0 <= j < |pages| && worlds[moments[j]].rows[k] in pages[j].items
  {
    var trail := Trail(worlds, moments, k);
    forall j | 0 <= j < |trail| ensures trail[j] in tables[j] {
      InTable(tables[j], worlds[moments[j]].rows, k);
    }
    forall j | 0 < j < |trail| ensures StaysOrMovesOn(trail, j) {
      TrailMovesOn(worlds, calls, moments, k, j);
    }
    ChangingWalkSkipsNothing(tables, pages, trail, room, keep, limit);
  }
}
