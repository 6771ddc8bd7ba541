/** What membership calls guarantee over whole runs. */
module MembershipLaws {
  import opened Wrappers
  import opened Decimal
  import opened Cursor
  import opened Roles
  import opened RoomUsers
  import opened Presence
  import opened PresenceLaws
  import opened Membership

  /// Runs

  // The database hands out primary keys it has not handed out before.
  ghost predicate Allowed(w: World, c: Call) {
    match c
    case CreateRoom(room, _, _, _, id, _) => room !in w.rooms && FreshId(w.rows, id)
    case AddRoomUser(_, _, _, id, _) => FreshId(w.rows, id)
    case _ => true
  }

  ghost predicate FreshId(rows: Rows, id: Uint) { forall k :: k in rows ==> rows[k].id != id }

  ghost predicate IsRun(worlds: seq<World>, calls: seq<Call>) {
    && |worlds| == |calls| + 1
    && (forall i :: 0 <= i < |calls| ==> IsStep(worlds, calls, i))
  }

  ghost predicate IsStep(worlds: seq<World>, calls: seq<Call>, i: nat)
    requires i < |calls| && |worlds| == |calls| + 1
  {
    Allowed(worlds[i], calls[i]) && worlds[i + 1] == Perform(worlds[i], calls[i]).world
  }

  const EMPTY := World(map[], map[], Redis(map[], map[]))

  /// Bookkeeping

  ghost predicate RowOk(w: World, k: Key)
    requires k in w.rows
  {
    var ru := w.rows[k];
    && ru.roomId == k.room && ru.userId == k.user
    && k.room in w.rooms
    && (ru.isBlocked ==> !ru.isOnline)
    && (ru.isBlocked <==> ru.blockedBy.Some?)
    && (ru.role == Owner ==> k.user == w.rooms[k.room].creator && !ru.isBlocked)
  }

  ghost predicate Consistent(w: World) {
    && (forall k :: k in w.rows ==> RowOk(w, k))
    && (forall k, l :: k in w.rows && l in w.rows && k != l ==> w.rows[k].id != w.rows[l].id)
  }

  lemma CallKeepsRowsOk(w: World, c: Call)
    requires Consistent(w) && Allowed(w, c)
    ensures forall k :: k in Perform(w, c).world.rows ==> RowOk(Perform(w, c).world, k)
  {
    var w' := Perform(w, c).world;
    forall k | k in w'.rows ensures RowOk(w', k) {
      if k in w.rows { assert RowOk(w, k); }
    }
  }

  // A row either keeps the id it had or is the one the call enrols, under a new id.
  lemma WhereIdsComeFrom(w: World, c: Call, k: Key)
    requires k in Perform(w, c).world.rows
    ensures var rows := Perform(w, c).world.rows;
            || (k in w.rows && rows[k].id == w.rows[k].id)
            || (c.CreateRoom? && k == Key(c.room, c.creator) && rows[k].id == c.id)
            || (c.AddRoomUser? && k == Key(c.room, c.user) && rows[k].id == c.id)
  {
  }

  lemma CallKeepsIds(w: World, c: Call)
    requires Consistent(w) && Allowed(w, c)
    ensures var rows := Perform(w, c).world.rows;
            forall k, l :: k in rows && l in rows && k != l ==> rows[k].id != rows[l].id
  {
    var rows := Perform(w, c).world.rows;
    forall k, l | k in rows && l in rows && k != l ensures rows[k].id != rows[l].id {
      WhereIdsComeFrom(w, c, k);
      WhereIdsComeFrom(w, c, l);
    }
  }

  lemma EveryRunIsConsistent(worlds: seq<World>, calls: seq<Call>)
    requires IsRun(worlds, calls) && worlds[0] == EMPTY
    ensures Consistent(worlds[|calls|])
  {
    RunKeepsConsistent(worlds, calls);
  }

  lemma RunPrefix(worlds: seq<World>, calls: seq<Call>, n: nat)
    requires IsRun(worlds, calls) && n <= |calls|
    ensures IsRun(worlds[..n + 1], calls[..n])
  {
    var ws, cs := worlds[..n + 1], calls[..n];
    forall i | 0 <= i < |cs| ensures IsStep(ws, cs, i) {
      assert IsStep(worlds, calls, i);
    }
  }

  /// Counts

  // Online listeners and online speakers are the online members, and at most everybody.
  lemma OnlineCountsAddUp(rows: Rows, room: RoomId)
    ensures var c := CountsOf(rows, room);
            && c.listeners + c.speakers == Count(rows, room, true, ALL_ROLES)
            && c.listeners + c.speakers <= c.total
  {
    var listeners, speakers := Counted(rows, room, true, {Listener}), Counted(rows, room, true, SPEAKING_ROLES);
    var online, all := Counted(rows, room, true, ALL_ROLES), Counted(rows, room, false, ALL_ROLES);
    assert listeners + speakers == online && listeners !! speakers;
    SubsetSize(online, all);
  }

  lemma {:induction false} SubsetSize(a: set<Key>, b: set<Key>)
    requires a <= b
    ensures |a| <= |b|
  {
    assert b == a + (b - a);
  }

  lemma CountAfterLeaving(rows: Rows, k: Key, now: Stamp, onlineOnly: bool, roles: set<Role>)
    requires k in rows && !rows[k].isBlocked
    ensures Count(Departed(rows, k, now), k.room, onlineOnly, roles)
            == Count(rows, k.room, onlineOnly, roles)
               - if onlineOnly && rows[k].isOnline && rows[k].role in roles then 1 else 0
  {
    var before := Counted(rows, k.room, onlineOnly, roles);
    var after := Counted(Departed(rows, k, now), k.room, onlineOnly, roles);
    if onlineOnly {
      assert after == before - {k};
    } else {
      assert after == before;
    }
  }

  lemma CountsAfterLeaving(rows: Rows, k: Key, now: Stamp)
    requires k in rows && !rows[k].isBlocked
    ensures var before, after := CountsOf(rows, k.room), CountsOf(Departed(rows, k, now), k.room);
            && after.total == before.total
            && after.listeners == before.listeners - (if rows[k].isOnline && !rows[k].CanSpeak() then 1 else 0)
            && after.speakers == before.speakers - (if rows[k].isOnline && rows[k].CanSpeak() then 1 else 0)
  {
    CountAfterLeaving(rows, k, now, false, ALL_ROLES);
    CountAfterLeaving(rows, k, now, true, {Listener});
    CountAfterLeaving(rows, k, now, true, SPEAKING_ROLES);
  }

  // Leaving lowers the one counter that the returned row names, and only if the member was online.
  lemma LeavingLowersOneCounter(w: World, room: RoomId, user: UserId, now: Stamp)
    requires RemoveUserCall(w, room, user, now).result.Ok?
    ensures Key(room, user) in w.rows
    ensures var out := RemoveUserCall(w, room, user, now);
            var speaks, was := out.result.value.value.CanSpeak(), w.rows[Key(room, user)].isOnline;
            var before, after := CountsOf(w.rows, room), CountsOf(out.world.rows, room);
            && after.total == before.total
            && after.listeners == before.listeners - (if was && !speaks then 1 else 0)
            && after.speakers == before.speakers - (if was && speaks then 1 else 0)
  {
    CountsAfterLeaving(w.rows, Key(room, user), now);
  }

  /// Privilege

  // Some unblocked member of the room holds a role of at least this rank.
  ghost predicate HeldAtLeast(w: World, room: RoomId, rank: nat) {
    exists k :: k in w.rows && k.room == room && !w.rows[k].isBlocked && Rank(w.rows[k].role) >= rank
  }

  lemma CallGrantsNothingNew(w: World, c: Call, room: RoomId, rank: nat)
    requires Consistent(w)
    requires rank >= 1 && !(c.CreateRoom? && c.room == room)
    requires HeldAtLeast(Perform(w, c).world, room, rank)
    ensures HeldAtLeast(w, room, rank)
  {
    var w' := Perform(w, c).world;
    var k :| k in w'.rows && k.room == room && !w'.rows[k].isBlocked && Rank(w'.rows[k].role) >= rank;
    if k in w.rows && !w.rows[k].isBlocked && w.rows[k].role == w'.rows[k].role {
      assert HeldAtLeast(w, room, rank);
    } else {
      NewRoleIsGranted(w, c, k);
      var a := Key(room, c.actor);
      assert a in w.rows && a.room == room && !w.rows[a].isBlocked && Rank(w.rows[a].role) >= rank;
    }
  }

  // Whoever newly holds a role got it from an unblocked member of at least that rank.
  lemma NewRoleIsGranted(w: World, c: Call, k: Key)
    requires k in Perform(w, c).world.rows && !Perform(w, c).world.rows[k].isBlocked
    requires Perform(w, c).world.rows[k].role != Listener && !(c.CreateRoom? && c.room == k.room)
    requires !(k in w.rows && !w.rows[k].isBlocked && w.rows[k].role == Perform(w, c).world.rows[k].role)
    ensures (c.UpdateRole? || c.Unblock?) && k == Key(c.room, c.user)
    ensures var a := Key(c.room, c.actor);
            a in w.rows && !w.rows[a].isBlocked && Rank(w.rows[a].role) >= Rank(Perform(w, c).world.rows[k].role)
  {
    if c.UpdateRole? || c.Unblock? {
      var a := Key(c.room, c.actor);
      if a in w.rows { TablesFollowRank(w.rows[a].role, Perform(w, c).world.rows[k].role); }
    }
  }

  // Once a room exists, nobody unblocked ever comes to hold more than some unblocked member
  // already held, even through roles given to blocked users who are unblocked later.
  lemma {:induction false} PrivilegeNeverGrows(worlds: seq<World>, calls: seq<Call>, room: RoomId, rank: nat)
    requires IsRun(worlds, calls) && Consistent(worlds[0])
    requires rank >= 1 && forall i :: 0 <= i < |calls| ==> !(calls[i].CreateRoom? && calls[i].room == room)
    requires HeldAtLeast(worlds[|calls|], room, rank)
    ensures HeldAtLeast(worlds[0], room, rank)
    decreases |calls|
  {
    if calls == [] {
    } else {
      var n := |calls| - 1;
      RunPrefix(worlds, calls, n);
      assert IsStep(worlds, calls, n);
      RunKeepsConsistent(worlds[..n + 1], calls[..n]);
      CallGrantsNothingNew(worlds[n], calls[n], room, rank);
      PrivilegeNeverGrows(worlds[..n + 1], calls[..n], room, rank);
    }
  }

  lemma {:induction false} RunKeepsConsistent(worlds: seq<World>, calls: seq<Call>)
    requires IsRun(worlds, calls) && Consistent(worlds[0])
    ensures Consistent(worlds[|calls|])
    decreases |calls|
  {
    if calls == [] {
    } else {
      var n := |calls| - 1;
      RunPrefix(worlds, calls, n);
      RunKeepsConsistent(worlds[..n + 1], calls[..n]);
      assert IsStep(worlds, calls, n);
      CallKeepsRowsOk(worlds[n], calls[n]);
      CallKeepsIds(worlds[n], calls[n]);
    }
  }

  // A room never has two owners; an owner is the room's creator and is not blocked.
  lemma OwnerIsUnique(worlds: seq<World>, calls: seq<Call>, k: Key, l: Key)
    requires IsRun(worlds, calls) && worlds[0] == EMPTY
    requires var rows := worlds[|calls|].rows;
             k in rows && l in rows && k.room == l.room && rows[k].role == Owner && rows[l].role == Owner
    ensures k == l && k.room in worlds[|calls|].rooms && k.user == worlds[|calls|].rooms[k.room].creator
    ensures !worlds[|calls|].rows[k].isBlocked
  {
    EveryRunIsConsistent(worlds, calls);
    assert RowOk(worlds[|calls|], k) && RowOk(worlds[|calls|], l);
  }

  // Only creating a room makes an owner.
  lemma OwnerIsNeverAssigned(w: World, c: Call, k: Key)
    requires Consistent(w) && Allowed(w, c)
    requires k in Perform(w, c).world.rows && Perform(w, c).world.rows[k].role == Owner
    ensures (k in w.rows && w.rows[k].role == Owner)
            || (c.CreateRoom? && k == Key(c.room, c.creator))
  {
    if c.UpdateRole? && CanUpdateRole(w.rows, c.room, c.actor, c.name) {
      TablesFollowRank(w.rows[Key(c.room, c.actor)].role, c.name.role);
    }
  }

  // While someone owns a room, no call blocks them or takes their row away, short of their
  // deleting the room, and nobody else mutes them.
  lemma OwnerIsProtected(w: World, c: Call, k: Key)
    requires Consistent(w) && k in w.rows && w.rows[k].role == Owner
    requires !(c.DeleteRoom? && c.room == k.room && c.actor == k.user)
    ensures var out := Perform(w, c);
            && k in out.world.rows && !out.world.rows[k].isBlocked
            && (out.world.rows[k].role != Owner ==> c.UpdateRole? && Key(c.room, c.user) == k)
            && (c.SetMuted? && Key(c.room, c.user) == k && c.actor != k.user ==>
                  out.result == Err(Forbidden) && out.world == w)
  {
    OwnerKeepsRow(w, c, k);
    if c.SetMuted? && Key(c.room, c.user) == k && c.actor != k.user { NobodyModeratesOwner(w, k, c.actor); }
  }

  // The row of k is there, unblocked and an owner's but for a change of role.
  ghost predicate KeepsRow(w: World, c: Call, k: Key) {
    var rows := Perform(w, c).world.rows;
    && k in rows && !rows[k].isBlocked
    && (rows[k].role != Owner ==> c.UpdateRole? && Key(c.room, c.user) == k)
  }

  lemma ModeratingKeepsOwner(w: World, c: Call, k: Key)
    requires Consistent(w) && k in w.rows && w.rows[k].role == Owner && (c.DeleteUser? || c.Block? || c.Unblock?)
    ensures KeepsRow(w, c, k)
  {
    assert RowOk(w, k);
    if Key(c.room, c.user) == k && c.actor != k.user { NobodyModeratesOwner(w, k, c.actor); }
  }

  lemma DeletingKeepsOwner(w: World, c: Call, k: Key)
    requires Consistent(w) && k in w.rows && w.rows[k].role == Owner && c.DeleteRoom?
    requires !(c.room == k.room && c.actor == k.user)
    ensures KeepsRow(w, c, k)
  {
    assert RowOk(w, k);
    assert Key(c.room, c.actor) in w.rows ==> RowOk(w, Key(c.room, c.actor));
  }

  lemma OtherCallsKeepOwner(w: World, c: Call, k: Key)
    requires Consistent(w) && k in w.rows && w.rows[k].role == Owner
    requires !c.DeleteUser? && !c.Block? && !c.Unblock? && !c.DeleteRoom?
    ensures KeepsRow(w, c, k)
  {
    assert RowOk(w, k);
  }

  lemma OwnerKeepsRow(w: World, c: Call, k: Key)
    requires Consistent(w) && k in w.rows && w.rows[k].role == Owner
    requires !(c.DeleteRoom? && c.room == k.room && c.actor == k.user)
    ensures KeepsRow(w, c, k)
  {
    if c.DeleteRoom? {
      DeletingKeepsOwner(w, c, k);
    } else if c.DeleteUser? || c.Block? || c.Unblock? {
      ModeratingKeepsOwner(w, c, k);
    } else {
      OtherCallsKeepOwner(w, c, k);
    }
  }

  lemma NobodyModeratesOwner(w: World, k: Key, actor: UserId)
    requires Consistent(w) && k in w.rows && w.rows[k].role == Owner && actor != k.user
    ensures Membership.CanModerate(w.rows, k.room, actor, k.user) == Err(Forbidden)
  {
    var a := Key(k.room, actor);
    assert RowOk(w, k) && (a in w.rows ==> RowOk(w, a) && w.rows[a].role != Owner);
    if a in w.rows { TablesFollowRank(w.rows[a].role, Owner); }
  }

  // Ownership lasts until the owner's role is changed or the owner deletes the room.
  lemma {:induction false} OwnershipLasts(worlds: seq<World>, calls: seq<Call>, k: Key)
    requires IsRun(worlds, calls) && Consistent(worlds[0])
    requires k in worlds[0].rows && worlds[0].rows[k].role == Owner
    requires forall i :: 0 <= i < |calls| ==>
               && !(calls[i].DeleteRoom? && calls[i].room == k.room && calls[i].actor == k.user)
               && !(calls[i].UpdateRole? && Key(calls[i].room, calls[i].user) == k)
    ensures k in worlds[|calls|].rows && worlds[|calls|].rows[k].role == Owner
    decreases |calls|
  {
    if calls == [] {
    } else {
      var n := |calls| - 1;
      RunPrefix(worlds, calls, n);
      RunKeepsConsistent(worlds[..n + 1], calls[..n]);
      OwnershipLasts(worlds[..n + 1], calls[..n], k);
      assert IsStep(worlds, calls, n);
      OwnerIsProtected(worlds[n], calls[n], k);
    }
  }

  /// Microphones

  // The only call that opens a microphone is its owner's own.
  lemma MicrophoneOpensByOwner(w: World, c: Call, room: RoomId, user: UserId)
    requires StateOf(w.presence, room, user).isMuted
    requires !StateOf(Perform(w, c).world.presence, room, user).isMuted
    ensures c == SetMuted(room, user, user, false)
    ensures FindBy(w.rows, user, room).Some? && Perform(w, c).result.Ok?
  {
    if c.SetMuted? {
      SetMutedChangesOnly(w.presence, c.room, c.user, c.isMuted, room, user);
    } else {
      OtherCallsKeepMuted(w, c, room, user);
    }
  }

  lemma RowCallsKeepPresence(w: World, c: Call)
    requires !c.DeleteRoom? && !c.RemoveUser? && !c.DeleteUser? && !c.UpdateRole? && !c.SetMuted? && !c.SetHandRaised?
    ensures Perform(w, c).world.presence == w.presence
  {
  }

  // Demotion mutes, leaving and deletion fall back on the muted default, a hand leaves it alone.
  lemma OtherCallsKeepMuted(w: World, c: Call, room: RoomId, user: UserId)
    requires StateOf(w.presence, room, user).isMuted && !c.SetMuted?
    ensures StateOf(Perform(w, c).world.presence, room, user).isMuted
  {
    match c {
      case DeleteRoom(r, _) => DeleteRoomIsExact(w.presence, r, room, user);
      case RemoveUser(r, u, _) => DeleteParticipantChangesOnly(w.presence, r, u, room, user);
      case DeleteUser(r, u, _) => DeleteParticipantChangesOnly(w.presence, r, u, room, user);
      case UpdateRole(r, u, _, _) => SetMutedChangesOnly(w.presence, r, u, true, room, user);
      case SetHandRaised(r, u, raised, at) => SetHandRaisedChangesOnly(w.presence, r, u, raised, at, room, user);
      case _ => RowCallsKeepPresence(w, c);
    }
  }

  // A microphone that is off stays off through any run in which its owner does not open it.
  lemma {:induction false} SilentUntilOwnerSpeaks(worlds: seq<World>, calls: seq<Call>, room: RoomId, user: UserId)
    requires IsRun(worlds, calls)
    requires StateOf(worlds[0].presence, room, user).isMuted
    requires SetMuted(room, user, user, false) !in calls
    ensures StateOf(worlds[|calls|].presence, room, user).isMuted
    decreases |calls|
  {
    if calls == [] {
    } else {
      var n := |calls| - 1;
      RunPrefix(worlds, calls, n);
      SilentUntilOwnerSpeaks(worlds[..n + 1], calls[..n], room, user);
      assert IsStep(worlds, calls, n);
      assert calls[n] in calls;
      if !StateOf(worlds[n + 1].presence, room, user).isMuted {
        MicrophoneOpensByOwner(worlds[n], calls[n], room, user);
      }
    }
  }

  /// Role changes of blocked users

  // A role change fails with not-found exactly when its target is blocked or absent; the row
  // of a blocked target is written all the same.
  lemma RoleChangeOfBlockedUser(w: World, room: RoomId, user: UserId, name: RoleName, actor: UserId)
    requires CanUpdateRole(w.rows, room, actor, name)
    ensures var out, k := UpdateRoleCall(w, room, user, name, actor), Key(room, user);
            && (out.result == Err(RecordNotFound) <==> k !in w.rows || w.rows[k].isBlocked)
            && (k in w.rows ==> out.world.rows == w.rows[k := w.rows[k].(role := name.role)])
            && (k !in w.rows ==> out.world.rows == w.rows)
  {
  }

  // The room is made, a user joins and is blocked, and is then made a speaker all the same.
  lemma BlockedSpeakerExample(now: Stamp)
    ensures var k := Key(1, 2);
            var calls := [CreateRoom(1, 1, false, "", 1, now), AddRoomUser(1, 2, "", 2, now), Block(1, 2, 1, now),
                          UpdateRole(1, 2, Known(Speaker), 1)];
            exists worlds: seq<World> :: IsRun(worlds, calls) && worlds[0] == EMPTY
                             && Perform(worlds[3], calls[3]).result == Err(RecordNotFound)
                             && BlockedIn(worlds[4], k) && worlds[4].rows[k].role == Speaker
  {
    var calls := [CreateRoom(1, 1, false, "", 1, now), AddRoomUser(1, 2, "", 2, now), Block(1, 2, 1, now),
                  UpdateRole(1, 2, Known(Speaker), 1)];
    var w1 := Perform(EMPTY, calls[0]).world;
    var w2 := Perform(w1, calls[1]).world;
    var w3 := Perform(w2, calls[2]).world;
    var w4 := Perform(w3, calls[3]).world;
    assert w1.rows == map[Key(1, 1) := RoomUser(1, 1, 1, Owner, now, now, true, false, None)];
    assert Key(1, 2) in w2.rows && !w2.rows[Key(1, 2)].isBlocked && w2.rows[Key(1, 1)] == w1.rows[Key(1, 1)];
    assert CanBlock(w2.rows, 1, 1, 2).Ok? by { assert Roles.CanModerate(Owner, Listener); }
    assert BlockedIn(w3, Key(1, 2)) && w3.rows[Key(1, 1)] == w1.rows[Key(1, 1)];
    var worlds := [EMPTY, w1, w2, w3, w4];
    forall i | 0 <= i < 4 ensures IsStep(worlds, calls, i) {
      assert i == 0 || i == 1 || i == 2 || i == 3;
    }
    assert IsRun(worlds, calls);
  }

  // The call gives user k a role: a block that goes through, or a permitted change of role.
  function GivenRole(w: World, c: Call, k: Key): Option<Role> {
    match c
    case Block(room, user, actor, now) =>
      if Key(room, user) == k && BlockCall(w, room, user, actor, now).result.Ok? then Some(Listener) else None
    case UpdateRole(room, user, name, actor) =>
      if Key(room, user) == k && CanUpdateRole(w.rows, room, actor, name) then Some(name.role) else None
    case _ => None
  }

  // The last role given to k between calls i and n.
  function LastGiven(worlds: seq<World>, calls: seq<Call>, i: nat, n: nat, k: Key): Option<Role>
    requires |worlds| == |calls| + 1 && i <= n <= |calls|
    decreases n
  {
    if n == i then None
    else
      var given := GivenRole(worlds[n - 1], calls[n - 1], k);
      if given.Some? then given else LastGiven(worlds, calls, i, n - 1, k)
  }

  lemma BlockedRoleChangesIff(w: World, c: Call, k: Key)
    requires BlockedIn(w, k) && BlockedIn(Perform(w, c).world, k)
    ensures Perform(w, c).world.rows[k].role
            == if GivenRole(w, c, k).Some? then GivenRole(w, c, k).value else w.rows[k].role
  {
  }

  // While a user stays blocked their role is the last one given to them since, or listener if
  // none was: so a blocked user is a listener exactly if no later change made them another.
  lemma {:induction false} BlockedRoleIsLastGiven(worlds: seq<World>, calls: seq<Call>, i: nat, n: nat, k: Key)
    requires IsRun(worlds, calls) && i < n <= |calls|
    requires GivenRole(worlds[i], calls[i], k) == Some(Listener) && calls[i].Block?
    requires forall j :: i < j <= n ==> BlockedIn(worlds[j], k)
    ensures BlockedIn(worlds[n], k) && LastGiven(worlds, calls, i, n, k) == Some(worlds[n].rows[k].role)
  {
    if n == i + 1 {
      assert IsStep(worlds, calls, i);
    } else {
      BlockedRoleIsLastGiven(worlds, calls, i, n - 1, k);
      assert IsStep(worlds, calls, n - 1);
      BlockedRoleChangesIff(worlds[n - 1], calls[n - 1], k);
    }
  }

  /// Coming and going

  // Coming back after leaving restores the row but for the two times, with the member online; the
  // microphone is off, the hand is down, and nobody else notices.
  lemma RejoinUndoesLeaving(w: World, room: RoomId, user: UserId, code: string, id: Uint, left: Stamp, back: Stamp)
    requires Key(room, user) in w.rows && !w.rows[Key(room, user)].isBlocked
    ensures var k := Key(room, user);
            var gone := RemoveUserCall(w, room, user, left);
            var again := AddRoomUserCall(gone.world, room, user, code, id, back);
            && gone.result.Ok? && !gone.world.rows[k].isOnline
            && again.result == Ok(Some(w.rows[k].(isOnline := true, lastLeftAt := left, lastJoinedAt := back)))
            && again.world.rows == w.rows[k := w.rows[k].(isOnline := true, lastLeftAt := left, lastJoinedAt := back)]
            && again.world.rooms == w.rooms
            && StateOf(again.world.presence, room, user) == ParticipantState(true, false)
            && forall other: UserId :: other != user ==>
                 StateOf(again.world.presence, room, other) == StateOf(w.presence, room, other)
  {
    var k := Key(room, user);
    var gone := RemoveUserCall(w, room, user, left);
    assert gone.world.rows[k := gone.world.rows[k].(lastJoinedAt := back, isOnline := true)]
           == w.rows[k := w.rows[k].(isOnline := true, lastLeftAt := left, lastJoinedAt := back)];
    DeleteParticipantChangesOnly(w.presence, room, user, room, user);
    forall other: UserId | other != user
      ensures StateOf(gone.world.presence, room, other) == StateOf(w.presence, room, other)
    {
      DeleteParticipantChangesOnly(w.presence, room, user, room, other);
    }
  }

  /// Blocks

  ghost predicate BlockedIn(w: World, k: Key) { k in w.rows && w.rows[k].isBlocked }

  // Whose request a call is.
  function ActorOf(c: Call): UserId {
    match c
    case CreateRoom(_, creator, _, _, _, _) => creator
    case UpdateRoom(_, actor, _, _) => actor
    case RenewCode(_, actor, _) => actor
    case DeleteRoom(_, actor) => actor
    case AddRoomUser(_, user, _, _, _) => user
    case RemoveUser(_, user, _) => user
    case DeleteUser(_, _, actor) => actor
    case Block(_, _, actor, _) => actor
    case Unblock(_, _, actor) => actor
    case UpdateRole(_, _, _, actor) => actor
    case SetMuted(_, _, actor, _) => actor
    case SetHandRaised(_, user, _, _) => user
  }

  // Whatever a blocked user asks for in the room is refused and changes nothing at all.
  lemma BlockedUserIsPowerless(w: World, c: Call, k: Key)
    requires BlockedIn(w, k) && c.room == k.room && ActorOf(c) == k.user && !c.CreateRoom?
    ensures var out := Perform(w, c); out.result.Err? && out.world == w && !out.revoked
  {
  }

  // Unblocking undoes a block but for the role, which stays at listener, and the absence.
  lemma UnblockUndoesBlock(w: World, room: RoomId, user: UserId, blocker: UserId, unblocker: UserId, now: Stamp)
    requires Consistent(w) && BlockCall(w, room, user, blocker, now).result.Ok? && !BlockedIn(w, Key(room, user))
    requires UnblockCall(BlockCall(w, room, user, blocker, now).world, room, user, unblocker).result.Ok?
    ensures var k := Key(room, user);
            k in w.rows &&
            UnblockCall(BlockCall(w, room, user, blocker, now).world, room, user, unblocker).world
            == w.(rows := w.rows[k := w.rows[k].(role := Listener, isOnline := false, lastLeftAt := now)])
  {
    var k := Key(room, user);
    assert RowOk(w, k);
    var blocked := BlockCall(w, room, user, blocker, now).world;
    assert UnblockCall(blocked, room, user, unblocker).world.rows
           == w.rows[k := w.rows[k].(role := Listener, isOnline := false, lastLeftAt := now)];
  }

  // A block lasts through any run in which nobody unblocks the user and the room stays: joining
  // again, removal by a manager and a change of role do not end it.
  lemma {:induction false} BlockLasts(worlds: seq<World>, calls: seq<Call>, k: Key)
    requires IsRun(worlds, calls) && BlockedIn(worlds[0], k)
    requires forall i :: 0 <= i < |calls| ==>
               && !(calls[i].Unblock? && Key(calls[i].room, calls[i].user) == k)
               && !(calls[i].DeleteRoom? && calls[i].room == k.room)
    ensures BlockedIn(worlds[|calls|], k)
    decreases |calls|
  {
    if calls == [] {
    } else {
      var n := |calls| - 1;
      RunPrefix(worlds, calls, n);
      BlockLasts(worlds[..n + 1], calls[..n], k);
      assert IsStep(worlds, calls, n);
      CallKeepsBlock(worlds[n], calls[n], k);
    }
  }

  lemma CallKeepsBlock(w: World, c: Call, k: Key)
    requires BlockedIn(w, k)
    requires !(c.Unblock? && Key(c.room, c.user) == k) && !(c.DeleteRoom? && c.room == k.room)
    ensures BlockedIn(Perform(w, c).world, k)
  {
  }
}
