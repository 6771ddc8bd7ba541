/** What each membership call answers: when it goes through, with which error it fails otherwise,
 * and what it changes. Roles are named one by one here.
 */
module MembershipAnswers {
  import opened Wrappers
  import opened Decimal
  import opened Cursor
  import opened Roles
  import opened RoomUsers
  import opened Presence
  import opened PresenceLaws
  import opened Membership
  import MembershipLaws

  predicate HasRow(w: World, room: RoomId, user: UserId) { Key(room, user) in w.rows }

  predicate IsBlockedIn(w: World, room: RoomId, user: UserId) {
    HasRow(w, room, user) && w.rows[Key(room, user)].isBlocked
  }

  predicate IsMember(w: World, room: RoomId, user: UserId) {
    HasRow(w, room, user) && !w.rows[Key(room, user)].isBlocked
  }

  predicate Holds(w: World, room: RoomId, user: UserId, roles: set<Role>) {
    IsMember(w, room, user) && w.rows[Key(room, user)].role in roles
  }

  // An unblocked member whose role lets them act on the target, who need not be unblocked.
  predicate ActsOn(w: World, room: RoomId, actor: UserId, target: UserId) {
    && IsMember(w, room, actor) && HasRow(w, room, target)
    && match w.rows[Key(room, actor)].role
       case Owner => true
       case Admin => w.rows[Key(room, target)].role != Owner
       case Moderator => w.rows[Key(room, target)].role in {Moderator, Speaker, Listener}
       case Speaker => false
       case Listener => false
  }

  predicate MayAssign(w: World, room: RoomId, actor: UserId, name: RoleName) {
    match name
    case Known(Owner) => false
    case Known(Admin) => Holds(w, room, actor, {Owner, Admin})
    case Known(Moderator) => Holds(w, room, actor, {Owner, Admin})
    case Known(Speaker) => Holds(w, room, actor, {Owner, Admin, Moderator})
    case Known(Listener) => Holds(w, room, actor, {Owner, Admin, Moderator})
    case Unknown(_) => false
  }

  // At most the row of one user differs.
  predicate OnlyRowOf(w: World, v: World, room: RoomId, user: UserId) {
    && v.rooms == w.rooms
    && v.rows - {Key(room, user)} == w.rows - {Key(room, user)}
  }

  ghost predicate OnlyPresenceOf(w: World, v: World, room: RoomId, user: UserId) {
    forall r: RoomId, u: UserId :: (r, u) != (room, user) ==> StateOf(v.presence, r, u) == StateOf(w.presence, r, u)
  }

  // What a moderating call answers if the actor may not act on the target.
  predicate RefusesAs(w: World, room: RoomId, actor: UserId, target: UserId, e: Error) {
    if IsMember(w, room, actor) && !HasRow(w, room, target) then e == RecordNotFound else e == Forbidden
  }

  lemma ModerationIsExact(w: World, room: RoomId, actor: UserId, target: UserId)
    ensures var r := Membership.CanModerate(w.rows, room, actor, target);
            if ActsOn(w, room, actor, target) then r.Ok? && r.value == w.rows[Key(room, target)]
            else r.Err? && RefusesAs(w, room, actor, target, r.error)
  {
    if HasRow(w, room, target) {
      match w.rows[Key(room, target)].role {
        case Owner => case Admin => case Moderator => case Speaker => case Listener =>
      }
    }
  }

  /// Rooms

  // Newcomers with this code are let in.
  predicate Admits(w: World, room: RoomId, code: string) {
    room in w.rooms && (!w.rooms[room].isPrivate || w.rooms[room].code == Some(code))
  }

  // What a call that changes a room leaves alone, and with which error it fails.
  predicate OnlyRoomChanges(w: World, out: Outcome, room: RoomId, may: bool) {
    && (out.result.Ok? <==> may && room in w.rooms)
    && (out.result == Err(Forbidden) <==> !may)
    && (out.result == Err(RecordNotFound) <==> may && room !in w.rooms)
    && (out.result.Ok? ==>
          && room in w.rooms && room in out.world.rooms && out.world.rooms - {room} == w.rooms - {room}
          && out.world.rooms[room].creator == w.rooms[room].creator
          && out.world == w.(rooms := out.world.rooms))
    && (out.result.Err? ==> out.world == w) && !out.revoked
  }

  lemma CreatingIsExact(w: World, room: RoomId, creator: UserId, isPrivate: bool, code: string, id: Uint, now: Stamp)
    requires room !in w.rooms && !HasRow(w, room, creator)
    ensures var out := Perform(w, CreateRoom(room, creator, isPrivate, code, id, now));
            && out.result == Ok(None) && !out.revoked && out.world.presence == w.presence
            && room in out.world.rooms && out.world.rooms - {room} == w.rooms
            && out.world.rooms[room].creator == creator
            && (forall known :: Admits(out.world, room, known) <==> !isPrivate || known == code)
            && (out.world.rooms[room].isPrivate <==> isPrivate) && (out.world.rooms[room].code.Some? <==> isPrivate)
            && OnlyRowOf(w.(rooms := out.world.rooms), out.world, room, creator)
            && Holds(out.world, room, creator, {Owner})
            && var ru := out.world.rows[Key(room, creator)];
               && ru.id == id && ru.userId == creator && ru.roomId == room
               && ru.isOnline && ru.lastJoinedAt == now && ru.lastLeftAt == now && ru.blockedBy.None?
  {
  }

  // Owners and admins open and close a room. A room that stays private keeps its code, one that becomes
  // private gets the new code unless a code was set meanwhile.
  lemma UpdatingRoomIsExact(w: World, room: RoomId, actor: UserId, isPrivate: bool, code: string)
    ensures var out, may := Perform(w, UpdateRoom(room, actor, isPrivate, code)), Holds(w, room, actor, {Owner, Admin});
            && OnlyRoomChanges(w, out, room, may)
            && (out.result.Ok? ==> forall known :: Admits(out.world, room, known) <==>
                                     !isPrivate || Some(known) == (if w.rooms[room].code.Some? then w.rooms[room].code
                                                                   else Some(code)))
            && (out.result.Ok? ==>
                  (out.world.rooms[room].isPrivate <==> isPrivate) && (out.world.rooms[room].code.Some? <==> isPrivate))
  {
  }

  // A renewed code is the one that admits from then on.
  lemma RenewingCodeIsExact(w: World, room: RoomId, actor: UserId, code: string)
    ensures var out, may := Perform(w, RenewCode(room, actor, code)), Holds(w, room, actor, {Owner, Admin});
            && OnlyRoomChanges(w, out, room, may)
            && (out.result.Ok? ==>
                  && (forall known :: Admits(out.world, room, known) <==> !w.rooms[room].isPrivate || known == code)
                  && out.world.rooms[room].isPrivate == w.rooms[room].isPrivate)
  {
  }

  lemma DeletingRoomIsExact(w: World, room: RoomId, actor: UserId)
    ensures var out, may := Perform(w, Call.DeleteRoom(room, actor)), Holds(w, room, actor, {Owner});
            && (out.result.Ok? <==> room in w.rooms && may)
            && (out.result == Err(RecordNotFound) <==> room !in w.rooms)
            && (out.result == Err(Forbidden) <==> room in w.rooms && !may)
            && (out.result.Ok? ==>
                  && out.world.rooms == w.rooms - {room}
                  && (forall k :: k in out.world.rows <==> k in w.rows && k.room != room)
                  && (forall k :: k in out.world.rows ==> out.world.rows[k] == w.rows[k])
                  && forall r: RoomId, u: UserId :: StateOf(out.world.presence, r, u)
                       == if r == room then ParticipantState(true, false) else StateOf(w.presence, r, u))
            && (out.result.Err? ==> out.world == w) && !out.revoked
  {
    forall r: RoomId, u: UserId
      ensures StateOf(AfterDeleteRoom(w.presence, room), r, u)
              == if r == room then ParticipantState(true, false) else StateOf(w.presence, r, u)
    {
      DeleteRoomIsExact(w.presence, room, r, u);
    }
  }

  /// Coming and going

  // A member comes back whatever the code; a newcomer needs an open room or its code.
  lemma JoiningIsExact(w: World, room: RoomId, user: UserId, code: string, id: Uint, now: Stamp)
    ensures var out, k := Perform(w, AddRoomUser(room, user, code, id, now)), Key(room, user);
            && (out.result.Ok? <==> IsMember(w, room, user) || (k !in w.rows && Admits(w, room, code)))
            && (out.result == Err(UserBlocked) <==> IsBlockedIn(w, room, user))
            && (out.result == Err(RecordNotFound) <==> k !in w.rows && room !in w.rooms)
            && (out.result == Err(Forbidden) <==> k !in w.rows && room in w.rooms && !Admits(w, room, code))
            && (out.result.Ok? ==>
                  && OnlyRowOf(w, out.world, room, user) && out.world.presence == w.presence
                  && IsMember(out.world, room, user) && out.result.value == Some(out.world.rows[k])
                  && var ru := out.world.rows[k];
                     && ru.isOnline && ru.lastJoinedAt == now
                     && if k in w.rows
                        then ru == w.rows[k].(isOnline := ru.isOnline, lastJoinedAt := ru.lastJoinedAt)
                        else ru.role == Listener && ru.id == id && ru.userId == user && ru.roomId == room
                             && ru.lastLeftAt == now && ru.blockedBy.None?)
            && (out.result.Err? ==> out.world == w) && !out.revoked
  {
  }

  lemma LeavingIsExact(w: World, room: RoomId, user: UserId, now: Stamp)
    ensures var out, k := Perform(w, RemoveUser(room, user, now)), Key(room, user);
            && (out.result.Ok? <==> IsMember(w, room, user))
            && (out.result.Err? ==> out.result == Err(RecordNotFound) && out.world == w)
            && (out.result.Ok? ==>
                  && OnlyRowOf(w, out.world, room, user) && OnlyPresenceOf(w, out.world, room, user)
                  && StateOf(out.world.presence, room, user) == ParticipantState(true, false)
                  && k in w.rows && IsMember(out.world, room, user) && out.result.value == Some(out.world.rows[k])
                  && var ru := out.world.rows[k];
                     && !ru.isOnline && ru.lastLeftAt == now
                     && ru == w.rows[k].(isOnline := ru.isOnline, lastLeftAt := ru.lastLeftAt))
            && !out.revoked
  {
    PresenceIsGone(w.presence, room, user);
  }

  lemma PresenceIsGone(db: Redis, room: RoomId, user: UserId)
    ensures forall r: RoomId, u: UserId :: StateOf(AfterDeleteParticipant(db, room, user), r, u)
              == if r == room && u == user then ParticipantState(true, false) else StateOf(db, r, u)
  {
    forall r: RoomId, u: UserId
      ensures StateOf(AfterDeleteParticipant(db, room, user), r, u)
              == if r == room && u == user then ParticipantState(true, false) else StateOf(db, r, u)
    {
      DeleteParticipantChangesOnly(db, room, user, r, u);
    }
  }

  // One may remove oneself, unless one owns the room; others need the right to moderate. A blocked
  // user cannot be removed, which would lift the block.
  lemma RemovingIsExact(w: World, room: RoomId, user: UserId, actor: UserId)
    ensures var out := Perform(w, DeleteUser(room, user, actor));
            && (out.result.Ok? <==>
                  if actor == user then IsMember(w, room, user) && !Holds(w, room, user, {Owner})
                  else ActsOn(w, room, actor, user) && !IsBlockedIn(w, room, user))
            && (out.result == Err(UserBlocked) <==>
                  actor != user && ActsOn(w, room, actor, user) && IsBlockedIn(w, room, user))
            && (out.result == Err(RecordNotFound) <==>
                  actor != user && IsMember(w, room, actor) && !HasRow(w, room, user))
            && (out.result.Ok? ==>
                  && OnlyRowOf(w, out.world, room, user) && !HasRow(out.world, room, user)
                  && OnlyPresenceOf(w, out.world, room, user)
                  && StateOf(out.world.presence, room, user) == ParticipantState(true, false)
                  && HasRow(w, room, user) && out.result.value == Some(w.rows[Key(room, user)]))
            && (out.result.Err? ==> out.world == w) && !out.revoked
  {
    ModerationIsExact(w, room, actor, user);
    PresenceIsGone(w.presence, room, user);
  }

  /// Moderation

  lemma BlockingIsExact(w: World, room: RoomId, user: UserId, actor: UserId, now: Stamp)
    ensures var out, k := Perform(w, Block(room, user, actor, now)), Key(room, user);
            && (out.result.Ok? <==> actor != user && ActsOn(w, room, actor, user))
            && (out.result.Err? ==>
                  out.world == w && (if actor == user then out.result.error == Forbidden
                                     else RefusesAs(w, room, actor, user, out.result.error)))
            && (out.revoked <==> out.result.Ok?)
            && (out.result.Ok? ==>
                  && OnlyRowOf(w, out.world, room, user) && out.world.presence == w.presence
                  && IsBlockedIn(out.world, room, user) && k in w.rows
                  && var ru := out.world.rows[k];
                     && ru.blockedBy == Some(actor) && ru.role == Listener && !ru.isOnline && ru.lastLeftAt == now
                     && ru.id == w.rows[k].id && ru.lastJoinedAt == w.rows[k].lastJoinedAt
                     && ru.userId == w.rows[k].userId && ru.roomId == w.rows[k].roomId)
  {
    ModerationIsExact(w, room, actor, user);
  }

  lemma UnblockingIsExact(w: World, room: RoomId, user: UserId, actor: UserId)
    ensures var out, k := Perform(w, Unblock(room, user, actor)), Key(room, user);
            && (out.result.Ok? <==> ActsOn(w, room, actor, user) && IsBlockedIn(w, room, user))
            && (out.result.Err? ==>
                  && out.world == w
                  && if ActsOn(w, room, actor, user) then out.result.error == RecordNotFound
                     else RefusesAs(w, room, actor, user, out.result.error))
            && (out.result.Ok? ==>
                  && OnlyRowOf(w, out.world, room, user) && out.world.presence == w.presence
                  && IsMember(out.world, room, user) && k in w.rows
                  && var ru := out.world.rows[k];
                     ru.blockedBy.None? && w.rows[k] == ru.(isBlocked := true, blockedBy := w.rows[k].blockedBy))
            && !out.revoked
  {
    ModerationIsExact(w, room, actor, user);
  }

  // Whoever may assign the role may assign it to anybody, present or not.
  lemma RoleChangeIsExact(w: World, room: RoomId, user: UserId, name: RoleName, actor: UserId)
    ensures var out, k := Perform(w, UpdateRole(room, user, name, actor)), Key(room, user);
            && (out.result == Err(Forbidden) <==> !MayAssign(w, room, actor, name))
            && (out.result.Ok? <==> MayAssign(w, room, actor, name) && IsMember(w, room, user))
            && (out.result == Err(Forbidden) ==> out.world == w)
            && (out.revoked <==> MayAssign(w, room, actor, name) && name == Known(Listener))
            && (MayAssign(w, room, actor, name) ==>
                  && OnlyRowOf(w, out.world, room, user) && OnlyPresenceOf(w, out.world, room, user)
                  && (k in out.world.rows <==> k in w.rows)
                  && (k in w.rows ==> out.world.rows[k].role == name.role
                                      && out.world.rows[k].(role := w.rows[k].role) == w.rows[k])
                  && (StateOf(out.world.presence, room, user).isMuted <==>
                        name == Known(Listener) || StateOf(w.presence, room, user).isMuted)
                  && (out.result.Ok? ==> k in out.world.rows && out.result.value == Some(out.world.rows[k])))
  {
    forall r: RoomId, u: UserId
      ensures StateOf(AfterSetMuted(w.presence, room, user, true), r, u)
              == if r == room && u == user then StateOf(w.presence, r, u).(isMuted := true)
                 else StateOf(w.presence, r, u)
    {
      SetMutedChangesOnly(w.presence, room, user, true, r, u);
    }
  }

  /// Presence

  // Everybody mutes and unmutes themselves; a manager mutes those they may act on, and unmutes nobody.
  lemma MutingIsExact(w: World, room: RoomId, user: UserId, actor: UserId, isMuted: bool)
    ensures var out := Perform(w, SetMuted(room, user, actor, isMuted));
            && (out.result.Ok? <==>
                  if actor == user then IsMember(w, room, user) else isMuted && ActsOn(w, room, actor, user))
            && (out.result == Err(UserBlocked) <==> actor == user && IsBlockedIn(w, room, user))
            && (out.result == Err(RecordNotFound) <==>
                  actor != user && isMuted && IsMember(w, room, actor) && !HasRow(w, room, user))
            && (out.result.Ok? ==>
                  && out.result.value.None? && OnlyPresenceOf(w, out.world, room, user)
                  && StateOf(out.world.presence, room, user)
                     == ParticipantState(isMuted, StateOf(w.presence, room, user).isHandRaised)
                  && out.world == w.(presence := out.world.presence))
            && (out.result.Err? ==> out.world == w) && !out.revoked
  {
    ModerationIsExact(w, room, actor, user);
    forall r: RoomId, u: UserId
      ensures StateOf(AfterSetMuted(w.presence, room, user, isMuted), r, u)
              == if r == room && u == user then StateOf(w.presence, r, u).(isMuted := isMuted)
                 else StateOf(w.presence, r, u)
    {
      SetMutedChangesOnly(w.presence, room, user, isMuted, r, u);
    }
  }

  // Only members raise and lower their hands, which are then listed from the time of the call on.
  lemma RaisingIsExact(w: World, room: RoomId, user: UserId, isHandRaised: bool, at: int)
    ensures var out := Perform(w, SetHandRaised(room, user, isHandRaised, at));
            && (out.result.Ok? <==> IsMember(w, room, user))
            && (out.result == Err(UserBlocked) <==> IsBlockedIn(w, room, user))
            && (out.result == Err(Forbidden) <==> !HasRow(w, room, user))
            && (out.result.Ok? ==>
                  && out.result.value.None? && OnlyPresenceOf(w, out.world, room, user)
                  && StateOf(out.world.presence, room, user)
                     == ParticipantState(StateOf(w.presence, room, user).isMuted, isHandRaised)
                  && out.world == w.(presence := Apply(w.presence, Hand(room, user, isHandRaised, at))))
            && (out.result.Err? ==> out.world == w) && !out.revoked
  {
    forall r: RoomId, u: UserId
      ensures StateOf(AfterSetHandRaised(w.presence, room, user, isHandRaised, at), r, u)
              == if r == room && u == user then StateOf(w.presence, r, u).(isHandRaised := isHandRaised)
                 else StateOf(w.presence, r, u)
    {
      SetHandRaisedChangesOnly(w.presence, room, user, isHandRaised, at, r, u);
    }
  }

  /// Counts

  // Who the three numbers of a room count: unblocked members; of those the listeners who are online;
  // and all others who are.
  lemma CountsAreExact(rows: Rows, room: RoomId)
    ensures var c := CountsOf(rows, room);
            && c.total == |set k | k in rows && k.room == room && !rows[k].isBlocked|
            && c.listeners == |set k | k in rows && k.room == room && !rows[k].isBlocked && rows[k].isOnline
                                       && rows[k].role == Listener|
            && c.speakers == |set k | k in rows && k.room == room && !rows[k].isBlocked && rows[k].isOnline
                                      && rows[k].role != Listener|
  {
    forall r: Role ensures r in ALL_ROLES && (r in SPEAKING_ROLES <==> r != Listener) {
      match r { case Owner => case Admin => case Moderator => case Speaker => case Listener => }
    }
    assert Counted(rows, room, false, ALL_ROLES) == set k | k in rows && k.room == room && !rows[k].isBlocked;
    assert Counted(rows, room, true, {Listener})
           == set k | k in rows && k.room == room && !rows[k].isBlocked && rows[k].isOnline && rows[k].role == Listener;
    assert Counted(rows, room, true, SPEAKING_ROLES)
           == set k | k in rows && k.room == room && !rows[k].isBlocked && rows[k].isOnline && rows[k].role != Listener;
  }

  /// Codes

  ghost predicate PrivateRoomsHaveCodes(w: World) {
    forall r :: r in w.rooms && w.rooms[r].isPrivate ==> w.rooms[r].code.Some?
  }

  lemma CallKeepsCodes(w: World, c: Call)
    requires PrivateRoomsHaveCodes(w)
    ensures PrivateRoomsHaveCodes(Perform(w, c).world)
  {
  }

  // In every run a private room has a code, so that joining never looks for a missing one.
  lemma {:induction false} CodesAreThere(worlds: seq<World>, calls: seq<Call>)
    requires MembershipLaws.IsRun(worlds, calls) && worlds[0] == MembershipLaws.EMPTY
    ensures PrivateRoomsHaveCodes(worlds[|calls|])
    decreases |calls|
  {
    if calls == [] {
    } else {
      var n := |calls| - 1;
      MembershipLaws.RunPrefix(worlds, calls, n);
      CodesAreThere(worlds[..n + 1], calls[..n]);
      assert MembershipLaws.IsStep(worlds, calls, n);
      CallKeepsCodes(worlds[n], calls[n]);
    }
  }
}
