/** The membership services: calls that check, write rows and presence step by step. */
module MembershipService {
  import opened Wrappers
  import opened Decimal
  import opened Cursor
  import opened Roles
  import opened RoomUsers
  import opened Presence
  import opened Membership

  // The room_users table.
  class RoomUserRepo {
    var rows: Rows

    constructor ()
      ensures rows == map[]
    {
      rows := map[];
    }

    method Create(user: UserId, room: RoomId, role: Role, id: Uint, now: Stamp)
      modifies this
      ensures rows == Enrolled(old(rows), room, user, role, id, now)
    {
      if Key(room, user) !in rows {
        rows := rows[Key(room, user) := RoomUser(id, user, room, role, now, now, true, false, None)];
      }
    }

    method UpdateActivity(k: Key, joins: bool, now: Stamp)
      requires k in rows
      modifies this
      ensures rows == if joins then Joined(old(rows), k, now) else Departed(old(rows), k, now)
    {
      if joins {
        rows := rows[k := rows[k].(lastJoinedAt := now, isOnline := true)];
      } else {
        rows := rows[k := rows[k].(lastLeftAt := now, isOnline := false)];
      }
    }

    method UpdateRole(room: RoomId, user: UserId, role: Role)
      modifies this
      ensures rows == WithRole(old(rows), Key(room, user), role)
    {
      var k := Key(room, user);
      if k in rows {
        rows := rows[k := rows[k].(role := role)];
      }
    }

    method Block(room: RoomId, user: UserId, blockedBy: UserId, now: Stamp)
      modifies this
      ensures rows == Blocked(old(rows), Key(room, user), blockedBy, now)
    {
      var k := Key(room, user);
      if k in rows {
        rows := rows[k := rows[k].(isBlocked := true, blockedBy := Some(blockedBy), lastLeftAt := now,
                                   isOnline := false, role := Listener)];
      }
    }

    method Unblock(room: RoomId, user: UserId)
      modifies this
      ensures rows == Unblocked(old(rows), Key(room, user))
    {
      var k := Key(room, user);
      if k in rows {
        rows := rows[k := rows[k].(isBlocked := false, blockedBy := None)];
      }
    }

    method Delete(room: RoomId, user: UserId)
      modifies this
      ensures rows == old(rows) - {Key(room, user)}
    {
      rows := rows - {Key(room, user)};
    }

    // The foreign key's cascade.
    method DeleteRoom(room: RoomId)
      modifies this
      ensures rows == map k | k in old(rows) && k.room != room :: old(rows)[k]
    {
      rows := map k | k in rows && k.room != room :: rows[k];
    }
  }

  // A row with the presence flags a response carries.
  datatype WithState = WithState(row: RoomUser, state: ParticipantState)

  class RoomUserService {
    const repo: RoomUserRepo
    const presence: RedisRepo

    // The calls made to the media router: whose publishing was revoked.
    var revocations: seq<Key>

    constructor (repo: RoomUserRepo, presence: RedisRepo)
      ensures this.repo == repo && this.presence == presence && revocations == []
    {
      this.repo := repo;
      this.presence := presence;
      revocations := [];
    }

    // Rooms belong to the room service; no call here looks at them.
    ghost function State(): World
      reads repo, presence
    {
      World(map[], repo.rows, presence.db)
    }

    method Block(room: RoomId, user: UserId, actor: UserId, now: Stamp) returns (r: Result<Option<RoomUser>>)
      modifies this, repo
      ensures var out := BlockCall(old(State()), room, user, actor, now);
              && State() == out.world && r == out.result
              && revocations == old(revocations) + if out.revoked then [Key(room, user)] else []
    {
      var allowed := CanBlock(repo.rows, room, actor, user);
      if allowed.Err? {
        return Err(allowed.error);
      }
      repo.Block(room, user, actor, now);
      revocations := revocations + [Key(room, user)];
      return Ok(Some(allowed.value));
    }

    method Unblock(room: RoomId, user: UserId, actor: UserId) returns (r: Result<Option<RoomUser>>)
      modifies repo
      ensures var out := UnblockCall(old(State()), room, user, actor);
              State() == out.world && r == out.result && !out.revoked
    {
      var allowed := CanUnblock(repo.rows, room, actor, user);
      if allowed.Err? {
        return Err(allowed.error);
      }
      repo.Unblock(room, user);
      return Ok(None);
    }

    method UpdateRole(room: RoomId, user: UserId, name: RoleName, actor: UserId) returns (r: Result<Option<RoomUser>>)
      modifies this, repo, presence
      ensures var out := UpdateRoleCall(old(State()), room, user, name, actor);
              && State() == out.world && r == out.result
              && revocations == old(revocations) + if out.revoked then [Key(room, user)] else []
    {
      if !CanUpdateRole(repo.rows, room, actor, name) {
        return Err(Forbidden);
      }
      if name.role == Listener {
        var _ := presence.SetMuted(room, user, true);
      }
      repo.UpdateRole(room, user, name.role);
      if name.role == Listener {
        revocations := revocations + [Key(room, user)];
      }
      var ru := FindBy(repo.rows, user, room);
      return if ru.None? then Err(RecordNotFound) else Ok(ru);
    }

    method RemoveUser(user: UserId, room: RoomId, now: Stamp) returns (r: Result<Option<RoomUser>>)
      modifies repo, presence
      ensures var out := RemoveUserCall(old(State()), room, user, now);
              State() == out.world && r == out.result && !out.revoked
    {
      var ru := FindBy(repo.rows, user, room);
      if ru.None? {
        return Err(RecordNotFound);
      }
      repo.UpdateActivity(Key(room, user), false, now);
      presence.DeleteParticipantState(room, user);
      return Ok(Some(repo.rows[Key(room, user)]));
    }

    method DeleteUser(room: RoomId, user: UserId, actor: UserId) returns (r: Result<Option<RoomUser>>)
      modifies repo, presence
      ensures var out := DeleteUserCall(old(State()), room, user, actor);
              State() == out.world && r == out.result && !out.revoked
    {
      var allowed := CanDeleteUser(repo.rows, room, user, actor);
      if allowed.Err? {
        return Err(allowed.error);
      }
      repo.Delete(room, user);
      presence.DeleteParticipantState(room, user);
      return Ok(Some(allowed.value));
    }

    method SetMuted(room: RoomId, user: UserId, actor: UserId, isMuted: bool) returns (r: Result<Option<RoomUser>>)
      modifies presence
      ensures var out := SetMutedCall(old(State()), room, user, actor, isMuted);
              State() == out.world && r == out.result && !out.revoked
    {
      var allowed := CanSetMuted(repo.rows, room, actor, user, isMuted);
      if allowed.Err? {
        return Err(allowed.error);
      }
      var _ := presence.SetMuted(room, user, isMuted);
      return Ok(None);
    }

    method SetHandRaised(room: RoomId, user: UserId, isHandRaised: bool, at: int) returns (r: Result<Option<RoomUser>>)
      modifies presence
      ensures var out := SetHandRaisedCall(old(State()), room, user, isHandRaised, at);
              State() == out.world && r == out.result && !out.revoked
    {
      var allowed := CanSetOwnState(repo.rows, room, user);
      if allowed.Err? {
        return Err(allowed.error);
      }
      var ru := FindBy(repo.rows, user, room);
      if ru.None? {
        return Err(RecordNotFound);
      }
      var _ := presence.SetHandRaised(room, user, isHandRaised, at);
      return Ok(None);
    }

    method CountsByRoomID(room: RoomId) returns (counts: Counts)
      ensures counts == CountsOf(repo.rows, room)
    {
      var total := Count(repo.rows, room, false, ALL_ROLES);
      var listeners := Count(repo.rows, room, true, {Listener});
      var speakers := Count(repo.rows, room, true, SPEAKING_ROLES);
      counts := Counts(total, listeners, speakers);
    }

    // Fill in the presence flags of a list of rows.
    method AttachStates(room: RoomId, users: array<WithState>)
      modifies users
      ensures forall i :: 0 <= i < users.Length ==>
                users[i] == WithState(old(users[i]).row, StateOf(presence.db, room, old(users[i]).row.userId))
    {
      if users.Length == 0 {
        return;
      }
      var userIds := seq(users.Length, i requires 0 <= i < users.Length reads users => users[i].row.userId);
      var states := presence.GetParticipantStates(room, userIds);
      for i := 0 to users.Length
        invariant forall j :: 0 <= j < i ==>
                    users[j] == WithState(old(users[j]).row, StateOf(presence.db, room, old(users[j]).row.userId))
        invariant forall j :: i <= j < users.Length ==> users[j] == old(users[j])
      {
        assert userIds[i] in userIds;
        users[i] := users[i].(state := states[users[i].row.userId]);
      }
    }
  }

  class RoomService {
    const roomUsers: RoomUserService
    var rooms: map<RoomId, Room>

    constructor (roomUsers: RoomUserService)
      ensures this.roomUsers == roomUsers && rooms == map[]
    {
      this.roomUsers := roomUsers;
      rooms := map[];
    }

    ghost function State(): World
      reads this, roomUsers.repo, roomUsers.presence
    {
      World(rooms, roomUsers.repo.rows, roomUsers.presence.db)
    }

    // `room` and `id` are the primary keys of the new room and of its owner's row.
    // A private room gets the generated `code`.
    method Create(room: RoomId, creator: UserId, isPrivate: bool, code: string, id: Uint, now: Stamp)
      requires room !in rooms
      modifies this, roomUsers.repo
      ensures State() == CreateRoomCall(old(State()), room, creator, isPrivate, code, id, now).world
    {
      rooms := rooms[room := Room(creator, isPrivate, if isPrivate then Some(code) else None)];
      roomUsers.repo.Create(creator, room, Owner, id, now);
    }

    method Update(room: RoomId, actor: UserId, isPrivate: bool, code: string) returns (r: Result<Option<RoomUser>>)
      modifies this
      ensures var out := UpdateRoomCall(old(State()), room, actor, isPrivate, code);
              State() == out.world && r == out.result
    {
      if !HasRoles(roomUsers.repo.rows, actor, room, {Owner, Admin}) {
        return Err(Forbidden);
      }
      if room !in rooms {
        return Err(RecordNotFound);
      }
      var newCode := None;
      if isPrivate {
        newCode := if rooms[room].code.Some? then rooms[room].code else Some(code);
      }
      rooms := rooms[room := rooms[room].(isPrivate := isPrivate, code := newCode)];
      return Ok(None);
    }

    method UpdatePrivateCode(room: RoomId, actor: UserId, code: string) returns (r: Result<Option<RoomUser>>)
      modifies this
      ensures var out := RenewCodeCall(old(State()), room, actor, code);
              State() == out.world && r == out.result
    {
      if !HasRoles(roomUsers.repo.rows, actor, room, {Owner, Admin}) {
        return Err(Forbidden);
      }
      if room !in rooms {
        return Err(RecordNotFound);
      }
      rooms := rooms[room := rooms[room].(code := Some(code))];
      return Ok(None);
    }

    // `batches` are the replies of the SCAN loop over the room's presence keys.
    method Delete(room: RoomId, actor: UserId, batches: seq<seq<string>>) returns (r: Result<Option<RoomUser>>)
      requires ScanReturns(roomUsers.presence.db, RoomPattern(room), batches)
      modifies this, roomUsers.repo, roomUsers.presence
      ensures var out := DeleteRoomCall(old(State()), room, actor);
              State() == out.world && r == out.result
    {
      if room !in rooms {
        return Err(RecordNotFound);
      }
      if !HasRoles(roomUsers.repo.rows, actor, room, {Owner}) {
        return Err(Forbidden);
      }
      rooms := rooms - {room};
      roomUsers.repo.DeleteRoom(room);
      roomUsers.presence.DeleteRoomState(room, batches);
      return Ok(None);
    }

    method AddRoomUser(room: RoomId, user: UserId, code: string, id: Uint, now: Stamp)
      returns (r: Result<Option<RoomUser>>)
      modifies roomUsers.repo
      ensures var out := AddRoomUserCall(old(State()), room, user, code, id, now);
              State() == out.world && r == out.result
    {
      var repo := roomUsers.repo;
      var k := Key(room, user);
      if IsBlocked(repo.rows, room, user) {
        return Err(UserBlocked);
      }
      var ru := FindBy(repo.rows, user, room);
      if ru.Some? {
        repo.UpdateActivity(k, true, now);
        return Ok(Some(repo.rows[k]));
      }
      if room !in rooms {
        return Err(RecordNotFound);
      }
      if rooms[room].isPrivate && rooms[room].code != Some(code) {
        return Err(Forbidden);
      }
      repo.Create(user, room, Listener, id, now);
      return Ok(Some(repo.rows[k]));
    }
  }
}
