/** Membership of rooms: the rows, who may change them, and what each service call does. */
module Membership {
  import opened Wrappers
  import opened Decimal
  import opened Cursor
  import opened Roles
  import opened RoomUsers
  import opened Presence

  datatype Error = Forbidden | UserBlocked | RecordNotFound

  datatype Result<+T> = Ok(value: T) | Err(error: Error)

  // The code outlives a change of type only while the room stays private.
  datatype Room = Room(creator: UserId, isPrivate: bool, code: Option<string>)

  datatype Key = Key(room: RoomId, user: UserId)

  type Rows = map<Key, RoomUser>

  datatype World = World(rooms: map<RoomId, Room>, rows: Rows, presence: Redis)

  /// Queries

  // The unblocked row, if any.
  function FindBy(rows: Rows, user: UserId, room: RoomId): Option<RoomUser> {
    var k := Key(room, user);
    if k in rows && !rows[k].isBlocked then Some(rows[k]) else None
  }

  function FindAnyBy(rows: Rows, user: UserId, room: RoomId): Option<RoomUser> {
    var k := Key(room, user);
    if k in rows then Some(rows[k]) else None
  }

  predicate HasRoles(rows: Rows, user: UserId, room: RoomId, roles: set<Role>) {
    var ru := FindBy(rows, user, room);
    ru.Some? && ru.value.role in roles
  }

  predicate IsBlocked(rows: Rows, room: RoomId, user: UserId) {
    var ru := FindAnyBy(rows, user, room);
    ru.Some? && ru.value.isBlocked
  }

  // Who a count takes in: rows of the room that are not blocked, by online flag and role.
  function Counted(rows: Rows, room: RoomId, onlineOnly: bool, roles: set<Role>): set<Key> {
    set k | k in rows && k.room == room && !rows[k].isBlocked
            && (onlineOnly ==> rows[k].isOnline) && rows[k].role in roles
  }

  function Count(rows: Rows, room: RoomId, onlineOnly: bool, roles: set<Role>): nat {
    |Counted(rows, room, onlineOnly, roles)|
  }

  const ALL_ROLES: set<Role> := {Owner, Admin, Moderator, Speaker, Listener}
  const SPEAKING_ROLES: set<Role> := {Owner, Admin, Moderator, Speaker}

  datatype Counts = Counts(total: nat, listeners: nat, speakers: nat)

  function CountsOf(rows: Rows, room: RoomId): Counts {
    Counts(Count(rows, room, false, ALL_ROLES),
           Count(rows, room, true, {Listener}),
           Count(rows, room, true, SPEAKING_ROLES))
  }

  /// Authorization

  function CanModerate(rows: Rows, room: RoomId, actor: UserId, target: UserId): Result<RoomUser> {
    var a, t := FindBy(rows, actor, room), FindAnyBy(rows, target, room);
    if a.None? then Err(Forbidden)
    else if t.None? then Err(RecordNotFound)
    else if !Roles.CanModerate(a.value.role, t.value.role) then Err(Forbidden)
    else Ok(t.value)
  }

  function CanBlock(rows: Rows, room: RoomId, actor: UserId, target: UserId): Result<RoomUser> {
    if target == actor then Err(Forbidden) else CanModerate(rows, room, actor, target)
  }

  function CanUnblock(rows: Rows, room: RoomId, actor: UserId, target: UserId): Result<RoomUser> {
    var r := CanModerate(rows, room, actor, target);
    if r.Ok? && !r.value.isBlocked then Err(RecordNotFound) else r
  }

  function CanDeleteUser(rows: Rows, room: RoomId, target: UserId, actor: UserId): Result<RoomUser> {
    if actor == target then
      var a := FindBy(rows, actor, room);
      if a.None? || a.value.IsOwner() then Err(Forbidden) else Ok(a.value)
    else
      var r := CanModerate(rows, room, actor, target);
      if r.Ok? && r.value.isBlocked then Err(UserBlocked) else r
  }

  predicate CanUpdateRole(rows: Rows, room: RoomId, actor: UserId, name: RoleName) {
    HasRoles(rows, actor, room, AssignmentPermissions(name))
  }

  // For raising a hand, and for muting or unmuting oneself.
  function CanSetOwnState(rows: Rows, room: RoomId, user: UserId): Result<()> {
    var ru := FindAnyBy(rows, user, room);
    if ru.None? then Err(Forbidden) else if ru.value.isBlocked then Err(UserBlocked) else Ok(())
  }

  function CanSetMuted(rows: Rows, room: RoomId, actor: UserId, target: UserId, isMuted: bool): Result<()> {
    if actor == target then CanSetOwnState(rows, room, actor)
    else if !isMuted then Err(Forbidden)
    else
      var r := CanModerate(rows, room, actor, target);
      if r.Err? then Err(r.error) else Ok(())
  }

  /// Row updates

  // `id` is the primary key the database hands out; an existing row is left alone.
  function Enrolled(rows: Rows, room: RoomId, user: UserId, role: Role, id: Uint, now: Stamp): Rows {
    var k := Key(room, user);
    if k in rows then rows
    else rows[k := RoomUser(id, user, room, role, now, now, true, false, None)]
  }

  function Joined(rows: Rows, k: Key, now: Stamp): Rows
    requires k in rows
  {
    rows[k := rows[k].(lastJoinedAt := now, isOnline := true)]
  }

  function Departed(rows: Rows, k: Key, now: Stamp): Rows
    requires k in rows
  {
    rows[k := rows[k].(lastLeftAt := now, isOnline := false)]
  }

  // UPDATE statements touch nothing when there is no such row.
  function WithRole(rows: Rows, k: Key, role: Role): Rows {
    if k in rows then rows[k := rows[k].(role := role)] else rows
  }

  function Blocked(rows: Rows, k: Key, actor: UserId, now: Stamp): Rows {
    if k in rows then
      rows[k := rows[k].(isBlocked := true, blockedBy := Some(actor), lastLeftAt := now, isOnline := false,
                         role := Listener)]
    else rows
  }

  function Unblocked(rows: Rows, k: Key): Rows {
    if k in rows then rows[k := rows[k].(isBlocked := false, blockedBy := None)] else rows
  }

  /// Service calls

  // `code` is a freshly generated one, except for AddRoomUser, where it is what the user knows.
  datatype Call =
    | CreateRoom(room: RoomId, creator: UserId, isPrivate: bool, code: string, id: Uint, now: Stamp)
    | UpdateRoom(room: RoomId, actor: UserId, isPrivate: bool, code: string)
    | RenewCode(room: RoomId, actor: UserId, code: string)
    | DeleteRoom(room: RoomId, actor: UserId)
    | AddRoomUser(room: RoomId, user: UserId, code: string, id: Uint, now: Stamp)
    | RemoveUser(room: RoomId, user: UserId, now: Stamp)
    | DeleteUser(room: RoomId, user: UserId, actor: UserId)
    | Block(room: RoomId, user: UserId, actor: UserId, now: Stamp)
    | Unblock(room: RoomId, user: UserId, actor: UserId)
    | UpdateRole(room: RoomId, user: UserId, name: RoleName, actor: UserId)
    | SetMuted(room: RoomId, user: UserId, actor: UserId, isMuted: bool)
    | SetHandRaised(room: RoomId, user: UserId, isHandRaised: bool, at: int)

  // What a call leaves behind, what it returns, and whether it told the media router
  // to stop the user's publishing.
  datatype Outcome = Outcome(world: World, result: Result<Option<RoomUser>>, revoked: bool)

  function Refused(w: World, e: Error): Outcome { Outcome(w, Err(e), false) }

  function CreateRoomCall(w: World, room: RoomId, creator: UserId, isPrivate: bool, code: string, id: Uint,
                          now: Stamp): Outcome {
    var rows := Enrolled(w.rows, room, creator, Owner, id, now);
    var made := Room(creator, isPrivate, if isPrivate then Some(code) else None);
    Outcome(w.(rooms := w.rooms[room := made], rows := rows), Ok(None), false)
  }

  // A room that stays private keeps its code.
  function Retyped(r: Room, isPrivate: bool, code: string): Room {
    r.(isPrivate := isPrivate, code := if !isPrivate then None else if r.code.Some? then r.code else Some(code))
  }

  function UpdateRoomCall(w: World, room: RoomId, actor: UserId, isPrivate: bool, code: string): Outcome {
    if !HasRoles(w.rows, actor, room, {Owner, Admin}) then Refused(w, Forbidden)
    else if room !in w.rooms then Refused(w, RecordNotFound)
    else Outcome(w.(rooms := w.rooms[room := Retyped(w.rooms[room], isPrivate, code)]), Ok(None), false)
  }

  // Sets a code for a public room as well, where nobody asks for it.
  function RenewCodeCall(w: World, room: RoomId, actor: UserId, code: string): Outcome {
    if !HasRoles(w.rows, actor, room, {Owner, Admin}) then Refused(w, Forbidden)
    else if room !in w.rooms then Refused(w, RecordNotFound)
    else Outcome(w.(rooms := w.rooms[room := w.rooms[room].(code := Some(code))]), Ok(None), false)
  }

  // The membership rows go with the room.
  ghost function DeleteRoomCall(w: World, room: RoomId, actor: UserId): Outcome {
    if room !in w.rooms then Refused(w, RecordNotFound)
    else if !HasRoles(w.rows, actor, room, {Owner}) then Refused(w, Forbidden)
    else
      var rows := map k | k in w.rows && k.room != room :: w.rows[k];
      Outcome(World(w.rooms - {room}, rows, AfterDeleteRoom(w.presence, room)), Ok(None), false)
  }

  function AddRoomUserCall(w: World, room: RoomId, user: UserId, code: string, id: Uint, now: Stamp): Outcome {
    var k := Key(room, user);
    if IsBlocked(w.rows, room, user) then Refused(w, UserBlocked)
    else if k in w.rows then
      Outcome(w.(rows := Joined(w.rows, k, now)), Ok(Some(Joined(w.rows, k, now)[k])), false)
    else if room !in w.rooms then Refused(w, RecordNotFound)
    else if w.rooms[room].isPrivate && w.rooms[room].code != Some(code) then Refused(w, Forbidden)
    else
      var rows := Enrolled(w.rows, room, user, Listener, id, now);
      Outcome(w.(rows := rows), Ok(Some(rows[k])), false)
  }

  function RemoveUserCall(w: World, room: RoomId, user: UserId, now: Stamp): Outcome {
    var k := Key(room, user);
    if FindBy(w.rows, user, room).None? then Refused(w, RecordNotFound)
    else
      var rows := Departed(w.rows, k, now);
      Outcome(World(w.rooms, rows, AfterDeleteParticipant(w.presence, room, user)), Ok(Some(rows[k])), false)
  }

  function DeleteUserCall(w: World, room: RoomId, user: UserId, actor: UserId): Outcome {
    var allowed := CanDeleteUser(w.rows, room, user, actor);
    if allowed.Err? then Refused(w, allowed.error)
    else Outcome(World(w.rooms, w.rows - {Key(room, user)}, AfterDeleteParticipant(w.presence, room, user)),
                 Ok(Some(allowed.value)), false)
  }

  function BlockCall(w: World, room: RoomId, user: UserId, actor: UserId, now: Stamp): Outcome {
    var allowed := CanBlock(w.rows, room, actor, user);
    if allowed.Err? then Refused(w, allowed.error)
    else Outcome(w.(rows := Blocked(w.rows, Key(room, user), actor, now)), Ok(Some(allowed.value)), true)
  }

  function UnblockCall(w: World, room: RoomId, user: UserId, actor: UserId): Outcome {
    var allowed := CanUnblock(w.rows, room, actor, user);
    if allowed.Err? then Refused(w, allowed.error)
    else Outcome(w.(rows := Unblocked(w.rows, Key(room, user))), Ok(None), false)
  }

  // The row is written before it is looked up again, so the call can fail having written it.
  function UpdateRoleCall(w: World, room: RoomId, user: UserId, name: RoleName, actor: UserId): Outcome {
    if !CanUpdateRole(w.rows, room, actor, name) then Refused(w, Forbidden)
    else
      var demoted := name.role == Listener;
      var presence := if demoted then AfterSetMuted(w.presence, room, user, true) else w.presence;
      var rows := WithRole(w.rows, Key(room, user), name.role);
      var found := FindBy(rows, user, room);
      Outcome(World(w.rooms, rows, presence), if found.None? then Err(RecordNotFound) else Ok(found), demoted)
  }

  function SetMutedCall(w: World, room: RoomId, user: UserId, actor: UserId, isMuted: bool): Outcome {
    var allowed := CanSetMuted(w.rows, room, actor, user, isMuted);
    if allowed.Err? then Refused(w, allowed.error)
    else Outcome(w.(presence := AfterSetMuted(w.presence, room, user, isMuted)), Ok(None), false)
  }

  function SetHandRaisedCall(w: World, room: RoomId, user: UserId, isHandRaised: bool, at: int): Outcome {
    var allowed := CanSetOwnState(w.rows, room, user);
    if allowed.Err? then Refused(w, allowed.error)
    else if FindBy(w.rows, user, room).None? then Refused(w, RecordNotFound)
    else Outcome(w.(presence := AfterSetHandRaised(w.presence, room, user, isHandRaised, at)), Ok(None), false)
  }

  ghost function Perform(w: World, c: Call): Outcome {
    match c
    case CreateRoom(room, creator, isPrivate, code, id, now) =>
      CreateRoomCall(w, room, creator, isPrivate, code, id, now)
    case UpdateRoom(room, actor, isPrivate, code) => UpdateRoomCall(w, room, actor, isPrivate, code)
    case RenewCode(room, actor, code) => RenewCodeCall(w, room, actor, code)
    case DeleteRoom(room, actor) => DeleteRoomCall(w, room, actor)
    case AddRoomUser(room, user, code, id, now) => AddRoomUserCall(w, room, user, code, id, now)
    case RemoveUser(room, user, now) => RemoveUserCall(w, room, user, now)
    case DeleteUser(room, user, actor) => DeleteUserCall(w, room, user, actor)
    case Block(room, user, actor, now) => BlockCall(w, room, user, actor, now)
    case Unblock(room, user, actor) => UnblockCall(w, room, user, actor)
    case UpdateRole(room, user, name, actor) => UpdateRoleCall(w, room, user, name, actor)
    case SetMuted(room, user, actor, isMuted) => SetMutedCall(w, room, user, actor, isMuted)
    case SetHandRaised(room, user, isHandRaised, at) => SetHandRaisedCall(w, room, user, isHandRaised, at)
  }
}
