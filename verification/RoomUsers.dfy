/** The membership row of one user in one room. */
module RoomUsers {
  import opened Wrappers
  import opened Decimal
  import opened Roles
  import opened Cursor

  type UserId = Uint
  type RoomId = Uint

  // One WebSocket connection; a user may have several.
  type ClientId = string

  datatype RoomUser = RoomUser(
    id: Uint,
    userId: UserId,
    roomId: RoomId,
    role: Role,
    lastJoinedAt: Stamp,
    lastLeftAt: Stamp,
    isOnline: bool,
    isBlocked: bool,
    blockedBy: Option<UserId>)
  {
    predicate IsListener() { role == Listener }

    predicate IsOwner() { role == Owner }

    predicate CanManage() { Roles.CanManage(role) }

    predicate CanSpeak() { Roles.CanSpeak(role) }
  }

  // Chronological order of two UTC times.
  predicate Earlier(a: Stamp, b: Stamp) {
    || a.year < b.year
    || (a.year == b.year &&
        (|| a.month < b.month
         || (a.month == b.month &&
             (|| a.day < b.day
              || (a.day == b.day &&
                  (|| a.hour < b.hour
                   || (a.hour == b.hour &&
                       (|| a.minute < b.minute
                        || (a.minute == b.minute &&
                            (|| a.second < b.second
                             || (a.second == b.second && a.nanos < b.nanos)))))))))))
  }

  predicate NotLater(a: Stamp, b: Stamp) { a == b || Earlier(a, b) }

  lemma EarlierIsStrictOrder(a: Stamp, b: Stamp, c: Stamp)
    ensures !Earlier(a, a)
    ensures Earlier(a, b) && Earlier(b, c) ==> Earlier(a, c)
    ensures Earlier(a, b) || a == b || Earlier(b, a)
    ensures !(Earlier(a, b) && Earlier(b, a))
  {
  }
}
