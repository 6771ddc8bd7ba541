/** Joining, publishing and revoking as concurrent goroutines that share sessions step by step. Every step
 * between two lock acquisitions is one step here, and goroutines of any number interleave freely.
 */
module SfuInterleaved {
  import opened Wrappers
  import opened RoomUsers

  // Tracks are made anew for each publication of a session, senders anew for each attachment.
  datatype Track = Track(session: nat, serial: nat)

  // Who attached it: the join of the session it is on, or the publication of its track.
  datatype Side = ByJoin | ByPublication

  datatype Sender = Sender(session: nat, slot: nat, track: Track, side: Side)

  // `localTrack` also stands for the stop channel, which is set and cleared together with it.

  datatype Session = Session(
    client: ClientId,
    localTrack: Option<Track>,
    senders: map<ClientId, Sender>,
    pc: set<Sender>,
    nextSlot: nat,
    closed: bool)

  // What follows a stop: nothing, the publication it makes way for, the removal of the session,
  // or the other clients of a user whose publishing is revoked.
  datatype Then = End | Republish(session: nat) | Remove | Revoke(room: RoomId, user: UserId, todo: seq<ClientId>)

  // Where a goroutine stands. `todo` is what is left of the hub's answer.
  datatype Goroutine =
    | JoinCloseOld(session: nat, prior: nat)
    | JoinClosePc(session: nat, prior: nat)
    | JoinAsk(session: nat)
    | JoinNext(session: nat, todo: seq<ClientId>)
    | JoinRead(session: nat, who: ClientId, peer: nat, todo: seq<ClientId>)
    | JoinReread(session: nat, who: ClientId, peer: nat, todo: seq<ClientId>)
    | JoinAttach(session: nat, who: ClientId, peer: nat, track: Track, todo: seq<ClientId>)
    | JoinRecord(session: nat, peer: nat, sender: Sender, todo: seq<ClientId>)
    | StopGet(c: ClientId, next: Then)
    | StopTake(c: ClientId, target: nat, next: Then)
    | StopNext(c: ClientId, rest: map<ClientId, Sender>, next: Then)
    | StopDetach(c: ClientId, subscriber: nat, sender: Sender, rest: map<ClientId, Sender>, next: Then)
    | RowRead(session: nat)
    | PublishStart(session: nat)
    | PublishAsk(session: nat, track: Track)
    | PublishNext(session: nat, track: Track, todo: seq<ClientId>)
    | PublishAttach(session: nat, track: Track, who: ClientId, peer: nat, todo: seq<ClientId>)
    | PublishRecord(session: nat, track: Track, who: ClientId, sender: Sender, todo: seq<ClientId>)
    | RevokeAsk(room: RoomId, user: UserId)
    | RevokeNext(room: RoomId, user: UserId, todo: seq<ClientId>)
    | RemoveEntry(c: ClientId)
    | CloseStop(prior: nat)
    | ClosePc(prior: nat)
    | Done

  // `rooms` and `users` know every client that ever registered; `speakers` are the users with an
  // unblocked row that lets them speak; `open` are the tracks whose forwarder has not been told to
  // stop; `refused` records failed attachments.
  datatype State = State(
    rooms: map<ClientId, RoomId>,
    users: map<ClientId, UserId>,
    registered: set<ClientId>,
    speakers: set<(RoomId, UserId)>,
    store: map<ClientId, nat>,
    sessions: map<nat, Session>,
    goroutines: map<nat, Goroutine>,
    nextSession: nat,
    nextTrack: nat,
    open: set<Track>,
    refused: set<(Track, nat)>)

  const START := State(map[], map[], {}, {}, map[], map[], map[], 0, 0, {}, {})

  // The choices the surroundings make for a step; `fails`: attaching or detaching is refused.
  datatype Choice = Choice(list: seq<ClientId>, fails: bool, pick: ClientId)

  datatype Action =
    | Register(c: ClientId, room: RoomId, user: UserId)
    | Unregister(c: ClientId)
    | BeginJoin(g: nat, c: ClientId)
    | BeginPublish(g: nat, session: nat)
    | BeginStop(g: nat, c: ClientId)
    | BeginLeave(g: nat, c: ClientId)
    | Grant(room: RoomId, user: UserId)
    | Withdraw(room: RoomId, user: UserId)
    | BeginRevoke(g: nat, room: RoomId, user: UserId)
    | Advance(g: nat, choice: Choice)

  ghost predicate Enabled(s: State, a: Action) {
    match a
    case Register(c, _, _) => c !in s.rooms
    case Unregister(c) => c in s.registered
    case BeginJoin(g, c) => g !in s.goroutines && c in s.registered
    case BeginPublish(g, session) => g !in s.goroutines && session in s.sessions
    case BeginStop(g, _) => g !in s.goroutines
    case BeginLeave(g, _) => g !in s.goroutines
    case Grant(_, _) => true
    case Withdraw(_, _) => true
    case BeginRevoke(g, _, _) => g !in s.goroutines
    case Advance(g, choice) => g in s.goroutines && Choosable(s, s.goroutines[g], choice)
  }

  // The hub answers with the registered clients of a room, each once, in some order; a stop takes
  // the senders it is left with in some order.
  ghost predicate Choosable(s: State, g: Goroutine, choice: Choice) {
    && ((g.JoinAsk? || g.PublishAsk?) && g.session in s.sessions && s.sessions[g.session].client in s.rooms ==>
          IsAnswer(s, s.rooms[s.sessions[g.session].client], choice.list))
    && (g.RevokeAsk? ==> IsAnswer(s, g.room, choice.list))
    && (g.StopNext? && g.rest != map[] ==> choice.pick in g.rest)
  }

  ghost predicate IsAnswer(s: State, room: RoomId, list: seq<ClientId>) {
    && NoRepeats(list)
    && (forall x :: x in list <==> x in s.registered && x in s.rooms && s.rooms[x] == room)
  }

  predicate NoRepeats(list: seq<ClientId>) { forall i, j :: 0 <= i < j < |list| ==> list[i] != list[j] }

  // Every session a goroutine speaks of exists.
  predicate Known(s: State, g: Goroutine) {
    match g
    case JoinCloseOld(x, prior) => x in s.sessions && prior in s.sessions
    case JoinClosePc(x, prior) => x in s.sessions && prior in s.sessions
    case JoinAsk(x) => x in s.sessions
    case JoinNext(x, _) => x in s.sessions
    case JoinRead(x, _, peer, _) => x in s.sessions && peer in s.sessions
    case JoinReread(x, _, peer, _) => x in s.sessions && peer in s.sessions
    case JoinAttach(x, _, peer, _, _) => x in s.sessions && peer in s.sessions
    case JoinRecord(x, peer, _, _) => x in s.sessions && peer in s.sessions
    case StopGet(_, next) => KnownThen(s, next)
    case StopTake(_, target, next) => target in s.sessions && KnownThen(s, next)
    case StopNext(_, _, next) => KnownThen(s, next)
    case StopDetach(_, subscriber, _, _, next) => subscriber in s.sessions && KnownThen(s, next)
    case RowRead(p) => p in s.sessions
    case PublishStart(p) => p in s.sessions
    case PublishAsk(p, _) => p in s.sessions
    case PublishNext(p, _, _) => p in s.sessions
    case PublishAttach(p, _, _, peer, _) => p in s.sessions && peer in s.sessions
    case PublishRecord(p, _, _, _, _) => p in s.sessions
    case RevokeAsk(_, _) => true
    case RevokeNext(_, _, _) => true
    case RemoveEntry(_) => true
    case CloseStop(prior) => prior in s.sessions
    case ClosePc(prior) => prior in s.sessions
    case Done => true
  }

  predicate KnownThen(s: State, next: Then) { next.Republish? ==> next.session in s.sessions }

  /// What one step writes

  datatype Update =
    | Keep
    | Silence(id: nat)
    | Close(id: nat)
    | Attach(id: nat, track: Track, side: Side)
    | Refuse(id: nat, track: Track)
    | Detach(id: nat, sender: Sender)
    | Record(id: nat, c: ClientId, sender: Sender)
    | Start(id: nat)
    | Forget(c: ClientId)

  function Updated(s: State, u: Update): Session
    requires !u.Keep? && !u.Forget? && u.id in s.sessions
  {
    var session := s.sessions[u.id];
    match u
    case Silence(_) => session.(localTrack := None, senders := map[])
    case Close(_) => session.(closed := true)
    case Attach(id, t, side) =>
      session.(pc := session.pc + {NextSender(s, id, t, side)}, nextSlot := session.nextSlot + 1)
    case Detach(_, sender) => if session.closed then session else session.(pc := session.pc - {sender})
    case Record(_, c, sender) => session.(senders := session.senders[c := sender])
    case Start(id) => session.(localTrack := Some(Track(id, s.nextTrack)))
    case _ => session
  }

  function Apply(s: State, u: Update): State
    requires u.Keep? || u.Forget? || u.id in s.sessions
  {
    match u
    case Keep => s
    case Forget(c) => s.(store := s.store - {c})
    case Refuse(id, t) => s.(refused := s.refused + {(t, id)})
    case Silence(id) => s.(sessions := s.sessions[id := Updated(s, u)], open := s.open - Current(s, id))
    case Start(id) =>
      s.(sessions := s.sessions[id := Updated(s, u)],
         nextTrack := s.nextTrack + 1,
         open := s.open + {Track(id, s.nextTrack)})
    case _ => s.(sessions := s.sessions[u.id := Updated(s, u)])
  }

  function NextSender(s: State, id: nat, t: Track, side: Side): Sender
    requires id in s.sessions
  {
    Sender(id, s.sessions[id].nextSlot, t, side)
  }

  function Current(s: State, id: nat): set<Track>
    requires id in s.sessions
  {
    if s.sessions[id].localTrack.Some? then {s.sessions[id].localTrack.value} else {}
  }

  // The row that the track callback reads lets the client's user speak.
  predicate MaySpeak(s: State, c: ClientId) {
    c in s.rooms && c in s.users && (s.rooms[c], s.users[c]) in s.speakers
  }

  // pc.AddTrack: a sender, unless the connection is closed or the library refuses.
  predicate Attaches(session: Session, fails: bool) { !session.closed && !fails }

  /// One step of a goroutine: what it writes and where it stands then

  datatype Move = Move(update: Update, next: Goroutine)

  predicate Joins(g: Goroutine) {
    || g.JoinCloseOld? || g.JoinClosePc? || g.JoinAsk? || g.JoinNext?
    || g.JoinRead? || g.JoinReread? || g.JoinAttach? || g.JoinRecord?
  }

  predicate Publishes(g: Goroutine) {
    g.PublishStart? || g.PublishAsk? || g.PublishNext? || g.PublishAttach? || g.PublishRecord?
  }

  function JoinMove(s: State, g: Goroutine, choice: Choice): Move
    requires Known(s, g) && Joins(g)
  {
    match g
    case JoinCloseOld(x, prior) => Move(Silence(prior), JoinClosePc(x, prior))
    case JoinClosePc(x, prior) => Move(Close(prior), JoinAsk(x))
    case JoinAsk(x) => Move(Keep, JoinNext(x, choice.list))
    case JoinNext(x, todo) =>
      Move(Keep,
           if todo == [] then Done
           else if todo[0] == s.sessions[x].client || todo[0] !in s.store then JoinNext(x, todo[1..])
           else JoinRead(x, todo[0], s.store[todo[0]], todo[1..]))
    case JoinRead(x, who, peer, todo) =>
      Move(Keep, if s.sessions[peer].localTrack.None? then JoinNext(x, todo) else JoinReread(x, who, peer, todo))
    case JoinReread(x, who, peer, todo) =>
      Move(Keep,
           if s.sessions[peer].localTrack.None? then JoinNext(x, todo)
           else JoinAttach(x, who, peer, s.sessions[peer].localTrack.value, todo))
    case JoinAttach(x, _, peer, t, todo) =>
      if Attaches(s.sessions[x], choice.fails)
      then Move(Attach(x, t, ByJoin), JoinRecord(x, peer, NextSender(s, x, t, ByJoin), todo))
      else Move(if choice.fails then Refuse(x, t) else Keep, JoinNext(x, todo))
    case JoinRecord(x, peer, sender, todo) => Move(Record(peer, s.sessions[x].client, sender), JoinNext(x, todo))
  }

  function PublishMove(s: State, g: Goroutine, choice: Choice): Move
    requires Known(s, g) && Publishes(g)
  {
    match g
    case PublishStart(p) => Move(Start(p), PublishAsk(p, Track(p, s.nextTrack)))
    case PublishAsk(p, t) => Move(Keep, PublishNext(p, t, choice.list))
    case PublishNext(p, t, todo) =>
      Move(Keep,
           if todo == [] then Done
           else if todo[0] == s.sessions[p].client || todo[0] !in s.store then PublishNext(p, t, todo[1..])
           else PublishAttach(p, t, todo[0], s.store[todo[0]], todo[1..]))
    case PublishAttach(p, t, who, peer, todo) =>
      if Attaches(s.sessions[peer], choice.fails)
      then Move(Attach(peer, t, ByPublication), PublishRecord(p, t, who, NextSender(s, peer, t, ByPublication), todo))
      else Move(if choice.fails then Refuse(peer, t) else Keep, PublishNext(p, t, todo))
    case PublishRecord(p, t, who, sender, todo) => Move(Record(p, who, sender), PublishNext(p, t, todo))
  }

  function AfterStop(c: ClientId, next: Then): Goroutine {
    match next
    case End => Done
    case Republish(session) => PublishStart(session)
    case Remove => RemoveEntry(c)
    case Revoke(room, user, todo) => RevokeNext(room, user, todo)
  }

  function StopMove(s: State, g: Goroutine, choice: Choice): Move
    requires Known(s, g) && !Joins(g) && !Publishes(g)
  {
    match g
    case StopGet(c, next) => Move(Keep, if c in s.store then StopTake(c, s.store[c], next) else AfterStop(c, next))
    case StopTake(c, target, next) => Move(Silence(target), StopNext(c, s.sessions[target].senders, next))
    case StopNext(c, rest, next) =>
      Move(Keep,
           if choice.pick !in rest then AfterStop(c, next)
           else if choice.pick !in s.store then StopNext(c, rest - {choice.pick}, next)
           else StopDetach(c, s.store[choice.pick], rest[choice.pick], rest - {choice.pick}, next))
    case StopDetach(c, subscriber, sender, rest, next) =>
      Move(if choice.fails then Keep else Detach(subscriber, sender), StopNext(c, rest, next))
    case RowRead(p) =>
      var c := s.sessions[p].client;
      Move(Keep, if MaySpeak(s, c) then StopGet(c, Republish(p)) else Done)
    case RevokeAsk(room, user) => Move(Keep, RevokeNext(room, user, choice.list))
    case RevokeNext(room, user, todo) =>
      Move(Keep,
           if todo == [] then Done
           else if todo[0] in s.users && s.users[todo[0]] == user then StopGet(todo[0], Revoke(room, user, todo[1..]))
           else RevokeNext(room, user, todo[1..]))
    case RemoveEntry(c) =>
      if c in s.store then Move(Forget(c), CloseStop(s.store[c])) else Move(Keep, Done)
    case CloseStop(prior) => Move(Silence(prior), ClosePc(prior))
    case ClosePc(prior) => Move(Close(prior), Done)
    case Done => Move(Keep, Done)
  }

  function MoveOf(s: State, g: Goroutine, choice: Choice): Move
    requires Known(s, g)
  {
    if Joins(g) then JoinMove(s, g, choice)
    else if Publishes(g) then PublishMove(s, g, choice)
    else StopMove(s, g, choice)
  }

  /// Steps

  function At(s: State, g: nat, where: Goroutine): State { s.(goroutines := s.goroutines[g := where]) }

  function Moved(s: State, g: nat, m: Move): State
    requires m.update.Keep? || m.update.Forget? || m.update.id in s.sessions
  {
    At(Apply(s, m.update), g, m.next)
  }

  // Inserting the new session and taking out the one it replaces is one critical section.
  function Inserted(s: State, c: ClientId): State {
    s.(store := s.store[c := s.nextSession],
       sessions := s.sessions[s.nextSession := Session(c, None, map[], {}, 0, false)],
       nextSession := s.nextSession + 1)
  }

  function JoinBegun(s: State, c: ClientId): Goroutine {
    if c in s.store then JoinCloseOld(s.nextSession, s.store[c]) else JoinAsk(s.nextSession)
  }

  function Step(s: State, a: Action): State {
    match a
    case Register(c, room, user) =>
      s.(rooms := s.rooms[c := room], users := s.users[c := user], registered := s.registered + {c})
    case Unregister(c) => s.(registered := s.registered - {c})
    case BeginJoin(g, c) => At(Inserted(s, c), g, JoinBegun(s, c))
    case BeginPublish(g, p) => At(s, g, RowRead(p))
    case BeginStop(g, c) => At(s, g, StopGet(c, End))
    case BeginLeave(g, c) => At(s, g, StopGet(c, Remove))
    case Grant(room, user) => s.(speakers := s.speakers + {(room, user)})
    case Withdraw(room, user) => s.(speakers := s.speakers - {(room, user)})
    case BeginRevoke(g, room, user) => At(s.(speakers := s.speakers - {(room, user)}), g, RevokeAsk(room, user))
    case Advance(g, choice) =>
      if g in s.goroutines && Known(s, s.goroutines[g])
      then Moved(s, g, MoveOf(s, s.goroutines[g], choice))
      else s
  }
}
