/** Routing of audio tracks between the clients of a room, each operation taken as one step. */
module Sfu {
  import opened Wrappers
  import opened RoomUsers

  // A forwarding track: made anew for each publication, so two are never equal.
  datatype Track = Track(owner: ClientId, serial: nat)

  // A sender belongs to the peer connection that made it, and is told apart by it.
  datatype Sender = Sender(pc: nat, slot: nat)

  // The outgoing side of a peer connection: its senders by number, each with its track.
  datatype Pc = Pc(id: nat, tracks: map<nat, Track>, nextSlot: nat)

  // `stopOpen`: the forwarding goroutine of the current track has not been told to stop.
  datatype Session = Session(pc: Pc, localTrack: Option<Track>, stopOpen: bool, senders: map<ClientId, Sender>)

  type Store = map<ClientId, Session>

  /// Sessions

  function NewSession(pc: nat): Session { Session(Pc(pc, map[], 0), None, false, map[]) }

  function Attached(s: Session, t: Track): Session {
    s.(pc := s.pc.(tracks := s.pc.tracks[s.pc.nextSlot := t], nextSlot := s.pc.nextSlot + 1))
  }

  function NextSender(s: Session): Sender { Sender(s.pc.id, s.pc.nextSlot) }

  // Removing a sender another connection made is an error and changes nothing.
  function Detached(s: Session, sender: Sender): Session {
    if sender.pc == s.pc.id && sender.slot in s.pc.tracks
    then s.(pc := s.pc.(tracks := s.pc.tracks - {sender.slot}))
    else s
  }

  function Publishing(s: Session, t: Track): Session { s.(localTrack := Some(t), stopOpen := true) }

  function Silenced(s: Session): Session { s.(localTrack := None, stopOpen := false, senders := map[]) }

  /// The router

  // Track t of p goes onto the connection of x, and p's session keeps the sender.
  function Delivered(store: Store, p: ClientId, x: ClientId, t: Track): Store
    requires p in store && x in store
  {
    store[p := store[p].(senders := store[p].senders[x := NextSender(store[x])])][x := Attached(store[x], t)]
  }

  // `fails` are the clients for which attaching a track to, or from, their connection fails.
  function SubscribeOne(store: Store, c: ClientId, peer: ClientId, fails: set<ClientId>): Store {
    if peer == c || c !in store || peer !in store || store[peer].localTrack.None? || peer in fails then store
    else Delivered(store, peer, c, store[peer].localTrack.value)
  }

  // The new session of c receives the track of every publishing client of the list.
  function Subscribe(store: Store, c: ClientId, clients: seq<ClientId>, fails: set<ClientId>): Store {
    if clients == [] then store
    else SubscribeOne(Subscribe(store, c, clients[..|clients| - 1], fails), c, clients[|clients| - 1], fails)
  }

  predicate Receives(store: Store, c: ClientId, peer: ClientId, clients: seq<ClientId>, fails: set<ClientId>) {
    peer in clients && peer != c && peer in store && peer !in fails
  }

  function NewSenders(store: Store, c: ClientId, clients: seq<ClientId>, fails: set<ClientId>): map<ClientId, Sender> {
    map x | x in store && Receives(store, c, x, clients, fails) :: NextSender(store[x])
  }

  // Every other client of the list that has a session receives the track of c.
  function FanOut(store: Store, c: ClientId, clients: seq<ClientId>, t: Track, fails: set<ClientId>): Store {
    map x | x in store ::
      if x == c then store[c].(senders := store[c].senders + NewSenders(store, c, clients, fails))
      else if Receives(store, c, x, clients, fails) then Attached(store[x], t)
      else store[x]
  }

  // The same for a session that is no longer in the store: nobody keeps the senders.
  function FanOutUnkept(store: Store, c: ClientId, clients: seq<ClientId>, t: Track, fails: set<ClientId>): Store {
    map x | x in store :: if Receives(store, c, x, clients, fails) then Attached(store[x], t) else store[x]
  }

  // c no longer publishes, and every recorded sender is taken off the connection it was put on,
  // but for those whose removal the connection refuses.
  function StopPublishing(store: Store, c: ClientId, stuck: set<Sender>): Store {
    if c !in store then store
    else
      var senders := store[c].senders;
      map x | x in store ::
        var s := if x == c then Silenced(store[c]) else store[x];
        if x in senders && senders[x] !in stuck then Detached(s, senders[x]) else s
  }

  // Every listed client of the user stops publishing.
  function Revoked(store: Store, user: UserId, clients: seq<(ClientId, UserId)>, stuck: set<Sender>): Store {
    if clients == [] then store
    else
      var rest := Revoked(store, user, clients[..|clients| - 1], stuck);
      var last := clients[|clients| - 1];
      if last.1 == user then StopPublishing(rest, last.0, stuck) else rest
  }

  /// Runs of whole operations

  datatype Client = Client(room: RoomId, user: UserId)

  // Registered clients are those the hub knows; a session can outlive the registration until the
  // disconnect handler has run. `refused` records the attachments that failed.
  datatype State = State(
    clients: map<ClientId, Client>,
    registered: set<ClientId>,
    store: Store,
    nextPc: nat,
    nextTrack: nat,
    refused: set<(Track, nat)>)

  const START := State(map[], {}, map[], 0, 0, {})

  datatype Op =
    | Register(c: ClientId, client: Client)
    | Unregister(c: ClientId)
    | Join(c: ClientId, list: seq<ClientId>, fails: set<ClientId>)
    | Publish(c: ClientId, list: seq<ClientId>, fails: set<ClientId>, stuck: set<Sender>)
    | PublishLate(c: ClientId, list: seq<ClientId>, fails: set<ClientId>, stuck: set<Sender>)
    | Stop(c: ClientId, stuck: set<Sender>)
    | Close(c: ClientId, stuck: set<Sender>)

  // What the hub answers for a client's room: its registered clients, in some order.
  ghost predicate RoomList(s: State, c: ClientId, list: seq<ClientId>)
    requires c in s.clients && s.registered <= s.clients.Keys
  {
    && (forall x :: x in list <==> x in s.registered && s.clients[x].room == s.clients[c].room)
    && (forall i, j :: 0 <= i < j < |list| ==> list[i] != list[j])
  }

  // When the surroundings can perform an operation.
  ghost predicate Enabled(s: State, op: Op) {
    && s.registered <= s.clients.Keys
    && match op
       case Register(c, _) => c !in s.clients
       case Unregister(c) => c in s.registered
       case Join(c, list, _) => c in s.registered && RoomList(s, c, list)
       case Publish(c, list, _, _) => c in s.store && c in s.clients && RoomList(s, c, list)
       case PublishLate(c, list, _, _) => c in s.clients && RoomList(s, c, list)
       case Stop(_, _) => true
       case Close(_, _) => true
  }

  function JoinStep(s: State, c: ClientId, list: seq<ClientId>, fails: set<ClientId>): State {
    var store := s.store[c := NewSession(s.nextPc)];
    s.(store := Subscribe(store, c, list, fails),
       nextPc := s.nextPc + 1,
       refused := s.refused + set x | x in store && x in list && x != c && x in fails && store[x].localTrack.Some?
                              :: (store[x].localTrack.value, s.nextPc))
  }

  function PublishStep(s: State, c: ClientId, list: seq<ClientId>, fails: set<ClientId>, stuck: set<Sender>): State
    requires c in s.store
  {
    var t := Track(c, s.nextTrack);
    var stopped := StopPublishing(s.store, c, stuck);
    var store := stopped[c := Publishing(stopped[c], t)];
    s.(store := FanOut(store, c, list, t, fails),
       nextTrack := s.nextTrack + 1,
       refused := s.refused + set x | x in store && x in list && x != c && x in fails :: (t, store[x].pc.id))
  }

  // The track callback of a session that has been replaced or removed meanwhile.
  function PublishLateStep(s: State, c: ClientId, list: seq<ClientId>, fails: set<ClientId>,
                           stuck: set<Sender>): State {
    var t := Track(c, s.nextTrack);
    var store := StopPublishing(s.store, c, stuck);
    s.(store := FanOutUnkept(store, c, list, t, fails),
       nextTrack := s.nextTrack + 1,
       refused := s.refused + set x | x in store && x in list && x != c && x in fails :: (t, store[x].pc.id))
  }

  function Step(s: State, op: Op): State {
    match op
    case Register(c, client) => s.(clients := s.clients[c := client], registered := s.registered + {c})
    case Unregister(c) => s.(registered := s.registered - {c})
    case Join(c, list, fails) => JoinStep(s, c, list, fails)
    case Publish(c, list, fails, stuck) => if c in s.store then PublishStep(s, c, list, fails, stuck) else s
    case PublishLate(c, list, fails, stuck) => PublishLateStep(s, c, list, fails, stuck)
    case Stop(c, stuck) => s.(store := StopPublishing(s.store, c, stuck))
    case Close(c, stuck) => s.(store := StopPublishing(s.store, c, stuck) - {c})
  }
}
