/** The WebSocket hub: who is registered where, and what reaches each client's send queue. */
module Hub {
  import opened Wrappers
  import opened RoomUsers

  type Message = string

  // The buffer of a client's send channel.
  const CAPACITY: nat := 256

  // A send that never blocks: a full queue drops the message.
  function Offered(queue: seq<Message>, m: Message): seq<Message> {
    if |queue| < CAPACITY then queue + [m] else queue
  }

  /// The hub as a state machine

  // `taken` is what the client's writer has taken out of the queue so far.
  datatype Conn = Conn(room: RoomId, queue: seq<Message>, closed: bool, taken: seq<Message>)

  // `faulted`: some send or close reached a channel that was closed already.
  datatype State = State(rooms: map<RoomId, set<ClientId>>, conns: map<ClientId, Conn>, faulted: bool)

  const START := State(map[], map[], false)

  datatype Event =
    | Register(c: ClientId, room: RoomId)
    | Unregister(c: ClientId)
    | Broadcast(room: RoomId, m: Message)
    | Direct(c: ClientId, m: Message)
    | Take(c: ClientId)

  function Members(s: State, room: RoomId): set<ClientId> {
    if room in s.rooms then s.rooms[room] else {}
  }

  predicate IsMember(s: State, c: ClientId) { c in s.conns && c in Members(s, s.conns[c].room) }

  function Sent(conn: Conn, m: Message): Conn { conn.(queue := Offered(conn.queue, m)) }

  // The messages of one event go to these registered clients.
  predicate Addresses(s: State, e: Event, c: ClientId) {
    match e
    case Broadcast(room, _) => c in Members(s, room) && c in s.conns
    case Direct(d, _) => c == d && IsMember(s, c)
    case _ => false
  }

  function Step(s: State, e: Event): State {
    match e
    case Register(c, room) =>
      s.(rooms := s.rooms[room := Members(s, room) + {c}],
         conns := if c in s.conns then s.conns else s.conns[c := Conn(room, [], false, [])])
    case Unregister(c) =>
      if !IsMember(s, c) then s
      else
        var room := s.conns[c].room;
        var rest := Members(s, room) - {c};
        State(if rest == {} then s.rooms - {room} else s.rooms[room := rest],
              s.conns[c := s.conns[c].(closed := true)],
              s.faulted || s.conns[c].closed)
    case Broadcast(_, m) => Deliver(s, e, m)
    case Direct(_, m) => Deliver(s, e, m)
    case Take(c) =>
      if c in s.conns && s.conns[c].queue != [] then
        var conn := s.conns[c];
        s.(conns := s.conns[c := conn.(queue := conn.queue[1..], taken := conn.taken + [conn.queue[0]])])
      else s
  }

  function Deliver(s: State, e: Event, m: Message): State {
    s.(conns := map c | c in s.conns :: if Addresses(s, e, c) then Sent(s.conns[c], m) else s.conns[c],
       faulted := s.faulted || exists c :: c in s.conns && Addresses(s, e, c) && s.conns[c].closed)
  }

  /// The hub and its clients as objects

  class Client {
    const id: ClientId
    const roomId: RoomId
    var send: seq<Message>
    var closed: bool
    var taken: seq<Message>

    constructor (id: ClientId, roomId: RoomId)
      ensures this.id == id && View() == Conn(roomId, [], false, [])
    {
      this.id, this.roomId := id, roomId;
      send, closed, taken := [], false, [];
    }

    ghost function View(): Conn
      reads this
    {
      Conn(roomId, send, closed, taken)
    }

    // Sending on a closed channel would panic.
    method Send(data: Message)
      requires !closed
      modifies this`send
      ensures View() == Sent(old(View()), data)
    {
      if |send| < CAPACITY {
        send := send + [data];
      }
    }

    // What the writer's receive yields: a message, or the news that the channel is closed and drained.
    method Take() returns (msg: Option<Message>)
      modifies this`send, this`taken
      ensures msg.Some? <==> old(send) != []
      ensures msg.Some? ==> msg.value == old(send)[0] && send == old(send)[1..] && taken == old(taken) + [msg.value]
      ensures msg.None? ==> send == old(send) && taken == old(taken)
    {
      if send == [] {
        return None;
      }
      msg := Some(send[0]);
      taken, send := taken + [send[0]], send[1..];
    }
  }

  class Hub {
    var rooms: map<RoomId, set<Client>>

    // Every client that was ever registered.
    ghost var known: map<ClientId, Client>

    constructor ()
      ensures Valid() && View() == START
    {
      rooms, known := map[], map[];
    }

    // No room is empty; a room holds open clients of that room.
    ghost predicate Valid()
      reads this, known.Values
    {
      && (forall id :: id in known ==> known[id].id == id)
      && (forall r :: r in rooms ==> rooms[r] != {})
      && (forall r, c :: r in rooms && c in rooms[r] ==>
            c.roomId == r && c.id in known && known[c.id] == c && !c.closed)
    }

    ghost function View(): State
      reads this, known.Values
    {
      State(map r | r in rooms :: Ids(rooms[r]), map id | id in known :: known[id].View(), false)
    }

    ghost function Ids(clients: set<Client>): set<ClientId>
      reads this
    {
      set id | id in known && known[id] in clients
    }

    method Register(c: Client)
      requires Valid() && c.id !in known && c.View() == Conn(c.roomId, [], false, [])
      modifies this
      ensures Valid() && View() == Step(old(View()), Event.Register(c.id, c.roomId))
      ensures known == old(known)[c.id := c]
    {
      if c.roomId !in rooms {
        rooms := rooms[c.roomId := {}];
      }
      rooms := rooms[c.roomId := rooms[c.roomId] + {c}];
      known := known[c.id := c];
      Registered(c);
    }

    twostate lemma Registered(c: Client)
      requires old(Valid()) && c.id !in old(known) && unchanged(c) && c.View() == Conn(c.roomId, [], false, [])
      requires known == old(known)[c.id := c]
      requires rooms == old(rooms)[c.roomId := (if c.roomId in old(rooms) then old(rooms)[c.roomId] else {}) + {c}]
      requires forall d :: d in old(known.Values) ==> unchanged(d)
      ensures Valid() && View() == Step(old(View()), Event.Register(c.id, c.roomId))
    {
      NewcomerIsConnected(c);
      RoomsAfterRegistering(c);
      forall r, d | r in rooms && d in rooms[r]
        ensures d.roomId == r && d.id in known && known[d.id] == d && !d.closed
      {
        assert d != c ==> r in old(rooms) && d in old(rooms)[r];
      }
    }

    twostate lemma NewcomerIsConnected(c: Client)
      requires old(Valid()) && c.id !in old(known) && unchanged(c) && c.View() == Conn(c.roomId, [], false, [])
      requires known == old(known)[c.id := c]
      requires forall d :: d in old(known.Values) ==> unchanged(d)
      ensures View().conns == old(View()).conns[c.id := Conn(c.roomId, [], false, [])]
      ensures forall id :: id in old(known) ==> known[id] == old(known)[id] && known[id].closed == old(known[id].closed)
    {
      forall id | id in old(known) ensures known[id] == old(known)[id] && known[id].View() == old(known[id].View()) {
        assert old(known)[id] in old(known.Values);
      }
    }

    twostate lemma RoomsAfterRegistering(c: Client)
      requires old(Valid()) && c.id !in old(known)
      requires known == old(known)[c.id := c]
      requires rooms == old(rooms)[c.roomId := (if c.roomId in old(rooms) then old(rooms)[c.roomId] else {}) + {c}]
      ensures View().rooms == Step(old(View()), Event.Register(c.id, c.roomId)).rooms
    {
      var after := Step(old(View()), Event.Register(c.id, c.roomId));
      forall r | r in rooms ensures View().rooms[r] == after.rooms[r] {
        if r == c.roomId {
          assert Ids(rooms[r]) == (if r in old(rooms) then old(Ids(rooms[r])) else {}) + {c.id};
        } else {
          assert Ids(rooms[r]) == old(Ids(rooms[r]));
        }
      }
    }

    // A client the hub does not know, or knows no longer, is passed over.
    method Unregister(c: Client)
      requires Valid() && (c.id in known ==> known[c.id] == c)
      modifies this, c
      ensures Valid() && known == old(known) && View() == Step(old(View()), Event.Unregister(c.id))
    {
      if c.roomId in rooms && c in rooms[c.roomId] {
        c.closed := true;
        rooms := rooms[c.roomId := rooms[c.roomId] - {c}];
        if rooms[c.roomId] == {} {
          rooms := rooms - {c.roomId};
        }
        Unregistered(c);
      }
    }

    twostate lemma Unregistered(c: Client)
      requires old(Valid()) && known == old(known) && c.id in known && known[c.id] == c
      requires c.roomId in old(rooms) && c in old(rooms)[c.roomId]
      requires c.View() == old(c.View()).(closed := true)
      requires forall d :: d in known.Values && d != c ==> unchanged(d)
      requires var rest := old(rooms)[c.roomId] - {c};
               rooms == if rest == {} then old(rooms) - {c.roomId} else old(rooms)[c.roomId := rest]
      ensures Valid() && View() == Step(old(View()), Event.Unregister(c.id))
    {
      OnlyLeaverIsClosed(c);
      RoomsAfterUnregistering(c);
      assert IsMember(old(View()), c.id) by { assert c.id in old(Ids(rooms[c.roomId])); }
    }

    twostate lemma OnlyLeaverIsClosed(c: Client)
      requires old(Valid()) && known == old(known) && c.id in known && known[c.id] == c
      requires c.View() == old(c.View()).(closed := true)
      requires forall d :: d in known.Values && d != c ==> unchanged(d)
      ensures forall id :: id in known && id != c.id ==> known[id].closed == old(known[id].closed)
      ensures View().conns == old(View()).conns[c.id := old(View()).conns[c.id].(closed := true)]
    {
      forall id | id in known && id != c.id ensures known[id].View() == old(known[id].View()) {
        assert known[id] in known.Values;
      }
    }

    twostate lemma RoomsAfterUnregistering(c: Client)
      requires old(Valid()) && known == old(known) && c.id in known && known[c.id] == c
      requires c.roomId in old(rooms) && c in old(rooms)[c.roomId]
      requires var rest := old(rooms)[c.roomId] - {c};
               rooms == if rest == {} then old(rooms) - {c.roomId} else old(rooms)[c.roomId := rest]
      ensures View().rooms == Step(old(View()), Event.Unregister(c.id)).rooms
    {
      var after := Step(old(View()), Event.Unregister(c.id));
      var rest := old(rooms)[c.roomId] - {c};
      assert c.id in old(Ids(rooms[c.roomId]));
      assert Ids(rest) == old(Ids(rooms[c.roomId])) - {c.id};
      assert rest == {} <==> Ids(rest) == {} by {
        assert forall d :: d in rest ==> d.id in Ids(rest);
      }
      forall r | r in rooms ensures r in after.rooms && View().rooms[r] == after.rooms[r] {
        if r != c.roomId { assert Ids(rooms[r]) == old(Ids(rooms[r])); }
      }
    }

    method BroadcastToRoom(room: RoomId, data: Message)
      requires Valid()
      modifies known.Values
      ensures Valid() && known == old(known) && View() == Step(old(View()), Event.Broadcast(room, data))
    {
      if room in rooms {
        forall c | c in rooms[room] ensures c in known.Values { assert known[c.id] == c; }
        SendToAll(rooms[room], data);
      }
      assert View().rooms == old(View()).rooms;
      assert View().conns == Step(old(View()), Event.Broadcast(room, data)).conns;
    }

    method SendToAll(members: set<Client>, data: Message)
      requires Valid() && forall c :: c in members ==> !c.closed && c in known.Values
      modifies members
      ensures Valid() && known == old(known)
      ensures forall c :: c in members ==> c.View() == Sent(old(c.View()), data)
    {
      var pending := members;
      while pending != {}
        invariant pending <= members
        invariant forall c :: c in pending ==> c.View() == old(c.View())
        invariant forall c :: c in members - pending ==> c.View() == Sent(old(c.View()), data)
        decreases pending
      {
        var c :| c in pending;
        pending := pending - {c};
        c.Send(data);
      }
      assert forall c :: c in members ==> c.closed == old(c.closed);
    }

    method SendToClient(c: Client, data: Message)
      requires Valid() && (c.id in known ==> known[c.id] == c)
      modifies c
      ensures Valid() && View() == Step(old(View()), Event.Direct(c.id, data))
    {
      if c.roomId in rooms && c in rooms[c.roomId] {
        c.Send(data);
      }
      assert View().rooms == old(View()).rooms;
      assert View().conns == Step(old(View()), Event.Direct(c.id, data)).conns;
    }

    // The room's clients, each once, in some order.
    method ClientsInRoom(room: RoomId) returns (clients: seq<Client>)
      requires Valid()
      ensures forall c :: c in clients <==> room in rooms && c in rooms[room]
      ensures forall i, j :: 0 <= i < j < |clients| ==> clients[i] != clients[j]
    {
      clients := [];
      var pending := if room in rooms then rooms[room] else {};
      ghost var members := pending;
      while pending != {}
        invariant pending <= members
        invariant forall c :: c in clients <==> c in members - pending
        invariant forall i, j :: 0 <= i < j < |clients| ==> clients[i] != clients[j]
        decreases pending
      {
        var c :| c in pending;
        assert c !in clients;
        pending := pending - {c};
        clients := clients + [c];
      }
    }
  }
}
