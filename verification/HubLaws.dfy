/** What the hub guarantees over whole runs: no send or close on a closed channel, and each
 * writer sees what was addressed to its client, in order, short only of what a full queue dropped.
 */
module HubLaws {
  import opened RoomUsers
  import opened Hub

  /// Runs

  ghost function After(events: seq<Event>): State {
    if events == [] then START else Step(After(events[..|events| - 1]), events[|events| - 1])
  }

  // Every connection makes its own client, which registers once.
  ghost predicate IsRun(events: seq<Event>) {
    events == [] ||
    var before, e := events[..|events| - 1], events[|events| - 1];
    IsRun(before) && (e.Register? ==> e.c !in After(before).conns)
  }

  /// Safety

  ghost predicate RoomsOk(s: State) {
    && (forall r :: r in s.rooms ==> s.rooms[r] != {})
    && (forall r, c :: r in s.rooms && c in s.rooms[r] ==> c in s.conns && s.conns[c].room == r)
  }

  ghost predicate Safe(s: State) {
    && !s.faulted && RoomsOk(s)
    && (forall c :: c in s.conns ==> (s.conns[c].closed <==> !IsMember(s, c)))
  }

  lemma StepIsSafe(s: State, e: Event)
    requires Safe(s) && (e.Register? ==> e.c !in s.conns)
    ensures Safe(Step(s, e))
  {
    var s' := Step(s, e);
    match e {
      case Register(c, room) =>
        forall d | d in s'.conns ensures s'.conns[d].closed <==> !IsMember(s', d) {
          if d != c { assert IsMember(s', d) <==> IsMember(s, d); }
        }
      case Unregister(c) =>
        forall d | d in s'.conns ensures s'.conns[d].closed <==> !IsMember(s', d) {
          if d != c { assert IsMember(s', d) <==> IsMember(s, d); }
        }
      case Broadcast(_, _) =>
        forall d | d in s'.conns ensures s'.conns[d].closed <==> !IsMember(s', d) {
          assert IsMember(s', d) <==> IsMember(s, d);
        }
      case Direct(_, _) =>
        forall d | d in s'.conns ensures s'.conns[d].closed <==> !IsMember(s', d) {
          assert IsMember(s', d) <==> IsMember(s, d);
        }
      case Take(_) =>
        forall d | d in s'.conns ensures s'.conns[d].closed <==> !IsMember(s', d) {
          assert IsMember(s', d) <==> IsMember(s, d);
        }
    }
  }

  // No send or close ever reaches a closed channel; a room lists exactly its open clients, and
  // no empty room is kept.
  lemma {:induction false} HubIsSafe(events: seq<Event>)
    requires IsRun(events)
    ensures Safe(After(events))
  {
    if events == [] {
    } else {
      var before := events[..|events| - 1];
      HubIsSafe(before);
      StepIsSafe(After(before), events[|events| - 1]);
    }
  }

  /// Membership, told by the events alone

  // c has registered with the room and not been unregistered since.
  ghost predicate IsIn(events: seq<Event>, c: ClientId, room: RoomId) {
    events != [] &&
    var before := events[..|events| - 1];
    match events[|events| - 1]
    case Register(d, r) => (d == c && r == room) || IsIn(before, c, room)
    case Unregister(d) => d != c && IsIn(before, c, room)
    case _ => IsIn(before, c, room)
  }

  // A room lists exactly those clients.
  lemma {:induction false} MembersAreRegistered(events: seq<Event>, c: ClientId, room: RoomId)
    requires IsRun(events)
    ensures c in Members(After(events), room) <==> IsIn(events, c, room)
    ensures IsIn(events, c, room) ==> c in After(events).conns && After(events).conns[c].room == room
  {
    if events == [] {
    } else {
      var before := events[..|events| - 1];
      MembersAreRegistered(before, c, room);
      HubIsSafe(before);
      HubIsSafe(events);
    }
  }

  /// Delivery

  // The event sends a message to c: to c's room, or to c itself while it is in some room.
  ghost predicate IsFor(before: seq<Event>, e: Event, c: ClientId) {
    match e
    case Broadcast(room, _) => IsIn(before, c, room)
    case Direct(d, _) => d == c && exists room: RoomId :: IsIn(before, c, room)
    case _ => false
  }

  lemma AddressesIff(before: seq<Event>, e: Event, c: ClientId)
    requires IsRun(before)
    ensures Addresses(After(before), e, c) <==> IsFor(before, e, c)
    ensures IsFor(before, e, c) ==> c in After(before).conns
  {
    var s := After(before);
    match e {
      case Broadcast(room, _) => MembersAreRegistered(before, c, room);
      case Direct(_, _) =>
        if c in s.conns { MembersAreRegistered(before, c, s.conns[c].room); }
        if room: RoomId :| IsIn(before, c, room) { MembersAreRegistered(before, c, room); }
      case _ =>
    }
  }

  // The messages sent to c while it was registered.
  ghost function Addressed(events: seq<Event>, c: ClientId): seq<Message> {
    if events == [] then []
    else
      var before, e := events[..|events| - 1], events[|events| - 1];
      Addressed(before, c) + if IsFor(before, e, c) then [e.m] else []
  }

  // How many of them found 256 others waiting.
  ghost function Dropped(events: seq<Event>, c: ClientId): nat {
    if events == [] then 0
    else
      var before, e := events[..|events| - 1], events[|events| - 1];
      Dropped(before, c) + if IsFor(before, e, c) && IsFull(After(before), c) then 1 else 0
  }

  ghost predicate IsFull(s: State, c: ClientId) { c in s.conns && |s.conns[c].queue| >= 256 }

  // a can be had from b by leaving elements out.
  predicate IsSubsequence(a: seq<Message>, b: seq<Message>)
    decreases |b|
  {
    if a == [] then true
    else if b == [] then false
    else
      || (a[|a| - 1] == b[|b| - 1] && IsSubsequence(a[..|a| - 1], b[..|b| - 1]))
      || IsSubsequence(a, b[..|b| - 1])
  }

  lemma SubsequenceExtends(a: seq<Message>, b: seq<Message>, m: Message)
    requires IsSubsequence(a, b)
    ensures IsSubsequence(a, b + [m]) && IsSubsequence(a + [m], b + [m])
  {
    assert (b + [m])[..|b|] == b && (a + [m])[..|a|] == a;
  }

  // What c's writer has taken and will still find.
  function Seen(s: State, c: ClientId): seq<Message> {
    if c in s.conns then s.conns[c].taken + s.conns[c].queue else []
  }

  lemma SeenAfter(s: State, e: Event, c: ClientId)
    requires e.Register? ==> e.c !in s.conns
    ensures Seen(Step(s, e), c) ==
            if Addresses(s, e, c) && |s.conns[c].queue| < CAPACITY then Seen(s, c) + [e.m] else Seen(s, c)
  {
    if c in s.conns {
      var conn := s.conns[c];
      if Addresses(s, e, c) && |conn.queue| < CAPACITY {
        assert conn.taken + (conn.queue + [e.m]) == conn.taken + conn.queue + [e.m];
      }
      if e == Take(c) && conn.queue != [] {
        assert conn.taken + [conn.queue[0]] + conn.queue[1..] == conn.taken + conn.queue;
      }
    }
  }

  // What one event does to what a client sees and to what it was sent.
  lemma SeenAndAddressed(events: seq<Event>, c: ClientId)
    requires IsRun(events) && events != []
    ensures var before, e := events[..|events| - 1], events[|events| - 1];
            var s := After(before);
            if !IsFor(before, e, c) then
              && Seen(After(events), c) == Seen(s, c)
              && Addressed(events, c) == Addressed(before, c) && Dropped(events, c) == Dropped(before, c)
            else if !IsFull(s, c) then
              && Seen(After(events), c) == Seen(s, c) + [e.m]
              && Addressed(events, c) == Addressed(before, c) + [e.m] && Dropped(events, c) == Dropped(before, c)
            else
              && Seen(After(events), c) == Seen(s, c)
              && Addressed(events, c) == Addressed(before, c) + [e.m] && Dropped(events, c) == Dropped(before, c) + 1
  {
    AddressesIff(events[..|events| - 1], events[|events| - 1], c);
    SeenAfter(After(events[..|events| - 1]), events[|events| - 1], c);
  }

  lemma {:induction false} SeenInOrder(events: seq<Event>, c: ClientId)
    requires IsRun(events)
    ensures IsSubsequence(Seen(After(events), c), Addressed(events, c))
  {
    if events == [] {
    } else {
      var before, e := events[..|events| - 1], events[|events| - 1];
      SeenInOrder(before, c);
      SeenAndAddressed(events, c);
      if IsFor(before, e, c) {
        SubsequenceExtends(Seen(After(before), c), Addressed(before, c), e.m);
      }
    }
  }

  lemma {:induction false} DeliveryAccounts(events: seq<Event>, c: ClientId)
    requires IsRun(events)
    ensures |Seen(After(events), c)| + Dropped(events, c) == |Addressed(events, c)|
  {
    if events == [] {
    } else {
      DeliveryAccounts(events[..|events| - 1], c);
      SeenAndAddressed(events, c);
    }
  }

  lemma {:induction false} AllSeenUnlessDropped(events: seq<Event>, c: ClientId)
    requires IsRun(events) && Dropped(events, c) == 0
    ensures Seen(After(events), c) == Addressed(events, c)
  {
    if events == [] {
    } else {
      SeenAndAddressed(events, c);
      AllSeenUnlessDropped(events[..|events| - 1], c);
    }
  }

  // A client's writer sees its messages in order and none twice; it sees all of them exactly
  // when the queue was never full as one arrived.
  lemma WriterSeesInOrder(events: seq<Event>, c: ClientId)
    requires IsRun(events) && c in After(events).conns
    ensures var conn := After(events).conns[c];
            && IsSubsequence(conn.taken + conn.queue, Addressed(events, c))
            && (conn.taken + conn.queue == Addressed(events, c) <==> Dropped(events, c) == 0)
  {
    SeenInOrder(events, c);
    DeliveryAccounts(events, c);
    if Dropped(events, c) == 0 { AllSeenUnlessDropped(events, c); }
  }

  // What has been taken is final: it only ever grows, by the message that has waited longest
  // whenever the writer takes one.
  lemma TakenOnlyGrows(s: State, e: Event, c: ClientId)
    requires c in s.conns
    ensures c in Step(s, e).conns
    ensures Step(s, e).conns[c].taken
            == s.conns[c].taken + if e == Take(c) && s.conns[c].queue != [] then [s.conns[c].queue[0]] else []
  {
  }

  /// The life of one connection

  type EventName = string

  // What the read loop finds on the wire: an event, or an error or malformed frame that ends it.
  datatype Incoming = Frame(name: EventName) | Broken

  datatype Action = Registered | Dispatched(name: EventName) | Unregistered | Disconnected(handler: nat)

  class Endpoint {
    var handlers: set<EventName>
    var disconnects: seq<nat>

    constructor ()
      ensures handlers == {} && disconnects == []
    {
      handlers, disconnects := {}, [];
    }

    method On(name: EventName)
      modifies this
      ensures handlers == old(handlers) + {name} && disconnects == old(disconnects)
    {
      handlers := handlers + {name};
    }

    method OnDisconnect(handler: nat)
      modifies this
      ensures disconnects == old(disconnects) + [handler] && handlers == old(handlers)
    {
      disconnects := disconnects + [handler];
    }

    // What happens, in order, once the connection is upgraded. The connection ends in an error
    // sooner or later.
    method ServeWS(wire: seq<Incoming>) returns (log: seq<Action>)
      requires Broken in wire
      ensures log == Life(handlers, wire, disconnects)
    {
      log := [Registered];
      var i := 0;
      assert wire[0..] == wire;
      while wire[i] != Broken
        invariant i < |wire| && Broken in wire[i..]
        invariant log + Dispatches(handlers, wire[i..]) == [Registered] + Dispatches(handlers, wire)
        decreases |wire| - i
      {
        ghost var rest := wire[i..];
        assert rest[1..] == wire[i + 1..];
        if wire[i].name in handlers {
          log := log + [Dispatched(wire[i].name)];
        }
        i := i + 1;
      }
      log := log + [Unregistered];
      for j := 0 to |disconnects|
        invariant log == [Registered] + Dispatches(handlers, wire) + [Unregistered] + Farewells(disconnects[..j])
      {
        assert disconnects[..j + 1][..j] == disconnects[..j];
        log := log + [Disconnected(disconnects[j])];
      }
      assert disconnects[..|disconnects|] == disconnects;
    }
  }

  // Events without a handler are ignored; nothing after the first broken frame is looked at.
  function Dispatches(handlers: set<EventName>, wire: seq<Incoming>): seq<Action> {
    if wire == [] || wire[0].Broken? then []
    else (if wire[0].name in handlers then [Dispatched(wire[0].name)] else []) + Dispatches(handlers, wire[1..])
  }

  function Farewells(disconnects: seq<nat>): seq<Action> {
    if disconnects == [] then []
    else Farewells(disconnects[..|disconnects| - 1]) + [Disconnected(disconnects[|disconnects| - 1])]
  }

  // Everything that happens to a connection.
  function Life(handlers: set<EventName>, wire: seq<Incoming>, disconnects: seq<nat>): seq<Action> {
    [Registered] + Dispatches(handlers, wire) + [Unregistered] + Farewells(disconnects)
  }

  // The connection's frames end at index `end`: with the first broken one, or with the wire.
  ghost predicate EndsAt(wire: seq<Incoming>, end: nat) {
    end <= |wire| && (forall i :: 0 <= i < end ==> wire[i].Frame?) && (end == |wire| || wire[end].Broken?)
  }

  predicate IsHandled(handlers: set<EventName>, frame: Incoming) { frame.Frame? && frame.name in handlers }

  // How many of the first n frames have a handler.
  function Handled(handlers: set<EventName>, wire: seq<Incoming>, n: nat): nat
    requires n <= |wire|
  {
    if n == 0 then 0 else Handled(handlers, wire, n - 1) + if IsHandled(handlers, wire[n - 1]) then 1 else 0
  }

  lemma {:induction false} HandledAfterFirst(handlers: set<EventName>, wire: seq<Incoming>, n: nat)
    requires 0 < n <= |wire|
    ensures Handled(handlers, wire, n)
            == (if IsHandled(handlers, wire[0]) then 1 else 0) + Handled(handlers, wire[1..], n - 1)
  {
    if n == 1 {
      assert Handled(handlers, wire, 0) == 0;
    } else {
      HandledAfterFirst(handlers, wire, n - 1);
      assert wire[1..][n - 2] == wire[n - 1];
    }
  }

  // Every handled frame up to the end is dispatched, at the place that its predecessors leave it.
  lemma {:induction false} DispatchesExactly(handlers: set<EventName>, wire: seq<Incoming>, end: nat)
    requires EndsAt(wire, end)
    ensures |Dispatches(handlers, wire)| == Handled(handlers, wire, end)
    ensures forall i :: 0 <= i < end && IsHandled(handlers, wire[i]) ==>
              && Handled(handlers, wire, i) < Handled(handlers, wire, end)
              && Dispatches(handlers, wire)[Handled(handlers, wire, i)] == Dispatched(wire[i].name)
  {
    if end == 0 {
    } else {
      DispatchesExactly(handlers, wire[1..], end - 1);
      HandledAfterFirst(handlers, wire, end);
      forall i | 0 <= i < end && IsHandled(handlers, wire[i])
        ensures Handled(handlers, wire, i) < Handled(handlers, wire, end)
        ensures Dispatches(handlers, wire)[Handled(handlers, wire, i)] == Dispatched(wire[i].name)
      {
        if i > 0 {
          HandledAfterFirst(handlers, wire, i);
          assert wire[1..][i - 1] == wire[i];
        }
      }
    }
  }

  lemma {:induction false} DispatchesOnly(handlers: set<EventName>, wire: seq<Incoming>)
    ensures forall a :: a in Dispatches(handlers, wire) ==> a.Dispatched? && a.name in handlers
  {
    if wire == [] || wire[0].Broken? {
    } else {
      DispatchesOnly(handlers, wire[1..]);
    }
  }

  lemma {:induction false} FarewellsInOrder(disconnects: seq<nat>)
    ensures |Farewells(disconnects)| == |disconnects|
    ensures forall i :: 0 <= i < |disconnects| ==> Farewells(disconnects)[i] == Disconnected(disconnects[i])
  {
    if disconnects == [] {
    } else {
      FarewellsInOrder(disconnects[..|disconnects| - 1]);
    }
  }

  // A connection is registered first and unregistered once; in between every frame with a handler is
  // dispatched to it, in order and once, up to the first broken one, and nothing else is; afterwards
  // each disconnect handler runs once, in order.
  lemma ConnectionHasOneLife(handlers: set<EventName>, wire: seq<Incoming>, disconnects: seq<nat>, end: nat)
    requires EndsAt(wire, end)
    ensures var log, last := Life(handlers, wire, disconnects), 1 + Handled(handlers, wire, end);
            && |log| == last + 1 + |disconnects|
            && (forall i :: 0 <= i < |log| ==>
                  && (log[i] == Registered <==> i == 0)
                  && (log[i] == Unregistered <==> i == last)
                  && (log[i].Dispatched? <==> 0 < i < last) && (log[i].Dispatched? ==> log[i].name in handlers)
                  && (i > last ==> log[i] == Disconnected(disconnects[i - last - 1])))
            && (forall i :: 0 <= i < end && IsHandled(handlers, wire[i]) ==>
                  && Handled(handlers, wire, i) < Handled(handlers, wire, end)
                  && log[1 + Handled(handlers, wire, i)] == Dispatched(wire[i].name))
  {
    var log, middle := Life(handlers, wire, disconnects), Dispatches(handlers, wire);
    DispatchesExactly(handlers, wire, end);
    DispatchesOnly(handlers, wire);
    FarewellsInOrder(disconnects);
    forall i | 0 < i <= |middle| ensures log[i] == middle[i - 1] && log[i] in middle {}
  }
}
