/** Sessions, the session store and the media router, as they update peer connections in place. */
module MediaRouter {
  import opened Wrappers
  import opened RoomUsers
  import opened Sfu
  import SfuLaws

  // A session with the outgoing side of its peer connection, which belongs to the WebRTC
  // library and is kept here as a value.
  class Session {
    var pc: Pc
    var closed: bool
    var localTrack: Option<Track>
    var stopOpen: bool
    var senders: map<ClientId, Sender>

    constructor (id: nat)
      ensures View() == NewSession(id) && !closed
    {
      pc, closed := Pc(id, map[], 0), false;
      localTrack, stopOpen, senders := None, false, map[];
    }

    ghost function View(): Sfu.Session
      reads this
    {
      Sfu.Session(pc, localTrack, stopOpen, senders)
    }

    // A closed connection refuses tracks; `fails` are the library's other reasons.
    method AddTrack(t: Track, fails: bool) returns (sender: Option<Sender>)
      modifies this`pc
      ensures sender == if fails || closed then None else Some(NextSender(old(View())))
      ensures View() == if fails || closed then old(View()) else Attached(old(View()), t)
    {
      if fails || closed {
        return None;
      }
      sender := Some(Sender(pc.id, pc.nextSlot));
      pc := pc.(tracks := pc.tracks[pc.nextSlot := t], nextSlot := pc.nextSlot + 1);
    }

    method RemoveTrack(sender: Sender, fails: bool) returns (ok: bool)
      modifies this`pc
      ensures ok <==> !closed && !fails && sender.pc == old(pc).id && sender.slot in old(pc).tracks
      ensures View() == if closed || fails then old(View()) else Detached(old(View()), sender)
    {
      ok := !closed && !fails && sender.pc == pc.id && sender.slot in pc.tracks;
      if ok {
        pc := pc.(tracks := pc.tracks - {sender.slot});
      }
    }

    method StartPublishing(t: Track)
      modifies this
      ensures View() == Publishing(old(View()), t) && closed == old(closed)
    {
      localTrack, stopOpen := Some(t), true;
    }

    // Gives up the senders on record.
    method StopPublishing() returns (taken: map<ClientId, Sender>)
      modifies this
      ensures taken == old(senders) && View() == Silenced(old(View())) && closed == old(closed)
    {
      stopOpen, localTrack := false, None;
      taken, senders := senders, map[];
    }

    method AddSender(client: ClientId, sender: Sender)
      modifies this`senders
      ensures View() == old(View()).(senders := old(senders)[client := sender])
    {
      senders := senders[client := sender];
    }

    method Close()
      modifies this
      ensures View() == Silenced(old(View())) && closed
    {
      var _ := StopPublishing();
      closed := true;
    }
  }

  class SessionStore {
    var sessions: map<ClientId, Session>

    constructor ()
      ensures Valid() && View() == map[]
    {
      sessions := map[];
    }

    // Clients do not share sessions, and stored sessions are open.
    ghost predicate Valid()
      reads this, sessions.Values
    {
      && (forall a, b :: a in sessions && b in sessions && a != b ==> sessions[a] != sessions[b])
      && (forall a :: a in sessions ==> !sessions[a].closed)
    }

    ghost function View(): Store
      reads this, sessions.Values
    {
      map c | c in sessions :: sessions[c].View()
    }

    // A session the client already had is closed; the senders it gives up are dropped.
    method Add(client: ClientId, pc: nat) returns (session: Session)
      requires Valid()
      modifies this, sessions.Values
      ensures Valid() && fresh(session) && sessions == old(sessions)[client := session]
      ensures View() == old(View())[client := NewSession(pc)]
      ensures client in old(sessions) ==> old(sessions)[client].closed
    {
      session := new Session(pc);
      var was: Session? := if client in sessions then sessions[client] else null;
      sessions := sessions[client := session];
      if was != null {
        was.Close();
      }
    }

    // One session changed, and no other.
    twostate lemma Updated(client: ClientId)
      requires old(Valid()) && sessions == old(sessions) && client in sessions
      requires forall c :: c in sessions && c != client ==> unchanged(sessions[c])
      requires !sessions[client].closed
      ensures Valid() && View() == old(View())[client := sessions[client].View()]
    {
    }

    method Get(client: ClientId) returns (session: Session?)
      ensures if client in sessions then session == sessions[client] else session == null
    {
      session := if client in sessions then sessions[client] else null;
    }

    method Remove(client: ClientId)
      requires Valid()
      modifies this, sessions.Values
      ensures Valid() && sessions == old(sessions) - {client}
      ensures View() == old(View()) - {client}
      ensures client in old(sessions) ==> old(sessions)[client].closed
    {
      if client in sessions {
        var session := sessions[client];
        sessions := sessions - {client};
        session.Close();
      }
    }
  }

  /// One step of each loop, on values

  lemma SubscribeNext(store: Store, c: ClientId, list: seq<ClientId>, i: nat, fails: set<ClientId>)
    requires i < |list|
    ensures Subscribe(store, c, list[..i + 1], fails)
            == SubscribeOne(Subscribe(store, c, list[..i], fails), c, list[i], fails)
  {
    assert list[..i + 1][..i] == list[..i];
  }

  lemma DeliveredInSteps(store: Store, p: ClientId, x: ClientId, t: Track)
    requires p in store && x in store && p != x
    ensures var mid := store[x := Attached(store[x], t)];
            mid[p := mid[p].(senders := mid[p].senders[x := NextSender(store[x])])] == Delivered(store, p, x, t)
  {
  }

  lemma FanOutToNobody(store: Store, c: ClientId, t: Track, fails: set<ClientId>)
    requires c in store
    ensures FanOut(store, c, [], t, fails) == store
  {
    assert NewSenders(store, c, [], fails) == map[];
    assert store[c].senders + map[] == store[c].senders;
  }

  lemma NewSendersNext(store: Store, c: ClientId, list: seq<ClientId>, x: ClientId, fails: set<ClientId>)
    ensures NewSenders(store, c, list + [x], fails) ==
            if x == c || x !in store || x in fails then NewSenders(store, c, list, fails)
            else NewSenders(store, c, list, fails)[x := NextSender(store[x])]
  {
  }

  lemma FanOutNext(store: Store, c: ClientId, list: seq<ClientId>, x: ClientId, t: Track, fails: set<ClientId>)
    requires c in store && x !in list
    ensures var mid, out := FanOut(store, c, list, t, fails), FanOut(store, c, list + [x], t, fails);
            && (x in store && x != c ==> mid[x] == store[x])
            && out == if x == c || x !in store || x in fails then mid else Delivered(mid, c, x, t)
  {
    var mid, out := FanOut(store, c, list, t, fails), FanOut(store, c, list + [x], t, fails);
    NewSendersNext(store, c, list, x, fails);
    if x == c || x !in store || x in fails {
      assert out == mid;
    } else {
      assert store[c].senders + NewSenders(store, c, list, fails)[x := NextSender(store[x])]
             == (store[c].senders + NewSenders(store, c, list, fails))[x := NextSender(store[x])];
      assert out == Delivered(mid, c, x, t);
    }
  }

  // The fan-out of a session in the store, or of one that no longer is.
  function FannedOut(stored: bool, store: Store, c: ClientId, list: seq<ClientId>, t: Track,
                     fails: set<ClientId>): Store
    requires stored ==> c in store
  {
    if stored then FanOut(store, c, list, t, fails) else FanOutUnkept(store, c, list, t, fails)
  }

  function OneFannedOut(stored: bool, store: Store, c: ClientId, x: ClientId, t: Track, fails: set<ClientId>): Store
    requires stored ==> c in store
  {
    if x == c || x !in store || x in fails then store
    else if stored then Delivered(store, c, x, t)
    else store[x := Attached(store[x], t)]
  }

  lemma FannedOutToNobody(stored: bool, store: Store, c: ClientId, t: Track, fails: set<ClientId>)
    requires stored ==> c in store
    ensures FannedOut(stored, store, c, [], t, fails) == store
  {
    if stored { FanOutToNobody(store, c, t, fails); }
  }

  lemma FannedOutNext(stored: bool, store: Store, c: ClientId, list: seq<ClientId>, x: ClientId, t: Track,
                      fails: set<ClientId>)
    requires (stored ==> c in store) && x !in list
    ensures FannedOut(stored, store, c, list + [x], t, fails)
            == OneFannedOut(stored, FannedOut(stored, store, c, list, t, fails), c, x, t, fails)
  {
    if stored {
      FanOutNext(store, c, list, x, t, fails);
    } else {
      assert FanOutUnkept(store, c, list + [x], t, fails)
             == OneFannedOut(false, FanOutUnkept(store, c, list, t, fails), c, x, t, fails);
    }
  }

  // A stop in progress: the senders of the clients in `done` have been dealt with.
  ghost function StopSome(store: Store, c: ClientId, stuck: set<Sender>, done: set<ClientId>): Store
    requires c in store
  {
    map x | x in store ::
      var s := if x == c then Silenced(store[c]) else store[x];
      if x in done && x in store[c].senders && store[c].senders[x] !in stuck
      then Detached(s, store[c].senders[x])
      else s
  }

  lemma StopSomeAll(store: Store, c: ClientId, stuck: set<Sender>)
    requires c in store
    ensures StopSome(store, c, stuck, store[c].senders.Keys) == StopPublishing(store, c, stuck)
  {
  }

  lemma StopSomeNext(store: Store, c: ClientId, stuck: set<Sender>, done: set<ClientId>, x: ClientId)
    requires c in store && x !in done && x in store[c].senders
    ensures var mid, out := StopSome(store, c, stuck, done), StopSome(store, c, stuck, done + {x});
            out == if x in store && store[c].senders[x] !in stuck
                   then mid[x := Detached(mid[x], store[c].senders[x])]
                   else mid
  {
  }

  class MediaRouter {
    const store: SessionStore

    constructor ()
      ensures fresh(store) && store.Valid() && store.View() == map[]
    {
      store := new SessionStore();
    }

    // Put track t of p on the connection of x and keep the sender with p.
    method Deliver(p: ClientId, x: ClientId, t: Track, fails: bool) returns (ok: bool)
      requires store.Valid() && p in store.sessions && x in store.sessions && p != x
      modifies store.sessions[p], store.sessions[x]
      ensures store.Valid() && ok == !fails
      ensures store.View() == if ok then Delivered(old(store.View()), p, x, t) else old(store.View())
    {
      ghost var before := store.View();
      var sender := store.sessions[x].AddTrack(t, fails);
      store.Updated(x);
      if sender == None { return false; }
      assert store.View() == before[x := Attached(before[x], t)];
      Record(p, x, sender.value);
      DeliveredInSteps(before, p, x, t);
      return true;
    }

    method Record(p: ClientId, x: ClientId, sender: Sender)
      requires store.Valid() && p in store.sessions
      modifies store.sessions[p]
      ensures store.Valid()
      ensures var before := old(store.View());
              store.View() == before[p := before[p].(senders := before[p].senders[x := sender])]
    {
      store.sessions[p].AddSender(x, sender);
      store.Updated(p);
    }

    // `clients` is the hub's answer for the room; `errors` are the clients told of a failure.
    method SubscribeToRoomTracks(c: ClientId, clients: seq<ClientId>, fails: set<ClientId>)
      returns (errors: seq<ClientId>)
      requires store.Valid() && c in store.sessions
      modifies store.sessions.Values
      ensures store.Valid() && store.sessions == old(store.sessions)
      ensures store.View() == Subscribe(old(store.View()), c, clients, fails)
      ensures forall e :: e in errors ==> e == c
    {
      errors := [];
      for i := 0 to |clients|
        invariant store.Valid() && store.sessions == old(store.sessions)
        invariant store.View() == Subscribe(old(store.View()), c, clients[..i], fails)
        invariant forall e :: e in errors ==> e == c
      {
        SubscribeNext(old(store.View()), c, clients, i, fails);
        var failed := SubscribeTo(c, clients[i], fails);
        if failed {
          errors := errors + [c];
        }
      }
      assert clients[..|clients|] == clients;
    }

    method SubscribeTo(c: ClientId, client: ClientId, fails: set<ClientId>) returns (failed: bool)
      requires store.Valid() && c in store.sessions
      modifies store.sessions.Values
      ensures store.Valid() && store.View() == SubscribeOne(old(store.View()), c, client, fails)
      ensures failed ==> client in fails
    {
      if client == c { return false; }
      var peer := store.Get(client);
      if peer == null || peer.localTrack == None { return false; }
      var ok := Deliver(client, c, peer.localTrack.value, client in fails);
      return !ok;
    }

    // The session is the client's own, or has been replaced or removed meanwhile.
    ghost predicate Belongs(c: ClientId, session: Session)
      reads store
    {
      session in store.sessions.Values ==> c in store.sessions && store.sessions[c] == session
    }

    ghost predicate Stored(c: ClientId, session: Session)
      reads store
    {
      c in store.sessions && store.sessions[c] == session
    }

    method FanOutTrack(c: ClientId, session: Session, clients: seq<ClientId>, t: Track, fails: set<ClientId>)
      returns (errors: seq<ClientId>)
      requires store.Valid() && Belongs(c, session)
      requires SfuLaws.NoRepeats(clients)
      modifies store.sessions.Values, session
      ensures store.Valid() && store.sessions == old(store.sessions)
      ensures store.View() == FannedOut(Stored(c, session), old(store.View()), c, clients, t, fails)
      ensures forall e :: e in errors <==> e in clients && e != c && e in store.sessions && e in fails
    {
      errors := [];
      FannedOutToNobody(Stored(c, session), store.View(), c, t, fails);
      for i := 0 to |clients|
        invariant store.Valid() && store.sessions == old(store.sessions)
        invariant store.View() == FannedOut(Stored(c, session), old(store.View()), c, clients[..i], t, fails)
        invariant forall e :: e in errors <==> e in clients[..i] && e != c && e in store.sessions && e in fails
      {
        var client := clients[i];
        assert clients[..i + 1] == clients[..i] + [client];
        FannedOutNext(Stored(c, session), old(store.View()), c, clients[..i], client, t, fails);
        var failed := FanOutTo(c, session, client, t, fails);
        if failed {
          errors := errors + [client];
        }
      }
      assert clients[..|clients|] == clients;
    }

    method FanOutTo(c: ClientId, session: Session, client: ClientId, t: Track, fails: set<ClientId>)
      returns (failed: bool)
      requires store.Valid() && Belongs(c, session)
      modifies store.sessions.Values, session
      ensures store.Valid() && store.sessions == old(store.sessions)
      ensures store.View() == OneFannedOut(Stored(c, session), old(store.View()), c, client, t, fails)
      ensures failed <==> client != c && client in store.sessions && client in fails
    {
      if client == c { return false; }
      var peer := store.Get(client);
      if peer == null { return false; }
      ghost var before := store.View();
      var sender := peer.AddTrack(t, client in fails);
      store.Updated(client);
      if sender == None { return true; }
      assert store.View() == before[client := Attached(before[client], t)];
      KeepSender(c, session, client, sender.value);
      if Stored(c, session) { DeliveredInSteps(before, c, client, t); }
      return false;
    }

    method KeepSender(c: ClientId, session: Session, client: ClientId, sender: Sender)
      requires store.Valid() && Belongs(c, session)
      modifies session
      ensures store.Valid()
      ensures var before := old(store.View());
              store.View() == if Stored(c, session)
                              then before[c := before[c].(senders := before[c].senders[client := sender])]
                              else before
    {
      session.AddSender(client, sender);
      if Stored(c, session) { store.Updated(c); }
    }

    // The senders in `stuck` are those whose removal is refused, which is logged and passed over.
    method StopPublishing(c: ClientId, stuck: set<Sender>)
      requires store.Valid()
      modifies store.sessions.Values
      ensures store.Valid() && store.sessions == old(store.sessions)
      ensures store.View() == Sfu.StopPublishing(old(store.View()), c, stuck)
    {
      if c !in store.sessions { return; }
      ghost var before := store.View();
      var senders := Silence(c, stuck);
      StopSomeAll(before, c, stuck);
      DetachAll(before, c, senders, stuck);
    }

    method DetachAll(ghost before: Store, c: ClientId, senders: map<ClientId, Sender>, stuck: set<Sender>)
      requires store.Valid() && c in before && senders == before[c].senders
      requires store.View() == StopSome(before, c, stuck, {})
      modifies store.sessions.Values
      ensures store.Valid() && store.View() == StopSome(before, c, stuck, senders.Keys)
    {
      var pending := senders.Keys;
      ghost var done := {};
      while pending != {}
        invariant store.Valid()
        invariant done + pending == senders.Keys && done !! pending
        invariant store.View() == StopSome(before, c, stuck, done)
        decreases pending
      {
        var client :| client in pending;
        StopSomeNext(before, c, stuck, done, client);
        pending, done := pending - {client}, done + {client};
        Detach(client, senders[client], senders[client] in stuck);
      }
    }

    method Silence(c: ClientId, ghost stuck: set<Sender>) returns (senders: map<ClientId, Sender>)
      requires store.Valid() && c in store.sessions
      modifies store.sessions.Values
      ensures store.Valid() && senders == old(store.sessions[c].senders)
      ensures store.View() == StopSome(old(store.View()), c, stuck, {})
    {
      senders := store.sessions[c].StopPublishing();
      store.Updated(c);
    }

    // Take a sender off its client's connection, if the client still has one.
    method Detach(client: ClientId, sender: Sender, fails: bool)
      requires store.Valid()
      modifies store.sessions.Values
      ensures store.Valid() && store.sessions == old(store.sessions)
      ensures var before := old(store.View());
              store.View() == if client in before && !fails then before[client := Detached(before[client], sender)]
                              else before
    {
      var subscriber := store.Get(client);
      if subscriber == null { return; }
      var _ := subscriber.RemoveTrack(sender, fails);
      store.Updated(client);
    }

    // The hub's clients of the room with the users they belong to.
    method RevokePublishing(user: UserId, clients: seq<(ClientId, UserId)>, stuck: set<Sender>)
      requires store.Valid()
      modifies store.sessions.Values
      ensures store.Valid() && store.sessions == old(store.sessions)
      ensures store.View() == Revoked(old(store.View()), user, clients, stuck)
    {
      for i := 0 to |clients|
        invariant store.Valid() && store.sessions == old(store.sessions)
        invariant store.View() == Revoked(old(store.View()), user, clients[..i], stuck)
      {
        assert clients[..i + 1][..i] == clients[..i];
        if clients[i].1 == user {
          StopPublishing(clients[i].0, stuck);
        }
      }
      assert clients[..|clients|] == clients;
    }

    // The join handler's part: a new session that receives the room's tracks.
    method Join(c: ClientId, pc: nat, clients: seq<ClientId>, fails: set<ClientId>)
      requires store.Valid()
      modifies store, store.sessions.Values
      ensures store.Valid()
      ensures store.View() == Subscribe(old(store.View())[c := NewSession(pc)], c, clients, fails)
    {
      var _ := store.Add(c, pc);
      var _ := SubscribeToRoomTracks(c, clients, fails);
    }

    // The track callback's part, once the row has been found to be a speaker's.
    method Publish(c: ClientId, session: Session, t: Track, clients: seq<ClientId>, fails: set<ClientId>,
                   stuck: set<Sender>)
      requires store.Valid() && Belongs(c, session)
      requires SfuLaws.NoRepeats(clients)
      modifies store.sessions.Values, session
      ensures store.Valid() && store.sessions == old(store.sessions)
      ensures var stopped := Sfu.StopPublishing(old(store.View()), c, stuck);
              store.View() == if Stored(c, session)
                              then FanOut(stopped[c := Publishing(stopped[c], t)], c, clients, t, fails)
                              else FanOutUnkept(stopped, c, clients, t, fails)
    {
      StopPublishing(c, stuck);
      Start(c, session, t);
      var _ := FanOutTrack(c, session, clients, t, fails);
    }

    method Start(c: ClientId, session: Session, t: Track)
      requires store.Valid() && Belongs(c, session)
      modifies session
      ensures store.Valid()
      ensures var before := old(store.View());
              store.View() == if Stored(c, session) then before[c := Publishing(before[c], t)] else before
    {
      session.StartPublishing(t);
      if Stored(c, session) { store.Updated(c); }
    }

    // The leave and disconnect handlers' part.
    method Leave(c: ClientId, stuck: set<Sender>)
      requires store.Valid()
      modifies store, store.sessions.Values
      ensures store.Valid() && store.View() == Sfu.StopPublishing(old(store.View()), c, stuck) - {c}
    {
      StopPublishing(c, stuck);
      store.Remove(c);
    }
  }
}
