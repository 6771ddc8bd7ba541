/** Exact fan-out: in every reachable state each listener's connection carries each speaker's
 * track once, under the sender that the speaker's session has on record.
 */
module SfuLaws {
  import opened Wrappers
  import opened RoomUsers
  import opened Sfu

  /// The invariant

  // Identities are in order, and the parts of a session agree with each other.
  ghost predicate SessionOk(s: State, x: ClientId)
    requires x in s.store
  {
    var session := s.store[x];
    && x in s.clients
    && session.pc.id < s.nextPc
    && (forall k :: k in session.pc.tracks ==> k < session.pc.nextSlot)
    && (session.stopOpen <==> session.localTrack.Some?)
    && (session.localTrack.None? ==> session.senders == map[])
    && (session.localTrack.Some? ==>
          session.localTrack.value.owner == x && session.localTrack.value.serial < s.nextTrack)
  }

  ghost predicate Shape(s: State) {
    && s.registered <= s.clients.Keys
    && (forall x :: x in s.store ==> SessionOk(s, x))
    && (forall x, y :: x in s.store && y in s.store && x != y ==> s.store[x].pc.id != s.store[y].pc.id)
  }

  // The track its owner publishes at the moment.
  ghost predicate IsCurrent(s: State, t: Track) { t.owner in s.store && s.store[t.owner].localTrack == Some(t) }

  // Slot k of x's connection carries a track of another client of the room, and if that track is
  // current, the owner has the sender on record.
  ghost predicate Carried(s: State, x: ClientId, k: nat)
    requires x in s.store && k in s.store[x].pc.tracks
  {
    var t := s.store[x].pc.tracks[k];
    var p := t.owner;
    && t.serial < s.nextTrack
    && p != x && p in s.clients && x in s.clients && s.clients[p].room == s.clients[x].room
    && (IsCurrent(s, t) ==> x in s.store[p].senders && s.store[p].senders[x] == Sender(s.store[x].pc.id, k))
  }

  ghost predicate AllCarried(s: State) {
    forall x, k :: x in s.store && k in s.store[x].pc.tracks ==> Carried(s, x, k)
  }

  // A sender on record for x, if it is still in place, carries the recording client's current track.
  ghost predicate RecordOk(s: State, c: ClientId, x: ClientId)
    requires c in s.store && x in s.store[c].senders
  {
    var sender := s.store[c].senders[x];
    && sender.pc < s.nextPc
    && (x in s.store && sender.pc == s.store[x].pc.id ==>
          && sender.slot < s.store[x].pc.nextSlot
          && (sender.slot in s.store[x].pc.tracks ==> s.store[c].localTrack == Some(s.store[x].pc.tracks[sender.slot])))
  }

  ghost predicate RecordsOk(s: State) {
    forall c, x :: c in s.store && x in s.store[c].senders ==> RecordOk(s, c, x)
  }

  // p speaks and x listens in the same room, both connected.
  ghost predicate Meet(s: State, p: ClientId, x: ClientId) {
    && p != x && p in s.registered && x in s.registered && s.registered <= s.clients.Keys
    && p in s.store && x in s.store
    && s.clients[p].room == s.clients[x].room
    && s.store[p].localTrack.Some?
  }

  ghost predicate HasTrack(s: State, p: ClientId, x: ClientId)
    requires p in s.store && x in s.store && s.store[p].localTrack.Some?
  {
    && x in s.store[p].senders
    && var sender := s.store[p].senders[x];
       && sender.pc == s.store[x].pc.id && sender.slot in s.store[x].pc.tracks
       && s.store[x].pc.tracks[sender.slot] == s.store[p].localTrack.value
  }

  ghost predicate WasRefused(s: State, p: ClientId, x: ClientId)
    requires p in s.store && x in s.store && s.store[p].localTrack.Some?
  {
    (s.store[p].localTrack.value, s.store[x].pc.id) in s.refused
  }

  ghost predicate AllDelivered(s: State) {
    forall p, x :: Meet(s, p, x) ==> HasTrack(s, p, x) || WasRefused(s, p, x)
  }

  // A refused attachment is never also made.
  ghost predicate RefusalsStand(s: State) {
    && (forall r :: r in s.refused ==> r.0.serial < s.nextTrack && r.1 < s.nextPc)
    && (forall x, k :: x in s.store && k in s.store[x].pc.tracks ==>
          (s.store[x].pc.tracks[k], s.store[x].pc.id) !in s.refused)
  }

  ghost predicate Inv(s: State) { Shape(s) && RecordsOk(s) && AllCarried(s) && AllDelivered(s) && RefusalsStand(s) }

  /// What the operations do to a store

  // p is among those whose track a joining client is given.
  predicate Heard(store: Store, c: ClientId, p: ClientId, list: seq<ClientId>, fails: set<ClientId>) {
    p in list && p != c && p in store && p !in fails && store[p].localTrack.Some?
  }

  ghost predicate OwnTracks(store: Store) {
    forall x :: x in store && store[x].localTrack.Some? ==> store[x].localTrack.value.owner == x
  }

  ghost predicate NoRepeats(list: seq<ClientId>) { forall i, j :: 0 <= i < j < |list| ==> list[i] != list[j] }

  // How joining changes the session of another client.
  ghost predicate PeerAfterJoin(store: Store, out: Store, c: ClientId, p: ClientId,
                                list: seq<ClientId>, fails: set<ClientId>)
    requires c in store && c in out && p in store && p in out
  {
    if Heard(store, c, p, list, fails) then
      && c in out[p].senders
      && out[p] == store[p].(senders := store[p].senders[c := out[p].senders[c]])
      && out[p].senders[c].pc == store[c].pc.id
      && out[p].senders[c].slot in out[c].pc.tracks
      && out[c].pc.tracks[out[p].senders[c].slot] == store[p].localTrack.value
    else
      out[p] == store[p]
  }

  ghost predicate SlotAfterJoin(store: Store, out: Store, c: ClientId, k: nat, list: seq<ClientId>,
                                fails: set<ClientId>)
    requires c in store && c in out && k in out[c].pc.tracks
  {
    var p := out[c].pc.tracks[k].owner;
    && k < out[c].pc.nextSlot
    && Heard(store, c, p, list, fails) && store[p].localTrack == Some(out[c].pc.tracks[k])
    && p in out && c in out[p].senders && out[p].senders[c] == Sender(store[c].pc.id, k)
  }

  ghost predicate JoinEffect(store: Store, out: Store, c: ClientId, list: seq<ClientId>, fails: set<ClientId>) {
    && c in store && out.Keys == store.Keys
    && out[c] == store[c].(pc := out[c].pc) && out[c].pc.id == store[c].pc.id
    && (forall p :: p in store && p != c ==> PeerAfterJoin(store, out, c, p, list, fails))
    && (forall k :: k in out[c].pc.tracks ==> SlotAfterJoin(store, out, c, k, list, fails))
  }

  lemma {:induction false} SubscribeEffect(store: Store, c: ClientId, list: seq<ClientId>, fails: set<ClientId>)
    requires c in store && store[c].pc.tracks == map[]
    requires OwnTracks(store) && NoRepeats(list)
    ensures JoinEffect(store, Subscribe(store, c, list, fails), c, list, fails)
  {
    if list == [] {
    } else {
      var n := |list| - 1;
      var shorter, peer := list[..n], list[n];
      SubscribeEffect(store, c, shorter, fails);
      SubscribeOneEffect(store, Subscribe(store, c, shorter, fails), c, shorter, peer, fails);
      assert list == shorter + [peer];
    }
  }

  lemma SubscribeOneEffect(store: Store, mid: Store, c: ClientId, list: seq<ClientId>, peer: ClientId,
                           fails: set<ClientId>)
    requires c in store && OwnTracks(store) && peer !in list
    requires JoinEffect(store, mid, c, list, fails)
    ensures JoinEffect(store, SubscribeOne(mid, c, peer, fails), c, list + [peer], fails)
  {
    var out := SubscribeOne(mid, c, peer, fails);
    var longer := list + [peer];
    forall p | p in store && p != c ensures PeerAfterJoin(store, out, c, p, longer, fails) {
      assert PeerAfterJoin(store, mid, c, p, list, fails);
      assert Heard(store, c, p, longer, fails) <==>
             Heard(store, c, p, list, fails) || (p == peer && Heard(store, c, p, [peer], fails));
      if Heard(store, c, p, list, fails) {
        assert SlotAfterJoin(store, mid, c, mid[p].senders[c].slot, list, fails);
      }
    }
    forall k | k in out[c].pc.tracks ensures SlotAfterJoin(store, out, c, k, longer, fails) {
      if k in mid[c].pc.tracks {
        assert SlotAfterJoin(store, mid, c, k, list, fails);
      } else {
        assert peer in store && PeerAfterJoin(store, mid, c, peer, list, fails);
      }
    }
  }

  /// Every operation keeps the invariant

  lemma RegistrationKeepsInv(s: State, op: Op)
    requires Inv(s) && Enabled(s, op) && (op.Register? || op.Unregister?)
    ensures Inv(Step(s, op))
  {
    var s' := Step(s, op);
    forall x | x in s'.store ensures SessionOk(s', x) {
      assert SessionOk(s, x);
    }
    forall x, k | x in s'.store && k in s'.store[x].pc.tracks ensures Carried(s', x, k) {
      assert Carried(s, x, k);
    }
    forall c, x | c in s'.store && x in s'.store[c].senders ensures RecordOk(s', c, x) {
      assert RecordOk(s, c, x);
    }
    forall p, x | Meet(s', p, x) ensures HasTrack(s', p, x) || WasRefused(s', p, x) {
      assert SessionOk(s, p) && SessionOk(s, x);
      assert Meet(s, p, x);
    }
  }

  lemma JoinKeepsShape(s: State, c: ClientId, list: seq<ClientId>, fails: set<ClientId>)
    requires Shape(s) && Enabled(s, Join(c, list, fails))
    ensures Shape(JoinStep(s, c, list, fails))
    ensures var store := s.store[c := NewSession(s.nextPc)];
            OwnTracks(store) && JoinEffect(store, JoinStep(s, c, list, fails).store, c, list, fails)
  {
    var store := s.store[c := NewSession(s.nextPc)];
    var s' := JoinStep(s, c, list, fails);
    forall x | x in store && store[x].localTrack.Some? ensures store[x].localTrack.value.owner == x {
      assert x != c ==> SessionOk(s, x);
    }
    SubscribeEffect(store, c, list, fails);
    forall x | x in s'.store ensures SessionOk(s', x) {
      if x != c {
        assert SessionOk(s, x) && PeerAfterJoin(store, s'.store, c, x, list, fails);
      } else {
        assert forall k :: k in s'.store[c].pc.tracks ==> SlotAfterJoin(store, s'.store, c, k, list, fails);
      }
    }
    forall x, y | x in s'.store && y in s'.store && x != y ensures s'.store[x].pc.id != s'.store[y].pc.id {
      assert x != c ==> SessionOk(s, x) && PeerAfterJoin(store, s'.store, c, x, list, fails);
      assert y != c ==> SessionOk(s, y) && PeerAfterJoin(store, s'.store, c, y, list, fails);
    }
  }

  lemma JoinKeepsRecordsOk(s: State, c: ClientId, list: seq<ClientId>, fails: set<ClientId>)
    requires Inv(s) && Enabled(s, Join(c, list, fails))
    ensures RecordsOk(JoinStep(s, c, list, fails))
  {
    var store := s.store[c := NewSession(s.nextPc)];
    var s' := JoinStep(s, c, list, fails);
    JoinKeepsShape(s, c, list, fails);
    forall p, x | p in s'.store && x in s'.store[p].senders ensures RecordOk(s', p, x) {
      if p != c {
        assert PeerAfterJoin(store, s'.store, c, p, list, fails) && SessionOk(s, p);
        if x != c || !Heard(store, c, p, list, fails) {
          assert RecordOk(s, p, x);
          if x in s.store && x != c { assert PeerAfterJoin(store, s'.store, c, x, list, fails); }
        } else {
          assert SlotAfterJoin(store, s'.store, c, s'.store[p].senders[c].slot, list, fails);
        }
      }
    }
  }

  lemma JoinKeepsCarried(s: State, c: ClientId, list: seq<ClientId>, fails: set<ClientId>)
    requires Inv(s) && Enabled(s, Join(c, list, fails))
    ensures AllCarried(JoinStep(s, c, list, fails))
  {
    var s' := JoinStep(s, c, list, fails);
    JoinKeepsShape(s, c, list, fails);
    forall x, k | x in s'.store && k in s'.store[x].pc.tracks ensures Carried(s', x, k) {
      JoinKeepsSlot(s, c, list, fails, x, k);
    }
  }

  lemma JoinKeepsSlot(s: State, c: ClientId, list: seq<ClientId>, fails: set<ClientId>, x: ClientId, k: nat)
    requires Inv(s) && Enabled(s, Join(c, list, fails))
    requires var s' := JoinStep(s, c, list, fails); x in s'.store && k in s'.store[x].pc.tracks
    ensures Carried(JoinStep(s, c, list, fails), x, k)
  {
    var store := s.store[c := NewSession(s.nextPc)];
    var s' := JoinStep(s, c, list, fails);
    JoinKeepsShape(s, c, list, fails);
    var p := s'.store[x].pc.tracks[k].owner;
    if x == c {
      assert SlotAfterJoin(store, s'.store, c, k, list, fails);
      assert PeerAfterJoin(store, s'.store, c, p, list, fails) && SessionOk(s, p);
    } else {
      assert PeerAfterJoin(store, s'.store, c, x, list, fails);
      assert Carried(s, x, k);
      assert p in store && p != c ==> PeerAfterJoin(store, s'.store, c, p, list, fails);
    }
  }

  lemma JoinDelivers(s: State, c: ClientId, list: seq<ClientId>, fails: set<ClientId>)
    requires Inv(s) && Enabled(s, Join(c, list, fails))
    ensures AllDelivered(JoinStep(s, c, list, fails))
  {
    var store := s.store[c := NewSession(s.nextPc)];
    var s' := JoinStep(s, c, list, fails);
    JoinKeepsShape(s, c, list, fails);
    forall p, x | Meet(s', p, x) ensures HasTrack(s', p, x) || WasRefused(s', p, x) {
      assert p != c;
      assert PeerAfterJoin(store, s'.store, c, p, list, fails);
      if x == c {
        assert p in list && (Heard(store, c, p, list, fails) || p in fails);
      } else {
        assert PeerAfterJoin(store, s'.store, c, x, list, fails);
        assert Meet(s, p, x);
      }
    }
  }

  lemma JoinKeepsRefusals(s: State, c: ClientId, list: seq<ClientId>, fails: set<ClientId>)
    requires Inv(s) && Enabled(s, Join(c, list, fails))
    ensures RefusalsStand(JoinStep(s, c, list, fails))
  {
    var store := s.store[c := NewSession(s.nextPc)];
    var s' := JoinStep(s, c, list, fails);
    JoinKeepsShape(s, c, list, fails);
    forall r | r in s'.refused ensures r.0.serial < s'.nextTrack && r.1 < s'.nextPc {
      if r !in s.refused {
        var x :| x in store && x in list && x != c && x in fails && store[x].localTrack.Some?
                 && r == (store[x].localTrack.value, s.nextPc);
        assert SessionOk(s, x);
      }
    }
    forall x, k | x in s'.store && k in s'.store[x].pc.tracks
      ensures (s'.store[x].pc.tracks[k], s'.store[x].pc.id) !in s'.refused
    {
      if x == c {
        assert SlotAfterJoin(store, s'.store, c, k, list, fails);
        var t := s'.store[c].pc.tracks[k];
        forall y | y in store && y in list && y != c && y in fails && store[y].localTrack.Some?
          ensures store[y].localTrack.value != t
        {
          assert SessionOk(s, y);
        }
      } else {
        assert PeerAfterJoin(store, s'.store, c, x, list, fails) && SessionOk(s, x);
      }
    }
  }

  /// Stopping

  // Slot k of x's connection is taken by a stop of c: it carries c's current track, and its
  // removal is not refused.
  ghost predicate TakenBy(s: State, c: ClientId, stuck: set<Sender>, x: ClientId, k: nat)
    requires c in s.store && x in s.store && k in s.store[x].pc.tracks
  {
    s.store[c].localTrack == Some(s.store[x].pc.tracks[k]) && Sender(s.store[x].pc.id, k) !in stuck
  }

  lemma StopEffect(s: State, c: ClientId, stuck: set<Sender>, x: ClientId)
    requires Inv(s) && c in s.store && x in s.store
    ensures var s' := Step(s, Stop(c, stuck));
            && x in s'.store
            && (forall k :: k in s'.store[x].pc.tracks <==> k in s.store[x].pc.tracks && !TakenBy(s, c, stuck, x, k))
            && (forall k :: k in s'.store[x].pc.tracks ==> s'.store[x].pc.tracks[k] == s.store[x].pc.tracks[k])
            && (x != c ==> s'.store[x] == s.store[x].(pc := s'.store[x].pc))
            && s'.store[x].pc == s.store[x].pc.(tracks := s'.store[x].pc.tracks)
            && s'.store[c] == Silenced(s.store[c]).(pc := s'.store[c].pc)
  {
    var tracks := s.store[x].pc.tracks;
    assert SessionOk(s, c);
    forall k | k in tracks && s.store[c].localTrack == Some(tracks[k])
      ensures x in s.store[c].senders && s.store[c].senders[x] == Sender(s.store[x].pc.id, k)
    {
      assert Carried(s, x, k);
    }
    assert x in s.store[c].senders ==> RecordOk(s, c, x);
  }

  lemma StopKeepsInv(s: State, c: ClientId, stuck: set<Sender>)
    requires Inv(s)
    ensures Inv(Step(s, Stop(c, stuck)))
  {
    if c in s.store {
      var s' := Step(s, Stop(c, stuck));
      forall x | x in s.store ensures SessionOk(s, x) && x in s'.store && SessionOk(s', x) {
        StopEffect(s, c, stuck, x);
      }
      forall x, y | x in s'.store && y in s'.store && x != y ensures s'.store[x].pc.id != s'.store[y].pc.id {
        StopEffect(s, c, stuck, x);
        StopEffect(s, c, stuck, y);
      }
      StopKeepsRecords(s, c, stuck);
      forall p, x | Meet(s', p, x) ensures HasTrack(s', p, x) || WasRefused(s', p, x) {
        StopEffect(s, c, stuck, p);
        StopEffect(s, c, stuck, x);
        assert Meet(s, p, x);
      }
      forall x, k | x in s'.store && k in s'.store[x].pc.tracks
        ensures (s'.store[x].pc.tracks[k], s'.store[x].pc.id) !in s'.refused
      {
        StopEffect(s, c, stuck, x);
      }
    }
  }

  lemma StopKeepsRecords(s: State, c: ClientId, stuck: set<Sender>)
    requires Inv(s) && c in s.store
    ensures RecordsOk(Step(s, Stop(c, stuck))) && AllCarried(Step(s, Stop(c, stuck)))
  {
    var s' := Step(s, Stop(c, stuck));
    forall p, x | p in s'.store && x in s'.store[p].senders ensures RecordOk(s', p, x) {
      StopEffect(s, c, stuck, p);
      assert p != c && RecordOk(s, p, x);
      if x in s.store { StopEffect(s, c, stuck, x); }
    }
    forall x, k | x in s'.store && k in s'.store[x].pc.tracks ensures Carried(s', x, k) {
      StopEffect(s, c, stuck, x);
      assert Carried(s, x, k);
      if s.store[x].pc.tracks[k].owner in s.store { StopEffect(s, c, stuck, s.store[x].pc.tracks[k].owner); }
    }
  }

  lemma CloseKeepsInv(s: State, c: ClientId, stuck: set<Sender>)
    requires Inv(s)
    ensures Inv(Step(s, Close(c, stuck)))
  {
    var mid, s' := Step(s, Stop(c, stuck)), Step(s, Close(c, stuck));
    StopKeepsInv(s, c, stuck);
    forall x | x in s'.store ensures SessionOk(s', x) {
      assert SessionOk(mid, x);
    }
    forall p, x | p in s'.store && x in s'.store[p].senders ensures RecordOk(s', p, x) {
      assert RecordOk(mid, p, x);
    }
    forall x, k | x in s'.store && k in s'.store[x].pc.tracks ensures Carried(s', x, k) {
      assert Carried(mid, x, k);
    }
    forall p, x | Meet(s', p, x) ensures HasTrack(s', p, x) || WasRefused(s', p, x) {
      assert Meet(mid, p, x);
    }
  }

  /// Publishing

  // Starting a publication and sending it to the room, from a state in which c is silent.
  lemma FanOutKeepsInv(s: State, c: ClientId, list: seq<ClientId>, fails: set<ClientId>)
    requires Inv(s) && Enabled(s, Publish(c, list, fails, {}))
    requires s.store[c].localTrack.None?
    ensures Inv(Published(s, c, list, fails))
  {
    FanOutKeepsShape(s, c, list, fails);
    FanOutKeepsRecords(s, c, list, fails);
    FanOutDelivers(s, c, list, fails);
    FanOutKeepsRefusals(s, c, list, fails);
  }

  function Published(s: State, c: ClientId, list: seq<ClientId>, fails: set<ClientId>): State
    requires c in s.store
  {
    var t := Track(c, s.nextTrack);
    var store := s.store[c := Publishing(s.store[c], t)];
    s.(store := FanOut(store, c, list, t, fails),
       nextTrack := s.nextTrack + 1,
       refused := s.refused + set x | x in store && x in list && x != c && x in fails :: (t, store[x].pc.id))
  }

  lemma FanOutKeepsShape(s: State, c: ClientId, list: seq<ClientId>, fails: set<ClientId>)
    requires Inv(s) && Enabled(s, Publish(c, list, fails, {}))
    ensures Shape(Published(s, c, list, fails))
  {
    var s' := Published(s, c, list, fails);
    forall x | x in s'.store ensures SessionOk(s', x) {
      assert SessionOk(s, x);
    }
  }

  // How one session changes when c sends a new track to the room.
  lemma FanOutEffect(s: State, c: ClientId, list: seq<ClientId>, fails: set<ClientId>, x: ClientId)
    requires c in s.store && x in s.store && x != c
    ensures var s', t := Published(s, c, list, fails), Track(c, s.nextTrack);
            && x in s'.store && c in s'.store
            && s'.store[x] == (if Receives(s.store, c, x, list, fails) then Attached(s.store[x], t) else s.store[x])
            && (Receives(s.store, c, x, list, fails) ==>
                  x in s'.store[c].senders && s'.store[c].senders[x] == NextSender(s.store[x]))
            && (!Receives(s.store, c, x, list, fails) ==>
                  (x in s'.store[c].senders <==> x in s.store[c].senders)
                  && (x in s.store[c].senders ==> s'.store[c].senders[x] == s.store[c].senders[x]))
  {
  }

  lemma FanOutKeepsRecords(s: State, c: ClientId, list: seq<ClientId>, fails: set<ClientId>)
    requires Inv(s) && Enabled(s, Publish(c, list, fails, {})) && s.store[c].localTrack.None?
    ensures var s' := Published(s, c, list, fails); RecordsOk(s') && AllCarried(s')
  {
    var s' := Published(s, c, list, fails);
    assert SessionOk(s, c);
    forall p, x | p in s'.store && x in s'.store[p].senders ensures RecordOk(s', p, x) {
      FanOutKeepsRecord(s, c, list, fails, p, x);
    }
    forall x, k | x in s'.store && k in s'.store[x].pc.tracks ensures Carried(s', x, k) {
      FanOutKeepsSlot(s, c, list, fails, x, k);
    }
  }

  lemma FanOutKeepsRecord(s: State, c: ClientId, list: seq<ClientId>, fails: set<ClientId>, p: ClientId, x: ClientId)
    requires Inv(s) && Enabled(s, Publish(c, list, fails, {})) && s.store[c].localTrack.None?
    requires var s' := Published(s, c, list, fails); p in s'.store && x in s'.store[p].senders
    ensures RecordOk(Published(s, c, list, fails), p, x)
  {
    assert SessionOk(s, c) && SessionOk(s, p);
    if p != c {
      FanOutEffect(s, c, list, fails, p);
      assert RecordOk(s, p, x);
    }
    if x in s.store && x != c {
      assert SessionOk(s, x);
      FanOutEffect(s, c, list, fails, x);
    }
  }

  lemma FanOutKeepsSlot(s: State, c: ClientId, list: seq<ClientId>, fails: set<ClientId>, x: ClientId, k: nat)
    requires Inv(s) && Enabled(s, Publish(c, list, fails, {})) && s.store[c].localTrack.None?
    requires var s' := Published(s, c, list, fails); x in s'.store && k in s'.store[x].pc.tracks
    ensures Carried(Published(s, c, list, fails), x, k)
  {
    assert SessionOk(s, x);
    if x != c { FanOutEffect(s, c, list, fails, x); }
    if k in s.store[x].pc.tracks {
      assert Carried(s, x, k);
      var p := s.store[x].pc.tracks[k].owner;
      if p in s.store && p != c { FanOutEffect(s, c, list, fails, p); }
    }
  }

  lemma FanOutDelivers(s: State, c: ClientId, list: seq<ClientId>, fails: set<ClientId>)
    requires Inv(s) && Enabled(s, Publish(c, list, fails, {})) && s.store[c].localTrack.None?
    ensures AllDelivered(Published(s, c, list, fails))
  {
    var s' := Published(s, c, list, fails);
    var t := Track(c, s.nextTrack);
    forall p, x | Meet(s', p, x) ensures HasTrack(s', p, x) || WasRefused(s', p, x) {
      assert SessionOk(s, x) && SessionOk(s, p);
      if p == c {
        assert x in list;
        FanOutEffect(s, c, list, fails, x);
        if x in fails { assert (t, s.store[x].pc.id) in s'.refused; }
      } else {
        FanOutKeepsDelivered(s, c, list, fails, p, x);
      }
    }
  }

  lemma FanOutKeepsDelivered(s: State, c: ClientId, list: seq<ClientId>, fails: set<ClientId>, p: ClientId, x: ClientId)
    requires Inv(s) && Enabled(s, Publish(c, list, fails, {})) && Meet(Published(s, c, list, fails), p, x) && p != c
    ensures var s' := Published(s, c, list, fails); HasTrack(s', p, x) || WasRefused(s', p, x)
  {
    assert SessionOk(s, x) && SessionOk(s, p);
    FanOutEffect(s, c, list, fails, p);
    if x != c { FanOutEffect(s, c, list, fails, x); }
    assert Meet(s, p, x);
  }

  lemma FanOutKeepsRefusals(s: State, c: ClientId, list: seq<ClientId>, fails: set<ClientId>)
    requires Inv(s) && Enabled(s, Publish(c, list, fails, {}))
    ensures RefusalsStand(Published(s, c, list, fails))
  {
    var s' := Published(s, c, list, fails);
    var t := Track(c, s.nextTrack);
    forall r | r in s'.refused ensures r.0.serial < s'.nextTrack && r.1 < s'.nextPc {
      if r !in s.refused {
        var x :| x in s.store && x in list && x != c && x in fails && r == (t, s.store[x].pc.id);
        assert SessionOk(s, x);
      }
    }
    forall x, k | x in s'.store && k in s'.store[x].pc.tracks
      ensures (s'.store[x].pc.tracks[k], s'.store[x].pc.id) !in s'.refused
    {
      assert SessionOk(s, x);
      assert k in s.store[x].pc.tracks ==> Carried(s, x, k);
    }
  }

  lemma PublishKeepsInv(s: State, c: ClientId, list: seq<ClientId>, fails: set<ClientId>, stuck: set<Sender>)
    requires Inv(s) && Enabled(s, Publish(c, list, fails, stuck))
    ensures Inv(Step(s, Publish(c, list, fails, stuck)))
  {
    var mid := Step(s, Stop(c, stuck));
    StopKeepsInv(s, c, stuck);
    assert mid.store[c].localTrack.None? by { StopEffect(s, c, stuck, c); }
    FanOutKeepsInv(mid, c, list, fails);
    assert Step(s, Publish(c, list, fails, stuck)) == Published(mid, c, list, fails);
  }

  /// Publishing for a session that is no longer in the store

  function PublishedLate(s: State, c: ClientId, list: seq<ClientId>, fails: set<ClientId>): State {
    var t := Track(c, s.nextTrack);
    s.(store := FanOutUnkept(s.store, c, list, t, fails),
       nextTrack := s.nextTrack + 1,
       refused := s.refused + set x | x in s.store && x in list && x != c && x in fails :: (t, s.store[x].pc.id))
  }

  lemma LateKeepsShape(s: State, c: ClientId, list: seq<ClientId>, fails: set<ClientId>)
    requires Inv(s) && Enabled(s, PublishLate(c, list, fails, {}))
    ensures Shape(PublishedLate(s, c, list, fails))
  {
    var s' := PublishedLate(s, c, list, fails);
    forall x | x in s'.store ensures SessionOk(s', x) {
      assert SessionOk(s, x);
    }
  }

  lemma LateKeepsRecords(s: State, c: ClientId, list: seq<ClientId>, fails: set<ClientId>)
    requires Inv(s) && Enabled(s, PublishLate(c, list, fails, {}))
    ensures RecordsOk(PublishedLate(s, c, list, fails))
  {
    var s' := PublishedLate(s, c, list, fails);
    forall p, x | p in s'.store && x in s'.store[p].senders ensures RecordOk(s', p, x) {
      assert RecordOk(s, p, x) && (x in s.store ==> SessionOk(s, x));
    }
  }

  lemma LateKeepsCarried(s: State, c: ClientId, list: seq<ClientId>, fails: set<ClientId>)
    requires Inv(s) && Enabled(s, PublishLate(c, list, fails, {}))
    ensures AllCarried(PublishedLate(s, c, list, fails))
  {
    var s' := PublishedLate(s, c, list, fails);
    forall x, k | x in s'.store && k in s'.store[x].pc.tracks ensures Carried(s', x, k) {
      assert SessionOk(s, x) && (c in s.store ==> SessionOk(s, c));
      assert k in s.store[x].pc.tracks ==> Carried(s, x, k);
    }
  }

  lemma LateDelivers(s: State, c: ClientId, list: seq<ClientId>, fails: set<ClientId>)
    requires Inv(s) && Enabled(s, PublishLate(c, list, fails, {}))
    ensures AllDelivered(PublishedLate(s, c, list, fails))
  {
    var s' := PublishedLate(s, c, list, fails);
    forall p, x | Meet(s', p, x) ensures HasTrack(s', p, x) || WasRefused(s', p, x) {
      assert Meet(s, p, x) && SessionOk(s, x);
    }
  }

  lemma LateKeepsRefusals(s: State, c: ClientId, list: seq<ClientId>, fails: set<ClientId>)
    requires Inv(s) && Enabled(s, PublishLate(c, list, fails, {}))
    ensures RefusalsStand(PublishedLate(s, c, list, fails))
  {
    var s' := PublishedLate(s, c, list, fails);
    forall r | r in s'.refused ensures r.0.serial < s'.nextTrack && r.1 < s'.nextPc {
      if r !in s.refused {
        var x :| x in s.store && r.1 == s.store[x].pc.id && r.0 == Track(c, s.nextTrack);
        assert SessionOk(s, x);
      }
    }
    forall x, k | x in s'.store && k in s'.store[x].pc.tracks
      ensures (s'.store[x].pc.tracks[k], s'.store[x].pc.id) !in s'.refused
    {
      assert SessionOk(s, x);
      assert k in s.store[x].pc.tracks ==> Carried(s, x, k);
    }
  }

  lemma PublishLateKeepsInv(s: State, c: ClientId, list: seq<ClientId>, fails: set<ClientId>, stuck: set<Sender>)
    requires Inv(s) && Enabled(s, PublishLate(c, list, fails, stuck))
    ensures Inv(Step(s, PublishLate(c, list, fails, stuck)))
  {
    var mid := Step(s, Stop(c, stuck));
    StopKeepsInv(s, c, stuck);
    LateKeepsShape(mid, c, list, fails);
    LateKeepsRecords(mid, c, list, fails);
    LateKeepsCarried(mid, c, list, fails);
    LateDelivers(mid, c, list, fails);
    LateKeepsRefusals(mid, c, list, fails);
    assert Step(s, PublishLate(c, list, fails, stuck)) == PublishedLate(mid, c, list, fails);
  }

  /// All runs

  ghost predicate IsStep(states: seq<State>, ops: seq<Op>, i: nat)
    requires i < |ops| && |states| == |ops| + 1
  {
    Enabled(states[i], ops[i]) && states[i + 1] == Step(states[i], ops[i])
  }

  // Any sequence of operations that starts with an empty server.
  ghost predicate IsRun(states: seq<State>, ops: seq<Op>) {
    && |states| == |ops| + 1 && states[0] == START
    && (forall i :: 0 <= i < |ops| ==> IsStep(states, ops, i))
  }

  lemma StepKeepsInv(s: State, op: Op)
    requires Inv(s) && Enabled(s, op)
    ensures Inv(Step(s, op))
  {
    match op {
      case Register(_, _) => RegistrationKeepsInv(s, op);
      case Unregister(_) => RegistrationKeepsInv(s, op);
      case Join(c, list, fails) =>
        JoinKeepsShape(s, c, list, fails);
        JoinKeepsRecordsOk(s, c, list, fails);
        JoinKeepsCarried(s, c, list, fails);
        JoinDelivers(s, c, list, fails);
        JoinKeepsRefusals(s, c, list, fails);
      case Publish(c, list, fails, stuck) => PublishKeepsInv(s, c, list, fails, stuck);
      case PublishLate(c, list, fails, stuck) => PublishLateKeepsInv(s, c, list, fails, stuck);
      case Stop(c, stuck) => StopKeepsInv(s, c, stuck);
      case Close(c, stuck) => CloseKeepsInv(s, c, stuck);
    }
  }

  lemma {:induction false} RunKeepsInv(states: seq<State>, ops: seq<Op>, n: nat)
    requires IsRun(states, ops) && n <= |ops|
    ensures Inv(states[n])
  {
    if n == 0 {
    } else {
      RunKeepsInv(states, ops, n - 1);
      assert IsStep(states, ops, n - 1);
      StepKeepsInv(states[n - 1], ops[n - 1]);
    }
  }

  function Slots(s: Session, t: Track): set<nat> { set k | k in s.pc.tracks && s.pc.tracks[k] == t }

  // How many senders of a connection carry a track.
  function Copies(s: Session, t: Track): nat { |Slots(s, t)| }

  // In every reachable state, a listener's connection carries the track of each speaker it
  // shares a room with exactly once, through the sender the speaker has on record for it,
  // unless attaching that track failed, and then not at all.
  lemma FanOutIsExact(states: seq<State>, ops: seq<Op>, n: nat, p: ClientId, x: ClientId)
    requires IsRun(states, ops) && n <= |ops|
    requires Meet(states[n], p, x)
    ensures var s := states[n];
            var t := s.store[p].localTrack.value;
            && Copies(s.store[x], t) == (if WasRefused(s, p, x) then 0 else 1)
            && (WasRefused(s, p, x) <==> !HasTrack(s, p, x))
  {
    var s := states[n];
    RunKeepsInv(states, ops, n);
    var t := s.store[p].localTrack.value;
    assert SessionOk(s, p);
    var slots := Slots(s.store[x], t);
    forall k | k in slots ensures x in s.store[p].senders && s.store[p].senders[x] == Sender(s.store[x].pc.id, k) {
      assert Carried(s, x, k);
    }
    if HasTrack(s, p, x) {
      assert slots == {s.store[p].senders[x].slot};
    } else {
      assert slots == {};
    }
  }

  // No connection ever carries a track of its own client or of another room.
  lemma TracksStayInRoom(states: seq<State>, ops: seq<Op>, n: nat, x: ClientId, k: nat)
    requires IsRun(states, ops) && n <= |ops|
    requires x in states[n].store && k in states[n].store[x].pc.tracks
    ensures var s := states[n];
            var t := s.store[x].pc.tracks[k];
            t.owner != x && t.owner in s.clients && x in s.clients && s.clients[t.owner].room == s.clients[x].room
  {
    RunKeepsInv(states, ops, n);
    assert Carried(states[n], x, k);
  }

  // Stopping a client takes its current track off every connection that does not refuse, and takes
  // nothing else.
  lemma StopRemovesExactly(states: seq<State>, ops: seq<Op>, n: nat, c: ClientId, stuck: set<Sender>, x: ClientId)
    requires IsRun(states, ops) && n <= |ops|
    requires c in states[n].store && x in states[n].store
    ensures var s, s' := states[n], Step(states[n], Stop(c, stuck));
            && s'.store.Keys == s.store.Keys && s'.store[c].localTrack.None? && !s'.store[c].stopOpen
            && forall k :: k in s'.store[x].pc.tracks <==> k in s.store[x].pc.tracks && !TakenBy(s, c, stuck, x, k)
  {
    RunKeepsInv(states, ops, n);
    StopEffect(states[n], c, stuck, x);
  }

  /// Tracks left behind

  // Every attached track of p is the one p publishes.
  ghost predicate NoStraysOf(s: State, p: ClientId) {
    forall x, k :: x in s.store && k in s.store[x].pc.tracks && s.store[x].pc.tracks[k].owner == p ==>
      IsCurrent(s, s.store[x].pc.tracks[k])
  }

  // Some sender that c has on record is still in place.
  ghost predicate IsHeard(s: State, c: ClientId) {
    c in s.store && exists x :: x in s.store && x != c && InPlace(s, c, x)
  }

  ghost predicate InPlace(s: State, c: ClientId, x: ClientId)
    requires c in s.store && x in s.store
  {
    && x in s.store[c].senders
    && s.store[c].senders[x].pc == s.store[x].pc.id && s.store[c].senders[x].slot in s.store[x].pc.tracks
  }

  // A client is heard exactly if some connection carries its current track, so in every run a
  // client that does not publish is safe to join again.
  lemma HeardIffCarried(states: seq<State>, ops: seq<Op>, n: nat, c: ClientId)
    requires IsRun(states, ops) && n <= |ops|
    ensures IsHeard(states[n], c) <==>
            exists x, k :: x in states[n].store && k in states[n].store[x].pc.tracks
                           && states[n].store[x].pc.tracks[k].owner == c
                           && IsCurrent(states[n], states[n].store[x].pc.tracks[k])
  {
    var s := states[n];
    RunKeepsInv(states, ops, n);
    if IsHeard(s, c) {
      var x :| x in s.store && x != c && InPlace(s, c, x);
      assert RecordOk(s, c, x) && SessionOk(s, c);
      assert s.store[x].pc.tracks[s.store[c].senders[x].slot].owner == c;
    }
    if x, k :| x in s.store && k in s.store[x].pc.tracks && s.store[x].pc.tracks[k].owner == c
               && IsCurrent(s, s.store[x].pc.tracks[k])
    {
      assert Carried(s, x, k) && InPlace(s, c, x);
    }
  }

  // A sender of p is in place whose removal is refused.
  ghost predicate HasStuck(s: State, p: ClientId, stuck: set<Sender>) {
    p in s.store && exists x :: x in s.store && x != p && InPlace(s, p, x) && s.store[p].senders[x] in stuck
  }

  // What leaves tracks of p behind: joining again while heard, a stop that some connection refuses
  // to take part in, and publishing to somebody for a session that is no longer in the store.
  ghost predicate LeavesStrays(s: State, op: Op, p: ClientId) {
    match op
    case Join(c, _, _) => c == p && IsHeard(s, p)
    case Publish(c, _, _, stuck) => c == p && HasStuck(s, p, stuck)
    case PublishLate(c, list, fails, stuck) =>
      c == p && (HasStuck(s, p, stuck) || exists x :: x in s.store && Receives(s.store, p, x, list, fails))
    case Stop(c, stuck) => c == p && HasStuck(s, p, stuck)
    case Close(c, stuck) => c == p && HasStuck(s, p, stuck)
    case _ => false
  }

  lemma JoinStraysIff(s: State, c: ClientId, list: seq<ClientId>, fails: set<ClientId>, p: ClientId)
    requires Inv(s) && Enabled(s, Join(c, list, fails)) && NoStraysOf(s, p)
    ensures NoStraysOf(JoinStep(s, c, list, fails), p) <==> !(c == p && IsHeard(s, p))
  {
    var store := s.store[c := NewSession(s.nextPc)];
    var s' := JoinStep(s, c, list, fails);
    JoinKeepsShape(s, c, list, fails);
    if c == p && IsHeard(s, p) {
      var x :| x in s.store && x != c && InPlace(s, c, x);
      var k := s.store[c].senders[x].slot;
      assert RecordOk(s, c, x) && SessionOk(s, c) && PeerAfterJoin(store, s'.store, c, x, list, fails);
      assert s'.store[x].pc.tracks[k].owner == p && s'.store[c].localTrack.None?;
    } else {
      forall x, k | x in s'.store && k in s'.store[x].pc.tracks && s'.store[x].pc.tracks[k].owner == p
        ensures IsCurrent(s', s'.store[x].pc.tracks[k])
      {
        if x == c {
          assert SlotAfterJoin(store, s'.store, c, k, list, fails);
          assert PeerAfterJoin(store, s'.store, c, p, list, fails);
        } else {
          assert PeerAfterJoin(store, s'.store, c, x, list, fails) && Carried(s, x, k);
          assert p == c ==> InPlace(s, c, x);
          assert p != c && PeerAfterJoin(store, s'.store, c, p, list, fails);
        }
      }
    }
  }

  ghost predicate HasNoSlots(s: State, p: ClientId) {
    forall x, k :: x in s.store && k in s.store[x].pc.tracks ==> s.store[x].pc.tracks[k].owner != p
  }

  lemma StopStraysIff(s: State, c: ClientId, stuck: set<Sender>, p: ClientId)
    requires Inv(s) && NoStraysOf(s, p)
    ensures NoStraysOf(Step(s, Stop(c, stuck)), p) <==> !(c == p && HasStuck(s, p, stuck))
    ensures c == p && !HasStuck(s, p, stuck) ==> HasNoSlots(Step(s, Stop(c, stuck)), p)
  {
    var s' := Step(s, Stop(c, stuck));
    if c == p && HasStuck(s, p, stuck) {
      var x :| x in s.store && x != p && InPlace(s, p, x) && s.store[p].senders[x] in stuck;
      var k := s.store[p].senders[x].slot;
      assert RecordOk(s, p, x) && SessionOk(s, p);
      StopEffect(s, c, stuck, x);
      assert s'.store[x].pc.tracks[k].owner == p && !IsCurrent(s', s'.store[x].pc.tracks[k]);
    } else {
      forall x, k | x in s'.store && k in s'.store[x].pc.tracks && s'.store[x].pc.tracks[k].owner == p
        ensures c != p && IsCurrent(s', s'.store[x].pc.tracks[k])
      {
        SlotAfterStop(s, c, stuck, p, x, k);
      }
    }
  }

  lemma SlotAfterStop(s: State, c: ClientId, stuck: set<Sender>, p: ClientId, x: ClientId, k: nat)
    requires Inv(s) && NoStraysOf(s, p) && !(c == p && HasStuck(s, p, stuck))
    requires var s' := Step(s, Stop(c, stuck));
             x in s'.store && k in s'.store[x].pc.tracks && s'.store[x].pc.tracks[k].owner == p
    ensures c != p && IsCurrent(Step(s, Stop(c, stuck)), Step(s, Stop(c, stuck)).store[x].pc.tracks[k])
  {
    if c in s.store {
      StopEffect(s, c, stuck, x);
      assert Carried(s, x, k) && IsCurrent(s, s.store[x].pc.tracks[k]);
      assert c == p ==> InPlace(s, p, x);
      StopEffect(s, c, stuck, p);
    }
  }

  // What has been left behind is not taken by later stops.
  lemma StopKeepsStrays(s: State, c: ClientId, stuck: set<Sender>, p: ClientId)
    requires Inv(s) && !NoStraysOf(s, p)
    ensures !NoStraysOf(Step(s, Stop(c, stuck)), p)
  {
    var x, k :| x in s.store && k in s.store[x].pc.tracks && s.store[x].pc.tracks[k].owner == p
                && !IsCurrent(s, s.store[x].pc.tracks[k]);
    if c in s.store {
      assert SessionOk(s, c);
      StopEffect(s, c, stuck, x);
      if p in s.store { StopEffect(s, c, stuck, p); }
      assert !IsCurrent(Step(s, Stop(c, stuck)), s.store[x].pc.tracks[k]);
    }
  }

  // After a stop the client has no senders on record; other clients' are in place as before.
  lemma StuckAfterStop(s: State, c: ClientId, stuck: set<Sender>, p: ClientId)
    requires Inv(s)
    ensures HasStuck(Step(s, Stop(c, stuck)), p, stuck) <==> c != p && HasStuck(s, p, stuck)
  {
    var s' := Step(s, Stop(c, stuck));
    if c in s.store && p in s.store {
      StopEffect(s, c, stuck, p);
      forall x | c != p && x in s.store ensures x in s'.store && (InPlace(s', p, x) <==> InPlace(s, p, x)) {
        StopEffect(s, c, stuck, x);
        assert SessionOk(s, c) && SessionOk(s, p) && (x in s.store[p].senders ==> RecordOk(s, p, x));
      }
    }
  }

  // A new track makes no other track current, so what was left behind stays so.
  lemma FanOutStraysIff(s: State, c: ClientId, list: seq<ClientId>, fails: set<ClientId>, p: ClientId)
    requires Inv(s) && c in s.store && s.store[c].localTrack.None?
    ensures NoStraysOf(Published(s, c, list, fails), p) <==> NoStraysOf(s, p)
  {
    var s' := Published(s, c, list, fails);
    forall x, k | x in s.store && k in s.store[x].pc.tracks
      ensures x in s'.store && k in s'.store[x].pc.tracks && s'.store[x].pc.tracks[k] == s.store[x].pc.tracks[k]
      ensures IsCurrent(s', s.store[x].pc.tracks[k]) <==> IsCurrent(s, s.store[x].pc.tracks[k])
    {
      assert SessionOk(s, x) && Carried(s, x, k);
      if x != c { FanOutEffect(s, c, list, fails, x); }
      var owner := s.store[x].pc.tracks[k].owner;
      if owner in s.store && owner != c { FanOutEffect(s, c, list, fails, owner); }
    }
    forall x, k | x in s'.store && k in s'.store[x].pc.tracks && k !in s.store[x].pc.tracks
      ensures IsCurrent(s', s'.store[x].pc.tracks[k])
    {
      if x != c { FanOutEffect(s, c, list, fails, x); }
    }
  }

  lemma PublishStraysIff(s: State, c: ClientId, list: seq<ClientId>, fails: set<ClientId>, stuck: set<Sender>,
                         p: ClientId)
    requires Inv(s) && Enabled(s, Publish(c, list, fails, stuck)) && NoStraysOf(s, p)
    ensures NoStraysOf(Step(s, Publish(c, list, fails, stuck)), p) <==> !(c == p && HasStuck(s, p, stuck))
  {
    var mid := Step(s, Stop(c, stuck));
    StopKeepsInv(s, c, stuck);
    StopStraysIff(s, c, stuck, p);
    StopEffect(s, c, stuck, c);
    FanOutStraysIff(mid, c, list, fails, p);
    assert Step(s, Publish(c, list, fails, stuck)) == Published(mid, c, list, fails);
  }

  lemma FanOutUnkeptStraysIff(s: State, c: ClientId, list: seq<ClientId>, fails: set<ClientId>, p: ClientId)
    requires Inv(s) && (c in s.store ==> s.store[c].localTrack.None?)
    ensures NoStraysOf(PublishedLate(s, c, list, fails), p) <==>
            NoStraysOf(s, p) && !(c == p && exists x :: x in s.store && Receives(s.store, p, x, list, fails))
  {
    var s' := PublishedLate(s, c, list, fails);
    var t := Track(c, s.nextTrack);
    forall x, k | x in s.store && k in s.store[x].pc.tracks
      ensures k in s'.store[x].pc.tracks && s'.store[x].pc.tracks[k] == s.store[x].pc.tracks[k]
    {
      assert SessionOk(s, x);
    }
    if c == p && exists x :: x in s.store && Receives(s.store, p, x, list, fails) {
      var x :| x in s.store && Receives(s.store, p, x, list, fails);
      assert s'.store[x].pc.tracks[s.store[x].pc.nextSlot] == t && !IsCurrent(s', t);
    } else if NoStraysOf(s, p) {
      forall x, k | x in s'.store && k in s'.store[x].pc.tracks && s'.store[x].pc.tracks[k].owner == p
        ensures IsCurrent(s', s'.store[x].pc.tracks[k])
      {
        assert s'.store[x].pc.tracks[k] == t || k in s.store[x].pc.tracks;
      }
    } else {
      var x, k :| x in s.store && k in s.store[x].pc.tracks && s.store[x].pc.tracks[k].owner == p
                  && !IsCurrent(s, s.store[x].pc.tracks[k]);
      assert !IsCurrent(s', s'.store[x].pc.tracks[k]);
    }
  }

  lemma PublishLateStraysIff(s: State, c: ClientId, list: seq<ClientId>, fails: set<ClientId>, stuck: set<Sender>,
                             p: ClientId)
    requires Inv(s) && Enabled(s, PublishLate(c, list, fails, stuck)) && NoStraysOf(s, p)
    ensures NoStraysOf(Step(s, PublishLate(c, list, fails, stuck)), p) <==>
            !LeavesStrays(s, PublishLate(c, list, fails, stuck), p)
  {
    var mid := Step(s, Stop(c, stuck));
    StopKeepsInv(s, c, stuck);
    StopStraysIff(s, c, stuck, p);
    if c in s.store { StopEffect(s, c, stuck, c); }
    FanOutUnkeptStraysIff(mid, c, list, fails, p);
    assert mid.store.Keys == s.store.Keys;
    assert forall x :: Receives(mid.store, p, x, list, fails) <==> Receives(s.store, p, x, list, fails);
    assert Step(s, PublishLate(c, list, fails, stuck)) == PublishedLate(mid, c, list, fails);
  }

  lemma CloseLeavesStuck(s: State, stuck: set<Sender>, p: ClientId)
    requires Inv(s) && HasStuck(s, p, stuck)
    ensures !NoStraysOf(Step(s, Close(p, stuck)), p)
  {
    var s' := Step(s, Close(p, stuck));
    var x :| x in s.store && x != p && InPlace(s, p, x) && s.store[p].senders[x] in stuck;
    var k := s.store[p].senders[x].slot;
    assert RecordOk(s, p, x) && SessionOk(s, p);
    StopEffect(s, p, stuck, x);
    assert x in s'.store && s'.store[x].pc.tracks[k].owner == p && p !in s'.store;
  }

  lemma RemovalKeepsNoStrays(s: State, c: ClientId, p: ClientId)
    requires NoStraysOf(s, p) && (c == p ==> HasNoSlots(s, p))
    ensures NoStraysOf(s.(store := s.store - {c}), p)
  {
    var s' := s.(store := s.store - {c});
    forall x, k | x in s'.store && k in s'.store[x].pc.tracks && s'.store[x].pc.tracks[k].owner == p
      ensures IsCurrent(s', s'.store[x].pc.tracks[k])
    {
      assert IsCurrent(s, s.store[x].pc.tracks[k]);
    }
  }

  lemma CloseStraysIff(s: State, c: ClientId, stuck: set<Sender>, p: ClientId)
    requires Inv(s) && NoStraysOf(s, p)
    ensures NoStraysOf(Step(s, Close(c, stuck)), p) <==> !(c == p && HasStuck(s, p, stuck))
  {
    if c == p && HasStuck(s, p, stuck) {
      CloseLeavesStuck(s, stuck, p);
    } else {
      StopStraysIff(s, c, stuck, p);
      var mid := Step(s, Stop(c, stuck));
      RemovalKeepsNoStrays(mid, c, p);
      assert Step(s, Close(c, stuck)) == mid.(store := mid.store - {c});
    }
  }

  // An operation leaves a track of p behind exactly if it is one of the kinds above.
  lemma StepStraysIff(s: State, op: Op, p: ClientId)
    requires Inv(s) && Enabled(s, op) && NoStraysOf(s, p)
    ensures NoStraysOf(Step(s, op), p) <==> !LeavesStrays(s, op, p)
  {
    match op {
      case Join(c, list, fails) => JoinStraysIff(s, c, list, fails, p);
      case Publish(c, list, fails, stuck) => PublishStraysIff(s, c, list, fails, stuck, p);
      case PublishLate(c, list, fails, stuck) => PublishLateStraysIff(s, c, list, fails, stuck, p);
      case Stop(c, stuck) => StopStraysIff(s, c, stuck, p);
      case Close(c, stuck) => CloseStraysIff(s, c, stuck, p);
      case _ =>
    }
  }

  // Whatever everybody else does, the connections carry no past track of a client that did none of
  // these itself; once it is stopped without a refusal they carry none of its tracks at all.
  lemma {:induction false} NoStrayTracks(states: seq<State>, ops: seq<Op>, n: nat, p: ClientId)
    requires IsRun(states, ops) && n <= |ops|
    requires forall i :: 0 <= i < n ==> !LeavesStrays(states[i], ops[i], p)
    ensures NoStraysOf(states[n], p) && HasNoSlots(Step(states[n], Stop(p, {})), p)
  {
    if n == 0 {
    } else {
      NoStrayTracks(states, ops, n - 1, p);
      RunKeepsInv(states, ops, n - 1);
      assert IsStep(states, ops, n - 1);
      StepStraysIff(states[n - 1], ops[n - 1], p);
    }
    RunKeepsInv(states, ops, n);
    StopStraysIff(states[n], p, {}, p);
  }

  /// Joining again while publishing, an example

  lemma SubscribePair(store: Store, c: ClientId, a: ClientId, b: ClientId)
    ensures Subscribe(store, c, [a, b], {}) == SubscribeOne(SubscribeOne(store, c, a, {}), c, b, {})
  {
    assert [a, b][..1] == [a] && [a][..0] == [];
    assert Subscribe(store, c, [a], {}) == SubscribeOne(Subscribe(store, c, [], {}), c, a, {});
  }

  // Two clients of one room have joined, and the first is publishing.
  const SPEAKER: ClientId := "p"
  const LISTENER: ClientId := "x"
  const BOTH: seq<ClientId> := [SPEAKER, LISTENER]
  const FIRST_TRACK := Track(SPEAKER, 0)
  const JOINED := State(map[SPEAKER := Client(1, 1), LISTENER := Client(1, 2)], {SPEAKER, LISTENER},
                        map[SPEAKER := NewSession(0), LISTENER := NewSession(1)], 2, 0, {})
  const ON_AIR := State(map[SPEAKER := Client(1, 1), LISTENER := Client(1, 2)], {SPEAKER, LISTENER},
                        map[SPEAKER := Session(Pc(0, map[], 0), Some(FIRST_TRACK), true, map[LISTENER := Sender(1, 0)]),
                            LISTENER := Session(Pc(1, map[0 := FIRST_TRACK], 1), None, false, map[])], 2, 1, {})

  ghost predicate Reachable(s: State) {
    exists states, ops :: IsRun(states, ops) && states[|ops|] == s
  }

  lemma ReachableStep(s: State, op: Op)
    requires Reachable(s) && Enabled(s, op)
    ensures Reachable(Step(s, op))
  {
    var states, ops :| IsRun(states, ops) && states[|ops|] == s;
    var states', ops' := states + [Step(s, op)], ops + [op];
    forall i | 0 <= i < |ops'| ensures IsStep(states', ops', i) {
      assert i < |ops| ==> IsStep(states, ops, i);
    }
    assert IsRun(states', ops');
  }

  lemma JoinedIsReachable()
    ensures Reachable(JOINED)
  {
    assert IsRun([START], []);
    assert Reachable(START);
    var s0 := Step(START, Register(SPEAKER, Client(1, 1)));
    var s1 := Step(s0, Register(LISTENER, Client(1, 2)));
    ReachableStep(START, Register(SPEAKER, Client(1, 1)));
    ReachableStep(s0, Register(LISTENER, Client(1, 2)));
    ReachableStep(s1, Join(SPEAKER, BOTH, {}));
    SubscribePair(s1.store[SPEAKER := NewSession(0)], SPEAKER, SPEAKER, LISTENER);
    var s2 := Step(s1, Join(SPEAKER, BOTH, {}));
    assert s2.store == map[SPEAKER := NewSession(0)];
    ReachableStep(s2, Join(LISTENER, BOTH, {}));
    SubscribePair(s2.store[LISTENER := NewSession(1)], LISTENER, SPEAKER, LISTENER);
    assert Step(s2, Join(LISTENER, BOTH, {})).refused == {};
    assert Step(s2, Join(LISTENER, BOTH, {})) == JOINED;
  }

  lemma OnAirIsReachable()
    ensures Reachable(ON_AIR)
  {
    JoinedIsReachable();
    var s := Step(JOINED, Publish(SPEAKER, BOTH, {}, {}));
    ReachableStep(JOINED, Publish(SPEAKER, BOTH, {}, {}));
    assert StopPublishing(JOINED.store, SPEAKER, {}) == JOINED.store;
    FirstFanOut();
    assert s.refused == {};
    assert s == ON_AIR;
  }

  lemma FirstFanOut()
    ensures var store := JOINED.store[SPEAKER := Publishing(JOINED.store[SPEAKER], FIRST_TRACK)];
            FanOut(store, SPEAKER, BOTH, FIRST_TRACK, {}) == ON_AIR.store
  {
    var store := JOINED.store[SPEAKER := Publishing(JOINED.store[SPEAKER], FIRST_TRACK)];
    var out := FanOut(store, SPEAKER, BOTH, FIRST_TRACK, {});
    assert NewSenders(store, SPEAKER, BOTH, {}) == map[LISTENER := Sender(1, 0)];
    assert out.Keys == {SPEAKER, LISTENER};
    assert out[SPEAKER] == ON_AIR.store[SPEAKER] && out[LISTENER] == ON_AIR.store[LISTENER];
  }

  lemma RejoinAndStop()
    ensures Step(Step(ON_AIR, Join(SPEAKER, BOTH, {})), Stop(SPEAKER, {})).store
            == map[SPEAKER := NewSession(2), LISTENER := ON_AIR.store[LISTENER]]
  {
    SubscribePair(ON_AIR.store[SPEAKER := NewSession(2)], SPEAKER, SPEAKER, LISTENER);
    var again := Step(ON_AIR, Join(SPEAKER, BOTH, {})).store;
    assert again == map[SPEAKER := NewSession(2), LISTENER := ON_AIR.store[LISTENER]];
    assert StopPublishing(again, SPEAKER, {}) == again;
  }

  // A run in which the publishing client joins again and is then stopped, and the listener still
  // carries its first track.
  lemma RejoinLeavesStray()
    ensures exists s :: Reachable(s) && SPEAKER in s.store && s.store[SPEAKER].localTrack.None?
                        && LISTENER in s.store && FIRST_TRACK in s.store[LISTENER].pc.tracks.Values
  {
    OnAirIsReachable();
    RejoinAndStop();
    var join, stop := Join(SPEAKER, BOTH, {}), Stop(SPEAKER, {});
    ReachableStep(ON_AIR, join);
    ReachableStep(Step(ON_AIR, join), stop);
    var s := Step(Step(ON_AIR, join), stop);
    assert 0 in s.store[LISTENER].pc.tracks && s.store[LISTENER].pc.tracks[0] == FIRST_TRACK;
  }
}
