/** What each event of the stage does, told by the row of the client's user: who is let in, whose
 * track is published and to whom, who is disconnected, and whom a revocation spares.
 */
module StageAnswers {
  import opened Wrappers
  import opened Cursor
  import opened Roles
  import opened RoomUsers
  import opened Presence
  import Membership
  import MembershipAnswers
  import Sfu
  import SfuLaws
  import opened Stage

  predicate IsMember(s: System, c: ClientId)
    requires c in s.media.clients
  {
    MembershipAnswers.IsMember(s.world, s.media.clients[c].room, s.media.clients[c].user)
  }

  predicate HoldsOneOf(s: System, c: ClientId, roles: set<Role>)
    requires c in s.media.clients
  {
    MembershipAnswers.Holds(s.world, s.media.clients[c].room, s.media.clients[c].user, roles)
  }

  /// Connecting

  // Only members are let in; the client is then one of the room's.
  lemma ConnectingIsExact(s: System, c: ClientId, room: RoomId, user: UserId)
    requires Enabled(s, Connect(c, room, user))
    ensures var s', may := Step(s, Connect(c, room, user)), MembershipAnswers.IsMember(s.world, room, user);
            && (may ==> s' == s.(media := s'.media)
                        && s'.media.registered == s.media.registered + {c}
                        && s'.media.clients == s.media.clients[c := Sfu.Client(room, user)]
                        && s'.media.store == s.media.store)
            && (!may ==> s' == s)
  {
  }

  // A connection that ends takes its client off the room's list at once; its session stays until the
  // disconnect handler has run.
  lemma HangingUpIsExact(s: System, c: ClientId)
    requires Enabled(s, HangUp(c))
    ensures var s' := Step(s, HangUp(c));
            && s'.media.registered == s.media.registered - {c}
            && s' == s.(media := s.media.(registered := s'.media.registered))
  {
  }

  /// Joining the stream

  // The joining client's connection carries the current track of every other listed client that
  // publishes, once and on record there, but for those whose attachment fails, and no other track.
  ghost predicate Hears(s: Sfu.State, s': Sfu.State, c: ClientId, list: seq<ClientId>, fails: set<ClientId>) {
    && c in s'.store
    && (forall p :: p in list && p != c && p in s.store && s.store[p].localTrack.Some? ==>
          && SfuLaws.Copies(s'.store[c], s.store[p].localTrack.value) == (if p in fails then 0 else 1)
          && (p !in fails ==>
                && p in s'.store && c in s'.store[p].senders
                && s'.store[p].senders[c].pc == s'.store[c].pc.id
                && s'.store[p].senders[c].slot in s'.store[c].pc.tracks
                && s'.store[c].pc.tracks[s'.store[p].senders[c].slot] == s.store[p].localTrack.value))
    && (forall k :: k in s'.store[c].pc.tracks ==>
          exists p :: p in list && p != c && p in s.store && s.store[p].localTrack == Some(s'.store[c].pc.tracks[k]))
  }

  lemma JoiningIsHearing(s: Sfu.State, c: ClientId, list: seq<ClientId>, fails: set<ClientId>)
    requires SfuLaws.Inv(s) && Sfu.Enabled(s, Sfu.Join(c, list, fails))
    ensures var s' := Sfu.Step(s, Sfu.Join(c, list, fails));
            && Hears(s, s', c, list, fails)
            && s'.store.Keys == s.store.Keys + {c} && s'.store[c].localTrack.None? && s'.store[c].pc.id == s.nextPc
            && forall p :: p in s.store && p != c ==>
                 s'.store[p] == s.store[p].(senders := s'.store[p].senders)
                 && s'.store[p].senders - {c} == s.store[p].senders - {c}
  {
    var store := s.store[c := Sfu.NewSession(s.nextPc)];
    forall x | x in store && store[x].localTrack.Some? ensures store[x].localTrack.value.owner == x {
      assert SfuLaws.SessionOk(s, x);
    }
    SfuLaws.SubscribeEffect(store, c, list, fails);
    HearsAfterJoin(s, c, list, fails);
    forall p | p in s.store && p != c
      ensures SfuLaws.PeerAfterJoin(store, Sfu.Subscribe(store, c, list, fails), c, p, list, fails)
    {
    }
  }

  lemma HearsAfterJoin(s: Sfu.State, c: ClientId, list: seq<ClientId>, fails: set<ClientId>)
    requires var store := s.store[c := Sfu.NewSession(s.nextPc)];
             && SfuLaws.JoinEffect(store, Sfu.Subscribe(store, c, list, fails), c, list, fails)
             && SfuLaws.OwnTracks(store)
    ensures Hears(s, Sfu.Step(s, Sfu.Join(c, list, fails)), c, list, fails)
  {
    var store := s.store[c := Sfu.NewSession(s.nextPc)];
    var out := Sfu.Subscribe(store, c, list, fails);
    forall p | p in list && p != c && p in s.store && s.store[p].localTrack.Some?
      ensures SfuLaws.Copies(out[c], s.store[p].localTrack.value) == if p in fails then 0 else 1
      ensures SfuLaws.PeerAfterJoin(store, out, c, p, list, fails)
    {
      CopiesAfterJoin(store, out, c, p, list, fails);
    }
    forall k | k in out[c].pc.tracks
      ensures exists p :: p in list && p != c && p in s.store && s.store[p].localTrack == Some(out[c].pc.tracks[k])
    {
      assert SfuLaws.SlotAfterJoin(store, out, c, k, list, fails);
    }
  }

  lemma CopiesAfterJoin(store: Sfu.Store, out: Sfu.Store, c: ClientId, p: ClientId, list: seq<ClientId>,
                        fails: set<ClientId>)
    requires SfuLaws.JoinEffect(store, out, c, list, fails) && SfuLaws.OwnTracks(store)
    requires p in list && p != c && p in store && store[p].localTrack.Some?
    ensures SfuLaws.Copies(out[c], store[p].localTrack.value) == if p in fails then 0 else 1
  {
    var t := store[p].localTrack.value;
    var slots := SfuLaws.Slots(out[c], t);
    assert SfuLaws.PeerAfterJoin(store, out, c, p, list, fails);
    forall k | k in slots ensures p !in fails && out[p].senders[c] == Sfu.Sender(store[c].pc.id, k) {
      assert SfuLaws.SlotAfterJoin(store, out, c, k, list, fails);
    }
    if p in fails {
      assert slots == {};
    } else {
      assert slots == {out[p].senders[c].slot};
    }
  }

  // Members join with a new connection; others are refused.
  lemma JoiningIsExact(s: System, c: ClientId, list: seq<ClientId>, fails: set<ClientId>)
    requires SfuLaws.Inv(s.media) && Enabled(s, JoinStream(c, list, fails))
    ensures var s' := Step(s, JoinStream(c, list, fails));
            && (IsMember(s, c) ==> s'.world == s.world && Hears(s.media, s'.media, c, list, fails)
                                   && s'.media.store[c].pc.id == s.media.nextPc)
            && (!IsMember(s, c) ==> s' == s)
  {
    JoiningIsHearing(s.media, c, list, fails);
  }

  /// Publishing

  // Every other listed client with a session has the new track, once, unless attaching it fails.
  ghost predicate IsHeardBy(s: Sfu.State, s': Sfu.State, c: ClientId, t: Sfu.Track, list: seq<ClientId>,
                            fails: set<ClientId>)
  {
    && s'.store.Keys == s.store.Keys
    && forall x :: x in s.store && x != c ==>
         SfuLaws.Copies(s'.store[x], t) == if x in list && x !in fails then 1 else 0
  }

  lemma NewTrackIsNowhere(s: Sfu.State, x: ClientId, t: Sfu.Track)
    requires SfuLaws.Inv(s) && x in s.store && t.serial == s.nextTrack
    ensures SfuLaws.Copies(s.store[x], t) == 0
  {
    forall k | k in s.store[x].pc.tracks ensures s.store[x].pc.tracks[k] != t { assert SfuLaws.Carried(s, x, k); }
    assert SfuLaws.Slots(s.store[x], t) == {};
  }

  lemma OneCopyMore(session: Sfu.Session, t: Sfu.Track)
    requires forall k :: k in session.pc.tracks ==> k < session.pc.nextSlot
    ensures SfuLaws.Copies(Sfu.Attached(session, t), t) == SfuLaws.Copies(session, t) + 1
  {
    assert session.pc.nextSlot !in SfuLaws.Slots(session, t);
    assert SfuLaws.Slots(Sfu.Attached(session, t), t) == SfuLaws.Slots(session, t) + {session.pc.nextSlot};
  }

  lemma PublishingIsFanOut(s: Sfu.State, c: ClientId, list: seq<ClientId>, fails: set<ClientId>,
                           stuck: set<Sfu.Sender>)
    requires SfuLaws.Inv(s) && Sfu.Enabled(s, Sfu.Publish(c, list, fails, stuck))
    ensures var mid := Sfu.Step(s, Sfu.Stop(c, stuck));
            && SfuLaws.Inv(mid) && mid.store.Keys == s.store.Keys && mid.nextTrack == s.nextTrack
            && Sfu.Step(s, Sfu.Publish(c, list, fails, stuck)) == SfuLaws.Published(mid, c, list, fails)
  {
    SfuLaws.StopKeepsInv(s, c, stuck);
  }

  lemma PublishingIsHeard(s: Sfu.State, c: ClientId, list: seq<ClientId>, fails: set<ClientId>,
                          stuck: set<Sfu.Sender>)
    requires SfuLaws.Inv(s) && Sfu.Enabled(s, Sfu.Publish(c, list, fails, stuck))
    ensures var s', t := Sfu.Step(s, Sfu.Publish(c, list, fails, stuck)), Sfu.Track(c, s.nextTrack);
            && IsHeardBy(s, s', c, t, list, fails)
            && s'.store[c].localTrack == Some(t) && s'.store[c].stopOpen
  {
    PublishingIsFanOut(s, c, list, fails, stuck);
    FanningOutIsHeard(Sfu.Step(s, Sfu.Stop(c, stuck)), c, list, fails);
  }

  lemma FanningOutIsHeard(s: Sfu.State, c: ClientId, list: seq<ClientId>, fails: set<ClientId>)
    requires SfuLaws.Inv(s) && c in s.store
    ensures var s', t := SfuLaws.Published(s, c, list, fails), Sfu.Track(c, s.nextTrack);
            && IsHeardBy(s, s', c, t, list, fails)
            && s'.store[c].localTrack == Some(t) && s'.store[c].stopOpen
  {
    forall x | x in s.store && x != c
      ensures x in SfuLaws.Published(s, c, list, fails).store
      ensures SfuLaws.Copies(SfuLaws.Published(s, c, list, fails).store[x], Sfu.Track(c, s.nextTrack))
              == if x in list && x !in fails then 1 else 0
    {
      CopiesAfterFanOut(s, c, list, fails, x);
    }
  }

  lemma CopiesAfterFanOut(s: Sfu.State, c: ClientId, list: seq<ClientId>, fails: set<ClientId>, x: ClientId)
    requires SfuLaws.Inv(s) && c in s.store && x in s.store && x != c
    ensures var s' := SfuLaws.Published(s, c, list, fails);
            x in s'.store && SfuLaws.Copies(s'.store[x], Sfu.Track(c, s.nextTrack))
                             == if x in list && x !in fails then 1 else 0
  {
    SfuLaws.FanOutEffect(s, c, list, fails, x);
    assert SfuLaws.SessionOk(s, x);
    NewTrackIsNowhere(s, x, Sfu.Track(c, s.nextTrack));
    OneCopyMore(s.store[x], Sfu.Track(c, s.nextTrack));
  }

  lemma LatePublishingIsHeard(s: Sfu.State, c: ClientId, list: seq<ClientId>, fails: set<ClientId>,
                              stuck: set<Sfu.Sender>)
    requires SfuLaws.Inv(s) && Sfu.Enabled(s, Sfu.PublishLate(c, list, fails, stuck))
    ensures var s', t := Sfu.Step(s, Sfu.PublishLate(c, list, fails, stuck)), Sfu.Track(c, s.nextTrack);
            && IsHeardBy(s, s', c, t, list, fails)
            && (c in s.store ==> s'.store[c].localTrack.None?)
  {
    var mid := Sfu.Step(s, Sfu.Stop(c, stuck));
    var s' := Sfu.Step(s, Sfu.PublishLate(c, list, fails, stuck));
    SfuLaws.StopKeepsInv(s, c, stuck);
    assert s' == SfuLaws.PublishedLate(mid, c, list, fails);
    forall x | x in s.store && x != c
      ensures SfuLaws.Copies(s'.store[x], Sfu.Track(c, s.nextTrack)) == if x in list && x !in fails then 1 else 0
    {
      assert SfuLaws.SessionOk(mid, x);
      NewTrackIsNowhere(mid, x, Sfu.Track(c, s.nextTrack));
      OneCopyMore(mid.store[x], Sfu.Track(c, s.nextTrack));
    }
  }

  // Everybody but a listener is heard by the room, on a new track which the session keeps if it is
  // still the client's; a listener's track is ignored.
  lemma CallbackIsExact(s: System, c: ClientId, stored: bool, list: seq<ClientId>, fails: set<ClientId>,
                        stuck: set<Sfu.Sender>)
    requires SfuLaws.Inv(s.media) && Enabled(s, OnTrack(c, stored, list, fails, stuck))
    ensures var s', t := Step(s, OnTrack(c, stored, list, fails, stuck)), Sfu.Track(c, s.media.nextTrack);
            && (HoldsOneOf(s, c, {Owner, Admin, Moderator, Speaker}) ==>
                  && s'.world == s.world && IsHeardBy(s.media, s'.media, c, t, list, fails)
                  && (stored ==> c in s'.media.store && s'.media.store[c].localTrack == Some(t)
                                 && s'.media.store[c].stopOpen))
            && (HoldsOneOf(s, c, {Listener}) ==> s' == s)
  {
    if stored {
      PublishingIsHeard(s.media, c, list, fails, stuck);
    } else {
      LatePublishingIsHeard(s.media, c, list, fails, stuck);
    }
  }

  /// Leaving

  // The client's session is gone, its current track is off all connections that do not refuse, and
  // nothing else is.
  ghost predicate IsGone(s: Sfu.State, s': Sfu.State, c: ClientId, stuck: set<Sfu.Sender>) {
    && s'.store.Keys == s.store.Keys - {c}
    && forall x :: x in s'.store ==>
         && s'.store[x] == s.store[x].(pc := s.store[x].pc.(tracks := s'.store[x].pc.tracks))
         && (forall k :: k in s'.store[x].pc.tracks ==>
               k in s.store[x].pc.tracks && s'.store[x].pc.tracks[k] == s.store[x].pc.tracks[k])
         && (forall k :: k in s.store[x].pc.tracks && k !in s'.store[x].pc.tracks ==>
               c in s.store && s.store[c].localTrack == Some(s.store[x].pc.tracks[k]))
         && (forall k :: k in s.store[x].pc.tracks && c in s.store
                         && s.store[c].localTrack == Some(s.store[x].pc.tracks[k])
                         && Sfu.Sender(s.store[x].pc.id, k) !in stuck ==>
               k !in s'.store[x].pc.tracks)
  }

  lemma ClosingIsExact(s: Sfu.State, c: ClientId, stuck: set<Sfu.Sender>)
    requires SfuLaws.Inv(s)
    ensures IsGone(s, Sfu.Step(s, Sfu.Close(c, stuck)), c, stuck)
  {
    var s' := Sfu.Step(s, Sfu.Close(c, stuck));
    if c in s.store {
      forall x | x in s'.store
        ensures x in s.store && s'.store[x] == Sfu.Step(s, Sfu.Stop(c, stuck)).store[x]
        ensures SfuLaws.Inv(s) && x != c
      {
      }
      forall x | x in s'.store
        ensures s'.store[x] == s.store[x].(pc := s.store[x].pc.(tracks := s'.store[x].pc.tracks))
        ensures forall k :: k in s'.store[x].pc.tracks <==>
                  k in s.store[x].pc.tracks && !SfuLaws.TakenBy(s, c, stuck, x, k)
        ensures forall k :: k in s'.store[x].pc.tracks ==> s'.store[x].pc.tracks[k] == s.store[x].pc.tracks[k]
      {
        SfuLaws.StopEffect(s, c, stuck, x);
      }
    }
  }

  // A member who leaves is offline and hung up; for anybody else nothing happens.
  lemma LeavingIsExact(s: System, c: ClientId, now: Stamp, stuck: set<Sfu.Sender>)
    requires SfuLaws.Inv(s.media) && Enabled(s, LeaveRoom(c, now, stuck))
    ensures var s' := Step(s, LeaveRoom(c, now, stuck));
            var room, user := s.media.clients[c].room, s.media.clients[c].user;
            && (IsMember(s, c) ==>
                  && IsGone(s.media, s'.media, c, stuck) && MembershipAnswers.OnlyRowOf(s.world, s'.world, room, user)
                  && MembershipAnswers.IsMember(s'.world, room, user)
                  && !s'.world.rows[Membership.Key(room, user)].isOnline
                  && StateOf(s'.world.presence, room, user) == ParticipantState(true, false))
            && (!IsMember(s, c) ==> s' == s)
  {
    MembershipAnswers.LeavingIsExact(s.world, s.media.clients[c].room, s.media.clients[c].user, now);
    ClosingIsExact(s.media, c, stuck);
  }

  // A client whose connection ended is hung up in any case.
  lemma DisconnectingIsExact(s: System, c: ClientId, now: Stamp, stuck: set<Sfu.Sender>)
    requires SfuLaws.Inv(s.media) && Enabled(s, Disconnected(c, now, stuck))
    ensures var s' := Step(s, Disconnected(c, now, stuck));
            var room, user := s.media.clients[c].room, s.media.clients[c].user;
            && IsGone(s.media, s'.media, c, stuck)
            && (IsMember(s, c) ==>
                  && MembershipAnswers.OnlyRowOf(s.world, s'.world, room, user)
                  && MembershipAnswers.IsMember(s'.world, room, user)
                  && !s'.world.rows[Membership.Key(room, user)].isOnline
                  && StateOf(s'.world.presence, room, user) == ParticipantState(true, false))
            && (!IsMember(s, c) ==> s'.world == s.world)
  {
    MembershipAnswers.LeavingIsExact(s.world, s.media.clients[c].room, s.media.clients[c].user, now);
    ClosingIsExact(s.media, c, stuck);
  }

  /// Revoking

  // Slot k of x's connection is on record with one of the user's listed clients.
  ghost predicate IsOfOne(store: Sfu.Store, user: UserId, members: seq<(ClientId, UserId)>, x: ClientId, k: nat)
    requires x in store
  {
    exists p :: (p, user) in members && p in store && x in store[p].senders
                && store[p].senders[x] == Sfu.Sender(store[x].pc.id, k)
  }

  // What becomes of the session of x.
  ghost predicate SparesOthers(store: Sfu.Store, out: Sfu.Store, user: UserId, members: seq<(ClientId, UserId)>,
                               x: ClientId)
    requires x in store && x in out
  {
    && (if (x, user) in members then out[x].localTrack.None? && !out[x].stopOpen && out[x].senders == map[]
        else out[x] == store[x].(pc := out[x].pc))
    && out[x].pc == store[x].pc.(tracks := out[x].pc.tracks)
    && (forall k :: k in out[x].pc.tracks ==>
          k in store[x].pc.tracks && out[x].pc.tracks[k] == store[x].pc.tracks[k])
    && (forall k :: k in store[x].pc.tracks && k !in out[x].pc.tracks ==> IsOfOne(store, user, members, x, k))
  }

  lemma StopSpares(store: Sfu.Store, c: ClientId, stuck: set<Sfu.Sender>, x: ClientId)
    requires x in store
    ensures var out := Sfu.StopPublishing(store, c, stuck);
            && x in out
            && (if x == c then out[x].localTrack.None? && !out[x].stopOpen && out[x].senders == map[]
                else out[x] == store[x].(pc := out[x].pc))
            && out[x].pc == store[x].pc.(tracks := out[x].pc.tracks)
            && (forall k :: k in out[x].pc.tracks ==>
                  k in store[x].pc.tracks && out[x].pc.tracks[k] == store[x].pc.tracks[k])
            && (forall k :: k in store[x].pc.tracks && k !in out[x].pc.tracks ==>
                  c in store && x in store[c].senders && store[c].senders[x] == Sfu.Sender(store[x].pc.id, k))
  {
  }

  // Each listed client of the user is silenced; all other clients go on publishing what they did with
  // the senders they had, and lose only tracks that the silenced clients had put on their connections.
  lemma {:induction false} RevokingIsExact(store: Sfu.Store, user: UserId, members: seq<(ClientId, UserId)>,
                                           stuck: set<Sfu.Sender>, x: ClientId)
    requires x in store
    ensures var out := Sfu.Revoked(store, user, members, stuck);
            out.Keys == store.Keys && SparesOthers(store, out, user, members, x)
  {
    if members == [] {
    } else {
      var shorter, last := members[..|members| - 1], members[|members| - 1];
      var mid := Sfu.Revoked(store, user, shorter, stuck);
      var out := Sfu.Revoked(store, user, members, stuck);
      RevokingIsExact(store, user, shorter, stuck, x);
      assert members == shorter + [last];
      if last.1 == user {
        StopSpares(mid, last.0, stuck, x);
        if last.0 in store { RevokingIsExact(store, user, shorter, stuck, last.0); }
        forall k | k in store[x].pc.tracks && k !in out[x].pc.tracks ensures IsOfOne(store, user, members, x, k) {
          if k in mid[x].pc.tracks {
            assert last in members && mid[last.0].senders == store[last.0].senders;
          } else {
            assert IsOfOne(store, user, shorter, x, k);
          }
        }
      }
    }
  }

  // A block or demotion silences the user's clients in the room and nobody else.
  lemma ServingIsExact(s: System, call: Membership.Call, members: seq<(ClientId, UserId)>, stuck: set<Sfu.Sender>,
                       x: ClientId)
    requires SfuLaws.Inv(s.media) && Enabled(s, Serve(call, members, stuck)) && x in s.media.store
    ensures var s', revoked := Step(s, Serve(call, members, stuck)), Membership.Perform(s.world, call).revoked;
            && s'.world == Membership.Perform(s.world, call).world
            && x in s'.media.store && x in s.media.clients
            && (revoked && x in s.media.registered && s.media.clients[x] == Sfu.Client(call.room, call.user) ==>
                  s'.media.store[x].localTrack.None? && s'.media.store[x].senders == map[])
            && (!(revoked && x in s.media.registered && s.media.clients[x] == Sfu.Client(call.room, call.user)) ==>
                  && s'.media.store[x].localTrack == s.media.store[x].localTrack
                  && s'.media.store[x].senders == s.media.store[x].senders)
  {
    assert SfuLaws.SessionOk(s.media, x);
    RevokedOnlyByBlockOrDemotion(s.world, call);
    if Membership.Perform(s.world, call).revoked { RevokingIsExact(s.media.store, call.user, members, stuck, x); }
  }

  lemma RevokedOnlyByBlockOrDemotion(w: Membership.World, call: Membership.Call)
    ensures Membership.Perform(w, call).revoked ==> MayRevoke(call)
  {
  }
}
