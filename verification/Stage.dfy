/** The stage: membership and media together, as the WebSocket handlers tie them to each other. */
module Stage {
  import opened Wrappers
  import opened Cursor
  import opened Roles
  import opened RoomUsers
  import Presence
  import Membership
  import Sfu
  import SfuLaws

  datatype System = System(world: Membership.World, media: Sfu.State)

  // `list` is the hub's answer for the room, `members` the same with the users behind the clients.
  // `stored`: the session whose peer connection reports the track is still the client's. `stuck` are
  // the senders whose removal is refused.
  datatype Event =
    | Serve(call: Membership.Call, members: seq<(ClientId, UserId)>, stuck: set<Sfu.Sender>)
    | Connect(c: ClientId, room: RoomId, user: UserId)
    | JoinStream(c: ClientId, list: seq<ClientId>, fails: set<ClientId>)
    | OnTrack(c: ClientId, stored: bool, list: seq<ClientId>, fails: set<ClientId>, stuck: set<Sfu.Sender>)
    | LeaveRoom(c: ClientId, now: Stamp, stuck: set<Sfu.Sender>)
    | HangUp(c: ClientId)
    | Disconnected(c: ClientId, now: Stamp, stuck: set<Sfu.Sender>)

  predicate CanJoinRoom(w: Membership.World, room: RoomId, user: UserId) {
    Membership.FindBy(w.rows, user, room).Some?
  }

  // An unblocked row with a role other than listener, which is what the track callback asks for.
  predicate MaySpeak(w: Membership.World, room: RoomId, user: UserId) {
    var ru := Membership.FindBy(w.rows, user, room);
    ru.Some? && !ru.value.IsListener()
  }

  ghost predicate MembersList(s: Sfu.State, room: RoomId, members: seq<(ClientId, UserId)>)
    requires s.registered <= s.clients.Keys
  {
    forall c: ClientId, u: UserId :: (c, u) in members <==> c in s.registered && s.clients[c] == Sfu.Client(room, u)
  }

  predicate MayRevoke(call: Membership.Call) { call.Block? || call.UpdateRole? }

  function Publication(c: ClientId, stored: bool, list: seq<ClientId>, fails: set<ClientId>,
                       stuck: set<Sfu.Sender>): Sfu.Op
  {
    if stored then Sfu.Publish(c, list, fails, stuck) else Sfu.PublishLate(c, list, fails, stuck)
  }

  // The track callback finds the row of its client; what it does without one is not defined.
  ghost predicate Enabled(s: System, e: Event) {
    && s.media.registered <= s.media.clients.Keys
    && match e
       case Serve(call, members, stuck) => MayRevoke(call) ==> MembersList(s.media, call.room, members)
       case Connect(c, _, _) => c !in s.media.clients
       case JoinStream(c, list, fails) => Sfu.Enabled(s.media, Sfu.Join(c, list, fails))
       case OnTrack(c, stored, list, fails, stuck) =>
         && Sfu.Enabled(s.media, Publication(c, stored, list, fails, stuck))
         && CanJoinRoom(s.world, s.media.clients[c].room, s.media.clients[c].user)
       case LeaveRoom(c, _, stuck) => c in s.media.registered
       case HangUp(c) => c in s.media.registered
       case Disconnected(c, _, stuck) => c in s.media.clients && c !in s.media.registered
  }

  function Left(s: System, c: ClientId, now: Stamp): Membership.Outcome
    requires c in s.media.clients
  {
    Membership.RemoveUserCall(s.world, s.media.clients[c].room, s.media.clients[c].user, now)
  }

  ghost function Step(s: System, e: Event): System
    requires Enabled(s, e)
  {
    match e
    case Serve(call, members, stuck) =>
      var out := Membership.Perform(s.world, call);
      System(out.world,
             if out.revoked then s.media.(store := Sfu.Revoked(s.media.store, call.user, members, stuck)) else s.media)
    case Connect(c, room, user) =>
      if CanJoinRoom(s.world, room, user)
      then s.(media := Sfu.Step(s.media, Sfu.Register(c, Sfu.Client(room, user))))
      else s
    case JoinStream(c, list, fails) =>
      if CanJoinRoom(s.world, s.media.clients[c].room, s.media.clients[c].user)
      then s.(media := Sfu.Step(s.media, Sfu.Join(c, list, fails)))
      else s
    case OnTrack(c, stored, list, fails, stuck) =>
      if MaySpeak(s.world, s.media.clients[c].room, s.media.clients[c].user)
      then s.(media := Sfu.Step(s.media, Publication(c, stored, list, fails, stuck)))
      else s
    case LeaveRoom(c, now, stuck) =>
      var out := Left(s, c, now);
      if out.result.Err? then s else System(out.world, Sfu.Step(s.media, Sfu.Close(c, stuck)))
    case HangUp(c) => s.(media := Sfu.Step(s.media, Sfu.Unregister(c)))
    case Disconnected(c, now, stuck) => System(Left(s, c, now).world, Sfu.Step(s.media, Sfu.Close(c, stuck)))
  }

  /// Runs

  const START := System(Membership.World(map[], map[], Presence.Redis(map[], map[])), Sfu.START)

  ghost predicate IsStep(states: seq<System>, events: seq<Event>, i: nat)
    requires i < |events| && |states| == |events| + 1
  {
    Enabled(states[i], events[i]) && states[i + 1] == Step(states[i], events[i])
  }

  ghost predicate IsRun(states: seq<System>, events: seq<Event>) {
    && |states| == |events| + 1 && states[0] == START
    && (forall i :: 0 <= i < |events| ==> IsStep(states, events, i))
  }

  /// Silence

  // No client of the user that is still connected to the room publishes.
  ghost predicate Quiet(s: Sfu.State, room: RoomId, user: UserId) {
    forall c :: c in s.registered && c in s.clients && s.clients[c] == Sfu.Client(room, user) && c in s.store ==>
      s.store[c].localTrack.None?
  }

  // The event is a call that took the user's right to speak away.
  ghost predicate Revokes(s: System, e: Event, room: RoomId, user: UserId) {
    && e.Serve? && MayRevoke(e.call) && e.call.room == room && e.call.user == user
    && Membership.Perform(s.world, e.call).revoked
  }

  // Which calls those are: every block that goes through, and every role change to listener
  // that its actor may make, whether or not the call then finds the row.
  lemma RevokingCalls(s: System, e: Event, room: RoomId, user: UserId)
    ensures Revokes(s, e, room, user) <==>
            && e.Serve?
            && match e.call
               case Block(r, u, _, _) => r == room && u == user && Membership.Perform(s.world, e.call).result.Ok?
               case UpdateRole(r, u, name, actor) =>
                 r == room && u == user && name == Known(Listener)
                 && Membership.HasRoles(s.world.rows, actor, room, {Owner, Admin, Moderator})
               case _ => false
    ensures Revokes(s, e, room, user) && Enabled(s, e) ==> !MaySpeak(Step(s, e).world, room, user)
  {
  }

  // A stop takes one client's track away and gives none to anybody.
  predicate Hushed(before: Sfu.Store, after: Sfu.Store) {
    && after.Keys <= before.Keys
    && forall c :: c in after ==> after[c].localTrack == before[c].localTrack || after[c].localTrack.None?
  }

  lemma StopHushes(store: Sfu.Store, c: ClientId, stuck: set<Sfu.Sender>)
    ensures Hushed(store, Sfu.StopPublishing(store, c, stuck)) && Sfu.StopPublishing(store, c, stuck).Keys == store.Keys
    ensures c in store ==> Sfu.StopPublishing(store, c, stuck)[c].localTrack.None?
  {
  }

  lemma {:induction false} RevokedIsQuiet(store: Sfu.Store, user: UserId, members: seq<(ClientId, UserId)>,
                                         stuck: set<Sfu.Sender>)
    ensures var out := Sfu.Revoked(store, user, members, stuck);
            && Hushed(store, out) && out.Keys == store.Keys
            && forall c :: c in store && (c, user) in members ==> out[c].localTrack.None?
  {
    if members == [] {
    } else {
      var last := members[|members| - 1];
      RevokedIsQuiet(store, user, members[..|members| - 1], stuck);
      StopHushes(Sfu.Revoked(store, user, members[..|members| - 1], stuck), last.0, stuck);
      assert members == members[..|members| - 1] + [last];
    }
  }

  lemma RevocationSilences(s: System, e: Event, room: RoomId, user: UserId)
    requires Enabled(s, e) && Revokes(s, e, room, user)
    ensures Quiet(Step(s, e).media, room, user)
  {
    RevokedIsQuiet(s.media.store, user, e.members, e.stuck);
  }

  lemma {:induction false} SubscribingKeepsTracks(store: Sfu.Store, c: ClientId, list: seq<ClientId>,
                                                  fails: set<ClientId>)
    ensures var out := Sfu.Subscribe(store, c, list, fails);
            out.Keys == store.Keys && forall x :: x in store ==> out[x].localTrack == store[x].localTrack
  {
    if list != [] { SubscribingKeepsTracks(store, c, list[..|list| - 1], fails); }
  }

  lemma JoiningKeepsQuiet(s: Sfu.State, c: ClientId, list: seq<ClientId>, fails: set<ClientId>, room: RoomId,
                          user: UserId)
    requires Quiet(s, room, user)
    ensures Quiet(Sfu.JoinStep(s, c, list, fails), room, user)
  {
    SubscribingKeepsTracks(s.store[c := Sfu.NewSession(s.nextPc)], c, list, fails);
  }

  lemma PublishingKeepsOthersQuiet(s: Sfu.State, c: ClientId, list: seq<ClientId>, fails: set<ClientId>,
                                   stuck: set<Sfu.Sender>, room: RoomId, user: UserId)
    requires Quiet(s, room, user) && c in s.store && c in s.clients && s.clients[c] != Sfu.Client(room, user)
    ensures Quiet(Sfu.PublishStep(s, c, list, fails, stuck), room, user)
  {
    StopHushes(s.store, c, stuck);
  }

  lemma HushingKeepsQuiet(s: Sfu.State, store: Sfu.Store, room: RoomId, user: UserId)
    requires Quiet(s, room, user) && Hushed(s.store, store)
    ensures Quiet(s.(store := store), room, user)
  {
  }

  lemma StepKeepsQuiet(s: System, e: Event, room: RoomId, user: UserId)
    requires Enabled(s, e) && s.media.store.Keys <= s.media.clients.Keys
    requires Quiet(s.media, room, user) && !MaySpeak(s.world, room, user)
    ensures Quiet(Step(s, e).media, room, user)
  {
    match e {
      case Serve(call, members, stuck) =>
        if Membership.Perform(s.world, call).revoked {
          RevokedIsQuiet(s.media.store, call.user, members, stuck);
          HushingKeepsQuiet(s.media, Sfu.Revoked(s.media.store, call.user, members, stuck), room, user);
        }
      case JoinStream(c, list, fails) => JoiningKeepsQuiet(s.media, c, list, fails, room, user);
      case OnTrack(c, stored, list, fails, stuck) =>
        StopHushes(s.media.store, c, stuck);
        if stored && s.media.clients[c] != Sfu.Client(room, user) {
          PublishingKeepsOthersQuiet(s.media, c, list, fails, stuck, room, user);
        }
      case LeaveRoom(c, _, stuck) => StopHushes(s.media.store, c, stuck);
      case Disconnected(c, _, stuck) => StopHushes(s.media.store, c, stuck);
      case _ =>
    }
  }

  lemma StepKnowsClients(s: System, e: Event)
    requires Enabled(s, e) && s.media.store.Keys <= s.media.clients.Keys
    ensures var s' := Step(s, e); s'.media.store.Keys <= s'.media.clients.Keys
  {
    match e {
      case Serve(call, members, stuck) =>
        if Membership.Perform(s.world, call).revoked { RevokedIsQuiet(s.media.store, call.user, members, stuck); }
      case JoinStream(c, list, fails) =>
        SubscribingKeepsTracks(s.media.store[c := Sfu.NewSession(s.media.nextPc)], c, list, fails);
      case _ =>
    }
  }

  lemma {:induction false} ClientsAreKnown(states: seq<System>, events: seq<Event>, n: nat)
    requires IsRun(states, events) && n <= |events|
    ensures states[n].media.store.Keys <= states[n].media.clients.Keys
  {
    if n == 0 {
    } else {
      ClientsAreKnown(states, events, n - 1);
      assert IsStep(states, events, n - 1);
      StepKnowsClients(states[n - 1], events[n - 1]);
    }
  }

  // Once a call has revoked a user's right to speak, every client of theirs that stays connected
  // is silent, for as long as they hold no unblocked row with a speaking role.
  lemma {:induction false} SilenceLasts(states: seq<System>, events: seq<Event>, i: nat, n: nat, room: RoomId,
                                        user: UserId)
    requires IsRun(states, events) && i < n <= |events|
    requires Revokes(states[i], events[i], room, user)
    requires forall j :: i < j < n ==> !MaySpeak(states[j].world, room, user)
    ensures Quiet(states[n].media, room, user)
  {
    if n == i + 1 {
      assert IsStep(states, events, i);
      RevocationSilences(states[i], events[i], room, user);
    } else {
      SilenceLasts(states, events, i, n - 1, room, user);
      assert IsStep(states, events, n - 1);
      ClientsAreKnown(states, events, n - 1);
      StepKeepsQuiet(states[n - 1], events[n - 1], room, user);
    }
  }

  /// What others hear

  // Revoking goes on by one stop, if the next member is a client of the user.
  lemma RevokedNext(s: Sfu.State, user: UserId, members: seq<(ClientId, UserId)>, stuck: set<Sfu.Sender>)
    requires members != []
    ensures var last := members[|members| - 1];
            var mid := s.(store := Sfu.Revoked(s.store, user, members[..|members| - 1], stuck));
            s.(store := Sfu.Revoked(s.store, user, members, stuck))
            == if last.1 == user then Sfu.Step(mid, Sfu.Stop(last.0, stuck)) else mid
  {
  }

  lemma {:induction false} RevokingKeepsInv(s: Sfu.State, user: UserId, members: seq<(ClientId, UserId)>,
                                            stuck: set<Sfu.Sender>)
    requires SfuLaws.Inv(s)
    ensures SfuLaws.Inv(s.(store := Sfu.Revoked(s.store, user, members, stuck)))
  {
    if members == [] {
      assert s.(store := s.store) == s;
    } else {
      var mid := s.(store := Sfu.Revoked(s.store, user, members[..|members| - 1], stuck));
      RevokingKeepsInv(s, user, members[..|members| - 1], stuck);
      RevokedNext(s, user, members, stuck);
      SfuLaws.StepKeepsInv(mid, Sfu.Stop(members[|members| - 1].0, stuck));
    }
  }

  lemma StepKeepsInv(s: System, e: Event)
    requires SfuLaws.Inv(s.media) && Enabled(s, e)
    ensures SfuLaws.Inv(Step(s, e).media)
  {
    match e {
      case Serve(call, members, stuck) => if MayRevoke(call) { RevokingKeepsInv(s.media, call.user, members, stuck); }
      case Connect(c, room, user) => SfuLaws.StepKeepsInv(s.media, Sfu.Register(c, Sfu.Client(room, user)));
      case JoinStream(c, list, fails) => SfuLaws.StepKeepsInv(s.media, Sfu.Join(c, list, fails));
      case OnTrack(c, stored, list, fails, stuck) =>
        SfuLaws.StepKeepsInv(s.media, Publication(c, stored, list, fails, stuck));
      case LeaveRoom(c, _, stuck) => SfuLaws.StepKeepsInv(s.media, Sfu.Close(c, stuck));
      case HangUp(c) => SfuLaws.StepKeepsInv(s.media, Sfu.Unregister(c));
      case Disconnected(c, _, stuck) => SfuLaws.StepKeepsInv(s.media, Sfu.Close(c, stuck));
    }
  }

  lemma {:induction false} RunKeepsInv(states: seq<System>, events: seq<Event>, n: nat)
    requires IsRun(states, events) && n <= |events|
    ensures SfuLaws.Inv(states[n].media)
  {
    if n == 0 {
    } else {
      RunKeepsInv(states, events, n - 1);
      assert IsStep(states, events, n - 1);
      StepKeepsInv(states[n - 1], events[n - 1]);
    }
  }

  // What leaves a track of p behind on somebody's connection: its joining again while heard, its
  // publishing for a session that was replaced or removed meanwhile, and a stop of p, by whatever
  // handler or revocation, that some connection refuses to take part in.
  ghost predicate LeavesStrays(s: System, e: Event, p: ClientId)
    requires Enabled(s, e)
  {
    match e
    case Serve(call, members, stuck) =>
      && MayRevoke(call) && Membership.Perform(s.world, call).revoked
      && (p, call.user) in members && SfuLaws.HasStuck(s.media, p, stuck)
    case JoinStream(c, list, fails) =>
      && CanJoinRoom(s.world, s.media.clients[c].room, s.media.clients[c].user)
      && SfuLaws.LeavesStrays(s.media, Sfu.Join(c, list, fails), p)
    case OnTrack(c, stored, list, fails, stuck) =>
      && MaySpeak(s.world, s.media.clients[c].room, s.media.clients[c].user)
      && SfuLaws.LeavesStrays(s.media, Publication(c, stored, list, fails, stuck), p)
    case LeaveRoom(c, now, stuck) =>
      Left(s, c, now).result.Ok? && SfuLaws.LeavesStrays(s.media, Sfu.Close(c, stuck), p)
    case Disconnected(c, _, stuck) => SfuLaws.LeavesStrays(s.media, Sfu.Close(c, stuck), p)
    case _ => false
  }

  lemma {:induction false} RevokingStraysIff(s: Sfu.State, user: UserId, members: seq<(ClientId, UserId)>,
                                             stuck: set<Sfu.Sender>, p: ClientId)
    requires SfuLaws.Inv(s) && SfuLaws.NoStraysOf(s, p)
    ensures var out := s.(store := Sfu.Revoked(s.store, user, members, stuck));
            && (SfuLaws.NoStraysOf(out, p) <==> !((p, user) in members && SfuLaws.HasStuck(s, p, stuck)))
            && (SfuLaws.HasStuck(out, p, stuck) <==> (p, user) !in members && SfuLaws.HasStuck(s, p, stuck))
  {
    if members == [] {
      assert s.(store := s.store) == s;
    } else {
      var shorter, last := members[..|members| - 1], members[|members| - 1];
      var mid := s.(store := Sfu.Revoked(s.store, user, shorter, stuck));
      RevokingKeepsInv(s, user, shorter, stuck);
      RevokingStraysIff(s, user, shorter, stuck, p);
      RevokedNext(s, user, members, stuck);
      assert members == shorter + [last];
      if last.1 == user {
        OneMoreStop(mid, last.0, stuck, p);
      }
    }
  }

  lemma OneMoreStop(s: Sfu.State, c: ClientId, stuck: set<Sfu.Sender>, p: ClientId)
    requires SfuLaws.Inv(s)
    ensures var out := Sfu.Step(s, Sfu.Stop(c, stuck));
            && (SfuLaws.NoStraysOf(out, p) <==> SfuLaws.NoStraysOf(s, p) && !(c == p && SfuLaws.HasStuck(s, p, stuck)))
            && (SfuLaws.HasStuck(out, p, stuck) <==> c != p && SfuLaws.HasStuck(s, p, stuck))
  {
    SfuLaws.StuckAfterStop(s, c, stuck, p);
    if SfuLaws.NoStraysOf(s, p) {
      SfuLaws.StopStraysIff(s, c, stuck, p);
    } else {
      SfuLaws.StopKeepsStrays(s, c, stuck, p);
    }
  }

  lemma StepStraysIff(s: System, e: Event, p: ClientId)
    requires SfuLaws.Inv(s.media) && Enabled(s, e) && SfuLaws.NoStraysOf(s.media, p)
    ensures SfuLaws.NoStraysOf(Step(s, e).media, p) <==> !LeavesStrays(s, e, p)
  {
    match e {
      case Serve(call, members, stuck) =>
        if MayRevoke(call) { RevokingStraysIff(s.media, call.user, members, stuck, p); }
      case Connect(c, room, user) => SfuLaws.StepStraysIff(s.media, Sfu.Register(c, Sfu.Client(room, user)), p);
      case JoinStream(c, list, fails) => SfuLaws.StepStraysIff(s.media, Sfu.Join(c, list, fails), p);
      case OnTrack(c, stored, list, fails, stuck) =>
        SfuLaws.StepStraysIff(s.media, Publication(c, stored, list, fails, stuck), p);
      case LeaveRoom(c, _, stuck) => SfuLaws.StepStraysIff(s.media, Sfu.Close(c, stuck), p);
      case HangUp(c) => SfuLaws.StepStraysIff(s.media, Sfu.Unregister(c), p);
      case Disconnected(c, _, stuck) => SfuLaws.StepStraysIff(s.media, Sfu.Close(c, stuck), p);
    }
  }

  lemma {:induction false} NoStrayTracks(states: seq<System>, events: seq<Event>, n: nat, p: ClientId)
    requires IsRun(states, events) && n <= |events|
    requires forall i :: 0 <= i < n ==> IsStep(states, events, i) && !LeavesStrays(states[i], events[i], p)
    ensures SfuLaws.NoStraysOf(states[n].media, p)
  {
    if n == 0 {
    } else {
      NoStrayTracks(states, events, n - 1, p);
      RunKeepsInv(states, events, n - 1);
      StepStraysIff(states[n - 1], events[n - 1], p);
    }
  }

  // So nobody in the room hears them: no connection carries a track of any client p of theirs
  // that is still connected, unless p itself left one behind.
  lemma SilencedIsUnheard(states: seq<System>, events: seq<Event>, i: nat, n: nat, room: RoomId, user: UserId,
                          p: ClientId, x: ClientId, k: nat)
    requires IsRun(states, events) && i < n <= |events|
    requires Revokes(states[i], events[i], room, user)
    requires forall j :: i < j < n ==> !MaySpeak(states[j].world, room, user)
    requires forall j :: 0 <= j < n ==> IsStep(states, events, j) && !LeavesStrays(states[j], events[j], p)
    requires p in states[n].media.registered && p in states[n].media.clients
    requires states[n].media.clients[p] == Sfu.Client(room, user)
    requires x in states[n].media.store && k in states[n].media.store[x].pc.tracks
    ensures states[n].media.store[x].pc.tracks[k].owner != p
  {
    SilenceLasts(states, events, i, n, room, user);
    NoStrayTracks(states, events, n, p);
  }

  /// How a silence ends

  // Only a manager's unblocking or role change, or the creation of the room, lets a user speak
  // who could not before: neither joining again nor anything of the user's own doing does.
  lemma SpeakingIsGranted(s: System, e: Event, room: RoomId, user: UserId)
    requires Enabled(s, e) && !MaySpeak(s.world, room, user) && MaySpeak(Step(s, e).world, room, user)
    ensures e.Serve?
    ensures match e.call
            case Unblock(r, u, actor) => r == room && u == user && MayManage(s.world, room, actor)
            case UpdateRole(r, u, _, actor) => r == room && u == user && MayManage(s.world, room, actor)
            case CreateRoom(r, creator, _, _, _, _) => r == room && creator == user
            case _ => false
  {
  }

  predicate MayManage(w: Membership.World, room: RoomId, actor: UserId) {
    var ru := Membership.FindBy(w.rows, actor, room);
    ru.Some? && ru.value.CanManage()
  }
}
