/** What each goroutine leaves alone: a join, a publication, a stop, a departure or a revocation
 * touches the publishing of the clients it is for and of nobody else, and tracks stay in their room.
 */
module SfuInterleavedScope {
  import opened RoomUsers
  import opened SfuInterleaved
  import opened SfuInterleavedLaws
  import opened SfuInterleavedOnce

  /// Whom a goroutine is for

  // Client c is one of those that the action which began a goroutine names.
  predicate Names(s: State, begun: Action, c: ClientId) {
    match begun
    case BeginJoin(_, d) => c == d
    case BeginPublish(_, p) => IsOfClient(s, p, c)
    case BeginStop(_, d) => c == d
    case BeginLeave(_, d) => c == d
    case BeginRevoke(_, room, user) => c in s.rooms && s.rooms[c] == room && c in s.users && s.users[c] == user
    case _ => false
  }

  predicate IsOfClient(s: State, id: nat, c: ClientId) { id in s.sessions && s.sessions[id].client == c }

  predicate NamesSession(s: State, begun: Action, id: nat) {
    id in s.sessions && Names(s, begun, s.sessions[id].client)
  }

  // Every sender taken from a record carries a track of the named clients.
  predicate Carry(s: State, begun: Action, senders: map<ClientId, Sender>) {
    forall c :: c in senders ==> NamesSession(s, begun, senders[c].track.session)
  }

  predicate InRoom(s: State, room: RoomId, list: seq<ClientId>) {
    forall c :: c in list ==> c in s.rooms && s.rooms[c] == room
  }

  predicate NextAims(s: State, begun: Action, next: Then) {
    match next
    case End => true
    case Republish(p) => NamesSession(s, begun, p)
    case Remove => true
    case Revoke(room, user, todo) =>
      begun.BeginRevoke? && begun.room == room && begun.user == user && InRoom(s, room, todo)
  }

  predicate Stops(g: Goroutine) { g.StopGet? || g.StopTake? || g.StopNext? || g.StopDetach? }

  predicate Revokes(g: Goroutine) { g.RevokeAsk? || g.RevokeNext? }

  predicate JoinAims(s: State, begun: Action, g: Goroutine)
    requires Joins(g)
  {
    && begun.BeginJoin? && IsOfClient(s, g.session, begun.c)
    && (g.JoinCloseOld? || g.JoinClosePc? ==> NamesSession(s, begun, g.prior))
  }

  predicate StopAims(s: State, begun: Action, g: Goroutine)
    requires Stops(g)
  {
    && Names(s, begun, g.c) && NextAims(s, begun, g.next)
    && (g.StopTake? ==> IsOfClient(s, g.target, g.c))
    && (g.StopNext? || g.StopDetach? ==> Carry(s, begun, g.rest))
    && (g.StopDetach? ==> NamesSession(s, begun, g.sender.track.session))
  }

  predicate RevokeAims(s: State, begun: Action, g: Goroutine)
    requires Revokes(g)
  {
    && begun.BeginRevoke? && begun.room == g.room && begun.user == g.user
    && (g.RevokeNext? ==> InRoom(s, g.room, g.todo))
  }

  predicate OtherAims(s: State, begun: Action, g: Goroutine)
    requires !Joins(g) && !Publishes(g) && !Stops(g) && !Revokes(g)
  {
    && (g.RowRead? ==> NamesSession(s, begun, g.session))
    && (g.RemoveEntry? ==> Names(s, begun, g.c))
    && (g.CloseStop? || g.ClosePc? ==> NamesSession(s, begun, g.prior))
  }

  predicate Aims(s: State, begun: Action, g: Goroutine) {
    if Joins(g) then JoinAims(s, begun, g)
    else if Publishes(g) then NamesSession(s, begun, g.session)
    else if Stops(g) then StopAims(s, begun, g)
    else if Revokes(g) then RevokeAims(s, begun, g)
    else OtherAims(s, begun, g)
  }

  // Sessions keep their clients, and clients their rooms and users.
  predicate Keeps(s: State, s': State) {
    && (forall id :: id in s.sessions ==> id in s'.sessions && s'.sessions[id].client == s.sessions[id].client)
    && (forall c :: c in s.rooms ==> c in s'.rooms && s'.rooms[c] == s.rooms[c])
    && (forall c :: c in s.users ==> c in s'.users && s'.users[c] == s.users[c])
  }

  lemma NamedForGood(s: State, s': State, begun: Action, c: ClientId)
    requires Keeps(s, s') && Names(s, begun, c)
    ensures Names(s', begun, c)
  {
  }

  lemma NextAimsForGood(s: State, s': State, begun: Action, next: Then)
    requires Keeps(s, s') && NextAims(s, begun, next)
    ensures NextAims(s', begun, next)
  {
    if next.Republish? { NamedForGood(s, s', begun, s.sessions[next.session].client); }
  }

  lemma SessionNamedForGood(s: State, s': State, begun: Action, id: nat)
    requires Keeps(s, s') && NamesSession(s, begun, id)
    ensures NamesSession(s', begun, id)
  {
    NamedForGood(s, s', begun, s.sessions[id].client);
  }

  lemma CarryForGood(s: State, s': State, begun: Action, senders: map<ClientId, Sender>)
    requires Keeps(s, s') && Carry(s, begun, senders)
    ensures Carry(s', begun, senders)
  {
    forall c | c in senders ensures NamesSession(s', begun, senders[c].track.session) {
      SessionNamedForGood(s, s', begun, senders[c].track.session);
    }
  }

  lemma StopAimsForGood(s: State, s': State, begun: Action, g: Goroutine)
    requires Keeps(s, s') && Stops(g) && StopAims(s, begun, g)
    ensures StopAims(s', begun, g)
  {
    NamedForGood(s, s', begun, g.c);
    NextAimsForGood(s, s', begun, g.next);
    if g.StopNext? || g.StopDetach? { CarryForGood(s, s', begun, g.rest); }
    if g.StopDetach? { SessionNamedForGood(s, s', begun, g.sender.track.session); }
  }

  lemma OtherAimsForGood(s: State, s': State, begun: Action, g: Goroutine)
    requires Keeps(s, s') && !Joins(g) && !Publishes(g) && !Stops(g) && !Revokes(g) && OtherAims(s, begun, g)
    ensures OtherAims(s', begun, g)
  {
    if g.RowRead? { SessionNamedForGood(s, s', begun, g.session); }
    if g.RemoveEntry? { NamedForGood(s, s', begun, g.c); }
    if g.CloseStop? || g.ClosePc? { SessionNamedForGood(s, s', begun, g.prior); }
  }

  lemma AimsForGood(s: State, s': State, begun: Action, g: Goroutine)
    requires Keeps(s, s') && Aims(s, begun, g)
    ensures Aims(s', begun, g)
  {
    if Joins(g) {
      if g.JoinCloseOld? || g.JoinClosePc? { SessionNamedForGood(s, s', begun, g.prior); }
    } else if Publishes(g) {
      SessionNamedForGood(s, s', begun, g.session);
    } else if Stops(g) {
      StopAimsForGood(s, s', begun, g);
    } else if !Revokes(g) {
      OtherAimsForGood(s, s', begun, g);
    }
  }

  /// A move goes on for the same clients, and writes to no others

  // The update leaves the publishing of all others alone; a join is put on record with those it hears.
  predicate Minds(s: State, begun: Action, u: Update) {
    match u
    case Keep => true
    case Silence(id) => NamesSession(s, begun, id)
    case Close(id) => NamesSession(s, begun, id)
    case Attach(_, _, _) => true
    case Refuse(_, _) => true
    case Detach(_, sender) => NamesSession(s, begun, sender.track.session)
    case Record(id, c, _) => NamesSession(s, begun, id) || (begun.BeginJoin? && begun.c == c)
    case Start(id) => NamesSession(s, begun, id)
    case Forget(c) => Names(s, begun, c)
  }

  lemma JoinMinds(s: State, begun: Action, g: Goroutine, choice: Choice)
    requires Known(s, g) && Joins(g) && JoinAims(s, begun, g)
    ensures var m := JoinMove(s, g, choice); Aims(s, begun, m.next) && Minds(s, begun, m.update)
  {
  }

  lemma PublishMinds(s: State, begun: Action, g: Goroutine, choice: Choice)
    requires Known(s, g) && Publishes(g) && NamesSession(s, begun, g.session)
    ensures var m := PublishMove(s, g, choice); Aims(s, begun, m.next) && Minds(s, begun, m.update)
  {
  }

  lemma AfterStopAims(s: State, begun: Action, c: ClientId, next: Then)
    requires Names(s, begun, c) && NextAims(s, begun, next)
    ensures Aims(s, begun, AfterStop(c, next))
  {
  }

  lemma TakeMinds(s: State, begun: Action, g: Goroutine, choice: Choice)
    requires SessionsOk(s) && Known(s, g) && g.StopTake? && StopAims(s, begun, g)
    ensures var m := StopMove(s, g, choice); Aims(s, begun, m.next) && Minds(s, begun, m.update)
  {
    assert SessionOk(s, g.target);
    assert Carry(s, begun, s.sessions[g.target].senders);
  }

  lemma GetMinds(s: State, begun: Action, c: ClientId, next: Then, choice: Choice)
    requires SessionsOk(s) && Names(s, begun, c) && NextAims(s, begun, next) && KnownThen(s, next)
    ensures var m := StopMove(s, StopGet(c, next), choice); Aims(s, begun, m.next) && m.update.Keep?
  {
    AfterStopAims(s, begun, c, next);
  }

  lemma DetachMinds(s: State, begun: Action, g: Goroutine, choice: Choice)
    requires Known(s, g) && (g.StopNext? || g.StopDetach?) && StopAims(s, begun, g)
    ensures var m := StopMove(s, g, choice); Aims(s, begun, m.next) && Minds(s, begun, m.update)
  {
    AfterStopAims(s, begun, g.c, g.next);
  }

  lemma RevokeMinds(s: State, begun: Action, g: Goroutine, choice: Choice)
    requires Choosable(s, g, choice) && Revokes(g) && RevokeAims(s, begun, g)
    ensures var m := StopMove(s, g, choice); Aims(s, begun, m.next) && m.update.Keep?
  {
    if g.RevokeNext? && g.todo != [] { assert g.todo[0] in g.todo && forall c :: c in g.todo[1..] ==> c in g.todo; }
  }

  lemma RemoveMinds(s: State, begun: Action, c: ClientId, choice: Choice)
    requires StoreOk(s) && Names(s, begun, c)
    ensures var m := StopMove(s, RemoveEntry(c), choice); Aims(s, begun, m.next) && Minds(s, begun, m.update)
  {
  }

  lemma CloseMinds(s: State, begun: Action, g: Goroutine, choice: Choice)
    requires Known(s, g) && (g.CloseStop? || g.ClosePc?) && NamesSession(s, begun, g.prior)
    ensures var m := StopMove(s, g, choice); Aims(s, begun, m.next) && Minds(s, begun, m.update)
  {
  }

  lemma RowMinds(s: State, begun: Action, p: nat, choice: Choice)
    requires NamesSession(s, begun, p)
    ensures var m := StopMove(s, RowRead(p), choice); Aims(s, begun, m.next) && m.update.Keep?
  {
  }

  lemma MoveMinds(s: State, begun: Action, g: Goroutine, choice: Choice)
    requires SessionsOk(s) && Known(s, g) && Choosable(s, g, choice) && Aims(s, begun, g)
    ensures var m := MoveOf(s, g, choice); Aims(s, begun, m.next) && Minds(s, begun, m.update)
  {
    if Joins(g) {
      JoinMinds(s, begun, g, choice);
    } else if Publishes(g) {
      PublishMinds(s, begun, g, choice);
    } else if g.StopTake? {
      TakeMinds(s, begun, g, choice);
    } else if g.StopGet? {
      GetMinds(s, begun, g.c, g.next, choice);
    } else if Stops(g) {
      DetachMinds(s, begun, g, choice);
    } else if Revokes(g) {
      RevokeMinds(s, begun, g, choice);
    } else if g.RowRead? {
      RowMinds(s, begun, g.session, choice);
    } else if g.RemoveEntry? {
      RemoveMinds(s, begun, g.c, choice);
    } else if !g.Done? {
      CloseMinds(s, begun, g, choice);
    }
  }

  /// Runs

  ghost predicate AllUsersKnown(s: State) { s.users.Keys == s.rooms.Keys }

  lemma UpdateKeepsPeople(s: State, u: Update)
    requires u.Keep? || u.Forget? || u.id in s.sessions
    ensures Apply(s, u).rooms == s.rooms && Apply(s, u).users == s.users
    ensures Apply(s, u).registered == s.registered && Apply(s, u).speakers == s.speakers
  {
  }

  lemma StepKeeps(s: State, a: Action)
    requires Sound(s) && OnceOk(s) && AllUsersKnown(s) && Enabled(s, a)
    ensures Keeps(s, Step(s, a)) && AllUsersKnown(Step(s, a))
  {
    StepEvolves(s, a);
    assert forall id :: id in s.sessions ==> SessionEvolves(s, Step(s, a), id);
    if a.Advance? {
      var m := Advanced(s, a.g, a.choice);
      UpdateKeepsPeople(s, m.update);
    }
  }

  lemma {:induction false} UsersAreKnown(states: seq<State>, actions: seq<Action>, n: nat)
    requires IsRun(states, actions) && n <= |actions|
    ensures AllUsersKnown(states[n])
  {
    if n == 0 {
    } else {
      UsersAreKnown(states, actions, n - 1);
      RunKeepsOnce(states, actions, n - 1);
      assert IsStep(states, actions, n - 1);
      StepKeeps(states[n - 1], actions[n - 1]);
    }
  }

  predicate Begins(a: Action) {
    a.BeginJoin? || a.BeginPublish? || a.BeginStop? || a.BeginLeave? || a.BeginRevoke?
  }

  // The goroutine of an action is under way, or over, and for its clients.
  predicate KeepsAim(s: State, begun: Action) {
    Begins(begun) && begun.g in s.goroutines && Aims(s, begun, s.goroutines[begun.g])
  }

  lemma JoinBeginsAiming(s: State, g: nat, c: ClientId)
    requires SessionsOk(s)
    ensures KeepsAim(At(Inserted(s, c), g, JoinBegun(s, c)), BeginJoin(g, c))
  {
  }

  lemma BeginningAims(s: State, a: Action)
    requires SessionsOk(s) && Enabled(s, a) && Begins(a)
    ensures KeepsAim(Step(s, a), a)
  {
    match a {
      case BeginJoin(g, c) => JoinBeginsAiming(s, g, c);
      case _ =>
    }
  }

  // Somebody else's step leaves a goroutine where it is.
  lemma StaysPut(s: State, a: Action, g: nat)
    requires Sound(s) && OnceOk(s) && Enabled(s, a) && g in s.goroutines && !(a.Advance? && a.g == g)
    ensures g in Step(s, a).goroutines && Step(s, a).goroutines[g] == s.goroutines[g]
  {
    if a.Advance? {
      assert GoroutineOk(s, s.goroutines[a.g]);
      AdvanceMovesOne(s, a.g, a.choice);
    }
  }

  lemma StepAims(s: State, a: Action, begun: Action)
    requires Sound(s) && OnceOk(s) && AllUsersKnown(s) && Enabled(s, a) && KeepsAim(s, begun)
    ensures KeepsAim(Step(s, a), begun)
  {
    var g := begun.g;
    StepKeeps(s, a);
    if a.Advance? && a.g == g {
      assert GoroutineOk(s, s.goroutines[g]);
      AdvanceMovesOne(s, g, a.choice);
      MoveMinds(s, begun, s.goroutines[g], a.choice);
      AimsForGood(s, Step(s, a), begun, MoveOf(s, s.goroutines[g], a.choice).next);
    } else {
      StaysPut(s, a, g);
      AimsForGood(s, Step(s, a), begun, s.goroutines[g]);
    }
  }

  lemma AimsAtFirst(states: seq<State>, actions: seq<Action>, b: nat)
    requires IsRun(states, actions) && b < |actions| && Begins(actions[b])
    ensures KeepsAim(states[b + 1], actions[b])
  {
    RunIsSound(states, actions, b);
    assert IsStep(states, actions, b);
    BeginningAims(states[b], actions[b]);
  }

  lemma AimsOn(states: seq<State>, actions: seq<Action>, begun: Action, n: nat)
    requires IsRun(states, actions) && n < |actions| && KeepsAim(states[n], begun)
    ensures KeepsAim(states[n + 1], begun)
  {
    RunKeepsOnce(states, actions, n);
    UsersAreKnown(states, actions, n);
    assert IsStep(states, actions, n);
    StepAims(states[n], actions[n], begun);
  }

  lemma {:induction false} RunAims(states: seq<State>, actions: seq<Action>, b: nat, n: nat)
    requires IsRun(states, actions) && b < n <= |actions| && Begins(actions[b])
    ensures KeepsAim(states[n], actions[b])
  {
    if n == b + 1 {
      AimsAtFirst(states, actions, b);
    } else {
      RunAims(states, actions, b, n - 1);
      AimsOn(states, actions, actions[b], n - 1);
    }
  }

  /// What a goroutine leaves alone

  // Whether session id publishes and is closed, what it is forwarding, and whom it has on record.
  ghost predicate LeavesAlone(s: State, s': State, begun: Action, id: nat)
    requires id in s.sessions
  {
    && id in s'.sessions
    && var was, now := s.sessions[id], s'.sessions[id];
       && now.localTrack == was.localTrack && now.closed == was.closed
       && (forall t: Track :: t.session == id ==> (t in s'.open <==> t in s.open))
       && (now.senders == was.senders
           || (begun.BeginJoin? && now.senders - {begun.c} == was.senders - {begun.c}))
  }

  lemma UpdateLeavesAlone(s: State, begun: Action, u: Update, id: nat)
    requires SessionsOk(s) && UpdateOk(s, u) && Minds(s, begun, u) && id in s.sessions && !NamesSession(s, begun, id)
    ensures LeavesAlone(s, Apply(s, u), begun, id)
  {
    if u.Silence? { assert SessionOk(s, u.id); }
  }

  lemma UpdateTakesOwn(s: State, begun: Action, u: Update, id: nat, a: Sender)
    requires UpdateOk(s, u) && Minds(s, begun, u) && id in s.sessions && a in s.sessions[id].pc
    ensures a in Apply(s, u).sessions[id].pc || NamesSession(s, begun, a.track.session)
  {
  }

  // What a goroutine does at a step of its own, from its beginning on.
  lemma OwnStep(states: seq<State>, actions: seq<Action>, b: nat, n: nat) returns (m: Move)
    requires IsRun(states, actions) && b < n < |actions| && Begins(actions[b])
    requires actions[n].Advance? && actions[n].g == actions[b].g
    ensures SessionsOk(states[n]) && MoveOk(states[n], m) && Minds(states[n], actions[b], m.update)
    ensures states[n + 1] == Moved(states[n], actions[n].g, m)
  {
    var s, g := states[n], actions[n].g;
    RunKeepsOnce(states, actions, n);
    RunAims(states, actions, b, n);
    assert IsStep(states, actions, n);
    assert GoroutineOk(s, s.goroutines[g]);
    m := MoveOf(s, s.goroutines[g], actions[n].choice);
    MoveIsOk(s, s.goroutines[g], actions[n].choice);
    MoveMinds(s, actions[b], s.goroutines[g], actions[n].choice);
  }

  // Whatever interleaves with it, a join, a callback, a stop, a departure or a revocation never
  // starts, silences or closes a session of a client it is not for.
  lemma EachMindsItsOwn(states: seq<State>, actions: seq<Action>, b: nat, n: nat, id: nat)
    requires IsRun(states, actions) && b < n < |actions| && Begins(actions[b])
    requires actions[n].Advance? && actions[n].g == actions[b].g
    requires id in states[n].sessions && !NamesSession(states[n], actions[b], id)
    ensures LeavesAlone(states[n], states[n + 1], actions[b], id)
  {
    var m := OwnStep(states, actions, b, n);
    UpdateLeavesAlone(states[n], actions[b], m.update, id);
  }

  // Nor does it take a track of such a client off any connection.
  lemma OthersStayHeard(states: seq<State>, actions: seq<Action>, b: nat, n: nat, id: nat, a: Sender)
    requires IsRun(states, actions) && b < n < |actions| && Begins(actions[b])
    requires actions[n].Advance? && actions[n].g == actions[b].g
    requires id in states[n].sessions && a in states[n].sessions[id].pc
    requires !NamesSession(states[n], actions[b], a.track.session)
    ensures id in states[n + 1].sessions && a in states[n + 1].sessions[id].pc
  {
    var m := OwnStep(states, actions, b, n);
    UpdateTakesOwn(states[n], actions[b], m.update, id, a);
  }

  // So a revocation silences nobody but the user's clients in the room: sessions of other users, and
  // of the user's clients in other rooms, publish what they published, with the senders they had.
  lemma RevocationSparesOthers(states: seq<State>, actions: seq<Action>, b: nat, n: nat, id: nat)
    requires IsRun(states, actions) && b < n < |actions| && actions[b].BeginRevoke?
    requires actions[n].Advance? && actions[n].g == actions[b].g && id in states[n].sessions
    requires var s, c := states[n], states[n].sessions[id].client;
             !(c in s.rooms && s.rooms[c] == actions[b].room && c in s.users && s.users[c] == actions[b].user)
    ensures id in states[n + 1].sessions
    ensures var was, now := states[n].sessions[id], states[n + 1].sessions[id];
            now.localTrack == was.localTrack && now.senders == was.senders && now.closed == was.closed
    ensures forall t: Track :: t.session == id ==> (t in states[n + 1].open <==> t in states[n].open)
  {
    EachMindsItsOwn(states, actions, b, n, id);
  }

  /// Rooms

  // Clients c and d are different and of one room.
  predicate Neighbours(s: State, c: ClientId, d: ClientId) {
    c != d && c in s.rooms && d in s.rooms && s.rooms[c] == s.rooms[d]
  }

  predicate SessionsNeighbour(s: State, id: nat, other: nat) {
    id in s.sessions && other in s.sessions && Neighbours(s, s.sessions[id].client, s.sessions[other].client)
  }

  // Session id goes through clients of its own room.
  predicate Looks(s: State, id: nat, todo: seq<ClientId>) {
    id in s.sessions && s.sessions[id].client in s.rooms && InRoom(s, s.rooms[s.sessions[id].client], todo)
  }

  predicate StaysInRoom(s: State, g: Goroutine) {
    match g
    case JoinNext(x, todo) => Looks(s, x, todo)
    case JoinRead(x, _, peer, todo) => Looks(s, x, todo) && SessionsNeighbour(s, x, peer)
    case JoinReread(x, _, peer, todo) => Looks(s, x, todo) && SessionsNeighbour(s, x, peer)
    case JoinAttach(x, _, peer, _, todo) => Looks(s, x, todo) && SessionsNeighbour(s, x, peer)
    case JoinRecord(x, _, _, todo) => Looks(s, x, todo)
    case PublishNext(p, _, todo) => Looks(s, p, todo)
    case PublishAttach(p, _, _, peer, todo) => Looks(s, p, todo) && SessionsNeighbour(s, peer, p)
    case PublishRecord(p, _, _, _, todo) => Looks(s, p, todo)
    case _ => true
  }

  ghost predicate RoomsOk(s: State) {
    && (forall g :: g in s.goroutines ==> StaysInRoom(s, s.goroutines[g]))
    && (forall id, a :: id in s.sessions && a in s.sessions[id].pc ==> SessionsNeighbour(s, id, a.track.session))
  }

  lemma LooksForGood(s: State, s': State, id: nat, todo: seq<ClientId>)
    requires Keeps(s, s') && Looks(s, id, todo)
    ensures Looks(s', id, todo)
  {
  }

  lemma StaysInRoomForGood(s: State, s': State, g: Goroutine)
    requires Keeps(s, s') && StaysInRoom(s, g)
    ensures StaysInRoom(s', g)
  {
  }

  // What attaches does so to a connection of the same room, and not to the speaker's own.
  predicate AttachesToNeighbour(s: State, u: Update) {
    u.Attach? ==> SessionsNeighbour(s, u.id, u.track.session)
  }

  lemma TailLooks(s: State, id: nat, todo: seq<ClientId>)
    requires Looks(s, id, todo) && todo != []
    ensures Looks(s, id, todo[1..]) && todo[0] in s.rooms && s.rooms[todo[0]] == s.rooms[s.sessions[id].client]
  {
    assert todo[0] in todo && forall c :: c in todo[1..] ==> c in todo;
  }

  lemma JoinNextStaysInRoom(s: State, x: nat, todo: seq<ClientId>, choice: Choice)
    requires SessionsOk(s) && Looks(s, x, todo)
    ensures var m := JoinMove(s, JoinNext(x, todo), choice); StaysInRoom(s, m.next) && m.update.Keep?
  {
    if todo != [] { TailLooks(s, x, todo); }
  }

  lemma JoinStaysInRoom(s: State, g: Goroutine, choice: Choice)
    requires SessionsOk(s) && GoroutineOk(s, g) && Choosable(s, g, choice) && Joins(g) && StaysInRoom(s, g)
    ensures var m := JoinMove(s, g, choice); StaysInRoom(s, m.next) && AttachesToNeighbour(s, m.update)
  {
    match g {
      case JoinAsk(x) => assert SessionOk(s, x);
      case JoinNext(x, todo) => JoinNextStaysInRoom(s, x, todo, choice);
      case _ =>
    }
  }

  lemma PublishNextStaysInRoom(s: State, p: nat, t: Track, todo: seq<ClientId>, choice: Choice)
    requires SessionsOk(s) && Looks(s, p, todo)
    ensures var m := PublishMove(s, PublishNext(p, t, todo), choice); StaysInRoom(s, m.next) && m.update.Keep?
  {
    if todo != [] { TailLooks(s, p, todo); }
  }

  lemma PublishStaysInRoom(s: State, g: Goroutine, choice: Choice)
    requires SessionsOk(s) && GoroutineOk(s, g) && Choosable(s, g, choice) && Publishes(g) && StaysInRoom(s, g)
    ensures var m := PublishMove(s, g, choice); StaysInRoom(s, m.next) && AttachesToNeighbour(s, m.update)
  {
    match g {
      case PublishAsk(p, _) => assert SessionOk(s, p);
      case PublishNext(p, t, todo) => PublishNextStaysInRoom(s, p, t, todo, choice);
      case _ =>
    }
  }

  lemma StopStaysInRoom(s: State, g: Goroutine, choice: Choice)
    requires Known(s, g) && !Joins(g) && !Publishes(g)
    ensures var m := StopMove(s, g, choice); StaysInRoom(s, m.next) && !m.update.Attach?
  {
  }

  lemma MoveStaysInRoom(s: State, g: Goroutine, choice: Choice)
    requires SessionsOk(s) && GoroutineOk(s, g) && Choosable(s, g, choice) && StaysInRoom(s, g)
    ensures var m := MoveOf(s, g, choice); StaysInRoom(s, m.next) && AttachesToNeighbour(s, m.update)
  {
    if Joins(g) {
      JoinStaysInRoom(s, g, choice);
    } else if Publishes(g) {
      PublishStaysInRoom(s, g, choice);
    } else {
      StopStaysInRoom(s, g, choice);
    }
  }

  lemma MoveKeepsRooms(s: State, g: nat, m: Move)
    requires RoomsOk(s) && g in s.goroutines && MoveOk(s, m) && Keeps(s, Moved(s, g, m))
    requires StaysInRoom(s, m.next) && AttachesToNeighbour(s, m.update)
    ensures RoomsOk(Moved(s, g, m))
  {
    var s' := Moved(s, g, m);
    UpdateMovesNobody(s, m.update);
    forall h | h in s'.goroutines ensures StaysInRoom(s', s'.goroutines[h]) {
      StaysInRoomForGood(s, s', s'.goroutines[h]);
    }
    forall id, a | id in s'.sessions && a in s'.sessions[id].pc ensures SessionsNeighbour(s', id, a.track.session) {
      SendersAfter(s, m.update, id, a);
    }
  }

  lemma BeginningKeepsRooms(s: State, a: Action)
    requires Sound(s) && RoomsOk(s) && Enabled(s, a) && !a.Advance? && Keeps(s, Step(s, a))
    ensures RoomsOk(Step(s, a))
  {
    var s' := Step(s, a);
    InsertionIsNew(s);
    forall h | h in s'.goroutines ensures StaysInRoom(s', s'.goroutines[h]) {
      if h in s.goroutines { StaysInRoomForGood(s, s', s.goroutines[h]); }
    }
    forall id, b | id in s'.sessions && b in s'.sessions[id].pc ensures SessionsNeighbour(s', id, b.track.session) {
      assert id in s.sessions && b in s.sessions[id].pc;
    }
  }

  lemma StepKeepsRooms(s: State, a: Action)
    requires Sound(s) && OnceOk(s) && AllUsersKnown(s) && RoomsOk(s) && Enabled(s, a)
    ensures RoomsOk(Step(s, a))
  {
    StepKeeps(s, a);
    match a {
      case Advance(g, choice) =>
        assert GoroutineOk(s, s.goroutines[g]);
        MoveIsOk(s, s.goroutines[g], choice);
        MoveStaysInRoom(s, s.goroutines[g], choice);
        MoveKeepsRooms(s, g, MoveOf(s, s.goroutines[g], choice));
      case _ => BeginningKeepsRooms(s, a);
    }
  }

  // In every interleaving a connection carries tracks of other clients of its room only.
  lemma {:induction false} TracksStayInRoom(states: seq<State>, actions: seq<Action>, n: nat)
    requires IsRun(states, actions) && n <= |actions|
    ensures RoomsOk(states[n])
  {
    if n == 0 {
    } else {
      TracksStayInRoom(states, actions, n - 1);
      RunKeepsOnce(states, actions, n - 1);
      UsersAreKnown(states, actions, n - 1);
      assert IsStep(states, actions, n - 1);
      StepKeepsRooms(states[n - 1], actions[n - 1]);
    }
  }
}
