/** No speaker is missed: however joins, publications, stops and departures interleave, a listener
 * whose join has finished carries the current track of every speaker whose publication has
 * finished, because each side makes itself visible before it looks for the other.
 */
module SfuInterleavedLaws {
  import opened Wrappers
  import opened RoomUsers
  import opened SfuInterleaved

  /// Runs

  ghost predicate IsStep(states: seq<State>, actions: seq<Action>, i: nat)
    requires i < |actions| && |states| == |actions| + 1
  {
    Enabled(states[i], actions[i]) && states[i + 1] == Step(states[i], actions[i])
  }

  ghost predicate IsRun(states: seq<State>, actions: seq<Action>) {
    && |states| == |actions| + 1 && states[0] == START
    && (forall i :: 0 <= i < |actions| ==> IsStep(states, actions, i))
  }

  /// What holds of sessions and goroutines throughout

  ghost predicate Issued(s: State, t: Track) { t.serial < s.nextTrack && t.session in s.sessions }

  // The session its client is found by.
  predicate Live(s: State, id: nat)
    requires id in s.sessions
  {
    var c := s.sessions[id].client;
    c in s.store && s.store[c] == id
  }

  ghost predicate SessionOk(s: State, id: nat)
    requires id in s.sessions
  {
    var session := s.sessions[id];
    && id < s.nextSession && session.client in s.rooms
    && (session.closed ==> !Live(s, id))
    && (session.localTrack.Some? ==> session.localTrack.value.session == id && Issued(s, session.localTrack.value))
    && SendersOk(s, id, session.senders)
  }

  ghost predicate SendersOk(s: State, id: nat, senders: map<ClientId, Sender>) {
    forall c :: c in senders ==> senders[c].track.session == id && Issued(s, senders[c].track)
  }

  // A track that is not current, and never will be again.
  ghost predicate Retired(s: State, t: Track) { Issued(s, t) && s.sessions[t.session].localTrack != Some(t) }

  ghost predicate AllRetired(s: State, rest: map<ClientId, Sender>) {
    forall c :: c in rest ==> Retired(s, rest[c].track)
  }

  ghost predicate GoroutineOk(s: State, g: Goroutine) {
    && Known(s, g)
    && match g
       case JoinCloseOld(_, prior) => !Live(s, prior)
       case JoinClosePc(_, prior) => !Live(s, prior)
       case JoinAttach(_, _, peer, t, _) => t.session == peer && Issued(s, t)
       case JoinRecord(_, peer, sender, _) => sender.track.session == peer && Issued(s, sender.track)
       case StopNext(_, rest, _) => AllRetired(s, rest)
       case StopDetach(_, _, sender, rest, _) => Retired(s, sender.track) && AllRetired(s, rest)
       case PublishAsk(p, t) => t.session == p && Issued(s, t)
       case PublishNext(p, t, _) => t.session == p && Issued(s, t)
       case PublishAttach(p, t, _, _, _) => t.session == p && Issued(s, t)
       case PublishRecord(p, t, _, sender, _) => t.session == p && Issued(s, t) && sender.track == t
       case CloseStop(prior) => !Live(s, prior)
       case ClosePc(prior) => !Live(s, prior)
       case _ => true
  }

  ghost predicate StoreOk(s: State) {
    forall c :: c in s.store ==> s.store[c] in s.sessions && s.sessions[s.store[c]].client == c
  }

  ghost predicate SessionsOk(s: State) {
    && s.registered <= s.rooms.Keys
    && (forall id :: id in s.sessions ==> SessionOk(s, id))
    && StoreOk(s)
  }

  ghost predicate Sound(s: State) {
    && SessionsOk(s)
    && (forall g :: g in s.goroutines ==> GoroutineOk(s, s.goroutines[g]))
  }

  // Sessions are never forgotten nor taken back into the store, and a current track only ever
  // gives way to none or to a new one.
  ghost predicate SessionEvolves(s: State, s': State, id: nat)
    requires id in s.sessions
  {
    && id in s'.sessions && s'.sessions[id].client == s.sessions[id].client
    && (Live(s', id) ==> Live(s, id))
    && var t := s'.sessions[id].localTrack;
       t == s.sessions[id].localTrack || t.None? || t.value.serial >= s.nextTrack
  }

  ghost predicate Evolves(s: State, s': State) {
    && s.nextTrack <= s'.nextTrack && s.sessions.Keys <= s'.sessions.Keys
    && (forall id :: id in s.sessions ==> SessionEvolves(s, s', id))
  }

  lemma RetiredForGood(s: State, s': State, t: Track)
    requires Evolves(s, s') && Retired(s, t)
    ensures Retired(s', t)
  {
    assert SessionEvolves(s, s', t.session);
  }

  lemma AllRetiredForGood(s: State, s': State, rest: map<ClientId, Sender>)
    requires Evolves(s, s') && AllRetired(s, rest)
    ensures AllRetired(s', rest)
  {
    forall c | c in rest ensures Retired(s', rest[c].track) { RetiredForGood(s, s', rest[c].track); }
  }

  lemma GoneForGood(s: State, s': State, id: nat)
    requires Evolves(s, s') && id in s.sessions && !Live(s, id)
    ensures id in s'.sessions && !Live(s', id)
  {
    assert SessionEvolves(s, s', id);
  }

  lemma KnownForGood(s: State, s': State, g: Goroutine)
    requires Known(s, g) && s.sessions.Keys <= s'.sessions.Keys
    ensures Known(s', g)
  {
  }

  lemma GoroutineStaysOk(s: State, s': State, g: Goroutine)
    requires Evolves(s, s') && GoroutineOk(s, g)
    ensures GoroutineOk(s', g)
  {
    KnownForGood(s, s', g);
    match g {
      case JoinCloseOld(_, prior) => GoneForGood(s, s', prior);
      case JoinClosePc(_, prior) => GoneForGood(s, s', prior);
      case StopNext(_, rest, _) => AllRetiredForGood(s, s', rest);
      case StopDetach(_, _, sender, rest, _) =>
        RetiredForGood(s, s', sender.track);
        AllRetiredForGood(s, s', rest);
      case CloseStop(prior) => GoneForGood(s, s', prior);
      case ClosePc(prior) => GoneForGood(s, s', prior);
      case _ =>
    }
  }

  /// Updates

  // What the goroutine that makes an update guarantees about it.
  ghost predicate UpdateOk(s: State, u: Update) {
    match u
    case Keep => true
    case Forget(_) => true
    case Close(id) => id in s.sessions && !Live(s, id)
    case Detach(id, sender) => id in s.sessions && Retired(s, sender.track)
    case Record(id, _, sender) => id in s.sessions && sender.track.session == id && Issued(s, sender.track)
    case _ => u.id in s.sessions
  }

  lemma UpdateEvolves(s: State, u: Update)
    requires UpdateOk(s, u)
    ensures Evolves(s, Apply(s, u))
  {
    var s' := Apply(s, u);
    forall id | id in s.sessions ensures SessionEvolves(s, s', id) {}
  }

  lemma UpdateKeepsSession(s: State, u: Update, id: nat)
    requires SessionsOk(s) && UpdateOk(s, u) && id in s.sessions && Evolves(s, Apply(s, u))
    ensures SessionOk(Apply(s, u), id)
  {
    var s' := Apply(s, u);
    assert SessionOk(s, id) && SessionEvolves(s, s', id);
    assert SendersOk(s', id, s.sessions[id].senders);
    assert SendersOk(s', id, map[]);
    if u.Record? && u.id == id {
      assert SendersOk(s', id, s.sessions[id].senders[u.c := u.sender]);
    }
  }

  lemma UpdateKeepsSessions(s: State, u: Update)
    requires SessionsOk(s) && UpdateOk(s, u)
    ensures SessionsOk(Apply(s, u))
  {
    var s' := Apply(s, u);
    UpdateEvolves(s, u);
    assert s'.sessions.Keys == s.sessions.Keys;
    forall id | id in s'.sessions ensures SessionOk(s', id) { UpdateKeepsSession(s, u, id); }
    forall c | c in s'.store ensures s'.store[c] in s'.sessions && s'.sessions[s'.store[c]].client == c {
      assert SessionEvolves(s, s', s.store[c]);
    }
  }

  lemma InsertionEvolves(s: State, c: ClientId)
    requires SessionsOk(s)
    ensures s.nextSession !in s.sessions && Evolves(s, Inserted(s, c))
  {
    var s' := Inserted(s, c);
    assert forall id :: id in s.sessions ==> SessionOk(s, id) && id < s.nextSession;
    forall id | id in s.sessions ensures SessionEvolves(s, s', id) { assert SessionOk(s, id); }
  }

  lemma InsertionKeepsSessions(s: State, c: ClientId)
    requires SessionsOk(s) && c in s.rooms
    ensures SessionsOk(Inserted(s, c))
  {
    var s' := Inserted(s, c);
    InsertionEvolves(s, c);
    forall id | id in s'.sessions ensures SessionOk(s', id) {
      if id in s.sessions {
        assert SessionOk(s, id) && SessionEvolves(s, s', id);
        assert SendersOk(s', id, s.sessions[id].senders);
      }
    }
  }

  /// Moves

  ghost predicate MoveOk(s: State, m: Move) {
    UpdateOk(s, m.update) && GoroutineOk(Apply(s, m.update), m.next)
  }

  // Where a goroutine goes is fine already before its update, unless the update is what makes it so.
  lemma FineBefore(s: State, m: Move)
    requires UpdateOk(s, m.update) && GoroutineOk(s, m.next)
    ensures MoveOk(s, m)
  {
    UpdateEvolves(s, m.update);
    GoroutineStaysOk(s, Apply(s, m.update), m.next);
  }

  lemma JoinReadIsOk(s: State, g: Goroutine, choice: Choice)
    requires SessionsOk(s) && GoroutineOk(s, g) && (g.JoinRead? || g.JoinReread? || g.JoinNext? || g.JoinAsk?)
    ensures var m := JoinMove(s, g, choice); UpdateOk(s, m.update) && GoroutineOk(s, m.next)
  {
    if g.JoinReread? { assert SessionOk(s, g.peer); }
  }

  lemma JoinWriteIsOk(s: State, g: Goroutine, choice: Choice)
    requires SessionsOk(s) && GoroutineOk(s, g) && (g.JoinCloseOld? || g.JoinClosePc? || g.JoinAttach? || g.JoinRecord?)
    ensures var m := JoinMove(s, g, choice); UpdateOk(s, m.update) && GoroutineOk(s, m.next)
  {
  }

  lemma JoinMoveIsOk(s: State, g: Goroutine, choice: Choice)
    requires SessionsOk(s) && GoroutineOk(s, g) && Joins(g)
    ensures var m := JoinMove(s, g, choice); UpdateOk(s, m.update) && GoroutineOk(s, m.next)
  {
    if g.JoinRead? || g.JoinReread? || g.JoinNext? || g.JoinAsk? {
      JoinReadIsOk(s, g, choice);
    } else {
      JoinWriteIsOk(s, g, choice);
    }
  }

  lemma PublishMoveIsOk(s: State, g: Goroutine, choice: Choice)
    requires SessionsOk(s) && GoroutineOk(s, g) && Publishes(g) && !g.PublishStart?
    ensures var m := PublishMove(s, g, choice); UpdateOk(s, m.update) && GoroutineOk(s, m.next)
  {
  }

  lemma PublishStartIsOk(s: State, p: nat)
    requires p in s.sessions
    ensures MoveOk(s, Move(Start(p), PublishAsk(p, Track(p, s.nextTrack))))
  {
  }

  lemma StopMoveIsOk(s: State, g: Goroutine, choice: Choice)
    requires SessionsOk(s) && GoroutineOk(s, g) && !Joins(g) && !Publishes(g) && !g.StopTake? && !g.RemoveEntry?
    ensures var m := StopMove(s, g, choice); UpdateOk(s, m.update) && GoroutineOk(s, m.next)
  {
  }

  // Taking the senders and forgetting the track is one step, so all of them are retired by it.
  lemma StopTakeIsOk(s: State, c: ClientId, target: nat, next: Then)
    requires SessionsOk(s) && target in s.sessions && KnownThen(s, next)
    ensures MoveOk(s, Move(Silence(target), StopNext(c, s.sessions[target].senders, next)))
  {
    assert SessionOk(s, target);
    var s' := Apply(s, Silence(target));
    assert s'.sessions.Keys == s.sessions.Keys;
    assert AllRetired(s', s.sessions[target].senders);
  }

  lemma RemoveEntryIsOk(s: State, c: ClientId)
    requires SessionsOk(s)
    ensures c in s.store ==> MoveOk(s, Move(Forget(c), CloseStop(s.store[c])))
  {
  }

  lemma MoveIsOk(s: State, g: Goroutine, choice: Choice)
    requires SessionsOk(s) && GoroutineOk(s, g)
    ensures MoveOk(s, MoveOf(s, g, choice))
  {
    if Joins(g) {
      JoinMoveIsOk(s, g, choice);
      FineBefore(s, JoinMove(s, g, choice));
    } else if g.PublishStart? {
      PublishStartIsOk(s, g.session);
    } else if Publishes(g) {
      PublishMoveIsOk(s, g, choice);
      FineBefore(s, PublishMove(s, g, choice));
    } else if g.StopTake? {
      StopTakeIsOk(s, g.c, g.target, g.next);
    } else if g.RemoveEntry? {
      RemoveEntryIsOk(s, g.c);
    } else {
      StopMoveIsOk(s, g, choice);
      FineBefore(s, StopMove(s, g, choice));
    }
  }

  // Everyone but g stays where they were, and g stands well.
  lemma OthersStayOk(s: State, s': State, g: nat, where: Goroutine)
    requires Sound(s) && SessionsOk(s') && Evolves(s, s') && s'.goroutines == s.goroutines && GoroutineOk(s', where)
    ensures Sound(At(s', g, where))
  {
    var t := At(s', g, where);
    forall id | id in t.sessions ensures SessionOk(t, id) {
      assert SessionOk(s', id);
      assert SendersOk(t, id, t.sessions[id].senders);
    }
    assert Evolves(s', t) by { forall id | id in s'.sessions ensures SessionEvolves(s', t, id) {} }
    GoroutineStaysOk(s', t, where);
    forall h | h in t.goroutines ensures GoroutineOk(t, t.goroutines[h]) {
      if h != g {
        GoroutineStaysOk(s, s', s.goroutines[h]);
        GoroutineStaysOk(s', t, s.goroutines[h]);
      }
    }
  }

  lemma MoveIsSound(s: State, g: nat, m: Move)
    requires Sound(s) && MoveOk(s, m)
    ensures Sound(Moved(s, g, m))
  {
    UpdateEvolves(s, m.update);
    UpdateKeepsSessions(s, m.update);
    OthersStayOk(s, Apply(s, m.update), g, m.next);
  }

  lemma JoinBeginsSound(s: State, g: nat, c: ClientId)
    requires Sound(s) && c in s.rooms
    ensures Sound(At(Inserted(s, c), g, JoinBegun(s, c)))
  {
    InsertionEvolves(s, c);
    InsertionKeepsSessions(s, c);
    OthersStayOk(s, Inserted(s, c), g, JoinBegun(s, c));
  }

  // Registration and role changes touch neither sessions nor goroutines.
  lemma RegistrationIsSound(s: State, s': State)
    requires Sound(s) && s.rooms.Keys <= s'.rooms.Keys && s'.registered <= s'.rooms.Keys
    requires s' == s.(rooms := s'.rooms, users := s'.users, registered := s'.registered, speakers := s'.speakers)
    ensures Sound(s')
  {
    forall id | id in s.sessions ensures SessionOk(s', id) && SessionEvolves(s, s', id) {
      assert SessionOk(s, id);
      assert SendersOk(s', id, s.sessions[id].senders);
    }
    forall g | g in s.goroutines ensures GoroutineOk(s', s.goroutines[g]) { GoroutineStaysOk(s, s', s.goroutines[g]); }
  }

  lemma StepIsSound(s: State, a: Action)
    requires Sound(s) && Enabled(s, a)
    ensures Sound(Step(s, a))
  {
    match a {
      case Register(_, _, _) => RegistrationIsSound(s, Step(s, a));
      case Unregister(_) => RegistrationIsSound(s, Step(s, a));
      case BeginJoin(g, c) => JoinBeginsSound(s, g, c);
      case BeginPublish(g, p) => MoveIsSound(s, g, Move(Keep, RowRead(p)));
      case BeginStop(g, c) => MoveIsSound(s, g, Move(Keep, StopGet(c, End)));
      case BeginLeave(g, c) => MoveIsSound(s, g, Move(Keep, StopGet(c, Remove)));
      case Grant(_, _) => RegistrationIsSound(s, Step(s, a));
      case Withdraw(_, _) => RegistrationIsSound(s, Step(s, a));
      case BeginRevoke(g, room, user) =>
        var s' := s.(speakers := s.speakers - {(room, user)});
        RegistrationIsSound(s, s');
        MoveIsSound(s', g, Move(Keep, RevokeAsk(room, user)));
      case Advance(g, choice) =>
        assert GoroutineOk(s, s.goroutines[g]);
        MoveIsOk(s, s.goroutines[g], choice);
        MoveIsSound(s, g, MoveOf(s, s.goroutines[g], choice));
    }
  }

  /// Coverage

  // p speaks and x listens in one room, both still connected.
  ghost predicate Meet(s: State, p: ClientId, x: ClientId) {
    && p != x && p in s.registered && x in s.registered && s.registered <= s.rooms.Keys
    && s.rooms[p] == s.rooms[x]
    && p in s.store && x in s.store && s.store[p] in s.sessions && s.store[x] in s.sessions
    && s.sessions[s.store[p]].localTrack.Some?
  }

  function CurrentTrack(s: State, p: ClientId): Track
    requires p in s.store && s.store[p] in s.sessions && s.sessions[s.store[p]].localTrack.Some?
  {
    s.sessions[s.store[p]].localTrack.value
  }

  ghost predicate Carries(s: State, id: nat, t: Track)
    requires id in s.sessions
  {
    exists sender :: sender in s.sessions[id].pc && sender.track == t
  }

  // Goroutine g is still going to put track t, of p's session ps, on x's session xs.
  predicate WillDeliver(g: Goroutine, p: ClientId, ps: nat, x: ClientId, xs: nat, t: Track) {
    match g
    case JoinCloseOld(j, _) => j == xs
    case JoinClosePc(j, _) => j == xs
    case JoinAsk(j) => j == xs
    case JoinNext(j, todo) => j == xs && p in todo
    case JoinRead(j, who, peer, todo) => j == xs && (p in todo || (who == p && peer == ps))
    case JoinReread(j, who, peer, todo) => j == xs && (p in todo || (who == p && peer == ps))
    case JoinAttach(j, _, _, track, todo) => j == xs && (p in todo || track == t)
    case JoinRecord(j, _, _, todo) => j == xs && p in todo
    case PublishAsk(_, track) => track == t
    case PublishNext(_, track, todo) => track == t && x in todo
    case PublishAttach(_, track, _, peer, todo) => track == t && (x in todo || peer == xs)
    case PublishRecord(_, track, _, _, todo) => track == t && x in todo
    case _ => false
  }

  ghost predicate SomeoneWill(s: State, p: ClientId, x: ClientId)
    requires Meet(s, p, x)
  {
    exists g :: g in s.goroutines && WillDeliver(s.goroutines[g], p, s.store[p], x, s.store[x], CurrentTrack(s, p))
  }

  ghost predicate Settled(s: State, p: ClientId, x: ClientId)
    requires Meet(s, p, x)
  {
    Carries(s, s.store[x], CurrentTrack(s, p)) || (CurrentTrack(s, p), s.store[x]) in s.refused
  }

  // The same meeting before and after a step: same sessions, same track.
  ghost predicate SameMeeting(s: State, s': State, p: ClientId, x: ClientId) {
    && Meet(s, p, x) && Meet(s', p, x)
    && s'.store[p] == s.store[p] && s'.store[x] == s.store[x] && CurrentTrack(s', p) == CurrentTrack(s, p)
  }

  // A stop only ever removes senders of tracks that are no longer current.
  lemma UpdateKeepsSettled(s: State, u: Update, p: ClientId, x: ClientId)
    requires UpdateOk(s, u) && SessionsOk(s) && SameMeeting(s, Apply(s, u), p, x) && Settled(s, p, x)
    ensures Settled(Apply(s, u), p, x)
  {
    var s' := Apply(s, u);
    var xs, t := s.store[x], CurrentTrack(s, p);
    assert SessionOk(s, s.store[p]);
    if Carries(s, xs, t) {
      var sender :| sender in s.sessions[xs].pc && sender.track == t;
      assert sender in s'.sessions[xs].pc;
    }
  }

  // Short of attaching, a goroutine that was going to deliver still is.
  lemma JoinNextStillDelivers(s: State, g: Goroutine, choice: Choice, p: ClientId, x: ClientId)
    requires SessionsOk(s) && Known(s, g) && Choosable(s, g, choice) && (g.JoinNext? || g.JoinAsk?) && Meet(s, p, x)
    requires WillDeliver(g, p, s.store[p], x, s.store[x], CurrentTrack(s, p))
    ensures WillDeliver(JoinMove(s, g, choice).next, p, s.store[p], x, s.store[x], CurrentTrack(s, p))
  {
    match g {
      case JoinNext(_, todo) => assert todo == [todo[0]] + todo[1..];
      case JoinAsk(_) => assert p in choice.list;
    }
  }

  lemma JoinStillDelivers(s: State, g: Goroutine, choice: Choice, p: ClientId, x: ClientId)
    requires SessionsOk(s) && GoroutineOk(s, g) && Choosable(s, g, choice)
    requires Joins(g) && !g.JoinAttach? && Meet(s, p, x)
    requires WillDeliver(g, p, s.store[p], x, s.store[x], CurrentTrack(s, p))
    ensures WillDeliver(JoinMove(s, g, choice).next, p, s.store[p], x, s.store[x], CurrentTrack(s, p))
  {
    if g.JoinNext? || g.JoinAsk? { JoinNextStillDelivers(s, g, choice, p, x); }
  }

  lemma PublishStillDelivers(s: State, g: Goroutine, choice: Choice, p: ClientId, x: ClientId)
    requires SessionsOk(s) && GoroutineOk(s, g) && Choosable(s, g, choice)
    requires Publishes(g) && !g.PublishAttach? && Meet(s, p, x)
    requires WillDeliver(g, p, s.store[p], x, s.store[x], CurrentTrack(s, p))
    ensures WillDeliver(PublishMove(s, g, choice).next, p, s.store[p], x, s.store[x], CurrentTrack(s, p))
  {
    assert SessionOk(s, s.store[p]);
    match g {
      case PublishNext(_, _, todo) => assert todo == [todo[0]] + todo[1..];
      case PublishAsk(_, _) => assert x in choice.list;
      case _ =>
    }
  }

  // After the move the delivery is done, refused, or still to come.
  ghost predicate Progress(s: State, m: Move, p: ClientId, x: ClientId) {
    && UpdateOk(s, m.update) && SameMeeting(s, Apply(s, m.update), p, x)
    && (Settled(Apply(s, m.update), p, x) || WillDeliver(m.next, p, s.store[p], x, s.store[x], CurrentTrack(s, p)))
  }

  lemma AttachingSettles(s: State, side: Side, next: Goroutine, p: ClientId, x: ClientId)
    requires SessionsOk(s) && Meet(s, p, x)
    ensures Progress(s, Move(Attach(s.store[x], CurrentTrack(s, p), side), next), p, x)
  {
    var xs, t := s.store[x], CurrentTrack(s, p);
    var s' := Apply(s, Attach(xs, t, side));
    assert NextSender(s, xs, t, side) in s'.sessions[xs].pc;
    assert Carries(s', xs, t);
  }

  lemma RefusingSettles(s: State, next: Goroutine, p: ClientId, x: ClientId)
    requires SessionsOk(s) && Meet(s, p, x)
    ensures Progress(s, Move(Refuse(s.store[x], CurrentTrack(s, p)), next), p, x)
  {
  }

  predicate IsAttach(u: Update, id: nat, t: Track) { u.Attach? && u.id == id && u.track == t }

  lemma JoinAttachDelivers(s: State, g: Goroutine, choice: Choice, p: ClientId, x: ClientId)
    requires SessionsOk(s) && GoroutineOk(s, g) && g.JoinAttach? && Meet(s, p, x)
    requires WillDeliver(g, p, s.store[p], x, s.store[x], CurrentTrack(s, p))
    ensures var m := JoinMove(s, g, choice);
            || WillDeliver(m.next, p, s.store[p], x, s.store[x], CurrentTrack(s, p))
            || IsAttach(m.update, s.store[x], CurrentTrack(s, p)) || m.update == Refuse(s.store[x], CurrentTrack(s, p))
  {
    assert SessionOk(s, s.store[x]);
  }

  lemma PublishAttachDelivers(s: State, g: Goroutine, choice: Choice, p: ClientId, x: ClientId)
    requires SessionsOk(s) && GoroutineOk(s, g) && g.PublishAttach? && Meet(s, p, x)
    requires WillDeliver(g, p, s.store[p], x, s.store[x], CurrentTrack(s, p))
    ensures var m := PublishMove(s, g, choice);
            || WillDeliver(m.next, p, s.store[p], x, s.store[x], CurrentTrack(s, p))
            || IsAttach(m.update, s.store[x], CurrentTrack(s, p)) || m.update == Refuse(s.store[x], CurrentTrack(s, p))
  {
    assert SessionOk(s, s.store[x]);
  }

  // What the four lemmas above say of the goroutine's own move.
  lemma Delivers(s: State, g: Goroutine, choice: Choice, p: ClientId, x: ClientId)
    requires SessionsOk(s) && GoroutineOk(s, g) && Choosable(s, g, choice) && Meet(s, p, x)
    requires WillDeliver(g, p, s.store[p], x, s.store[x], CurrentTrack(s, p))
    ensures var m := MoveOf(s, g, choice);
            || WillDeliver(m.next, p, s.store[p], x, s.store[x], CurrentTrack(s, p))
            || IsAttach(m.update, s.store[x], CurrentTrack(s, p)) || m.update == Refuse(s.store[x], CurrentTrack(s, p))
  {
    if g.JoinAttach? {
      JoinAttachDelivers(s, g, choice, p, x);
    } else if Joins(g) {
      JoinStillDelivers(s, g, choice, p, x);
    } else if g.PublishAttach? {
      PublishAttachDelivers(s, g, choice, p, x);
    } else {
      PublishStillDelivers(s, g, choice, p, x);
    }
  }

  // A goroutine that was going to deliver has delivered, was refused, or is still going to.
  lemma DeliveryMovesOn(s: State, g: Goroutine, choice: Choice, p: ClientId, x: ClientId)
    requires SessionsOk(s) && GoroutineOk(s, g) && Choosable(s, g, choice)
    requires UpdateOk(s, MoveOf(s, g, choice).update)
    requires SameMeeting(s, Apply(s, MoveOf(s, g, choice).update), p, x)
    requires WillDeliver(g, p, s.store[p], x, s.store[x], CurrentTrack(s, p))
    ensures Progress(s, MoveOf(s, g, choice), p, x)
  {
    var m := MoveOf(s, g, choice);
    Delivers(s, g, choice, p, x);
    if m.update.Attach? && !WillDeliver(m.next, p, s.store[p], x, s.store[x], CurrentTrack(s, p)) {
      AttachingSettles(s, m.update.side, m.next, p, x);
    } else if m.update.Refuse? {
      RefusingSettles(s, m.next, p, x);
    }
  }

  // Only starting to publish makes a track current.
  lemma OnlyStartingMakesMeetings(s: State, u: Update, p: ClientId, x: ClientId)
    requires SessionsOk(s) && UpdateOk(s, u) && Meet(Apply(s, u), p, x) && !SameMeeting(s, Apply(s, u), p, x)
    ensures u.Start? && CurrentTrack(Apply(s, u), p) == Track(u.id, s.nextTrack)
  {
  }

  lemma StartersDeliver(s: State, g: Goroutine, choice: Choice)
    requires Known(s, g)
    ensures var m := MoveOf(s, g, choice);
            m.update.Start? ==> m.next == PublishAsk(m.update.id, Track(m.update.id, s.nextTrack))
  {
  }

  ghost predicate CoveredAt(s: State, p: ClientId, x: ClientId) {
    Meet(s, p, x) ==> Settled(s, p, x) || SomeoneWill(s, p, x)
  }

  lemma AdvanceKeepsCovered(s: State, g: nat, choice: Choice, p: ClientId, x: ClientId)
    requires Sound(s) && CoveredAt(s, p, x) && g in s.goroutines && Choosable(s, s.goroutines[g], choice)
    requires MoveOk(s, MoveOf(s, s.goroutines[g], choice))
    ensures CoveredAt(Moved(s, g, MoveOf(s, s.goroutines[g], choice)), p, x)
  {
    var m := MoveOf(s, s.goroutines[g], choice);
    assert GoroutineOk(s, s.goroutines[g]);
    var mid, s' := Apply(s, m.update), Moved(s, g, m);
    if Meet(s', p, x) {
      assert Meet(mid, p, x);
      if !SameMeeting(s, mid, p, x) {
        OnlyStartingMakesMeetings(s, m.update, p, x);
        StartersDeliver(s, s.goroutines[g], choice);
        assert WillDeliver(s'.goroutines[g], p, s'.store[p], x, s'.store[x], CurrentTrack(s', p));
      } else {
        WaitingOrSettled(s, g, choice, p, x);
      }
    }
  }

  lemma ProgressKeepsCovered(s: State, g: nat, m: Move, p: ClientId, x: ClientId)
    requires SessionsOk(s) && CoveredAt(s, p, x) && g in s.goroutines && MoveOk(s, m)
    requires SameMeeting(s, Apply(s, m.update), p, x)
    requires WillDeliver(s.goroutines[g], p, s.store[p], x, s.store[x], CurrentTrack(s, p)) ==> Progress(s, m, p, x)
    ensures CoveredAt(Moved(s, g, m), p, x)
  {
    var mid, s' := Apply(s, m.update), Moved(s, g, m);
    if Settled(s, p, x) {
      UpdateKeepsSettled(s, m.update, p, x);
      assert Settled(s', p, x);
    } else {
      var h :| h in s.goroutines && WillDeliver(s.goroutines[h], p, s.store[p], x, s.store[x], CurrentTrack(s, p));
      assert mid.goroutines == s.goroutines;
      assert h in s'.goroutines && (h != g ==> s'.goroutines[h] == s.goroutines[h]);
    }
  }

  lemma WaitingOrSettled(s: State, g: nat, choice: Choice, p: ClientId, x: ClientId)
    requires Sound(s) && CoveredAt(s, p, x) && g in s.goroutines && Choosable(s, s.goroutines[g], choice)
    requires MoveOk(s, MoveOf(s, s.goroutines[g], choice))
    requires SameMeeting(s, Apply(s, MoveOf(s, s.goroutines[g], choice).update), p, x)
    ensures CoveredAt(Moved(s, g, MoveOf(s, s.goroutines[g], choice)), p, x)
  {
    assert GoroutineOk(s, s.goroutines[g]);
    if WillDeliver(s.goroutines[g], p, s.store[p], x, s.store[x], CurrentTrack(s, p)) {
      DeliveryMovesOn(s, s.goroutines[g], choice, p, x);
    }
    ProgressKeepsCovered(s, g, MoveOf(s, s.goroutines[g], choice), p, x);
  }

  // A join that has just put its session in place is going to deliver to it.
  lemma BeginningKeepsCovered(s: State, g: nat, c: ClientId, p: ClientId, x: ClientId)
    requires Sound(s) && CoveredAt(s, p, x) && g !in s.goroutines
    ensures CoveredAt(At(Inserted(s, c), g, JoinBegun(s, c)), p, x)
  {
    var s' := At(Inserted(s, c), g, JoinBegun(s, c));
    InsertionEvolves(s, c);
    if Meet(s', p, x) {
      if x == c {
        assert WillDeliver(s'.goroutines[g], p, s'.store[p], x, s'.store[x], CurrentTrack(s', p));
      } else {
        KeptCovered(s, s', p, x);
      }
    }
  }

  // A step that changes neither the two sessions nor any goroutine of before.
  lemma KeptCovered(s: State, s': State, p: ClientId, x: ClientId)
    requires CoveredAt(s, p, x) && SameMeeting(s, s', p, x)
    requires s'.sessions[s.store[x]] == s.sessions[s.store[x]] && s'.refused == s.refused
    requires forall h :: h in s.goroutines ==> h in s'.goroutines && s'.goroutines[h] == s.goroutines[h]
    ensures CoveredAt(s', p, x)
  {
    if Settled(s, p, x) {
      assert Settled(s', p, x);
    } else {
      var h :| h in s.goroutines && WillDeliver(s.goroutines[h], p, s.store[p], x, s.store[x], CurrentTrack(s, p));
      assert h in s'.goroutines;
    }
  }

  lemma StepKeepsCovered(s: State, a: Action, p: ClientId, x: ClientId)
    requires Sound(s) && CoveredAt(s, p, x) && Enabled(s, a)
    ensures CoveredAt(Step(s, a), p, x)
  {
    match a {
      case BeginJoin(g, c) => BeginningKeepsCovered(s, g, c, p, x);
      case Advance(g, choice) =>
        assert GoroutineOk(s, s.goroutines[g]);
        MoveIsOk(s, s.goroutines[g], choice);
        AdvanceKeepsCovered(s, g, choice, p, x);
      case Register(c, _, _) => if Meet(Step(s, a), p, x) { NewcomersHaveNoSession(s, a, p, x); }
      case _ => if Meet(Step(s, a), p, x) { KeptCovered(s, Step(s, a), p, x); }
    }
  }

  lemma NewcomersHaveNoSession(s: State, a: Action, p: ClientId, x: ClientId)
    requires Sound(s) && CoveredAt(s, p, x) && Enabled(s, a) && a.Register? && Meet(Step(s, a), p, x)
    ensures CoveredAt(Step(s, a), p, x)
  {
    assert SessionOk(s, s.store[p]) && SessionOk(s, s.store[x]);
    KeptCovered(s, Step(s, a), p, x);
  }

  lemma {:induction false} RunIsSound(states: seq<State>, actions: seq<Action>, n: nat)
    requires IsRun(states, actions) && n <= |actions|
    ensures Sound(states[n])
  {
    if n == 0 {
    } else {
      RunIsSound(states, actions, n - 1);
      assert IsStep(states, actions, n - 1);
      StepIsSound(states[n - 1], actions[n - 1]);
    }
  }

  lemma {:induction false} RunIsCovered(states: seq<State>, actions: seq<Action>, n: nat, p: ClientId, x: ClientId)
    requires IsRun(states, actions) && n <= |actions|
    ensures CoveredAt(states[n], p, x)
  {
    if n == 0 {
    } else {
      RunIsCovered(states, actions, n - 1, p, x);
      RunIsSound(states, actions, n - 1);
      assert IsStep(states, actions, n - 1);
      StepKeepsCovered(states[n - 1], actions[n - 1], p, x);
    }
  }

  // The join that made a session is over.
  ghost predicate JoinFinished(s: State, session: nat) {
    forall g :: g in s.goroutines && Joins(s.goroutines[g]) ==> s.goroutines[g].session != session
  }

  // The publication that made a track is over.
  ghost predicate PublicationFinished(s: State, t: Track) {
    forall g :: g in s.goroutines && Publishes(s.goroutines[g]) && !s.goroutines[g].PublishStart? ==>
      s.goroutines[g].track != t
  }

  // In every interleaving: once x's join and p's publication have both finished, x's connection
  // carries p's current track at least once, or the library refused to attach it.
  lemma NoMissedSpeaker(states: seq<State>, actions: seq<Action>, n: nat, p: ClientId, x: ClientId)
    requires IsRun(states, actions) && n <= |actions|
    requires Meet(states[n], p, x)
    requires JoinFinished(states[n], states[n].store[x])
    requires PublicationFinished(states[n], CurrentTrack(states[n], p))
    ensures var s, t := states[n], CurrentTrack(states[n], p);
            Carries(s, s.store[x], t) || (t, s.store[x]) in s.refused
  {
    RunIsCovered(states, actions, n, p, x);
  }
}
