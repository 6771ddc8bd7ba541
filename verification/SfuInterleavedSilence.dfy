/** What revoking a user's right to speak achieves while callbacks, joins and stops interleave with
 * it: it silences their connected clients for good exactly if no track callback of theirs stands
 * between reading the row and setting its track.
 */
module SfuInterleavedSilence {
  import opened Wrappers
  import opened RoomUsers
  import opened SfuInterleaved
  import opened SfuInterleavedLaws
  import opened SfuInterleavedOnce

  /// Forwarders

  ghost predicate IsCurrent(s: State, t: Track) {
    t.session in s.sessions && s.sessions[t.session].localTrack == Some(t)
  }

  // Setting a track while another is set: the stop channel of the earlier one is lost.
  ghost predicate Overwrites(s: State, a: Action, t: Track) {
    && a.Advance? && a.g in s.goroutines && s.goroutines[a.g] == PublishStart(t.session) && IsCurrent(s, t)
  }

  ghost predicate Overwritten(states: seq<State>, actions: seq<Action>, n: nat, t: Track)
    requires |states| == |actions| + 1 && n <= |actions|
  {
    exists i :: 0 <= i < n && Overwrites(states[i], actions[i], t)
  }

  // A forwarder runs while its track is current, or has been overwritten before.
  ghost predicate RunsIff(s: State, t: Track, overwritten: bool) {
    && (t in s.open <==> IsCurrent(s, t) || overwritten)
    && (t in s.open ==> Issued(s, t))
    && (overwritten ==> Retired(s, t))
  }

  lemma UpdateForwards(s: State, u: Update, t: Track, overwritten: bool)
    requires SessionsOk(s) && UpdateOk(s, u) && RunsIff(s, t, overwritten)
    ensures RunsIff(Apply(s, u), t, overwritten || (u.Start? && u.id == t.session && IsCurrent(s, t)))
  {
    assert t.session in s.sessions ==> SessionOk(s, t.session);
    assert !u.Keep? && !u.Forget? ==> SessionOk(s, u.id);
  }

  lemma OnlyStartersStart(s: State, g: Goroutine, choice: Choice)
    requires Known(s, g)
    ensures var u := MoveOf(s, g, choice).update;
            (u.Start? <==> g.PublishStart?) && (u.Start? ==> u.id == g.session)
  {
  }

  lemma AdvanceForwards(s: State, g: nat, choice: Choice, t: Track, overwritten: bool)
    requires Sound(s) && g in s.goroutines && RunsIff(s, t, overwritten)
    ensures RunsIff(Step(s, Advance(g, choice)), t, overwritten || Overwrites(s, Advance(g, choice), t))
  {
    var where := s.goroutines[g];
    assert GoroutineOk(s, where);
    MoveIsOk(s, where, choice);
    OnlyStartersStart(s, where, choice);
    UpdateForwards(s, MoveOf(s, where, choice).update, t, overwritten);
  }

  lemma StepForwards(s: State, a: Action, t: Track, overwritten: bool)
    requires Sound(s) && Enabled(s, a) && RunsIff(s, t, overwritten)
    ensures RunsIff(Step(s, a), t, overwritten || Overwrites(s, a, t))
  {
    match a {
      case Advance(g, choice) => AdvanceForwards(s, g, choice, t, overwritten);
      case _ => InsertionIsNew(s);
    }
  }

  // In every interleaving the forwarder of a track has not been told to stop exactly if the track
  // is still its session's, or the session set another while it was.
  lemma {:induction false} ForwarderRunsIff(states: seq<State>, actions: seq<Action>, n: nat, t: Track)
    requires IsRun(states, actions) && n <= |actions|
    ensures RunsIff(states[n], t, Overwritten(states, actions, n, t))
  {
    if n == 0 {
    } else {
      ForwarderRunsIff(states, actions, n - 1, t);
      RunIsSound(states, actions, n - 1);
      assert IsStep(states, actions, n - 1);
      StepForwards(states[n - 1], actions[n - 1], t, Overwritten(states, actions, n - 1, t));
      OverwrittenSoFar(states, actions, n, t);
    }
  }

  lemma OverwrittenSoFar(states: seq<State>, actions: seq<Action>, n: nat, t: Track)
    requires |states| == |actions| + 1 && 0 < n <= |actions|
    ensures Overwritten(states, actions, n, t) <==>
            Overwritten(states, actions, n - 1, t) || Overwrites(states[n - 1], actions[n - 1], t)
  {
    if Overwritten(states, actions, n, t) {
      var i :| 0 <= i < n && Overwrites(states[i], actions[i], t);
      assert i < n - 1 ==> 0 <= i < n - 1;
    }
    if Overwritten(states, actions, n - 1, t) {
      var i :| 0 <= i < n - 1 && Overwrites(states[i], actions[i], t);
      assert 0 <= i < n;
    }
    if Overwrites(states[n - 1], actions[n - 1], t) { assert 0 <= n - 1 < n; }
  }

  /// Silence

  predicate IsOf(s: State, c: ClientId, room: RoomId, user: UserId) {
    c in s.rooms && s.rooms[c] == room && c in s.users && s.users[c] == user
  }

  // A connected client of the user, with a session.
  predicate OnStage(s: State, c: ClientId, room: RoomId, user: UserId) {
    c in s.registered && IsOf(s, c, room, user) && c in s.store
  }

  predicate Barred(s: State, room: RoomId, user: UserId) { (room, user) !in s.speakers }

  // No forwarder runs for the session.
  ghost predicate QuietAt(s: State, id: nat) { forall t :: t in s.open ==> t.session != id }

  ghost predicate Quiet(s: State, room: RoomId, user: UserId) {
    forall c :: OnStage(s, c, room, user) ==> QuietAt(s, s.store[c])
  }

  // A callback of session p that has read its row and not yet set its track.
  predicate AboutToPublish(g: Goroutine, p: nat) {
    || g == PublishStart(p)
    || ((g.StopGet? || g.StopTake? || g.StopNext? || g.StopDetach?) && g.next == Republish(p))
  }

  ghost predicate NonePending(s: State, id: nat) {
    forall g :: g in s.goroutines ==> !AboutToPublish(s.goroutines[g], id)
  }

  ghost predicate NoCallbackPending(s: State, room: RoomId, user: UserId) {
    forall c :: OnStage(s, c, room, user) ==> NonePending(s, s.store[c])
  }

  ghost predicate OpenOk(s: State) { forall t :: t in s.open ==> Issued(s, t) }

  // What every reachable state is like.
  ghost predicate Good(s: State) { Sound(s) && OnceOk(s) && OpenOk(s) }

  lemma RunIsGood(states: seq<State>, actions: seq<Action>, n: nat)
    requires IsRun(states, actions) && n <= |actions|
    ensures Good(states[n])
  {
    RunKeepsOnce(states, actions, n);
    forall t | t in states[n].open ensures Issued(states[n], t) {
      ForwarderRunsIff(states, actions, n, t);
    }
  }

  lemma StepIsGood(s: State, a: Action)
    requires Good(s) && Enabled(s, a)
    ensures Good(Step(s, a))
  {
    StepIsSound(s, a);
    StepKeepsOnce(s, a);
    StepKeepsOpenOk(s, a);
  }

  lemma UpdateKeepsOpenOk(s: State, u: Update)
    requires OpenOk(s) && UpdateOk(s, u)
    ensures OpenOk(Apply(s, u))
  {
  }

  lemma StepKeepsOpenOk(s: State, a: Action)
    requires Sound(s) && OpenOk(s) && Enabled(s, a)
    ensures OpenOk(Step(s, a))
  {
    match a {
      case Advance(g, choice) =>
        assert GoroutineOk(s, s.goroutines[g]);
        MoveIsOk(s, s.goroutines[g], choice);
        UpdateKeepsOpenOk(s, MoveOf(s, s.goroutines[g], choice).update);
      case _ =>
    }
  }

  /// No callback, no sound

  // Who is on stage after a step was so before, with the same session, or has just got a new one.
  lemma SameStage(s: State, a: Action, c: ClientId, room: RoomId, user: UserId)
    requires Good(s) && Enabled(s, a) && OnStage(Step(s, a), c, room, user)
    ensures var id := Step(s, a).store[c];
            (OnStage(s, c, room, user) && s.store[c] == id) || (a.BeginJoin? && id == s.nextSession)
  {
    if c in s.store { assert SessionOk(s, s.store[c]); }
    if a.Advance? {
      assert GoroutineOk(s, s.goroutines[a.g]);
      MoveIsOk(s, s.goroutines[a.g], a.choice);
      UpdateKeepsStage(s, MoveOf(s, s.goroutines[a.g], a.choice).update, c);
    }
  }

  lemma UpdateKeepsStage(s: State, u: Update, c: ClientId)
    requires UpdateOk(s, u)
    ensures var s' := Apply(s, u);
            && s'.rooms == s.rooms && s'.users == s.users && s'.registered == s.registered && s'.speakers == s.speakers
            && (c in s'.store ==> c in s.store && s'.store[c] == s.store[c])
  {
  }

  // A goroutine gets about to publish only by reading a row that lets it.
  lemma NextPending(s: State, g: Goroutine, choice: Choice, id: nat)
    requires Known(s, g) && AboutToPublish(MoveOf(s, g, choice).next, id)
    ensures AboutToPublish(g, id) || (g == RowRead(id) && MaySpeak(s, s.sessions[id].client))
  {
  }

  lemma AdvanceStaysUnpending(s: State, g: nat, choice: Choice, c: ClientId, room: RoomId, user: UserId)
    requires Good(s) && Enabled(s, Advance(g, choice)) && Barred(s, room, user)
    requires OnStage(s, c, room, user) && NonePending(s, s.store[c])
    ensures NonePending(Step(s, Advance(g, choice)), s.store[c])
  {
    assert GoroutineOk(s, s.goroutines[g]);
    AdvanceMovesOne(s, g, choice);
    if AboutToPublish(MoveOf(s, s.goroutines[g], choice).next, s.store[c]) {
      NextPending(s, s.goroutines[g], choice, s.store[c]);
    }
  }

  lemma NobodyKnowsNewSession(s: State, g: Goroutine)
    requires Sound(s) && GoroutineOk(s, g)
    ensures !AboutToPublish(g, s.nextSession)
  {
    InsertionIsNew(s);
  }

  lemma JoinBeginsUnpending(s: State, g: nat, c: ClientId)
    requires Good(s) && Enabled(s, BeginJoin(g, c))
    ensures NonePending(Step(s, BeginJoin(g, c)), s.nextSession) && QuietAt(Step(s, BeginJoin(g, c)), s.nextSession)
  {
    InsertionIsNew(s);
    forall h | h in s.goroutines ensures !AboutToPublish(s.goroutines[h], s.nextSession) {
      assert GoroutineOk(s, s.goroutines[h]);
      NobodyKnowsNewSession(s, s.goroutines[h]);
    }
  }

  lemma BeginningStaysUnpending(s: State, a: Action, id: nat)
    requires Enabled(s, a) && !a.Advance? && NonePending(s, id)
    ensures NonePending(Step(s, a), id)
  {
  }

  lemma StepStaysUnpending(s: State, a: Action, room: RoomId, user: UserId)
    requires Good(s) && Enabled(s, a) && Barred(s, room, user) && NoCallbackPending(s, room, user)
    ensures NoCallbackPending(Step(s, a), room, user)
  {
    var s' := Step(s, a);
    forall c | OnStage(s', c, room, user) ensures NonePending(s', s'.store[c]) {
      SameStage(s, a, c, room, user);
      if a.Advance? {
        AdvanceStaysUnpending(s, a.g, a.choice, c, room, user);
      } else if a.BeginJoin? && s'.store[c] == s.nextSession {
        JoinBeginsUnpending(s, a.g, a.c);
      } else {
        BeginningStaysUnpending(s, a, s.store[c]);
      }
    }
  }

  lemma AdvanceStaysQuiet(s: State, g: nat, choice: Choice, id: nat)
    requires Sound(s) && Enabled(s, Advance(g, choice)) && QuietAt(s, id) && NonePending(s, id)
    ensures QuietAt(Step(s, Advance(g, choice)), id)
  {
    assert GoroutineOk(s, s.goroutines[g]);
    OnlyStartersStart(s, s.goroutines[g], choice);
    OpenAfter(s, MoveOf(s, s.goroutines[g], choice).update);
  }

  lemma OpenAfter(s: State, u: Update)
    requires u.Keep? || u.Forget? || u.id in s.sessions
    ensures Apply(s, u).open <= s.open + if u.Start? then {Track(u.id, s.nextTrack)} else {}
  {
  }

  lemma StepStaysQuiet(s: State, a: Action, room: RoomId, user: UserId)
    requires Good(s) && Enabled(s, a) && Quiet(s, room, user) && NoCallbackPending(s, room, user)
    ensures Quiet(Step(s, a), room, user)
  {
    var s' := Step(s, a);
    forall c | OnStage(s', c, room, user) ensures QuietAt(s', s'.store[c]) {
      SameStage(s, a, c, room, user);
      if a.Advance? {
        AdvanceStaysQuiet(s, a.g, a.choice, s.store[c]);
      } else if a.BeginJoin? && s'.store[c] == s.nextSession {
        JoinBeginsUnpending(s, a.g, a.c);
      }
    }
  }

  /// For good

  // The state z comes of s by steps throughout which the user stays barred.
  ghost predicate LeadsBy(s: State, states: seq<State>, actions: seq<Action>, room: RoomId, user: UserId) {
    && |states| == |actions| + 1 && states[0] == s
    && (forall i :: 0 <= i < |actions| ==> IsStep(states, actions, i))
    && (forall i :: 0 <= i < |states| ==> Barred(states[i], room, user))
  }

  ghost predicate Leads(s: State, z: State, room: RoomId, user: UserId) {
    exists states, actions :: LeadsBy(s, states, actions, room, user) && states[|actions|] == z
  }

  // However things go on, the user is silent while barred.
  ghost predicate SilentForGood(s: State, room: RoomId, user: UserId) {
    forall z :: Leads(s, z, room, user) ==> Quiet(z, room, user)
  }

  lemma {:induction false} StaysQuiet(s: State, states: seq<State>, actions: seq<Action>, n: nat, room: RoomId,
                                      user: UserId)
    requires LeadsBy(s, states, actions, room, user) && n <= |actions|
    requires Good(s) && Quiet(s, room, user) && NoCallbackPending(s, room, user)
    ensures Good(states[n]) && Quiet(states[n], room, user) && NoCallbackPending(states[n], room, user)
  {
    if n == 0 {
    } else {
      StaysQuiet(s, states, actions, n - 1, room, user);
      assert IsStep(states, actions, n - 1);
      StepIsGood(states[n - 1], actions[n - 1]);
      StepStaysUnpending(states[n - 1], actions[n - 1], room, user);
      StepStaysQuiet(states[n - 1], actions[n - 1], room, user);
    }
  }

  lemma LeadsHere(s: State, room: RoomId, user: UserId)
    requires Barred(s, room, user)
    ensures Leads(s, s, room, user)
  {
    assert LeadsBy(s, [s], [], room, user);
  }

  lemma LeadsOn(s: State, a: Action, z: State, room: RoomId, user: UserId)
    requires Enabled(s, a) && Barred(s, room, user) && Leads(Step(s, a), z, room, user)
    ensures Leads(s, z, room, user)
  {
    var states, actions :| LeadsBy(Step(s, a), states, actions, room, user) && states[|actions|] == z;
    var states', actions' := [s] + states, [a] + actions;
    forall i | 0 <= i < |actions'| ensures IsStep(states', actions', i) {
      assert i > 0 ==> IsStep(states, actions, i - 1);
    }
    assert LeadsBy(s, states', actions', room, user);
  }

  /// A pending callback goes through

  // The callback of session id stands at goroutine g, and its client is on stage.
  ghost predicate Awaits(s: State, g: nat, c: ClientId, room: RoomId, user: UserId) {
    && Good(s) && Barred(s, room, user) && OnStage(s, c, room, user)
    && g in s.goroutines && AboutToPublish(s.goroutines[g], s.store[c])
  }

  function Stage(g: Goroutine): nat {
    match g
    case StopGet(_, _) => 3
    case StopTake(_, _, _) => 2
    case StopNext(_, _, _) => 1
    case StopDetach(_, _, _, _, _) => 1
    case _ => 0
  }

  function Left(g: Goroutine): nat {
    match g
    case StopNext(_, rest, _) => 2 * |rest|
    case StopDetach(_, _, _, rest, _) => 2 * |rest| + 1
    case _ => 0
  }

  predicate IsNearer(g: Goroutine, h: Goroutine) { Stage(g) < Stage(h) || (Stage(g) == Stage(h) && Left(g) < Left(h)) }

  lemma RestShrinks(rest: map<ClientId, Sender>, pick: ClientId)
    requires pick in rest
    ensures |rest - {pick}| == |rest| - 1
  {
    assert rest.Keys == (rest - {pick}).Keys + {pick};
    assert |rest.Keys| == |rest| && |(rest - {pick}).Keys| == |rest - {pick}|;
  }

  lemma NextStage(s: State, g: Goroutine, choice: Choice, id: nat)
    requires Known(s, g) && AboutToPublish(g, id) && !g.PublishStart?
    requires g.StopNext? && g.rest != map[] ==> choice.pick in g.rest
    ensures var m := MoveOf(s, g, choice);
            && AboutToPublish(m.next, id) && (m.update.Keep? || m.update.Silence? || m.update.Detach?)
            && IsNearer(m.next, g)
  {
    if g.StopNext? && g.rest != map[] { RestShrinks(g.rest, choice.pick); }
  }

  // A choice that the goroutine can go on with by itself.
  lemma OwnChoice(s: State, g: Goroutine) returns (choice: Choice)
    requires !g.JoinAsk? && !g.PublishAsk? && !g.RevokeAsk?
    ensures Choosable(s, g, choice) && !choice.fails
    ensures g.StopNext? && g.rest != map[] ==> choice.pick in g.rest
  {
    var pick := "";
    if g.StopNext? && g.rest != map[] {
      assert g.rest.Keys != {};
      pick :| pick in g.rest;
    }
    choice := Choice([], false, pick);
  }

  lemma AwaitsOn(s: State, g: nat, choice: Choice, c: ClientId, room: RoomId, user: UserId)
    requires Awaits(s, g, c, room, user) && !s.goroutines[g].PublishStart?
    requires Choosable(s, s.goroutines[g], choice)
    requires s.goroutines[g].StopNext? && s.goroutines[g].rest != map[] ==> choice.pick in s.goroutines[g].rest
    ensures var s' := Step(s, Advance(g, choice));
            && Enabled(s, Advance(g, choice)) && Awaits(s', g, c, room, user)
            && IsNearer(s'.goroutines[g], s.goroutines[g])
  {
    assert GoroutineOk(s, s.goroutines[g]);
    StepIsGood(s, Advance(g, choice));
    AdvanceMovesOne(s, g, choice);
    NextStage(s, s.goroutines[g], choice, s.store[c]);
  }

  lemma StartSounds(s: State, g: nat, choice: Choice, c: ClientId, room: RoomId, user: UserId)
    requires Awaits(s, g, c, room, user) && s.goroutines[g].PublishStart?
    ensures var s' := Step(s, Advance(g, choice));
            Enabled(s, Advance(g, choice)) && Barred(s', room, user) && !Quiet(s', room, user)
  {
    assert GoroutineOk(s, s.goroutines[g]);
    var s' := Step(s, Advance(g, choice));
    assert OnStage(s', c, room, user);
    assert Track(s.store[c], s.nextTrack) in s'.open;
  }

  lemma {:induction false} PendingSounds(s: State, g: nat, c: ClientId, room: RoomId, user: UserId) returns (z: State)
    requires Awaits(s, g, c, room, user)
    ensures Leads(s, z, room, user) && !Quiet(z, room, user)
    decreases Stage(s.goroutines[g]), Left(s.goroutines[g])
  {
    var choice := OwnChoice(s, s.goroutines[g]);
    var s' := Step(s, Advance(g, choice));
    if s.goroutines[g].PublishStart? {
      StartSounds(s, g, choice, c, room, user);
      LeadsHere(s', room, user);
      z := s';
    } else {
      AwaitsOn(s, g, choice, c, room, user);
      z := PendingSounds(s', g, c, room, user);
    }
    LeadsOn(s, Advance(g, choice), z, room, user);
  }

  // A barred user is silent for good exactly if no forwarder of a connected client of theirs runs
  // and no track callback of one stands between reading the row and setting its track.
  lemma SilentForGoodIff(s: State, room: RoomId, user: UserId)
    requires Good(s) && Barred(s, room, user)
    ensures SilentForGood(s, room, user) <==> Quiet(s, room, user) && NoCallbackPending(s, room, user)
  {
    LeadsHere(s, room, user);
    if Quiet(s, room, user) && NoCallbackPending(s, room, user) {
      forall z | Leads(s, z, room, user) ensures Quiet(z, room, user) {
        var states, actions :| LeadsBy(s, states, actions, room, user) && states[|actions|] == z;
        StaysQuiet(s, states, actions, |actions|, room, user);
      }
    } else if Quiet(s, room, user) {
      var c :| OnStage(s, c, room, user) && !NonePending(s, s.store[c]);
      var g :| g in s.goroutines && AboutToPublish(s.goroutines[g], s.store[c]);
      var z := PendingSounds(s, g, c, room, user);
      assert Leads(s, z, room, user) && !Quiet(z, room, user);
    }
  }

  /// What a finished revocation has done

  // Every running forwarder of the session is its current track's: none has been overwritten.
  ghost predicate NoLeak(s: State, id: nat) {
    forall t :: t in s.open && t.session == id ==> IsCurrent(s, t)
  }

  ghost predicate NoLeaks(s: State, room: RoomId, user: UserId) {
    forall c :: OnStage(s, c, room, user) ==> NoLeak(s, s.store[c])
  }

  // The revoking goroutine is still going to stop session id of client c.
  predicate WillStop(g: Goroutine, c: ClientId, id: nat, room: RoomId, user: UserId) {
    match g
    case RevokeAsk(r, u) => r == room && u == user
    case RevokeNext(r, u, todo) => r == room && u == user && c in todo
    case StopGet(d, Revoke(r, u, todo)) => r == room && u == user && (d == c || c in todo)
    case StopTake(_, target, Revoke(r, u, todo)) => r == room && u == user && (target == id || c in todo)
    case StopNext(_, _, Revoke(r, u, todo)) => r == room && u == user && c in todo
    case StopDetach(_, _, _, _, Revoke(r, u, todo)) => r == room && u == user && c in todo
    case _ => false
  }

  ghost predicate Reached(s: State, g: nat, c: ClientId, room: RoomId, user: UserId)
    requires c in s.store && g in s.goroutines
  {
    QuietAt(s, s.store[c]) || WillStop(s.goroutines[g], c, s.store[c], room, user)
  }

  // How far a revocation has got at goroutine g.
  ghost predicate Revoking(s: State, g: nat, room: RoomId, user: UserId) {
    && g in s.goroutines && NoCallbackPending(s, room, user) && NoLeaks(s, room, user)
    && forall c :: OnStage(s, c, room, user) ==> Reached(s, g, c, room, user)
  }

  lemma UpdateKeepsNoLeak(s: State, u: Update, id: nat)
    requires SessionsOk(s) && UpdateOk(s, u) && NoLeak(s, id) && id in s.sessions && !(u.Start? && u.id == id)
    ensures NoLeak(Apply(s, u), id)
    ensures u == Silence(id) ==> QuietAt(Apply(s, u), id)
  {
    assert SessionOk(s, id);
  }

  lemma AskingGoesOn(s: State, g: Goroutine, choice: Choice, c: ClientId, id: nat, room: RoomId, user: UserId)
    requires Known(s, g) && Choosable(s, g, choice) && c in s.registered && IsOf(s, c, room, user)
    requires (g.RevokeAsk? || g.RevokeNext?) && WillStop(g, c, id, room, user)
    ensures WillStop(StopMove(s, g, choice).next, c, id, room, user)
  {
    match g {
      case RevokeNext(_, _, todo) => if todo != [] { assert todo == [todo[0]] + todo[1..]; }
      case RevokeAsk(_, _) => assert c in choice.list;
    }
  }

  lemma StoppingGoesOn(s: State, g: Goroutine, choice: Choice, c: ClientId, room: RoomId, user: UserId)
    requires Known(s, g) && (g.StopGet? || g.StopTake? || g.StopNext? || g.StopDetach?)
    requires c in s.store && WillStop(g, c, s.store[c], room, user)
    ensures var m := StopMove(s, g, choice);
            m.update == Silence(s.store[c]) || WillStop(m.next, c, s.store[c], room, user)
  {
    assert g.next.Revoke?;
  }

  lemma WillStopGoesOn(s: State, g: Goroutine, choice: Choice, c: ClientId, room: RoomId, user: UserId)
    requires Known(s, g) && Choosable(s, g, choice) && OnStage(s, c, room, user)
    requires WillStop(g, c, s.store[c], room, user)
    ensures var m := MoveOf(s, g, choice);
            m.update == Silence(s.store[c]) || WillStop(m.next, c, s.store[c], room, user)
  {
    if g.RevokeAsk? || g.RevokeNext? {
      AskingGoesOn(s, g, choice, c, s.store[c], room, user);
    } else {
      StoppingGoesOn(s, g, choice, c, room, user);
    }
  }

  lemma AdvanceKeepsNoLeak(s: State, h: nat, choice: Choice, c: ClientId, room: RoomId, user: UserId)
    requires Good(s) && Enabled(s, Advance(h, choice)) && OnStage(s, c, room, user)
    requires NonePending(s, s.store[c]) && NoLeak(s, s.store[c])
    ensures NoLeak(Step(s, Advance(h, choice)), s.store[c])
    ensures MoveOf(s, s.goroutines[h], choice).update == Silence(s.store[c]) ==>
              QuietAt(Step(s, Advance(h, choice)), s.store[c])
  {
    assert GoroutineOk(s, s.goroutines[h]);
    MoveIsOk(s, s.goroutines[h], choice);
    OnlyStartersStart(s, s.goroutines[h], choice);
    UpdateKeepsNoLeak(s, MoveOf(s, s.goroutines[h], choice).update, s.store[c]);
  }

  lemma AdvanceKeepsReached(s: State, h: nat, choice: Choice, g: nat, c: ClientId, room: RoomId, user: UserId)
    requires Good(s) && Enabled(s, Advance(h, choice)) && OnStage(s, c, room, user) && g in s.goroutines
    requires NonePending(s, s.store[c]) && NoLeak(s, s.store[c]) && Reached(s, g, c, room, user)
    ensures var s' := Step(s, Advance(h, choice));
            QuietAt(s', s.store[c]) || (g in s'.goroutines && WillStop(s'.goroutines[g], c, s.store[c], room, user))
  {
    assert GoroutineOk(s, s.goroutines[h]);
    if QuietAt(s, s.store[c]) {
      AdvanceStaysQuiet(s, h, choice, s.store[c]);
    } else {
      AdvanceMovesOne(s, h, choice);
      AdvanceKeepsNoLeak(s, h, choice, c, room, user);
      if h == g { WillStopGoesOn(s, s.goroutines[g], choice, c, room, user); }
    }
  }

  lemma StandingStillKeepsRevoking(s: State, a: Action, g: nat, c: ClientId, room: RoomId, user: UserId)
    requires Good(s) && Enabled(s, a) && !a.Advance? && OnStage(s, c, room, user) && g in s.goroutines
    requires NoLeak(s, s.store[c]) && Reached(s, g, c, room, user)
    ensures var s' := Step(s, a);
            && NoLeak(s', s.store[c]) && g in s'.goroutines
            && (QuietAt(s', s.store[c]) || WillStop(s'.goroutines[g], c, s.store[c], room, user))
  {
    InsertionIsNew(s);
  }

  lemma StepKeepsRevoking(s: State, a: Action, g: nat, room: RoomId, user: UserId)
    requires Good(s) && Enabled(s, a) && Barred(s, room, user) && Revoking(s, g, room, user)
    ensures Revoking(Step(s, a), g, room, user)
  {
    var s' := Step(s, a);
    StepStaysUnpending(s, a, room, user);
    forall c | OnStage(s', c, room, user)
      ensures NoLeak(s', s'.store[c]) && g in s'.goroutines && Reached(s', g, c, room, user)
    {
      SameStage(s, a, c, room, user);
      if a.BeginJoin? && s'.store[c] == s.nextSession {
        JoinBeginsUnpending(s, a.g, a.c);
      } else if a.Advance? {
        AdvanceKeepsNoLeak(s, a.g, a.choice, c, room, user);
        AdvanceKeepsReached(s, a.g, a.choice, g, c, room, user);
        AdvanceMovesOneOnly(s, a.g, a.choice);
      } else {
        StandingStillKeepsRevoking(s, a, g, c, room, user);
      }
    }
    GoroutinesStay(s, a, g);
  }

  lemma AdvanceMovesOneOnly(s: State, g: nat, choice: Choice)
    requires Good(s) && Enabled(s, Advance(g, choice))
    ensures Step(s, Advance(g, choice)).goroutines.Keys == s.goroutines.Keys
  {
    assert GoroutineOk(s, s.goroutines[g]);
    AdvanceMovesOne(s, g, choice);
  }

  lemma GoroutinesStay(s: State, a: Action, g: nat)
    requires Good(s) && Enabled(s, a) && g in s.goroutines
    ensures g in Step(s, a).goroutines
  {
    if a.Advance? { AdvanceMovesOneOnly(s, a.g, a.choice); }
  }

  lemma {:induction false} StaysRevoking(s: State, states: seq<State>, actions: seq<Action>, n: nat, g: nat,
                                         room: RoomId, user: UserId)
    requires LeadsBy(s, states, actions, room, user) && n <= |actions|
    requires Good(s) && Revoking(s, g, room, user)
    ensures Good(states[n]) && Revoking(states[n], g, room, user)
  {
    if n == 0 {
    } else {
      StaysRevoking(s, states, actions, n - 1, g, room, user);
      assert IsStep(states, actions, n - 1);
      StepIsGood(states[n - 1], actions[n - 1]);
      StepKeepsRevoking(states[n - 1], actions[n - 1], g, room, user);
    }
  }

  // A revocation that has come to its end has left nobody out.
  lemma RevokedIsSilent(s: State, z: State, g: nat, room: RoomId, user: UserId)
    requires Good(s) && Revoking(s, g, room, user) && Leads(s, z, room, user)
    requires g in z.goroutines && z.goroutines[g].Done?
    ensures SilentForGood(z, room, user)
  {
    var states, actions :| LeadsBy(s, states, actions, room, user) && states[|actions|] == z;
    StaysRevoking(s, states, actions, |actions|, g, room, user);
    forall c | OnStage(z, c, room, user) ensures QuietAt(z, z.store[c]) {
      assert Reached(z, g, c, room, user);
    }
    SilentForGoodIff(z, room, user);
  }

  /// A revocation by itself

  // What one goroutine's stopping leaves alone: everybody else, the store, and every running
  // forwarder whose track is not current.
  ghost predicate Alone(s: State, z: State, g: nat) {
    && z.registered == s.registered && z.rooms == s.rooms && z.users == s.users && z.store == s.store
    && z.goroutines.Keys == s.goroutines.Keys
    && (forall h :: h in s.goroutines && h != g ==> z.goroutines[h] == s.goroutines[h])
    && (forall t :: t in s.open && !IsCurrent(s, t) ==> t in z.open && !IsCurrent(z, t))
  }

  lemma AloneIsTransitive(s: State, mid: State, z: State, g: nat)
    requires Alone(s, mid, g) && Alone(mid, z, g)
    ensures Alone(s, z, g)
  {
  }

  lemma StoppingIsAlone(s: State, g: nat, m: Move)
    requires g in s.goroutines && SessionsOk(s) && UpdateOk(s, m.update)
    requires m.update.Keep? || m.update.Silence? || m.update.Detach?
    ensures Alone(s, Moved(s, g, m), g) && Moved(s, g, m).speakers == s.speakers
  {
    if m.update.Silence? { assert SessionOk(s, m.update.id); }
  }

  // The goroutine is in the middle of revoking.
  predicate Revokes(g: Goroutine, room: RoomId, user: UserId) {
    match g
    case RevokeNext(r, u, _) => r == room && u == user
    case StopGet(_, Revoke(r, u, _)) => r == room && u == user
    case StopTake(_, _, Revoke(r, u, _)) => r == room && u == user
    case StopNext(_, _, Revoke(r, u, _)) => r == room && u == user
    case StopDetach(_, _, _, _, Revoke(r, u, _)) => r == room && u == user
    case _ => false
  }

  // How many clients it still has to come to.
  function ToCome(g: Goroutine): nat {
    match g
    case RevokeNext(_, _, todo) => |todo|
    case StopGet(_, Revoke(_, _, todo)) => |todo|
    case StopTake(_, _, Revoke(_, _, todo)) => |todo|
    case StopNext(_, _, Revoke(_, _, todo)) => |todo|
    case StopDetach(_, _, _, _, Revoke(_, _, todo)) => |todo|
    case _ => 0
  }

  predicate ComesCloser(next: Goroutine, g: Goroutine) {
    ToCome(next) < ToCome(g) || (ToCome(next) == ToCome(g) && IsNearer(next, g))
  }

  predicate GoesOnRevoking(m: Move, g: Goroutine, room: RoomId, user: UserId) {
    && (m.update.Keep? || m.update.Silence? || m.update.Detach?)
    && (m.next.Done? || (Revokes(m.next, room, user) && ComesCloser(m.next, g)))
  }

  lemma NextClient(s: State, g: Goroutine, choice: Choice, room: RoomId, user: UserId)
    requires Known(s, g) && g.RevokeNext? && Revokes(g, room, user)
    ensures GoesOnRevoking(StopMove(s, g, choice), g, room, user)
  {
  }

  lemma NextSenderToStop(s: State, g: Goroutine, choice: Choice, room: RoomId, user: UserId)
    requires Known(s, g) && g.StopNext? && Revokes(g, room, user) && (g.rest != map[] ==> choice.pick in g.rest)
    ensures GoesOnRevoking(StopMove(s, g, choice), g, room, user)
  {
    var m := StopMove(s, g, choice);
    assert g.next.Revoke? && m.update.Keep?;
    if g.rest == map[] {
      assert m.next == RevokeNext(room, user, g.next.todo);
    } else {
      RestShrinks(g.rest, choice.pick);
      assert ToCome(m.next) == ToCome(g) && Stage(m.next) == Stage(g) && Left(m.next) < Left(g);
    }
  }

  lemma RevokingGoesOn(s: State, g: Goroutine, choice: Choice, room: RoomId, user: UserId)
    requires Known(s, g) && Revokes(g, room, user)
    requires g.StopNext? && g.rest != map[] ==> choice.pick in g.rest
    ensures GoesOnRevoking(StopMove(s, g, choice), g, room, user)
  {
    if g.RevokeNext? {
      NextClient(s, g, choice, room, user);
    } else if g.StopNext? {
      NextSenderToStop(s, g, choice, room, user);
    }
  }

  lemma OneRevokingStep(s: State, g: nat, choice: Choice, room: RoomId, user: UserId)
    requires Good(s) && g in s.goroutines && Revokes(s.goroutines[g], room, user)
    requires Choosable(s, s.goroutines[g], choice)
    requires s.goroutines[g].StopNext? && s.goroutines[g].rest != map[] ==> choice.pick in s.goroutines[g].rest
    ensures var s' := Step(s, Advance(g, choice));
            && Enabled(s, Advance(g, choice)) && Alone(s, s', g) && s'.speakers == s.speakers && g in s'.goroutines
            && (s'.goroutines[g].Done?
                || (Revokes(s'.goroutines[g], room, user) && ComesCloser(s'.goroutines[g], s.goroutines[g])))
  {
    assert GoroutineOk(s, s.goroutines[g]);
    MoveIsOk(s, s.goroutines[g], choice);
    RevokingGoesOn(s, s.goroutines[g], choice, room, user);
    AdvanceMovesOne(s, g, choice);
    StoppingIsAlone(s, g, MoveOf(s, s.goroutines[g], choice));
  }

  lemma {:induction false} RevokesAlone(s: State, g: nat, room: RoomId, user: UserId) returns (z: State)
    requires Good(s) && Barred(s, room, user) && g in s.goroutines && Revokes(s.goroutines[g], room, user)
    ensures Leads(s, z, room, user) && g in z.goroutines && z.goroutines[g] == Done && Alone(s, z, g)
    decreases ToCome(s.goroutines[g]), Stage(s.goroutines[g]), Left(s.goroutines[g])
  {
    var choice := OwnChoice(s, s.goroutines[g]);
    var s' := Step(s, Advance(g, choice));
    OneRevokingStep(s, g, choice, room, user);
    StepIsGood(s, Advance(g, choice));
    if s'.goroutines[g].Done? {
      LeadsHere(s', room, user);
      z := s';
    } else {
      z := RevokesAlone(s', g, room, user);
      AloneIsTransitive(s, s', z, g);
    }
    LeadsOn(s, Advance(g, choice), z, room, user);
  }

  // The hub has an answer for every room.
  lemma {:induction false} Listed(clients: set<ClientId>) returns (list: seq<ClientId>)
    ensures NoRepeats(list) && forall x :: x in list <==> x in clients
    decreases clients
  {
    if clients == {} {
      list := [];
    } else {
      var c :| c in clients;
      var rest := Listed(clients - {c});
      list := [c] + rest;
    }
  }

  lemma OneAskingStep(s: State, g: nat, list: seq<ClientId>, room: RoomId, user: UserId)
    requires g in s.goroutines && s.goroutines[g] == RevokeAsk(room, user) && IsAnswer(s, room, list)
    ensures var a := Advance(g, Choice(list, false, ""));
            && Enabled(s, a) && Step(s, a) == At(s, g, RevokeNext(room, user, list)) && Alone(s, Step(s, a), g)
  {
    assert MoveOf(s, s.goroutines[g], Choice(list, false, "")) == Move(Keep, RevokeNext(room, user, list));
  }

  lemma AsksAlone(s: State, g: nat, room: RoomId, user: UserId) returns (z: State)
    requires Good(s) && Barred(s, room, user) && g in s.goroutines && s.goroutines[g] == RevokeAsk(room, user)
    ensures Leads(s, z, room, user) && g in z.goroutines && z.goroutines[g] == Done && Alone(s, z, g)
  {
    var list := Listed(set x | x in s.registered && x in s.rooms && s.rooms[x] == room);
    var a := Advance(g, Choice(list, false, ""));
    OneAskingStep(s, g, list, room, user);
    StepIsGood(s, a);
    z := RevokesAlone(At(s, g, RevokeNext(room, user, list)), g, room, user);
    LeadsOn(s, a, z, room, user);
    AloneIsTransitive(s, At(s, g, RevokeNext(room, user, list)), z, g);
  }

  // A pending callback is still pending when the revocation has run by itself.
  lemma PendingOutlives(s: State, z: State, g: nat, room: RoomId, user: UserId)
    requires Good(s) && Alone(s, z, g) && g in s.goroutines && s.goroutines[g] == RevokeAsk(room, user)
    requires !NoCallbackPending(s, room, user)
    ensures !NoCallbackPending(z, room, user)
  {
    var c :| OnStage(s, c, room, user) && !NonePending(s, s.store[c]);
    var h :| h in s.goroutines && AboutToPublish(s.goroutines[h], s.store[c]);
    assert h != g;
    assert OnStage(z, c, room, user) && AboutToPublish(z.goroutines[h], z.store[c]);
  }

  // And a forwarder whose stop channel was overwritten still runs.
  lemma LeakOutlives(s: State, z: State, g: nat, room: RoomId, user: UserId)
    requires Alone(s, z, g) && !NoLeaks(s, room, user)
    ensures !Quiet(z, room, user)
  {
    var c :| OnStage(s, c, room, user) && !NoLeak(s, s.store[c]);
    var t :| t in s.open && t.session == s.store[c] && !IsCurrent(s, t);
    assert OnStage(z, c, room, user) && t in z.open;
  }

  // When a revocation begins it is settled whether it will do: in every continuation in which the
  // user stays barred it leaves them silent for good once it is over, if and only if no track
  // callback of a connected client of theirs has read its row and not yet set its track, and no
  // session of such a client has a forwarder running whose track is no longer the session's.
  lemma RevocationWorksIff(s: State, g: nat, room: RoomId, user: UserId)
    requires Good(s) && Barred(s, room, user) && g in s.goroutines && s.goroutines[g] == RevokeAsk(room, user)
    ensures (forall z :: Leads(s, z, room, user) && g in z.goroutines && z.goroutines[g] == Done ==>
                           SilentForGood(z, room, user))
            <==> NoCallbackPending(s, room, user) && NoLeaks(s, room, user)
  {
    if NoCallbackPending(s, room, user) && NoLeaks(s, room, user) {
      assert Revoking(s, g, room, user);
      forall z | Leads(s, z, room, user) && g in z.goroutines && z.goroutines[g] == Done
        ensures SilentForGood(z, room, user)
      {
        RevokedIsSilent(s, z, g, room, user);
      }
    } else {
      var z := AsksAlone(s, g, room, user);
      if NoLeaks(s, room, user) { PendingOutlives(s, z, g, room, user); } else { LeakOutlives(s, z, g, room, user); }
      LeadsToGood(s, z, room, user);
      SilentForGoodIff(z, room, user);
    }
  }

  lemma LeadsToGood(s: State, z: State, room: RoomId, user: UserId)
    requires Good(s) && Leads(s, z, room, user)
    ensures Good(z) && Barred(z, room, user)
  {
    var states, actions :| LeadsBy(s, states, actions, room, user) && states[|actions|] == z;
    StaysGood(s, states, actions, |actions|, room, user);
  }

  lemma {:induction false} StaysGood(s: State, states: seq<State>, actions: seq<Action>, n: nat,
                                     room: RoomId, user: UserId)
    requires LeadsBy(s, states, actions, room, user) && n <= |actions| && Good(s)
    ensures Good(states[n])
  {
    if n == 0 {
    } else {
      StaysGood(s, states, actions, n - 1, room, user);
      assert IsStep(states, actions, n - 1);
      StepIsGood(states[n - 1], actions[n - 1]);
    }
  }

  lemma LaterLeads(states: seq<State>, actions: seq<Action>, b: nat, n: nat, room: RoomId, user: UserId)
    requires IsRun(states, actions) && b <= n <= |actions|
    requires forall i :: b <= i <= n ==> Barred(states[i], room, user)
    ensures Leads(states[b], states[n], room, user)
  {
    var later, steps := states[b..n + 1], actions[b..n];
    forall i | 0 <= i < |steps| ensures IsStep(later, steps, i) {
      assert IsStep(states, actions, b + i);
    }
    forall i | 0 <= i <= |steps| ensures Barred(later[i], room, user) { assert later[i] == states[b + i]; }
    assert LeadsBy(states[b], later, steps, room, user) && later[|steps|] == states[n];
  }

  // The same of a run, from the step that begins the revocation.
  lemma RevocationSilencesForGood(states: seq<State>, actions: seq<Action>, b: nat, n: nat, room: RoomId, user: UserId)
    requires IsRun(states, actions) && b < n <= |actions|
    requires actions[b].BeginRevoke? && actions[b].room == room && actions[b].user == user
    requires NoCallbackPending(states[b + 1], room, user) && NoLeaks(states[b + 1], room, user)
    requires forall i :: b < i <= n ==> Barred(states[i], room, user)
    requires actions[b].g in states[n].goroutines && states[n].goroutines[actions[b].g].Done?
    ensures SilentForGood(states[n], room, user)
  {
    assert IsStep(states, actions, b);
    RunIsGood(states, actions, b + 1);
    LaterLeads(states, actions, b + 1, n, room, user);
    RevocationWorksIff(states[b + 1], actions[b].g, room, user);
  }

  // The second condition holds exactly if no session of the user's has set a track over another.
  lemma LeaksAreOverwritten(states: seq<State>, actions: seq<Action>, n: nat, room: RoomId, user: UserId)
    requires IsRun(states, actions) && n <= |actions|
    ensures NoLeaks(states[n], room, user) <==>
            forall c, t: Track :: OnStage(states[n], c, room, user) && t.session == states[n].store[c] ==>
                             !Overwritten(states, actions, n, t)
  {
    var s := states[n];
    forall c, t: Track | OnStage(s, c, room, user) && t.session == s.store[c]
      ensures (t in s.open ==> IsCurrent(s, t)) <==> !Overwritten(states, actions, n, t)
    {
      ForwarderRunsIff(states, actions, n, t);
    }
    if NoLeaks(s, room, user) {
      forall c, t: Track | OnStage(s, c, room, user) && t.session == s.store[c]
        ensures !Overwritten(states, actions, n, t)
      {
        assert NoLeak(s, s.store[c]);
      }
    }
  }

  /// A callback that outlives a revocation

  lemma {:induction false} LeadsByReach(states: seq<State>, actions: seq<Action>, n: nat)
    requires |states| == |actions| + 1 && n <= |actions| && Reachable(states[0])
    requires forall i :: 0 <= i < |actions| ==> IsStep(states, actions, i)
    ensures Reachable(states[n])
  {
    if n == 0 {
    } else {
      LeadsByReach(states, actions, n - 1);
      assert IsStep(states, actions, n - 1);
      ReachableStep(states[n - 1], actions[n - 1]);
    }
  }

  lemma ReachableIsGood(s: State)
    requires Reachable(s)
    ensures Good(s)
  {
    var states, actions :| IsRun(states, actions) && states[|actions|] == s;
    RunIsGood(states, actions, |actions|);
  }

  // What a revocation by goroutine g, run by itself from s, leaves as it was.
  ghost predicate Outlived(s: State, z: State, g: nat) {
    && z.registered == s.registered && z.rooms == s.rooms && z.users == s.users && z.store == s.store
    && z.goroutines.Keys == s.goroutines.Keys + {g}
    && (forall h :: h in s.goroutines ==> z.goroutines[h] == s.goroutines[h])
    && (forall t :: t in s.open && !IsCurrent(s, t) ==> t in z.open)
  }

  lemma AloneOutlives(s: State, g: nat, room: RoomId, user: UserId, z: State)
    requires g !in s.goroutines && Alone(Step(s, BeginRevoke(g, room, user)), z, g)
    ensures Outlived(s, z, g)
  {
    var s' := Step(s, BeginRevoke(g, room, user));
    forall h | h in s.goroutines ensures z.goroutines[h] == s.goroutines[h] { assert h in s'.goroutines && h != g; }
    forall t | t in s.open && !IsCurrent(s, t) ensures t in z.open { assert t in s'.open && !IsCurrent(s', t); }
  }

  // A revocation that begins in a reachable state can run to its end by itself.
  lemma RevocationRuns(s: State, g: nat, room: RoomId, user: UserId) returns (z: State)
    requires Reachable(s) && g !in s.goroutines
    ensures Reachable(z) && Good(z) && Barred(z, room, user) && g in z.goroutines && z.goroutines[g] == Done
    ensures Outlived(s, z, g)
  {
    var s' := Step(s, BeginRevoke(g, room, user));
    ReachableStep(s, BeginRevoke(g, room, user));
    ReachableIsGood(s');
    z := AsksAlone(s', g, room, user);
    AloneOutlives(s, g, room, user, z);
    var states, actions :| LeadsBy(s', states, actions, room, user) && states[|actions|] == z;
    LeadsByReach(states, actions, |actions|);
    ReachableIsGood(z);
  }

  // The speaker's callback has read its row when the revocation comes.
  lemma RowIsRead()
    ensures Reachable(Scene(FRESH, {}, JoinAsk(1), StopGet(SPEAKER, Republish(0))))
  {
    SceneOpens();
    PublishAdvances(FRESH, {}, JoinAsk(1), RowRead(0), StopGet(SPEAKER, Republish(0)));
  }

  lemma PendingIsNotSilent(s: State, h: nat, c: ClientId, room: RoomId, user: UserId)
    requires Good(s) && Barred(s, room, user) && OnStage(s, c, room, user)
    requires h in s.goroutines && AboutToPublish(s.goroutines[h], s.store[c])
    ensures !SilentForGood(s, room, user)
  {
    SilentForGoodIff(s, room, user);
    assert !NonePending(s, s.store[c]);
  }

  // A run in which the revocation is over, the user barred, and yet they can be heard later on.
  lemma CallbackOutlivesRevocation()
    ensures exists s, g :: Reachable(s) && g in s.goroutines && s.goroutines[g] == Done && Barred(s, 1, 1)
                           && !SilentForGood(s, 1, 1)
  {
    RowIsRead();
    var s := Scene(FRESH, {}, JoinAsk(1), StopGet(SPEAKER, Republish(0)));
    assert OnStage(s, SPEAKER, 1, 1) && s.store[SPEAKER] == 0;
    assert 2 in s.goroutines && AboutToPublish(s.goroutines[2], 0);
    var z := RevocationRuns(s, 3, 1, 1);
    PendingIsNotSilent(z, 2, SPEAKER, 1, 1);
  }

  /// A forwarder that outlives a revocation

  // The first callback of the speaker's session, goroutine 2, has stopped it; the second is goroutine 3.
  function Second(where: Goroutine): State { At(Scene(FRESH, {}, JoinAsk(1), PublishStart(0)), 3, where) }

  lemma SecondGoes(where: Goroutine, next: Goroutine)
    requires Reachable(Second(where)) && Known(Second(where), where) && Choosable(Second(where), where, BOTH)
    requires MoveOf(Second(where), where, BOTH) == Move(Keep, next)
    ensures Reachable(Second(next))
  {
    ReachableStep(Second(where), Advance(3, BOTH));
    assert Step(Second(where), Advance(3, BOTH)) == Second(next);
  }

  lemma SecondComesToSession()
    ensures Reachable(Second(StopTake(SPEAKER, 0, Republish(0))))
  {
    StopPrecedesPublication();
    var s := Scene(FRESH, {}, JoinAsk(1), PublishStart(0));
    ReachableStep(s, BeginPublish(3, 0));
    assert Step(s, BeginPublish(3, 0)) == Second(RowRead(0));
    SecondGoes(RowRead(0), StopGet(SPEAKER, Republish(0)));
    SecondGoes(StopGet(SPEAKER, Republish(0)), StopTake(SPEAKER, 0, Republish(0)));
  }

  // Both callbacks have stopped the session before either sets its track.
  lemma BothHaveStopped()
    ensures Reachable(Second(PublishStart(0)))
  {
    SecondComesToSession();
    var s := Second(StopTake(SPEAKER, 0, Republish(0)));
    ReachableStep(s, Advance(3, BOTH));
    assert Step(s, Advance(3, BOTH)).sessions == s.sessions;
    assert Step(s, Advance(3, BOTH)) == Second(StopNext(SPEAKER, map[], Republish(0)));
    SecondGoes(StopNext(SPEAKER, map[], Republish(0)), PublishStart(0));
  }

  lemma FirstSetsTrack() returns (s: State)
    ensures Reachable(s) && s.open == {ON_AIR} && s.nextTrack == 1 && 0 in s.sessions
    ensures s.goroutines == map[0 := JoinAsk(0), 1 := JoinAsk(1), 2 := PublishAsk(0, ON_AIR), 3 := PublishStart(0)]
    ensures OnStage(s, SPEAKER, 1, 1) && s.store[SPEAKER] == 0 && forall c :: OnStage(s, c, 1, 1) ==> c == SPEAKER
  {
    BothHaveStopped();
    var was := Second(PublishStart(0));
    assert MoveOf(was, PublishStart(0), BOTH) == Move(Start(0), PublishAsk(0, ON_AIR));
    ReachableStep(was, Advance(2, BOTH));
    s := Step(was, Advance(2, BOTH));
    assert s == Moved(was, 2, Move(Start(0), PublishAsk(0, ON_AIR)));
  }

  // The second callback sets its own track over the first's, whose forwarder goes on.
  lemma SecondOverwrites() returns (s: State)
    ensures Reachable(s) && ON_AIR in s.open && !IsCurrent(s, ON_AIR)
    ensures 4 !in s.goroutines && forall h :: h in s.goroutines ==> !AboutToPublish(s.goroutines[h], 0)
    ensures OnStage(s, SPEAKER, 1, 1) && s.store[SPEAKER] == 0 && forall c :: OnStage(s, c, 1, 1) ==> c == SPEAKER
  {
    var was := FirstSetsTrack();
    assert MoveOf(was, PublishStart(0), BOTH) == Move(Start(0), PublishAsk(0, Track(0, 1)));
    ReachableStep(was, Advance(3, BOTH));
    s := Step(was, Advance(3, BOTH));
    AfterSecond(was);
    forall c | OnStage(s, c, 1, 1) ensures c == SPEAKER { assert OnStage(was, c, 1, 1); }
  }

  lemma AfterSecond(was: State)
    requires was.open == {ON_AIR} && was.nextTrack == 1 && 0 in was.sessions
    ensures var s := Moved(was, 3, Move(Start(0), PublishAsk(0, Track(0, 1))));
            && ON_AIR in s.open && !IsCurrent(s, ON_AIR) && s.store == was.store
            && s.goroutines == was.goroutines[3 := PublishAsk(0, Track(0, 1))]
            && s.registered == was.registered && s.rooms == was.rooms && s.users == was.users
  {
  }

  // A run in which the revocation is over, the user barred and no callback of theirs pending, and
  // yet a forwarder of theirs still runs, because a second callback overwrote its stop channel.
  lemma OverwrittenForwarderSurvives()
    ensures exists s, g :: Reachable(s) && g in s.goroutines && s.goroutines[g] == Done && Barred(s, 1, 1)
                           && NoCallbackPending(s, 1, 1) && !Quiet(s, 1, 1)
  {
    var s := SecondOverwrites();
    var z := RevocationRuns(s, 4, 1, 1);
    assert ON_AIR in z.open && OnStage(z, SPEAKER, 1, 1) && z.store[SPEAKER] == 0;
    forall h | h in z.goroutines ensures !AboutToPublish(z.goroutines[h], 0) {
      assert h != 4 ==> h in s.goroutines && z.goroutines[h] == s.goroutines[h];
    }
    assert !QuietAt(z, 0) && NonePending(z, 0);
    forall c | OnStage(z, c, 1, 1) ensures c == SPEAKER { assert OnStage(s, c, 1, 1); }
  }
}
