/** What comes of a goroutine once it is over, whatever interleaved with it: sessions are closed, leavers
 * gone, stops and publications made; and which attachments count as refused.
 */
module SfuInterleavedAnswers {
  import opened Wrappers
  import opened RoomUsers
  import opened SfuInterleaved
  import opened SfuInterleavedLaws
  import opened SfuInterleavedOnce
  import opened SfuInterleavedScope

  /// Closing

  predicate Closes(g: Goroutine) { g.JoinCloseOld? || g.JoinClosePc? || g.CloseStop? || g.ClosePc? }

  // Goroutine g is going to close session id.
  predicate WillClose(g: Goroutine, id: nat) { Closes(g) && g.prior == id }

  ghost predicate SomeoneCloses(s: State, id: nat) {
    exists g :: g in s.goroutines && WillClose(s.goroutines[g], id)
  }

  // A session that is no longer its client's is closed, or about to be.
  ghost predicate ClosedOrWillBe(s: State, id: nat) {
    id in s.sessions && !Live(s, id) ==> s.sessions[id].closed || SomeoneCloses(s, id)
  }

  lemma CloserCloses(s: State, g: Goroutine, choice: Choice)
    requires Known(s, g) && Closes(g)
    ensures var m := MoveOf(s, g, choice);
            (WillClose(m.next, g.prior) || m.update == Close(g.prior)) && !m.update.Forget?
  {
  }

  lemma RemoverCloses(s: State, c: ClientId, choice: Choice)
    ensures var m := MoveOf(s, RemoveEntry(c), choice);
            m.update.Forget? ==> m.update.c in s.store && WillClose(m.next, s.store[m.update.c])
  {
  }

  lemma OthersForgetNothing(s: State, g: Goroutine, choice: Choice)
    requires Known(s, g) && !g.RemoveEntry?
    ensures !MoveOf(s, g, choice).update.Forget?
  {
  }

  lemma MoveCloses(s: State, g: Goroutine, choice: Choice, id: nat)
    requires Known(s, g)
    ensures var m := MoveOf(s, g, choice);
            && (WillClose(g, id) ==> WillClose(m.next, id) || m.update == Close(id))
            && (m.update.Forget? ==> m.update.c in s.store && WillClose(m.next, s.store[m.update.c]))
  {
    if Closes(g) {
      CloserCloses(s, g, choice);
    } else if g.RemoveEntry? {
      RemoverCloses(s, g.c, choice);
    } else {
      OthersForgetNothing(s, g, choice);
    }
  }

  lemma UpdateClosesOnly(s: State, u: Update, id: nat)
    requires UpdateOk(s, u) && id in s.sessions
    ensures var s' := Apply(s, u);
            && id in s'.sessions && s'.sessions[id].client == s.sessions[id].client
            && (s'.sessions[id].closed <==> s.sessions[id].closed || u == Close(id))
            && s'.store == if u.Forget? then s.store - {u.c} else s.store
  {
  }

  lemma AdvanceCloses(s: State, g: nat, m: Move, id: nat)
    requires SessionsOk(s) && g in s.goroutines && MoveOk(s, m) && ClosedOrWillBe(s, id) && id in s.sessions
    requires WillClose(s.goroutines[g], id) ==> WillClose(m.next, id) || m.update == Close(id)
    requires m.update.Forget? ==> m.update.c in s.store && WillClose(m.next, s.store[m.update.c])
    ensures ClosedOrWillBe(Moved(s, g, m), id)
  {
    var s' := Moved(s, g, m);
    UpdateMovesNobody(s, m.update);
    UpdateClosesOnly(s, m.update, id);
    if !Live(s', id) && !s'.sessions[id].closed {
      if Live(s, id) {
        assert g in s'.goroutines && WillClose(s'.goroutines[g], id);
      } else {
        var h :| h in s.goroutines && WillClose(s.goroutines[h], id);
        assert h in s'.goroutines && WillClose(s'.goroutines[h], id);
      }
    }
  }

  lemma BeginningCloses(s: State, a: Action, id: nat)
    requires Sound(s) && Enabled(s, a) && !a.Advance? && ClosedOrWillBe(s, id)
    ensures ClosedOrWillBe(Step(s, a), id)
  {
    var s' := Step(s, a);
    InsertionIsNew(s);
    if id in s'.sessions && !Live(s', id) && !s'.sessions[id].closed {
      if Live(s, id) {
        assert a.BeginJoin? && a.g in s'.goroutines && WillClose(s'.goroutines[a.g], id);
      } else {
        var h :| h in s.goroutines && WillClose(s.goroutines[h], id);
        assert h in s'.goroutines && s'.goroutines[h] == s.goroutines[h];
      }
    }
  }

  lemma StepCloses(s: State, a: Action, id: nat)
    requires Sound(s) && Enabled(s, a) && ClosedOrWillBe(s, id)
    ensures ClosedOrWillBe(Step(s, a), id)
  {
    match a {
      case Advance(g, choice) =>
        assert GoroutineOk(s, s.goroutines[g]);
        MoveIsOk(s, s.goroutines[g], choice);
        MoveCloses(s, s.goroutines[g], choice, id);
        var m := MoveOf(s, s.goroutines[g], choice);
        if id in s.sessions {
          AdvanceCloses(s, g, m, id);
        } else {
          UpdateMakesNoSession(s, m.update);
        }
      case _ => BeginningCloses(s, a, id);
    }
  }

  lemma {:induction false} RunCloses(states: seq<State>, actions: seq<Action>, n: nat, id: nat)
    requires IsRun(states, actions) && n <= |actions|
    ensures ClosedOrWillBe(states[n], id)
  {
    if n == 0 {
    } else {
      RunCloses(states, actions, n - 1, id);
      RunIsSound(states, actions, n - 1);
      assert IsStep(states, actions, n - 1);
      StepCloses(states[n - 1], actions[n - 1], id);
    }
  }

  // Every connection is closed in the end: unless somebody is just about to close it, a session is
  // closed exactly if it is no longer the one its client is found by.
  lemma ClosedIffGone(states: seq<State>, actions: seq<Action>, n: nat, id: nat)
    requires IsRun(states, actions) && n <= |actions| && id in states[n].sessions
    requires forall g :: g in states[n].goroutines ==> !WillClose(states[n].goroutines[g], id)
    ensures states[n].sessions[id].closed <==> !Live(states[n], id)
  {
    RunIsSound(states, actions, n);
    RunCloses(states, actions, n, id);
    assert SessionOk(states[n], id);
  }

  // Nothing is attached to a closed connection.
  lemma AttachesToOpen(s: State, g: Goroutine, choice: Choice)
    requires Known(s, g)
    ensures var u := MoveOf(s, g, choice).update; u.Attach? ==> u.id in s.sessions && !s.sessions[u.id].closed
  {
  }

  lemma UpdateLeavesClosed(s: State, u: Update, id: nat)
    requires UpdateOk(s, u) && id in s.sessions && s.sessions[id].closed && !(u.Attach? && u.id == id)
    ensures var now := Apply(s, u).sessions[id];
            id in Apply(s, u).sessions && now.closed && now.pc == s.sessions[id].pc
  {
  }

  // A closed connection stays closed, and carries for good what it carried when it was closed.
  lemma ClosedForGood(states: seq<State>, actions: seq<Action>, n: nat, id: nat)
    requires IsRun(states, actions) && n < |actions|
    requires id in states[n].sessions && states[n].sessions[id].closed
    ensures id in states[n + 1].sessions && states[n + 1].sessions[id].closed
    ensures states[n + 1].sessions[id].pc == states[n].sessions[id].pc
  {
    var s := states[n];
    RunIsSound(states, actions, n);
    assert IsStep(states, actions, n);
    match actions[n] {
      case Advance(g, choice) =>
        assert GoroutineOk(s, s.goroutines[g]);
        MoveIsOk(s, s.goroutines[g], choice);
        AttachesToOpen(s, s.goroutines[g], choice);
        UpdateLeavesClosed(s, MoveOf(s, s.goroutines[g], choice).update, id);
      case _ => InsertionIsNew(s);
    }
  }

  /// Leaving

  // A departure of c is still to take the session out of the store, or has done so.
  predicate Departs(s: State, g: Goroutine, c: ClientId) {
    if Stops(g) then g.c == c && g.next == Remove
    else if g.RemoveEntry? then g.c == c
    else (g.CloseStop? || g.ClosePc? || g.Done?) && c !in s.store
  }

  lemma StopDeparts(s: State, g: Goroutine, choice: Choice, c: ClientId)
    requires Known(s, g) && Stops(g) && Departs(s, g, c)
    ensures var m := StopMove(s, g, choice); Departs(s, m.next, c) && !m.update.Forget?
  {
  }

  lemma RemovalDeparts(s: State, c: ClientId, choice: Choice)
    ensures var m := StopMove(s, RemoveEntry(c), choice);
            if c in s.store then m.update == Forget(c) && m.next == CloseStop(s.store[c])
            else m == Move(Keep, Done)
  {
  }

  lemma ClosingDeparts(s: State, g: Goroutine, choice: Choice, c: ClientId)
    requires Known(s, g) && (g.CloseStop? || g.ClosePc? || g.Done?) && Departs(s, g, c)
    ensures var m := StopMove(s, g, choice); Departs(s, m.next, c) && !m.update.Forget?
  {
  }

  lemma StoreShrinks(s: State, u: Update)
    requires UpdateOk(s, u)
    ensures Apply(s, u).store == if u.Forget? then s.store - {u.c} else s.store
  {
  }

  lemma OwnMoveDeparts(s: State, g: nat, choice: Choice, c: ClientId)
    requires Sound(s) && g in s.goroutines && Departs(s, s.goroutines[g], c)
    ensures Departs(Step(s, Advance(g, choice)), MoveOf(s, s.goroutines[g], choice).next, c)
  {
    var where := s.goroutines[g];
    assert GoroutineOk(s, where);
    MoveIsOk(s, where, choice);
    StoreShrinks(s, MoveOf(s, where, choice).update);
    if Stops(where) {
      StopDeparts(s, where, choice, c);
    } else if where.RemoveEntry? {
      RemovalDeparts(s, c, choice);
    } else {
      ClosingDeparts(s, where, choice, c);
    }
  }

  lemma StepDeparts(s: State, a: Action, g: nat, c: ClientId)
    requires Sound(s) && OnceOk(s) && Enabled(s, a) && g in s.goroutines && Departs(s, s.goroutines[g], c)
    requires !(a.BeginJoin? && a.c == c)
    ensures g in Step(s, a).goroutines && Departs(Step(s, a), Step(s, a).goroutines[g], c)
  {
    if a.Advance? && a.g == g {
      assert GoroutineOk(s, s.goroutines[g]);
      AdvanceMovesOne(s, g, a.choice);
      OwnMoveDeparts(s, g, a.choice, c);
    } else {
      StaysPut(s, a, g);
      if a.Advance? {
        var m := Advanced(s, a.g, a.choice);
        StoreShrinks(s, m.update);
      }
    }
  }

  lemma {:induction false} RunDeparts(states: seq<State>, actions: seq<Action>, b: nat, n: nat)
    requires IsRun(states, actions) && b < n <= |actions| && actions[b].BeginLeave?
    requires forall i :: b < i < n ==> !(actions[i].BeginJoin? && actions[i].c == actions[b].c)
    ensures actions[b].g in states[n].goroutines
    ensures Departs(states[n], states[n].goroutines[actions[b].g], actions[b].c)
  {
    assert IsStep(states, actions, n - 1);
    if n == b + 1 {
    } else {
      RunDeparts(states, actions, b, n - 1);
      RunKeepsOnce(states, actions, n - 1);
      StepDeparts(states[n - 1], actions[n - 1], actions[b].g, actions[b].c);
    }
  }

  // A client that has left is no longer found, unless it has joined anew since.
  lemma LeaverIsGone(states: seq<State>, actions: seq<Action>, b: nat, n: nat)
    requires IsRun(states, actions) && b < n <= |actions| && actions[b].BeginLeave?
    requires forall i :: b < i < n ==> !(actions[i].BeginJoin? && actions[i].c == actions[b].c)
    requires actions[b].g in states[n].goroutines && states[n].goroutines[actions[b].g].Done?
    ensures actions[b].c !in states[n].store
  {
    RunDeparts(states, actions, b, n);
  }

  /// What a goroutine gets done

  // Where goroutine g stands.
  function WhereIs(s: State, g: nat): Goroutine { if g in s.goroutines then s.goroutines[g] else Done }

  // A stop of client c that has not come to the session yet.
  predicate AwaitsStop(g: Goroutine, c: ClientId) { (g.StopGet? || g.StopTake?) && g.c == c }

  // A callback of session p that has read its row and not yet set its track.
  predicate AwaitsStart(g: Goroutine, p: nat) { g == PublishStart(p) || (Stops(g) && g.next == Republish(p)) }

  // The step finds c without a session, or silences a session of c.
  ghost predicate Stopped(states: seq<State>, i: nat, c: ClientId)
    requires i + 1 < |states|
  {
    || c !in states[i].store
    || exists id :: id in states[i].sessions && states[i].sessions[id].client == c && IsSilent(states[i + 1], id)
  }

  predicate IsSilent(s: State, id: nat) {
    id in s.sessions && s.sessions[id].localTrack.None? && s.sessions[id].senders == map[]
  }

  // The step sets a new track for session p.
  ghost predicate Started(states: seq<State>, i: nat, p: nat)
    requires i + 1 < |states|
  {
    p in states[i + 1].sessions && states[i + 1].sessions[p].localTrack == Some(Track(p, states[i].nextTrack))
  }

  lemma StopGoesOn(s: State, g: Goroutine, choice: Choice, c: ClientId)
    requires Known(s, g) && AwaitsStop(g, c)
    ensures var m := StopMove(s, g, choice);
            || AwaitsStop(m.next, c) || c !in s.store
            || (g.StopTake? && m.update == Silence(g.target))
  {
  }

  lemma StartGoesOn(s: State, g: Goroutine, choice: Choice, p: nat)
    requires Known(s, g) && AwaitsStart(g, p)
    ensures AwaitsStart(MoveOf(s, g, choice).next, p) || MoveOf(s, g, choice).update == Start(p)
  {
  }

  lemma SilencingIsSilent(s: State, g: nat, m: Move, id: nat)
    requires MoveOk(s, m) && m.update == Silence(id)
    ensures IsSilent(Moved(s, g, m), id)
  {
  }

  lemma StartingStarts(s: State, g: nat, m: Move, p: nat)
    requires MoveOk(s, m) && m.update == Start(p)
    ensures p in Moved(s, g, m).sessions
    ensures Moved(s, g, m).sessions[p].localTrack == Some(Track(p, s.nextTrack))
  {
  }

  lemma StopStep(states: seq<State>, actions: seq<Action>, b: nat, n: nat, c: ClientId)
    requires IsRun(states, actions) && b < n < |actions| && Begins(actions[b])
    requires actions[b].BeginStop? || actions[b].BeginLeave?
    requires actions[b].c == c && AwaitsStop(WhereIs(states[n], actions[b].g), c)
    ensures AwaitsStop(WhereIs(states[n + 1], actions[b].g), c) || Stopped(states, n, c)
  {
    var s, a, g := states[n], actions[n], actions[b].g;
    RunKeepsOnce(states, actions, n);
    RunAims(states, actions, b, n);
    assert IsStep(states, actions, n);
    if a.Advance? && a.g == g {
      assert GoroutineOk(s, s.goroutines[g]);
      AdvanceMovesOne(s, g, a.choice);
      MoveIsOk(s, s.goroutines[g], a.choice);
      StopGoesOn(s, s.goroutines[g], a.choice, c);
      var m := MoveOf(s, s.goroutines[g], a.choice);
      if m.update.Silence? { SilencingIsSilent(s, g, m, m.update.id); }
    } else {
      StaysPut(s, a, g);
    }
  }

  lemma {:induction false} StopIsMade(states: seq<State>, actions: seq<Action>, b: nat, n: nat)
    requires IsRun(states, actions) && b < n <= |actions| && (actions[b].BeginStop? || actions[b].BeginLeave?)
    ensures AwaitsStop(WhereIs(states[n], actions[b].g), actions[b].c)
            || exists i :: b < i < n && Stopped(states, i, actions[b].c)
  {
    if n == b + 1 {
      assert IsStep(states, actions, b);
    } else {
      StopIsMade(states, actions, b, n - 1);
      if AwaitsStop(WhereIs(states[n - 1], actions[b].g), actions[b].c) {
        StopStep(states, actions, b, n - 1, actions[b].c);
        assert Stopped(states, n - 1, actions[b].c) ==> b < n - 1 < n;
      }
    }
  }

  // A stop or departure that is over has found its client without a session, or has silenced it.
  lemma FinishedStopHasStopped(states: seq<State>, actions: seq<Action>, b: nat, n: nat)
    requires IsRun(states, actions) && b < n <= |actions| && (actions[b].BeginStop? || actions[b].BeginLeave?)
    requires actions[b].g in states[n].goroutines && states[n].goroutines[actions[b].g].Done?
    ensures exists i :: b < i < n && Stopped(states, i, actions[b].c)
  {
    StopIsMade(states, actions, b, n);
  }

  lemma StartStep(states: seq<State>, actions: seq<Action>, n: nat, g: nat, p: nat)
    requires IsRun(states, actions) && n < |actions| && g in states[n].goroutines
    requires AwaitsStart(states[n].goroutines[g], p)
    ensures AwaitsStart(WhereIs(states[n + 1], g), p) || Started(states, n, p)
  {
    var s, a := states[n], actions[n];
    RunKeepsOnce(states, actions, n);
    assert IsStep(states, actions, n);
    if a.Advance? && a.g == g {
      assert GoroutineOk(s, s.goroutines[g]);
      AdvanceMovesOne(s, g, a.choice);
      MoveIsOk(s, s.goroutines[g], a.choice);
      StartGoesOn(s, s.goroutines[g], a.choice, p);
      var m := MoveOf(s, s.goroutines[g], a.choice);
      if m.update == Start(p) { StartingStarts(s, g, m, p); }
    } else {
      StaysPut(s, a, g);
    }
  }

  lemma RowLetsStart(states: seq<State>, actions: seq<Action>, i: nat, p: nat)
    requires IsRun(states, actions) && i < |actions| && actions[i].Advance?
    requires WhereIs(states[i], actions[i].g) == RowRead(p)
    requires p in states[i].sessions && MaySpeak(states[i], states[i].sessions[p].client)
    ensures AwaitsStart(WhereIs(states[i + 1], actions[i].g), p)
  {
    RunIsSound(states, actions, i);
    assert IsStep(states, actions, i);
    assert GoroutineOk(states[i], RowRead(p));
    AdvanceMovesOne(states[i], actions[i].g, actions[i].choice);
  }

  lemma {:induction false} StartIsMade(states: seq<State>, actions: seq<Action>, i: nat, n: nat, p: nat)
    requires IsRun(states, actions) && i < n <= |actions| && actions[i].Advance?
    requires WhereIs(states[i], actions[i].g) == RowRead(p)
    requires p in states[i].sessions && MaySpeak(states[i], states[i].sessions[p].client)
    ensures AwaitsStart(WhereIs(states[n], actions[i].g), p) || exists j :: i < j < n && Started(states, j, p)
  {
    if n == i + 1 {
      RowLetsStart(states, actions, i, p);
    } else {
      StartIsMade(states, actions, i, n - 1, p);
      if AwaitsStart(WhereIs(states[n - 1], actions[i].g), p) {
        StartStep(states, actions, n - 1, actions[i].g, p);
        assert Started(states, n - 1, p) ==> i < n - 1 < n;
      }
    }
  }

  // A callback whose row let its client speak has, once over, set a track for the session.
  lemma FinishedCallbackHasPublished(states: seq<State>, actions: seq<Action>, i: nat, n: nat, p: nat)
    requires IsRun(states, actions) && i < n <= |actions| && actions[i].Advance?
    requires actions[i].g in states[i].goroutines && states[i].goroutines[actions[i].g] == RowRead(p)
    requires var s := states[i];
             p in s.sessions && var c := s.sessions[p].client;
             c in s.rooms && c in s.users && (s.rooms[c], s.users[c]) in s.speakers
    requires actions[i].g in states[n].goroutines && states[n].goroutines[actions[i].g].Done?
    ensures exists j :: i < j < n && Started(states, j, p)
  {
    StartIsMade(states, actions, i, n, p);
  }

  /// What the surroundings have done, told by the actions alone

  // c has registered among the first n actions and not been unregistered since.
  predicate IsConnected(actions: seq<Action>, n: nat, c: ClientId)
    requires n <= |actions|
  {
    n > 0 &&
    match actions[n - 1]
    case Register(d, _, _) => d == c || IsConnected(actions, n - 1, c)
    case Unregister(d) => d != c && IsConnected(actions, n - 1, c)
    case _ => IsConnected(actions, n - 1, c)
  }

  // The user was let speak and has not been barred since, by a change of role or a revocation.
  predicate IsLetSpeak(actions: seq<Action>, n: nat, room: RoomId, user: UserId)
    requires n <= |actions|
  {
    n > 0 &&
    match actions[n - 1]
    case Grant(r, u) => (r == room && u == user) || IsLetSpeak(actions, n - 1, room, user)
    case Withdraw(r, u) => !(r == room && u == user) && IsLetSpeak(actions, n - 1, room, user)
    case BeginRevoke(_, r, u) => !(r == room && u == user) && IsLetSpeak(actions, n - 1, room, user)
    case _ => IsLetSpeak(actions, n - 1, room, user)
  }

  lemma StepTellsPeople(s: State, a: Action)
    requires Sound(s) && OnceOk(s) && Enabled(s, a) && a.Advance?
    ensures Step(s, a).registered == s.registered && Step(s, a).speakers == s.speakers
  {
    var m := Advanced(s, a.g, a.choice);
    UpdateKeepsPeople(s, m.update);
  }

  // The hub lists those who are connected.
  lemma {:induction false} ConnectedAreListed(states: seq<State>, actions: seq<Action>, n: nat, c: ClientId)
    requires IsRun(states, actions) && n <= |actions|
    ensures c in states[n].registered <==> IsConnected(actions, n, c)
  {
    if n == 0 {
    } else {
      ConnectedAreListed(states, actions, n - 1, c);
      RunKeepsOnce(states, actions, n - 1);
      assert IsStep(states, actions, n - 1);
      if actions[n - 1].Advance? { StepTellsPeople(states[n - 1], actions[n - 1]); }
    }
  }

  // Those may speak who were let.
  lemma {:induction false} SpeakersWereLet(states: seq<State>, actions: seq<Action>, n: nat, room: RoomId, user: UserId)
    requires IsRun(states, actions) && n <= |actions|
    ensures (room, user) in states[n].speakers <==> IsLetSpeak(actions, n, room, user)
  {
    if n == 0 {
    } else {
      SpeakersWereLet(states, actions, n - 1, room, user);
      RunKeepsOnce(states, actions, n - 1);
      assert IsStep(states, actions, n - 1);
      if actions[n - 1].Advance? { StepTellsPeople(states[n - 1], actions[n - 1]); }
    }
  }

  /// Refusals

  // A goroutine that was about to attach t to session xs is refused by the library.
  ghost predicate Refuses(s: State, a: Action, t: Track, xs: nat) {
    && a.Advance? && a.g in s.goroutines && a.choice.fails
    && (HoldsAt(s.goroutines[a.g], xs, t, ByJoin) || HoldsAt(s.goroutines[a.g], xs, t, ByPublication))
  }

  lemma JoinRefuses(s: State, g: Goroutine, choice: Choice, t: Track, xs: nat)
    requires Known(s, g) && Joins(g)
    ensures JoinMove(s, g, choice).update == Refuse(xs, t) <==> choice.fails && HoldsAt(g, xs, t, ByJoin)
  {
  }

  lemma PublishRefuses(s: State, g: Goroutine, choice: Choice, t: Track, xs: nat)
    requires Known(s, g) && Publishes(g)
    ensures PublishMove(s, g, choice).update == Refuse(xs, t) <==> choice.fails && HoldsAt(g, xs, t, ByPublication)
  {
  }

  lemma StopRefusesNothing(s: State, g: Goroutine, choice: Choice)
    requires Known(s, g) && !Joins(g) && !Publishes(g)
    ensures !StopMove(s, g, choice).update.Refuse?
  {
  }

  lemma UpdateRefuses(s: State, u: Update, t: Track, xs: nat)
    requires UpdateOk(s, u)
    ensures (t, xs) in Apply(s, u).refused <==> (t, xs) in s.refused || u == Refuse(xs, t)
  {
  }

  lemma StepRefuses(s: State, a: Action, t: Track, xs: nat)
    requires Sound(s) && Enabled(s, a)
    ensures (t, xs) in Step(s, a).refused <==> (t, xs) in s.refused || Refuses(s, a, t, xs)
  {
    if a.Advance? {
      var g := s.goroutines[a.g];
      assert GoroutineOk(s, g);
      MoveIsOk(s, g, a.choice);
      UpdateRefuses(s, MoveOf(s, g, a.choice).update, t, xs);
      if Joins(g) {
        JoinRefuses(s, g, a.choice, t, xs);
      } else if Publishes(g) {
        PublishRefuses(s, g, a.choice, t, xs);
      } else {
        StopRefusesNothing(s, g, a.choice);
      }
    }
  }

  // An attachment counts as refused exactly if the library refused it at some step.
  lemma {:induction false} RefusedIff(states: seq<State>, actions: seq<Action>, n: nat, t: Track, xs: nat)
    requires IsRun(states, actions) && n <= |actions|
    ensures (t, xs) in states[n].refused <==> exists i :: 0 <= i < n && Refuses(states[i], actions[i], t, xs)
  {
    if n == 0 {
    } else {
      RefusedIff(states, actions, n - 1, t, xs);
      RunIsSound(states, actions, n - 1);
      assert IsStep(states, actions, n - 1);
      StepRefuses(states[n - 1], actions[n - 1], t, xs);
      if Refuses(states[n - 1], actions[n - 1], t, xs) { assert 0 <= n - 1 < n; }
      if (t, xs) in states[n - 1].refused {
        var i :| 0 <= i < n - 1 && Refuses(states[i], actions[i], t, xs);
        assert 0 <= i < n;
      }
    }
  }
}
