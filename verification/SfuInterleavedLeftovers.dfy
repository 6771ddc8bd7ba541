/** What becomes of a sender: from the moment it is attached it is on its way to a record, on
 * record, in the hands of a stop, or lost; and a track stays behind on a live connection exactly if
 * its sender was recorded too late to be stopped, or was lost.
 */
module SfuInterleavedLeftovers {
  import opened Wrappers
  import opened RoomUsers
  import opened SfuInterleaved
  import opened SfuInterleavedLaws
  import opened SfuInterleavedOnce
  import SfuInterleavedSilence

  /// Senders are kept under the client they were made for

  // Sender a was made by a session of client c.
  predicate MadeFor(s: State, c: ClientId, a: Sender) {
    a.session in s.sessions && s.sessions[a.session].client == c && a.slot < s.sessions[a.session].nextSlot
  }

  predicate AllMadeFor(s: State, senders: map<ClientId, Sender>) {
    forall c :: c in senders ==> MadeFor(s, c, senders[c])
  }

  // A goroutine about to detach has found the session that the sender is on, if that is still live.
  predicate FoundFor(s: State, subscriber: nat, a: Sender) {
    a.session in s.sessions && (Live(s, a.session) ==> subscriber == a.session)
  }

  predicate HolderOk(s: State, g: Goroutine) {
    match g
    case JoinRecord(x, _, a, _) => x in s.sessions && a.session == x && a.slot < s.sessions[x].nextSlot
    case PublishRecord(_, _, who, a, _) => MadeFor(s, who, a)
    case StopNext(_, rest, _) => AllMadeFor(s, rest)
    case StopDetach(_, subscriber, a, rest, _) =>
      AllMadeFor(s, rest) && FoundFor(s, subscriber, a) && a.slot < s.sessions[a.session].nextSlot
    case _ => true
  }

  ghost predicate HoldersOk(s: State) {
    && (forall g :: g in s.goroutines ==> HolderOk(s, s.goroutines[g]))
    && (forall id :: id in s.sessions ==> AllMadeFor(s, s.sessions[id].senders))
    && (forall id, a: Sender :: id in s.sessions && a in s.sessions[id].pc ==> a.session == id)
  }

  ghost predicate Grows(s: State, s': State) {
    Evolves(s, s') && forall id :: id in s.sessions ==> s.sessions[id].nextSlot <= s'.sessions[id].nextSlot
  }

  lemma MadeForGood(s: State, s': State, c: ClientId, a: Sender)
    requires Grows(s, s') && MadeFor(s, c, a)
    ensures MadeFor(s', c, a)
  {
    assert SessionEvolves(s, s', a.session);
  }

  lemma AllMadeForGood(s: State, s': State, senders: map<ClientId, Sender>)
    requires Grows(s, s') && AllMadeFor(s, senders)
    ensures AllMadeFor(s', senders)
  {
    forall c | c in senders ensures MadeFor(s', c, senders[c]) { MadeForGood(s, s', c, senders[c]); }
  }

  lemma HolderStaysOk(s: State, s': State, g: Goroutine)
    requires Grows(s, s') && HolderOk(s, g)
    ensures HolderOk(s', g)
  {
    match g {
      case PublishRecord(_, _, who, a, _) => MadeForGood(s, s', who, a);
      case StopNext(_, rest, _) => AllMadeForGood(s, s', rest);
      case StopDetach(_, _, a, rest, _) =>
        AllMadeForGood(s, s', rest);
        assert SessionEvolves(s, s', a.session);
      case _ =>
    }
  }

  lemma UpdateGrows(s: State, u: Update)
    requires UpdateOk(s, u)
    ensures Grows(s, Apply(s, u))
  {
    UpdateEvolves(s, u);
  }

  // What a move puts into its goroutine's hands.
  lemma JoinHolds(s: State, g: Goroutine, choice: Choice)
    requires SessionsOk(s) && GoroutineOk(s, g) && Joins(g)
    ensures HolderOk(Apply(s, JoinMove(s, g, choice).update), JoinMove(s, g, choice).next)
  {
    JoinMoveIsOk(s, g, choice);
  }

  lemma PublishHolds(s: State, g: Goroutine, choice: Choice)
    requires SessionsOk(s) && GoroutineOk(s, g) && Publishes(g) && Placed(s, g)
    ensures HolderOk(Apply(s, PublishMove(s, g, choice).update), PublishMove(s, g, choice).next)
  {
  }

  lemma PickHolds(s: State, g: Goroutine, choice: Choice)
    requires SessionsOk(s) && Known(s, g) && g.StopNext? && HolderOk(s, g)
    ensures HolderOk(s, StopMove(s, g, choice).next)
  {
    assert choice.pick in g.rest ==> MadeFor(s, choice.pick, g.rest[choice.pick]);
  }

  lemma StopHolds(s: State, g: Goroutine, choice: Choice)
    requires Known(s, g) && HoldersOk(s) && HolderOk(s, g) && !Joins(g) && !Publishes(g) && !g.StopNext?
    ensures HolderOk(s, StopMove(s, g, choice).next) || g.RemoveEntry?
  {
  }

  lemma MoveHolds(s: State, g: Goroutine, choice: Choice)
    requires SessionsOk(s) && GoroutineOk(s, g) && HoldersOk(s) && HolderOk(s, g) && Placed(s, g)
    requires MoveOk(s, MoveOf(s, g, choice))
    ensures HolderOk(Apply(s, MoveOf(s, g, choice).update), MoveOf(s, g, choice).next)
  {
    if Joins(g) {
      JoinHolds(s, g, choice);
    } else if Publishes(g) {
      PublishHolds(s, g, choice);
    } else if !g.RemoveEntry? {
      if g.StopNext? { PickHolds(s, g, choice); } else { StopHolds(s, g, choice); }
      UpdateGrows(s, MoveOf(s, g, choice).update);
      HolderStaysOk(s, Apply(s, MoveOf(s, g, choice).update), MoveOf(s, g, choice).next);
    }
  }

  // Senders are recorded under the client they were made for.
  lemma RecordsMade(s: State, g: Goroutine, choice: Choice)
    requires Known(s, g) && HolderOk(s, g)
    ensures var u := MoveOf(s, g, choice).update; u.Record? ==> MadeFor(s, u.c, u.sender)
  {
  }

  // The records after an update.
  lemma UpdateKeepsRecords(s: State, u: Update, id: nat)
    requires HoldersOk(s) && UpdateOk(s, u) && (u.Record? ==> MadeFor(s, u.c, u.sender)) && id in Apply(s, u).sessions
    ensures AllMadeFor(Apply(s, u), Apply(s, u).sessions[id].senders)
  {
    var s' := Apply(s, u);
    UpdateGrows(s, u);
    AllMadeForGood(s, s', s.sessions[id].senders);
    if u.Record? && u.id == id { MadeForGood(s, s', u.c, u.sender); }
  }

  lemma UpdateKeepsConnections(s: State, u: Update, id: nat, a: Sender)
    requires HoldersOk(s) && UpdateOk(s, u) && id in Apply(s, u).sessions && a in Apply(s, u).sessions[id].pc
    ensures a.session == id
  {
    SendersAfter(s, u, id, a);
  }

  lemma MovedGrows(s: State, g: nat, m: Move)
    requires MoveOk(s, m)
    ensures Grows(s, Moved(s, g, m)) && Grows(Apply(s, m.update), Moved(s, g, m))
  {
    var mid, s' := Apply(s, m.update), Moved(s, g, m);
    UpdateGrows(s, m.update);
    MovedEvolves(s, g, m);
    assert Evolves(mid, s') by { forall id | id in mid.sessions ensures SessionEvolves(mid, s', id) {} }
  }

  lemma MoveKeepsHolders(s: State, g: nat, m: Move)
    requires HoldersOk(s) && g in s.goroutines && MoveOk(s, m) && HolderOk(Apply(s, m.update), m.next)
    requires m.update.Record? ==> MadeFor(s, m.update.c, m.update.sender)
    ensures HoldersOk(Moved(s, g, m))
  {
    var mid, s' := Apply(s, m.update), Moved(s, g, m);
    MovedGrows(s, g, m);
    UpdateMovesNobody(s, m.update);
    HolderStaysOk(mid, s', m.next);
    forall h | h in s'.goroutines ensures HolderOk(s', s'.goroutines[h]) {
      if h != g { HolderStaysOk(s, s', s.goroutines[h]); }
    }
    forall id | id in s'.sessions ensures AllMadeFor(s', s'.sessions[id].senders) {
      UpdateKeepsRecords(s, m.update, id);
      AllMadeForGood(mid, s', mid.sessions[id].senders);
    }
    forall id, a: Sender | id in s'.sessions && a in s'.sessions[id].pc ensures a.session == id {
      UpdateKeepsConnections(s, m.update, id, a);
    }
  }

  // A goroutine that has just begun keeps no senders.
  predicate HasJustBegun(g: Goroutine) { g.JoinCloseOld? || g.JoinAsk? || g.RowRead? || g.StopGet? || g.RevokeAsk? }

  // A step that begins a goroutine, changes rows or registers.
  ghost predicate Untouched(s: State, s': State) {
    && Grows(s, s')
    && (forall id :: id in s.sessions ==> s'.sessions[id] == s.sessions[id])
    && (forall id :: id in s'.sessions && id !in s.sessions ==> IsNew(s'.sessions[id]))
    && (forall h :: h in s.goroutines ==> h in s'.goroutines && s'.goroutines[h] == s.goroutines[h])
    && (forall h :: h in s'.goroutines && h !in s.goroutines ==> HasJustBegun(s'.goroutines[h]))
  }

  predicate IsNew(session: Session) { session.senders == map[] && session.pc == {} && session.nextSlot == 0 }

  lemma InsertionTouchesNothing(s: State, g: nat, c: ClientId)
    requires Sound(s) && g !in s.goroutines && Evolves(s, At(Inserted(s, c), g, JoinBegun(s, c)))
    ensures Untouched(s, At(Inserted(s, c), g, JoinBegun(s, c)))
  {
    InsertionIsNew(s);
  }

  lemma OtherBeginningsTouchNothing(s: State, a: Action)
    requires Enabled(s, a) && !a.Advance? && !a.BeginJoin? && Evolves(s, Step(s, a))
    ensures Untouched(s, Step(s, a))
  {
  }

  lemma BeginningsTouchNothing(s: State, a: Action)
    requires Sound(s) && OnceOk(s) && Enabled(s, a) && !a.Advance?
    ensures Untouched(s, Step(s, a))
  {
    StepEvolves(s, a);
    match a {
      case BeginJoin(g, c) => InsertionTouchesNothing(s, g, c);
      case _ => OtherBeginningsTouchNothing(s, a);
    }
  }

  lemma UntouchedHolders(s: State, s': State)
    requires HoldersOk(s) && Untouched(s, s')
    ensures HoldersOk(s')
  {
    forall h | h in s'.goroutines ensures HolderOk(s', s'.goroutines[h]) {
      if h in s.goroutines { HolderStaysOk(s, s', s.goroutines[h]); }
    }
    forall id | id in s'.sessions ensures AllMadeFor(s', s'.sessions[id].senders) {
      if id in s.sessions { AllMadeForGood(s, s', s.sessions[id].senders); }
    }
  }

  lemma AdvanceKeepsHolders(s: State, g: nat, choice: Choice)
    requires Sound(s) && OnceOk(s) && HoldersOk(s) && Enabled(s, Advance(g, choice))
    ensures HoldersOk(Step(s, Advance(g, choice)))
  {
    var where := s.goroutines[g];
    assert GoroutineOk(s, where) && Placed(s, where) && HolderOk(s, where);
    MoveIsOk(s, where, choice);
    MoveHolds(s, where, choice);
    RecordsMade(s, where, choice);
    MoveKeepsHolders(s, g, MoveOf(s, where, choice));
  }

  lemma StepKeepsHolders(s: State, a: Action)
    requires Sound(s) && OnceOk(s) && HoldersOk(s) && Enabled(s, a)
    ensures HoldersOk(Step(s, a))
  {
    match a {
      case Advance(g, choice) => AdvanceKeepsHolders(s, g, choice);
      case _ =>
        BeginningsTouchNothing(s, a);
        UntouchedHolders(s, Step(s, a));
    }
  }

  lemma {:induction false} RunKeepsHolders(states: seq<State>, actions: seq<Action>, n: nat)
    requires IsRun(states, actions) && n <= |actions|
    ensures Sound(states[n]) && OnceOk(states[n]) && HoldersOk(states[n])
  {
    RunKeepsOnce(states, actions, n);
    if n == 0 {
    } else {
      RunKeepsHolders(states, actions, n - 1);
      assert IsStep(states, actions, n - 1);
      StepKeepsHolders(states[n - 1], actions[n - 1]);
    }
  }

  /// Where a sender is

  // Goroutine g has sender a, made for client x, in its hands.
  predicate Keeps(g: Goroutine, x: ClientId, a: Sender) {
    match g
    case JoinRecord(_, _, b, _) => b == a
    case PublishRecord(_, _, _, b, _) => b == a
    case StopNext(_, rest, _) => Names(rest, x, a)
    case StopDetach(_, _, b, rest, _) => b == a || Names(rest, x, a)
    case _ => false
  }

  predicate Names(senders: map<ClientId, Sender>, x: ClientId, a: Sender) { x in senders && senders[x] == a }

  // A stop does not come to the same sender twice.
  predicate ComesOnce(g: Goroutine, x: ClientId, a: Sender) { g.StopDetach? && g.sender == a ==> !Names(g.rest, x, a) }

  ghost predicate InHands(s: State, x: ClientId, a: Sender) {
    exists g :: g in s.goroutines && Keeps(s.goroutines[g], x, a)
  }

  // The session of its track has it on record.
  predicate OnRecord(s: State, x: ClientId, a: Sender) {
    a.track.session in s.sessions && Names(s.sessions[a.track.session].senders, x, a)
  }

  // At most one goroutine has it, and comes to it once.
  ghost predicate InOneHand(s: State, x: ClientId, a: Sender) {
    && (forall g, h ::
          (g in s.goroutines && h in s.goroutines && Keeps(s.goroutines[g], x, a) && Keeps(s.goroutines[h], x, a))
          ==> g == h)
    && (forall g :: g in s.goroutines ==> ComesOnce(s.goroutines[g], x, a))
  }

  // It is attached exactly if it is in somebody's hands, on record, or lost, and only one of these.
  predicate OneOf(attached: bool, kept: bool, recorded: bool, lost: bool) {
    && (attached <==> kept || recorded || lost)
    && !(kept && recorded) && !(kept && lost) && !(recorded && lost)
  }

  predicate Attached(s: State, a: Sender) { a.session in s.sessions && a in s.sessions[a.session].pc }

  // What is known of sender a while its session is live.
  ghost predicate Fate(s: State, a: Sender, lost: bool) {
    if a.session !in s.sessions then !lost
    else Live(s, a.session) ==> FateFor(s, s.sessions[a.session].client, a, lost)
  }

  ghost predicate FateFor(s: State, x: ClientId, a: Sender, lost: bool) {
    InOneHand(s, x, a) && OneOf(Attached(s, a), InHands(s, x, a), OnRecord(s, x, a), lost)
  }

  /// How a sender is lost

  // A goroutine of client x records another sender with the session of a's track.
  predicate Replaces(s: State, g: Goroutine, x: ClientId, a: Sender) {
    match g
    case JoinRecord(j, peer, _, _) => peer == a.track.session && j in s.sessions && s.sessions[j].client == x
    case PublishRecord(p, _, who, _, _) => p == a.track.session && who == x
    case _ => false
  }

  // A session that gives way or is removed drops its records.
  predicate Drops(g: Goroutine, a: Sender) { (g.JoinCloseOld? || g.CloseStop?) && g.prior == a.track.session }

  // Its record is overwritten or dropped, or detaching it is refused.
  predicate LosesIt(s: State, g: Goroutine, fails: bool, x: ClientId, a: Sender) {
    || (OnRecord(s, x, a) && (Replaces(s, g, x, a) || Drops(g, a)))
    || (g.StopDetach? && g.sender == a && fails)
  }

  predicate Loses(s: State, action: Action, a: Sender) {
    && action.Advance? && action.g in s.goroutines && a.session in s.sessions
    && LosesIt(s, s.goroutines[action.g], action.choice.fails, s.sessions[a.session].client, a)
  }

  /// A move hands senders on

  // What the goroutine has in its hands before and after: `m` attaches it, records it, takes it from
  // the record, detaches it, lets go of it, or leaves it be.
  ghost predicate HandsOn(s: State, g: Goroutine, m: Move, fails: bool, x: ClientId, a: Sender) {
    && ComesOnce(m.next, x, a)
    && match m.update
       case Attach(id, t, side) =>
         && id in s.sessions && !Keeps(g, x, a) && (Keeps(m.next, x, a) <==> a == NextSender(s, id, t, side))
         && !g.StopDetach? && !Replaces(s, g, x, a) && !Drops(g, a)
       case Record(id, c, b) =>
         && (Keeps(g, x, a) <==> a == b) && !Keeps(m.next, x, a)
         && (a == b ==> c == x && id == a.track.session)
         && (a != b ==> (Replaces(s, g, x, a) <==> id == a.track.session && c == x))
         && !g.StopDetach? && !Drops(g, a)
       case Silence(id) =>
         && !Keeps(g, x, a) && id in s.sessions && !g.StopDetach? && !Replaces(s, g, x, a)
         && (Drops(g, a) ==> id == a.track.session && !Keeps(m.next, x, a))
         && (!Drops(g, a) ==> (Keeps(m.next, x, a) <==> id == a.track.session && OnRecord(s, x, a)))
       case Detach(id, b) =>
         && (Keeps(g, x, a) <==> Keeps(m.next, x, a) || a == b) && (a == b ==> !Keeps(m.next, x, a) && id == a.session)
         && !fails && !Replaces(s, g, x, a) && !Drops(g, a)
       case _ =>
         && (var lets := g.StopDetach? && g.sender == a && fails;
             (Keeps(g, x, a) <==> Keeps(m.next, x, a) || lets) && !(lets && Keeps(m.next, x, a)))
         && !Replaces(s, g, x, a) && !Drops(g, a)
  }

  // Sender a may be followed: its session is live, and x its client.
  predicate Followed(s: State, x: ClientId, a: Sender) {
    a.session in s.sessions && Live(s, a.session) && s.sessions[a.session].client == x
  }

  // Goroutines that have no senders in their hands, nor are about to make, drop or take any.
  predicate EmptyHanded(g: Goroutine) { !g.JoinRecord? && !g.PublishRecord? && !g.StopNext? && !g.StopDetach? }

  predicate Plain(g: Goroutine) {
    EmptyHanded(g) && !g.JoinCloseOld? && !g.JoinAttach? && !g.PublishAttach? && !g.StopTake? && !g.CloseStop?
  }

  lemma PlainMove(s: State, g: Goroutine, choice: Choice)
    requires Known(s, g) && Plain(g)
    ensures var m := MoveOf(s, g, choice); EmptyHanded(m.next) && Harmless(m.update)
  {
  }

  // Updates that make, record, drop or remove no sender.
  predicate Harmless(u: Update) { !u.Attach? && !u.Record? && !u.Silence? && !u.Detach? }

  lemma PlainHandsOn(s: State, g: Goroutine, m: Move, fails: bool, x: ClientId, a: Sender)
    requires Plain(g) && EmptyHanded(m.next) && Harmless(m.update)
    ensures HandsOn(s, g, m, fails, x, a)
  {
  }

  lemma AttachHandsOn(s: State, g: Goroutine, choice: Choice, x: ClientId, a: Sender)
    requires Known(s, g) && (g.JoinAttach? || g.PublishAttach?)
    ensures HandsOn(s, g, MoveOf(s, g, choice), choice.fails, x, a)
  {
  }

  lemma RecordHandsOn(s: State, g: Goroutine, choice: Choice, x: ClientId, a: Sender)
    requires GoroutineOk(s, g) && HolderOk(s, g) && (g.JoinRecord? || g.PublishRecord?) && Followed(s, x, a)
    ensures HandsOn(s, g, MoveOf(s, g, choice), choice.fails, x, a)
  {
  }

  lemma DropHandsOn(s: State, g: Goroutine, choice: Choice, x: ClientId, a: Sender)
    requires Known(s, g) && (g.JoinCloseOld? || g.CloseStop?)
    ensures HandsOn(s, g, MoveOf(s, g, choice), choice.fails, x, a)
  {
  }

  lemma TakeHandsOn(s: State, g: Goroutine, choice: Choice, x: ClientId, a: Sender)
    requires Known(s, g) && SessionsOk(s) && g.StopTake?
    ensures HandsOn(s, g, MoveOf(s, g, choice), choice.fails, x, a)
  {
    assert SessionOk(s, g.target);
  }

  lemma PickHandsOn(s: State, g: Goroutine, choice: Choice, x: ClientId, a: Sender)
    requires Known(s, g) && g.StopNext? && HolderOk(s, g) && Choosable(s, g, choice) && Followed(s, x, a)
    ensures HandsOn(s, g, MoveOf(s, g, choice), choice.fails, x, a)
  {
  }

  lemma DetachHandsOn(s: State, g: Goroutine, choice: Choice, x: ClientId, a: Sender)
    requires Known(s, g) && g.StopDetach? && HolderOk(s, g) && ComesOnce(g, x, a) && Followed(s, x, a)
    ensures HandsOn(s, g, MoveOf(s, g, choice), choice.fails, x, a)
  {
  }

  lemma MoveHandsOn(s: State, g: Goroutine, choice: Choice, x: ClientId, a: Sender)
    requires SessionsOk(s) && GoroutineOk(s, g) && HolderOk(s, g) && Choosable(s, g, choice)
    requires ComesOnce(g, x, a) && Followed(s, x, a)
    ensures HandsOn(s, g, MoveOf(s, g, choice), choice.fails, x, a)
  {
    if Plain(g) {
      PlainMove(s, g, choice);
      PlainHandsOn(s, g, MoveOf(s, g, choice), choice.fails, x, a);
    } else if g.JoinAttach? || g.PublishAttach? {
      AttachHandsOn(s, g, choice, x, a);
    } else if g.JoinRecord? || g.PublishRecord? {
      RecordHandsOn(s, g, choice, x, a);
    } else if g.JoinCloseOld? || g.CloseStop? {
      DropHandsOn(s, g, choice, x, a);
    } else if g.StopTake? {
      TakeHandsOn(s, g, choice, x, a);
    } else if g.StopNext? {
      PickHandsOn(s, g, choice, x, a);
    } else {
      DetachHandsOn(s, g, choice, x, a);
    }
  }

  /// The state after a move

  ghost predicate InOtherHands(s: State, g: nat, x: ClientId, a: Sender) {
    exists h :: h in s.goroutines && h != g && Keeps(s.goroutines[h], x, a)
  }

  lemma HandsSplit(s: State, g: nat, x: ClientId, a: Sender)
    requires g in s.goroutines
    ensures InHands(s, x, a) <==> Keeps(s.goroutines[g], x, a) || InOtherHands(s, g, x, a)
    ensures InOneHand(s, x, a) ==> !(Keeps(s.goroutines[g], x, a) && InOtherHands(s, g, x, a))
  {
  }

  lemma OthersHoldOn(s: State, s': State, g: nat, x: ClientId, a: Sender)
    requires g in s.goroutines && g in s'.goroutines && s'.goroutines == s.goroutines[g := s'.goroutines[g]]
    ensures InOtherHands(s', g, x, a) <==> InOtherHands(s, g, x, a)
  {
    if InOtherHands(s, g, x, a) {
      var h :| h in s.goroutines && h != g && Keeps(s.goroutines[h], x, a);
      assert h in s'.goroutines && s'.goroutines[h] == s.goroutines[h];
    }
    if InOtherHands(s', g, x, a) {
      var h :| h in s'.goroutines && h != g && Keeps(s'.goroutines[h], x, a);
      assert h in s.goroutines && s'.goroutines[h] == s.goroutines[h];
    }
  }

  lemma HandsAfter(s: State, s': State, g: nat, next: Goroutine, x: ClientId, a: Sender)
    requires g in s.goroutines && s'.goroutines == s.goroutines[g := next] && InOneHand(s, x, a)
    requires ComesOnce(next, x, a) && !(Keeps(next, x, a) && InOtherHands(s, g, x, a))
    ensures InOneHand(s', x, a)
    ensures InHands(s', x, a) <==> Keeps(next, x, a) || InOtherHands(s, g, x, a)
  {
    forall h | h in s'.goroutines ensures ComesOnce(s'.goroutines[h], x, a) {
      assert h != g ==> s'.goroutines[h] == s.goroutines[h];
    }
    forall h, i | h in s'.goroutines && i in s'.goroutines
                  && Keeps(s'.goroutines[h], x, a) && Keeps(s'.goroutines[i], x, a)
      ensures h == i
    {
      assert h != g ==> s'.goroutines[h] == s.goroutines[h];
      assert i != g ==> s'.goroutines[i] == s.goroutines[i];
    }
    HandsSplit(s', g, x, a);
    OthersHoldOn(s, s', g, x, a);
  }

  // What an update does to the record of sender a, and to its connection.
  lemma RecordAfter(s: State, s': State, u: Update, x: ClientId, a: Sender)
    requires UpdateOk(s, u) && s'.sessions == Apply(s, u).sessions
    ensures OnRecord(s', x, a) <==>
            match u
            case Silence(id) => OnRecord(s, x, a) && id != a.track.session
            case Record(id, c, b) => if id == a.track.session && c == x then b == a else OnRecord(s, x, a)
            case _ => OnRecord(s, x, a)
  {
  }

  lemma AttachedAfter(s: State, s': State, u: Update, a: Sender)
    requires SessionsOk(s) && UpdateOk(s, u) && s'.sessions == Apply(s, u).sessions
    requires a.session in s.sessions && Live(s, a.session)
    ensures Attached(s', a) <==>
            match u
            case Attach(id, t, side) => Attached(s, a) || (id == a.session && a == NextSender(s, id, t, side))
            case Detach(id, b) => Attached(s, a) && !(id == a.session && b == a)
            case _ => Attached(s, a)
  {
    assert SessionOk(s, a.session);
  }

  lemma UnmadeIsUnattached(s: State, a: Sender)
    requires OnceOk(s) && a.session in s.sessions && a.slot >= s.sessions[a.session].nextSlot
    ensures !Attached(s, a)
  {
    assert Attached(s, a) ==> SenderOk(s, a.session, a);
  }

  lemma MoveKeepsFate(s: State, g: nat, m: Move, fails: bool, x: ClientId, a: Sender, lost: bool)
    requires Sound(s) && OnceOk(s) && g in s.goroutines && MoveOk(s, m) && Followed(s, x, a)
    requires FateFor(s, x, a, lost) && HandsOn(s, s.goroutines[g], m, fails, x, a)
    ensures FateFor(Moved(s, g, m), x, a, lost || LosesIt(s, s.goroutines[g], fails, x, a))
  {
    var s' := Moved(s, g, m);
    UpdateMovesNobody(s, m.update);
    HandsSplit(s, g, x, a);
    RecordAfter(s, s', m.update, x, a);
    AttachedAfter(s, s', m.update, a);
    if m.update.Attach? && a == NextSender(s, m.update.id, m.update.track, m.update.side) { UnmadeIsUnattached(s, a); }
    HandsAfter(s, s', g, m.next, x, a);
  }

  lemma AdvanceKeepsFate(s: State, g: nat, choice: Choice, a: Sender, lost: bool)
    requires Sound(s) && OnceOk(s) && HoldersOk(s) && Enabled(s, Advance(g, choice)) && Fate(s, a, lost)
    ensures Fate(Step(s, Advance(g, choice)), a, lost || Loses(s, Advance(g, choice), a))
  {
    var where := s.goroutines[g];
    assert GoroutineOk(s, where) && HolderOk(s, where);
    var m := MoveOf(s, where, choice);
    MoveIsOk(s, where, choice);
    MovedEvolves(s, g, m);
    UpdateMakesNoSession(s, m.update);
    if a.session in s.sessions {
      var x := s.sessions[a.session].client;
      assert SessionEvolves(s, Moved(s, g, m), a.session);
      if Followed(s, x, a) {
        MoveHandsOn(s, where, choice, x, a);
        MoveKeepsFate(s, g, m, choice.fails, x, a, lost);
      }
    }
  }

  lemma UntouchedHands(s: State, s': State, x: ClientId, a: Sender)
    requires Untouched(s, s')
    ensures InHands(s', x, a) <==> InHands(s, x, a)
    ensures InOneHand(s, x, a) ==> InOneHand(s', x, a)
  {
    forall h | h in s'.goroutines
      ensures Keeps(s'.goroutines[h], x, a) ==> h in s.goroutines && Keeps(s.goroutines[h], x, a)
      ensures ComesOnce(s'.goroutines[h], x, a) || (h in s.goroutines && !ComesOnce(s.goroutines[h], x, a))
    {
      assert h in s.goroutines ==> s'.goroutines[h] == s.goroutines[h];
    }
    if InHands(s, x, a) {
      var h :| h in s.goroutines && Keeps(s.goroutines[h], x, a);
      assert h in s'.goroutines;
    }
  }

  lemma UntouchedFate(s: State, s': State, a: Sender, lost: bool)
    requires Untouched(s, s') && a.session in s.sessions && Fate(s, a, lost)
    ensures Fate(s', a, lost)
  {
    assert SessionEvolves(s, s', a.session);
    UntouchedHands(s, s', s.sessions[a.session].client, a);
  }

  // Nobody has a sender that has not been made yet.
  lemma UnmadeFate(s: State, a: Sender)
    requires OnceOk(s) && HoldersOk(s) && a.session in s.sessions && a.slot >= s.sessions[a.session].nextSlot
    ensures Fate(s, a, false)
  {
    var x := s.sessions[a.session].client;
    UnmadeIsUnattached(s, a);
    forall g | g in s.goroutines ensures !Keeps(s.goroutines[g], x, a) { assert HolderOk(s, s.goroutines[g]); }
  }

  lemma BeginningKeepsFate(s: State, action: Action, a: Sender, lost: bool)
    requires Sound(s) && OnceOk(s) && HoldersOk(s) && Enabled(s, action) && !action.Advance? && Fate(s, a, lost)
    ensures Fate(Step(s, action), a, lost)
  {
    BeginningsTouchNothing(s, action);
    if a.session in s.sessions {
      UntouchedFate(s, Step(s, action), a, lost);
    } else if a.session in Step(s, action).sessions {
      StepKeepsOnce(s, action);
      StepKeepsHolders(s, action);
      UnmadeFate(Step(s, action), a);
    }
  }

  lemma StepKeepsFate(s: State, action: Action, a: Sender, lost: bool)
    requires Sound(s) && OnceOk(s) && HoldersOk(s) && Enabled(s, action) && Fate(s, a, lost)
    ensures Fate(Step(s, action), a, lost || Loses(s, action, a))
  {
    match action {
      case Advance(g, choice) => AdvanceKeepsFate(s, g, choice, a, lost);
      case _ => BeginningKeepsFate(s, action, a, lost);
    }
  }

  /// Runs

  // At some step so far a was lost.
  ghost predicate Lost(states: seq<State>, actions: seq<Action>, n: nat, a: Sender)
    requires n <= |actions| < |states|
  {
    exists i :: 0 <= i < n && Loses(states[i], actions[i], a)
  }

  lemma LostSoFar(states: seq<State>, actions: seq<Action>, n: nat, a: Sender)
    requires n < |actions| < |states|
    ensures Lost(states, actions, n + 1, a) <==> Lost(states, actions, n, a) || Loses(states[n], actions[n], a)
  {
    if Lost(states, actions, n, a) {
      var i :| 0 <= i < n && Loses(states[i], actions[i], a);
      assert 0 <= i < n + 1;
    }
    if Lost(states, actions, n + 1, a) {
      var i :| 0 <= i < n + 1 && Loses(states[i], actions[i], a);
      assert i < n ==> 0 <= i < n;
    }
  }

  // At every moment of every run a sender on a live connection is in exactly one goroutine's hands,
  // on record with the session of its track, or lost; and no sender of a live session is any of
  // these without being attached.
  lemma {:induction false} SendersAreAccountedFor(states: seq<State>, actions: seq<Action>, n: nat, a: Sender)
    requires IsRun(states, actions) && n <= |actions|
    ensures Fate(states[n], a, Lost(states, actions, n, a))
  {
    if n == 0 {
    } else {
      SendersAreAccountedFor(states, actions, n - 1, a);
      RunKeepsHolders(states, actions, n - 1);
      assert IsStep(states, actions, n - 1);
      StepKeepsFate(states[n - 1], actions[n - 1], a, Lost(states, actions, n - 1, a));
      LostSoFar(states, actions, n - 1, a);
    }
  }

  ghost predicate Idle(s: State) { forall g :: g in s.goroutines ==> s.goroutines[g] == Done }

  // Some sender of track t made for session xs is on record, or was lost.
  ghost predicate Remains(states: seq<State>, actions: seq<Action>, n: nat, xs: nat, t: Track)
    requires n <= |actions| < |states| && xs in states[n].sessions
  {
    exists a: Sender :: a.session == xs && a.track == t
                        && (OnRecord(states[n], states[n].sessions[xs].client, a) || Lost(states, actions, n, a))
  }

  // When nothing is under way, a live connection carries a track, current or past, exactly if a
  // sender of it is on record with the track's session or was lost on the way.
  lemma LeftoverIff(states: seq<State>, actions: seq<Action>, n: nat, xs: nat, t: Track)
    requires IsRun(states, actions) && n <= |actions| && Idle(states[n])
    requires xs in states[n].sessions && Live(states[n], xs)
    ensures Carries(states[n], xs, t) <==> Remains(states, actions, n, xs, t)
  {
    var s := states[n];
    RunKeepsHolders(states, actions, n);
    if Carries(s, xs, t) {
      var a :| a in s.sessions[xs].pc && a.track == t;
      SendersAreAccountedFor(states, actions, n, a);
      assert a.session == xs;
    }
    if Remains(states, actions, n, xs, t) {
      var a: Sender :| a.session == xs && a.track == t
                       && (OnRecord(s, s.sessions[xs].client, a) || Lost(states, actions, n, a));
      SendersAreAccountedFor(states, actions, n, a);
      assert a in s.sessions[xs].pc;
    }
  }

  /// Why a past track is on record

  // A goroutine records the sender of a track that has been retired since it was attached.
  ghost predicate RecordsLate(s: State, action: Action, a: Sender) {
    && action.Advance? && action.g in s.goroutines
    && var g := s.goroutines[action.g]; (g.JoinRecord? || g.PublishRecord?) && g.sender == a && Retired(s, a.track)
  }

  // Such a step, or another track set while that of a was, is the reason if a past track is on record.
  ghost predicate HasReason(s: State, x: ClientId, a: Sender, reason: bool) {
    OnRecord(s, x, a) && Retired(s, a.track) ==> reason
  }

  ghost predicate IsReason(s: State, action: Action, a: Sender) {
    RecordsLate(s, action, a) || SfuInterleavedSilence.Overwrites(s, action, a.track)
  }

  lemma OnlyRecordersRecord(s: State, g: Goroutine, choice: Choice)
    requires Known(s, g)
    ensures var u := MoveOf(s, g, choice).update;
            u.Record? ==> (g.JoinRecord? || g.PublishRecord?) && g.sender == u.sender
  {
  }

  lemma UpdateHasReason(s: State, s': State, u: Update, x: ClientId, a: Sender, reason: bool)
    requires SessionsOk(s) && UpdateOk(s, u) && s'.sessions == Apply(s, u).sessions
    requires s'.nextTrack == Apply(s, u).nextTrack
    requires HasReason(s, x, a, reason)
    requires u.Record? && u.sender == a && Retired(s, a.track) ==> reason
    requires u.Start? && u.id == a.track.session && SfuInterleavedSilence.IsCurrent(s, a.track) ==> reason
    ensures HasReason(s', x, a, reason)
  {
    RecordAfter(s, s', u, x, a);
    if OnRecord(s, x, a) { assert SessionOk(s, a.track.session); }
  }

  lemma AdvanceHasReason(s: State, g: nat, choice: Choice, x: ClientId, a: Sender, reason: bool)
    requires Sound(s) && Enabled(s, Advance(g, choice)) && HasReason(s, x, a, reason)
    ensures HasReason(Step(s, Advance(g, choice)), x, a, reason || IsReason(s, Advance(g, choice), a))
  {
    var where := s.goroutines[g];
    assert GoroutineOk(s, where);
    MoveIsOk(s, where, choice);
    SfuInterleavedSilence.OnlyStartersStart(s, where, choice);
    OnlyRecordersRecord(s, where, choice);
    UpdateHasReason(s, Step(s, Advance(g, choice)), MoveOf(s, where, choice).update, x, a,
                    reason || IsReason(s, Advance(g, choice), a));
  }

  lemma StepHasReason(s: State, action: Action, x: ClientId, a: Sender, reason: bool)
    requires Sound(s) && OnceOk(s) && Enabled(s, action) && HasReason(s, x, a, reason)
    ensures HasReason(Step(s, action), x, a, reason || IsReason(s, action, a))
  {
    match action {
      case Advance(g, choice) => AdvanceHasReason(s, g, choice, x, a, reason);
      case _ =>
        BeginningsTouchNothing(s, action);
        BeginningMakesNoRecord(s, Step(s, action), x, a);
    }
  }

  lemma BeginningMakesNoRecord(s: State, s': State, x: ClientId, a: Sender)
    requires SessionsOk(s) && Untouched(s, s')
    ensures OnRecord(s', x, a) ==> OnRecord(s, x, a) && (Retired(s', a.track) ==> Retired(s, a.track))
  {
    if OnRecord(s, x, a) { assert SessionOk(s, a.track.session); }
  }

  // A past track is on record only where it was recorded after it had been retired, or where
  // another one was set without a stop in between.
  lemma {:induction false} PastOnRecord(states: seq<State>, actions: seq<Action>, n: nat, x: ClientId, a: Sender)
    requires IsRun(states, actions) && n <= |actions|
    requires OnRecord(states[n], x, a) && Retired(states[n], a.track)
    ensures exists i :: 0 <= i < n && IsReason(states[i], actions[i], a)
  {
    if n == 0 {
      assert false;
    } else {
      RunKeepsOnce(states, actions, n - 1);
      assert IsStep(states, actions, n - 1);
      if HasReason(states[n - 1], x, a, false) {
        StepHasReason(states[n - 1], actions[n - 1], x, a, false);
        assert 0 <= n - 1 < n;
      } else {
        PastOnRecord(states, actions, n - 1, x, a);
      }
    }
  }

  /// A stop that overtakes a publication

  const LATE: Sender := Sender(1, 0, ON_AIR, ByPublication)

  // The listener carries the speaker's track. `goroutines` are the joins of the two, the publication
  // and the stop.
  function Race(speaker: Session, goroutines: map<nat, Goroutine>): State {
    State(map[SPEAKER := 1, LISTENER := 1], map[SPEAKER := 1, LISTENER := 2], {SPEAKER, LISTENER}, {(1, 1)},
          map[SPEAKER := 0, LISTENER := 1],
          map[0 := speaker, 1 := Session(LISTENER, None, map[], {LATE}, 1, false)],
          goroutines, 2, 1, if speaker.localTrack.None? then {} else {ON_AIR}, {})
  }

  const RECORDING: Goroutine := PublishRecord(0, ON_AIR, LISTENER, LATE, [])
  const RECORDED: Session := FRESH.(senders := map[LISTENER := LATE])

  function Runners(publish: Goroutine, stop: Goroutine): map<nat, Goroutine> {
    map[0 := JoinAsk(0), 1 := JoinAsk(1), 2 := publish, 3 := stop]
  }

  lemma TrackIsAttached()
    ensures Reachable(Scene(SPEAKING, {LATE}, JoinAsk(1), RECORDING))
  {
    PublicationStarts();
    var s := Scene(SPEAKING, {}, JoinAsk(1), PublishAttach(0, ON_AIR, LISTENER, 1, []));
    var s' := Scene(SPEAKING, {LATE}, JoinAsk(1), RECORDING);
    ReachableStep(s, Advance(2, BOTH));
    assert MoveOf(s, s.goroutines[2], BOTH) == Move(Attach(1, ON_AIR, ByPublication), RECORDING);
    assert Step(s, Advance(2, BOTH)).sessions == s'.sessions;
    assert Step(s, Advance(2, BOTH)) == s';
  }

  lemma StopSetsOut()
    ensures Reachable(Race(SPEAKING, Runners(RECORDING, StopGet(SPEAKER, End))))
  {
    TrackIsAttached();
    var s := Scene(SPEAKING, {LATE}, JoinAsk(1), RECORDING);
    ReachableStep(s, BeginStop(3, SPEAKER));
    assert Step(s, BeginStop(3, SPEAKER)) == Race(SPEAKING, Runners(RECORDING, StopGet(SPEAKER, End)));
  }

  lemma KeepGoes(speaker: Session, goroutines: map<nat, Goroutine>, g: nat, next: Goroutine)
    requires var s := Race(speaker, goroutines);
             && Reachable(s) && g in goroutines && Known(s, goroutines[g]) && Choosable(s, goroutines[g], BOTH)
             && MoveOf(s, goroutines[g], BOTH) == Move(Keep, next)
    ensures Reachable(Race(speaker, goroutines[g := next]))
  {
    ReachableStep(Race(speaker, goroutines), Advance(g, BOTH));
  }

  lemma StopReachesSession()
    ensures Reachable(Race(SPEAKING, Runners(RECORDING, StopTake(SPEAKER, 0, End))))
  {
    StopSetsOut();
    KeepGoes(SPEAKING, Runners(RECORDING, StopGet(SPEAKER, End)), 3, StopTake(SPEAKER, 0, End));
    assert Runners(RECORDING, StopGet(SPEAKER, End))[3 := StopTake(SPEAKER, 0, End)]
           == Runners(RECORDING, StopTake(SPEAKER, 0, End));
  }

  lemma StopFindsNoSender()
    ensures Reachable(Race(FRESH, Runners(RECORDING, StopNext(SPEAKER, map[], End))))
  {
    StopReachesSession();
    var s, next := Race(SPEAKING, Runners(RECORDING, StopTake(SPEAKER, 0, End))), StopNext(SPEAKER, map[], End);
    assert MoveOf(s, s.goroutines[3], BOTH) == Move(Silence(0), next);
    ReachableStep(s, Advance(3, BOTH));
    assert Moved(s, 3, Move(Silence(0), next)) == Race(FRESH, Runners(RECORDING, next));
  }

  lemma StopIsOver()
    ensures Reachable(Race(FRESH, Runners(RECORDING, Done)))
  {
    StopFindsNoSender();
    KeepGoes(FRESH, Runners(RECORDING, StopNext(SPEAKER, map[], End)), 3, Done);
    assert Runners(RECORDING, StopNext(SPEAKER, map[], End))[3 := Done] == Runners(RECORDING, Done);
  }

  lemma RecordComesLate()
    ensures Reachable(Race(RECORDED, Runners(PublishNext(0, ON_AIR, []), Done)))
  {
    StopIsOver();
    var s, m := Race(FRESH, Runners(RECORDING, Done)), Move(Record(0, LISTENER, LATE), PublishNext(0, ON_AIR, []));
    assert MoveOf(s, RECORDING, BOTH) == m;
    ReachableStep(s, Advance(2, BOTH));
    RecordIsMade();
  }

  lemma RecordIsMade()
    ensures Moved(Race(FRESH, Runners(RECORDING, Done)), 2,
                  Move(Record(0, LISTENER, LATE), PublishNext(0, ON_AIR, [])))
            == Race(RECORDED, Runners(PublishNext(0, ON_AIR, []), Done))
  {
    var m := Move(Record(0, LISTENER, LATE), PublishNext(0, ON_AIR, []));
    assert Runners(RECORDING, Done)[2 := m.next] == Runners(m.next, Done);
  }

  lemma JoinGoes(goroutines: map<nat, Goroutine>, g: nat, next: Goroutine)
    requires var s := Race(RECORDED, goroutines);
             && Reachable(s) && g in goroutines && Joins(goroutines[g]) && Known(s, goroutines[g])
             && JoinMove(s, goroutines[g], BOTH) == Move(Keep, next)
    ensures Reachable(Race(RECORDED, goroutines[g := next]))
  {
    KeepGoes(RECORDED, goroutines, g, next);
  }

  lemma JoinFindsNothing(goroutines: map<nat, Goroutine>, g: nat, todo: seq<ClientId>)
    requires Reachable(Race(RECORDED, goroutines)) && g in goroutines && goroutines[g] == JoinNext(g, todo)
    requires (g == 0 || g == 1) && forall c :: c in todo ==> c == SPEAKER || c == LISTENER
    ensures Reachable(Race(RECORDED, goroutines[g := Done]))
    decreases todo
  {
    if todo == [] {
      JoinGoes(goroutines, g, Done);
    } else {
      var rest := JoinNext(g, todo[1..]);
      assert todo[0] in todo && forall c :: c in todo[1..] ==> c in todo;
      JoinPasses(goroutines, g, todo[0], todo[1..]);
      JoinFindsNothing(goroutines[g := rest], g, todo[1..]);
      assert goroutines[g := rest][g := Done] == goroutines[g := Done];
    }
  }

  lemma JoinPasses(goroutines: map<nat, Goroutine>, g: nat, c: ClientId, todo: seq<ClientId>)
    requires Reachable(Race(RECORDED, goroutines)) && g in goroutines && goroutines[g] == JoinNext(g, [c] + todo)
    requires (g == 0 || g == 1) && (c == SPEAKER || c == LISTENER)
    ensures Reachable(Race(RECORDED, goroutines[g := JoinNext(g, todo)]))
  {
    var s := Race(RECORDED, goroutines);
    assert ([c] + todo)[1..] == todo;
    if c == s.sessions[g].client {
      JoinGoes(goroutines, g, JoinNext(g, todo));
    } else {
      var read := JoinRead(g, c, s.store[c], todo);
      JoinGoes(goroutines, g, read);
      JoinGoes(goroutines[g := read], g, JoinNext(g, todo));
      assert goroutines[g := read][g := JoinNext(g, todo)] == goroutines[g := JoinNext(g, todo)];
    }
  }

  // With no track to be heard any more, a join comes to its end.
  lemma JoinEnds(goroutines: map<nat, Goroutine>, g: nat)
    requires Reachable(Race(RECORDED, goroutines)) && g in goroutines && goroutines[g] == JoinAsk(g)
    requires g == 0 || g == 1
    ensures Reachable(Race(RECORDED, goroutines[g := Done]))
  {
    var asked := JoinNext(g, BOTH.list);
    JoinGoes(goroutines, g, asked);
    JoinFindsNothing(goroutines[g := asked], g, BOTH.list);
    assert goroutines[g := asked][g := Done] == goroutines[g := Done];
  }

  // A run that ends with nothing under way and a past track on a connected listener's connection.
  lemma StopOvertakesPublication()
    ensures exists s, t :: Reachable(s) && Idle(s) && LISTENER in s.registered && LISTENER in s.store
                           && s.store[LISTENER] in s.sessions && Carries(s, s.store[LISTENER], t) && Retired(s, t)
  {
    RecordComesLate();
    var goroutines := Runners(PublishNext(0, ON_AIR, []), Done);
    JoinEnds(goroutines, 0);
    JoinEnds(goroutines[0 := Done], 1);
    KeepGoes(RECORDED, goroutines[0 := Done][1 := Done], 2, Done);
    var s := Race(RECORDED, goroutines[0 := Done][1 := Done][2 := Done]);
    assert LATE in s.sessions[1].pc && Carries(s, 1, ON_AIR) && Retired(s, ON_AIR);
  }
}
