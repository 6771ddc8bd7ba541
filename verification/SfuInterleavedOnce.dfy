/** How often: a track is put on a connection at most once by the join of that connection's session
 * and at most once by its own publication, and by both only if the two overlapped.
 */
module SfuInterleavedOnce {
  import opened Wrappers
  import opened RoomUsers
  import opened SfuInterleaved
  import opened SfuInterleavedLaws

  /// What each goroutine still has before it

  // A publication whose track is set.
  predicate Announces(g: Goroutine) { Publishes(g) && !g.PublishStart? }

  // A goroutine comes to every listed client once, and to a session of the client it was listed for.
  predicate Placed(s: State, g: Goroutine) {
    match g
    case JoinNext(_, todo) => NoRepeats(todo)
    case JoinRead(_, who, peer, todo) => NoRepeats(todo) && PlacedAt(s, who, peer, todo)
    case JoinReread(_, who, peer, todo) => NoRepeats(todo) && PlacedAt(s, who, peer, todo)
    case JoinAttach(_, who, peer, _, todo) => NoRepeats(todo) && PlacedAt(s, who, peer, todo)
    case JoinRecord(_, _, _, todo) => NoRepeats(todo)
    case PublishNext(_, _, todo) => NoRepeats(todo)
    case PublishAttach(_, _, who, peer, todo) => NoRepeats(todo) && PlacedAt(s, who, peer, todo)
    case PublishRecord(_, _, _, _, todo) => NoRepeats(todo)
    case _ => true
  }

  predicate PlacedAt(s: State, who: ClientId, peer: nat, todo: seq<ClientId>) {
    who !in todo && peer in s.sessions && s.sessions[peer].client == who
  }

  // A join that will not come to track t again.
  predicate JoinPast(s: State, g: Goroutine, t: Track)
    requires t.session in s.sessions
  {
    var p := s.sessions[t.session].client;
    match g
    case JoinNext(_, todo) => p !in todo
    case JoinRead(_, _, peer, todo) => p !in todo && peer != t.session
    case JoinReread(_, _, peer, todo) => p !in todo && peer != t.session
    case JoinAttach(_, _, peer, _, todo) => p !in todo && peer != t.session
    case JoinRecord(_, _, _, todo) => p !in todo
    case _ => false
  }

  // A publication that will not come to session xs again.
  predicate PublishPast(s: State, g: Goroutine, xs: nat)
    requires xs in s.sessions
  {
    var x := s.sessions[xs].client;
    match g
    case PublishNext(_, _, todo) => x !in todo
    case PublishAttach(_, _, _, peer, todo) => x !in todo && peer != xs
    case PublishRecord(_, _, _, _, todo) => x !in todo
    case _ => false
  }

  // Whoever attached sender a to session id does not come to it again.
  predicate PastIt(s: State, g: Goroutine, id: nat, a: Sender)
    requires id in s.sessions && a.track.session in s.sessions
  {
    match a.side
    case ByJoin => Joins(g) && g.session == id ==> JoinPast(s, g, a.track)
    case ByPublication => Announces(g) && g.track == a.track ==> PublishPast(s, g, id)
  }

  /// The invariant

  ghost predicate SenderOk(s: State, id: nat, a: Sender)
    requires id in s.sessions
  {
    && a.slot < s.sessions[id].nextSlot && Issued(s, a.track)
    && forall g :: g in s.goroutines ==> PastIt(s, s.goroutines[g], id, a)
  }

  predicate SameOrigin(a: Sender, b: Sender) { a.track == b.track && a.side == b.side }

  ghost predicate SendersFine(s: State) {
    && (forall id, a :: id in s.sessions && a in s.sessions[id].pc ==> SenderOk(s, id, a))
    && (forall id, a, b :: id in s.sessions && a in s.sessions[id].pc && b in s.sessions[id].pc && SameOrigin(a, b) ==>
          a == b)
  }

  predicate SameJoin(g: Goroutine, h: Goroutine) { Joins(g) && Joins(h) && g.session == h.session }

  predicate SamePublication(g: Goroutine, h: Goroutine) { Announces(g) && Announces(h) && g.track == h.track }

  // A session has one join, and a track one publication.
  ghost predicate OneEach(s: State) {
    forall g, h :: g in s.goroutines && h in s.goroutines
                   && (SameJoin(s.goroutines[g], s.goroutines[h]) || SamePublication(s.goroutines[g], s.goroutines[h]))
      ==> g == h
  }

  ghost predicate AllPlaced(s: State) { forall g :: g in s.goroutines ==> Placed(s, s.goroutines[g]) }

  ghost predicate OnceOk(s: State) { AllPlaced(s) && OneEach(s) && SendersFine(s) }

  /// Steps of one goroutine

  lemma PlacedForGood(s: State, s': State, g: Goroutine)
    requires Evolves(s, s') && Placed(s, g)
    ensures Placed(s', g)
  {
    match g {
      case JoinRead(_, _, peer, _) => assert SessionEvolves(s, s', peer);
      case JoinReread(_, _, peer, _) => assert SessionEvolves(s, s', peer);
      case JoinAttach(_, _, peer, _, _) => assert SessionEvolves(s, s', peer);
      case PublishAttach(_, _, _, peer, _) => assert SessionEvolves(s, s', peer);
      case _ =>
    }
  }

  lemma PastItForGood(s: State, s': State, g: Goroutine, id: nat, a: Sender)
    requires Evolves(s, s') && id in s.sessions && a.track.session in s.sessions && PastIt(s, g, id, a)
    ensures id in s'.sessions && a.track.session in s'.sessions && PastIt(s', g, id, a)
  {
    assert SessionEvolves(s, s', id) && SessionEvolves(s, s', a.track.session);
  }

  lemma TailOfDistinct(todo: seq<ClientId>)
    requires NoRepeats(todo) && todo != []
    ensures NoRepeats(todo[1..]) && todo[0] !in todo[1..] && forall x :: x in todo[1..] ==> x in todo
  {
  }

  lemma JoinMovePlaced(s: State, g: Goroutine, choice: Choice)
    requires SessionsOk(s) && GoroutineOk(s, g) && Choosable(s, g, choice) && Placed(s, g) && Joins(g)
    ensures Placed(s, JoinMove(s, g, choice).next)
  {
    match g {
      case JoinAsk(x) => assert SessionOk(s, x);
      case JoinNext(_, todo) => if todo != [] { TailOfDistinct(todo); }
      case _ =>
    }
  }

  lemma PublishMovePlaced(s: State, g: Goroutine, choice: Choice)
    requires SessionsOk(s) && GoroutineOk(s, g) && Choosable(s, g, choice) && Placed(s, g) && Publishes(g)
    ensures Placed(s, PublishMove(s, g, choice).next)
  {
    match g {
      case PublishAsk(p, _) => assert SessionOk(s, p);
      case PublishNext(_, _, todo) => if todo != [] { TailOfDistinct(todo); }
      case _ =>
    }
  }

  lemma StopMovePlaced(s: State, g: Goroutine, choice: Choice)
    requires Known(s, g) && !Joins(g) && !Publishes(g)
    ensures Placed(s, StopMove(s, g, choice).next)
  {
  }

  lemma MovePlaced(s: State, g: Goroutine, choice: Choice)
    requires SessionsOk(s) && GoroutineOk(s, g) && Choosable(s, g, choice) && Placed(s, g)
    ensures Placed(s, MoveOf(s, g, choice).next)
  {
    if Joins(g) {
      JoinMovePlaced(s, g, choice);
    } else if Publishes(g) {
      PublishMovePlaced(s, g, choice);
    } else {
      StopMovePlaced(s, g, choice);
    }
  }

  // Only a join goes on as a join, and only a publication as a publication.
  predicate GoesOnAs(s: State, g: Goroutine, next: Goroutine) {
    && (Joins(next) ==> SameJoin(next, g))
    && (Announces(next) ==>
          SamePublication(next, g) || (g.PublishStart? && next.track == Track(g.session, s.nextTrack)))
  }

  // A side about to attach has read what the other wrote: the join of xs has read track t, which
  // its publication sets before it looks for listeners, or the publication has found session xs,
  // which its join puts in place before it looks for tracks.
  predicate HoldsAt(g: Goroutine, xs: nat, t: Track, side: Side) {
    match side
    case ByJoin => g.JoinAttach? && g.session == xs && g.track == t
    case ByPublication => g.PublishAttach? && g.peer == xs && g.track == t
  }

  // Attaching is done by those about to, who then are past it.
  predicate AttachesAs(g: Goroutine, m: Move) {
    m.update.Attach? ==>
      && HoldsAt(g, m.update.id, m.update.track, m.update.side)
      && match m.update.side
         case ByJoin => g.track.session == g.peer && m.next.JoinRecord? && m.next.todo == g.todo && SameJoin(m.next, g)
         case ByPublication => m.next.PublishRecord? && m.next.todo == g.todo && SamePublication(m.next, g)
  }

  ghost predicate StaysPast(s: State, g: Goroutine, next: Goroutine) {
    forall id, a: Sender :: id in s.sessions && Issued(s, a.track) && PastIt(s, g, id, a) ==> PastIt(s, next, id, a)
  }

  // What the proofs below need to know of a move.
  ghost predicate Fine(s: State, g: Goroutine, m: Move) {
    GoesOnAs(s, g, m.next) && AttachesAs(g, m) && StaysPast(s, g, m.next) && Placed(s, m.next)
  }

  lemma NextKind(s: State, g: Goroutine, choice: Choice)
    requires Known(s, g)
    ensures GoesOnAs(s, g, MoveOf(s, g, choice).next)
  {
  }

  lemma AttachKind(s: State, g: Goroutine, choice: Choice)
    requires GoroutineOk(s, g)
    ensures AttachesAs(g, MoveOf(s, g, choice))
  {
  }

  lemma JoinStaysPast(s: State, g: Goroutine, choice: Choice, t: Track)
    requires SessionsOk(s) && Known(s, g) && Joins(g) && t.session in s.sessions && JoinPast(s, g, t)
    ensures var next := MoveOf(s, g, choice).next; Joins(next) ==> JoinPast(s, next, t)
  {
    match g {
      case JoinNext(_, todo) => assert todo != [] ==> todo[0] in todo && forall x :: x in todo[1..] ==> x in todo;
      case _ =>
    }
  }

  lemma PublicationStaysPast(s: State, g: Goroutine, choice: Choice, xs: nat)
    requires SessionsOk(s) && Known(s, g) && Announces(g) && xs in s.sessions && PublishPast(s, g, xs)
    ensures var next := MoveOf(s, g, choice).next; Announces(next) ==> PublishPast(s, next, xs)
  {
    match g {
      case PublishNext(_, _, todo) => assert todo != [] ==> todo[0] in todo && forall x :: x in todo[1..] ==> x in todo;
      case _ =>
    }
  }

  lemma MoveStaysPast(s: State, g: Goroutine, choice: Choice, id: nat, a: Sender)
    requires SessionsOk(s) && GoroutineOk(s, g) && id in s.sessions && Issued(s, a.track) && PastIt(s, g, id, a)
    ensures PastIt(s, MoveOf(s, g, choice).next, id, a)
  {
    NextKind(s, g, choice);
    if a.side == ByJoin && Joins(g) && g.session == id {
      JoinStaysPast(s, g, choice, a.track);
    } else if a.side == ByPublication && Announces(g) && g.track == a.track {
      PublicationStaysPast(s, g, choice, id);
    }
  }

  // The move that an advance makes.
  lemma Advanced(s: State, g: nat, choice: Choice) returns (m: Move)
    requires Sound(s) && AllPlaced(s) && Enabled(s, Advance(g, choice))
    ensures MoveOk(s, m) && Fine(s, s.goroutines[g], m)
    ensures Step(s, Advance(g, choice)) == Moved(s, g, m)
  {
    var where := s.goroutines[g];
    assert GoroutineOk(s, where) && Placed(s, where);
    m := MoveOf(s, where, choice);
    MoveIsOk(s, where, choice);
    MovePlaced(s, where, choice);
    NextKind(s, where, choice);
    AttachKind(s, where, choice);
    forall id, a: Sender | id in s.sessions && Issued(s, a.track) && PastIt(s, where, id, a)
      ensures PastIt(s, m.next, id, a)
    {
      MoveStaysPast(s, where, choice, id, a);
    }
  }

  /// A step of one goroutine keeps the invariant

  // The senders after an update: those of before, and the one it attaches.
  lemma SendersAfter(s: State, u: Update, id: nat, a: Sender)
    requires UpdateOk(s, u) && id in Apply(s, u).sessions && a in Apply(s, u).sessions[id].pc
    ensures id in s.sessions
    ensures a in s.sessions[id].pc || (IsAttach(u, id, a.track) && a == NextSender(s, id, a.track, u.side))
    ensures Apply(s, u).sessions[id].nextSlot
            == s.sessions[id].nextSlot + if u.Attach? && u.id == id then 1 else 0
  {
  }

  lemma NewSenderIsFirst(s: State, g: nat, m: Move, b: Sender)
    requires Sound(s) && OnceOk(s) && g in s.goroutines && MoveOk(s, m) && Fine(s, s.goroutines[g], m)
    requires m.update.Attach? && b in s.sessions[m.update.id].pc && b.track == m.update.track
    ensures b.side != m.update.side
  {
    assert SenderOk(s, m.update.id, b);
    assert PastIt(s, s.goroutines[g], m.update.id, b);
  }

  lemma AttachedIsIssued(s: State, g: nat, m: Move)
    requires Sound(s) && g in s.goroutines && Fine(s, s.goroutines[g], m) && m.update.Attach?
    ensures Issued(s, m.update.track)
  {
    assert GoroutineOk(s, s.goroutines[g]);
  }

  lemma NewSenderIsPast(s: State, g: nat, m: Move, h: nat)
    requires Sound(s) && OnceOk(s) && g in s.goroutines && h in s.goroutines
    requires MoveOk(s, m) && Fine(s, s.goroutines[g], m) && m.update.Attach?
    ensures m.update.track.session in s.sessions
    ensures PastIt(s, if h == g then m.next else s.goroutines[h], m.update.id,
                   NextSender(s, m.update.id, m.update.track, m.update.side))
  {
    assert GoroutineOk(s, s.goroutines[g]) && Placed(s, s.goroutines[g]);
    AttachedIsIssued(s, g, m);
  }

  lemma MovedEvolves(s: State, g: nat, m: Move)
    requires MoveOk(s, m)
    ensures Evolves(s, Moved(s, g, m))
  {
    UpdateEvolves(s, m.update);
    forall id | id in s.sessions ensures SessionEvolves(s, Moved(s, g, m), id) {
      assert SessionEvolves(s, Apply(s, m.update), id);
    }
  }

  // What is past in the old state is past in the new one.
  lemma SenderOkAfter(s: State, s': State, id: nat, a: Sender)
    requires Evolves(s, s') && id in s.sessions && Issued(s, a.track) && id in s'.sessions
    requires a.slot < s'.sessions[id].nextSlot
    requires forall h :: h in s'.goroutines ==> PastIt(s, s'.goroutines[h], id, a)
    ensures SenderOk(s', id, a)
  {
    assert SessionEvolves(s, s', a.track.session);
    forall h | h in s'.goroutines ensures PastIt(s', s'.goroutines[h], id, a) {
      PastItForGood(s, s', s'.goroutines[h], id, a);
    }
  }

  lemma SenderStaysPast(s: State, g: nat, m: Move, id: nat, a: Sender, h: nat)
    requires Sound(s) && OnceOk(s) && g in s.goroutines && h in s.goroutines
    requires MoveOk(s, m) && Fine(s, s.goroutines[g], m)
    requires id in s.sessions && (a in s.sessions[id].pc ||
                                  (IsAttach(m.update, id, a.track) && a == NextSender(s, id, a.track, m.update.side)))
    ensures Issued(s, a.track)
    ensures PastIt(s, if h == g then m.next else s.goroutines[h], id, a)
  {
    if a in s.sessions[id].pc {
      assert SenderOk(s, id, a);
      assert PastIt(s, s.goroutines[h], id, a);
    } else {
      AttachedIsIssued(s, g, m);
      NewSenderIsPast(s, g, m, h);
    }
  }

  lemma AdvanceKeepsSender(s: State, g: nat, m: Move, id: nat, a: Sender)
    requires Sound(s) && OnceOk(s) && g in s.goroutines && MoveOk(s, m) && Fine(s, s.goroutines[g], m)
    requires id in Moved(s, g, m).sessions && a in Moved(s, g, m).sessions[id].pc
    ensures SenderOk(Moved(s, g, m), id, a)
  {
    var s' := Moved(s, g, m);
    MovedEvolves(s, g, m);
    SendersAfter(s, m.update, id, a);
    assert a in s.sessions[id].pc ==> SenderOk(s, id, a);
    forall h | h in s'.goroutines ensures Issued(s, a.track) && PastIt(s, s'.goroutines[h], id, a) {
      SenderStaysPast(s, g, m, id, a, h);
    }
    assert g in s'.goroutines;
    SenderOkAfter(s, s', id, a);
  }

  lemma AdvanceKeepsSenders(s: State, g: nat, m: Move)
    requires Sound(s) && OnceOk(s) && g in s.goroutines && MoveOk(s, m) && Fine(s, s.goroutines[g], m)
    ensures SendersFine(Moved(s, g, m))
  {
    var s' := Moved(s, g, m);
    forall id, a | id in s'.sessions && a in s'.sessions[id].pc ensures SenderOk(s', id, a) {
      AdvanceKeepsSender(s, g, m, id, a);
    }
    forall id, a, b | id in s'.sessions && a in s'.sessions[id].pc && b in s'.sessions[id].pc && SameOrigin(a, b)
      ensures a == b
    {
      SendersAfter(s, m.update, id, a);
      SendersAfter(s, m.update, id, b);
      if a !in s.sessions[id].pc && b in s.sessions[id].pc { NewSenderIsFirst(s, g, m, b); }
      if b !in s.sessions[id].pc && a in s.sessions[id].pc { NewSenderIsFirst(s, g, m, a); }
    }
  }

  lemma OneEachAfter(s: State, s': State, g: nat, next: Goroutine)
    requires OneEach(s) && g in s.goroutines && s'.goroutines == s.goroutines[g := next]
    requires GoesOnAs(s, s.goroutines[g], next)
    requires forall h :: h in s.goroutines && Announces(s.goroutines[h]) ==> s.goroutines[h].track.serial < s.nextTrack
    ensures OneEach(s')
  {
    forall h, i | h in s'.goroutines && i in s'.goroutines
                  && (SameJoin(s'.goroutines[h], s'.goroutines[i])
                      || SamePublication(s'.goroutines[h], s'.goroutines[i]))
      ensures h == i
    {
      assert h != g && i != g ==> s.goroutines[h] == s'.goroutines[h] && s.goroutines[i] == s'.goroutines[i];
    }
  }

  lemma AnnouncedIsOld(s: State, g: nat)
    requires Sound(s) && g in s.goroutines && Announces(s.goroutines[g])
    ensures s.goroutines[g].track.serial < s.nextTrack
  {
    assert GoroutineOk(s, s.goroutines[g]);
  }

  lemma AdvanceKeepsOneEach(s: State, g: nat, m: Move)
    requires Sound(s) && OneEach(s) && g in s.goroutines && MoveOk(s, m) && GoesOnAs(s, s.goroutines[g], m.next)
    ensures OneEach(Moved(s, g, m))
  {
    forall h | h in s.goroutines && Announces(s.goroutines[h]) ensures s.goroutines[h].track.serial < s.nextTrack {
      AnnouncedIsOld(s, h);
    }
    UpdateMovesNobody(s, m.update);
    OneEachAfter(s, Moved(s, g, m), g, m.next);
  }

  lemma AdvanceKeepsPlaced(s: State, g: nat, m: Move)
    requires AllPlaced(s) && g in s.goroutines && MoveOk(s, m) && Placed(s, m.next)
    ensures AllPlaced(Moved(s, g, m))
  {
    var s' := Moved(s, g, m);
    MovedEvolves(s, g, m);
    UpdateMovesNobody(s, m.update);
    forall h | h in s'.goroutines ensures Placed(s', s'.goroutines[h]) {
      assert Placed(s, s'.goroutines[h]);
      PlacedForGood(s, s', s'.goroutines[h]);
    }
  }

  lemma AdvanceKeepsOnce(s: State, g: nat, m: Move)
    requires Sound(s) && OnceOk(s) && g in s.goroutines && MoveOk(s, m) && Fine(s, s.goroutines[g], m)
    ensures OnceOk(Moved(s, g, m))
  {
    AdvanceKeepsPlaced(s, g, m);
    AdvanceKeepsOneEach(s, g, m);
    AdvanceKeepsSenders(s, g, m);
  }

  /// Every step keeps the invariant

  // A goroutine that only begins, in a state that otherwise stays as it is.
  lemma BeginningKeepsOnce(s: State, s': State, g: nat, where: Goroutine)
    requires Sound(s) && OnceOk(s) && g !in s.goroutines && Evolves(s, s')
    requires s'.goroutines == s.goroutines[g := where] && Placed(s', where) && !Announces(where)
    requires Joins(where) ==> where.session !in s.sessions
    requires forall id :: id in s'.sessions && id !in s.sessions ==> s'.sessions[id].pc == {}
    requires forall id :: id in s.sessions ==> s'.sessions[id] == s.sessions[id]
    ensures OnceOk(s')
  {
    forall h | h in s'.goroutines ensures Placed(s', s'.goroutines[h]) {
      if h != g { PlacedForGood(s, s', s.goroutines[h]); }
    }
    assert forall h :: h in s.goroutines ==> GoroutineOk(s, s.goroutines[h]);
    forall h, i | h in s'.goroutines && i in s'.goroutines
                  && (SameJoin(s'.goroutines[h], s'.goroutines[i])
                      || SamePublication(s'.goroutines[h], s'.goroutines[i]))
      ensures h == i
    {
      assert h != g && i != g ==> s.goroutines[h] == s'.goroutines[h] && s.goroutines[i] == s'.goroutines[i];
    }
    forall id, a | id in s'.sessions && a in s'.sessions[id].pc ensures SenderOk(s', id, a) {
      assert SenderOk(s, id, a);
      SenderOkAfter(s, s', id, a);
    }
  }

  // Rows and registrations change, and no session or goroutine.
  lemma BystandersKeepOnce(s: State, s': State)
    requires Sound(s) && OnceOk(s)
    requires s'.sessions == s.sessions && s'.goroutines == s.goroutines && s'.store == s.store
    requires s'.nextTrack == s.nextTrack
    ensures OnceOk(s')
  {
    assert Evolves(s, s') by { forall id | id in s.sessions ensures SessionEvolves(s, s', id) {} }
    forall h | h in s'.goroutines ensures Placed(s', s'.goroutines[h]) {
      PlacedForGood(s, s', s.goroutines[h]);
    }
    forall id, a | id in s'.sessions && a in s'.sessions[id].pc ensures SenderOk(s', id, a) {
      assert SenderOk(s, id, a);
      SenderOkAfter(s, s', id, a);
    }
  }

  lemma JoinBeginsOnce(s: State, g: nat, c: ClientId)
    requires Sound(s) && OnceOk(s) && g !in s.goroutines
    ensures OnceOk(At(Inserted(s, c), g, JoinBegun(s, c)))
  {
    var s' := At(Inserted(s, c), g, JoinBegun(s, c));
    InsertionEvolves(s, c);
    forall id | id in s.sessions ensures SessionEvolves(s, s', id) {
      assert SessionEvolves(s, Inserted(s, c), id);
    }
    BeginningKeepsOnce(s, s', g, JoinBegun(s, c));
  }

  lemma OtherBeginsOnce(s: State, s': State, g: nat, where: Goroutine)
    requires Sound(s) && OnceOk(s) && g !in s.goroutines
    requires s'.sessions == s.sessions && s'.store == s.store && s'.nextTrack == s.nextTrack
    requires s'.goroutines == s.goroutines[g := where] && (where.RowRead? || where.StopGet? || where.RevokeAsk?)
    ensures OnceOk(s')
  {
    assert Evolves(s, s') by { forall id | id in s.sessions ensures SessionEvolves(s, s', id) {} }
    BeginningKeepsOnce(s, s', g, where);
  }

  lemma StepKeepsOnce(s: State, a: Action)
    requires Sound(s) && OnceOk(s) && Enabled(s, a)
    ensures OnceOk(Step(s, a))
  {
    match a {
      case Register(_, _, _) => BystandersKeepOnce(s, Step(s, a));
      case Unregister(_) => BystandersKeepOnce(s, Step(s, a));
      case Grant(_, _) => BystandersKeepOnce(s, Step(s, a));
      case Withdraw(_, _) => BystandersKeepOnce(s, Step(s, a));
      case BeginJoin(g, c) => JoinBeginsOnce(s, g, c);
      case BeginPublish(g, p) => OtherBeginsOnce(s, Step(s, a), g, RowRead(p));
      case BeginStop(g, c) => OtherBeginsOnce(s, Step(s, a), g, StopGet(c, End));
      case BeginLeave(g, c) => OtherBeginsOnce(s, Step(s, a), g, StopGet(c, Remove));
      case BeginRevoke(g, room, user) => OtherBeginsOnce(s, Step(s, a), g, RevokeAsk(room, user));
      case Advance(g, choice) =>
        var m := Advanced(s, g, choice);
        AdvanceKeepsOnce(s, g, m);
    }
  }

  lemma {:induction false} RunKeepsOnce(states: seq<State>, actions: seq<Action>, n: nat)
    requires IsRun(states, actions) && n <= |actions|
    ensures Sound(states[n]) && OnceOk(states[n])
  {
    RunIsSound(states, actions, n);
    if n == 0 {
    } else {
      RunKeepsOnce(states, actions, n - 1);
      assert IsStep(states, actions, n - 1);
      StepKeepsOnce(states[n - 1], actions[n - 1]);
    }
  }

  /// How often a track is attached

  function Copies(s: State, xs: nat, t: Track): set<Sender>
    requires xs in s.sessions
  {
    set a | a in s.sessions[xs].pc && a.track == t
  }

  predicate HasFrom(s: State, xs: nat, t: Track, side: Side) {
    xs in s.sessions && AnyFrom(s.sessions[xs].pc, t, side)
  }

  predicate AnyFrom(pc: set<Sender>, t: Track, side: Side) { exists a :: a in pc && a.track == t && a.side == side }

  lemma OneSide(pc: set<Sender>, t: Track, side: Side)
    requires forall a, b :: a in pc && b in pc && SameOrigin(a, b) ==> a == b
    ensures |set a | a in pc && a.track == t && a.side == side| == if AnyFrom(pc, t, side) then 1 else 0
  {
    var part := set a | a in pc && a.track == t && a.side == side;
    if AnyFrom(pc, t, side) {
      var a :| a in pc && a.track == t && a.side == side;
      forall b | b in part ensures b == a { assert SameOrigin(a, b); }
      assert part == {a};
    } else {
      assert part == {};
    }
  }

  // At most one sender from each side.
  lemma CopiesBySide(s: State, xs: nat, t: Track)
    requires OnceOk(s) && xs in s.sessions
    ensures |Copies(s, xs, t)|
            == (if HasFrom(s, xs, t, ByJoin) then 1 else 0) + (if HasFrom(s, xs, t, ByPublication) then 1 else 0)
  {
    var pc := s.sessions[xs].pc;
    var joined := set a | a in pc && a.track == t && a.side == ByJoin;
    var published := set a | a in pc && a.track == t && a.side == ByPublication;
    assert Copies(s, xs, t) == joined + published && joined !! published;
    OneSide(pc, t, ByJoin);
    OneSide(pc, t, ByPublication);
  }

  /// Overlaps

  ghost predicate JoinUnderWay(s: State, xs: nat) {
    exists g :: g in s.goroutines && Joins(s.goroutines[g]) && s.goroutines[g].session == xs
  }

  ghost predicate PublicationUnderWay(s: State, t: Track) {
    exists g :: g in s.goroutines && Announces(s.goroutines[g]) && s.goroutines[g].track == t
  }

  ghost predicate Overlap(s: State, xs: nat, t: Track) { JoinUnderWay(s, xs) && PublicationUnderWay(s, t) }

  // At some moment so far both were under way.
  ghost predicate Overlapped(states: seq<State>, n: nat, xs: nat, t: Track)
    requires n < |states|
  {
    exists i :: 0 <= i <= n && Overlap(states[i], xs, t)
  }

  // Whoever has just attached was about to.
  lemma AttachingTells(s: State, a: Action, xs: nat, t: Track, side: Side)
    requires Sound(s) && AllPlaced(s) && Enabled(s, a) && HasFrom(Step(s, a), xs, t, side) && !HasFrom(s, xs, t, side)
    ensures xs in s.sessions && Issued(s, t) && a.Advance? && HoldsAt(s.goroutines[a.g], xs, t, side)
  {
    if a.Advance? {
      var m := Advanced(s, a.g, a.choice);
      MovingTells(s, a.g, m, xs, t, side);
    }
  }

  lemma MovingTells(s: State, g: nat, m: Move, xs: nat, t: Track, side: Side)
    requires Sound(s) && g in s.goroutines && MoveOk(s, m) && Fine(s, s.goroutines[g], m)
    requires HasFrom(Moved(s, g, m), xs, t, side) && !HasFrom(s, xs, t, side)
    ensures xs in s.sessions && Issued(s, t) && HoldsAt(s.goroutines[g], xs, t, side)
  {
    var b :| b in Moved(s, g, m).sessions[xs].pc && b.track == t && b.side == side;
    SendersAfter(s, m.update, xs, b);
    AttachedIsIssued(s, g, m);
  }

  // A goroutine that joins or publishes did so before, or has just begun for something new.
  predicate ComesFrom(s: State, s': State, g: nat)
    requires g in s'.goroutines
  {
    var now := s'.goroutines[g];
    && (Joins(now) ==> now.session == s.nextSession || (g in s.goroutines && SameJoin(now, s.goroutines[g])))
    && (Announces(now) ==>
          now.track.serial == s.nextTrack || (g in s.goroutines && SamePublication(now, s.goroutines[g])))
  }

  lemma MovedComesFrom(s: State, s': State, g: nat, next: Goroutine, h: nat)
    requires g in s.goroutines && GoesOnAs(s, s.goroutines[g], next)
    requires s'.goroutines == s.goroutines[g := next] && h in s'.goroutines
    ensures ComesFrom(s, s', h)
  {
  }

  lemma BegunComesFrom(s: State, s': State, g: nat, h: nat)
    requires g in s'.goroutines && s'.goroutines == s.goroutines[g := s'.goroutines[g]] && h in s'.goroutines
    requires !Announces(s'.goroutines[g]) && (Joins(s'.goroutines[g]) ==> s'.goroutines[g].session == s.nextSession)
    ensures ComesFrom(s, s', h)
  {
  }

  lemma AdvanceMovesOne(s: State, g: nat, choice: Choice)
    requires g in s.goroutines && Known(s, s.goroutines[g])
    ensures Step(s, Advance(g, choice)).goroutines == s.goroutines[g := MoveOf(s, s.goroutines[g], choice).next]
  {
    UpdateMovesNobody(s, MoveOf(s, s.goroutines[g], choice).update);
  }

  lemma UpdateMovesNobody(s: State, u: Update)
    requires u.Keep? || u.Forget? || u.id in s.sessions
    ensures Apply(s, u).goroutines == s.goroutines
  {
  }

  lemma UpdateMakesNoSession(s: State, u: Update)
    requires UpdateOk(s, u)
    ensures Apply(s, u).sessions.Keys == s.sessions.Keys
  {
  }

  lemma AdvanceComesFrom(s: State, g: nat, choice: Choice, h: nat)
    requires Sound(s) && AllPlaced(s) && Enabled(s, Advance(g, choice)) && h in Step(s, Advance(g, choice)).goroutines
    ensures ComesFrom(s, Step(s, Advance(g, choice)), h)
  {
    assert GoroutineOk(s, s.goroutines[g]);
    AdvanceMovesOne(s, g, choice);
    NextKind(s, s.goroutines[g], choice);
    MovedComesFrom(s, Step(s, Advance(g, choice)), g, MoveOf(s, s.goroutines[g], choice).next, h);
  }

  lemma OtherComesFrom(s: State, a: Action, h: nat)
    requires Enabled(s, a) && !a.Advance? && h in Step(s, a).goroutines
    ensures ComesFrom(s, Step(s, a), h)
  {
    if h !in s.goroutines { BegunComesFrom(s, Step(s, a), h, h); }
  }

  lemma WhereFrom(s: State, a: Action, h: nat)
    requires Sound(s) && AllPlaced(s) && Enabled(s, a) && h in Step(s, a).goroutines
    ensures ComesFrom(s, Step(s, a), h)
  {
    match a {
      case Advance(g, choice) => AdvanceComesFrom(s, g, choice, h);
      case _ => OtherComesFrom(s, a, h);
    }
  }

  // A join gets under way with a new session, and a publication with a new track.
  lemma GettingUnderWay(s: State, s': State, xs: nat, t: Track)
    requires Sound(s) && forall g :: g in s'.goroutines ==> ComesFrom(s, s', g)
    ensures xs in s.sessions && JoinUnderWay(s', xs) ==> JoinUnderWay(s, xs)
    ensures Issued(s, t) && PublicationUnderWay(s', t) ==> PublicationUnderWay(s, t)
  {
    InsertionIsNew(s);
    if xs in s.sessions && JoinUnderWay(s', xs) {
      var g :| g in s'.goroutines && Joins(s'.goroutines[g]) && s'.goroutines[g].session == xs;
      assert ComesFrom(s, s', g);
    }
    if Issued(s, t) && PublicationUnderWay(s', t) {
      var g :| g in s'.goroutines && Announces(s'.goroutines[g]) && s'.goroutines[g].track == t;
      assert ComesFrom(s, s', g);
    }
  }

  lemma InsertionIsNew(s: State)
    requires Sound(s)
    ensures s.nextSession !in s.sessions
  {
    assert forall id :: id in s.sessions ==> SessionOk(s, id) && id < s.nextSession;
  }

  // A side that has attached while the other is under way, or that finds the other's sender there,
  // has overlapped with it.
  ghost predicate Told(states: seq<State>, n: nat, xs: nat, t: Track)
    requires n < |states|
  {
    var s, over := states[n], Overlapped(states, n, xs, t);
    && (HasFrom(s, xs, t, ByPublication) && JoinUnderWay(s, xs) ==> over)
    && (HasFrom(s, xs, t, ByJoin) && PublicationUnderWay(s, t) ==> over)
    && (HasFrom(s, xs, t, ByJoin) && HasFrom(s, xs, t, ByPublication) ==> over)
  }

  lemma OverlappedSoFar(states: seq<State>, n: nat, xs: nat, t: Track)
    requires n + 1 < |states|
    ensures Overlapped(states, n, xs, t) ==> Overlapped(states, n + 1, xs, t)
    ensures Overlap(states[n], xs, t) ==> Overlapped(states, n + 1, xs, t)
  {
    if Overlapped(states, n, xs, t) {
      var i :| 0 <= i <= n && Overlap(states[i], xs, t);
      assert 0 <= i <= n + 1;
    }
    if Overlap(states[n], xs, t) { assert 0 <= n <= n + 1; }
  }

  lemma StepTells(states: seq<State>, actions: seq<Action>, n: nat, xs: nat, t: Track)
    requires IsRun(states, actions) && n < |actions| && Sound(states[n]) && OnceOk(states[n])
    requires Told(states, n, xs, t)
    ensures Told(states, n + 1, xs, t)
  {
    var s, s' := states[n], states[n + 1];
    assert IsStep(states, actions, n);
    OverlappedSoFar(states, n, xs, t);
    forall g | g in s'.goroutines ensures ComesFrom(s, s', g) {
      WhereFrom(s, actions[n], g);
    }
    GettingUnderWay(s, s', xs, t);
    HadBefore(s, actions[n], xs, t, ByJoin);
    HadBefore(s, actions[n], xs, t, ByPublication);
    assert HasFrom(s, xs, t, ByJoin) ==> Issued(s, t);
  }

  // A sender found after a step was there before, or the one who attached it was under way.
  lemma HadBefore(s: State, a: Action, xs: nat, t: Track, side: Side)
    requires Sound(s) && AllPlaced(s) && Enabled(s, a)
    ensures HasFrom(Step(s, a), xs, t, side) && !HasFrom(s, xs, t, side) ==>
              && xs in s.sessions && Issued(s, t)
              && (side == ByJoin ==> JoinUnderWay(s, xs)) && (side == ByPublication ==> PublicationUnderWay(s, t))
  {
    if HasFrom(Step(s, a), xs, t, side) && !HasFrom(s, xs, t, side) {
      AttachingTells(s, a, xs, t, side);
    }
  }

  lemma {:induction false} RunTells(states: seq<State>, actions: seq<Action>, n: nat, xs: nat, t: Track)
    requires IsRun(states, actions) && n <= |actions|
    ensures Told(states, n, xs, t)
  {
    if n == 0 {
    } else {
      RunTells(states, actions, n - 1, xs, t);
      RunKeepsOnce(states, actions, n - 1);
      StepTells(states, actions, n - 1, xs, t);
    }
  }

  // A session never carries a track more than twice, and it carries it at most once unless its
  // join and the track's publication were under way at the same time.
  lemma OnceUnlessOverlapped(states: seq<State>, actions: seq<Action>, n: nat, xs: nat, t: Track)
    requires IsRun(states, actions) && n <= |actions| && xs in states[n].sessions
    ensures |Copies(states[n], xs, t)| <= if Overlapped(states, n, xs, t) then 2 else 1
  {
    RunKeepsOnce(states, actions, n);
    RunTells(states, actions, n, xs, t);
    CopiesBySide(states[n], xs, t);
  }

  // So whenever the two did not overlap, the finished protocol has attached the track exactly once.
  lemma ExactlyOnce(states: seq<State>, actions: seq<Action>, n: nat, p: ClientId, x: ClientId)
    requires IsRun(states, actions) && n <= |actions| && Meet(states[n], p, x)
    requires JoinFinished(states[n], states[n].store[x])
    requires PublicationFinished(states[n], CurrentTrack(states[n], p))
    requires (CurrentTrack(states[n], p), states[n].store[x]) !in states[n].refused
    requires !Overlapped(states, n, states[n].store[x], CurrentTrack(states[n], p))
    ensures |Copies(states[n], states[n].store[x], CurrentTrack(states[n], p))| == 1
  {
    var s, xs, t := states[n], states[n].store[x], CurrentTrack(states[n], p);
    OnceUnlessOverlapped(states, actions, n, xs, t);
    NoMissedSpeaker(states, actions, n, p, x);
    var a :| a in s.sessions[xs].pc && a.track == t;
    assert a in Copies(s, xs, t);
  }

  /// Two writes and two reads

  ghost predicate Holds(s: State, xs: nat, t: Track, side: Side) {
    exists g :: g in s.goroutines && HoldsAt(s.goroutines[g], xs, t, side)
  }

  ghost predicate Saw(states: seq<State>, n: nat, xs: nat, t: Track, side: Side)
    requires n < |states|
  {
    exists i :: 0 <= i <= n && Holds(states[i], xs, t, side)
  }

  lemma SawSoFar(states: seq<State>, n: nat, xs: nat, t: Track, side: Side)
    requires n < |states|
    ensures Saw(states, n, xs, t, side) <==>
            Holds(states[n], xs, t, side) || (n > 0 && Saw(states, n - 1, xs, t, side))
  {
    if Saw(states, n, xs, t, side) {
      var i :| 0 <= i <= n && Holds(states[i], xs, t, side);
      assert i < n ==> 0 <= i <= n - 1;
    }
    if n > 0 && Saw(states, n - 1, xs, t, side) {
      var i :| 0 <= i <= n - 1 && Holds(states[i], xs, t, side);
      assert 0 <= i <= n;
    }
    if Holds(states[n], xs, t, side) { assert 0 <= n <= n; }
  }

  lemma {:induction false} AttachedAfterReading(states: seq<State>, actions: seq<Action>, n: nat, xs: nat, t: Track,
                                                side: Side)
    requires IsRun(states, actions) && n <= |actions| && HasFrom(states[n], xs, t, side)
    ensures Saw(states, n, xs, t, side)
  {
    if n == 0 {
    } else {
      assert IsStep(states, actions, n - 1);
      SawSoFar(states, n, xs, t, side);
      if HasFrom(states[n - 1], xs, t, side) {
        AttachedAfterReading(states, actions, n - 1, xs, t, side);
      } else {
        RunKeepsOnce(states, actions, n - 1);
        AttachingTells(states[n - 1], actions[n - 1], xs, t, side);
        SawSoFar(states, n - 1, xs, t, side);
        assert HoldsAt(states[n - 1].goroutines[actions[n - 1].g], xs, t, side);
      }
    }
  }

  // Session xs is in the store and t is current: neither has been given up.
  ghost predicate InForce(s: State, xs: nat, t: Track) {
    && xs in s.sessions && Live(s, xs)
    && t.session in s.sessions && s.sessions[t.session].localTrack == Some(t)
  }

  lemma InForceBefore(s: State, s': State, xs: nat, t: Track)
    requires Evolves(s, s') && InForce(s', xs, t) && xs in s.sessions && Issued(s, t)
    ensures InForce(s, xs, t)
  {
    assert SessionEvolves(s, s', xs) && SessionEvolves(s, s', t.session);
  }

  lemma StepEvolves(s: State, a: Action)
    requires Sound(s) && AllPlaced(s) && Enabled(s, a)
    ensures Evolves(s, Step(s, a))
  {
    match a {
      case BeginJoin(g, c) =>
        InsertionEvolves(s, c);
        forall id | id in s.sessions ensures SessionEvolves(s, Step(s, a), id) {
          assert SessionEvolves(s, Inserted(s, c), id);
        }
      case Advance(g, choice) =>
        var m := Advanced(s, g, choice);
        MovedEvolves(s, g, m);
      case _ =>
        forall id | id in s.sessions ensures SessionEvolves(s, Step(s, a), id) {}
    }
  }

  lemma RunEvolves(states: seq<State>, actions: seq<Action>, n: nat)
    requires IsRun(states, actions) && n < |actions|
    ensures Evolves(states[n], states[n + 1])
  {
    RunKeepsOnce(states, actions, n);
    assert IsStep(states, actions, n);
    StepEvolves(states[n], actions[n]);
  }

  // What was read while both are in force is attached, refused, or about to be attached.
  ghost predicate Answered(s: State, xs: nat, t: Track, side: Side) {
    HasFrom(s, xs, t, side) || (t, xs) in s.refused || Holds(s, xs, t, side)
  }

  lemma HeldIsAnswered(s: State, g: nat, m: Move, xs: nat, t: Track, side: Side)
    requires g in s.goroutines && MoveOk(s, m) && xs in s.sessions && Holds(s, xs, t, side)
    requires HoldsAt(s.goroutines[g], xs, t, side) ==> m.update == Attach(xs, t, side) || m.update == Refuse(xs, t)
    ensures Answered(Moved(s, g, m), xs, t, side)
  {
    var s' := Moved(s, g, m);
    var h :| h in s.goroutines && HoldsAt(s.goroutines[h], xs, t, side);
    if h == g {
      assert m.update.Attach? ==> NextSender(s, xs, t, side) in s'.sessions[xs].pc;
    } else {
      UpdateMovesNobody(s, m.update);
      assert h in s'.goroutines && s'.goroutines[h] == s.goroutines[h];
    }
  }

  lemma MoveAnswers(s: State, g: nat, m: Move, xs: nat, t: Track, side: Side)
    requires Sound(s) && g in s.goroutines && MoveOk(s, m) && InForce(s, xs, t) && Answered(s, xs, t, side)
    requires HoldsAt(s.goroutines[g], xs, t, side) ==> m.update == Attach(xs, t, side) || m.update == Refuse(xs, t)
    ensures Answered(Moved(s, g, m), xs, t, side)
  {
    if HasFrom(s, xs, t, side) {
      var b :| b in s.sessions[xs].pc && b.track == t && b.side == side;
      CurrentSenderStays(s, m.update, xs, b);
    } else if (t, xs) !in s.refused {
      HeldIsAnswered(s, g, m, xs, t, side);
    }
  }

  // A stop removes only senders of tracks that are no longer current.
  lemma CurrentSenderStays(s: State, u: Update, xs: nat, b: Sender)
    requires UpdateOk(s, u) && InForce(s, xs, b.track) && b in s.sessions[xs].pc
    ensures b in Apply(s, u).sessions[xs].pc
  {
  }

  lemma AttachOrRefuse(s: State, g: Goroutine, choice: Choice, xs: nat, t: Track, side: Side)
    requires Sound(s) && Known(s, g) && InForce(s, xs, t) && HoldsAt(g, xs, t, side)
    ensures var u := MoveOf(s, g, choice).update; u == Attach(xs, t, side) || u == Refuse(xs, t)
  {
    assert SessionOk(s, xs);
  }

  lemma AdvanceAnswers(s: State, g: nat, choice: Choice, xs: nat, t: Track, side: Side)
    requires Sound(s) && Enabled(s, Advance(g, choice)) && InForce(s, xs, t) && Answered(s, xs, t, side)
    ensures Answered(Step(s, Advance(g, choice)), xs, t, side)
  {
    assert GoroutineOk(s, s.goroutines[g]);
    MoveIsOk(s, s.goroutines[g], choice);
    if HoldsAt(s.goroutines[g], xs, t, side) { AttachOrRefuse(s, s.goroutines[g], choice, xs, t, side); }
    MoveAnswers(s, g, MoveOf(s, s.goroutines[g], choice), xs, t, side);
  }

  lemma StepAnswers(s: State, a: Action, xs: nat, t: Track, side: Side)
    requires Sound(s) && Enabled(s, a) && InForce(s, xs, t) && Answered(s, xs, t, side)
    ensures Answered(Step(s, a), xs, t, side)
  {
    match a {
      case Advance(g, choice) => AdvanceAnswers(s, g, choice, xs, t, side);
      case _ =>
        InsertionIsNew(s);
        StandingStillAnswers(s, Step(s, a), xs, t, side);
    }
  }

  lemma StandingStillAnswers(s: State, s': State, xs: nat, t: Track, side: Side)
    requires InForce(s, xs, t) && Answered(s, xs, t, side)
    requires xs in s'.sessions && s'.sessions[xs] == s.sessions[xs] && s'.refused == s.refused
    requires forall g :: g in s.goroutines ==> g in s'.goroutines && s'.goroutines[g] == s.goroutines[g]
    ensures Answered(s', xs, t, side)
  {
    if Holds(s, xs, t, side) {
      var g :| g in s.goroutines && HoldsAt(s.goroutines[g], xs, t, side);
      assert g in s'.goroutines;
    }
  }

  lemma RunAnswers(states: seq<State>, actions: seq<Action>, n: nat, xs: nat, t: Track, side: Side)
    requires IsRun(states, actions) && n < |actions| && InForce(states[n], xs, t) && Answered(states[n], xs, t, side)
    ensures Answered(states[n + 1], xs, t, side)
  {
    RunIsSound(states, actions, n);
    assert IsStep(states, actions, n);
    StepAnswers(states[n], actions[n], xs, t, side);
  }

  lemma {:induction false} ReadsAreAnswered(states: seq<State>, actions: seq<Action>, n: nat, xs: nat, t: Track,
                                            side: Side)
    requires IsRun(states, actions) && n <= |actions| && InForce(states[n], xs, t) && Saw(states, n, xs, t, side)
    ensures Answered(states[n], xs, t, side)
  {
    SawSoFar(states, n, xs, t, side);
    if Holds(states[n], xs, t, side) {
    } else {
      SeenIsKnown(states, actions, n - 1, xs, t, side);
      RunEvolves(states, actions, n - 1);
      InForceBefore(states[n - 1], states[n], xs, t);
      ReadsAreAnswered(states, actions, n - 1, xs, t, side);
      RunAnswers(states, actions, n - 1, xs, t, side);
    }
  }

  lemma HeldIsKnown(s: State, xs: nat, t: Track, side: Side)
    requires Sound(s) && Holds(s, xs, t, side)
    ensures xs in s.sessions && Issued(s, t)
  {
    var g :| g in s.goroutines && HoldsAt(s.goroutines[g], xs, t, side);
    assert GoroutineOk(s, s.goroutines[g]);
  }

  lemma {:induction false} SeenIsKnown(states: seq<State>, actions: seq<Action>, n: nat, xs: nat, t: Track, side: Side)
    requires IsRun(states, actions) && n <= |actions| && Saw(states, n, xs, t, side)
    ensures xs in states[n].sessions && Issued(states[n], t)
  {
    SawSoFar(states, n, xs, t, side);
    RunIsSound(states, actions, n);
    if Holds(states[n], xs, t, side) {
      HeldIsKnown(states[n], xs, t, side);
    } else {
      SeenIsKnown(states, actions, n - 1, xs, t, side);
      RunEvolves(states, actions, n - 1);
      IssuedForGood(states[n - 1], states[n], t);
    }
  }

  lemma IssuedForGood(s: State, s': State, t: Track)
    requires Evolves(s, s') && Issued(s, t)
    ensures Issued(s', t)
  {
  }

  // How often, exactly: when both are over and nothing was refused, the listener carries the track
  // twice if each side read what the other had written, and once otherwise.
  lemma TwiceIffBothSaw(states: seq<State>, actions: seq<Action>, n: nat, p: ClientId, x: ClientId)
    requires IsRun(states, actions) && n <= |actions| && Meet(states[n], p, x)
    requires JoinFinished(states[n], states[n].store[x])
    requires PublicationFinished(states[n], CurrentTrack(states[n], p))
    requires (CurrentTrack(states[n], p), states[n].store[x]) !in states[n].refused
    ensures var xs, t := states[n].store[x], CurrentTrack(states[n], p);
            |Copies(states[n], xs, t)|
            == if Saw(states, n, xs, t, ByJoin) && Saw(states, n, xs, t, ByPublication) then 2 else 1
  {
    var s, xs, t := states[n], states[n].store[x], CurrentTrack(states[n], p);
    RunKeepsOnce(states, actions, n);
    assert SessionOk(s, s.store[p]);
    SideIff(states, actions, n, xs, t, ByJoin);
    SideIff(states, actions, n, xs, t, ByPublication);
    CopiesBySide(s, xs, t);
    NoMissedSpeaker(states, actions, n, p, x);
    var a :| a in s.sessions[xs].pc && a.track == t;
    assert HasFrom(s, xs, t, a.side);
  }

  lemma SideIff(states: seq<State>, actions: seq<Action>, n: nat, xs: nat, t: Track, side: Side)
    requires IsRun(states, actions) && n <= |actions| && InForce(states[n], xs, t)
    requires (t, xs) !in states[n].refused && !Holds(states[n], xs, t, side)
    ensures HasFrom(states[n], xs, t, side) <==> Saw(states, n, xs, t, side)
  {
    if HasFrom(states[n], xs, t, side) { AttachedAfterReading(states, actions, n, xs, t, side); }
    if Saw(states, n, xs, t, side) { ReadsAreAnswered(states, actions, n, xs, t, side); }
  }

  /// A run in which they overlap

  ghost predicate Reachable(s: State) {
    exists states, actions :: IsRun(states, actions) && states[|actions|] == s
  }

  lemma ReachableStep(s: State, a: Action)
    requires Reachable(s) && Enabled(s, a)
    ensures Reachable(Step(s, a))
  {
    var states, actions :| IsRun(states, actions) && states[|actions|] == s;
    var states', actions' := states + [Step(s, a)], actions + [a];
    forall i | 0 <= i < |actions'| ensures IsStep(states', actions', i) {
      assert i < |actions| ==> IsStep(states, actions, i);
    }
    assert IsRun(states', actions');
  }

  const SPEAKER: ClientId := "p"
  const LISTENER: ClientId := "x"
  const BOTH: Choice := Choice([SPEAKER, LISTENER], false, SPEAKER)
  const ON_AIR: Track := Track(0, 0)
  const FRESH: Session := Session(SPEAKER, None, map[], {}, 0, false)

  // The speaker's session 0 and the listener's session 1, with the listener's join as goroutine 1
  // and the speaker's publication as goroutine 2.
  function Scene(speaker: Session, carried: set<Sender>, join: Goroutine, publish: Goroutine): State {
    State(map[SPEAKER := 1, LISTENER := 1], map[SPEAKER := 1, LISTENER := 2], {SPEAKER, LISTENER}, {(1, 1)},
          map[SPEAKER := 0, LISTENER := 1],
          map[0 := speaker, 1 := Session(LISTENER, None, map[], carried, |carried|, false)],
          map[0 := JoinAsk(0), 1 := join, 2 := publish], 2,
          if speaker.localTrack.None? then 0 else 1, if speaker.localTrack.None? then {} else {ON_AIR}, {})
  }

  lemma CastArrives()
    ensures Reachable(Step(Step(Step(START, Register(SPEAKER, 1, 1)), Register(LISTENER, 1, 2)), Grant(1, 1)))
  {
    assert IsRun([START], []);
    var s := START;
    assert Reachable(s);
    ReachableStep(s, Register(SPEAKER, 1, 1));
    s := Step(s, Register(SPEAKER, 1, 1));
    ReachableStep(s, Register(LISTENER, 1, 2));
    s := Step(s, Register(LISTENER, 1, 2));
    ReachableStep(s, Grant(1, 1));
  }

  lemma SceneOpens()
    ensures Reachable(Scene(FRESH, {}, JoinAsk(1), RowRead(0)))
  {
    CastArrives();
    var s := Step(Step(Step(START, Register(SPEAKER, 1, 1)), Register(LISTENER, 1, 2)), Grant(1, 1));
    ReachableStep(s, BeginJoin(0, SPEAKER));
    s := Step(s, BeginJoin(0, SPEAKER));
    assert s.goroutines == map[0 := JoinAsk(0)];
    ReachableStep(s, BeginJoin(1, LISTENER));
    s := Step(s, BeginJoin(1, LISTENER));
    ReachableStep(s, BeginPublish(2, 0));
    assert Step(s, BeginPublish(2, 0)) == Scene(FRESH, {}, JoinAsk(1), RowRead(0));
  }

  lemma PublishAdvances(speaker: Session, carried: set<Sender>, join: Goroutine, publish: Goroutine, next: Goroutine)
    requires Reachable(Scene(speaker, carried, join, publish)) && Known(Scene(speaker, carried, join, publish), publish)
    requires MoveOf(Scene(speaker, carried, join, publish), publish, BOTH) == Move(Keep, next)
    requires speaker.client == SPEAKER && !(publish.StopNext? && publish.rest != map[]) && !publish.RevokeAsk?
    ensures Reachable(Scene(speaker, carried, join, next))
  {
    var s := Scene(speaker, carried, join, publish);
    ReachableStep(s, Advance(2, BOTH));
    assert Step(s, Advance(2, BOTH)) == Scene(speaker, carried, join, next);
  }

  lemma JoinAdvances(speaker: Session, join: Goroutine, publish: Goroutine, next: Goroutine)
    requires Reachable(Scene(speaker, {}, join, publish)) && Known(Scene(speaker, {}, join, publish), join)
    requires MoveOf(Scene(speaker, {}, join, publish), join, BOTH) == Move(Keep, next)
    requires speaker.client == SPEAKER && Joins(join)
    ensures Reachable(Scene(speaker, {}, next, publish))
  {
    var s := Scene(speaker, {}, join, publish);
    ReachableStep(s, Advance(1, BOTH));
    assert Step(s, Advance(1, BOTH)) == Scene(speaker, {}, next, publish);
  }

  const SPEAKING: Session := FRESH.(localTrack := Some(ON_AIR))

  lemma NobodyToStop()
    ensures Reachable(Scene(FRESH, {}, JoinAsk(1), StopTake(SPEAKER, 0, Republish(0))))
  {
    var join, next := JoinAsk(1), Republish(0);
    SceneOpens();
    PublishAdvances(FRESH, {}, join, RowRead(0), StopGet(SPEAKER, next));
    PublishAdvances(FRESH, {}, join, StopGet(SPEAKER, next), StopTake(SPEAKER, 0, next));
  }

  lemma NothingToTake()
    ensures Reachable(Scene(FRESH, {}, JoinAsk(1), StopNext(SPEAKER, map[], Republish(0))))
  {
    var join, next := JoinAsk(1), Republish(0);
    NobodyToStop();
    var s := Scene(FRESH, {}, join, StopTake(SPEAKER, 0, next));
    ReachableStep(s, Advance(2, BOTH));
    assert Step(s, Advance(2, BOTH)) == Scene(FRESH, {}, join, StopNext(SPEAKER, map[], next));
  }

  lemma StopPrecedesPublication()
    ensures Reachable(Scene(FRESH, {}, JoinAsk(1), PublishStart(0)))
  {
    var join, next := JoinAsk(1), Republish(0);
    NothingToTake();
    PublishAdvances(FRESH, {}, join, StopNext(SPEAKER, map[], next), PublishStart(0));
  }

  lemma TrackIsSet()
    ensures Reachable(Scene(SPEAKING, {}, JoinAsk(1), PublishAsk(0, ON_AIR)))
  {
    StopPrecedesPublication();
    var s := Scene(FRESH, {}, JoinAsk(1), PublishStart(0));
    assert MoveOf(s, PublishStart(0), BOTH) == Move(Start(0), PublishAsk(0, ON_AIR));
    assert Apply(s, Start(0)).sessions == Scene(SPEAKING, {}, JoinAsk(1), PublishStart(0)).sessions;
    ReachableStep(s, Advance(2, BOTH));
    assert Step(s, Advance(2, BOTH)) == Scene(SPEAKING, {}, JoinAsk(1), PublishAsk(0, ON_AIR));
  }

  lemma PublicationStarts()
    ensures Reachable(Scene(SPEAKING, {}, JoinAsk(1), PublishAttach(0, ON_AIR, LISTENER, 1, [])))
  {
    var join := JoinAsk(1);
    TrackIsSet();
    assert [SPEAKER, LISTENER][1..] == [LISTENER] && [LISTENER][1..] == [];
    assert LISTENER != SPEAKER;
    PublishAdvances(SPEAKING, {}, join, PublishAsk(0, ON_AIR), PublishNext(0, ON_AIR, [SPEAKER, LISTENER]));
    PublishAdvances(SPEAKING, {}, join,
                    PublishNext(0, ON_AIR, [SPEAKER, LISTENER]), PublishNext(0, ON_AIR, [LISTENER]));
    PublishAdvances(SPEAKING, {}, join, PublishNext(0, ON_AIR, [LISTENER]), PublishAttach(0, ON_AIR, LISTENER, 1, []));
  }

  lemma BothAboutToAttach()
    ensures Reachable(Scene(SPEAKING, {}, JoinAttach(1, SPEAKER, 0, ON_AIR, [LISTENER]),
                            PublishAttach(0, ON_AIR, LISTENER, 1, [])))
  {
    var publish := PublishAttach(0, ON_AIR, LISTENER, 1, []);
    PublicationStarts();
    assert [SPEAKER, LISTENER][1..] == [LISTENER] && LISTENER != SPEAKER;
    JoinAdvances(SPEAKING, JoinAsk(1), publish, JoinNext(1, [SPEAKER, LISTENER]));
    JoinAdvances(SPEAKING, JoinNext(1, [SPEAKER, LISTENER]), publish, JoinRead(1, SPEAKER, 0, [LISTENER]));
    JoinAdvances(SPEAKING, JoinRead(1, SPEAKER, 0, [LISTENER]), publish, JoinReread(1, SPEAKER, 0, [LISTENER]));
    JoinAdvances(SPEAKING, JoinReread(1, SPEAKER, 0, [LISTENER]), publish,
                 JoinAttach(1, SPEAKER, 0, ON_AIR, [LISTENER]));
  }

  lemma JoinAttachesFirst()
    ensures Reachable(Scene(SPEAKING, {Sender(1, 0, ON_AIR, ByJoin)},
                            JoinRecord(1, 0, Sender(1, 0, ON_AIR, ByJoin), [LISTENER]),
                            PublishAttach(0, ON_AIR, LISTENER, 1, [])))
  {
    BothAboutToAttach();
    var publish := PublishAttach(0, ON_AIR, LISTENER, 1, []);
    var s := Scene(SPEAKING, {}, JoinAttach(1, SPEAKER, 0, ON_AIR, [LISTENER]), publish);
    var one := Sender(1, 0, ON_AIR, ByJoin);
    ReachableStep(s, Advance(1, BOTH));
    assert Step(s, Advance(1, BOTH)).sessions
           == Scene(SPEAKING, {one}, JoinRecord(1, 0, one, [LISTENER]), publish).sessions;
    assert Step(s, Advance(1, BOTH)) == Scene(SPEAKING, {one}, JoinRecord(1, 0, one, [LISTENER]), publish);
  }

  // A join and a publication that overlap can put the same track on a connection twice.
  lemma OverlapAttachesTwice()
    ensures exists s :: Reachable(s) && Meet(s, SPEAKER, LISTENER)
                        && (exists one, two :: one != two && one in s.sessions[s.store[LISTENER]].pc
                                               && two in s.sessions[s.store[LISTENER]].pc
                                               && one.track == CurrentTrack(s, SPEAKER) == two.track)
  {
    JoinAttachesFirst();
    var one, two := Sender(1, 0, ON_AIR, ByJoin), Sender(1, 1, ON_AIR, ByPublication);
    var s := Scene(SPEAKING, {one}, JoinRecord(1, 0, one, [LISTENER]), PublishAttach(0, ON_AIR, LISTENER, 1, []));
    ReachableStep(s, Advance(2, BOTH));
    var s' := Step(s, Advance(2, BOTH));
    assert one in s'.sessions[1].pc && two in s'.sessions[1].pc;
    assert Meet(s', SPEAKER, LISTENER) && CurrentTrack(s', SPEAKER) == ON_AIR;
  }

  /// A track withdrawn between the two reads

  // The speaker's session, with a stop of it as goroutine 3 while the listener's join is under way.
  function Stopping(speaker: Session, stop: Goroutine): State {
    At(Scene(SPEAKING, {}, JoinReread(1, SPEAKER, 0, [LISTENER]), PublishAsk(0, ON_AIR)), 3, stop)
      .(sessions := map[0 := speaker, 1 := Session(LISTENER, None, map[], {}, 0, false)],
        open := if speaker.localTrack.None? then {} else {ON_AIR})
  }

  lemma TrackIsRead()
    ensures Reachable(Scene(SPEAKING, {}, JoinReread(1, SPEAKER, 0, [LISTENER]), PublishAsk(0, ON_AIR)))
  {
    TrackIsSet();
    assert [SPEAKER, LISTENER][1..] == [LISTENER] && LISTENER != SPEAKER;
    JoinAdvances(SPEAKING, JoinAsk(1), PublishAsk(0, ON_AIR), JoinNext(1, [SPEAKER, LISTENER]));
    JoinAdvances(SPEAKING, JoinNext(1, [SPEAKER, LISTENER]), PublishAsk(0, ON_AIR),
                 JoinRead(1, SPEAKER, 0, [LISTENER]));
    JoinAdvances(SPEAKING, JoinRead(1, SPEAKER, 0, [LISTENER]), PublishAsk(0, ON_AIR),
                 JoinReread(1, SPEAKER, 0, [LISTENER]));
  }

  lemma StopBegins()
    ensures Reachable(Stopping(SPEAKING, StopGet(SPEAKER, End)))
  {
    TrackIsRead();
    var s := Scene(SPEAKING, {}, JoinReread(1, SPEAKER, 0, [LISTENER]), PublishAsk(0, ON_AIR));
    ReachableStep(s, BeginStop(3, SPEAKER));
    assert Step(s, BeginStop(3, SPEAKER)) == Stopping(SPEAKING, StopGet(SPEAKER, End));
  }

  lemma StopComesToSession()
    ensures Reachable(Stopping(SPEAKING, StopTake(SPEAKER, 0, End)))
  {
    StopBegins();
    var s := Stopping(SPEAKING, StopGet(SPEAKER, End));
    ReachableStep(s, Advance(3, BOTH));
    assert Step(s, Advance(3, BOTH)) == Stopping(SPEAKING, StopTake(SPEAKER, 0, End));
  }

  // A run in which a join that has seen a track finds none at its second read, where the program
  // passes nil on to the library.
  lemma WithdrawnBetweenReads()
    ensures exists s, g :: Reachable(s) && g in s.goroutines && s.goroutines[g].JoinReread?
                           && s.goroutines[g].peer in s.sessions && s.sessions[s.goroutines[g].peer].localTrack.None?
  {
    StopComesToSession();
    var s := Stopping(SPEAKING, StopTake(SPEAKER, 0, End));
    assert MoveOf(s, s.goroutines[3], BOTH) == Move(Silence(0), StopNext(SPEAKER, map[], End));
    ReachableStep(s, Advance(3, BOTH));
    var s' := Step(s, Advance(3, BOTH));
    assert s' == Moved(s, 3, Move(Silence(0), StopNext(SPEAKER, map[], End)));
    assert s'.goroutines[1].JoinReread? && s'.sessions[0].localTrack.None?;
  }
}
