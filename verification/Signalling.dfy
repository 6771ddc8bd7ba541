/** Offer/answer signalling of one session and the queue of early ICE candidates. */
module Signalling {
  import opened Wrappers

  // Candidates are told apart by the order of their arrival.
  datatype Candidate = Candidate(serial: nat, text: string)

  datatype SignalingState = Stable | HaveLocalOffer | HaveRemoteOffer

  // `handed` are the candidates passed to the peer connection, `pending` those kept back.
  datatype Ice = Ice(state: SignalingState, hasRemote: bool, handed: seq<Candidate>, pending: seq<Candidate>)

  const NEW_SESSION := Ice(Stable, false, [], [])

  // What the peer connection makes of a description: it can be refused, and an accepted offer
  // can still fail to be answered.
  datatype Event =
    | Offer(applies: bool, answers: bool)
    | Answer(applies: bool)
    | LocalOffer(succeeds: bool)
    | Arrived(candidate: Candidate)

  function Flushed(s: Ice): Ice { s.(handed := s.handed + s.pending, pending := []) }

  function Step(s: Ice, e: Event): Ice {
    match e
    case Offer(applies, answers) =>
      if s.state != Stable || !applies then s
      else if !answers then s.(state := HaveRemoteOffer, hasRemote := true)
      else Flushed(s.(hasRemote := true))
    case Answer(applies) =>
      if s.state != HaveLocalOffer || !applies then s
      else Flushed(s.(state := Stable, hasRemote := true))
    case LocalOffer(succeeds) =>
      if succeeds && s.state != HaveRemoteOffer then s.(state := HaveLocalOffer) else s
    case Arrived(c) =>
      if s.hasRemote then s.(handed := s.handed + [c]) else s.(pending := s.pending + [c])
  }

  /// The session's own code

  class PeerConnection {
    var state: SignalingState
    var hasRemote: bool
    var handed: seq<Candidate>

    constructor ()
      ensures state == Stable && !hasRemote && handed == []
    {
      state, hasRemote, handed := Stable, false, [];
    }

    // The parameter is the peer connection's own verdict on the description.
    method SetRemoteOffer(applies: bool) returns (ok: bool)
      modifies this
      ensures ok == applies && handed == old(handed)
      ensures state == if ok then HaveRemoteOffer else old(state)
      ensures hasRemote == (ok || old(hasRemote))
    {
      if applies { state, hasRemote := HaveRemoteOffer, true; }
      ok := applies;
    }

    method SetRemoteAnswer(applies: bool) returns (ok: bool)
      modifies this
      ensures ok == applies && handed == old(handed)
      ensures state == if ok then Stable else old(state)
      ensures hasRemote == (ok || old(hasRemote))
    {
      if applies { state, hasRemote := Stable, true; }
      ok := applies;
    }

    method SetLocalAnswer(succeeds: bool) returns (ok: bool)
      modifies this`state
      ensures ok == succeeds && state == if ok then Stable else old(state)
    {
      if succeeds { state := Stable; }
      ok := succeeds;
    }

    method AddICECandidate(c: Candidate, accepts: bool) returns (ok: bool)
      modifies this`handed
      ensures ok == accepts && handed == old(handed) + [c]
    {
      handed := handed + [c];
      ok := accepts;
    }
  }

  class Session {
    const pc: PeerConnection
    var pending: seq<Candidate>

    constructor (pc: PeerConnection)
      ensures this.pc == pc && pending == []
    {
      this.pc := pc;
      pending := [];
    }

    ghost function View(): Ice
      reads this, pc
    {
      Ice(pc.state, pc.hasRemote, pc.handed, pending)
    }

    method AddRemoteCandidate(c: Candidate, accepts: bool) returns (ok: bool)
      modifies this, pc
      ensures View() == Step(old(View()), Arrived(c))
      ensures ok <==> (old(pc.hasRemote) ==> accepts)
    {
      if !pc.hasRemote {
        pending := pending + [c];
        return true;
      }
      ok := pc.AddICECandidate(c, accepts);
    }

    // Hands over everything that waited, in order, whatever the peer connection says to each;
    // the first complaint is reported.
    method FlushRemoteCandidates(accepts: Candidate -> bool) returns (firstErr: Option<Candidate>)
      modifies this, pc
      ensures View() == Flushed(old(View()))
      ensures firstErr.None? <==> forall c :: c in old(pending) ==> accepts(c)
      ensures firstErr.Some? ==> exists i :: 0 <= i < |old(pending)| && old(pending)[i] == firstErr.value
                                   && !accepts(old(pending)[i]) && forall j :: 0 <= j < i ==> accepts(old(pending)[j])
    {
      firstErr := None;
      for i := 0 to |pending|
        invariant pending == old(pending)
        invariant pc.state == old(pc.state) && pc.hasRemote == old(pc.hasRemote)
        invariant pc.handed == old(pc.handed) + pending[..i]
        invariant firstErr.None? <==> forall j :: 0 <= j < i ==> accepts(pending[j])
        invariant firstErr.Some? ==> exists k :: 0 <= k < i && pending[k] == firstErr.value
                                       && !accepts(pending[k]) && forall j :: 0 <= j < k ==> accepts(pending[j])
      {
        var ok := pc.AddICECandidate(pending[i], accepts(pending[i]));
        if !ok && firstErr == None {
          firstErr := Some(pending[i]);
        }
        assert pending[..i + 1] == pending[..i] + [pending[i]];
      }
      assert pending[..|pending|] == pending;
      pending := [];
    }
  }

  // The offer handler's part after the membership check, for a client that has a session.
  method HandleOffer(session: Session, applies: bool, answers: bool, accepts: Candidate -> bool)
    returns (answered: bool)
    modifies session, session.pc
    ensures session.View() == Step(old(session.View()), Offer(applies, answers))
    ensures answered <==> old(session.pc.state) == Stable && applies && answers
  {
    if session.pc.state != Stable {
      return false;
    }
    var ok := session.pc.SetRemoteOffer(applies);
    if !ok {
      return false;
    }
    ok := session.pc.SetLocalAnswer(answers);
    if !ok {
      return false;
    }
    var _ := session.FlushRemoteCandidates(accepts);
    return true;
  }

  method HandleAnswer(session: Session, applies: bool, accepts: Candidate -> bool) returns (handled: bool)
    modifies session, session.pc
    ensures session.View() == Step(old(session.View()), Answer(applies))
    ensures handled <==> old(session.pc.state) == HaveLocalOffer && applies
  {
    if session.pc.state != HaveLocalOffer {
      return false;
    }
    var ok := session.pc.SetRemoteAnswer(applies);
    if !ok {
      return false;
    }
    var _ := session.FlushRemoteCandidates(accepts);
    return true;
  }

  // The whole exchange of descriptions (RFC 8829, section 3.2): where each state leads, and that only
  // a completed exchange hands over what waited.
  lemma ExchangeIsExact(s: Ice, e: Event)
    ensures var s' := Step(s, e);
            && (s'.state == HaveRemoteOffer <==>
                  s.state == HaveRemoteOffer || (s.state == Stable && e.Offer? && e.applies && !e.answers))
            && (s'.state == HaveLocalOffer <==>
                  || (s.state == HaveLocalOffer && !(e.Answer? && e.applies))
                  || (s.state == Stable && e.LocalOffer? && e.succeeds))
            && (s'.hasRemote <==>
                  || s.hasRemote || (s.state == Stable && e.Offer? && e.applies)
                  || (s.state == HaveLocalOffer && e.Answer? && e.applies))
            && (s.pending != [] ==>
                  (s'.pending == [] <==>
                     || (s.state == Stable && e.Offer? && e.applies && e.answers)
                     || (s.state == HaveLocalOffer && e.Answer? && e.applies)))
            && (s'.pending == [] || s.pending <= s'.pending) && s.handed <= s'.handed
  {
  }

  /// Conservation and order

  function Run(s: Ice, events: seq<Event>): Ice
    decreases |events|
  {
    if events == [] then s else Run(Step(s, events[0]), events[1..])
  }

  // The candidates that arrived, in order.
  function Accepted(events: seq<Event>): seq<Candidate> {
    if events == [] then []
    else if events[0].Arrived? then [events[0].candidate] + Accepted(events[1..])
    else Accepted(events[1..])
  }

  function Bag(s: Ice): multiset<Candidate> { multiset(s.handed) + multiset(s.pending) }

  lemma StepConserves(s: Ice, e: Event)
    ensures Bag(Step(s, e)) == Bag(s) + if e.Arrived? then multiset{e.candidate} else multiset{}
    ensures s.handed <= Step(s, e).handed && (s.hasRemote ==> Step(s, e).hasRemote)
    ensures Step(s, e).handed != s.handed ==> Step(s, e).hasRemote
  {
    match e {
      case Arrived(c) =>
        assert multiset(s.handed + [c]) == multiset(s.handed) + multiset{c};
        assert multiset(s.pending + [c]) == multiset(s.pending) + multiset{c};
      case _ => assert multiset(s.handed + s.pending) == multiset(s.handed) + multiset(s.pending);
    }
  }

  lemma {:induction false} RunConserves(s: Ice, events: seq<Event>)
    ensures Bag(Run(s, events)) == Bag(s) + multiset(Accepted(events))
    ensures s.hasRemote ==> Run(s, events).hasRemote
    ensures Run(s, events).handed != s.handed ==> Run(s, events).hasRemote
    decreases |events|
  {
    if events == [] {
    } else {
      StepConserves(s, events[0]);
      RunConserves(Step(s, events[0]), events[1..]);
      if events[0].Arrived? {
        assert multiset([events[0].candidate] + Accepted(events[1..]))
               == multiset{events[0].candidate} + multiset(Accepted(events[1..]));
      }
    }
  }

  // Every candidate is either handed over, once, or waiting; none is handed over before there
  // is a remote description.
  lemma CandidatesAreConserved(events: seq<Event>)
    ensures var s := Run(NEW_SESSION, events);
            && multiset(s.handed) + multiset(s.pending) == multiset(Accepted(events))
            && (s.handed != [] ==> s.hasRemote)
  {
    RunConserves(NEW_SESSION, events);
  }

  // An offer was accepted and then not answered while candidates were waiting.
  predicate Stranded(s: Ice) { s.hasRemote && s.pending != [] }

  // Candidates wait next to a remote description only in the state no later event leaves.
  predicate Reachable(s: Ice) { Stranded(s) ==> s.state == HaveRemoteOffer }

  // Some candidate arrives while older ones are stranded.
  predicate Overtakes(s: Ice, events: seq<Event>)
    decreases |events|
  {
    events != [] && ((events[0].Arrived? && Stranded(s)) || Overtakes(Step(s, events[0]), events[1..]))
  }

  lemma {:induction false} StrandedForGood(s: Ice, events: seq<Event>)
    requires Stranded(s) && s.state == HaveRemoteOffer
    ensures Run(s, events) == s.(handed := s.handed + Accepted(events))
    ensures Overtakes(s, events) <==> Accepted(events) != []
    decreases |events|
  {
    if events == [] {
    } else {
      StrandedForGood(Step(s, events[0]), events[1..]);
    }
  }

  lemma {:induction false} OrderKeptFrom(s: Ice, events: seq<Event>, before: seq<Candidate>)
    requires Reachable(s) && s.handed + s.pending == before
    requires Distinct(before + Accepted(events))
    ensures Run(s, events).handed + Run(s, events).pending == before + Accepted(events) <==> !Overtakes(s, events)
    decreases |events|
  {
    if events == [] {
      assert before + [] == before;
    } else if Stranded(s) {
      StrandedForGood(s, events);
      var late := Accepted(events);
      if late == [] {
        assert s.handed + late == s.handed && before + late == before;
      } else {
        LateIsMisplaced(s.handed, s.pending, late);
      }
    } else {
      var s' := Step(s, events[0]);
      var rest := events[1..];
      var now := if events[0].Arrived? then before + [events[0].candidate] else before;
      assert now + Accepted(rest) == before + Accepted(events);
      assert s'.handed + s'.pending == now;
      OrderKeptFrom(s', rest, now);
    }
  }

  lemma LateIsMisplaced(handed: seq<Candidate>, pending: seq<Candidate>, late: seq<Candidate>)
    requires pending != [] && late != [] && Distinct(handed + pending + late)
    ensures handed + late + pending != handed + pending + late
  {
    var inOrder, actual := handed + pending + late, handed + late + pending;
    assert actual[|handed|] == late[0] == inOrder[|handed| + |pending|];
    assert inOrder[|handed|] != inOrder[|handed| + |pending|];
  }

  predicate Distinct(s: seq<Candidate>) { forall i, j :: 0 <= i < j < |s| ==> s[i] != s[j] }

  // Candidates keep the order of their arrival exactly when none arrives while older ones are stranded.
  lemma OrderIsKeptUnlessStranded(events: seq<Event>)
    requires Distinct(Accepted(events))
    ensures var s := Run(NEW_SESSION, events);
            s.handed + s.pending == Accepted(events) <==> !Overtakes(NEW_SESSION, events)
  {
    assert [] + Accepted(events) == Accepted(events);
    OrderKeptFrom(NEW_SESSION, events, []);
  }

  // Without an offer that is accepted and then not answered, nothing is ever stranded.
  lemma {:induction false} AnsweredOffersNeverStrand(s: Ice, events: seq<Event>)
    requires !Stranded(s)
    requires forall e :: e in events && e.Offer? && e.applies ==> e.answers
    ensures !Overtakes(s, events) && !Stranded(Run(s, events))
    decreases |events|
  {
    if events == [] {
    } else {
      assert events[0] in events;
      assert forall e :: e in events[1..] ==> e in events;
      AnsweredOffersNeverStrand(Step(s, events[0]), events[1..]);
    }
  }

  // A run in which the second candidate overtakes the first, which is never handed over at all.
  lemma StrandedCandidateExample()
    ensures var a, b := Candidate(0, "a"), Candidate(1, "b");
            var s := Run(NEW_SESSION, [Arrived(a), Offer(true, false), Arrived(b), Offer(true, true)]);
            s.handed == [b] && s.pending == [a]
  {
    var a, b := Candidate(0, "a"), Candidate(1, "b");
    var s1 := Step(NEW_SESSION, Arrived(a));
    var s2 := Step(s1, Offer(true, false));
    assert Run(s2, [Arrived(b), Offer(true, true)]) == Run(Step(s2, Arrived(b)), [Offer(true, true)]);
    assert Run(Step(s2, Arrived(b)), [Offer(true, true)]) == Run(Step(Step(s2, Arrived(b)), Offer(true, true)), []);
    assert [Arrived(a), Offer(true, false), Arrived(b), Offer(true, true)][1..][1..] == [Arrived(b), Offer(true, true)];
  }
}
