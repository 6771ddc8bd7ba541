/** What the presence keyspace guarantees: keys never collide, the raised-hands index agrees with
 * the flags it indexes, its pages cover it, and a room's state is deleted exactly.
 */
module PresenceLaws {
  import opened Decimal
  import opened RoomUsers
  import opened Presence

  /// Keys

  lemma FormatIsInjective(a: nat, b: nat)
    requires Format(a) == Format(b)
    ensures a == b
  {
    assert Value(Format(a)) == Value(Format(b));
  }

  lemma KeyStartsWithPrefix(room: RoomId, room': RoomId, user: UserId)
    ensures ParticipantPrefix(room) <= ParticipantKey(room', user) <==> room == room'
  {
    var prefix, key := ParticipantPrefix(room), ParticipantKey(room', user);
    assert ParticipantPrefix(room') <= key;
    if prefix <= key {
      var rest := key[|prefix|..];
      assert key == prefix + rest;
      SamePrefixSameRoom(room, room', Format(user), rest);
    }
  }

  lemma SamePrefixSameRoom(room: RoomId, room': RoomId, user: string, rest: string)
    requires ParticipantPrefix(room') + user == ParticipantPrefix(room) + rest
    ensures room == room'
  {
    assert (ParticipantPrefix(room') + user)[5..] == Format(room') + (":user:" + user);
    assert (ParticipantPrefix(room) + rest)[5..] == Format(room) + (":user:" + rest);
    DigitRunsAgree(Format(room'), ":user:" + user, Format(room), ":user:" + rest);
    FormatIsInjective(room, room');
  }

  // Two participants never share a key, and no participant shares one with a raised-hands index.
  lemma KeysNeverCollide(room: RoomId, user: UserId, room': RoomId, user': UserId)
    ensures ParticipantKey(room, user) == ParticipantKey(room', user') <==> room == room' && user == user'
    ensures RaisedHandsKey(room) == RaisedHandsKey(room') <==> room == room'
    ensures ParticipantKey(room, user) != RaisedHandsKey(room')
  {
    KeyStartsWithPrefix(room, room', user');
    if ParticipantKey(room, user) == ParticipantKey(room', user') {
      assert ParticipantPrefix(room) <= ParticipantKey(room, user);
      var n := |ParticipantPrefix(room)|;
      assert ParticipantKey(room, user)[n..] == Format(user);
      assert ParticipantKey(room', user')[n..] == Format(user');
      FormatIsInjective(user, user');
    }
    if RaisedHandsKey(room) == RaisedHandsKey(room') {
      assert RaisedHandsKey(room)[18..] == Format(room) && RaisedHandsKey(room')[18..] == Format(room');
      FormatIsInjective(room, room');
    }
    assert ParticipantKey(room, user)[1] == 'o' && RaisedHandsKey(room')[1] == 'a';
  }

  lemma {:induction false} StarMatchesAll(s: string)
    ensures GlobMatch("*", s)
  {
    if s != "" { StarMatchesAll(s[1..]); }
  }

  lemma {:induction false} GlobOfPrefix(prefix: string, s: string)
    requires '*' !in prefix && '?' !in prefix
    ensures GlobMatch(prefix + "*", s) <==> prefix <= s
  {
    if prefix == "" {
      assert prefix + "*" == "*";
      StarMatchesAll(s);
    } else {
      var pattern := prefix + "*";
      assert pattern[0] == prefix[0] && pattern[1..] == prefix[1..] + "*";
      assert prefix[0] in prefix;
      if s != "" {
        GlobOfPrefix(prefix[1..], s[1..]);
        assert prefix <= s <==> prefix[0] == s[0] && prefix[1..] <= s[1..];
      }
    }
  }

  // The pattern of a room picks out its own participants and nothing of any other room.
  lemma PatternMatchesExactly(room: RoomId, room': RoomId, user: UserId)
    ensures GlobMatch(RoomPattern(room), ParticipantKey(room', user)) <==> room == room'
    ensures !GlobMatch(RoomPattern(room), RaisedHandsKey(room'))
  {
    var prefix := ParticipantPrefix(room);
    forall c | c in prefix ensures c != '*' && c != '?' {
      assert c in "room:" || c in Format(room) || c in ":user:";
    }
    GlobOfPrefix(prefix, ParticipantKey(room', user));
    GlobOfPrefix(prefix, RaisedHandsKey(room'));
    KeyStartsWithPrefix(room, room', user);
    assert prefix[1] == 'o' && RaisedHandsKey(room')[1] == 'a';
  }

  /// What each operation changes, as an observer sees it

  lemma SetMutedChangesOnly(db: Redis, room: RoomId, user: UserId, isMuted: bool, r: RoomId, u: UserId)
    ensures var db' := AfterSetMuted(db, room, user, isMuted);
            && RaisedHands(db', r) == RaisedHands(db, r)
            && StateOf(db', r, u) == if r == room && u == user
                                     then StateOf(db, r, u).(isMuted := isMuted) else StateOf(db, r, u)
  {
    KeysNeverCollide(room, user, r, u);
  }

  lemma SetHandRaisedChangesOnly(db: Redis, room: RoomId, user: UserId, raised: bool, now: int, r: RoomId, u: UserId)
    ensures var db' := AfterSetHandRaised(db, room, user, raised, now);
            && StateOf(db', r, u) == (if r == room && u == user
                                      then StateOf(db, r, u).(isHandRaised := raised) else StateOf(db, r, u))
            && RaisedHands(db', r) ==
                 if r != room then RaisedHands(db, r)
                 else var others := Without(RaisedHands(db, r), Format(user));
                      if raised then Inserted(others, Scored(Format(user), now)) else others
  {
    KeysNeverCollide(room, user, r, u);
  }

  lemma DeleteParticipantChangesOnly(db: Redis, room: RoomId, user: UserId, r: RoomId, u: UserId)
    ensures var db' := AfterDeleteParticipant(db, room, user);
            && StateOf(db', r, u) == (if r == room && u == user
                                      then ParticipantState(true, false) else StateOf(db, r, u))
            && RaisedHands(db', r) ==
                 if r == room then Without(RaisedHands(db, r), Format(user)) else RaisedHands(db, r)
  {
    KeysNeverCollide(room, user, r, u);
    KeysNeverCollide(room, user, room, user);
  }

  // All of the room's state goes, and nothing else: room 4 never takes room 44 with it.
  lemma DeleteRoomIsExact(db: Redis, room: RoomId, r: RoomId, u: UserId)
    ensures var db' := AfterDeleteRoom(db, room);
            && StateOf(db', r, u) == (if r == room then ParticipantState(true, false) else StateOf(db, r, u))
            && RaisedHands(db', r) == (if r == room then [] else RaisedHands(db, r))
            && (r == room ==> ParticipantKey(r, u) !in db'.hashes && RaisedHandsKey(r) !in db'.sortedSets)
  {
    PatternMatchesExactly(room, r, u);
    KeysNeverCollide(r, u, room, u);
    KeysNeverCollide(r, u, r, u);
  }

  /// Sorted sets stay sorted

  predicate HasMember(z: SortedSet, member: string) { exists i :: 0 <= i < |z| && z[i].member == member }

  ghost predicate Sorted(z: SortedSet) {
    && (forall i, j :: 0 <= i < j < |z| ==> ScoredBefore(z[i], z[j]))
    && (forall i, j :: 0 <= i < j < |z| ==> z[i].member != z[j].member)
  }

  lemma {:induction false} BelowIsStrictOrder(a: string, b: string, c: string)
    ensures !Below(a, a)
    ensures a != b ==> Below(a, b) || Below(b, a)
    ensures Below(a, b) && Below(b, c) ==> Below(a, c)
    decreases |a|
  {
    if a == "" {
    } else {
      BelowIsStrictOrder(a[1..], if b == "" then "" else b[1..], if c == "" then "" else c[1..]);
      if b != "" && a[0] == b[0] && a[1..] == b[1..] {
        assert a == [a[0]] + a[1..] && b == [b[0]] + b[1..];
      }
    }
  }

  lemma ScoredBeforeIsTransitive(a: Scored, b: Scored, c: Scored)
    requires ScoredBefore(a, b) && ScoredBefore(b, c)
    ensures ScoredBefore(a, c)
  {
    BelowIsStrictOrder(a.member, b.member, c.member);
  }

  lemma {:induction false} WithoutRemoves(z: SortedSet, member: string)
    requires Sorted(z)
    ensures Sorted(Without(z, member))
    ensures forall m :: HasMember(Without(z, member), m) <==> HasMember(z, m) && m != member
    ensures forall e :: e in Without(z, member) ==> e in z
  {
    if z == [] {
    } else {
      var rest := Without(z[1..], member);
      assert Sorted(z[1..]);
      WithoutRemoves(z[1..], member);
      forall i | 0 <= i < |rest| ensures ScoredBefore(z[0], rest[i]) && z[0].member != rest[i].member {
        assert rest[i] in z[1..];
        var j :| 0 <= j < |z[1..]| && z[1..][j] == rest[i];
        assert z[j + 1] == rest[i];
      }
      forall m ensures HasMember(Without(z, member), m) <==> HasMember(z, m) && m != member {
        HasMemberStep(z, m);
        HasMemberStep(Without(z, member), m);
        if z[0].member != member {
          assert Without(z, member)[1..] == rest;
        }
      }
    }
  }

  lemma HasMemberStep(z: SortedSet, m: string)
    ensures HasMember(z, m) <==> z != [] && (z[0].member == m || HasMember(z[1..], m))
  {
    if z != [] {
      if HasMember(z[1..], m) {
        var i :| 0 <= i < |z[1..]| && z[1..][i].member == m;
        assert z[i + 1].member == m;
      }
      if HasMember(z, m) && z[0].member != m {
        var i :| 0 <= i < |z| && z[i].member == m;
        assert z[1..][i - 1].member == m;
      }
    }
  }

  lemma {:induction false} InsertedAdds(z: SortedSet, e: Scored)
    requires Sorted(z) && !HasMember(z, e.member)
    ensures Sorted(Inserted(z, e))
    ensures forall m :: HasMember(Inserted(z, e), m) <==> HasMember(z, m) || m == e.member
    ensures forall x :: x in Inserted(z, e) <==> x == e || x in z
  {
    var t := Inserted(z, e);
    if z == [] || ScoredBefore(e, z[0]) {
      forall j | 0 <= j < |z| ensures ScoredBefore(e, z[j]) && e.member != z[j].member {
        if j > 0 { ScoredBeforeIsTransitive(e, z[0], z[j]); }
      }
      assert t[1..] == z;
    } else {
      assert Sorted(z[1..]);
      HasMemberStep(z, e.member);
      InsertedAdds(z[1..], e);
      var rest := Inserted(z[1..], e);
      BelowIsStrictOrder(e.member, z[0].member, "");
      assert ScoredBefore(z[0], e);
      forall i | 0 <= i < |rest| ensures ScoredBefore(z[0], rest[i]) && z[0].member != rest[i].member {
        assert rest[i] in rest;
      }
      assert t[1..] == rest;
    }
    forall m ensures HasMember(t, m) <==> HasMember(z, m) || m == e.member {
      HasMemberStep(t, m);
      HasMemberStep(z, m);
    }
  }

  /// The index agrees with the flags

  ghost predicate IndexAgrees(db: Redis) {
    && (forall r: RoomId :: Sorted(RaisedHands(db, r)))
    && (forall r: RoomId, u: UserId :: HasMember(RaisedHands(db, r), Format(u)) <==> StateOf(db, r, u).isHandRaised)
    && (forall r: RoomId, m :: HasMember(RaisedHands(db, r), m) ==>
          ParseUint(m).Some? && Format(ParseUint(m).value) == m)
  }

  datatype Op =
    | Mute(room: RoomId, user: UserId, isMuted: bool)
    | Hand(room: RoomId, user: UserId, isHandRaised: bool, now: int)
    | Leave(room: RoomId, user: UserId)
    | DeleteRoom(room: RoomId)

  ghost function Apply(db: Redis, op: Op): Redis {
    match op
    case Mute(room, user, isMuted) => AfterSetMuted(db, room, user, isMuted)
    case Hand(room, user, isHandRaised, now) => AfterSetHandRaised(db, room, user, isHandRaised, now)
    case Leave(room, user) => AfterDeleteParticipant(db, room, user)
    case DeleteRoom(room) => AfterDeleteRoom(db, room)
  }

  ghost function Run(db: Redis, ops: seq<Op>): Redis
    decreases |ops|
  {
    if ops == [] then db else Run(Apply(db, ops[0]), ops[1..])
  }

  lemma ApplyChangesOnly(db: Redis, op: Op, r: RoomId, u: UserId)
    ensures var z, z', user := RaisedHands(db, r), RaisedHands(Apply(db, op), r), Format(u);
            if r != op.room || op.Mute? then z' == z
            else if op.DeleteRoom? then z' == []
            else
              var others := Without(z, Format(op.user));
              z' == if op.Hand? && op.isHandRaised then Inserted(others, Scored(Format(op.user), op.now)) else others
    ensures var raised := StateOf(Apply(db, op), r, u).isHandRaised;
            raised == if r != op.room || op.Mute? then StateOf(db, r, u).isHandRaised
                      else if op.DeleteRoom? then false
                      else if u != op.user then StateOf(db, r, u).isHandRaised
                      else op.Hand? && op.isHandRaised
  {
    match op {
      case Mute(room, user, isMuted) => SetMutedChangesOnly(db, room, user, isMuted, r, u);
      case Hand(room, user, isHandRaised, now) => SetHandRaisedChangesOnly(db, room, user, isHandRaised, now, r, u);
      case Leave(room, user) => DeleteParticipantChangesOnly(db, room, user, r, u);
      case DeleteRoom(room) => DeleteRoomIsExact(db, room, r, u);
    }
  }

  // The index of one room after one operation.
  lemma IndexOfRoomAfter(db: Redis, op: Op, r: RoomId)
    requires IndexAgrees(db)
    ensures var z' := RaisedHands(Apply(db, op), r);
            && Sorted(z')
            && (forall u: UserId :: HasMember(z', Format(u)) <==> StateOf(Apply(db, op), r, u).isHandRaised)
            && (forall m :: HasMember(z', m) ==>
          ParseUint(m).Some? && Format(ParseUint(m).value) == m)
  {
    var z, z' := RaisedHands(db, r), RaisedHands(Apply(db, op), r);
    if r == op.room && (op.Hand? || op.Leave?) {
      var name := Format(op.user);
      ParseFormat(op.user);
      WithoutRemoves(z, name);
      ApplyChangesOnly(db, op, r, op.user);
      if op.Hand? && op.isHandRaised {
        InsertedAdds(Without(z, name), Scored(name, op.now));
      }
    }
    forall u: UserId ensures HasMember(z', Format(u)) <==> StateOf(Apply(db, op), r, u).isHandRaised {
      ApplyChangesOnly(db, op, r, u);
      if r == op.room && (op.Hand? || op.Leave?) && Format(u) == Format(op.user) {
        FormatIsInjective(u, op.user);
      }
    }
    ApplyChangesOnly(db, op, r, 0);
  }

  lemma {:induction false} RunKeepsIndex(db: Redis, ops: seq<Op>)
    requires IndexAgrees(db)
    ensures IndexAgrees(Run(db, ops))
    decreases |ops|
  {
    if ops == [] {
    } else {
      forall r: RoomId ensures Sorted(RaisedHands(Apply(db, ops[0]), r)) { IndexOfRoomAfter(db, ops[0], r); }
      forall r: RoomId, u: UserId
        ensures HasMember(RaisedHands(Apply(db, ops[0]), r), Format(u)) <==>
                StateOf(Apply(db, ops[0]), r, u).isHandRaised
      {
        IndexOfRoomAfter(db, ops[0], r);
      }
      forall r: RoomId, m | HasMember(RaisedHands(Apply(db, ops[0]), r), m)
        ensures ParseUint(m).Some? && Format(ParseUint(m).value) == m
      {
        IndexOfRoomAfter(db, ops[0], r);
      }
      RunKeepsIndex(Apply(db, ops[0]), ops[1..]);
    }
  }

  // From an empty store, whatever happens, the index lists exactly the raised hands.
  lemma RaisedHandsIndexAgrees(ops: seq<Op>)
    ensures IndexAgrees(Run(Redis(map[], map[]), ops))
  {
    var empty := Redis(map[], map[]);
    assert forall r: RoomId :: RaisedHands(empty, r) == [];
    RunKeepsIndex(empty, ops);
  }

  /// Listing and counting raised hands

  // Every raised hand of a room, in index order.
  function AllRaisedHands(db: Redis, room: RoomId): seq<UserId> { ParsedIds(Members(RaisedHands(db, room))) }

  lemma {:induction false} ParsedIdsOfConcat(a: seq<string>, b: seq<string>)
    ensures ParsedIds(a + b) == ParsedIds(a) + ParsedIds(b)
    decreases |b|
  {
    if b == [] {
      assert a + b == a;
    } else {
      var b' := b[..|b| - 1];
      assert (a + b)[..|a + b| - 1] == a + b';
      ParsedIdsOfConcat(a, b');
    }
  }

  lemma {:induction false} ParsedIdsKeepAll(members: seq<string>)
    requires forall m :: m in members ==> ParseUint(m).Some?
    ensures |ParsedIds(members)| == |members|
    ensures forall i :: 0 <= i < |members| ==> ParsedIds(members)[i] == ParseUint(members[i]).value
  {
    if members == [] {
    } else {
      ParsedIdsKeepAll(members[..|members| - 1]);
    }
  }

  // The list holds each user whose hand is raised once, and the count is its length.
  lemma ListedHandsAreRaised(db: Redis, room: RoomId)
    requires IndexAgrees(db)
    ensures var ids := AllRaisedHands(db, room);
            && |ids| == |RaisedHands(db, room)|
            && (forall u: UserId :: u in ids <==> StateOf(db, room, u).isHandRaised)
            && (forall i, j :: 0 <= i < j < |ids| ==> ids[i] != ids[j])
  {
    var z := RaisedHands(db, room);
    var members, ids := Members(z), AllRaisedHands(db, room);
    assert Sorted(z);
    forall m | m in members ensures HasMember(z, m) && ParseUint(m).Some? && Format(ParseUint(m).value) == m {
      var i :| 0 <= i < |members| && members[i] == m;
      assert z[i].member == m;
    }
    ParsedIdsKeepAll(members);
    forall i | 0 <= i < |ids| ensures Format(ids[i]) == members[i] {
      assert members[i] in members;
    }
    forall u: UserId ensures u in ids <==> StateOf(db, room, u).isHandRaised {
      if u in ids {
        var i :| 0 <= i < |ids| && ids[i] == u;
        assert members[i] in members && HasMember(z, Format(u));
      }
      if HasMember(z, Format(u)) {
        var i :| 0 <= i < |z| && z[i].member == Format(u);
        assert members[i] == Format(u);
        ParseFormat(u);
        assert ids[i] == u;
      }
    }
  }

  /// The order of raised hands

  // When u last raised a hand in room r; `at` if that was before the operations.
  function RaisedAt(at: int, ops: seq<Op>, r: RoomId, u: UserId): int
    decreases |ops|
  {
    if ops == [] then at
    else
      var op := ops[0];
      var raises := op.Hand? && op.room == r && op.user == u && op.isHandRaised;
      RaisedAt(if raises then op.now else at, ops[1..], r, u)
  }

  ghost predicate ScoredAt(db: Redis, r: RoomId, u: UserId, at: int) {
    forall e :: e in RaisedHands(db, r) && e.member == Format(u) ==> e.score == at
  }

  lemma OpKeepsScore(db: Redis, op: Op, r: RoomId, u: UserId, at: int)
    requires IndexAgrees(db) && ScoredAt(db, r, u, at)
    ensures var raises := op.Hand? && op.room == r && op.user == u && op.isHandRaised;
            ScoredAt(Apply(db, op), r, u, if raises then op.now else at)
  {
    var z := RaisedHands(db, r);
    ApplyChangesOnly(db, op, r, u);
    if r == op.room && (op.Hand? || op.Leave?) {
      WithoutRemoves(z, Format(op.user));
      if op.Hand? && op.isHandRaised {
        InsertedAdds(Without(z, Format(op.user)), Scored(Format(op.user), op.now));
        if Format(op.user) == Format(u) { FormatIsInjective(op.user, u); }
        forall e | e in Without(z, Format(op.user)) ensures e.member != Format(op.user) {
          WithoutLeavesOut(z, Format(op.user), e);
        }
      }
    }
  }

  lemma {:induction false} WithoutLeavesOut(z: SortedSet, member: string, e: Scored)
    requires e in Without(z, member)
    ensures e.member != member
  {
    if z == [] {
    } else if e in Without(z[1..], member) {
      WithoutLeavesOut(z[1..], member, e);
    }
  }

  lemma {:induction false} ScoresFollowRaising(db: Redis, ops: seq<Op>, r: RoomId, u: UserId, at: int)
    requires IndexAgrees(db) && ScoredAt(db, r, u, at)
    ensures ScoredAt(Run(db, ops), r, u, RaisedAt(at, ops, r, u))
    decreases |ops|
  {
    if ops == [] {
    } else {
      OpKeepsScore(db, ops[0], r, u, at);
      RunKeepsIndex(db, [ops[0]]);
      assert Run(db, [ops[0]]) == Run(Apply(db, ops[0]), []);
      var op := ops[0];
      var raises := op.Hand? && op.room == r && op.user == u && op.isHandRaised;
      ScoresFollowRaising(Apply(db, op), ops[1..], r, u, if raises then op.now else at);
    }
  }

  // Whoever raised a hand first is listed first; hands raised in the same millisecond are listed in
  // the byte order of the users' numbers.
  lemma HandsAreListedInOrder(ops: seq<Op>, room: RoomId, i: nat, j: nat)
    requires i < j < |AllRaisedHands(Run(Redis(map[], map[]), ops), room)|
    ensures var ids := AllRaisedHands(Run(Redis(map[], map[]), ops), room);
            var first, second := RaisedAt(0, ops, room, ids[i]), RaisedAt(0, ops, room, ids[j]);
            first < second || (first == second && Below(Format(ids[i]), Format(ids[j])))
  {
    var empty := Redis(map[], map[]);
    var db := Run(empty, ops);
    var ids, z := AllRaisedHands(db, room), RaisedHands(db, room);
    assert forall r: RoomId :: RaisedHands(empty, r) == [];
    RaisedHandsIndexAgrees(ops);
    ListedIdIs(db, room, i);
    ListedIdIs(db, room, j);
    ScoresFollowRaising(empty, ops, room, ids[i], 0);
    ScoresFollowRaising(empty, ops, room, ids[j], 0);
    assert Sorted(z) && z[i] in z && z[j] in z;
  }

  lemma ListedIdIs(db: Redis, room: RoomId, i: nat)
    requires IndexAgrees(db) && i < |AllRaisedHands(db, room)|
    ensures i < |RaisedHands(db, room)| && Format(AllRaisedHands(db, room)[i]) == RaisedHands(db, room)[i].member
  {
    var z := RaisedHands(db, room);
    var members := Members(z);
    forall m | m in members ensures ParseUint(m).Some? && Format(ParseUint(m).value) == m {
      var k :| 0 <= k < |members| && members[k] == m;
      assert z[k].member == m && HasMember(z, m);
    }
    ParsedIdsKeepAll(members);
    assert members[i] in members;
  }

  function Pages(db: Redis, room: RoomId, pageSize: nat, n: nat): seq<UserId> {
    if n == 0 then [] else Pages(db, room, pageSize, n - 1) + RaisedHandsPage(db, room, n, pageSize)
  }

  // How many entries n full pages hold.
  function Capacity(n: nat, pageSize: nat): nat {
    if n == 0 then 0 else Capacity(n - 1, pageSize) + pageSize
  }

  lemma {:induction false} CapacityIsProduct(n: nat, pageSize: nat)
    ensures Capacity(n, pageSize) == n * pageSize
  {
    if n == 0 {
    } else {
      CapacityIsProduct(n - 1, pageSize);
      assert (n - 1) * pageSize + pageSize == n * pageSize;
    }
  }

  function Clip(k: nat, total: nat): nat { if k <= total then k else total }

  lemma PageIsSlice(db: Redis, room: RoomId, pageSize: nat, n: nat)
    requires pageSize >= 1 && n >= 1
    ensures var z := RaisedHands(db, room);
            RaisedHandsPage(db, room, n, pageSize) ==
            ParsedIds(Members(z[Clip(Capacity(n - 1, pageSize), |z|)..Clip(Capacity(n, pageSize), |z|)]))
  {
    var z := RaisedHands(db, room);
    CapacityIsProduct(n - 1, pageSize);
    var start := Capacity(n - 1, pageSize);
    assert Offset(n, pageSize) == start;
    assert ZRange(z, start, start + pageSize - 1) == Members(z[Clip(start, |z|)..Clip(start + pageSize, |z|)]);
  }

  lemma NextPiece(z: SortedSet, from: nat, to: nat)
    requires from <= to <= |z|
    ensures ParsedIds(Members(z[..from])) + ParsedIds(Members(z[from..to])) == ParsedIds(Members(z[..to]))
  {
    assert Members(z[..from]) + Members(z[from..to]) == Members(z[..to]);
    ParsedIdsOfConcat(Members(z[..from]), Members(z[from..to]));
  }

  lemma {:induction false} PagesArePrefix(db: Redis, room: RoomId, pageSize: nat, n: nat)
    requires pageSize >= 1
    ensures var z := RaisedHands(db, room);
            Pages(db, room, pageSize, n) == ParsedIds(Members(z[..Clip(Capacity(n, pageSize), |z|)]))
  {
    var z := RaisedHands(db, room);
    if n > 0 {
      var from, to := Clip(Capacity(n - 1, pageSize), |z|), Clip(Capacity(n, pageSize), |z|);
      PagesArePrefix(db, room, pageSize, n - 1);
      PageIsSlice(db, room, pageSize, n);
      NextPiece(z, from, to);
    }
  }

  // For every page size, the pages are the whole list cut into consecutive pieces.
  lemma PagesCoverList(db: Redis, room: RoomId, pageSize: nat, n: nat)
    requires pageSize >= 1 && n * pageSize >= |RaisedHands(db, room)|
    ensures Pages(db, room, pageSize, n) == AllRaisedHands(db, room)
  {
    var z := RaisedHands(db, room);
    CapacityIsProduct(n, pageSize);
    PagesArePrefix(db, room, pageSize, n);
    assert z[..|z|] == z;
  }
}
