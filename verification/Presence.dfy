/** Per-participant presence flags and the raised-hands index of each room, kept in Redis. */
module Presence {
  import opened Wrappers
  import opened Decimal
  import opened RoomUsers

  /// Redis, as far as it is used: hashes, sorted sets, glob patterns

  datatype Scored = Scored(member: string, score: int)

  // A sorted set is kept in the order in which ZRANGE lists it.
  type SortedSet = seq<Scored>

  // Hashes and sorted sets live in one keyspace; no key here is ever used as both.
  datatype Redis = Redis(hashes: map<string, map<string, string>>, sortedSets: map<string, SortedSet>)

  function HashAt(db: Redis, key: string): map<string, string> {
    if key in db.hashes then db.hashes[key] else map[]
  }

  function SortedSetAt(db: Redis, key: string): SortedSet {
    if key in db.sortedSets then db.sortedSets[key] else []
  }

  function HSet(db: Redis, key: string, field: string, value: string): Redis {
    db.(hashes := db.hashes[key := HashAt(db, key)[field := value]])
  }

  function HSetNX(db: Redis, key: string, field: string, value: string): Redis {
    if field in HashAt(db, key) then db else HSet(db, key, field, value)
  }

  // Byte order of two strings.
  predicate Below(a: string, b: string) {
    b != "" && (a == "" || a[0] < b[0] || (a[0] == b[0] && Below(a[1..], b[1..])))
  }

  predicate ScoredBefore(a: Scored, b: Scored) {
    a.score < b.score || (a.score == b.score && Below(a.member, b.member))
  }

  function Without(z: SortedSet, member: string): SortedSet {
    if z == [] then []
    else if z[0].member == member then Without(z[1..], member)
    else [z[0]] + Without(z[1..], member)
  }

  function Inserted(z: SortedSet, e: Scored): SortedSet {
    if z == [] || ScoredBefore(e, z[0]) then [e] + z else [z[0]] + Inserted(z[1..], e)
  }

  function ZAdd(db: Redis, key: string, e: Scored): Redis {
    db.(sortedSets := db.sortedSets[key := Inserted(Without(SortedSetAt(db, key), e.member), e)])
  }

  // Removing the last member removes the key.
  function ZRem(db: Redis, key: string, member: string): Redis {
    var rest := Without(SortedSetAt(db, key), member);
    db.(sortedSets := if rest == [] then db.sortedSets - {key} else db.sortedSets[key := rest])
  }

  // Negative indices count from the end; the range is clipped to the set.
  function ZRange(z: SortedSet, start: int, stop: int): seq<string> {
    var n := |z|;
    var from := if start >= 0 then start else if start + n >= 0 then start + n else 0;
    var to := if stop >= 0 then stop else stop + n;
    if from > to || from >= n then []
    else Members(z[from..if to >= n then n else to + 1])
  }

  function Members(z: SortedSet): (s: seq<string>)
    ensures |s| == |z| && forall i :: 0 <= i < |z| ==> s[i] == z[i].member
  {
    seq(|z|, i requires 0 <= i < |z| => z[i].member)
  }

  function Del(db: Redis, keys: set<string>): Redis {
    Redis(db.hashes - keys, db.sortedSets - keys)
  }

  // Glob patterns without character classes or escapes.
  predicate GlobMatch(pattern: string, s: string)
    decreases |pattern| + |s|
  {
    if pattern == "" then s == ""
    else if pattern[0] == '*' then GlobMatch(pattern[1..], s) || (s != "" && GlobMatch(pattern, s[1..]))
    else s != "" && (pattern[0] == '?' || pattern[0] == s[0]) && GlobMatch(pattern[1..], s[1..])
  }

  // The batches one full SCAN returns: only matching keys, and every matching key at least once.
  ghost predicate ScanReturns(db: Redis, pattern: string, batches: seq<seq<string>>) {
    && (forall b, k :: b in batches && k in b ==> GlobMatch(pattern, k))
    && (forall k :: (k in db.hashes || k in db.sortedSets) && GlobMatch(pattern, k) ==>
          exists b :: b in batches && k in b)
  }

  /// Keys and fields

  const IS_MUTED := "is_muted"
  const IS_HAND_RAISED := "is_hand_raised"

  function ParticipantKey(room: RoomId, user: UserId): string {
    ParticipantPrefix(room) + Format(user)
  }

  function ParticipantPrefix(room: RoomId): string { "room:" + (Format(room) + ":user:") }

  function RaisedHandsKey(room: RoomId): string { "raised_hands:room:" + Format(room) }

  function RoomPattern(room: RoomId): string { ParticipantPrefix(room) + "*" }

  // The client library writes booleans as digits; strconv.ParseBool reads them back, and
  // anything it cannot read counts as false.
  function BoolText(b: bool): string { if b then "1" else "0" }

  predicate ParsesTrue(s: string) { s in {"1", "t", "T", "TRUE", "true", "True"} }

  datatype ParticipantState = ParticipantState(isMuted: bool, isHandRaised: bool)

  function ParseParticipantState(fields: map<string, string>): ParticipantState {
    ParticipantState(if IS_MUTED in fields then ParsesTrue(fields[IS_MUTED]) else true,
                     if IS_HAND_RAISED in fields then ParsesTrue(fields[IS_HAND_RAISED]) else false)
  }

  // What an observer is told about one participant.
  function StateOf(db: Redis, room: RoomId, user: UserId): ParticipantState {
    ParseParticipantState(HashAt(db, ParticipantKey(room, user)))
  }

  function RaisedHands(db: Redis, room: RoomId): SortedSet { SortedSetAt(db, RaisedHandsKey(room)) }

  /// The pipelines

  function AfterSetMuted(db: Redis, room: RoomId, user: UserId, isMuted: bool): Redis {
    var key := ParticipantKey(room, user);
    HSetNX(HSet(db, key, IS_MUTED, BoolText(isMuted)), key, IS_HAND_RAISED, BoolText(false))
  }

  function AfterSetHandRaised(db: Redis, room: RoomId, user: UserId, isHandRaised: bool, now: int): Redis {
    var key := ParticipantKey(room, user);
    var db' := HSetNX(HSet(db, key, IS_HAND_RAISED, BoolText(isHandRaised)), key, IS_MUTED, BoolText(true));
    if isHandRaised then ZAdd(db', RaisedHandsKey(room), Scored(Format(user), now))
    else ZRem(db', RaisedHandsKey(room), Format(user))
  }

  function AfterDeleteParticipant(db: Redis, room: RoomId, user: UserId): Redis {
    ZRem(Del(db, {ParticipantKey(room, user)}), RaisedHandsKey(room), Format(user))
  }

  ghost function AfterDeleteRoom(db: Redis, room: RoomId): Redis {
    var doomed := (set k | k in db.hashes.Keys + db.sortedSets.Keys && GlobMatch(RoomPattern(room), k));
    Del(db, {RaisedHandsKey(room)} + doomed)
  }

  class RedisRepo {
    var db: Redis

    constructor ()
      ensures db == Redis(map[], map[])
    {
      db := Redis(map[], map[]);
    }

    method SetMuted(room: RoomId, user: UserId, isMuted: bool) returns (state: ParticipantState)
      modifies this
      ensures db == AfterSetMuted(old(db), room, user, isMuted)
      ensures state == ParticipantState(isMuted, StateOf(old(db), room, user).isHandRaised)
    {
      var key := ParticipantKey(room, user);
      db := HSet(db, key, IS_MUTED, BoolText(isMuted));
      db := HSetNX(db, key, IS_HAND_RAISED, BoolText(false));
      state := ParseParticipantState(HashAt(db, key));
    }

    method SetHandRaised(room: RoomId, user: UserId, isHandRaised: bool, now: int) returns (state: ParticipantState)
      modifies this
      ensures db == AfterSetHandRaised(old(db), room, user, isHandRaised, now)
      ensures state == ParticipantState(StateOf(old(db), room, user).isMuted, isHandRaised)
    {
      var key := ParticipantKey(room, user);
      db := HSet(db, key, IS_HAND_RAISED, BoolText(isHandRaised));
      db := HSetNX(db, key, IS_MUTED, BoolText(true));
      if isHandRaised {
        db := ZAdd(db, RaisedHandsKey(room), Scored(Format(user), now));
      } else {
        db := ZRem(db, RaisedHandsKey(room), Format(user));
      }
      state := ParseParticipantState(HashAt(db, key));
    }

    method GetParticipantStates(room: RoomId, users: seq<UserId>) returns (states: map<UserId, ParticipantState>)
      ensures states.Keys == set u | u in users
      ensures forall u :: u in users ==> states[u] == StateOf(db, room, u)
    {
      states := map[];
      for i := 0 to |users|
        invariant states.Keys == set u | u in users[..i]
        invariant forall u :: u in users[..i] ==> states[u] == StateOf(db, room, u)
      {
        states := states[users[i] := ParseParticipantState(HashAt(db, ParticipantKey(room, users[i])))];
        assert users[..i + 1] == users[..i] + [users[i]];
      }
      assert users[..|users|] == users;
    }

    method DeleteParticipantState(room: RoomId, user: UserId)
      modifies this
      ensures db == AfterDeleteParticipant(old(db), room, user)
    {
      db := Del(db, {ParticipantKey(room, user)});
      db := ZRem(db, RaisedHandsKey(room), Format(user));
    }

    // `batches` are the replies of the SCAN loop, the last one carrying cursor 0.
    method DeleteRoomState(room: RoomId, batches: seq<seq<string>>)
      requires ScanReturns(db, RoomPattern(room), batches)
      modifies this
      ensures db == AfterDeleteRoom(old(db), room)
    {
      var keys := {RaisedHandsKey(room)};
      var cursor := 0;
      while cursor < |batches|
        invariant cursor <= |batches|
        invariant forall k :: k in keys <==> k == RaisedHandsKey(room) || exists i :: 0 <= i < cursor && k in batches[i]
      {
        keys := keys + set k | k in batches[cursor];
        cursor := cursor + 1;
      }
      db := Del(db, keys);
      forall k | k in old(db).hashes.Keys + old(db).sortedSets.Keys
        ensures k in keys <==> k == RaisedHandsKey(room) || GlobMatch(RoomPattern(room), k)
      {
        if k in keys && k != RaisedHandsKey(room) {
          var i :| 0 <= i < |batches| && k in batches[i];
          assert batches[i] in batches;
        }
        if GlobMatch(RoomPattern(room), k) {
          var b :| b in batches && k in b;
          var i :| 0 <= i < |batches| && batches[i] == b;
        }
      }
      assert db.hashes == AfterDeleteRoom(old(db), room).hashes;
      assert db.sortedSets == AfterDeleteRoom(old(db), room).sortedSets;
    }

    method GetRaisedHands(room: RoomId, page: int, pageSize: int) returns (ids: seq<UserId>)
      ensures ids == RaisedHandsPage(db, room, page, pageSize)
    {
      var start := Offset(page, pageSize);
      var members := ZRange(RaisedHands(db, room), start, start + pageSize - 1);
      ids := [];
      for i := 0 to |members|
        invariant ids == ParsedIds(members[..i])
      {
        var n := ParseUint(members[i]);
        if n.Some? {
          ids := ids + [n.value];
        }
        assert members[..i + 1][..i] == members[..i];
      }
      assert members[..|members|] == members;
    }

    method CountRaisedHands(room: RoomId) returns (count: nat)
      ensures count == |RaisedHands(db, room)|
    {
      count := |RaisedHands(db, room)|;
    }
  }

  function Offset(page: int, pageSize: int): int { (page - 1) * pageSize }

  // Members that are not numbers are skipped.
  function ParsedIds(members: seq<string>): seq<UserId> {
    if members == [] then []
    else
      var n := ParseUint(members[|members| - 1]);
      ParsedIds(members[..|members| - 1]) + if n.Some? then [n.value] else []
  }

  function RaisedHandsPage(db: Redis, room: RoomId, page: int, pageSize: int): seq<UserId> {
    var start := Offset(page, pageSize);
    ParsedIds(ZRange(RaisedHands(db, room), start, start + pageSize - 1))
  }
}
