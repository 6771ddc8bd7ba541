/** The per-address token bucket with lazy refill, and the sweep that forgets idle buckets.
 *
 * Credit is counted in nanoseconds of refill, so that arithmetic is exact: one token is worth
 * COST nanoseconds, and a full bucket of 100 tokens is worth one minute.
 */
module RateLimiter {
  const MAX_TOKENS: int := 100
  const MINUTE: int := 60_000_000_000
  const COST: int := MINUTE / MAX_TOKENS
  const FULL: int := MAX_TOKENS * COST
  const IDLE: int := 30 * MINUTE

  type Time = int

  function Min(a: int, b: int): int { if a <= b then a else b }

  /// The limiter as a function of its bucket table

  datatype Level = Level(credit: int, at: Time)

  type Table = map<string, Level>

  function Refilled(level: Level, now: Time): int { Min(FULL, level.credit + (now - level.at)) }

  // A request that is not an OPTIONS request: its decision and the table after it.
  // `created` is the clock reading of a bucket made for this request.
  function Touch(t: Table, ip: string, created: Time, now: Time): (Table, bool) {
    var level := if ip in t then t[ip] else Level(FULL, created);
    var credit := Refilled(level, now);
    if credit < COST then (t[ip := Level(credit, now)], false)
    else (t[ip := Level(credit - COST, now)], true)
  }

  // The sweep reads the clock anew for each bucket; `clock` gives those readings.
  ghost function Swept(t: Table, clock: string -> Time): Table {
    map ip | ip in t && !(clock(ip) - t[ip].at > IDLE) :: t[ip]
  }

  /// The limiter itself

  class Bucket {
    var availableCredit: int
    var lastRefreshedAt: Time

    constructor (credit: int, at: Time)
      ensures availableCredit == credit && lastRefreshedAt == at
    {
      availableCredit := credit;
      lastRefreshedAt := at;
    }

    // Refill for the time since the last request, then pay for this one if possible.
    method Take(now: Time) returns (admitted: bool)
      modifies this
      ensures var credit := Refilled(old(Level(availableCredit, lastRefreshedAt)), now);
              && lastRefreshedAt == now
              && (admitted <==> credit >= COST)
              && availableCredit == if admitted then credit - COST else credit
    {
      var elapsed := now - lastRefreshedAt;
      availableCredit := Min(FULL, availableCredit + elapsed);
      lastRefreshedAt := now;
      if availableCredit < COST {
        return false;
      }
      availableCredit := availableCredit - COST;
      return true;
    }
  }

  class Limiter {
    var buckets: map<string, Bucket>

    constructor ()
      ensures Valid() && View() == map[]
    {
      buckets := map[];
    }

    // No two addresses share a bucket.
    ghost predicate Valid()
      reads this
    {
      forall a, b :: a in buckets && b in buckets && a != b ==> buckets[a] != buckets[b]
    }

    ghost function View(): Table
      reads this, buckets.Values
    {
      map ip | ip in buckets :: Level(buckets[ip].availableCredit, buckets[ip].lastRefreshedAt)
    }

    method Handle(isOptions: bool, ip: string, created: Time, now: Time) returns (admitted: bool)
      requires Valid()
      modifies this, buckets.Values
      ensures Valid() && fresh(buckets.Values - old(buckets.Values))
      ensures isOptions ==> admitted && View() == old(View())
      ensures !isOptions ==> (View(), admitted) == Touch(old(View()), ip, created, now)
    {
      if isOptions {
        return true;
      }
      var bucket;
      if ip in buckets {
        bucket := buckets[ip];
      } else {
        bucket := new Bucket(FULL, created);
        buckets := buckets[ip := bucket];
      }
      admitted := bucket.Take(now);
      assert View() == old(View())[ip := Level(bucket.availableCredit, now)];
    }

    // One pass of the background cleanup.
    method Sweep(clock: string -> Time)
      requires Valid()
      modifies this
      ensures Valid() && buckets.Values <= old(buckets.Values)
      ensures View() == Swept(old(View()), clock)
    {
      var pending := buckets.Keys;
      while pending != {}
        invariant pending <= buckets.Keys <= old(buckets.Keys)
        invariant forall ip :: ip in buckets ==> buckets[ip] == old(buckets)[ip]
        invariant forall ip :: ip in old(buckets) - pending ==>
                    (ip in buckets <==> !(clock(ip) - old(buckets)[ip].lastRefreshedAt > IDLE))
        decreases pending
      {
        var ip :| ip in pending;
        if clock(ip) - buckets[ip].lastRefreshedAt > IDLE {
          buckets := buckets - {ip};
        }
        pending := pending - {ip};
      }
    }
  }

  /// Runs: requests and sweeps in the order in which they take the lock

  datatype Event =
    | Request(ip: string, isOptions: bool, created: Time, now: Time)
    | Cleanup(clock: string -> Time, end: Time)

  // What happened to a counted request.
  datatype Entry = Entry(ip: string, time: Time, admitted: bool)

  // The clock never runs backwards.
  ghost predicate InOrder(events: seq<Event>, start: Time)
    decreases |events|
  {
    events == [] ||
    match events[0]
    case Request(_, _, created, now) => start <= created <= now && InOrder(events[1..], now)
    case Cleanup(clock, end) => start <= end && (forall ip :: start <= clock(ip) <= end) && InOrder(events[1..], end)
  }

  ghost function Serve(t: Table, events: seq<Event>): seq<Entry>
    decreases |events|
  {
    if events == [] then []
    else
      match events[0]
      case Request(ip, isOptions, created, now) =>
        if isOptions then Serve(t, events[1..])
        else
          var (t', admitted) := Touch(t, ip, created, now);
          [Entry(ip, now, admitted)] + Serve(t', events[1..])
      case Cleanup(clock, _) => Serve(Swept(t, clock), events[1..])
  }

  // Admissions of `ip` among the entries with index in [from, to).
  function Admissions(h: seq<Entry>, ip: string, from: nat, to: nat): nat
    requires to <= |h|
  {
    if to <= from then 0
    else Admissions(h, ip, from, to - 1) + if h[to - 1].ip == ip && h[to - 1].admitted then 1 else 0
  }

  // What the window that opens at entry i leaves for a request at time `now`.
  function Headroom(h: seq<Entry>, ip: string, i: nat, now: Time): int
    requires i < |h|
  {
    FULL + (now - h[i].time) - COST * Admissions(h, ip, i, |h|)
  }

  // The credit an address would find at `now`; a missing bucket is a full one.
  function Credit(t: Table, ip: string, now: Time): int {
    if ip in t then Refilled(t[ip], now) else FULL
  }

  // The bucket of every address holds exactly what its tightest window leaves.
  ghost predicate Accounts(t: Table, h: seq<Entry>, now: Time) {
    && (forall ip :: ip in t ==> 0 <= t[ip].credit && t[ip].at <= now)
    && (forall ip, i :: 0 <= i < |h| && h[i].ip == ip ==> Credit(t, ip, now) <= Headroom(h, ip, i, now))
    && (forall ip :: Credit(t, ip, now) == FULL
                     || exists i :: 0 <= i < |h| && h[i].ip == ip && Credit(t, ip, now) == Headroom(h, ip, i, now))
  }

  lemma CreditGrows(t: Table, ip: string, now: Time, later: Time)
    requires now <= later && (ip in t ==> 0 <= t[ip].credit && t[ip].at <= now)
    ensures Credit(t, ip, later) == Min(FULL, Credit(t, ip, now) + (later - now))
  {
  }

  lemma AccountsLater(t: Table, h: seq<Entry>, now: Time, later: Time)
    requires Accounts(t, h, now) && now <= later
    ensures Accounts(t, h, later)
  {
    forall ip ensures Credit(t, ip, later) == Min(FULL, Credit(t, ip, now) + (later - now)) {
      CreditGrows(t, ip, now, later);
    }
    forall ip, i | 0 <= i < |h| && h[i].ip == ip
      ensures Credit(t, ip, later) <= Headroom(h, ip, i, later)
      ensures Headroom(h, ip, i, later) == Headroom(h, ip, i, now) + (later - now)
    {
      assert Credit(t, ip, now) <= Headroom(h, ip, i, now);
    }
    forall ip | Credit(t, ip, later) != FULL
      ensures exists i :: 0 <= i < |h| && h[i].ip == ip && Credit(t, ip, later) == Headroom(h, ip, i, later)
    {
      var i :| 0 <= i < |h| && h[i].ip == ip && Credit(t, ip, now) == Headroom(h, ip, i, now);
      assert Credit(t, ip, later) == Headroom(h, ip, i, later);
    }
  }

  // A bucket that is swept was full again long before.
  lemma SweepKeepsCredit(t: Table, clock: string -> Time, ip: string, now: Time)
    requires ip in t ==> 0 <= t[ip].credit
    requires clock(ip) <= now
    ensures Credit(Swept(t, clock), ip, now) == Credit(t, ip, now)
  {
  }

  lemma AccountsAfterSweep(t: Table, h: seq<Entry>, clock: string -> Time, now: Time)
    requires Accounts(t, h, now) && forall ip :: clock(ip) <= now
    ensures Accounts(Swept(t, clock), h, now)
  {
    forall ip ensures Credit(Swept(t, clock), ip, now) == Credit(t, ip, now) {
      SweepKeepsCredit(t, clock, ip, now);
    }
  }

  lemma {:induction false} AdmissionsPrefix(h: seq<Entry>, e: Entry, ip: string, from: nat, to: nat)
    requires to <= |h|
    ensures Admissions(h + [e], ip, from, to) == Admissions(h, ip, from, to)
  {
    if from < to {
      AdmissionsPrefix(h, e, ip, from, to - 1);
    }
  }

  lemma HeadroomAfter(h: seq<Entry>, e: Entry, ip: string, i: nat, now: Time)
    requires i <= |h|
    ensures Headroom(h + [e], ip, i, now)
            == (if i < |h| then Headroom(h, ip, i, now) else FULL + (now - e.time))
               - if e.ip == ip && e.admitted then COST else 0
  {
    AdmissionsPrefix(h, e, ip, i, |h|);
    assert (h + [e])[|h|] == e;
  }

  // At most 100 admissions, and one more for every 600 milliseconds of the span.
  predicate Fits(admissions: nat, span: Time) { 600_000_000 * (admissions - 100) <= span }

  lemma FitsIff(admissions: nat, span: Time)
    ensures Fits(admissions, span) <==> COST * admissions <= FULL + span
  {
  }

  // The decision rule for a request that comes after the first k entries:
  // every window that opens at one of those of its address has room for one more.
  ghost predicate HasRoom(h: seq<Entry>, k: nat, ip: string, now: Time)
    requires k <= |h|
  {
    forall i :: 0 <= i < k && h[i].ip == ip ==> Fits(Admissions(h, ip, i, k) + 1, now - h[i].time)
  }

  lemma TouchFollowsRule(t: Table, h: seq<Entry>, ip: string, created: Time, now: Time)
    requires Accounts(t, h, now) && created <= now
    ensures Touch(t, ip, created, now).1 <==> HasRoom(h, |h|, ip, now)
  {
    assert COST <= FULL;
    if !Touch(t, ip, created, now).1 {
      assert Credit(t, ip, now) < COST;
      var i :| 0 <= i < |h| && h[i].ip == ip && Credit(t, ip, now) == Headroom(h, ip, i, now);
      assert COST * (Admissions(h, ip, i, |h|) + 1) > FULL + (now - h[i].time);
      FitsIff(Admissions(h, ip, i, |h|) + 1, now - h[i].time);
    } else {
      forall i | 0 <= i < |h| && h[i].ip == ip
        ensures Fits(Admissions(h, ip, i, |h|) + 1, now - h[i].time)
      {
        FitsIff(Admissions(h, ip, i, |h|) + 1, now - h[i].time);
        assert Credit(t, ip, now) <= Headroom(h, ip, i, now);
      }
    }
  }

  lemma AccountsAfterTouch(t: Table, h: seq<Entry>, ip: string, created: Time, now: Time)
    requires Accounts(t, h, now) && created <= now
    ensures var (t', admitted) := Touch(t, ip, created, now);
            Accounts(t', h + [Entry(ip, now, admitted)], now)
  {
    var (t', admitted) := Touch(t, ip, created, now);
    var e := Entry(ip, now, admitted);
    var h' := h + [e];
    forall a, i | 0 <= i < |h'| && h'[i].ip == a ensures Credit(t', a, now) <= Headroom(h', a, i, now) {
      HeadroomAfter(h, e, a, i, now);
      if i < |h| { assert h'[i] == h[i] && Credit(t, a, now) <= Headroom(h, a, i, now); }
    }
    forall a | Credit(t', a, now) != FULL
      ensures exists i :: 0 <= i < |h'| && h'[i].ip == a && Credit(t', a, now) == Headroom(h', a, i, now)
    {
      var i: nat;
      if Credit(t, a, now) == FULL {
        i := |h|;
      } else {
        i :| 0 <= i < |h| && h[i].ip == a && Credit(t, a, now) == Headroom(h, a, i, now);
        assert h'[i] == h[i];
      }
      HeadroomAfter(h, e, a, i, now);
      assert h'[i].ip == a && Credit(t', a, now) == Headroom(h', a, i, now);
    }
  }

  /// The limiter is exact

  // Every decision in the history follows the rule, and times never decrease.
  ghost predicate Lawful(h: seq<Entry>) {
    && (forall k :: 0 <= k < |h| ==> FollowsRule(h, k))
    && (forall j, k :: 0 <= j < k < |h| ==> h[j].time <= h[k].time)
  }

  ghost predicate FollowsRule(h: seq<Entry>, k: nat)
    requires k < |h|
  {
    h[k].admitted <==> HasRoom(h, k, h[k].ip, h[k].time)
  }

  lemma HasRoomPrefix(h: seq<Entry>, e: Entry, k: nat, ip: string, now: Time)
    requires k <= |h|
    ensures HasRoom(h + [e], k, ip, now) <==> HasRoom(h, k, ip, now)
  {
    forall i | 0 <= i < k
      ensures (h + [e])[i] == h[i]
      ensures Admissions(h + [e], ip, i, k) == Admissions(h, ip, i, k)
    {
      AdmissionsPrefix(h, e, ip, i, k);
    }
  }

  lemma LawfulExtends(h: seq<Entry>, e: Entry)
    requires Lawful(h)
    requires e.admitted <==> HasRoom(h, |h|, e.ip, e.time)
    requires forall k :: 0 <= k < |h| ==> h[k].time <= e.time
    ensures Lawful(h + [e])
  {
    forall k | 0 <= k < |h + [e]| ensures FollowsRule(h + [e], k) {
      assert k < |h| ==> FollowsRule(h, k);
      assert (h + [e])[k] == if k < |h| then h[k] else e;
      HasRoomPrefix(h, e, k, (h + [e])[k].ip, (h + [e])[k].time);
    }
  }

  lemma {:induction false} ServeIsLawful(t: Table, h: seq<Entry>, events: seq<Event>, now: Time)
    requires Accounts(t, h, now) && Lawful(h) && InOrder(events, now)
    requires forall k :: 0 <= k < |h| ==> h[k].time <= now
    ensures Lawful(h + Serve(t, events))
    decreases |events|
  {
    if events == [] {
      assert h + Serve(t, events) == h;
    } else {
      match events[0] {
        case Request(ip, isOptions, created, time) =>
          AccountsLater(t, h, now, time);
          if isOptions {
            ServeIsLawful(t, h, events[1..], time);
          } else {
            var (t', admitted) := Touch(t, ip, created, time);
            var e := Entry(ip, time, admitted);
            TouchFollowsRule(t, h, ip, created, time);
            AccountsAfterTouch(t, h, ip, created, time);
            LawfulExtends(h, e);
            ServeIsLawful(t', h + [e], events[1..], time);
            assert Serve(t, events) == [e] + Serve(t', events[1..]);
            assert h + ([e] + Serve(t', events[1..])) == h + [e] + Serve(t', events[1..]);
          }
        case Cleanup(clock, end) =>
          AccountsLater(t, h, now, end);
          AccountsAfterSweep(t, h, clock, end);
          ServeIsLawful(Swept(t, clock), h, events[1..], end);
      }
    }
  }

  // A counted request is admitted exactly when every window that opens at an earlier request of
  // its address, itself included, stays within 100 admissions plus one per 600 milliseconds.
  lemma LimiterIsExact(events: seq<Event>, start: Time, k: nat)
    requires InOrder(events, start)
    requires k < |Serve(map[], events)|
    ensures var h := Serve(map[], events); h[k].admitted <==> HasRoom(h, k, h[k].ip, h[k].time)
  {
    var h := Serve(map[], events);
    ServeIsLawful(map[], [], events, start);
    assert [] + h == h;
    LawfulDecision(h, k);
  }

  lemma LawfulDecision(h: seq<Entry>, k: nat)
    requires Lawful(h) && k < |h|
    ensures h[k].admitted <==> HasRoom(h, k, h[k].ip, h[k].time)
  {
    assert FollowsRule(h, k);
  }

  // However the requests fall, no stretch of them admits more than a burst of 100 plus the
  // refill of the time it spans.
  lemma WindowBound(events: seq<Event>, start: Time, ip: string, from: nat, to: nat)
    requires InOrder(events, start)
    requires from < to <= |Serve(map[], events)|
    ensures var h := Serve(map[], events);
            Fits(Admissions(h, ip, from, to), h[to - 1].time - h[from].time)
  {
    ServeIsLawful(map[], [], events, start);
    assert [] + Serve(map[], events) == Serve(map[], events);
    LawfulWindow(Serve(map[], events), ip, from, to);
  }

  lemma {:induction false} LawfulWindow(h: seq<Entry>, ip: string, from: nat, to: nat)
    requires Lawful(h) && from < to <= |h|
    ensures Fits(Admissions(h, ip, from, to), h[to - 1].time - h[from].time)
    decreases |h| - from, to
  {
    var last := h[to - 1];
    if !(last.ip == ip && last.admitted) {
      if from < to - 1 { LawfulWindow(h, ip, from, to - 1); }
    } else if from == to - 1 {
      assert Admissions(h, ip, from, from) == 0;
    } else if h[from].ip == ip {
      assert FollowsRule(h, to - 1);
      assert Fits(Admissions(h, ip, from, to - 1) + 1, last.time - h[from].time);
    } else {
      LawfulWindow(h, ip, from + 1, to);
      AdmissionsSkip(h, ip, from, to);
    }
  }

  lemma {:induction false} AdmissionsSkip(h: seq<Entry>, ip: string, from: nat, to: nat)
    requires from < to <= |h| && h[from].ip != ip
    ensures Admissions(h, ip, from, to) == Admissions(h, ip, from + 1, to)
  {
    if from + 1 < to {
      AdmissionsSkip(h, ip, from, to - 1);
    }
  }

  /// The sweep cannot be observed, and addresses do not affect each other

  function OfAddress(h: seq<Entry>, ip: string): seq<Entry> {
    if h == [] then []
    else if h[0].ip == ip then [h[0]] + OfAddress(h[1..], ip)
    else OfAddress(h[1..], ip)
  }

  // Only the requests of one address, and no sweeps.
  function RequestsOf(events: seq<Event>, ip: string): seq<Event> {
    if events == [] then []
    else if events[0].Request? && events[0].ip == ip then [events[0]] + RequestsOf(events[1..], ip)
    else RequestsOf(events[1..], ip)
  }

  function WithoutCleanups(events: seq<Event>): seq<Event> {
    if events == [] then []
    else if events[0].Request? then [events[0]] + WithoutCleanups(events[1..])
    else WithoutCleanups(events[1..])
  }

  ghost predicate SaneTable(t: Table, now: Time) {
    forall ip :: ip in t ==> 0 <= t[ip].credit && t[ip].at <= now
  }

  // Two tables that agree on an address's credit still do after a request, whoever's it is,
  // which the second table only sees if it is that address's own.
  lemma RequestKeepsCredits(t: Table, u: Table, e: Event, ip: string, now: Time)
    requires e.Request? && now <= e.created <= e.now && SaneTable(t, now) && SaneTable(u, now)
    requires Credit(t, ip, now) == Credit(u, ip, now)
    ensures var (t', admitted), (u', admitted') := Touch(t, e.ip, e.created, e.now), Touch(u, e.ip, e.created, e.now);
            && SaneTable(t', e.now) && SaneTable(u', e.now) && SaneTable(t, e.now) && SaneTable(u, e.now)
            && Credit(t, ip, e.now) == Credit(u, ip, e.now)
            && if e.ip == ip then admitted == admitted' && Credit(t', ip, e.now) == Credit(u', ip, e.now)
               else Credit(t', ip, e.now) == Credit(t, ip, e.now)
  {
    CreditGrows(t, ip, now, e.now);
    CreditGrows(u, ip, now, e.now);
  }

  lemma {:induction false} OnlyOwnRequestsMatter(t: Table, u: Table, events: seq<Event>, ip: string, now: Time)
    requires InOrder(events, now) && SaneTable(t, now) && SaneTable(u, now)
    requires Credit(t, ip, now) == Credit(u, ip, now)
    ensures OfAddress(Serve(t, events), ip) == Serve(u, RequestsOf(events, ip))
    decreases |events|
  {
    if events == [] {
    } else {
      var rest := events[1..];
      match events[0] {
        case Request(a, isOptions, created, time) =>
          var (t', admitted) := Touch(t, a, created, time);
          var (u', _) := Touch(u, a, created, time);
          RequestKeepsCredits(t, u, events[0], ip, now);
          OnlyOwnRequestsMatter(if isOptions then t else t', if isOptions || a != ip then u else u', rest, ip, time);
          if !isOptions {
            assert ([Entry(a, time, admitted)] + Serve(t', rest))[1..] == Serve(t', rest);
          }
          if a == ip {
            assert ([events[0]] + RequestsOf(rest, ip))[1..] == RequestsOf(rest, ip);
          }
        case Cleanup(clock, end) =>
          CreditGrows(t, ip, now, end);
          CreditGrows(u, ip, now, end);
          SweepKeepsCredit(t, clock, ip, end);
          OnlyOwnRequestsMatter(Swept(t, clock), u, rest, ip, end);
      }
    }
  }

  // What happens to one address depends on its own requests alone.
  lemma AddressesAreIndependent(events: seq<Event>, ip: string, start: Time)
    requires InOrder(events, start)
    ensures OfAddress(Serve(map[], events), ip) == Serve(map[], RequestsOf(events, ip))
  {
    OnlyOwnRequestsMatter(map[], map[], events, ip, start);
  }

  lemma {:induction false} SweepsDoNotMatter(t: Table, u: Table, events: seq<Event>, now: Time)
    requires InOrder(events, now) && SaneTable(t, now) && SaneTable(u, now)
    requires forall ip :: Credit(t, ip, now) == Credit(u, ip, now)
    ensures Serve(t, events) == Serve(u, WithoutCleanups(events))
    decreases |events|
  {
    if events == [] {
    } else {
      var rest := events[1..];
      var time := if events[0].Request? then events[0].now else events[0].end;
      forall ip ensures Credit(t, ip, time) == Credit(u, ip, time) {
        CreditGrows(t, ip, now, time);
        CreditGrows(u, ip, now, time);
      }
      match events[0] {
        case Request(a, isOptions, created, _) =>
          assert ([events[0]] + WithoutCleanups(rest))[1..] == WithoutCleanups(rest);
          assert Credit(t, a, time) == Credit(u, a, time);
          var (t', _) := Touch(t, a, created, time);
          var (u', _) := Touch(u, a, created, time);
          if isOptions {
            SweepsDoNotMatter(t, u, rest, time);
          } else {
            assert forall ip :: Credit(t', ip, time) == if ip == a then t'[a].credit else Credit(t, ip, time);
            assert forall ip :: Credit(u', ip, time) == if ip == a then u'[a].credit else Credit(u, ip, time);
            SweepsDoNotMatter(t', u', rest, time);
          }
        case Cleanup(clock, _) =>
          forall ip ensures Credit(Swept(t, clock), ip, time) == Credit(t, ip, time) {
            SweepKeepsCredit(t, clock, ip, time);
          }
          SweepsDoNotMatter(Swept(t, clock), u, rest, time);
      }
    }
  }

  // What a sweep deletes: exactly the buckets that have been idle for more than thirty minutes.
  lemma SweepIsExact(t: Table, clock: string -> Time, ip: string)
    ensures ip in Swept(t, clock) <==> ip in t && clock(ip) - t[ip].at <= 30 * 60 * 1_000_000_000
    ensures ip in Swept(t, clock) ==> Swept(t, clock)[ip] == t[ip]
  {
  }

  // The decisions are those of a limiter that never forgets a bucket.
  lemma CleanupIsUnobservable(events: seq<Event>, start: Time)
    requires InOrder(events, start)
    ensures Serve(map[], events) == Serve(map[], WithoutCleanups(events))
  {
    SweepsDoNotMatter(map[], map[], events, start);
  }
}
