/** The per-IP fixed-window limiter of the public surface, with its opportunistic sweep. */
module RateLimiter {
  import opened Prelude

  const WINDOW_MS: nat := 60_000
  const MAX: nat := 240
  const SWEEP_SIZE: nat := 10_000

  datatype Entry = Entry(count: nat, resetAt: nat)

  datatype Request = Request(ip: string, now: nat)

  type Hits = map<string, Entry>

  function Swept(hits: Hits, now: nat): Hits { map ip | ip in hits && now < hits[ip].resetAt :: hits[ip] }

  predicate Opens(hits: Hits, r: Request) { r.ip !in hits || r.now >= hits[r.ip].resetAt }

  /** The map after a request; `sweeping` distinguishes the guard from one that never cleans up. */
  function Next(hits: Hits, r: Request, sweeping: bool): Hits {
    if Opens(hits, r) then
      var grown := hits[r.ip := Entry(1, r.now + WINDOW_MS)];
      if sweeping && |grown| >= SWEEP_SIZE then Swept(grown, r.now) else grown
    else hits[r.ip := hits[r.ip].(count := hits[r.ip].count + 1)]
  }

  predicate Allowed(hits: Hits, r: Request) { Opens(hits, r) || hits[r.ip].count + 1 <= MAX }

  function After(hits: Hits, rs: seq<Request>, sweeping: bool): Hits
    decreases |rs|
  {
    if rs == [] then hits else Next(After(hits, rs[..|rs| - 1], sweeping), rs[|rs| - 1], sweeping)
  }

  /** The decision on request `i` of a sequence that starts with an empty map. */
  predicate Decision(rs: seq<Request>, i: nat, sweeping: bool)
    requires i < |rs|
  {
    Allowed(After(map[], rs[..i], sweeping), rs[i])
  }

  predicate Clocked(rs: seq<Request>) { forall i, j :: 0 <= i < j < |rs| ==> rs[i].now <= rs[j].now }

  // ---- Sweeping changes no decision ------------------------------------------------------

  /** `a` is `b` with some entries dropped that are dead at `now`. */
  ghost predicate AgreeOnLive(a: Hits, b: Hits, now: nat) {
    && (forall ip :: ip in a ==> ip in b && a[ip] == b[ip])
    && (forall ip :: ip in b && now < b[ip].resetAt ==> ip in a)
  }

  lemma NextAgrees(a: Hits, b: Hits, r: Request)
    requires AgreeOnLive(a, b, r.now)
    ensures Allowed(a, r) <==> Allowed(b, r)
    ensures AgreeOnLive(Next(a, r, true), Next(b, r, false), r.now)
  {
    assert Opens(a, r) <==> Opens(b, r);
  }

  lemma {:induction false} SweepAgrees(rs: seq<Request>, now: nat)
    requires Clocked(rs) && (rs == [] || rs[|rs| - 1].now <= now)
    ensures AgreeOnLive(After(map[], rs, true), After(map[], rs, false), now)
  {
    if rs != [] {
      var init, last := rs[..|rs| - 1], rs[|rs| - 1];
      SweepAgrees(init, last.now);
      NextAgrees(After(map[], init, true), After(map[], init, false), last);
    }
  }

  /** With a clock that never runs back, the sweeping guard allows and rejects exactly the requests that a
      guard which never sweeps would. */
  lemma SweepingIsInvisible(rs: seq<Request>, i: nat)
    requires Clocked(rs) && i < |rs|
    ensures Decision(rs, i, true) <==> Decision(rs, i, false)
  {
    SweepAgrees(rs[..i], rs[i].now);
    NextAgrees(After(map[], rs[..i], true), After(map[], rs[..i], false), rs[i]);
  }

  // ---- The map stays small ----------------------------------------------------------------

  /** When the last window opened so far, -1 before any. */
  function LastOpening(rs: seq<Request>): int {
    if rs == [] then -1
    else
      var init, last := rs[..|rs| - 1], rs[|rs| - 1];
      if Opens(After(map[], init, true), last) then last.now else LastOpening(init)
  }

  /** IPs with a request in the window's length up to `at`. */
  function RecentIps(rs: seq<Request>, at: int): set<string> {
    set i | 0 <= i < |rs| && at - 60_000 < rs[i].now <= at :: rs[i].ip
  }

  predicate Opener(r: Request, ip: string, resetAt: nat, at: int) {
    r.ip == ip && r.now + WINDOW_MS == resetAt && r.now <= at
  }

  ghost predicate OpenedBy(rs: seq<Request>, ip: string, resetAt: nat, at: int) {
    exists i :: 0 <= i < |rs| && Opener(rs[i], ip, resetAt, at)
  }

  /** Every entry was opened by a request of its IP, no later than `at`. */
  ghost predicate AllOpened(hits: Hits, rs: seq<Request>, at: int) {
    forall ip :: ip in hits ==> OpenedBy(rs, ip, hits[ip].resetAt, at)
  }

  ghost predicate SmallOrLive(hits: Hits, at: int) {
    |hits| < SWEEP_SIZE || forall ip :: ip in hits ==> at < hits[ip].resetAt
  }

  lemma StepOpened(hits: Hits, rs: seq<Request>, at: int, r: Request)
    requires AllOpened(hits, rs, at) && at <= r.now
    ensures AllOpened(Next(hits, r, true), rs + [r], if Opens(hits, r) then r.now else at)
  {
    var hits', at' := Next(hits, r, true), if Opens(hits, r) then r.now else at;
    forall ip | ip in hits'
      ensures OpenedBy(rs + [r], ip, hits'[ip].resetAt, at')
    {
      if ip == r.ip && Opens(hits, r) {
        assert Opener((rs + [r])[|rs|], ip, hits'[ip].resetAt, at');
      } else {
        assert OpenedBy(rs, ip, hits[ip].resetAt, at);
        var i :| 0 <= i < |rs| && Opener(rs[i], ip, hits[ip].resetAt, at);
        assert Opener((rs + [r])[i], ip, hits'[ip].resetAt, at');
      }
    }
  }

  lemma StepSmallOrLive(hits: Hits, at: int, r: Request)
    requires SmallOrLive(hits, at)
    ensures SmallOrLive(Next(hits, r, true), if Opens(hits, r) then r.now else at)
  {
    if !Opens(hits, r) {
      assert Next(hits, r, true).Keys == hits.Keys;
      assert |hits.Keys| == |hits| && |Next(hits, r, true).Keys| == |Next(hits, r, true)|;
    }
  }

  lemma {:induction false} MapIsOk(rs: seq<Request>)
    requires Clocked(rs)
    ensures AllOpened(After(map[], rs, true), rs, LastOpening(rs))
            && SmallOrLive(After(map[], rs, true), LastOpening(rs))
    ensures rs != [] ==> LastOpening(rs) <= rs[|rs| - 1].now
  {
    if rs != [] {
      var init, last := rs[..|rs| - 1], rs[|rs| - 1];
      MapIsOk(init);
      assert rs == init + [last];
      StepOpened(After(map[], init, true), init, LastOpening(init), last);
      StepSmallOrLive(After(map[], init, true), LastOpening(init), last);
    }
  }

  /** After every request sequence with a non-decreasing clock, at window openings and between them: the map has fewer
      than SWEEP_SIZE entries, or no more than the IPs that sent a request in the minute up to the last opening. */
  lemma MapStaysBounded(rs: seq<Request>)
    requires Clocked(rs)
    ensures var hits := After(map[], rs, true);
            |hits| < 10_000 || (hits.Keys <= RecentIps(rs, LastOpening(rs))
               && |hits| <= |RecentIps(rs, LastOpening(rs))|)
  {
    MapIsOk(rs);
    var hits, at := After(map[], rs, true), LastOpening(rs);
    if |hits| >= SWEEP_SIZE {
      forall ip | ip in hits
        ensures ip in RecentIps(rs, at)
      {
        assert OpenedBy(rs, ip, hits[ip].resetAt, at);
        var i :| 0 <= i < |rs| && Opener(rs[i], ip, hits[ip].resetAt, at);
      }
      SubsetSize(hits.Keys, RecentIps(rs, at));
      assert |hits.Keys| == |hits|;
    }
  }

  lemma {:induction false} SubsetSize(xs: set<string>, ys: set<string>)
    requires xs <= ys
    ensures |xs| <= |ys|
  {
    assert ys == xs + (ys - xs);
  }

  // ---- How many requests get through -------------------------------------------------------

  /** Allowed requests of `ip` in the minute from t. */
  ghost function Through(rs: seq<Request>, ip: string, t: int, sweeping: bool): nat
  {
    if rs == [] then 0 else
    var n := |rs| - 1;
    Through(rs[..n], ip, t, sweeping)
    + if rs[n].ip == ip && t <= rs[n].now < t + 60_000 && Decision(rs, n, sweeping) then 1 else 0
  }

  /** What the current window says about the count, by where it opened relative to t. */
  ghost predicate Accounted(hits: Hits, ip: string, t: int, last: int, n: nat) {
    && (last < t ==> n == 0)
    && (ip !in hits ==> n == 0)
    && (ip in hits ==>
          var start, used := hits[ip].resetAt - WINDOW_MS, Min(hits[ip].count, MAX);
          && hits[ip].count >= 1
          && start <= last
          && (start + WINDOW_MS <= t ==> n == 0)
          && (start < t < start + WINDOW_MS ==> n <= used - 1)
          && (start == t ==> n <= used)
          && (t < start < t + WINDOW_MS ==> n <= MAX - 1 + used)
          && (t + WINDOW_MS <= start ==> n <= 2 * MAX - 1))
  }

  lemma NextAccounted(hits: Hits, r: Request, ip: string, t: int, last: int, n: nat)
    requires Accounted(hits, ip, t, last, n) && last <= r.now
    ensures Accounted(Next(hits, r, false), ip, t, r.now,
                      n + if r.ip == ip && t <= r.now < t + WINDOW_MS && Allowed(hits, r) then 1 else 0)
  {
  }

  lemma {:induction false} ThroughAccounted(rs: seq<Request>, ip: string, t: int)
    requires Clocked(rs)
    ensures Accounted(After(map[], rs, false), ip, t, if rs == [] then -1 else rs[|rs| - 1].now,
                      Through(rs, ip, t, false))
  {
    if rs != [] {
      var init, last := rs[..|rs| - 1], rs[|rs| - 1];
      ThroughAccounted(init, ip, t);
      NextAccounted(After(map[], init, false), last, ip, t, if init == [] then -1 else init[|init| - 1].now,
                    Through(init, ip, t, false));
    }
  }

  lemma {:induction false} ThroughSame(rs: seq<Request>, ip: string, t: int)
    requires Clocked(rs)
    ensures Through(rs, ip, t, true) == Through(rs, ip, t, false)
  {
    if rs != [] {
      ThroughSame(rs[..|rs| - 1], ip, t);
      SweepingIsInvisible(rs, |rs| - 1);
    }
  }

  /** For every IP and every request sequence with a non-decreasing clock, any half-open interval of one window's
      length lets through at most 2 * MAX - 1 requests. */
  lemma IntervalBound(rs: seq<Request>, ip: string, t: int)
    requires Clocked(rs)
    ensures Through(rs, ip, t, true) <= 2 * 240 - 1
  {
    ThroughAccounted(rs, ip, t);
    ThroughSame(rs, ip, t);
  }

  /** The window that opened at t is current with its allowance counted, or over. */
  ghost predicate WindowAccounted(hits: Hits, ip: string, t: int, n: nat) {
    && n <= MAX && ip in hits
    && var start := hits[ip].resetAt - WINDOW_MS;
       (start == t && n <= Min(hits[ip].count, MAX)) || start >= t + WINDOW_MS
  }

  lemma {:induction false} WindowStaysAccounted(rs: seq<Request>, i: nat, ip: string)
    requires Clocked(rs) && i <= |rs| && ip in After(map[], rs[..i], false)
    ensures var t := After(map[], rs[..i], false)[ip].resetAt - WINDOW_MS;
            WindowAccounted(After(map[], rs, false), ip, t, Through(rs, ip, t, false))
    decreases |rs|
  {
    var t := After(map[], rs[..i], false)[ip].resetAt - WINDOW_MS;
    if i == |rs| {
      assert rs[..i] == rs;
      ThroughAccounted(rs, ip, t);
    } else {
      var init := rs[..|rs| - 1];
      assert init[..i] == rs[..i];
      WindowStaysAccounted(init, i, ip);
      ThroughAccounted(init, ip, t);
    }
  }

  lemma SameEntry(rs: seq<Request>, ip: string)
    requires Clocked(rs) && ip in After(map[], rs, true)
    ensures ip in After(map[], rs, false) && After(map[], rs, false)[ip] == After(map[], rs, true)[ip]
  {
    SweepAgrees(rs, rs[|rs| - 1].now);
  }

  /** Each window lets through at most MAX requests: whatever window the guard has open for an IP after some
      prefix, the whole sequence gets at most MAX requests through during it. */
  lemma WindowBound(rs: seq<Request>, i: nat, ip: string)
    requires Clocked(rs) && i <= |rs| && ip in After(map[], rs[..i], true)
    ensures Through(rs, ip, After(map[], rs[..i], true)[ip].resetAt - 60_000, true) <= 240
  {
    SameEntry(rs[..i], ip);
    WindowStaysAccounted(rs, i, ip);
    ThroughSame(rs, ip, After(map[], rs[..i], true)[ip].resetAt - WINDOW_MS);
  }

  // ---- The bound is reached -------------------------------------------------------------

  /** One request opens a window, the rest of its allowance comes at its last millisecond, and the next window
      spends all of its own at once. */
  function Burst(ip: string, n: nat): seq<Request>
  {
    seq(n, i requires 0 <= i < n =>
      Request(ip, if i == 0 then 0 else if i < MAX then WINDOW_MS - 1 else WINDOW_MS))
  }

  /** The map after n requests of the burst. */
  function BurstMap(ip: string, n: nat): Hits {
    if n == 0 then map[]
    else if n <= MAX then map[ip := Entry(n, WINDOW_MS)]
    else map[ip := Entry(n - MAX, 2 * WINDOW_MS)]
  }

  lemma BurstStep(ip: string, n: nat)
    requires n < 2 * MAX
    ensures var r := Burst(ip, n + 1)[n];
            && Allowed(BurstMap(ip, n), r) && Next(BurstMap(ip, n), r, false) == BurstMap(ip, n + 1)
            && r.ip == ip && (WINDOW_MS - 1 <= r.now < 2 * WINDOW_MS - 1 <==> n > 0)
  {
  }

  lemma {:induction false} BurstRuns(ip: string, n: nat)
    requires n <= 2 * MAX
    ensures Through(Burst(ip, n), ip, WINDOW_MS - 1, false) == Max(0, n - 1)
    ensures After(map[], Burst(ip, n), false) == BurstMap(ip, n)
  {
    if n > 0 {
      BurstRuns(ip, n - 1);
      BurstStep(ip, n - 1);
      assert Burst(ip, n)[..n - 1] == Burst(ip, n - 1);
    }
  }

  lemma IntervalBoundIsReached(ip: string)
    ensures Clocked(Burst(ip, 2 * MAX)) && Through(Burst(ip, 2 * MAX), ip, WINDOW_MS - 1, true) == 2 * MAX - 1
  {
    BurstRuns(ip, 2 * MAX);
    ThroughSame(Burst(ip, 2 * MAX), ip, WINDOW_MS - 1);
  }

  // ---- One request ------------------------------------------------------------------------

  /** What one request does: a minute's window is opened unless one is open, and every request counts; it is allowed if
      it opens its window or is among the first 240. Entries of others go only when a window opens with 10,000
      entries, and then exactly the expired ones. */
  ghost predicate Counted(hits: Hits, ip: string, now: nat, allowed: bool, after: Hits) {
    var opens := ip !in hits || hits[ip].resetAt <= now;
    var sweeps := opens && 10_000 <= |hits.Keys + {ip}|;
    && (allowed <==> opens || hits[ip].count < 240)
    && ip in after
    && after[ip] == (if opens then Entry(1, now + 60_000) else Entry(hits[ip].count + 1, hits[ip].resetAt))
    && forall other :: other != ip ==>
         && (other in after <==> other in hits && (sweeps ==> now < hits[other].resetAt))
         && (other in after ==> after[other] == hits[other])
  }

  lemma NextCounts(hits: Hits, r: Request)
    ensures Counted(hits, r.ip, r.now, Allowed(hits, r), Next(hits, r, true))
  {
    if Opens(hits, r) {
      var grown := hits[r.ip := Entry(1, r.now + WINDOW_MS)];
      assert |grown.Keys| == |grown| && grown.Keys == hits.Keys + {r.ip};
    }
  }

  // ---- The guard ---------------------------------------------------------------------------

  class PublicRateLimitGuard {
    var hits: Hits

    constructor ()
      ensures hits == map[]
    {
      hits := map[];
    }

    /** True lets the request through; false is the 429 rejection. */
    method CanActivate(ip: string, now: nat) returns (allowed: bool)
      modifies this
      ensures allowed <==> Allowed(old(hits), Request(ip, now))
      ensures hits == Next(old(hits), Request(ip, now), true)
      ensures Counted(old(hits), ip, now, allowed, hits)
    {
      NextCounts(hits, Request(ip, now));
      if ip !in hits || now >= hits[ip].resetAt {
        hits := hits[ip := Entry(1, now + WINDOW_MS)];
        Sweep(now);
        return true;
      }
      hits := hits[ip := hits[ip].(count := hits[ip].count + 1)];
      return hits[ip].count <= MAX;
    }

    /** Deletes the expired entries one by one once the map is large. */
    method Sweep(now: nat)
      modifies this
      ensures hits == if |old(hits)| >= SWEEP_SIZE then Swept(old(hits), now) else old(hits)
    {
      if |hits| < SWEEP_SIZE {
        return;
      }
      var rest := hits.Keys;
      while rest != {}
        invariant rest <= old(hits).Keys
        invariant forall ip :: ip in old(hits) ==> (ip in hits <==> ip in rest || now < old(hits)[ip].resetAt)
        invariant forall ip :: ip in hits ==> ip in old(hits) && hits[ip] == old(hits)[ip]
        decreases rest
      {
        var ip :| ip in rest;
        if now >= hits[ip].resetAt {
          hits := hits - {ip};
        }
        rest := rest - {ip};
      }
    }
  }
}
