/**
 The heartbeat, from both ends: the server's watchdog (internal/api/socket.go) and the
 client's own severance (internal/client/client.go).
 */
module Heartbeat {

  const SECOND: int := 1_000_000_000
  const TWO63: int := 0x8000_0000_0000_0000
  const TWO64: int := 0x1_0000_0000_0000_0000
  const DEFAULT_INTERVAL_SEC: int := 35
  const DEFAULT_MISSED_PONG_LIMIT: int := 2

  // --- the window ------------------------------------------------------------------------

  /** What an operator has configured, or the default; zero is unset. */
  function Interval(configured: int): int { if configured <= 0 then DEFAULT_INTERVAL_SEC else configured }

  function Limit(configured: int): int { if configured <= 0 then DEFAULT_MISSED_PONG_LIMIT else configured }

  /** Two's complement in 64 bits. */
  function Wrap64(x: int): (r: int)
    ensures -TWO63 <= r < TWO63 && (-TWO63 <= x < TWO63 ==> r == x)
  {
    (x + TWO63) % TWO64 - TWO63
  }

  /** The product as it is computed, wrapping after each multiplication. */
  function Window(interval: int, limit: int): int { Wrap64(Wrap64(interval * SECOND) * Wrap64(limit + 1)) }

  lemma ProductBounds(a: int, b: int, m: int, n: int)
    requires 1 <= a <= m && 1 <= b <= n
    ensures 1 <= a * b <= m * n
  {
    assert a * b <= m * b;
    assert m * b <= m * n;
    assert 1 * b <= a * b;
  }

  /** Every accepted configuration is enforced as announced: the window is positive, it is
      (limit + 1) intervals, and it fits 64-bit nanoseconds. */
  lemma AcceptedWindowFits(interval: int, limit: int)
    requires interval == 0 || 5 <= interval <= 90
    requires 0 <= limit <= 1000
    ensures var i, l := Interval(interval), Limit(limit);
            && Window(i, l) == (i * 1_000_000_000) * (l + 1) && 0 < Window(i, l) < TWO63
            && i == (if interval == 0 then 35 else interval) && l == (if limit == 0 then 2 else limit)
  {
    var i, l := Interval(interval), Limit(limit);
    ProductBounds(i * SECOND, l + 1, 90 * SECOND, 1001);
  }

  /** EXACTLY WHICH LIMITS FIT.  For any interval the schema allows, the window is what it
      should be if and only if the limit is below the number of intervals in 2^63
      nanoseconds, rounded up: about 10^8 for ninety seconds. */
  lemma WindowFitsIff(interval: int, limit: int)
    requires 5 <= interval <= 90 && 1 <= limit < TWO63 - 1
    ensures Window(interval, limit) == (interval * SECOND) * (limit + 1) <==> (interval * SECOND) * (limit + 1) < TWO63
  {
    ProductBounds(interval * SECOND, limit + 1, 90 * SECOND, TWO63);
  }

  /** And from there until the product passes 2^64 it comes out negative, so that the timer
      fires at once: for ninety seconds, every limit in the range named. */
  lemma WindowTurnsNegative(interval: int, limit: int)
    requires 5 <= interval <= 90 && 1 <= limit < TWO63 - 1
    ensures TWO63 <= (interval * SECOND) * (limit + 1) < TWO64 ==> Window(interval, limit) < 0
    ensures interval == 90 && 102_481_911 <= limit < 204_963_822 ==> Window(interval, limit) < 0
  {
    var x := (interval * SECOND) * (limit + 1);
    if TWO63 <= x < TWO64 {
      assert x + TWO63 == 1 * TWO64 + (x - TWO63);
    }
    if interval == 90 && 102_481_911 <= limit < 204_963_822 {
      assert x == 90 * SECOND * limit + 90 * SECOND;
    }
  }

  // --- the server's watchdog ------------------------------------------------------------------

  /** The timer: armed when `ready` goes out, re-armed by every ping, and by nothing else. */
  class Watchdog {
    const window: int
    var deadline: int
    var severed: bool

    constructor (now: int, window: int)
      ensures this.window == window && deadline == now + window && !severed
    {
      this.window := window;
      deadline, severed := now + window, false;
    }

    /** Time passes: past the deadline the session is severed, and stays so. */
    method Pass(now: int)
      modifies this`severed
      ensures severed == (old(severed) || now > deadline)
    {
      if now > deadline {
        severed := true;
      }
    }

    method Ping(now: int)
      modifies this
      ensures severed == (old(severed) || now > old(deadline))
      ensures deadline == if severed then old(deadline) else now + window
    {
      Pass(now);
      if !severed {
        deadline := now + window;
      }
    }

    /** A session's pings as they arrive, and the time it is looked at: severed if and only
        if somewhere up to then more than a window passed without one. */
    method Session(arrivals: seq<int>, until: int)
      requires !severed
      modifies this
      ensures severed <==> !Spaced(old(deadline) - window, arrivals + [until], window)
    {
      var n, last := 0, deadline - window;
      ghost var all := arrivals + [until];
      assert all[0..] == all;
      while n < |arrivals|
        invariant 0 <= n <= |arrivals|
        invariant !severed ==> deadline == last + window
        invariant severed ==> !Spaced(old(deadline) - window, all, window)
        invariant !severed ==> (Spaced(old(deadline) - window, all, window) <==> Spaced(last, all[n..], window))
      {
        assert all[n..][0] == arrivals[n] && all[n..][1..] == all[n + 1..];
        Ping(arrivals[n]);
        last := arrivals[n];
        n := n + 1;
      }
      assert all[n..] == [until] && [until][1..] == [];
      assert Spaced(last, [until], window) <==> until <= last + window;
      Pass(until);
    }
  }

  /** Each arrival comes within the window of the one before it. */
  predicate Spaced(start: int, arrivals: seq<int>, window: int)
    decreases |arrivals|
  {
    arrivals == [] || (arrivals[0] <= start + window && Spaced(arrivals[0], arrivals[1..], window))
  }

  /** When the pings of a session arrive: the k-th is sent k + 1 intervals after the client
      took `ready`, and is `delays[k]` on the way. */
  function Arrivals(taken: int, interval: int, delays: seq<int>): seq<int>
    decreases |delays|
  {
    if delays == [] then [] else [taken + interval + delays[0]] + Arrivals(taken + interval, interval, delays[1..])
  }

  /** The delay never grows by more than `slack` from one ping to the next; `ready`'s own
      delay counts as the first. */
  predicate Steady(first: int, delays: seq<int>, slack: int)
    decreases |delays|
  {
    delays == [] || (delays[0] - first <= slack && Steady(delays[0], delays[1..], slack))
  }

  /** THE CONTRACT, BOTH WAYS.  A client that pings on every announced interval is never
      severed if and only if its delay never grows by more than limit intervals between
      two pings.  `start` is when the client took `ready`, which had left `-first`
      earlier. */
  lemma {:induction false} PingContract(start: int, first: int, interval: int, limit: int, delays: seq<int>)
    ensures Spaced(start + first, Arrivals(start, interval, delays), interval * (limit + 1)) <==> Steady(first, delays, limit * interval)
    decreases |delays|
  {
    if delays != [] {
      var as_ := Arrivals(start, interval, delays);
      assert as_[0] == start + interval + delays[0] && as_[1..] == Arrivals(start + interval, interval, delays[1..]);
      assert interval * (limit + 1) == limit * interval + interval;
      PingContract(start + interval, delays[0], interval, limit, delays[1..]);
    }
  }

  // --- the client's own rule ----------------------------------------------------------------

  datatype Heart = Beating(outstanding: set<nat>, pingSeq: nat) | Severed

  /** Ids are numbered as they are sent. */
  predicate HeartOk(h: Heart) { h.Beating? ==> forall i | i in h.outstanding :: i <= h.pingSeq }

  function AtLeastOne(limit: int): (n: int)
    ensures n >= 1 && n >= limit && (n == 1 || n == limit)
  {
    if limit < 1 then 1 else limit
  }

  function Tick(h: Heart, limit: int): Heart {
    if h.Severed? then h
    else if |h.outstanding| >= AtLeastOne(limit) then Severed
    else Beating(h.outstanding + {h.pingSeq + 1}, h.pingSeq + 1)
  }

  function Pong(h: Heart, id: nat): Heart { if h.Severed? then h else h.(outstanding := h.outstanding - {id}) }

  function Ticks(h: Heart, limit: int, k: nat): Heart { if k == 0 then h else Tick(Ticks(h, limit, k - 1), limit) }

  /** SILENCE IS NOTICED.  With no pong, a client severs itself at exactly the tick after
      the limit is reached: within limit + 1 intervals whatever was outstanding. */
  lemma {:induction false} SilenceSevers(h: Heart, limit: int, k: nat)
    requires h.Beating? && HeartOk(h)
    ensures var n, l := |h.outstanding|, AtLeastOne(limit);
            && (Ticks(h, limit, k).Severed? <==> k >= 1 && n + k > l)
            && (k >= l + 1 ==> Ticks(h, limit, k).Severed?)
            && (Ticks(h, limit, k).Beating? ==> |Ticks(h, limit, k).outstanding| == n + k && HeartOk(Ticks(h, limit, k)))
  {
    if k > 0 {
      SilenceSevers(h, limit, k - 1);
      var p := Ticks(h, limit, k - 1);
      if p.Beating? {
        assert p.pingSeq + 1 !in p.outstanding;
      }
    }
  }

  datatype Beat = ATick | APong(id: nat)

  function Beats(h: Heart, limit: int, bs: seq<Beat>): Heart
    decreases |bs|
  {
    if bs == [] then h else Beats(if bs[0].ATick? then Tick(h, limit) else Pong(h, bs[0].id), limit, bs[1..])
  }

  function Pings(bs: seq<Beat>): nat { if bs == [] then 0 else Pings(bs[..|bs| - 1]) + (if bs[|bs| - 1].ATick? then 1 else 0) }

  /** The `i`-th ping went out at beat `k` and no pong of it has come since. */
  predicate Unanswered(bs: seq<Beat>, i: nat, k: nat) {
    k < |bs| && bs[k].ATick? && Pings(bs[..k + 1]) == i && forall j | k < j < |bs| :: bs[j] != APong(i)
  }

  lemma {:induction false} BeatsSnoc(h: Heart, limit: int, bs: seq<Beat>)
    requires bs != []
    ensures var n := |bs| - 1;
            var g := Beats(h, limit, bs[..n]);
            Beats(h, limit, bs) == if bs[n].ATick? then Tick(g, limit) else Pong(g, bs[n].id)
    decreases |bs|
  {
    var n := |bs| - 1;
    if n > 0 {
      BeatsSnoc(if bs[0].ATick? then Tick(h, limit) else Pong(h, bs[0].id), limit, bs[1..]);
      assert bs[1..][..n - 1] == bs[..n][1..];
    }
  }

  ghost predicate Owed(bs: seq<Beat>, i: nat) { exists k: nat :: Unanswered(bs, i, k) }

  lemma UnansweredFront(bs: seq<Beat>, i: nat, k: nat)
    requires bs != [] && k < |bs| - 1
    ensures Unanswered(bs, i, k) <==> Unanswered(bs[..|bs| - 1], i, k) && bs[|bs| - 1] != APong(i)
  {
    var n := |bs| - 1;
    var init := bs[..n];
    assert bs[..k + 1] == init[..k + 1];
    if Unanswered(bs, i, k) {
      assert forall j | k < j < n :: init[j] == bs[j];
    }
    if Unanswered(init, i, k) && bs[n] != APong(i) {
      forall j | k < j < |bs| ensures bs[j] != APong(i) { assert j < n ==> init[j] == bs[j]; }
    }
  }

  lemma OwedSnoc(bs: seq<Beat>, i: nat)
    requires bs != []
    ensures var last := bs[|bs| - 1];
            Owed(bs, i) <==> (last.ATick? && i == Pings(bs)) || (last != APong(i) && Owed(bs[..|bs| - 1], i))
  {
    var n := |bs| - 1;
    assert bs[..n + 1] == bs;
    if Owed(bs, i) {
      var k: nat :| Unanswered(bs, i, k);
      if k < n { UnansweredFront(bs, i, k); }
    }
    if bs[n].ATick? && i == Pings(bs) { assert Unanswered(bs, i, n); }
    if bs[n] != APong(i) && Owed(bs[..n], i) {
      var k: nat :| Unanswered(bs[..n], i, k);
      UnansweredFront(bs, i, k);
    }
  }

  /** WHAT IS OUTSTANDING, from when the socket opened: exactly the pings sent and not
      answered since, numbered as they went. */
  lemma {:induction false} OutstandingIs(limit: int, bs: seq<Beat>, i: nat)
    requires Beats(Beating({}, 0), limit, bs).Beating?
    ensures var h := Beats(Beating({}, 0), limit, bs);
            h.pingSeq == Pings(bs) && (i in h.outstanding <==> exists k: nat :: Unanswered(bs, i, k))
    decreases |bs|
  {
    if bs != [] {
      BeatsSnoc(Beating({}, 0), limit, bs);
      OutstandingIs(limit, bs[..|bs| - 1], i);
      OwedSnoc(bs, i);
    }
    assert Owed(bs, i) <==> exists k: nat :: Unanswered(bs, i, k);
  }

  /** And a beat severs exactly if it is a tick that finds them come to the limit. */
  lemma BeatSeversIff(limit: int, bs: seq<Beat>, beat: Beat)
    requires Beats(Beating({}, 0), limit, bs).Beating?
    ensures Beats(Beating({}, 0), limit, bs + [beat]).Severed? <==>
            beat.ATick? && |Beats(Beating({}, 0), limit, bs).outstanding| >= (if limit < 1 then 1 else limit)
  {
    BeatsSnoc(Beating({}, 0), limit, bs + [beat]);
    assert (bs + [beat])[..|bs|] == bs;
  }

  /** The ping sent `limit` ticks ago, and everything before it, has been answered. */
  predicate Answered(h: Heart, limit: int) {
    h.Beating? ==> forall i | i in h.outstanding :: h.pingSeq + 1 - AtLeastOne(limit) < i
  }

  /** At every tick the pings of `limit` intervals ago are answered. */
  predicate Prompt(h: Heart, limit: int, bs: seq<Beat>)
    decreases |bs|
  {
    bs == [] || ((bs[0].ATick? ==> Answered(h, limit)) && Prompt(if bs[0].ATick? then Tick(h, limit) else Pong(h, bs[0].id), limit, bs[1..]))
  }

  lemma {:induction false} RangeSize(s: set<nat>, lo: int, hi: int)
    requires lo <= hi && forall i | i in s :: lo < i <= hi
    ensures |s| <= hi - lo
    decreases hi - lo
  {
    if hi == lo {
      assert s == {};
    } else if hi in s {
      RangeSize(s - {hi}, lo, hi - 1);
    } else {
      RangeSize(s, lo, hi - 1);
    }
  }

  /** NOBODY IS SEVERED EARLY.  A client whose every ping is answered before `limit` further
      ticks have passed never severs. */
  lemma {:induction false} PromptPongsKeepTheSocket(h: Heart, limit: int, bs: seq<Beat>)
    requires h.Beating? && HeartOk(h) && Prompt(h, limit, bs)
    ensures Beats(h, limit, bs).Beating?
    decreases |bs|
  {
    if bs != [] {
      if bs[0].ATick? {
        var l := AtLeastOne(limit);
        RangeSize(h.outstanding, h.pingSeq + 1 - l, h.pingSeq);
        PromptPongsKeepTheSocket(Tick(h, limit), limit, bs[1..]);
      } else {
        PromptPongsKeepTheSocket(Pong(h, bs[0].id), limit, bs[1..]);
      }
    }
  }
}
