/**
 How often the client refreshes on its own initiative (internal/client/hold.go).
 Times and durations are in nanoseconds; an absent time is None.
 */
module Hold {
  import opened Credentials

  const SECOND: int := 1_000_000_000
  const BACKOFF_BASE: int := 5 * SECOND
  const BACKOFF_CAP: int := 900 * SECOND

  type Time = Option<int>

  datatype Verdict = NotHeld | HeldUnreachable | HeldBackoff

  function Pow2(n: nat): nat { if n == 0 then 1 else 2 * Pow2(n - 1) }

  /** The delay a chain of `links` links imposes: five seconds doubled per link, up to
      fifteen minutes. */
  function Delay(links: int): int {
    if links <= 0 then 0 else if BACKOFF_BASE * Pow2(links - 1) <= BACKOFF_CAP then BACKOFF_BASE * Pow2(links - 1) else BACKOFF_CAP
  }

  lemma {:induction false} Pow2Monotone(m: nat, n: nat)
    requires m <= n
    ensures 1 <= Pow2(m) <= Pow2(n)
    decreases n
  {
    if m < n {
      Pow2Monotone(m, n - 1);
    } else if m > 0 {
      Pow2Monotone(m - 1, n - 1);
    }
  }

  /** Doubled in a loop that stops at the cap, so it never passes twice the cap. */
  method RefreshDelay(links: int) returns (d: int)
    ensures d == Delay(links)
  {
    if links <= 0 {
      return 0;
    }
    d := BACKOFF_BASE;
    var k := 1;
    while k < links && d < BACKOFF_CAP
      invariant 1 <= k <= links
      invariant d == BACKOFF_BASE * Pow2(k - 1) && d < 2 * BACKOFF_CAP
    {
      d := d * 2;
      k := k + 1;
    }
    Pow2Monotone(k - 1, links - 1);
    d := if d < BACKOFF_CAP then d else BACKOFF_CAP;
  }

  function ReadStamp(lastSent: Time, now: int): Time { if lastSent.Some? && lastSent.value > now then None else lastSent }

  predicate GateOpen(answeredAt: Time, stamp: Time) {
    answeredAt.Some? && (stamp.Some? ==> answeredAt.value > stamp.value)
  }

  predicate BackoffPending(links: int, stamp: Time, now: int) {
    && stamp.Some?
    && now < stamp.value + Delay(links)
  }

  function HoldAt(links: int, answeredAt: Time, lastSent: Time, now: int): Verdict {
    if links <= 0 then NotHeld
    else
      var stamp := ReadStamp(lastSent, now);
      if !GateOpen(answeredAt, stamp) then HeldUnreachable
      else if BackoffPending(links, stamp, now) then HeldBackoff
      else NotHeld
  }

  // --- contexts over one journal -----------------------------------------------------------

  datatype Written = Written(context: nat, at: int)

  /** The persisted chain length and stamp, each context's latest answer, the clock,
      and every link written since the credential was last settled. */
  datatype State = State(links: nat, last: Time, answered: map<nat, int>, clock: int, stamps: seq<Written>)

  /** `took` is what passes between the hold being asked and the link being stamped. */
  datatype Event = Advance(d: nat) | Answer(context: nat) | Attempt(context: nat, took: nat)

  function AnsweredAt(s: State, c: nat): Time { if c in s.answered then Some(s.answered[c]) else None }

  /** An automatic refresh: the hold is asked under the single-flight lock, and a refresh
      that is not held writes one link and stamps it.  Its outcome is never learned. */
  function Do(s: State, e: Event): State {
    match e
    case Advance(d) => s.(clock := s.clock + d)
    case Answer(c) => s.(answered := s.answered[c := if c in s.answered && s.answered[c] >= s.clock then s.answered[c] else s.clock])
    case Attempt(c, took) =>
      var at := s.clock + took;
      if HoldAt(s.links, AnsweredAt(s, c), s.last, s.clock).NotHeld?
      then s.(clock := at, links := s.links + 1, last := Some(at), stamps := s.stamps + [Written(c, at)])
      else s
  }

  function After(s: State, es: seq<Event>): State
    decreases |es|
  {
    if es == [] then s else After(Do(s, es[0]), es[1..])
  }

  predicate Settled(s: State) {
    && s.links == 0
    && s.last == None
    && s.stamps == []
    && (forall c | c in s.answered :: s.answered[c] <= s.clock)
  }

  predicate Spaced(ws: seq<Written>) {
    forall k | 1 <= k < |ws| :: ws[k].at >= ws[k - 1].at + Delay(k)
  }

  predicate Inv(s: State) {
    && |s.stamps| == s.links && Spaced(s.stamps)
    && s.last == (if s.stamps == [] then None else Some(s.stamps[|s.stamps| - 1].at))
    && (s.last.Some? ==> s.last.value <= s.clock)
    && (forall c | c in s.answered :: s.answered[c] <= s.clock)
  }

  lemma StepKeeps(s: State, e: Event)
    requires Inv(s)
    ensures Inv(Do(s, e))
  {
    if e.Attempt? && HoldAt(s.links, AnsweredAt(s, e.context), s.last, s.clock).NotHeld? {
      var n := Do(s, e);
      forall k | 1 <= k < |n.stamps| ensures n.stamps[k].at >= n.stamps[k - 1].at + Delay(k) {
        assert n.stamps[k - 1] == s.stamps[k - 1];
        if k < |s.stamps| {
          assert n.stamps[k] == s.stamps[k];
        }
      }
    }
  }

  lemma {:induction false} RunKeeps(s: State, es: seq<Event>)
    requires Inv(s)
    ensures Inv(After(s, es))
    decreases |es|
  {
    if es != [] {
      StepKeeps(s, es[0]);
      RunKeeps(Do(s, es[0]), es[1..]);
    }
  }

  /** The first nine links take 1275 seconds, and each later one fifteen minutes more. */
  function Least(n: nat): int { if n == 0 then 0 else Least(n - 1) + Delay(n) }

  lemma {:induction false} SpacedIsSlow(ws: seq<Written>, n: nat)
    requires Spaced(ws) && n < |ws|
    ensures ws[n].at - ws[0].at >= Least(n)
    decreases n
  {
    if n > 0 {
      SpacedIsSlow(ws, n - 1);
    }
  }

  lemma EarlyDelays()
    ensures Delay(1) == 5 * SECOND && Delay(2) == 10 * SECOND
    ensures Delay(3) == 20 * SECOND && Delay(4) == 40 * SECOND
    ensures Delay(5) == 80 * SECOND && Delay(6) == 160 * SECOND
    ensures Delay(7) == 320 * SECOND && Delay(8) == 640 * SECOND
  {
    assert Pow2(0) == 1 && Pow2(1) == 2 && Pow2(2) == 4 && Pow2(3) == 8;
    assert Pow2(4) == 16 && Pow2(5) == 32 && Pow2(6) == 64 && Pow2(7) == 128;
  }

  lemma {:induction false} LeastIs(n: nat)
    requires n >= 8
    ensures Least(n) == (1275 + 900 * (n - 8)) * SECOND
    decreases n
  {
    if n == 8 {
      EarlyDelays();
      assert Least(0) == 0 && Least(1) == 5 * SECOND && Least(2) == 15 * SECOND && Least(3) == 35 * SECOND;
      assert Least(4) == 75 * SECOND && Least(5) == 155 * SECOND && Least(6) == 315 * SECOND && Least(7) == 635 * SECOND;
    } else {
      LeastIs(n - 1);
      Pow2Monotone(8, n - 1);
      assert Pow2(8) == 256 by { assert Pow2(3) == 8 && Pow2(5) == 32 && Pow2(7) == 128; }
      assert Delay(n) == BACKOFF_CAP;
    }
  }

  /** THE RATE BOUND.  From a settled credential, under a clock that never goes back and
      with no settling answer, however many contexts attempt however often: link k + 1
      comes at least min(15 min, 5 s * 2^(k-1)) after link k, and n + 1 links take at
      least 1275 + 900 (n - 8) seconds. */
  lemma LinksAreRare(s: State, es: seq<Event>, n: nat)
    requires Settled(s) && n < |After(s, es).stamps|
    ensures var ws := After(s, es).stamps;
            && (n > 0 ==> ws[n].at >= ws[n - 1].at + Delay(n))
            && (n >= 8 ==> ws[n].at - ws[0].at >= (1275 + 900 * (n - 8)) * SECOND)
  {
    RunKeeps(s, es);
    var ws := After(s, es).stamps;
    SpacedIsSlow(ws, n);
    if n >= 8 {
      LeastIs(n);
    }
  }

  /** EXACTLY WHEN A LINK MAY GO.  A context that has just been answered, later than the last
      link, writes the next one if and only if the delay since that link has passed; the
      link is counted, stamped and the context's own. */
  lemma AnsweredAttemptIff(s: State, c: nat, d: nat, took: nat)
    requires Inv(s) && (s.last.Some? ==> s.last.value < s.clock)
    ensures var a := Do(Do(s, Answer(c)), Advance(d));
            var n := Do(a, Attempt(c, took));
            if s.last.None? || s.clock + d >= s.last.value + Delay(s.links)
            then n.links == s.links + 1 && n.last == Some(s.clock + d + took) && n.stamps == s.stamps + [Written(c, s.clock + d + took)]
            else n == a
  {
  }

  /** And without an answer since the last link it does not, however long it waits. */
  lemma UnansweredAttemptIsHeld(s: State, c: nat, d: nat, took: nat)
    requires Inv(s) && s.links > 0 && (c in s.answered ==> s.answered[c] <= s.last.value)
    ensures var a := Do(s, Advance(d)); Do(a, Attempt(c, took)) == a
  {
  }

  // --- a context that hears nothing -----------------------------------------------------------

  predicate Silent(es: seq<Event>, c: nat) { forall k | 0 <= k < |es| :: es[k] != Answer(c) }

  function WrittenBy(ws: seq<Written>, c: nat): nat {
    if ws == [] then 0 else WrittenBy(ws[..|ws| - 1], c) + (if ws[|ws| - 1].context == c then 1 else 0)
  }

  /** The chain is unsettled and its stamp is not older than the last answer `c` had. */
  predicate Shut(s: State, c: nat) {
    && s.links > 0
    && s.last.Some?
    && (c in s.answered ==> s.answered[c] <= s.last.value)
  }

  /** A context that hears nothing from the server adds at most one link, however long it
      runs and whatever the others do. */
  lemma {:induction false} SilenceAddsOneLink(s: State, es: seq<Event>, c: nat)
    requires Inv(s) && Silent(es, c)
    ensures WrittenBy(After(s, es).stamps, c) <= WrittenBy(s.stamps, c) + (if Shut(s, c) then 0 else 1)
    decreases |es|
  {
    if es != [] {
      var n := Do(s, es[0]);
      StepKeeps(s, es[0]);
      forall k | 0 <= k < |es[1..]| ensures es[1..][k] != Answer(c) { assert es[1..][k] == es[k + 1]; }
      SilenceAddsOneLink(n, es[1..], c);
    }
  }
}
