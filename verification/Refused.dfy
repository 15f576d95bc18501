/**
 The wait while Catenary refuses the access token (internal/client/refused.go): no dial
 at all, and one /sync per refresh hold, whose 401 is what lets the refresh go.
 */
module Refused {
  import opened Credentials
  import opened Hold

  predicate RefusedHoldAt(refused: bool, links: int, lastSent: Time, now: int) {
    refused && links > 0 && BackoffPending(links, ReadStamp(lastSent, now), now)
  }

  /** An answer moves the latest one forward, never back. */
  function Latest(answered: Time, now: int): (r: Time)
    ensures r.Some? && r.value >= now && (answered.Some? ==> r.value >= answered.value) && (r == answered || r.value == now)
  {
    if answered.Some? && answered.value >= now then answered else Some(now)
  }

  /** GATE AND WAIT CANNOT BLOCK EACH OTHER, and exactly when they could.  A /sync that the
      wait let go at `t1` and that is refused at `t2` leaves the refresh unheld at `t3`,
      unless the stamp lay in the future at `t1` and the clock passed it since. */
  lemma RefusalUnholdsIff(links: int, last: Time, answered: Time, t1: int, t2: int, t3: int)
    requires t1 <= t2 <= t3 && !RefusedHoldAt(true, links, last, t1)
    ensures HoldAt(links, Latest(answered, t2), last, t3).NotHeld? <==>
            !(links > 0 && last.Some? && t1 < last.value <= t3
              && (Latest(answered, t2).value <= last.value || t3 < last.value + Delay(links)))
  {
    if links > 0 {
      DelayGrows(1, links);
    }
  }

  /** The case is real: a clock set back under the stamp, and a slow request. */
  lemma SetBackClockHolds(last: int)
    ensures !RefusedHoldAt(true, 1, Some(last), last - 1)
    ensures HoldAt(1, Latest(None, last - 1), Some(last), last) == HeldUnreachable
    ensures HoldAt(1, Latest(None, last + 1), Some(last), last + 1) == HeldBackoff
  {
    EarlyDelays();
  }

  lemma DelayGrows(m: int, n: int)
    requires 1 <= m <= n
    ensures BACKOFF_BASE <= Delay(m) <= Delay(n) <= BACKOFF_CAP
  {
    Pow2Monotone(0, m - 1);
    Pow2Monotone(m - 1, n - 1);
  }

  /** The polling wait, with nothing else moving the chain: it ends, at the first poll at
      which the hold has elapsed, so less than one cadence late. */
  method WaitWhileHeld(links: int, last: Time, now: int, cadence: int) returns (t: int, polls: nat)
    requires cadence > 0
    ensures !RefusedHoldAt(true, links, last, t) && t == now + polls * cadence
    ensures polls > 0 ==> RefusedHoldAt(true, links, last, t - cadence)
    ensures polls > 0 ==> last.Some? && t < last.value + Delay(links) + cadence
  {
    t, polls := now, 0;
    while RefusedHoldAt(true, links, last, t)
      invariant t == now + polls * cadence
      invariant polls > 0 ==> RefusedHoldAt(true, links, last, t - cadence)
      decreases if last.Some? then last.value + Delay(links) - t else 0
    {
      t := t + cadence;
      polls := polls + 1;
    }
  }

  // --- the client's loops while nothing settles ------------------------------------------

  /** A refused /sync issued while the token was already known to be refused: when it was
      let go, and the chain it found. */
  datatype Probe = Probe(at: int, links: nat)

  /** Where the catch-up goroutine stands: at rest, with a request out that the wait let go,
      or holding a 401 it is to react to. */
  datatype Sync = Rest | Asking(at: int, token: nat, links: nat, known: bool) | Reacting(token: nat)

  /** `cleared` is a dial that the wait has let go and that has not gone out yet; `misses`
      counts the attempts on this pair that wrote no link because no proposal was minted. */
  datatype State = State(
    links: nat, last: Time, answered: Time, clock: int,
    access: nat, refused: Option<nat>, sync: Sync, cleared: bool,
    probes: seq<Probe>, misses: nat, dials: nat)

  datatype Event =
    | Pass(d: nat)
    | DialCheck
    | Dial
    | SyncCheck
    | Sync401
    | SyncEnds(answered: bool)
    | React(took: nat, minted: bool)
    | Explicit
    | Rotated(access: nat)

  predicate RefusedNow(s: State) { s.refused == Some(s.access) }

  predicate Enabled(s: State, e: Event) {
    match e
    case Pass(_) => true
    case DialCheck => !RefusedNow(s)
    case Dial => s.cleared
    case SyncCheck => s.sync.Rest? && !RefusedHoldAt(RefusedNow(s), s.links, s.last, s.clock)
    case Sync401 => s.sync.Asking?
    case SyncEnds(_) => s.sync.Asking?
    case React(_, _) => s.sync.Reacting?
    case Explicit => true
    case Rotated(a) => a != s.access && s.refused != Some(a) && (s.sync.Rest? || a != s.sync.token)
  }

  function Extended(s: State): State { s.(links := s.links + 1, last := Some(s.clock)) }

  /** The wait before a dial and the dial are two steps, and the catch-up goroutine runs
      between them.  A refusal marks the token its request carried.  `Explicit` is any link
      this context's suppressors did not decide: a host's own call, or another context's
      attempt.  `Rotated` is an answer, to whoever asked. */
  function Do(s: State, e: Event): State
    requires Enabled(s, e)
  {
    match e
    case Pass(d) => s.(clock := s.clock + d)
    case DialCheck => s.(cleared := true)
    case Dial => s.(cleared := false, dials := s.dials + 1)
    case SyncCheck => s.(sync := Asking(s.clock, s.access, s.links, RefusedNow(s)))
    case Sync401 =>
      s.(answered := Latest(s.answered, s.clock), refused := Some(s.sync.token), sync := Reacting(s.sync.token),
         probes := if s.sync.known && s.sync.token == s.access then s.probes + [Probe(s.sync.at, s.sync.links)] else s.probes)
    case SyncEnds(answered) => s.(sync := Rest, answered := if answered then Latest(s.answered, s.clock) else s.answered)
    case React(took, minted) =>
      if s.sync.token != s.access || !HoldAt(s.links, s.answered, s.last, s.clock).NotHeld? then s.(sync := Rest)
      else if minted then Extended(s.(clock := s.clock + took)).(sync := Rest)
      else s.(clock := s.clock + took, misses := s.misses + 1, sync := Rest)
    case Explicit => Extended(s)
    case Rotated(a) => s.(links := 0, last := None, access := a, probes := [], misses := 0)
  }

  predicate Run(s: State, es: seq<Event>)
    decreases |es|
  {
    if es == [] then true else Enabled(s, es[0]) && Run(Do(s, es[0]), es[1..])
  }

  function After(s: State, es: seq<Event>): State
    requires Run(s, es)
    decreases |es|
  {
    if es == [] then s else After(Do(s, es[0]), es[1..])
  }

  // --- what holds throughout -----------------------------------------------------------------

  /** `q` comes after `p`: a whole hold later, if a link was written since. */
  predicate Spaced(p: Probe, q: Probe) {
    q.links >= p.links && q.at >= p.at && (q.links > p.links ==> q.at >= p.at + Delay(q.links))
  }

  predicate SpacedProbes(ps: seq<Probe>, misses: nat) {
    && (forall k | 0 <= k < |ps| :: ps[k].links + misses >= k)
    && (forall k | 1 <= k < |ps| :: Spaced(ps[k - 1], ps[k]) && (misses == 0 ==> ps[k].links > ps[k - 1].links))
  }

  predicate Linked(s: State, at: int) { s.last.Some? && s.last.value >= at }

  function LastProbe(s: State): Probe
    requires s.probes != []
  {
    s.probes[|s.probes| - 1]
  }

  /** A request out with a token known to be refused: it was let go in its place after the
      probe before it, and since then nothing was written, or a link was. */
  predicate AskOk(s: State) {
    s.sync.Asking? && s.sync.known && s.sync.token == s.access ==>
      && s.sync.at <= s.clock && |s.probes| <= s.sync.links + s.misses
      && (s.probes != [] ==> Spaced(LastProbe(s), Probe(s.sync.at, s.sync.links)) && (s.misses == 0 ==> s.sync.links > LastProbe(s).links))
      && (if s.links == s.sync.links then s.last.Some? ==> s.sync.at >= s.last.value + Delay(s.links)
          else s.links > s.sync.links && Linked(s, s.sync.at))
  }

  /** The last probe has been followed by a link; or nothing was written since it was let
      go, which no hold was in the way of, and then the reaction to it is to come and not
      held, or a reaction has minted nothing. */
  predicate Followed(s: State) {
    s.probes != [] ==>
      || (s.links > LastProbe(s).links && Linked(s, LastProbe(s).at) && s.links + s.misses >= |s.probes|)
      || (Unwritten(s) && (Unreacted(s) || Missed(s)))
  }

  predicate Unwritten(s: State)
    requires s.probes != []
  {
    && s.links == LastProbe(s).links && s.clock >= LastProbe(s).at
    && (s.last.Some? ==> LastProbe(s).at >= s.last.value + Delay(s.links))
  }

  predicate Missed(s: State) { s.sync != Reacting(s.access) && s.misses > 0 && s.links + s.misses >= |s.probes| }

  predicate Unreacted(s: State) {
    && s.sync == Reacting(s.access) && s.links + s.misses + 1 >= |s.probes|
    && HoldAt(s.links, s.answered, s.last, s.clock).NotHeld?
  }

  predicate Clocks(s: State) {
    && (s.last.Some? ==> s.last.value <= s.clock) && (s.answered.Some? ==> s.answered.value <= s.clock)
    && (s.links == 0 <==> s.last.None?)
  }

  /** The mark is on the held token only while no request of an older one is out. */
  predicate Marked(s: State) {
    && (s.probes != [] ==> RefusedNow(s))
    && (!s.sync.Rest? && s.sync.token != s.access ==> !RefusedNow(s))
    && (s.sync.Asking? && s.sync.token == s.access ==> (s.probes != [] ==> s.sync.known) && (s.sync.known ==> RefusedNow(s)))
  }

  predicate Inv(s: State) {
    && Clocks(s)
    && Marked(s)
    && SpacedProbes(s.probes, s.misses)
    && AskOk(s)
    && Followed(s)
  }

  predicate Init(s: State) {
    && s.links == 0 && s.last.None? && s.answered.None? && s.refused.None?
    && s.sync.Rest? && !s.cleared && s.probes == [] && s.misses == 0 && s.dials == 0
  }

  /** A probe's 401 leaves the refresh unheld, unless a link was written while it was out. */
  lemma ProbeUnholds(s: State)
    requires Clocks(s) && AskOk(s) && s.sync.Asking? && s.sync.known
    requires s.sync.token == s.access && s.links == s.sync.links
    ensures HoldAt(s.links, Latest(s.answered, s.clock), s.last, s.clock).NotHeld?
  {
    if s.links > 0 {
      DelayGrows(1, s.links);
      RefusalUnholdsIff(s.links, s.last, s.answered, s.sync.at, s.clock, s.clock);
    }
  }

  lemma ProbeKeeps(s: State)
    requires Inv(s) && s.sync.Asking? && s.sync.known && s.sync.token == s.access
    ensures Inv(Do(s, Sync401))
  {
    if s.links == s.sync.links {
      ProbeUnholds(s);
    }
    SpacedSnoc(s.probes, Probe(s.sync.at, s.sync.links), s.misses);
  }

  lemma SpacedSnoc(ps: seq<Probe>, q: Probe, misses: nat)
    requires SpacedProbes(ps, misses) && |ps| <= q.links + misses
    requires ps != [] ==> Spaced(ps[|ps| - 1], q) && (misses == 0 ==> q.links > ps[|ps| - 1].links)
    ensures SpacedProbes(ps + [q], misses)
  {
    var more := ps + [q];
    assert forall k | 0 <= k < |ps| :: more[k] == ps[k];
    assert forall k | 1 <= k < |ps| :: Spaced(ps[k - 1], ps[k]);
  }

  /** A refresh that is not held stays so until a link is written. */
  lemma UnheldStays(links: nat, answered: Time, last: Time, now: int, d: nat)
    requires HoldAt(links, answered, last, now).NotHeld?
    requires (last.Some? ==> last.value <= now)
    ensures HoldAt(links, answered, last, now + d).NotHeld?
  {
  }

  lemma SyncKeeps(s: State, e: Event)
    requires Inv(s) && Enabled(s, e)
    requires (e.SyncCheck? || e.Sync401? || e.SyncEnds? || e.React?)
    ensures Inv(Do(s, e))
  {
    if e.Sync401? {
      RefusalKeeps(s);
    } else if e.React? {
      ReactKeeps(s, e);
    } else {
      RequestKeeps(s, e);
    }
  }

  lemma RefusalKeeps(s: State)
    requires Inv(s) && Enabled(s, Sync401)
    ensures Inv(Do(s, Sync401))
  {
    if s.sync.known && s.sync.token == s.access {
      ProbeKeeps(s);
    }
  }

  /** Whether the attempt gets as far as asking for a proposal. */
  predicate Attempts(s: State) { s.sync == Reacting(s.access) && HoldAt(s.links, s.answered, s.last, s.clock).NotHeld? }

  lemma ReactKeeps(s: State, e: Event)
    requires Inv(s) && Enabled(s, e) && e.React?
    ensures Inv(Do(s, e))
  {
    if !Attempts(s) {
      IdleKeeps(s, e);
    } else if e.minted {
      LinkKeeps(s, e);
    } else {
      MissKeeps(s, e);
    }
  }

  lemma IdleKeeps(s: State, e: Event)
    requires Inv(s) && Enabled(s, e) && e.React? && !Attempts(s)
    ensures Inv(Do(s, e))
  {
  }

  lemma LinkKeeps(s: State, e: Event)
    requires Inv(s) && e.React? && Attempts(s) && e.minted
    ensures Inv(Do(s, e))
  {
  }

  lemma MissKeeps(s: State, e: Event)
    requires Inv(s) && e.React? && Attempts(s) && !e.minted
    ensures Inv(Do(s, e))
  {
  }

  lemma RequestKeeps(s: State, e: Event)
    requires Inv(s) && Enabled(s, e) && (e.SyncCheck? || e.SyncEnds?)
    ensures Inv(Do(s, e))
  {
  }

  lemma ClockKeeps(s: State, e: Event)
    requires Inv(s) && Enabled(s, e)
    requires (e.Pass? || e.Explicit? || e.Rotated? || e.DialCheck? || e.Dial?)
    ensures Inv(Do(s, e))
  {
    if e.Pass? && HoldAt(s.links, s.answered, s.last, s.clock).NotHeld? {
      UnheldStays(s.links, s.answered, s.last, s.clock, e.d);
    }
  }

  lemma StepKeeps(s: State, e: Event)
    requires Inv(s) && Enabled(s, e)
    ensures Inv(Do(s, e))
  {
    if e.SyncCheck? || e.Sync401? || e.SyncEnds? || e.React? {
      SyncKeeps(s, e);
    } else {
      ClockKeeps(s, e);
    }
  }

  lemma {:induction false} RunKeeps(s: State, es: seq<Event>)
    requires Inv(s) && Run(s, es)
    ensures Inv(After(s, es))
    decreases |es|
  {
    if es != [] {
      StepKeeps(s, es[0]);
      RunKeeps(Do(s, es[0]), es[1..]);
    }
  }

  // --- the promises ---------------------------------------------------------------------------

  /** NEITHER FLOODS.  However often the loops ask, two refused requests made with a token
      known to be refused are the current hold apart if a link was written since the first
      was let go; each costs a link or an attempt that minted nothing; and while none of
      those has failed, all are a hold apart and the hold grows with their number. */
  lemma ProbesAreSpaced(s: State, es: seq<Event>, k: nat)
    requires Init(s) && Run(s, es) && 1 <= k < |After(s, es).probes|
    ensures var n := After(s, es);
            var ps := n.probes;
            && (ps[k].links > ps[k - 1].links ==> ps[k].at >= ps[k - 1].at + Delay(ps[k].links))
            && k <= ps[k].links + n.misses
            && (n.misses == 0 ==> ps[k].at >= ps[k - 1].at + Delay(ps[k].links) && Delay(ps[k].links) >= Delay(k))
  {
    RunKeeps(s, es);
    var n := After(s, es);
    assert Spaced(n.probes[k - 1], n.probes[k]);
    if n.misses == 0 {
      DelayGrows(k, n.probes[k].links);
    }
  }

  /** EXACTLY WHEN A REACTION SPACES THE NEXT REQUEST.  Within a hold of a probe, reacting to
      its refusal puts the next request a whole hold after the probe if and only if it mints
      a proposal or a link was written while the probe was out; otherwise the next may go at
      once. */
  lemma ReactionSpacesIff(s: State, took: nat, minted: bool)
    requires Inv(s) && s.sync == Reacting(s.access) && s.probes != []
    requires s.clock + took < LastProbe(s).at + Delay(s.links)
    ensures var n := Do(s, React(took, minted));
            && (NextSync(n) >= LastProbe(s).at + Delay(n.links) <==> minted || s.links > LastProbe(s).links)
            && (!minted && s.links == LastProbe(s).links ==> Enabled(n, SyncCheck))
  {
    if s.links > 0 {
      DelayGrows(s.links, s.links + 1);
    }
    DelayGrows(1, s.links + 1);
  }

  /** When the next request may go out at the earliest. */
  function NextSync(s: State): int {
    if RefusedHoldAt(RefusedNow(s), s.links, s.last, s.clock) then s.last.value + Delay(s.links) else s.clock
  }

  lemma NextSyncIs(s: State, d: nat)
    requires Clocks(s) && s.sync.Rest?
    ensures Enabled(Do(s, Pass(d)), SyncCheck) <==> s.clock + d >= NextSync(s)
  {
  }

  /** A NEW PAIR ENDS THE WAIT: whatever was held and refused, the next request, refresh and
      dial may go at once. */
  lemma RotationFrees(s: State, a: nat)
    requires Clocks(s) && Enabled(s, Rotated(a))
    ensures var n := Do(s, Rotated(a));
            NextSync(n) == n.clock == s.clock && HoldAt(n.links, n.answered, n.last, n.clock).NotHeld? && Enabled(n, DialCheck)
  {
  }

  /** An answered request unholds the refresh as a refusal does, if the delay has passed. */
  lemma AnswerUnholds(s: State)
    requires Clocks(s) && s.sync.Asking? && (s.last.Some? ==> s.last.value < s.clock && s.last.value + Delay(s.links) <= s.clock)
    ensures var n := Do(s, SyncEnds(true)); HoldAt(n.links, n.answered, n.last, n.clock).NotHeld? && n.sync.Rest?
  {
  }

  /** The first refusal of a token and what follows it, at one moment. */
  function FirstRefused(s: State): State
    requires s.sync.Rest? && !RefusedNow(s)
  {
    Do(Do(Do(s, SyncCheck), Sync401), React(0, true))
  }

  /** THE FIRST REFUSAL, EXACTLY.  The request after it is a whole hold later if and only if
      the refusal did not fall strictly inside a hold already running: then the refresh is
      held, no link is written, and the old hold's end lets the next request go. */
  lemma FirstRefusalIff(s: State)
    requires Inv(s) && s.sync.Rest? && !RefusedNow(s)
    ensures var n := FirstRefused(s);
            NextSync(n) >= s.clock + Delay(n.links) <==>
            !(s.last.Some? && s.last.value < s.clock < s.last.value + Delay(s.links))
  {
    DelayGrows(1, s.links + 1);
    if s.links > 0 {
      DelayGrows(1, s.links);
    }
  }

  /** NOR STALLS.  Whatever happened, once the hold has elapsed (at most fifteen minutes)
      the one /sync may go; its 401 leaves the refresh unheld, and reacting to it with a
      proposal minted writes the next link. */
  lemma ProbeAlwaysGoes(s: State, es: seq<Event>) returns (d: nat)
    requires Init(s) && Run(s, es) && RefusedNow(After(s, es))
    requires After(s, es).sync.Rest?
    ensures var n := After(s, es);
            && d <= BACKOFF_CAP && Enabled(Do(n, Pass(d)), SyncCheck)
            && Do(Do(Do(Do(n, Pass(d)), SyncCheck), Sync401), React(0, true)).links == n.links + 1
  {
    RunKeeps(s, es);
    var n := After(s, es);
    if n.links > 0 {
      DelayGrows(1, n.links);
    }
    d := NextSync(n) - n.clock;
    StepKeeps(n, Pass(d));
    ProbeWrites(Do(n, Pass(d)));
  }

  lemma ProbeWrites(s: State)
    requires Inv(s) && RefusedNow(s) && Enabled(s, SyncCheck)
    ensures Do(Do(Do(s, SyncCheck), Sync401), React(0, true)).links == s.links + 1
  {
    StepKeeps(s, SyncCheck);
    ProbeUnholds(Do(s, SyncCheck));
  }

  // --- dials ----------------------------------------------------------------------------------

  predicate NoRotation(es: seq<Event>) { forall k | 0 <= k < |es| :: !es[k].Rotated? }

  /** AT MOST ONE DIAL.  From the moment the held token is refused, and until the pair
      changes, no dial goes out but one the wait had already let go, however long it
      lasts. */
  lemma {:induction false} AtMostOneDialWhileRefused(s: State, es: seq<Event>)
    requires Marked(s) && RefusedNow(s) && Run(s, es) && NoRotation(es)
    ensures RefusedNow(After(s, es))
    ensures After(s, es).dials <= s.dials + (if s.cleared then 1 else 0)
    decreases |es|
  {
    if es != [] {
      assert !es[0].Rotated?;
      forall k | 0 <= k < |es[1..]| ensures !es[1..][k].Rotated? { assert es[1..][k] == es[k + 1]; }
      AtMostOneDialWhileRefused(Do(s, es[0]), es[1..]);
    }
  }

  /** EXACTLY WHEN ONE DOES. */
  lemma DialsIff(s: State)
    requires Marked(s) && RefusedNow(s)
    ensures (exists es :: Run(s, es) && NoRotation(es) && After(s, es).dials > s.dials) <==> s.cleared
  {
    if s.cleared {
      assert Run(Do(s, Dial), []) && After(Do(s, Dial), []) == Do(s, Dial);
      assert [Dial][1..] == [];
      assert Run(s, [Dial]) && NoRotation([Dial]) && After(s, [Dial]).dials > s.dials;
    } else {
      forall es | Run(s, es) && NoRotation(es) ensures After(s, es).dials <= s.dials { AtMostOneDialWhileRefused(s, es); }
    }
  }

  /** And that one is real: from every state whose token is not refused, the wait lets a
      dial go, the catch-up's request beside it is refused, and the dial goes out with a
      token known to be refused. */
  lemma RefusedTokenIsDialed(s: State)
    requires !RefusedNow(s) && s.sync.Rest?
    ensures Run(s, [DialCheck, SyncCheck, Sync401, Dial])
    ensures var n := After(s, [DialCheck, SyncCheck, Sync401, Dial]);
            var m := After(s, [DialCheck, SyncCheck, Sync401]);
            RefusedNow(m) && m.dials == s.dials && n.dials == s.dials + 1
  {
    var a := Do(s, DialCheck);
    var b := Do(a, SyncCheck);
    var c := Do(b, Sync401);
  }
}
