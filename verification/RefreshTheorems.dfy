/**
 What the refresh chain is for: a device survives lost requests, lost answers and
 kills (internal/client/refresh.go:255-300, internal/client/journal.go:156-171).
 */
module RefreshTheorems {
  import opened Credentials
  import opened RefreshServer
  import opened RefreshRun
  import opened RefreshSteps

  // --- under any timely network ----------------------------------------------------

  /** Every unspent token the server stores for the device is one the journal names. */
  predicate Nameable(s: State) {
    forall x | x in s.sv.cells && s.sv.cells[x].device == s.dev && s.sv.cells[x].next.None? :: x in Chain(s)
  }

  /** A request that meets a spent token carries what that token was spent into. */
  predicate SafeRequest(sv: Server, r: Link) { Spent(sv, r.token) ==> sv.cells[r.token].next == Some(r.proposal) }

  /** The request a step hands to the server, if it hands one over. */
  function Delivered(s: State, e: Event): Option<Link>
    requires Enabled(s, e)
  {
    match e
    case Serve(_) => Some(Link(s.pc.token, s.pc.proposal))
    case Late(r, _) => Some(r)
    case _ => None
  }

  /** THE CHAIN NEVER LOSES THE DEVICE.  After every timely run, however many requests
      and answers were lost and whenever the process was killed: the chain is linked
      from the held token; a request about to leave, or awaited, has its link durable
      already; the server stores a token for the device that is unspent, and the
      journal names it; and whatever request the server is handed next, if its token is
      spent it carries exactly the proposal that token was spent into. */
  lemma ChainNeverLosesTheDevice(s: State, es: seq<Event>, e: Event)
    requires Init(s) && Run(s, es) && TimelyRun(s, es)
    requires Enabled(After(s, es), e) && Timely(After(s, es), e)
    ensures var n := After(s, es);
            && Linked(n.held, n.chain)
            && (n.pc.Written? || n.pc.Wait? ==> Link(n.pc.token, n.pc.proposal) in n.chain)
            && Nameable(n)
            && (exists x :: x in Chain(n) && x in n.sv.cells && n.sv.cells[x].device == n.dev && n.sv.cells[x].next.None?)
            && (Delivered(n, e).Some? ==> Delivered(n, e).value in n.chain && SafeRequest(n.sv, Delivered(n, e).value))
  {
    var pos := RunKeeps(s, es, 0);
    if Delivered(After(s, es), e).Some? {
      LinkIsSafe(After(s, es), pos, Delivered(After(s, es), e).value);
    }
  }

  lemma LinkIsSafe(s: State, pos: nat, r: Link)
    requires At(s, pos) && r in s.chain
    ensures SafeRequest(s.sv, r)
  {
    var i := LinkIsNamed(s.held, s.chain, r);
    assert i > pos ==> Chain(s)[i] !in s.sv.cells;
    assert i < pos ==> s.sv.cells[Chain(s)[i]].next == Some(Chain(s)[i + 1]);
  }

  /** A link leaves the chain only when a rotation is answered, so a request is timely
      exactly until then. */
  lemma LinksLeaveOnlyOnAnAnswer(s: State, e: Event, pos: nat, l: Link)
    requires At(s, pos) && Enabled(s, e) && Timely(s, e) && l in s.chain
    ensures l in Do(s, e).chain <==> !(e.TakeAnswer? && s.pc.answer.Rotated?)
  {
    if e.Write? && s.pc.steps > 0 {
      var i: nat :| i < |Chain(s)| && Chain(s)[i] == s.pc.token;
      ProposeName(s.held, s.chain, i, e.mint);
    }
  }

  /** INSIDE THE GRACE WINDOW NOTHING IS A REPLAY.  If every late or repeated request
      lands while the rotation that spent its token is young, only a revocation ends
      the device. */
  lemma GraceNeverRevokes(s: State, e: Event, pos: nat)
    requires At(s, pos) && Enabled(s, e) && Timely(s, e) && !e.Revoke?
    requires (e.Serve? || e.Late?) ==> e.inGrace
    ensures s.dev in Do(s, e).sv.dead ==> s.dev in s.sv.dead
  {
    if Delivered(s, e).Some? {
      var r := Delivered(s, e).value;
      var i := LinkIsNamed(s.held, s.chain, r);
      ServeLink(s.sv, s.dev, Chain(s), pos, i, true);
    }
  }

  predicate Lenient(e: Event) { !e.Revoke? && (e.Serve? || e.Late? ==> e.inGrace) }

  /** INSIDE THE GRACE WINDOW EVERY TIMELY RUN IS SAFE: however requests are delayed,
      repeated and lost, only a revocation ends the device. */
  lemma {:induction false} GraceProtectsEveryRun(s: State, es: seq<Event>, pos: nat)
    requires At(s, pos) && s.dev !in s.sv.dead && Run(s, es) && TimelyRun(s, es) && forall k | 0 <= k < |es| :: Lenient(es[k])
    ensures After(s, es).dev !in After(s, es).sv.dead
    decreases |es|
  {
    if es != [] {
      assert Lenient(es[0]);
      GraceNeverRevokes(s, es[0], pos);
      StepKeeps(s, es[0], pos);
      forall k | 0 <= k < |es[1..]| ensures Lenient(es[1..][k]) { assert es[1..][k] == es[k + 1]; }
      GraceProtectsEveryRun(Do(s, es[0]), es[1..], NextPos(s, es[0], pos));
    }
  }

  // --- when each request is processed at once or lost -------------------------------

  /** The walk is at name `i`, at or above the live one, with `WALK_SLACK` requests to
      spare; only a token above the live one has been refused. */
  predicate Walk(s: State, pos: nat, i: nat) {
    match s.pc
    case Rest => true
    case Choose(t, _, steps) => pos <= i < |Chain(s)| && Chain(s)[i] == t && steps == i + WALK_SLACK
    case Written(t, p, steps) => pos <= i < |s.chain| && s.chain[i] == Link(t, p) && steps + 1 == i + WALK_SLACK
    case Wait(t, p, steps) => pos <= i < |s.chain| && s.chain[i] == Link(t, p) && steps + 1 == i + WALK_SLACK
    case Got(t, p, steps, a) =>
      && !a.PresentProposal?
      && (a.Unauthorized? ==> pos < i < |s.chain| && s.chain[i] == Link(t, p) && steps + 1 == i + WALK_SLACK)
    case Terminal => false
  }

  predicate Alive(s: State) { s.dev !in s.sv.dead }

  predicate WalkOk(s: State, pos: nat, i: nat) {
    && At(s, pos)
    && (Alive(s) ==> Walk(s, pos, i))
  }

  function NextStep(s: State, e: Event, i: nat): nat
    requires Enabled(s, e)
  {
    if e.Start? then |s.chain| else if e.TakeAnswer? && s.pc.answer.Unauthorized? && i > 0 then i - 1 else i
  }

  lemma ServeWalks(s: State, g: bool, pos: nat, i: nat)
    requires At(s, pos) && s.pc.Wait? && Enabled(s, Serve(g)) && Alive(s)
    requires Walk(s, pos, i)
    ensures var n := Do(s, Serve(g)); Alive(n) && Walk(n, NextPos(s, Serve(g), pos), i)
  {
    assert Chain(s)[i] == s.pc.token && Chain(s)[i + 1] == s.pc.proposal;
    ServeLink(s.sv, s.dev, Chain(s), pos, i, g);
  }

  lemma DeadStaysDead(s: State, e: Event)
    requires Enabled(s, e) && !Alive(s)
    ensures !Alive(Do(s, e))
  {
  }

  lemma WriteWalks(s: State, mint: Token, pos: nat, i: nat)
    requires At(s, pos) && s.pc.Choose? && mint !in s.used && Walk(s, pos, i)
    ensures Walk(WriteLink(s, mint), pos, i)
  {
    ProposeName(s.held, s.chain, i, mint);
    assert i < |s.chain| ==> s.chain[i].token == s.pc.token;
  }

  lemma AnswerWalks(s: State, giveUp: bool, pos: nat, i: nat)
    requires At(s, pos) && s.pc.Got? && Walk(s, pos, i)
    ensures Walk(Answered(s, giveUp), NextPos(s, TakeAnswer(giveUp), pos), NextStep(s, TakeAnswer(giveUp), i))
  {
    if s.pc.answer.Unauthorized? {
      assert Chain(s)[i] == s.pc.token;
      OlderName(s.held, s.chain, i);
    }
  }

  lemma AliveWalks(s: State, e: Event, pos: nat, i: nat)
    requires At(s, pos) && Alive(s) && Walk(s, pos, i) && Enabled(s, e)
    requires !e.Late? && !e.Revoke?
    ensures Alive(Do(s, e)) && Walk(Do(s, e), NextPos(s, e, pos), NextStep(s, e, i))
  {
    match e
    case Write(mint) => WriteWalks(s, mint, pos, i);
    case Serve(g) => ServeWalks(s, g, pos, i);
    case TakeAnswer(giveUp) => AnswerWalks(s, giveUp, pos, i);
    case Start => assert Newest(s.held, s.chain) == Chain(s)[|s.chain|];
    case _ =>
  }

  lemma StepWalks(s: State, e: Event, pos: nat, i: nat)
    requires WalkOk(s, pos, i) && Enabled(s, e) && !e.Late?
    ensures WalkOk(Do(s, e), NextPos(s, e, pos), NextStep(s, e, i))
    ensures !e.Revoke? && Alive(s) ==> Alive(Do(s, e))
  {
    StepKeeps(s, e, pos);
    if Alive(s) && !e.Revoke? {
      AliveWalks(s, e, pos, i);
    } else if !Alive(s) {
      DeadStaysDead(s, e);
    }
  }

  predicate Prompt(es: seq<Event>) { forall k | 0 <= k < |es| :: !es[k].Late? }
  predicate NoRevocation(es: seq<Event>) { forall k | 0 <= k < |es| :: !es[k].Revoke? }

  lemma {:induction false} RunWalks(s: State, es: seq<Event>, pos: nat, i: nat) returns (lastPos: nat, last: nat)
    requires WalkOk(s, pos, i) && Run(s, es) && Prompt(es)
    ensures WalkOk(After(s, es), lastPos, last)
    ensures NoRevocation(es) && Alive(s) ==> Alive(After(s, es))
    decreases |es|
  {
    lastPos, last := pos, i;
    if es != [] {
      StepWalks(s, es[0], pos, i);
      assert Prompt(es[1..]) && (NoRevocation(es) ==> NoRevocation(es[1..]));
      lastPos, last := RunWalks(Do(s, es[0]), es[1..], NextPos(s, es[0], pos), NextStep(s, es[0], i));
    }
  }

  /** NEWEST FIRST IS SAFE.  When each request is processed at once or lost, in every
      run: nothing the client does revokes its own device; and while the device is
      live the client never presents a spent token, is never told to change its
      proposal or to stop presenting one, never exhausts its budget of requests, and
      never reaches the credential terminal. */
  lemma NewestFirstIsSafe(s: State, es: seq<Event>)
    requires Init(s) && Alive(s) && Run(s, es) && Prompt(es)
    ensures var n := After(s, es);
            && (NoRevocation(es) ==> Alive(n))
            && (Alive(n) ==>
                && !n.pc.Terminal?
                && (n.pc.Written? || n.pc.Wait? ==> !Spent(n.sv, n.pc.token))
                && (n.pc.Choose? ==> n.pc.steps >= 8)
                && (n.pc.Got? ==> n.pc.answer.Rotated? || n.pc.answer.Unauthorized?))
  {
    var pos, i := RunWalks(s, es, 0, 0);
    var n := After(s, es);
    if Alive(n) && (n.pc.Written? || n.pc.Wait?) {
      assert Chain(n)[i] == n.pc.token;
      assert i > pos ==> Chain(n)[i] !in n.sv.cells;
    }
  }

  // --- told to propose afresh -------------------------------------------------------

  /** A CLIENT TOLD TO PROPOSE AFRESH DOES, for the same token and with budget to spare: the
      new proposal is in the chain before it is sent, everything newer is dropped, and a live
      token is rotated into it; or it gives up with nothing changed. */
  lemma FreshProposalRotates(s: State, mint: Token, g: bool)
    requires s.pc.Got? && s.pc.answer.FreshProposal? && s.pc.steps > 0 && Link(s.pc.token, s.pc.proposal) in s.chain
    requires LiveToken(s.sv, s.pc.token) && mint !in s.used && s.sv.cells.Keys <= s.used
    ensures Do(s, TakeAnswer(true)) == s.(pc := Rest)
    ensures var a := Do(s, TakeAnswer(false));
            && Enabled(a, Write(mint)) && Enabled(Do(a, Write(mint)), Send) && Enabled(Do(Do(a, Write(mint)), Send), Serve(g))
            && var w := Do(a, Write(mint));
               var n := Do(Do(w, Send), Serve(g));
               && w.chain == s.chain[..Find(s.chain, s.pc.token)] + [Link(s.pc.token, mint)] && w.sv == s.sv && n.chain == w.chain
               && n.pc == Got(s.pc.token, mint, s.pc.steps - 1, Rotated(mint)) && LiveToken(n.sv, mint)
  {
    var i :| 0 <= i < |s.chain| && s.chain[i] == Link(s.pc.token, s.pc.proposal);
    assert Find(s.chain, s.pc.token) <= i;
    RotatedIff(s.sv, s.pc.token, mint, g);
  }

  /** A revoked device is never answered with a rotation again, whatever it presents. */
  lemma RevokedIsRefused(s: State, g: bool)
    requires s.pc.Wait? && Enabled(s, Serve(g)) && s.pc.token in s.sv.cells && s.sv.cells[s.pc.token].device == s.dev
    ensures var n := Do(s, Revoke);
            Enabled(n, Serve(g)) && !Do(n, Serve(g)).pc.answer.Rotated? && Do(n, Serve(g)).sv.cells == s.sv.cells
  {
    RotatedIff(Do(s, Revoke).sv, s.pc.token, s.pc.proposal, g);
  }
}
