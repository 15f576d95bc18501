/**
 States that timely runs of the refresh machine lead to, built one step at a time.
 */
module RefreshReach {
  import opened Credentials
  import opened RefreshServer
  import opened RefreshRun
  import opened RefreshSteps

  /** Some timely run leads from `s` to `n`. */
  ghost predicate Reaches(s: State, n: State) {
    exists es: seq<Event> :: Run(s, es) && TimelyRun(s, es) && After(s, es) == n
  }

  lemma {:induction false} RunSnoc(s: State, es: seq<Event>, e: Event)
    requires Run(s, es) && TimelyRun(s, es) && Enabled(After(s, es), e)
    requires Timely(After(s, es), e)
    ensures Run(s, es + [e]) && TimelyRun(s, es + [e])
    ensures After(s, es + [e]) == Do(After(s, es), e)
    decreases |es|
  {
    if es == [] {
      var n := Do(s, e);
      assert [] + [e] == [e] && [e][1..] == [];
      assert Run(n, []) && TimelyRun(n, []) && After(n, []) == n;
    } else {
      RunSnoc(Do(s, es[0]), es[1..], e);
      assert (es + [e])[1..] == es[1..] + [e];
    }
  }

  lemma ReachStep(s: State, n: State, e: Event)
    requires Reaches(s, n) && Enabled(n, e) && Timely(n, e)
    ensures Reaches(s, Do(n, e))
  {
    var es: seq<Event> :| Run(s, es) && TimelyRun(s, es) && After(s, es) == n;
    RunSnoc(s, es, e);
  }

  lemma ReachSelf(s: State)
    ensures Reaches(s, s)
  {
    var es: seq<Event> := [];
    assert Run(s, es) && TimelyRun(s, es) && After(s, es) == s;
  }

  lemma ReachedIsLinked(s: State, n: State)
    requires Init(s) && Reaches(s, n)
    ensures Linked(n.held, n.chain) && Distinct(Chain(n))
  {
    var es: seq<Event> :| Run(s, es) && TimelyRun(s, es) && After(s, es) == n;
    var pos := RunKeeps(s, es, 0);
  }

  lemma ReachedAt(s: State, pos: nat, n: State) returns (last: nat)
    requires At(s, pos) && Reaches(s, n)
    ensures At(n, last)
  {
    var es: seq<Event> :| Run(s, es) && TimelyRun(s, es) && After(s, es) == n;
    last := RunKeeps(s, es, pos);
  }

  /** Nothing of this device has changed at the server, and the chain has only grown. */
  predicate Calm(s: State, n: State) {
    && n.sv == s.sv
    && n.dev == s.dev
    && n.held == s.held
    && s.chain <= n.chain
  }

  /** Then the server is where it was. */
  lemma CalmPos(s: State, pos: nat, n: State, last: nat)
    requires At(s, pos) && At(n, last) && Calm(s, n)
    ensures last == pos
  {
    SameName(s.held, s.chain, n.chain, pos);
    assert Chain(n)[pos] == Chain(n)[last];
  }

  lemma SameName(held: Token, chain: seq<Link>, more: seq<Link>, i: nat)
    requires chain <= more && i <= |chain|
    ensures Names(held, more)[i] == Names(held, chain)[i]
  {
    if i > 0 {
      assert more[i - 1] == chain[i - 1];
    }
  }

  // --- one request ------------------------------------------------------------------------

  /** The link is written, or found, and the request is out. */
  function Sent(s: State, p: Proposal, mint: Token): State
    requires s.pc.Choose? && s.pc.steps > 0 && p.Proposed?
  {
    s.(chain := p.chain, used := if p.minted then s.used + {mint} else s.used,
       net := s.net + multiset{Link(s.pc.token, p.proposal)}, pc := Wait(s.pc.token, p.proposal, s.pc.steps - 1))
  }

  lemma ReachSent(s: State, n: State, mint: Token)
    requires Reaches(s, n) && n.pc.Choose? && n.pc.steps > 0 && mint !in n.used
    requires Propose(n.held, n.chain, n.pc.token, n.pc.replace, mint).Proposed?
    ensures Reaches(s, Sent(n, Propose(n.held, n.chain, n.pc.token, n.pc.replace, mint), mint))
  {
    ReachStep(s, n, Write(mint));
    ReachStep(s, Do(n, Write(mint)), Send);
  }

  /** Presenting `t` as the journal says, and the answer arriving. */
  function Presented(s: State, t: Token, p: Token, chain: seq<Link>, steps: nat, used: set<Token>, g: bool): State {
    var (sv, a) := Exchange(s.sv, t, p, g);
    s.(sv := sv, chain := chain, used := used, pc := Got(t, p, steps, a))
  }

  lemma ReachPresented(s: State, n: State, mint: Token, g: bool)
    requires Reaches(s, n) && n.pc.Choose? && n.pc.steps > 0 && mint !in n.used
    requires Propose(n.held, n.chain, n.pc.token, n.pc.replace, mint).Proposed?
    ensures var p := Propose(n.held, n.chain, n.pc.token, n.pc.replace, mint);
            Reaches(s, Presented(n, n.pc.token, p.proposal, p.chain, n.pc.steps - 1, if p.minted then n.used + {mint} else n.used, g))
  {
    var p := Propose(n.held, n.chain, n.pc.token, n.pc.replace, mint);
    var r := Link(n.pc.token, p.proposal);
    ReachSent(s, n, mint);
    var q := Sent(n, p, mint);
    ReachStep(s, q, Serve(g));
    assert q.net - multiset{r} == n.net;
  }

  /** The request never reaches the server, and the client never learns it. */
  lemma ReachLost(s: State, n: State, mint: Token)
    requires Reaches(s, n) && n.pc.Choose? && n.pc.steps > 0 && mint !in n.used
    requires Propose(n.held, n.chain, n.pc.token, n.pc.replace, mint).Proposed?
    ensures var p := Propose(n.held, n.chain, n.pc.token, n.pc.replace, mint);
            Reaches(s, n.(chain := p.chain, used := if p.minted then n.used + {mint} else n.used, pc := Rest))
  {
    var p := Propose(n.held, n.chain, n.pc.token, n.pc.replace, mint);
    var r := Link(n.pc.token, p.proposal);
    ReachSent(s, n, mint);
    var q := Sent(n, p, mint);
    ReachStep(s, q, Drop(r));
    var d := Do(q, Drop(r));
    assert d.net == n.net;
    ReachStep(s, d, Lose);
  }
}
