/**
 Why the chain may be collapsed only when nothing abandoned is still to arrive.
 `Rotate` clears the whole chain on an answer (internal/client/journal.go:288-293);
 after a walk-back the token then held is one that an abandoned request presented.
 */
module RefreshLimits {
  import opened Credentials
  import opened RefreshServer
  import opened RefreshRun
  import opened RefreshSteps
  import opened RefreshReach
  import opened RefreshTheorems

  /** The server would rotate this request, for this device. */
  predicate Rotates(s: State, r: Link) {
    LiveToken(s.sv, r.token) && s.sv.cells[r.token].device == s.dev && r.proposal !in s.sv.cells && r.token != r.proposal
  }

  /** EXACTLY WHEN A LATE REQUEST STRANDS THE DEVICE: it still rotates, and the journal
      no longer names its proposal. */
  lemma LateStrandsIff(s: State, r: Link, g: bool, pos: nat)
    requires At(s, pos) && Enabled(s, Late(r, g))
    ensures Nameable(Do(s, Late(r, g))) <==> !(Rotates(s, r) && r.proposal !in Chain(s))
  {
    var n := Do(s, Late(r, g));
    RotatedIff(s.sv, r.token, r.proposal, g);
    if Rotates(s, r) {
      assert r.proposal in n.sv.cells && n.sv.cells[r.proposal] == Cell(s.dev, None);
      assert Chain(s)[pos] == r.token;
    } else {
      ForeignExchange(s.sv, s.dev, r, g);
    }
  }

  /** A request that rotates nothing of the device leaves its unspent tokens alone. */
  lemma ForeignExchange(sv: Server, dev: nat, r: Link, g: bool)
    requires !(LiveToken(sv, r.token) && sv.cells[r.token].device == dev && r.proposal !in sv.cells && r.token != r.proposal)
    ensures var n := Exchange(sv, r.token, r.proposal, g).0;
            forall x | x in n.cells && n.cells[x].device == dev && n.cells[x].next.None? :: x in sv.cells && sv.cells[x] == n.cells[x]
  {
  }

  /** The other half of the window: a rotation is on its way back when a late request
      is processed.  Taking the answer then strands the device exactly when the late
      request rotated. */
  lemma LateUnderAnAnswerStrandsIff(s: State, r: Link, g: bool, pos: nat, giveUp: bool)
    requires At(s, pos) && Enabled(s, Late(r, g)) && s.pc.Got?
    requires s.pc.answer.Rotated?
    ensures Nameable(Do(Do(s, Late(r, g)), TakeAnswer(giveUp))) <==> !Rotates(s, r)
  {
    var n := Do(s, Late(r, g));
    var m := Do(n, TakeAnswer(giveUp));
    assert Chain(m) == [Chain(s)[pos]];
    if Rotates(s, r) {
      assert r.proposal in m.sv.cells && m.sv.cells[r.proposal] == Cell(s.dev, None);
    } else {
      ForeignExchange(s.sv, s.dev, r, g);
    }
  }

  // --- a run that does it -----------------------------------------------------------

  /** An attempt whose request goes out and whose outcome is never learned. */
  function Abandoned(s: State, mint: Token): State {
    var l := Link(Newest(s.held, s.chain), mint);
    s.(chain := s.chain + [l], net := s.net + multiset{l}, used := s.used + {mint}, pc := Rest)
  }

  lemma ReachAbandoned(s: State, n: State, mint: Token)
    requires Reaches(s, n) && n.pc.Rest? && mint !in n.used
    requires Propose(n.held, n.chain, Newest(n.held, n.chain), false, mint)
             == Proposed(mint, n.chain + [Link(Newest(n.held, n.chain), mint)], true)
    ensures Reaches(s, Abandoned(n, mint))
  {
    ReachStep(s, n, Start);
    var c := Do(n, Start);
    ReachStep(s, c, Write(mint));
    var w := Do(c, Write(mint));
    ReachStep(s, w, Send);
    var q := Do(w, Send);
    ReachStep(s, q, Lose);
    assert Do(q, Lose) == Abandoned(n, mint);
  }

  lemma ReachNextAttempt(s: State, n: State, mint: Token)
    requires Init(s) && Reaches(s, n) && n.pc.Rest? && mint !in n.used
    ensures Reaches(s, Abandoned(n, mint))
  {
    ReachedIsLinked(s, n);
    assert Newest(n.held, n.chain) == Chain(n)[|n.chain|];
    ProposeName(n.held, n.chain, |n.chain|, mint);
    ReachAbandoned(s, n, mint);
  }

  /** The third attempt, at its newest name: a token the server never heard of. */
  function Asked(n: State, mint: Token): State {
    var l := Link(Newest(n.held, n.chain), mint);
    n.(chain := n.chain + [l], used := n.used + {mint}, pc := Got(l.token, l.proposal, |n.chain| + 7, Unauthorized))
  }

  lemma ReachAsked(s: State, n: State, mint: Token)
    requires Init(s) && Reaches(s, n) && n.pc.Rest? && mint !in n.used
    requires Newest(n.held, n.chain) !in n.sv.cells
    requires Newest(n.held, n.chain) in n.used
    ensures Reaches(s, Asked(n, mint))
  {
    ReachedIsLinked(s, n);
    assert Newest(n.held, n.chain) == Chain(n)[|n.chain|];
    ProposeName(n.held, n.chain, |n.chain|, mint);
    ReachStep(s, n, Start);
    ReachPresented(s, Do(n, Start), mint, false);
  }

  /** One step back: the link before is presented again with its first proposal. */
  function SteppedBack(n: State, i: nat): State
    requires 0 < i < |n.chain| && n.pc.Got? && n.pc.steps > 0
  {
    var l := n.chain[i - 1];
    var (sv, a) := Exchange(n.sv, l.token, l.proposal, false);
    n.(sv := sv, pc := Got(l.token, l.proposal, n.pc.steps - 1, a))
  }

  lemma ReachSteppedBack(s: State, n: State, i: nat, mint: Token)
    requires Init(s) && Reaches(s, n) && n.pc.Got?
    requires n.pc.answer.Unauthorized? && n.pc.steps > 0 && mint !in n.used
    requires 0 < i < |n.chain| && n.chain[i].token == n.pc.token
    ensures Reaches(s, SteppedBack(n, i))
  {
    ReachedIsLinked(s, n);
    assert Chain(n)[i] == n.pc.token && n.chain[i - 1].token == Chain(n)[i - 1];
    OlderName(n.held, n.chain, i);
    ProposeName(n.held, n.chain, i - 1, mint);
    ReachStep(s, n, TakeAnswer(false));
    var c := Do(n, TakeAnswer(false));
    assert c.pc == Choose(Chain(n)[i - 1], false, n.pc.steps);
    ReachPresented(s, c, mint, false);
  }

  /** The state the collapse leaves: the middle token is held, and the abandoned
      request that presented it is still in the network. */
  predicate Exposed(n: State, a: Token, b: Token) {
    && n.pc.Rest? && n.chain == [] && n.held == a && Link(a, b) in n.net
    && LiveToken(n.sv, a) && n.sv.cells[a].device == n.dev && b !in n.sv.cells && a != b
  }

  predicate Fresh(s: State, ms: seq<Token>) {
    && Distinct(ms)
    && (forall i | 0 <= i < |ms| :: ms[i] !in s.used)
  }

  lemma AttemptsReachExposed(s: State, ms: seq<Token>)
    requires Init(s) && Alive(s) && |ms| == 5 && Fresh(s, ms)
    ensures exists n: State :: Reaches(s, n) && Exposed(n, ms[0], ms[1])
  {
    var a, b := ms[0], ms[1];
    ReachSelf(s);
    ReachNextAttempt(s, s, a);
    var n1 := Abandoned(s, a);
    assert n1.chain == [Link(s.held, a)];
    ReachNextAttempt(s, n1, b);
    var n2 := Abandoned(n1, b);
    assert n2.chain == [Link(s.held, a), Link(a, b)];
    ReachAsked(s, n2, ms[2]);
    WalkBackReachesExposed(s, n2, ms);
  }

  lemma WalkBackReachesExposed(s: State, n2: State, ms: seq<Token>)
    requires Init(s) && Alive(s) && |ms| == 5 && Fresh(s, ms)
    requires Reaches(s, Asked(n2, ms[2])) && n2.sv == s.sv
    requires n2.dev == s.dev && n2.held == s.held
    requires n2.chain == [Link(s.held, ms[0]), Link(ms[0], ms[1])]
    requires n2.used == s.used + {ms[0]} + {ms[1]}
    requires Link(ms[0], ms[1]) in n2.net
    ensures exists n: State :: Reaches(s, n) && Exposed(n, ms[0], ms[1])
  {
    var n3 := Asked(n2, ms[2]);
    assert n3.chain == [Link(s.held, ms[0]), Link(ms[0], ms[1]), Link(ms[1], ms[2])];
    ReachSteppedBack(s, n3, 2, ms[3]);
    var n4 := SteppedBack(n3, 2);
    ReachSteppedBack(s, n4, 1, ms[4]);
    var n5 := SteppedBack(n4, 1);
    assert n5.pc.answer == Rotated(ms[0]);
    ReachStep(s, n5, TakeAnswer(false));
    assert Exposed(Do(n5, TakeAnswer(false)), ms[0], ms[1]);
  }

  /** THE ASSUMPTION IS NEEDED.  From every enrolled, live device there is a timely run
      after which a single late request leaves it alive at the server under a token its
      journal cannot name. */
  lemma LateDeliveryStrandsTheDevice(s: State, ms: seq<Token>)
    requires Init(s) && Alive(s) && |ms| == 5 && Fresh(s, ms)
    ensures exists n: State, r: Link ::
              && Reaches(s, n) && Enabled(n, Late(r, false))
              && Stranded(Do(n, Late(r, false))) && Alive(Do(n, Late(r, false)))
  {
    AttemptsReachExposed(s, ms);
    var n: State :| Reaches(s, n) && Exposed(n, ms[0], ms[1]);
    LateStrandsExposed(n, ms[0], ms[1]);
  }

  /** The journal's only name is a spent token of the device. */
  predicate Stranded(s: State) {
    && s.pc.Rest? && s.chain == [] && Spent(s.sv, s.held) && s.sv.cells[s.held].device == s.dev && !Nameable(s)
  }

  lemma LateStrandsExposed(n: State, a: Token, b: Token)
    requires Exposed(n, a, b)
    ensures Enabled(n, Late(Link(a, b), false))
    ensures var m := Do(n, Late(Link(a, b), false)); Stranded(m) && (Alive(n) ==> Alive(m))
  {
    var m := Do(n, Late(Link(a, b), false));
    assert Chain(m) == [a];
    assert b in m.sv.cells && m.sv.cells[b] == Cell(n.dev, None);
  }

  /** And it ends the device: outside the grace window the next refresh a stranded
      client sends is a replay. */
  lemma StrandedDeviceRevokesItself(s: State, mint: Token)
    requires Stranded(s) && s.sv.cells.Keys <= s.used && mint !in s.used
    ensures exists n: State :: Reaches(s, n) && !Alive(n)
  {
    ReachSelf(s);
    ReachStep(s, s, Start);
    var c := Do(s, Start);
    assert Propose(s.held, [], s.held, false, mint) == Proposed(mint, [Link(s.held, mint)], true) by {
      assert [] + [Link(s.held, mint)] == [Link(s.held, mint)];
    }
    ReachPresented(s, c, mint, false);
    var n := Presented(c, s.held, mint, [Link(s.held, mint)], 7, s.used + {mint}, false);
    assert Reaches(s, n) && !Alive(n);
  }
}
