/**
 One refresh as the client runs it: the loop of `exchange` and the rotation that
 follows it (internal/client/refresh.go:216-252, 341-394), against a server that
 processes each request at once or never sees it.  What the loop does is a run of
 `RefreshRun`.
 */
module RefreshExchange {
  import opened Credentials
  import opened RefreshServer
  import opened RefreshRun
  import opened RefreshSteps
  import opened RefreshReach

  /** What becomes of one request. */
  datatype Fate = Answered | RequestLost | AnswerLost

  /** What the world does around one request: the random source's token, the request's fate,
      whether a rotation it meets is young, and another context rotating the pair first. */
  datatype Turn = Turn(mint: Option<Token>, fate: Fate, inGrace: bool, rival: Option<Pair>)

  datatype Outcome = NewToken(token: Token) | Refused401 | ChainMoved | Unknown | NoMint | Exhausted

  /** Every request is answered, every mint succeeds, and nobody else touches the pair. */
  predicate Smooth(turns: seq<Turn>) {
    forall k | 0 <= k < |turns| :: turns[k].fate.Answered? && turns[k].mint.Some? && turns[k].rival.None?
  }

  /** The tokens this turn brings are new, and the later ones differ from its own. */
  predicate NewTurn(used: set<Token>, turns: seq<Turn>, k: nat)
    requires k < |turns|
  {
    && (turns[k].rival.Some? ==> turns[k].rival.value.refresh !in used)
    && (turns[k].mint.Some? ==>
          && turns[k].mint.value !in used
          && forall l | k < l < |turns| ::
               && (turns[l].mint.Some? ==> turns[l].mint.value != turns[k].mint.value)
               && (turns[l].rival.Some? ==> turns[l].rival.value.refresh != turns[k].mint.value))
  }

  predicate FreshTurns(used: set<Token>, turns: seq<Turn>) {
    forall k: nat {:trigger NewTurn(used, turns, k)} | k < |turns| :: NewTurn(used, turns, k)
  }

  lemma FreshRest(used: set<Token>, more: set<Token>, turns: seq<Turn>)
    requires FreshTurns(used, turns) && turns != []
    requires used <= more
    requires more <= used + (if turns[0].mint.Some? then {turns[0].mint.value} else {})
    ensures FreshTurns(more, turns[1..])
  {
    assert NewTurn(used, turns, 0);
    forall k: nat | k < |turns[1..]| ensures NewTurn(more, turns[1..], k) {
      assert NewTurn(used, turns, k + 1) && turns[1..][k] == turns[k + 1];
    }
  }

  // --- one request, as the machine takes it --------------------------------------------------

  /** The machine after a request for the name it has chosen. */
  function Requested(st: State, p: Proposal, mint: Token, fate: Fate, g: bool): State
    requires st.pc.Choose? && st.pc.steps > 0 && p.Proposed?
  {
    var used := if p.minted then st.used + {mint} else st.used;
    var n := Presented(st, st.pc.token, p.proposal, p.chain, st.pc.steps - 1, used, g);
    match fate
    case Answered => n
    case AnswerLost => n.(pc := Rest)
    case RequestLost => st.(chain := p.chain, used := used, pc := Rest)
  }

  lemma RequestedRuns(s0: State, st: State, mint: Token, fate: Fate, g: bool)
    requires Reaches(s0, st) && st.pc.Choose? && st.pc.steps > 0 && mint !in st.used
    requires Propose(st.held, st.chain, st.pc.token, st.pc.replace, mint).Proposed?
    ensures Reaches(s0, Requested(st, Propose(st.held, st.chain, st.pc.token, st.pc.replace, mint), mint, fate, g))
  {
    var p := Propose(st.held, st.chain, st.pc.token, st.pc.replace, mint);
    if fate.RequestLost? {
      ReachLost(s0, st, mint);
    } else {
      ReachPresented(s0, st, mint, g);
      if fate.AnswerLost? {
        ReachStep(s0, Requested(st, p, mint, Answered, g), Lose);
      }
    }
  }

  /** What presenting the name at `i` writes down. */
  function LinkFor(held: Token, chain: seq<Link>, i: nat, mint: Token): Proposal
    requires i <= |chain|
  {
    if i < |chain| then Proposed(chain[i].proposal, chain, false)
    else Proposed(mint, chain + [Link(Names(held, chain)[i], mint)], true)
  }

  lemma LinkForTracks(st: State, i: nat, pos: nat, mint: Token)
    requires At(st, pos) && i <= |st.chain| && mint !in st.used
    ensures var p := LinkFor(st.held, st.chain, i, mint);
            && Tracks(st.sv.cells, st.dev, st.held, p.chain, if p.minted then st.used + {mint} else st.used, pos)
            && i < |p.chain| && p.chain[i] == Link(Chain(st)[i], p.proposal)
  {
    if i == |st.chain| {
      AppendTracks(st.sv.cells, st.dev, st.held, st.chain, st.used, pos, mint);
    }
  }

  /** What the server makes of link `i`. */
  lemma ServedLink(sv: Server, dev: nat, held: Token, chain: seq<Link>, known: set<Token>, pos: nat, i: nat, g: bool)
    requires Tracks(sv.cells, dev, held, chain, known, pos) && i < |chain|
    ensures var (n, a) := RefreshServer.Exchange(sv, chain[i].token, chain[i].proposal, g);
            && a != FreshProposal
            && Tracks(n.cells, dev, held, chain, known, if a.Rotated? then pos + 1 else pos)
            && (a.Rotated? ==> a.token == chain[i].proposal == Names(held, chain)[pos + 1])
            && (dev !in sv.dead && pos <= i ==> n.dead == sv.dead)
            && (dev !in sv.dead && pos == i ==> a.Rotated?)
            && (pos < i ==> n == sv && a.Unauthorized?)
  {
    ServeTracks(sv, dev, held, chain, known, pos, chain[i], g);
    assert chain[i].token == Names(held, chain)[i];
    ServeLink(sv, dev, Names(held, chain), pos, i, g);
  }

  // --- the same, by the journal ----------------------------------------------------------------

  /** The journal and the server are where the machine is. */
  predicate Same(j: Store, sv: Server, st: State)
    reads j
  {
    st.held == j.pair.refresh && st.chain == j.chain && st.sv == sv && st.dev == j.pair.device
  }

  lemma TryName(held: Token, chain: seq<Link>, i: nat, mint: Option<Token>)
    requires Linked(held, chain) && Distinct(Names(held, chain)) && i <= |chain|
    ensures var t := Names(held, chain)[i];
            Try(held, chain, t, false, mint) == if i < |chain| || mint.Some? then Did(LinkFor(held, chain, i, if mint.Some? then mint.value else 0)) else Unminted
  {
    FindName(held, chain, i);
    ProposeName(held, chain, i, if mint.Some? then mint.value else 0);
    assert i == |chain| ==> Names(held, chain)[i] == Newest(held, chain);
  }

  lemma FreshExists(used: set<Token>) returns (x: Token)
    ensures x !in used
  {
    x := Bound(used);
  }

  lemma {:induction false} Bound(used: set<Token>) returns (x: Token)
    ensures forall t | t in used :: t < x
    decreases used
  {
    x := 0;
    if used != {} {
      var t :| t in used;
      var y := Bound(used - {t});
      x := if t < y then y else t + 1;
      forall u | u in used ensures u < x { assert u != t ==> u in used - {t}; }
    }
  }

  /** The server's answer to a link. */
  function AnswerTo(sv: Server, l: Link, turn: Turn): (Server, Answer) { RefreshServer.Exchange(sv, l.token, l.proposal, turn.inGrace) }

  /** What a request leaves the machine with. */
  ghost predicate Left(st: State, n: State, turn: Turn, i: nat)
    requires st.pc.Choose? && st.pc.steps > 0
  {
    && n.held == st.held && n.dev == st.dev && i < |n.chain| && n.chain[i].token == st.pc.token
    && n.sv == (if turn.fate.RequestLost? then st.sv else AnswerTo(st.sv, n.chain[i], turn).0)
    && n.pc == (if turn.fate.Answered? then Got(st.pc.token, n.chain[i].proposal, st.pc.steps - 1, AnswerTo(st.sv, n.chain[i], turn).1) else Rest)
    && st.used <= n.used && n.used <= st.used + (if turn.mint.Some? then {turn.mint.value} else {})
  }

  /** At or above the live name of a live device, a request is a rotation or a plain 401 and
      costs the device nothing. */
  ghost predicate Harmless(st: State, n: State, turn: Turn, i: nat, pos: nat)
    requires turn.fate.Answered? ==> n.pc.Got?
  {
    st.dev !in st.sv.dead && pos <= i ==>
      && n.sv.dead == st.sv.dead
      && (pos == i && turn.fate.Answered? ==> n.pc.answer.Rotated?)
      && (pos < i ==> n.sv == st.sv && (turn.fate.Answered? ==> n.pc.answer.Unauthorized?))
  }

  lemma RequestAt(s0: State, st: State, mint: Token, turn: Turn, i: nat, pos: nat) returns (n: State)
    requires At(st, pos) && Reaches(s0, st) && st.pc.Choose?
    requires !st.pc.replace && st.pc.steps > 0 && mint !in st.used
    requires i <= |st.chain| && Chain(st)[i] == st.pc.token
    requires (turn.mint.Some? ==> turn.mint.value == mint)
    requires (turn.mint.None? ==> i < |st.chain|)
    ensures Reaches(s0, n) && Left(st, n, turn, i)
    ensures n.chain == LinkFor(st.held, st.chain, i, mint).chain
    ensures (turn.fate.Answered? ==> n.pc.answer != FreshProposal)
    ensures Harmless(st, n, turn, i, pos)
  {
    var p := LinkFor(st.held, st.chain, i, mint);
    ProposeName(st.held, st.chain, i, mint);
    RequestedRuns(s0, st, mint, turn.fate, turn.inGrace);
    n := Requested(st, p, mint, turn.fate, turn.inGrace);
    LinkForTracks(st, i, pos, mint);
    RequestLeft(st, mint, turn, i);
    RequestHarms(st, n, p.chain, if p.minted then st.used + {mint} else st.used, turn, i, pos);
  }

  lemma RequestLeft(st: State, mint: Token, turn: Turn, i: nat)
    requires st.pc.Choose? && st.pc.steps > 0 && i <= |st.chain|
    requires (turn.mint.Some? ==> turn.mint.value == mint)
    requires (turn.mint.None? ==> i < |st.chain|)
    requires var p := LinkFor(st.held, st.chain, i, mint); i < |p.chain| && p.chain[i] == Link(st.pc.token, p.proposal)
    ensures Left(st, Requested(st, LinkFor(st.held, st.chain, i, mint), mint, turn.fate, turn.inGrace), turn, i)
  {
  }

  lemma RequestHarms(st: State, n: State, chain: seq<Link>, known: set<Token>, turn: Turn, i: nat, pos: nat)
    requires st.pc.Choose? && st.pc.steps > 0 && Left(st, n, turn, i)
    requires n.chain == chain
    requires Tracks(st.sv.cells, st.dev, st.held, chain, known, pos)
    ensures (turn.fate.Answered? ==> n.pc.answer != FreshProposal)
    ensures Harmless(st, n, turn, i, pos)
  {
    ServedLink(st.sv, st.dev, st.held, chain, known, pos, i, turn.inGrace);
  }

  lemma RequestSteps(s0: State, p0: nat, st: State, turn: Turn, i: nat) returns (n: State)
    requires At(s0, p0) && Reaches(s0, st) && st.pc.Choose?
    requires !st.pc.replace && st.pc.steps > 0
    requires i <= |st.chain| && Chain(st)[i] == st.pc.token
    requires (i < |st.chain| || turn.mint.Some?)
    requires turn.mint.Some? ==> turn.mint.value !in st.used
    ensures Reaches(s0, n) && Left(st, n, turn, i)
    ensures n.chain == LinkFor(st.held, st.chain, i, if turn.mint.Some? then turn.mint.value else 0).chain
    ensures (turn.fate.Answered? ==> n.pc.answer != FreshProposal)
    ensures (Calm(s0, st) ==> Harmless(st, n, turn, i, p0))
  {
    var mint := FreshExists(st.used);
    if turn.mint.Some? {
      mint := turn.mint.value;
    }
    var pos := ReachedAt(s0, p0, st);
    if Calm(s0, st) {
      CalmPos(s0, p0, st, pos);
    }
    n := RequestAt(s0, st, mint, turn, i, pos);
  }

  /** A mint that is needed and fails sends nothing, and the attempt ends there. */
  lemma UnmintedStep(s0: State, st: State) returns (n: State)
    requires Reaches(s0, st)
    ensures Reaches(s0, n) && n == st.(pc := Rest)
  {
    ReachStep(s0, st, Kill);
    n := Do(st, Kill);
  }

  /** What one request comes to, for the name at `i` of a chain. */
  datatype Asked = Asked(minted: bool, proposal: Token, chain: seq<Link>, after: Server, answer: Option<Answer>)

  /** A mint that is needed and fails sends nothing.  Otherwise the link is in the chain
      before the server is asked, and no answer is an unknown outcome. */
  predicate AskedFor(held: Token, chain: seq<Link>, sv: Server, token: Token, turn: Turn, i: nat, a: Asked)
    requires i <= |chain|
  {
    if !(i < |chain| || turn.mint.Some?) then a == Asked(false, 0, chain, sv, None)
    else
      && a.minted && a.chain == LinkFor(held, chain, i, if turn.mint.Some? then turn.mint.value else 0).chain
      && i < |a.chain| && a.chain[i] == Link(token, a.proposal)
      && a.after == (if turn.fate.RequestLost? then sv else AnswerTo(sv, a.chain[i], turn).0)
      && a.answer == (if turn.fate.Answered? then Some(AnswerTo(sv, a.chain[i], turn).1) else None)
  }

  /** One request, by the journal: persist, then send. */
  method Request(j: Store, sv: Server, token: Token, turn: Turn, now: int, ghost i: nat) returns (a: Asked)
    requires j.Valid() && j.hasCredential
    requires Distinct(Names(j.pair.refresh, j.chain))
    requires i <= |j.chain| && Names(j.pair.refresh, j.chain)[i] == token
    modifies j`chain, j`lastSent
    ensures j.Valid() && j.chain == a.chain
    ensures AskedFor(j.pair.refresh, old(j.chain), sv, token, turn, i, a)
    ensures !a.minted ==> j.lastSent == old(j.lastSent)
  {
    TryName(j.pair.refresh, j.chain, i, turn.mint);
    assert i < |j.chain| ==> j.chain[i].token == token;
    var r := j.ProposeFor(token, false, turn.mint, now);
    if r.Unminted? {
      return Asked(false, 0, j.chain, sv, None);
    }
    var served := RefreshServer.Exchange(sv, token, r.p.proposal, turn.inGrace);
    a := Asked(true, r.p.proposal, j.chain,
               if turn.fate.RequestLost? then sv else served.0,
               if turn.fate.Answered? then Some(served.1) else None);
  }

  /** The same, by the machine. */
  lemma AskSteps(s0: State, p0: nat, st: State, turn: Turn, i: nat, a: Asked) returns (n: State)
    requires At(s0, p0) && Reaches(s0, st) && st.pc.Choose?
    requires !st.pc.replace && st.pc.steps > 0
    requires i <= |st.chain| && Chain(st)[i] == st.pc.token
    requires AskedFor(st.held, st.chain, st.sv, st.pc.token, turn, i, a)
    requires turn.mint.Some? ==> turn.mint.value !in st.used
    ensures Reaches(s0, n) && n.held == st.held && n.dev == st.dev
    ensures n.chain == a.chain && n.sv == a.after && st.chain <= a.chain
    ensures st.used <= n.used
    ensures n.used <= st.used + (if turn.mint.Some? then {turn.mint.value} else {})
    ensures a.answer.Some? ==> a.minted && n.pc == Got(st.pc.token, a.proposal, st.pc.steps - 1, a.answer.value) && a.answer.value != FreshProposal
    ensures a.answer.None? ==> n.pc.Rest?
    ensures a.minted && Calm(s0, st) ==> Harmless(st, n, turn, i, p0)
  {
    if a.minted {
      n := RequestSteps(s0, p0, st, turn, i);
    } else {
      n := UnmintedStep(s0, st);
    }
  }

  lemma AnswerSteps(s0: State, p0: nat, st: State, i: nat) returns (n: State)
    requires At(s0, p0) && Reaches(s0, st) && st.pc.Got?
    requires !st.pc.answer.Rotated? && !st.pc.answer.FreshProposal?
    requires i < |st.chain| && st.chain[i] == Link(st.pc.token, st.pc.proposal)
    ensures Reaches(s0, n) && n == st.(pc := n.pc)
    ensures Linked(st.held, st.chain) && Distinct(Chain(st))
    ensures n.pc == if st.pc.answer.PresentProposal? then Choose(Chain(st)[i + 1], false, st.pc.steps)
                    else if i > 0 then Choose(Chain(st)[i - 1], false, st.pc.steps) else Terminal
  {
    var pos := ReachedAt(s0, p0, st);
    ReachStep(s0, st, TakeAnswer(false));
    n := Do(st, TakeAnswer(false));
    assert Chain(st)[i] == st.pc.token && Chain(st)[i + 1] == st.pc.proposal;
    OlderName(st.held, st.chain, i);
  }

  /** Where the walk goes on a 401 or a `present_proposal`: one name down or up, and from
      the oldest nowhere. */
  method NextName(j: Store, token: Token, proposal: Token, answer: Answer, ghost i: nat) returns (next: Option<Token>)
    requires Linked(j.pair.refresh, j.chain)
    requires Distinct(Names(j.pair.refresh, j.chain))
    requires i < |j.chain| && j.chain[i] == Link(token, proposal)
    requires (answer.Unauthorized? || answer.PresentProposal?)
    ensures next == if answer.PresentProposal? then Some(Names(j.pair.refresh, j.chain)[i + 1])
                    else if i > 0 then Some(Names(j.pair.refresh, j.chain)[i - 1]) else None
  {
    OlderName(j.pair.refresh, j.chain, i);
    if answer.PresentProposal? {
      return Some(proposal);
    }
    next := j.OlderThan(token);
  }

  /** A rotation another context may have made of this pair. */
  predicate Acceptable(held: Pair, p: Pair) {
    p.device == held.device && (p.user == 0 || p.user == held.user) && p.access != 0 && p.refresh != 0
  }

  /** Another context rotates the pair; the walk finds its token nowhere, and writes nothing. */
  method Overtaken(j: Store, token: Token, rival: Pair, mint: Option<Token>, now: int)
    requires j.Valid() && j.hasCredential && Acceptable(j.pair, rival)
    requires rival.refresh != token
    modifies j
    ensures j.Valid() && j.hasCredential
    ensures j.pair == rival.(user := old(j.pair).user) && j.chain == []
    ensures j.lastSent.None?
  {
    var e := j.Rotate(rival);
    var r := j.ProposeFor(token, false, mint, now);
    assert r == Did(Moved);
  }

  /** The machine is on the way from `s0`, where the journal and the server are, with the
      name at `i` chosen. */
  ghost predicate Choosing(j: Store, sv: Server, s0: State, st: State, token: Token, steps: nat, i: nat)
    reads j
  {
    Reaches(s0, st) && Same(j, sv, st) && st.pc == Choose(token, false, steps) && i <= |st.chain| && Chain(st)[i] == token
  }

  /** How an attempt stands when it ends. */
  ghost predicate Ended(j: Store, sv: Server, s0: State, st: State, out: Outcome)
    reads j
  {
    && Reaches(s0, st) && Same(j, sv, st) && (out.Refused401? <==> st.pc.Terminal?)
    && (out.NewToken? ==> st.pc.Got? && st.pc.answer == Rotated(out.token))
  }

  lemma ChoosingIsNamed(s0: State, p0: nat, st: State)
    requires At(s0, p0) && Reaches(s0, st)
    ensures Linked(st.held, st.chain) && Distinct(Chain(st))
  {
    var pos := ReachedAt(s0, p0, st);
  }

  /** One turn of the loop: a request, and where the walk goes from its answer.  `done` is how
      the attempt ends, if it does. */
  method Step(j: Store, sv: Server, token: Token, steps: nat, turn: Turn, now: int, ghost s0: State, ghost p0: nat, ghost st: State, ghost i: nat)
    returns (done: Option<Outcome>, next: Token, after: Server, ghost n: State, ghost at: nat)
    requires j.Valid() && j.hasCredential && steps > 0 && At(s0, p0)
    requires Choosing(j, sv, s0, st, token, steps, i)
    requires turn.mint.Some? ==> turn.mint.value !in st.used
    modifies j`chain, j`lastSent
    ensures j.Valid() && old(j.chain) <= j.chain && st.used <= n.used
    ensures n.used <= st.used + (if turn.mint.Some? then {turn.mint.value} else {})
    ensures done.None? ==> Choosing(j, after, s0, n, next, steps - 1, at)
    ensures done.Some? ==> Ended(j, after, s0, n, done.value) && !done.value.ChainMoved? && !done.value.Exhausted?
    ensures Calm(s0, st) && j.pair.device !in sv.dead && p0 <= i ==> Steady(done, after, sv, turn, i, at, p0)
  {
    var a;
    a, n := Ask(j, sv, token, steps, turn, now, s0, p0, st, i);
    next, after, at := token, a.after, i;
    if a.answer.None? {
      done := Some(if a.minted then Unknown else NoMint);
    } else if a.answer.value.Rotated? {
      done := Some(NewToken(a.answer.value.token));
    } else {
      done, next, n, at := Onward(j, token, a.proposal, a.answer.value, s0, p0, n, i);
    }
  }

  /** The request, by the journal and by the machine. */
  method Ask(j: Store, sv: Server, token: Token, steps: nat, turn: Turn, now: int, ghost s0: State, ghost p0: nat, ghost st: State, ghost i: nat)
    returns (a: Asked, ghost n: State)
    requires j.Valid() && j.hasCredential && steps > 0 && At(s0, p0)
    requires Choosing(j, sv, s0, st, token, steps, i)
    requires turn.mint.Some? ==> turn.mint.value !in st.used
    modifies j`chain, j`lastSent
    ensures j.Valid() && old(j.chain) <= j.chain && Reaches(s0, n)
    ensures Same(j, a.after, n)
    ensures st.used <= n.used
    ensures n.used <= st.used + (if turn.mint.Some? then {turn.mint.value} else {})
    ensures !a.minted ==> a.answer.None? && a.after == sv && turn.mint.None?
    ensures a.minted ==> i < |n.chain| && n.chain[i] == Link(token, a.proposal) && (a.answer.Some? <==> turn.fate.Answered?)
    ensures a.answer.Some? ==> a.minted && n.pc == Got(token, a.proposal, steps - 1, a.answer.value) && a.answer.value != FreshProposal
    ensures a.answer.None? ==> n.pc.Rest?
    ensures a.minted && Calm(s0, st) ==> Harmless(st, n, turn, i, p0)
  {
    ChoosingIsNamed(s0, p0, st);
    a := Request(j, sv, token, turn, now, i);
    n := AskSteps(s0, p0, st, turn, i, a);
  }

  /** The walk after an answer that is not a rotation. */
  method Onward(j: Store, token: Token, proposal: Token, answer: Answer, ghost s0: State, ghost p0: nat, ghost st: State, ghost i: nat)
    returns (done: Option<Outcome>, next: Token, ghost n: State, ghost at: nat)
    requires At(s0, p0) && Reaches(s0, st) && Same(j, st.sv, st)
    requires st.pc.Got? && st.pc.answer == answer && st.pc.token == token
    requires !answer.Rotated? && !answer.FreshProposal? && i < |st.chain|
    requires st.chain[i] == Link(token, proposal)
    requires st.pc.proposal == proposal
    ensures n.used == st.used && n.sv == st.sv
    ensures done.None? ==> Choosing(j, st.sv, s0, n, next, st.pc.steps, at) && at == (if answer.PresentProposal? then i + 1 else i - 1)
    ensures done.Some? ==> done.value.Refused401? && Ended(j, st.sv, s0, n, Refused401)
    ensures done.Some? <==> answer.Unauthorized? && i == 0
  {
    n := AnswerSteps(s0, p0, st, i);
    var older := NextName(j, token, proposal, answer, i);
    next, at := token, if answer.PresentProposal? then i + 1 else if i > 0 then i - 1 else 0;
    if older.None? {
      return Some(Refused401), next, n, at;
    }
    return None, older.value, n, at;
  }

  /** What a turn comes to on a live device, at or above the live name. */
  ghost predicate Steady(done: Option<Outcome>, after: Server, sv: Server, turn: Turn, i: nat, at: nat, pos: nat) {
    && after.dead == sv.dead
    && (done.Some? ==> done.value.NewToken? || done.value.Unknown? || done.value.NoMint?)
    && (done.Some? && turn.fate.Answered? && turn.mint.Some? ==> done.value.NewToken?)
    && (done.None? ==> pos < i && after == sv && at == i - 1)
  }

  /** THE LOOP.  `s0` is the machine at rest where the journal and the server are, and `pos`
      how far the server has followed the chain.

      Whatever the network, the random source and other contexts do: an attempt that another
      context overtakes ends there, concludes nothing, and leaves the journal as that context
      left it; any other is a run of the machine, so that journal and server are in step when
      it ends, and it is terminal exactly when the machine is.  On a live device it never
      ends in a refusal, never for want of budget, and never costs the device anything; it
      sends at most one request per link at or above the live one and one for the newest;
      and if nothing goes wrong it ends in a rotation. */
  method Exchange(j: Store, sv: Server, turns: seq<Turn>, now: int, ghost s0: State, ghost pos: nat)
    returns (out: Outcome, after: Server, sent: nat, ghost st: State)
    requires j.Valid() && j.hasCredential && Same(j, sv, s0) && At(s0, pos)
    requires s0.pc.Rest?
    requires |turns| == |j.chain| + WALK_SLACK && FreshTurns(s0.used, turns)
    requires forall k | 0 <= k < |turns| && turns[k].rival.Some? :: Acceptable(j.pair, turns[k].rival.value)
    modifies j
    ensures j.Valid() && j.hasCredential && sent <= |turns|
    ensures out.ChainMoved? ==> sent < |turns| && turns[sent].rival.Some? && j.chain == [] && j.pair == turns[sent].rival.value.(user := old(j.pair).user)
    ensures !out.ChainMoved? ==> j.pair == old(j.pair) && Ended(j, after, s0, st, out)
    ensures old(j.pair.device) !in sv.dead && !out.ChainMoved? ==>
              after.dead == sv.dead && sent <= old(|j.chain|) + 1 - pos && (out.NewToken? || out.Unknown? || out.NoMint?)
    ensures old(j.pair.device) !in sv.dead && Smooth(turns) ==> out.NewToken?
  {
    var token := Newest(j.pair.refresh, j.chain);
    var steps: nat := |j.chain| + WALK_SLACK;
    after, sent := sv, 0;
    ghost var i: nat := |j.chain|;
    ghost var live := j.pair.device !in sv.dead;
    st := Begin(s0, pos);
    assert turns[0..] == turns;
    while steps > 0
      invariant j.Valid() && j.hasCredential && j.pair == old(j.pair) && s0.chain <= j.chain
      invariant steps + sent == |turns| && FreshTurns(st.used, turns[sent..])
      invariant Choosing(j, after, s0, st, token, steps, i)
      invariant live ==> after == sv && pos <= i && steps == i + WALK_SLACK
    {
      if turns[sent].rival.Some? {
        TokenIsUsed(s0, pos, st, i);
        RivalIsNew(st.used, turns, sent);
        Overtaken(j, token, turns[sent].rival.value, turns[sent].mint, now);
        return ChainMoved, after, sent, st;
      }
      MintIsNew(st.used, turns, sent);
      ghost var was := st;
      var done;
      done, token, after, st, i := Step(j, after, token, steps, turns[sent], now, s0, pos, st, i);
      FreshNext(was.used, st.used, turns, sent);
      sent, steps := sent + 1, steps - 1;
      if done.Some? {
        return done.value, after, sent, st;
      }
    }
    return Exhausted, after, sent, st;
  }

  lemma RivalIsNew(used: set<Token>, turns: seq<Turn>, n: nat)
    requires n < |turns| && FreshTurns(used, turns[n..]) && turns[n].rival.Some?
    ensures turns[n].rival.value.refresh !in used
  {
    assert NewTurn(used, turns[n..], 0) && turns[n..][0] == turns[n];
  }

  lemma MintIsNew(used: set<Token>, turns: seq<Turn>, n: nat)
    requires n < |turns| && FreshTurns(used, turns[n..])
    ensures turns[n].mint.Some? ==> turns[n].mint.value !in used
  {
    assert NewTurn(used, turns[n..], 0) && turns[n..][0] == turns[n];
  }

  lemma FreshNext(used: set<Token>, more: set<Token>, turns: seq<Turn>, n: nat)
    requires n < |turns| && FreshTurns(used, turns[n..])
    requires used <= more
    requires more <= used + (if turns[n].mint.Some? then {turns[n].mint.value} else {})
    ensures FreshTurns(more, turns[n + 1..])
  {
    assert turns[n..][0] == turns[n] && turns[n..][1..] == turns[n + 1..];
    FreshRest(used, more, turns[n..]);
  }

  lemma TokenIsUsed(s0: State, p0: nat, st: State, i: nat)
    requires At(s0, p0) && Reaches(s0, st) && i <= |st.chain|
    ensures Chain(st)[i] in st.used
  {
    var pos := ReachedAt(s0, p0, st);
  }

  /** A refresh: the exchange, then the answer collapses the chain.  At every exit but one
      that another context made, journal and server are in step, so the next refresh may
      start from there; on a live device a refresh in which nothing goes wrong leaves the
      journal settled on the server's live token.  An empty token in an answer is refused by
      `Rotate`. */
  method Refresh(j: Store, sv: Server, turns: seq<Turn>, now: int, access: Token, ghost s0: State, ghost pos: nat)
    returns (out: Outcome, after: Server, sent: nat, ghost st: State)
    requires j.Valid() && j.hasCredential && Same(j, sv, s0) && At(s0, pos)
    requires s0.pc.Rest?
    requires |turns| == |j.chain| + WALK_SLACK && FreshTurns(s0.used, turns)
    requires forall k | 0 <= k < |turns| && turns[k].rival.Some? :: Acceptable(j.pair, turns[k].rival.value)
    modifies j
    ensures j.Valid() && j.hasCredential
    ensures j.pair.device == old(j.pair.device)
    ensures j.pair.user == old(j.pair.user)
    ensures !out.ChainMoved? ==> Reaches(s0, st) && Same(j, after, st)
    ensures old(j.pair.device) !in sv.dead && !out.ChainMoved? ==> after.dead == sv.dead && sent <= old(|j.chain|) + 1 - pos
    ensures old(j.pair.device) !in sv.dead && Smooth(turns) ==> out.NewToken?
    ensures out.NewToken? && out.token != 0 && access != 0 ==> j.chain == [] && j.pair.refresh == out.token && j.pair.access == access && st.pc.Rest?
    ensures !out.NewToken? && !out.ChainMoved? ==> j.pair == old(j.pair)
  {
    out, after, sent, st := Exchange(j, sv, turns, now, s0, pos);
    if out.NewToken? {
      var e := j.Rotate(Pair(j.pair.device, 0, access, out.token));
      if e.Ok? {
        ReachStep(s0, st, TakeAnswer(false));
        st := Do(st, TakeAnswer(false));
      }
    }
  }

  lemma Begin(s0: State, pos: nat) returns (st: State)
    requires At(s0, pos) && s0.pc.Rest?
    ensures Reaches(s0, st)
    ensures st == s0.(pc := Choose(Newest(s0.held, s0.chain), false, |s0.chain| + WALK_SLACK))
    ensures Chain(st)[|s0.chain|] == Newest(s0.held, s0.chain)
  {
    ReachSelf(s0);
    ReachStep(s0, s0, Start);
    st := Do(s0, Start);
  }
}
