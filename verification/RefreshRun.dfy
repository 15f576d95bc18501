/**
 One device refreshing against an adversarial network (internal/client/refresh.go).

 A request sent may be processed at once, late, or never; an answer may be lost;
 the process may be killed between any two steps and comes back to what the journal
 says.  Freshly minted tokens are new to everybody.
 */
module RefreshRun {
  import opened Credentials
  import opened RefreshServer

  const WALK_SLACK: nat := 8

  /** Where one `exchange` stands. */
  datatype Pc =
    | Rest
    | Choose(token: Token, replace: bool, steps: nat)
    | Written(token: Token, proposal: Token, steps: nat)
    | Wait(token: Token, proposal: Token, steps: nat)
    | Got(token: Token, proposal: Token, steps: nat, answer: Answer)
    | Terminal

  /** `net` holds the requests sent and not yet processed, the awaited one and the
      abandoned ones alike.  `used` is every token that has ever existed. */
  datatype State = State(sv: Server, dev: nat, held: Token, chain: seq<Link>, net: multiset<Link>, used: set<Token>, pc: Pc)

  datatype Event =
    | Start
    | Write(mint: Token)
    | Send
    | Serve(inGrace: bool)
    | Late(req: Link, inGrace: bool)
    | Drop(req: Link)
    | TakeAnswer(giveUp: bool)
    | Lose
    | Kill
    | Revoke

  predicate Awaited(s: State, r: Link) {
    && s.pc.Wait?
    && r == Link(s.pc.token, s.pc.proposal)
  }

  predicate Enabled(s: State, e: Event) {
    match e
    case Start => s.pc.Rest?
    case Write(mint) => s.pc.Choose? && mint !in s.used
    case Send => s.pc.Written?
    case Serve(_) => s.pc.Wait? && Link(s.pc.token, s.pc.proposal) in s.net
    case Late(r, _) => r in s.net && (Awaited(s, r) ==> s.net[r] >= 2)
    case Drop(r) => r in s.net
    case TakeAnswer(_) => s.pc.Got?
    case Lose => s.pc.Wait? || s.pc.Got?
    case Kill => true
    case Revoke => true
  }

  function WriteLink(s: State, mint: Token): State
    requires s.pc.Choose?
  {
    if s.pc.steps == 0 then s.(pc := Rest)
    else
      match Propose(s.held, s.chain, s.pc.token, s.pc.replace, mint)
      case Moved => s.(pc := Rest)
      case Proposed(p, chain, minted) =>
        s.(chain := chain, used := if minted then s.used + {mint} else s.used, pc := Written(s.pc.token, p, s.pc.steps - 1))
  }

  function Answered(s: State, giveUp: bool): State
    requires s.pc.Got?
  {
    match s.pc.answer
    case Rotated(x) => s.(held := x, chain := [], pc := Rest)
    case Unauthorized =>
      s.(pc := match Older(s.chain, s.pc.token)
      case Some(o) => Choose(o, false, s.pc.steps)
      case None => Terminal)
    case PresentProposal => s.(pc := Choose(s.pc.proposal, false, s.pc.steps))
    case FreshProposal => s.(pc := if giveUp then Rest else Choose(s.pc.token, true, s.pc.steps))
  }

  function Do(s: State, e: Event): State
    requires Enabled(s, e)
  {
    match e
    case Start => s.(pc := Choose(Newest(s.held, s.chain), false, |s.chain| + WALK_SLACK))
    case Write(mint) => WriteLink(s, mint)
    case Send => s.(net := s.net + multiset{Link(s.pc.token, s.pc.proposal)}, pc := Wait(s.pc.token, s.pc.proposal, s.pc.steps))
    case Serve(g) =>
      var (sv, a) := Exchange(s.sv, s.pc.token, s.pc.proposal, g);
      s.(sv := sv, net := s.net - multiset{Link(s.pc.token, s.pc.proposal)}, pc := Got(s.pc.token, s.pc.proposal, s.pc.steps, a))
    case Late(r, g) => s.(sv := Exchange(s.sv, r.token, r.proposal, g).0, net := s.net - multiset{r})
    case Drop(r) => s.(net := s.net - multiset{r})
    case TakeAnswer(giveUp) => Answered(s, giveUp)
    case Lose => s.(pc := Rest)
    case Kill => s.(pc := Rest)
    case Revoke => s.(sv := s.sv.(dead := s.sv.dead + {s.dev}))
  }

  /** Enrolled: the server stores the held token, unspent, and nothing is under way. */
  predicate Init(s: State) {
    && s.held in s.sv.cells && s.sv.cells[s.held] == Cell(s.dev, None)
    && (forall x | x in s.sv.cells && s.sv.cells[x].device == s.dev :: x == s.held)
    && s.chain == [] && s.net == multiset{} && s.pc.Rest? && s.sv.cells.Keys <= s.used
  }

  /** No abandoned request is processed once a later one has been answered: its
      link is still in the chain, and no rotation is on its way back. */
  predicate Timely(s: State, e: Event) {
    e.Late? ==> e.req in s.chain && !(s.pc.Got? && s.pc.answer.Rotated?)
  }

  predicate Run(s: State, es: seq<Event>)
    decreases |es|
  {
    if es == [] then true else Enabled(s, es[0]) && Run(Do(s, es[0]), es[1..])
  }

  function After(s: State, es: seq<Event>): State
    requires Run(s, es)
    decreases |es|
  {
    if es == [] then s else After(Do(s, es[0]), es[1..])
  }

  predicate TimelyRun(s: State, es: seq<Event>)
    requires Run(s, es)
    decreases |es|
  {
    if es == [] then true else Timely(s, es[0]) && TimelyRun(Do(s, es[0]), es[1..])
  }

  // --- the invariant ------------------------------------------------------------

  function Chain(s: State): seq<Token> { Names(s.held, s.chain) }

  predicate Distinct(ns: seq<Token>) { forall i, j | 0 <= i < j < |ns| :: ns[i] != ns[j] }

  /** The server has followed the chain as far as `pos`: everything before it is
      spent into its successor, it is unspent, and what comes after is unknown. */
  predicate Followed(cells: map<Token, Cell>, dev: nat, ns: seq<Token>, pos: nat) {
    && pos < |ns|
    && (forall i | 0 <= i <= pos :: ns[i] in cells && cells[ns[i]].device == dev)
    && (forall i | 0 <= i < pos :: cells[ns[i]].next == Some(ns[i + 1]))
    && cells[ns[pos]].next.None?
    && (forall i | pos < i < |ns| :: ns[i] !in cells)
  }

  /** The device's one unspent token is `live`. */
  predicate OnlyLive(cells: map<Token, Cell>, dev: nat, live: Token) {
    forall x | x in cells && cells[x].device == dev && cells[x].next.None? :: x == live
  }

  predicate PcOk(s: State, pos: nat) {
    match s.pc
    case Choose(t, replace, _) => t in Chain(s) && !replace
    case Written(t, p, _) => Link(t, p) in s.chain
    case Wait(t, p, _) => Link(t, p) in s.chain
    case Got(t, p, _, a) =>
      && Link(t, p) in s.chain && a != FreshProposal
      && (a.Rotated? ==> a.token == p && pos < |Chain(s)| && Chain(s)[pos] == p)
    case _ => true
  }

  /** Journal and server agree: the chain is linked from the held token, its names
      are distinct, and the server has followed it as far as `pos`, where the
      device's only unspent token is. */
  predicate Tracks(cells: map<Token, Cell>, dev: nat, held: Token, chain: seq<Link>, used: set<Token>, pos: nat) {
    && Linked(held, chain) && Distinct(Names(held, chain))
    && Followed(cells, dev, Names(held, chain), pos)
    && OnlyLive(cells, dev, Names(held, chain)[pos])
    && cells.Keys <= used
    && (forall i | 0 <= i < |Names(held, chain)| :: Names(held, chain)[i] in used)
  }

  predicate At(s: State, pos: nat) {
    && Tracks(s.sv.cells, s.dev, s.held, s.chain, s.used, pos)
    && PcOk(s, pos)
  }
}
