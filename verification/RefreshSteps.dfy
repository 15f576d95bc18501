/**
 Every step of a timely run keeps the invariant of `RefreshRun`.
 */
module RefreshSteps {
  import opened Credentials
  import opened RefreshServer
  import opened RefreshRun

  lemma LinkIsNamed(held: Token, chain: seq<Link>, l: Link) returns (i: nat)
    requires Linked(held, chain) && l in chain
    ensures i < |chain| && chain[i] == l && Names(held, chain)[i] == l.token
    ensures Names(held, chain)[i + 1] == l.proposal
  {
    i :| 0 <= i < |chain| && chain[i] == l;
  }

  lemma FindName(held: Token, chain: seq<Link>, i: nat)
    requires Linked(held, chain) && Distinct(Names(held, chain)) && i <= |chain|
    ensures Find(chain, Names(held, chain)[i]) == i
  {
    var ns := Names(held, chain);
    forall k | 0 <= k < i ensures chain[k].token != ns[i] {
      assert chain[k].token == ns[k];
    }
    assert i < |chain| ==> chain[i].token == ns[i];
    FindIs(chain, ns[i], i);
  }

  /** The token one step back, by position. */
  lemma OlderName(held: Token, chain: seq<Link>, i: nat)
    requires Linked(held, chain) && Distinct(Names(held, chain)) && i < |chain|
    ensures Older(chain, Names(held, chain)[i]) == if i == 0 then None else Some(Names(held, chain)[i - 1])
  {
    var t := Names(held, chain)[i];
    forall k | 0 <= k < |chain| - 1 && k + 1 != i ensures chain[1..][k].token != t {
      assert chain[1..][k] == chain[k + 1];
    }
    FindIs(chain[1..], t, if i == 0 then |chain| - 1 else i - 1);
  }

  /** The server's view after one request for a link of the chain. */
  lemma ServeLink(sv: Server, dev: nat, ns: seq<Token>, pos: nat, i: nat, g: bool)
    requires Distinct(ns) && Followed(sv.cells, dev, ns, pos)
    requires OnlyLive(sv.cells, dev, ns[pos]) && i + 1 < |ns|
    ensures var (n, a) := Exchange(sv, ns[i], ns[i + 1], g);
            && a != FreshProposal
            && (a.Rotated? ==> i == pos && a.token == ns[i + 1] && Followed(n.cells, dev, ns, pos + 1) && OnlyLive(n.cells, dev, ns[pos + 1])
                               && n.cells.Keys == sv.cells.Keys + {ns[i + 1]})
            && (!a.Rotated? ==> n.cells == sv.cells)
            && (i == pos && dev !in sv.dead ==> a.Rotated?)
            && (i > pos ==> a.Unauthorized? && n == sv)
            && (i < pos ==> sv.cells[ns[i]].next == Some(ns[i + 1]))
  {
  }

  // --- the steps ------------------------------------------------------------------

  /** What minting a link does to the names: one fresh name at the end. */
  lemma AppendKeeps(cells: map<Token, Cell>, dev: nat, ns: seq<Token>, pos: nat, used: set<Token>, mint: Token)
    requires Distinct(ns) && Followed(cells, dev, ns, pos)
    requires cells.Keys <= used && mint !in used
    requires forall i | 0 <= i < |ns| :: ns[i] in used
    ensures Distinct(ns + [mint]) && Followed(cells, dev, ns + [mint], pos)
    ensures (ns + [mint])[pos] == ns[pos]
    ensures forall i | 0 <= i < |ns + [mint]| :: (ns + [mint])[i] in used + {mint}
  {
  }

  /** What is presented with the name at `i`: its first proposal, or a new one for
      the newest. */
  lemma ProposeName(held: Token, chain: seq<Link>, i: nat, mint: Token)
    requires Linked(held, chain) && Distinct(Names(held, chain)) && i <= |chain|
    ensures var t := Names(held, chain)[i];
            var p := Propose(held, chain, t, false, mint);
            p == if i < |chain| then Proposed(chain[i].proposal, chain, false) else Proposed(mint, chain + [Link(t, mint)], true)
  {
    FindName(held, chain, i);
  }

  lemma AppendTracks(cells: map<Token, Cell>, dev: nat, held: Token, chain: seq<Link>, used: set<Token>, pos: nat, mint: Token)
    requires Tracks(cells, dev, held, chain, used, pos) && mint !in used
    ensures Tracks(cells, dev, held, chain + [Link(Newest(held, chain), mint)], used + {mint}, pos)
    ensures Names(held, chain + [Link(Newest(held, chain), mint)]) == Names(held, chain) + [mint]
  {
    var l := Link(Newest(held, chain), mint);
    AppendKeeps(cells, dev, Names(held, chain), pos, used, mint);
    LinkedSnoc(held, chain, mint);
  }

  /** What choosing the name at `i` comes to. */
  lemma WriteIs(s: State, mint: Token, i: nat)
    requires Linked(s.held, s.chain) && Distinct(Chain(s)) && s.pc.Choose?
    requires !s.pc.replace && i <= |s.chain| && Chain(s)[i] == s.pc.token
    ensures WriteLink(s, mint) ==
            if s.pc.steps == 0 then s.(pc := Rest)
            else if i < |s.chain| then s.(pc := Written(s.pc.token, s.chain[i].proposal, s.pc.steps - 1))
            else s.(chain := s.chain + [Link(s.pc.token, mint)], used := s.used + {mint}, pc := Written(s.pc.token, mint, s.pc.steps - 1))
  {
    ProposeName(s.held, s.chain, i, mint);
  }

  lemma WriteKeeps(s: State, mint: Token, pos: nat)
    requires At(s, pos) && s.pc.Choose? && mint !in s.used
    ensures At(WriteLink(s, mint), pos)
  {
    var i: nat :| i < |Chain(s)| && Chain(s)[i] == s.pc.token;
    WriteIs(s, mint, i);
    if i == |s.chain| {
      AppendTracks(s.sv.cells, s.dev, s.held, s.chain, s.used, pos, mint);
      assert (s.chain + [Link(s.pc.token, mint)])[i] == Link(s.pc.token, mint);
    } else {
      assert s.chain[i] == Link(s.pc.token, s.chain[i].proposal);
    }
  }

  lemma SendKeeps(s: State, pos: nat)
    requires At(s, pos) && s.pc.Written?
    ensures At(Do(s, Send), pos)
  {
  }

  /** How far the server has followed after one request for a link of the chain. */
  function Reached(s: State, t: Token, p: Token, g: bool, pos: nat): nat {
    if Exchange(s.sv, t, p, g).1.Rotated? then pos + 1 else pos
  }

  lemma ServeTracks(sv: Server, dev: nat, held: Token, chain: seq<Link>, used: set<Token>, pos: nat, l: Link, g: bool)
    requires Tracks(sv.cells, dev, held, chain, used, pos) && l in chain
    ensures var (n, a) := Exchange(sv, l.token, l.proposal, g);
            && a != FreshProposal
            && (a.Rotated? ==> a.token == l.proposal && Tracks(n.cells, dev, held, chain, used, pos + 1) && Names(held, chain)[pos + 1] == l.proposal)
            && (!a.Rotated? ==> Tracks(n.cells, dev, held, chain, used, pos))
  {
    var i := LinkIsNamed(held, chain, l);
    ServeLink(sv, dev, Names(held, chain), pos, i, g);
  }

  lemma ServeKeeps(s: State, g: bool, pos: nat)
    requires At(s, pos) && Enabled(s, Serve(g))
    ensures At(Do(s, Serve(g)), Reached(s, s.pc.token, s.pc.proposal, g, pos))
  {
    ServeTracks(s.sv, s.dev, s.held, s.chain, s.used, pos, Link(s.pc.token, s.pc.proposal), g);
  }

  lemma LateKeeps(s: State, r: Link, g: bool, pos: nat)
    requires At(s, pos) && Enabled(s, Late(r, g)) && Timely(s, Late(r, g))
    ensures At(Do(s, Late(r, g)), Reached(s, r.token, r.proposal, g, pos))
  {
    ServeTracks(s.sv, s.dev, s.held, s.chain, s.used, pos, r, g);
  }

  /** A collapse leaves the live token as the only name. */
  lemma CollapseKeeps(s: State, pos: nat, giveUp: bool)
    requires At(s, pos) && s.pc.Got? && s.pc.answer.Rotated?
    ensures At(Answered(s, giveUp), 0)
  {
    var n := Answered(s, giveUp);
    assert Chain(n) == [s.pc.answer.token];
  }

  lemma OlderIsNamed(held: Token, chain: seq<Link>, l: Link)
    requires Linked(held, chain) && Distinct(Names(held, chain)) && l in chain
    ensures var o := Older(chain, l.token); o.Some? ==> o.value in Names(held, chain)
    ensures l.proposal in Names(held, chain)
  {
    var i := LinkIsNamed(held, chain, l);
    OlderName(held, chain, i);
  }

  lemma WalkKeeps(s: State, pos: nat, giveUp: bool)
    requires At(s, pos) && s.pc.Got? && !s.pc.answer.Rotated?
    ensures At(Answered(s, giveUp), pos)
  {
    OlderIsNamed(s.held, s.chain, Link(s.pc.token, s.pc.proposal));
  }

  /** Where the server stands after a step. */
  function NextPos(s: State, e: Event, pos: nat): nat
    requires Enabled(s, e)
  {
    match e
    case Serve(g) => Reached(s, s.pc.token, s.pc.proposal, g, pos)
    case Late(r, g) => Reached(s, r.token, r.proposal, g, pos)
    case TakeAnswer(_) => if s.pc.answer.Rotated? then 0 else pos
    case _ => pos
  }

  lemma StepKeeps(s: State, e: Event, pos: nat)
    requires At(s, pos) && Enabled(s, e) && Timely(s, e)
    ensures At(Do(s, e), NextPos(s, e, pos))
  {
    match e
    case Write(mint) => WriteKeeps(s, mint, pos);
    case Send => SendKeeps(s, pos);
    case Serve(g) => ServeKeeps(s, g, pos);
    case Late(r, g) => LateKeeps(s, r, g, pos);
    case TakeAnswer(giveUp) =>
      if s.pc.answer.Rotated? {
        CollapseKeeps(s, pos, giveUp);
      } else {
        WalkKeeps(s, pos, giveUp);
      }
    case Start => StartKeeps(s, pos);
    case _ => QuietKeeps(s, e, pos);
  }

  lemma StartKeeps(s: State, pos: nat)
    requires At(s, pos) && s.pc.Rest?
    ensures At(Do(s, Start), pos)
  {
    assert Newest(s.held, s.chain) == Chain(s)[|s.chain|];
  }

  lemma QuietKeeps(s: State, e: Event, pos: nat)
    requires At(s, pos) && Enabled(s, e)
    requires (e.Drop? || e.Lose? || e.Kill? || e.Revoke?)
    ensures At(Do(s, e), pos)
  {
  }

  lemma {:induction false} RunKeeps(s: State, es: seq<Event>, pos: nat) returns (last: nat)
    requires At(s, pos) && Run(s, es) && TimelyRun(s, es)
    ensures At(After(s, es), last)
    decreases |es|
  {
    last := pos;
    if es != [] {
      StepKeeps(s, es[0], pos);
      last := RunKeeps(Do(s, es[0]), es[1..], NextPos(s, es[0], pos));
    }
  }
}
