/**
 The rotating exchange as the server performs it (internal/store/refresh.go):
 `POST /refresh` with a presented token and a proposed successor.
 */
module RefreshServer {
  import opened Credentials

  /** A stored token: whose it is, and what it was rotated into. */
  datatype Cell = Cell(device: nat, next: Option<Token>)

  /** The token table, and the devices whose family has been invalidated or that
      were revoked. */
  datatype Server = Server(cells: map<Token, Cell>, dead: set<nat>)

  datatype Answer = Rotated(token: Token) | Unauthorized | FreshProposal | PresentProposal

  predicate Spent(sv: Server, t: Token) { t in sv.cells && sv.cells[t].next.Some? }

  predicate LiveToken(sv: Server, t: Token) {
    && t in sv.cells
    && sv.cells[t].next.None?
    && sv.cells[t].device !in sv.dead
  }

  /** A refused rotation: a spent token outside the grace window is a replay, and
      invalidates the family and its device. */
  function Refused(sv: Server, t: Token, inGrace: bool): Server {
    if Spent(sv, t) && !inGrace then sv.(dead := sv.dead + {sv.cells[t].device}) else sv
  }

  function Rotate(sv: Server, t: Token, p: Token): Server
    requires t in sv.cells
  {
    sv.(cells := sv.cells[t := sv.cells[t].(next := Some(p))][p := Cell(sv.cells[t].device, None)])
  }

  /** One request.  `inGrace` is whether the rotation that spent the token is
      younger than the grace window. */
  function Exchange(sv: Server, t: Token, p: Token, inGrace: bool): (Server, Answer) {
    if t == p then (sv, FreshProposal)
    else if t !in sv.cells then (sv, Unauthorized)
    else if p in sv.cells then
      if sv.cells[t].next.None? then (sv, FreshProposal)
      else if sv.cells[t].next == Some(p) && inGrace then (sv, PresentProposal)
      else (Refused(sv, t, inGrace), Unauthorized)
    else if LiveToken(sv, t) then (Rotate(sv, t, p), Rotated(p))
    else (Refused(sv, t, inGrace), Unauthorized)
  }

  /** SINGLE USE.  Whatever is presented, a token is rotated at most once and its
      successor never changes; nothing un-spends it, and no dead device comes back. */
  lemma ExchangeIsSingleUse(sv: Server, t: Token, p: Token, inGrace: bool, x: Token)
    ensures var n := Exchange(sv, t, p, inGrace).0;
            && (x in sv.cells ==> x in n.cells && n.cells[x].device == sv.cells[x].device)
            && (Spent(sv, x) ==> n.cells[x].next == sv.cells[x].next)
            && sv.dead <= n.dead
  {
  }

  /** A rotation is answered exactly when the presented token was live and the
      proposal was new, and then the proposal is the live token and no other token changes. */
  lemma RotatedIff(sv: Server, t: Token, p: Token, inGrace: bool)
    ensures var (n, a) := Exchange(sv, t, p, inGrace);
            && (a.Rotated? <==> LiveToken(sv, t) && p !in sv.cells && t != p)
            && (a.Rotated? ==> a.token == p && LiveToken(n, p) && n.cells[t].next == Some(p))
            && (a.Rotated? ==> n.cells.Keys == sv.cells.Keys + {p} && n.cells[p].device == sv.cells[t].device
                               && forall x | x in sv.cells && x != t :: n.cells[x] == sv.cells[x])
  {
  }

  /** Exactly when the client is told to change what it presents. */
  lemma CollisionIff(sv: Server, t: Token, p: Token, inGrace: bool)
    ensures var (n, a) := Exchange(sv, t, p, inGrace);
            && (a.PresentProposal? <==> t != p && Spent(sv, t) && sv.cells[t].next == Some(p) && p in sv.cells && inGrace)
            && (a.FreshProposal? <==> t == p || (t in sv.cells && sv.cells[t].next.None? && p in sv.cells))
            && (!a.Rotated? ==> n.cells == sv.cells)
  {
  }

  /** A device dies by a request if and only if that request is a replay: a spent token
      outside the grace window. */
  lemma ReplayIff(sv: Server, t: Token, p: Token, inGrace: bool, d: nat)
    ensures d in Exchange(sv, t, p, inGrace).0.dead <==>
            d in sv.dead || (t != p && Spent(sv, t) && sv.cells[t].device == d && !inGrace)
  {
  }

  /** Any requests at all, from anybody, in order. */
  datatype Request = Request(token: Token, proposal: Token, inGrace: bool)

  function Served(sv: Server, rs: seq<Request>): Server
    decreases |rs|
  {
    if rs == [] then sv else Served(Exchange(sv, rs[0].token, rs[0].proposal, rs[0].inGrace).0, rs[1..])
  }

  /** SINGLE USE, FOR EVER.  Whatever anybody presents in whatever order, a stored token
      keeps its device, a spent one keeps the successor it was spent into, and a dead
      device never has a token rotated again. */
  lemma {:induction false} SpentForEver(sv: Server, rs: seq<Request>, x: Token)
    requires x in sv.cells
    ensures var n := Served(sv, rs);
            && x in n.cells && n.cells[x].device == sv.cells[x].device && sv.dead <= n.dead
            && (Spent(sv, x) ==> n.cells[x] == sv.cells[x])
            && (sv.cells[x].device in sv.dead ==> n.cells[x] == sv.cells[x])
    decreases |rs|
  {
    if rs != [] {
      ExchangeIsSingleUse(sv, rs[0].token, rs[0].proposal, rs[0].inGrace, x);
      SpentForEver(Exchange(sv, rs[0].token, rs[0].proposal, rs[0].inGrace).0, rs[1..], x);
    }
  }

  /** The request spends nothing and is evidence of a copy: a spent token, too late. */
  predicate Replay(sv: Server, r: Request, d: nat) {
    r.token != r.proposal && Spent(sv, r.token) && sv.cells[r.token].device == d && !r.inGrace
  }

  /** A DEVICE DIES BY REPLAY AND BY NOTHING ELSE.  Over any requests in any order, a device
      that was live is dead at the end if and only if one of them was a replay of a token of
      its own when it arrived. */
  lemma {:induction false} DeathsAreReplays(sv: Server, rs: seq<Request>, d: nat)
    ensures d in Served(sv, rs).dead <==> d in sv.dead || exists k :: 0 <= k < |rs| && Replay(Served(sv, rs[..k]), rs[k], d)
    decreases |rs|
  {
    if rs != [] {
      var n := Exchange(sv, rs[0].token, rs[0].proposal, rs[0].inGrace).0;
      ReplayIff(sv, rs[0].token, rs[0].proposal, rs[0].inGrace, d);
      DeathsAreReplays(n, rs[1..], d);
      forall k | 1 <= k < |rs| ensures Served(sv, rs[..k]) == Served(n, rs[1..][..k - 1]) && rs[k] == rs[1..][k - 1] {
        assert rs[..k][0] == rs[0] && rs[..k][1..] == rs[1..][..k - 1];
      }
      assert Served(sv, rs[..0]) == sv;
      if j :| 0 <= j < |rs[1..]| && Replay(Served(n, rs[1..][..j]), rs[1..][j], d) {
        assert Replay(Served(sv, rs[..j + 1]), rs[j + 1], d);
      }
    }
  }

  /** Told to present its proposal, a client is told the truth for good: whatever anybody
      sends from then on, that proposal is what its token was spent into. */
  lemma PresentProposalIsFinal(sv: Server, t: Token, p: Token, inGrace: bool, rs: seq<Request>)
    requires Exchange(sv, t, p, inGrace).1.PresentProposal?
    ensures var n := Served(sv, rs); p in n.cells && t in n.cells && n.cells[t].next == Some(p)
  {
    CollisionIff(sv, t, p, inGrace);
    SpentForEver(sv, rs, t);
    SpentForEver(sv, rs, p);
  }

  /** Told to propose afresh, a client with a live token loses nothing by doing so: the token
      is as it was, and any proposal new to the server rotates it. */
  lemma FreshProposalIsCurable(sv: Server, t: Token, p: Token, inGrace: bool, q: Token, later: bool)
    requires Exchange(sv, t, p, inGrace).1.FreshProposal?
    requires LiveToken(sv, t) && q !in sv.cells && q != t
    ensures var (n, a) := Exchange(sv, t, p, inGrace);
            n.cells == sv.cells && Exchange(n, t, q, later).1 == Rotated(q)
  {
    CollisionIff(sv, t, p, inGrace);
    ReplayIff(sv, t, p, inGrace, sv.cells[t].device);
    var n := Exchange(sv, t, p, inGrace).0;
    RotatedIff(n, t, q, later);
  }
}
