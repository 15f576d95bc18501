/**
 The credential half of the client's journal: the held pair, and the chain of
 refreshes sent and not yet answered (internal/client/journal.go).

 Tokens are numbers and 0 is the empty string.
 */
module Credentials {

  type Token = nat

  datatype Option<T> = None | Some(value: T)

  /** A request of the chain: presenting `token`, it asks for `proposal` as what comes
      after. */
  datatype Link = Link(token: Token, proposal: Token)

  datatype Pair = Pair(device: nat, user: nat, access: Token, refresh: Token)

  datatype Error = Ok | NoCredential | CredentialHeld | WrongDevice | Incomplete

  predicate Complete(p: Pair) { p.device != 0 && p.access != 0 && p.refresh != 0 }

  // --- the chain as a value -----------------------------------------------------

  /** Every token the server may be holding as live, from the held pair's up to the newest
      proposal. */
  function Names(held: Token, chain: seq<Link>): (ns: seq<Token>)
    ensures |ns| == |chain| + 1 && ns[0] == held
    ensures forall i | 0 <= i < |chain| :: ns[i + 1] == chain[i].proposal
  {
    if chain == [] then [held] else Names(held, chain[..|chain| - 1]) + [chain[|chain| - 1].proposal]
  }

  /** The chain's invariant: it starts at the held token, and each link presents
      what the link before it proposed. */
  predicate Linked(held: Token, chain: seq<Link>) {
    forall i {:trigger chain[i]} | 0 <= i < |chain| :: chain[i].token == Names(held, chain)[i]
  }

  function Newest(held: Token, chain: seq<Link>): Token { if chain == [] then held else chain[|chain| - 1].proposal }

  /** The first link that presents `token`, or the chain's length. */
  function Find(chain: seq<Link>, token: Token): (i: nat)
    ensures i <= |chain|
    ensures i < |chain| ==> chain[i].token == token
    ensures forall k | 0 <= k < i :: chain[k].token != token
  {
    if chain == [] then 0 else if chain[0].token == token then 0 else 1 + Find(chain[1..], token)
  }

  /** What `propose` answers: the successor to present `token` with, and the chain
      that is durable before the caller has it; or that the chain moved. */
  datatype Proposal = Moved | Proposed(proposal: Token, chain: seq<Link>, minted: bool)

  function Propose(held: Token, chain: seq<Link>, token: Token, replace: bool, mint: Token): Proposal {
    var i := Find(chain, token);
    if i < |chain| then
      if replace then Proposed(mint, chain[..i] + [Link(token, mint)], true) else Proposed(chain[i].proposal, chain, false)
    else if token == Newest(held, chain) then Proposed(mint, chain + [Link(token, mint)], true)
    else Moved
  }

  /** Whether that answer takes a new token: on `replace`, or for the newest. */
  predicate Mints(held: Token, chain: seq<Link>, token: Token, replace: bool) {
    var i := Find(chain, token);
    if i < |chain| then replace else token == Newest(held, chain)
  }

  /** A source of randomness that fails ends it with nothing written. */
  datatype Tried = Unminted | Did(p: Proposal)

  function Try(held: Token, chain: seq<Link>, token: Token, replace: bool, mint: Option<Token>): Tried {
    if mint.Some? then Did(Propose(held, chain, token, replace, mint.value))
    else if Mints(held, chain, token, replace) then Unminted
    else Did(Propose(held, chain, token, replace, 0))
  }

  /** The token presented before `token`; none for the oldest. */
  function Older(chain: seq<Link>, token: Token): Option<Token> {
    if chain == [] then None
    else
      var i := Find(chain[1..], token);
      if i < |chain| - 1 then Some(chain[i].token) else None
  }

  lemma LinkedSnoc(held: Token, chain: seq<Link>, mint: Token)
    requires Linked(held, chain)
    ensures Linked(held, chain + [Link(Newest(held, chain), mint)])
  {
    var l := Link(Newest(held, chain), mint);
    var longer := chain + [l];
    forall k | 0 <= k < |longer| ensures longer[k].token == Names(held, longer)[k] {
      assert k < |chain| ==> longer[k] == chain[k];
    }
  }

  lemma PrefixLinked(held: Token, chain: seq<Link>, i: nat)
    requires Linked(held, chain) && i < |chain|
    ensures Linked(held, chain[..i]) && Newest(held, chain[..i]) == chain[i].token
  {
    var p := chain[..i];
    forall k | 0 <= k < |p| ensures p[k].token == Names(held, p)[k] {
      assert p[k] == chain[k];
      if k > 0 {
        assert p[k - 1] == chain[k - 1];
      }
    }
    if i > 0 {
      assert p[i - 1] == chain[i - 1];
    }
    assert chain[i].token == Names(held, chain)[i];
  }

  /** A fresh proposal for a token in the chain drops everything newer. */
  lemma ReplaceLinked(held: Token, chain: seq<Link>, i: nat, mint: Token)
    requires Linked(held, chain) && i < |chain|
    ensures Linked(held, chain[..i] + [Link(chain[i].token, mint)])
  {
    PrefixLinked(held, chain, i);
    LinkedSnoc(held, chain[..i], mint);
  }

  /** Proposing keeps the chain linked, and the link it answers with is in it. */
  lemma ProposeKeepsLinked(held: Token, chain: seq<Link>, token: Token, replace: bool, mint: Token)
    requires Linked(held, chain)
    ensures var p := Propose(held, chain, token, replace, mint);
            p.Proposed? ==> Linked(held, p.chain) && Link(token, p.proposal) in p.chain
  {
    var i := Find(chain, token);
    if i < |chain| {
      ReplaceLinked(held, chain, i, mint);
      assert chain[i] == Link(token, chain[i].proposal);
    } else {
      LinkedSnoc(held, chain, mint);
    }
  }

  /** The same, by where the token stands in the chain. */
  lemma TryIs(held: Token, chain: seq<Link>, token: Token, replace: bool, mint: Option<Token>)
    ensures var i := Find(chain, token);
            Try(held, chain, token, replace, mint) ==
            if i < |chain| && !replace then Did(Proposed(chain[i].proposal, chain, false))
            else if i == |chain| && token != Newest(held, chain) then Did(Moved)
            else if mint.None? then Unminted
            else Did(Proposed(mint.value, chain[..i] + [Link(token, mint.value)], true))
  {
    assert chain[..|chain|] == chain;
  }

  /** Writing a link for a token of the chain, or for the newest, keeps the chain linked. */
  lemma WritingKeepsLinked(held: Token, chain: seq<Link>, token: Token, mint: Token)
    requires Linked(held, chain)
    requires (Find(chain, token) < |chain| || token == Newest(held, chain))
    ensures Linked(held, chain[..Find(chain, token)] + [Link(token, mint)])
  {
    var i := Find(chain, token);
    if i < |chain| {
      ReplaceLinked(held, chain, i, mint);
    } else {
      LinkedSnoc(held, chain, mint);
      assert chain[..i] == chain;
    }
  }

  // --- the same, by update in place ---------------------------------------------

  class Store {
    var hasCredential: bool
    var pair: Pair
    var chain: seq<Link>
    var lastSent: Option<int>

    predicate Valid()
      reads this
    {
      && Linked(pair.refresh, chain)
      && (hasCredential ==> Complete(pair))
      && (chain == [] ==> lastSent.None?)
    }

    constructor ()
      ensures Valid() && !hasCredential && chain == []
    {
      hasCredential, pair, chain, lastSent := false, Pair(0, 0, 0, 0), [], None;
    }

    method Enroll(p: Pair) returns (e: Error)
      requires Valid() && (!hasCredential ==> chain == [])
      modifies this
      ensures Valid()
      ensures e == if p.device == 0 || p.access == 0 || p.refresh == 0 then Incomplete else if old(hasCredential) then CredentialHeld else Ok
      ensures e.Ok? ==> hasCredential && pair == p && chain == [] && lastSent == None
      ensures !e.Ok? ==> unchanged(this)
    {
      if !Complete(p) {
        return Incomplete;
      }
      if hasCredential {
        return CredentialHeld;
      }
      pair, hasCredential := p, true;
      return Ok;
    }

    method Reenroll(p: Pair) returns (e: Error)
      requires Valid()
      modifies this
      ensures Valid()
      ensures e == if p.device == 0 || p.access == 0 || p.refresh == 0 then Incomplete else if !old(hasCredential) then NoCredential else Ok
      ensures e.Ok? ==> hasCredential && pair == p && chain == [] && lastSent == None
      ensures !e.Ok? ==> unchanged(this)
    {
      if !Complete(p) {
        return Incomplete;
      }
      if !hasCredential {
        return NoCredential;
      }
      pair, chain, lastSent := p, [], None;
      return Ok;
    }

    /** An answer collapses the chain; the device and its user stay. */
    method Rotate(next: Pair) returns (e: Error)
      requires Valid()
      modifies this
      ensures Valid()
      ensures e == if !old(hasCredential) then NoCredential
                   else if next.device != old(pair).device || (next.user != 0 && next.user != old(pair).user) then WrongDevice
                   else if next.access == 0 || next.refresh == 0 then Incomplete
                   else Ok
      ensures e.Ok? ==> hasCredential && pair == next.(user := old(pair).user) && chain == [] && lastSent == None
      ensures !e.Ok? ==> unchanged(this)
    {
      if !hasCredential {
        return NoCredential;
      }
      if next.device != pair.device || (next.user != 0 && next.user != pair.user) {
        return WrongDevice;
      }
      if next.access == 0 || next.refresh == 0 {
        return Incomplete;
      }
      pair, chain, lastSent := next.(user := pair.user), [], None;
      return Ok;
    }

    /** Persist before send.  `mint` is the fresh proposal, if one can be had, and `now` the
        clock the link is stamped with; both are used only when a link is written. */
    method ProposeFor(token: Token, replace: bool, mint: Option<Token>, now: int) returns (r: Tried)
      requires Valid() && hasCredential
      modifies this`chain, this`lastSent
      ensures Valid()
      ensures r == Try(pair.refresh, old(chain), token, replace, mint)
      ensures chain == if r.Did? && r.p.Proposed? then r.p.chain else old(chain)
      ensures lastSent == if r.Did? && r.p.Proposed? && r.p.minted then Some(now) else old(lastSent)
    {
      TryIs(pair.refresh, chain, token, replace, mint);
      var i := IndexOf(token);
      if i < |chain| && !replace {
        return Did(Proposed(chain[i].proposal, chain, false));
      }
      if i == |chain| && token != Newest(pair.refresh, chain) {
        return Did(Moved);
      }
      if mint.None? {
        return Unminted;
      }
      r := Did(Proposed(mint.value, chain[..i] + [Link(token, mint.value)], true));
      WriteLink(i, token, mint.value, now);
    }

    method WriteLink(i: nat, token: Token, mint: Token, now: int)
      requires Valid() && i == Find(chain, token)
      requires (i < |chain| || token == Newest(pair.refresh, chain))
      modifies this`chain, this`lastSent
      ensures Valid() && chain == old(chain)[..i] + [Link(token, mint)]
      ensures lastSent == Some(now)
    {
      WritingKeepsLinked(pair.refresh, chain, token, mint);
      chain, lastSent := chain[..i] + [Link(token, mint)], Some(now);
    }

    method IndexOf(token: Token) returns (i: nat)
      ensures i == Find(chain, token)
    {
      i := 0;
      while i < |chain| && chain[i].token != token
        invariant 0 <= i <= |chain|
        invariant forall k | 0 <= k < i :: chain[k].token != token
      {
        i := i + 1;
      }
      FindIs(chain, token, i);
    }

    method OlderThan(token: Token) returns (r: Option<Token>)
      ensures r == Older(chain, token)
    {
      var i := 1;
      while i < |chain| && chain[i].token != token
        invariant 1 <= i && (i <= |chain| || |chain| == 0)
        invariant forall k | 1 <= k < i && k < |chain| :: chain[k].token != token
      {
        i := i + 1;
      }
      if |chain| > 0 {
        FindIs(chain[1..], token, i - 1);
      }
      return if i < |chain| then Some(chain[i - 1].token) else None;
    }
  }

  lemma FindIs(chain: seq<Link>, token: Token, i: nat)
    requires i <= |chain| && (i < |chain| ==> chain[i].token == token)
    requires forall k | 0 <= k < i :: chain[k].token != token
    ensures Find(chain, token) == i
  {
  }
}
