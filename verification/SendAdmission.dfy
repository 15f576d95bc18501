/**
 Who may send, and with what: only members of the conversation, and each uploaded file
 once, by the one who uploaded it.
 */
module SendAdmission {
  import opened MessageLog
  import opened SendPath
  import opened SendSteps
  import opened SendTheorems

  // --- one statement --------------------------------------------------------------

  /** WHAT A CHECKED SEND IS ANSWERED WITH.  It is refused exactly when its conversation does
      not exist, or exists without its author; it goes back to look for its key exactly when
      a member names a file that is not there, not its own, used, or named twice; and
      otherwise it goes on. */
  lemma ResolveIs(s: Db, t: nat)
    requires Enabled(s, Resolve(t))
    ensures var q, y := s.txs[t].req, Do(s, Resolve(t)).txs[t];
            var usable := (forall u | u in q.uploads :: u in s.uploads && s.uploads[u] == q.author && u !in s.consumed)
                          && (forall i, j | 0 <= i < j < |q.uploads| :: q.uploads[i] != q.uploads[j]);
            && (y == Done(q, Refused(ConversationNotFound)) <==> q.conv !in s.lastSeq)
            && (y == Done(q, Refused(NotAMember)) <==> q.conv in s.lastSeq && (q.conv, q.author) !in s.members)
            && (y == Reread(q, UploadGone) <==> q.conv in s.lastSeq && (q.conv, q.author) in s.members && !usable)
            && (y == Resolved(q) <==> q.conv in s.lastSeq && (q.conv, q.author) in s.members && usable)
  {
  }

  /** And what the re-read after a lost race is answered with. */
  lemma ReadBackIs(s: Db, t: nat)
    requires Enabled(s, ReadBack(t))
    ensures var x, y := s.txs[t], Do(s, ReadBack(t)).txs[t];
            && y.Done? && y.req == x.req
            && (y.outcome.Sent? <==> exists i :: 0 <= i < |s.rows| && s.rows[i].author == x.req.author && s.rows[i].client == x.req.client)
            && (y.outcome == Refused(UploadNotFound) <==> !y.outcome.Sent? && x.race.UploadGone?)
            && (y.outcome == Refused(NotFound) <==> !y.outcome.Sent? && x.race.KeyTaken?)
  {
    var q := s.txs[t].req;
    if i :| 0 <= i < |s.rows| && s.rows[i].author == q.author && s.rows[i].client == q.client {
      assert SameKey(s.rows[i], q);
    }
    if KeyIn(s.rows, q) {
      var i :| 0 <= i < |s.rows| && SameKey(s.rows[i], q);
      assert s.rows[i].author == q.author && s.rows[i].client == q.client;
    }
  }

  // --- what holds throughout --------------------------------------------------------

  predicate Past(x: Tx) { x.Resolved? || x.DrewSeq? || x.DrewLog? || x.Inserted? }

  predicate Member(s: Db, c: nat, a: nat) { (c, a) in s.members }

  /** Past the check of its handles a send is its author's to make, and its files are still
      unused. */
  predicate TxAdmitted(s: Db, x: Tx) {
    && (Past(x) ==> Member(s, x.req.conv, x.req.author) && Usable(s, x.req))
    && (x.Inserted? ==> x.row.conv == x.req.conv && x.row.author == x.req.author)
  }

  ghost predicate RowsAdmitted(s: Db) { forall r | r in s.rows :: Member(s, r.conv, r.author) }

  /** A used file was its sender's, and its row is there. */
  predicate UseOk(s: Db, u: nat)
    requires u in s.consumed
  {
    s.consumed[u] in s.rows && u in s.uploads && s.uploads[u] == s.consumed[u].author
  }

  /** Send `t`, which committed `r`, used its files on it, and nothing else was. */
  ghost predicate UsedBy(s: Db, t: nat, r: Row)
    requires t in s.txs && !s.txs[t].Drawing?
  {
    forall u: nat :: u in s.txs[t].req.uploads <==> u in s.consumed && s.consumed[u] == r
  }

  ghost predicate WinsUse(s: Db) { forall t, r {:trigger Wins(s, t, r)} | Wins(s, t, r) :: UsedBy(s, t, r) }

  ghost predicate Admitted(s: Db) {
    && RowsAdmitted(s)
    && (forall t | t in s.txs :: TxAdmitted(s, s.txs[t]))
    && (forall u | u in s.consumed :: UseOk(s, u))
    && WinsUse(s)
  }

  // --- steps that commit nothing ------------------------------------------------------

  /** A step that commits no row leaves who may what as it was. */
  lemma QuietKeepsRest(s: Db, e: Event)
    requires Enabled(s, e) && !Commits(e)
    ensures var n := Do(s, e); n.rows == s.rows && n.members == s.members && n.uploads == s.uploads && n.consumed == s.consumed
  {
  }

  lemma OwnTxAdmitted(s: Db, e: Event)
    requires Admitted(s) && Enabled(s, e) && !Commits(e) && e.t in Do(s, e).txs
    ensures TxAdmitted(Do(s, e), Do(s, e).txs[e.t])
  {
    QuietKeepsRest(s, e);
    if e.Resolve? {
      ResolveIs(s, e.t);
    } else if e.t in s.txs {
      assert TxAdmitted(s, s.txs[e.t]);
    }
  }

  lemma QuietKeepsOthers(s: Db, e: Event, t: nat)
    requires Enabled(s, e) && t != e.t
    ensures t in Do(s, e).txs <==> t in s.txs
    ensures t in s.txs ==> Do(s, e).txs[t] == s.txs[t]
  {
  }

  lemma WinnersStay(s: Db, e: Event, t: nat, r: Row)
    requires Enabled(s, e) && Wins(s, t, r)
    ensures t in Do(s, e).txs && Do(s, e).txs[t] == s.txs[t]
  {
  }

  lemma QuietAdmits(s: Db, e: Event)
    requires Admitted(s) && Enabled(s, e) && !Commits(e)
    ensures Admitted(Do(s, e))
  {
    var n := Do(s, e);
    QuietKeepsRest(s, e);
    forall t | t in n.txs ensures TxAdmitted(n, n.txs[t]) {
      if t == e.t { OwnTxAdmitted(s, e); } else { QuietKeepsOthers(s, e, t); assert TxAdmitted(s, s.txs[t]); }
    }
    forall u | u in n.consumed ensures UseOk(n, u) { assert UseOk(s, u); }
    forall t, r | Wins(n, t, r) ensures UsedBy(n, t, r) {
      QuietStepWins(s, e, t, r);
      WinnersStay(s, e, t, r);
      assert UsedBy(s, t, r);
    }
  }

  // --- steps that commit ----------------------------------------------------------------

  lemma CommitIs(s: Db, e: Event)
    requires Enabled(s, e) && Commits(e)
    ensures var n, x := Do(s, e), s.txs[e.t];
            && n.rows == s.rows + [x.row] && n.members == s.members && n.uploads == s.uploads
            && n.consumed.Keys == s.consumed.Keys + (set u | u in x.req.uploads)
            && (forall u | u in n.consumed :: n.consumed[u] == if u in x.req.uploads then x.row else s.consumed[u])
            && n.txs.Keys == s.txs.Keys && (forall t | t in s.txs && t != e.t :: n.txs[t] == s.txs[t])
            && n.txs[e.t].req == x.req && (n.txs[e.t].Done? || n.txs[e.t].Untold?)
  {
  }

  /** Another send past its check holds its files locked. */
  lemma FilesAreApart(s: Db, t: nat, u: nat)
    requires LocksOk(s) && t in s.txs && u in s.txs && t != u && s.txs[t].Inserted? && Past(s.txs[u])
    ensures forall f | f in s.txs[u].req.uploads :: f !in s.txs[t].req.uploads
  {
    var x, y := s.txs[t], s.txs[u];
    assert Apart(x, y);
    forall f | f in y.req.uploads ensures f !in x.req.uploads { assert HoldsUpload(y, f); }
  }

  /** So none of them is used up. */
  lemma CommitLeavesOthers(s: Db, e: Event, t: nat)
    requires Inv(s) && Admitted(s) && Enabled(s, e) && Commits(e) && t in s.txs && t != e.t
    ensures t in Do(s, e).txs && TxAdmitted(Do(s, e), Do(s, e).txs[t])
  {
    CommitIs(s, e);
    assert TxAdmitted(s, s.txs[t]);
    if Past(s.txs[t]) {
      FilesAreApart(s, e.t, t);
    }
  }

  lemma CommitUses(s: Db, e: Event, t: nat, r: Row)
    requires Inv(s) && Admitted(s) && Enabled(s, e) && Commits(e) && Wins(Do(s, e), t, r)
    ensures UsedBy(Do(s, e), t, r)
  {
    CommitWins(s, e, t, r);
    if Wins(s, t, r) {
      OlderUseStays(s, e, t, r);
    } else {
      NewUse(s, e);
    }
  }

  lemma RowIsNew(s: Db, e: Event)
    requires Inv(s) && Enabled(s, e) && Commits(e)
    ensures s.txs[e.t].row !in s.rows
  {
    assert TxOk(s, s.txs[e.t]);
  }

  lemma OlderUseStays(s: Db, e: Event, t: nat, r: Row)
    requires Inv(s) && Admitted(s) && Enabled(s, e) && Commits(e) && Wins(s, t, r)
    ensures UsedBy(Do(s, e), t, r)
  {
    CommitIs(s, e);
    RowIsNew(s, e);
    WinnerIsIn(s, t, r);
    UseIsApart(s, e, t, r);
  }

  lemma UseIsApart(s: Db, e: Event, t: nat, r: Row)
    requires Admitted(s) && Enabled(s, e) && Commits(e) && Wins(s, t, r)
    ensures UsedBy(s, t, r) && t != e.t
    ensures forall u | u in s.txs[e.t].req.uploads :: u !in s.consumed
  {
    assert TxAdmitted(s, s.txs[e.t]);
  }

  lemma NewUse(s: Db, e: Event)
    requires Inv(s) && Admitted(s) && Enabled(s, e) && Commits(e)
    ensures UsedBy(Do(s, e), e.t, s.txs[e.t].row)
  {
    CommitIs(s, e);
    RowIsNew(s, e);
    forall u | u in s.consumed ensures s.consumed[u] != s.txs[e.t].row { assert UseOk(s, u); }
  }

  lemma CommitAdmits(s: Db, e: Event)
    requires Inv(s) && Admitted(s) && Enabled(s, e) && Commits(e)
    ensures Admitted(Do(s, e))
  {
    var n := Do(s, e);
    forall t | t in n.txs ensures TxAdmitted(n, n.txs[t]) { CommitTxAdmitted(s, e, t); }
    CommitKeepsUses(s, e);
    forall t, r | Wins(n, t, r) ensures UsedBy(n, t, r) { CommitUses(s, e, t, r); }
  }

  lemma CommitTxAdmitted(s: Db, e: Event, t: nat)
    requires Inv(s) && Admitted(s) && Enabled(s, e) && Commits(e) && (t in s.txs || t == e.t)
    ensures t in Do(s, e).txs
    ensures TxAdmitted(Do(s, e), Do(s, e).txs[t])
  {
    if t != e.t { CommitLeavesOthers(s, e, t); }
  }

  lemma CommitKeepsUses(s: Db, e: Event)
    requires Inv(s) && Admitted(s) && Enabled(s, e) && Commits(e)
    ensures RowsAdmitted(Do(s, e)) && forall u | u in Do(s, e).consumed :: UseOk(Do(s, e), u)
  {
    CommitIs(s, e);
    assert TxAdmitted(s, s.txs[e.t]);
    forall u | u in Do(s, e).consumed ensures UseOk(Do(s, e), u) { CommitKeepsUse(s, e, u); }
  }

  lemma CommitKeepsUse(s: Db, e: Event, u: nat)
    requires Admitted(s) && Enabled(s, e) && Commits(e) && u in Do(s, e).consumed
    ensures UseOk(Do(s, e), u)
  {
    var n, x := Do(s, e), s.txs[e.t];
    CommitIs(s, e);
    assert TxAdmitted(s, x);
    if u in x.req.uploads { assert x.row in n.rows; } else { assert UseOk(s, u); }
  }

  lemma {:induction false} RunAdmits(s: Db, es: seq<Event>)
    requires Inv(s) && Admitted(s) && Run(s, es)
    ensures Admitted(After(s, es))
    decreases |es|
  {
    if es != [] {
      Step(s, es[0]);
      if Commits(es[0]) { CommitAdmits(s, es[0]); } else { QuietAdmits(s, es[0]); }
      RunAdmits(Do(s, es[0]), es[1..]);
    }
  }

  // --- the promises -----------------------------------------------------------------------

  /** ONLY MEMBERS SEND.  In every reachable state every committed row is by a member of its
      conversation, and so is every send that has got past its check. */
  lemma OnlyMembersSend(s: Db, es: seq<Event>, t: nat)
    requires Init(s) && Run(s, es)
    ensures var n := After(s, es);
            && (forall r | r in n.rows :: (r.conv, r.author) in n.members)
            && (t in n.txs && (n.txs[t].Resolved? || n.txs[t].DrewSeq? || n.txs[t].DrewLog? || n.txs[t].Inserted?) ==>
                  (n.txs[t].req.conv, n.txs[t].req.author) in n.members)
  {
    InitKeepsInv(s);
    RunAdmits(s, es);
    var n := After(s, es);
    forall r | r in n.rows ensures (r.conv, r.author) in n.members { assert Member(n, r.conv, r.author); }
    assert t in n.txs ==> TxAdmitted(n, n.txs[t]);
  }

  /** A FILE IS SENT ONCE, BY WHO UPLOADED IT.  In every reachable state a used file was
      uploaded by the author of the one row that used it; the send that committed a row,
      told or untold, used on it exactly the files it named. */
  lemma FilesAreSentOnce(s: Db, es: seq<Event>, u: nat, t: nat, r: Row)
    requires Init(s) && Run(s, es)
    ensures var n := After(s, es);
            && (u in n.consumed ==> n.consumed[u] in n.rows && u in n.uploads && n.uploads[u] == n.consumed[u].author)
            && (Wins(n, t, r) ==> (u in n.txs[t].req.uploads <==> u in n.consumed && n.consumed[u] == r))
  {
    InitKeepsInv(s);
    RunAdmits(s, es);
    var n := After(s, es);
    assert u in n.consumed ==> UseOk(n, u);
    if Wins(n, t, r) { assert UsedBy(n, t, r); }
  }
}
