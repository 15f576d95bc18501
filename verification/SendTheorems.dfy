/**
 What the send path promises, over every interleaving of sends with aborts.
 */
module SendTheorems {
  import opened MessageLog
  import opened SendPath
  import opened SendSteps
  import SyncRun

  predicate Run(s: Db, es: seq<Event>)
    decreases |es|
  {
    if es == [] then true
    else Enabled(s, es[0]) && Run(Do(s, es[0]), es[1..])
  }

  function After(s: Db, es: seq<Event>): Db
    requires Run(s, es)
    decreases |es|
  {
    if es == [] then s else After(Do(s, es[0]), es[1..])
  }

  lemma {:induction false} RunKeepsInv(s: Db, es: seq<Event>)
    requires Inv(s) && Run(s, es)
    ensures Inv(After(s, es))
    decreases |es|
  {
    if es != [] {
      Step(s, es[0]);
      RunKeepsInv(Do(s, es[0]), es[1..]);
    }
  }

  // --- the ordinals -------------------------------------------------------------

  ghost predicate Taken(rows: seq<Row>, c: nat, k: int) {
    exists i :: 0 <= i < |rows| && rows[i].conv == c && rows[i].seqNo == k
  }

  lemma DenseIsExact(rows: seq<Row>, c: nat, n: nat, k: int)
    requires Dense(rows, c, n)
    ensures Taken(rows, c, k) <==> 1 <= k <= n
  {
    if 1 <= k <= n {
      assert InRoom(rows, c)[k - 1] in rows;
    }
    if Taken(rows, c, k) {
      var i :| 0 <= i < |rows| && rows[i].conv == c && rows[i].seqNo == k;
      DenseBounds(rows, c, n, i);
    }
  }

  /** COMMIT ORDER IS LOG ORDER, AND SEQS ARE DENSE.  In every reachable state the
      committed rows ascend in `logSeq` in the order they committed, the seqs of
      each conversation are exactly 1, ..., last_seq with no hole, each taken once,
      and the two ordinals agree inside a conversation. */
  lemma OrdinalsAreSound(s: Db, es: seq<Event>, c: nat, k: int)
    requires Init(s) && Run(s, es) && c in After(s, es).lastSeq
    ensures var t := After(s, es);
            && LogOk(t.rows, t.counter)
            && (Taken(t.rows, c, k) <==> 1 <= k <= t.lastSeq[c])
            && |InRoom(t.rows, c)| == t.lastSeq[c]
  {
    InitKeepsInv(s);
    RunKeepsInv(s, es);
    DenseIsExact(After(s, es).rows, c, After(s, es).lastSeq[c], k);
  }

  lemma QuietStepGrows(s: Db, e: Event)
    requires Enabled(s, e) && !Commits(e) && !e.OtherCommit?
    ensures var t := Do(s, e); t.rows == s.rows && t.lastSeq == s.lastSeq && t.counter == s.counter
  {
  }

  lemma CommitGrows(s: Db, e: Event)
    requires Inv(s) && Enabled(s, e) && (Commits(e) || e.OtherCommit?)
    ensures var t := Do(s, e);
            && t.counter == s.counter + 1
            && (e.OtherCommit? ==> t.rows == s.rows && t.lastSeq == s.lastSeq)
            && (Commits(e) ==> t.rows == s.rows + [s.txs[e.t].row] && s.txs[e.t].row.logSeq == t.counter && LogOk(t.rows, t.counter))
  {
    assert TxOk(s, s.txs[e.t]);
    if Commits(e) {
      CommitKeepsRows(s, e.t);
    }
  }

  /** ONLY A COMMIT MOVES A COUNTER, told or untold: a losing, refused or aborted send leaves
      both as they were. */
  lemma StepGrows(s: Db, e: Event)
    requires Inv(s) && Enabled(s, e)
    ensures var t := Do(s, e);
            || (!Commits(e) && !e.OtherCommit? && t.rows == s.rows && t.lastSeq == s.lastSeq && t.counter == s.counter)
            || (e.OtherCommit? && t.rows == s.rows && t.lastSeq == s.lastSeq && t.counter == s.counter + 1)
            || (Commits(e) && t.rows == s.rows + [s.txs[e.t].row] && t.counter == s.counter + 1
                && s.txs[e.t].row.logSeq == t.counter && LogOk(t.rows, t.counter))
  {
    if Commits(e) || e.OtherCommit? {
      CommitGrows(s, e);
    } else {
      QuietStepGrows(s, e);
    }
  }

  /** Nothing is taken away, and what is added lies above the counter there was. */
  predicate Grown(a: Db, b: Db) {
    && a.rows <= b.rows && a.counter <= b.counter
    && forall i | |a.rows| <= i < |b.rows| :: b.rows[i].logSeq > a.counter
  }

  lemma {:induction false} RunIsGrown(s: Db, es: seq<Event>)
    requires Inv(s) && Run(s, es)
    ensures Grown(s, After(s, es))
    decreases |es|
  {
    if es != [] {
      Step(s, es[0]);
      StepGrows(s, es[0]);
      RunIsGrown(Do(s, es[0]), es[1..]);
    }
  }

  /** A READER NEVER MISSES.  Whoever read the counter at N and later sees more of
      the log sees only rows above N added: nothing ever appears at or below a
      cursor that has been handed out. */
  lemma NothingAppearsBelowTheCounter(s: Db, es: seq<Event>)
    requires Inv(s) && Run(s, es)
    ensures var t := After(s, es);
            && s.rows <= t.rows && s.counter <= t.counter
            && forall i | |s.rows| <= i < |t.rows| :: t.rows[i].logSeq > s.counter
  {
    RunIsGrown(s, es);
  }

  /** So a page may read the head first and the rows by a later snapshot: what it
      finds at or below that head is what was committed when the head was read. */
  lemma LateSnapshotReadsTheSame(s: Db, es: seq<Event>, rooms: set<nat>, after: nat)
    requires Inv(s) && Run(s, es)
    ensures Scan(After(s, es).rows, rooms, after, s.counter) == Scan(s.rows, rooms, after, s.counter)
  {
    NothingAppearsBelowTheCounter(s, es);
    ScanIgnoresAbove(s.rows, After(s, es).rows, rooms, after, s.counter);
  }

  lemma {:induction false} ScanIgnoresAbove(rows: seq<Row>, more: seq<Row>, rooms: set<nat>, after: nat, upTo: nat)
    requires rows <= more && forall i | |rows| <= i < |more| :: more[i].logSeq > upTo
    ensures Scan(more, rooms, after, upTo) == Scan(rows, rooms, after, upTo)
    decreases |more|
  {
    if |more| > |rows| {
      ScanIgnoresAbove(rows, more[..|more| - 1], rooms, after, upTo);
    } else {
      assert more == rows;
    }
  }

  // --- idempotence --------------------------------------------------------------

  lemma KeyIsOneRow(rows: seq<Row>, a: Row, b: Row, q: Send)
    requires KeysUnique(rows) && a in rows && b in rows && SameKey(a, q)
    requires SameKey(b, q)
    ensures a == b
  {
  }

  /** ONE KEY, ONE ROW.  Any two sends under one key that succeed, in whatever
      conversations they asked for and however they raced, return one and the same
      committed row. */
  lemma OneKeyOneRow(s: Db, es: seq<Event>, a: nat, b: nat)
    requires Init(s) && Run(s, es)
    requires var t := After(s, es);
             && a in t.txs && b in t.txs
             && t.txs[a].Done? && t.txs[a].outcome.Sent? && t.txs[b].Done? && t.txs[b].outcome.Sent?
             && t.txs[a].req.author == t.txs[b].req.author && t.txs[a].req.client == t.txs[b].req.client
    ensures var t := After(s, es); t.txs[a].outcome.row == t.txs[b].outcome.row && t.txs[a].outcome.row in t.rows
  {
    InitKeepsInv(s);
    RunKeepsInv(s, es);
    var t := After(s, es);
    assert TxOk(t, t.txs[a]) && TxOk(t, t.txs[b]);
    KeyIsOneRow(t.rows, t.txs[a].outcome.row, t.txs[b].outcome.row, t.txs[a].req);
  }

  /** The unique index never makes an insert wait: whoever is inserting holds the
      counter, so no other transaction has an uncommitted row at all. */
  lemma InsertNeverWaits(s: Db, t: nat, u: nat)
    requires Inv(s) && t in s.txs && u in s.txs && t != u && s.txs[t].DrewLog?
    ensures !s.txs[u].Inserted?
  {
    assert Apart(s.txs[t], s.txs[u]);
  }

  /** The loser of a race under one key is answered with the winner's row. */
  lemma LoserGetsTheWinner(s: Db, t: nat, w: Row)
    requires Inv(s) && Enabled(s, ReadBack(t)) && w in s.rows
    requires SameKey(w, s.txs[t].req)
    ensures Do(s, ReadBack(t)).txs[t].outcome == Sent(w, true)
  {
    var q := s.txs[t].req;
    var i :| 0 <= i < |s.rows| && s.rows[i] == w;
    assert SameKey(s.rows[i], q);
    KeyIsOneRow(s.rows, ByKey(s.rows, q), w, q);
  }

  /** A send whose uploads the winner under its own key used up is answered with the
      winner's row, never refused; and one is refused for its uploads only when no
      row has its key. */
  lemma UploadLoserGetsTheWinner(s: Db, t: nat, u: nat)
    requires Inv(s) && Enabled(s, ReadBack(t)) && s.txs[t].race.UploadGone?
    ensures u in s.txs[t].req.uploads && u in s.consumed && SameKey(s.consumed[u], s.txs[t].req) ==>
              Do(s, ReadBack(t)).txs[t].outcome == Sent(s.consumed[u], true)
    ensures Do(s, ReadBack(t)).txs[t].outcome.Refused? <==> !KeyIn(s.rows, s.txs[t].req)
  {
    if u in s.consumed && SameKey(s.consumed[u], s.txs[t].req) {
      LoserGetsTheWinner(s, t, s.consumed[u]);
    }
  }

  /** The re-read after a unique violation always finds the row. */
  lemma ViolationIsAnswered(s: Db, t: nat)
    requires Inv(s) && Enabled(s, ReadBack(t)) && s.txs[t].race.KeyTaken?
    ensures Do(s, ReadBack(t)).txs[t].outcome.Sent?
    ensures Do(s, ReadBack(t)).txs[t].outcome.duplicate
  {
    assert TxOk(s, s.txs[t]);
  }

  // --- conservation -------------------------------------------------------------

  /** Send `t` committed row `r` itself and its caller was told so. */
  predicate Tells(s: Db, t: nat, r: Row) {
    && t in s.txs
    && s.txs[t].Done?
    && s.txs[t].outcome == Sent(r, false)
  }

  /** Send `t` committed row `r` itself, whatever its caller was told. */
  predicate Wins(s: Db, t: nat, r: Row) {
    Tells(s, t, r) || (t in s.txs && s.txs[t].Untold? && s.txs[t].row == r)
  }

  /** Each committed row has the one send that committed it. */
  ghost predicate Paired(s: Db) {
    && (forall r | r in s.rows :: exists t :: Wins(s, t, r))
    && (forall t, u, r | Wins(s, t, r) && Wins(s, u, r) :: t == u)
  }

  lemma QuietStepWins(s: Db, e: Event, t: nat, r: Row)
    requires Enabled(s, e) && !Commits(e)
    ensures Wins(Do(s, e), t, r) <==> Wins(s, t, r)
    ensures Tells(Do(s, e), t, r) <==> Tells(s, t, r)
  {
    if e.Begin? || e.OtherDraw? || e.OtherCommit? || e.Abort? {
      EndsWin(s, e, t, r);
    } else {
      StatementWins(s, e, t, r);
    }
  }

  lemma EndsWin(s: Db, e: Event, t: nat, r: Row)
    requires Enabled(s, e)
    requires (e.Begin? || e.OtherDraw? || e.OtherCommit? || e.Abort?)
    ensures Wins(Do(s, e), t, r) <==> Wins(s, t, r)
    ensures Tells(Do(s, e), t, r) <==> Tells(s, t, r)
  {
  }

  lemma StatementWins(s: Db, e: Event, t: nat, r: Row)
    requires Enabled(s, e)
    requires (e.Check? || e.Resolve? || e.DrawSeq? || e.DrawLog? || e.Insert? || e.ReadBack?)
    ensures Wins(Do(s, e), t, r) <==> Wins(s, t, r)
    ensures Tells(Do(s, e), t, r) <==> Tells(s, t, r)
  {
  }

  lemma CommitWins(s: Db, e: Event, t: nat, r: Row)
    requires Enabled(s, e) && Commits(e)
    ensures Wins(Do(s, e), t, r) <==> Wins(s, t, r) || (t == e.t && r == s.txs[e.t].row)
    ensures Tells(Do(s, e), t, r) <==> Tells(s, t, r) || (t == e.t && r == s.txs[e.t].row && e.Commit?)
  {
  }

  lemma WinnerIsIn(s: Db, t: nat, r: Row)
    requires Inv(s) && Wins(s, t, r)
    ensures r in s.rows
  {
    assert TxOk(s, s.txs[t]);
  }

  lemma StepKeepsPaired(s: Db, e: Event)
    requires Inv(s) && Paired(s) && Enabled(s, e)
    ensures Paired(Do(s, e))
  {
    var n := Do(s, e);
    if Commits(e) {
      CommitPairs(s, e);
    } else {
      forall t, r ensures Wins(n, t, r) <==> Wins(s, t, r) { QuietStepWins(s, e, t, r); }
      StepGrows(s, e);
    }
  }

  lemma CommitPairs(s: Db, e: Event)
    requires Inv(s) && Paired(s) && Enabled(s, e) && Commits(e)
    ensures Paired(Do(s, e))
  {
    var n, row := Do(s, e), s.txs[e.t].row;
    forall t, r ensures Wins(n, t, r) <==> Wins(s, t, r) || (t == e.t && r == row) { CommitWins(s, e, t, r); }
    forall t, r | Wins(s, t, r) ensures r in s.rows { WinnerIsIn(s, t, r); }
    forall r | r in n.rows ensures exists t :: Wins(n, t, r) {
      if r in s.rows {
        var t :| Wins(s, t, r);
        assert Wins(n, t, r);
      } else {
        assert Wins(n, e.t, row);
      }
    }
  }

  lemma {:induction false} RunKeepsPaired(s: Db, es: seq<Event>)
    requires Inv(s) && Paired(s) && Run(s, es)
    ensures Paired(After(s, es))
    decreases |es|
  {
    if es != [] {
      Step(s, es[0]);
      StepKeepsPaired(s, es[0]);
      RunKeepsPaired(Do(s, es[0]), es[1..]);
    }
  }

  /** CONSERVATION.  In every reachable state the committed rows and the sends that
      committed one are paired off: each row has exactly one of them, told or untold, and
      each of them has its row in the log.  Every other send, refused, aborted, replayed or
      beaten, committed nothing. */
  lemma EachRowHasOneSender(s: Db, es: seq<Event>)
    requires Init(s) && Run(s, es)
    ensures var t := After(s, es);
            && (forall r | r in t.rows :: exists w :: Wins(t, w, r))
            && (forall w, r | Wins(t, w, r) :: r in t.rows)
            && (forall w, v, r | Wins(t, w, r) && Wins(t, v, r) :: w == v)
  {
    InitKeepsInv(s);
    RunKeepsPaired(s, es);
    RunKeepsInv(s, es);
    var t := After(s, es);
    forall w, r | Wins(t, w, r) ensures r in t.rows { assert TxOk(t, t.txs[w]); }
  }

  // --- waiting ------------------------------------------------------------------

  /** WHAT A STATEMENT WAITS FOR: a row lock that another send holds, and nothing else.  A send
      that has not returned can always be given up. */
  lemma WaitsForLocksOnly(s: Db, t: nat, id: nat)
    requires t in s.txs && !Returned(s.txs[t])
    requires forall i | 0 <= i < |s.rows| :: s.rows[i].id != id
    ensures Enabled(s, Abort(t))
    ensures match s.txs[t]
            case Opened(_) => Enabled(s, Check(t))
            case Checked(q) => Enabled(s, Resolve(t)) || exists u, o :: u in q.uploads && o in s.txs && HoldsUpload(s.txs[o], u)
            case Resolved(q) => Enabled(s, DrawSeq(t)) || exists o :: o in s.txs && HoldsRoom(s.txs[o], q.conv)
            case DrewSeq(_, _) => Enabled(s, DrawLog(t)) || exists o :: o in s.txs && HoldsCounter(s.txs[o])
            case DrewLog(_, _, _) => Enabled(s, Insert(t, id))
            case Inserted(_, _) => Enabled(s, Commit(t)) && Enabled(s, CommitUntold(t))
            case Reread(_, _) => Enabled(s, ReadBack(t))
            case Drawing(_) => Enabled(s, OtherCommit(t))
            case _ => false
  {
    if s.txs[t].Checked? && !Enabled(s, Resolve(t)) {
      var u :| u in s.txs[t].req.uploads && !UploadFree(s, u);
      var o :| o in s.txs && HoldsUpload(s.txs[o], u);
    } else if s.txs[t].Resolved? && !Enabled(s, DrawSeq(t)) {
      var o :| o in s.txs && HoldsRoom(s.txs[o], s.txs[t].req.conv);
    } else if s.txs[t].DrewSeq? && !Enabled(s, DrawLog(t)) {
      var o :| o in s.txs && HoldsCounter(s.txs[o]);
    }
  }

  lemma {:induction false} SomeIdIsFresh(rows: seq<Row>) returns (id: nat)
    ensures forall i | 0 <= i < |rows| :: rows[i].id < id
    decreases |rows|
  {
    id := 0;
    if rows != [] {
      var init, last := rows[..|rows| - 1], rows[|rows| - 1];
      var above := SomeIdIsFresh(init);
      id := if above <= last.id then last.id + 1 else above;
      forall i | 0 <= i < |rows| ensures rows[i].id < id { assert i < |init| ==> rows[i] == init[i]; }
    }
  }

  /** SENDS NEVER DEADLOCK.  While any send has not returned, some send can go on with its own
      next statement, whatever locks are held. */
  lemma SomeSendGoesOn(s: Db, t: nat) returns (e: Event)
    requires t in s.txs && !Returned(s.txs[t])
    ensures Enabled(s, e) && !e.Abort? && !e.Begin? && !e.OtherDraw?
  {
    var id := SomeIdIsFresh(s.rows);
    assert Fresh(s, id);
    if o :| o in s.txs && HoldsCounter(s.txs[o]) {
      e := if s.txs[o].DrewLog? then Insert(o, id) else if s.txs[o].Inserted? then Commit(o) else OtherCommit(o);
    } else if o :| o in s.txs && s.txs[o].DrewSeq? {
      e := DrawLog(o);
    } else if o :| o in s.txs && s.txs[o].Resolved? {
      e := DrawSeq(o);
    } else {
      e := if s.txs[t].Opened? then Check(t) else if s.txs[t].Checked? then Resolve(t) else ReadBack(t);
    }
  }

  // --- a commit whose answer is lost --------------------------------------------

  /** The rows whose COMMIT was answered along a run. */
  function Answered(s: Db, es: seq<Event>): set<Row>
    requires Run(s, es)
    decreases |es|
  {
    if es == [] then {}
    else (if es[0].Commit? then {s.txs[es[0].t].row} else {}) + Answered(Do(s, es[0]), es[1..])
  }

  ghost predicate Told(s: Db, r: Row) { exists t :: Tells(s, t, r) }

  lemma StepTells(s: Db, e: Event, r: Row)
    requires Enabled(s, e)
    ensures Told(Do(s, e), r) <==> Told(s, r) || (e.Commit? && r == s.txs[e.t].row)
  {
    forall t ensures Tells(Do(s, e), t, r) <==> Tells(s, t, r) || (e.Commit? && t == e.t && r == s.txs[e.t].row) {
      if Commits(e) { CommitWins(s, e, t, r); } else { QuietStepWins(s, e, t, r); }
    }
    if Told(s, r) {
      var t :| Tells(s, t, r);
      assert Tells(Do(s, e), t, r);
    }
    if e.Commit? && r == s.txs[e.t].row { assert Tells(Do(s, e), e.t, r); }
  }

  lemma {:induction false} RunTells(s: Db, es: seq<Event>, r: Row)
    requires Run(s, es)
    ensures Told(After(s, es), r) <==> r in Answered(s, es) || Told(s, r)
    decreases |es|
  {
    if es != [] {
      StepTells(s, es[0], r);
      RunTells(Do(s, es[0]), es[1..], r);
    }
  }

  /** A ROW HAS A SENDER THAT WAS TOLD exactly when its COMMIT was answered; without that
      answer its one committer heard of a failure. */
  lemma ToldIff(s: Db, es: seq<Event>, r: Row)
    requires Init(s) && Run(s, es) && r in After(s, es).rows
    ensures var t := After(s, es);
            && (Told(t, r) <==> r in Answered(s, es))
            && (r !in Answered(s, es) ==> exists w :: Wins(t, w, r) && Answer(t.txs[w]) == Refused(Failed))
  {
    RunTells(s, es, r);
    EachRowHasOneSender(s, es);
    var t := After(s, es);
    var w :| Wins(t, w, r);
    if r !in Answered(s, es) {
      assert !Tells(t, w, r);
    }
  }

  /** One send alone, whose COMMIT goes through with its answer lost. */
  function LostAnswer(q: Send): seq<Event> {
    [Begin(0, q), Check(0), Resolve(0), DrawSeq(0), DrawLog(0), Insert(0, 0), CommitUntold(0)]
  }

  lemma RunCons(s: Db, e: Event, es: seq<Event>)
    requires Enabled(s, e) && Run(Do(s, e), es)
    ensures Run(s, [e] + es) && After(s, [e] + es) == After(Do(s, e), es)
  {
    assert ([e] + es)[1..] == es;
  }

  /** A deployment with one transaction open. */
  function Only(s: Db, x: Tx): Db { s.(txs := map[0 := x]) }

  lemma OneStep(s: Db, e: Event, x: Tx, y: Tx, es: seq<Event>)
    requires Enabled(Only(s, x), e) && Do(Only(s, x), e) == Set(Only(s, x), 0, y) && Run(Only(s, y), es)
    ensures Run(Only(s, x), [e] + es) && After(Only(s, x), [e] + es) == After(Only(s, y), es)
  {
    assert Only(s, x).txs[0 := y] == map[0 := y];
    RunCons(Only(s, x), e, es);
  }

  /** Where the send stands before its statement `i`. */
  function Stage(q: Send, i: nat): Tx {
    match i
    case 1 => Opened(q)
    case 2 => Checked(q)
    case 3 => Resolved(q)
    case 4 => DrewSeq(q, 1)
    case 5 => DrewLog(q, 1, 1)
    case _ => Inserted(q, NewRow(q, 0, 1, 1))
  }

  predicate Alone(s: Db, q: Send) {
    Init(s) && q.conv in s.lastSeq && (q.conv, q.author) in s.members && q.uploads == []
  }

  lemma Statement(s: Db, q: Send, i: nat)
    requires Alone(s, q) && 1 <= i <= 5
    ensures Enabled(Only(s, Stage(q, i)), LostAnswer(q)[i])
    ensures Do(Only(s, Stage(q, i)), LostAnswer(q)[i]) == Set(Only(s, Stage(q, i)), 0, Stage(q, i + 1))
  {
  }

  /** Where the run ends. */
  function Lost(s: Db, q: Send): Db {
    var r := NewRow(q, 0, 1, 1);
    Only(Landed(s, Inserted(q, r)), Untold(q, r))
  }

  lemma {:induction false} Statements(s: Db, q: Send, i: nat)
    requires Alone(s, q) && 1 <= i <= 6
    ensures var es := LostAnswer(q)[i..];
            Run(Only(s, Stage(q, i)), es) && After(Only(s, Stage(q, i)), es) == Lost(s, q)
    decreases 6 - i
  {
    var x, es := Stage(q, i), LostAnswer(q);
    assert es[i..] == [es[i]] + es[i + 1..];
    if i == 6 {
      assert map[0 := x][0 := Untold(q, x.row)] == map[0 := Untold(q, x.row)];
      RunCons(Only(s, x), CommitUntold(0), []);
    } else {
      Statement(s, q, i);
      Statements(s, q, i + 1);
      OneStep(s, es[i], x, Stage(q, i + 1), es[i + 1..]);
    }
  }

  /** A COMMITTED ROW THAT NOBODY WAS TOLD OF: any member's send can end so. */
  lemma UntoldRowHasNoToldSender(s: Db, q: Send)
    requires Alone(s, q)
    ensures Run(s, LostAnswer(q))
    ensures var t := After(s, LostAnswer(q));
            && t.rows == [NewRow(q, 0, 1, 1)] && !Told(t, t.rows[0])
            && t.txs == map[0 := Untold(q, t.rows[0])] && Answer(t.txs[0]) == Refused(Failed)
  {
    var es := LostAnswer(q);
    Statements(s, q, 1);
    assert s.txs[0 := Opened(q)] == map[0 := Opened(q)] && es == [Begin(0, q)] + es[1..];
    RunCons(s, Begin(0, q), es[1..]);
  }

  /** All that a send begun after its key had a row can be. */
  predicate Replays(s: Db, t: nat, r: Row) {
    t in s.txs && !s.txs[t].Drawing? && SameKey(r, s.txs[t].req) ==>
      s.txs[t].Opened? || (s.txs[t].Done? && s.txs[t].outcome in {Sent(r, true), Refused(Failed)})
  }

  lemma OwnStepReplays(s: Db, e: Event, r: Row)
    requires Inv(s) && Enabled(s, e) && r in s.rows && Replays(s, e.t, r)
    ensures Replays(Do(s, e), e.t, r)
  {
    if e.Check? {
      if SameKey(r, s.txs[e.t].req) { CheckFinds(s, e.t, r); }
    } else if !e.Begin? && !e.OtherDraw? && !e.Abort? && !e.OtherCommit? {
      LaterStatement(s, e);
    }
  }

  /** A statement after the check is another key's, and stays so. */
  lemma LaterStatement(s: Db, e: Event)
    requires Enabled(s, e) && !e.Check? && !e.Begin? && !e.OtherDraw? && !e.Abort? && !e.OtherCommit?
    ensures !s.txs[e.t].Opened? && !s.txs[e.t].Drawing? && !s.txs[e.t].Done?
    ensures e.t in Do(s, e).txs && !Do(s, e).txs[e.t].Drawing? && Do(s, e).txs[e.t].req == s.txs[e.t].req
  {
  }

  lemma OtherStepReplays(s: Db, e: Event, t: nat, r: Row)
    requires Enabled(s, e) && t != e.t && Replays(s, t, r)
    ensures Replays(Do(s, e), t, r)
  {
    assert t in Do(s, e).txs <==> t in s.txs;
  }

  lemma {:induction false} RunReplays(s: Db, es: seq<Event>, t: nat, r: Row)
    requires Inv(s) && Run(s, es) && r in s.rows && Replays(s, t, r)
    ensures Replays(After(s, es), t, r)
    decreases |es|
  {
    if es != [] {
      Step(s, es[0]);
      StepGrows(s, es[0]);
      if es[0].t == t { OwnStepReplays(s, es[0], r); } else { OtherStepReplays(s, es[0], t, r); }
      RunReplays(Do(s, es[0]), es[1..], t, r);
    }
  }

  /** THE RETRY FINDS THE ROW.  A send begun after its key was committed, though the committer
      heard of a failure, draws nothing and commits nothing in any interleaving: it is not
      yet read, or answered with the committed row as a duplicate, or failed before its read;
      and its read is answered with that row. */
  lemma RetryIsAnswered(s: Db, es: seq<Event>, w: nat, r: Row, t: nat)
    requires Inv(s) && Run(s, es) && Wins(s, w, r) && t !in s.txs
    requires var n := After(s, es); t in n.txs && !n.txs[t].Drawing? && SameKey(r, n.txs[t].req)
    ensures var n := After(s, es);
            && (n.txs[t].Opened? || (n.txs[t].Done? && n.txs[t].outcome in {Sent(r, true), Refused(Failed)}))
            && (n.txs[t].Opened? ==> Do(n, Check(t)).txs[t] == Done(n.txs[t].req, Sent(r, true)))
  {
    WinnerIsIn(s, w, r);
    RunReplays(s, es, t, r);
    RunKeepsInv(s, es);
    RunIsGrown(s, es);
    var n := After(s, es);
    if n.txs[t].Opened? {
      CheckFinds(n, t, r);
    }
  }

  lemma CheckFinds(s: Db, t: nat, r: Row)
    requires Inv(s) && Enabled(s, Check(t)) && r in s.rows
    requires SameKey(r, s.txs[t].req)
    ensures Do(s, Check(t)).txs[t] == Done(s.txs[t].req, Sent(r, true))
  {
    var q := s.txs[t].req;
    var i :| 0 <= i < |s.rows| && s.rows[i] == r;
    assert SameKey(s.rows[i], q);
    KeyIsOneRow(s.rows, ByKey(s.rows, q), r, q);
  }

  // --- the log the device syncs against -----------------------------------------

  /** What a step of the send path is to the log: a commit, a draw, or nothing. */
  function LogEvents(s: Db, e: Event): seq<SyncRun.Event>
    requires Enabled(s, e)
  {
    if Commits(e) then [SyncRun.Commit(s.txs[e.t].row)] else if e.OtherCommit? then [SyncRun.Draw] else []
  }

  function LogRun(s: Db, es: seq<Event>): seq<SyncRun.Event>
    requires Run(s, es)
    decreases |es|
  {
    if es == [] then [] else LogEvents(s, es[0]) + LogRun(Do(s, es[0]), es[1..])
  }

  /** One step of the send path is no step of the log, or one that the log allows. */
  lemma StepBuildsTheLog(s: Db, e: Event, d: SyncRun.State)
    requires Inv(s) && Enabled(s, e) && d.log == s.rows && d.head == s.counter
    ensures var n, le := Do(s, e), LogEvents(s, e);
            if le == [] then n.rows == s.rows && n.counter == s.counter
            else |le| == 1 && SyncRun.Enabled(d, le[0])
                 && SyncRun.Do(d, le[0]).log == n.rows && SyncRun.Do(d, le[0]).head == n.counter
  {
    StepGrows(s, e);
  }

  /** REFINEMENT.  Every run of the send path is a run of the log that `SyncRun`
      assumes: the commits it makes are the commits a device may rely on. */
  lemma {:induction false} SendsBuildTheLog(s: Db, es: seq<Event>, d: SyncRun.State)
    requires Inv(s) && Run(s, es) && d.log == s.rows && d.head == s.counter
    ensures SyncRun.Run(d, LogRun(s, es))
    ensures var t := SyncRun.After(d, LogRun(s, es)); t.log == After(s, es).rows && t.head == After(s, es).counter
    decreases |es|
  {
    if es != [] {
      Step(s, es[0]);
      StepBuildsTheLog(s, es[0], d);
      var n := Do(s, es[0]);
      var le := LogEvents(s, es[0]);
      var rest := LogRun(n, es[1..]);
      if le == [] {
        SendsBuildTheLog(n, es[1..], d);
        assert le + rest == rest;
      } else {
        assert le + rest == [le[0]] + rest && ([le[0]] + rest)[1..] == rest;
        SendsBuildTheLog(n, es[1..], SyncRun.Do(d, le[0]));
      }
    }
  }
}
