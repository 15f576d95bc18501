/**
 Every statement of every interleaving keeps the invariant of `SendPath`.
 */
module SendSteps {
  import opened MessageLog
  import opened SendPath

  // --- locks --------------------------------------------------------------------

  predicate NoNewLocks(x: Tx, y: Tx) {
    && (HoldsCounter(y) ==> HoldsCounter(x))
    && ((y.DrewSeq? || y.DrewLog? || y.Inserted?) ==> HoldsRoom(x, y.req.conv))
    && ((y.Resolved? || y.DrewSeq? || y.DrewLog? || y.Inserted?) ==> forall u | u in y.req.uploads :: HoldsUpload(x, u))
  }

  lemma ApartAfter(x: Tx, y: Tx, z: Tx)
    requires Apart(x, z) && NoNewLocks(x, y)
    ensures Apart(y, z) && (Apart(z, x) ==> Apart(z, y))
  {
  }

  /** Replacing a transaction by one that holds no more keeps the locks exclusive. */
  lemma SetKeepsLocks(s: Db, t: nat, y: Tx)
    requires LocksOk(s) && t in s.txs && NoNewLocks(s.txs[t], y)
    ensures LocksOk(Set(s, t, y))
  {
    forall u | u in s.txs && u != t ensures Apart(y, s.txs[u]) && Apart(s.txs[u], y) {
      ApartAfter(s.txs[t], y, s.txs[u]);
    }
  }

  lemma DrawSeqKeepsLocks(s: Db, t: nat, y: Tx)
    requires LocksOk(s) && t in s.txs && s.txs[t].Resolved?
    requires RoomFree(s, s.txs[t].req.conv)
    requires y.DrewSeq? && y.req == s.txs[t].req
    ensures LocksOk(Set(s, t, y))
  {
    forall u | u in s.txs && u != t ensures Apart(y, s.txs[u]) && Apart(s.txs[u], y) {
      assert Apart(s.txs[t], s.txs[u]) && Apart(s.txs[u], s.txs[t]) && !HoldsRoom(s.txs[u], y.req.conv);
    }
  }

  lemma DrawLogKeepsLocks(s: Db, t: nat, y: Tx)
    requires LocksOk(s) && t in s.txs && s.txs[t].DrewSeq? && CounterFree(s)
    requires y.DrewLog? && y.req == s.txs[t].req
    ensures LocksOk(Set(s, t, y))
  {
    forall u | u in s.txs && u != t ensures Apart(y, s.txs[u]) && Apart(s.txs[u], y) {
      assert Apart(s.txs[t], s.txs[u]) && Apart(s.txs[u], s.txs[t]) && !HoldsCounter(s.txs[u]);
    }
  }

  lemma ResolveKeepsLocks(s: Db, t: nat, y: Tx)
    requires LocksOk(s) && t in s.txs && s.txs[t].Checked?
    requires y.Resolved? && y.req == s.txs[t].req && forall u | u in y.req.uploads :: UploadFree(s, u)
    ensures LocksOk(Set(s, t, y))
  {
    forall u | u in s.txs && u != t ensures Apart(y, s.txs[u]) && Apart(s.txs[u], y) {
      forall h | h in y.req.uploads ensures !HoldsUpload(s.txs[u], h) {
        assert UploadFree(s, h);
      }
    }
  }

  lemma OpenKeepsLocks(s: Db, t: nat, y: Tx)
    requires LocksOk(s) && t !in s.txs
    requires (y.Opened? || (y.Drawing? && CounterFree(s)))
    ensures LocksOk(Set(s, t, y))
  {
  }

  // --- steps that commit nothing ------------------------------------------------

  /** A step that only moves one transaction keeps everything committed. */
  lemma SetKeepsInv(s: Db, t: nat, y: Tx)
    requires Inv(s) && LocksOk(Set(s, t, y)) && TxOk(s, y)
    ensures Inv(Set(s, t, y))
  {
    var n := Set(s, t, y);
    forall u | u in n.txs ensures TxOk(n, n.txs[u]) {
      assert TxOk(s, n.txs[u]);
    }
  }

  lemma QuietStep(s: Db, e: Event)
    requires Inv(s) && Enabled(s, e)
    requires e.Check? || e.ReadBack? || (e.Abort? && !s.txs[e.t].Drawing?)
    ensures Inv(Do(s, e))
  {
    var y := Do(s, e).txs[e.t];
    assert TxOk(s, s.txs[e.t]);
    SetKeepsLocks(s, e.t, y);
    SetKeepsInv(s, e.t, y);
  }

  lemma ResolveStep(s: Db, t: nat)
    requires Inv(s) && Enabled(s, Resolve(t))
    ensures Inv(Do(s, Resolve(t)))
  {
    var y := Do(s, Resolve(t)).txs[t];
    if y.Resolved? {
      ResolveKeepsLocks(s, t, y);
    } else {
      SetKeepsLocks(s, t, y);
    }
    SetKeepsInv(s, t, y);
  }

  lemma DrawSeqStep(s: Db, t: nat)
    requires Inv(s) && Enabled(s, DrawSeq(t))
    ensures Inv(Do(s, DrawSeq(t)))
  {
    var y := Do(s, DrawSeq(t)).txs[t];
    if y.DrewSeq? {
      DrawSeqKeepsLocks(s, t, y);
    } else {
      SetKeepsLocks(s, t, y);
    }
    SetKeepsInv(s, t, y);
  }

  lemma DrawLogStep(s: Db, t: nat)
    requires Inv(s) && Enabled(s, DrawLog(t))
    ensures Inv(Do(s, DrawLog(t)))
  {
    var y := Do(s, DrawLog(t)).txs[t];
    assert TxOk(s, s.txs[t]);
    DrawLogKeepsLocks(s, t, y);
    SetKeepsInv(s, t, y);
  }

  lemma InsertStep(s: Db, t: nat, id: nat)
    requires Inv(s) && Enabled(s, Insert(t, id))
    ensures Inv(Do(s, Insert(t, id)))
  {
    var y := Do(s, Insert(t, id)).txs[t];
    assert TxOk(s, s.txs[t]);
    SetKeepsLocks(s, t, y);
    SetKeepsInv(s, t, y);
  }

  lemma OpenStep(s: Db, e: Event)
    requires Inv(s) && Enabled(s, e) && (e.Begin? || e.OtherDraw?)
    ensures Inv(Do(s, e))
  {
    var y := Do(s, e).txs[e.t];
    OpenKeepsLocks(s, e.t, y);
    SetKeepsInv(s, e.t, y);
  }

  lemma DropStep(s: Db, e: Event)
    requires Inv(s) && Enabled(s, e) && e.Abort? && s.txs[e.t].Drawing?
    ensures Inv(Do(s, e))
  {
    var n := Do(s, e);
    forall u | u in n.txs ensures TxOk(n, n.txs[u]) {
      assert TxOk(s, s.txs[u]);
    }
  }

  // --- steps that commit --------------------------------------------------------

  /** The other writers of the counter move it while nobody else holds it. */
  lemma OtherCommitStep(s: Db, t: nat)
    requires Inv(s) && Enabled(s, OtherCommit(t))
    ensures Inv(Do(s, OtherCommit(t)))
  {
    var n := Do(s, OtherCommit(t));
    assert TxOk(s, s.txs[t]);
    forall u | u in n.txs ensures TxOk(n, n.txs[u]) {
      assert TxOk(s, s.txs[u]);
      assert Apart(s.txs[t], s.txs[u]);
    }
  }

  lemma InRoomSnoc(rows: seq<Row>, r: Row, c: nat)
    ensures InRoom(rows + [r], c) == InRoom(rows, c) + if r.conv == c then [r] else []
  {
    assert (rows + [r])[..|rows|] == rows;
  }

  lemma DenseSnoc(rows: seq<Row>, r: Row, c: nat, n: nat)
    requires Dense(rows, c, n) && (r.conv == c ==> r.seqNo == n + 1)
    ensures Dense(rows + [r], c, if r.conv == c then n + 1 else n)
  {
    InRoomSnoc(rows, r, c);
  }

  lemma DenseBounds(rows: seq<Row>, c: nat, n: nat, i: nat)
    requires Dense(rows, c, n) && i < |rows| && rows[i].conv == c
    ensures 1 <= rows[i].seqNo <= n
  {
    assert rows[i] in rows;
    assert rows[i] in InRoom(rows, c);
  }

  /** The log grows by a row above every ordinal it has. */
  lemma LogGrows(s: Db, r: Row)
    requires RowsOk(s) && r.conv in s.lastSeq
    requires r.seqNo == s.lastSeq[r.conv] + 1 && r.logSeq == s.counter + 1
    requires Fresh(s, r.id)
    ensures LogOk(s.rows + [r], r.logSeq)
  {
    forall i | 0 <= i < |s.rows| && s.rows[i].conv == r.conv ensures s.rows[i].seqNo < r.seqNo {
      DenseBounds(s.rows, r.conv, s.lastSeq[r.conv], i);
    }
    LogSnoc(s.rows, s.counter, r);
  }

  lemma CommitKeepsDense(s: Db, t: nat, c: nat)
    requires Inv(s) && Enabled(s, Commit(t)) && c in Do(s, Commit(t)).lastSeq
    ensures Dense(Do(s, Commit(t)).rows, c, Do(s, Commit(t)).lastSeq[c])
  {
    assert TxOk(s, s.txs[t]);
    DenseSnoc(s.rows, s.txs[t].row, c, s.lastSeq[c]);
  }

  lemma CommitKeepsLog(s: Db, t: nat)
    requires Inv(s) && Enabled(s, Commit(t))
    ensures var n := Do(s, Commit(t)); LogOk(n.rows, n.counter) && KeysUnique(n.rows)
  {
    assert TxOk(s, s.txs[t]);
    LogGrows(s, s.txs[t].row);
  }

  lemma CommitKeepsRows(s: Db, t: nat)
    requires Inv(s) && Enabled(s, Commit(t))
    ensures RowsOk(Do(s, Commit(t)))
  {
    var n := Do(s, Commit(t));
    CommitKeepsLog(s, t);
    forall c | c in n.lastSeq ensures Dense(n.rows, c, n.lastSeq[c]) {
      CommitKeepsDense(s, t, c);
    }
  }

  lemma KeyInSnoc(rows: seq<Row>, r: Row, q: Send)
    ensures KeyIn(rows + [r], q) <==> KeyIn(rows, q) || SameKey(r, q)
  {
    var more := rows + [r];
    if KeyIn(rows, q) {
      var i :| 0 <= i < |rows| && SameKey(rows[i], q);
      assert more[i] == rows[i];
    }
    assert more[|rows|] == r;
  }

  /** A commit leaves every other transaction's draws current: it held the locks
      they would have needed. */
  lemma CommitKeepsOther(s: Db, t: nat, u: nat)
    requires Inv(s) && Enabled(s, Commit(t)) && u in s.txs && u != t
    ensures TxOk(Do(s, Commit(t)), s.txs[u])
  {
    var x, y := s.txs[t], s.txs[u];
    assert TxOk(s, x) && TxOk(s, y) && Apart(x, y);
    assert HoldsRoom(x, x.req.conv);
    if y.Reread? {
      KeyInSnoc(s.rows, x.row, y.req);
    }
  }

  lemma CommitStep(s: Db, t: nat)
    requires Inv(s) && Enabled(s, Commit(t))
    ensures Inv(Do(s, Commit(t)))
  {
    var n := Do(s, Commit(t));
    CommitKeepsRows(s, t);
    assert TxOk(s, s.txs[t]);
    SetKeepsLocks(s, t, n.txs[t]);
    forall u | u in n.txs ensures TxOk(n, n.txs[u]) {
      if u != t {
        CommitKeepsOther(s, t, u);
      }
    }
  }

  /** A commit whose answer is lost differs from one that is answered in what its own
      transaction knows. */
  lemma UntoldIs(s: Db, t: nat)
    requires Enabled(s, CommitUntold(t))
    ensures Do(s, CommitUntold(t)) == Forget(Do(s, Commit(t)), t)
  {
    assert Do(s, CommitUntold(t)).txs == Forget(Do(s, Commit(t)), t).txs;
  }

  function Forget(s: Db, t: nat): Db
    requires t in s.txs && s.txs[t].Done? && s.txs[t].outcome.Sent?
  {
    Set(s, t, Untold(s.txs[t].req, s.txs[t].outcome.row))
  }

  lemma ForgetKeepsInv(s: Db, t: nat)
    requires Inv(s) && t in s.txs && s.txs[t].Done? && s.txs[t].outcome.Sent?
    ensures Inv(Forget(s, t))
  {
    var y := Untold(s.txs[t].req, s.txs[t].outcome.row);
    assert TxOk(s, s.txs[t]);
    SetKeepsLocks(s, t, y);
    SetKeepsInv(s, t, y);
  }

  lemma UntoldStep(s: Db, t: nat)
    requires Inv(s) && Enabled(s, CommitUntold(t))
    ensures Inv(Do(s, CommitUntold(t)))
  {
    CommitStep(s, t);
    UntoldIs(s, t);
    ForgetKeepsInv(Do(s, Commit(t)), t);
  }

  lemma Step(s: Db, e: Event)
    requires Inv(s) && Enabled(s, e)
    ensures Inv(Do(s, e))
  {
    match e
    case Begin(_, _) => OpenStep(s, e);
    case OtherDraw(_) => OpenStep(s, e);
    case Check(_) => QuietStep(s, e);
    case ReadBack(_) => QuietStep(s, e);
    case Abort(t) => if s.txs[t].Drawing? { DropStep(s, e); } else { QuietStep(s, e); }
    case Resolve(t) => ResolveStep(s, t);
    case DrawSeq(t) => DrawSeqStep(s, t);
    case DrawLog(t) => DrawLogStep(s, t);
    case Insert(t, id) => InsertStep(s, t, id);
    case Commit(t) => CommitStep(s, t);
    case CommitUntold(t) => UntoldStep(s, t);
    case OtherCommit(t) => OtherCommitStep(s, t);
  }

  lemma InitKeepsInv(s: Db)
    requires Init(s)
    ensures Inv(s)
  {
  }
}
