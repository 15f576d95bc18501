/**
 `SendMessage` as concurrent transactions (internal/store/messages.go).

 Each transaction is where `attemptSend` stands between two statements.  A drawn
 ordinal is the row's committed value plus one, read under a row lock that is held
 to the end of the transaction, so a rollback un-draws it.  A lock that is taken
 makes the next statement wait: its step is not enabled.
 */
module SendPath {
  import opened MessageLog

  datatype Send = Send(conv: nat, author: nat, client: nat, uploads: seq<nat>)

  datatype Refusal = ConversationNotFound | NotAMember | UploadNotFound | NotFound | Failed

  datatype Outcome = Sent(row: Row, duplicate: bool) | Refused(why: Refusal)

  /** Why an attempt rolled back into a re-read by key. */
  datatype Race = KeyTaken | UploadGone

  datatype Tx =
    | Opened(req: Send)
    | Checked(req: Send)
    | Resolved(req: Send)
    | DrewSeq(req: Send, seqNo: nat)
    | DrewLog(req: Send, seqNo: nat, logSeq: nat)
    | Inserted(req: Send, row: Row)
    | Reread(req: Send, race: Race)
    | Done(req: Send, outcome: Outcome)
    | Untold(req: Send, row: Row)
    | Drawing(value: nat)

  /** Committed state, and the transactions open over it.  `uploads` maps a ready
      handle to its uploader, `consumed` a used one to the row that used it.
      `Drawing` is any other writer of the counter.  `Untold` has committed its row and lost
      the answer to its COMMIT: its caller hears of a failure. */
  datatype Db = Db(
    rows: seq<Row>, lastSeq: map<nat, nat>, counter: nat,
    members: set<(nat, nat)>, uploads: map<nat, nat>, consumed: map<nat, Row>,
    txs: map<nat, Tx>)

  predicate SameKey(r: Row, q: Send) {
    && r.author == q.author
    && r.client == q.client
  }

  predicate KeyIn(rows: seq<Row>, q: Send) { exists i | 0 <= i < |rows| :: SameKey(rows[i], q) }

  /** The row under a key, which is how a replay and a lost race are answered. */
  function ByKey(rows: seq<Row>, q: Send): (r: Row)
    requires KeyIn(rows, q)
    ensures r in rows && SameKey(r, q)
  {
    var last := rows[|rows| - 1];
    if SameKey(last, q) then last else
    assert forall i | 0 <= i < |rows| - 1 :: rows[..|rows| - 1][i] == rows[i];
    ByKey(rows[..|rows| - 1], q)
  }

  predicate HoldsRoom(x: Tx, c: nat) {
    && (x.DrewSeq? || x.DrewLog? || x.Inserted?)
    && x.req.conv == c
  }

  predicate HoldsCounter(x: Tx) { x.DrewLog? || x.Inserted? || x.Drawing? }

  predicate HoldsUpload(x: Tx, u: nat) {
    (x.Resolved? || x.DrewSeq? || x.DrewLog? || x.Inserted?) && u in x.req.uploads
  }

  predicate RoomFree(s: Db, c: nat) { forall t | t in s.txs :: !HoldsRoom(s.txs[t], c) }

  predicate CounterFree(s: Db) { forall t | t in s.txs :: !HoldsCounter(s.txs[t]) }

  predicate UploadFree(s: Db, u: nat) { forall t | t in s.txs :: !HoldsUpload(s.txs[t], u) }

  /** Every handle is the author's own, unused, and named once. */
  predicate Usable(s: Db, q: Send) {
    && (forall u | u in q.uploads :: u in s.uploads && s.uploads[u] == q.author && u !in s.consumed)
    && (forall i, j | 0 <= i < j < |q.uploads| :: q.uploads[i] != q.uploads[j])
  }

  datatype Event =
    | Begin(t: nat, req: Send)
    | Check(t: nat)
    | Resolve(t: nat)
    | DrawSeq(t: nat)
    | DrawLog(t: nat)
    | Insert(t: nat, id: nat)
    | Commit(t: nat)
    | CommitUntold(t: nat)
    | ReadBack(t: nat)
    | Abort(t: nat)
    | OtherDraw(t: nat)
    | OtherCommit(t: nat)

  predicate Commits(e: Event) { e.Commit? || e.CommitUntold? }

  /** A send that has returned, and what it returned. */
  predicate Returned(x: Tx) { x.Done? || x.Untold? }

  function Answer(x: Tx): Outcome
    requires Returned(x)
  {
    if x.Done? then x.outcome else Refused(Failed)
  }

  predicate Fresh(s: Db, id: nat) { forall i | 0 <= i < |s.rows| :: s.rows[i].id != id }

  predicate Enabled(s: Db, e: Event) {
    if e.Begin? then e.t !in s.txs
    else if e.OtherDraw? then e.t !in s.txs && CounterFree(s)
    else
      && e.t in s.txs
      && var x := s.txs[e.t];
         match e
         case Check(_) => x.Opened?
         case Resolve(_) => x.Checked? && forall u | u in x.req.uploads :: UploadFree(s, u)
         case DrawSeq(_) => x.Resolved? && RoomFree(s, x.req.conv)
         case DrawLog(_) => x.DrewSeq? && CounterFree(s)
         case Insert(_, id) => x.DrewLog? && Fresh(s, id)
         case Commit(_) => x.Inserted?
         case CommitUntold(_) => x.Inserted?
         case ReadBack(_) => x.Reread?
         case Abort(_) => !Returned(x)
         case OtherCommit(_) => x.Drawing?
         case _ => false
  }

  function Set(s: Db, t: nat, x: Tx): Db { s.(txs := s.txs[t := x]) }

  /** The row an insert writes: both ordinals as drawn, the key as sent. */
  function NewRow(q: Send, id: nat, seqNo: nat, logSeq: nat): Row { Row(id, q.conv, q.author, q.client, seqNo, logSeq) }

  function Consumed(s: Db, q: Send, r: Row): map<nat, Row> {
    s.consumed + map u | u in q.uploads :: r
  }

  /** An inserted row becomes visible with everything written beside it. */
  function Landed(s: Db, x: Tx): Db
    requires x.Inserted?
  {
    s.(
    rows := s.rows + [x.row],
    lastSeq := s.lastSeq[x.req.conv := x.row.seqNo],
    counter := x.row.logSeq,
    consumed := Consumed(s, x.req, x.row))
  }

  function Do(s: Db, e: Event): Db
    requires Enabled(s, e)
  {
    match e
    case Begin(t, q) => Set(s, t, Opened(q))
    case Check(t) =>
      var q := s.txs[t].req;
      Set(s, t, if KeyIn(s.rows, q) then Done(q, Sent(ByKey(s.rows, q), true)) else Checked(q))
    case Resolve(t) =>
      var q := s.txs[t].req;
      Set(s, t, if q.conv !in s.lastSeq then Done(q, Refused(ConversationNotFound))
      else if (q.conv, q.author) !in s.members then Done(q, Refused(NotAMember))
      else if Usable(s, q) then Resolved(q) else Reread(q, UploadGone))
    case DrawSeq(t) =>
      var q := s.txs[t].req;
      Set(s, t, if q.conv in s.lastSeq then DrewSeq(q, s.lastSeq[q.conv] + 1) else Done(q, Refused(ConversationNotFound)))
    case DrawLog(t) => Set(s, t, DrewLog(s.txs[t].req, s.txs[t].seqNo, s.counter + 1))
    case Insert(t, id) =>
      var x := s.txs[t];
      Set(s, t, if KeyIn(s.rows, x.req) then Reread(x.req, KeyTaken) else Inserted(x.req, NewRow(x.req, id, x.seqNo, x.logSeq)))
    case Commit(t) =>
      var x := s.txs[t];
      Set(Landed(s, x), t, Done(x.req, Sent(x.row, false)))
    case CommitUntold(t) =>
      var x := s.txs[t];
      Set(Landed(s, x), t, Untold(x.req, x.row))
    case ReadBack(t) =>
      var x := s.txs[t];
      Set(s, t, Done(x.req, if KeyIn(s.rows, x.req) then Sent(ByKey(s.rows, x.req), true)
      else Refused(if x.race.UploadGone? then UploadNotFound else NotFound)))
    case Abort(t) =>
      if s.txs[t].Drawing? then s.(txs := s.txs - {t}) else Set(s, t, Done(s.txs[t].req, Refused(Failed)))
    case OtherDraw(t) => Set(s, t, Drawing(s.counter + 1))
    case OtherCommit(t) => s.(counter := s.txs[t].value, txs := s.txs - {t})
  }

  // --- what holds in every reachable state --------------------------------------

  function InRoom(rows: seq<Row>, c: nat): (f: seq<Row>)
    ensures forall r :: r in f <==> r in rows && r.conv == c
  {
    if rows == [] then []
    else
      var init, last := rows[..|rows| - 1], rows[|rows| - 1];
      assert rows == init + [last];
      if last.conv == c then InRoom(init, c) + [last] else InRoom(init, c)
  }

  /** A conversation's committed seqs are 1, 2, ..., n, in commit order. */
  predicate Dense(rows: seq<Row>, c: nat, n: nat) {
    |InRoom(rows, c)| == n && forall k | 0 <= k < n :: InRoom(rows, c)[k].seqNo == k + 1
  }

  predicate KeysUnique(rows: seq<Row>) {
    forall i, j | 0 <= i < j < |rows| :: !(rows[i].author == rows[j].author && rows[i].client == rows[j].client)
  }

  ghost predicate RowsOk(s: Db) {
    && LogOk(s.rows, s.counter)
    && (forall c | c in s.lastSeq :: Dense(s.rows, c, s.lastSeq[c]))
    && KeysUnique(s.rows)
    && (forall i | 0 <= i < |s.rows| :: s.rows[i].conv in s.lastSeq)
    && (forall u | u in s.consumed :: s.consumed[u] in s.rows)
  }

  /** Two open transactions hold no row lock in common. */
  ghost predicate Apart(x: Tx, y: Tx) {
    && !(HoldsCounter(x) && HoldsCounter(y))
    && (forall c | HoldsRoom(x, c) :: !HoldsRoom(y, c))
    && (forall u | HoldsUpload(x, u) :: !HoldsUpload(y, u))
  }

  ghost predicate LocksOk(s: Db) {
    forall t, u | t in s.txs && u in s.txs && t != u :: Apart(s.txs[t], s.txs[u])
  }

  /** What a transaction has drawn is still the next value, and what one has
      answered is a committed row under its key. */
  predicate TxOk(s: Db, x: Tx) {
    match x
    case DrewSeq(q, n) => q.conv in s.lastSeq && n == s.lastSeq[q.conv] + 1
    case DrewLog(q, n, l) => q.conv in s.lastSeq && n == s.lastSeq[q.conv] + 1 && l == s.counter + 1
    case Inserted(q, r) =>
      && q.conv in s.lastSeq && !KeyIn(s.rows, q) && Fresh(s, r.id)
      && r == NewRow(q, r.id, s.lastSeq[q.conv] + 1, s.counter + 1)
    case Reread(q, race) => race.KeyTaken? ==> KeyIn(s.rows, q)
    case Done(q, Sent(r, _)) => r in s.rows && SameKey(r, q)
    case Untold(q, r) => r in s.rows && SameKey(r, q)
    case Drawing(v) => v == s.counter + 1
    case _ => true
  }

  ghost predicate Inv(s: Db) {
    RowsOk(s) && LocksOk(s) && forall t | t in s.txs :: TxOk(s, s.txs[t])
  }

  /** An empty deployment with some conversations, nothing open. */
  predicate Init(s: Db) {
    s.rows == [] && s.counter == 0 && s.consumed == map[] && s.txs == map[] && (forall c | c in s.lastSeq :: s.lastSeq[c] == 0)
  }
}
