/**
 What the hub's operations, one critical section after another, come to for one session.
 */
module HubHistory {
  import opened Outbox
  import opened HubIndex
  import Revocation

  type Subject = Revocation.Subject

  /** How a connection was asked to end: the drain, an unreadable head or re-check, a
      revocation, or dropped without a handshake. */
  datatype Status = GoingAway | ServiceRestart | Revoked | Dropped

  datatype Ask = Ask(id: nat, status: Status)

  /** Whether a revocation names a session, by its device or by its account. */
  predicate Matches(p: Subject, b: Box<Frame>) {
    match p
    case Device(d) => b.device == d
    case User(u) => b.user == u
    case Both(d, u) => b.device == d || b.user == u
    case Nobody => false
  }

  /** One operation under the hub's lock.  `Reemit` is any frame for one user's own view. */
  datatype Op =
    | Notify(loaded: Loaded)
    | Gapped(head: Head)
    | Reemit(user: nat, frames: seq<Frame>)
    | Join(id: nat, user: nat, device: nat)
    | Leave(id: nat)
    | Revoke(subject: Subject)
    | Recheck(all: set<nat>, known: bool, dead: set<nat>)
    | Drain

  /** What an operation hands an open session of `user`. */
  function Hands(op: Op, user: nat): seq<Frame> {
    match op
    case Notify(l) => Handed(l, user)
    case Gapped(h) => ResyncFor(h)
    case Reemit(u, fs) => if u == user then fs else []
    case _ => []
  }

  function History(ops: seq<Op>, user: nat): seq<Frame> {
    if ops == [] then [] else History(ops[..|ops| - 1], user) + Hands(ops[|ops| - 1], user)
  }

  predicate Ends(op: Op, b: Box<Frame>, k: nat) {
    match op
    case Leave(i) => i == k
    case Revoke(p) => Matches(p, b)
    case Recheck(all, known, dead) => k in all && (known ==> b.device in dead)
    case _ => false
  }

  /** A gap whose head could not be read. */
  predicate Lost(op: Op) {
    || (op.Notify? && op.loaded.LoadFailed? && op.loaded.head.Unreadable?)
    || (op.Gapped? && op.head.Unreadable?)
  }

  /** Whether an operation asks every open session to go, and how. */
  predicate Calls(op: Op, status: Status) {
    || (Lost(op) && status == ServiceRestart)
    || (op.Drain? && status == GoingAway)
  }

  // --- one session --------------------------------------------------------------

  /** An outbox got `fs` and nothing else, whole unless it was closed. */
  predicate Went(b: Box<Frame>, c: Box<Frame>, fs: seq<Frame>) {
    && c.user == b.user && c.device == b.device
    && (b.closed ==> c == b)
    && Seen(b) <= Seen(c) <= Seen(b) + fs
    && (!c.closed ==> Seen(c) == Seen(b) + fs)
  }

  lemma GotWent(b: Box<Frame>, c: Box<Frame>, fs: seq<Frame>)
    requires Got(b, c, fs)
    ensures Went(b, c, fs)
  {
    if !b.closed && c.closed {
      var k: nat :| k < |fs| && Seen(c) == Seen(b) + fs[..k];
      assert (Seen(b) + fs)[..|Seen(c)|] == Seen(c);
    }
  }

  lemma WentTwice(a: Box<Frame>, b: Box<Frame>, c: Box<Frame>, fs: seq<Frame>, gs: seq<Frame>)
    requires Went(a, b, fs) && Went(b, c, gs)
    ensures Went(a, c, fs + gs)
  {
    if b.closed {
      assert (Seen(a) + fs) <= Seen(a) + (fs + gs);
    } else {
      assert Seen(b) + gs == Seen(a) + (fs + gs);
    }
  }

  /** The operations since a session attached, or all of them if it was there before. */
  function Since(ops: seq<Op>, k: nat): seq<Op> {
    if ops == [] then []
    else
      var last := ops[|ops| - 1];
      if last.Join? && last.id == k then [] else Since(ops[..|ops| - 1], k) + [last]
  }

  /** The session as it was at first, or as it attached. */
  function Start(first: Boxes, b: Box<Frame>, k: nat): Box<Frame> {
    if k in first then first[k] else Box(b.user, b.device, [], [], false)
  }

  predicate Full(b: Box<Frame>, asked: set<Ask>, k: nat) { |b.out| == OUTBOX_BOUND && Ask(k, Dropped) in asked }

  /** What one operation does to a session that is there. */
  predicate Treats(b: Box<Frame>, c: Box<Frame>, asked: set<Ask>, op: Op, k: nat) {
    && Went(b, c, Hands(op, b.user))
    && (Ends(op, b, k) ==> c.closed)
    && (c.closed && !b.closed ==> Ends(op, b, k) || Full(c, asked, k))
    && (forall st | Calls(op, st) && !b.closed :: Ask(k, st) in asked)
  }

  /** What some operations have done to a session since it was there: it was handed their
      history and nothing else, whole unless it was closed; it was closed by an operation
      that ends it or on a full outbox; and it has been asked to go by each that asks. */
  predicate Treated(b: Box<Frame>, c: Box<Frame>, asked: set<Ask>, ops: seq<Op>, k: nat) {
    && Went(b, c, History(ops, b.user))
    && (forall op | op in ops && Ends(op, b, k) :: c.closed)
    && (c.closed && !b.closed ==> (exists op :: op in ops && Ends(op, b, k)) || Full(c, asked, k))
    && (forall op, st | op in ops && Calls(op, st) && !c.closed :: Ask(k, st) in asked)
  }

  lemma TreatedNone(b: Box<Frame>, asked: set<Ask>, k: nat)
    ensures Treated(b, b, asked, [], k)
  {
  }

  lemma TreatedMore(a: Box<Frame>, b: Box<Frame>, c: Box<Frame>, asks: set<Ask>, asked: set<Ask>, ops: seq<Op>, op: Op, k: nat)
    requires Treated(a, b, asks, ops, k) && Treats(b, c, asked, op, k) && asks <= asked
    ensures Treated(a, c, asked, ops + [op], k)
  {
    assert (ops + [op])[..|ops|] == ops;
    assert op in ops + [op];
    assert forall o | o in ops :: o in ops + [op];
    WentTwice(a, b, c, History(ops, a.user), Hands(op, a.user));
    if c.closed && !a.closed && b.closed && !Full(b, asks, k) {
      var o :| o in ops && Ends(o, a, k);
      assert o in ops + [op];
    }
  }

  // --- every session ------------------------------------------------------------

  /** Ids are never used twice. */
  predicate FreshJoins(ops: seq<Op>, box: Boxes) {
    && (forall n | 0 <= n < |ops| && ops[n].Join? :: ops[n].id !in box)
    && (forall m, n | 0 <= m < n < |ops| && ops[m].Join? && ops[n].Join? :: ops[m].id != ops[n].id)
  }

  predicate ServedAt(first: Boxes, box: Boxes, asked: set<Ask>, ops: seq<Op>, k: nat)
    requires k in box
  {
    && Treated(Start(first, box[k], k), box[k], asked, Since(ops, k), k)
    && (k !in first ==> Join(k, box[k].user, box[k].device) in ops)
  }

  predicate Served(first: Boxes, box: Boxes, asked: set<Ask>, ops: seq<Op>) {
    first.Keys <= box.Keys && forall k {:trigger ServedAt(first, box, asked, ops, k)} | k in box :: ServedAt(first, box, asked, ops, k)
  }

  /** What one operation does to them all. */
  predicate ActedAt(before: Boxes, box: Boxes, asked: set<Ask>, op: Op, k: nat)
    requires k in box
  {
    if k in before then Treats(before[k], box[k], asked, op, k)
    else op == Join(k, box[k].user, box[k].device) && box[k] == Start(before, box[k], k)
  }

  predicate Acted(before: Boxes, box: Boxes, asks: set<Ask>, asked: set<Ask>, op: Op) {
    && before.Keys <= box.Keys && asks <= asked
    && forall k {:trigger ActedAt(before, box, asked, op, k)} | k in box :: ActedAt(before, box, asked, op, k)
  }

  lemma ServedNone(box: Boxes, asked: set<Ask>)
    ensures Served(box, box, asked, [])
  {
    forall k | k in box ensures ServedAt(box, box, asked, [], k) { TreatedNone(box[k], asked, k); }
  }

  lemma ServedMore(first: Boxes, before: Boxes, box: Boxes, asks: set<Ask>, asked: set<Ask>, ops: seq<Op>, op: Op)
    requires Served(first, before, asks, ops) && Acted(before, box, asks, asked, op)
    requires (op.Join? ==> op.id !in before)
    ensures Served(first, box, asked, ops + [op])
  {
    forall k | k in box ensures ServedAt(first, box, asked, ops + [op], k) { ServedMoreAt(first, before, box, asks, asked, ops, op, k); }
  }

  lemma ServedMoreAt(first: Boxes, before: Boxes, box: Boxes, asks: set<Ask>, asked: set<Ask>, ops: seq<Op>, op: Op, k: nat)
    requires Served(first, before, asks, ops) && Acted(before, box, asks, asked, op)
    requires (op.Join? ==> op.id !in before) && k in box
    ensures ServedAt(first, box, asked, ops + [op], k)
  {
    assert (ops + [op])[..|ops|] == ops;
    assert ActedAt(before, box, asked, op, k);
    if k in before {
      assert ServedAt(first, before, asks, ops, k);
      TreatedMore(Start(first, before[k], k), before[k], box[k], asks, asked, Since(ops, k), op, k);
    } else {
      assert op in ops + [op];
      TreatedNone(box[k], asked, k);
    }
  }

  // --- order --------------------------------------------------------------------

  lemma {:induction false} HistoryAppend(ops: seq<Op>, more: seq<Op>, user: nat)
    ensures History(ops + more, user) == History(ops, user) + History(more, user)
    decreases |more|
  {
    if more == [] {
      assert ops + more == ops;
    } else {
      var front, last := more[..|more| - 1], more[|more| - 1];
      HistoryAppend(ops, front, user);
      LastApart(ops, more);
      Regroup(History(ops, user), History(front, user), Hands(last, user));
    }
  }

  lemma LastApart(ops: seq<Op>, more: seq<Op>)
    requires more != []
    ensures ops + more == (ops + more[..|more| - 1]) + [more[|more| - 1]]
  {
  }

  lemma Regroup(a: seq<Frame>, b: seq<Frame>, c: seq<Frame>)
    ensures (a + b) + c == a + (b + c)
  {
  }

  /** WHERE AN OPERATION'S FRAMES STAND, and which they are: wherever it is among the
      operations since a session attached, a session that is still open has, after all that
      the earlier ones handed it and before all that the later ones did, the message right
      after its introduction, the resync, the re-emitted frames, or nothing. */
  lemma HandedInOrder(b: Box<Frame>, c: Box<Frame>, before: seq<Op>, op: Op, later: seq<Op>) returns (fs: seq<Frame>)
    requires Went(b, c, History(before + [op] + later, b.user)) && !c.closed
    ensures Seen(c) == Seen(b) + History(before, b.user) + fs + History(later, b.user)
    ensures op.Notify? && op.loaded.Loaded? ==>
              var fm := op.loaded.fm;
              fs == if b.user !in fm.members then []
                    else (if fm.seqNo == 1 && b.user in fm.records then [Conversation(b.user, fm.conv)] + UserFrames(fm.users) else [])
                         + [Message(b.user, fm.conv, fm.seqNo)]
    ensures op.Notify? && op.loaded.LoadFailed? ==> fs == if op.loaded.head.Head? then [Resync(op.loaded.head.logSeq)] else []
    ensures op.Gapped? ==> fs == if op.head.Head? then [Resync(op.head.logSeq)] else []
    ensures op.Reemit? ==> fs == if op.user == b.user then op.frames else []
    ensures (op.Notify? && (op.loaded.Missing? || op.loaded.Cancelled?)) || op.Join? || op.Leave? || op.Revoke? || op.Recheck? || op.Drain?
            ==> fs == []
  {
    fs := Hands(op, b.user);
    HistoryAppend(before + [op], later, b.user);
    assert (before + [op])[..|before|] == before;
    Flatten(Seen(b), History(before, b.user), fs, History(later, b.user));
  }

  /** NOTHING IS SILENTLY DROPPED.  Of every notification since it attached whose message was
      there to load, a session that is still open has the message, or the resync that covers
      it, or has been asked to come back; and a drain has asked it to go. */
  lemma NothingIsDropped(first: Boxes, box: Boxes, asked: set<Ask>, ops: seq<Op>, k: nat, op: Op)
    requires Served(first, box, asked, ops) && k in box && !box[k].closed && op in Since(ops, k)
    ensures op.Notify? && op.loaded.Loaded? && box[k].user in op.loaded.fm.members ==>
              Message(box[k].user, op.loaded.fm.conv, op.loaded.fm.seqNo) in Seen(box[k])
    ensures op.Notify? && op.loaded.LoadFailed? && op.loaded.head.Head? ==> Resync(op.loaded.head.logSeq) in Seen(box[k])
    ensures op.Notify? && op.loaded.LoadFailed? && op.loaded.head.Unreadable? ==> Ask(k, ServiceRestart) in asked
    ensures op.Gapped? && op.head.Head? ==> Resync(op.head.logSeq) in Seen(box[k])
    ensures op.Gapped? && op.head.Unreadable? ==> Ask(k, ServiceRestart) in asked
    ensures op.Drain? ==> Ask(k, GoingAway) in asked
  {
    assert ServedAt(first, box, asked, ops, k);
    var fs := HasFrames(Start(first, box[k], k), box[k], Since(ops, k), op);
    if op.Notify? && op.loaded.Loaded? && box[k].user in op.loaded.fm.members {
      assert fs[|fs| - 1] == Message(box[k].user, op.loaded.fm.conv, op.loaded.fm.seqNo);
    }
    assert Lost(op) ==> Calls(op, ServiceRestart);
    assert op.Drain? ==> Calls(op, GoingAway);
  }

  lemma HasFrames(b: Box<Frame>, c: Box<Frame>, ops: seq<Op>, op: Op) returns (fs: seq<Frame>)
    requires Went(b, c, History(ops, b.user)) && !c.closed && op in ops
    ensures fs == Hands(op, b.user) && forall f | f in fs :: f in Seen(c)
  {
    var n :| 0 <= n < |ops| && ops[n] == op;
    assert ops == ops[..n] + [op] + ops[n + 1..];
    HistoryAppend(ops[..n] + [op], ops[n + 1..], b.user);
    fs := Hands(op, b.user);
    assert (ops[..n] + [op])[..n] == ops[..n];
    assert Seen(c) == Seen(b) + ((History(ops[..n], b.user) + fs) + History(ops[n + 1..], b.user));
  }

  /** EVERY CAUSE ENDS: a session that has left, was named by a revocation, or was found dead
      or unknown by a re-check, is closed. */
  lemma CausesClose(first: Boxes, box: Boxes, asked: set<Ask>, ops: seq<Op>, k: nat, op: Op)
    requires Served(first, box, asked, ops) && k in box && op in Since(ops, k)
    ensures op == Leave(k) ==> box[k].closed
    ensures op.Revoke? && op.subject.Device? && op.subject.device == box[k].device ==> box[k].closed
    ensures op.Revoke? && op.subject.User? && op.subject.user == box[k].user ==> box[k].closed
    ensures op.Revoke? && op.subject.Both? && (op.subject.device == box[k].device || op.subject.user == box[k].user) ==> box[k].closed
    ensures op.Recheck? && k in op.all && (op.known ==> box[k].device in op.dead) ==> box[k].closed
  {
    assert ServedAt(first, box, asked, ops, k);
    assert Ends(op, Start(first, box[k], k), k) ==> box[k].closed;
  }

  /** AND NOBODY IS ENDED WITHOUT ONE, save that a full outbox is dropped. */
  lemma ClosedForCause(first: Boxes, box: Boxes, asked: set<Ask>, ops: seq<Op>, k: nat) returns (op: Op)
    requires Served(first, box, asked, ops) && k in box && (k in first ==> !first[k].closed)
    requires box[k].closed && !(|box[k].out| == OUTBOX_BOUND && Ask(k, Dropped) in asked)
    ensures op in Since(ops, k)
    ensures || op == Leave(k)
            || (op.Revoke? && op.subject.Device? && op.subject.device == box[k].device)
            || (op.Revoke? && op.subject.User? && op.subject.user == box[k].user)
            || (op.Revoke? && op.subject.Both? && (op.subject.device == box[k].device || op.subject.user == box[k].user))
            || (op.Recheck? && k in op.all && (op.known ==> box[k].device in op.dead))
  {
    assert ServedAt(first, box, asked, ops, k);
    op :| op in Since(ops, k) && Ends(op, Start(first, box[k], k), k);
  }

  lemma Flatten(s: seq<Frame>, h: seq<Frame>, f: seq<Frame>, l: seq<Frame>)
    ensures s + ((h + f) + l) == s + h + f + l
  {
  }
}
