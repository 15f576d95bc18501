/**
 The hub's bookkeeping as values: sessions by user, their outboxes, and what makes
 the two agree (internal/hub/hub.go:193-262).
 */
module HubIndex {
  import opened Outbox

  const READ_NOTIFY_CAP: nat := 64

  datatype Frame =
    | Message(viewer: nat, conv: nat, seqNo: nat)
    | Conversation(viewer: nat, conv: nat)
    | UserRecord(user: nat)
    | Resync(head: nat)

  type Index = map<nat, set<nat>>
  type Boxes = map<nat, Box<Frame>>

  function Live(box: Boxes): set<nat> { set i | i in box && !box[i].closed }

  predicate In(index: Index, u: nat, i: nat) { u in index && i in index[u] }

  predicate NoEmpty(index: Index) { forall u | u in index :: index[u] != {} }

  /** An outbox is closed exactly when its session has left the index, and a session is
      indexed under its own user. */
  ghost predicate IndexOk(index: Index, box: Boxes) {
    NoEmpty(index) && forall u: nat, i: nat {:trigger In(index, u, i)} :: In(index, u, i) <==> i in box && box[i].user == u && !box[i].closed
  }

  predicate BoxesOk(box: Boxes) { forall i | i in box :: |box[i].out| <= OUTBOX_BOUND }

  /** `drained` is closed exactly when the hub is closing and holds no session. */
  ghost predicate HubOk(index: Index, box: Boxes, count: nat, closing: bool, drained: bool) {
    && IndexOk(index, box) && BoxesOk(box)
    && count == |Live(box)|
    && (drained <==> closing && count == 0)
  }

  function Without(index: Index, u: nat, i: nat): Index
    requires u in index
  {
    if index[u] == {i} then map v | v in index && v != u :: index[v] else index[u := index[u] - {i}]
  }

  function With(index: Index, u: nat, i: nat): Index { if u in index then index[u := index[u] + {i}] else index[u := {i}] }

  function Closed(box: Boxes, i: nat): Boxes
    requires i in box
  {
    box[i := box[i].(closed := true)]
  }

  lemma WithoutOk(index: Index, box: Boxes, i: nat)
    requires IndexOk(index, box) && i in box && !box[i].closed
    ensures In(index, box[i].user, i)
    ensures IndexOk(Without(index, box[i].user, i), Closed(box, i))
  {
    var u := box[i].user;
    assert In(index, u, i);
    var n := Without(index, u, i);
    forall v | v in n ensures n[v] != {} {
      if v == u {
        assert index[u] != {i};
        var k :| k in index[u] && k != i;
        assert k in n[u];
      }
    }
    forall v: nat, k: nat ensures In(n, v, k) <==> k in Closed(box, i) && Closed(box, i)[k].user == v && !Closed(box, i)[k].closed {
      assert In(n, v, k) <==> In(index, v, k) && k != i by {
        if In(index, v, k) && k != i { assert v == u ==> index[u] != {i}; }
        if v != u { assert !In(index, v, i); }
      }
    }
  }

  lemma LiveClosed(box: Boxes, i: nat)
    requires i in box && !box[i].closed
    ensures Live(Closed(box, i)) == Live(box) - {i}
    ensures |Live(Closed(box, i))| == |Live(box)| - 1
  {
    assert Live(Closed(box, i)) == Live(box) - {i};
  }

  lemma WithOk(index: Index, box: Boxes, i: nat, b: Box<Frame>)
    requires IndexOk(index, box) && i !in box && !b.closed
    ensures IndexOk(With(index, b.user, i), box[i := b])
  {
    var n := With(index, b.user, i);
    forall v | v in n ensures n[v] != {} {
      assert v == b.user ==> i in n[v];
    }
    forall v: nat, k: nat ensures In(n, v, k) <==> k in box[i := b] && box[i := b][k].user == v && !box[i := b][k].closed {
      assert In(n, v, k) <==> In(index, v, k) || (v == b.user && k == i);
      assert !In(index, v, i);
    }
  }

  lemma LiveWith(box: Boxes, i: nat, b: Box<Frame>)
    requires i !in box && !b.closed
    ensures Live(box[i := b]) == Live(box) + {i}
    ensures |Live(box[i := b])| == |Live(box)| + 1
  {
    assert Live(box[i := b]) == Live(box) + {i};
  }

  /** Changing what an open outbox holds changes nobody's place in the index. */
  lemma FillOk(index: Index, box: Boxes, i: nat, b: Box<Frame>)
    requires IndexOk(index, box) && i in box && b.user == box[i].user
    requires b.closed == box[i].closed
    ensures IndexOk(index, box[i := b]) && Live(box[i := b]) == Live(box)
  {
  }

  // --- one message, as each member sees it --------------------------------------------

  /** What the fan-out load returns: the message, the members in one snapshot, and for a
      first message the members' conversation records and the users to introduce. */
  datatype Fanout = Fanout(conv: nat, seqNo: nat, members: seq<nat>, records: set<nat>, users: seq<nat>)

  function UserFrames(users: seq<nat>): (fs: seq<Frame>)
    ensures |fs| == |users| && forall k | 0 <= k < |fs| :: fs[k] == UserRecord(users[k])
  {
    if users == [] then [] else UserFrames(users[..|users| - 1]) + [UserRecord(users[|users| - 1])]
  }

  function FramesFor(fm: Fanout, m: nat): seq<Frame> {
    if m !in fm.members then []
    else Share(fm.seqNo == FIRST_MESSAGE_SEQ && m in fm.records, Conversation(m, fm.conv), UserFrames(fm.users), Message(m, fm.conv, fm.seqNo))
  }

  // --- what one notification hands a session ---------------------------------------------

  /** What the load behind a message notification came to. */
  datatype Loaded = Loaded(fm: Fanout) | Missing | LoadFailed(head: Head) | Cancelled

  /** What the head read of a gap came to. */
  datatype Head = Head(logSeq: nat) | Unreadable | Stopping

  function ResyncFor(h: Head): seq<Frame> { if h.Head? then [Resync(h.logSeq)] else [] }

  function Handed(l: Loaded, user: nat): seq<Frame> {
    match l
    case Loaded(fm) => FramesFor(fm, user)
    case LoadFailed(h) => ResyncFor(h)
    case Missing => []
    case Cancelled => []
  }
}
