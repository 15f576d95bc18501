/**
 The hub: one per process, every method one critical section under its lock
 (internal/hub/hub.go).  Each session's goroutine takes frames off its outbox without
 the lock, so any number may have gone before an enqueue looks.
 */
module HubClass {
  import opened Outbox
  import opened HubIndex
  import opened HubHistory

  predicate Distinct(ms: seq<nat>) { forall i, j | 0 <= i < j < |ms| :: ms[i] != ms[j] }

  function Asks(ids: set<nat>, status: Status): (asks: set<Ask>)
    ensures forall i: nat, st: Status :: Ask(i, st) in asks <==> i in ids && st == status
  {
    set i | i in ids :: Ask(i, status)
  }

  /** The sessions closed between two moments because their outbox was full: each was
      dropped without a handshake. */
  function Drops(before: Boxes, box: Boxes): set<Ask> {
    set i | i in before && i in box && !before[i].closed && box[i].closed :: Ask(i, Dropped)
  }

  /** Whom an unreadable head asks to come back. */
  function Restarts(head: Head, box: Boxes): set<Ask> { if head.Unreadable? then Asks(Live(box), ServiceRestart) else {} }

  /** The open sessions a revocation names. */
  function NamedIn(box: Boxes, p: Subject): set<nat> { set i | i in Live(box) && Matches(p, box[i]) }

  function OnDevices(box: Boxes, all: set<nat>, dead: set<nat>): set<nat> { set i | i in all && i in box && box[i].device in dead }

  class Hub {
    var index: Index
    var box: Boxes
    var count: nat
    var closing: bool
    var drained: bool
    var asked: set<Ask>

    ghost predicate Valid()
      reads this
    {
      HubOk(index, box, count, closing, drained)
    }

    constructor ()
      ensures Valid() && box == map[] && !closing && asked == {}
    {
      index, box, count, closing, drained, asked := map[], map[], 0, false, false, {};
    }

    /** A session that races the drain is closed at once and never indexed. */
    method Attach(i: nat, user: nat, device: nat) returns (attached: bool)
      requires Valid() && i !in box
      modifies this
      ensures Valid() && closing == old(closing) && attached == !closing
      ensures attached ==> box == old(box)[i := Box(user, device, [], [], false)] && count == old(count) + 1 && asked == old(asked)
      ensures !attached ==> box == old(box) && count == old(count) && asked == old(asked) + {Ask(i, GoingAway)}
    {
      if closing {
        asked := asked + {Ask(i, GoingAway)};
        return false;
      }
      var b := Box(user, device, [], [], false);
      WithOk(index, box, i, b);
      LiveWith(box, i, b);
      index, box, count := With(index, user, i), box[i := b], count + 1;
      return true;
    }

    /** Out of the index, outbox closed; the last one out of a closing hub closes
        `drained`, which is still open. */
    method RemoveLocked(i: nat) returns (removed: bool)
      requires Valid() && i in box
      modifies this`index, this`box, this`count, this`drained
      ensures Valid() && removed == !old(box)[i].closed
      ensures box == Closed(old(box), i)
      ensures count == if removed then old(count) - 1 else old(count)
      ensures !removed ==> index == old(index) && drained == old(drained)
    {
      var u := box[i].user;
      if !In(index, u, i) {
        assert box == Closed(box, i);
        return false;
      }
      WithoutOk(index, box, i);
      LiveClosed(box, i);
      index, box, count := Without(index, u, i), Closed(box, i), count - 1;
      if closing && count == 0 {
        CloseDrained();
      }
      return true;
    }

    /** Closing a closed channel panics: callers prove that it is open. */
    method CloseDrained()
      requires !drained
      modifies this`drained
      ensures drained
    {
      drained := true;
    }

    /** The session's goroutine takes any number of frames off its outbox. */
    method TakeOff(i: nat)
      requires Valid() && i in box
      modifies this`box
      ensures Valid() && i in box && box == old(box)[i := box[i]]
      ensures Taken(old(box)[i], box[i])
    {
      var taken: nat :| taken <= |box[i].out|;
      var b := box[i].(wire := box[i].wire + box[i].out[..taken], out := box[i].out[taken..]);
      assert box[i].out == box[i].out[..taken] + box[i].out[taken..];
      FillOk(index, box, i, b);
      box := box[i := b];
    }

    method PushLocked(i: nat, f: Frame)
      requires Valid() && i in box && |box[i].out| < OUTBOX_BOUND
      modifies this`box
      ensures Valid()
      ensures box == old(box)[i := old(box)[i].(out := old(box)[i].out + [f])]
    {
      var b := box[i].(out := box[i].out + [f]);
      FillOk(index, box, i, b);
      box := box[i := b];
    }

    /** An open session: what its goroutine has left of the outbox is `b`; the frame goes
        on, or the session goes. */
    method PushOrSever(i: nat, f: Frame) returns (ok: bool, ghost b: Box<Frame>)
      requires Valid() && i in box && !box[i].closed
      modifies this`index, this`box, this`count, this`drained, this`asked
      ensures Valid() && Taken(old(box)[i], b) && |b.out| <= OUTBOX_BOUND
      ensures ok == (|b.out| < 256)
      ensures box == old(box)[i := if ok then b.(out := b.out + [f]) else b.(closed := true)]
      ensures asked == if ok then old(asked) else old(asked) + {Ask(i, Dropped)}
    {
      TakeOff(i);
      b, ok := box[i], |box[i].out| < OUTBOX_BOUND;
      if ok {
        PushLocked(i, f);
      } else {
        var _ := RemoveLocked(i);
        asked := asked + {Ask(i, Dropped)};
      }
    }

    /** Puts a frame on the outbox, or severs a session whose outbox is full.  Never
        waits. */
    method EnqueueLocked(i: nat, f: Frame) returns (ok: bool)
      requires Valid() && i in box
      modifies this`index, this`box, this`count, this`drained, this`asked
      ensures Valid() && i in box && ok == !box[i].closed
      ensures Gave(old(asked), asked, old(box), box, {i}, [f])
    {
      if box[i].closed {
        return false;
      }
      ghost var b;
      ok, b := PushOrSever(i, f);
      GaveOne(old(asked), old(box), b, i, f);
    }

    /** The frames of one fan-out, in order, onto one session. */
    method EnqueueAll(i: nat, fs: seq<Frame>)
      requires Valid() && i in box
      modifies this`index, this`box, this`count, this`drained, this`asked
      ensures Valid() && Gave(old(asked), asked, old(box), box, {i}, fs)
    {
      var n := 0;
      assert fs[..0] == [];
      while n < |fs|
        invariant 0 <= n <= |fs|
        invariant Valid() && i in box && Gave(old(asked), asked, old(box), box, {i}, fs[..n])
      {
        ghost var before, asks := box, asked;
        var _ := EnqueueLocked(i, fs[n]);
        GaveTwice(old(asked), asks, asked, old(box), before, box, {i}, fs[..n], [fs[n]]);
        assert fs[..n] + [fs[n]] == fs[..n + 1];
        n := n + 1;
      }
      assert fs[..n] == fs;
    }

    /** The same frames onto each of some sessions. */
    method EnqueueEach(ids: set<nat>, fs: seq<Frame>)
      requires Valid() && ids <= box.Keys
      modifies this`index, this`box, this`count, this`drained, this`asked
      ensures Valid() && Gave(old(asked), asked, old(box), box, ids, fs)
    {
      var todo := ids;
      assert ids - todo == {};
      while todo != {}
        invariant Valid() && todo <= ids <= box.Keys
        invariant Gave(old(asked), asked, old(box), box, ids - todo, fs)
      {
        var i :| i in todo;
        ghost var before, asks := box, asked;
        EnqueueAll(i, fs);
        GaveOneMore(old(asked), asks, asked, old(box), before, box, ids - todo, i, fs);
        assert ids - (todo - {i}) == ids - todo + {i};
        todo := todo - {i};
      }
      assert ids - todo == ids;
    }

    function SessionsOf(u: nat): (ids: set<nat>)
      requires Valid()
      reads this
      ensures ids <= box.Keys
      ensures forall i | i in box :: i in ids <==> box[i].user == u && !box[i].closed
    {
      assert forall i | i in box :: In(index, u, i) <==> box[i].user == u && !box[i].closed;
      assert u in index ==> forall i | i in index[u] :: In(index, u, i);
      if u in index then index[u] else {}
    }
  
    method HasSession(u: nat) returns (here: bool)
      requires Valid()
      ensures !here <==> forall i | i in box :: box[i].user == u ==> box[i].closed
    {
      here := SessionsOf(u) != {};
      if here {
        var i :| i in SessionsOf(u);
        assert box[i].user == u && !box[i].closed;
      }
    }

    /** The same frames onto each open session of one user. */
    method EnqueueUser(u: nat, fs: seq<Frame>)
      requires Valid()
      modifies this`index, this`box, this`count, this`drained, this`asked
      ensures Valid()
      ensures Gave(old(asked), asked, old(box), box, OpenOf(old(box), u), fs)
    {
      assert SessionsOf(u) == OpenOf(box, u);
      EnqueueEach(SessionsOf(u), fs);
    }

    /** One Message per member, its introduction before it, onto each of their sessions.
        The members are the rows of one conversation, so no two are the same. */
    method FanOut(fm: Fanout)
      requires Valid() && Distinct(fm.members)
      modifies this`index, this`box, this`count, this`drained, this`asked
      ensures Valid() && box.Keys == old(box.Keys)
      ensures forall k | k in box :: Got(old(box)[k], box[k], FramesFor(fm, old(box)[k].user))
      ensures asked == old(asked) + Drops(old(box), box)
    {
      var n := 0;
      NoDrops(box, box);
      while n < |fm.members|
        invariant 0 <= n <= |fm.members|
        invariant Valid() && box.Keys == old(box.Keys) && asked == old(asked) + Drops(old(box), box)
        invariant forall k | k in box :: HandedSoFar(old(box)[k], box[k], fm, n)
      {
        FanOutTo(fm, n, old(box), old(asked));
        n := n + 1;
      }
      forall k | k in box ensures Got(old(box)[k], box[k], FramesFor(fm, old(box)[k].user)) {
        assert HandedSoFar(old(box)[k], box[k], fm, |fm.members|);
        GotNothing(old(box)[k]);
        assert fm.members[..|fm.members|] == fm.members;
      }
    }

    /** One member's sessions. */
    method FanOutTo(fm: Fanout, n: nat, ghost first: Boxes, ghost asks: set<Ask>)
      requires asked == asks + Drops(first, box) && Valid()
      requires n < |fm.members| && Distinct(fm.members)
      requires box.Keys == first.Keys
      requires forall k | k in box :: HandedSoFar(first[k], box[k], fm, n)
      modifies this`index, this`box, this`count, this`drained, this`asked
      ensures Valid() && box.Keys == first.Keys
      ensures forall k | k in box :: HandedSoFar(first[k], box[k], fm, n + 1)
      ensures asked == asks + Drops(first, box)
    {
      var m := fm.members[n];
      ghost var before := box;
      EnqueueUser(m, FramesFor(fm, m));
      AfterMember(first, before, box, fm, n);
    }

    /** A gap: everybody is told to catch up to a head that was read, or, when it cannot
        be read, everybody is asked to come back. */
    method GapNotice(head: Head)
      requires Valid()
      modifies this`index, this`box, this`count, this`drained, this`asked
      ensures Valid() && box.Keys == old(box.Keys)
      ensures forall k | k in box :: Got(old(box)[k], box[k], ResyncFor(head))
      ensures asked == old(asked) + Drops(old(box), box) + Restarts(head, old(box))
      ensures head.Head? ==> forall k | k in box && !box[k].closed :: Seen(box[k]) == Seen(old(box)[k]) + [Resync(head.logSeq)]
      ensures head.Unreadable? ==> forall k | k in old(box) && !old(box)[k].closed :: Ask(k, ServiceRestart) in asked
    {
      if head.Head? {
        EnqueueEach(Live(box), ResyncFor(head));
        GaveIs(old(box), box, Live(old(box)), ResyncFor(head));
      } else {
        NoDrops(box, box);
        if head.Unreadable? {
          asked := asked + Asks(Live(box), ServiceRestart);
        }
        forall k | k in box ensures Got(old(box)[k], box[k], []) { GotNothing(box[k]); }
      }
    }

    method OnNotify(l: Loaded)
      requires Valid() && (l.Loaded? ==> Distinct(l.fm.members))
      modifies this`index, this`box, this`count, this`drained, this`asked
      ensures Valid() && box.Keys == old(box.Keys)
      ensures forall k | k in box :: Got(old(box)[k], box[k], Handed(l, old(box)[k].user))
      ensures asked == old(asked) + Drops(old(box), box) + (if l.LoadFailed? then Restarts(l.head, old(box)) else {})
      ensures l.LoadFailed? && l.head.Head? ==> forall k | k in box && !box[k].closed :: Seen(box[k]) == Seen(old(box)[k]) + [Resync(l.head.logSeq)]
      ensures l.LoadFailed? && l.head.Unreadable? ==> forall k | k in old(box) && !old(box)[k].closed :: Ask(k, ServiceRestart) in asked
    {
      NoDrops(box, box);
      match l
      case Loaded(fm) => FanOut(fm);
      case LoadFailed(h) => GapNotice(h);
      case _ => forall k | k in box ensures Got(box[k], box[k], []) { GotNothing(box[k]); }
    }

    /** Severs some sessions under one lock. */
    method SeverEach(ids: set<nat>, status: Status)
      requires Valid() && ids <= box.Keys
      modifies this`index, this`box, this`count, this`drained, this`asked
      ensures Valid() && box.Keys == old(box.Keys)
      ensures asked == old(asked) + Asks(ids, status)
      ensures forall k | k in box :: box[k] == if k in ids then old(box)[k].(closed := true) else old(box)[k]
    {
      var todo := ids;
      while todo != {}
        invariant Valid() && box.Keys == old(box.Keys) && todo <= ids && asked == old(asked)
        invariant forall k | k in box :: box[k] == if k in ids - todo then old(box)[k].(closed := true) else old(box)[k]
      {
        var i :| i in todo;
        var _ := RemoveLocked(i);
        todo := todo - {i};
      }
      asked := asked + Asks(ids, status);
    }

    /** A revocation closes exactly the open sessions it names. */
    method OnRevocation(p: Subject)
      requires Valid()
      modifies this`index, this`box, this`count, this`drained, this`asked
      ensures Valid() && box.Keys == old(box.Keys)
      ensures forall k | k in box :: box[k] == if Matches(p, old(box)[k]) then old(box)[k].(closed := true) else old(box)[k]
      ensures asked == old(asked) + Asks(NamedIn(old(box), p), Revoked)
      ensures forall k | k in box ::
                box[k].closed <==> old(box)[k].closed || match p
                                                          case Device(d) => old(box)[k].device == d
                                                          case User(u) => old(box)[k].user == u
                                                          case Both(d, u) => old(box)[k].device == d || old(box)[k].user == u
                                                          case Nobody => false
    {
      SeverEach(NamedIn(box, p), Revoked);
    }

    /** The end of a gap re-check over the sessions it had listed: the dead ones are
        revoked; when the database could not say, all of them are asked to come back. */
    method FinishRecheck(all: set<nat>, known: bool, dead: set<nat>)
      requires Valid() && all <= box.Keys
      modifies this`index, this`box, this`count, this`drained, this`asked
      ensures Valid() && box.Keys == old(box.Keys)
      ensures forall k | k in box ::
                box[k] == if k in all && (known ==> old(box)[k].device in dead) then old(box)[k].(closed := true) else old(box)[k]
      ensures asked == old(asked) + (if known then Asks(OnDevices(old(box), all, dead), Revoked) else Asks(all, ServiceRestart))
    {
      if known {
        SeverEach(OnDevices(box, all, dead), Revoked);
      } else {
        SeverEach(all, ServiceRestart);
      }
    }

    /** The drain begins: nobody is indexed from here on, everybody indexed is asked to
        go, and an empty hub is drained at once. */
    method Shutdown()
      requires Valid()
      modifies this`closing, this`drained, this`asked
      ensures Valid() && closing && asked == old(asked) + Asks(Live(box), GoingAway)
      ensures drained <==> Live(box) == {}
    {
      closing := true;
      asked := asked + Asks(Live(box), GoingAway);
      if count == 0 && !drained {
        CloseDrained();
      }
    }

    /** One operation, whichever goroutine runs it. */
    method Act(op: Op)
      requires Valid() && (op.Join? ==> op.id !in box) && (op.Notify? && op.loaded.Loaded? ==> Distinct(op.loaded.fm.members))
      modifies this
      ensures Valid() && Acted(old(box), box, old(asked), asked, op)
      ensures box.Keys <= old(box.Keys) + (if op.Join? then {op.id} else {})
    {
      match op
      case Notify(l) => OnNotify(l); GotActs(old(box), box, old(asked), asked, op);
      case Gapped(h) => GapNotice(h); GotActs(old(box), box, old(asked), asked, op);
      case Reemit(u, fs) => EnqueueUser(u, fs); GaveActs(old(box), box, old(asked), asked, op);
      case Join(i, u, d) => var _ := Attach(i, u, d); JoinActs(old(box), box, old(asked), asked, op);
      case Drain => Shutdown(); EndActs(old(box), box, old(asked), asked, op);
      case Leave(i) =>
        if i in box { var _ := RemoveLocked(i); }
        EndActs(old(box), box, old(asked), asked, op);
      case _ => End(op);
    }

    /** A revocation, or the end of a re-check. */
    method End(op: Op)
      requires Valid() && (op.Revoke? || op.Recheck?)
      modifies this
      ensures Valid() && box.Keys == old(box.Keys) && Acted(old(box), box, old(asked), asked, op)
    {
      match op
      case Revoke(p) => OnRevocation(p);
      case Recheck(all, known, dead) => FinishRecheck(all * box.Keys, known, dead);
      EndActs(old(box), box, old(asked), asked, op);
    }

    /** The process serving: the listener, the sessions, the doors and the drain take the
        lock in whatever order. */
    method Serve(ops: seq<Op>)
      requires Valid() && FreshJoins(ops, box)
      requires forall n | 0 <= n < |ops| && ops[n].Notify? && ops[n].loaded.Loaded? :: Distinct(ops[n].loaded.fm.members)
      modifies this
      ensures Valid() && old(asked) <= asked && Served(old(box), box, asked, ops)
    {
      var n := 0;
      ServedNone(box, asked);
      assert ops[..0] == [];
      while n < |ops|
        invariant 0 <= n <= |ops| && Valid() && old(asked) <= asked
        invariant Served(old(box), box, asked, ops[..n])
        invariant forall m | n <= m < |ops| && ops[m].Join? :: ops[m].id !in box
      {
        ghost var before, asks := box, asked;
        Act(ops[n]);
        ServedMore(old(box), before, box, asks, asked, ops[..n], ops[n]);
        assert ops[..n] + [ops[n]] == ops[..n + 1];
        n := n + 1;
      }
      assert ops[..n] == ops;
    }
  }

  /** After the first `n` members: who is among them has the frames, nobody else has
      anything. */
  predicate HandedSoFar(b: Box<Frame>, c: Box<Frame>, fm: Fanout, n: nat)
    requires n <= |fm.members|
  {
    if b.user in fm.members[..n] then Got(b, c, FramesFor(fm, b.user)) else c == b
  }

  lemma NextMember(a: Box<Frame>, b: Box<Frame>, c: Box<Frame>, fm: Fanout, n: nat)
    requires n < |fm.members| && Distinct(fm.members) && HandedSoFar(a, b, fm, n)
    requires if b.user == fm.members[n] && !b.closed then Got(b, c, FramesFor(fm, fm.members[n])) else c == b
    ensures HandedSoFar(a, c, fm, n + 1)
  {
    assert fm.members[..n + 1] == fm.members[..n] + [fm.members[n]];
    assert fm.members[n] !in fm.members[..n];
  }

  lemma PushNone(a: Box<Frame>, b: Box<Frame>, f: Frame)
    requires Taken(a, b) && !a.closed
    requires |b.out| == OUTBOX_BOUND
    ensures Got(a, b.(closed := true), [f])
  {
    assert Seen(b.(closed := true)) == Seen(a) + [f][..0];
  }

  lemma AfterMember(first: Boxes, before: Boxes, box: Boxes, fm: Fanout, n: nat)
    requires n < |fm.members| && Distinct(fm.members) && first.Keys == before.Keys
    requires forall k | k in before :: HandedSoFar(first[k], before[k], fm, n)
    requires GaveEach(before, box, OpenOf(before, fm.members[n]), FramesFor(fm, fm.members[n]))
    ensures box.Keys == first.Keys && forall k | k in box :: HandedSoFar(first[k], box[k], fm, n + 1)
    ensures Drops(first, before) + Drops(before, box) == Drops(first, box)
  {
    GaveIs(before, box, OpenOf(before, fm.members[n]), FramesFor(fm, fm.members[n]));
    forall k | k in box ensures HandedSoFar(first[k], box[k], fm, n + 1) {
      NextMember(first[k], before[k], box[k], fm, n);
    }
    MoreDrops(first, before, box);
  }

  lemma NoDrops(before: Boxes, box: Boxes)
    requires forall k | k in before && k in box :: before[k].closed == box[k].closed
    ensures Drops(before, box) == {}
  {
  }

  lemma MoreDrops(first: Boxes, before: Boxes, box: Boxes)
    requires first.Keys == before.Keys == box.Keys
    requires forall k | k in first :: (first[k].closed ==> before[k].closed) && (before[k].closed ==> box[k].closed)
    ensures Drops(first, before) + Drops(before, box) == Drops(first, box)
  {
  }

  function OpenOf(box: Boxes, u: nat): set<nat> { set i | i in box && box[i].user == u && !box[i].closed }

  /** Some sessions were handed the frames, and nobody else was touched. */
  predicate GaveEach(before: Boxes, box: Boxes, ids: set<nat>, fs: seq<Frame>) {
    box.Keys == before.Keys && forall k {:trigger Reached(before, box, ids, fs, k)} | k in box :: Reached(before, box, ids, fs, k)
  }

  predicate Reached(before: Boxes, box: Boxes, ids: set<nat>, fs: seq<Frame>, k: nat)
    requires k in before && k in box
  {
    if k in ids then Got(before[k], box[k], fs) else box[k] == before[k]
  }

  lemma GaveIs(before: Boxes, box: Boxes, ids: set<nat>, fs: seq<Frame>)
    requires GaveEach(before, box, ids, fs)
    ensures forall k | k in box :: if k in ids then Got(before[k], box[k], fs) else box[k] == before[k]
  {
    forall k | k in box ensures if k in ids then Got(before[k], box[k], fs) else box[k] == before[k] {
      assert Reached(before, box, ids, fs, k);
    }
  }

  /** The same, and exactly the sessions it closed were dropped. */
  predicate Gave(asks: set<Ask>, asked: set<Ask>, before: Boxes, box: Boxes, ids: set<nat>, fs: seq<Frame>) {
    GaveEach(before, box, ids, fs) && asked == asks + Drops(before, box)
  }

  /** What taking frames off an outbox does to it. */
  predicate Taken(a: Box<Frame>, b: Box<Frame>) {
    b == a.(wire := b.wire, out := b.out) && Seen(b) == Seen(a) && |b.out| <= |a.out| && a.wire <= b.wire
  }

  /** One frame to one open session whose outbox is `b` once its goroutine has been at it. */
  lemma GaveOne(asks: set<Ask>, before: Boxes, b: Box<Frame>, i: nat, f: Frame)
    requires i in before && !before[i].closed && Taken(before[i], b)
    requires |b.out| <= OUTBOX_BOUND
    ensures if |b.out| < OUTBOX_BOUND then Gave(asks, asks, before, before[i := b.(out := b.out + [f])], {i}, [f])
            else Gave(asks, asks + {Ask(i, Dropped)}, before, before[i := b.(closed := true)], {i}, [f])
  {
    if |b.out| < OUTBOX_BOUND {
      NoDrops(before, before[i := b.(out := b.out + [f])]);
    } else {
      PushNone(before[i], b, f);
    }
  }

  lemma GaveTwice(asks: set<Ask>, mid: set<Ask>, asked: set<Ask>, first: Boxes, before: Boxes, box: Boxes, ids: set<nat>, fs: seq<Frame>, gs: seq<Frame>)
    requires Gave(asks, mid, first, before, ids, fs)
    requires Gave(mid, asked, before, box, ids, gs)
    ensures Gave(asks, asked, first, box, ids, fs + gs)
  {
    GaveIs(first, before, ids, fs);
    GaveIs(before, box, ids, gs);
    MoreDrops(first, before, box);
    forall k | k in box && k in ids ensures Got(first[k], box[k], fs + gs) { GotTwice(first[k], before[k], box[k], fs, gs); }
  }

  lemma GaveOneMore(asks: set<Ask>, mid: set<Ask>, asked: set<Ask>, first: Boxes, before: Boxes, box: Boxes, ids: set<nat>, i: nat, fs: seq<Frame>)
    requires Gave(asks, mid, first, before, ids, fs)
    requires Gave(mid, asked, before, box, {i}, fs) && i !in ids
    ensures Gave(asks, asked, first, box, ids + {i}, fs)
  {
    GaveIs(first, before, ids, fs);
    GaveIs(before, box, {i}, fs);
    MoreDrops(first, before, box);
  }

  lemma GotActs(before: Boxes, box: Boxes, asks: set<Ask>, asked: set<Ask>, op: Op)
    requires (op.Notify? || op.Gapped?) && box.Keys == before.Keys
    requires forall k | k in box :: Got(before[k], box[k], Hands(op, before[k].user))
    requires asks + Drops(before, box) <= asked && (Lost(op) ==> Asks(Live(before), ServiceRestart) <= asked)
    ensures Acted(before, box, asks, asked, op)
  {
    forall k | k in box ensures ActedAt(before, box, asked, op, k) {
      GotWent(before[k], box[k], Hands(op, before[k].user));
      if box[k].closed && !before[k].closed { assert Ask(k, Dropped) in Drops(before, box); }
      if !before[k].closed { assert Lost(op) ==> Ask(k, ServiceRestart) in Asks(Live(before), ServiceRestart); }
    }
  }

  lemma GaveActs(before: Boxes, box: Boxes, asks: set<Ask>, asked: set<Ask>, op: Op)
    requires op.Reemit? && Gave(asks, asked, before, box, OpenOf(before, op.user), op.frames)
    ensures Acted(before, box, asks, asked, op)
  {
    GaveIs(before, box, OpenOf(before, op.user), op.frames);
    forall k | k in box ensures ActedAt(before, box, asked, op, k) {
      if k in OpenOf(before, op.user) { GotWent(before[k], box[k], op.frames); }
      if box[k].closed && !before[k].closed { assert Ask(k, Dropped) in Drops(before, box); }
    }
  }

  lemma JoinActs(before: Boxes, box: Boxes, asks: set<Ask>, asked: set<Ask>, op: Op)
    requires op.Join? && op.id !in before && asks <= asked
    requires box == before || box == before[op.id := Box(op.user, op.device, [], [], false)]
    ensures Acted(before, box, asks, asked, op)
  {
    forall k | k in box ensures ActedAt(before, box, asked, op, k) { }
  }

  lemma EndActs(before: Boxes, box: Boxes, asks: set<Ask>, asked: set<Ask>, op: Op)
    requires (op.Leave? || op.Revoke? || op.Recheck? || op.Drain?) && asks <= asked && box.Keys == before.Keys
    requires forall k | k in box :: box[k] == if Ends(op, before[k], k) then before[k].(closed := true) else before[k]
    requires op.Drain? ==> Asks(Live(before), GoingAway) <= asked
    ensures Acted(before, box, asks, asked, op)
  {
    forall k | k in box ensures ActedAt(before, box, asked, op, k) {
      if !before[k].closed { assert op.Drain? ==> Ask(k, GoingAway) in Asks(Live(before), GoingAway); }
    }
  }
}
