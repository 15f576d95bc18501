/**
 A commit that nobody hears can be lost, from every state in which it happens: what is
 under way runs out, the listener subscribes, and the device rests without the row.
 */
module SyncUnheard {
  import opened MessageLog
  import opened ClientSync
  import opened Outbox
  import opened SyncRun
  import opened SyncSteps
  import opened SyncReach
  import opened SyncTheorems

  // --- what a settled device holds ----------------------------------------------

  /** The client has still to be told to catch up, or will be when the listener is next down. */
  predicate Unsettled(s: State) {
    !s.sess.Session? || s.sess.closing || !s.readied || Queued(s.sess, Resync) || s.inst.connected
  }

  predicate Has(c: Catch, r: Row) { Held(c.store, r) || CatchUpOwes(c, r) }

  predicate HasAll(s: State) { forall r | r in s.log && Visible(s.rooms, r) :: Has(s.c, r) }

  predicate OneReady(w: seq<Frame>) { forall i, j | 0 <= i < j < |w| && w[i].Ready? :: !w[j].Ready? }

  /** A session carries one `ready`. */
  predicate ReadyOnce(s: State) {
    s.sess.Session? ==> OneReady(s.sess.wire) && (s.readied ==> NoReady(s.sess.wire))
  }

  /** Beside `Core`: no row rides on a frame alone, and every frame can be rendered. */
  ghost predicate Sound(s: State) {
    Core(s) && (Unsettled(s) || HasAll(s)) && ReadyOnce(s) && RenderOk(s.c)
  }

  lemma UnsettledStep(s: State, e: Event)
    requires Core(s) && Enabled(s, e) && Unsettled(s)
    ensures Unsettled(Do(s, e)) || WillAsk(Do(s, e).c)
  {
    if OfHub(e) && s.sess.Session? {
      UnsettledHub(s, e);
    } else if e.Pump? {
      assert s.sess.outbox == [s.sess.outbox[0]] + s.sess.outbox[1..];
    } else if e.Receive? {
      assert s.sess.wire == [s.sess.wire[0]] + s.sess.wire[1..];
    }
  }

  lemma UnsettledHub(s: State, e: Event)
    requires Core(s) && OfHub(e) && Enabled(s, e) && s.sess.Session?
    requires Unsettled(s)
    ensures Unsettled(Do(s, e))
  {
    if e.Reemit? {
      HandedKeeps(s.sess, e.to, [Msg(e.row)]);
    } else if e.Gap? && e.headRead {
      HandedKeeps(s.sess, e.to, [Resync]);
    }
  }

  lemma StepHas(s: State, e: Event, r: Row)
    requires Core(s) && Enabled(s, e) && !Unsettled(s)
    requires r in s.log && Visible(s.rooms, r) && Has(s.c, r)
    ensures Unsettled(Do(s, e)) || Has(Do(s, e).c, r)
  {
    if !e.Kill? {
      StepKeepsOwed(s, e, r);
    }
  }

  /** A commit is heard or finds the device unsettled; nothing else adds a row. */
  lemma StepHasAll(s: State, e: Event)
    requires Core(s) && Enabled(s, e) && Safe(s, e) && (Unsettled(s) || HasAll(s))
    ensures Unsettled(Do(s, e)) || HasAll(Do(s, e))
  {
    var t := Do(s, e);
    if Unsettled(s) {
      UnsettledStep(s, e);
    } else if !Unsettled(t) {
      forall r | r in t.log && Visible(t.rooms, r) ensures Has(t.c, r) {
        if r in s.log { StepHas(s, e, r); }
      }
    }
  }

  // --- one `ready` a session ------------------------------------------------------

  lemma HandedWire(s: Sess, t: Sess, fs: seq<Frame>)
    requires s.Session? && HandedOver(s, t, fs) && NoReady(s.outbox) && NoReady(fs) && OneReady(s.wire)
    ensures t.Session? && OneReady(t.wire) && (NoReady(s.wire) ==> NoReady(t.wire))
  {
    HandedKeeps(s, t, fs);
    if s.indexed {
      WireGrows(BoxOf(s), BoxOf(t), fs);
    }
  }

  lemma WireGrows(b: Box<Frame>, c: Box<Frame>, fs: seq<Frame>)
    requires Got(b, c, fs) && !b.closed && NoReady(b.out) && NoReady(fs)
    ensures forall i | |b.wire| <= i < |c.wire| :: !c.wire[i].Ready?
    ensures forall i | 0 <= i < |b.wire| :: c.wire[i] == b.wire[i]
  {
    var gs := if c.closed then var k: nat :| k < |fs| && Seen(c) == Seen(b) + fs[..k]; fs[..k] else fs;
    assert Seen(c) == b.wire + (b.out + gs);
    forall i | |b.wire| <= i < |c.wire| ensures !c.wire[i].Ready? {
      assert c.wire[i] == Seen(c)[i] == (b.out + gs)[i - |b.wire|];
      assert c.wire[i] in b.out || c.wire[i] in fs;
    }
  }

  lemma HubReadyOnce(s: State, e: Event)
    requires Core(s) && OfHub(e) && Enabled(s, e) && ReadyOnce(s)
    ensures ReadyOnce(Do(s, e))
  {
    if s.sess.Session? {
      if e.Reemit? {
        HandedWire(s.sess, e.to, [Msg(e.row)]);
      } else if e.Gap? && e.headRead {
        HandedWire(s.sess, e.to, [Resync]);
      } else if e.Deliver? && e.loaded && Visible(s.rooms, s.inst.queue[0]) {
        HandedWire(s.sess, e.to, FanOut(s.inst.queue[0], e.users));
      }
    }
  }

  lemma StepReadyOnce(s: State, e: Event)
    requires Core(s) && Enabled(s, e) && ReadyOnce(s)
    ensures ReadyOnce(Do(s, e))
  {
    if OfHub(e) {
      HubReadyOnce(s, e);
    } else if e.Pump? {
      assert s.sess.outbox[0] in s.sess.outbox;
    } else if e.SendReady? {
      assert forall i | 0 <= i < |s.sess.wire| :: s.sess.wire[i] in s.sess.wire;
    } else if e.Receive? {
      assert forall f | f in s.sess.wire[1..] :: exists j :: 0 < j < |s.sess.wire| && s.sess.wire[j] == f;
    }
  }

  lemma {:induction false} RunIsSound(s: State, es: seq<Event>)
    requires Sound(s) && Run(s, es) && SafeRun(s, es)
    ensures Sound(After(s, es))
    decreases |es|
  {
    if es != [] {
      CoreStep(s, es[0]);
      StepHasAll(s, es[0]);
      StepReadyOnce(s, es[0]);
      StepKeepsRenderable(s, es[0]);
      RunIsSound(Do(s, es[0]), es[1..]);
    }
  }

  // --- what is under way runs out -------------------------------------------------

  /** The row is not held, and no page that is out carries it. */
  predicate Missing(c: Catch, r: Row) {
    r.id !in c.store.messages && (c.pass.Answered? ==> forall q | q in c.pass.page.rows :: q.id != r.id)
  }

  /** All but the row are held, and nothing the client does brings it. */
  ghost predicate Lacks(s: State, r: Row) {
    && Core(s) && RenderOk(s.c) && Missing(s.c, r) && !WillAsk(s.c)
    && (forall q | q in s.log && Visible(s.rooms, q) && q != r :: Has(s.c, q))
  }

  lemma PassEnds(s0: State, s: State, e: Event, r: Row)
    requires Reaches(s0, s, true) && Lacks(s, r) && Enabled(s, e) && (e.LandPage? || e.Decide?)
    ensures Reaches(s0, Do(s, e), true) && Lacks(Do(s, e), r)
    ensures e.Decide? ==> CaughtUp(Do(s, e).c) && Do(s, e).c.pass.Idle?
    ensures Do(s, e) == s.(c := Do(s, e).c)
  {
    ReachStep(s0, s, e, true);
    CoreStep(s, e);
    StepKeepsRenderable(s, e);
    forall q | q in s.log && Visible(s.rooms, q) && q != r ensures Has(Do(s, e).c, q) { StepKeepsOwed(s, e, q); }
    PassMisses(s, e, r);
  }

  lemma PassMisses(s: State, e: Event, r: Row)
    requires Enabled(s, e) && (e.LandPage? || e.Decide?) && Missing(s.c, r) && !WillAsk(s.c)
    ensures Missing(Do(s, e).c, r) && !WillAsk(Do(s, e).c)
    ensures Do(s, e) == s.(c := Do(s, e).c)
  {
    if e.LandPage? {
      RecordAllKeys(s.c.store, s.c.pass.page.rows, r.id);
      RecordAllFrame(s.c.store, s.c.pass.page.rows);
    }
  }

  /** The last page of the catch-up lands, and the catch-up ends. */
  lemma PassRunsOut(s0: State, s: State, r: Row) returns (t: State)
    requires Reaches(s0, s, true) && Lacks(s, r)
    ensures Reaches(s0, t, true) && Lacks(t, r) && CaughtUp(t.c) && t.c.pass.Idle? && t == s.(c := t.c)
  {
    t := s;
    if t.c.pass.Answered? {
      PassEnds(s0, t, LandPage, r);
      t := Do(t, LandPage);
    }
    if t.c.pass.Landed? {
      PassEnds(s0, t, Decide, r);
      t := Do(t, Decide);
    }
  }

  /** A frame that tells the client nothing new. */
  predicate Stale(st: Store, f: Frame) {
    match f
    case Msg(m) => Held(st, m) && Known(st, m)
    case Conv(_) => true
    case User(_) => true
    case _ => false
  }

  predicate AllStale(st: Store, fs: seq<Frame>) { forall f | f in fs :: Stale(st, f) }

  predicate Drainable(s: State) {
    && s.sess.Session? && s.readied && !s.c.owed
    && AllStale(s.c.store, s.sess.wire) && AllStale(s.c.store, s.sess.outbox)
  }

  lemma ReadingStale(c: Catch, f: Frame)
    requires Stale(c.store, f)
    ensures var st := Read(c, f).store;
            && Read(c, f) == c.(store := c.store.(convs := st.convs, users := st.users))
            && c.store.convs <= st.convs && c.store.users <= st.users
  {
    if f.Msg? {
      assert c.store.messages[f.row.id := f.row] == c.store.messages;
    }
  }

  /** The same but for records. */
  predicate Alike(s: State, t: State) {
    && t == s.(sess := t.sess, c := t.c)
    && t.c == s.c.(store := s.c.store.(convs := t.c.store.convs, users := t.c.store.users))
  }

  lemma DrainReceive(s: State)
    requires Drainable(s) && s.sess.wire != []
    ensures Enabled(s, Receive) && Safe(s, Receive)
    ensures var t := Do(s, Receive); Drainable(t) && Alike(s, t) && t.sess == s.sess.(wire := s.sess.wire[1..])
  {
    var f := s.sess.wire[0];
    assert f in s.sess.wire;
    ReadingStale(s.c, f);
    assert forall g | g in s.sess.wire[1..] :: g in s.sess.wire;
  }

  lemma DrainPump(s: State)
    requires Drainable(s) && s.sess.outbox != []
    ensures Enabled(s, Pump) && Safe(s, Pump)
    ensures var t := Do(s, Pump); Drainable(t) && Alike(s, t) && t.sess.outbox == s.sess.outbox[1..]
    ensures var t := Do(s, Pump); t.sess == s.sess.(wire := t.sess.wire, outbox := t.sess.outbox) && |t.sess.wire| == |s.sess.wire| + 1
  {
    assert forall g | g in s.sess.outbox[1..] :: g in s.sess.outbox;
    assert s.sess.outbox[0] in s.sess.outbox;
  }

  lemma {:induction false} QueuesRunOut(s0: State, s: State) returns (t: State)
    requires Reaches(s0, s, true) && Drainable(s)
    ensures Reaches(s0, t, true) && Alike(s, t) && t.sess == s.sess.(wire := [], outbox := [])
    decreases 2 * |s.sess.outbox| + |s.sess.wire|
  {
    if s.sess.wire != [] {
      DrainReceive(s);
      ReachStep(s0, s, Receive, true);
      t := QueuesRunOut(s0, Do(s, Receive));
    } else if s.sess.outbox != [] {
      DrainPump(s);
      ReachStep(s0, s, Pump, true);
      t := QueuesRunOut(s0, Do(s, Pump));
    } else {
      t := s;
    }
  }

  // --- the loss -------------------------------------------------------------------

  lemma CommitLeaves(s: State, r: Row)
    requires Sound(s) && Enabled(s, Commit(r)) && !Heard(s, Commit(r))
    ensures Lacks(Do(s, Commit(r)), r)
    ensures Do(s, Commit(r)) == s.(log := s.log + [r], head := r.logSeq)
  {
    CoreCommit(s, r);
    var more := s.log + [r];
    assert forall i | 0 <= i < |s.log| :: more[i] == s.log[i] && more[i].id != more[|s.log|].id;
    assert forall q | q in s.log :: q.id != r.id;
  }

  lemma LeftIsDrainable(s: State, t: State, r: Row)
    requires Sound(s) && !Unsettled(s) && Lacks(t, r)
    requires CaughtUp(t.c) && t.sess == s.sess && t.readied && t.rooms == s.rooms && t.log == s.log + [r]
    requires r !in s.log
    ensures Drainable(t)
  {
    forall f | f in t.sess.wire || f in t.sess.outbox ensures Stale(t.c.store, f) {
      if f.Msg? {
        assert f.row in s.log && Visible(s.rooms, f.row) && f.row in t.log;
        assert Has(t.c, f.row);
        assert t.c.store.messages[f.row.id] == f.row;
      }
    }
  }

  /** AN UNHEARD COMMIT CAN ALWAYS BE LOST.  After any safe run, a commit nobody hears has a
      continuation in which nothing goes wrong, the last page lands, the queues drain, the
      listener subscribes, and the device rests with every other row and without this one. */
  lemma UnheardIsLost(s0: State, es: seq<Event>, r: Row) returns (n: State)
    requires Init(s0) && Run(s0, es) && SafeRun(s0, es)
    requires Enabled(After(s0, es), Commit(r)) && !Heard(After(s0, es), Commit(r))
    ensures var t := Do(After(s0, es), Commit(r));
            Reaches(t, n, true) && Quiet(n) && n.log == t.log && n.rooms == t.rooms && r in n.log && !Held(n.c.store, r)
  {
    InitKeepsInv(s0);
    RunIsSound(s0, es);
    var s := After(s0, es);
    CommitLeaves(s, r);
    var t := Do(s, Commit(r));
    ReachSelf(t, true);
    var u := PassRunsOut(t, t, r);
    assert r !in s.log by { CommitFreshens(s, r); }
    LeftIsDrainable(s, u, r);
    var v := QueuesRunOut(t, u);
    n := Do(v, Listen);
    ReachStep(t, v, Listen, true);
  }

  lemma CommitFreshens(s: State, r: Row)
    requires Enabled(s, Commit(r)) && LogOk(s.log, s.head)
    ensures r !in s.log
  {
  }

  ghost predicate Losable(t: State, r: Row) {
    exists n :: Reaches(t, n, true) && Quiet(n) && r in n.log && !Held(n.c.store, r)
  }

  /** EXACTLY WHEN A COMMIT CAN BE LOST.  After any safe run, a visible row's commit has a safe
      continuation to rest without the row if and only if it is not heard. */
  lemma LosableIff(s0: State, es: seq<Event>, r: Row)
    requires Init(s0) && Run(s0, es) && SafeRun(s0, es)
    requires Enabled(After(s0, es), Commit(r)) && Visible(s0.rooms, r)
    ensures Losable(Do(After(s0, es), Commit(r)), r) <==> !Heard(After(s0, es), Commit(r))
  {
    var s := After(s0, es);
    var t := Do(s, Commit(r));
    if !Heard(s, Commit(r)) {
      var n := UnheardIsLost(s0, es, r);
    } else {
      InitKeepsInv(s0);
      RunKeepsInv(s0, es);
      RunKeepsRooms(s0, es);
      Step(s, Commit(r));
      forall n | Reaches(t, n, true) && Quiet(n) && r in n.log ensures Held(n.c.store, r) { RestHolds(t, n, r); }
    }
  }

  lemma RestHolds(t: State, n: State, r: Row)
    requires Inv(t) && Reaches(t, n, true) && Quiet(n) && r in n.log && Visible(t.rooms, r)
    ensures Held(n.c.store, r)
  {
    var es :| Run(t, es) && SafeRun(t, es) && After(t, es) == n;
    RunKeepsInv(t, es);
    RunKeepsRooms(t, es);
    assert Accounted(n, r);
  }

  lemma {:induction false} RunKeepsRooms(s: State, es: seq<Event>)
    requires Run(s, es)
    ensures After(s, es).rooms == s.rooms
    decreases |es|
  {
    if es != [] {
      RunKeepsRooms(Do(s, es[0]), es[1..]);
    }
  }
}
