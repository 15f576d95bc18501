/**
 Where the promise of `SyncTheorems` stops, exactly.

 Two steps break it, and each is met by a run of the client and server as they
 are.  A catch-up that has paged keeps its position across a wipe, so a request can
 be issued from where the discarded store had got to; and a listener's first
 subscription raises no gap, so what commits before it to a session already caught up
 is heard by nobody.
 */
module SyncLimits {
  import opened MessageLog
  import opened ClientSync
  import opened SyncRun
  import opened SyncSteps
  import opened SyncReach
  import opened SyncTheorems

  // --- the exact condition on a request -----------------------------------------

  /** A page keeps the cursor's meaning exactly when nothing visible and not held
      lies between the cursor and where the page was asked from. */
  lemma LandCoversIff(st: Store, p: Page, log: seq<Row>, head: nat, rooms: set<nat>, after: nat)
    requires LogOk(log, head) && StoreOk(st, log, rooms)
    requires PageFull(p, log, rooms, after) && CursorOk(st)
    ensures Covered(Land(st, p), log, rooms) <==>
            forall q | q in log && Visible(rooms, q) && st.cursor < q.logSeq <= after && q.logSeq <= p.logSeq :: Held(st, q)
  {
    forall q | q in log ensures Held(Land(st, p), q) <==> Held(st, q) || q in p.rows {
      LandHolds(st, p, log, head, rooms, q);
    }
  }

  /** The page a request issued now gets. */
  function PageFor(s: State, asked: int): Page
    requires s.c.pass.Armed?
  {
    Sync(s.log, s.head, s.rooms, CursorRead(s.c).pass.after, asked, {}, {})
  }

  /** Issuing a request, the server answering it, and the page landing. */
  function Asking(s: State, asked: int): State
    requires s.c.pass.Armed?
  {
    s.(c := PageLanded(PageReceived(CursorRead(s.c), PageFor(s, asked))))
  }

  lemma AskingRuns(s: State, asked: int)
    requires s.c.pass.Armed?
    ensures Reaches(s, Asking(s, asked), false)
  {
    ReachSelf(s, false);
    ReachStep(s, s, ReadCursor, false);
    ReachLanded(s, s.(c := CursorRead(s.c)), asked, PageFor(s, asked), false);
  }

  lemma PageForIs(s: State, asked: int)
    requires Core(s) && s.c.pass.Armed?
    ensures var after, p := CursorRead(s.c).pass.after, PageFor(s, asked);
            && PageFull(p, s.log, s.rooms, after) && after <= p.logSeq <= s.head && (p.hasMore ==> after < p.logSeq)
            && Asking(s, asked).c.store == Land(s.c.store, p)
  {
    SyncIsExact(s.log, s.head, s.rooms, CursorRead(s.c).pass.after, asked, {}, {});
  }

  /** EXACTLY WHEN A REQUEST LEAVES A HOLE.  Asked and landed with nothing in between, a
      request keeps the cursor's meaning if and only if every visible row at or below the
      position it is issued from is held. */
  lemma RequestCoversIff(s: State, asked: int)
    requires Core(s) && CursorOk(s.c.store) && s.c.pass.Armed?
    ensures Reaches(s, Asking(s, asked), false)
    ensures Covered(Asking(s, asked).c.store, s.log, s.rooms) <==> SafeAsk(s, ReadCursor)
  {
    AskingRuns(s, asked);
    PageForIs(s, asked);
    LandCoversIff(s.c.store, PageFor(s, asked), s.log, s.head, s.rooms, CursorRead(s.c).pass.after);
  }

  /** So only a position that an earlier epoch reached can do it. */
  lemma FreshPositionSkipsNothing(s: State)
    requires Core(s) && s.c.pass.Armed?
    requires (s.c.pass.next.From? ==> s.c.pass.next.epoch == s.c.store.wipes)
    ensures SafeAsk(s, ReadCursor)
  {
  }

  // --- the exact condition on a commit --------------------------------------------

  /** EXACTLY WHEN A COMMIT IS FORGOTTEN. */
  lemma CommitForgetsIff(s: State, r: Row)
    requires Inv(s) && Enabled(s, Commit(r))
    ensures NoneLost(Do(s, Commit(r))) <==> Heard(s, Commit(r))
  {
    var t := Do(s, Commit(r));
    assert r in t.log;
    if Visible(s.rooms, r) {
      CommitAccountsIff(s, r);
    }
    if Heard(s, Commit(r)) {
      Step(s, Commit(r));
    }
  }

  // --- a loss is for good -------------------------------------------------------

  /** Nothing under way asks from below `q`, or carries it. */
  predicate Passed(c: Catch, head: nat, q: Row) {
    match c.pass
    case Top(n) => n.From? ==> q.logSeq <= n.pos
    case Armed(_, n) => n.From? ==> q.logSeq <= n.pos
    case Asked(_, _, after) => q.logSeq <= after
    case Answered(_, _, after, p) => q.logSeq <= after && q !in p.rows && p.logSeq <= head && (p.hasMore ==> after < p.logSeq)
    case Landed(_, epoch, applied, p) => applied && p.hasMore ==> q.logSeq <= p.logSeq
    case Idle => true
  }

  /** `q` is at or below the cursor, not held, and nothing under way carries it. */
  predicate Gone(s: State, q: Row) {
    && LogOk(s.log, s.head) && s.c.store.hasCursor && q.logSeq <= s.c.store.cursor <= s.head && !Held(s.c.store, q)
    && q !in s.inst.queue && (s.sess.Session? ==> !Queued(s.sess, Msg(q)))
    && Passed(s.c, s.head, q)
  }

  /** Nothing brings a gone row back but a new epoch, or a notification or a
      re-emission of that very row. */
  predicate Brings(e: Event, q: Row) {
    (e.Reemit? && e.row == q) || (e.Dial? && q in e.landed.queue)
  }

  lemma HandedKeepsGone(s: State, to: Sess, fs: seq<Frame>, q: Row)
    requires Gone(s, q) && HandedOver(s.sess, to, fs) && Msg(q) !in fs
    ensures Gone(s.(sess := to), q)
  {
    if s.sess.Session? {
      HandedKeeps(s.sess, to, fs);
    }
  }

  lemma HubKeepsGone(s: State, e: Event, q: Row)
    requires Gone(s, q) && OfHub(e) && Enabled(s, e) && !Brings(e, q)
    ensures Gone(Do(s, e), q)
  {
    if e.Deliver? {
      assert s.inst.queue[0] in s.inst.queue;
      assert forall r | r in s.inst.queue[1..] :: r in s.inst.queue;
      if e.loaded && Visible(s.rooms, s.inst.queue[0]) { HandedKeepsGone(s, e.to, FanOut(s.inst.queue[0], e.users), q); }
    } else if e.Gap? {
      if e.headRead { HandedKeepsGone(s, e.to, [Resync], q); }
    } else {
      HandedKeepsGone(s, e.to, [Msg(e.row)], q);
    }
  }

  lemma InstanceKeepsGone(s: State, e: Event, q: Row)
    requires Gone(s, q) && OfInstance(e) && Enabled(s, e)
    ensures Gone(Do(s, e), q)
  {
  }

  lemma SessionKeepsGone(s: State, e: Event, q: Row)
    requires Gone(s, q) && OfSession(e) && Enabled(s, e)
    ensures Gone(Do(s, e), q)
  {
  }

  lemma ReceiveKeepsGone(s: State, q: Row)
    requires Gone(s, q) && Enabled(s, Receive)
    requires Do(s, Receive).c.store.wipes == s.c.store.wipes
    ensures Gone(Do(s, Receive), q)
  {
    var f := s.sess.wire[0];
    assert f in s.sess.wire;
    assert forall g | g in s.sess.wire[1..] :: g in s.sess.wire;
  }

  lemma LinkKeepsGone(s: State, e: Event, q: Row)
    requires Gone(s, q) && (e.Pump? || e.Dial? || e.Kill?) && Enabled(s, e)
    requires !Brings(e, q)
    ensures Gone(Do(s, e), q)
  {
    if e.Pump? {
      assert forall f | f in s.sess.outbox[1..] :: f in s.sess.outbox;
      assert s.sess.outbox[0] in s.sess.outbox;
    }
  }

  lemma PassKeepsGone(s: State, e: Event, q: Row)
    requires Gone(s, q) && OfPass(e) && Enabled(s, e)
    ensures Gone(Do(s, e), q)
  {
  }

  lemma FetchKeepsGone(s: State, e: Event, q: Row)
    requires Gone(s, q) && e.Fetch? && Enabled(s, e)
    ensures Gone(Do(s, e), q)
  {
    SyncIsExact(s.log, s.head, s.rooms, s.c.pass.after, e.asked, e.extraConvs, e.extraUsers);
  }

  lemma LandKeepsGone(s: State, q: Row)
    requires Gone(s, q) && Enabled(s, LandPage)
    ensures Gone(Do(s, LandPage), q)
  {
    RecordAllSources(s.c.store, s.c.pass.page.rows, q.id);
    RecordAllFrame(s.c.store, s.c.pass.page.rows);
  }

  lemma ServerKeepsGone(s: State, e: Event, q: Row)
    requires Gone(s, q) && (OfInstance(e) || OfHub(e) || OfSession(e))
    requires Enabled(s, e) && !Brings(e, q)
    ensures Gone(Do(s, e), q)
  {
    if OfHub(e) {
      HubKeepsGone(s, e, q);
    } else if OfSession(e) {
      SessionKeepsGone(s, e, q);
    } else {
      InstanceKeepsGone(s, e, q);
    }
  }

  lemma ClientKeepsGone(s: State, e: Event, q: Row)
    requires Gone(s, q) && (OfLink(e) || OfPage(e) || OfPass(e))
    requires Enabled(s, e) && !Brings(e, q)
    requires Do(s, e).c.store.wipes == s.c.store.wipes
    ensures Gone(Do(s, e), q)
  {
    if e.Receive? {
      ReceiveKeepsGone(s, q);
    } else if OfLink(e) {
      LinkKeepsGone(s, e, q);
    } else if OfPass(e) {
      PassKeepsGone(s, e, q);
    } else if e.Fetch? {
      FetchKeepsGone(s, e, q);
    } else {
      LandKeepsGone(s, q);
    }
  }

  lemma StepKeepsGone(s: State, e: Event, q: Row)
    requires Gone(s, q) && Enabled(s, e) && !Brings(e, q)
    requires Do(s, e).c.store.wipes == s.c.store.wipes
    ensures Gone(Do(s, e), q)
  {
    if OfInstance(e) || OfHub(e) || OfSession(e) {
      ServerKeepsGone(s, e, q);
    } else {
      ClientKeepsGone(s, e, q);
    }
  }

  /** A ROW LOST BELOW THE CURSOR STAYS LOST: no number of catch-ups, reconnects or
      relaunches brings it, until the store is wiped again or the row is re-sent. */
  lemma {:induction false} GoneForGood(s: State, es: seq<Event>, q: Row)
    requires Gone(s, q) && Run(s, es) && (forall e | e in es :: !Brings(e, q))
    requires After(s, es).c.store.wipes == s.c.store.wipes
    ensures !Held(After(s, es).c.store, q)
    decreases |es|
  {
    if es != [] {
      assert es[0] in es;
      assert forall e | e in es[1..] :: e in es;
      var t := Do(s, es[0]);
      StepKeepsCursor(s, es[0]);
      CursorIsMonotone(t, es[1..]);
      StepKeepsGone(s, es[0], q);
      GoneForGood(t, es[1..], q);
    }
  }

  /** And that is what a request that skips a row does to it: once its page has landed, a
      visible row at or below the position, not held and not on its way live, is gone. */
  lemma SkippedRowIsGone(s: State, asked: int, q: Row)
    requires Core(s) && s.c.pass.Armed? && s.c.pass.next.From?
    requires q in s.log && Visible(s.rooms, q)
    requires q.logSeq <= s.c.pass.next.pos && !Held(s.c.store, q)
    requires q !in s.inst.queue && (s.sess.Session? ==> !Queued(s.sess, Msg(q)))
    ensures Gone(Asking(s, asked), q)
  {
    PageForIs(s, asked);
    RecordAllSources(s.c.store, PageFor(s, asked).rows, q.id);
    RecordAllFrame(s.c.store, PageFor(s, asked).rows);
  }
}
