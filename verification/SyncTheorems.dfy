/**
 What the protocol promises a device, over every run.
 */
module SyncTheorems {
  import opened MessageLog
  import opened ClientSync
  import opened SyncRun
  import opened SyncSteps

  /** Nothing is on its way: a ready session that is not being closed, its queues
      empty, the instance subscribed with nothing undelivered and no gap to raise,
      and a client with no trigger outstanding. */
  predicate Quiet(s: State) {
    && s.sess.Session? && s.readied && !s.sess.closing && s.sess.outbox == [] && s.sess.wire == []
    && s.inst.listening && !s.inst.gapOwed && s.inst.queue == []
    && CaughtUp(s.c) && !s.c.owed
  }

  /** NO LOSS.  After any safe run, a quiet device holds exactly the committed rows
      it may see, each as committed, and counted each of them once. */
  lemma NoLoss(s0: State, es: seq<Event>)
    requires Init(s0) && Run(s0, es) && SafeRun(s0, es)
    ensures var s := After(s0, es);
            Quiet(s) ==>
              && (forall r :: r in s.log && Visible(s.rooms, r) <==> Held(s.c.store, r))
              && CountedOnce(s.c.store)
  {
    InitKeepsInv(s0);
    RunKeepsInv(s0, es);
    var s := After(s0, es);
    if Quiet(s) {
      forall r ensures r in s.log && Visible(s.rooms, r) <==> Held(s.c.store, r) {
        if r in s.log && Visible(s.rooms, r) {
          assert Accounted(s, r);
        }
      }
    }
  }

  /** A silent loss is impossible too: whenever a committed row is missing, the
      client is still owed something that brings it. */
  lemma NeverSilentlyMissing(s0: State, es: seq<Event>, r: Row)
    requires Init(s0) && Run(s0, es) && SafeRun(s0, es)
    requires var s := After(s0, es); r in s.log && Visible(s.rooms, r) && !Held(s.c.store, r)
    ensures var s := After(s0, es); r.logSeq > s.c.store.cursor && (CatchUpOwes(s.c, r) || ServerOwes(s, r))
  {
    InitKeepsInv(s0);
    RunKeepsInv(s0, es);
    assert Accounted(After(s0, es), r);
  }

  // --- the cursor ---------------------------------------------------------------

  predicate CursorOk(st: Store) { !st.hasCursor ==> st.cursor == 0 }

  /** How a step may move the cursor: not, or up by a page, or to nothing by a new epoch. */
  predicate Moved(st: Store, tt: Store, landed: bool) {
    if tt.wipes == st.wipes then st.cursor <= tt.cursor && (landed || st.cursor == tt.cursor)
    else tt.wipes == st.wipes + 1 && tt.cursor == 0
  }

  lemma ReadKeepsCursor(c: Catch, f: Frame)
    requires CursorOk(c.store)
    ensures CursorOk(Read(c, f).store) && Moved(c.store, Read(c, f).store, false)
  {
  }

  lemma LandKeepsCursor(c: Catch)
    requires CursorOk(c.store) && c.pass.Answered?
    ensures CursorOk(PageLanded(c).store)
    ensures Moved(c.store, PageLanded(c).store, true)
  {
    RecordAllFrame(c.store, c.pass.page.rows);
  }

  lemma OthersKeepStore(s: State, e: Event)
    requires Enabled(s, e) && !e.Receive? && !e.LandPage?
    ensures Do(s, e).c.store == s.c.store
  {
  }

  /** One step never lowers the cursor except by opening a new epoch, never goes
      back an epoch, and moves the cursor only by landing a page. */
  lemma StepKeepsCursor(s: State, e: Event)
    requires Enabled(s, e) && CursorOk(s.c.store)
    ensures CursorOk(Do(s, e).c.store)
    ensures Moved(s.c.store, Do(s, e).c.store, e.LandPage?)
  {
    if e.Receive? {
      ReadKeepsCursor(s.c, s.sess.wire[0]);
    } else if e.LandPage? {
      LandKeepsCursor(s.c);
    } else {
      OthersKeepStore(s, e);
    }
  }

  /** Within an epoch the cursor never decreases, over any run, safe or not. */
  lemma {:induction false} CursorIsMonotone(s: State, es: seq<Event>)
    requires Run(s, es) && CursorOk(s.c.store)
    ensures var st, tt := s.c.store, After(s, es).c.store;
            st.wipes <= tt.wipes && (st.wipes == tt.wipes ==> st.cursor <= tt.cursor)
    decreases |es|
  {
    if es != [] {
      StepKeepsCursor(s, es[0]);
      CursorIsMonotone(Do(s, es[0]), es[1..]);
    }
  }

  /** No page requested before a wipe is applied after it: whatever happens while a
      request is out, its page is applied exactly when no wipe came in between. */
  lemma {:induction false} AppliedOnlyInItsEpoch(s: State, es: seq<Event>)
    requires Run(s, es) && (s.c.pass.Asked? || s.c.pass.Answered?)
    requires forall e | e in es :: !e.Kill? && !e.Fail? && !e.LandPage?
    requires After(s, es).c.pass.Answered?
    ensures var t := After(s, es);
            var u := Do(t, LandPage);
            && (u.c.pass.applied <==> t.c.store.wipes == s.c.pass.epoch)
            && (!u.c.pass.applied ==> u.c.store == t.c.store)
    decreases |es|
  {
    if es != [] {
      assert es[0] in es;
      assert forall e | e in es[1..] :: e in es;
      AppliedOnlyInItsEpoch(Do(s, es[0]), es[1..]);
    }
  }

  // --- what is held can be rendered ---------------------------------------------

  predicate Renderable(st: Store) {
    forall id | id in st.messages :: st.messages[id].conv in st.convs && st.messages[id].author in st.users
  }

  predicate Carries(p: Page) { forall r | r in p.rows :: r.conv in p.convs && r.author in p.users }

  predicate RenderOk(c: Catch) {
    && Renderable(c.store)
    && (c.pass.Answered? ==> Carries(c.pass.page))
  }

  lemma LandKeepsRenderable(st: Store, p: Page)
    requires Renderable(st) && Carries(p)
    ensures Renderable(Land(st, p))
  {
    RecordAllFrame(st, p.rows);
    forall id | id in Land(st, p).messages ensures var m := Land(st, p).messages[id]; m.conv in Land(st, p).convs && m.author in Land(st, p).users {
      RecordAllSources(st, p.rows, id);
    }
  }

  lemma ClientKeepsRenderable(s: State, e: Event)
    requires RenderOk(s.c) && Enabled(s, e)
    requires (e.Receive? || e.Fetch? || e.LandPage?)
    ensures RenderOk(Do(s, e).c)
  {
    if e.LandPage? {
      LandKeepsRenderable(s.c.store, s.c.pass.page);
    } else if e.Fetch? {
      forall r | r in Do(s, e).c.pass.page.rows ensures r.conv in Do(s, e).c.pass.page.convs && r.author in Do(s, e).c.pass.page.users {
        SyncCarriesRecords(s.log, s.head, s.rooms, s.c.pass.after, e.asked, e.extraConvs, e.extraUsers, r);
      }
    }
  }

  lemma StepKeepsRenderable(s: State, e: Event)
    requires RenderOk(s.c) && Enabled(s, e)
    ensures RenderOk(Do(s, e).c)
  {
    if e.Receive? || e.Fetch? || e.LandPage? {
      ClientKeepsRenderable(s, e);
    }
  }

  /** NOTHING IS HELD THAT CANNOT BE RENDERED, in any run, safe or not: every message held
      has its conversation and its author held beside it. */
  lemma {:induction false} HeldIsRenderable(s: State, es: seq<Event>)
    requires RenderOk(s.c) && Run(s, es)
    ensures Renderable(After(s, es).c.store)
    ensures forall id | id in After(s, es).c.store.messages ::
              var m := After(s, es).c.store.messages[id]; m.conv in After(s, es).c.store.convs && m.author in After(s, es).c.store.users
    decreases |es|
  {
    if es != [] {
      StepKeepsRenderable(s, es[0]);
      HeldIsRenderable(Do(s, es[0]), es[1..]);
    }
  }

  // --- what a trigger buys ------------------------------------------------------

  /** How many rows the log had when the most recent trigger was pulled.  A
      relaunched client has pulled none. */
  function Mark(s: State, e: Event, mark: nat): nat
    requires Enabled(s, e)
  {
    if e.Kill? then 0
    else if e.Dial? || e.Pull? || e.Trigger? || (e.Receive? && s.sess.wire[0].Resync?) then |s.log|
    else mark
  }

  function MarkAfter(s: State, es: seq<Event>, mark: nat): nat
    requires Run(s, es)
    decreases |es|
  {
    if es == [] then mark else MarkAfter(Do(s, es[0]), es[1..], Mark(s, es[0], mark))
  }

  /** Every row committed before the last trigger is held, or the catch-up that
      trigger armed will bring it. */
  ghost predicate MarkOk(s: State, mark: nat) {
    && mark <= |s.log|
    && forall i | 0 <= i < mark && Visible(s.rooms, s.log[i]) :: Held(s.c.store, s.log[i]) || CatchUpOwes(s.c, s.log[i])
  }

  lemma StepKeepsOwed(s: State, e: Event, r: Row)
    requires Core(s) && Enabled(s, e) && !e.Kill? && r in s.log
    requires Visible(s.rooms, r)
    requires Held(s.c.store, r) || CatchUpOwes(s.c, r)
    ensures Held(Do(s, e).c.store, r) || CatchUpOwes(Do(s, e).c, r)
  {
    if OfPass(e) {
      PassOwes(s, e, r);
    } else if e.Fetch? {
      FetchOwes(s, e, r);
    } else if e.LandPage? {
      LandOwes(s, r);
    } else if e.Receive? {
      assert s.sess.wire[0] in s.sess.wire;
      ReadKeepsOwed(s.c, s.sess.wire[0], s.log, s.head, s.rooms, r);
    } else if e.Dial? {
      DialOwes(s, e, r);
    }
  }

  lemma DialOwes(s: State, e: Event, r: Row)
    requires Core(s) && Enabled(s, e) && e.Dial?
    requires (Held(s.c.store, r) || CatchUpOwes(s.c, r))
    ensures Held(Do(s, e).c.store, r) || CatchUpOwes(Do(s, e).c, r)
  {
  }

  /** Pulling a trigger arms a catch-up that owes every row. */
  lemma TriggerArms(s: State, e: Event, r: Row)
    requires Core(s) && Enabled(s, e)
    requires e.Dial? || e.Pull? || e.Trigger? || (e.Receive? && s.sess.wire[0].Resync?)
    ensures CatchUpOwes(Do(s, e).c, r)
  {
  }

  lemma StepKeepsMark(s: State, e: Event, mark: nat)
    requires Core(s) && Enabled(s, e) && MarkOk(s, mark)
    ensures MarkOk(Do(s, e), Mark(s, e, mark))
  {
    var t, m := Do(s, e), Mark(s, e, mark);
    forall i | 0 <= i < m && Visible(t.rooms, t.log[i]) ensures Held(t.c.store, t.log[i]) || CatchUpOwes(t.c, t.log[i]) {
      assert t.log[i] == s.log[i] && s.log[i] in s.log;
      if m == mark && i < mark && !e.Kill? {
        StepKeepsOwed(s, e, s.log[i]);
      } else {
        TriggerArms(s, e, s.log[i]);
      }
    }
  }

  lemma {:induction false} RunKeepsMark(s: State, es: seq<Event>, mark: nat)
    requires Core(s) && Run(s, es) && AskRun(s, es) && MarkOk(s, mark)
    ensures MarkOk(After(s, es), MarkAfter(s, es, mark))
    decreases |es|
  {
    if es != [] {
      CoreStep(s, es[0]);
      StepKeepsMark(s, es[0], mark);
      RunKeepsMark(Do(s, es[0]), es[1..], Mark(s, es[0], mark));
    }
  }

  /** CAUGHT UP MEANS CAUGHT UP.  Whenever the client reports it, with no trigger
      it has yet to pull, every visible row committed before its most recent trigger
      is held, whatever the server, the listener and the socket are doing: all it takes
      is that no request was issued from beyond what is held. */
  lemma CaughtUpHoldsAllBeforeTrigger(s0: State, es: seq<Event>)
    requires Init(s0) && Run(s0, es) && AskRun(s0, es)
    ensures var s, mark := After(s0, es), MarkAfter(s0, es, 0);
            CaughtUp(s.c) && !s.c.owed ==>
              mark <= |s.log| && forall i | 0 <= i < mark && Visible(s.rooms, s.log[i]) :: Held(s.c.store, s.log[i])
  {
    InitKeepsInv(s0);
    RunKeepsMark(s0, es, 0);
  }
}
