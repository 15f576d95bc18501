/**
 What a request's position is worth, by the epoch it was reached in.

 One of the current epoch skips nothing, so a client that kept the epoch beside its
 position, and went back to the cursor when they parted, would lose nothing.  One that has
 outlived a wipe skips rows until every row at or below it has been sent again live.
 */
module SyncStale {
  import opened MessageLog
  import opened ClientSync
  import opened SyncRun
  import opened SyncSteps
  import opened SyncTheorems
  import opened SyncLimits

  // --- positions of the current epoch -------------------------------------------

  /** The guard a client could keep: a request goes on from a page only in that page's epoch. */
  predicate FreshAsk(s: State, e: Event) {
    e.ReadCursor? && s.c.pass.Armed? && s.c.pass.next.From? ==> s.c.pass.next.epoch == s.c.store.wipes
  }

  predicate FreshRun(s: State, es: seq<Event>)
    requires Run(s, es)
    decreases |es|
  {
    if es == [] then true
    else FreshAsk(s, es[0]) && FreshRun(Do(s, es[0]), es[1..])
  }

  predicate HeardRun(s: State, es: seq<Event>)
    requires Run(s, es)
    decreases |es|
  {
    if es == [] then true
    else Heard(s, es[0]) && HeardRun(Do(s, es[0]), es[1..])
  }

  lemma FreshAskIsSafe(s: State, e: Event)
    requires Core(s) && Enabled(s, e) && FreshAsk(s, e)
    ensures SafeAsk(s, e)
  {
    if e.ReadCursor? {
      FreshPositionSkipsNothing(s);
    }
  }

  lemma {:induction false} FreshRunIsSafe(s: State, es: seq<Event>)
    requires Core(s) && Run(s, es) && FreshRun(s, es)
    ensures AskRun(s, es)
    ensures HeardRun(s, es) ==> SafeRun(s, es)
    decreases |es|
  {
    if es != [] {
      FreshAskIsSafe(s, es[0]);
      CoreStep(s, es[0]);
      FreshRunIsSafe(Do(s, es[0]), es[1..]);
    }
  }

  /** NO LOSS, UNDER A GUARD OF THE CLIENT'S OWN.  In any run whose requests keep to their
      epoch and whose commits are heard, a quiet device holds exactly the committed rows it
      may see; and whether or not they are heard, caught up means caught up. */
  lemma FreshClientLosesNothing(s0: State, es: seq<Event>)
    requires Init(s0) && Run(s0, es) && FreshRun(s0, es)
    ensures var s := After(s0, es);
            HeardRun(s0, es) && Quiet(s) ==> forall r :: r in s.log && Visible(s.rooms, r) <==> Held(s.c.store, r)
    ensures var s, mark := After(s0, es), MarkAfter(s0, es, 0);
            CaughtUp(s.c) && !s.c.owed ==>
              mark <= |s.log| && forall i | 0 <= i < mark && Visible(s.rooms, s.log[i]) :: Held(s.c.store, s.log[i])
  {
    InitKeepsInv(s0);
    FreshRunIsSafe(s0, es);
    CaughtUpHoldsAllBeforeTrigger(s0, es);
    if HeardRun(s0, es) {
      NoLoss(s0, es);
    }
  }

  // --- positions of an earlier epoch --------------------------------------------

  predicate SomeRow(log: seq<Row>, rooms: set<nat>, pos: nat) {
    exists r :: r in log && Visible(rooms, r) && r.logSeq <= pos
  }

  /** Where the pass goes on from, if it goes on from a page. */
  function Ahead(p: Pass): Next {
    match p
    case Top(n) => n
    case Armed(_, n) => n
    case Landed(_, epoch, true, page) => if page.hasMore then From(page.logSeq, epoch) else FromCursor
    case _ => FromCursor
  }

  /** A page that ends before the head ends on a row. */
  predicate Grounded(s: State) {
    && (Ahead(s.c.pass).From? ==> SomeRow(s.log, s.rooms, Ahead(s.c.pass).pos))
    && (s.c.pass.Answered? && s.c.pass.page.hasMore ==> SomeRow(s.log, s.rooms, s.c.pass.page.logSeq))
  }

  lemma FullPageEndsOnARow(s: State, after: nat, asked: int, extraConvs: set<nat>, extraUsers: set<nat>)
    requires Sync(s.log, s.head, s.rooms, after, asked, extraConvs, extraUsers).hasMore
    ensures SomeRow(s.log, s.rooms, Sync(s.log, s.head, s.rooms, after, asked, extraConvs, extraUsers).logSeq)
  {
    var found, limit := Scan(s.log, s.rooms, after, s.head), PageLimit(asked);
    assert found[limit - 1] in found;
  }

  /** The messages a client has kept off the socket since its last wipe. */
  function Resent(s: State, e: Event, live: map<nat, Row>): map<nat, Row>
    requires Enabled(s, e)
  {
    if !e.Receive? then live
    else
      match s.sess.wire[0]
      case Ready(h) => if s.c.store.hasCursor && h < s.c.store.cursor then map[] else live
      case Msg(r) => if Known(s.c.store, r) then live[r.id := r] else live
      case _ => live
  }

  function ResentBy(s: State, es: seq<Event>, live: map<nat, Row>): map<nat, Row>
    requires Run(s, es)
    decreases |es|
  {
    if es == [] then live else ResentBy(Do(s, es[0]), es[1..], Resent(s, es[0], live))
  }

  /** A position that outlived a wipe stands over a store that holds what was re-sent. */
  predicate Outlived(c: Catch) { Ahead(c.pass).From? && Ahead(c.pass).epoch < c.store.wipes }

  predicate OutlivedOk(c: Catch, live: map<nat, Row>) {
    && (Outlived(c) ==> c.store.messages == live)
    && (Ahead(c.pass).From? ==> Ahead(c.pass).epoch <= c.store.wipes)
    && (c.pass.Landed? && c.pass.applied ==> c.pass.epoch <= c.store.wipes)
  }

  lemma ReadKeepsOutlived(s: State, live: map<nat, Row>)
    requires Enabled(s, Receive) && OutlivedOk(s.c, live)
    ensures OutlivedOk(Do(s, Receive).c, Resent(s, Receive, live))
  {
  }

  /** Nothing but a page and a turn moves where the pass goes on from: it stays, or the pass
      starts over. */
  predicate Stays(p: Pass, q: Pass) {
    (Ahead(q) == Ahead(p) || Ahead(q).FromCursor?) && (q.Landed? ==> q == p)
  }

  lemma ServerStays(s: State, e: Event)
    requires Enabled(s, e) && !OfPass(e) && !OfPage(e)
    ensures Stays(s.c.pass, Do(s, e).c.pass)
    ensures Do(s, e).c.pass.Answered? ==> Do(s, e).c.pass == s.c.pass
  {
  }

  lemma PassStays(s: State, e: Event)
    requires Enabled(s, e) && OfPass(e)
    ensures Do(s, e).c.store == s.c.store
    ensures e.Decide? || Stays(s.c.pass, Do(s, e).c.pass)
    ensures Do(s, e).c.pass.Answered? ==> Do(s, e).c.pass == s.c.pass
  {
  }

  lemma KeepsOutlived(s: State, e: Event, live: map<nat, Row>)
    requires Enabled(s, e) && !e.Receive? && OutlivedOk(s.c, live)
    ensures OutlivedOk(Do(s, e).c, live)
  {
    if OfPage(e) {
      PageKeepsOutlived(s, e, live);
    } else if OfPass(e) {
      PassStays(s, e);
    } else {
      OthersKeepStore(s, e);
      ServerStays(s, e);
    }
  }

  lemma PageKeepsOutlived(s: State, e: Event, live: map<nat, Row>)
    requires Enabled(s, e) && OfPage(e) && OutlivedOk(s.c, live)
    ensures OutlivedOk(Do(s, e).c, live)
  {
    if e.LandPage? {
      RecordAllFrame(s.c.store, s.c.pass.page.rows);
    }
  }

  lemma CommitGrounds(s: State, r: Row)
    requires Enabled(s, Commit(r)) && Grounded(s)
    ensures Grounded(Do(s, Commit(r)))
  {
    assert forall q :: q in s.log ==> q in s.log + [r];
  }

  lemma PageGrounds(s: State, e: Event)
    requires Enabled(s, e) && OfPage(e) && Grounded(s)
    ensures Grounded(Do(s, e))
  {
    if e.Fetch? && Do(s, e).c.pass.page.hasMore {
      FullPageEndsOnARow(s, s.c.pass.after, e.asked, e.extraConvs, e.extraUsers);
    }
  }

  lemma OthersGround(s: State, e: Event)
    requires Enabled(s, e) && Grounded(s) && !OfPage(e) && !e.Commit?
    ensures Grounded(Do(s, e))
  {
    OthersKeepLog(s, e);
    if OfPass(e) {
      PassStays(s, e);
    } else {
      ServerStays(s, e);
    }
  }

  lemma StepGrounds(s: State, e: Event)
    requires Enabled(s, e) && Grounded(s)
    ensures Grounded(Do(s, e))
  {
    if e.Commit? {
      CommitGrounds(s, e.row);
    } else if OfPage(e) {
      PageGrounds(s, e);
    } else {
      OthersGround(s, e);
    }
  }

  lemma OthersKeepLog(s: State, e: Event)
    requires Enabled(s, e) && !e.Commit?
    ensures Do(s, e).log == s.log && Do(s, e).rooms == s.rooms
  {
  }

  lemma {:induction false} RunKeepsOutlived(s: State, es: seq<Event>, live: map<nat, Row>)
    requires Run(s, es) && OutlivedOk(s.c, live) && Grounded(s)
    ensures OutlivedOk(After(s, es).c, ResentBy(s, es, live)) && Grounded(After(s, es))
    decreases |es|
  {
    if es != [] {
      StepGrounds(s, es[0]);
      if es[0].Receive? { ReadKeepsOutlived(s, live); } else { KeepsOutlived(s, es[0], live); }
      RunKeepsOutlived(Do(s, es[0]), es[1..], Resent(s, es[0], live));
    }
  }

  /** EXACTLY WHEN A STALE POSITION SKIPS.  In any run at all, a request from a position that
      has outlived a wipe skips nothing if and only if every visible row at or below it was
      sent again live since, and there is such a row: right after the wipe, with nothing
      re-sent, it always skips one. */
  lemma StaleAskSkipsIff(s0: State, es: seq<Event>)
    requires Init(s0) && Run(s0, es)
    requires var c := After(s0, es).c; c.pass.Armed? && c.pass.next.From? && c.pass.next.epoch != c.store.wipes
    ensures var s, live := After(s0, es), ResentBy(s0, es, map[]);
            && SomeRow(s.log, s.rooms, s.c.pass.next.pos)
            && (SafeAsk(s, ReadCursor) <==>
                forall r | r in s.log && Visible(s.rooms, r) && r.logSeq <= s.c.pass.next.pos :: r.id in live && live[r.id] == r)
            && (live == map[] ==> !SafeAsk(s, ReadCursor))
  {
    RunKeepsOutlived(s0, es, map[]);
    var s := After(s0, es);
    assert Outlived(s.c);
    var r :| r in s.log && Visible(s.rooms, r) && r.logSeq <= s.c.pass.next.pos;
  }
}
