/**
 Two runs of the client and the server as they are, each ending quiet with a committed
 message missing.
 */
module SyncCounterexamples {
  import opened MessageLog
  import opened ClientSync
  import opened Outbox
  import opened SyncRun
  import opened SyncReach
  import opened SyncTheorems
  import opened SyncLimits

  /** A fresh device in `rooms`, and a log with nothing in it. */
  function Fresh(rooms: set<nat>): State {
    State(rooms, [], 0, Instance(false, false, false, []), NoSession, false, Catch(EMPTY, 0, 0, Idle, false))
  }

  lemma FreshReaches(rooms: set<nat>)
    ensures Init(Fresh(rooms)) && Reaches(Fresh(rooms), Fresh(rooms), false)
  {
    ReachSelf(Fresh(rooms), false);
  }

  function One(r: Row, hasMore: bool): Page { Page([r], r.logSeq, hasMore, {r.conv}, {r.author}) }

  lemma TwoPages(rooms: set<nat>, a: Row, b: Row)
    requires LogOk([a, b], b.logSeq) && Visible(rooms, a) && Visible(rooms, b)
    ensures Sync([a, b], b.logSeq, rooms, 0, 1, {}, {}) == One(a, true)
    ensures Sync([a, b], b.logSeq, rooms, a.logSeq, 1, {}, {}) == One(b, false)
  {
    assert [a, b][0].logSeq < [a, b][1].logSeq && 0 < [a, b][0].logSeq;
  }

  lemma LandOne(st: Store, r: Row, hasMore: bool)
    ensures Land(st, One(r, hasMore)).messages == st.messages[r.id := r]
    ensures Land(st, One(r, hasMore)).wipes == st.wipes
    ensures Land(st, One(r, hasMore)).hasCursor
    ensures Land(st, One(r, hasMore)).cursor == if !st.hasCursor || r.logSeq > st.cursor then r.logSeq else st.cursor
  {
    assert [r][..0] == [];
    assert RecordAll(st, [r]) == Recorded(st, r);
  }

  // --- a position that outlives its epoch ---------------------------------------

  /** The client has dialed an instance whose listener is in an outage, and the
      server has greeted it: the log was empty then. */
  function Greeted(rooms: set<nat>): State {
    State(rooms, [], 0, Instance(false, true, false, []), Session(0, true, true, false, [], [Ready(0)]), false,
          Catch(EMPTY, 1, 0, Idle, false))
  }

  lemma ReachesGreeted(rooms: set<nat>)
    ensures Reaches(Fresh(rooms), Greeted(rooms), false)
  {
    var s0 := Fresh(rooms);
    FreshReaches(rooms);
    var i := Instance(false, true, false, []);
    ReachStep(s0, s0, Dial(i), false);
    var s1 := Do(s0, Dial(i));
    ReachStep(s0, s1, Hello, false);
    var s2 := Do(s1, Hello);
    ReachStep(s0, s2, Attach, false);
    var s3 := Do(s2, Attach);
    ReachStep(s0, s3, SendReady, false);
    assert [] + [Ready(0)] == [Ready(0)];
    assert Do(s3, SendReady) == Greeted(rooms);
  }

  /** Two messages commit, and the catch-up begins. */
  function Behind(rooms: set<nat>, a: Row, b: Row): State {
    Greeted(rooms).(log := [a, b], head := b.logSeq, c := Catch(EMPTY, 1, 0, Top(FromCursor), false))
  }

  lemma ReachesBehind(rooms: set<nat>, a: Row, b: Row)
    requires LogOk([a], a.logSeq) && LogOk([a, b], b.logSeq)
    ensures Reaches(Fresh(rooms), Behind(rooms, a, b), false)
  {
    var s0, s1 := Fresh(rooms), Greeted(rooms);
    ReachesGreeted(rooms);
    assert [] + [a] == [a] && [a] + [b] == [a, b];
    assert [a, b][0].logSeq < [a, b][1].logSeq && 0 < [a, b][0].logSeq;
    ReachStep(s0, s1, Commit(a), false);
    var s2 := Do(s1, Commit(a));
    ReachStep(s0, s2, Commit(b), false);
    var s3 := Do(s2, Commit(b));
    ReachStep(s0, s3, Begin, false);
    assert Do(s3, Begin) == Behind(rooms, a, b);
  }

  lemma PagedClient(c: Catch, a: Row, hasMore: bool)
    requires c.pass.Top? && (!c.store.hasCursor || c.store.cursor < a.logSeq)
    ensures var d := Turned(c, One(a, hasMore));
            && d.store.hasCursor && d.store.cursor == a.logSeq && d.store.wipes == c.store.wipes
            && d.store.messages == c.store.messages[a.id := a] && d.gen == c.gen && d.owed == c.owed
            && (if hasMore then d.pass == Top(From(a.logSeq, c.store.wipes)) && d.doneGen == c.doneGen
                else d.pass == Idle && d.doneGen == c.gen)
  {
    LandOne(c.store, a, hasMore);
  }

  /** One page has landed; then `ready` is read.  It carries the head as it was
      before the upgrade, the page is past it, and the store is wiped, although the
      log never went back. */
  function WipedClient(rooms: set<nat>, a: Row, b: Row): State {
    Behind(rooms, a, b).(sess := Session(0, true, true, false, [], []), readied := true,
                         c := Catch(EMPTY.(wipes := 1), 2, 0, Top(From(a.logSeq, 0)), false))
  }

  /** Reading a `ready` the pages have overtaken, and pulling its trigger. */
  lemma ReachesOvertaken(s0: State, s: State)
    requires Reaches(s0, s, false) && s.sess.Session?
    requires s.sess.wire == [Ready(0)] && !s.c.owed
    requires s.c.store.hasCursor && 0 < s.c.store.cursor
    ensures Reaches(s0, s.(sess := s.sess.(wire := []), readied := true,
                           c := s.c.(store := Wiped(s.c.store), gen := s.c.gen + 1)), false)
  {
    ReachStep(s0, s, Receive, false);
    var t := Do(s, Receive);
    assert [Ready(0)][1..] == [];
    ReachStep(s0, t, Pull, false);
  }

  lemma ReachesWiped(rooms: set<nat>, a: Row, b: Row)
    requires LogOk([a], a.logSeq) && LogOk([a, b], b.logSeq)
    requires Visible(rooms, a) && Visible(rooms, b)
    ensures Reaches(Fresh(rooms), WipedClient(rooms, a, b), false)
  {
    var s0, s1 := Fresh(rooms), Behind(rooms, a, b);
    ReachesBehind(rooms, a, b);
    TwoPages(rooms, a, b);
    ReachPage(s0, s1, 1, One(a, true), false);
    assert 0 < [a][0].logSeq;
    PagedClient(s1.c, a, true);
    var s2 := s1.(c := Turned(s1.c, One(a, true)));
    ReachesOvertaken(s0, s2);
  }

  lemma ReachesMissing(rooms: set<nat>, a: Row, b: Row) returns (s: State)
    requires LogOk([a], a.logSeq) && LogOk([a, b], b.logSeq)
    requires Visible(rooms, a) && Visible(rooms, b)
    ensures Reaches(Fresh(rooms), s, false) && s.log == [a, b] && s.head == b.logSeq
    ensures s.inst == Instance(false, true, false, [])
    ensures s.sess == Session(0, true, true, false, [], [])
    ensures s.readied && s.rooms == rooms
    ensures s.c.gen == s.c.doneGen && !s.c.owed && s.c.pass == Idle
    ensures s.c.store.hasCursor && s.c.store.cursor == b.logSeq
    ensures s.c.store.wipes == 1 && s.c.store.messages == map[b.id := b]
  {
    var s0, s1 := Fresh(rooms), WipedClient(rooms, a, b);
    ReachesWiped(rooms, a, b);
    TwoPages(rooms, a, b);
    ReachPage(s0, s1, 1, One(b, false), false);
    PagedClient(s1.c, b, false);
    s := s1.(c := Turned(s1.c, One(b, false)));
  }

  /** The listener comes back, its gap tells the client to catch up, and the catch-up,
      from the cursor, finds nothing. */
  lemma ReachesResync(s0: State, s: State) returns (t: State)
    requires Reaches(s0, s, false)
    requires s.inst == Instance(false, true, false, [])
    requires s.sess == Session(0, true, true, false, [], [])
    requires !s.c.owed && s.c.pass.Idle?
    ensures Reaches(s0, t, false)
    ensures t == s.(inst := Instance(true, true, false, []), c := Triggered(s.c))
  {
    ReachStep(s0, s, Listen, false);
    var l := Do(s, Listen);
    var told := s.sess.(outbox := [Resync]);
    assert Got(BoxOf(s.sess), BoxOf(told), [Resync]) by { assert Seen(BoxOf(told)) == Seen(BoxOf(s.sess)) + [Resync]; }
    ReachStep(s0, l, Gap(true, told), false);
    t := ReachesTold(s0, Do(l, Gap(true, told)));
  }

  lemma ReachesTold(s0: State, s: State) returns (t: State)
    requires Reaches(s0, s, false)
    requires s.sess == Session(0, true, true, false, [Resync], [])
    requires !s.c.owed
    ensures Reaches(s0, t, false)
    ensures t == s.(sess := Session(0, true, true, false, [], []), readied := s.readied, c := Triggered(s.c))
  {
    assert [Resync][1..] == [] && [] + [Resync] == [Resync];
    ReachStep(s0, s, Pump, false);
    t := ReachesRead(s0, s.(sess := Session(0, true, true, false, [], [Resync])));
  }

  lemma ReachesRead(s0: State, s: State) returns (t: State)
    requires Reaches(s0, s, false)
    requires s.sess == Session(0, true, true, false, [], [Resync])
    requires !s.c.owed
    ensures Reaches(s0, t, false)
    ensures t == s.(sess := Session(0, true, true, false, [], []), c := Triggered(s.c))
  {
    assert [Resync][1..] == [] && [Resync][0] == Resync;
    ReachStep(s0, s, Receive, false);
    t := Do(s, Receive);
  }

  lemma EmptyPage(rooms: set<nat>, a: Row, b: Row)
    requires 0 < a.logSeq < b.logSeq
    ensures Sync([a, b], b.logSeq, rooms, b.logSeq, 1, {}, {}) == Page([], b.logSeq, false, {}, {})
  {
    assert [a, b][..1] == [a] && [a][..0] == [];
    assert Scan([], rooms, b.logSeq, b.logSeq) == [];
    assert Scan([a], rooms, b.logSeq, b.logSeq) == [];
    assert Convs([]) == {} && Authors([]) == {};
  }

  /** Catching up from a cursor at the head changes nothing but the cursor's standing. */
  lemma ReachesIdle(s0: State, s: State, page: Page) returns (t: State)
    requires Reaches(s0, s, false) && s.c.pass.Idle?
    requires s.c.gen != s.c.doneGen && s.c.store.hasCursor
    requires page == Page([], s.c.store.cursor, false, {}, {}) == Sync(s.log, s.head, s.rooms, s.c.store.cursor, 1, {}, {})
    ensures Reaches(s0, t, false) && t == s.(c := s.c.(doneGen := s.c.gen))
  {
    ReachStep(s0, s, Begin, false);
    var b := Do(s, Begin);
    ReachPage(s0, b, 1, page, false);
    t := b.(c := Turned(b.c, page));
    assert RecordAll(s.c.store, []) == s.c.store;
    assert Land(s.c.store, page) == s.c.store;
  }

  /** A WIPE NEEDS NO ROLLBACK, AND A POSITION OUTLIVES ONE.  For every log of two
      visible messages there is a run in which the log only grows, the client wipes,
      its catch-up goes on from where the discarded store had got to, and everything comes
      to rest: the device is quiet and the first message is gone for good. */
  lemma StalePositionLosesMessages(rooms: set<nat>, a: Row, b: Row)
    requires LogOk([a], a.logSeq) && LogOk([a, b], b.logSeq)
    requires Visible(rooms, a) && Visible(rooms, b)
    ensures exists s :: Reaches(Fresh(rooms), s, false) && Quiet(s) && s.c.store.wipes == 1 && a in s.log && Gone(s, a)
  {
    var s0 := Fresh(rooms);
    var s := ReachesMissing(rooms, a, b);
    assert [a, b][0].id != [a, b][1].id && [a, b][0].logSeq < [a, b][1].logSeq && 0 < [a, b][0].logSeq;
    assert Gone(s, a) && a in s.log;
    var r := ReachesResync(s0, s);
    EmptyPage(rooms, a, b);
    var t := ReachesIdle(s0, r, Page([], b.logSeq, false, {}, {}));
    assert Gone(t, a);
  }

  /** The step at fault is the one the safe runs leave out. */
  lemma StalePositionIsUnsafe(rooms: set<nat>, a: Row, b: Row)
    requires Visible(rooms, a)
    ensures !Safe(Do(WipedClient(rooms, a, b), ReadGen), ReadCursor)
  {
    assert a in [a, b];
  }

  // --- the first subscription raises no gap -------------------------------------

  /** Attached to an instance whose listener has never subscribed, and `ready` read. */
  function Unsubscribed(rooms: set<nat>): State {
    State(rooms, [], 0, Instance(false, false, false, []), Session(0, true, true, false, [], []), true,
          Catch(EMPTY, 2, 0, Top(FromCursor), false))
  }

  lemma ReachesUnsubscribed(rooms: set<nat>)
    ensures Reaches(Fresh(rooms), Unsubscribed(rooms), false)
  {
    var s0, i := Fresh(rooms), Instance(false, false, false, []);
    FreshReaches(rooms);
    ReachStep(s0, s0, Dial(i), false);
    var s1 := Do(s0, Dial(i));
    ReachStep(s0, s1, Hello, false);
    var s2 := Do(s1, Hello);
    ReachStep(s0, s2, Attach, false);
    var s3 := Do(s2, Attach);
    ReachStep(s0, s3, SendReady, false);
    assert [] + [Ready(0)] == [Ready(0)];
    ReachesReadied(rooms, Do(s3, SendReady));
  }

  lemma ReachesReadied(rooms: set<nat>, s: State)
    requires Reaches(Fresh(rooms), s, false)
    requires s == Unsubscribed(rooms).(sess := Session(0, true, true, false, [], [Ready(0)]), readied := false,
                                       c := Catch(EMPTY, 1, 0, Idle, false))
    ensures Reaches(Fresh(rooms), Unsubscribed(rooms), false)
  {
    var s0 := Fresh(rooms);
    assert [Ready(0)][1..] == [] && [Ready(0)][0] == Ready(0);
    ReachStep(s0, s, Receive, false);
    var s1 := Unsubscribed(rooms).(c := Catch(EMPTY, 1, 0, Idle, true));
    assert Do(s, Receive) == s1;
    ReachesPulled(rooms, s1);
  }

  lemma ReachesPulled(rooms: set<nat>, s: State)
    requires Reaches(Fresh(rooms), s, false)
    requires s == Unsubscribed(rooms).(c := Catch(EMPTY, 1, 0, Idle, true))
    ensures Reaches(Fresh(rooms), Unsubscribed(rooms), false)
  {
    var s0 := Fresh(rooms);
    ReachStep(s0, s, Pull, false);
    var p := s.(c := Catch(EMPTY, 2, 0, Idle, false));
    assert Do(s, Pull) == p;
    ReachStep(s0, p, Begin, false);
    assert Do(p, Begin) == Unsubscribed(rooms);
  }

  /** For every message there is a run in which the session attaches first, the
      message commits to nobody, the listener then subscribes for the first time and
      raises no gap: everything is quiet and the message is missing. */
  lemma FirstSubscriptionLosesMessages(rooms: set<nat>, a: Row)
    requires LogOk([a], a.logSeq) && Visible(rooms, a)
    ensures exists s :: Reaches(Fresh(rooms), s, false) && Quiet(s) && a in s.log && !Held(s.c.store, a)
  {
    var s0, s1 := Fresh(rooms), Unsubscribed(rooms);
    ReachesUnsubscribed(rooms);
    var p := Page([], 0, false, {}, {});
    assert Sync([], 0, rooms, 0, 1, {}, {}) == p;
    ReachPage(s0, s1, 1, p, false);
    var s2 := s1.(c := Turned(s1.c, p));
    ReachesUnheard(s0, s2, a);
  }

  /** Caught up, silent, and on an instance that has never subscribed. */
  predicate Deaf(s: State) {
    && s.log == [] && s.head == 0 && s.inst == Instance(false, false, false, []) && s.sess == Session(0, true, true, false, [], [])
    && s.readied && CaughtUp(s.c) && !s.c.owed && s.c.store.messages == map[]
  }

  /** The commit at fault, too, is the one the safe runs leave out. */
  lemma UnheardIsUnsafe(s: State, a: Row)
    requires Deaf(s) && Visible(s.rooms, a)
    ensures !Heard(s, Commit(a))
  {
  }

  lemma ReachesUnheard(s0: State, s: State, a: Row)
    requires Reaches(s0, s, false) && Deaf(s) && LogOk([a], a.logSeq)
    ensures exists t :: Reaches(s0, t, false) && Quiet(t) && a in t.log && !Held(t.c.store, a)
  {
    CommitToNobody(s, a);
    ReachStep(s0, s, Commit(a), false);
    ReachesListening(s0, s.(log := [a], head := a.logSeq), a);
  }

  lemma CommitToNobody(s: State, a: Row)
    requires s.log == [] && s.head == 0 && !s.inst.listening && LogOk([a], a.logSeq)
    ensures Enabled(s, Commit(a))
    ensures Do(s, Commit(a)) == s.(log := [a], head := a.logSeq)
  {
    assert [] + [a] == [a] && 0 < [a][0].logSeq;
  }

  lemma ReachesListening(s0: State, c: State, a: Row)
    requires Reaches(s0, c, false) && Deaf(c.(log := [], head := 0)) && c.log == [a]
    ensures exists t :: Reaches(s0, t, false) && Quiet(t) && a in t.log && !Held(t.c.store, a)
  {
    ReachStep(s0, c, Listen, false);
    var t := c.(inst := Instance(true, true, false, []));
    assert Do(c, Listen) == t;
    assert Quiet(t) && a in t.log && !Held(t.c.store, a);
  }
}
