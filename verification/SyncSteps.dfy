/**
 Every step of a run keeps the invariant of `SyncRun`: what it says of the pieces, and,
 row by row, that nothing committed is forgotten.
 */
module SyncSteps {
  import opened MessageLog
  import opened ClientSync
  import opened Outbox
  import opened SyncRun

  // --- the log and the instance -------------------------------------------------

  lemma CoreCommit(s: State, r: Row)
    requires Core(s) && Enabled(s, Commit(r))
    ensures Core(Do(s, Commit(r)))
  {
    assert forall q :: q in s.log ==> q in s.log + [r];
  }

  lemma CoreOfInstance(s: State, e: Event)
    requires Core(s) && Enabled(s, e) && (e.Draw? || e.Listen? || e.Disconnect?)
    ensures Core(Do(s, e))
  {
  }

  /** A committed row stays accounted for when another commits, and whatever the listener
      does: an outage owes the gap that follows it. */
  lemma InstanceAccounts(s: State, e: Event, q: Row)
    requires Core(s) && Enabled(s, e)
    requires (e.Commit? || e.Draw? || e.Listen? || e.Disconnect?)
    requires Accounted(s, q)
    ensures Accounted(Do(s, e), q)
  {
  }

  // --- what the hub does to a session -------------------------------------------

  /** Handing frames over never drops one: they are all on their way, or the session is
      being closed. */
  lemma HandedKeeps(s: Sess, t: Sess, fs: seq<Frame>)
    requires s.Session? && HandedOver(s, t, fs)
    ensures t.Session? && t.readySent == s.readySent && (s.closing ==> t.closing)
    ensures s.indexed && !t.closing ==> t.indexed
    ensures forall f | Queued(s, f) :: Queued(t, f)
    ensures forall f | f in t.outbox :: f in s.outbox || f in fs
    ensures forall f | f in t.wire :: f in s.wire || f in s.outbox || f in fs
    ensures s.indexed && !t.closing ==> forall f | f in fs :: Queued(t, f)
  {
    if s.indexed {
      GotKeeps(BoxOf(s), BoxOf(t), fs);
      assert forall f :: f in Seen(BoxOf(s)) <==> Queued(s, f);
      assert forall f :: f in Seen(BoxOf(t)) <==> Queued(t, f);
    }
  }

  lemma HandedAccounts(s: State, to: Sess, fs: seq<Frame>, q: Row)
    requires HandedOver(s.sess, to, fs) && Accounted(s, q)
    ensures Accounted(s.(sess := to), q)
  {
    if s.sess.Session? {
      HandedKeeps(s.sess, to, fs);
    }
  }

  lemma HandedLinks(s: State, to: Sess, fs: seq<Frame>)
    requires LinkOk(s) && HandedOver(s.sess, to, fs)
    requires FramesFrom(fs, s.log, s.rooms) && NoReady(fs)
    ensures LinkOk(s.(sess := to))
  {
    if s.sess.Session? {
      HandedKeeps(s.sess, to, fs);
    }
  }

  lemma CoreOfHub(s: State, e: Event)
    requires Core(s) && OfHub(e) && Enabled(s, e)
    ensures Core(Do(s, e))
  {
    if e.Reemit? {
      HandedLinks(s, e.to, [Msg(e.row)]);
    } else if e.Gap? && e.headRead {
      HandedLinks(s, e.to, [Resync]);
    } else if e.Deliver? {
      var r := s.inst.queue[0];
      assert r in s.inst.queue;
      assert forall q | q in s.inst.queue[1..] :: q in s.inst.queue;
      if e.loaded && Visible(s.rooms, r) {
        HandedLinks(s, e.to, FanOut(r, e.users));
      }
    }
  }

  /** Taking a notification off the queue once its frames are handed over. */
  lemma DequeueAccounts(s: State, q: Row)
    requires s.inst.queue != [] && Accounted(s, q)
    requires q == s.inst.queue[0] ==> !s.sess.Session? || s.sess.closing || !s.readied || Queued(s.sess, Msg(q))
    ensures Accounted(s.(inst := s.inst.(queue := s.inst.queue[1..])), q)
  {
    assert q in s.inst.queue ==> q == s.inst.queue[0] || q in s.inst.queue[1..];
  }

  lemma DeliverAccounts(s: State, e: Event, q: Row)
    requires Core(s) && e.Deliver? && e.loaded && Enabled(s, e)
    requires Visible(s.rooms, q) && Accounted(s, q)
    ensures Accounted(Do(s, e), q)
  {
    var r := s.inst.queue[0];
    var fs := FanOut(r, e.users);
    var m := if Visible(s.rooms, r) then s.(sess := e.to) else s;
    if Visible(s.rooms, r) {
      HandedAccounts(s, e.to, fs, q);
      assert Msg(r) in fs;
      if s.sess.Session? {
        HandedKeeps(s.sess, e.to, fs);
      }
    }
    DequeueAccounts(m, q);
  }

  lemma GapAccounts(s: State, e: Event, q: Row)
    requires Core(s) && e.Gap? && Enabled(s, e) && Accounted(s, q)
    ensures Accounted(Do(s, e), q)
  {
    if e.headRead && s.sess.Session? {
      HandedKeeps(s.sess, e.to, [Resync]);
      assert Resync in [Resync];
    }
  }

  /** Whatever the hub does with a notification, a gap or a re-emission. */
  lemma HubAccounts(s: State, e: Event, q: Row)
    requires Core(s) && Enabled(s, e) && (e.Deliver? || e.Gap? || e.Reemit?)
    requires Visible(s.rooms, q) && Accounted(s, q)
    ensures Accounted(Do(s, e), q)
  {
    if e.Reemit? {
      HandedAccounts(s, e.to, [Msg(e.row)], q);
    } else if e.Gap? {
      GapAccounts(s, e, q);
    } else if e.loaded {
      DeliverAccounts(s, e, q);
    }
  }

  // --- the session --------------------------------------------------------------

  lemma CoreOfSession(s: State, e: Event)
    requires Core(s) && Enabled(s, e)
    requires (e.Hello? || e.Attach? || e.SendReady? || e.Doom? || e.Sever?)
    ensures Core(Do(s, e))
  {
  }

  /** Until the client has read `ready`, or once the session is going, every row
      is owed: the steps of a session's own life break nothing. */
  lemma SessionAccounts(s: State, e: Event, q: Row)
    requires Core(s) && Enabled(s, e)
    requires (e.Hello? || e.Attach? || e.SendReady? || e.Doom? || e.Sever?)
    requires Accounted(s, q)
    ensures Accounted(Do(s, e), q)
  {
  }

  lemma CorePump(s: State)
    requires Core(s) && Enabled(s, Pump)
    ensures Core(Do(s, Pump))
  {
    assert forall f | f in s.sess.outbox[1..] :: f in s.sess.outbox;
    assert s.sess.outbox[0] in s.sess.outbox;
  }

  lemma PumpAccounts(s: State, q: Row)
    requires Enabled(s, Pump) && Accounted(s, q)
    ensures Accounted(Do(s, Pump), q)
  {
    var t := Do(s, Pump);
    assert s.sess.outbox == [s.sess.outbox[0]] + s.sess.outbox[1..];
    assert forall f :: Queued(s.sess, f) <==> Queued(t.sess, f);
  }

  lemma CoreOfProcess(s: State, e: Event)
    requires Core(s) && Enabled(s, e) && (e.Dial? || e.Kill?)
    ensures Core(Do(s, e))
  {
  }

  lemma ProcessAccounts(s: State, e: Event, q: Row)
    requires Enabled(s, e) && (e.Dial? || e.Kill?)
    ensures Accounted(Do(s, e), q)
  {
  }

  // --- the client reading -------------------------------------------------------

  lemma RecordKeepsHeld(st: Store, log: seq<Row>, head: nat, m: Row, q: Row)
    requires LogOk(log, head) && m in log && q in log
    ensures Held(Recorded(st, m), m)
    ensures Held(st, q) ==> Held(Recorded(st, m), q)
  {
    if m.id == q.id {
      LogIdsAreUnique(log, head, m, q);
    }
  }

  lemma RecordKeepsUpTo(st: Store, log: seq<Row>, head: nat, rooms: set<nat>, m: Row, pos: nat)
    requires LogOk(log, head) && m in log && HeldUpTo(st, log, rooms, pos)
    ensures HeldUpTo(Recorded(st, m), log, rooms, pos)
  {
    forall q | q in log && Visible(rooms, q) && q.logSeq <= pos ensures Held(Recorded(st, m), q) {
      RecordKeepsHeld(st, log, head, m, q);
    }
  }

  lemma RecordKeepsNext(st: Store, log: seq<Row>, head: nat, rooms: set<nat>, m: Row, n: Next)
    requires LogOk(log, head) && m in log && NextOk(st, n, log, head, rooms)
    ensures NextOk(Recorded(st, m), n, log, head, rooms)
  {
    if n.From? && n.epoch == st.wipes {
      RecordKeepsUpTo(st, log, head, rooms, m, n.pos);
    }
  }

  lemma RecordKeepsPass(c: Catch, log: seq<Row>, head: nat, rooms: set<nat>, m: Row)
    requires LogOk(log, head) && m in log && PassOk(c, log, head, rooms)
    ensures PassOk(c.(store := Recorded(c.store, m)), log, head, rooms)
  {
    match c.pass
    case Top(n) => RecordKeepsNext(c.store, log, head, rooms, m, n);
    case Armed(_, n) => RecordKeepsNext(c.store, log, head, rooms, m, n);
    case Asked(_, epoch, after) => RecordKeepsNext(c.store, log, head, rooms, m, From(after, epoch));
    case Answered(_, epoch, after, _) => RecordKeepsNext(c.store, log, head, rooms, m, From(after, epoch));
    case Landed(_, epoch, applied, p) => if applied { RecordKeepsNext(c.store, log, head, rooms, m, From(p.logSeq, epoch)); }
    case Idle =>
  }

  lemma WipeKeepsPass(c: Catch, log: seq<Row>, head: nat, rooms: set<nat>)
    requires PassOk(c, log, head, rooms)
    ensures PassOk(c.(store := Wiped(c.store)), log, head, rooms)
  {
  }

  ghost predicate ClientOk(c: Catch, log: seq<Row>, head: nat, rooms: set<nat>) {
    c.store.cursor <= head && StoreOk(c.store, log, rooms) && PassOk(c, log, head, rooms)
  }

  lemma ReadyKeepsClient(c: Catch, h: nat, log: seq<Row>, head: nat, rooms: set<nat>)
    requires LogOk(log, head) && ClientOk(c, log, head, rooms)
    ensures ClientOk(ReadySeen(c, h), log, head, rooms)
  {
    WipeKeepsPass(c, log, head, rooms);
  }

  lemma LiveKeepsClient(c: Catch, r: Row, log: seq<Row>, head: nat, rooms: set<nat>)
    requires LogOk(log, head) && ClientOk(c, log, head, rooms) && r in log
    requires Visible(rooms, r)
    ensures ClientOk(LiveSeen(c, r), log, head, rooms)
  {
    RecordKeepsPass(c, log, head, rooms, r);
  }

  lemma RecordsKeepClient(c: Catch, f: Frame, log: seq<Row>, head: nat, rooms: set<nat>)
    requires ClientOk(c, log, head, rooms) && (f.Conv? || f.User? || f.Resync?)
    ensures ClientOk(Read(c, f), log, head, rooms)
  {
  }

  /** Reading one frame keeps the client's own half of the invariant. */
  lemma ReadKeepsClient(c: Catch, f: Frame, log: seq<Row>, head: nat, rooms: set<nat>)
    requires LogOk(log, head) && ClientOk(c, log, head, rooms)
    requires FramesFrom([f], log, rooms)
    ensures ClientOk(Read(c, f), log, head, rooms)
  {
    assert f in [f];
    match f
    case Ready(h) => ReadyKeepsClient(c, h, log, head, rooms);
    case Msg(r) => LiveKeepsClient(c, r, log, head, rooms);
    case _ => RecordsKeepClient(c, f, log, head, rooms);
  }

  /** Nothing is forgotten by reading a frame: what was held or owed by the
      client still is, and the frame's own row is. */
  lemma ReadKeepsOwed(c: Catch, f: Frame, log: seq<Row>, head: nat, rooms: set<nat>, q: Row)
    requires LogOk(log, head) && FramesFrom([f], log, rooms) && q in log
    requires PassOk(c, log, head, rooms)
    ensures Held(c.store, q) || CatchUpOwes(c, q) || f == Msg(q) || f.Ready? || f.Resync?
            ==> Held(Read(c, f).store, q) || CatchUpOwes(Read(c, f), q)
  {
    assert f in [f];
    if f.Msg? {
      RecordKeepsHeld(c.store, log, head, f.row, q);
    }
  }

  lemma ReceiveAccounts(s: State, q: Row)
    requires Core(s) && Enabled(s, Receive) && q in s.log && Accounted(s, q)
    ensures Accounted(Do(s, Receive), q)
  {
    var f := s.sess.wire[0];
    assert s.sess.wire == [f] + s.sess.wire[1..];
    assert forall g :: g in s.sess.wire <==> g == f || g in s.sess.wire[1..];
    assert f in s.sess.wire;
    ReadKeepsOwed(s.c, f, s.log, s.head, s.rooms, q);
  }

  lemma CoreReceive(s: State)
    requires Core(s) && Enabled(s, Receive)
    ensures Core(Do(s, Receive))
  {
    var t := Do(s, Receive);
    var f := s.sess.wire[0];
    assert f in s.sess.wire;
    ReadKeepsClient(s.c, f, s.log, s.head, s.rooms);
    assert forall g | g in t.sess.wire :: g in s.sess.wire;
  }

  // --- the client's triggers and its catch-up -----------------------------------

  lemma CoreOfPass(s: State, e: Event)
    requires Core(s) && Enabled(s, e) && SafeAsk(s, e) && OfPass(e)
    ensures Core(Do(s, e))
  {
    if e.ReadCursor? || e.Decide? {
      CoreOfTurn(s, e);
    } else {
      CoreOfTrigger(s, e);
    }
  }

  lemma CoreOfTurn(s: State, e: Event)
    requires Core(s) && Enabled(s, e) && SafeAsk(s, e)
    requires (e.ReadCursor? || e.Decide?)
    ensures Core(Do(s, e))
  {
    if e.ReadCursor? {
      AskKeepsPass(s);
    } else {
      DecideKeepsPass(s);
    }
  }

  lemma AskKeepsPass(s: State)
    requires Core(s) && Enabled(s, ReadCursor) && SafeAsk(s, ReadCursor)
    ensures Do(s, ReadCursor) == s.(c := CursorRead(s.c))
    ensures PassOk(CursorRead(s.c), s.log, s.head, s.rooms)
  {
  }

  lemma DecideKeepsPass(s: State)
    requires PassOk(s.c, s.log, s.head, s.rooms) && Enabled(s, Decide)
    ensures Do(s, Decide) == s.(c := Decided(s.c))
    ensures Decided(s.c).store == s.c.store
    ensures PassOk(Decided(s.c), s.log, s.head, s.rooms)
  {
  }

  lemma CoreOfTrigger(s: State, e: Event)
    requires Core(s) && Enabled(s, e)
    requires (e.Pull? || e.Trigger? || e.Begin? || e.ReadGen? || e.Fail?)
    ensures Core(Do(s, e))
  {
    TriggerKeepsPass(s, e);
  }

  lemma TriggerKeepsPass(s: State, e: Event)
    requires PassOk(s.c, s.log, s.head, s.rooms) && Enabled(s, e)
    requires (e.Pull? || e.Trigger? || e.Begin? || e.ReadGen? || e.Fail?)
    ensures Do(s, e) == s.(c := Do(s, e).c) && Do(s, e).c.store == s.c.store
    ensures PassOk(Do(s, e).c, s.log, s.head, s.rooms)
  {
  }

  /** A trigger and a request under way forget nothing the client owes itself. */
  lemma TriggerOwes(s: State, e: Event, q: Row)
    requires PassOk(s.c, s.log, s.head, s.rooms) && Enabled(s, e)
    requires e.Pull? || e.Trigger? || e.Begin? || e.ReadGen? || e.ReadCursor? || e.Fail?
    requires Held(s.c.store, q) || CatchUpOwes(s.c, q)
    ensures Held(Do(s, e).c.store, q) || CatchUpOwes(Do(s, e).c, q)
  {
  }

  /** Catch-up ends only on a page asked for after the last trigger, so ending it
      forgives nothing. */
  lemma DecideOwes(s: State, q: Row)
    requires Enabled(s, Decide) && s.c.doneGen < s.c.gen
    requires (Held(s.c.store, q) || CatchUpOwes(s.c, q))
    ensures Held(Do(s, Decide).c.store, q) || CatchUpOwes(Do(s, Decide).c, q)
  {
  }

  lemma PassOwes(s: State, e: Event, q: Row)
    requires PassOk(s.c, s.log, s.head, s.rooms) && Enabled(s, e)
    requires OfPass(e) && (Held(s.c.store, q) || CatchUpOwes(s.c, q))
    ensures Held(Do(s, e).c.store, q) || CatchUpOwes(Do(s, e).c, q)
  {
    if e.Decide? {
      DecideOwes(s, q);
    } else {
      TriggerOwes(s, e, q);
    }
  }

  lemma PassAccounts(s: State, e: Event, q: Row)
    requires PassOk(s.c, s.log, s.head, s.rooms) && Enabled(s, e)
    requires OfPass(e) && Accounted(s, q)
    ensures Accounted(Do(s, e), q)
  {
    if Held(s.c.store, q) || CatchUpOwes(s.c, q) {
      PassOwes(s, e, q);
    }
  }

  lemma CoreFetch(s: State, e: Event)
    requires Core(s) && e.Fetch? && Enabled(s, e)
    ensures Core(Do(s, e))
  {
    SyncIsExact(s.log, s.head, s.rooms, s.c.pass.after, e.asked, e.extraConvs, e.extraUsers);
  }

  /** A page fetched now carries every visible row the store still lacks, or says
      there is more behind it. */
  lemma FetchOwes(s: State, e: Event, q: Row)
    requires Core(s) && e.Fetch? && Enabled(s, e) && q in s.log
    requires Visible(s.rooms, q)
    requires Held(s.c.store, q) || CatchUpOwes(s.c, q)
    ensures Held(Do(s, e).c.store, q) || CatchUpOwes(Do(s, e).c, q)
  {
    SyncIsExact(s.log, s.head, s.rooms, s.c.pass.after, e.asked, e.extraConvs, e.extraUsers);
  }

  /** A page asked from where everything is held lands without leaving a hole. */
  lemma LandKeepsCover(st: Store, p: Page, log: seq<Row>, head: nat, rooms: set<nat>, after: nat)
    requires LogOk(log, head) && StoreOk(st, log, rooms)
    requires PageFull(p, log, rooms, after)
    requires HeldUpTo(st, log, rooms, after)
    ensures StoreOk(Land(st, p), log, rooms)
    ensures HeldUpTo(Land(st, p), log, rooms, p.logSeq)
  {
    LandKeepsFaith(st, p, log, rooms);
    forall q | q in log && Visible(rooms, q) && (q.logSeq <= Land(st, p).cursor || q.logSeq <= p.logSeq) ensures Held(Land(st, p), q) {
      LandHolds(st, p, log, head, rooms, q);
    }
  }

  lemma LandOwes(s: State, q: Row)
    requires Core(s) && Enabled(s, LandPage) && q in s.log
    requires (Held(s.c.store, q) || CatchUpOwes(s.c, q))
    ensures Held(Do(s, LandPage).c.store, q) || CatchUpOwes(Do(s, LandPage).c, q)
  {
    if s.c.pass.epoch == s.c.store.wipes {
      LandHolds(s.c.store, s.c.pass.page, s.log, s.head, s.rooms, q);
    }
  }

  lemma CoreLand(s: State)
    requires Core(s) && Enabled(s, LandPage)
    ensures Core(Do(s, LandPage))
  {
    RecordAllFrame(s.c.store, s.c.pass.page.rows);
    if s.c.pass.epoch == s.c.store.wipes {
      LandKeepsCover(s.c.store, s.c.pass.page, s.log, s.head, s.rooms, s.c.pass.after);
    }
  }

  lemma PageAccounts(s: State, e: Event, q: Row)
    requires Core(s) && Enabled(s, e) && (e.Fetch? || e.LandPage?)
    requires q in s.log && Visible(s.rooms, q) && Accounted(s, q)
    ensures Accounted(Do(s, e), q)
  {
    if Held(s.c.store, q) || CatchUpOwes(s.c, q) {
      if e.Fetch? {
        FetchOwes(s, e, q);
      } else {
        LandOwes(s, q);
      }
    }
  }

  // --- every step -----------------------------------------------------------------

  predicate OfInstance(e: Event) { e.Commit? || e.Draw? || e.Listen? || e.Disconnect? }

  predicate OfHub(e: Event) { e.Deliver? || e.Gap? || e.Reemit? }

  predicate OfSession(e: Event) { e.Hello? || e.Attach? || e.SendReady? || e.Doom? || e.Sever? }

  predicate OfLink(e: Event) { e.Pump? || e.Receive? || e.Dial? || e.Kill? }

  predicate OfPage(e: Event) { e.Fetch? || e.LandPage? }

  predicate OfPass(e: Event) { e.Pull? || e.Trigger? || e.Begin? || e.ReadGen? || e.ReadCursor? || e.Fail? || e.Decide? }

  lemma CoreOfLink(s: State, e: Event)
    requires Core(s) && OfLink(e) && Enabled(s, e)
    ensures Core(Do(s, e))
  {
    if e.Pump? {
      CorePump(s);
    } else if e.Receive? {
      CoreReceive(s);
    } else {
      CoreOfProcess(s, e);
    }
  }

  lemma CoreOfServer(s: State, e: Event)
    requires Core(s) && (OfInstance(e) || OfHub(e) || OfSession(e)) && Enabled(s, e)
    ensures Core(Do(s, e))
  {
    if OfHub(e) {
      CoreOfHub(s, e);
    } else if OfSession(e) {
      CoreOfSession(s, e);
    } else if e.Commit? {
      CoreCommit(s, e.row);
    } else {
      CoreOfInstance(s, e);
    }
  }

  lemma CoreOfClient(s: State, e: Event)
    requires Core(s) && (OfLink(e) || OfPage(e) || OfPass(e))
    requires Enabled(s, e) && SafeAsk(s, e)
    ensures Core(Do(s, e))
  {
    if OfLink(e) {
      CoreOfLink(s, e);
    } else if OfPass(e) {
      CoreOfPass(s, e);
    } else if e.Fetch? {
      CoreFetch(s, e);
    } else {
      CoreLand(s);
    }
  }

  /** The pieces are kept by every step that skips nothing. */
  lemma CoreStep(s: State, e: Event)
    requires Core(s) && Enabled(s, e) && SafeAsk(s, e)
    ensures Core(Do(s, e))
  {
    if OfInstance(e) || OfHub(e) || OfSession(e) {
      CoreOfServer(s, e);
    } else {
      CoreOfClient(s, e);
    }
  }

  lemma ServerAccounts(s: State, e: Event, q: Row)
    requires Core(s) && (OfInstance(e) || OfHub(e) || OfSession(e))
    requires Enabled(s, e) && Visible(s.rooms, q) && Accounted(s, q)
    ensures Accounted(Do(s, e), q)
  {
    if OfHub(e) {
      HubAccounts(s, e, q);
    } else if OfSession(e) {
      SessionAccounts(s, e, q);
    } else {
      InstanceAccounts(s, e, q);
    }
  }

  lemma LinkAccounts(s: State, e: Event, q: Row)
    requires Core(s) && OfLink(e) && Enabled(s, e) && q in s.log && Accounted(s, q)
    ensures Accounted(Do(s, e), q)
  {
    if e.Pump? {
      PumpAccounts(s, q);
    } else if e.Receive? {
      ReceiveAccounts(s, q);
    } else {
      ProcessAccounts(s, e, q);
    }
  }

  lemma ClientAccounts(s: State, e: Event, q: Row)
    requires Core(s) && (OfLink(e) || OfPage(e) || OfPass(e))
    requires Enabled(s, e) && q in s.log && Visible(s.rooms, q)
    requires Accounted(s, q)
    ensures Accounted(Do(s, e), q)
  {
    if OfLink(e) {
      LinkAccounts(s, e, q);
    } else if OfPass(e) {
      PassAccounts(s, e, q);
    } else {
      PageAccounts(s, e, q);
    }
  }

  /** A committed row that is accounted for stays so, whatever happens. */
  lemma StepAccounts(s: State, e: Event, q: Row)
    requires Core(s) && Enabled(s, e) && q in s.log && Visible(s.rooms, q)
    requires Accounted(s, q)
    ensures Accounted(Do(s, e), q)
  {
    if OfInstance(e) || OfHub(e) || OfSession(e) {
      ServerAccounts(s, e, q);
    } else {
      ClientAccounts(s, e, q);
    }
  }

  /** A NEW ROW IS ACCOUNTED FOR EXACTLY WHEN ITS COMMIT IS HEARD. */
  lemma CommitAccountsIff(s: State, r: Row)
    requires Core(s) && Enabled(s, Commit(r)) && Visible(s.rooms, r)
    ensures Accounted(Do(s, Commit(r)), r) <==> Heard(s, Commit(r))
  {
    var t := Do(s, Commit(r));
    assert r !in s.log;
    assert !Held(s.c.store, r) by {
      assert r.id in s.c.store.messages ==> s.c.store.messages[r.id] in s.log;
    }
    assert s.c.pass.Answered? ==> r !in s.c.pass.page.rows;
    assert s.sess.Session? ==> !Queued(s.sess, Msg(r));
    assert r in t.inst.queue <==> s.inst.listening;
  }

  /** The invariant is inductive over every step whose own guard is met. */
  lemma Step(s: State, e: Event)
    requires Inv(s) && Enabled(s, e) && Safe(s, e)
    ensures Inv(Do(s, e))
  {
    CoreStep(s, e);
    var t := Do(s, e);
    forall q | q in t.log && Visible(t.rooms, q) ensures Accounted(t, q) {
      if q in s.log {
        StepAccounts(s, e, q);
      } else {
        CommitAccountsIff(s, e.row);
      }
    }
  }

  lemma InitKeepsInv(s: State)
    requires Init(s)
    ensures Inv(s)
  {
  }

  /** Every safe run keeps the invariant. */
  lemma {:induction false} RunKeepsInv(s: State, es: seq<Event>)
    requires Inv(s) && Run(s, es) && SafeRun(s, es)
    ensures Inv(After(s, es))
    decreases |es|
  {
    if es != [] {
      Step(s, es[0]);
      RunKeepsInv(Do(s, es[0]), es[1..]);
    }
  }

  lemma {:induction false} RunKeepsCore(s: State, es: seq<Event>)
    requires Core(s) && Run(s, es) && AskRun(s, es)
    ensures Core(After(s, es))
    decreases |es|
  {
    if es != [] {
      CoreStep(s, es[0]);
      RunKeepsCore(Do(s, es[0]), es[1..]);
    }
  }
}
