/**
 One device against one log, over whole runs.

 The log commits and notifies; an instance's listener subscribes, loses its
 connection and raises gaps; its hub queues frames on the device's session or ends
 it; the socket carries them; the client reads frames, pulls triggers and pages.
 Every step is one critical section of the source, and steps interleave freely.
 */
module SyncRun {
  import opened MessageLog
  import opened ClientSync
  import opened Outbox

  datatype Frame = Ready(head: nat) | Conv(conv: nat) | User(user: nat) | Msg(row: Row) | Resync

  /** One instance's NOTIFY listener (internal/store/notify.go).  A row in `queue`
      is its notification: `(conversation_id, seq)` names it.  `gapOwed` is a gap
      being raised: it runs on the listener's own goroutine, before the next
      notification is taken. */
  datatype Instance = Instance(listening: bool, connected: bool, gapOwed: bool, queue: seq<Row>)

  /** The device's socket as the server holds it: dialed and not yet greeted, then
      a session.  `closing` is one the server has decided to end and the client has
      not yet seen end. */
  datatype Sess =
    | NoSession
    | Door
    | Session(readyHead: nat, indexed: bool, readySent: bool, closing: bool, outbox: seq<Frame>, wire: seq<Frame>)

  /** `readied`: the client has read `ready` on the current session. */
  datatype State = State(rooms: set<nat>, log: seq<Row>, head: nat, inst: Instance, sess: Sess, readied: bool, c: Catch)

  /** The session's outbox, as the hub has it. */
  function BoxOf(s: Sess): Box<Frame>
    requires s.Session?
  {
    Box(0, 0, s.wire, s.outbox, !s.indexed)
  }

  /** The hub hands a session frames: whatever its contract allows, `Got`, may come of it.
      One severed on a full outbox is on its way out; one no longer indexed gets nothing. */
  predicate HandedOver(s: Sess, t: Sess, fs: seq<Frame>) {
    if s.Session? && s.indexed then
      && t.Session? && Got(BoxOf(s), BoxOf(t), fs)
      && t == s.(outbox := t.outbox, wire := t.wire, indexed := t.indexed, closing := s.closing || !t.indexed)
    else t == s
  }

  /** A fan-out: a conversation's first message is preceded by its records. */
  function FanOut(r: Row, users: seq<nat>): (fs: seq<Frame>)
    ensures |fs| > 0 && fs[|fs| - 1] == Msg(r)
    ensures forall f | f in fs :: !f.Ready? && (f.Msg? ==> f == Msg(r))
  {
    Share(r.seqNo == FIRST_MESSAGE_SEQ, Conv(r.conv), seq(|users|, i requires 0 <= i < |users| => User(users[i])), Msg(r))
  }

  datatype Event =
    // the log
    | Commit(row: Row)
    | Draw
    // the instance
    | Listen
    | Disconnect
    | Deliver(loaded: bool, users: seq<nat>, to: Sess)
    | Gap(headRead: bool, to: Sess)
    | Reemit(row: Row, to: Sess)
    // the session, as the server runs it
    | Hello
    | Attach
    | SendReady
    | Pump
    | Doom(removed: bool)
    // the client
    | Dial(landed: Instance)
    | Sever
    | Kill
    | Receive
    | Pull
    | Trigger
    | Begin
    | ReadGen
    | ReadCursor
    | Fetch(asked: int, extraConvs: set<nat>, extraUsers: set<nat>)
    | Fail
    | LandPage
    | Decide

  predicate Enabled(s: State, e: Event) {
    match e
    case Commit(r) => r.logSeq > s.head && LogOk(s.log + [r], r.logSeq)
    case Draw => true
    case Listen => !s.inst.listening && !s.inst.gapOwed
    case Disconnect => s.inst.listening
    case Deliver(loaded, users, to) =>
      && s.inst.listening && !s.inst.gapOwed && s.inst.queue != []
      && (loaded && Visible(s.rooms, s.inst.queue[0]) ==> HandedOver(s.sess, to, FanOut(s.inst.queue[0], users)))
    case Gap(headRead, to) => s.inst.gapOwed && (headRead ==> HandedOver(s.sess, to, [Resync]))
    case Reemit(r, to) => r in s.log && Visible(s.rooms, r) && HandedOver(s.sess, to, [Msg(r)])
    case Hello => s.sess.Door?
    case Attach => s.sess.Session? && !s.sess.indexed && !s.sess.readySent && !s.sess.closing
    case SendReady => s.sess.Session? && !s.sess.readySent && (s.sess.indexed || s.sess.closing)
    case Pump => s.sess.Session? && s.sess.outbox != []
    case Doom(_) => s.sess.Session?
    case Dial(i) => s.sess.NoSession? && !s.c.owed && InstOk(i, s.log)
    case Sever => !s.sess.NoSession?
    case Kill => true
    case Receive => s.sess.Session? && s.sess.wire != [] && !s.c.owed
    case Pull => s.c.owed
    case Trigger => true
    case Begin => s.c.pass.Idle? && !CaughtUp(s.c)
    case ReadGen => s.c.pass.Top?
    case ReadCursor => s.c.pass.Armed?
    case Fetch(_, _, _) => s.c.pass.Asked?
    case Fail => s.c.pass.Asked? || s.c.pass.Answered?
    case LandPage => s.c.pass.Answered?
    case Decide => s.c.pass.Landed?
  }

  /** What an instance can be like: it has subscribed before it listens, it raises a gap
      only after a subscription, and nothing is queued while it is down. */
  predicate InstOk(i: Instance, log: seq<Row>) {
    (i.listening || i.gapOwed ==> i.connected) && (!i.listening ==> i.queue == []) && forall r | r in i.queue :: r in log
  }

  /** A committed row notifies every instance that is listening, and nobody else:
      Postgres queues nothing for a listener that is down. */
  function Notified(i: Instance, r: Row): Instance {
    if i.listening then i.(queue := i.queue + [r]) else i
  }

  /** LISTEN, then the gap: raised by every subscription but the first. */
  function Subscribed(i: Instance): Instance { Instance(true, true, i.connected, []) }

  function Delivered(s: State, loaded: bool, to: Sess): State
    requires s.inst.queue != []
  {
    var rest := s.inst.(queue := s.inst.queue[1..]);
    if !loaded then s.(inst := rest.(gapOwed := true))
    else s.(inst := rest, sess := if Visible(s.rooms, s.inst.queue[0]) then to else s.sess)
  }

  /** hub.gap: every indexed session is told to resync, or, when the head cannot
      be read, closed. */
  function GapRaised(s: State, headRead: bool, to: Sess): State {
    s.(inst := s.inst.(gapOwed := false),
    sess := if headRead then to
    else if s.sess.Session? && s.sess.indexed then s.sess.(closing := true) else s.sess)
  }

  function Read(c: Catch, f: Frame): Catch {
    match f
    case Ready(h) => ReadySeen(c, h)
    case Conv(conv) => ConvSeen(c, conv)
    case User(user) => UserSeen(c, user)
    case Msg(r) => LiveSeen(c, r)
    case Resync => Triggered(c)
  }

  function Received(s: State): State
    requires s.sess.Session? && s.sess.wire != []
  {
    s.(sess := s.sess.(wire := s.sess.wire[1..]),
    readied := s.readied || s.sess.wire[0].Ready?,
    c := Read(s.c, s.sess.wire[0]))
  }

  function Fetched(s: State, asked: int, extraConvs: set<nat>, extraUsers: set<nat>): State
    requires s.c.pass.Asked?
  {
    s.(c := PageReceived(s.c, Sync(s.log, s.head, s.rooms, s.c.pass.after, asked, extraConvs, extraUsers)))
  }

  /** A relaunch: a new client over the same journal. */
  function Relaunched(s: State): State {
    s.(sess := NoSession, readied := false, c := Catch(s.c.store, 0, 0, Idle, false))
  }

  function Do(s: State, e: Event): State
    requires Enabled(s, e)
  {
    match e
    case Commit(r) => s.(log := s.log + [r], head := r.logSeq, inst := Notified(s.inst, r))
    case Draw => s.(head := s.head + 1)
    case Listen => s.(inst := Subscribed(s.inst))
    case Disconnect => s.(inst := s.inst.(listening := false, queue := []))
    case Deliver(loaded, _, to) => Delivered(s, loaded, to)
    case Gap(headRead, to) => GapRaised(s, headRead, to)
    case Reemit(_, to) => s.(sess := to)
    case Hello => s.(sess := Session(s.head, false, false, false, [], []))
    case Attach => s.(sess := s.sess.(indexed := true))
    case SendReady => s.(sess := s.sess.(readySent := true, wire := s.sess.wire + [Ready(s.sess.readyHead)]))
    case Pump => s.(sess := s.sess.(outbox := s.sess.outbox[1..], wire := s.sess.wire + [s.sess.outbox[0]]))
    case Doom(removed) => s.(sess := s.sess.(closing := true, indexed := s.sess.indexed && !removed))
    case Dial(i) => s.(inst := i, sess := Door, readied := false, c := Triggered(s.c))
    case Sever => s.(sess := NoSession, readied := false)
    case Kill => Relaunched(s)
    case Receive => Received(s)
    case Pull => s.(c := PullOwed(s.c))
    case Trigger => s.(c := Triggered(s.c))
    case Begin => s.(c := Started(s.c))
    case ReadGen => s.(c := GenRead(s.c))
    case ReadCursor => s.(c := CursorRead(s.c))
    case Fetch(asked, extraConvs, extraUsers) => Fetched(s, asked, extraConvs, extraUsers)
    case Fail => s.(c := Abandoned(s.c))
    case LandPage => s.(c := PageLanded(s.c))
    case Decide => s.(c := Decided(s.c))
  }

  /** A fresh device over an empty log, nobody listening yet. */
  predicate Init(s: State) {
    && s.log == [] && s.inst == Instance(false, false, false, [])
    && s.sess.NoSession? && !s.readied
    && s.c == Catch(EMPTY, 0, 0, Idle, false)
  }

  /** A request skips nothing: every visible row at or below the position it is issued
      from is held. */
  predicate SafeAsk(s: State, e: Event) {
    e.ReadCursor? && s.c.pass.Armed? && s.c.pass.next.From? ==> HeldUpTo(s.c.store, s.log, s.rooms, s.c.pass.next.pos)
  }

  /** A catch-up that has yet to issue the request it will end on, or to learn that there is
      more: it will ask again. */
  predicate WillAsk(c: Catch) {
    c.owed || (c.gen != c.doneGen &&
               match c.pass
               case Answered(issued, epoch, _, p) => issued != c.gen || epoch != c.store.wipes || p.hasMore
               case Landed(issued, _, applied, p) => issued != c.gen || !applied || p.hasMore
               case _ => true)
  }

  /** A commit is heard: the row is not the device's, or the instance has subscribed once, or
      the session has still to tell the client to catch up, or the client will ask again. */
  predicate Heard(s: State, e: Event) {
    e.Commit? && Visible(s.rooms, e.row) ==>
      || s.inst.connected
      || !s.sess.Session? || s.sess.closing || !s.readied || Queued(s.sess, Resync)
      || WillAsk(s.c)
  }

  /** The two steps that break the promise, each by its own guard. */
  predicate Safe(s: State, e: Event) { SafeAsk(s, e) && Heard(s, e) }

  predicate Run(s0: State, es: seq<Event>)
    decreases |es|
  {
    if es == [] then true
    else Enabled(s0, es[0]) && Run(Do(s0, es[0]), es[1..])
  }

  function After(s0: State, es: seq<Event>): State
    requires Run(s0, es)
    decreases |es|
  {
    if es == [] then s0 else After(Do(s0, es[0]), es[1..])
  }

  predicate SafeRun(s0: State, es: seq<Event>)
    requires Run(s0, es)
    decreases |es|
  {
    if es == [] then true
    else Safe(s0, es[0]) && SafeRun(Do(s0, es[0]), es[1..])
  }

  predicate AskRun(s0: State, es: seq<Event>)
    requires Run(s0, es)
    decreases |es|
  {
    if es == [] then true
    else SafeAsk(s0, es[0]) && AskRun(Do(s0, es[0]), es[1..])
  }

  // --- the invariant ------------------------------------------------------------

  /** A position is at or below the head, and everything at or below one that this epoch
      reached is held. */
  predicate NextOk(st: Store, n: Next, log: seq<Row>, head: nat, rooms: set<nat>) {
    n.From? ==> n.epoch <= st.wipes && n.pos <= head && (n.epoch == st.wipes ==> HeldUpTo(st, log, rooms, n.pos))
  }

  ghost predicate PageFull(p: Page, log: seq<Row>, rooms: set<nat>, after: nat) {
    forall r :: r in p.rows <==> r in log && Visible(rooms, r) && after < r.logSeq <= p.logSeq
  }

  ghost predicate PassOk(c: Catch, log: seq<Row>, head: nat, rooms: set<nat>) {
    && c.doneGen <= c.gen
    && (!c.pass.Idle? ==> c.doneGen < c.gen)
    && match c.pass
       case Idle => true
       case Top(n) => NextOk(c.store, n, log, head, rooms)
       case Armed(issued, n) => NextOk(c.store, n, log, head, rooms) && issued <= c.gen
       case Asked(issued, epoch, after) => NextOk(c.store, From(after, epoch), log, head, rooms) && issued <= c.gen
       case Answered(issued, epoch, after, p) =>
         && NextOk(c.store, From(after, epoch), log, head, rooms) && issued <= c.gen
         && PageFull(p, log, rooms, after) && p.logSeq <= head
       case Landed(issued, epoch, applied, p) =>
         issued <= c.gen && epoch <= c.store.wipes && (applied ==> NextOk(c.store, From(p.logSeq, epoch), log, head, rooms))
  }

  ghost predicate StoreOk(st: Store, log: seq<Row>, rooms: set<nat>) {
    Faithful(st, log, rooms) && CountedOnce(st) && Covered(st, log, rooms)
  }

  predicate FramesFrom(fs: seq<Frame>, log: seq<Row>, rooms: set<nat>) {
    forall f | f in fs && f.Msg? :: f.row in log && Visible(rooms, f.row)
  }

  predicate NoReady(fs: seq<Frame>) { forall f | f in fs :: !f.Ready? }

  predicate LinkOk(s: State) {
    && (s.readied ==> s.sess.Session? && s.sess.readySent)
    && (s.sess.Session? && s.sess.readySent && !s.sess.closing ==> s.sess.indexed)
    && (s.sess.Session? ==> FramesFrom(s.sess.outbox, s.log, s.rooms) && FramesFrom(s.sess.wire, s.log, s.rooms))
    && (s.sess.Session? ==> NoReady(s.sess.outbox) && (s.sess.readySent || NoReady(s.sess.wire)))
    && InstOk(s.inst, s.log)
  }

  /** The catch-up under way, or the one still to start, will end on a page that
      carries `r`. */
  predicate CatchUpOwes(c: Catch, r: Row) {
    WillAsk(c) || (c.gen != c.doneGen && c.pass.Answered? && r in c.pass.page.rows)
  }

  predicate Queued(s: Sess, f: Frame)
    requires s.Session?
  {
    f in s.outbox || f in s.wire
  }

  /** The server still owes the client something that will bring `r`: a fresh
      session, a `ready`, a resync, the frame itself, or the notification, or gap,
      that will produce one of those. */
  predicate ServerOwes(s: State, r: Row) {
    || !s.sess.Session? || s.sess.closing || !s.readied
    || Queued(s.sess, Resync) || Queued(s.sess, Msg(r))
    || (!s.inst.listening && s.inst.connected) || s.inst.gapOwed || r in s.inst.queue
  }

  predicate Accounted(s: State, r: Row) {
    Held(s.c.store, r) || CatchUpOwes(s.c, r) || ServerOwes(s, r)
  }

  ghost predicate NoneLost(s: State) {
    forall r | r in s.log && Visible(s.rooms, r) :: Accounted(s, r)
  }

  /** All of it but the promise itself. */
  ghost predicate Core(s: State) {
    && LogOk(s.log, s.head)
    && s.c.store.cursor <= s.head
    && LinkOk(s)
    && StoreOk(s.c.store, s.log, s.rooms)
    && PassOk(s.c, s.log, s.head, s.rooms)
  }

  ghost predicate Inv(s: State) { Core(s) && NoneLost(s) }
}
