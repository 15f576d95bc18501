/**
 The reference client's journal and its catch-up (internal/client/client.go,
 internal/client/journal.go).

 `Store` is the durable journal as a value and `Catch` the client around it.  The
 functions below are what each critical section of the client does to them; the
 classes `Journal` and `Client` at the end do the same by updating their fields,
 one method per critical section, and every method is proved against its function.
 */
module ClientSync {
  import opened MessageLog

  // --- the journal as a value ---------------------------------------------------

  datatype Store = Store(
    cursor: nat, hasCursor: bool,
    messages: map<nat, Row>, convs: set<nat>, users: set<nat>,
    counted: seq<nat>, wipes: nat)

  const EMPTY: Store := Store(0, false, map[], {}, {}, [], 0)

  /** A message is held by id: a new id is counted, a known one is replaced. */
  function Recorded(s: Store, m: Row): Store {
    s.(messages := s.messages[m.id := m],
       counted := if m.id in s.messages then s.counted else s.counted + [m.id])
  }

  function RecordAll(s: Store, ms: seq<Row>): Store {
    if ms == [] then s else Recorded(RecordAll(s, ms[..|ms| - 1]), ms[|ms| - 1])
  }

  /** A page lands whole: messages, records, then the cursor, which only rises. */
  function Land(s: Store, p: Page): Store {
    RecordAll(s, p.rows).(
    convs := s.convs + p.convs,
    users := s.users + p.users,
    cursor := if !s.hasCursor || p.logSeq > s.cursor then p.logSeq else s.cursor,
    hasCursor := true)
  }

  /** Obligation 4's discard, in a new epoch. */
  function Wiped(s: Store): Store { EMPTY.(wipes := s.wipes + 1) }

  predicate Held(s: Store, r: Row) { r.id in s.messages && s.messages[r.id] == r }

  /** Each held id was counted, and counted once. */
  ghost predicate CountedOnce(s: Store) {
    && (forall i, j | 0 <= i < j < |s.counted| :: s.counted[i] != s.counted[j])
    && (forall id :: id in s.counted <==> id in s.messages)
  }

  /** Nothing is held that the log does not have, as the log has it. */
  ghost predicate Faithful(s: Store, log: seq<Row>, rooms: set<nat>) {
    forall id | id in s.messages :: s.messages[id].id == id && s.messages[id] in log && Visible(rooms, s.messages[id])
  }

  predicate HeldUpTo(s: Store, log: seq<Row>, rooms: set<nat>, pos: nat) {
    forall r | r in log && Visible(rooms, r) && r.logSeq <= pos :: Held(s, r)
  }

  /** The cursor's meaning: every visible row at or below it is held. */
  predicate Covered(s: Store, log: seq<Row>, rooms: set<nat>) { HeldUpTo(s, log, rooms, s.cursor) }

  lemma RecordKeepsCount(s: Store, m: Row)
    requires CountedOnce(s)
    ensures CountedOnce(Recorded(s, m))
  {
    var t := Recorded(s, m);
    forall id ensures id in t.counted <==> id in t.messages {
      if m.id !in s.messages {
        assert id in t.counted <==> id in s.counted || id == m.id;
      }
    }
  }

  lemma {:induction false} RecordAllKeepsCount(s: Store, ms: seq<Row>)
    requires CountedOnce(s)
    ensures CountedOnce(RecordAll(s, ms))
  {
    if ms != [] {
      RecordAllKeepsCount(s, ms[..|ms| - 1]);
      RecordKeepsCount(RecordAll(s, ms[..|ms| - 1]), ms[|ms| - 1]);
    }
  }

  /** Recording touches the messages and the count, and nothing else. */
  lemma {:induction false} RecordAllFrame(s: Store, ms: seq<Row>)
    ensures RecordAll(s, ms) == s.(messages := RecordAll(s, ms).messages, counted := RecordAll(s, ms).counted)
  {
    if ms != [] { RecordAllFrame(s, ms[..|ms| - 1]); }
  }

  /** After recording, what is held is what was held before or one of the rows. */
  lemma {:induction false} RecordAllSources(s: Store, ms: seq<Row>, id: nat)
    ensures var t := RecordAll(s, ms);
            id in t.messages ==>
              (t.messages[id] in ms && t.messages[id].id == id) || (id in s.messages && t.messages[id] == s.messages[id])
  {
    if ms != [] {
      var init, last := ms[..|ms| - 1], ms[|ms| - 1];
      RecordAllSources(s, init, id);
      assert ms == init + [last];
      assert forall r :: r in init ==> r in ms;
    }
  }

  lemma {:induction false} RecordAllKeys(s: Store, ms: seq<Row>, id: nat)
    ensures id in RecordAll(s, ms).messages <==> id in s.messages || exists r :: r in ms && r.id == id
  {
    if ms != [] {
      var init, last := ms[..|ms| - 1], ms[|ms| - 1];
      RecordAllKeys(s, init, id);
      assert ms == init + [last];
      assert forall r :: r in ms <==> r in init || r == last;
    }
  }

  lemma LogIdsAreUnique(log: seq<Row>, head: nat, a: Row, b: Row)
    requires LogOk(log, head) && a in log && b in log && a.id == b.id
    ensures a == b
  {
  }

  /** Landing a page keeps the store faithful and its count honest. */
  lemma LandKeepsFaith(s: Store, p: Page, log: seq<Row>, rooms: set<nat>)
    requires Faithful(s, log, rooms) && CountedOnce(s)
    requires forall r | r in p.rows :: r in log && Visible(rooms, r)
    ensures Faithful(Land(s, p), log, rooms) && CountedOnce(Land(s, p))
  {
    RecordAllKeepsCount(s, p.rows);
    forall id | id in Land(s, p).messages
      ensures var m := Land(s, p).messages[id]; m.id == id && m in log && Visible(rooms, m)
    {
      RecordAllSources(s, p.rows, id);
    }
  }

  /** What a page adds and what it leaves: a row of the log is held afterwards
      exactly when it was held before or the page carried it. */
  lemma LandHolds(s: Store, p: Page, log: seq<Row>, head: nat, rooms: set<nat>, r: Row)
    requires LogOk(log, head) && Faithful(s, log, rooms)
    requires forall q | q in p.rows :: q in log && Visible(rooms, q)
    requires r in log
    ensures Held(Land(s, p), r) <==> Held(s, r) || r in p.rows
  {
    RecordAllKeys(s, p.rows, r.id);
    RecordAllSources(s, p.rows, r.id);
    if r.id in Land(s, p).messages {
      var m := Land(s, p).messages[r.id];
      LogIdsAreUnique(log, head, m, r);
    }
    if r.id in s.messages {
      LogIdsAreUnique(log, head, s.messages[r.id], r);
    }
  }

  // --- the client as a value ----------------------------------------------------

  /** `next` in catchUp: start from the cursor, or go on from where a page ended.
      `epoch` is auxiliary: the wipe count of the page `pos` came from, which the
      client does not keep. */
  datatype Next = FromCursor | From(pos: nat, epoch: nat)

  /** Where the catch-up goroutine stands, between its critical sections. */
  datatype Pass =
    | Idle
    | Top(next: Next)
    | Armed(issued: nat, next: Next)
    | Asked(issued: nat, epoch: nat, after: nat)
    | Answered(issued: nat, epoch: nat, after: nat, page: Page)
    | Landed(issued: nat, epoch: nat, applied: bool, page: Page)

  /** `gen` counts triggers and `doneGen` is the one the last catch-up satisfied.
      `owed` is a trigger the session goroutine has committed to and not yet
      pulled: it unlocks the journal first and takes the client's lock after. */
  datatype Catch = Catch(store: Store, gen: nat, doneGen: nat, pass: Pass, owed: bool)

  predicate CaughtUp(c: Catch) { c.gen == c.doneGen }

  function Triggered(c: Catch): Catch { c.(gen := c.gen + 1) }

  function PullOwed(c: Catch): Catch { c.(gen := c.gen + 1, owed := false) }

  /** The first half of onReady: the discard when the server's head is below the
      cursor.  The trigger follows. */
  function ReadySeen(c: Catch, head: nat): Catch {
    c.(store := if c.store.hasCursor && head < c.store.cursor then Wiped(c.store) else c.store, owed := true)
  }

  predicate Known(s: Store, m: Row) { m.conv in s.convs && m.author in s.users }

  /** A live message is held by id and moves no cursor; one that cannot be
      rendered is discarded and owes a trigger. */
  function LiveSeen(c: Catch, m: Row): Catch {
    if Known(c.store, m) then c.(store := Recorded(c.store, m)) else c.(owed := true)
  }

  function ConvSeen(c: Catch, conv: nat): Catch { c.(store := c.store.(convs := c.store.convs + {conv})) }

  function UserSeen(c: Catch, user: nat): Catch { c.(store := c.store.(users := c.store.users + {user})) }

  function Started(c: Catch): Catch { c.(pass := Top(FromCursor)) }

  function GenRead(c: Catch): Catch
    requires c.pass.Top?
  {
    c.(pass := Armed(c.gen, c.pass.next))
  }

  function CursorRead(c: Catch): Catch
    requires c.pass.Armed?
  {
    c.(pass := Asked(c.pass.issued, c.store.wipes, if c.pass.next.From? then c.pass.next.pos else c.store.cursor))
  }

  function PageReceived(c: Catch, p: Page): Catch
    requires c.pass.Asked?
  {
    c.(pass := Answered(c.pass.issued, c.pass.epoch, c.pass.after, p))
  }

  function Abandoned(c: Catch): Catch { c.(pass := Idle) }

  function PageLanded(c: Catch): Catch
    requires c.pass.Answered?
  {
    var applied := c.pass.epoch == c.store.wipes;
    c.(store := if applied then Land(c.store, c.pass.page) else c.store,
    pass := Landed(c.pass.issued, c.pass.epoch, applied, c.pass.page))
  }

  function Decided(c: Catch): Catch
    requires c.pass.Landed?
  {
    if !c.pass.applied then c.(pass := Top(FromCursor))
    else if c.pass.page.hasMore then c.(pass := Top(From(c.pass.page.logSeq, c.pass.epoch)))
    else if c.pass.issued == c.gen then c.(doneGen := c.gen, pass := Idle)
    else c.(pass := Top(FromCursor))
  }

  // --- a killed client -----------------------------------------------------------

  /** Everything the goroutines of one process do to the client, one critical section each.
      `Arrive` is a page coming back. */
  datatype Act =
    | Pulled | PulledOwed | SawReady(head: nat) | SawLive(row: Row) | SawConv(conv: nat) | SawUser(user: nat)
    | Start | AskGen | AskCursor | Arrive(page: Page) | Applied | Turn | GiveUp

  predicate Able(c: Catch, a: Act) {
    match a
    case PulledOwed => c.owed
    case Start => c.pass.Idle?
    case AskGen => c.pass.Top?
    case AskCursor => c.pass.Armed?
    case Arrive(_) => c.pass.Asked?
    case Applied => c.pass.Answered?
    case Turn => c.pass.Landed?
    case _ => true
  }

  /** What an act does.  A killed client's journal writes do not happen. */
  function Acted(c: Catch, killed: bool, a: Act): Catch
    requires Able(c, a)
  {
    match a
    case Pulled => Triggered(c)
    case PulledOwed => PullOwed(c)
    case SawReady(head) => if killed then c.(owed := true) else ReadySeen(c, head)
    case SawLive(m) => if killed then c else LiveSeen(c, m)
    case SawConv(conv) => if killed then c else ConvSeen(c, conv)
    case SawUser(user) => if killed then c else UserSeen(c, user)
    case Start => Started(c)
    case AskGen => GenRead(c)
    case AskCursor => CursorRead(c)
    case Arrive(p) => PageReceived(c, p)
    case Applied => if killed then c.(pass := Landed(c.pass.issued, c.pass.epoch, false, c.pass.page)) else PageLanded(c)
    case Turn => Decided(c)
    case GiveUp => Abandoned(c)
  }

  predicate AbleAll(c: Catch, killed: bool, acts: seq<Act>)
    decreases |acts|
  {
    acts == [] || (Able(c, acts[0]) && AbleAll(Acted(c, killed, acts[0]), killed, acts[1..]))
  }

  function ActedAll(c: Catch, killed: bool, acts: seq<Act>): Catch
    requires AbleAll(c, killed, acts)
    decreases |acts|
  {
    if acts == [] then c else ActedAll(Acted(c, killed, acts[0]), killed, acts[1..])
  }

  /** No page of this client has landed and is still to be counted as the end of a pass. */
  predicate Unlanded(c: Catch) { c.pass.Landed? ==> !c.pass.applied }

  /** NOTHING IN FLIGHT REACHES THE JOURNAL.  Whatever a killed client's goroutines still do,
      and in whatever order, what it has stored stays as the kill found it, and no page
      makes it report a catch-up as done. */
  lemma {:induction false} KilledClientIsInert(c: Catch, acts: seq<Act>)
    requires AbleAll(c, true, acts)
    ensures ActedAll(c, true, acts).store == c.store
    ensures Unlanded(c) ==> ActedAll(c, true, acts).doneGen == c.doneGen
    decreases |acts|
  {
    if acts != [] {
      KilledClientIsInert(Acted(c, true, acts[0]), acts[1..]);
    }
  }

  // --- the same, by update in place ---------------------------------------------

  /** The durable half.  It outlives a client. */
  class Journal {
    var cursor: nat
    var hasCursor: bool
    var messages: map<nat, Row>
    var convs: set<nat>
    var users: set<nat>
    var counted: seq<nat>
    var wipes: nat

    function View(): Store
      reads this
    {
      Store(cursor, hasCursor, messages, convs, users, counted, wipes)
    }

    constructor ()
      ensures View() == EMPTY
    {
      cursor, hasCursor, messages, convs, users, counted, wipes := 0, false, map[], {}, {}, [], 0;
    }

    /** recordLocked. */
    method Record(m: Row)
      modifies this
      ensures View() == Recorded(old(View()), m)
      ensures m.id in messages && messages[m.id] == m && counted == old(counted) + (if m.id in old(messages) then [] else [m.id])
    {
      if m.id !in messages {
        counted := counted + [m.id];
      }
      messages := messages[m.id := m];
    }

    /** resetLocked, and the epoch its caller moves. */
    method Wipe()
      modifies this
      ensures View() == Wiped(old(View()))
      ensures messages == map[] && convs == {} && users == {} && counted == [] && !hasCursor && cursor == 0
      ensures wipes == old(wipes) + 1
    {
      cursor, hasCursor := 0, false;
      messages, convs, users, counted := map[], {}, {}, [];
      wipes := wipes + 1;
    }

    /** The journal half of applyPage, under one hold of the lock. */
    method LandPage(p: Page, epoch: nat) returns (applied: bool)
      modifies this
      ensures applied == (epoch == old(wipes))
      ensures View() == if applied then Land(old(View()), p) else old(View())
      ensures applied ==> old(convs) + p.convs == convs && old(users) + p.users == users && hasCursor && p.logSeq <= cursor
    {
      if wipes != epoch {
        return false;
      }
      ghost var before := View();
      var i := 0;
      while i < |p.rows|
        invariant 0 <= i <= |p.rows|
        invariant View() == RecordAll(before, p.rows[..i])
      {
        Record(p.rows[i]);
        assert p.rows[..i + 1][..i] == p.rows[..i];
        i := i + 1;
      }
      assert p.rows[..i] == p.rows;
      RecordAllFrame(before, p.rows);
      convs := convs + p.convs;
      users := users + p.users;
      if !hasCursor || p.logSeq > cursor {
        cursor := p.logSeq;
      }
      hasCursor := true;
      return true;
    }
  }

  /** One process over a journal.  `pass` and `owed` are where its catch-up and
      session goroutines stand between critical sections.  A kill is seen by every
      journal write, so a killed client changes nothing durable. */
  class Client {
    const j: Journal
    var killed: bool
    var gen: nat
    var doneGen: nat
    var pass: Pass
    var owed: bool

    function View(): Catch
      reads this, j
    {
      Catch(j.View(), gen, doneGen, pass, owed)
    }

    constructor (j: Journal)
      ensures this.j == j && !killed
      ensures View() == Catch(j.View(), 0, 0, Idle, false)
    {
      this.j := j;
      killed, gen, doneGen, pass, owed := false, 0, 0, Idle, false;
    }

    method Kill()
      modifies this`killed
      ensures killed && View() == old(View())
    {
      killed := true;
    }

    /** Any one act, by its own method. */
    method Perform(a: Act)
      requires Able(View(), a)
      modifies j, this`gen, this`doneGen, this`pass, this`owed
      ensures View() == Acted(old(View()), killed, a)
    {
      match a
      case Pulled => Trigger();
      case PulledOwed => TriggerOwed();
      case SawReady(head) => OnReady(head);
      case SawLive(m) => ApplyLive(m);
      case SawConv(conv) => ApplyConversation(conv);
      case SawUser(user) => ApplyUser(user);
      case Start => pass := Top(FromCursor);
      case AskGen => ReadGen();
      case AskCursor => ReadCursor();
      case Arrive(p) => pass := Answered(pass.issued, pass.epoch, pass.after, p);
      case Applied => ApplyPage();
      case Turn => Decide();
      case GiveUp => pass := Idle;
    }

    /** triggerLocked. */
    method Trigger()
      modifies this`gen
      ensures View() == Triggered(old(View())) && gen == old(gen) + 1
    {
      gen := gen + 1;
    }

    method TriggerOwed()
      requires owed
      modifies this`gen, this`owed
      ensures View() == PullOwed(old(View())) && gen == old(gen) + 1 && !owed
    {
      gen, owed := gen + 1, false;
    }

    method OnReady(head: nat)
      modifies j, this`owed
      ensures View() == if killed then old(View()).(owed := true) else ReadySeen(old(View()), head)
      ensures owed && j.wipes == old(j.wipes) + (if !killed && old(j.hasCursor) && head < old(j.cursor) then 1 else 0)
    {
      if j.hasCursor && head < j.cursor && !killed {
        j.Wipe();
      }
      owed := true;
    }

    method ApplyLive(m: Row)
      modifies j, this`owed
      ensures View() == if killed then old(View()) else LiveSeen(old(View()), m)
      ensures !killed && m.conv in j.convs && m.author in j.users ==> Held(j.View(), m) && owed == old(owed)
      ensures !killed && (m.conv !in j.convs || m.author !in j.users) ==> owed && j.View() == old(j.View())
    {
      if killed {
        return;
      }
      if m.conv !in j.convs || m.author !in j.users {
        owed := true;
        return;
      }
      j.Record(m);
    }

    method ApplyConversation(conv: nat)
      modifies j
      ensures View() == if killed then old(View()) else ConvSeen(old(View()), conv)
      ensures !killed ==> j.convs == old(j.convs) + {conv}
    {
      if !killed {
        j.convs := j.convs + {conv};
      }
    }

    method ApplyUser(user: nat)
      modifies j
      ensures View() == if killed then old(View()) else UserSeen(old(View()), user)
      ensures !killed ==> j.users == old(j.users) + {user}
    {
      if !killed {
        j.users := j.users + {user};
      }
    }

    /** catchUp's first section: which trigger the coming request is issued after. */
    method ReadGen()
      requires pass.Top?
      modifies this`pass
      ensures View() == GenRead(old(View()))
    {
      pass := Armed(gen, pass.next);
    }

    /** Its second: the epoch and the position the request is issued from. */
    method ReadCursor()
      requires pass.Armed?
      modifies this`pass
      ensures View() == CursorRead(old(View()))
    {
      var after := if pass.next.From? then pass.next.pos else j.cursor;
      pass := Asked(pass.issued, j.wipes, after);
    }

    method ApplyPage()
      requires pass.Answered?
      modifies j, this`pass
      ensures !killed ==> View() == PageLanded(old(View()))
      ensures killed ==> View() == old(View()).(pass := Landed(old(pass).issued, old(pass).epoch, false, old(pass).page))
    {
      var applied := false;
      if !killed {
        applied := j.LandPage(pass.page, pass.epoch);
      }
      pass := Landed(pass.issued, pass.epoch, applied, pass.page);
    }

    /** The end of one catchUp iteration. */
    method Decide()
      requires pass.Landed?
      modifies this`pass, this`doneGen
      ensures View() == Decided(old(View()))
    {
      var next := FromCursor;
      if pass.applied && pass.page.hasMore {
        next := From(pass.page.logSeq, pass.epoch);
      } else if pass.applied && pass.issued == gen {
        doneGen, pass := gen, Idle;
        return;
      }
      pass := Top(next);
    }
  }
}
