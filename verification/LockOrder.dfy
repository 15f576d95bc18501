/**
 The lock order of every writer of the message tables, and why no set of them
 deadlocks (the lock-order note of internal/store/messages.go).

 A transaction is the sequence of row locks it will take, all held to its end; a
 row lock conflicts by Postgres's own table, so a KEY SHARE passes a FOR NO KEY
 UPDATE.
 */
module LockOrder {
  import opened Sets

  datatype Lock =
    | Upload(u: nat)
    | Room(c: nat)
    | Message(c: nat, m: nat)
    | Member(c: nat, u: nat)
    | Account(u: nat)
    | Credential(table: Table, id: nat)
    | Counter

  /** The credential tables, in the order every writer takes them. */
  datatype Table = RefreshTokens | AccessTokens | Devices | Enrollments

  datatype Mode = KeyShare | NoKeyUpdate | Update

  predicate Conflict(a: Mode, b: Mode) { a.Update? || b.Update? || (a.NoKeyUpdate? && b.NoKeyUpdate?) }

  datatype Ask = Ask(lock: Lock, mode: Mode)

  function Place(t: Table): nat {
    match t
    case RefreshTokens => 4
    case AccessTokens => 5
    case Devices => 6
    case Enrollments => 7
  }

  /** The order: uploads, then each conversation with its messages right after it
      and conversations ascending, then member rows, then accounts, then the credential
      tables, and the counter last. */
  function Rank(l: Lock): (nat, nat, nat) {
    match l
    case Upload(u) => (0, u, 0)
    case Room(c) => (1, c, 0)
    case Message(c, m) => (1, c, m + 1)
    case Member(c, u) => (2, c, u)
    case Account(u) => (3, u, 0)
    case Credential(t, id) => (Place(t), id, 0)
    case Counter => (8, 0, 0)
  }

  predicate Before(a: Lock, b: Lock) {
    var (a0, a1, a2) := Rank(a);
    var (b0, b1, b2) := Rank(b);
    a0 < b0 || (a0 == b0 && (a1 < b1 || (a1 == b1 && a2 < b2)))
  }

  lemma BeforeIsTransitive(a: Lock, b: Lock, c: Lock)
    requires Before(a, b) && Before(b, c)
    ensures Before(a, c)
  {
  }

  /** The rows a message's foreign keys reach after the counter is drawn: its author and
      the device it was sent from. */
  predicate Referenced(l: Lock) { l.Account? || (l.Credential? && l.table.Devices?) }

  /** An ask that waits for nobody as long as nobody locks such a row FOR UPDATE: the KEY
      SHARE an insert's foreign key takes. */
  predicate Free(a: Ask) { Referenced(a.lock) && a.mode.KeyShare? }

  /** Locks in order, the free ones aside, and no referenced row locked FOR UPDATE. */
  predicate Ordered(p: seq<Ask>) {
    && (forall i, j | 0 <= i < j < |p| :: Free(p[j]) || Before(p[i].lock, p[j].lock))
    && (forall i | 0 <= i < |p| :: Referenced(p[i].lock) ==> !p[i].mode.Update?)
  }

  // --- the writers --------------------------------------------------------------

  predicate Ascends(ns: seq<nat>) { forall i, j | 0 <= i < j < |ns| :: ns[i] < ns[j] }

  /** Rows of one kind that a writer locks one by one. */
  datatype Kind = Uploads | Rooms | Members(person: nat) | Messages(conv: nat) | Rows(table: Table)

  function AskFor(k: Kind, id: nat): Ask {
    match k
    case Uploads => Ask(Upload(id), Update)
    case Rooms => Ask(Room(id), NoKeyUpdate)
    case Members(person) => Ask(Member(id, person), NoKeyUpdate)
    case Messages(conv) => Ask(Message(conv, id), Update)
    case Rows(table) => Ask(Credential(table, id), NoKeyUpdate)
  }

  function Each(k: Kind, ids: seq<nat>): (p: seq<Ask>)
    ensures |p| == |ids| && forall i | 0 <= i < |ids| :: p[i] == AskFor(k, ids[i])
  {
    if ids == [] then [] else Each(k, ids[..|ids| - 1]) + [AskFor(k, ids[|ids| - 1])]
  }

  datatype Reply = NoReply | To(conv: nat, m: nat)

  function ReplyAsk(r: Reply): seq<Ask> { if r.To? then [Ask(Message(r.conv, r.m), KeyShare)] else [] }

  /** The author's row, and the sending device's when there is one. */
  function KeyAsks(author: nat, device: Sender): seq<Ask> {
    [Ask(Account(author), KeyShare)] + (if device.From? then [Ask(Credential(Devices, device.device), KeyShare)] else [])
  }

  datatype Sender = Nobody | From(device: nat)

  /** A send: uploads by id, its conversation, the reply source when its own
      conversation has it, the counter, and then the author's row and the device's by
      foreign key.  The scoped resolve returns a row of this conversation or none. */
  function SendAsks(uploads: seq<nat>, c: nat, reply: Reply, author: nat, device: Sender): seq<Ask> {
    Each(Uploads, uploads) + [Ask(Room(c), NoKeyUpdate)]
    + ReplyAsk(if reply.To? && reply.conv == c then reply else NoReply)
    + [Ask(Counter, NoKeyUpdate)] + KeyAsks(author, device)
  }

  /** A person's credentials: refresh tokens, access tokens, devices, enrollment tokens. */
  datatype Credentials = Credentials(refresh: seq<nat>, access: seq<nat>, devices: seq<nat>, enrollments: seq<nat>)

  function CredentialAsks(cr: Credentials): seq<Ask> {
    Each(Rows(RefreshTokens), cr.refresh) + Each(Rows(AccessTokens), cr.access)
    + Each(Rows(Devices), cr.devices) + Each(Rows(Enrollments), cr.enrollments)
  }

  predicate CredentialsAscend(cr: Credentials) {
    Ascends(cr.refresh) && Ascends(cr.access) && Ascends(cr.devices) && Ascends(cr.enrollments)
  }

  /** A metadata bump, an offboard and its reversal: the person's rooms ascending,
      their member rows, their account, their credentials, and the counter last. */
  function OffboardAsks(rooms: seq<nat>, person: nat, cr: Credentials): seq<Ask> {
    Each(Rooms, rooms) + Each(Members(person), rooms) + [Ask(Account(person), NoKeyUpdate)] + CredentialAsks(cr)
    + [Ask(Counter, NoKeyUpdate)]
  }

  /** A replayed token's family: its refresh tokens, its device's access tokens, the device. */
  function InvalidateAsks(refresh: seq<nat>, access: seq<nat>, device: nat): seq<Ask> {
    CredentialAsks(Credentials(refresh, access, [device], []))
  }

  /** A receipt: the member row, then the counter. */
  function ReceiptAsks(c: nat, u: nat): seq<Ask> { [Ask(Member(c, u), Update)] + [Ask(Counter, NoKeyUpdate)] }

  function PurgeAsks(c: nat, ms: seq<nat>): seq<Ask> {
    [Ask(Room(c), NoKeyUpdate)] + Each(Messages(c), ms)
  }

  /** A retention sweep over rooms ascending: each conversation's floor, then the
      messages it deletes there. */
  function SweepAsks(rooms: seq<(nat, seq<nat>)>): seq<Ask> {
    if rooms == [] then [] else SweepAsks(rooms[..|rooms| - 1]) + PurgeAsks(rooms[|rooms| - 1].0, rooms[|rooms| - 1].1)
  }

  predicate SweepAscends(rooms: seq<(nat, seq<nat>)>) {
    && (forall i, j | 0 <= i < j < |rooms| :: rooms[i].0 < rooms[j].0)
    && (forall i | 0 <= i < |rooms| :: Ascends(rooms[i].1))
  }

  /** What the second asks for comes after what the first holds, or waits for nobody. */
  predicate AllBefore(p: seq<Ask>, q: seq<Ask>) { forall a, b | a in p && b in q :: Free(b) || Before(a.lock, b.lock) }

  lemma OrderedConcat(p: seq<Ask>, q: seq<Ask>)
    requires Ordered(p) && Ordered(q)
    requires AllBefore(p, q)
    ensures Ordered(p + q)
  {
    var r := p + q;
    forall i, j | 0 <= i < j < |r| ensures Free(r[j]) || Before(r[i].lock, r[j].lock) {
      if i < |p| <= j {
        assert p[i] in p && q[j - |p|] in q;
      }
    }
  }

  /** Every ask of `p` is for a lock of these stages of the order. */
  predicate Within(p: seq<Ask>, lo: nat, hi: nat) { forall a | a in p :: lo <= Rank(a.lock).0 <= hi }

  lemma StagesConcat(p: seq<Ask>, q: seq<Ask>, lo: nat, mid: nat, hi: nat)
    requires Ordered(p) && Ordered(q) && Within(p, lo, mid)
    requires Within(q, mid + 1, hi) && lo <= mid <= hi
    ensures Ordered(p + q) && Within(p + q, lo, hi)
  {
    OrderedConcat(p, q);
  }

  function StageOf(k: Kind): nat {
    match k
    case Uploads => 0
    case Rooms => 1
    case Messages(_) => 1
    case Members(_) => 2
    case Rows(table) => Place(table)
  }

  lemma AscendingAsks(k: Kind, a: nat, b: nat)
    requires a < b
    ensures Before(AskFor(k, a).lock, AskFor(k, b).lock)
  {
  }

  lemma AskIsWithin(k: Kind, a: nat)
    ensures Rank(AskFor(k, a).lock).0 == StageOf(k)
    ensures (Referenced(AskFor(k, a).lock) ==> !AskFor(k, a).mode.Update?)
  {
  }

  lemma EachIsOrdered(k: Kind, ids: seq<nat>)
    requires Ascends(ids)
    ensures Ordered(Each(k, ids)) && Within(Each(k, ids), StageOf(k), StageOf(k))
  {
    var p := Each(k, ids);
    forall i, j | 0 <= i < j < |p| ensures Before(p[i].lock, p[j].lock) {
      AscendingAsks(k, ids[i], ids[j]);
    }
    forall i | 0 <= i < |p| ensures Rank(p[i].lock).0 == StageOf(k) && (Referenced(p[i].lock) ==> !p[i].mode.Update?) {
      AskIsWithin(k, ids[i]);
    }
  }

  lemma KeysAreFree(author: nat, device: Sender)
    ensures Ordered(KeyAsks(author, device)) && forall a | a in KeyAsks(author, device) :: Free(a)
  {
  }

  lemma FreeConcat(p: seq<Ask>, q: seq<Ask>)
    requires Ordered(p) && Ordered(q) && forall a | a in q :: Free(a)
    ensures Ordered(p + q)
  {
    OrderedConcat(p, q);
  }

  lemma SendIsOrdered(uploads: seq<nat>, c: nat, reply: Reply, author: nat, device: Sender)
    requires Ascends(uploads)
    ensures Ordered(SendAsks(uploads, c, reply, author, device))
  {
    var scoped := if reply.To? && reply.conv == c then reply else NoReply;
    var p, room, r := Each(Uploads, uploads), [Ask(Room(c), NoKeyUpdate)], ReplyAsk(scoped);
    EachIsOrdered(Uploads, uploads);
    StagesConcat(p, room + r, 0, 0, 1);
    assert p + room + r == p + (room + r);
    CounterLast(p + room + r, 1);
    KeysAreFree(author, device);
    FreeConcat(p + room + r + [Ask(Counter, NoKeyUpdate)], KeyAsks(author, device));
  }

  lemma CounterLast(p: seq<Ask>, hi: nat)
    requires Ordered(p) && Within(p, 0, hi) && hi < 8
    ensures Ordered(p + [Ask(Counter, NoKeyUpdate)])
  {
    StagesConcat(p, [Ask(Counter, NoKeyUpdate)], 0, hi, 8);
  }

  lemma CredentialsAreOrdered(cr: Credentials)
    requires CredentialsAscend(cr)
    ensures Ordered(CredentialAsks(cr)) && Within(CredentialAsks(cr), 4, 7)
  {
    var p, q := Each(Rows(RefreshTokens), cr.refresh), Each(Rows(AccessTokens), cr.access);
    var r, t := Each(Rows(Devices), cr.devices), Each(Rows(Enrollments), cr.enrollments);
    EachIsOrdered(Rows(RefreshTokens), cr.refresh);
    EachIsOrdered(Rows(AccessTokens), cr.access);
    EachIsOrdered(Rows(Devices), cr.devices);
    EachIsOrdered(Rows(Enrollments), cr.enrollments);
    StagesConcat(p, q, 4, 4, 5);
    StagesConcat(p + q, r, 4, 5, 6);
    StagesConcat(p + q + r, t, 4, 6, 7);
  }

  lemma PersonIsOrdered(rooms: seq<nat>, person: nat)
    requires Ascends(rooms)
    ensures var p := Each(Rooms, rooms) + Each(Members(person), rooms) + [Ask(Account(person), NoKeyUpdate)]; Ordered(p) && Within(p, 1, 3)
  {
    var p, q, r := Each(Rooms, rooms), Each(Members(person), rooms), [Ask(Account(person), NoKeyUpdate)];
    EachIsOrdered(Rooms, rooms);
    EachIsOrdered(Members(person), rooms);
    StagesConcat(p, q, 1, 1, 2);
    StagesConcat(p + q, r, 1, 2, 3);
  }

  lemma OffboardIsOrdered(rooms: seq<nat>, person: nat, cr: Credentials)
    requires Ascends(rooms) && CredentialsAscend(cr)
    ensures Ordered(OffboardAsks(rooms, person, cr))
  {
    var p := Each(Rooms, rooms) + Each(Members(person), rooms) + [Ask(Account(person), NoKeyUpdate)];
    PersonIsOrdered(rooms, person);
    CredentialsAreOrdered(cr);
    StagesConcat(p, CredentialAsks(cr), 1, 3, 7);
    CounterLast(p + CredentialAsks(cr), 7);
  }

  lemma InvalidateIsOrdered(refresh: seq<nat>, access: seq<nat>, device: nat)
    requires Ascends(refresh) && Ascends(access)
    ensures Ordered(InvalidateAsks(refresh, access, device))
  {
    CredentialsAreOrdered(Credentials(refresh, access, [device], []));
  }

  lemma ReceiptIsOrdered(c: nat, u: nat)
    ensures Ordered(ReceiptAsks(c, u))
  {
  }

  lemma PurgeIsOrdered(c: nat, ms: seq<nat>)
    requires Ascends(ms)
    ensures Ordered(PurgeAsks(c, ms))
  {
    EachIsOrdered(Messages(c), ms);
    OrderedConcat([Ask(Room(c), NoKeyUpdate)], Each(Messages(c), ms));
  }

  lemma {:induction false} SweepStaysIn(rooms: seq<(nat, seq<nat>)>, a: Ask)
    requires a in SweepAsks(rooms)
    ensures (a.lock.Room? || a.lock.Message?) && exists i :: 0 <= i < |rooms| && rooms[i].0 == a.lock.c
  {
    var init, last := rooms[..|rooms| - 1], rooms[|rooms| - 1];
    if a in SweepAsks(init) {
      SweepStaysIn(init, a);
      var i :| 0 <= i < |init| && init[i].0 == a.lock.c;
      assert rooms[i] == init[i];
    }
  }

  lemma {:induction false} SweepIsOrdered(rooms: seq<(nat, seq<nat>)>)
    requires SweepAscends(rooms)
    ensures Ordered(SweepAsks(rooms))
  {
    if rooms != [] {
      var init, last := rooms[..|rooms| - 1], rooms[|rooms| - 1];
      SweepIsOrdered(init);
      PurgeIsOrdered(last.0, last.1);
      forall a, b | a in SweepAsks(init) && b in PurgeAsks(last.0, last.1) ensures Before(a.lock, b.lock) {
        SweepStaysIn(init, a);
      }
      OrderedConcat(SweepAsks(init), PurgeAsks(last.0, last.1));
    }
  }

  // --- which locks those are ------------------------------------------------------

  /** POSTGRES'S TABLE, of the modes used: a KEY SHARE passes all but FOR UPDATE, and the other
      two pass nothing but a KEY SHARE, which FOR UPDATE does not pass either. */
  lemma ConflictIs(a: Mode, b: Mode)
    ensures !Conflict(a, b) <==> (a == KeyShare && b != Update) || (b == KeyShare && a != Update)
  {
  }

  lemma EachIs(k: Kind, ids: seq<nat>, a: Ask)
    ensures a in Each(k, ids) <==> exists i :: 0 <= i < |ids| && a == AskFor(k, ids[i])
  {
    if a in Each(k, ids) {
      var i :| 0 <= i < |ids| && Each(k, ids)[i] == a;
    }
    if i :| 0 <= i < |ids| && a == AskFor(k, ids[i]) {
      assert Each(k, ids)[i] == a;
    }
  }

  /** A send locks its uploads, its conversation, the message it replies to if that is in the
      same conversation, the counter, and by foreign key its author and device. */
  lemma SendLocks(uploads: seq<nat>, c: nat, reply: Reply, author: nat, device: Sender, a: Ask)
    ensures a in SendAsks(uploads, c, reply, author, device) <==>
            || (a.lock.Upload? && a.lock.u in uploads && a.mode.Update?)
            || a == Ask(Room(c), NoKeyUpdate)
            || (reply.To? && reply.conv == c && a == Ask(Message(c, reply.m), KeyShare))
            || a == Ask(Counter, NoKeyUpdate)
            || a == Ask(Account(author), KeyShare)
            || (device.From? && a == Ask(Credential(Devices, device.device), KeyShare))
  {
    EachIs(Uploads, uploads, a);
  }

  lemma CredentialLocks(cr: Credentials, a: Ask)
    ensures a in CredentialAsks(cr) <==>
            a.mode.NoKeyUpdate? && a.lock.Credential? &&
            match a.lock.table
            case RefreshTokens => a.lock.id in cr.refresh
            case AccessTokens => a.lock.id in cr.access
            case Devices => a.lock.id in cr.devices
            case Enrollments => a.lock.id in cr.enrollments
  {
    EachIs(Rows(RefreshTokens), cr.refresh, a);
    EachIs(Rows(AccessTokens), cr.access, a);
    EachIs(Rows(Devices), cr.devices, a);
    EachIs(Rows(Enrollments), cr.enrollments, a);
  }

  /** An offboard locks every room of the person, their membership of each, the account, all
      their credentials, and the counter. */
  lemma OffboardLocks(rooms: seq<nat>, person: nat, cr: Credentials, a: Ask)
    ensures a in OffboardAsks(rooms, person, cr) <==>
            || (a.lock.Room? && a.lock.c in rooms && a.mode.NoKeyUpdate?)
            || (a.lock.Member? && a.lock.c in rooms && a.lock.u == person && a.mode.NoKeyUpdate?)
            || a == Ask(Account(person), NoKeyUpdate)
            || (a.lock.Credential? && a.mode.NoKeyUpdate? &&
                match a.lock.table
                case RefreshTokens => a.lock.id in cr.refresh
                case AccessTokens => a.lock.id in cr.access
                case Devices => a.lock.id in cr.devices
                case Enrollments => a.lock.id in cr.enrollments)
            || a == Ask(Counter, NoKeyUpdate)
  {
    EachIs(Rooms, rooms, a);
    EachIs(Members(person), rooms, a);
    CredentialLocks(cr, a);
  }

  lemma InvalidateLocks(refresh: seq<nat>, access: seq<nat>, device: nat, a: Ask)
    ensures a in InvalidateAsks(refresh, access, device) <==>
            a.mode.NoKeyUpdate? && a.lock.Credential? &&
            match a.lock.table
            case RefreshTokens => a.lock.id in refresh
            case AccessTokens => a.lock.id in access
            case Devices => a.lock.id == device
            case Enrollments => false
  {
    CredentialLocks(Credentials(refresh, access, [device], []), a);
  }

  lemma ReceiptLocks(c: nat, u: nat, a: Ask)
    ensures a in ReceiptAsks(c, u) <==> a == Ask(Member(c, u), Update) || a == Ask(Counter, NoKeyUpdate)
  {
  }

  /** A sweep locks each of its rooms, and in it each message it deletes. */
  lemma {:induction false} SweepLocks(rooms: seq<(nat, seq<nat>)>, a: Ask)
    ensures a in SweepAsks(rooms) <==>
            exists i :: 0 <= i < |rooms| &&
                        (a == Ask(Room(rooms[i].0), NoKeyUpdate) ||
                         (a.lock.Message? && a.lock.c == rooms[i].0 && a.lock.m in rooms[i].1 && a.mode.Update?))
  {
    if rooms != [] {
      var n := |rooms| - 1;
      var init, last := rooms[..n], rooms[n];
      SweepLocks(init, a);
      EachIs(Messages(last.0), last.1, a);
      assert a in PurgeAsks(last.0, last.1) <==>
             a == Ask(Room(last.0), NoKeyUpdate) || (a.lock.Message? && a.lock.c == last.0 && a.lock.m in last.1 && a.mode.Update?);
      assert forall i | 0 <= i < n :: rooms[i] == init[i];
    }
  }

  // --- the machine --------------------------------------------------------------

  /** A transaction holds `asks[..at]` and wants `asks[at]` next. */
  datatype Txn = Txn(asks: seq<Ask>, at: nat)

  type Locks = map<nat, Txn>

  predicate Wants(x: Txn) { x.at < |x.asks| }

  predicate HeldAgainst(x: Txn, a: Ask) {
    exists i | 0 <= i < x.at && i < |x.asks| :: x.asks[i].lock == a.lock && Conflict(x.asks[i].mode, a.mode)
  }

  /** `t` waits for `u`. */
  predicate Waits(s: Locks, t: nat, u: nat) {
    t in s && u in s && t != u && Wants(s[t]) && HeldAgainst(s[u], s[t].asks[s[t].at])
  }

  predicate CanStep(s: Locks, t: nat) {
    && t in s
    && (forall u | u in s :: !Waits(s, t, u))
  }

  datatype Event = Start(t: nat, asks: seq<Ask>) | Take(t: nat) | End(t: nat)

  predicate Enabled(s: Locks, e: Event) {
    match e
    case Start(t, _) => t !in s
    case Take(t) => CanStep(s, t) && Wants(s[t])
    case End(t) => t in s
  }

  function Do(s: Locks, e: Event): Locks
    requires Enabled(s, e)
  {
    match e
    case Start(t, asks) => s[t := Txn(asks, 0)]
    case Take(t) => s[t := s[t].(at := s[t].at + 1)]
    case End(t) => s - {t}
  }

  predicate AllOrdered(s: Locks) { forall t | t in s :: Ordered(s[t].asks) && s[t].at <= |s[t].asks| }

  /** No two open transactions ever hold a row in conflicting modes. */
  ghost predicate Exclusive(s: Locks) {
    forall t, u, i | t in s && u in s && t != u && 0 <= i < s[t].at && i < |s[t].asks| :: !HeldAgainst(s[u], s[t].asks[i])
  }

  lemma StepKeepsExclusive(s: Locks, e: Event)
    requires Exclusive(s) && Enabled(s, e)
    ensures Exclusive(Do(s, e))
  {
    if e.Take? {
      var n := Do(s, e);
      forall t, u, i | t in n && u in n && t != u && 0 <= i < n[t].at && i < |n[t].asks| ensures !HeldAgainst(n[u], n[t].asks[i]) {
        TakeIsExclusive(s, e.t, t, u, i);
      }
    }
  }

  lemma TakeIsExclusive(s: Locks, x: nat, t: nat, u: nat, i: nat)
    requires Exclusive(s) && Enabled(s, Take(x)) && t in s && u in s && t != u
    requires var n := Do(s, Take(x)); i < n[t].at && i < |n[t].asks|
    ensures var n := Do(s, Take(x)); !HeldAgainst(n[u], n[t].asks[i])
  {
    assert !Waits(s, x, u) && !Waits(s, x, t);
  }

  // --- no deadlock --------------------------------------------------------------

  function Next(s: Locks, t: nat): Lock
    requires t in s && Wants(s[t])
  {
    s[t].asks[s[t].at].lock
  }

  /** Along a wait the wanted lock strictly rises. */
  lemma WaitingRises(s: Locks, t: nat, u: nat, v: nat)
    requires AllOrdered(s) && Waits(s, t, u) && Waits(s, u, v)
    ensures Before(Next(s, t), Next(s, u))
  {
    var a, b := s[t].asks[s[t].at], s[u].asks[s[u].at];
    var i :| 0 <= i < s[u].at && i < |s[u].asks| && s[u].asks[i].lock == a.lock && Conflict(s[u].asks[i].mode, a.mode);
    var j :| 0 <= j < s[v].at && j < |s[v].asks| && s[v].asks[j].lock == b.lock && Conflict(s[v].asks[j].mode, b.mode);
    assert !Free(b);
  }

  /** A chain of waits: each transaction of `path` waits for the next. */
  predicate Chain(s: Locks, path: seq<nat>) { forall i | 0 <= i < |path| - 1 :: Waits(s, path[i], path[i + 1]) }

  lemma {:induction false} ChainRises(s: Locks, path: seq<nat>, n: nat)
    requires AllOrdered(s) && Chain(s, path) && 1 <= n <= |path| - 2
    ensures Waits(s, path[0], path[1]) && Waits(s, path[n], path[n + 1])
    ensures Before(Next(s, path[0]), Next(s, path[n]))
  {
    WaitingRises(s, path[n - 1], path[n], path[n + 1]);
    if n > 1 {
      ChainRises(s, path, n - 1);
      BeforeIsTransitive(Next(s, path[0]), Next(s, path[n - 1]), Next(s, path[n]));
    }
  }

  /** NO WAIT-FOR CYCLE, of any length, among writers that keep the order. */
  lemma NoCycle(s: Locks, path: seq<nat>)
    requires AllOrdered(s) && |path| >= 3 && path[0] == path[|path| - 1]
    ensures !Chain(s, path)
  {
    if Chain(s, path) {
      var again := path + [path[1]];
      assert Waits(s, path[0], path[1]);
      assert Chain(s, again) by {
        forall i | 0 <= i < |again| - 1 ensures Waits(s, again[i], again[i + 1]) {
          if i < |path| - 1 {
            assert Waits(s, path[i], path[i + 1]);
          }
        }
      }
      ChainRises(s, again, |path| - 1);
    }
  }

  ghost function Above(s: Locks, t: nat): set<nat>
    requires t in s && Wants(s[t])
  {
    set u | u in s && Wants(s[u]) && Before(Next(s, t), Next(s, u))
  }

  lemma AboveShrinks(s: Locks, t: nat, u: nat, v: nat)
    requires AllOrdered(s) && Waits(s, t, u) && Waits(s, u, v)
    ensures |Above(s, u)| < |Above(s, t)|
  {
    WaitingRises(s, t, u, v);
    forall x | x in Above(s, u) ensures x in Above(s, t) {
      BeforeIsTransitive(Next(s, t), Next(s, u), Next(s, x));
    }
    assert u in Above(s, t) && u !in Above(s, u);
    assert Above(s, u) < Above(s, t);
    SubsetSize(Above(s, u), Above(s, t));
  }

  /** DEADLOCK FREEDOM.  Whenever a transaction is open, one that is open can go on:
      following the waits from any transaction ends at one that waits for nobody. */
  lemma SomebodyCanGoOn(s: Locks, t: nat) returns (u: nat)
    requires AllOrdered(s) && t in s
    ensures u in s && CanStep(s, u)
    decreases if Wants(s[t]) then |Above(s, t)| else 0, 1
  {
    if CanStep(s, t) {
      u := t;
    } else {
      var w :| w in s && Waits(s, t, w);
      if CanStep(s, w) {
        u := w;
      } else {
        var v :| v in s && Waits(s, w, v);
        AboveShrinks(s, t, w, v);
        u := SomebodyCanGoOn(s, w);
      }
    }
  }

  // --- why the scope and the weaker lock are needed ------------------------------

  /** A send whose reply is resolved by id alone: it locks a message of another
      conversation. */
  function UnscopedAsks(c: nat, reply: Reply, author: nat): seq<Ask> {
    [Ask(Room(c), NoKeyUpdate)] + ReplyAsk(reply) + [Ask(Counter, NoKeyUpdate)] + [Ask(Account(author), KeyShare)]
  }

  predicate Run(s: Locks, es: seq<Event>)
    decreases |es|
  {
    if es == [] then true else Enabled(s, es[0]) && Run(Do(s, es[0]), es[1..])
  }

  function After(s: Locks, es: seq<Event>): Locks
    requires Run(s, es)
    decreases |es|
  {
    if es == [] then s else After(Do(s, es[0]), es[1..])
  }

  lemma RunCons(s: Locks, e: Event, es: seq<Event>)
    requires Enabled(s, e) && Run(Do(s, e), es)
    ensures Run(s, [e] + es) && After(s, [e] + es) == After(Do(s, e), es)
  {
    assert ([e] + es)[1..] == es;
  }

  lemma {:induction false} RunKeepsOrder(s: Locks, es: seq<Event>)
    requires AllOrdered(s) && Exclusive(s) && Run(s, es) && forall e | e in es && e.Start? :: Ordered(e.asks)
    ensures AllOrdered(After(s, es)) && Exclusive(After(s, es))
    decreases |es|
  {
    if es != [] {
      assert es[0] in es;
      assert forall e | e in es[1..] :: e in es;
      StepKeepsExclusive(s, es[0]);
      RunKeepsOrder(Do(s, es[0]), es[1..]);
    }
  }

  /** Over every run of ordered writers, from nothing: no wait-for cycle is ever
      reached, and while anything is open something can go on. */
  lemma OrderedWritersNeverDeadlock(es: seq<Event>, path: seq<nat>)
    requires Run(map[], es) && forall e | e in es && e.Start? :: Ordered(e.asks)
    ensures |path| >= 3 && path[0] == path[|path| - 1] ==> !Chain(After(map[], es), path)
    ensures After(map[], es) != map[] ==> exists u :: u in After(map[], es) && CanStep(After(map[], es), u)
  {
    RunKeepsOrder(map[], es);
    var s := After(map[], es);
    if |path| >= 3 && path[0] == path[|path| - 1] {
      NoCycle(s, path);
    }
    if s != map[] {
      var t :| t in s;
      var u := SomebodyCanGoOn(s, t);
    }
  }

  /** Two transactions start; the first takes its first lock, the second its first
      two. */
  function OneAndTwo(p: seq<Ask>, q: seq<Ask>): seq<Event> {
    [Start(1, p)] + ([Start(2, q)] + ([Take(1)] + ([Take(2)] + ([Take(2)] + []))))
  }

  lemma OneAndTwoRuns(p: seq<Ask>, q: seq<Ask>)
    requires |p| >= 1 && |q| >= 2 && q[0].lock != p[0].lock
    requires q[1].lock != p[0].lock
    ensures Run(map[], OneAndTwo(p, q))
    ensures After(map[], OneAndTwo(p, q)) == map[1 := Txn(p, 1), 2 := Txn(q, 2)]
  {
    var s1: Locks := map[1 := Txn(p, 0)];
    var s2: Locks := map[1 := Txn(p, 0), 2 := Txn(q, 0)];
    var s3: Locks := map[1 := Txn(p, 1), 2 := Txn(q, 0)];
    var s4: Locks := map[1 := Txn(p, 1), 2 := Txn(q, 1)];
    var s5: Locks := map[1 := Txn(p, 1), 2 := Txn(q, 2)];
    assert Do(map[], Start(1, p)) == s1 && Do(s1, Start(2, q)) == s2 && Do(s2, Take(1)) == s3;
    assert Do(s3, Take(2)) == s4 && Do(s4, Take(2)) == s5;
    assert Run(s5, []) && After(s5, []) == s5;
    RunCons(s4, Take(2), []);
    RunCons(s3, Take(2), [Take(2)] + []);
    RunCons(s2, Take(1), [Take(2)] + ([Take(2)] + []));
    RunCons(s1, Start(2, q), [Take(1)] + ([Take(2)] + ([Take(2)] + [])));
    RunCons(map[], Start(1, p), [Start(2, q)] + ([Take(1)] + ([Take(2)] + ([Take(2)] + []))));
  }

  /** Started so, each of the two waits for a lock the other holds. */
  predicate Deadlocks(es: seq<Event>) {
    Run(map[], es) && var s := After(map[], es); Waits(s, 1, 2) && Waits(s, 2, 1)
  }

  lemma OneAndTwoDeadlock(p: seq<Ask>, q: seq<Ask>, i: nat)
    requires |p| >= 2 && |q| >= 3 && q[0].lock != p[0].lock
    requires q[1].lock != p[0].lock
    requires i < 2 && p[1].lock == q[i].lock && Conflict(q[i].mode, p[1].mode)
    requires q[2].lock == p[0].lock && Conflict(p[0].mode, q[2].mode)
    ensures Deadlocks(OneAndTwo(p, q))
  {
    OneAndTwoRuns(p, q);
  }

  /** Two transactions start, and each takes its first lock. */
  function OneAndOne(p: seq<Ask>, q: seq<Ask>): seq<Event> {
    [Start(1, p)] + ([Start(2, q)] + ([Take(1)] + ([Take(2)] + [])))
  }

  lemma OneAndOneDeadlock(p: seq<Ask>, q: seq<Ask>)
    requires |p| >= 2 && |q| >= 2 && p[0].lock != q[0].lock
    requires p[1].lock == q[0].lock && q[1].lock == p[0].lock
    requires Conflict(q[0].mode, p[1].mode) && Conflict(p[0].mode, q[1].mode)
    ensures Deadlocks(OneAndOne(p, q))
  {
    var s1: Locks := map[1 := Txn(p, 0)];
    var s2: Locks := map[1 := Txn(p, 0), 2 := Txn(q, 0)];
    var s3: Locks := map[1 := Txn(p, 1), 2 := Txn(q, 0)];
    var s4: Locks := map[1 := Txn(p, 1), 2 := Txn(q, 1)];
    assert Do(map[], Start(1, p)) == s1 && Do(s1, Start(2, q)) == s2 && Do(s2, Take(1)) == s3 && Do(s3, Take(2)) == s4;
    assert Run(s4, []) && After(s4, []) == s4;
    RunCons(s3, Take(2), []);
    RunCons(s2, Take(1), [Take(2)] + []);
    RunCons(s1, Start(2, q), [Take(1)] + ([Take(2)] + []));
    RunCons(map[], Start(1, p), [Start(2, q)] + ([Take(1)] + ([Take(2)] + [])));
  }

  /** WHY ROWS MUST BE LOCKED ASCENDING.  The invalidations name no order for their rows:
      were two of them to visit the same two refresh tokens in opposite orders, each would
      wait for the other, whatever else they lock. */
  lemma OppositeInvalidationsDeadlock(a: nat, b: nat, access: seq<nat>, access': seq<nat>, device: nat)
    requires a < b
    ensures var p, q := InvalidateAsks([a, b], access, device), InvalidateAsks([b, a], access', device);
            !Ordered(q) && Deadlocks(OneAndOne(p, q))
  {
    var p, q := InvalidateAsks([a, b], access, device), InvalidateAsks([b, a], access', device);
    var x, y := Each(Rows(RefreshTokens), [a, b]), Each(Rows(RefreshTokens), [b, a]);
    assert p[0] == x[0] && p[1] == x[1] && q[0] == y[0] && q[1] == y[1];
    assert !Before(q[0].lock, q[1].lock);
    OneAndOneDeadlock(p, q);
  }

  /** A sweep of one message in a lower room, on its way to a higher one. */
  lemma SweepOfTwo(low: nat, high: nat, m: nat)
    requires low < high
    ensures SweepAsks([(low, [m]), (high, [])]) == [Ask(Room(low), NoKeyUpdate), Ask(Message(low, m), Update), Ask(Room(high), NoKeyUpdate)]
    ensures Ordered(SweepAsks([(low, [m]), (high, [])]))
  {
    var rooms := [(low, [m]), (high, [])];
    SweepIsOrdered(rooms);
    assert rooms[..1] == [(low, [m])] && [(low, [m])][..0] == [];
    assert SweepAsks([(low, [m])]) == PurgeAsks(low, [m]);
    assert Each(Messages(low), [m]) == [Ask(Message(low, m), Update)];
    assert PurgeAsks(high, []) == [Ask(Room(high), NoKeyUpdate)];
  }

  lemma UnscopedIsUnordered(low: nat, high: nat, m: nat, author: nat)
    requires low < high
    ensures var p := UnscopedAsks(high, To(low, m), author);
            |p| >= 2 && p[0] == Ask(Room(high), NoKeyUpdate) && p[1] == Ask(Message(low, m), KeyShare) && !Ordered(p)
  {
    var p := UnscopedAsks(high, To(low, m), author);
    assert p[0] == Ask(Room(high), NoKeyUpdate) && p[1] == Ask(Message(low, m), KeyShare);
  }

  /** UNSCOPED, THEY DEADLOCK.  For any two conversations and any message of the
      lower one, a send in the upper that replies to it and a sweep that keeps the
      order reach a cycle: each waits for the other. */
  lemma UnscopedReplyDeadlocks(low: nat, high: nat, m: nat, author: nat)
    requires low < high
    ensures var p, q := UnscopedAsks(high, To(low, m), author), SweepAsks([(low, [m]), (high, [])]);
            Ordered(q) && !Ordered(p) && Deadlocks(OneAndTwo(p, q))
  {
    SweepOfTwo(low, high, m);
    UnscopedIsUnordered(low, high, m, author);
    OneAndTwoDeadlock(UnscopedAsks(high, To(low, m), author), SweepAsks([(low, [m]), (high, [])]), 1);
  }

  /** And the account must not be locked FOR UPDATE: a writer that takes it so
      before the counter, against any send of that person, is a cycle no ordering
      removes. */
  lemma AccountForUpdateDeadlocks(c: nat, author: nat)
    ensures var p, q := [Ask(Account(author), Update), Ask(Counter, NoKeyUpdate)], SendAsks([], c, NoReply, author, Nobody);
            Ordered(q) && Deadlocks(OneAndTwo(p, q))
  {
    var p := [Ask(Account(author), Update), Ask(Counter, NoKeyUpdate)];
    SendIsOrdered([], c, NoReply, author, Nobody);
    var q := SendAsks([], c, NoReply, author, Nobody);
    assert q == [Ask(Room(c), NoKeyUpdate), Ask(Counter, NoKeyUpdate), Ask(Account(author), KeyShare)];
    OneAndTwoDeadlock(p, q, 1);
  }
}
