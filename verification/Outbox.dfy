/**
 A session's bounded outbox (internal/hub/hub.go:247-258, 384-395, 436-458).  Enqueues
 happen under the hub's lock; the session's own goroutine takes frames off at any time.
 */
module Outbox {

  const OUTBOX_BOUND: nat := 256

  const FIRST_MESSAGE_SEQ: nat := 1

  /** One member's frames of a fan-out: what introduces a conversation stands before its
      first message, and the message is last. */
  function Share<F>(introduced: bool, record: F, users: seq<F>, message: F): (fs: seq<F>)
    ensures |fs| > 0 && fs[|fs| - 1] == message
  {
    if introduced then [record] + users + [message] else [message]
  }

  /** `wire` is what the goroutine has taken off, `out` what is still queued. */
  datatype Box<F> = Box(user: nat, device: nat, wire: seq<F>, out: seq<F>, closed: bool)

  /** Everything ever put on the outbox, in order. */
  function Seen<F>(b: Box<F>): seq<F> { b.wire + b.out }

  /** Between two moments the session was handed `fs`: all of it, in order and with
      nothing between; or its outbox was full, and it was closed part way.  It is never
      closed while there is room for all of `fs`. */
  predicate Got<F(==)>(b: Box<F>, c: Box<F>, fs: seq<F>) {
    && c.user == b.user && c.device == b.device
    && (b.closed ==> c == b)
    && (!b.closed && !c.closed ==> Seen(c) == Seen(b) + fs)
    && (!b.closed && c.closed ==> Cut(b, c, fs))
    && b.wire <= c.wire && |c.out| <= |b.out| + |fs|
  }

  /** Closed part way: the outbox was full, and what got in is a proper prefix. */
  predicate Cut<F(==)>(b: Box<F>, c: Box<F>, fs: seq<F>) {
    && |b.out| + |fs| > OUTBOX_BOUND && |c.out| == OUTBOX_BOUND
    && exists k: nat :: k < |fs| && Seen(c) == Seen(b) + fs[..k]
  }

  lemma GotNothing<F>(b: Box<F>)
    ensures Got(b, b, [])
  {
  }

  lemma CutLonger<F>(b: Box<F>, c: Box<F>, fs: seq<F>, gs: seq<F>)
    requires Cut(b, c, fs)
    ensures Cut(b, c, fs + gs)
  {
    var k: nat :| k < |fs| && Seen(c) == Seen(b) + fs[..k];
    assert (fs + gs)[..k] == fs[..k];
  }

  lemma CutLater<F>(a: Box<F>, b: Box<F>, c: Box<F>, fs: seq<F>, gs: seq<F>)
    requires Seen(b) == Seen(a) + fs && |b.out| <= |a.out| + |fs| && Cut(b, c, gs)
    ensures Cut(a, c, fs + gs)
  {
    var k: nat :| k < |gs| && Seen(c) == Seen(b) + gs[..k];
    assert (fs + gs)[..|fs| + k] == fs + gs[..k];
    assert Seen(c) == Seen(a) + (fs + gs[..k]);
  }

  /** Deliveries compose. */
  lemma GotTwice<F>(a: Box<F>, b: Box<F>, c: Box<F>, fs: seq<F>, gs: seq<F>)
    requires Got(a, b, fs) && Got(b, c, gs)
    ensures Got(a, c, fs + gs)
  {
    if !a.closed {
      if b.closed {
        CutLonger(a, b, fs, gs);
      } else if c.closed {
        CutLater(a, b, c, fs, gs);
      } else {
        assert Seen(c) == Seen(a) + (fs + gs);
      }
    }
  }

  /** What is on its way afterwards: everything that was, nothing that was not handed, and
      all that was handed unless the session was closed on it. */
  lemma GotKeeps<F>(b: Box<F>, c: Box<F>, fs: seq<F>)
    requires Got(b, c, fs) && !b.closed
    ensures forall f | f in Seen(b) :: f in Seen(c)
    ensures forall f | f in c.out :: f in b.out || f in fs
    ensures forall f | f in c.wire :: f in b.wire || f in b.out || f in fs
    ensures !c.closed ==> forall f | f in fs :: f in Seen(c)
  {
    var x := c.wire[|b.wire|..];
    var gs := if c.closed then var k: nat :| k < |fs| && Seen(c) == Seen(b) + fs[..k]; fs[..k] else fs;
    assert c.wire == b.wire + x;
    assert Seen(c) == Seen(b) + gs;
    assert b.wire + (x + c.out) == Seen(c) && b.wire + (b.out + gs) == Seen(b) + gs;
    Tail(b.wire, x + c.out, b.out + gs);
    assert forall f | f in gs :: f in fs;
    assert forall f | f in c.out :: f in x + c.out;
    assert forall f | f in x :: f in x + c.out;
  }

  lemma Tail<F>(w: seq<F>, x: seq<F>, y: seq<F>)
    requires w + x == w + y
    ensures x == y
  {
    assert (w + x)[|w|..] == x && (w + y)[|w|..] == y;
  }
}
