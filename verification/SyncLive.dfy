/**
 The live path: what the frames of one fan-out do to a client, and how a message that
 commits to a device at rest arrives without a catch-up.
 */
module SyncLive {
  import opened MessageLog
  import opened ClientSync
  import opened Outbox
  import opened SyncRun
  import opened SyncReach
  import opened SyncTheorems

  // --- what a fan-out brings ----------------------------------------------------

  function ReadAll(c: Catch, fs: seq<Frame>): Catch
    decreases |fs|
  {
    if fs == [] then c else ReadAll(Read(c, fs[0]), fs[1..])
  }

  function WithUsers(c: Catch, users: seq<nat>): Catch {
    c.(store := c.store.(users := c.store.users + set u | u in users))
  }

  lemma {:induction false} ReadUsers(c: Catch, fs: seq<Frame>, users: seq<nat>, r: Row)
    requires |fs| == |users| + 1 && fs[|users|] == Msg(r) && forall i | 0 <= i < |users| :: fs[i] == User(users[i])
    ensures ReadAll(c, fs) == LiveSeen(WithUsers(c, users), r)
    decreases |users|
  {
    if users == [] {
      assert fs[1..] == [] && WithUsers(c, []) == c;
    } else {
      var d := UserSeen(c, users[0]);
      ReadUsers(d, fs[1..], users[1..], r);
      assert WithUsers(d, users[1..]) == WithUsers(c, users) by {
        assert (set u | u in users) == {users[0]} + set u | u in users[1..];
      }
    }
  }

  lemma FanOutIs(r: Row, users: seq<nat>)
    ensures var fs := FanOut(r, users);
            if r.seqNo == 1 then |fs| == |users| + 2 && fs[0] == Conv(r.conv) && fs[|users| + 1] == Msg(r)
                                 && forall i | 0 <= i < |users| :: fs[i + 1] == User(users[i])
            else fs == [Msg(r)]
  {
  }

  /** AN INTRODUCTION WORKS.  A client that reads all the frames of a message's fan-out holds
      what they introduce; and it holds the message, and owes itself nothing, if they or what
      it held before make the conversation and the author known.  Otherwise the message is
      not recorded and a trigger is owed. */
  lemma IntroductionWorks(c: Catch, r: Row, users: seq<nat>)
    ensures var n := ReadAll(c, FanOut(r, users));
            var known := (r.seqNo == 1 || r.conv in c.store.convs) && ((r.seqNo == 1 && r.author in users) || r.author in c.store.users);
            && (r.seqNo == 1 ==> r.conv in n.store.convs && forall u | u in users :: u in n.store.users)
            && n.store.messages == (if known then c.store.messages[r.id := r] else c.store.messages)
            && n.owed == (c.owed || !known)
            && n.gen == c.gen && n.doneGen == c.doneGen && n.pass == c.pass && n.store.cursor == c.store.cursor
  {
    var fs := FanOut(r, users);
    FanOutIs(r, users);
    if r.seqNo == 1 {
      ReadUsers(ConvSeen(c, r.conv), fs[1..], users, r);
    } else {
      assert fs[1..] == [];
    }
  }

  // --- a message arrives ----------------------------------------------------------

  /** Frames that tell the client nothing to catch up on, but perhaps for the last. */
  predicate Quietly(fs: seq<Frame>) { forall i | 0 <= i < |fs| - 1 :: fs[i].Conv? || fs[i].User? }

  /** The queued frames cross the wire one by one. */
  lemma {:induction false} ReachRead(s0: State, s: State, safe: bool)
    requires Reaches(s0, s, safe) && s.sess.Session? && s.readied && s.sess.wire == []
    requires Quietly(s.sess.outbox) && !s.c.owed
    requires forall f | f in s.sess.outbox :: !f.Ready?
    ensures Reaches(s0, s.(sess := s.sess.(outbox := []), c := ReadAll(s.c, s.sess.outbox)), safe)
    decreases |s.sess.outbox|
  {
    var fs := s.sess.outbox;
    if fs != [] {
      ReachStep(s0, s, Pump, safe);
      var p := Do(s, Pump);
      assert [] + [fs[0]] == [fs[0]] && [fs[0]][1..] == [];
      ReachStep(s0, p, Receive, safe);
      var n := s.(sess := s.sess.(outbox := fs[1..]), c := Read(s.c, fs[0]));
      assert Do(p, Receive) == n;
      assert forall i | 0 <= i < |fs[1..]| :: fs[1..][i] == fs[i + 1];
      if |fs| > 1 {
        ReachRead(s0, n, safe);
      } else {
        assert fs[1..] == [] && ReadAll(Read(s.c, fs[0]), []) == Read(s.c, fs[0]);
      }
    }
  }

  lemma ReachHanded(s: State, r: Row, users: seq<nat>)
    requires Core(s) && Quiet(s) && Enabled(s, Commit(r)) && Visible(s.rooms, r)
    ensures Reaches(s, s.(log := s.log + [r], head := r.logSeq, sess := s.sess.(outbox := FanOut(r, users))), true)
  {
    ReachSelf(s, true);
    ReachStep(s, s, Commit(r), true);
    var t := Do(s, Commit(r));
    assert t.inst.queue == [r] && [r][1..] == [];
    var fs := FanOut(r, users);
    var to := s.sess.(outbox := fs);
    assert Got(BoxOf(s.sess), BoxOf(to), fs) by { assert Seen(BoxOf(to)) == Seen(BoxOf(s.sess)) + fs; }
    ReachStep(s, t, Deliver(true, users, to), true);
    assert Do(t, Deliver(true, users, to)) == s.(log := s.log + [r], head := r.logSeq, sess := to);
  }

  /** A MESSAGE ARRIVES LIVE.  To a device at rest that knows its conversation and author, or
      is introduced to them, a message that commits can come by its own notification and no
      more: no trigger, no page, the cursor where it was, and the device at rest again. */
  lemma ArrivesLive(s: State, r: Row, users: seq<nat>) returns (n: State)
    requires Core(s) && Quiet(s) && Enabled(s, Commit(r)) && Visible(s.rooms, r)
    requires (r.seqNo == 1 || r.conv in s.c.store.convs) && ((r.seqNo == 1 && r.author in users) || r.author in s.c.store.users)
    ensures Reaches(s, n, true) && Quiet(n) && n.log == s.log + [r]
    ensures n.c.store.messages == s.c.store.messages[r.id := r] && n.c.gen == s.c.gen
    ensures n.c.store.cursor == s.c.store.cursor
  {
    ReachHanded(s, r, users);
    var t := s.(log := s.log + [r], head := r.logSeq, sess := s.sess.(outbox := FanOut(r, users)));
    FanOutIs(r, users);
    ReachRead(s, t, true);
    IntroductionWorks(s.c, r, users);
    n := t.(sess := t.sess.(outbox := []), c := ReadAll(t.c, t.sess.outbox));
  }
}
