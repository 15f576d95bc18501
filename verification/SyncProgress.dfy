/**
 No history is a dead end: whatever has happened to a device, a relaunch on a healthy
 instance brings it to a quiet state in which it holds everything.
 */
module SyncProgress {
  import opened MessageLog
  import opened ClientSync
  import opened SyncRun
  import opened SyncSteps
  import opened SyncReach
  import opened SyncTheorems

  // --- a relaunch ------------------------------------------------------------------------

  const HEALTHY: Instance := Instance(true, true, false, [])

  /** Everything but the pages: the session is ready and silent, the instance healthy, and
      the one trigger outstanding is the catch-up's to serve. */
  predicate Waiting(s: State) {
    && s.inst == HEALTHY && s.readied && !s.c.owed
    && s.sess.Session? && !s.sess.closing && s.sess.outbox == [] && s.sess.wire == []
  }

  function Dialed(s: State): State { s.(inst := HEALTHY, sess := Door, readied := false, c := Catch(s.c.store, 1, 0, Idle, false)) }

  /** From a relaunch on, nothing is lost, whatever was before. */
  lemma ReachDialed(s: State)
    requires Core(s)
    ensures Reaches(s, Dialed(s), true) && Inv(Dialed(s))
  {
    ReachSelf(s, true);
    CoreStep(s, Kill);
    ReachStep(s, s, Kill, true);
    var k := Do(s, Kill);
    CoreStep(k, Dial(HEALTHY));
    ReachStep(s, k, Dial(HEALTHY), true);
    assert Do(k, Dial(HEALTHY)) == Dialed(s);
  }

  function Greeted(s: State): State { s.(sess := Session(s.head, true, true, false, [], [Ready(s.head)])) }

  lemma ReachGreeted(s0: State, s: State)
    requires Reaches(s0, s, true) && s.sess.Door? && s.inst.connected
    ensures Reaches(s0, Greeted(s), true)
  {
    ReachStep(s0, s, Hello, true);
    var h := Do(s, Hello);
    ReachStep(s0, h, Attach, true);
    var a := Do(h, Attach);
    assert [] + [Ready(s.head)] == [Ready(s.head)];
    ReachStep(s0, a, SendReady, true);
    assert Do(a, SendReady) == Greeted(s);
  }

  /** `ready` is read, its trigger pulled, and a pass begun.  The head it carries is not
      below the cursor, so nothing is wiped. */
  function Begun(s: State): State
    requires s.sess.Session?
  {
    s.(sess := s.sess.(wire := []), readied := true, c := s.c.(gen := s.c.gen + 1, pass := Top(FromCursor)))
  }

  lemma ReachBegun(s0: State, s: State)
    requires Reaches(s0, s, true) && s.sess.Session?
    requires s.sess.wire == [Ready(s.head)] && !s.c.owed
    requires s.c.pass.Idle? && s.c.doneGen <= s.c.gen && s.c.store.cursor <= s.head
    ensures Reaches(s0, Begun(s), true)
  {
    assert [Ready(s.head)][1..] == [] && [Ready(s.head)][0] == Ready(s.head);
    ReachStep(s0, s, Receive, true);
    var r := s.(sess := s.sess.(wire := []), readied := true, c := s.c.(owed := true));
    assert Do(s, Receive) == r;
    ReachPulled(s0, r);
    assert Begun(s) == r.(c := r.c.(gen := r.c.gen + 1, owed := false, pass := Top(FromCursor)));
  }

  lemma ReachPulled(s0: State, r: State)
    requires Reaches(s0, r, true) && r.c.owed && r.c.pass.Idle?
    requires r.c.doneGen <= r.c.gen
    ensures Reaches(s0, r.(c := r.c.(gen := r.c.gen + 1, owed := false, pass := Top(FromCursor))), true)
  {
    ReachStep(s0, r, Pull, true);
    var p := r.(c := PullOwed(r.c));
    ReachStep(s0, p, Begin, true);
  }

  // --- the pages ---------------------------------------------------------------------------

  function NextPage(s: State): Page
    requires s.c.pass.Top?
  {
    Sync(s.log, s.head, s.rooms, Position(s.c), 0, {}, {})
  }

  /** The position was reached in this epoch. */
  predicate Fresh(c: Catch) {
    && c.pass.Top?
    && (c.pass.next.From? ==> c.pass.next.epoch == c.store.wipes)
  }

  /** One turn: the last page ends the catch-up, any other leaves the position higher. */
  lemma TurnAdvances(s: State)
    requires Fresh(s.c) && LogOk(s.log, s.head)
    ensures var n := Turned(s.c, NextPage(s));
            if NextPage(s).hasMore then Fresh(n) && Position(s.c) < Position(n) < s.head && n.owed == s.c.owed
            else CaughtUp(n) && n.owed == s.c.owed
  {
    SyncIsExact(s.log, s.head, s.rooms, Position(s.c), 0, {}, {});
    RecordAllFrame(s.c.store, NextPage(s).rows);
  }

  lemma {:induction false} PagesReachQuiet(s0: State, s: State) returns (n: State)
    requires Inv(s0) && Reaches(s0, s, true) && Waiting(s) && Fresh(s.c)
    ensures Reaches(s0, n, true) && Quiet(n) && n.log == s.log && n.rooms == s.rooms
    decreases if s.head > Position(s.c) then s.head - Position(s.c) else 0
  {
    var es :| Run(s0, es) && SafeRun(s0, es) && After(s0, es) == s;
    RunKeepsInv(s0, es);
    ReachPage(s0, s, 0, NextPage(s), true);
    TurnAdvances(s);
    n := s.(c := Turned(s.c, NextPage(s)));
    if NextPage(s).hasMore {
      n := PagesReachQuiet(s0, n);
    }
  }

  lemma DialedReachesQuiet(d: State) returns (n: State)
    requires Inv(d) && d == Dialed(d)
    ensures Reaches(d, n, true) && Quiet(n) && n.log == d.log && n.rooms == d.rooms
    ensures forall r | r in d.log && Visible(d.rooms, r) :: Held(n.c.store, r)
  {
    ReachSelf(d, true);
    ReachGreeted(d, d);
    var g := Greeted(d);
    ReachBegun(d, g);
    n := PagesReachQuiet(d, Begun(g));
    var es :| Run(d, es) && SafeRun(d, es) && After(d, es) == n;
    RunKeepsInv(d, es);
    forall r | r in n.log && Visible(n.rooms, r) ensures Held(n.c.store, r) { assert Accounted(n, r); }
  }

  /** NO DEAD END.  After any run whose requests skipped nothing, whatever was lost, severed,
      unheard or left half done, there is a safe continuation, a relaunch and its catch-up
      with nothing else happening, to a quiet state in which the device holds every
      committed row it may see. */
  lemma RelaunchRecovers(s0: State, es: seq<Event>) returns (n: State)
    requires Init(s0) && Run(s0, es) && AskRun(s0, es)
    ensures var s := After(s0, es);
            && Reaches(s, n, true) && Quiet(n) && n.log == s.log && n.rooms == s.rooms
            && forall r | r in s.log && Visible(s.rooms, r) :: Held(n.c.store, r)
  {
    InitKeepsInv(s0);
    RunKeepsCore(s0, es);
    var s := After(s0, es);
    ReachDialed(s);
    n := DialedReachesQuiet(Dialed(s));
    ReachFurther(s, Dialed(s), n, true);
  }
}
