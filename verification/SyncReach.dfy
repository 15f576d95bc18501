/**
 States that runs lead to, built one step at a time.
 */
module SyncReach {
  import opened MessageLog
  import opened ClientSync
  import opened SyncRun
  import opened SyncSteps

  /** Some run leads from `s0` to `s`; a safe one, if so asked. */
  ghost predicate Reaches(s0: State, s: State, safe: bool) {
    exists es :: Run(s0, es) && (safe ==> SafeRun(s0, es)) && After(s0, es) == s
  }

  lemma {:induction false} RunSnoc(s0: State, es: seq<Event>, e: Event, safe: bool)
    requires Run(s0, es) && (safe ==> SafeRun(s0, es))
    requires Enabled(After(s0, es), e) && (safe ==> Safe(After(s0, es), e))
    ensures Run(s0, es + [e]) && (safe ==> SafeRun(s0, es + [e]))
    ensures After(s0, es + [e]) == Do(After(s0, es), e)
    decreases |es|
  {
    if es == [] {
      assert [] + [e] == [e] && [e][1..] == [];
      assert Run(Do(s0, e), []) && SafeRun(Do(s0, e), []);
    } else {
      assert (es + [e])[1..] == es[1..] + [e];
      RunSnoc(Do(s0, es[0]), es[1..], e, safe);
    }
  }

  lemma ReachStep(s0: State, s: State, e: Event, safe: bool)
    requires Reaches(s0, s, safe) && Enabled(s, e) && (safe ==> Safe(s, e))
    ensures Reaches(s0, Do(s, e), safe)
  {
    var es :| Run(s0, es) && (safe ==> SafeRun(s0, es)) && After(s0, es) == s;
    RunSnoc(s0, es, e, safe);
  }

  lemma ReachSelf(s: State, safe: bool)
    ensures Reaches(s, s, safe)
  {
    assert Run(s, []) && SafeRun(s, []) && After(s, []) == s;
  }

  lemma {:induction false} ReachRun(s0: State, s: State, es: seq<Event>, safe: bool)
    requires Reaches(s0, s, safe) && Run(s, es) && (safe ==> SafeRun(s, es))
    ensures Reaches(s0, After(s, es), safe)
    decreases |es|
  {
    if es != [] {
      ReachStep(s0, s, es[0], safe);
      ReachRun(s0, Do(s, es[0]), es[1..], safe);
    }
  }

  lemma ReachFurther(s0: State, s: State, t: State, safe: bool)
    requires Reaches(s0, s, safe) && Reaches(s, t, safe)
    ensures Reaches(s0, t, safe)
  {
    var es :| Run(s, es) && (safe ==> SafeRun(s, es)) && After(s, es) == t;
    ReachRun(s0, s, es, safe);
  }

  // --- one turn of catch-up -----------------------------------------------------

  lemma ReachAsked(s0: State, s: State, safe: bool)
    requires Reaches(s0, s, safe) && s.c.pass.Top?
    requires safe && s.c.pass.next.From? ==> HeldUpTo(s.c.store, s.log, s.rooms, s.c.pass.next.pos)
    ensures Reaches(s0, s.(c := CursorRead(GenRead(s.c))), safe)
  {
    ReachStep(s0, s, ReadGen, safe);
    ReachStep(s0, Do(s, ReadGen), ReadCursor, safe);
  }

  lemma ReachLanded(s0: State, s: State, asked: int, page: Page, safe: bool)
    requires Reaches(s0, s, safe) && s.c.pass.Asked?
    requires Sync(s.log, s.head, s.rooms, s.c.pass.after, asked, {}, {}) == page
    ensures Reaches(s0, s.(c := PageLanded(PageReceived(s.c, page))), safe)
  {
    var t := Do(s, Fetch(asked, {}, {}));
    assert t == s.(c := PageReceived(s.c, page));
    ReachStep(s0, s, Fetch(asked, {}, {}), safe);
    ReachStep(s0, t, LandPage, safe);
  }

  /** What one undisturbed turn with this page makes of the client. */
  function Turned(c: Catch, page: Page): Catch
    requires c.pass.Top?
  {
    Decided(PageLanded(PageReceived(CursorRead(GenRead(c)), page)))
  }

  function Position(c: Catch): nat
    requires c.pass.Top?
  {
    if c.pass.next.From? then c.pass.next.pos else c.store.cursor
  }

  /** Asking for a page, landing the answer and deciding what comes next. */
  lemma ReachPage(s0: State, s: State, asked: int, page: Page, safe: bool)
    requires Reaches(s0, s, safe) && s.c.pass.Top?
    requires Sync(s.log, s.head, s.rooms, Position(s.c), asked, {}, {}) == page
    requires safe && s.c.pass.next.From? ==> HeldUpTo(s.c.store, s.log, s.rooms, s.c.pass.next.pos)
    ensures Reaches(s0, s.(c := Turned(s.c, page)), safe)
  {
    ReachAsked(s0, s, safe);
    var t := s.(c := CursorRead(GenRead(s.c)));
    ReachLanded(s0, t, asked, page, safe);
    ReachStep(s0, t.(c := PageLanded(PageReceived(t.c, page))), Decide, safe);
  }
}
