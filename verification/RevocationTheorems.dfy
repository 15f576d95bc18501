/**
 There is no third case: a session whose device is dead is closed, or its closing is
 still owed.
 */
module RevocationTheorems {
  import opened Sets
  import opened Revocation

  predicate Inv(s: State) { Sane(s) && NoneForgotten(s) }

  predicate Kept(s: State, i: nat) { DeadSession(s, i) ==> Owed(s, i) || Excused(s, i) }

  // --- steps --------------------------------------------------------------------------

  lemma SessionStepOwes(s: State, e: Event, i: nat)
    requires Inv(s) && Enabled(s, e)
    requires (e.Authenticate? || e.Index? || e.Read? || e.ReadFails? || e.Finish? || e.Detach?)
    ensures Kept(Do(s, e), i)
  {
    var n := Do(s, e);
    if DeadSession(n, i) && !At(n, i, Checking) {
      assert i in s.index && s.sess[i].device == n.sess[i].device;
      assert DeliveryOwed(s, s.sess[i].device) ==> DeliveryOwed(n, s.sess[i].device);
      assert GapOwed(s, i) ==> GapOwed(n, i);
    }
  }

  lemma PublishOwes(s: State, n: State, p: Subject, i: nat)
    requires Inv(s) && s.connected
    requires n == Published(s.(revoked := n.revoked, deactivated := n.deactivated), p)
    requires i in s.index && Dead(n, s.sess[i].device) ==> Dead(s, s.sess[i].device) || Names(s.owner, p, s.sess[i].device)
    ensures Kept(n, i)
  {
    if DeadSession(n, i) {
      var d := s.sess[i].device;
      if s.up {
        assert p in n.queue;
        if DeliveryOwed(s, d) {
          var q :| q in s.queue && Names(s.owner, q, d);
          assert q in n.queue;
        }
      }
      assert Owed(s, i) ==> Owed(n, i);
    }
  }

  function Subj(e: Event): Subject {
    match e
    case RevokeDevice(d) => Device(d)
    case Deactivate(u) => User(u)
    case Reactivate(u) => User(u)
    case _ => Nobody
  }

  /** What a commit kills is what its notification names, and no commit revives a device. */
  lemma CommitKills(s: State, e: Event, d: nat)
    requires Commits(e)
    ensures Dead(Do(s, e), d) <==> Dead(s, d) || Names(s.owner, Subj(e), d)
  {
  }

  /** The session is indexed, its attach check is behind it and let it through. */
  predicate LetThrough(s: State, i: nat) {
    && i in s.index
    && i in s.sess
    && !CheckOwed(s, i)
    && !Excused(s, i)
  }

  /** A revocation that commits before the listener's first subscription, naming a
      session already let through, is the one that nobody hears. */
  predicate Heard(s: State, e: Event) {
    Commits(e) && !s.connected ==> forall i | i in s.index :: LetThrough(s, i) ==> !Names(s.owner, Subj(e), s.sess[i].device)
  }

  lemma CommitOwes(s: State, e: Event, i: nat)
    requires Inv(s) && Commits(e) && Heard(s, e)
    ensures Kept(Do(s, e), i)
  {
    var n := Do(s, e);
    if i in s.index {
      CommitKills(s, e, s.sess[i].device);
      if s.connected {
        PublishOwes(s, n, Subj(e), i);
      }
    }
  }

  /** EXACTLY WHEN A COMMIT FORGETS A SESSION. */
  lemma CommitForgetsIff(s: State, e: Event)
    requires Inv(s) && Commits(e)
    ensures NoneForgotten(Do(s, e)) <==> Heard(s, e)
  {
    var n := Do(s, e);
    if Heard(s, e) {
      forall i | i in n.index ensures Kept(n, i) { CommitOwes(s, e, i); }
    } else {
      var i :| i in s.index && LetThrough(s, i) && Names(s.owner, Subj(e), s.sess[i].device);
      CommitKills(s, e, s.sess[i].device);
      assert !Kept(n, i);
    }
  }

  lemma DeliverOwes(s: State, i: nat)
    requires Inv(s) && Enabled(s, Deliver)
    ensures Kept(Do(s, Deliver), i)
  {
    var n := Do(s, Deliver);
    if DeadSession(n, i) && DeliveryOwed(s, s.sess[i].device) {
      var p :| p in s.queue && Names(s.owner, p, s.sess[i].device);
      assert p != s.queue[0];
      assert s.queue == [s.queue[0]] + s.queue[1..];
      assert p in n.queue;
    }
  }

  lemma ListenerStepOwes(s: State, e: Event, i: nat)
    requires Inv(s) && Enabled(s, e) && (e.Outage? || e.Listen?)
    ensures Kept(Do(s, e), i)
  {
  }

  lemma GapStepOwes(s: State, e: Event, i: nat)
    requires Inv(s) && Enabled(s, e)
    requires (e.GapSnap? || e.GapQuery? || e.GapFails? || e.GapFinish?)
    ensures Kept(Do(s, e), i)
  {
    var n := Do(s, e);
    if DeadSession(n, i) {
      assert s.sess[i].device == n.sess[i].device && Dead(s, s.sess[i].device);
      assert DeliveryOwed(s, s.sess[i].device) ==> DeliveryOwed(n, s.sess[i].device);
    }
  }

  lemma StepOwes(s: State, e: Event, i: nat)
    requires Inv(s) && Enabled(s, e) && Heard(s, e)
    ensures Kept(Do(s, e), i)
  {
    if Commits(e) {
      CommitOwes(s, e, i);
    } else if e.Deliver? {
      DeliverOwes(s, i);
    } else if e.Outage? || e.Listen? {
      ListenerStepOwes(s, e, i);
    } else if e.GapSnap? || e.GapQuery? || e.GapFails? || e.GapFinish? {
      GapStepOwes(s, e, i);
    } else {
      SessionStepOwes(s, e, i);
    }
  }

  lemma Step(s: State, e: Event)
    requires Inv(s) && Enabled(s, e) && Heard(s, e)
    ensures Inv(Do(s, e))
  {
    forall i | i in Do(s, e).index ensures Kept(Do(s, e), i) { StepOwes(s, e, i); }
  }

  // --- runs ---------------------------------------------------------------------------

  predicate Run(s: State, es: seq<Event>)
    decreases |es|
  {
    if es == [] then true else Enabled(s, es[0]) && Run(Do(s, es[0]), es[1..])
  }

  function After(s: State, es: seq<Event>): State
    requires Run(s, es)
    decreases |es|
  {
    if es == [] then s else After(Do(s, es[0]), es[1..])
  }

  predicate HeardRun(s: State, es: seq<Event>)
    requires Run(s, es)
    decreases |es|
  {
    if es == [] then true else Heard(s, es[0]) && HeardRun(Do(s, es[0]), es[1..])
  }

  lemma {:induction false} RunKeeps(s: State, es: seq<Event>)
    requires Inv(s) && Run(s, es) && HeardRun(s, es)
    ensures Inv(After(s, es))
    decreases |es|
  {
    if es != [] {
      Step(s, es[0]);
      RunKeeps(Do(s, es[0]), es[1..]);
    }
  }

  /** Everything under way has finished: the listener is subscribed, its queue is empty
      and no re-check is running, and every attach has completed its check. */
  predicate AllSettled(s: State) {
    s.up && s.gap.NoGap? && s.queue == [] && forall i | i in s.index && i in s.sess :: !CheckOwed(s, i)
  }

  /** NO THIRD CASE.  In every interleaving of attaches, revocations, deliveries,
      outages and re-checks, a session of a dead device always has something owed that
      will close it; and once everything has settled none is left, save one whose
      attach check failed when its device was already dead. */
  lemma NoDeadSessionSurvives(s: State, es: seq<Event>, i: nat)
    requires Init(s) && Run(s, es) && HeardRun(s, es)
    requires DeadSession(After(s, es), i)
    ensures Owed(After(s, es), i) || Excused(After(s, es), i)
    ensures AllSettled(After(s, es)) ==> Excused(After(s, es), i)
  {
    RunKeeps(s, es);
    var n := After(s, es);
    assert Kept(n, i);
  }

  // --- settling ------------------------------------------------------------------------

  /** What is already under way: checks, deliveries, the listener coming back, its re-check. */
  predicate UnderWay(e: Event) {
    e.Read? || e.Finish? || e.Deliver? || e.Listen? || e.GapSnap? || e.GapQuery? || e.GapFinish?
  }

  function Busy(s: State): set<nat> { set i | i in s.index && CheckOwed(s, i) }

  function Unchecked(s: State): set<nat> { set i | i in s.index && At(s, i, Checking) }

  function GapWork(g: Gap): nat {
    match g
    case NoGap => 0
    case Due => 3
    case Snapped(_) => 2
    case Checked(_, _) => 1
  }

  /** How much of it is left. */
  function Work(s: State): nat { |Busy(s)| + |Unchecked(s)| + |s.queue| + GapWork(s.gap) + (if s.up then 0 else 4) }

  lemma ReadWorks(s: State, i: nat)
    requires i in s.index && At(s, i, Checking)
    ensures Work(Do(s, Read(i))) < Work(s)
  {
    var n := Do(s, Read(i));
    SubsetSize(Busy(n), Busy(s));
    assert i in Unchecked(s) && i !in Unchecked(n);
    SubsetSize(Unchecked(n), Unchecked(s));
  }

  lemma FinishWorks(s: State, i: nat)
    requires i in s.index && At(s, i, Found(true))
    ensures Work(Do(s, Finish(i))) < Work(s)
  {
    var n := Do(s, Finish(i));
    assert i in Busy(s) && i !in Busy(n);
    SubsetSize(Busy(n), Busy(s));
    SubsetSize(Unchecked(n), Unchecked(s));
  }

  lemma ListenerWorks(s: State, e: Event)
    requires Enabled(s, e)
    requires (e.Deliver? || e.Listen? || e.GapSnap? || e.GapQuery? || e.GapFinish?)
    ensures Work(Do(s, e)) < Work(s)
  {
    var n := Do(s, e);
    SubsetSize(Busy(n), Busy(s));
    SubsetSize(Unchecked(n), Unchecked(s));
  }

  /** While anything is unsettled, something under way can go on, and leaves less to do. */
  lemma Progress(s: State) returns (e: Event)
    requires Sane(s) && !AllSettled(s)
    ensures UnderWay(e) && Enabled(s, e) && Work(Do(s, e)) < Work(s)
  {
    if i :| i in s.index && At(s, i, Checking) {
      e := Read(i);
      ReadWorks(s, i);
    } else if i :| i in s.index && At(s, i, Found(true)) {
      e := Finish(i);
      FinishWorks(s, i);
    } else {
      e := match s.gap
      case Due => GapSnap
      case Snapped(_) => GapQuery
      case Checked(_, _) => GapFinish
      case NoGap => if s.up then Deliver else Listen;
      ListenerWorks(s, e);
    }
  }

  /** EVERYTHING SETTLES, AND THEN NO DEAD SESSION IS LEFT.  From every state of every heard
      run, letting what is under way go on, with no new event of any other kind, reaches a
      settled state; the only dead sessions in it are excused. */
  lemma {:induction false} SettlingClosesDeadSessions(s: State) returns (es: seq<Event>)
    requires Inv(s)
    ensures Run(s, es) && |es| <= Work(s)
    ensures (forall k | 0 <= k < |es| :: UnderWay(es[k]))
    ensures AllSettled(After(s, es))
    ensures forall i | DeadSession(After(s, es), i) :: Excused(After(s, es), i)
    decreases Work(s)
  {
    if AllSettled(s) {
      es := [];
      forall i | DeadSession(s, i) ensures Excused(s, i) { assert Kept(s, i); }
    } else {
      var e := Progress(s);
      Step(s, e);
      var rest := SettlingClosesDeadSessions(Do(s, e));
      es := [e] + rest;
      RunOfMore(s, e, rest);
    }
  }

  // --- the window before the first subscription ----------------------------------------

  /** Served although its device is dead, with nothing on the way to close it. */
  predicate Forgotten(s: State, i: nat) {
    DeadSession(s, i) && At(s, i, Settled) && s.up && s.gap.NoGap? && !DeliveryOwed(s, s.sess[i].device)
  }

  /** The sockets are served while the listener is still making its first connection
      (cmd/catenary/main.go:848-880), and the first subscription raises no gap
      (internal/store/notify.go:322-341).  So a revocation between the two is lost. */
  lemma BootWindowForgetsARevocation(s: State, i: nat, d: nat) returns (es: seq<Event>)
    requires Init(s) && d in s.owner && !Dead(s, d)
    ensures Run(s, es) && Forgotten(After(s, es), i) && AllSettled(After(s, es))
  {
    es := [Authenticate(i, d)] + ([Index(i)] + ([Read(i)] + Unheard(i, d)));
    var s1 := Do(s, Authenticate(i, d));
    var s2 := Do(s1, Index(i));
    var s3 := Do(s2, Read(i));
    UnheardForgets(s3, i, d);
    RunOfMore(s2, Read(i), Unheard(i, d));
    RunOfMore(s1, Index(i), [Read(i)] + Unheard(i, d));
    RunOfMore(s, Authenticate(i, d), [Index(i)] + ([Read(i)] + Unheard(i, d)));
  }

  function Unheard(i: nat, d: nat): seq<Event> { [Finish(i)] + ([RevokeDevice(d)] + [Listen]) }

  lemma UnheardForgets(s: State, i: nat, d: nat)
    requires s.index == {i} && s.sess == map[i := Sess(d, Found(false))]
    requires !s.up && !s.connected && s.queue == [] && s.gap.NoGap?
    ensures Run(s, Unheard(i, d)) && Forgotten(After(s, Unheard(i, d)), i)
    ensures AllSettled(After(s, Unheard(i, d)))
  {
    var s1 := Do(s, Finish(i));
    var s2 := Do(s1, RevokeDevice(d));
    RunOfMore(s2, Listen, []);
    assert [Listen] + [] == [Listen];
    RunOfMore(s1, RevokeDevice(d), [Listen]);
    RunOfMore(s, Finish(i), [RevokeDevice(d)] + [Listen]);
  }

  lemma RunOfMore(s: State, e: Event, es: seq<Event>)
    requires Enabled(s, e) && Run(Do(s, e), es)
    ensures Run(s, [e] + es) && After(s, [e] + es) == After(Do(s, e), es)
  {
    assert ([e] + es)[1..] == es;
  }

  /** And it stays so for as long as the listener is healthy, the session is open and
      nothing revokes the device again. */
  lemma ForgottenStays(s: State, e: Event, i: nat)
    requires Forgotten(s, i) && Enabled(s, e)
    requires !e.Outage? && e != Detach(i)
    requires (Commits(e) ==> !Names(s.owner, Subj(e), s.sess[i].device))
    ensures Forgotten(Do(s, e), i)
  {
    if Commits(e) {
      CommitKills(s, e, s.sess[i].device);
    }
    if e.Deliver? {
      assert s.queue[0] in s.queue;
      assert forall p | p in s.queue[1..] :: p in s.queue;
    }
  }

  /** For as long as that lasts. */
  lemma {:induction false} ForgottenForEver(s: State, es: seq<Event>, i: nat)
    requires Forgotten(s, i) && Run(s, es)
    requires forall k | 0 <= k < |es| :: !es[k].Outage? && es[k] != Detach(i) && (Commits(es[k]) ==> !Names(s.owner, Subj(es[k]), s.sess[i].device))
    ensures Forgotten(After(s, es), i)
    decreases |es|
  {
    if es != [] {
      var n := Do(s, es[0]);
      ForgottenStays(s, es[0], i);
      assert n.owner == s.owner && n.sess[i].device == s.sess[i].device;
      forall k | 0 <= k < |es[1..]|
        ensures var e := es[1..][k]; !e.Outage? && e != Detach(i) && (Commits(e) ==> !Names(n.owner, Subj(e), n.sess[i].device))
      {
        assert es[1..][k] == es[k + 1];
      }
      ForgottenForEver(n, es[1..], i);
    }
  }
}
