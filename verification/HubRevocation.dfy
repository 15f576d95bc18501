/**
 What the hub's methods do to its sessions is what the steps of `Revocation` do to its
 index, over any run.
 */
module HubRevocation {
  import opened Outbox
  import opened HubIndex
  import HubHistory
  import opened HubClass
  import opened Revocation
  import opened RevocationTheorems

  /** The machine's index is the hub's open sessions, each on its own device and account. */
  predicate Shows(s: State, box: Boxes) {
    && s.index == Live(box)
    && (forall i | i in box :: i in s.sess && s.sess[i].device == box[i].device && Owns(s.owner, box[i].user, box[i].device))
    && (forall i | i in box :: !s.sess[i].stage.AtDoor?)
    && (forall i | i in s.sess :: s.sess[i].device in s.owner)
    && (s.gap.Snapped? || s.gap.Checked? ==> s.gap.all <= box.Keys)
  }

  predicate Severed(box: Boxes, after: Boxes, ids: set<nat>) {
    after.Keys == box.Keys && forall k | k in box :: after[k] == if k in ids then box[k].(closed := true) else box[k]
  }

  /** The machine has lost those sessions from its index, and no other's place has changed. */
  predicate Lost(s: State, n: State, ids: set<nat>) {
    && n.index == s.index - ids && n.owner == s.owner && (n.gap == s.gap || n.gap.NoGap?)
    && n.sess.Keys == s.sess.Keys
    && (forall i | i in s.sess :: n.sess[i].device == s.sess[i].device && (n.sess[i].stage.AtDoor? ==> s.sess[i].stage.AtDoor?))
  }

  lemma SeveredShows(s: State, n: State, box: Boxes, after: Boxes, ids: set<nat>)
    requires Shows(s, box) && Severed(box, after, ids) && Lost(s, n, ids)
    ensures Shows(n, after)
  {
    assert Live(after) == Live(box) - ids;
  }

  lemma EndLoses(s: State, e: Event)
    requires Enabled(s, e) && (e.Detach? || e.Finish?)
    ensures Lost(s, Do(s, e), if e.Detach? || s.sess[e.id].stage.dead then {e.id} else {})
  {
  }

  lemma RecheckLoses(s: State, box: Boxes, known: bool)
    requires Enabled(s, if known then GapFinish else GapFails) && Shows(s, box)
    ensures Lost(s, Do(s, if known then GapFinish else GapFails), if known then OnDevices(box, s.gap.all, s.gap.dead) else s.gap.all)
  {
    if known {
      assert On(s, s.gap.all, s.gap.dead) == OnDevices(box, s.gap.all, s.gap.dead);
    }
  }

  lemma RevocationLoses(s: State, box: Boxes)
    requires Enabled(s, Deliver) && Shows(s, box)
    ensures Lost(s, Do(s, Deliver), NamedIn(box, s.queue[0]))
  {
    var p := s.queue[0];
    forall k | k in box ensures Names(s.owner, p, s.sess[k].device) <==> HubHistory.Matches(p, box[k]) {
      assert Owns(s.owner, box[k].user, box[k].device);
    }
    assert Named(s, p) == NamedIn(box, p);
  }

  lemma IndexShows(s: State, box: Boxes, i: nat)
    requires Shows(s, box) && Enabled(s, Index(i))
    ensures i !in box && Shows(Do(s, Index(i)), box[i := Box(s.owner[s.sess[i].device], s.sess[i].device, [], [], false)])
  {
    var b := Box(s.owner[s.sess[i].device], s.sess[i].device, [], [], false);
    assert Live(box[i := b]) == Live(box) + {i};
  }

  predicate OfHub(e: Event) { e.Index? || e.Detach? || e.Finish? || e.Deliver? || e.GapFails? || e.GapFinish? }

  lemma OthersShow(s: State, box: Boxes, e: Event)
    requires Shows(s, box) && Enabled(s, e) && !OfHub(e)
    ensures Shows(Do(s, e), box)
  {
  }

  method FollowIndex(h: Hub, s: State, i: nat)
    requires h.Valid() && !h.closing && Shows(s, h.box) && Enabled(s, Index(i))
    modifies h
    ensures h.Valid() && !h.closing && Shows(Do(s, Index(i)), h.box)
  {
    var d := s.sess[i].device;
    IndexShows(s, h.box, i);
    var _ := h.Attach(i, s.owner[d], d);
  }

  /** A session that goes, or that its attach check found dead. */
  method FollowEnd(h: Hub, s: State, e: Event)
    requires h.Valid() && !h.closing && Shows(s, h.box)
    requires Enabled(s, e) && (e.Detach? || e.Finish?)
    modifies h
    ensures h.Valid() && !h.closing && Shows(Do(s, e), h.box)
  {
    EndLoses(s, e);
    var goes := e.Detach? || s.sess[e.id].stage.dead;
    if e.id in h.box && goes {
      var _ := h.RemoveLocked(e.id);
    }
    SeveredShows(s, Do(s, e), old(h.box), h.box, if goes then {e.id} else {});
  }

  /** By device or by account, the same sessions go. */
  method FollowRevocation(h: Hub, s: State)
    requires h.Valid() && !h.closing && Shows(s, h.box) && Enabled(s, Deliver)
    modifies h
    ensures h.Valid() && !h.closing && Shows(Do(s, Deliver), h.box)
  {
    RevocationLoses(s, h.box);
    h.OnRevocation(s.queue[0]);
    SeveredShows(s, Do(s, Deliver), old(h.box), h.box, NamedIn(old(h.box), s.queue[0]));
  }

  /** With an answer and without one. */
  method FollowRecheck(h: Hub, s: State, known: bool)
    requires h.Valid() && !h.closing && Shows(s, h.box)
    requires Enabled(s, if known then GapFinish else GapFails)
    modifies h
    ensures h.Valid() && !h.closing && Shows(Do(s, if known then GapFinish else GapFails), h.box)
  {
    RecheckLoses(s, h.box, known);
    ghost var ids := if known then OnDevices(h.box, s.gap.all, s.gap.dead) else s.gap.all;
    h.FinishRecheck(s.gap.all, known, if known then s.gap.dead else {});
    SeveredShows(s, Do(s, if known then GapFinish else GapFails), old(h.box), h.box, ids);
  }

  /** Every step of the machine is one call of the hub, or none. */
  method FollowStep(h: Hub, s: State, e: Event)
    requires h.Valid() && !h.closing && Shows(s, h.box) && Enabled(s, e)
    modifies h
    ensures h.Valid() && !h.closing && Shows(Do(s, e), h.box)
  {
    match e
    case Index(i) => FollowIndex(h, s, i);
    case Detach(_) => FollowEnd(h, s, e);
    case Finish(_) => FollowEnd(h, s, e);
    case Deliver => FollowRevocation(h, s);
    case GapFails => FollowRecheck(h, s, false);
    case GapFinish => FollowRecheck(h, s, true);
    case _ => OthersShow(s, h.box, e);
  }

  method Follow(h: Hub, s: State, es: seq<Event>)
    requires h.Valid() && !h.closing && Shows(s, h.box) && Run(s, es)
    modifies h
    ensures h.Valid() && !h.closing && Shows(After(s, es), h.box)
    decreases |es|
  {
    if es != [] {
      FollowStep(h, s, es[0]);
      Follow(h, Do(s, es[0]), es[1..]);
    }
  }

  /** A HUB AT REST SERVES NO DEAD DEVICE.  An empty hub that has followed a heard run to a
      settled state has no open outbox for a dead device, save those whose attach check
      failed. */
  method ServesNoDeadDevice(h: Hub, s: State, es: seq<Event>)
    requires h.Valid() && !h.closing && h.box == map[] && Init(s) && Run(s, es) && HeardRun(s, es)
    modifies h
    ensures h.Valid() && Shows(After(s, es), h.box)
    ensures var n := After(s, es);
            AllSettled(n) ==> forall i | i in Live(h.box) && Dead(n, h.box[i].device) :: Excused(n, i)
  {
    Follow(h, s, es);
    var n := After(s, es);
    forall i | i in Live(h.box) && Dead(n, h.box[i].device) ensures AllSettled(n) ==> Excused(n, i) {
      NoDeadSessionSurvives(s, es, i);
    }
  }
}
