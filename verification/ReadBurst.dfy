/**
 The re-emission a read receipt causes, and the budget the receipts of one batch share
 (internal/hub/hub.go:213-245, 639-722).
 */
module ReadBurst {
  import opened Outbox
  import opened HubIndex
  import opened HubClass

  /** A row of the span a receipt covers. */
  datatype Msg = Msg(author: nat, conv: nat, seqNo: nat)

  datatype Batch = Alone | Of(batch: nat)

  /** What became of a row: re-emitted, shed because its author's budget was spent, or
      its author has no session here. */
  datatype Mark = Sent | Shed | Nobody

  /** The rows come newest first for each author. */
  predicate NewestFirst(msgs: seq<Msg>) {
    forall i, j | 0 <= i < j < |msgs| :: msgs[i].author == msgs[j].author ==> msgs[j].seqNo < msgs[i].seqNo
  }

  /** The rows re-emitted to author `a`, in order. */
  function Frames(msgs: seq<Msg>, marks: seq<Mark>, a: nat): seq<Frame>
    requires |marks| <= |msgs|
  {
    if marks == [] then [] else Frames(msgs, marks[..|marks| - 1], a) + FrameOf(msgs[|marks| - 1], marks[|marks| - 1], a)
  }

  function FrameOf(m: Msg, mark: Mark, a: nat): seq<Frame> {
    if mark.Sent? && m.author == a then [Message(a, m.conv, m.seqNo)] else []
  }

  lemma FramesSnoc(msgs: seq<Msg>, marks: seq<Mark>, m: Mark, a: nat)
    requires |marks| < |msgs|
    ensures Frames(msgs, marks + [m], a) == Frames(msgs, marks, a) + FrameOf(msgs[|marks|], m, a)
  {
    assert (marks + [m])[..|marks|] == marks;
  }

  /** WHICH MESSAGES THOSE ARE.  One frame for each row marked sent whose author is `a`, in
      the order of the rows, and each is that row's own message: `at` says where each stands. */
  lemma {:induction false} FramesAre(msgs: seq<Msg>, marks: seq<Mark>, a: nat) returns (at: seq<nat>)
    requires |marks| <= |msgs|
    ensures |at| == |Frames(msgs, marks, a)| && forall k, l | 0 <= k < l < |at| :: at[k] < at[l]
    ensures forall k | 0 <= k < |at| ::
              && at[k] < |marks| && marks[at[k]].Sent? && msgs[at[k]].author == a
              && Frames(msgs, marks, a)[k] == Message(a, msgs[at[k]].conv, msgs[at[k]].seqNo)
    ensures forall i | 0 <= i < |marks| && marks[i].Sent? && msgs[i].author == a :: i in at
    decreases |marks|
  {
    at := [];
    if marks != [] {
      var n := |marks| - 1;
      var init := FramesAre(msgs, marks[..n], a);
      at := init + if marks[n].Sent? && msgs[n].author == a then [n] else [];
      forall i | 0 <= i < |marks| && marks[i].Sent? && msgs[i].author == a ensures i in at {
        if i < n { assert marks[..n][i] == marks[i]; }
      }
    }
  }

  /** A session still open has all of them, and nothing else. */
  lemma SentAreSeen(first: Boxes, box: Boxes, msgs: seq<Msg>, marks: seq<Mark>)
    requires |marks| <= |msgs| && Served(first, box, msgs, marks)
    ensures forall k | k in box && !box[k].closed :: Seen(box[k]) == Seen(first[k]) + Frames(msgs, marks, box[k].user)
    ensures forall i, k | 0 <= i < |marks| && k in box && !box[k].closed && box[k].user == msgs[i].author && marks[i].Sent? ::
              Message(msgs[i].author, msgs[i].conv, msgs[i].seqNo) in Seen(box[k])
  {
    forall k | k in box && !box[k].closed ensures Seen(box[k]) == Seen(first[k]) + Frames(msgs, marks, box[k].user) {
      assert HasRows(first, box, msgs, marks, k);
    }
    forall i, k | 0 <= i < |marks| && k in box && !box[k].closed && box[k].user == msgs[i].author && marks[i].Sent?
      ensures Message(msgs[i].author, msgs[i].conv, msgs[i].seqNo) in Seen(box[k])
    {
      assert HasRows(first, box, msgs, marks, k);
      var at := FramesAre(msgs, marks, msgs[i].author);
      var j :| 0 <= j < |at| && at[j] == i;
      assert Frames(msgs, marks, msgs[i].author)[j] in Frames(msgs, marks, msgs[i].author);
    }
  }

  /** Why a row was not sent. */
  lemma Unsent(first: Boxes, box: Boxes, spent: map<nat, nat>, msgs: seq<Msg>, marks: seq<Mark>)
    requires |marks| <= |msgs| && Served(first, box, msgs, marks) && ShedLast(spent, msgs, marks)
    ensures forall i | 0 <= i < |marks| && marks[i].Shed? :: msgs[i].author in spent && spent[msgs[i].author] == 64
    ensures forall i, k | 0 <= i < |marks| && marks[i].Nobody? && k in box && box[k].user == msgs[i].author :: box[k].closed
  {
    forall i, k | 0 <= i < |marks| && marks[i].Nobody? && k in box && box[k].user == msgs[i].author ensures box[k].closed {
      assert Absent(box, msgs[i].author);
    }
  }

  /** Over the payloads of a batch. */
  function Total(payloads: seq<seq<Msg>>, marks: seq<seq<Mark>>, a: nat): nat
    requires |marks| <= |payloads| && forall k | 0 <= k < |marks| :: |marks[k]| <= |payloads[k]|
  {
    if marks == [] then 0
    else Total(payloads, marks[..|marks| - 1], a) + |Frames(payloads[|marks| - 1], marks[|marks| - 1], a)|
  }

  lemma TotalSnoc(ps: seq<seq<Msg>>, ms: seq<seq<Mark>>, m: seq<Mark>, a: nat)
    requires |ms| < |ps| && (forall k | 0 <= k < |ms| :: |ms[k]| <= |ps[k]|)
    requires |m| <= |ps[|ms|]|
    ensures forall k | 0 <= k < |ms + [m]| :: |(ms + [m])[k]| <= |ps[k]|
    ensures Total(ps, ms + [m], a) == Total(ps, ms, a) + |Frames(ps[|ms|], m, a)|
  {
    assert (ms + [m])[..|ms|] == ms;
  }

  // --- the budget ------------------------------------------------------------------------

  function Spend(spent: map<nat, nat>, a: nat): nat { if a in spent then spent[a] else 0 }

  /** What is spent is what was spent before plus what was sent. */
  ghost predicate Charged(first: map<nat, nat>, spent: map<nat, nat>, msgs: seq<Msg>, marks: seq<Mark>)
    requires |marks| <= |msgs|
  {
    forall a: nat :: Spend(spent, a) == Spend(first, a) + |Frames(msgs, marks, a)|
  }

  predicate Capped(spent: map<nat, nat>) { forall a | a in spent :: spent[a] <= READ_NOTIFY_CAP }

  /** A row is shed only once its author's budget is spent, and after every row sent to
      that author. */
  predicate ShedLast(spent: map<nat, nat>, msgs: seq<Msg>, marks: seq<Mark>)
    requires |marks| <= |msgs|
  {
    && (forall j | 0 <= j < |marks| :: marks[j].Shed? ==> Spend(spent, msgs[j].author) == READ_NOTIFY_CAP)
    && (forall i, j | 0 <= i < |marks| && 0 <= j < |marks| ::
          marks[i].Sent? && marks[j].Shed? && msgs[i].author == msgs[j].author ==> i < j)
  }

  /** The decision on one row. */
  function Decide(spent: map<nat, nat>, a: nat, here: bool): Mark {
    if !here then Nobody else if Spend(spent, a) >= READ_NOTIFY_CAP then Shed else Sent
  }

  function Charge(spent: map<nat, nat>, a: nat, m: Mark): map<nat, nat> { if m.Sent? then spent[a := Spend(spent, a) + 1] else spent }

  lemma ChargeOne(first: map<nat, nat>, spent: map<nat, nat>, msgs: seq<Msg>, marks: seq<Mark>, here: bool)
    requires |marks| < |msgs| && Charged(first, spent, msgs, marks)
    ensures var a := msgs[|marks|].author; var m := Decide(spent, a, here);
            Charged(first, Charge(spent, a, m), msgs, marks + [m])
  {
    var a := msgs[|marks|].author;
    var m := Decide(spent, a, here);
    forall b: nat ensures Spend(Charge(spent, a, m), b) == Spend(first, b) + |Frames(msgs, marks + [m], b)| {
      FramesSnoc(msgs, marks, m, b);
    }
  }

  lemma ShedOne(spent: map<nat, nat>, msgs: seq<Msg>, marks: seq<Mark>, here: bool)
    requires |marks| < |msgs| && Capped(spent) && ShedLast(spent, msgs, marks)
    ensures var a := msgs[|marks|].author; var m := Decide(spent, a, here);
            Capped(Charge(spent, a, m)) && ShedLast(Charge(spent, a, m), msgs, marks + [m])
  {
    var a := msgs[|marks|].author;
    var m := Decide(spent, a, here);
    var ns := marks + [m];
    forall j | 0 <= j < |ns| && ns[j].Shed? ensures Spend(Charge(spent, a, m), msgs[j].author) == READ_NOTIFY_CAP {
      assert j < |marks| ==> marks[j] == ns[j];
    }
    forall i, j | 0 <= i < |ns| && 0 <= j < |ns| && ns[i].Sent? && ns[j].Shed? && msgs[i].author == msgs[j].author ensures i < j {
      assert j < |marks| ==> marks[j] == ns[j];
      assert i < |marks| ==> marks[i] == ns[i];
    }
  }

  // --- the fan-out -----------------------------------------------------------------------

  predicate Absent(box: Boxes, a: nat) { forall k | k in box :: box[k].user == a ==> box[k].closed }

  /** The sessions have got the rows sent to their users, and nobody is passed over. */
  predicate Served(first: Boxes, box: Boxes, msgs: seq<Msg>, marks: seq<Mark>)
    requires |marks| <= |msgs|
  {
    && box.Keys == first.Keys
    && (forall k {:trigger HasRows(first, box, msgs, marks, k)} | k in box :: HasRows(first, box, msgs, marks, k))
    && (forall i | 0 <= i < |marks| :: marks[i].Nobody? ==> Absent(box, msgs[i].author))
  }

  /** Session `k` was handed the rows sent to its user, in order. */
  predicate HasRows(first: Boxes, box: Boxes, msgs: seq<Msg>, marks: seq<Mark>, k: nat)
    requires |marks| <= |msgs| && k in first && k in box
  {
    Got(first[k], box[k], Frames(msgs, marks, first[k].user))
  }

  lemma ServedNone(box: Boxes, msgs: seq<Msg>)
    ensures Served(box, box, msgs, [])
  {
    forall k | k in box ensures HasRows(box, box, msgs, [], k) { GotNothing(box[k]); }
  }

  /** What handing one row to its author's open sessions does to the outboxes. */
  predicate HandedTo(before: Boxes, box: Boxes, m: Msg, mark: Mark) {
    if mark.Sent? then GaveEach(before, box, OpenOf(before, m.author), FrameOf(m, Sent, m.author)) else box == before
  }

  lemma GotOne(a: Box<Frame>, b: Box<Frame>, c: Box<Frame>, msgs: seq<Msg>, marks: seq<Mark>, mark: Mark)
    requires |marks| < |msgs| && Got(a, b, Frames(msgs, marks, a.user))
    requires if mark.Sent? && b.user == msgs[|marks|].author && !b.closed
             then Got(b, c, FrameOf(msgs[|marks|], Sent, msgs[|marks|].author)) else c == b
    ensures Got(a, c, Frames(msgs, marks + [mark], a.user))
  {
    var fs := FrameOf(msgs[|marks|], mark, a.user);
    if fs == [] {
      GotNothing(b);
    }
    assert Got(b, c, fs);
    GotTwice(a, b, c, Frames(msgs, marks, a.user), fs);
    FramesSnoc(msgs, marks, mark, a.user);
  }

  lemma ServeOne(first: Boxes, before: Boxes, box: Boxes, msgs: seq<Msg>, marks: seq<Mark>, mark: Mark)
    requires |marks| < |msgs| && Served(first, before, msgs, marks)
    requires HandedTo(before, box, msgs[|marks|], mark)
    requires mark.Nobody? ==> Absent(before, msgs[|marks|].author)
    ensures Served(first, box, msgs, marks + [mark])
  {
    if mark.Sent? {
      GaveIs(before, box, OpenOf(before, msgs[|marks|].author), FrameOf(msgs[|marks|], Sent, msgs[|marks|].author));
    }
    forall k | k in box ensures HasRows(first, box, msgs, marks + [mark], k) {
      assert HasRows(first, before, msgs, marks, k);
      GotOne(first[k], before[k], box[k], msgs, marks, mark);
    }
    StaysAbsent(before, box, msgs, marks, mark);
  }

  lemma StaysAbsent(before: Boxes, box: Boxes, msgs: seq<Msg>, marks: seq<Mark>, mark: Mark)
    requires |marks| < |msgs| && HandedTo(before, box, msgs[|marks|], mark)
    requires forall i | 0 <= i < |marks| :: marks[i].Nobody? ==> Absent(before, msgs[i].author)
    requires mark.Nobody? ==> Absent(before, msgs[|marks|].author)
    ensures forall i | 0 <= i < |marks + [mark]| :: (marks + [mark])[i].Nobody? ==> Absent(box, msgs[i].author)
  {
    if mark.Sent? {
      GaveIs(before, box, OpenOf(before, msgs[|marks|].author), FrameOf(msgs[|marks|], Sent, msgs[|marks|].author));
    }
    forall a | Absent(before, a) ensures Absent(box, a) {}
  }

  /** One row as decided: onto each open session of its author, or onto none. */
  method OnRow(hub: Hub, msgs: seq<Msg>, marks: seq<Mark>, mark: Mark, ghost first: Boxes)
    requires hub.Valid() && |marks| < |msgs| && Served(first, hub.box, msgs, marks)
    requires mark.Nobody? ==> Absent(hub.box, msgs[|marks|].author)
    modifies hub`index, hub`box, hub`count, hub`drained, hub`asked
    ensures hub.Valid() && Served(first, hub.box, msgs, marks + [mark])
  {
    var m := msgs[|marks|];
    ghost var before := hub.box;
    if mark.Sent? {
      hub.EnqueueUser(m.author, FrameOf(m, Sent, m.author));
    }
    ServeOne(first, before, hub.box, msgs, marks, mark);
  }

  /** The hub's one slot: which batch it is spending for, and how much on each author. */
  class Receipts {
    var slot: Batch
    var spent: map<nat, nat>

    predicate Valid()
      reads this
    {
      Capped(spent)
    }

    /** What `batch` has spent so far. */
    function SpentFor(batch: Batch): map<nat, nat>
      reads this
    {
      if batch == slot then spent else map[]
    }

    constructor ()
      ensures Valid() && slot == Alone
    {
      slot, spent := Alone, map[];
    }

    /** A payload of a batch.  What it sends is charged to the batch's budget and nobody
        is ever over the cap; each author's open sessions get the rows sent, in order. */
    method OnBatched(hub: Hub, batch: nat, msgs: seq<Msg>) returns (marks: seq<Mark>)
      requires Valid() && hub.Valid()
      modifies this, hub`index, hub`box, hub`count, hub`drained, hub`asked
      ensures Valid() && hub.Valid() && slot == Of(batch) && |marks| == |msgs|
      ensures Charged(old(SpentFor(Of(batch))), spent, msgs, marks)
      ensures ShedLast(spent, msgs, marks)
      ensures forall i | 0 <= i < |msgs| && marks[i].Shed? :: msgs[i].author in spent && spent[msgs[i].author] == 64
      ensures forall i, k | 0 <= i < |msgs| && marks[i].Nobody? && k in hub.box && hub.box[k].user == msgs[i].author :: hub.box[k].closed
      ensures Served(old(hub.box), hub.box, msgs, marks)
      ensures forall k | k in hub.box && !hub.box[k].closed :: Seen(hub.box[k]) == Seen(old(hub.box)[k]) + Frames(msgs, marks, hub.box[k].user)
      ensures forall i, k | 0 <= i < |msgs| && k in hub.box && !hub.box[k].closed && hub.box[k].user == msgs[i].author && marks[i].Sent? ::
                Message(msgs[i].author, msgs[i].conv, msgs[i].seqNo) in Seen(hub.box[k])
    {
      if slot != Of(batch) {
        slot, spent := Of(batch), map[];
      }
      ghost var first := spent;
      marks := [];
      ServedNone(hub.box, msgs);
      while |marks| < |msgs|
        invariant |marks| <= |msgs| && slot == Of(batch) && Valid() && hub.Valid()
        invariant Charged(first, spent, msgs, marks) && ShedLast(spent, msgs, marks)
        invariant Served(old(hub.box), hub.box, msgs, marks)
      {
        var a := msgs[|marks|].author;
        var here := hub.HasSession(a);
        var m := Decide(spent, a, here);
        ChargeOne(first, spent, msgs, marks, here);
        ShedOne(spent, msgs, marks, here);
        spent := Charge(spent, a, m);
        OnRow(hub, msgs, marks, m, old(hub.box));
        marks := marks + [m];
      }
      SentAreSeen(old(hub.box), hub.box, msgs, marks);
      Unsent(old(hub.box), hub.box, spent, msgs, marks);
    }

    /** A receipt that stands alone is bounded by its query only: nothing is shed. */
    method OnAlone(hub: Hub, msgs: seq<Msg>) returns (marks: seq<Mark>)
      requires hub.Valid()
      modifies hub`index, hub`box, hub`count, hub`drained, hub`asked
      ensures hub.Valid() && |marks| == |msgs| && Shed !in marks
      ensures Served(old(hub.box), hub.box, msgs, marks)
      ensures forall k | k in hub.box && !hub.box[k].closed :: Seen(hub.box[k]) == Seen(old(hub.box)[k]) + Frames(msgs, marks, hub.box[k].user)
      ensures forall i, k | 0 <= i < |msgs| && k in hub.box && !hub.box[k].closed && hub.box[k].user == msgs[i].author && marks[i].Sent? ::
                Message(msgs[i].author, msgs[i].conv, msgs[i].seqNo) in Seen(hub.box[k])
    {
      marks := [];
      ServedNone(hub.box, msgs);
      while |marks| < |msgs|
        invariant |marks| <= |msgs| && hub.Valid() && Shed !in marks
        invariant Served(old(hub.box), hub.box, msgs, marks)
      {
        var a := msgs[|marks|].author;
        var here := hub.HasSession(a);
        var m := if here then Sent else Nobody;
        OnRow(hub, msgs, marks, m, old(hub.box));
        marks := marks + [m];
      }
      SentAreSeen(old(hub.box), hub.box, msgs, marks);
    }

    /** A run of consecutive payloads of one batch: each author is re-emitted at most the
        cap in total, however many rooms the batch covers. */
    method OnBatch(hub: Hub, batch: nat, payloads: seq<seq<Msg>>) returns (all: seq<seq<Mark>>)
      requires Valid() && hub.Valid()
      modifies this, hub`index, hub`box, hub`count, hub`drained, hub`asked
      ensures Valid() && hub.Valid() && |all| == |payloads|
      ensures forall k | 0 <= k < |all| :: |all[k]| <= |payloads[k]|
      ensures forall a: nat :: Total(payloads, all, a) <= 64
    {
      all := [];
      while |all| < |payloads|
        invariant Marked(payloads, all) && Valid() && hub.Valid()
        invariant Within(SpentFor(Of(batch)), payloads, all)
      {
        ghost var before := SpentFor(Of(batch));
        var marks := OnBatched(hub, batch, payloads[|all|]);
        MoreSpent(before, spent, payloads, all, marks);
        all := all + [marks];
      }
      assert Capped(SpentFor(Of(batch)));
      WithinCap(SpentFor(Of(batch)), payloads, all);
    }
  }

  ghost predicate Marked(payloads: seq<seq<Msg>>, all: seq<seq<Mark>>) {
    |all| <= |payloads| && forall k | 0 <= k < |all| :: |all[k]| <= |payloads[k]|
  }

  /** What the payloads re-emitted is within what their batch has spent. */
  ghost predicate Within(spent: map<nat, nat>, payloads: seq<seq<Msg>>, all: seq<seq<Mark>>)
    requires Marked(payloads, all)
  {
    forall a: nat :: Total(payloads, all, a) <= Spend(spent, a)
  }

  lemma MoreSpent(before: map<nat, nat>, spent: map<nat, nat>, ps: seq<seq<Msg>>, all: seq<seq<Mark>>, marks: seq<Mark>)
    requires |all| < |ps| && Marked(ps, all) && |marks| == |ps[|all|]|
    requires Within(before, ps, all)
    requires Charged(before, spent, ps[|all|], marks)
    ensures Marked(ps, all + [marks]) && Within(spent, ps, all + [marks])
  {
    TotalSnoc(ps, all, marks, 0);
    forall a: nat ensures Total(ps, all + [marks], a) <= Spend(spent, a) {
      TotalSnoc(ps, all, marks, a);
      assert Total(ps, all, a) <= Spend(before, a);
    }
  }

  lemma WithinCap(spent: map<nat, nat>, payloads: seq<seq<Msg>>, all: seq<seq<Mark>>)
    requires Marked(payloads, all) && Within(spent, payloads, all) && Capped(spent)
    ensures forall a: nat :: Total(payloads, all, a) <= READ_NOTIFY_CAP
  {
    forall a: nat ensures Total(payloads, all, a) <= READ_NOTIFY_CAP {
      assert Total(payloads, all, a) <= Spend(spent, a);
    }
  }

  /** What is shed is always older than what was sent to the same author. */
  lemma ShedIsOlder(spent: map<nat, nat>, msgs: seq<Msg>, marks: seq<Mark>, i: nat, j: nat)
    requires |marks| == |msgs| && NewestFirst(msgs) && ShedLast(spent, msgs, marks)
    requires i < |marks| && j < |marks| && marks[i].Sent? && marks[j].Shed?
    requires msgs[i].author == msgs[j].author
    ensures msgs[j].seqNo < msgs[i].seqNo
  {
    assert i < j;
  }
}
