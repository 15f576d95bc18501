/**
 What a clean comparison of a device with the log has to mean, and why sorting threads
 decides their half of it (internal/client/compare.go).
 */
module Compare {
  import opened MessageLog

  /** The part of a row that is compared. */
  datatype Entry = Entry(id: nat, conv: nat, seqNo: nat, logSeq: nat)

  function EntryOf(m: Row): Entry { Entry(m.id, m.conv, m.seqNo, m.logSeq) }

  datatype Slot = Slot(conv: nat, seqNo: nat)

  function SlotOf(m: Row): Slot { Slot(m.conv, m.seqNo) }

  datatype Report = Report(
    lost: seq<nat>, phantom: seq<nat>, duplicated: seq<nat>, mismatched: seq<nat>,
    seqConflicts: seq<Slot>, outOfOrder: seq<nat>)

  predicate Clean(r: Report) {
    |r.lost| + |r.phantom| + |r.duplicated| + |r.mismatched| + |r.seqConflicts| + |r.outOfOrder| == 0
  }

  // --- what clean has to mean ---------------------------------------------------------

  predicate Has(server: seq<Entry>, id: nat) { exists k | 0 <= k < |server| :: server[k].id == id }

  predicate Holds(ms: seq<Row>, id: nat) { exists k | 0 <= k < |ms| :: ms[k].id == id }

  /** The last entry under each id. */
  function Index(server: seq<Entry>): (found: map<nat, Entry>)
    ensures forall id :: id in found <==> Has(server, id)
    ensures forall id | id in found :: found[id].id == id && found[id] in server
  {
    if server == [] then map[]
    else
      var init, last := server[..|server| - 1], server[|server| - 1];
      assert server == init + [last];
      assert forall id :: Has(server, id) <==> Has(init, id) || id == last.id by {
        assert forall k | 0 <= k < |init| :: init[k] == server[k];
        assert server[|init|] == last;
      }
      Index(init)[last.id := last]
  }

  predicate NothingLost(server: seq<Entry>, ms: seq<Row>) { forall k | 0 <= k < |server| :: Holds(ms, server[k].id) }

  predicate NothingStray(server: seq<Entry>, ms: seq<Row>) {
    forall k | 0 <= k < |ms| :: ms[k].id in Index(server) && Index(server)[ms[k].id] == EntryOf(ms[k])
  }

  predicate Distinct(ids: seq<nat>) { forall i, j | 0 <= i < j < |ids| :: ids[i] != ids[j] }

  predicate OneIdPerSlot(ms: seq<Row>) { forall i, j | 0 <= i < j < |ms| && SlotOf(ms[i]) == SlotOf(ms[j]) :: ms[i].id == ms[j].id }

  /** Two messages of one thread are told apart by log_seq, and the ordinals agree. */
  predicate Compatible(a: Row, b: Row) {
    a.logSeq != b.logSeq && (a.seqNo < b.seqNo ==> a.logSeq < b.logSeq) && (b.seqNo < a.seqNo ==> b.logSeq < a.logSeq)
  }

  predicate Agree(th: seq<Row>) { forall i, j | 0 <= i < j < |th| :: Compatible(th[i], th[j]) }

  function Thread(ms: seq<Row>, conv: nat): (th: seq<Row>) {
    if ms == [] then [] else Thread(ms[..|ms| - 1], conv) + (if ms[|ms| - 1].conv == conv then [ms[|ms| - 1]] else [])
  }

  ghost predicate ThreadsAgree(ms: seq<Row>) { forall conv: nat :: Agree(Thread(ms, conv)) }

  /** What the report is to decide. */
  ghost predicate Exact(server: seq<Entry>, ms: seq<Row>, counted: seq<nat>) {
    NothingLost(server, ms) && NothingStray(server, ms) && Distinct(counted) && OneIdPerSlot(ms) && ThreadsAgree(ms)
  }

  predicate UniqueIds(server: seq<Entry>) { forall i, j | 0 <= i < j < |server| :: server[i].id != server[j].id }

  /** Over a log whose ids are unique, nothing lost and nothing stray is equality of the
      two sets of records. */
  lemma SameRecordsIff(server: seq<Entry>, ms: seq<Row>)
    requires UniqueIds(server)
    ensures NothingLost(server, ms) && NothingStray(server, ms) <==>
            forall e: Entry :: e in server <==>
              exists k | 0 <= k < |ms| :: ms[k].id == e.id && ms[k].conv == e.conv && ms[k].seqNo == e.seqNo && ms[k].logSeq == e.logSeq
  {
    forall e: Entry, k | 0 <= k < |ms|
      ensures EntryOf(ms[k]) == e <==> ms[k].id == e.id && ms[k].conv == e.conv && ms[k].seqNo == e.seqNo && ms[k].logSeq == e.logSeq
    {
    }
    if NothingLost(server, ms) && NothingStray(server, ms) {
      forall e: Entry ensures e in server <==> exists k :: 0 <= k < |ms| && EntryOf(ms[k]) == e {
        if e in server {
          HeldEntry(server, ms, e);
        }
      }
    }
    if forall e: Entry :: e in server <==> exists k :: 0 <= k < |ms| && EntryOf(ms[k]) == e {
      forall k | 0 <= k < |server| ensures Holds(ms, server[k].id) {
        assert server[k] in server;
      }
      forall k | 0 <= k < |ms| ensures ms[k].id in Index(server) && Index(server)[ms[k].id] == EntryOf(ms[k]) {
        assert EntryOf(ms[k]) in server;
        IndexFinds(server, EntryOf(ms[k]));
      }
    }
  }

  lemma IndexFinds(server: seq<Entry>, e: Entry)
    requires UniqueIds(server) && e in server
    ensures e.id in Index(server) && Index(server)[e.id] == e
  {
    var k :| 0 <= k < |server| && server[k] == e;
    assert Has(server, e.id);
  }

  lemma HeldEntry(server: seq<Entry>, ms: seq<Row>, e: Entry)
    requires UniqueIds(server) && NothingLost(server, ms)
    requires NothingStray(server, ms) && e in server
    ensures exists k :: 0 <= k < |ms| && EntryOf(ms[k]) == e
  {
    var i :| 0 <= i < |server| && server[i] == e;
    assert Holds(ms, server[i].id);
    var k :| 0 <= k < |ms| && ms[k].id == e.id;
    IndexFinds(server, e);
    assert EntryOf(ms[k]) == e;
  }

  // --- threads ----------------------------------------------------------------------------

  predicate Before(a: Row, b: Row) { a.seqNo < b.seqNo || (a.seqNo == b.seqNo && a.logSeq <= b.logSeq) }

  predicate Sorted(th: seq<Row>) { forall i, j | 0 <= i < j < |th| :: Before(th[i], th[j]) }

  function Insert(m: Row, th: seq<Row>): seq<Row> {
    if th == [] then [m]
    else if Before(th[|th| - 1], m) then th + [m]
    else Insert(m, th[..|th| - 1]) + [th[|th| - 1]]
  }

  /** The thread by seq, then by log_seq. */
  function Sort(th: seq<Row>): seq<Row> {
    if th == [] then [] else Insert(th[|th| - 1], Sort(th[..|th| - 1]))
  }

  predicate AllFit(th: seq<Row>, m: Row) { forall x | x in th :: Compatible(x, m) }

  lemma AgreeSnoc(th: seq<Row>, m: Row)
    ensures Agree(th + [m]) <==> Agree(th) && AllFit(th, m)
  {
    var more := th + [m];
    if Agree(more) {
      forall i, j | 0 <= i < j < |th| ensures Compatible(th[i], th[j]) { assert Compatible(more[i], more[j]); }
      forall x | x in th ensures Compatible(x, m) {
        var i :| 0 <= i < |th| && th[i] == x;
        assert Compatible(more[i], more[|th|]);
      }
    }
  }

  lemma {:induction false} InsertMembers(m: Row, th: seq<Row>, x: Row)
    ensures x in Insert(m, th) <==> x == m || x in th
  {
    if th != [] && !Before(th[|th| - 1], m) {
      InsertMembers(m, th[..|th| - 1], x);
      assert th == th[..|th| - 1] + [th[|th| - 1]];
    }
  }

  lemma {:induction false} InsertSorted(m: Row, th: seq<Row>)
    requires Sorted(th)
    ensures Sorted(Insert(m, th))
  {
    if th != [] && !Before(th[|th| - 1], m) {
      var init, last := th[..|th| - 1], th[|th| - 1];
      InsertSorted(m, init);
      var ins := Insert(m, init);
      forall i | 0 <= i < |ins| ensures Before(ins[i], last) {
        assert ins[i] in ins;
        InsertMembers(m, init, ins[i]);
      }
    }
  }

  lemma AllFitInsert(m: Row, th: seq<Row>, y: Row)
    ensures AllFit(Insert(m, th), y) <==> AllFit(th, y) && Compatible(m, y)
  {
    forall x ensures x in Insert(m, th) <==> x == m || x in th { InsertMembers(m, th, x); }
    if AllFit(Insert(m, th), y) {
      assert m in Insert(m, th);
      forall x | x in th ensures Compatible(x, y) { assert x in Insert(m, th); }
    }
  }

  lemma AllFitSnoc(th: seq<Row>, z: Row, m: Row)
    ensures AllFit(th + [z], m) <==> AllFit(th, m) && Compatible(z, m)
  {
    if AllFit(th + [z], m) {
      forall x | x in th + [z] ensures Compatible(x, m) {}
      assert z in th + [z];
      assert forall x | x in th :: x in th + [z];
    }
  }

  lemma {:induction false} InsertAgree(m: Row, th: seq<Row>)
    ensures Agree(Insert(m, th)) <==> Agree(th) && AllFit(th, m)
  {
    if th == [] {
      assert Agree([m]);
    } else {
      var init, last := th[..|th| - 1], th[|th| - 1];
      assert th == init + [last];
      AgreeSnoc(th, m);
      AgreeSnoc(init, last);
      AllFitSnoc(init, last, m);
      if !Before(last, m) {
        InsertAgree(m, init);
        AgreeSnoc(Insert(m, init), last);
        AllFitInsert(m, init, last);
      }
    }
  }

  lemma {:induction false} SortIsSorted(th: seq<Row>)
    ensures Sorted(Sort(th))
  {
    if th != [] {
      SortIsSorted(th[..|th| - 1]);
      InsertSorted(th[|th| - 1], Sort(th[..|th| - 1]));
    }
  }

  lemma {:induction false} SortMembers(th: seq<Row>, x: Row)
    ensures x in Sort(th) <==> x in th
  {
    if th != [] {
      SortMembers(th[..|th| - 1], x);
      InsertMembers(th[|th| - 1], Sort(th[..|th| - 1]), x);
      assert th == th[..|th| - 1] + [th[|th| - 1]];
    }
  }

  /** Sorting a thread changes nothing about whether its ordinals agree. */
  lemma {:induction false} SortAgree(th: seq<Row>)
    ensures Agree(Sort(th)) <==> Agree(th)
  {
    if th != [] {
      var init, last := th[..|th| - 1], th[|th| - 1];
      SortAgree(init);
      InsertAgree(last, Sort(init));
      AgreeSnoc(init, last);
      assert th == init + [last];
      forall x ensures x in Sort(init) <==> x in init { SortMembers(init, x); }
      assert AllFit(Sort(init), last) <==> AllFit(init, last);
    }
  }

  lemma {:induction false} ThreadMembers(ms: seq<Row>, conv: nat, x: Row)
    ensures x in Thread(ms, conv) <==> x in ms && x.conv == conv
  {
    if ms != [] {
      ThreadMembers(ms[..|ms| - 1], conv, x);
      assert ms == ms[..|ms| - 1] + [ms[|ms| - 1]];
    }
  }

  predicate Pairwise(ms: seq<Row>, conv: nat) {
    forall i, j | 0 <= i < j < |ms| && ms[i].conv == conv && ms[j].conv == conv :: Compatible(ms[i], ms[j])
  }

  lemma PairwiseSnoc(ms: seq<Row>, m: Row, conv: nat)
    ensures Pairwise(ms + [m], conv) <==> Pairwise(ms, conv) && (m.conv == conv ==> forall x | x in ms && x.conv == conv :: Compatible(x, m))
  {
    var more := ms + [m];
    if Pairwise(more, conv) {
      forall i, j | 0 <= i < j < |ms| && ms[i].conv == conv && ms[j].conv == conv ensures Compatible(ms[i], ms[j]) {
        assert Compatible(more[i], more[j]);
      }
      forall x | x in ms && x.conv == conv && m.conv == conv ensures Compatible(x, m) {
        var i :| 0 <= i < |ms| && ms[i] == x;
        assert Compatible(more[i], more[|ms|]);
      }
    }
  }

  lemma {:induction false} ThreadIsPairwise(ms: seq<Row>, conv: nat)
    ensures Agree(Thread(ms, conv)) <==> Pairwise(ms, conv)
  {
    if ms != [] {
      var init, last := ms[..|ms| - 1], ms[|ms| - 1];
      assert ms == init + [last];
      ThreadIsPairwise(init, conv);
      PairwiseSnoc(init, last, conv);
      AgreeSnoc(Thread(init, conv), last);
      forall x ensures x in Thread(init, conv) <==> x in init && x.conv == conv { ThreadMembers(init, conv, x); }
      assert AllFit(Thread(init, conv), last) <==> forall x | x in init && x.conv == conv :: Compatible(x, last);
      assert Thread(ms, conv) == Thread(init, conv) + if last.conv == conv then [last] else [];
      if last.conv != conv {
        assert Thread(ms, conv) == Thread(init, conv);
      }
    }
  }

  /** IN ORDER, IN THE ROWS' OWN FIELDS.  A conversation is in order exactly when any two of
      its rows differ in log_seq, and the one of the lower seq has the lower. */
  lemma ThreadAgreesIff(ms: seq<Row>, conv: nat)
    ensures Agree(Thread(ms, conv)) <==>
            forall i, j | 0 <= i < j < |ms| && ms[i].conv == conv && ms[j].conv == conv ::
              && ms[i].logSeq != ms[j].logSeq
              && (ms[i].seqNo < ms[j].seqNo ==> ms[i].logSeq < ms[j].logSeq)
              && (ms[j].seqNo < ms[i].seqNo ==> ms[j].logSeq < ms[i].logSeq)
  {
    ThreadIsPairwise(ms, conv);
  }

  predicate Ascends(th: seq<Row>) { forall i | 1 <= i < |th| :: th[i - 1].logSeq < th[i].logSeq }

  lemma {:induction false} AscendsPairwise(th: seq<Row>, i: nat, j: nat)
    requires Ascends(th) && i < j < |th|
    ensures th[i].logSeq < th[j].logSeq
    decreases j
  {
    if i + 1 < j {
      AscendsPairwise(th, i, j - 1);
    }
  }

  /** On a sorted thread the neighbours decide. */
  lemma AscendsIff(th: seq<Row>)
    requires Sorted(th)
    ensures Ascends(th) <==> Agree(th)
  {
    if Ascends(th) {
      forall i, j | 0 <= i < j < |th| ensures Compatible(th[i], th[j]) {
        AscendsPairwise(th, i, j);
        assert Before(th[i], th[j]);
      }
    }
    if Agree(th) {
      forall i | 1 <= i < |th| ensures th[i - 1].logSeq < th[i].logSeq {
        assert Compatible(th[i - 1], th[i]) && Before(th[i - 1], th[i]);
      }
    }
  }
}
