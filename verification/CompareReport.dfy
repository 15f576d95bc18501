/**
 `Compare` itself, loop by loop, and the two things it is for: a clean report means the
 journal is exactly the server's log, and the protocol earns one.
 */
module CompareReport {
  import opened MessageLog
  import opened Compare
  import ClientSync
  import SyncRun
  import SyncSteps
  import SyncTheorems

  lemma HasSnoc(server: seq<Entry>, n: nat, id: nat)
    requires n < |server|
    ensures Has(server[..n + 1], id) <==> Has(server[..n], id) || server[n].id == id
  {
    assert server[..n + 1] == server[..n] + [server[n]];
    assert server[..n + 1][n] == server[n];
    assert forall k | 0 <= k < n :: server[..n + 1][k] == server[..n][k];
  }

  lemma HoldsSnoc(ms: seq<Row>, n: nat, id: nat)
    requires n < |ms|
    ensures Holds(ms[..n + 1], id) <==> Holds(ms[..n], id) || ms[n].id == id
  {
    assert ms[..n + 1][n] == ms[n];
    assert forall k | 0 <= k < n :: ms[..n + 1][k] == ms[..n][k];
  }

  method IndexOf(server: seq<Entry>) returns (committed: map<nat, Entry>)
    ensures committed == Index(server)
  {
    committed := map[];
    var n := 0;
    while n < |server|
      invariant 0 <= n <= |server| && committed == Index(server[..n])
    {
      assert server[..n + 1][..n] == server[..n];
      committed := committed[server[n].id := server[n]];
      n := n + 1;
    }
    assert server[..n] == server;
  }

  method HeldBy(ms: seq<Row>) returns (held: map<nat, Row>)
    ensures forall id :: id in held <==> Holds(ms, id)
  {
    held := map[];
    var n := 0;
    while n < |ms|
      invariant 0 <= n <= |ms|
      invariant forall id :: id in held <==> Holds(ms[..n], id)
    {
      forall id ensures Holds(ms[..n + 1], id) <==> Holds(ms[..n], id) || ms[n].id == id { HoldsSnoc(ms, n, id); }
      held := held[ms[n].id := ms[n]];
      n := n + 1;
    }
    assert ms[..n] == ms;
  }

  /** Committed and not held. */
  method FindLost(server: seq<Entry>, ms: seq<Row>, held: map<nat, Row>) returns (lost: seq<nat>)
    requires forall id :: id in held <==> Holds(ms, id)
    ensures forall id :: id in lost <==> Has(server, id) && !Holds(ms, id)
  {
    lost := [];
    var n := 0;
    while n < |server|
      invariant 0 <= n <= |server|
      invariant forall id :: id in lost <==> Has(server[..n], id) && !Holds(ms, id)
    {
      forall id ensures Has(server[..n + 1], id) <==> Has(server[..n], id) || server[n].id == id { HasSnoc(server, n, id); }
      if server[n].id !in held {
        lost := lost + [server[n].id];
      }
      n := n + 1;
    }
    assert server[..n] == server;
  }

  /** Held differently from how it was committed. */
  predicate Mismatch(committed: map<nat, Entry>, ms: seq<Row>, id: nat) {
    exists k | 0 <= k < |ms| :: ms[k].id == id && id in committed && committed[id] != EntryOf(ms[k])
  }

  lemma MismatchSnoc(committed: map<nat, Entry>, ms: seq<Row>, n: nat, id: nat)
    requires n < |ms|
    ensures Mismatch(committed, ms[..n + 1], id) <==>
            Mismatch(committed, ms[..n], id) || (ms[n].id == id && id in committed && committed[id] != EntryOf(ms[n]))
  {
    assert ms[..n + 1][n] == ms[n];
    assert forall k | 0 <= k < n :: ms[..n + 1][k] == ms[..n][k];
  }

  method FindStrays(ms: seq<Row>, committed: map<nat, Entry>) returns (phantom: seq<nat>, mismatched: seq<nat>)
    ensures forall id :: id in phantom <==> Holds(ms, id) && id !in committed
    ensures forall id :: id in mismatched <==> Mismatch(committed, ms, id)
  {
    phantom, mismatched := [], [];
    var n := 0;
    while n < |ms|
      invariant 0 <= n <= |ms|
      invariant forall id :: id in phantom <==> Holds(ms[..n], id) && id !in committed
      invariant forall id :: id in mismatched <==> Mismatch(committed, ms[..n], id)
    {
      forall id ensures Holds(ms[..n + 1], id) <==> Holds(ms[..n], id) || ms[n].id == id { HoldsSnoc(ms, n, id); }
      forall id ensures Mismatch(committed, ms[..n + 1], id) <==>
                        Mismatch(committed, ms[..n], id) || (ms[n].id == id && id in committed && committed[id] != EntryOf(ms[n]))
      {
        MismatchSnoc(committed, ms, n, id);
      }
      if ms[n].id !in committed {
        phantom := phantom + [ms[n].id];
      } else if committed[ms[n].id] != EntryOf(ms[n]) {
        mismatched := mismatched + [ms[n].id];
      }
      n := n + 1;
    }
    assert ms[..n] == ms;
  }

  predicate Twice(ids: seq<nat>, id: nat) { exists i, j | 0 <= i < j < |ids| :: ids[i] == id && ids[j] == id }

  lemma TwiceSnoc(ids: seq<nat>, n: nat, id: nat)
    requires n < |ids|
    ensures Twice(ids[..n + 1], id) <==> Twice(ids[..n], id) || (ids[n] == id && id in ids[..n])
  {
    var a, b := ids[..n], ids[..n + 1];
    assert forall k | 0 <= k < n :: b[k] == a[k];
    assert b[n] == ids[n];
    if ids[n] == id && id in a {
      var i :| 0 <= i < n && a[i] == id;
      assert b[i] == id && b[n] == id;
    }
  }

  /** Counted more than once. */
  method FindDuplicates(counted: seq<nat>) returns (duplicated: seq<nat>)
    ensures forall id :: id in duplicated <==> Twice(counted, id)
  {
    duplicated := [];
    var counts: map<nat, nat> := map[];
    var n := 0;
    while n < |counted|
      invariant 0 <= n <= |counted|
      invariant forall id :: id in counts <==> id in counted[..n]
      invariant forall id | id in counts :: counts[id] >= 1 && (counts[id] >= 2 <==> Twice(counted[..n], id))
      invariant forall id :: Twice(counted[..n], id) ==> id in counts
      invariant forall id :: id in duplicated <==> Twice(counted[..n], id)
    {
      var x := counted[n];
      forall id ensures Twice(counted[..n + 1], id) <==> Twice(counted[..n], id) || (x == id && id in counted[..n]) {
        TwiceSnoc(counted, n, id);
      }
      assert counted[..n + 1] == counted[..n] + [x];
      counts := counts[x := (if x in counts then counts[x] else 0) + 1];
      if counts[x] == 2 {
        duplicated := duplicated + [x];
      }
      n := n + 1;
    }
    assert counted[..n] == counted;
  }

  /** Two of the first `n` rows with different ids share the slot. */
  predicate Conflicted(ms: seq<Row>, n: nat, t: Slot)
    requires n <= |ms|
  {
    exists i, j | 0 <= i < j < n :: SlotOf(ms[i]) == t && SlotOf(ms[j]) == t && ms[i].id != ms[j].id
  }

  /** After `n` rows: `at` has an id of each slot, the only one unless the slot is listed. */
  ghost predicate Filed(ms: seq<Row>, n: nat, at: map<Slot, nat>, conflicts: seq<Slot>)
    requires n <= |ms|
  {
    && (forall k | 0 <= k < n :: SlotOf(ms[k]) in at && (SlotOf(ms[k]) in conflicts || at[SlotOf(ms[k])] == ms[k].id))
    && (forall t | t in at :: exists k :: 0 <= k < n && SlotOf(ms[k]) == t && ms[k].id == at[t])
    && (forall t :: t in conflicts <==> Conflicted(ms, n, t))
  }

  lemma FileClash(ms: seq<Row>, n: nat, at: map<Slot, nat>, conflicts: seq<Slot>)
    requires n < |ms| && Filed(ms, n, at, conflicts) && SlotOf(ms[n]) in at && at[SlotOf(ms[n])] != ms[n].id
    ensures Filed(ms, n + 1, at, conflicts + [SlotOf(ms[n])])
  {
    var t := SlotOf(ms[n]);
    var k :| 0 <= k < n && SlotOf(ms[k]) == t && ms[k].id == at[t];
    forall s ensures s in conflicts + [t] <==> Conflicted(ms, n + 1, s) { ClashSnoc(ms, n, k, s); }
    forall s | s in at ensures exists i :: 0 <= i < n + 1 && SlotOf(ms[i]) == s && ms[i].id == at[s] {
      var i :| 0 <= i < n && SlotOf(ms[i]) == s && ms[i].id == at[s];
    }
  }

  lemma ClashSnoc(ms: seq<Row>, n: nat, k: nat, s: Slot)
    requires k < n < |ms| && SlotOf(ms[k]) == SlotOf(ms[n]) && ms[k].id != ms[n].id
    ensures Conflicted(ms, n + 1, s) <==> Conflicted(ms, n, s) || s == SlotOf(ms[n])
  {
    if s == SlotOf(ms[n]) {
      assert SlotOf(ms[k]) == s && SlotOf(ms[n]) == s;
    } else if Conflicted(ms, n + 1, s) {
      var i, j :| 0 <= i < j < n + 1 && SlotOf(ms[i]) == s && SlotOf(ms[j]) == s && ms[i].id != ms[j].id;
      assert j < n;
    }
  }

  lemma FileRow(ms: seq<Row>, n: nat, at: map<Slot, nat>, conflicts: seq<Slot>)
    requires n < |ms| && Filed(ms, n, at, conflicts) && (SlotOf(ms[n]) in at ==> at[SlotOf(ms[n])] == ms[n].id)
    ensures Filed(ms, n + 1, at[SlotOf(ms[n]) := ms[n].id], conflicts)
  {
    var t := SlotOf(ms[n]);
    var more := at[t := ms[n].id];
    forall s ensures s in conflicts <==> Conflicted(ms, n + 1, s) {
      assert Conflicted(ms, n, s) ==> Conflicted(ms, n + 1, s);
    }
    forall s | s in more ensures exists k :: 0 <= k < n + 1 && SlotOf(ms[k]) == s && ms[k].id == more[s] {
      if s == t {
        assert SlotOf(ms[n]) == s && ms[n].id == more[s];
      } else {
        var i :| 0 <= i < n && SlotOf(ms[i]) == s && ms[i].id == at[s];
      }
    }
  }

  /** Two ids in one slot of a thread. */
  method FindConflicts(ms: seq<Row>) returns (conflicts: seq<Slot>)
    ensures forall t :: t in conflicts <==> Conflicted(ms, |ms|, t)
  {
    conflicts := [];
    var at: map<Slot, nat> := map[];
    var n := 0;
    while n < |ms|
      invariant 0 <= n <= |ms| && Filed(ms, n, at, conflicts)
    {
      var t := SlotOf(ms[n]);
      if t in at && at[t] != ms[n].id {
        FileClash(ms, n, at, conflicts);
        conflicts := conflicts + [t];
      } else {
        FileRow(ms, n, at, conflicts);
        at := at[t := ms[n].id];
      }
      n := n + 1;
    }
  }

  /** In the rows' own fields. */
  lemma ConflictedIff(ms: seq<Row>, t: Slot)
    ensures Conflicted(ms, |ms|, t) <==>
            exists i, j | 0 <= i < j < |ms| :: ms[i].conv == ms[j].conv == t.conv && ms[i].seqNo == ms[j].seqNo == t.seqNo && ms[i].id != ms[j].id
  {
    if i, j :| 0 <= i < j < |ms| && ms[i].conv == ms[j].conv == t.conv && ms[i].seqNo == ms[j].seqNo == t.seqNo && ms[i].id != ms[j].id {
      assert SlotOf(ms[i]) == t && SlotOf(ms[j]) == t;
    }
  }

  lemma NoneConflicted(ms: seq<Row>, conflicts: seq<Slot>)
    requires forall t :: t in conflicts <==> Conflicted(ms, |ms|, t)
    ensures conflicts == [] <==> OneIdPerSlot(ms)
  {
    if conflicts != [] {
      assert conflicts[0] in conflicts;
    } else {
      forall i, j | 0 <= i < j < |ms| && SlotOf(ms[i]) == SlotOf(ms[j]) ensures ms[i].id == ms[j].id {
        assert !Conflicted(ms, |ms|, SlotOf(ms[i]));
      }
    }
  }

  /** Whether a thread, read in seq order, fails to ascend in log_seq. */
  method Disordered(th: seq<Row>) returns (bad: bool)
    ensures bad <==> !Agree(th)
  {
    var sorted := Sort(th);
    SortIsSorted(th);
    SortAgree(th);
    AscendsIff(sorted);
    var i := 1;
    while i < |sorted|
      invariant 1 <= i && (i <= |sorted| || |sorted| == 0)
      invariant forall k | 1 <= k < i && k < |sorted| :: sorted[k - 1].logSeq < sorted[k].logSeq
    {
      if sorted[i].logSeq <= sorted[i - 1].logSeq {
        return true;
      }
      i := i + 1;
    }
    return false;
  }

  lemma ThreadSnoc(ms: seq<Row>, n: nat, conv: nat)
    requires n < |ms|
    ensures Thread(ms[..n + 1], conv) == Thread(ms[..n], conv) + (if ms[n].conv == conv then [ms[n]] else [])
  {
    assert ms[..n + 1][..n] == ms[..n] && ms[..n + 1][n] == ms[n];
  }

  predicate ThreadsOf(threads: map<nat, seq<Row>>, ms: seq<Row>, conv: nat) {
    if conv in threads then threads[conv] == Thread(ms, conv) else Thread(ms, conv) == []
  }

  method SplitThreads(ms: seq<Row>) returns (threads: map<nat, seq<Row>>)
    ensures forall conv :: ThreadsOf(threads, ms, conv)
  {
    threads := map[];
    var n := 0;
    while n < |ms|
      invariant 0 <= n <= |ms|
      invariant forall conv :: ThreadsOf(threads, ms[..n], conv)
    {
      var c := ms[n].conv;
      ghost var before := threads;
      assert ThreadsOf(before, ms[..n], c);
      threads := threads[c := (if c in threads then threads[c] else []) + [ms[n]]];
      ghost var more := ms[..n + 1];
      forall conv ensures ThreadsOf(threads, more, conv) {
        ThreadSnoc(ms, n, conv);
        assert ThreadsOf(before, ms[..n], conv);
      }
      n := n + 1;
    }
    assert ms[..n] == ms;
  }

  method FindDisorder(ms: seq<Row>) returns (outOfOrder: seq<nat>)
    ensures forall conv :: conv in outOfOrder <==> !Agree(Thread(ms, conv))
  {
    outOfOrder := [];
    var threads := SplitThreads(ms);
    var todo := threads.Keys;
    while todo != {}
      invariant todo <= threads.Keys
      invariant forall conv :: conv in outOfOrder <==> conv in threads && conv !in todo && !Agree(Thread(ms, conv))
    {
      var c :| c in todo;
      assert ThreadsOf(threads, ms, c);
      var bad := Disordered(threads[c]);
      if bad {
        outOfOrder := outOfOrder + [c];
      }
      todo := todo - {c};
    }
    forall conv ensures conv in outOfOrder <==> !Agree(Thread(ms, conv)) {
      assert ThreadsOf(threads, ms, conv);
    }
  }

  lemma NoneLost(server: seq<Entry>, ms: seq<Row>, lost: seq<nat>)
    requires forall id :: id in lost <==> Has(server, id) && !Holds(ms, id)
    ensures lost == [] <==> NothingLost(server, ms)
  {
    if lost == [] {
      forall k | 0 <= k < |server| ensures Holds(ms, server[k].id) { assert Has(server, server[k].id); }
    } else {
      assert lost[0] in lost;
    }
  }

  lemma NoneStray(server: seq<Entry>, ms: seq<Row>, phantom: seq<nat>, mismatched: seq<nat>)
    requires forall id :: id in phantom <==> Holds(ms, id) && id !in Index(server)
    requires forall id :: id in mismatched <==> Mismatch(Index(server), ms, id)
    ensures phantom == [] && mismatched == [] <==> NothingStray(server, ms)
  {
    if phantom == [] && mismatched == [] {
      forall k | 0 <= k < |ms| ensures ms[k].id in Index(server) && Index(server)[ms[k].id] == EntryOf(ms[k]) {
        assert Holds(ms, ms[k].id);
        assert !Mismatch(Index(server), ms, ms[k].id);
      }
    } else if phantom != [] {
      assert phantom[0] in phantom;
    } else {
      assert mismatched[0] in mismatched;
    }
  }

  lemma NoneTwice(counted: seq<nat>, duplicated: seq<nat>)
    requires forall id :: id in duplicated <==> Twice(counted, id)
    ensures duplicated == [] <==> Distinct(counted)
  {
    if duplicated == [] {
      forall i, j | 0 <= i < j < |counted| ensures counted[i] != counted[j] { assert !Twice(counted, counted[i]); }
    } else {
      assert duplicated[0] in duplicated;
    }
  }

  lemma NoneOutOfOrder(ms: seq<Row>, outOfOrder: seq<nat>)
    requires forall conv :: conv in outOfOrder <==> !Agree(Thread(ms, conv))
    ensures outOfOrder == [] <==> ThreadsAgree(ms)
  {
    if outOfOrder != [] {
      assert outOfOrder[0] in outOfOrder;
    }
  }

  /** THE ORACLE IS EXACT.  Each list names exactly what it is for, and the report is
      clean if and only if the journal is the log: nothing lost, nothing held that was
      not committed just so, nothing counted twice, one id in a slot, threads in order. */
  method CompareLogs(server: seq<Entry>, ms: seq<Row>, counted: seq<nat>) returns (r: Report)
    ensures Clean(r) <==> Exact(server, ms, counted)
    ensures forall id :: id in r.lost <==> Has(server, id) && !Holds(ms, id)
    ensures forall id :: id in r.phantom <==> Holds(ms, id) && !Has(server, id)
    ensures forall id :: id in r.mismatched <==> Mismatch(Index(server), ms, id)
    ensures forall id :: id in r.duplicated <==> Twice(counted, id)
    ensures forall t :: t in r.seqConflicts <==> Conflicted(ms, |ms|, t)
    ensures forall conv :: conv in r.outOfOrder <==> !Agree(Thread(ms, conv))
  {
    var committed := IndexOf(server);
    var held := HeldBy(ms);
    var lost := FindLost(server, ms, held);
    var phantom, mismatched := FindStrays(ms, committed);
    var duplicated := FindDuplicates(counted);
    var conflicts := FindConflicts(ms);
    var outOfOrder := FindDisorder(ms);
    NoneLost(server, ms, lost);
    NoneStray(server, ms, phantom, mismatched);
    NoneTwice(counted, duplicated);
    NoneConflicted(ms, conflicts);
    NoneOutOfOrder(ms, outOfOrder);
    r := Report(lost, phantom, duplicated, mismatched, conflicts, outOfOrder);
  }

  // --- the protocol earns a clean report -----------------------------------------------

  function Entries(rows: seq<Row>): (es: seq<Entry>)
    ensures |es| == |rows| && forall k | 0 <= k < |rows| :: es[k] == EntryOf(rows[k])
  {
    if rows == [] then [] else Entries(rows[..|rows| - 1]) + [EntryOf(rows[|rows| - 1])]
  }

  /** The rows of `messages` in the viewer's conversations. */
  function ServerLog(log: seq<Row>, rooms: set<nat>, head: nat): seq<Row> { Scan(log, rooms, 0, head) }

  lemma LogCompatible(log: seq<Row>, head: nat, a: Row, b: Row)
    requires LogOk(log, head) && a in log && b in log && a.conv == b.conv && a != b
    ensures Compatible(a, b) && a.seqNo != b.seqNo
  {
    var i :| 0 <= i < |log| && log[i] == a;
    var j :| 0 <= j < |log| && log[j] == b;
    assert i < j ==> a.logSeq < b.logSeq && a.seqNo < b.seqNo;
    assert j < i ==> b.logSeq < a.logSeq && b.seqNo < a.seqNo;
  }

  predicate NoRepeats(ms: seq<Row>) { forall i, j | 0 <= i < j < |ms| :: ms[i] != ms[j] }

  lemma {:induction false} ThreadFrom(ms: seq<Row>, conv: nat, x: Row)
    ensures x in Thread(ms, conv) ==> x in ms && x.conv == conv
  {
    if ms != [] {
      ThreadFrom(ms[..|ms| - 1], conv, x);
      assert ms == ms[..|ms| - 1] + [ms[|ms| - 1]];
    }
  }

  lemma {:induction false} ThreadAgrees(ms: seq<Row>, conv: nat, log: seq<Row>, head: nat)
    requires LogOk(log, head) && NoRepeats(ms) && forall m | m in ms :: m in log
    ensures Agree(Thread(ms, conv))
  {
    if ms != [] {
      var init, last := ms[..|ms| - 1], ms[|ms| - 1];
      assert ms == init + [last];
      ThreadAgrees(init, conv, log, head);
      if last.conv == conv {
        AgreeSnoc(Thread(init, conv), last);
        forall x | x in Thread(init, conv) ensures Compatible(x, last) {
          ThreadFrom(init, conv, x);
          LogCompatible(log, head, x, last);
        }
      }
    }
  }

  lemma ServerIdsAreUnique(log: seq<Row>, rooms: set<nat>, head: nat)
    requires LogOk(log, head)
    ensures UniqueIds(Entries(ServerLog(log, rooms, head)))
  {
    var rows := ServerLog(log, rooms, head);
    ScanAscends(log, rooms, 0, head);
    forall i, j | 0 <= i < j < |rows| ensures rows[i].id != rows[j].id {
      assert rows[i] in rows && rows[j] in rows && rows[i].logSeq < rows[j].logSeq;
      if rows[i].id == rows[j].id {
        ClientSync.LogIdsAreUnique(log, head, rows[i], rows[j]);
      }
    }
  }

  /** A journal that holds exactly the visible log compares exact. */
  lemma FullJournalIsExact(log: seq<Row>, rooms: set<nat>, head: nat, ms: seq<Row>, counted: seq<nat>)
    requires LogOk(log, head) && NoRepeats(ms) && Distinct(counted)
    requires forall m :: m in ms <==> m in ServerLog(log, rooms, head)
    ensures Exact(Entries(ServerLog(log, rooms, head)), ms, counted)
  {
    var rows := ServerLog(log, rooms, head);
    var server := Entries(rows);
    ServerIdsAreUnique(log, rooms, head);
    forall k | 0 <= k < |server| ensures Holds(ms, server[k].id) {
      assert rows[k] in rows;
      var i :| 0 <= i < |ms| && ms[i] == rows[k];
    }
    forall k | 0 <= k < |ms| ensures ms[k].id in Index(server) && Index(server)[ms[k].id] == EntryOf(ms[k]) {
      assert ms[k] in ms;
      var i :| 0 <= i < |rows| && rows[i] == ms[k];
      assert server[i] in server;
      IndexFinds(server, server[i]);
    }
    forall i, j | 0 <= i < j < |ms| && ms[i].conv == ms[j].conv ensures ms[i].seqNo != ms[j].seqNo {
      assert ms[i] in ms && ms[j] in ms;
      LogCompatible(log, head, ms[i], ms[j]);
    }
    forall conv: nat ensures Agree(Thread(ms, conv)) { ThreadAgrees(ms, conv, log, head); }
  }

  /** THE PROTOCOL SATISFIES ITS ORACLE.  After any safe run, a quiet device's snapshot
      compares exact against the server's log for its viewer. */
  lemma QuietRunIsExact(s0: SyncRun.State, es: seq<SyncRun.Event>, ms: seq<Row>)
    requires SyncRun.Init(s0) && SyncRun.Run(s0, es) && SyncRun.SafeRun(s0, es)
    requires SyncTheorems.Quiet(SyncRun.After(s0, es))
    requires NoRepeats(ms) && forall m :: m in ms <==> ClientSync.Held(SyncRun.After(s0, es).c.store, m)
    ensures var s := SyncRun.After(s0, es);
            Exact(Entries(ServerLog(s.log, s.rooms, s.head)), ms, s.c.store.counted)
  {
    SyncSteps.InitKeepsInv(s0);
    SyncSteps.RunKeepsInv(s0, es);
    SyncTheorems.NoLoss(s0, es);
    var s := SyncRun.After(s0, es);
    forall m ensures m in ms <==> m in ServerLog(s.log, s.rooms, s.head) {
      assert m in s.log ==> 0 < m.logSeq <= s.head;
    }
    FullJournalIsExact(s.log, s.rooms, s.head, ms, s.c.store.counted);
  }
}
