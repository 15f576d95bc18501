/**
 The committed message log, and the page `GET /sync` reads from it
 (internal/store/sync.go).

 A row carries the two ordinals of a message: `seqNo`, dense inside its
 conversation, and `logSeq`, the deployment-wide one every cursor counts in.
 */
module MessageLog {

  datatype Row = Row(id: nat, conv: nat, author: nat, client: nat, seqNo: nat, logSeq: nat)

  predicate Ascending(rows: seq<Row>) {
    forall i, j | 0 <= i < j < |rows| :: rows[i].logSeq < rows[j].logSeq
  }

  /** What every reader relies on: the log is in commit order, and commit order
      is `logSeq` order; ids are unique; inside a conversation the two ordinals
      agree; nothing committed lies above the counter. */
  predicate LogOk(rows: seq<Row>, head: nat) {
    && Ascending(rows)
    && (forall i | 0 <= i < |rows| :: 0 < rows[i].logSeq <= head)
    && (forall i, j | 0 <= i < j < |rows| :: rows[i].id != rows[j].id)
    && (forall i, j | 0 <= i < j < |rows| && rows[i].conv == rows[j].conv :: rows[i].seqNo < rows[j].seqNo)
  }

  /** A log grows by a row above every ordinal it has. */
  lemma LogSnoc(rows: seq<Row>, head: nat, r: Row)
    requires LogOk(rows, head) && head < r.logSeq
    requires forall i | 0 <= i < |rows| :: rows[i].id != r.id && (rows[i].conv == r.conv ==> rows[i].seqNo < r.seqNo)
    ensures LogOk(rows + [r], r.logSeq)
  {
    var more := rows + [r];
    assert forall i | 0 <= i < |rows| :: more[i] == rows[i];
  }

  predicate Visible(rooms: set<nat>, r: Row) { r.conv in rooms }

  const DEFAULT_SYNC_LIMIT: nat := 200
  const MAX_SYNC_LIMIT: nat := 500

  /** The limit a page is read with: none named means the default, and no caller
      may ask for more than the maximum. */
  function PageLimit(asked: int): (n: nat)
    ensures 1 <= n <= MAX_SYNC_LIMIT
    ensures 1 <= asked <= MAX_SYNC_LIMIT ==> n == asked
  {
    if asked <= 0 then DEFAULT_SYNC_LIMIT else if asked > MAX_SYNC_LIMIT then MAX_SYNC_LIMIT else asked
  }

  /** A page: the messages, the cursor the client sends next, and whether visible
      messages are still behind it. `convs` and `users` are the records that ride
      along with the messages. */
  datatype Page = Page(rows: seq<Row>, logSeq: nat, hasMore: bool, convs: set<nat>, users: set<nat>)

  /** The visible rows in `(after, upTo]`, in log order. */
  function Scan(rows: seq<Row>, rooms: set<nat>, after: nat, upTo: nat): (found: seq<Row>)
    ensures forall r :: r in found <==> r in rows && Visible(rooms, r) && after < r.logSeq <= upTo
  {
    if rows == [] then []
    else
      var last := rows[|rows| - 1];
      var init := Scan(rows[..|rows| - 1], rooms, after, upTo);
      assert forall r :: r in rows <==> r in rows[..|rows| - 1] || r == last by {
        assert rows == rows[..|rows| - 1] + [last];
      }
      if Visible(rooms, last) && after < last.logSeq <= upTo then init + [last] else init
  }

  lemma {:induction false} ScanAscends(rows: seq<Row>, rooms: set<nat>, after: nat, upTo: nat)
    requires Ascending(rows)
    ensures Ascending(Scan(rows, rooms, after, upTo))
  {
    if rows != [] {
      var init := rows[..|rows| - 1];
      ScanAscends(init, rooms, after, upTo);
      var f := Scan(init, rooms, after, upTo);
      assert Ascending(f);
      forall i | 0 <= i < |f| ensures f[i].logSeq < rows[|rows| - 1].logSeq {
        assert f[i] in init;
      }
    }
  }

  /** The rows of `found` a page of at most `limit` keeps. */
  function Kept(found: seq<Row>, limit: nat): seq<Row> {
    if |found| > limit then found[..limit] else found
  }

  /** The cursor handed back: the last row kept when the page was cut short, and
      otherwise the head, because everything up to it was scanned. */
  function HighWater(found: seq<Row>, limit: nat, head: nat): nat
    requires 0 < limit
  {
    if |found| > limit then found[limit - 1].logSeq else head
  }

  /** One page, read against the head it was bounded by. `extraConvs` and
      `extraUsers` are the records whose own markers moved; every conversation and
      author a message names rides along whatever those are. */
  function Sync(rows: seq<Row>, head: nat, rooms: set<nat>, after: nat, asked: int,
                extraConvs: set<nat>, extraUsers: set<nat>): Page
  {
    var limit := PageLimit(asked);
    var found := Scan(rows, rooms, after, head);
    var kept := Kept(found, limit);
    Page(kept, HighWater(found, limit, head), |found| > limit,
         Convs(kept) + extraConvs, Authors(kept) + extraUsers)
  }

  function Convs(rows: seq<Row>): set<nat> { set r | r in rows :: r.conv }

  function Authors(rows: seq<Row>): set<nat> { set r | r in rows :: r.author }

  /** A cut keeps exactly what lies at or below the cursor it hands back. */
  lemma CutIsExact(found: seq<Row>, limit: nat, head: nat)
    requires Ascending(found) && 0 < limit
    requires forall r | r in found :: r.logSeq <= head
    ensures forall r :: r in Kept(found, limit) <==> r in found && r.logSeq <= HighWater(found, limit, head)
    ensures Ascending(Kept(found, limit))
    ensures |found| > limit ==> found[limit - 1] in found && found[limit] in found
    ensures |found| > limit ==> HighWater(found, limit, head) < found[limit].logSeq <= head
  {
    if |found| > limit {
      assert found[limit - 1] in found && found[limit] in found;
      var kept := found[..limit];
      forall r | r in found && r.logSeq <= found[limit - 1].logSeq ensures r in kept {
        var k :| 0 <= k < |found| && found[k] == r;
        assert k < limit;
        assert kept[k] == r;
      }
    }
  }

  /** What a page promises: exactly the visible rows between the cursor asked from
      and the cursor handed back, in order, and the head is claimed only when it
      was scanned to. */
  ghost predicate PageExact(p: Page, rows: seq<Row>, head: nat, rooms: set<nat>, after: nat) {
    && (forall r :: r in p.rows <==> r in rows && Visible(rooms, r) && after < r.logSeq <= p.logSeq)
    && Ascending(p.rows)
    && (if p.hasMore then after < p.logSeq < head else p.logSeq == head)
  }

  lemma SyncIsExact(rows: seq<Row>, head: nat, rooms: set<nat>, after: nat, asked: int,
                    extraConvs: set<nat>, extraUsers: set<nat>)
    requires LogOk(rows, head)
    ensures PageExact(Sync(rows, head, rooms, after, asked, extraConvs, extraUsers), rows, head, rooms, after)
  {
    ScanAscends(rows, rooms, after, head);
    CutIsExact(Scan(rows, rooms, after, head), PageLimit(asked), head);
  }

  /** Everything needed to render a message of a page rides on that page. */
  lemma SyncCarriesRecords(rows: seq<Row>, head: nat, rooms: set<nat>, after: nat, asked: int,
                           extraConvs: set<nat>, extraUsers: set<nat>, r: Row)
    ensures var p := Sync(rows, head, rooms, after, asked, extraConvs, extraUsers);
            r in p.rows ==> r.conv in p.convs && r.author in p.users
  {
    var kept := Kept(Scan(rows, rooms, after, head), PageLimit(asked));
    assert r in kept ==> r.conv in Convs(kept) && r.author in Authors(kept);
  }

  /** HOW LONG A PAGE IS: 200 messages unless the caller asked for some other number, and
      never more than 500; a page that is not the last is full. */
  lemma PageIsFull(rows: seq<Row>, head: nat, rooms: set<nat>, after: nat, asked: int,
                   extraConvs: set<nat>, extraUsers: set<nat>)
    ensures var p, limit := Sync(rows, head, rooms, after, asked, extraConvs, extraUsers),
                            if asked <= 0 then 200 else if asked > 500 then 500 else asked;
            |p.rows| <= limit && (p.hasMore ==> |p.rows| == limit)
  {
  }

  /** And which records ride on it: its messages' own, those asked for besides, and no other. */
  lemma PageRecords(rows: seq<Row>, head: nat, rooms: set<nat>, after: nat, asked: int,
                    extraConvs: set<nat>, extraUsers: set<nat>, x: nat)
    ensures var p := Sync(rows, head, rooms, after, asked, extraConvs, extraUsers);
            && (x in p.convs <==> x in extraConvs || exists r :: r in p.rows && r.conv == x)
            && (x in p.users <==> x in extraUsers || exists r :: r in p.rows && r.author == x)
  {
    var kept := Kept(Scan(rows, rooms, after, head), PageLimit(asked));
    assert x in Convs(kept) <==> exists r :: r in kept && r.conv == x;
    assert x in Authors(kept) <==> exists r :: r in kept && r.author == x;
  }

  /** `has_more` is exact: it is set exactly when a visible row lies behind the
      cursor handed back, at or below the head. */
  lemma HasMoreIsExact(rows: seq<Row>, head: nat, rooms: set<nat>, after: nat, asked: int)
    requires LogOk(rows, head)
    ensures var p := Sync(rows, head, rooms, after, asked, {}, {});
            p.hasMore <==> exists r :: r in rows && Visible(rooms, r) && after < r.logSeq && p.logSeq < r.logSeq <= head
  {
    var limit := PageLimit(asked);
    var found := Scan(rows, rooms, after, head);
    if |found| > limit {
      ScanAscends(rows, rooms, after, head);
      CutIsExact(found, limit, head);
    }
  }

  /** Paging on from the cursor a page handed back loses nothing and repeats nothing, even
      though the log has grown in between: two successive pages carry exactly the visible
      rows up to the second cursor, and share none. */
  lemma PagesCompose(rows: seq<Row>, head: nat, more: seq<Row>, head': nat, rooms: set<nat>, after: nat, asked: int, asked': int)
    requires LogOk(rows, head) && LogOk(rows + more, head') && head <= head' && forall r | r in more :: head < r.logSeq
    ensures var p := Sync(rows, head, rooms, after, asked, {}, {});
            var q := Sync(rows + more, head', rooms, p.logSeq, asked', {}, {});
            && p.logSeq <= q.logSeq && (p.hasMore ==> p.logSeq < q.logSeq)
            && (after <= head ==>
                  forall r :: r in p.rows || r in q.rows <==> r in rows + more && Visible(rooms, r) && after < r.logSeq <= q.logSeq)
            && (forall r :: !(r in p.rows && r in q.rows))
  {
    SyncIsExact(rows, head, rooms, after, asked, {}, {});
    var p := Sync(rows, head, rooms, after, asked, {}, {});
    SyncIsExact(rows + more, head', rooms, p.logSeq, asked', {}, {});
  }
}
