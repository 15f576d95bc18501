/**
 The bounded cache with a lifetime per entry (internal/linkpreview/cache.go).  The order
 in which a full cache is walked is the runtime's choice, so it is a parameter.
 */
module Cache {
  import opened Sets

  datatype Entry<V> = Entry(v: V, expires: int)

  datatype Found<V> = Absent | Found(v: V)

  type Key = string

  predicate Live<V>(e: Entry<V>, now: int) { now < e.expires }

  /** A walk visits every key once. */
  ghost predicate Walk<V>(m: map<Key, Entry<V>>, order: seq<Key>) {
    && (forall k :: k in order <==> k in m)
    && (forall i, j | 0 <= i < j < |order| :: order[i] != order[j])
  }

  function Purged<V>(m: map<Key, Entry<V>>, now: int): map<Key, Entry<V>> { map k | k in m && Live(m[k], now) :: m[k] }

  /** The live key that expires first, as the walk finds it: the empty string doubles as
      "none yet". */
  function Oldest<V>(m: map<Key, Entry<V>>, now: int, order: seq<Key>): (o: Key)
    requires forall k | k in order :: k in m
    ensures o == "" || (o in order && Live(m[o], now))
  {
    if order == [] then ""
    else
      var o, k := Oldest(m, now, order[..|order| - 1]), order[|order| - 1];
      if !Live(m[k], now) then o else if o == "" || m[k].expires < m[o].expires then k else o
  }

  /** Room for one more: the expired go, and if that is not enough the one that expires
      first. */
  function Roomed<V>(m: map<Key, Entry<V>>, max: int, now: int, order: seq<Key>): map<Key, Entry<V>>
    requires Walk(m, order)
  {
    var p, o := Purged(m, now), Oldest(m, now, order);
    if |p| >= max && o != "" then p - {o} else p
  }

  function Put<V>(m: map<Key, Entry<V>>, max: int, key: Key, e: Entry<V>, now: int, order: seq<Key>): map<Key, Entry<V>>
    requires Walk(m, order)
  {
    (if key !in m && |m| >= max then Roomed(m, max, now, order) else m)[key := e]
  }

  // --- what the walk finds -------------------------------------------------------------

  lemma {:induction false} OldestIs<V>(m: map<Key, Entry<V>>, now: int, order: seq<Key>)
    requires (forall k | k in order :: k in m) && "" !in order
    ensures var o := Oldest(m, now, order);
            && (o == "" <==> forall k | k in order :: m[k].expires <= now)
            && (forall k | k in order && now < m[k].expires :: o != "" && m[o].expires <= m[k].expires)
  {
    if order != [] {
      var init, last := order[..|order| - 1], order[|order| - 1];
      assert order == init + [last];
      assert forall k :: k in order <==> k in init || k == last;
      OldestIs(m, now, init);
    }
  }

  /** Over live entries the walk comes back with nothing exactly when it ends on the empty
      key and that key expires before all the others. */
  lemma OldestIsNoneIff<V>(m: map<Key, Entry<V>>, now: int, order: seq<Key>)
    requires Walk(m, order) && order != [] && forall k | k in m :: Live(m[k], now)
    ensures Oldest(m, now, order) == "" <==>
            order[|order| - 1] == "" && forall k | k in m && k != "" :: m[""].expires < m[k].expires
  {
    var init, last := order[..|order| - 1], order[|order| - 1];
    assert order == init + [last];
    if last == "" {
      assert "" !in init;
      OldestIs(m, now, init);
      assert forall k | k in m && k != "" :: k in init;
      assert forall k | k in init :: k in order && k != "";
    }
  }

  // --- the bound -------------------------------------------------------------------------

  lemma PurgedSize<V>(m: map<Key, Entry<V>>, now: int)
    ensures Purged(m, now).Keys <= m.Keys && |Purged(m, now)| <= |m|
    ensures |Purged(m, now)| == |m| ==> Purged(m, now) == m
  {
    var p := Purged(m, now);
    SubsetSize(p.Keys, m.Keys);
    assert |p.Keys| == |p| && |m.Keys| == |m|;
  }

  lemma AllLive<V>(m: map<Key, Entry<V>>, now: int)
    ensures Purged(m, now) == m <==> forall k | k in m :: now < m[k].expires
  {
    forall k | k in m ensures k in Purged(m, now) <==> now < m[k].expires {}
  }

  lemma Added<V>(m: map<Key, Entry<V>>, key: Key, e: Entry<V>)
    ensures |m[key := e]| == if key in m then |m| else |m| + 1
  {
    assert m[key := e].Keys == m.Keys + {key};
    assert |m[key := e].Keys| == |m[key := e]| && |m.Keys| == |m|;
  }

  lemma Dropped<V>(m: map<Key, Entry<V>>, o: Key)
    requires o in m
    ensures |m - {o}| == |m| - 1
  {
    assert (m - {o}).Keys == m.Keys - {o};
    assert |(m - {o}).Keys| == |m - {o}| && |m.Keys| == |m|;
  }

  /** THE BOUND, AND EXACTLY WHEN IT FAILS.  A cache within its bound stays within it, except
      when a new key arrives at a cache full of live entries and the walk ends on the empty
      key, which expires first and which the code cannot tell from no key. */
  lemma PutIsBounded<V>(m: map<Key, Entry<V>>, max: int, key: Key, e: Entry<V>, now: int, order: seq<Key>)
    requires Walk(m, order) && 1 <= max && |m| <= max
    ensures |Put(m, max, key, e, now, order)| <= max <==>
            !(key !in m && |m| == max && (forall k | k in m :: now < m[k].expires)
              && order[|order| - 1] == "" && forall k | k in m && k != "" :: m[""].expires < m[k].expires)
  {
    if key in m || |m| < max {
      Added(m, key, e);
    } else {
      var p, o := Purged(m, now), Oldest(m, now, order);
      PurgedSize(m, now);
      AllLive(m, now);
      Added(p, key, e);
      if p == m {
        FullWalk(m, now, order, max);
        if o != "" {
          Dropped(p, o);
          Added(p - {o}, key, e);
        }
      }
    }
  }

  lemma FullWalk<V>(m: map<Key, Entry<V>>, now: int, order: seq<Key>, max: int)
    requires Walk(m, order) && 1 <= max && |m| == max && Purged(m, now) == m
    ensures order != []
    ensures Oldest(m, now, order) == "" <==>
            order[|order| - 1] == "" && forall k | k in m && k != "" :: m[""].expires < m[k].expires
  {
    assert |m.Keys| == |m|;
    var k :| k in m;
    assert k in order;
    forall x | x in m ensures Live(m[x], now) { assert x in Purged(m, now); }
    OldestIsNoneIff(m, now, order);
  }

  /** So with non-empty keys it never exceeds its bound. */
  lemma NonEmptyKeysAreBounded<V>(m: map<Key, Entry<V>>, max: int, key: Key, e: Entry<V>, now: int, order: seq<Key>)
    requires Walk(m, order) && 1 <= max && |m| <= max && "" !in m
    ensures |Put(m, max, key, e, now, order)| <= max
  {
    PutIsBounded(m, max, key, e, now, order);
    if |m| == max {
      assert |m.Keys| == |m|;
      var k :| k in m;
      assert k in order && order[|order| - 1] in order;
    }
  }

  /** The empty key breaks the bound: a cache of one holds two. */
  lemma EmptyKeyOverflows<V>(e: Entry<V>, f: Entry<V>, now: int)
    requires now < e.expires
    ensures Walk(map["" := e], [""])
    ensures |Put(map["" := e], 1, "a", f, now, [""])| == 2
  {
    var m: map<Key, Entry<V>> := map["" := e];
    assert Purged(m, now) == m;
    assert [""][..0] == [];
    assert Oldest(m, now, []) == "";
    Added(m, "a", f);
  }

  // --- what a put takes away ----------------------------------------------------------------

  /** A live entry goes only when a new key arrives at a cache full of live entries, and only
      the one that expires first. */
  lemma OnlyTheEarliestIsEvicted<V>(m: map<Key, Entry<V>>, max: int, key: Key, e: Entry<V>, now: int, order: seq<Key>, k: Key)
    requires Walk(m, order) && k in m && k != key && now < m[k].expires
    requires k !in Put(m, max, key, e, now, order)
    ensures key !in m && |Purged(m, now)| >= max && k == Oldest(m, now, order)
    ensures "" !in m ==> forall j | j in m && now < m[j].expires :: m[k].expires <= m[j].expires
    ensures forall j | j in m && j != k && j != key && now < m[j].expires :: j in Put(m, max, key, e, now, order)
  {
    assert k in Purged(m, now);
    if "" !in m {
      assert "" !in order;
      OldestIs(m, now, order);
    }
  }

  /** Against a plain map that never forgets, the cache holds a part of it: after a put the
      latest entry is there, and nothing else is changed or brought back. */
  lemma PutRefines<V>(m: map<Key, Entry<V>>, plain: map<Key, Entry<V>>, max: int, key: Key, e: Entry<V>, now: int, order: seq<Key>)
    requires Walk(m, order) && PartOf(m, plain)
    ensures var n := Put(m, max, key, e, now, order);
            PartOf(n, plain[key := e]) && key in n && n[key] == e && n.Keys <= m.Keys + {key}
  {
    RoomedIsPart(m, max, now, order);
  }

  lemma RoomedIsPart<V>(m: map<Key, Entry<V>>, max: int, now: int, order: seq<Key>)
    requires Walk(m, order)
    ensures PartOf(Roomed(m, max, now, order), m)
    ensures Roomed(m, max, now, order).Keys <= m.Keys
  {
  }

  ghost predicate PartOf<V>(m: map<Key, Entry<V>>, plain: map<Key, Entry<V>>) { forall k | k in m :: k in plain && m[k] == plain[k] }

  // --- the class ---------------------------------------------------------------------------

  class TtlCache<V> {
    const max: int
    var m: map<Key, Entry<V>>
    ghost var plain: map<Key, Entry<V>>

    ghost predicate Valid()
      reads this
    {
      PartOf(m, plain)
    }

    constructor (max: int)
      ensures Valid() && this.max == max && m == map[] && plain == map[]
    {
      this.max := max;
      m, plain := map[], map[];
    }

    /** Only the latest entry put for the key, and only while it lives; an expired one is
        dropped. */
    method Get(key: Key, now: int) returns (r: Found<V>)
      requires Valid()
      modifies this`m
      ensures Valid()
      ensures r.Found? ==> key in plain && now < plain[key].expires && plain[key].v == r.v && m == old(m)
      ensures r.Absent? <==> key !in old(m) || old(m)[key].expires <= now
      ensures r.Absent? ==> m == old(m) - {key}
    {
      if key in m && !Live(m[key], now) {
        m := m - {key};
        return Absent;
      }
      if key !in m {
        assert m - {key} == m;
        return Absent;
      }
      return Found(m[key].v);
    }

    method PutFor(key: Key, v: V, ttl: int, now: int, order: seq<Key>)
      requires Valid() && Walk(m, order)
      modifies this
      ensures Valid() && plain == old(plain)[key := Entry(v, now + ttl)]
      ensures m == Put(old(m), max, key, Entry(v, now + ttl), now, order)
      ensures key in m && m[key].v == v && m[key].expires == now + ttl
    {
      PutRefines(m, plain, max, key, Entry(v, now + ttl), now, order);
      if key !in m && |m| >= max {
        MakeRoom(now, order);
      }
      m := m[key := Entry(v, now + ttl)];
      plain := plain[key := Entry(v, now + ttl)];
    }

    method MakeRoom(now: int, order: seq<Key>)
      requires Walk(m, order)
      modifies this`m
      ensures m == Roomed(old(m), max, now, order)
    {
      var oldest := Sweep(now, order);
      if |m| >= max && oldest != "" {
        m := m - {oldest};
      }
    }

    /** The walk: expired entries go, and the live one that expires first is remembered. */
    method Sweep(now: int, order: seq<Key>) returns (oldest: Key)
      requires Walk(m, order)
      modifies this`m
      ensures m == Purged(old(m), now) && oldest == Oldest(old(m), now, order)
      ensures forall k :: k in m <==> k in old(m) && now < old(m)[k].expires
    {
      ghost var first := m;
      var at, n := 0, 0;
      oldest := "";
      while n < |order|
        invariant 0 <= n <= |order|
        invariant Swept(first, m, now, order[..n])
        invariant oldest == Oldest(first, now, order[..n])
        invariant oldest != "" ==> at == first[oldest].expires
      {
        var k := order[n];
        SweepOne(first, m, now, order, n);
        OldestOne(first, now, order, n);
        if !Live(m[k], now) {
          m := m - {k};
        } else if oldest == "" || m[k].expires < at {
          oldest, at := k, m[k].expires;
        }
        n := n + 1;
      }
      assert order[..n] == order;
      assert m == Purged(first, now);
    }
  }

  /** A LIFETIME IS KEPT TO THE INSTANT: a value put at `t` for `ttl` and read at `u`, with no
      other put between, is found exactly when `u` is before `t + ttl`. */
  method PutThenGet<V>(c: TtlCache<V>, key: Key, v: V, ttl: int, t: int, order: seq<Key>, u: int) returns (r: Found<V>)
    requires c.Valid() && Walk(c.m, order)
    modifies c
    ensures c.Valid()
    ensures r == if u < t + ttl then Found(v) else Absent
  {
    c.PutFor(key, v, ttl, t, order);
    r := c.Get(key, u);
  }

  /** The expired entries among the keys walked are gone, and nothing else. */
  ghost predicate Swept<V>(first: map<Key, Entry<V>>, m: map<Key, Entry<V>>, now: int, walked: seq<Key>) {
    && (forall k | k in walked :: k in first)
    && (forall k :: k in m <==> k in first && (k in walked ==> Live(first[k], now)))
    && (forall k | k in m :: m[k] == first[k])
  }

  lemma SweepOne<V>(first: map<Key, Entry<V>>, m: map<Key, Entry<V>>, now: int, order: seq<Key>, n: nat)
    requires Walk(first, order) && n < |order| && Swept(first, m, now, order[..n])
    ensures order[n] in m && m[order[n]] == first[order[n]]
    ensures Swept(first, if Live(first[order[n]], now) then m else m - {order[n]}, now, order[..n + 1])
  {
    var k := order[n];
    assert k in order && k !in order[..n];
    assert order[..n + 1] == order[..n] + [k];
    assert forall x :: x in order[..n + 1] <==> x in order[..n] || x == k;
  }

  lemma OldestOne<V>(first: map<Key, Entry<V>>, now: int, order: seq<Key>, n: nat)
    requires Walk(first, order) && n < |order|
    ensures (forall k | k in order[..n] :: k in first)
    ensures (forall k | k in order[..n + 1] :: k in first)
    ensures order[n] in first
    ensures var o := Oldest(first, now, order[..n]);
            Oldest(first, now, order[..n + 1]) ==
            if !Live(first[order[n]], now) then o else if o == "" || first[order[n]].expires < first[o].expires then order[n] else o
  {
    assert order[..n + 1][..n] == order[..n];
    assert forall k | k in order[..n + 1] :: k in order;
  }
}
