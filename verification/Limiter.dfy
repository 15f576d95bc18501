/**
 The link-preview token bucket (internal/linkpreview/limiter.go).  Tokens are reals, and
 time is counted in ticks, the time one token takes: a reading of the clock in seconds
 times the rate.
 */
module Limiter {

  datatype Bucket = Bucket(tokens: real, last: real)

  datatype Policy = Policy(rate: real, burst: real)

  datatype Call = Call(account: nat, at: real)

  type Accounts = map<nat, Bucket>

  const MAX_IDLE_ACCOUNTS: nat := 1024

  predicate Sound(p: Policy) { p.rate > 0.0 && p.burst >= 0.0 }

  function Min(a: real, b: real): real { if a <= b then a else b }

  // --- the limiter that never prunes ---------------------------------------------------

  function Refill(p: Policy, b: Bucket, now: real): Bucket {
    if now > b.last then Bucket(Min(p.burst, b.tokens + (now - b.last)), now) else b
  }

  /** What an account has at `now`; an account never seen has a full bucket. */
  function Level(p: Policy, m: Accounts, a: nat, now: real): real { if a in m then Refill(p, m[a], now).tokens else p.burst }

  predicate Granted(p: Policy, m: Accounts, c: Call) { Level(p, m, c.account, c.at) >= 1.0 }

  function Taken(p: Policy, m: Accounts, c: Call): Accounts {
    var b := if c.account in m then Refill(p, m[c.account], c.at) else Bucket(p.burst, c.at);
    m[c.account := if b.tokens >= 1.0 then b.(tokens := b.tokens - 1.0) else b]
  }

  function Answers(p: Policy, m: Accounts, calls: seq<Call>): seq<bool>
    decreases |calls|
  {
    if calls == [] then [] else [Granted(p, m, calls[0])] + Answers(p, Taken(p, m, calls[0]), calls[1..])
  }

  function StateAfter(p: Policy, m: Accounts, calls: seq<Call>): Accounts
    decreases |calls|
  {
    if calls == [] then m else StateAfter(p, Taken(p, m, calls[0]), calls[1..])
  }

  /** How many calls of account `a` are granted. */
  function Grants(p: Policy, m: Accounts, calls: seq<Call>, a: nat): nat
    decreases |calls|
  {
    if calls == [] then 0
    else (if calls[0].account == a && Granted(p, m, calls[0]) then 1 else 0) + Grants(p, Taken(p, m, calls[0]), calls[1..], a)
  }

  /** The clock does not go back, from `start` on. */
  predicate Forward(calls: seq<Call>, start: real)
    decreases |calls|
  {
    calls == [] || (start <= calls[0].at && Forward(calls[1..], calls[0].at))
  }

  predicate Valid(p: Policy, m: Accounts, now: real) {
    forall a | a in m :: 0.0 <= m[a].tokens <= p.burst && m[a].last <= now
  }

  // --- the window -------------------------------------------------------------------------

  lemma LevelBounds(p: Policy, m: Accounts, a: nat, now: real, t: real)
    requires Sound(p) && Valid(p, m, now) && now <= t
    ensures 0.0 <= Level(p, m, a, t) <= p.burst
    ensures Level(p, m, a, t) <= Level(p, m, a, now) + (t - now)
  {
  }

  /** One call: what is left afterwards, for the caller and for everybody else. */
  lemma TakenLevel(p: Policy, m: Accounts, c: Call, now: real, a: nat)
    requires Sound(p) && Valid(p, m, now) && now <= c.at
    ensures Valid(p, Taken(p, m, c), c.at)
    ensures Level(p, Taken(p, m, c), a, c.at) == Level(p, m, a, c.at) - (if a == c.account && Granted(p, m, c) then 1.0 else 0.0)
  {
    LevelBounds(p, m, c.account, now, c.at);
  }

  /** What is granted in a window comes out of the level at its start and what flows in. */
  lemma {:induction false} GrantsAreBounded(p: Policy, m: Accounts, calls: seq<Call>, now: real, end: real, a: nat)
    requires Sound(p) && Valid(p, m, now) && Forward(calls, now) && now <= end
    requires forall k | 0 <= k < |calls| :: calls[k].at <= end
    ensures Grants(p, m, calls, a) as real <= Level(p, m, a, now) + (end - now)
    decreases |calls|
  {
    if calls == [] {
      LevelBounds(p, m, a, now, end);
    } else {
      var c := calls[0];
      TakenLevel(p, m, c, now, a);
      LevelBounds(p, m, a, now, c.at);
      assert forall k | 0 <= k < |calls[1..]| :: calls[1..][k] == calls[k + 1];
      GrantsAreBounded(p, Taken(p, m, c), calls[1..], c.at, end, a);
    }
  }

  lemma {:induction false} RunIsValid(p: Policy, m: Accounts, calls: seq<Call>, now: real, end: real)
    requires Sound(p) && Valid(p, m, now) && Forward(calls, now) && now <= end
    requires forall k | 0 <= k < |calls| :: calls[k].at <= end
    ensures Valid(p, StateAfter(p, m, calls), end)
    decreases |calls|
  {
    if calls != [] {
      TakenLevel(p, m, calls[0], now, calls[0].account);
      assert forall k | 0 <= k < |calls[1..]| :: calls[1..][k] == calls[k + 1];
      RunIsValid(p, Taken(p, m, calls[0]), calls[1..], calls[0].at, end);
    }
  }

  // --- pruning ------------------------------------------------------------------------------

  /** Nothing tells the two apart from `now` on. */
  ghost predicate Same(p: Policy, m: Accounts, n: Accounts, now: real) {
    forall a: nat, t: real | now <= t :: Level(p, m, a, t) == Level(p, n, a, t)
  }

  predicate Full(p: Policy, b: Bucket, now: real) { b.tokens + (now - b.last) >= p.burst }

  lemma FullStaysFull(p: Policy, b: Bucket, now: real, t: real)
    requires Sound(p) && 0.0 <= b.tokens <= p.burst && b.last <= now <= t
    requires Full(p, b, now)
    ensures Refill(p, b, t).tokens == p.burst
  {
  }

  /** After a call the caller's level is decided by its level at the call. */
  lemma TakenLater(p: Policy, m: Accounts, c: Call, now: real, t: real)
    requires Sound(p) && Valid(p, m, now) && now <= c.at <= t
    ensures var l := Level(p, m, c.account, c.at) - (if Granted(p, m, c) then 1.0 else 0.0);
            Level(p, Taken(p, m, c), c.account, t) == if t > c.at then Min(p.burst, l + (t - c.at)) else l
  {
    LevelBounds(p, m, c.account, now, c.at);
  }

  lemma SameAnswers(p: Policy, m: Accounts, n: Accounts, now: real, c: Call)
    requires Sound(p) && Valid(p, m, now) && Valid(p, n, now)
    requires Same(p, m, n, now) && now <= c.at
    ensures Granted(p, m, c) == Granted(p, n, c)
    ensures Same(p, Taken(p, m, c), Taken(p, n, c), c.at)
  {
    assert Level(p, m, c.account, c.at) == Level(p, n, c.account, c.at);
    forall a: nat, t: real | c.at <= t ensures Level(p, Taken(p, m, c), a, t) == Level(p, Taken(p, n, c), a, t) {
      if a == c.account {
        TakenLater(p, m, c, now, t);
        TakenLater(p, n, c, now, t);
      } else {
        assert Level(p, m, a, t) == Level(p, n, a, t);
      }
    }
  }

  /** The limiter that drops full buckets once it holds many. */
  class PruningLimiter {
    const p: Policy
    var accounts: Accounts

    constructor (perMinute: nat, burst: nat)
      requires perMinute > 0
      ensures Sound(p)
      ensures p == Policy(perMinute as real / 60.0, burst as real)
      ensures accounts == map[]
    {
      p := Policy(perMinute as real / 60.0, burst as real);
      accounts := map[];
    }

    method Prune(now: real)
      requires Sound(p) && Valid(p, accounts, now)
      modifies this
      ensures Valid(p, accounts, now) && Same(p, old(accounts), accounts, now)
      ensures forall a | a in accounts :: a in old(accounts) && accounts[a] == old(accounts)[a]
      ensures forall a | a in old(accounts) :: a in accounts <==> old(accounts)[a].tokens + (now - old(accounts)[a].last) < p.burst
    {
      var todo := accounts.Keys;
      while todo != {}
        invariant accounts.Keys <= old(accounts).Keys && todo <= accounts.Keys
        invariant forall a | a in accounts :: accounts[a] == old(accounts)[a]
        invariant forall a | a in old(accounts) :: a !in accounts <==> a !in todo && Full(p, old(accounts)[a], now)
      {
        var a :| a in todo;
        if Full(p, accounts[a], now) {
          accounts := accounts - {a};
        }
        todo := todo - {a};
      }
      forall a: nat, t: real | now <= t ensures Level(p, old(accounts), a, t) == Level(p, accounts, a, t) {
        if a in old(accounts) && a !in accounts {
          FullStaysFull(p, old(accounts)[a], now, t);
        }
      }
    }

    /** Grants exactly when the account has a token; refused, it says how many seconds until
        it would have one (for a burst of at least one). */
    method Allow(account: nat, seconds: real) returns (ok: bool, wait: real)
      requires Sound(p) && Valid(p, accounts, Ticks(p, seconds))
      modifies this
      ensures ok == Granted(p, old(accounts), Call(account, Ticks(p, seconds)))
      ensures Valid(p, accounts, Ticks(p, seconds))
      ensures Same(p, Taken(p, old(accounts), Call(account, Ticks(p, seconds))), accounts, Ticks(p, seconds))
      ensures forall a :: a in accounts <==>
                          || a == account
                          || (a in old(accounts) && (account in old(accounts) || |old(accounts)| < 1024
                              || old(accounts)[a].tokens + (Ticks(p, seconds) - old(accounts)[a].last) < p.burst))
      ensures if ok then wait == 0.0
              else wait > 0.0 && (p.burst >= 1.0 ==> Level(p, accounts, account, Ticks(p, seconds + wait)) >= 1.0)
    {
      var now := Ticks(p, seconds);
      ghost var first := accounts;
      if account !in accounts && |accounts| >= MAX_IDLE_ACCOUNTS {
        Prune(now);
      }
      SameAnswers(p, first, accounts, now, Call(account, now));
      TakenLevel(p, accounts, Call(account, now), now, account);
      var b := if account in accounts then Refill(p, accounts[account], now) else Bucket(p.burst, now);
      ok := b.tokens >= 1.0;
      wait := 0.0;
      if ok {
        b := b.(tokens := b.tokens - 1.0);
      } else {
        wait := (1.0 - b.tokens) / p.rate;
        WaitIsEnough(p, b, seconds, wait);
      }
      accounts := accounts[account := b];
    }

    /** PRUNING CHANGES NO ANSWER.  Any calls, at readings in seconds of a clock that does
        not go back, are answered as by a limiter that never prunes. */
    method Serve(calls: seq<Call>) returns (answers: seq<bool>)
      requires Sound(p) && accounts == map[] && Forward(calls, 0.0)
      modifies this
      ensures answers == Answers(p, map[], InTicks(p, calls))
      ensures |answers| == |calls| && Windowed(p, calls, answers)
    {
      answers := [];
      ghost var plain: Accounts, now := map[], 0.0;
      var n := 0;
      assert calls[0..] == calls;
      while n < |calls|
        invariant 0 <= n <= |calls|
        invariant Valid(p, accounts, Ticks(p, now)) && Valid(p, plain, Ticks(p, now)) && Same(p, plain, accounts, Ticks(p, now))
        invariant Forward(calls[n..], now)
        invariant Answers(p, map[], InTicks(p, calls)) == answers + Answers(p, plain, InTicks(p, calls[n..]))
      {
        var c := calls[n];
        assert calls[n..][0] == c && calls[n..][1..] == calls[n + 1..];
        TicksGrow(p, now, c.at);
        SameAnswers(p, plain, accounts, Ticks(p, now), Call(c.account, Ticks(p, c.at)));
        TakenLevel(p, plain, Call(c.account, Ticks(p, c.at)), Ticks(p, now), c.account);
        LaterIsValid(p, accounts, Ticks(p, now), Ticks(p, c.at));
        NextAnswer(p, plain, calls[n..]);
        var ok, _ := Allow(c.account, c.at);
        answers := answers + [ok];
        plain, now := Taken(p, plain, Call(c.account, Ticks(p, c.at))), c.at;
        n := n + 1;
      }
      ServedIsWindowed(p, calls);
    }
  }

  function Ticks(p: Policy, seconds: real): real { seconds * p.rate }

  function InTicks(p: Policy, calls: seq<Call>): seq<Call> {
    if calls == [] then [] else [Call(calls[0].account, Ticks(p, calls[0].at))] + InTicks(p, calls[1..])
  }

  lemma NextAnswer(p: Policy, m: Accounts, calls: seq<Call>)
    requires calls != []
    ensures var c := Call(calls[0].account, Ticks(p, calls[0].at));
            Answers(p, m, InTicks(p, calls)) == [Granted(p, m, c)] + Answers(p, Taken(p, m, c), InTicks(p, calls[1..]))
  {
    var c := Call(calls[0].account, Ticks(p, calls[0].at));
    var rest := InTicks(p, calls[1..]);
    assert ([c] + rest)[0] == c && ([c] + rest)[1..] == rest;
  }

  lemma TicksGrow(p: Policy, x: real, y: real)
    requires Sound(p) && x <= y
    ensures Ticks(p, x) <= Ticks(p, y)
  {
  }

  lemma LaterIsValid(p: Policy, m: Accounts, now: real, t: real)
    requires Valid(p, m, now) && now <= t
    ensures Valid(p, m, t)
  {
  }

  lemma WaitIsEnough(p: Policy, b: Bucket, seconds: real, wait: real)
    requires Sound(p) && b.tokens < 1.0 && b.last == Ticks(p, seconds)
    requires wait == (1.0 - b.tokens) / p.rate
    ensures wait > 0.0
    ensures (p.burst >= 1.0 ==> Refill(p, b, Ticks(p, seconds + wait)).tokens >= 1.0)
  {
    assert wait > 0.0;
    assert wait * p.rate == 1.0 - b.tokens;
    assert Ticks(p, seconds + wait) == Ticks(p, seconds) + wait * p.rate;
  }

  // --- the window, over what is answered --------------------------------------------------

  /** How many of an account's calls were answered yes. */
  function Count(calls: seq<Call>, answers: seq<bool>, a: nat): nat
    requires |calls| == |answers|
    decreases |calls|
  {
    if calls == [] then 0 else (if calls[0].account == a && answers[0] then 1 else 0) + Count(calls[1..], answers[1..], a)
  }

  /** In every stretch of the calls an account is answered yes at most burst + rate * T
      times, T the seconds from its first call to its last. */
  ghost predicate Windowed(p: Policy, calls: seq<Call>, answers: seq<bool>)
    requires |calls| == |answers|
  {
    forall i: nat, j: nat, a: nat | i < j <= |calls| :: InWindow(p, calls, answers, i, j, a)
  }

  predicate InWindow(p: Policy, calls: seq<Call>, answers: seq<bool>, i: nat, j: nat, a: nat)
    requires |calls| == |answers| && i < j <= |calls|
  {
    Count(calls[i..j], answers[i..j], a) as real <= p.burst + p.rate * (calls[j - 1].at - calls[i].at)
  }

  lemma {:induction false} AnswersLength(p: Policy, m: Accounts, calls: seq<Call>)
    ensures |Answers(p, m, calls)| == |calls|
    decreases |calls|
  {
    if calls != [] {
      AnswersLength(p, Taken(p, m, calls[0]), calls[1..]);
    }
  }

  lemma {:induction false} AnswersFront(p: Policy, m: Accounts, calls: seq<Call>, j: nat)
    requires j <= |calls|
    ensures |Answers(p, m, calls)| == |calls|
    ensures Answers(p, m, calls)[..j] == Answers(p, m, calls[..j])
    decreases |calls|
  {
    AnswersLength(p, m, calls);
    if j > 0 {
      var n := Taken(p, m, calls[0]);
      AnswersFront(p, n, calls[1..], j - 1);
      assert calls[..j][0] == calls[0] && calls[..j][1..] == calls[1..][..j - 1];
      var rest := Answers(p, n, calls[1..]);
      assert ([Granted(p, m, calls[0])] + rest)[..j] == [Granted(p, m, calls[0])] + rest[..j - 1];
    }
  }

  lemma {:induction false} AnswersBack(p: Policy, m: Accounts, calls: seq<Call>, i: nat)
    requires i <= |calls|
    ensures |Answers(p, m, calls)| == |calls|
    ensures Answers(p, m, calls)[i..] == Answers(p, StateAfter(p, m, calls[..i]), calls[i..])
    decreases i
  {
    AnswersLength(p, m, calls);
    if i == 0 {
      assert calls[0..] == calls && calls[..0] == [];
      assert StateAfter(p, m, []) == m;
    } else {
      var n := Taken(p, m, calls[0]);
      AnswersBack(p, n, calls[1..], i - 1);
      assert calls[..i][0] == calls[0] && calls[..i][1..] == calls[1..][..i - 1];
      assert calls[1..][i - 1..] == calls[i..];
      var rest := Answers(p, n, calls[1..]);
      assert ([Granted(p, m, calls[0])] + rest)[i..] == rest[i - 1..];
    }
  }

  lemma AnswersSlice(p: Policy, m: Accounts, calls: seq<Call>, i: nat, j: nat)
    requires i <= j <= |calls|
    ensures |Answers(p, m, calls)| == |calls|
    ensures Answers(p, m, calls)[i..j] == Answers(p, StateAfter(p, m, calls[..i]), calls[i..j])
  {
    AnswersBack(p, m, calls, i);
    AnswersFront(p, StateAfter(p, m, calls[..i]), calls[i..], j - i);
    assert calls[i..][..j - i] == calls[i..j];
    assert Answers(p, m, calls)[i..][..j - i] == Answers(p, m, calls)[i..j];
  }

  lemma {:induction false} CountIsGrants(p: Policy, m: Accounts, calls: seq<Call>, a: nat)
    ensures |Answers(p, m, calls)| == |calls|
    ensures Count(calls, Answers(p, m, calls), a) == Grants(p, m, calls, a)
    decreases |calls|
  {
    AnswersLength(p, m, calls);
    if calls != [] {
      CountIsGrants(p, Taken(p, m, calls[0]), calls[1..], a);
      assert Answers(p, m, calls)[1..] == Answers(p, Taken(p, m, calls[0]), calls[1..]);
    }
  }

  lemma {:induction false} TicksOf(p: Policy, calls: seq<Call>)
    ensures |InTicks(p, calls)| == |calls|
    ensures forall k | 0 <= k < |calls| :: InTicks(p, calls)[k] == Call(calls[k].account, Ticks(p, calls[k].at))
    decreases |calls|
  {
    if calls != [] {
      TicksOf(p, calls[1..]);
    }
  }

  lemma {:induction false} ForwardTicks(p: Policy, calls: seq<Call>, start: real)
    requires Sound(p) && Forward(calls, start)
    ensures Forward(InTicks(p, calls), Ticks(p, start))
    decreases |calls|
  {
    if calls != [] {
      TicksGrow(p, start, calls[0].at);
      ForwardTicks(p, calls[1..], calls[0].at);
      var c := Call(calls[0].account, Ticks(p, calls[0].at));
      assert ([c] + InTicks(p, calls[1..]))[1..] == InTicks(p, calls[1..]);
    }
  }

  /** A stretch of a clock that does not go back does not either, and lies in its bounds. */
  lemma {:induction false} ForwardSlice(calls: seq<Call>, start: real, i: nat, j: nat)
    requires Forward(calls, start) && i < j <= |calls|
    ensures start <= calls[i].at && Forward(calls[i..j], calls[i].at)
    ensures Forward(calls[..i], start) && forall k | 0 <= k < i :: calls[k].at <= calls[i].at
    ensures forall k | i <= k < j :: calls[k].at <= calls[j - 1].at
    decreases |calls|
  {
    if i > 0 {
      ForwardSlice(calls[1..], calls[0].at, i - 1, j - 1);
      assert calls[1..][i - 1..j - 1] == calls[i..j];
      assert calls[..i][1..] == calls[1..][..i - 1] && calls[..i][0] == calls[0];
      forall k | 0 <= k < i ensures calls[k].at <= calls[i].at { assert k > 0 ==> calls[k] == calls[1..][k - 1]; }
      forall k | i <= k < j ensures calls[k].at <= calls[j - 1].at { assert calls[k] == calls[1..][k - 1]; }
    } else {
      ForwardFront(calls, start, j);
      assert calls[0..j] == calls[..j] && calls[..0] == [];
    }
  }

  lemma {:induction false} ForwardFront(calls: seq<Call>, start: real, j: nat)
    requires Forward(calls, start) && 0 < j <= |calls|
    ensures Forward(calls[..j], start) && Forward(calls[..j], calls[0].at)
    ensures forall k | 0 <= k < j :: start <= calls[k].at <= calls[j - 1].at
    decreases j
  {
    assert calls[..j][0] == calls[0] && calls[..j][1..] == calls[1..][..j - 1];
    if j > 1 {
      ForwardFront(calls[1..], calls[0].at, j - 1);
      forall k | 0 <= k < j ensures start <= calls[k].at <= calls[j - 1].at {
        if k > 0 {
          assert calls[k] == calls[1..][k - 1];
        } else {
          assert calls[1..][0].at <= calls[1..][j - 2].at;
        }
      }
    }
  }

  /** The same accounts, so the same count, whatever unit the times are in. */
  lemma {:induction false} CountIgnoresTimes(xs: seq<Call>, ys: seq<Call>, answers: seq<bool>, a: nat)
    requires |xs| == |ys| == |answers| && forall k | 0 <= k < |xs| :: xs[k].account == ys[k].account
    ensures Count(xs, answers, a) == Count(ys, answers, a)
    decreases |xs|
  {
    if xs != [] {
      CountIgnoresTimes(xs[1..], ys[1..], answers[1..], a);
    }
  }

  lemma TicksWindow(p: Policy, calls: seq<Call>, start: real, i: nat, j: nat, a: nat)
    requires Sound(p) && 0.0 <= start && Forward(calls, start) && i < j <= |calls|
    ensures |Answers(p, map[], calls)| == |calls|
    ensures Count(calls[i..j], Answers(p, map[], calls)[i..j], a) as real <= p.burst + (calls[j - 1].at - calls[i].at)
  {
    ForwardSlice(calls, start, i, j);
    AnswersSlice(p, map[], calls, i, j);
    RunIsValid(p, map[], calls[..i], start, calls[i].at);
    var m := StateAfter(p, map[], calls[..i]);
    CountIsGrants(p, m, calls[i..j], a);
    forall k | 0 <= k < |calls[i..j]| ensures calls[i..j][k].at <= calls[j - 1].at { assert calls[i..j][k] == calls[i + k]; }
    GrantsAreBounded(p, m, calls[i..j], calls[i].at, calls[j - 1].at, a);
    LevelBounds(p, m, a, calls[i].at, calls[i].at);
  }

  lemma {:induction false} CountSnoc(calls: seq<Call>, answers: seq<bool>, a: nat)
    requires |calls| == |answers| && calls != []
    ensures var n := |calls| - 1;
            Count(calls, answers, a) == Count(calls[..n], answers[..n], a) + (if calls[n].account == a && answers[n] then 1 else 0)
    decreases |calls|
  {
    var n := |calls| - 1;
    if n > 0 {
      CountSnoc(calls[1..], answers[1..], a);
      assert calls[1..][..n - 1] == calls[..n][1..] && answers[1..][..n - 1] == answers[..n][1..];
    } else {
      assert calls[1..] == [] && answers[1..] == [];
    }
  }

  /** Later, a level is full or has taken in the time between. */
  lemma LevelLater(p: Policy, m: Accounts, a: nat, now: real, t: real)
    requires Sound(p) && Valid(p, m, now) && now <= t
    ensures Level(p, m, a, t) == p.burst || Level(p, m, a, t) >= Level(p, m, a, now) + (t - now)
  {
  }

  /** Call `n` finds a level, and some earlier moment was full and accounts for it. */
  predicate FullAt(p: Policy, calls: seq<Call>, answers: seq<bool>, a: nat, i: nat, level: real)
    requires i < |calls| == |answers| + 1
  {
    level >= p.burst + (calls[|answers|].at - calls[i].at) - Count(calls[i..|answers|], answers[i..], a) as real
  }

  lemma {:induction false} LevelIsDue(p: Policy, calls: seq<Call>, start: real, a: nat) returns (i: nat)
    requires Sound(p) && 0.0 <= start && Forward(calls, start) && calls != []
    ensures var n := |calls| - 1;
            && Valid(p, StateAfter(p, map[], calls[..n]), calls[n].at) && |Answers(p, map[], calls[..n])| == n && i <= n
            && FullAt(p, calls, Answers(p, map[], calls[..n]), a, i, Level(p, StateAfter(p, map[], calls[..n]), a, calls[n].at))
    decreases |calls|
  {
    var n := |calls| - 1;
    var m := StateAfter(p, map[], calls[..n]);
    AnswersLength(p, map[], calls[..n]);
    ForwardSlice(calls, start, n, n + 1);
    RunIsValid(p, map[], calls[..n], start, calls[n].at);
    i := n;
    if Level(p, m, a, calls[n].at) != p.burst {
      i := DueBefore(p, calls, start, a);
    }
  }

  lemma DueBefore(p: Policy, calls: seq<Call>, start: real, a: nat) returns (i: nat)
    requires Sound(p) && 0.0 <= start && Forward(calls, start) && calls != []
    requires var n := |calls| - 1; Level(p, StateAfter(p, map[], calls[..n]), a, calls[n].at) != p.burst
    ensures var n := |calls| - 1;
            && |Answers(p, map[], calls[..n])| == n && i <= n
            && FullAt(p, calls, Answers(p, map[], calls[..n]), a, i, Level(p, StateAfter(p, map[], calls[..n]), a, calls[n].at))
    decreases |calls|, 0
  {
    var n := |calls| - 1;
    assert calls[..0] == [];
    var most, c := calls[..n], calls[n - 1];
    ForwardFront(calls, start, n);
    ForwardSlice(calls, start, n, n + 1);
    i := LevelIsDue(p, most, start, a);
    assert most[..n - 1] == calls[..n - 1];
    var m := StateAfter(p, map[], calls[..n - 1]);
    StateSnoc(p, map[], most);
    TakenLevel(p, m, c, c.at, a);
    LevelLater(p, Taken(p, m, c), a, c.at, calls[n].at);
    DueCounts(p, calls, a, i);
  }

  lemma {:induction false} StateSnoc(p: Policy, m: Accounts, calls: seq<Call>)
    requires calls != []
    ensures var n := |calls| - 1;
            && StateAfter(p, m, calls) == Taken(p, StateAfter(p, m, calls[..n]), calls[n])
            && Answers(p, m, calls) == Answers(p, m, calls[..n]) + [Granted(p, StateAfter(p, m, calls[..n]), calls[n])]
    decreases |calls|
  {
    var n := |calls| - 1;
    if n > 0 {
      StateSnoc(p, Taken(p, m, calls[0]), calls[1..]);
      assert calls[..n][0] == calls[0] && calls[..n][1..] == calls[1..][..n - 1];
    } else {
      assert calls[..0] == [] && calls[1..] == [];
    }
  }

  /** What the last call but one adds to the count. */
  lemma DueCounts(p: Policy, calls: seq<Call>, a: nat, i: nat)
    requires |calls| >= 2 && i < |calls| - 1
    ensures var n := |calls| - 1;
            var answers, m := Answers(p, map[], calls[..n]), StateAfter(p, map[], calls[..n - 1]);
            && |answers| == n && |Answers(p, map[], calls[..n - 1])| == n - 1
            && Count(calls[i..n], answers[i..], a)
               == Count(calls[i..n - 1], Answers(p, map[], calls[..n - 1])[i..], a)
                  + (if calls[n - 1].account == a && Granted(p, m, calls[n - 1]) then 1 else 0)
  {
    var n := |calls| - 1;
    AnswersLength(p, map[], calls[..n]);
    AnswersLength(p, map[], calls[..n - 1]);
    StateSnoc(p, map[], calls[..n]);
    assert calls[..n][..n - 1] == calls[..n - 1];
    var answers := Answers(p, map[], calls[..n]);
    CountSnoc(calls[i..n], answers[i..], a);
    assert calls[i..n][..n - 1 - i] == calls[i..n - 1];
    assert answers[i..][..n - 1 - i] == Answers(p, map[], calls[..n - 1])[i..];
  }

  /** There is room for call `n` in the stretch from call `i`. */
  predicate Room(p: Policy, calls: seq<Call>, answers: seq<bool>, i: nat, n: nat)
    requires i <= n < |calls| == |answers|
  {
    Count(calls[i..n], answers[i..n], calls[n].account) as real + 1.0 <= p.burst + (calls[n].at - calls[i].at)
  }

  lemma GrantedHasRoom(p: Policy, calls: seq<Call>, start: real, i: nat, n: nat)
    requires Sound(p) && 0.0 <= start && Forward(calls, start) && i <= n < |calls|
    requires |Answers(p, map[], calls)| == |calls| && Answers(p, map[], calls)[n]
    ensures Room(p, calls, Answers(p, map[], calls), i, n)
  {
    var answers, a := Answers(p, map[], calls), calls[n].account;
    TicksWindow(p, calls, start, i, n + 1, a);
    CountSnoc(calls[i..n + 1], answers[i..n + 1], a);
    assert calls[i..n + 1][..n - i] == calls[i..n] && answers[i..n + 1][..n - i] == answers[i..n];
  }

  lemma RefusedHasNone(p: Policy, calls: seq<Call>, start: real, n: nat) returns (i: nat)
    requires Sound(p) && 0.0 <= start && Forward(calls, start) && n < |calls|
    requires |Answers(p, map[], calls)| == |calls| && !Answers(p, map[], calls)[n]
    ensures i <= n && !Room(p, calls, Answers(p, map[], calls), i, n)
  {
    var front := calls[..n + 1];
    ForwardFront(calls, start, n + 1);
    i := LevelIsDue(p, front, start, calls[n].account);
    assert front[..n] == calls[..n];
    AnswersFront(p, map[], calls, n);
    AnswersFront(p, map[], calls, n + 1);
    StateSnoc(p, map[], front);
    assert front[i..n] == calls[i..n];
    assert Answers(p, map[], calls)[..n][i..] == Answers(p, map[], calls)[i..n];
  }

  /** The same with the clock in seconds. */
  predicate HasRoom(p: Policy, calls: seq<Call>, answers: seq<bool>, i: nat, n: nat)
    requires i <= n < |calls| == |answers|
  {
    Count(calls[i..n], answers[i..n], calls[n].account) as real + 1.0 <= p.burst + p.rate * (calls[n].at - calls[i].at)
  }

  lemma RoomInSeconds(p: Policy, calls: seq<Call>, answers: seq<bool>, i: nat, n: nat)
    requires i <= n < |calls| == |answers|
    ensures |InTicks(p, calls)| == |calls|
    ensures Room(p, InTicks(p, calls), answers, i, n) <==> HasRoom(p, calls, answers, i, n)
  {
    var ticks := InTicks(p, calls);
    TicksOf(p, calls);
    CountIgnoresTimes(calls[i..n], ticks[i..n], answers[i..n], calls[n].account);
    SpanInTicks(p, calls[i].at, calls[n].at);
  }

  /** EXACTLY WHO IS SERVED.  A call is answered yes if and only if, over every stretch that
      ends with it, its account has been answered yes at least once less than burst + rate * T
      allows: nobody gets more, and nobody is refused who has not had that much. */
  lemma AnsweredIff(p: Policy, calls: seq<Call>, n: nat)
    requires Sound(p) && Forward(calls, 0.0) && n < |calls|
    ensures var answers := Answers(p, map[], InTicks(p, calls));
            && |answers| == |calls|
            && (answers[n] <==> forall i: nat | i <= n :: HasRoom(p, calls, answers, i, n))
  {
    var ticks := InTicks(p, calls);
    var answers := Answers(p, map[], ticks);
    TicksOf(p, calls);
    ForwardTicks(p, calls, 0.0);
    AnswersLength(p, map[], ticks);
    assert Ticks(p, 0.0) == 0.0;
    forall i: nat | i <= n ensures Room(p, ticks, answers, i, n) <==> HasRoom(p, calls, answers, i, n) { RoomInSeconds(p, calls, answers, i, n); }
    if answers[n] {
      forall i: nat | i <= n ensures Room(p, ticks, answers, i, n) { GrantedHasRoom(p, ticks, 0.0, i, n); }
    } else {
      var i := RefusedHasNone(p, ticks, 0.0, n);
      assert !Room(p, ticks, answers, i, n);
    }
  }

  lemma SpanInTicks(p: Policy, x: real, y: real)
    ensures Ticks(p, y) - Ticks(p, x) == p.rate * (y - x)
  {
  }

  lemma ServedIsWindowed(p: Policy, calls: seq<Call>)
    requires Sound(p) && Forward(calls, 0.0)
    ensures var answers := Answers(p, map[], InTicks(p, calls)); |answers| == |calls| && Windowed(p, calls, answers)
  {
    var ticks := InTicks(p, calls);
    var answers := Answers(p, map[], ticks);
    TicksOf(p, calls);
    ForwardTicks(p, calls, 0.0);
    AnswersLength(p, map[], ticks);
    assert Ticks(p, 0.0) == 0.0;
    forall i: nat, j: nat, a: nat | i < j <= |calls| ensures InWindow(p, calls, answers, i, j, a) {
      TicksWindow(p, ticks, 0.0, i, j, a);
      CountIgnoresTimes(calls[i..j], ticks[i..j], answers[i..j], a);
      SpanInTicks(p, calls[i].at, calls[j - 1].at);
    }
  }
}
