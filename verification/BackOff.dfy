/** The reconnect pacing of a WebSocket connection (`ReConnectRate`): a counter that a quiet
    gap of 20 s resets, and a randomised sleep in five tiers that the counter selects.

    A `Pace` is one call. A sequence of them is the history of a connection, and everything
    here is proved of all histories. */
module BackOff {
  import opened Words

  const RESET_GAP := 20000  // ms
  const INTVAL := 100       // ms

  /** A draw of the uniform distribution over 0..100, both ends included. */
  type Draw = x: nat | x <= 100

  /** The two fields that pacing keeps between calls: `last_reconnect_ts_` and
      `connect_fail_count_`. */
  datatype Pacer = Pacer(last: uint64, count: uint32)

  /** One call: the clock on entry, the random draw, the sleep requested and the clock on exit. */
  datatype Pace = Pace(now: uint64, draw: Draw, delay: nat, later: uint64)

  function Tier(count: nat): nat {
    if count <= 2 then 0
    else if count <= 5 then 1
    else if count <= 10 then 10
    else if count <= 50 then 50
    else 600
  }

  /** The sleep that a counter value and a draw ask for; none for the first two calls. */
  function Delay(count: nat, draw: Draw): nat {
    if count <= 2 then 0 else (1 + draw / 10) * Tier(count) * INTVAL + draw % 10
  }

  /** The counter after a call that reads `now` on entry. */
  function Bump(p: Pacer, now: uint64): uint32 {
    if Minus(now, p.last) >= RESET_GAP then 1
    else if p.count == U32 - 1 then 0
    else p.count + 1
  }

  /** The fields after a history, starting from a new connection. */
  function Replay(h: seq<Pace>): Pacer {
    if h == [] then Pacer(0, 0)
    else Pacer(h[|h| - 1].later, Bump(Replay(h[..|h| - 1]), h[|h| - 1].now))
  }

  /** Every sleep in the history is the one that the counter and the draw ask for. */
  ghost predicate Genuine(h: seq<Pace>) {
    h == [] ||
    (Genuine(h[..|h| - 1]) && h[|h| - 1].delay == Delay(Replay(h).count, h[|h| - 1].draw))
  }

  /** The clock never goes back, and a sleep lasts at least as long as requested. */
  ghost predicate SteadyClock(h: seq<Pace>) {
    && (forall i :: 0 <= i < |h| ==> h[i].now + h[i].delay <= h[i].later)
    && (forall i :: 0 < i < |h| ==> h[i - 1].later <= h[i].now)
  }

  /** Time from the first clock reading of a history to its last. */
  function Span(h: seq<Pace>): int
    requires h != []
  {
    h[|h| - 1].later - h[0].now
  }

  /** The least total sleep of `n` calls in a row without a reset. */
  function MinSleep(n: nat): nat {
    if n == 0 then 0 else MinSleep(n - 1) + Tier(n) * INTVAL
  }

  /** `MinSleep` in closed form. */
  lemma {:induction false} MinSleepClosed(n: nat)
    ensures MinSleep(n) ==
            if n <= 2 then 0
            else if n <= 5 then 100 * (n - 2)
            else if n <= 10 then 300 + 1000 * (n - 5)
            else if n <= 50 then 5300 + 5000 * (n - 10)
            else 205300 + 60000 * (n - 50)
  {
    if n > 0 {
      MinSleepClosed(n - 1);
    }
  }

  lemma MinSleepNext(n: nat)
    ensures MinSleep(n + 1) == MinSleep(n) + Tier(n + 1) * INTVAL
  {
  }

  lemma SteadyPrefix(h: seq<Pace>)
    requires h != [] && SteadyClock(h)
    ensures SteadyClock(h[..|h| - 1])
  {
    var p := h[..|h| - 1];
    forall i | 0 < i < |p| ensures p[i - 1].later <= p[i].now {
      assert p[i - 1] == h[i - 1] && p[i] == h[i];
    }
  }

  // ----- The throttle

  /** What a counter value has earned: its least total sleep, less 2530 ms a call. */
  function Earned(c: nat): int {
    MinSleep(c) - 2530 * c
  }

  lemma EarnedAtLeast(c: nat)
    ensures Earned(c) >= -20000
    ensures Earned(0) == 0 && Earned(1) == -2530
    ensures c == U32 - 1 ==> Earned(c) >= 2530
  {
    MinSleepClosed(c);
    MinSleepClosed(0);
    MinSleepClosed(1);
  }

  /** The quiet time before call `i`, as the program computes it. */
  function Gap(h: seq<Pace>, i: nat): uint64
    requires 0 < i < |h|
  {
    Minus(h[i].now, h[i - 1].later)
  }

  /** Quiet time counts up to the gap that resets. */
  function Capped(gap: nat): nat {
    if gap < RESET_GAP then gap else RESET_GAP
  }

  /** One call costs 2530 ms of credit and is paid by its quiet time and its sleep. A reset pays
      with the gap; the wrap of the counter with the sleep of the 2^32 - 1 calls before it. */
  lemma CreditStep(p: Pacer, e: Pace)
    requires e.delay == Delay(Bump(p, e.now), e.draw)
    ensures Earned(Bump(p, e.now)) <=
            Earned(p.count) + Capped(Minus(e.now, p.last)) + e.delay - 2530
  {
    var c := Bump(p, e.now);
    EarnedAtLeast(p.count);
    DelayBounds(c, e.draw);
    if Minus(e.now, p.last) < RESET_GAP && p.count + 1 < U32 {
      assert MinSleep(c) == MinSleep(p.count) + Tier(c) * INTVAL;
    }
  }

  /** The sleeps requested, and the quiet time between the calls. */
  function Work(h: seq<Pace>): nat {
    if h == [] then 0
    else
      var n := |h| - 1;
      Work(h[..n]) + (if n > 0 then Capped(Gap(h, n)) else 0) + h[n].delay
  }

  /** A stretch of calls that begins with the counter at 0, or one call before that, has one call or
      two more than those that begin elsewhere. */
  function Debt(count: uint32): nat {
    if count == 0 then 2530 else if count == U32 - 1 then 2 * 2530 else 0
  }

  /** No streak sleeps less than one that starts from a new connection. */
  lemma {:induction false} LaterCallsSleepMore(first: nat, n: nat)
    requires first > 0
    ensures MinSleep(first + n) >= MinSleep(first) + MinSleep(1 + n)
  {
    if n > 0 {
      LaterCallsSleepMore(first, n - 1);
    } else {
      MinSleepClosed(1);
    }
  }

  /** What is in hand after `k` calls, given the counter after the first of them and now, and the
      work done since the first: while neither a reset nor the wrap has happened it is the sleep
      of one streak; afterwards it never falls below what the current streak has earned. */
  ghost predicate InHand(first: uint32, count: uint32, k: nat, work: int) {
    || (first > 0 && count == first - 1 + k && work >= MinSleep(count) - MinSleep(first))
    || work - 2530 * k >= Earned(count) - Debt(first)
  }

  lemma StreakInHand(first: uint32, k: nat, p: Pacer, e: Pace, work: int)
    requires first > 0 && k > 0 && p.count == first - 1 + k
    requires work >= MinSleep(p.count) - MinSleep(first)
    requires e.delay == Delay(Bump(p, e.now), e.draw)
    ensures InHand(first, Bump(p, e.now), k + 1, work + Capped(Minus(e.now, p.last)) + e.delay)
  {
    hide MinSleep, Tier, Delay;
    DelayBounds(Bump(p, e.now), e.draw);
    if Minus(e.now, p.last) >= RESET_GAP {
      LaterCallsSleepMore(first, k - 1);
      EarnedAtLeast(k);
      EarnedAtLeast(1);
    } else if p.count == U32 - 1 {
      MinSleepClosed(p.count);
      MinSleepClosed(first);
      MinSleepClosed(0);
    } else {
      MinSleepNext(p.count);
    }
  }

  lemma InHandStep(first: uint32, k: nat, p: Pacer, e: Pace, work: int)
    requires k > 0 && InHand(first, p.count, k, work)
    requires e.delay == Delay(Bump(p, e.now), e.draw)
    ensures InHand(first, Bump(p, e.now), k + 1, work + Capped(Minus(e.now, p.last)) + e.delay)
  {
    if work - 2530 * k >= Earned(p.count) - Debt(first) {
      CreditStep(p, e);
    } else {
      StreakInHand(first, k, p, e, work);
    }
  }

  /** The potential behind the throttle, for the calls of a history from number `i` on. */
  lemma {:induction false} Credit(h: seq<Pace>, i: nat)
    requires i < |h| && Genuine(h)
    ensures InHand(Replay(h[..i + 1]).count, Replay(h).count, |h| - i, Work(h[i..]) - h[i].delay)
  {
    hide InHand, Delay, Bump, MinSleep;
    var p, e := h[..|h| - 1], h[|h| - 1];
    var first := Replay(h[..i + 1]).count;
    if i == |p| {
      assert h[..i + 1] == h && h[i..] == [e] && [e][..0] == [];
      FirstInHand(first);
    } else {
      Credit(p, i);
      assert p[..i + 1] == h[..i + 1] && h[i..][..|h| - 1 - i] == p[i..];
      InHandStep(first, |p| - i, Replay(p), e, Work(p[i..]) - h[i].delay);
    }
  }

  lemma FirstInHand(first: uint32)
    ensures InHand(first, first, 1, 0)
  {
    hide MinSleep;
    MinSleepClosed(0);
  }

  /** Throttle, under any clock: however calls, gaps, draws, resets and counter wraps fall, N calls
      in a row take, after the first, at least 2530 N - 20000 ms of sleep and quiet time as the
      program sees them; except that a stretch can have one call more if it begins where the
      counter has wrapped to 0, and two if it begins just before. */
  lemma ThrottleUnderAnyClock(h: seq<Pace>, i: nat, j: nat)
    requires Genuine(h) && i < j <= |h|
    ensures 2530 * (j - i) <=
            Work(h[i..j]) - h[i].delay + 20000 + Debt(Replay(h[..i + 1]).count)
  {
    hide MinSleep, Delay, Bump, Replay, Genuine, Work;
    var p, first := h[..j], Replay(h[..i + 1]).count;
    GenuinePrefix(h, j);
    Credit(p, i);
    assert p[..i + 1] == h[..i + 1] && p[i..] == h[i..j];
    EarnedAtLeast(Replay(p).count);
    if first > 0 {
      LaterCallsSleepMore(first, j - i - 1);
      EarnedAtLeast(j - i);
    }
  }

  lemma {:induction false} GenuinePrefix(h: seq<Pace>, k: nat)
    requires Genuine(h) && k <= |h|
    ensures Genuine(h[..k])
  {
    if k < |h| {
      GenuinePrefix(h[..|h| - 1], k);
      assert h[..|h| - 1][..k] == h[..k];
    } else {
      assert h[..k] == h;
    }
  }

  /** The sleeps requested, and the quiet time where the clock did not step back. */
  function Forward(h: seq<Pace>): nat {
    if h == [] then 0
    else
      var n := |h| - 1;
      var quiet := if n > 0 && h[n - 1].later <= h[n].now then h[n].now - h[n - 1].later else 0;
      Forward(h[..n]) + quiet + h[n].delay
  }

  /** Number of calls before which the clock stepped back. */
  function Backs(h: seq<Pace>): nat {
    if h == [] then 0
    else
      var n := |h| - 1;
      Backs(h[..n]) + if n > 0 && h[n].now < h[n - 1].later then 1 else 0
  }

  /** A step back of the clock passes for at most 20 s of quiet time. */
  lemma {:induction false} BacksCost(h: seq<Pace>)
    ensures Work(h) <= Forward(h) + 20000 * Backs(h)
  {
    if h != [] {
      BacksCost(h[..|h| - 1]);
    }
  }

  lemma {:induction false} SteadyWork(h: seq<Pace>)
    requires h != [] && SteadyClock(h)
    ensures Work(h) - h[0].delay <= h[|h| - 1].later - h[0].later
  {
    var p := h[..|h| - 1];
    if p != [] {
      SteadyPrefix(h);
      SteadyWork(p);
      assert p[0] == h[0] && p[|p| - 1] == h[|h| - 2];
    } else {
      assert Work(p) == 0;
    }
  }

  /** Throttle for any stretch of calls: N connection attempts in a row take at least
      2530 N - 20000 ms from the first attempt to the last, which follow their calls, and from the
      entry of the first call; or up to two calls less where the counter wraps. */
  lemma AnyStretch(h: seq<Pace>, i: nat, j: nat)
    requires Genuine(h) && i < j <= |h| && SteadyClock(h[i..j])
    ensures var count := Replay(h[..i + 1]).count;
            && 2530 * (j - i) <= h[j - 1].later - h[i].later + 20000 + Debt(count)
            && 2530 * (j - i) <=
               h[j - 1].later - h[i].now + 20000 + if count == 0 then 2530 else 0
  {
    var count := Replay(h[..i + 1]).count;
    ThrottleUnderAnyClock(h, i, j);
    SteadyWork(h[i..j]);
    GenuinePrefix(h, i + 1);
    DelayBounds(count, h[i].draw);
    assert h[i..j][0] == h[i] && h[i..j][0].now + h[i].delay <= h[i].later;
  }

  /** Throttle from the start: the first N attempts of a connection take at least 2530 N - 20000
      milliseconds. */
  lemma Throttle(h: seq<Pace>)
    requires h != [] && Genuine(h) && SteadyClock(h)
    ensures 2530 * |h| <= Span(h) + 20000
  {
    assert h[0..|h|] == h;
    AnyStretch(h, 0, |h|);
    assert h[..1][..0] == [] && Replay([]) == Pacer(0, 0);
  }

  // ----- What the counter counts

  /** `n` is the length of the longest suffix of the history in which every quiet time between
      two calls is below 20 s. */
  ghost predicate IsStreak(h: seq<Pace>, n: nat) {
    && 1 <= n <= |h|
    && (forall i :: |h| - n < i < |h| ==> Gap(h, i) < RESET_GAP)
    && (n < |h| ==> Gap(h, |h| - n) >= RESET_GAP)
  }

  lemma StreakExtends(h: seq<Pace>, m: nat, n: nat)
    requires |h| > 1 && IsStreak(h[..|h| - 1], m)
    requires n == if Gap(h, |h| - 1) >= RESET_GAP then 1 else m + 1
    ensures IsStreak(h, n)
  {
    var p := h[..|h| - 1];
    assert forall i :: 0 < i < |p| ==> Gap(p, i) == Gap(h, i);
  }

  lemma Modulo(m: nat)
    ensures (m + 1) % U32 == if m % U32 == U32 - 1 then 0 else m % U32 + 1
  {
  }

  /** The counter is the length of the current streak, modulo 2^32. The time spent in a call,
      its sleep included, plays no part. */
  lemma {:induction false} CounterRefinesHistory(h: seq<Pace>) returns (n: nat)
    requires h != []
    ensures IsStreak(h, n)
    ensures Replay(h).count == n % U32 && (n < U32 ==> Replay(h).count == n)
  {
    var p, e := h[..|h| - 1], h[|h| - 1];
    if p == [] {
      n := 1;
      assert Replay(p) == Pacer(0, 0);
    } else {
      var m := CounterRefinesHistory(p);
      assert Replay(p).last == h[|h| - 2].later;
      assert Replay(h).count == Bump(Replay(p), e.now);
      n := if Gap(h, |h| - 1) >= RESET_GAP then 1 else m + 1;
      StreakExtends(h, m, n);
      Modulo(m);
    }
  }

  lemma StreakIsUnique(h: seq<Pace>, m: nat, n: nat)
    requires IsStreak(h, m) && IsStreak(h, n)
    ensures m == n
  {
  }

  /** A clock reading before the last call. The unsigned difference is then huge, unless the step
      back is itself within 20 s of 2^64. */
  predicate IsBack(last: uint64, now: uint64) {
    now < last && last - now <= U64 - RESET_GAP
  }

  /** When the counter restarts, for all clock readings: after a quiet 20 s, and after any step of
      the clock to before the last call, but for one within 20 s of 2^64. */
  lemma ResetRule(p: Pacer, now: uint64)
    ensures (now >= p.last && now - p.last >= RESET_GAP) || IsBack(p.last, now) ==>
              Bump(p, now) == 1
    ensures !((now >= p.last && now - p.last >= RESET_GAP) || IsBack(p.last, now)) ==>
              Bump(p, now) == (p.count + 1) % U32
  {
    Modulo(p.count);
  }

  // ----- How long a streak sleeps

  lemma DelayBounds(count: nat, draw: Draw)
    ensures Tier(count) * INTVAL <= Delay(count, draw) <= 11 * Tier(count) * INTVAL
  {
    var k := 1 + draw / 10;
    assert draw == 100 || k <= 10;
    if k <= 10 {
      assert k * Tier(count) <= 10 * Tier(count);
    }
    assert Tier(count) <= k * Tier(count);
  }

  /** What the draw does, from the third call on: each ten of it adds the least sleep once more, and
      each one of the rest a millisecond; so the greatest draw sleeps eleven times as long as the
      least. The first two calls do not sleep. */
  lemma DrawsSpread(c: nat, d: Draw)
    ensures c <= 2 ==> Delay(c, d) == 0
    ensures c > 2 ==>
              Delay(c, 0) == if c <= 5 then 100 else if c <= 10 then 1000
                             else if c <= 50 then 5000 else 60000
    ensures c > 2 && d + 10 <= 100 ==> Delay(c, d + 10) == Delay(c, d) + Delay(c, 0)
    ensures c > 2 && d < 100 && d % 10 < 9 ==> Delay(c, d + 1) == Delay(c, d) + 1
    ensures Delay(c, 100) == 11 * Delay(c, 0) && Delay(c, 0) == Tier(c) * INTVAL
  {
    if d + 10 <= 100 {
      assert (d + 10) / 10 == d / 10 + 1 && (d + 10) % 10 == d % 10;
    }
    if d < 100 && d % 10 < 9 {
      assert (d + 1) / 10 == d / 10 && (d + 1) % 10 == d % 10 + 1;
    }
  }

  /** No two draws ask for the same sleep: a greater one always sleeps longer. */
  lemma DrawsDiffer(c: nat, d: Draw, e: Draw)
    requires c > 2 && d < e
    ensures Delay(c, d) < Delay(c, e)
  {
    var i, j := d / 10, e / 10;
    if i < j {
      assert (1 + i) * Tier(c) + Tier(c) <= (1 + j) * Tier(c);
    }
  }

  /** For one draw, a later call of a streak never sleeps less than an earlier one. */
  lemma DelayMonotone(c: nat, d: nat, draw: Draw)
    requires c <= d
    ensures Delay(c, draw) <= Delay(d, draw)
  {
    var k := 1 + draw / 10;
    assert Tier(c) <= Tier(d);
    assert k * Tier(c) <= k * Tier(d);
  }

  /** Total sleep requested by the last `n` calls. */
  function TailSleep(h: seq<Pace>, n: nat): nat
    requires n <= |h|
  {
    if n == 0 then 0 else TailSleep(h[..|h| - 1], n - 1) + h[|h| - 1].delay
  }

  lemma StreakOfPrefix(h: seq<Pace>, n: nat)
    requires IsStreak(h, n) && n > 1
    ensures IsStreak(h[..|h| - 1], n - 1)
  {
    var p := h[..|h| - 1];
    assert forall i :: 0 < i < |p| ==> Gap(p, i) == Gap(h, i);
  }

  /** A streak of n calls, with no wrap, asks for between f(n) and 11 f(n) of sleep. */
  lemma {:induction false} StreakBounds(h: seq<Pace>, n: nat)
    requires Genuine(h) && IsStreak(h, n) && n < U32
    ensures MinSleep(n) <= TailSleep(h, n) <= 11 * MinSleep(n)
  {
    var m := CounterRefinesHistory(h);
    StreakIsUnique(h, m, n);
    DelayBounds(n, h[|h| - 1].draw);
    if n == 1 {
      assert MinSleep(1) == MinSleep(0) + Tier(1) * INTVAL == 0;
      assert TailSleep(h, 1) == TailSleep(h[..|h| - 1], 0) + h[|h| - 1].delay;
    } else {
      StreakOfPrefix(h, n);
      StreakBounds(h[..|h| - 1], n - 1);
    }
  }

  lemma {:induction false} SpanCoversSleep(h: seq<Pace>, n: nat)
    requires h != [] && SteadyClock(h) && n <= |h|
    ensures TailSleep(h, n) <= Span(h)
  {
    var p := h[..|h| - 1];
    if p == [] {
      if n == 1 {
        assert TailSleep(h, 1) == TailSleep(p, 0) + h[0].delay;
      }
    } else {
      SteadyPrefix(h);
      SpanCoversSleep(p, if n == 0 then 0 else n - 1);
      assert p[0] == h[0] && p[|p| - 1] == h[|h| - 2];
    }
  }

  lemma {:induction false} LongStreakTakesTime(h: seq<Pace>, n: nat)
    requires Genuine(h) && SteadyClock(h) && IsStreak(h, n) && n >= U32 - 1
    ensures Span(h) >= MinSleep(U32 - 1)
  {
    if n == U32 - 1 {
      StreakBounds(h, n);
      SpanCoversSleep(h, n);
    } else {
      var p := h[..|h| - 1];
      StreakOfPrefix(h, n);
      SteadyPrefix(h);
      LongStreakTakesTime(p, n - 1);
      assert p[0] == h[0] && p[|p| - 1] == h[|h| - 2];
    }
  }

  /** No wrap before f(2^32 - 1) milliseconds: in a shorter history the counter is exactly the
      length of the streak. */
  lemma NoWrapBefore(h: seq<Pace>) returns (n: nat)
    requires h != [] && Genuine(h) && SteadyClock(h)
    requires Span(h) < MinSleep(U32 - 1)
    ensures IsStreak(h, n) && Replay(h).count == n
  {
    n := CounterRefinesHistory(h);
    if n >= U32 - 1 {
      LongStreakTakesTime(h, n);
    }
  }

  /** Time and counter after `k` calls without quiet time in which every draw is 0 or, in a slow
      history, 100. */
  function RapidTime(k: nat, slow: bool): (t: uint64)
    requires k <= 2 * (U32 - 1)
  {
    MinSleepClosed(U32 - 1);
    MinSleepClosed(if k < U32 then k else k - U32);
    var least := if k < U32 then MinSleep(k) else MinSleep(U32 - 1) + MinSleep(k - U32);
    if slow then 11 * least else least
  }

  function RapidCount(k: nat): uint32
    requires k <= 2 * (U32 - 1)
  {
    if k < U32 then k else k - U32
  }

  function RapidDraw(slow: bool): Draw {
    if slow then 100 else 0
  }

  lemma RapidStep(k: nat, slow: bool)
    requires 0 < k <= 2 * (U32 - 1)
    ensures RapidTime(k, slow) == RapidTime(k - 1, slow) + Delay(RapidCount(k), RapidDraw(slow))
  {
    hide MinSleep, Delay, Tier;
    MinSleepClosed(0);
    DrawsSpread(RapidCount(k), 0);
    if RapidCount(k) > 0 {
      MinSleepNext(RapidCount(k) - 1);
    }
  }

  lemma RapidBump(n: nat, slow: bool)
    requires 0 < n <= 2 * (U32 - 1)
    ensures var now := RapidTime(n - 1, slow);
            Bump(Pacer(now, RapidCount(n - 1)), now) == RapidCount(n)
    ensures Bump(Pacer(0, 0), RapidTime(0, slow)) == RapidCount(1) && RapidCount(0) == 0
  {
    hide MinSleep;
  }

  function RapidCall(k: nat, slow: bool): Pace
    requires 0 < k <= 2 * (U32 - 1)
  {
    Pace(RapidTime(k - 1, slow), RapidDraw(slow), Delay(RapidCount(k), RapidDraw(slow)),
         RapidTime(k, slow))
  }

  function Rapid(n: nat, slow: bool): (h: seq<Pace>)
    requires n <= 2 * (U32 - 1)
    ensures |h| == n && (forall i :: 0 <= i < n ==> h[i] == RapidCall(i + 1, slow))
  {
    seq(n, i requires 0 <= i < n => RapidCall(i + 1, slow))
  }

  lemma {:induction false} RapidIsGenuine(n: nat, slow: bool)
    requires n <= 2 * (U32 - 1)
    ensures Genuine(Rapid(n, slow)) && Replay(Rapid(n, slow)).count == RapidCount(n)
    ensures n > 0 ==> Replay(Rapid(n, slow)).last == RapidTime(n, slow)
  {
    hide RapidTime, RapidCount, Delay, MinSleep, Bump;
    if n > 0 {
      RapidIsGenuine(n - 1, slow);
      RapidBump(n, slow);
      var h, p := Rapid(n, slow), Rapid(n - 1, slow);
      assert h[..n - 1] == p;
      assert Replay(h).count == Bump(Replay(p), h[n - 1].now);
      assert Replay(h).last == h[n - 1].later;
    } else {
      RapidBump(1, slow);
    }
  }

  lemma RapidIsSteady(n: nat, slow: bool)
    requires n <= 2 * (U32 - 1)
    ensures SteadyClock(Rapid(n, slow))
  {
    hide RapidTime, Delay;
    var h := Rapid(n, slow);
    forall i | 0 <= i < n ensures h[i].now + h[i].delay <= h[i].later {
      RapidStep(i + 1, slow);
    }
  }

  lemma {:induction false} SlowSleep(n: nat, k: nat)
    requires k <= n < U32
    ensures TailSleep(Rapid(n, true), k) == 11 * (MinSleep(n) - MinSleep(n - k))
  {
    hide RapidTime, Delay, MinSleep;
    if k > 0 {
      var h, p := Rapid(n, true), Rapid(n - 1, true);
      assert h[..n - 1] == p;
      SlowSleep(n - 1, k - 1);
      MinSleepNext(n - 1);
      DrawsSpread(n, 0);
      assert h[n - 1].delay == Delay(n, 100);
    }
  }

  /** The upper bound on the sleep of a streak is reached, for every length: with draws of 100. */
  lemma SlowestStreak(n: nat) returns (h: seq<Pace>)
    requires 0 < n < U32
    ensures Genuine(h) && SteadyClock(h) && |h| == n && IsStreak(h, n)
    ensures TailSleep(h, n) == 11 * MinSleep(n)
  {
    hide MinSleep;
    h := Rapid(n, true);
    RapidIsGenuine(n, true);
    RapidIsSteady(n, true);
    SlowSleep(n, n);
    MinSleepClosed(0);
    forall i | 0 < i < n ensures Gap(h, i) == 0 {
    }
  }

  /** That bound is exact: a steady history of exactly f(2^32 - 1) milliseconds does wrap the
      counter, because call number 2^32 finds it at 0 and is not delayed. */
  lemma WrapIsReachable() returns (h: seq<Pace>)
    ensures Genuine(h) && SteadyClock(h) && |h| == U32
    ensures Span(h) == MinSleep(U32 - 1)
    ensures IsStreak(h, U32) && Replay(h).count == 0
  {
    hide MinSleep;
    h := Rapid(U32, false);
    RapidIsGenuine(U32, false);
    RapidIsSteady(U32, false);
    MinSleepClosed(0);
    var n := CounterRefinesHistory(h);
    assert U32 % U32 == 0;
    assert n == U32;
  }

  /** The throttle is tight: ten attempts can fit in the least time it allows. */
  lemma ThrottleIsTight() returns (h: seq<Pace>)
    ensures Genuine(h) && SteadyClock(h) && |h| == 10
    ensures 2530 * |h| == Span(h) + 20000
  {
    hide MinSleep;
    h := Rapid(10, false);
    RapidIsGenuine(10, false);
    RapidIsSteady(10, false);
    MinSleepClosed(0);
    MinSleepClosed(10);
  }

  /** And so it is for stretches that begin where the counter wraps: here are eleven calls in a row,
      and twelve, in the least time that it allows them. */
  lemma StretchIsTight() returns (h: seq<Pace>, i: nat)
    ensures Genuine(h) && SteadyClock(h) && |h| == i + 12
    ensures Replay(h[..i + 1]).count == U32 - 1 && Replay(h[..i + 2]).count == 0
    ensures h[i].later == h[i + 1].now == h[i + 1].later
    ensures 2530 * 12 == h[|h| - 1].later - h[i].later + 20000 + Debt(U32 - 1)
    ensures 2530 * 11 == h[|h| - 1].later - h[i + 1].later + 20000 + Debt(0)
  {
    hide MinSleep;
    i := U32 - 2;
    h := Rapid(U32 + 10, false);
    RapidIsGenuine(U32 + 10, false);
    RapidIsGenuine(U32 - 1, false);
    RapidIsGenuine(U32, false);
    RapidIsSteady(U32 + 10, false);
    assert h[..i + 1] == Rapid(U32 - 1, false) && h[..i + 2] == Rapid(U32, false);
    MinSleepClosed(0);
    MinSleepClosed(10);
  }

  /** The throttle in time needs the steady clock: when the clock steps back before every call, the
      unsigned subtraction wraps, every call resets the counter, and none of them sleeps. */
  lemma {:induction false} BackwardClockIsNotThrottled(h: seq<Pace>)
    requires h != [] && Genuine(h)
    requires forall i :: 0 < i < |h| ==> IsBack(h[i - 1].later, h[i].now)
    ensures Replay(h).count == 1
    ensures forall i :: 0 <= i < |h| ==> h[i].delay == 0
  {
    var p, e := h[..|h| - 1], h[|h| - 1];
    assert Replay(h).count == Bump(Replay(p), e.now);
    if p == [] {
      assert Replay(p) == Pacer(0, 0);
    } else {
      BackwardClockIsNotThrottled(p);
      assert Replay(p).last == h[|h| - 2].later;
    }
    forall i | 0 <= i < |p| ensures h[i].delay == 0 {
      assert h[i] == p[i];
    }
  }

  /** A history of any length in which the clock steps back one millisecond before every call. */
  function Backward(n: nat): (h: seq<Pace>)
    requires n < I64
    ensures |h| == n && (forall i :: 0 <= i < n ==> h[i] == Pace(I64 - 1 - i, 0, 0, I64 - 1 - i))
  {
    seq(n, i requires 0 <= i < n => Pace(I64 - 1 - i, 0, 0, I64 - 1 - i))
  }

  lemma {:induction false} BackwardIsGenuine(n: nat)
    requires n < I64
    ensures Genuine(Backward(n))
  {
    if n > 0 {
      var h, p := Backward(n), Backward(n - 1);
      assert h[..n - 1] == p;
      BackwardIsGenuine(n - 1);
      assert Replay(h).count == Bump(Replay(p), h[n - 1].now);
      if n == 1 {
        assert Replay(p) == Pacer(0, 0);
      } else {
        assert Replay(p).last == p[n - 2].later;
      }
    }
  }
}
