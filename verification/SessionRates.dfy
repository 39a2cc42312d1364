/** The rate limit of a session: how many connection attempts a window of time can hold. */
module SessionRates {
  import opened Words
  import opened BackOff
  import opened Session
  import opened SessionPacing
  import opened SessionHistories

  /** The pacing call ends, and its connection attempt begins, within the window. */
  predicate InWindow(e: Pace, from: nat, window: nat) {
    from <= e.later <= from + window
  }

  /** How many attempts of a history begin within the window. */
  function Count(h: seq<Pace>, from: nat, window: nat): nat {
    if h == [] then 0
    else
      Count(h[..|h| - 1], from, window) + if InWindow(h[|h| - 1], from, window) then 1 else 0
  }

  lemma {:induction false} LaterGrows(h: seq<Pace>, i: nat, k: nat)
    requires SteadyClock(h) && i <= k < |h|
    ensures h[i].later <= h[k].later
  {
    if i < k {
      LaterGrows(h, i, k - 1);
      assert h[k - 1].later <= h[k].now;
    }
  }

  /** Under a steady clock the attempts within a window are a stretch of the history. */
  lemma {:induction false} CountedStretch(h: seq<Pace>, from: nat, window: nat)
      returns (i: nat, j: nat)
    requires SteadyClock(h)
    ensures i <= j <= |h| && Count(h, from, window) == j - i
    ensures forall k :: 0 <= k < |h| ==> (i <= k < j <==> InWindow(h[k], from, window))
  {
    hide SteadyClock;
    if h == [] {
      return 0, 0;
    }
    var n := |h| - 1;
    SteadyPrefix(h);
    i, j := CountedStretch(h[..n], from, window);
    assert forall k :: 0 <= k < n ==> (InWindow(h[..n][k], from, window) <==>
                                       InWindow(h[k], from, window));
    if InWindow(h[n], from, window) {
      if i < j {
        LaterGrows(h, i, n - 1);
        LaterGrows(h, n - 1, n);
        assert InWindow(h[n - 1], from, window);
      } else {
        i := n;
      }
      j := n + 1;
    }
  }

  /** Rate limit: in every run, the attempts that begin within any window of T milliseconds number
      at most (T + 25060) / 2530. */
  lemma SessionRate(u: Setup, env: Env, n: nat, from: nat, window: nat)
    requires SteadyClock(Paces(Run(u, env, n).log))
    ensures 2530 * Count(Paces(Run(u, env, n).log), from, window) <= window + 25060
  {
    hide Run, SteadyClock, Count;
    var h := Paces(Run(u, env, n).log);
    var i, j := CountedStretch(h, from, window);
    if i < j {
      SteadyStretch(h, i, j);
      SessionAnyStretch(u, env, n, i, j);
      assert InWindow(h[i], from, window) && InWindow(h[j - 1], from, window);
    }
  }

  lemma SteadyStretch(h: seq<Pace>, i: nat, j: nat)
    requires SteadyClock(h) && i <= j <= |h|
    ensures SteadyClock(h[i..j])
  {
    var p := h[i..j];
    forall k | 0 < k < |p| ensures p[k - 1].later <= p[k].now {
      assert p[k - 1] == h[i + k - 1] && p[k] == h[i + k];
    }
  }

  /** The rate limit is tight: where its counter wraps, a run has twelve attempts in 5300 ms. */
  lemma RateIsTight(u: Setup) returns (env: Env, n: nat, from: nat)
    requires !u.stop
    ensures var h := Paces(Run(u, env, n).log);
            SteadyClock(h) && 2530 * Count(h, from, 5300) == 5300 + 25060
  {
    hide Run, SteadyClock, Count, Replay;
    var i;
    env, n, i := RunCanBeTightAtTheWrap(u);
    var h := Paces(Run(u, env, n).log);
    from := h[i].later;
    var a, b := CountedStretch(h, from, 5300);
    forall k | i <= k < |h| ensures InWindow(h[k], from, 5300) {
      LaterGrows(h, i, k);
      LaterGrows(h, k, |h| - 1);
    }
    assert a <= i < b && b > |h| - 1;
    SessionRate(u, env, n, from, 5300);
  }
}
