/** The pacing histories that sessions make are exactly the genuine ones. One half is
    `SessionPacing.RunPaces`; here is the other, and with it the extreme histories of module
    BackOff, as runs. */
module SessionHistories {
  import opened Words
  import opened BackOff
  import opened Session
  import opened SessionPacing

  /** An environment in which every connection is refused, with the clock and the draws of a
      history. An attempt uses two choices: one for its pacing and one for its connection. */
  function Refusing(h: seq<Pace>): Env {
    (i: nat) =>
      var e := if i / 2 < |h| then h[i / 2] else Pace(0, 0, 0, 0);
      Choice(Turn(false, false), Other, Ok, [], CtrlContinue, e.now, e.draw, e.later, [])
  }

  /** The session is about to reconnect for the next time, after `k` attempts of the history. */
  ghost predicate Between(s: State, h: seq<Pace>, k: nat) {
    && k <= |h|
    && s.pc == Enter(AtStart) && !s.open && !s.stop
    && s.pos == 2 * k
    && s.pacer == Replay(h[..k])
    && Paces(s.log) == h[..k]
  }

  /** The two steps before pacing, and the four from pacing to the refusal. */
  lemma EnterSteps(ssl: bool, s: State, c: Choice, d: Choice, h: seq<Pace>, k: nat)
    requires Between(s, h, k)
    ensures var t := Step(ssl, Step(ssl, s, c), d);
            && t.pc == Rate(AtStart) && !t.open && !t.stop && t.pos == s.pos
            && t.pacer == s.pacer && Paces(t.log) == Paces(s.log)
  {
    StepPaces(ssl, s, c);
    StepPaces(ssl, Step(ssl, s, c), d);
  }

  lemma PaceOfHistory(h: seq<Pace>, k: nat)
    requires Genuine(h) && k < |h|
    ensures var count := Bump(Replay(h[..k]), h[k].now);
            && Replay(h[..k + 1]) == Pacer(h[k].later, count)
            && h[k].delay == Delay(count, h[k].draw)
  {
    var p := h[..k + 1];
    assert p[..k] == h[..k] && p[k] == h[k];
    GenuinePrefix(h, k + 1);
  }

  lemma QuietRate(ssl: bool, s: State, c: Choice)
    requires s.pc == Rate(AtStart) && !s.open && !s.stop && c.turn == Turn(false, false)
    ensures var t := Step(ssl, s, c);
            && t.pc == Delete(AtStart) && !t.open && !t.stop && t.pos == s.pos + 1
            && t.pacer == Pacer(c.later, Bump(s.pacer, c.now))
            && Paces(t.log) == Paces(s.log) + [PaceOf(s, c)]
  {
    StepPaces(ssl, s, c);
  }

  lemma RateStep(ssl: bool, s: State, h: seq<Pace>, k: nat)
    requires k < |h| && Genuine(h)
    requires s.pc == Rate(AtStart) && !s.open && !s.stop && s.pos == 2 * k
    requires s.pacer == Replay(h[..k]) && Paces(s.log) == h[..k]
    ensures var t := Step(ssl, s, Refusing(h)(s.pos));
            && t.pc == Delete(AtStart) && !t.open && !t.stop && t.pos == 2 * k + 1
            && t.pacer == Replay(h[..k + 1]) && Paces(t.log) == h[..k + 1]
  {
    hide Step, Bump, Delay, Replay, Genuine, Paces;
    assert s.pos / 2 == k;
    PaceOfHistory(h, k);
    QuietRate(ssl, s, Refusing(h)(s.pos));
    assert h[..k] + [h[k]] == h[..k + 1];
  }

  lemma RefusedSteps(ssl: bool, s: State, a: Choice, b: Choice, c: Choice)
    requires s.pc == Delete(AtStart) && !s.open && !s.stop
    requires c.ec == Other && c.turn == Turn(false, false)
    ensures var t := Step(ssl, Step(ssl, Step(ssl, s, a), b), c);
            && t.pc == Enter(AtStart) && !t.open && !t.stop && t.pos == s.pos + 1
            && t.pacer == s.pacer && Paces(t.log) == Paces(s.log)
  {
    StepPaces(ssl, s, a);
    StepPaces(ssl, Step(ssl, s, a), b);
    StepPaces(ssl, Step(ssl, Step(ssl, s, a), b), c);
  }

  lemma OneAttempt(u: Setup, h: seq<Pace>, n: nat, k: nat)
    requires Genuine(h) && k < |h|
    requires Between(Run(u, Refusing(h), n), h, k)
    ensures Between(Run(u, Refusing(h), n + 6), h, k + 1)
  {
    hide Run, Step;
    var env := Refusing(h);
    RunNext(u, env, n);
    RunNext(u, env, n + 1);
    RunNext(u, env, n + 2);
    RunNext(u, env, n + 3);
    RunNext(u, env, n + 4);
    RunNext(u, env, n + 5);
    var s := Run(u, env, n);
    EnterSteps(u.ssl, s, env(s.pos), env(Run(u, env, n + 1).pos), h, k);
    RateStep(u.ssl, Run(u, env, n + 2), h, k);
    RefusedSteps(u.ssl, Run(u, env, n + 3), env(Run(u, env, n + 3).pos),
                 env(Run(u, env, n + 4).pos), env(Run(u, env, n + 5).pos));
  }

  lemma NoAttemptYet(u: Setup, h: seq<Pace>)
    requires !u.stop
    ensures Between(Run(u, Refusing(h), 0), h, 0)
  {
    BootPaces(u);
  }

  lemma {:induction false} Attempts(u: Setup, h: seq<Pace>, k: nat)
    requires Genuine(h) && k <= |h| && !u.stop
    ensures Between(Run(u, Refusing(h), 6 * k), h, k)
  {
    hide Run, Step, Between;
    if k == 0 {
      NoAttemptYet(u, h);
    } else {
      Attempts(u, h, k - 1);
      OneAttempt(u, h, 6 * (k - 1), k - 1);
    }
  }

  /** Every genuine history is the history of a run, of a plain or of a TLS session. */
  lemma EveryGenuineHistoryIsARun(u: Setup, h: seq<Pace>) returns (env: Env, n: nat)
    requires Genuine(h) && !u.stop
    ensures Paces(Run(u, env, n).log) == h
    ensures Run(u, env, n).pacer == Replay(h)
  {
    hide Run;
    env, n := Refusing(h), 6 * |h|;
    Attempts(u, h, |h|);
    assert h[..|h|] == h;
  }

  /** A run over exactly f(2^32 - 1) milliseconds of steady clock wraps its counter. */
  lemma RunCanWrap(u: Setup) returns (env: Env, n: nat)
    requires !u.stop
    ensures var h := Paces(Run(u, env, n).log);
            |h| == U32 && SteadyClock(h) && Span(h) == MinSleep(U32 - 1) && IsStreak(h, U32)
    ensures Run(u, env, n).pacer.count == 0
  {
    hide Run, MinSleep;
    var h := WrapIsReachable();
    env, n := EveryGenuineHistoryIsARun(u, h);
  }

  /** A run makes ten attempts in the least time that the throttle allows. */
  lemma RunCanBeTight(u: Setup) returns (env: Env, n: nat)
    requires !u.stop
    ensures var h := Paces(Run(u, env, n).log);
            |h| == 10 && SteadyClock(h) && 2530 * |h| == Span(h) + 20000
  {
    hide Run, MinSleep;
    var h := ThrottleIsTight();
    env, n := EveryGenuineHistoryIsARun(u, h);
  }

  /** A run makes eleven attempts, and twelve, where its counter wraps, in the least time that the
      throttle allows there. */
  lemma RunCanBeTightAtTheWrap(u: Setup) returns (env: Env, n: nat, i: nat)
    requires !u.stop
    ensures var h := Paces(Run(u, env, n).log);
            && |h| == i + 12 && SteadyClock(h)
            && Replay(h[..i + 1]).count == U32 - 1 && Replay(h[..i + 2]).count == 0
            && h[i].later == h[i + 1].now == h[i + 1].later
            && 2530 * 12 == h[|h| - 1].later - h[i].later + 20000 + Debt(U32 - 1)
            && 2530 * 11 == h[|h| - 1].later - h[i + 1].now + 20000 + Debt(0)
  {
    hide Run;
    var h;
    h, i := StretchIsTight();
    env, n := EveryGenuineHistoryIsARun(u, h);
  }

  /** A run makes any number of attempts, up to the wrap, with the longest sleeps: eleven times
      the least. */
  lemma RunCanBeSlow(u: Setup, k: nat) returns (env: Env, n: nat)
    requires !u.stop && 0 < k < U32
    ensures var h := Paces(Run(u, env, n).log);
            |h| == k && SteadyClock(h) && IsStreak(h, k) && TailSleep(h, k) == 11 * MinSleep(k)
  {
    hide Run, MinSleep;
    var h := SlowestStreak(k);
    env, n := EveryGenuineHistoryIsARun(u, h);
  }

  /** Under a clock that steps back, a run makes any number of attempts without a single sleep. */
  lemma RunCanGoUnthrottled(u: Setup, k: nat) returns (env: Env, n: nat)
    requires !u.stop && 0 < k < I64
    ensures var h := Paces(Run(u, env, n).log);
            && |h| == k
            && (forall i :: 0 < i < |h| ==> h[i].now < h[i - 1].later)
            && (forall i :: 0 <= i < |h| ==> h[i].delay == 0)
  {
    hide Run;
    BackwardIsGenuine(k);
    env, n := EveryGenuineHistoryIsARun(u, Backward(k));
  }
}
