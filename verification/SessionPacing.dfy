/** Pacing over whole sessions: every run of a session makes one genuine history of
    `ReConnectRate` calls, so that the bounds on histories hold of runs. */
module SessionPacing {
  import opened Words
  import opened BackOff
  import opened Session

  /** The `ReConnectRate` calls of a session: its connection attempts. */
  function Paces(log: seq<Event>): seq<Pace> {
    if log == [] then []
    else
      var p := Paces(log[..|log| - 1]);
      match log[|log| - 1]
      case Paced(pace) => p + [pace]
      case _ => p
  }

  ghost predicate Inv(s: State) {
    var h := Paces(s.log);
    Genuine(h) && Replay(h) == s.pacer
  }

  lemma Append(log: seq<Event>, made: seq<Event>)
    requires |made| <= 1
    ensures made != [] && made[0].Paced? ==> Paces(log + made) == Paces(log) + [made[0].pace]
    ensures !(made != [] && made[0].Paced?) ==> Paces(log + made) == Paces(log)
  {
    if made == [] {
      assert log + made == log;
    } else {
      assert (log + made)[..|log|] == log;
    }
  }

  lemma MadePaced(ssl: bool, s: State, c: Choice)
    ensures var made := Made(ssl, s, c);
            |made| <= 1 && (made != [] && made[0].Paced? <==> s.pc.Rate?)
    ensures s.pc.Rate? ==> Made(ssl, s, c) == [Paced(PaceOf(s, c))]
  {
  }

  lemma StepPaces(ssl: bool, s: State, c: Choice)
    ensures var t := Step(ssl, s, c);
            Paces(t.log) == if s.pc.Rate? then Paces(s.log) + [PaceOf(s, c)] else Paces(s.log)
  {
    var made := Made(ssl, s, c);
    MadePaced(ssl, s, c);
    Append(s.log, made);
    Append(s.log + made, Tail(s.stop, Step(ssl, s, c).stop));
  }

  lemma BootPaces(u: Setup)
    ensures Paces(Boot(u).log) == []
  {
    Append([], [Allocated(0)]);
    Append([] + [Allocated(0)], Tail(false, u.stop));
  }

  lemma StepKeeps(ssl: bool, s: State, c: Choice)
    requires Inv(s)
    ensures Inv(Step(ssl, s, c))
  {
    StepPaces(ssl, s, c);
    var h := Paces(s.log);
    assert (h + [PaceOf(s, c)])[..|h|] == h;
  }

  lemma BootKeeps(u: Setup)
    ensures Inv(Boot(u))
  {
    BootPaces(u);
  }

  /** The attempts of a run are a genuine history, and the back-off fields are what that history
      leaves. */
  lemma RunPaces(u: Setup, env: Env, n: nat)
    ensures Inv(Run(u, env, n))
  {
    BootKeeps(u);
    forall s: State, c: Choice | Inv(s) ensures Inv(Step(u.ssl, s, c)) {
      StepKeeps(u.ssl, s, c);
    }
    RunInduction(u, env, n, s => Inv(s));
  }

  /** Throttle: in every run, the first N attempts over T milliseconds satisfy
      2530 N <= T + 20000. */
  lemma SessionThrottle(u: Setup, env: Env, n: nat)
    requires SteadyClock(Paces(Run(u, env, n).log))
    ensures var h := Paces(Run(u, env, n).log);
            h != [] ==> 2530 * |h| <= Span(h) + 20000
  {
    RunPaces(u, env, n);
    var h := Paces(Run(u, env, n).log);
    if h != [] {
      Throttle(h);
    }
  }

  /** What `AnyStretch` says of the calls from number `i` to before number `j`. */
  ghost predicate Throttled(h: seq<Pace>, i: nat, j: nat)
    requires i < j <= |h|
  {
    var count := Replay(h[..i + 1]).count;
    && 2530 * (j - i) <= h[j - 1].later - h[i].later + 20000 + Debt(count)
    && 2530 * (j - i) <= h[j - 1].later - h[i].now + 20000 + if count == 0 then 2530 else 0
  }

  /** Throttle for any N attempts in a row, in every run, with a clock that is steady in that
      stretch. */
  lemma SessionAnyStretch(u: Setup, env: Env, n: nat, i: nat, j: nat)
    requires i < j <= |Paces(Run(u, env, n).log)|
    requires SteadyClock(Paces(Run(u, env, n).log)[i..j])
    ensures Throttled(Paces(Run(u, env, n).log), i, j)
  {
    hide Run;
    RunPaces(u, env, n);
    AnyStretch(Paces(Run(u, env, n).log), i, j);
  }

  /** What `ThrottleUnderAnyClock` says of them. */
  ghost predicate Worked(h: seq<Pace>, i: nat, j: nat)
    requires i < j <= |h|
  {
    && 2530 * (j - i) <= Work(h[i..j]) - h[i].delay + 20000 + Debt(Replay(h[..i + 1]).count)
    && Work(h[i..j]) <= Forward(h[i..j]) + 20000 * Backs(h[i..j])
  }

  /** Throttle for any N attempts in a row under any clock, in every run. */
  lemma SessionThrottleUnderAnyClock(u: Setup, env: Env, n: nat, i: nat, j: nat)
    requires i < j <= |Paces(Run(u, env, n).log)|
    ensures Worked(Paces(Run(u, env, n).log), i, j)
  {
    hide Run;
    RunPaces(u, env, n);
    var h := Paces(Run(u, env, n).log);
    ThrottleUnderAnyClock(h, i, j);
    BacksCost(h[i..j]);
  }

  /** In every run that has made an attempt, the failure counter is the length of the current
      streak of attempts, modulo 2^32. */
  lemma SessionCounter(u: Setup, env: Env, n: nat) returns (streak: nat)
    requires Paces(Run(u, env, n).log) != []
    ensures IsStreak(Paces(Run(u, env, n).log), streak)
    ensures Run(u, env, n).pacer.count == streak % U32
  {
    RunPaces(u, env, n);
    streak := CounterRefinesHistory(Paces(Run(u, env, n).log));
  }
}
