/** A session does not spin: turns of its loops that deliver no message are paid for by
    reconnections, and those by elapsed time. */
module SessionSpin {
  import opened BackOff
  import opened Session
  import opened SessionPacing

  function BegunWeight(e: Event): int {
    if e.Begun? then 1 else 0
  }

  /** Number of reconnections started. */
  function Begins(log: seq<Event>): int {
    Sum(log, BegunWeight)
  }

  /** A turn of the loop at START makes one Begun(AtStart), and a turn of the read loop one read;
      a turn that delivers a message makes up for itself. */
  function TurnWeight(e: Event): int {
    match e
    case Begun(site) => if site == AtStart then 1 else 0
    case ReadOk(_, _) => 1
    case ReadFailed(_, _) => 1
    case Delivered(_, _) => -1
    case _ => 0
  }

  /** Number of turns of both loops that delivered no message. */
  function Fruitless(log: seq<Event>): int {
    Sum(log, TurnWeight)
  }

  /** How far the fruitless turns may be ahead of twice the reconnections. A read error that does
      not reconnect is possible only on a stream that a reconnection opened, and uses it up. */
  function Ahead(s: State): int {
    match s.pc
    case Enter(site) => if site == AtStart then 0 else 1
    case Read => if s.open then -1 else 0
    case Discard(_, ec) => if Reconnects(ec) then 1 else 0
    case Deliver(_) => 0
    case Final => 1
    case Done => 1
    case _ => -1
  }

  ghost predicate Inv(s: State) {
    && Fruitless(s.log) - 2 * Begins(s.log) <= Ahead(s)
    && (s.pc.Enter? || s.pc.Shut? || s.pc.Discard? ==> !s.open)
    && Begins(s.log) == |Paces(s.log)| + if s.pc.Shut? || s.pc.Rate? then 1 else 0
  }

  /** What a step adds to the fruitless turns and to the reconnections. */
  lemma Weights(ssl: bool, s: State, c: Choice)
    ensures var made := Made(ssl, s, c);
            && (if made == [] then 0 else BegunWeight(made[0])) == (if s.pc.Enter? then 1 else 0)
            && (if made == [] then 0 else TurnWeight(made[0])) == Turns(s.pc)
  {
  }

  lemma StoppedIsNoTurn()
    ensures BegunWeight(Stopped) == TurnWeight(Stopped) == 0
  {
  }

  function Turns(pc: Pc): int {
    match pc
    case Enter(site) => if site == AtStart then 1 else 0
    case Read => 1
    case Deliver(_) => -1
    case _ => 0
  }

  lemma AheadPays(ssl: bool, s: State, c: Choice)
    requires s.pc.Enter? || s.pc.Shut? || s.pc.Discard? ==> !s.open
    ensures var t := Step(ssl, s, c);
            && Ahead(s) + Turns(s.pc) - (if s.pc.Enter? then 2 else 0) <= Ahead(t)
            && (t.pc.Enter? || t.pc.Shut? || t.pc.Discard? ==> !t.open)
            && (t.pc.Shut? <==> s.pc.Enter?)
            && (t.pc.Rate? <==> s.pc.Shut?)
  {
  }

  lemma StepKeeps(ssl: bool, s: State, c: Choice)
    requires Inv(s)
    ensures Inv(Step(ssl, s, c))
  {
    hide Step, Made, Sum, Paces, PaceOf, Ahead, Turns, BegunWeight, TurnWeight;
    SumStep(ssl, s, c, BegunWeight);
    SumStep(ssl, s, c, TurnWeight);
    StoppedIsNoTurn();
    Weights(ssl, s, c);
    AheadPays(ssl, s, c);
    StepPaces(ssl, s, c);
  }

  lemma BootKeeps(u: Setup)
    ensures Inv(Boot(u))
  {
    SumBoot(u, BegunWeight);
    SumBoot(u, TurnWeight);
    BootPaces(u);
  }

  lemma RunKeeps(u: Setup, env: Env, n: nat)
    ensures Inv(Run(u, env, n))
  {
    BootKeeps(u);
    forall s: State, c: Choice | Inv(s) ensures Inv(Step(u.ssl, s, c)) {
      StepKeeps(u.ssl, s, c);
    }
    RunInduction(u, env, n, s => Inv(s));
  }

  /** No busy spin: in every run, N reconnections allow at most 2 N + 1 fruitless turns. */
  lemma NoBusySpin(u: Setup, env: Env, n: nat)
    ensures var log := Run(u, env, n).log;
            Fruitless(log) <= 2 * Begins(log) + 1
  {
    RunKeeps(u, env, n);
  }

  /** Fruitless turns are bounded linearly by elapsed time. */
  lemma FruitlessTurnsTakeTime(u: Setup, env: Env, n: nat)
    requires SteadyClock(Paces(Run(u, env, n).log))
    ensures var log := Run(u, env, n).log;
            && Fruitless(log) <= 2 * |Paces(log)| + 1
            && (Paces(log) != [] ==>
                  2530 * Fruitless(log) <= 2 * (Span(Paces(log)) + 20000) + 2530)
  {
    hide Run, Step;
    RunKeeps(u, env, n);
    SessionThrottle(u, env, n);
  }

  /** `ReConnect` never finds an open stream: the `Close` that it starts with is never taken. */
  lemma ReconnectFindsClosedStream(u: Setup, env: Env, n: nat)
    requires Run(u, env, n).pc.Shut?
    ensures !Run(u, env, n).open
  {
    RunKeeps(u, env, n);
  }
}
