/** What a session does once `Stop` has been called. */
module SessionStop {
  import opened Session

  /** Events that may follow a Stopped: no read, no OnRead, no new ReConnect, no second Stopped. */
  predicate Allowed(e: Event) {
    !(e.Begun? || e.ReadOk? || e.ReadFailed? || e.Delivered? || e.Stopped?)
  }

  ghost predicate HasStopped(log: seq<Event>) {
    exists i :: 0 <= i < |log| && log[i] == Stopped
  }

  ghost predicate Quiet(log: seq<Event>) {
    forall i, j :: 0 <= i < j < |log| && log[i] == Stopped ==> Allowed(log[j])
  }

  /** Nothing follows the final Close. */
  ghost predicate EndsWithFinal(log: seq<Event>) {
    forall i :: 0 <= i < |log| - 1 ==> !log[i].FinalClosed?
  }

  ghost predicate Inv(s: State) {
    && s.log != []
    && (s.stop <==> HasStopped(s.log))
    && Quiet(s.log)
    && EndsWithFinal(s.log)
    && (s.log[|s.log| - 1].FinalClosed? <==> s.pc.Done?)
    && (s.pc.Enter? || s.pc.Read? || s.pc.Discard? || s.pc.Deliver? ==> !s.stop)
    && (s.pc.Final? || s.pc.Done? ==> s.stop)
  }

  lemma Append(log: seq<Event>, xs: seq<Event>)
    requires |xs| <= 1 && log != [] && Quiet(log) && EndsWithFinal(log)
    requires xs != [] ==> !log[|log| - 1].FinalClosed?
    requires xs != [] && HasStopped(log) ==> Allowed(xs[0])
    ensures Quiet(log + xs) && EndsWithFinal(log + xs)
    ensures HasStopped(log + xs) <==> HasStopped(log) || xs == [Stopped]
  {
    if xs == [] {
      assert log + xs == log;
    } else {
      assert (log + xs)[|log|] == xs[0];
      assert forall i :: 0 <= i < |log| ==> (log + xs)[i] == log[i];
      if i :| 0 <= i < |log| && log[i] == Stopped {
        assert (log + xs)[i] == Stopped;
      }
    }
  }

  lemma MadeInStep(ssl: bool, s: State, c: Choice)
    ensures var made := Made(ssl, s, c);
            && |made| <= 1
            && (made != [] && !Allowed(made[0]) ==> s.pc.Enter? || s.pc.Read? || s.pc.Deliver?)
            && (made != [] ==> made[0] != Stopped)
            && (made != [] && made[0].FinalClosed? <==> s.pc.Final?)
            && (s.pc.Done? ==> made == [])
  {
  }

  lemma ControlInStep(ssl: bool, s: State, c: Choice)
    requires Inv(s)
    ensures var t := Step(ssl, s, c);
            && (t.pc.Enter? || t.pc.Read? || t.pc.Discard? || t.pc.Deliver? ==> !t.stop)
            && (t.pc.Final? || t.pc.Done? ==> t.stop)
            && (t.pc.Done? <==> s.pc.Final? || s.pc.Done?)
            && (s.pc.Done? ==> t.stop == s.stop)
  {
  }

  lemma StepKeeps(ssl: bool, s: State, c: Choice)
    requires Inv(s)
    ensures Inv(Step(ssl, s, c))
  {
    var t, made := Step(ssl, s, c), Made(ssl, s, c);
    MadeInStep(ssl, s, c);
    ControlInStep(ssl, s, c);
    Append(s.log, made);
    Append(s.log + made, Tail(s.stop, t.stop));
  }

  lemma BootKeeps(u: Setup)
    ensures Inv(Boot(u))
  {
    Append([Allocated(0)], Tail(false, u.stop));
  }

  lemma RunKeeps(u: Setup, env: Env, n: nat)
    ensures Inv(Run(u, env, n))
  {
    BootKeeps(u);
    forall s: State, c: Choice | Inv(s) ensures Inv(Step(u.ssl, s, c)) {
      StepKeeps(u.ssl, s, c);
    }
    RunInduction(u, env, n, s => Inv(s));
  }

  /** Stop safety: once stop_ is found true, no OnRead, no read and no new ReConnect starts. */
  lemma StopSafety(u: Setup, env: Env, n: nat)
    ensures Quiet(Run(u, env, n).log)
    ensures Run(u, env, n).stop <==> HasStopped(Run(u, env, n).log)
  {
    RunKeeps(u, env, n);
  }

  /** A session ends only because it was stopped, and through exactly one final Close, which is
      the last thing that it does. */
  lemma EndsThroughOneClose(u: Setup, env: Env, n: nat)
    ensures var s := Run(u, env, n);
            && s.log != []
            && EndsWithFinal(s.log)
            && (s.pc.Done? <==> s.log[|s.log| - 1].FinalClosed?)
            && (s.pc.Done? ==> s.stop)
  {
    RunKeeps(u, env, n);
  }

  // ----- Termination

  /** Distance of a stopped session to its end, in stages. */
  function Rank(pc: Pc): nat {
    match pc
    case Done => 0
    case Final => 1
    case Sub(_, _) => 2
    case Ping => 2
    case Hangup => 2
    case Init(_) => 3
    case Upgrade(_) => 4
    case Dial(_) => 5
    case Allocate(_) => 6
    case Delete(_) => 7
    case Rate(_) => 8
    case Shut(_) => 9
    case Enter(_) => 10
    case Read => 10
    case Discard(_, _) => 10
    case Deliver(_) => 10
  }

  /** Distance within a stage: subscriptions still to be sent. */
  function Left(s: State): nat {
    if s.pc.Sub? && s.pc.i < |s.subs| then |s.subs| - s.pc.i else 0
  }

  lemma Descends(ssl: bool, s: State, c: Choice)
    requires Inv(s) && s.stop && !s.pc.Done?
    ensures var t := Step(ssl, s, c);
            Rank(t.pc) < Rank(s.pc) || (Rank(t.pc) == Rank(s.pc) && Left(t) < Left(s))
  {
  }

  /** A stopped session ends, whatever the environment does. */
  lemma {:induction false} StopTerminates(u: Setup, env: Env, n: nat) returns (k: nat)
    requires Run(u, env, n).stop
    ensures k >= n && Run(u, env, k).pc.Done?
    decreases Rank(Run(u, env, n).pc), Left(Run(u, env, n))
  {
    var s := Run(u, env, n);
    if s.pc.Done? {
      k := n;
    } else {
      RunKeeps(u, env, n);
      Descends(u.ssl, s, env(s.pos));
      assert Run(u, env, n + 1) == Step(u.ssl, s, env(s.pos));
      k := StopTerminates(u, env, n + 1);
    }
  }
}
