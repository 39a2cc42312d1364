/** All that is proved of a run, gathered for the code that follows it. */
module SessionPromises {
  import opened Words
  import opened BackOff
  import opened Session
  import opened SessionPacing
  import opened SessionSpin
  import opened SessionStop
  import opened SessionDelivery
  import opened SessionStreams
  import opened SessionSubs
  import opened SessionOrder

  /** What a session has promised its user and its peer, wherever it is cut off. */
  ghost predicate Kept(u: Setup, s: State) {
    && Deliveries(s.log) == Arrivals(s.log)
    && (s.pc.Read? ==> s.buffer == [])
    && ((s.pc.Read? && s.open) || s.pc.Deliver? ==> SubscribedInFull(u, s))
    && Fruitless(s.log) <= 2 * Begins(s.log) + 1
    && HasOneStream(s)
    && (s.pc.Shut? ==> !s.open)
    && Quiet(s.log)
    && Ordered(u, s)
    && (s.stop <==> HasStopped(s.log))
    && EndsWell(s)
    && Counts(s)
    && AlwaysThrottled(Paces(s.log))
  }

  /** Streams: see `OneLiveStream`. */
  ghost predicate HasOneStream(s: State) {
    && Sound(s.log)
    && (!s.pc.Allocate? ==>
          Live(s.log) == {s.gen} && Sum(s.log, AllocWeight) == Sum(s.log, FreeWeight) + 1)
    && (!s.pc.Allocate? && !s.pc.Delete? ==> Sum(s.log, AllocWeight) == 1 + |Paces(s.log)|)
  }

  /** The order of events: see module SessionOrder. */
  ghost predicate Ordered(u: Setup, s: State) {
    && s.log != [] && s.log[0] == Allocated(0)
    && InOrder(u.ssl, s.log)
    && AllObeyed(u.ssl, s.log)
    && (forall j :: 0 < j < |s.log| && s.log[j].Inited? ==> FollowsHandShake(u.ssl, s.log, j))
  }

  ghost predicate SubscribedInFull(u: Setup, s: State) {
    && Batches(s.log) != []
    && Complete(Batches(s.log))
    && |Batches(s.log)| == 1 + if u.ssl then Resubs(s.log) else 0
  }

  /** The end: see `EndsThroughOneClose`. */
  ghost predicate EndsWell(s: State) {
    && s.log != []
    && EndsWithFinal(s.log)
    && (s.pc.Done? <==> s.log[|s.log| - 1].FinalClosed?)
    && (s.pc.Done? ==> s.stop)
  }

  ghost predicate Counts(s: State) {
    forall n: nat :: IsStreak(Paces(s.log), n) ==> s.pacer.count == n % U32
  }

  /** Every stretch of attempts is throttled: in work under any clock, in time under a steady
      one. */
  ghost predicate AlwaysThrottled(h: seq<Pace>) {
    && (forall i: nat, j: nat :: i < j <= |h| ==> Worked(h, i, j))
    && (forall i: nat, j: nat :: i < j <= |h| && SteadyClock(h[i..j]) ==> Throttled(h, i, j))
  }

  lemma RunCounts(u: Setup, env: Env, n: nat)
    ensures Counts(Run(u, env, n))
  {
    hide Run;
    var h := Paces(Run(u, env, n).log);
    if h != [] {
      var streak := SessionCounter(u, env, n);
      forall m: nat | IsStreak(h, m) ensures m == streak {
        StreakIsUnique(h, m, streak);
      }
    }
  }

  lemma RunEnds(u: Setup, env: Env, n: nat)
    ensures EndsWell(Run(u, env, n))
  {
    hide Run;
    EndsThroughOneClose(u, env, n);
  }

  lemma RunSubscribes(u: Setup, env: Env, n: nat)
    ensures var s := Run(u, env, n);
            (s.pc.Read? && s.open) || s.pc.Deliver? ==> SubscribedInFull(u, s)
  {
    hide Run;
    var s := Run(u, env, n);
    if (s.pc.Read? && s.open) || s.pc.Deliver? {
      SubscribedBeforeDelivered(u, env, n);
    }
  }

  lemma RunThrottles(u: Setup, env: Env, n: nat)
    ensures AlwaysThrottled(Paces(Run(u, env, n).log))
  {
    hide Run, SteadyClock, Throttled, Worked;
    var h := Paces(Run(u, env, n).log);
    forall i: nat, j: nat | i < j <= |h| ensures Worked(h, i, j) {
      SessionThrottleUnderAnyClock(u, env, n, i, j);
    }
    forall i: nat, j: nat | i < j <= |h| && SteadyClock(h[i..j]) ensures Throttled(h, i, j) {
      SessionAnyStretch(u, env, n, i, j);
    }
  }

  lemma RunIsOrdered(u: Setup, env: Env, n: nat)
    ensures Ordered(u, Run(u, env, n))
  {
    hide Run, InOrder, AllObeyed, FollowsHandShake;
    var log := Run(u, env, n).log;
    RunInOrder(u, env, n);
    AnswersAreObeyed(u, env, n);
    forall j | 0 < j < |log| && log[j].Inited? ensures FollowsHandShake(u.ssl, log, j) {
      InitFollowsHandShake(u, env, n, j);
    }
  }

  lemma RunHasOneStream(u: Setup, env: Env, n: nat)
    ensures HasOneStream(Run(u, env, n))
  {
    hide Run;
    OneLiveStream(u, env, n);
  }

  /** Every run keeps every promise. */
  lemma RunKeepsPromises(u: Setup, env: Env, n: nat)
    ensures Kept(u, Run(u, env, n))
  {
    hide Run, Counts, EndsWell, SubscribedInFull, AlwaysThrottled, HasOneStream, Ordered, Quiet;
    var s := Run(u, env, n);
    ExactDelivery(u, env, n);
    if s.pc.Read? {
      BufferIsEmptyAtRead(u, env, n);
    }
    RunSubscribes(u, env, n);
    NoBusySpin(u, env, n);
    if s.pc.Shut? {
      ReconnectFindsClosedStream(u, env, n);
    }
    RunHasOneStream(u, env, n);
    RunIsOrdered(u, env, n);
    StopSafety(u, env, n);
    RunEnds(u, env, n);
    RunCounts(u, env, n);
    RunThrottles(u, env, n);
  }
}
