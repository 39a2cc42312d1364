/** The streams that a session allocates, uses and frees. */
module SessionStreams {
  import opened Session
  import opened SessionPacing

  datatype Target = Stream(gen: nat) | NoStream

  /** The stream that an event uses. */
  function Used(e: Event): Target {
    match e
    case Freed(gen) => Stream(gen)
    case Dialed(gen, _) => Stream(gen)
    case TlsFailed(gen, _) => Stream(gen)
    case Upgraded(gen, _, _) => Stream(gen)
    case Wrote(gen, _) => Stream(gen)
    case ReadOk(gen, _) => Stream(gen)
    case ReadFailed(gen, _) => Stream(gen)
    case Pinged(gen) => Stream(gen)
    case Closed(gen) => Stream(gen)
    case FinalClosed(gen) => Stream(gen)
    case _ => NoStream
  }

  /** The streams allocated and not yet freed. */
  function Live(log: seq<Event>): set<nat> {
    if log == [] then {}
    else LiveAfter(Live(log[..|log| - 1]), log[|log| - 1])
  }

  function LiveAfter(live: set<nat>, e: Event): set<nat> {
    if e.Allocated? then live + {e.gen} else if e.Freed? then live - {e.gen} else live
  }

  function AllocWeight(e: Event): int {
    if e.Allocated? then 1 else 0
  }

  function FreeWeight(e: Event): int {
    if e.Freed? then 1 else 0
  }

  /** An event respects the streams of the log before it: it uses or frees only the one stream
      that is live, and it allocates only when none is, never one that was live before. */
  ghost predicate Proper(log: seq<Event>, e: Event) {
    && (Used(e).Stream? ==> Live(log) == {Used(e).gen})
    && (e.Allocated? ==> Live(log) == {} && e.gen == Sum(log, AllocWeight))
  }

  ghost predicate Sound(log: seq<Event>) {
    forall i :: 0 <= i < |log| ==> Proper(log[..i], log[i])
  }

  ghost predicate Inv(s: State) {
    && Sound(s.log)
    && Live(s.log) == (if s.pc.Allocate? then {} else {s.gen})
    && Sum(s.log, AllocWeight) == s.gen + 1
    && Sum(s.log, FreeWeight) == s.gen + (if s.pc.Allocate? then 1 else 0)
    && |Paces(s.log)| == s.gen + (if s.pc.Delete? || s.pc.Allocate? then 1 else 0)
  }

  lemma Append(log: seq<Event>, xs: seq<Event>)
    requires |xs| <= 1 && Sound(log)
    requires xs != [] ==> Proper(log, xs[0])
    ensures Sound(log + xs)
    ensures Live(log + xs) == if xs == [] then Live(log) else LiveAfter(Live(log), xs[0])
  {
    if xs == [] {
      assert log + xs == log;
    } else {
      assert (log + xs)[..|log|] == log;
      forall i | 0 <= i < |log + xs| ensures Proper((log + xs)[..i], (log + xs)[i]) {
        if i < |log| {
          assert (log + xs)[..i] == log[..i];
        }
      }
    }
  }

  /** Each step uses the stream that `stream_` refers to, and only deletes or allocates where the
      program does. */
  lemma MadeInStep(ssl: bool, s: State, c: Choice)
    ensures var made := Made(ssl, s, c);
            && |made| <= 1
            && (made != [] && Used(made[0]).Stream? ==>
                  !s.pc.Allocate? && Used(made[0]).gen == s.gen)
            && (made != [] && made[0].Allocated? <==> s.pc.Allocate?)
            && (made != [] && made[0].Freed? <==> s.pc.Delete?)
            && (s.pc.Allocate? ==> made == [Allocated(s.gen + 1)])
  {
  }

  lemma ControlInStep(ssl: bool, s: State, c: Choice)
    ensures var t := Step(ssl, s, c);
            && (t.pc.Allocate? <==> s.pc.Delete?)
            && (t.pc.Delete? <==> s.pc.Rate?)
            && t.gen == s.gen + (if s.pc.Allocate? then 1 else 0)
  {
  }

  lemma CountsInStep(ssl: bool, s: State, c: Choice)
    ensures var t := Step(ssl, s, c);
            && Sum(t.log, AllocWeight) ==
               Sum(s.log, AllocWeight) + (if s.pc.Allocate? then 1 else 0)
            && Sum(t.log, FreeWeight) == Sum(s.log, FreeWeight) + (if s.pc.Delete? then 1 else 0)
            && |Paces(t.log)| == |Paces(s.log)| + (if s.pc.Rate? then 1 else 0)
  {
    MadeInStep(ssl, s, c);
    SumStep(ssl, s, c, AllocWeight);
    SumStep(ssl, s, c, FreeWeight);
    StepPaces(ssl, s, c);
  }

  lemma MadeIsProper(ssl: bool, s: State, c: Choice)
    requires Inv(s)
    ensures var made := Made(ssl, s, c);
            && (made != [] ==> Proper(s.log, made[0]))
            && (if made == [] then Live(s.log) else LiveAfter(Live(s.log), made[0])) ==
               (if s.pc.Delete? then {} else {Step(ssl, s, c).gen})
  {
    MadeInStep(ssl, s, c);
    ControlInStep(ssl, s, c);
  }

  lemma AppendAll(log: seq<Event>, made: seq<Event>, tail: seq<Event>)
    requires |made| <= 1 && (tail == [] || tail == [Stopped])
    requires Sound(log) && (made != [] ==> Proper(log, made[0]))
    ensures Sound(log + made + tail)
    ensures Live(log + made + tail) ==
            if made == [] then Live(log) else LiveAfter(Live(log), made[0])
  {
    Append(log, made);
    Append(log + made, tail);
  }

  lemma LiveInStep(ssl: bool, s: State, c: Choice)
    requires Inv(s)
    ensures var t := Step(ssl, s, c);
            Sound(t.log) && Live(t.log) == (if s.pc.Delete? then {} else {t.gen})
  {
    MadeIsShort(ssl, s, c);
    MadeIsProper(ssl, s, c);
    AppendAll(s.log, Made(ssl, s, c), Tail(s.stop, Step(ssl, s, c).stop));
  }

  lemma StepKeeps(ssl: bool, s: State, c: Choice)
    requires Inv(s)
    ensures Inv(Step(ssl, s, c))
  {
    ControlInStep(ssl, s, c);
    CountsInStep(ssl, s, c);
    LiveInStep(ssl, s, c);
  }

  lemma BootKeeps(u: Setup)
    ensures Inv(Boot(u))
  {
    Append([], [Allocated(0)]);
    assert [] + [Allocated(0)] == [Allocated(0)];
    Append([Allocated(0)], Tail(false, u.stop));
    SumBoot(u, AllocWeight);
    SumBoot(u, FreeWeight);
    BootPaces(u);
  }

  lemma RunKeeps(u: Setup, env: Env, n: nat)
    ensures Inv(Run(u, env, n))
  {
    BootKeeps(u);
    forall s: State, c: Choice | Inv(s) ensures Inv(Step(u.ssl, s, c)) {
      StepKeeps(u.ssl, s, c);
    }
    RunInduction(u, env, n, s => Inv(s));
  }

  /** Stream conservation. At every step every stream operation so far was on the one live stream,
      nothing was freed twice or used after it was freed, and, except between the delete and the
      new of a ReConnect, exactly the current stream is live, with one allocation for the
      constructor and one for each completed `ReConnectRate`. */
  lemma OneLiveStream(u: Setup, env: Env, n: nat)
    ensures var s := Run(u, env, n);
            && Sound(s.log)
            && (!s.pc.Allocate? ==>
                  Live(s.log) == {s.gen}
                  && Sum(s.log, AllocWeight) == Sum(s.log, FreeWeight) + 1)
            && (!s.pc.Allocate? && !s.pc.Delete? ==>
                  Sum(s.log, AllocWeight) == 1 + |Paces(s.log)|)
  {
    RunKeeps(u, env, n);
  }
}
