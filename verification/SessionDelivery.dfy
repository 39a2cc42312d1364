/** Which byte strings a session hands to `OnRead`. */
module SessionDelivery {
  import opened Session

  /** The byte strings handed to `OnRead`, in order. */
  function Deliveries(log: seq<Event>): seq<Bytes> {
    if log == [] then []
    else
      var d := Deliveries(log[..|log| - 1]);
      match log[|log| - 1]
      case Delivered(data, _) => d + [data]
      case _ => d
  }

  /** The messages read, in order, without those whose read was cut off by a stop. The last event
      of a log does not count yet: what follows it decides. */
  function Arrivals(log: seq<Event>): seq<Bytes> {
    if |log| < 2 then []
    else
      var a := Arrivals(log[..|log| - 1]);
      match log[|log| - 2]
      case ReadOk(_, msg) => if log[|log| - 1] == Stopped then a else a + [msg]
      case _ => a
  }

  ghost predicate Inv(s: State) {
    && s.log != []
    && Deliveries(s.log) == Arrivals(s.log)
    && (s.log[|s.log| - 1].ReadOk? <==> s.pc.Deliver?)
    && (s.pc.Deliver? ==>
          s.buffer == s.log[|s.log| - 1].msg && s.pc.size == |s.buffer|)
    && (s.pc.Discard? ==> s.pc.size == |s.buffer|)
    && (s.pc.Discard? || s.pc.Deliver? || s.pc.Final? || s.pc.Done? || s.buffer == [])
    && (s.pc.Read? ==> !s.stop)
  }

  /** An event after anything but a ReadOk adds nothing to the arrivals, and a Delivered is the
      only one that adds to the deliveries. */
  lemma Append(log: seq<Event>, xs: seq<Event>)
    requires |xs| <= 1 && log != []
    requires xs != [] && xs[0].Delivered? ==>
               log[|log| - 1].ReadOk? && log[|log| - 1].msg == xs[0].data
    requires xs != [] && !xs[0].Delivered? ==> !log[|log| - 1].ReadOk? || xs[0] == Stopped
    requires Deliveries(log) == Arrivals(log)
    ensures Deliveries(log + xs) == Arrivals(log + xs)
  {
    if xs == [] {
      assert log + xs == log;
    } else {
      assert (log + xs)[..|log|] == log;
      assert (log + xs)[|log| - 1] == log[|log| - 1];
    }
  }

  lemma MadeInStep(ssl: bool, s: State, c: Choice)
    ensures var made := Made(ssl, s, c);
            && |made| <= 1
            && (made != [] && made[0].Delivered? <==> s.pc.Deliver?)
            && (s.pc.Deliver? ==> made == [Delivered(Handed(s.buffer, s.pc.size), c.ctrl)])
            && (made != [] && made[0].ReadOk? <==> s.pc.Read? && ReadResult(s, c) == Ok)
            && (made != [] && made[0].ReadOk? ==> made[0].msg == ReadBytes(s, c))
            && (made == [] ==> !s.pc.Read?)
  {
  }

  /** The read buffer: empty wherever control goes, except between a read and its OnRead, where it
      holds the message, and after a stop. */
  lemma BufferInStep(ssl: bool, s: State, c: Choice)
    requires Inv(s)
    ensures var t := Step(ssl, s, c);
            && (t.pc.Deliver? <==> s.pc.Read? && ReadResult(s, c) == Ok && !t.stop)
            && (t.pc.Deliver? ==> t.buffer == ReadBytes(s, c) && t.pc.size == |t.buffer|)
            && (t.pc.Discard? ==> t.pc.size == |t.buffer|)
            && (t.pc.Discard? || t.pc.Deliver? || t.pc.Final? || t.pc.Done? || t.buffer == [])
            && (t.pc.Read? ==> !t.stop)
  {
    hide Deliveries, Arrivals, Made, ReadBytes, ReadResult;
    assert s.buffer == [] ==> s.buffer + ReadBytes(s, c) == ReadBytes(s, c);
  }

  lemma AppendAll(log: seq<Event>, made: seq<Event>, tail: seq<Event>)
    requires |made| <= 1 && log != [] && (tail == [] || tail == [Stopped])
    requires made != [] && made[0].Delivered? ==>
               log[|log| - 1].ReadOk? && log[|log| - 1].msg == made[0].data
    requires made != [] && !made[0].Delivered? ==> !log[|log| - 1].ReadOk?
    requires Deliveries(log) == Arrivals(log)
    ensures Deliveries(log + made + tail) == Arrivals(log + made + tail)
  {
    Append(log, made);
    Append(log + made, tail);
  }

  lemma LastInStep(ssl: bool, s: State, c: Choice)
    requires Inv(s)
    ensures var t := Step(ssl, s, c);
            && t.log != []
            && (t.log[|t.log| - 1].ReadOk? <==> t.pc.Deliver?)
            && (t.pc.Deliver? ==> t.log[|t.log| - 1].msg == ReadBytes(s, c))
  {
    MadeInStep(ssl, s, c);
    BufferInStep(ssl, s, c);
  }

  lemma StepKeeps(ssl: bool, s: State, c: Choice)
    requires Inv(s)
    ensures Inv(Step(ssl, s, c))
  {
    MadeInStep(ssl, s, c);
    BufferInStep(ssl, s, c);
    LastInStep(ssl, s, c);
    if s.pc.Deliver? {
      assert Handed(s.buffer, s.pc.size) == s.buffer;
    }
    AppendAll(s.log, Made(ssl, s, c), Tail(s.stop, Step(ssl, s, c).stop));
  }

  lemma BootKeeps(u: Setup)
    ensures Inv(Boot(u))
  {
    assert Deliveries([Allocated(0)]) == [] == Arrivals([Allocated(0)]);
    Append([Allocated(0)], Tail(false, u.stop));
  }

  lemma RunKeeps(u: Setup, env: Env, n: nat)
    ensures Inv(Run(u, env, n))
  {
    BootKeeps(u);
    forall s: State, c: Choice | Inv(s) ensures Inv(Step(u.ssl, s, c)) {
      StepKeeps(u.ssl, s, c);
    }
    RunInduction(u, env, n, s => Inv(s));
  }

  /** Exact delivery: over the whole session, across all reconnections, `OnRead` is handed exactly
      the messages read and not cut off by a stop, whole, once and in order. */
  lemma ExactDelivery(u: Setup, env: Env, n: nat)
    ensures Deliveries(Run(u, env, n).log) == Arrivals(Run(u, env, n).log)
  {
    RunKeeps(u, env, n);
  }

  /** The reason: the buffer is empty at every read, whichever way control came to it. */
  lemma BufferIsEmptyAtRead(u: Setup, env: Env, n: nat)
    requires Run(u, env, n).pc.Read?
    ensures Run(u, env, n).buffer == []
  {
    RunKeeps(u, env, n);
  }
}
