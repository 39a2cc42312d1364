/** The part of a WebSocket session that the source writes once, as a template for the plain and the
    TLS connection alike: `StreamEntry`. Here are its operations as functions on states, and the
    object that both connections are built on. Each method is proved to follow the machine of
    module Session step for step. */
module StreamEntries {
  import opened Words
  import opened BackOff
  import opened Session
  import opened SessionPromises

  // ----- The operations on states

  function Use(s: State): State {
    s.(pos := s.pos + 1)
  }

  function Note(s: State, e: Event): State {
    s.(log := s.log + [e])
  }

  /** An operation that suspends the coroutine: its event, and what happened meanwhile. */
  function Await(s: State, e: Event, t: Turn): State {
    var stop := s.stop || t.stop;
    s.(open := s.open && !t.drop, stop := stop, log := s.log + [e] + Tail(s.stop, stop))
  }

  function CloseAs(s: State, e: Event, c: Choice): State {
    Await(Use(s).(open := false), e, c.turn)
  }

  function ReadInto(s: State, c: Choice): State {
    var ec, bytes := ReadResult(s, c), ReadBytes(s, c);
    Await(Use(s).(open := ec == Ok, buffer := s.buffer + bytes), ReadEvent(s.gen, ec, bytes), c.turn)
  }

  function WriteSub(s: State, c: Choice): State
    requires Writes(s)
  {
    Await(Use(s), Wrote(s.gen, s.subs[s.pc.i]), c.turn)
  }

  // ----- The steps of the machine that they are

  lemma CloseIs(ssl: bool, s: State, c: Choice)
    requires (s.pc.Shut? && s.open) || s.pc.Hangup? || s.pc.Final?
    ensures var e := if s.pc.Final? then FinalClosed(s.gen) else Closed(s.gen);
            var t := CloseAs(s, e, c);
            Step(ssl, s, c) == t.(pc := Next(ssl, s, c, false, t.stop))
  {
  }

  lemma ReadIs(ssl: bool, s: State, c: Choice)
    requires s.pc.Read?
    ensures var t := ReadInto(s, c);
            Step(ssl, s, c) == t.(pc := AfterRead(ReadResult(s, c), |ReadBytes(s, c)|, t.stop))
  {
  }

  lemma SubIs(ssl: bool, s: State, c: Choice)
    requires s.pc.Sub?
    ensures Writes(s) ==> Step(ssl, s, c) == WriteSub(s, c).(pc := Sub(s.pc.site, s.pc.i + 1))
    ensures !Writes(s) ==>
              Step(ssl, s, c) ==
              s.(pc := if s.pc.i < |s.subs| then Sub(s.pc.site, s.pc.i + 1)
                       else Head(s.pc.site, s.open, s.stop))
  {
    assert s.log + [] + [] == s.log;
  }

  /** The steps without an operation that could suspend. */
  lemma PlainIs(ssl: bool, s: State, c: Choice)
    ensures s.pc.Enter? ==>
              Step(ssl, s, c) == Note(s, Begun(s.pc.site)).(pc := Shut(s.pc.site))
    ensures s.pc.Shut? && !s.open ==> Step(ssl, s, c) == s.(pc := Rate(s.pc.site))
    ensures s.pc.Delete? ==>
              Step(ssl, s, c) == Note(s, Freed(s.gen)).(pc := Allocate(s.pc.site))
    ensures s.pc.Allocate? ==>
              Step(ssl, s, c) ==
              Note(s, Allocated(s.gen + 1)).(pc := Dial(s.pc.site), open := false, gen := s.gen + 1)
    ensures s.pc.Init? ==>
              Step(ssl, s, c) ==
              Note(Use(s), Inited(c.subs)).(pc := Sub(s.pc.site, 0), subs := c.subs)
    ensures s.pc.Discard? ==>
              Step(ssl, s, c) ==
              s.(pc := if Reconnects(s.pc.ec) then Enter(AtLoop) else Head(AtLoop, s.open, s.stop),
                 buffer := Consume(s.buffer, s.pc.size))
    ensures s.pc.Done? ==> Step(ssl, s, c) == s
  {
    assert s.log + [] + [] == s.log;
    assert s.log + Made(ssl, s, c) + [] == s.log + Made(ssl, s, c);
  }

  // ----- The object

  class Stream {
    const gen: nat
    var open: bool

    constructor (gen: nat)
      ensures this.gen == gen && !open
    {
      this.gen := gen;
      open := false;
    }
  }

  /** The fields of a connection. Those that the two kinds of connection declare alike, for reading
      and for pacing, are kept here too. */
  class StreamEntry {
    const env: Env
    var stream: Stream
    var stop: bool
    var buffer: Bytes
    var subs: seq<string>
    var last: uint64   // last_reconnect_ts_
    var count: uint32  // connect_fail_count_
    var pos: nat       // choices of the environment used

    ghost const setup: Setup
    ghost var log: seq<Event>
    ghost var pc: Pc
    ghost var steps: nat

    ghost function View(): State
      reads this, stream
    {
      State(pc, pos, stream.open, stop, stream.gen, buffer, subs, Pacer(last, count), log)
    }

    /** The object is in the state of its run after `steps` steps. */
    ghost predicate Valid()
      reads this, stream
    {
      View() == Run(setup, env, steps)
    }

    /** A connection whose `Stop` may be called before its session starts. */
    constructor (ghost ssl: bool, env: Env, subs: seq<string>, stopped: bool)
      ensures Valid() && steps == 0 && fresh(stream)
      ensures setup == Setup(ssl, subs, stopped) && this.env == env
      ensures pc == Head(AtStart, stream.open, stop)
    {
      this.env, this.subs := env, subs;
      stream := new Stream(0);
      stop, buffer, last, count, pos := stopped, [], 0, 0, 0;
      setup := Setup(ssl, subs, stopped);
      log, pc, steps := [Allocated(0)] + Tail(false, stopped), Head(AtStart, false, stopped), 0;
    }

    /** `Stop`, which runs while the coroutine is suspended. */
    method Stop()
      modifies this`stop, this`log, stream
      ensures stop && !stream.open
      ensures log == old(log) + Tail(old(stop), true)
    {
      log := log + Tail(stop, true);
      stop := true;
      stream.open := false;
    }

    /** An operation that suspends the coroutine, and what may happen meanwhile. That `Stop` ran but
        the stream is open afterwards is the case of a handshake that was in flight. */
    method Suspend(ghost e: Event, t: Turn)
      modifies this`stop, this`log, stream
      ensures View() == Await(old(View()), e, t)
      ensures (old(stop) ==> stop) && (!old(stream.open) ==> !stream.open)
    {
      log := log + [e];
      if t.stop && t.drop {
        Stop();
      } else if t.drop {
        stream.open := false;
      } else if t.stop {
        log := log + Tail(stop, true);
        stop := true;
      } else {
        assert log == log + Tail(stop, stop);
      }
    }

    method Choose() returns (c: Choice)
      modifies this`pos
      ensures c == env(old(pos)) && View() == Use(old(View()))
    {
      c := env(pos);
      pos := pos + 1;
    }

    /** The `Close` that ReConnect starts with, that CtrlReConnect asks for, or that ends the
        session. */
    method Close()
      requires Valid() && ((pc.Shut? && stream.open) || pc.Hangup? || pc.Final?)
      modifies this, stream
      ensures Valid() && steps == old(steps) + 1 && stream == old(stream)
      ensures !stream.open && (old(stop) ==> stop)
      ensures pc == Next(setup.ssl, old(View()), env(old(pos)), stream.open, stop)
    {
      hide Run, Step, Next, Await, Use, Tail;
      RunNext(setup, env, steps);
      CloseIs(setup.ssl, View(), env(pos));
      ghost var s := View();
      var c := Choose();
      stream.open := false;
      Suspend(if pc.Final? then FinalClosed(stream.gen) else Closed(stream.gen), c.turn);
      pc, steps := Next(setup.ssl, s, c, stream.open, stop), steps + 1;
    }

    method Read() returns (ec: Ec, size: nat)
      requires Valid() && pc.Read?
      modifies this, stream
      ensures Valid() && steps == old(steps) + 1 && stream == old(stream)
      ensures pc == AfterRead(ec, size, stop)
    {
      hide Run, Step, ReadEvent, AfterRead, Await, Use, Tail;
      RunNext(setup, env, steps);
      ReadIs(setup.ssl, View(), env(pos));
      var c := Choose();
      var bytes := if stream.open then c.bytes else [];
      ec := if stream.open then c.ec else Aborted;
      size := |bytes|;
      buffer := buffer + bytes;
      stream.open := ec == Ok;
      Suspend(ReadEvent(stream.gen, ec, bytes), c.turn);
      pc, steps := AfterRead(ec, size, stop), steps + 1;
    }

    /** Removal of what a failed read left in the buffer. */
    method Drop(ghost ec: Ec, size: nat)
      requires Valid() && pc == Discard(size, ec)
      modifies this
      ensures Valid() && steps == old(steps) + 1 && stream == old(stream) && stop == old(stop)
      ensures pc == if Reconnects(ec) then Enter(AtLoop) else Head(AtLoop, stream.open, stop)
    {
      hide Run, Step, Head, Consume, Reconnects;
      RunNext(setup, env, steps);
      PlainIs(setup.ssl, View(), env(pos));
      buffer := Consume(buffer, size);
      pc := if Reconnects(ec) then Enter(AtLoop) else Head(AtLoop, stream.open, stop);
      steps := steps + 1;
    }

    /** The user's Init, which may change the subscriptions. */
    method UserInit()
      requires Valid() && pc.Init?
      modifies this
      ensures Valid() && steps == old(steps) + 1 && stream == old(stream)
      ensures pc == Sub(old(pc).site, 0)
    {
      hide Run, Step;
      RunNext(setup, env, steps);
      PlainIs(setup.ssl, View(), env(pos));
      var c := Choose();
      subs := c.subs;
      log := log + [Inited(subs)];
      pc, steps := Sub(pc.site, 0), steps + 1;
    }

    method Subscribe()
      requires Valid() && pc.Sub? && pc.i == 0
      modifies this, stream
      ensures Valid() && steps > old(steps) && stream == old(stream)
      ensures pc == Head(old(pc).site, stream.open, stop)
    {
      hide Run, Step;
      ghost var site := pc.site;
      var i := 0;
      while i < |subs|
        invariant 0 <= i <= |subs| && Valid() && pc == Sub(site, i)
        invariant steps >= old(steps) && stream == old(stream)
        decreases |subs| - i
      {
        Write(i);
        i := i + 1;
      }
      RunNext(setup, env, steps);
      SubIs(setup.ssl, View(), env(pos));
      pc, steps := Head(site, stream.open, stop), steps + 1;
    }

    method Write(i: nat)
      requires Valid() && pc.Sub? && pc.i == i < |subs|
      modifies this, stream
      ensures Valid() && steps == old(steps) + 1 && stream == old(stream) && subs == old(subs)
      ensures pc == Sub(old(pc).site, i + 1)
    {
      hide Run, Step, Head, Await, Use, Tail;
      RunNext(setup, env, steps);
      SubIs(setup.ssl, View(), env(pos));
      if subs[i] != "" {
        var c := Choose();
        Suspend(Wrote(stream.gen, subs[i]), c.turn);
      }
      pc, steps := Sub(pc.site, i + 1), steps + 1;
    }

    /** The start of a ReConnect. */
    ghost method Begin()
      requires Valid() && pc.Enter?
      modifies this
      ensures Valid() && steps == old(steps) + 1 && stream == old(stream)
      ensures pc == Shut(old(pc).site)
    {
      hide Run, Step;
      RunNext(setup, env, steps);
      PlainIs(setup.ssl, View(), env(pos));
      log := log + [Begun(pc.site)];
      pc, steps := Shut(pc.site), steps + 1;
    }

    ghost method NothingToClose()
      requires Valid() && pc.Shut? && !stream.open
      modifies this
      ensures Valid() && steps == old(steps) + 1 && stream == old(stream)
      ensures pc == Rate(old(pc).site)
    {
      hide Run, Step;
      RunNext(setup, env, steps);
      PlainIs(setup.ssl, View(), env(pos));
      pc, steps := Rate(pc.site), steps + 1;
    }

    /** `delete stream_`. */
    ghost method Free()
      requires Valid() && pc.Delete?
      modifies this
      ensures Valid() && steps == old(steps) + 1 && stream == old(stream)
      ensures pc == Allocate(old(pc).site)
    {
      hide Run, Step;
      RunNext(setup, env, steps);
      PlainIs(setup.ssl, View(), env(pos));
      log := log + [Freed(stream.gen)];
      pc, steps := Allocate(pc.site), steps + 1;
    }

    /** `new`. */
    method Renew()
      requires Valid() && pc.Allocate?
      modifies this
      ensures Valid() && steps == old(steps) + 1 && fresh(stream)
      ensures pc == Dial(old(pc).site)
    {
      hide Run, Step;
      RunNext(setup, env, steps);
      PlainIs(setup.ssl, View(), env(pos));
      stream := new Stream(stream.gen + 1);
      log := log + [Allocated(stream.gen)];
      pc, steps := Dial(pc.site), steps + 1;
    }

    /** What is promised of every run has been kept so far. */
    ghost predicate Promises()
      reads this, stream
    {
      Kept(setup, View())
    }

    lemma Promised()
      requires Valid()
      ensures Promises()
    {
      hide Run, Kept;
      RunKeepsPromises(setup, env, steps);
    }
  }
}
