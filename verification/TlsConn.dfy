/** The TLS connection, `Conn<true>` (kn/net/src/ws/conn.h:210-498): once as a step function,
    statement by statement, and once as an object. Neither shares its text with the plain
    connection; what both share in the source is in module StreamEntries. */
module TlsConn {
  import opened Words
  import opened BackOff
  import opened Session
  import opened SessionPromises
  import opened StreamEntries

  // ----- As a step function

  /** The head of the loop at START, and of the read loop. */
  function StartLoop(s: State): State {
    if !s.open && !s.stop then s.(pc := Enter(AtStart)) else ReadLoop(s)
  }

  function ReadLoop(s: State): State {
    if !s.stop then s.(pc := Session.Read) else s.(pc := Final)
  }

  function ReturnTo(site: Site, s: State): State {
    if site == AtStart then StartLoop(s) else ReadLoop(s)
  }

  function AfterReConnectRate(s: State, c: Choice): State {
    var intval := 100;
    var fails := if Minus(c.now, s.pacer.last) >= 20 * 1000 then 0 else s.pacer.count;
    var count := if fails == U32 - 1 then 0 else fails + 1;
    var s1 := Use(s).(pacer := Pacer(c.later, count));
    if count <= 2 then
      Note(s1, Paced(Pace(c.now, c.draw, 0, c.later)))
    else
      var sleep :=
        if count <= 5 then (1 + c.draw / 10) * 1 * intval + c.draw % 10
        else if count <= 10 then (1 + c.draw / 10) * 10 * intval + c.draw % 10
        else if count <= 50 then (1 + c.draw / 10) * 50 * intval + c.draw % 10
        else (1 + c.draw / 10) * 600 * intval + c.draw % 10;
      Await(s1, Paced(Pace(c.now, c.draw, sleep, c.later)), c.turn)
  }

  /** The error code that `Connect` returns. */
  function ConnectError(c: Choice): Ec {
    if c.ec == Truncated || c.ec == Unspecified then Ok else c.ec
  }

  /** `HandShake`: a TLS handshake, which does not suspend, and then the WebSocket's. */
  function AfterHandShake(s: State, c: Choice): State {
    if c.tls != Ok then Note(Use(s), TlsFailed(s.gen, c.tls))
    else Await(Use(s).(open := c.ec == Ok), Upgraded(s.gen, c.tls, c.ec), c.turn)
  }

  /** The error code that `HandShake` returns. */
  function HandShakeError(c: Choice): Ec {
    if c.tls != Ok then c.tls
    else if c.ec == Truncated then Ok
    else c.ec
  }

  /** From one read to what follows it. */
  function AfterReadInto(s: State, ec: Ec, size: nat): State {
    if s.stop then s.(pc := Final)
    else if ec != Ok then s.(pc := Discard(size, ec))
    else s.(pc := Deliver(size))
  }

  function AfterDiscard(s: State, ec: Ec, size: nat): State {
    var s1 := s.(buffer := Consume(s.buffer, size));
    if ec == Timeout || ec == Aborted then s1.(pc := Enter(AtLoop)) else ReadLoop(s1)
  }

  function AfterOnRead(s: State, size: nat, c: Choice): State {
    var s1 := Await(Use(s), Delivered(Handed(s.buffer, size), c.ctrl), c.turn);
    s1.(buffer := Consume(s1.buffer, size))
  }

  /** The switch on what OnRead answered. */
  function Obey(s: State, ctrl: Ctrl): State {
    match ctrl
    case CtrlReConnect => s.(pc := Hangup)
    case CtrlReSub => s.(pc := Init(AtLoop))
    case CtrlPing => s.(pc := Ping)
    case _ => ReadLoop(s)
  }

  function StepOf(s: State, c: Choice): State {
    match s.pc
    case Enter(site) => Note(s, Begun(site)).(pc := Shut(site))
    case Shut(site) =>
      (if s.open then CloseAs(s, Closed(s.gen), c) else s).(pc := Rate(site))
    case Rate(site) => AfterReConnectRate(s, c).(pc := Delete(site))
    case Delete(site) => Note(s, Freed(s.gen)).(pc := Allocate(site))
    case Allocate(site) =>
      Note(s.(gen := s.gen + 1, open := false), Allocated(s.gen + 1)).(pc := Dial(site))
    case Dial(site) =>
      var s1 := Await(Use(s), Dialed(s.gen, c.ec), c.turn);
      if ConnectError(c) != Ok then ReturnTo(site, s1) else s1.(pc := Upgrade(site))
    case Upgrade(site) =>
      var s1 := AfterHandShake(s, c);
      if HandShakeError(c) != Ok then ReturnTo(site, s1) else s1.(pc := Init(site))
    case Init(site) => Note(Use(s).(subs := c.subs), Inited(c.subs)).(pc := Sub(site, 0))
    case Sub(site, i) =>
      if i < |s.subs| then (if Writes(s) then WriteSub(s, c) else s).(pc := Sub(site, i + 1))
      else ReturnTo(site, s)
    case Read => AfterReadInto(ReadInto(s, c), ReadResult(s, c), |ReadBytes(s, c)|)
    case Discard(size, ec) => AfterDiscard(s, ec, size)
    case Deliver(size) => Obey(AfterOnRead(s, size, c), c.ctrl)
    case Hangup =>
      var s1 := CloseAs(s, Closed(s.gen), c);
      if s1.open then s1 else StartLoop(s1)
    case Ping => ReadLoop(Await(Use(s), Pinged(s.gen), c.turn))
    case Final => CloseAs(s, FinalClosed(s.gen), c).(pc := Done)
    case Done => s
  }

  function New(subs: seq<string>, stop: bool): State {
    StartLoop(State(Done, 0, false, stop, 0, [], subs, Pacer(0, 0),
                    [Allocated(0)] + Tail(false, stop)))
  }

  function RunOf(subs: seq<string>, stop: bool, env: Env, n: nat): State {
    if n == 0 then New(subs, stop)
    else
      var s := RunOf(subs, stop, env, n - 1);
      StepOf(s, env(s.pos))
  }

  // ----- The step function is the machine's

  lemma RateIs(s: State, c: Choice)
    requires s.pc.Rate?
    ensures Step(true, s, c) == AfterReConnectRate(s, c).(pc := Delete(s.pc.site))
  {
    assert s.log + [Paced(PaceOf(s, c))] + [] == s.log + [Paced(PaceOf(s, c))];
  }

  lemma DialIs(s: State, c: Choice)
    requires s.pc.Dial?
    ensures Step(true, s, c) == StepOf(s, c)
  {
  }

  lemma UpgradeIs(s: State, c: Choice)
    requires s.pc.Upgrade?
    ensures Step(true, s, c) == StepOf(s, c)
  {
    assert s.log + [] + [] == s.log;
  }

  lemma DeliverIs(s: State, c: Choice)
    requires s.pc.Deliver?
    ensures Step(true, s, c) == Obey(AfterOnRead(s, s.pc.size, c), c.ctrl)
  {
  }

  lemma PingIs(s: State, c: Choice)
    requires s.pc.Ping?
    ensures Step(true, s, c) == StepOf(s, c)
  {
  }

  lemma StepIs(s: State, c: Choice)
    ensures Step(true, s, c) == StepOf(s, c)
  {
    hide Step;
    match s.pc
    case Rate(_) => RateIs(s, c);
    case Dial(_) => DialIs(s, c);
    case Upgrade(_) => UpgradeIs(s, c);
    case Deliver(_) => DeliverIs(s, c);
    case Ping => PingIs(s, c);
    case Sub(_, _) => SubIs(true, s, c);
    case Read => ReadIs(true, s, c);
    case Hangup => CloseIs(true, s, c);
    case Final => CloseIs(true, s, c);
    case _ =>
      if s.pc.Shut? && s.open {
        CloseIs(true, s, c);
      } else {
        PlainIs(true, s, c);
      }
  }

  /** Its runs are the runs of the machine. */
  lemma {:induction false} RunIs(subs: seq<string>, stop: bool, env: Env, n: nat)
    ensures RunOf(subs, stop, env, n) == Run(Setup(true, subs, stop), env, n)
  {
    hide Step, StepOf;
    if n > 0 {
      RunIs(subs, stop, env, n - 1);
      var s := RunOf(subs, stop, env, n - 1);
      StepIs(s, env(s.pos));
    }
  }

  // ----- The explicit results of the steps that its methods take

  lemma RateStep(s: State, c: Choice)
    requires s.pc.Rate?
    ensures var count := Bump(s.pacer, c.now);
            var e, paced := Paced(PaceOf(s, c)), Use(s).(pacer := Pacer(s.pacer.last, count));
            Step(true, s, c) ==
            (if count > 2 then Await(paced, e, c.turn) else Note(paced, e)).(
              pc := Delete(s.pc.site), pacer := Pacer(c.later, count))
  {
  }

  lemma DialStep(s: State, c: Choice)
    requires s.pc.Dial?
    ensures var t := Await(Use(s), Dialed(s.gen, c.ec), c.turn);
            Step(true, s, c) ==
            t.(pc := if ConnectError(c) == Ok then Upgrade(s.pc.site)
                     else Head(s.pc.site, t.open, t.stop))
  {
    DialIs(s, c);
  }

  lemma UpgradeStep(s: State, c: Choice)
    requires s.pc.Upgrade?
    ensures var t := AfterHandShake(s, c);
            Step(true, s, c) ==
            t.(pc := if HandShakeError(c) == Ok then Init(s.pc.site)
                     else Head(s.pc.site, t.open, t.stop))
  {
    UpgradeIs(s, c);
  }

  lemma DeliverStep(s: State, c: Choice)
    requires s.pc.Deliver?
    ensures var t := AfterOnRead(s, s.pc.size, c);
            Step(true, s, c) == t.(pc := AfterDeliver(true, c.ctrl, t.open, t.stop))
  {
  }

  lemma PingStep(s: State, c: Choice)
    requires s.pc.Ping?
    ensures var t := Await(Use(s), Pinged(s.gen), c.turn);
            Step(true, s, c) == t.(pc := Head(AtLoop, t.open, t.stop))
  {
  }

  // ----- As an object

  class Conn {
    const entry: StreamEntry

    ghost predicate Valid()
      reads entry, entry.stream
    {
      entry.setup.ssl && entry.Valid()
    }

    constructor (env: Env, subs: seq<string>, stopped: bool)
      ensures Valid() && fresh(entry) && fresh(entry.stream) && entry.steps == 0
      ensures entry.setup == Setup(true, subs, stopped) && entry.env == env
      ensures entry.pc == Head(AtStart, entry.stream.open, entry.stop)
    {
      entry := new StreamEntry(true, env, subs, stopped);
    }

    method ReConnectRate()
      requires Valid() && entry.pc.Rate?
      modifies entry, entry.stream
      ensures Valid() && entry.steps == old(entry.steps) + 1 && entry.stream == old(entry.stream)
      ensures entry.pc == Delete(old(entry.pc).site)
    {
      hide Run, Step, Bump, Delay, Await, Use, Tail;
      RunNext(entry.setup, entry.env, entry.steps);
      RateStep(entry.View(), entry.env(entry.pos));
      var c := entry.Choose();
      var sleep := Progress(c.now, c.draw);
      if sleep > 0 {
        entry.Suspend(Paced(Pace(c.now, c.draw, sleep, c.later)), c.turn);
      } else {
        entry.log := entry.log + [Paced(Pace(c.now, c.draw, sleep, c.later))];
      }
      entry.last := c.later;
      entry.pc, entry.steps := Delete(entry.pc.site), entry.steps + 1;
    }

    /** The new failure count, and the sleep that it and the draw ask for. */
    method Progress(now: uint64, draw: Draw) returns (sleep: nat)
      modifies entry`count
      ensures entry.count == Bump(Pacer(entry.last, old(entry.count)), now)
      ensures sleep == Delay(entry.count, draw) && (sleep > 0 <==> entry.count > 2)
    {
      var intval := 100;
      if Minus(now, entry.last) >= 20 * 1000 {
        entry.count := 0;
      }
      entry.count := if entry.count == U32 - 1 then 0 else entry.count + 1;
      if entry.count <= 2 {
        sleep := 0;
      } else if entry.count <= 5 {
        sleep := (1 + draw / 10) * 1 * intval + draw % 10;
      } else if entry.count <= 10 {
        sleep := (1 + draw / 10) * 10 * intval + draw % 10;
      } else if entry.count <= 50 {
        sleep := (1 + draw / 10) * 50 * intval + draw % 10;
      } else {
        sleep := (1 + draw / 10) * 600 * intval + draw % 10;
      }
    }

    method Connect() returns (ec: Ec)
      requires Valid() && entry.pc.Dial?
      modifies entry, entry.stream
      ensures Valid() && entry.steps == old(entry.steps) + 1 && entry.stream == old(entry.stream)
      ensures entry.pc == if ec == Ok then Upgrade(old(entry.pc).site)
                          else Head(old(entry.pc).site, entry.stream.open, entry.stop)
    {
      hide Run, Step, Head, Await, Use, Tail;
      RunNext(entry.setup, entry.env, entry.steps);
      DialStep(entry.View(), entry.env(entry.pos));
      var c := entry.Choose();
      entry.Suspend(Dialed(entry.stream.gen, c.ec), c.turn);
      ec := c.ec;
      if ec != Ok {
        if ec == Truncated || ec == Unspecified {
          ec := Ok;
        }
      }
      entry.pc := if ec == Ok then Upgrade(entry.pc.site)
                  else Head(entry.pc.site, entry.stream.open, entry.stop);
      entry.steps := entry.steps + 1;
    }

    method HandShake() returns (ec: Ec)
      requires Valid() && entry.pc.Upgrade?
      modifies entry, entry.stream
      ensures Valid() && entry.steps == old(entry.steps) + 1 && entry.stream == old(entry.stream)
      ensures entry.pc == if ec == Ok then Init(old(entry.pc).site)
                          else Head(old(entry.pc).site, entry.stream.open, entry.stop)
    {
      hide Run, Step, Head, Await, Use, Tail;
      RunNext(entry.setup, entry.env, entry.steps);
      UpgradeStep(entry.View(), entry.env(entry.pos));
      var c := entry.Choose();
      ec := c.tls;
      if ec != Ok {
        entry.log := entry.log + [TlsFailed(entry.stream.gen, ec)];
        entry.pc := Head(entry.pc.site, entry.stream.open, entry.stop);
        entry.steps := entry.steps + 1;
        return;
      }
      entry.stream.open := c.ec == Ok;
      entry.Suspend(Upgraded(entry.stream.gen, c.tls, c.ec), c.turn);
      ec := c.ec;
      if ec != Ok {
        if ec == Truncated {
          ec := Ok;
        }
      }
      entry.pc := if ec == Ok then Init(entry.pc.site)
                  else Head(entry.pc.site, entry.stream.open, entry.stop);
      entry.steps := entry.steps + 1;
    }

    method ConnAndHandShake() returns (ec: Ec)
      requires Valid() && entry.pc.Dial?
      modifies entry, entry.stream
      ensures Valid() && entry.steps > old(entry.steps) && entry.stream == old(entry.stream)
      ensures entry.pc == if ec == Ok then Init(old(entry.pc).site)
                          else Head(old(entry.pc).site, entry.stream.open, entry.stop)
    {
      hide Run;
      ec := Connect();
      if ec != Ok {
        return;
      }
      ec := HandShake();
    }

    method ReConnect()
      requires Valid() && entry.pc.Enter?
      modifies entry, entry.stream
      ensures Valid() && entry.steps > old(entry.steps)
      ensures entry.stream == old(entry.stream) || fresh(entry.stream)
      ensures entry.pc == Head(old(entry.pc).site, entry.stream.open, entry.stop)
    {
      hide Run;
      entry.Begin();
      if entry.stream.open {
        entry.Close();
      } else {
        entry.NothingToClose();
      }
      ReConnectRate();
      entry.Free();
      entry.Renew();
      var ec := ConnAndHandShake();
      if ec == Ok {
        entry.UserInit();
        entry.Subscribe();
      }
    }

    /** The call of OnRead, and the removal of what it was handed. */
    method OnRead(size: nat) returns (ctrl: Ctrl)
      requires Valid() && entry.pc == Deliver(size)
      modifies entry, entry.stream
      ensures Valid() && entry.steps == old(entry.steps) + 1 && entry.stream == old(entry.stream)
      ensures entry.pc == AfterDeliver(true, ctrl, entry.stream.open, entry.stop)
    {
      hide Run, Step, Head, AfterDeliver, Handed, Consume, Await, Use, Tail;
      RunNext(entry.setup, entry.env, entry.steps);
      DeliverStep(entry.View(), entry.env(entry.pos));
      var c := entry.Choose();
      ctrl := c.ctrl;
      entry.Suspend(Delivered(Handed(entry.buffer, size), ctrl), c.turn);
      entry.buffer := Consume(entry.buffer, size);
      entry.pc := AfterDeliver(true, ctrl, entry.stream.open, entry.stop);
      entry.steps := entry.steps + 1;
    }

    method SendPing()
      requires Valid() && entry.pc.Ping?
      modifies entry, entry.stream
      ensures Valid() && entry.steps == old(entry.steps) + 1 && entry.stream == old(entry.stream)
      ensures entry.pc == Head(AtLoop, entry.stream.open, entry.stop)
    {
      hide Run, Step, Head, Await, Use, Tail;
      RunNext(entry.setup, entry.env, entry.steps);
      PingStep(entry.View(), entry.env(entry.pos));
      var c := entry.Choose();
      entry.Suspend(Pinged(entry.stream.gen), c.turn);
      entry.pc := Head(AtLoop, entry.stream.open, entry.stop);
      entry.steps := entry.steps + 1;
    }

    /** The do-while of CtrlReConnect. */
    method HangUp()
      requires Valid() && entry.pc.Hangup?
      modifies entry, entry.stream
      ensures Valid() && entry.steps > old(entry.steps) && entry.stream == old(entry.stream)
      ensures entry.pc == Head(AtStart, entry.stream.open, entry.stop)
    {
      hide Run;
      var open := true;
      while open
        invariant Valid() && entry.stream == old(entry.stream)
        invariant entry.pc ==
                  if open then Hangup else Head(AtStart, entry.stream.open, entry.stop)
        invariant entry.steps > old(entry.steps) || (open && entry.steps == old(entry.steps))
        decreases open
      {
        entry.Close();
        open := entry.stream.open;
      }
    }

    /** One turn of the read loop; `again` asks for the jump to START. */
    method ReadTurn() returns (again: bool)
      requires Valid() && entry.pc.Read?
      modifies entry, entry.stream
      ensures Valid() && entry.steps > old(entry.steps)
      ensures entry.stream == old(entry.stream) || fresh(entry.stream)
      ensures entry.pc == Head(if again then AtStart else AtLoop, entry.stream.open, entry.stop)
    {
      hide Run;
      again := false;
      var ec, size := entry.Read();
      if entry.stop {
        return;
      }
      if ec != Ok {
        entry.Drop(ec, size);
        if ec == Timeout || ec == Aborted {
          ReConnect();
        }
      } else {
        var ctrl := OnRead(size);
        match ctrl
        case CtrlReConnect =>
          HangUp();
          again := true;
        case CtrlReSub =>
          entry.UserInit();
          entry.Subscribe();
        case CtrlPing =>
          SendPing();
        case _ =>
      }
    }

    /** The session, cut off after `turns` turns of its loops. */
    method DoSession(turns: nat) returns (finished: bool)
      requires Valid() && entry.pc == Head(AtStart, entry.stream.open, entry.stop)
      modifies entry, entry.stream
      ensures Valid()
      ensures if finished then entry.pc.Done? else entry.steps >= old(entry.steps) + turns
      ensures entry.Promises()
    {
      hide Run, Kept;
      var left: nat := turns;
      var start := true;
      while start
        invariant Valid() && (entry.stream == old(entry.stream) || fresh(entry.stream))
        invariant entry.pc ==
                  if start then Head(AtStart, entry.stream.open, entry.stop) else Final
        invariant left <= turns && entry.steps >= old(entry.steps) + (turns - left)
        decreases left, start
      {
        start := false;
        while !entry.stream.open && !entry.stop
          invariant Valid() && (entry.stream == old(entry.stream) || fresh(entry.stream))
          invariant entry.pc == Head(AtStart, entry.stream.open, entry.stop)
          invariant left <= turns && entry.steps >= old(entry.steps) + (turns - left)
          decreases left
        {
          if left == 0 {
            entry.Promised();
            return false;
          }
          left := left - 1;
          ReConnect();
        }
        ghost var remaining: nat := left;
        while !entry.stop && !start
          invariant Valid() && (entry.stream == old(entry.stream) || fresh(entry.stream))
          invariant entry.pc ==
                    Head(if start then AtStart else AtLoop, entry.stream.open, entry.stop)
          invariant left <= turns && entry.steps >= old(entry.steps) + (turns - left)
          invariant left <= remaining && (start ==> left < remaining)
          decreases left, !start
        {
          if left == 0 {
            entry.Promised();
            return false;
          }
          left := left - 1;
          start := ReadTurn();
        }
      }
      entry.Close();
      entry.Promised();
      finished := true;
    }
  }
}
