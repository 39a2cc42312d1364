/** A WebSocket session as a state machine: one machine for the plain and the TLS connection, with a
    flag. That each of them is this machine is proved in modules PlainConn and TlsConn.

    One step is the code between two points at which the coroutine can be suspended. All that the
    program does not decide (results of network operations, what happens while the coroutine is
    suspended, clock readings, random draws, what the user's callbacks return) is a `Choice` of
    the environment. A run takes its choices from an arbitrary function, so a property of `Run`
    is a property of every run, stopped at any step. */
module Session {
  import opened Words
  import opened BackOff

  type Bytes = seq<bv8>

  /** The error codes that the session tells apart. */
  datatype Ec = Ok | Truncated | Unspecified | Timeout | Aborted | Other

  datatype Ctrl = CtrlContinue | CtrlReConnect | CtrlPing | CtrlPong | CtrlUnSub | CtrlReSub

  /** What happened while the coroutine was suspended: `Stop` may have run, and the stream may have
      been closed, by `Stop`, by the peer or by an error. The two are independent because a
      handshake in flight when `Stop` runs can still open the stream. */
  datatype Turn = Turn(stop: bool, drop: bool)

  /** Everything the environment may decide in one step. A step uses the parts it needs. */
  datatype Choice = Choice(
    turn: Turn,
    ec: Ec,               // result of the asynchronous operation
    tls: Ec,              // result of the TLS handshake
    bytes: Bytes,         // what a read put into the buffer, whether or not it failed
    ctrl: Ctrl,           // what OnRead returned
    now: uint64, draw: Draw, later: uint64,
    subs: seq<string>)    // the subscriptions after the user's Init

  type Env = nat -> Choice

  /** Where ReConnect or Sub was called: in the loop at the label START, or in the read loop. */
  datatype Site = AtStart | AtLoop

  datatype Pc =
    | Enter(site: Site)         // call of ReConnect
    | Shut(site: Site)          // close the stream if it is open
    | Rate(site: Site)          // ReConnectRate
    | Delete(site: Site)
    | Allocate(site: Site)
    | Dial(site: Site)          // Connect
    | Upgrade(site: Site)       // HandShake
    | Init(site: Site)
    | Sub(site: Site, i: nat)   // about to subscribe to subs[i]
    | Read
    | Discard(size: nat, ec: Ec) // after a read that failed
    | Deliver(size: nat)        // call of OnRead
    | Hangup                    // the do-while of CtrlReConnect
    | Ping
    | Final                     // the Close after the read loop
    | Done

  /** What the session did, in order. `gen` numbers the streams that a session allocates. */
  datatype Event =
    | Allocated(gen: nat)
    | Freed(gen: nat)
    | Begun(site: Site)                     // a ReConnect started
    | Paced(pace: Pace)
    | Dialed(gen: nat, ec: Ec)
    | TlsFailed(gen: nat, ec: Ec)
    | Upgraded(gen: nat, tls: Ec, ec: Ec)   // tls is not looked at in a plain session
    | Inited(subs: seq<string>)
    | Wrote(gen: nat, sub: string)
    | ReadOk(gen: nat, msg: Bytes)
    | ReadFailed(gen: nat, ec: Ec)
    | Delivered(data: Bytes, ctrl: Ctrl)    // an OnRead and its answer
    | Pinged(gen: nat)
    | Closed(gen: nat)
    | FinalClosed(gen: nat)
    | Stopped                               // stop_ was found to have become true

  datatype State = State(
    pc: Pc,
    pos: nat,        // number of choices used
    open: bool,      // stream()->is_open()
    stop: bool,
    gen: nat,
    buffer: Bytes,
    subs: seq<string>,
    pacer: Pacer,
    log: seq<Event>)

  // ----- One step, variable by variable

  /** The result of a read: a stream that is not open answers operation_aborted. */
  function ReadResult(s: State, c: Choice): Ec {
    if s.open then c.ec else Aborted
  }

  function ReadBytes(s: State, c: Choice): Bytes {
    if s.open then c.bytes else []
  }

  function ReadEvent(gen: nat, ec: Ec, bytes: Bytes): Event {
    if ec == Ok then ReadOk(gen, bytes) else ReadFailed(gen, ec)
  }

  /** What OnRead is handed: the first `size` bytes of the buffer. */
  function Handed(buffer: Bytes, size: nat): Bytes {
    if size <= |buffer| then buffer[..size] else buffer
  }

  /** Removal of the first `n` bytes of the buffer, or of all if there are fewer. */
  function Consume(buffer: Bytes, n: nat): Bytes {
    if n <= |buffer| then buffer[n..] else []
  }

  /** OnRead is handed just what is then removed. */
  lemma HandedIsConsumed(buffer: Bytes, n: nat)
    ensures Handed(buffer, n) + Consume(buffer, n) == buffer
    ensures |Consume(buffer, n)| == if n <= |buffer| then |buffer| - n else 0
  {
  }

  /** The call of `ReConnectRate` that a step makes. */
  function PaceOf(s: State, c: Choice): Pace {
    Pace(c.now, c.draw, Delay(Bump(s.pacer, c.now), c.draw), c.later)
  }

  /** The step writes a subscription: entries that are empty are passed over. */
  predicate Writes(s: State) {
    s.pc.Sub? && s.pc.i < |s.subs| && s.subs[s.pc.i] != ""
  }

  /** A failed TLS handshake leaves without a WebSocket handshake, and without suspension. */
  predicate TlsFails(ssl: bool, c: Choice) {
    ssl && c.tls != Ok
  }

  /** The event that a step makes before the coroutine is suspended, if it makes one. */
  function Made(ssl: bool, s: State, c: Choice): seq<Event> {
    match s.pc
    case Enter(site) => [Begun(site)]
    case Shut(_) => if s.open then [Closed(s.gen)] else []
    case Rate(_) => [Paced(PaceOf(s, c))]
    case Delete(_) => [Freed(s.gen)]
    case Allocate(_) => [Allocated(s.gen + 1)]
    case Dial(_) => [Dialed(s.gen, c.ec)]
    case Upgrade(_) =>
      if TlsFails(ssl, c) then [TlsFailed(s.gen, c.tls)] else [Upgraded(s.gen, c.tls, c.ec)]
    case Init(_) => [Inited(c.subs)]
    case Sub(_, i) => if Writes(s) then [Wrote(s.gen, s.subs[i])] else []
    case Read => [ReadEvent(s.gen, ReadResult(s, c), ReadBytes(s, c))]
    case Discard(_, _) => []
    case Deliver(size) => [Delivered(Handed(s.buffer, size), c.ctrl)]
    case Hangup => [Closed(s.gen)]
    case Ping => [Pinged(s.gen)]
    case Final => [FinalClosed(s.gen)]
    case Done => []
  }

  lemma MadeIsShort(ssl: bool, s: State, c: Choice)
    ensures |Made(ssl, s, c)| <= 1
  {
  }

  /** The step uses up a choice of the environment. */
  predicate Uses(s: State) {
    match s.pc
    case Enter(_) => false
    case Shut(_) => s.open
    case Delete(_) => false
    case Allocate(_) => false
    case Sub(_, _) => Writes(s)
    case Discard(_, _) => false
    case Done => false
    case _ => true
  }

  /** The coroutine is suspended in the step. `ReConnectRate` sleeps from the third call on, and
      the user's Init has no way to suspend. */
  predicate Waits(ssl: bool, s: State, c: Choice) {
    match s.pc
    case Rate(_) => Bump(s.pacer, c.now) > 2
    case Upgrade(_) => !TlsFails(ssl, c)
    case Init(_) => false
    case _ => Uses(s)
  }

  /** Whether the stream is open, before what happens during the suspension. */
  predicate Opens(ssl: bool, s: State, c: Choice) {
    match s.pc
    case Shut(_) => false
    case Allocate(_) => false
    case Upgrade(_) => if TlsFails(ssl, c) then s.open else c.ec == Ok
    case Read => s.open && c.ec == Ok
    case Hangup => false
    case Final => false
    case _ => s.open
  }

  /** A read that failed can have put bytes into the buffer too; they are discarded, unless the
      session was stopped. */
  function Buffered(s: State, c: Choice): Bytes {
    match s.pc
    case Read => s.buffer + ReadBytes(s, c)
    case Discard(size, _) => Consume(s.buffer, size)
    case Deliver(size) => Consume(s.buffer, size)
    case _ => s.buffer
  }

  /** Where control goes from the head of the loop at `site`. */
  function Head(site: Site, open: bool, stop: bool): Pc {
    if site == AtStart && !open && !stop then Enter(AtStart)
    else if stop then Final
    else Read
  }

  /** Two errors count as success when connecting; only the first of them does for the handshake. */
  predicate ConnectGoesOn(ec: Ec) {
    ec == Ok || ec == Truncated || ec == Unspecified
  }

  predicate HandShakeGoesOn(ssl: bool, c: Choice) {
    !TlsFails(ssl, c) && (c.ec == Ok || c.ec == Truncated)
  }

  function AfterRead(ec: Ec, size: nat, stop: bool): Pc {
    if stop then Final
    else if ec == Ok then Deliver(size)
    else Discard(size, ec)
  }

  /** The read errors that reconnect at once. */
  predicate Reconnects(ec: Ec) {
    ec == Timeout || ec == Aborted
  }

  /** Only the TLS session acts on CtrlReSub and CtrlPing. */
  function AfterDeliver(ssl: bool, ctrl: Ctrl, open: bool, stop: bool): Pc {
    if ctrl == CtrlReConnect then Hangup
    else if ssl && ctrl == CtrlReSub then Init(AtLoop)
    else if ssl && ctrl == CtrlPing then Ping
    else Head(AtLoop, open, stop)
  }

  /** Where control goes, given what `open` and `stop` are when the coroutine goes on. */
  function Next(ssl: bool, s: State, c: Choice, open: bool, stop: bool): Pc {
    match s.pc
    case Enter(site) => Shut(site)
    case Shut(site) => Rate(site)
    case Rate(site) => Delete(site)
    case Delete(site) => Allocate(site)
    case Allocate(site) => Dial(site)
    case Dial(site) => if ConnectGoesOn(c.ec) then Upgrade(site) else Head(site, open, stop)
    case Upgrade(site) => if HandShakeGoesOn(ssl, c) then Init(site) else Head(site, open, stop)
    case Init(site) => Sub(site, 0)
    case Sub(site, i) => if i < |s.subs| then Sub(site, i + 1) else Head(site, open, stop)
    case Read => AfterRead(ReadResult(s, c), |ReadBytes(s, c)|, stop)
    case Discard(_, ec) => if Reconnects(ec) then Enter(AtLoop) else Head(AtLoop, open, stop)
    case Deliver(_) => AfterDeliver(ssl, c.ctrl, open, stop)
    case Hangup => if open then Hangup else Head(AtStart, open, stop)
    case Ping => Head(AtLoop, open, stop)
    case Final => Done
    case Done => Done
  }

  /** The Stopped event of a step, if stop_ became true in it. */
  function Tail(before: bool, after: bool): seq<Event> {
    if after && !before then [Stopped] else []
  }

  function Step(ssl: bool, s: State, c: Choice): State {
    var waits := Waits(ssl, s, c);
    var open := Opens(ssl, s, c) && !(waits && c.turn.drop);
    var stop := s.stop || (waits && c.turn.stop);
    State(
      Next(ssl, s, c, open, stop),
      s.pos + (if Uses(s) then 1 else 0),
      open,
      stop,
      if s.pc.Allocate? then s.gen + 1 else s.gen,
      Buffered(s, c),
      if s.pc.Init? then c.subs else s.subs,
      if s.pc.Rate? then Pacer(c.later, Bump(s.pacer, c.now)) else s.pacer,
      s.log + Made(ssl, s, c) + Tail(s.stop, stop))
  }

  datatype Setup = Setup(ssl: bool, subs: seq<string>, stop: bool)

  /** A new session, for which `Stop` may already have been called. */
  function Boot(u: Setup): State {
    State(Head(AtStart, false, u.stop), 0, false, u.stop, 0, [], u.subs, Pacer(0, 0),
          [Allocated(0)] + Tail(false, u.stop))
  }

  /** The state after `n` steps. */
  function Run(u: Setup, env: Env, n: nat): State {
    if n == 0 then Boot(u)
    else
      var s := Run(u, env, n - 1);
      Step(u.ssl, s, env(s.pos))
  }

  lemma RunNext(u: Setup, env: Env, n: nat)
    ensures Run(u, env, n + 1) == Step(u.ssl, Run(u, env, n), env(Run(u, env, n).pos))
  {
  }

  /** What holds of a new session and is kept by every step holds of every run. */
  lemma {:induction false} RunInduction(u: Setup, env: Env, n: nat, inv: State -> bool)
    requires inv(Boot(u))
    requires forall s: State, c: Choice :: inv(s) ==> inv(Step(u.ssl, s, c))
    ensures inv(Run(u, env, n))
  {
    if n > 0 {
      RunInduction(u, env, n - 1, inv);
    }
  }

  // ----- Sums over a log

  /** Total weight of the events of a log. */
  function Sum(log: seq<Event>, weight: Event -> int): int {
    if log == [] then 0 else Sum(log[..|log| - 1], weight) + weight(log[|log| - 1])
  }

  lemma SumAppend(log: seq<Event>, xs: seq<Event>, weight: Event -> int)
    requires |xs| <= 1
    ensures Sum(log + xs, weight) == Sum(log, weight) + if xs == [] then 0 else weight(xs[0])
  {
    if xs == [] {
      assert log + xs == log;
    } else {
      assert (log + xs)[..|log|] == log;
    }
  }

  lemma SumStep(ssl: bool, s: State, c: Choice, weight: Event -> int)
    ensures var t, made := Step(ssl, s, c), Made(ssl, s, c);
            Sum(t.log, weight) == Sum(s.log, weight)
              + (if made == [] then 0 else weight(made[0]))
              + (if t.stop && !s.stop then weight(Stopped) else 0)
  {
    var t, made := Step(ssl, s, c), Made(ssl, s, c);
    MadeIsShort(ssl, s, c);
    SumAppend(s.log, made, weight);
    SumAppend(s.log + made, Tail(s.stop, t.stop), weight);
  }

  lemma SumBoot(u: Setup, weight: Event -> int)
    ensures Sum(Boot(u).log, weight) ==
            weight(Allocated(0)) + if u.stop then weight(Stopped) else 0
  {
    SumAppend([], [Allocated(0)], weight);
    assert [] + [Allocated(0)] == [Allocated(0)];
    SumAppend([Allocated(0)], Tail(false, u.stop), weight);
  }
}
