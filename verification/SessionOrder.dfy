/** In what order a session does things: which event may follow which, read off the log alone and
    without the machine's own control points. */
module SessionOrder {
  import opened BackOff
  import opened Session
  import opened SessionStop

  /** What a log tells about what may come next. `last` leaves Stopped out; `site` is where the
      session is, or will be when the reconnection under way is over; `shut` says that nothing has
      opened the stream since it was allocated or since an operation closed it. */
  datatype Trail = Trail(last: Event, site: Site, gen: nat, shut: bool, stopped: bool)

  function Look(log: seq<Event>): Trail {
    if log == [] then Trail(Stopped, AtStart, 0, true, false)
    else After(Look(log[..|log| - 1]), log[|log| - 1])
  }

  function After(t: Trail, e: Event): Trail {
    match e
    case Stopped => t.(stopped := true)
    case Allocated(gen) => t.(last := e, gen := gen, shut := true)
    case Begun(site) => t.(last := e, site := site)
    case Upgraded(_, _, ec) => t.(last := e, shut := ec != Ok)
    case ReadOk(_, _) => t.(last := e, site := AtLoop)
    case ReadFailed(_, _) => t.(last := e, site := AtLoop, shut := true)
    case Closed(_) => t.(last := e, site := AtStart, shut := true)
    case FinalClosed(_) => t.(last := e, shut := true)
    case _ => t.(last := e)
  }

  /** At the head of a loop: a stopped session closes for good; a stream that is known to be shut
      is reconnected by the loop at START, and read in vain by the read loop; and else the loop at
      START reconnects only if the stream was closed from elsewhere. */
  predicate MayAtHead(t: Trail, e: Event) {
    if t.stopped then e == FinalClosed(t.gen)
    else if t.shut && t.site == AtStart then e == Begun(AtStart)
    else if t.shut then e == ReadFailed(t.gen, Aborted)
    else
      || (t.site == AtStart && e == Begun(AtStart))
      || (e.ReadOk? && e.gen == t.gen)
      || (e.ReadFailed? && e.gen == t.gen)
  }

  predicate MayUpgrade(ssl: bool, t: Trail, e: Event) {
    || (ssl && e.TlsFailed? && e.gen == t.gen && e.ec != Ok)
    || (e.Upgraded? && e.gen == t.gen && (ssl ==> e.tls == Ok))
  }

  /** The events, but for Stopped, that may come next. */
  predicate May(ssl: bool, t: Trail, e: Event) {
    match t.last
    case Allocated(gen) => if gen == 0 then MayAtHead(t, e) else e.Dialed? && e.gen == t.gen
    case Begun(_) => e.Paced?
    case Paced(_) => e == Freed(t.gen)
    case Freed(gen) => e == Allocated(gen + 1)
    case Dialed(_, ec) =>
      if ec in {Ok, Truncated, Unspecified} then MayUpgrade(ssl, t, e) else MayAtHead(t, e)
    case TlsFailed(_, _) => MayAtHead(t, e)
    case Upgraded(_, _, ec) => if ec in {Ok, Truncated} then e.Inited? else MayAtHead(t, e)
    case Inited(_) => (e.Wrote? && e.gen == t.gen) || MayAtHead(t, e)
    case Wrote(_, _) => (e.Wrote? && e.gen == t.gen) || MayAtHead(t, e)
    case ReadOk(_, _) => if t.stopped then MayAtHead(t, e) else e.Delivered?
    case ReadFailed(_, ec) =>
      if !t.stopped && ec in {Timeout, Aborted} then e == Begun(AtLoop) else MayAtHead(t, e)
    case Delivered(_, ctrl) =>
      if ctrl == CtrlReConnect then e == Closed(t.gen)
      else if ssl && ctrl == CtrlReSub then e.Inited?
      else if ssl && ctrl == CtrlPing then e == Pinged(t.gen)
      else MayAtHead(t, e)
    case Pinged(_) => MayAtHead(t, e)
    case Closed(_) => MayAtHead(t, e)
    case FinalClosed(_) => false
    case Stopped => false
  }

  ghost predicate InOrder(ssl: bool, log: seq<Event>) {
    forall i :: 0 < i < |log| && log[i] != Stopped ==> May(ssl, Look(log[..i]), log[i])
  }

  // ----- Where the machine is, as the log tells it

  /** The last event leads to the head of a loop. */
  predicate Heads(ssl: bool, t: Trail) {
    match t.last
    case Allocated(gen) => gen == 0
    case Dialed(_, ec) => !(ec in {Ok, Truncated, Unspecified})
    case TlsFailed(_, _) => true
    case Upgraded(_, _, ec) => !(ec in {Ok, Truncated})
    case Inited(_) => true
    case Wrote(_, _) => true
    case ReadFailed(_, ec) => t.stopped || !(ec in {Timeout, Aborted})
    case ReadOk(_, _) => t.stopped
    case Delivered(_, ctrl) => ctrl != CtrlReConnect && !(ssl && ctrl in {CtrlReSub, CtrlPing})
    case Pinged(_) => true
    case Closed(_) => true
    case _ => false
  }

  ghost predicate Placed(ssl: bool, s: State, t: Trail) {
    && t.gen == s.gen && t.stopped == s.stop && (t.shut ==> !s.open)
    && match s.pc
       case Enter(site) =>
         && !s.stop && !s.open && t.site == site
         && if site == AtStart then Heads(ssl, t)
            else t.last.ReadFailed? && t.last.ec in {Timeout, Aborted}
       case Shut(site) => t.last == Begun(site) && t.site == site && !s.open
       case Rate(site) => t.last == Begun(site) && t.site == site
       case Delete(site) => t.last.Paced? && t.site == site
       case Allocate(site) => t.last == Freed(s.gen) && t.site == site
       case Dial(site) => t.last == Allocated(s.gen) && s.gen > 0 && t.site == site
       case Upgrade(site) =>
         t.last.Dialed? && t.last.ec in {Ok, Truncated, Unspecified} && t.site == site
       case Init(site) =>
         && t.site == site
         && ((t.last.Upgraded? && t.last.ec in {Ok, Truncated})
             || (ssl && t.last.Delivered? && t.last.ctrl == CtrlReSub))
       case Sub(site, _) => (t.last.Inited? || t.last.Wrote?) && t.site == site
       case Read => !s.stop && Heads(ssl, t) && (t.site == AtStart ==> s.open)
       case Discard(size, ec) =>
         !s.stop && t.last.ReadFailed? && t.last.ec == ec && t.site == AtLoop && t.shut
       case Deliver(_) => !s.stop && t.last.ReadOk? && t.site == AtLoop
       case Hangup => t.last.Delivered? && t.last.ctrl == CtrlReConnect
       case Ping => ssl && t.last.Delivered? && t.last.ctrl == CtrlPing && t.site == AtLoop
       case Final => s.stop && Heads(ssl, t)
       case Done => t.last.FinalClosed?
  }

  ghost predicate Inv(ssl: bool, s: State) {
    && s.log != [] && s.log[0] == Allocated(0)
    && Placed(ssl, s, Look(s.log))
    && InOrder(ssl, s.log)
  }

  function Seen(t: Trail, xs: seq<Event>): Trail {
    if xs == [] then t else After(t, xs[0])
  }

  lemma Append(ssl: bool, log: seq<Event>, xs: seq<Event>)
    requires |xs| <= 1 && InOrder(ssl, log)
    requires xs != [] && xs[0] != Stopped && log != [] ==> May(ssl, Look(log), xs[0])
    ensures InOrder(ssl, log + xs) && Look(log + xs) == Seen(Look(log), xs)
  {
    hide May;
    if xs == [] {
      assert log + xs == log;
    } else {
      assert (log + xs)[..|log|] == log;
      forall i | 0 < i < |log + xs| && (log + xs)[i] != Stopped
        ensures May(ssl, Look((log + xs)[..i]), (log + xs)[i]) {
        if i < |log| {
          assert (log + xs)[..i] == log[..i];
        }
      }
    }
  }

  lemma MadeMay(ssl: bool, s: State, c: Choice, t: Trail)
    requires Placed(ssl, s, t)
    ensures var made := Made(ssl, s, c);
            && |made| <= 1
            && (made != [] ==> made[0] != Stopped && May(ssl, t, made[0]))
  {
  }

  /** What a step leaves, given the trail after its event. */
  ghost predicate PlacedNext(ssl: bool, s: State, c: Choice, t: Trail) {
    var s' := Step(ssl, s, c);
    Placed(ssl, s', Seen(Seen(t, Made(ssl, s, c)), Tail(s.stop, s'.stop)))
  }

  lemma ReconnectStep(ssl: bool, s: State, c: Choice, t: Trail)
    requires Placed(ssl, s, t)
    requires s.pc.Enter? || s.pc.Shut? || s.pc.Rate? || s.pc.Delete? || s.pc.Allocate?
    ensures PlacedNext(ssl, s, c, t)
  {
  }

  lemma DialStep(ssl: bool, s: State, c: Choice, t: Trail)
    requires s.pc.Dial? && Placed(ssl, s, t)
    ensures PlacedNext(ssl, s, c, t)
  {
    hide Bump, Delay, Consume, Handed, PaceOf, ReadBytes;
  }

  lemma UpgradeStep(ssl: bool, s: State, c: Choice, t: Trail)
    requires s.pc.Upgrade? && Placed(ssl, s, t)
    ensures PlacedNext(ssl, s, c, t)
  {
    hide Bump, Delay, Consume, Handed, PaceOf, ReadBytes;
  }

  lemma SubscribeStep(ssl: bool, s: State, c: Choice, t: Trail)
    requires (s.pc.Init? || s.pc.Sub?) && Placed(ssl, s, t)
    ensures PlacedNext(ssl, s, c, t)
  {
    hide Bump, Delay, Consume, Handed, PaceOf, ReadBytes;
  }

  lemma ReadStep(ssl: bool, s: State, c: Choice, t: Trail)
    requires s.pc.Read? && Placed(ssl, s, t)
    ensures PlacedNext(ssl, s, c, t)
  {
    hide Bump, Delay, Consume, Handed, PaceOf, ReadBytes;
  }

  lemma DiscardStep(ssl: bool, s: State, c: Choice, t: Trail)
    requires s.pc.Discard? && Placed(ssl, s, t)
    ensures PlacedNext(ssl, s, c, t)
  {
    hide Bump, Delay, Consume, Handed, PaceOf, ReadBytes;
  }

  lemma DeliverStep(ssl: bool, s: State, c: Choice, t: Trail)
    requires s.pc.Deliver? && Placed(ssl, s, t)
    ensures PlacedNext(ssl, s, c, t)
  {
    hide Bump, Delay, Consume, Handed, PaceOf, ReadBytes;
  }

  lemma CloseStep(ssl: bool, s: State, c: Choice, t: Trail)
    requires (s.pc.Hangup? || s.pc.Final? || s.pc.Done?) && Placed(ssl, s, t)
    ensures PlacedNext(ssl, s, c, t)
  {
    hide Bump, Delay, Consume, Handed, PaceOf, ReadBytes;
  }

  lemma PingStep(ssl: bool, s: State, c: Choice, t: Trail)
    requires s.pc.Ping? && Placed(ssl, s, t)
    ensures PlacedNext(ssl, s, c, t)
  {
    hide Bump, Delay, Consume, Handed, PaceOf, ReadBytes;
  }

  lemma StepKeeps(ssl: bool, s: State, c: Choice)
    requires Inv(ssl, s)
    ensures Inv(ssl, Step(ssl, s, c))
  {
    hide Placed, Made, Step, May, After;
    var t, made := Look(s.log), Made(ssl, s, c);
    var s' := Step(ssl, s, c);
    MadeMay(ssl, s, c, t);
    match s.pc {
      case Enter(_) => ReconnectStep(ssl, s, c, t);
      case Shut(_) => ReconnectStep(ssl, s, c, t);
      case Rate(_) => ReconnectStep(ssl, s, c, t);
      case Delete(_) => ReconnectStep(ssl, s, c, t);
      case Allocate(_) => ReconnectStep(ssl, s, c, t);
      case Dial(_) => DialStep(ssl, s, c, t);
      case Upgrade(_) => UpgradeStep(ssl, s, c, t);
      case Init(_) => SubscribeStep(ssl, s, c, t);
      case Sub(_, _) => SubscribeStep(ssl, s, c, t);
      case Read => ReadStep(ssl, s, c, t);
      case Discard(_, _) => DiscardStep(ssl, s, c, t);
      case Deliver(_) => DeliverStep(ssl, s, c, t);
      case Ping => PingStep(ssl, s, c, t);
      case _ => CloseStep(ssl, s, c, t);
    }
    LogInStep(ssl, s, c);
    Append(ssl, s.log, made);
    Append(ssl, s.log + made, Tail(s.stop, s'.stop));
  }

  lemma LogInStep(ssl: bool, s: State, c: Choice)
    ensures var s' := Step(ssl, s, c);
            s'.log == s.log + Made(ssl, s, c) + Tail(s.stop, s'.stop)
  {
  }

  lemma BootKeeps(u: Setup)
    ensures Inv(u.ssl, Boot(u))
  {
    Append(u.ssl, [], [Allocated(0)]);
    assert [] + [Allocated(0)] == [Allocated(0)];
    Append(u.ssl, [Allocated(0)], Tail(false, u.stop));
  }

  lemma RunKeeps(u: Setup, env: Env, n: nat)
    ensures Inv(u.ssl, Run(u, env, n))
  {
    hide Inv;
    BootKeeps(u);
    forall s: State, c: Choice | Inv(u.ssl, s)
      ensures Inv(u.ssl, Step(u.ssl, s, c)) {
      StepKeeps(u.ssl, s, c);
    }
    RunInduction(u, env, n, s => Inv(u.ssl, s));
  }

  /** The events of every run are in order. */
  lemma RunInOrder(u: Setup, env: Env, n: nat)
    ensures var log := Run(u, env, n).log;
            log != [] && log[0] == Allocated(0) && InOrder(u.ssl, log)
  {
    RunKeeps(u, env, n);
  }

  // ----- What the order amounts to

  /** The event before number `j`, Stopped left out. */
  function Prev(log: seq<Event>, j: nat): int
    requires 0 < j <= |log|
  {
    if log[j - 1] == Stopped then j - 2 else j - 1
  }

  lemma PrevIsLast(log: seq<Event>, j: nat)
    requires 0 < j <= |log| && log[0] != Stopped && Quiet(log)
    ensures 0 <= Prev(log, j) < j && log[Prev(log, j)] != Stopped
    ensures Look(log[..j]).last == log[Prev(log, j)]
    ensures Look(log[..j]).gen == After(Look(log[..Prev(log, j)]), log[Prev(log, j)]).gen
  {
    assert log[..j][..j - 1] == log[..j - 1];
    if log[j - 1] == Stopped {
      assert log[..j - 1][..j - 2] == log[..j - 2];
    }
  }

  /** Before an event that may not follow a Stopped, there is none. */
  lemma {:induction false} NotStopped(log: seq<Event>, j: nat, k: nat)
    requires j <= k < |log| && Quiet(log) && !Allowed(log[k])
    ensures !Look(log[..j]).stopped
    ensures j > 0 ==> log[j - 1] != Stopped
  {
    if j > 0 {
      NotStopped(log, j - 1, k);
      assert log[..j][..j - 1] == log[..j - 1];
    }
  }

  predicate IsRead(e: Event) {
    e.ReadOk? || e.ReadFailed?
  }

  /** How the answer of the OnRead that is event `i` is obeyed: at once, and on the stream that
      delivered. */
  predicate Obeyed(ssl: bool, log: seq<Event>, i: nat, k: nat)
    requires i < k < |log| && log[i].Delivered?
  {
    && i > 0 && log[i - 1].ReadOk?
    && (log[i].ctrl == CtrlReConnect ==>
          i + 2 < k && log[i + 1] == Closed(log[i - 1].gen) && log[i + 2] == Begun(AtStart))
    && (ssl && log[i].ctrl == CtrlPing ==> i + 1 < k && log[i + 1] == Pinged(log[i - 1].gen))
    && (ssl && log[i].ctrl == CtrlReSub ==> i + 1 < k && log[i + 1].Inited?)
    && (!(log[i].ctrl == CtrlReConnect || (ssl && log[i].ctrl in {CtrlPing, CtrlReSub})) ==>
          IsRead(log[i + 1]))
  }

  ghost predicate AllObeyed(ssl: bool, log: seq<Event>) {
    forall i, k :: 0 <= i < k < |log| && log[i].Delivered? && IsRead(log[k]) ==>
                     Obeyed(ssl, log, i, k)
  }

  lemma NextMay(ssl: bool, log: seq<Event>, i: nat, k: nat)
    requires log != [] && log[0] == Allocated(0) && InOrder(ssl, log) && Quiet(log)
    requires 0 < i <= k < |log| && IsRead(log[k])
    ensures var t := Look(log[..i]);
            && May(ssl, t, log[i]) && !t.stopped && t.last == log[i - 1]
            && Look(log[..i + 1]) == After(t, log[i])
  {
    hide May, After;
    PrevIsLast(log, i);
    NotStopped(log, i, k);
    NotStopped(log, if i < k then i + 1 else i, k);
    assert log[..i + 1][..i] == log[..i];
  }

  lemma AnswerObeyed(ssl: bool, log: seq<Event>, i: nat, k: nat)
    requires log != [] && log[0] == Allocated(0) && InOrder(ssl, log) && Quiet(log)
    requires i < k < |log| && log[i].Delivered? && IsRead(log[k])
    ensures Obeyed(ssl, log, i, k)
  {
    hide Look, InOrder, Quiet;
    NextMay(ssl, log, i, k);
    NextMay(ssl, log, i - 1, k);
    NextMay(ssl, log, i + 1, k);
    if i + 2 <= k {
      NextMay(ssl, log, i + 2, k);
    }
  }

  /** Answers are obeyed. In every run, if OnRead answers CtrlReConnect, then before the next read the
      stream that delivered is closed and the loop at START reconnects; a TLS session that is asked
      to ping or to subscribe again does so before it reads on; and for all other answers the next
      thing it does is read. */
  lemma AnswersAreObeyed(u: Setup, env: Env, n: nat)
    ensures AllObeyed(u.ssl, Run(u, env, n).log)
  {
    hide Run, Obeyed;
    RunInOrder(u, env, n);
    StopSafety(u, env, n);
    var log := Run(u, env, n).log;
    forall i, k | 0 <= i < k < |log| && log[i].Delivered? && IsRead(log[k])
      ensures Obeyed(u.ssl, log, i, k) {
      AnswerObeyed(u.ssl, log, i, k);
    }
  }

  /** Event `j`, an Init, comes right after a WebSocket handshake, on a stream that had connected and,
      in a TLS session, had been secured; or it is what CtrlReSub asked a TLS session for. */
  predicate FollowsHandShake(ssl: bool, log: seq<Event>, j: nat)
    requires 0 < j < |log|
  {
    var h := Prev(log, j);
    && 0 < h
    && if log[h].Upgraded? then
         var d := Prev(log, h);
         && log[h].ec in {Ok, Truncated} && (ssl ==> log[h].tls == Ok)
         && 0 < d && log[d].Dialed? && log[d].gen == log[h].gen
         && log[d].ec in {Ok, Truncated, Unspecified}
       else
         ssl && log[h].Delivered? && log[h].ctrl == CtrlReSub
  }

  lemma InitFollowsHandShake(u: Setup, env: Env, n: nat, j: nat)
    requires j < |Run(u, env, n).log| && Run(u, env, n).log[j].Inited?
    ensures j > 0 && FollowsHandShake(u.ssl, Run(u, env, n).log, j)
  {
    hide Run, Look, Quiet;
    RunInOrder(u, env, n);
    StopSafety(u, env, n);
    var log := Run(u, env, n).log;
    PrevIsLast(log, j);
    var h := Prev(log, j);
    assert May(u.ssl, Look(log[..j]), log[j]);
    assert h > 0 && May(u.ssl, Look(log[..h]), log[h]);
    PrevIsLast(log, h);
    var d := Prev(log, h);
    if log[h].Upgraded? {
      assert d > 0 && May(u.ssl, Look(log[..d]), log[d]);
    }
  }
  // ----- What the events tell of the environment

  /** The operations that suspend the coroutine: a sleep is one only if it is asked for. */
  predicate Suspends(e: Event) {
    match e
    case Paced(pace) => pace.delay > 0
    case Allocated(_) => false
    case Freed(_) => false
    case Begun(_) => false
    case TlsFailed(_, _) => false
    case Inited(_) => false
    case Stopped => false
    case _ => true
  }

  /** An event has the results that the environment chose. */
  predicate Reports(e: Event, c: Choice, open: bool) {
    match e
    case Paced(pace) => pace.now == c.now && pace.draw == c.draw && pace.later == c.later
    case Dialed(_, ec) => ec == c.ec
    case TlsFailed(_, ec) => ec == c.tls
    case Upgraded(_, tls, ec) => tls == c.tls && ec == c.ec
    case Inited(subs) => subs == c.subs
    case ReadOk(_, msg) => open && c.ec == Ok && msg == c.bytes
    case ReadFailed(_, ec) => ec == if open then c.ec else Aborted
    case Delivered(_, ctrl) => ctrl == c.ctrl
    case _ => true
  }

  /** Whether the stream is open after an operation, if nothing else closes it. */
  predicate OpenAfter(e: Event, open: bool) {
    match e
    case Upgraded(_, _, ec) => ec == Ok
    case Allocated(_) => false
    case ReadFailed(_, _) => false
    case Closed(_) => false
    case FinalClosed(_) => false
    case _ => open
  }

  /** A step that makes an event takes the results of it, the stop and the closing of the stream from
      the environment, and the last two just if the coroutine was suspended. */
  ghost predicate Told(s: State, c: Choice, t: State) {
    if |t.log| == |s.log| then
      t.log == s.log && t.open == s.open && t.stop == s.stop && t.pos == s.pos
    else
      && |s.log| < |t.log|
      && var e := t.log[|s.log|];
         && Reports(e, c, s.open)
         && (Suspends(e) || e.TlsFailed? || e.Inited? ==> t.pos == s.pos + 1)
         && t.open == (OpenAfter(e, s.open) && !(Suspends(e) && c.turn.drop))
         && t.stop == (s.stop || (Suspends(e) && c.turn.stop))
         && t.log == s.log + [e] + if t.stop && !s.stop then [Stopped] else []
  }

  lemma StepTells(ssl: bool, s: State, c: Choice)
    requires s.pc.Shut? ==> !s.open
    ensures Told(s, c, Step(ssl, s, c))
  {
    DelayIsSleep(s, c);
    hide Delay, Bump, Consume, Handed;
    var t, made := Step(ssl, s, c), Made(ssl, s, c);
    if made == [] {
      assert s.log + made + Tail(s.stop, t.stop) == s.log;
    } else {
      assert made == [made[0]] && t.log[|s.log|] == made[0];
    }
  }

  lemma DelayIsSleep(s: State, c: Choice)
    ensures PaceOf(s, c).delay > 0 <==> Bump(s.pacer, c.now) > 2
  {
  }

  /** In every run, the events tell the results that the environment chose, the stream is open just as
      they say, and a stop that comes while the coroutine is suspended is noticed at once. */
  lemma EventsTell(u: Setup, env: Env, n: nat)
    ensures var s := Run(u, env, n);
            Told(s, env(s.pos), Run(u, env, n + 1))
  {
    hide Step, Told;
    RunKeeps(u, env, n);
    var s := Run(u, env, n);
    StepTells(u.ssl, s, env(s.pos));
  }
}
