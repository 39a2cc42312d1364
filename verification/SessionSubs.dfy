/** Subscriptions: an open stream that is read has been subscribed on, in full. */
module SessionSubs {
  import opened Session

  /** One round of subscribing: what `subs_` held after Init, and what was written. */
  datatype Batch = Batch(wanted: seq<string>, written: seq<string>)

  /** The rounds on the current stream, oldest first. */
  function Batches(log: seq<Event>): seq<Batch> {
    if log == [] then []
    else
      var b := Batches(log[..|log| - 1]);
      match log[|log| - 1]
      case Allocated(_) => []
      case Inited(subs) => b + [Batch(subs, [])]
      case Wrote(_, sub) => Extend(b, sub)
      case _ => b
  }

  function Extend(b: seq<Batch>, sub: string): seq<Batch> {
    if b == [] then []
    else b[..|b| - 1] + [Batch(b[|b| - 1].wanted, b[|b| - 1].written + [sub])]
  }

  /** How often OnRead asked to subscribe again on the current stream. */
  function Resubs(log: seq<Event>): nat {
    if log == [] then 0
    else
      var r := Resubs(log[..|log| - 1]);
      match log[|log| - 1]
      case Allocated(_) => 0
      case Delivered(_, ctrl) => if ctrl == CtrlReSub then r + 1 else r
      case _ => r
  }

  function NonEmpty(subs: seq<string>): seq<string> {
    if subs == [] then []
    else
      var last := subs[|subs| - 1];
      NonEmpty(subs[..|subs| - 1]) + if last == "" then [] else [last]
  }

  ghost predicate Complete(b: seq<Batch>) {
    forall i :: 0 <= i < |b| ==> b[i].written == NonEmpty(b[i].wanted)
  }

  /** The rounds that a session owes: the one after its handshake, and for a TLS session one for
      each CtrlReSub. */
  function Owed(ssl: bool, log: seq<Event>): nat {
    if ssl then Resubs(log) else 0
  }

  /** The state of subscribing, as the log tells it. */
  datatype Book = Book(batches: seq<Batch>, owed: nat)

  function BookOf(ssl: bool, log: seq<Event>): Book {
    Book(Batches(log), Owed(ssl, log))
  }

  function Entry(ssl: bool, k: Book, xs: seq<Event>): Book {
    if xs == [] then k
    else match xs[0]
      case Allocated(_) => Book([], 0)
      case Inited(subs) => k.(batches := k.batches + [Batch(subs, [])])
      case Wrote(_, sub) => k.(batches := Extend(k.batches, sub))
      case Delivered(_, ctrl) => if ssl && ctrl == CtrlReSub then k.(owed := k.owed + 1) else k
      case _ => k
  }

  /** What the book says of a state. */
  ghost predicate Balanced(s: State, k: Book) {
    match s.pc
    case Allocate(_) => true
    case Dial(_) => k == Book([], 0) && !s.open
    case Upgrade(_) => k == Book([], 0) && !s.open
    case Init(_) => Complete(k.batches) && |k.batches| == k.owed
    case Sub(_, i) =>
      && i <= |s.subs|
      && |k.batches| == k.owed + 1
      && Complete(k.batches[..|k.batches| - 1])
      && k.batches[|k.batches| - 1] == Batch(s.subs, NonEmpty(s.subs[..i]))
    case _ =>
      && Complete(k.batches)
      && (|k.batches| == k.owed + 1 || (k == Book([], 0) && !s.open))
      && (s.pc.Deliver? ==> k.batches != [])
  }

  ghost predicate Inv(ssl: bool, s: State) {
    Balanced(s, BookOf(ssl, s.log))
  }

  lemma Append(ssl: bool, log: seq<Event>, xs: seq<Event>)
    requires |xs| <= 1
    ensures BookOf(ssl, log + xs) == Entry(ssl, BookOf(ssl, log), xs)
  {
    if xs == [] {
      assert log + xs == log;
    } else {
      assert (log + xs)[..|log|] == log;
    }
  }

  lemma AppendAll(ssl: bool, log: seq<Event>, made: seq<Event>, tail: seq<Event>)
    requires |made| <= 1 && (tail == [] || tail == [Stopped])
    ensures BookOf(ssl, log + made + tail) == Entry(ssl, BookOf(ssl, log), made)
  {
    Append(ssl, log, made);
    Append(ssl, log + made, tail);
  }

  lemma BookInStep(ssl: bool, s: State, c: Choice)
    ensures BookOf(ssl, Step(ssl, s, c).log) ==
            Entry(ssl, BookOf(ssl, s.log), Made(ssl, s, c))
  {
    MadeIsShort(ssl, s, c);
    AppendAll(ssl, s.log, Made(ssl, s, c), Tail(s.stop, Step(ssl, s, c).stop));
  }

  lemma SubStep(ssl: bool, s: State, c: Choice, k: Book)
    requires s.pc.Sub? && Balanced(s, k)
    ensures Balanced(Step(ssl, s, c), Entry(ssl, k, Made(ssl, s, c)))
  {
    var i, k' := s.pc.i, Entry(ssl, k, Made(ssl, s, c));
    var m := |k.batches| - 1;
    if i < |s.subs| {
      assert s.subs[..i + 1][..i] == s.subs[..i];
      assert NonEmpty(s.subs[..i]) + [] == NonEmpty(s.subs[..i]);
      assert k'.batches[..m] == k.batches[..m];
    } else {
      assert s.subs[..i] == s.subs;
    }
  }

  lemma InitStep(ssl: bool, s: State, c: Choice, k: Book)
    requires s.pc.Init? && Balanced(s, k)
    ensures Balanced(Step(ssl, s, c), Entry(ssl, k, Made(ssl, s, c)))
  {
    var k' := Entry(ssl, k, Made(ssl, s, c));
    assert c.subs[..0] == [];
    assert k'.batches[..|k.batches|] == k.batches;
  }

  predicate Reconnecting(pc: Pc) {
    pc.Enter? || pc.Shut? || pc.Rate? || pc.Delete? || pc.Allocate? || pc.Dial? || pc.Upgrade?
  }

  lemma ReconnectStep(ssl: bool, s: State, c: Choice, k: Book)
    requires Reconnecting(s.pc) && Balanced(s, k)
    ensures Balanced(Step(ssl, s, c), Entry(ssl, k, Made(ssl, s, c)))
  {
  }

  lemma DeliverStep(ssl: bool, s: State, c: Choice, k: Book)
    requires s.pc.Deliver? && Balanced(s, k)
    ensures Balanced(Step(ssl, s, c), Entry(ssl, k, Made(ssl, s, c)))
  {
  }

  lemma ReadStep(ssl: bool, s: State, c: Choice, k: Book)
    requires s.pc.Read? || s.pc.Discard? || s.pc.Hangup? || s.pc.Ping? || s.pc.Final? || s.pc.Done?
    requires Balanced(s, k)
    ensures Balanced(Step(ssl, s, c), Entry(ssl, k, Made(ssl, s, c)))
  {
  }

  lemma StepKeeps(ssl: bool, s: State, c: Choice)
    requires Inv(ssl, s)
    ensures Inv(ssl, Step(ssl, s, c))
  {
    var k := BookOf(ssl, s.log);
    BookInStep(ssl, s, c);
    if s.pc.Sub? {
      SubStep(ssl, s, c, k);
    } else if s.pc.Init? {
      InitStep(ssl, s, c, k);
    } else if Reconnecting(s.pc) {
      ReconnectStep(ssl, s, c, k);
    } else if s.pc.Deliver? {
      DeliverStep(ssl, s, c, k);
    } else {
      ReadStep(ssl, s, c, k);
    }
  }

  lemma BootKeeps(u: Setup)
    ensures Inv(u.ssl, Boot(u))
  {
    Append(u.ssl, [], [Allocated(0)]);
    assert [] + [Allocated(0)] == [Allocated(0)];
    Append(u.ssl, [Allocated(0)], Tail(false, u.stop));
  }

  lemma RunKeeps(u: Setup, env: Env, n: nat)
    ensures Inv(u.ssl, Run(u, env, n))
  {
    BootKeeps(u);
    forall s: State, c: Choice | Inv(u.ssl, s) ensures Inv(u.ssl, Step(u.ssl, s, c)) {
      StepKeeps(u.ssl, s, c);
    }
    RunInduction(u, env, n, s => Inv(u.ssl, s));
  }

  /** Subscribed before delivered: when an open stream is read, and when a message is handed to
      OnRead, the stream has had Init and then, in order, every subscription that is not empty;
      and it has had one such round, plus one for each CtrlReSub of a TLS session. */
  lemma SubscribedBeforeDelivered(u: Setup, env: Env, n: nat)
    requires var s := Run(u, env, n);
             (s.pc.Read? && s.open) || s.pc.Deliver?
    ensures var log := Run(u, env, n).log;
            && Batches(log) != []
            && Complete(Batches(log))
            && |Batches(log)| == 1 + if u.ssl then Resubs(log) else 0
  {
    RunKeeps(u, env, n);
  }
}
