/** Starting connections, and the throttle over all that were started. */
module Fleet {
  import opened Words
  import opened BackOff
  import opened Session
  import opened SessionPacing
  import opened SessionRates

  // ----- Which results of the resolver are connected to (`Parasitifer::Connect`)

  /** A resolver result. */
  datatype Entry = Entry(address: string, v6: bool)

  /** The user's `deliver_` for the result at an index: a connection, or null. */
  datatype Delivery<Conn> = Delivered(conn: Conn) | Null

  type Deliver<Conn> = (nat, Entry) -> Delivery<Conn>

  /** The connections delivered for the IPv4 entries among the first `n` results, in order. */
  function Chosen<Conn>(results: seq<Entry>, deliver: Deliver<Conn>, n: nat): seq<Conn>
    requires n <= |results|
  {
    if n == 0 then []
    else
      var chosen := Chosen(results, deliver, n - 1);
      if results[n - 1].v6 then chosen
      else match deliver(n - 1, results[n - 1])
        case Delivered(conn) => chosen + [conn]
        case Null => chosen
  }

  /** How many results are looked at: all of them if the configured count is zero. */
  function Considered(results: seq<Entry>, connCount: uint32): nat {
    if connCount == 0 || |results| <= connCount then |results| else connCount
  }

  lemma {:induction false} ChosenIsShort<Conn>(results: seq<Entry>, deliver: Deliver<Conn>, n: nat)
    requires n <= |results|
    ensures |Chosen(results, deliver, n)| <= n
  {
    if n > 0 {
      ChosenIsShort(results, deliver, n - 1);
    }
  }

  lemma {:induction false} ChosenGrows<Conn>(results: seq<Entry>, deliver: Deliver<Conn>,
                                             m: nat, n: nat)
    requires m <= n <= |results|
    ensures Chosen(results, deliver, m) <= Chosen(results, deliver, n)
  {
    if m < n {
      ChosenGrows(results, deliver, m, n - 1);
    }
  }

  /** A result that is connected to, were there no limit: not IPv6, and the user delivers. */
  predicate Takes<Conn>(results: seq<Entry>, deliver: Deliver<Conn>, i: nat) {
    i < |results| && !results[i].v6 && deliver(i, results[i]).Delivered?
  }

  /** `conns` are the connections of the results with the indices `ix`, which are, in order, those
      below `bound` that are connected to. */
  ghost predicate PicksBelow<Conn>(results: seq<Entry>, deliver: Deliver<Conn>, bound: nat,
                                   ix: seq<nat>, conns: seq<Conn>) {
    && |conns| == |ix|
    && (forall k :: 0 < k < |ix| ==> ix[k - 1] < ix[k])
    && (forall i: nat :: i in ix <==> i < bound && Takes(results, deliver, i))
    && (forall k :: 0 <= k < |ix| ==> Takes(results, deliver, ix[k])
                                      && conns[k] == deliver(ix[k], results[ix[k]]).conn)
  }

  /** The same for all results, or for the first `connCount` of them if that is not zero. */
  ghost predicate Picks<Conn>(results: seq<Entry>, deliver: Deliver<Conn>, connCount: uint32,
                              ix: seq<nat>, conns: seq<Conn>) {
    if connCount == 0 then PicksBelow(results, deliver, |results|, ix, conns)
    else PicksBelow(results, deliver, connCount, ix, conns)
  }

  lemma PicksNext<Conn>(results: seq<Entry>, deliver: Deliver<Conn>, n: nat,
                        ix: seq<nat>, conns: seq<Conn>)
    requires n < |results| && PicksBelow(results, deliver, n, ix, conns)
    ensures Takes(results, deliver, n) ==>
              PicksBelow(results, deliver, n + 1, ix + [n],
                         conns + [deliver(n, results[n]).conn])
    ensures !Takes(results, deliver, n) ==> PicksBelow(results, deliver, n + 1, ix, conns)
  {
    hide Takes;
    forall i: nat ensures i in ix + [n] <==> i in ix || i == n {
    }
  }

  lemma ChosenNext<Conn>(results: seq<Entry>, deliver: Deliver<Conn>, n: nat)
    requires n < |results|
    ensures Chosen(results, deliver, n + 1) ==
            if Takes(results, deliver, n)
            then Chosen(results, deliver, n) + [deliver(n, results[n]).conn]
            else Chosen(results, deliver, n)
  {
  }

  lemma {:induction false} ChosenBelow<Conn>(results: seq<Entry>, deliver: Deliver<Conn>, n: nat)
      returns (ix: seq<nat>)
    requires n <= |results|
    ensures PicksBelow(results, deliver, n, ix, Chosen(results, deliver, n))
  {
    hide PicksBelow, Takes, Chosen;
    if n == 0 {
      ix := [];
      PicksNone(results, deliver);
    } else {
      ix := ChosenBelow(results, deliver, n - 1);
      ChosenNext(results, deliver, n - 1);
      PicksNext(results, deliver, n - 1, ix, Chosen(results, deliver, n - 1));
      if Takes(results, deliver, n - 1) {
        ix := ix + [n - 1];
      }
    }
  }

  lemma PicksNone<Conn>(results: seq<Entry>, deliver: Deliver<Conn>)
    ensures PicksBelow(results, deliver, 0, [], Chosen(results, deliver, 0))
  {
  }

  lemma ChosenPicks<Conn>(results: seq<Entry>, deliver: Deliver<Conn>, connCount: uint32)
      returns (ix: seq<nat>)
    ensures Picks(results, deliver, connCount, ix,
                  Chosen(results, deliver, Considered(results, connCount)))
  {
    ix := ChosenBelow(results, deliver, Considered(results, connCount));
  }

  class Parasitifer<Conn> {
    var conns: seq<Conn>
    const connCount: uint32

    constructor (connCount: uint32)
      ensures this.connCount == connCount && conns == []
    {
      this.connCount := connCount;
      conns := [];
    }

    /** The WebSocket version. The counter wraps only when it does not limit anything. */
    method ConnectWs(results: seq<Entry>, deliver: Deliver<Conn>) returns (ghost ix: seq<nat>)
      modifies this
      ensures conns ==
              old(conns) + Chosen(results, deliver, Considered(results, connCount))
      ensures Picks(results, deliver, connCount, ix, conns[|old(conns)|..])
    {
      hide Picks, Takes;
      ix := ChosenPicks(results, deliver, connCount);
      var i, counter := 0, 0;
      while i < |results|
        invariant 0 <= i <= |results| && (connCount != 0 ==> counter == i <= connCount)
        invariant conns == old(conns) + Chosen(results, deliver, i)
      {
        if 0 != connCount && counter == connCount {
          break;
        }
        if !results[i].v6 {
          var conn := deliver(i, results[i]);
          if conn.Delivered? {
            conns := conns + [conn.conn];
          }
        }
        i := i + 1;
        counter := if counter == U32 - 1 then 0 else counter + 1;
      }
    }

    /** The Kafka version stops at its first connection. */
    method ConnectKafka(results: seq<Entry>, deliver: Deliver<Conn>)
        returns (ghost ix: seq<nat>, ghost all: seq<Conn>)
      modifies this
      ensures Picks(results, deliver, connCount, ix, all)
      ensures conns == old(conns) + if all == [] then [] else all[..1]
    {
      hide Picks, Takes;
      ix := ChosenPicks(results, deliver, connCount);
      all := Chosen(results, deliver, Considered(results, connCount));
      var i, counter := 0, 0;
      while i < |results|
        invariant 0 <= i <= |results| && (connCount != 0 ==> counter == i <= connCount)
        invariant conns == old(conns) && Chosen(results, deliver, i) == []
      {
        if 0 != connCount && counter == connCount {
          break;
        }
        if !results[i].v6 {
          var conn := deliver(i, results[i]);
          if conn.Delivered? {
            conns := conns + [conn.conn];
            ChosenGrows(results, deliver, i + 1, Considered(results, connCount));
            return;
          }
        }
        i := i + 1;
        counter := if counter == U32 - 1 then 0 else counter + 1;
      }
    }
  }

  // ----- Sessions that run side by side

  /** A session that was started: how it was set up, and its environment. */
  datatype Started = Started(setup: Setup, env: Env)

  /** The states of all sessions after a schedule, which lists whose step came when. Steps for
      which there is no session do nothing. */
  function Interleave(fleet: seq<Started>, schedule: seq<nat>): (states: seq<State>)
    ensures |states| == |fleet|
  {
    if schedule == [] then seq(|fleet|, i requires 0 <= i < |fleet| => Boot(fleet[i].setup))
    else
      var before := Interleave(fleet, schedule[..|schedule| - 1]);
      var k := schedule[|schedule| - 1];
      if k >= |fleet| then before
      else before[k := Step(fleet[k].setup.ssl, before[k], fleet[k].env(before[k].pos))]
  }

  function Turns(schedule: seq<nat>, k: nat): nat {
    if schedule == [] then 0
    else
      Turns(schedule[..|schedule| - 1], k) + if schedule[|schedule| - 1] == k then 1 else 0
  }

  /** Each session has its own environment, so it is in the state that it would have reached
      alone. */
  lemma {:induction false} SessionsAreIndependent(fleet: seq<Started>, schedule: seq<nat>, k: nat)
    requires k < |fleet|
    ensures Interleave(fleet, schedule)[k] ==
            Run(fleet[k].setup, fleet[k].env, Turns(schedule, k))
  {
    hide Step;
    if schedule != [] {
      SessionsAreIndependent(fleet, schedule[..|schedule| - 1], k);
    }
  }

  // ----- The rate of all attempts, in any window

  /** Connection attempts of the first `n` sessions that begin within the window. */
  function AttemptsIn(states: seq<State>, n: nat, from: nat, window: nat): nat
    requires n <= |states|
  {
    if n == 0 then 0
    else
      AttemptsIn(states, n - 1, from, window) + Count(Paces(states[n - 1].log), from, window)
  }

  ghost predicate AllSteady(states: seq<State>) {
    forall k :: 0 <= k < |states| ==> SteadyClock(Paces(states[k].log))
  }

  lemma {:induction false} RateOfFirst(fleet: seq<Started>, schedule: seq<nat>, n: nat,
                                       from: nat, window: nat)
    requires n <= |fleet| && AllSteady(Interleave(fleet, schedule))
    ensures 2530 * AttemptsIn(Interleave(fleet, schedule), n, from, window) <=
            n * (window + 25060)
  {
    hide Run, Step, Interleave, SteadyClock, Paces, Count;
    if n > 0 {
      RateOfFirst(fleet, schedule, n - 1, from, window);
      SessionsAreIndependent(fleet, schedule, n - 1);
      SessionRate(fleet[n - 1].setup, fleet[n - 1].env, Turns(schedule, n - 1), from, window);
      assert n * (window + 25060) == (n - 1) * (window + 25060) + (window + 25060);
    }
  }

  /** Rate limit of the fleet: whatever the resolver and the user deliver, and however the sessions
      interleave, the attempts that begin within any window of T milliseconds number at most
      |conns| (T + 25060) / 2530, and the configured count, when there is one, bounds |conns|. */
  lemma FleetRate(results: seq<Entry>, connCount: uint32, deliver: Deliver<Started>,
                  schedule: seq<nat>, from: nat, window: nat)
    requires var fleet := Chosen(results, deliver, Considered(results, connCount));
             AllSteady(Interleave(fleet, schedule))
    ensures var fleet := Chosen(results, deliver, Considered(results, connCount));
            && 2530 * AttemptsIn(Interleave(fleet, schedule), |fleet|, from, window) <=
               |fleet| * (window + 25060)
            && (connCount != 0 ==> |fleet| <= connCount)
  {
    var n := Considered(results, connCount);
    ChosenIsShort(results, deliver, n);
    var fleet := Chosen(results, deliver, n);
    RateOfFirst(fleet, schedule, |fleet|, from, window);
  }

  // ----- The tighter bound from the start of the sessions

  /** Connection attempts of the first `n` sessions. */
  function Attempts(states: seq<State>, n: nat): nat
    requires n <= |states|
  {
    if n == 0 then 0 else Attempts(states, n - 1) + |Paces(states[n - 1].log)|
  }

  /** All clock readings of a history lie within `window` milliseconds. */
  ghost predicate Within(h: seq<Pace>, from: nat, window: nat) {
    forall i :: 0 <= i < |h| ==> from <= h[i].now && h[i].later <= from + window
  }

  /** Every session has a steady clock and has made its attempts within the window. */
  ghost predicate AllWithin(states: seq<State>, from: nat, window: nat) {
    forall k :: 0 <= k < |states| ==>
      SteadyClock(Paces(states[k].log)) && Within(Paces(states[k].log), from, window)
  }

  lemma WindowBound(u: Setup, env: Env, n: nat, from: nat, window: nat)
    requires var h := Paces(Run(u, env, n).log);
             SteadyClock(h) && Within(h, from, window)
    ensures 2530 * |Paces(Run(u, env, n).log)| <= window + 20000
  {
    hide Run, Step;
    SessionThrottle(u, env, n);
  }

  lemma {:induction false} AttemptsBound(fleet: seq<Started>, schedule: seq<nat>, n: nat,
                                         from: nat, window: nat)
    requires n <= |fleet|
    requires AllWithin(Interleave(fleet, schedule), from, window)
    ensures 2530 * Attempts(Interleave(fleet, schedule), n) <= n * (window + 20000)
  {
    hide Run, Step, Interleave, SteadyClock, Within, Paces;
    if n > 0 {
      AttemptsBound(fleet, schedule, n - 1, from, window);
      SessionsAreIndependent(fleet, schedule, n - 1);
      WindowBound(fleet[n - 1].setup, fleet[n - 1].env, Turns(schedule, n - 1), from, window);
      assert n * (window + 20000) == (n - 1) * (window + 20000) + (window + 20000);
    }
  }

  /** Fleet bound: if no session has made an attempt outside a window of T milliseconds, then all
      attempts that were made number at most |conns| (T + 20000) / 2530. */
  lemma FleetBound(results: seq<Entry>, connCount: uint32, deliver: Deliver<Started>,
                   schedule: seq<nat>, from: nat, window: nat)
    requires var fleet := Chosen(results, deliver, Considered(results, connCount));
             AllWithin(Interleave(fleet, schedule), from, window)
    ensures var fleet := Chosen(results, deliver, Considered(results, connCount));
            && 2530 * Attempts(Interleave(fleet, schedule), |fleet|) <= |fleet| * (window + 20000)
            && (connCount != 0 ==> |fleet| <= connCount)
  {
    var n := Considered(results, connCount);
    ChosenIsShort(results, deliver, n);
    var fleet := Chosen(results, deliver, n);
    AttemptsBound(fleet, schedule, |fleet|, from, window);
  }
}
