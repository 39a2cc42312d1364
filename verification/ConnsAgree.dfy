/** The plain and the TLS connection are two texts in the source. Here they are compared, as the two
    step functions of modules PlainConn and TlsConn, which share only what the source shares. */
module ConnsAgree {
  import opened Session
  import opened StreamEntries
  import PlainConn
  import TlsConn

  /** The step does not come to a TLS handshake that fails, nor to an answer of OnRead that only the
      TLS connection acts on. */
  predicate Harmless(s: State, c: Choice) {
    && (s.pc.Upgrade? ==> c.tls == Ok)
    && (s.pc.Deliver? ==> c.ctrl != CtrlReSub && c.ctrl != CtrlPing)
  }

  /** After `k` steps from the same choices, the two are in the same state. */
  predicate AgreeAt(subs: seq<string>, stop: bool, env: Env, k: nat) {
    TlsConn.RunOf(subs, stop, env, k) == PlainConn.RunOf(subs, stop, env, k)
  }

  predicate HarmlessAt(subs: seq<string>, stop: bool, env: Env, k: nat) {
    var s := PlainConn.RunOf(subs, stop, env, k);
    Harmless(s, env(s.pos))
  }

  /** They are in the same state after each of the first `n` steps. */
  predicate AgreeUpTo(subs: seq<string>, stop: bool, env: Env, n: nat) {
    (n > 0 ==> AgreeUpTo(subs, stop, env, n - 1)) && AgreeAt(subs, stop, env, n)
  }

  /** None of the first `n` steps of the plain connection is harmful. */
  predicate HarmlessUpTo(subs: seq<string>, stop: bool, env: Env, n: nat) {
    n > 0 ==> HarmlessUpTo(subs, stop, env, n - 1) && HarmlessAt(subs, stop, env, n - 1)
  }

  /** Pacing is written twice, tier by tier, with the same result. */
  lemma PacingAgrees(s: State, c: Choice)
    ensures TlsConn.AfterReConnectRate(s, c) == PlainConn.AfterReConnectRate(s, c)
  {
  }

  lemma HandShakesAgree(s: State, c: Choice)
    requires s.pc.Upgrade?
    ensures TlsConn.StepOf(s, c) == PlainConn.StepOf(s, c) <==> c.tls == Ok
  {
    if c.tls != Ok {
      assert TlsConn.StepOf(s, c).log[|s.log|].TlsFailed?;
      assert PlainConn.StepOf(s, c).log[|s.log|].Upgraded?;
    }
  }

  lemma AnswersAgree(s: State, c: Choice)
    requires s.pc.Deliver?
    ensures TlsConn.StepOf(s, c) == PlainConn.StepOf(s, c) <==>
            c.ctrl != CtrlReSub && c.ctrl != CtrlPing
  {
  }

  lemma OthersAgree(s: State, c: Choice)
    requires !s.pc.Upgrade? && !s.pc.Deliver? && !s.pc.Ping?
    ensures TlsConn.StepOf(s, c) == PlainConn.StepOf(s, c)
  {
    if s.pc.Rate? {
      PacingAgrees(s, c);
    }
  }

  lemma StepAgrees(s: State, c: Choice)
    requires !s.pc.Ping?
    ensures TlsConn.StepOf(s, c) == PlainConn.StepOf(s, c) <==> Harmless(s, c)
  {
    hide TlsConn.StepOf, PlainConn.StepOf;
    if s.pc.Upgrade? {
      HandShakesAgree(s, c);
    } else if s.pc.Deliver? {
      AnswersAgree(s, c);
    } else {
      OthersAgree(s, c);
    }
  }

  lemma NextAgrees(subs: seq<string>, stop: bool, env: Env, k: nat)
    requires AgreeAt(subs, stop, env, k)
    ensures AgreeAt(subs, stop, env, k + 1) <==> HarmlessAt(subs, stop, env, k)
  {
    hide TlsConn.StepOf, PlainConn.StepOf;
    PlainConn.RunIs(subs, stop, env, k);
    var s := PlainConn.RunOf(subs, stop, env, k);
    StepAgrees(s, env(s.pos));
  }

  /** From the same choices of the environment, the two connections go through the same states, with
      the same attempts, sleeps, subscriptions, deliveries and closes, exactly as long as every TLS
      handshake succeeds and OnRead answers neither CtrlReSub nor CtrlPing. */
  lemma {:induction false} PlainAndTlsAgree(subs: seq<string>, stop: bool, env: Env, n: nat)
    ensures AgreeUpTo(subs, stop, env, n) <==> HarmlessUpTo(subs, stop, env, n)
  {
    hide TlsConn.StepOf, PlainConn.StepOf;
    if n == 0 {
      assert AgreeAt(subs, stop, env, 0);
    } else {
      hide AgreeAt, HarmlessAt;
      PlainAndTlsAgree(subs, stop, env, n - 1);
      if AgreeAt(subs, stop, env, n - 1) {
        NextAgrees(subs, stop, env, n - 1);
      }
    }
  }

  /** The same of two objects that have gone equally far: they hold the same state. */
  lemma ObjectsAgree(t: TlsConn.Conn, p: PlainConn.Conn, subs: seq<string>, stop: bool)
    requires t.Valid() && p.Valid() && t.entry.env == p.entry.env
    requires t.entry.setup == Setup(true, subs, stop) && p.entry.setup == Setup(false, subs, stop)
    requires t.entry.steps == p.entry.steps
    requires HarmlessUpTo(subs, stop, p.entry.env, p.entry.steps)
    ensures t.entry.View() == p.entry.View()
  {
    hide Run, HarmlessUpTo;
    PlainAndTlsAgree(subs, stop, p.entry.env, p.entry.steps);
    TlsConn.RunIs(subs, stop, p.entry.env, p.entry.steps);
    PlainConn.RunIs(subs, stop, p.entry.env, p.entry.steps);
  }
}
