/** The handshake ends: every step that changes a connection uses up a budget. */
module Progress {
  import opened Wire
  import opened Firewall
  import opened Machine
  import opened Invariant

  /** Addresses not yet handed to connect(). */
  function Untried(c: Conn): int {
    if c.info.sa.Some? then 1 else |Elements(c.info.ai)| - c.info.aiIndex
  }

  /**
   * Upper bound on the changes left before the handshake is over, when a lookup returns at most
   * n addresses. Its terms are bytes still readable, bytes still unsent and addresses untried.
   */
  function Budget(c: Conn, n: nat): int {
    match c.state
    case WaitingMethods => 48 + n + CAPACITY + 258 - |c.serverOut|
    case SendingMethod => 46 + n + CAPACITY + |c.clientOut|
    case WaitingCommand => 46 + n + CAPACITY - |c.serverOut|
    case AsyncDns => 46 + n
    case Connecting => 22 + Untried(c)
    case SendingReply =>
      if c.info.rep == REP_SUCCESS && c.info.cmd == CMD_BIND then 23 + |c.clientOut| else |c.clientOut|
    case BindListening => 23
    case SendingReply2 => |c.clientOut|
    case _ => 0
  }

  predicate Short(i: Input, n: nat) {
    i.Resolved? ==> |Elements(i.ai)| <= n
  }

  lemma BudgetNat(cfg: Configs, c: Conn, n: nat)
    requires Inv(cfg, c)
    ensures Budget(c, n) >= 0 && (Handshake(c.state) ==> Budget(c, n) > 0)
  {
  }

  lemma CommandSpends(cfg: Configs, c: Conn, env: Env, n: nat)
    requires Startable(cfg, c) && NewFdOk(c, env)
    requires c.info.sa.Some? || |Elements(c.info.ai)| <= n
    ensures Budget(RunCommand(cfg, c, Client, env), n) < 46 + n
  {
    RunCommandInv(cfg, c, env);
    var d := InitCommand(cfg, c, Client, env);
    var e := RunCommand(cfg, c, Client, env);
    if e.state == Connecting {
      ConnectingKeepsTarget(cfg, c, env);
    }
  }

  lemma ConnectingKeepsTarget(cfg: Configs, c: Conn, env: Env)
    requires Startable(cfg, c) && NewFdOk(c, env) && RunCommand(cfg, c, Client, env).state == Connecting
    ensures var e := RunCommand(cfg, c, Client, env);
      e.info.sa == c.info.sa && e.info.ai == c.info.ai && e.info.aiIndex == 0
  {
    var d := InitCommand(cfg, c, Client, env);
    if !CommandAllowed(cfg, c.info.cmd) {
      FailWithEffect(c, Client, REP_BADCOMM);
      FailWithEffect(d, Client, REP_BADCOMM);
    } else if c.info.cmd == CMD_CONN {
      if d.info.rep != UNSET { FailWithEffect(d, Client, REP_GENFAIL); }
    } else {
      OthersDoNotConnect(cfg, c, env);
    }
  }

  lemma OthersDoNotConnect(cfg: Configs, c: Conn, env: Env)
    requires Startable(cfg, c) && NewFdOk(c, env) && CommandAllowed(cfg, c.info.cmd) && c.info.cmd != CMD_CONN
    ensures RunCommand(cfg, c, Client, env).state == SendingReply
  {
    var d := InitCommand(cfg, c, Client, env);
    if c.info.cmd == CMD_BIND { InitBindInv(cfg, c, env); } else { InitUdpaInv(cfg, c, env); }
    if d.info.rep != REP_SUCCESS { ReplyWithErrEffect(d, Client); }
  }

  /** A failure frame alone costs ten bytes. */
  lemma FailureSpends(c: Conn, side: Side, rep: byte, n: nat)
    requires c.clientOut == [] && 1 <= rep <= 8
    ensures Budget(FailWith(c, side, rep), n) == 10
  {
    FailWithEffect(c, side, rep);
  }

  lemma ActSpends(cfg: Configs, c: Conn, d: Decision, env: Env, n: nat)
    requires Deciding(cfg, c) && NewFdOk(c, env) && !d.Pending? && (d.Lookup? ==> cfg.allowDomains)
    ensures Budget(Act(cfg, c, Client, d, env), n) <= 46 + n
  {
    match d
    case Literal(cmd, target) =>
      var c1 := c.(info := c.info.(cmd := cmd, atyp := Atyp(target.family), sa := Some(target)));
      if Drops(c1.info.cmd, c1.info.sa, c1.info.ai, cfg.blocks) {
        FailureSpends(c1, Client, REP_RULESET, n);
      } else {
        CommandSpends(cfg, c1, env, n);
      }
    case BadAddressType => FailureSpends(c, Client, REP_BADATYP, n);
    case _ =>
  }

  lemma CommandStepSpends(cfg: Configs, c: Conn, ev: Event, env: Env, n: nat)
    requires Inv(cfg, c) && c.state == WaitingCommand && EnvOk(c, env) && ev.input
    ensures Budget(Step(cfg, c, Client, ev, env), n) < Budget(c, n)
  {
    if env.recv.Some? {
      var c1 := c.(serverOut := c.serverOut + env.recv.value);
      var d := Parse(Take(c1.serverOut, LOCAL_BUFFER), cfg.allowDomains);
      if !d.Pending? {
        LookupNeedsDomains(Take(c1.serverOut, LOCAL_BUFFER), cfg.allowDomains);
        ActSpends(cfg, c1, d, env, n);
      }
    }
  }

  lemma SendStepSpends(cfg: Configs, c: Conn, ev: Event, env: Env, n: nat)
    requires Inv(cfg, c) && c.state in {SendingMethod, SendingReply, SendingReply2} && ev.output
    ensures var d := Step(cfg, c, Client, ev, env);
      Budget(d, n) < Budget(c, n) || (d == c && env.sent == Some(0))
  {
    if c.state == SendingMethod {
      SendMethodSpends(cfg, c, ev, env, n);
    } else {
      SendReplySpends(cfg, c, ev, env, n);
    }
  }

  lemma NothingSent(c: Conn, limit: nat)
    requires c.clientOut != [] && limit > 0
    ensures SendHandshake(c, limit, 0) == (c, false)
  {
    assert c.hist.toClient + [] == c.hist.toClient;
  }

  lemma SendMethodSpends(cfg: Configs, c: Conn, ev: Event, env: Env, n: nat)
    requires Inv(cfg, c) && c.state == SendingMethod && ev.output
    ensures var d := Step(cfg, c, Client, ev, env);
      Budget(d, n) < Budget(c, n) || (d == c && env.sent == Some(0))
  {
    if env.sent.Some? {
      SendMoves(c, 2, env.sent.value);
      NothingSent(c, 2);
    }
  }

  lemma SendReplySpends(cfg: Configs, c: Conn, ev: Event, env: Env, n: nat)
    requires Inv(cfg, c) && c.state in {SendingReply, SendingReply2} && ev.output
    ensures var d := Step(cfg, c, Client, ev, env);
      Budget(d, n) < Budget(c, n) || (d == c && env.sent == Some(0))
  {
    if env.sent.Some? {
      SendMoves(c, LOCAL_BUFFER, env.sent.value);
      if SendHandshake(c, LOCAL_BUFFER, env.sent.value).1 {
        assert Step(cfg, c, Client, ev, env) == ReplySent(Drained(c), Client);
        ReplySentSpends(cfg, c, n);
      } else {
        PartialReplySpends(cfg, c, env.sent.value, n);
      }
    }
  }

  lemma ReplySentSpends(cfg: Configs, c: Conn, n: nat)
    requires Inv(cfg, c) && c.state in {SendingReply, SendingReply2}
    ensures Budget(ReplySent(Drained(c), Client), n) < Budget(c, n)
  {
  }

  lemma PartialReplySpends(cfg: Configs, c: Conn, k: nat, n: nat)
    requires Inv(cfg, c) && c.state in {SendingReply, SendingReply2} && !SendHandshake(c, LOCAL_BUFFER, k).1
    ensures var d := SendHandshake(c, LOCAL_BUFFER, k).0; Budget(d, n) < Budget(c, n) || (d == c && k == 0)
  {
    NothingSent(c, LOCAL_BUFFER);
  }

  lemma ConnectStepSpends(cfg: Configs, c: Conn, ev: Event, env: Env, n: nat)
    requires Inv(cfg, c) && c.state == Connecting && EnvOk(c, env) && ev.output
    ensures Budget(Step(cfg, c, Server, ev, env), n) < Budget(c, n)
  {
    ConnectingEffect(c, ev, env);
    if env.soError.Some? { RepOfErrorFails(env.soError.value); }
  }

  lemma ListenStepSpends(cfg: Configs, c: Conn, ev: Event, env: Env, n: nat)
    requires Inv(cfg, c) && c.state == BindListening && EnvOk(c, env) && ev.input
    ensures Budget(Step(cfg, c, Server, ev, env), n) < Budget(c, n)
  {
    ListeningEffect(c, ev, env);
  }

  lemma FailedLookupSpends(cfg: Configs, c: Conn, gaiRet: int, env: Env, n: nat)
    requires Inv(cfg, c) && c.state == AsyncDns && AnswerOk(c.info.ai, gaiRet) && gaiRet != 0
    ensures Budget(ResolverReturned(cfg, c, gaiRet, env), n) < 46 + n
  {
    var c1 := c.(info := c.info.(resolverRet := gaiRet), state := WaitingCommand);
    ReplyWithErrInv(cfg, SetRep(c1, REP_GENFAIL), Client, 0);
    RunCommandAfterFailedLookup(cfg, FailWith(c1, Client, REP_GENFAIL), env);
    assert ResolverReturned(cfg, c, gaiRet, env) == RunCommand(cfg, FailWith(c1, Client, REP_GENFAIL), Client, env);
  }

  lemma DoneLookupSpends(cfg: Configs, c: Conn, env: Env, n: nat)
    requires Inv(cfg, c) && c.state == AsyncDns && NewFdOk(c, env) && |Elements(c.info.ai)| <= n
    ensures Budget(ResolverReturned(cfg, c, 0, env), n) < 46 + n
  {
    var c1 := c.(info := c.info.(resolverRet := 0), state := WaitingCommand);
    CommandSpends(cfg, c1, env, n);
    assert ResolverReturned(cfg, c, 0, env) == RunCommand(cfg, c1, Client, env);
  }

  lemma ResolvedSpends(cfg: Configs, c: Conn, ai: List<SockAddr>, gaiRet: int, env: Env, n: nat)
    requires Inv(cfg, c) && c.state == AsyncDns && AnswerOk(ai, gaiRet) && NewFdOk(c, env)
    requires |Elements(ai)| <= n
    ensures Budget(ResolverReturned(cfg, StoreAddresses(c, ai), gaiRet, env), n) < Budget(c, n)
  {
    StoreAddressesInv(cfg, c, ai);
    if gaiRet == 0 {
      DoneLookupSpends(cfg, StoreAddresses(c, ai), env, n);
    } else {
      FailedLookupSpends(cfg, StoreAddresses(c, ai), gaiRet, env, n);
    }
  }

  /** In the handshake a step either changes nothing or spends some of the budget. */
  lemma StepSpends(cfg: Configs, c: Conn, i: Input, n: nat)
    requires Inv(cfg, c) && Enabled(c, i) && Handshake(c.state) && Short(i, n)
    ensures var d := Apply(cfg, c, i); d == c || Budget(d, n) < Budget(c, n)
  {
    match i
    case Resolved(ai, gaiRet, env) => ResolvedSpends(cfg, c, ai, gaiRet, env, n);
    case Ready(side, ev, env) =>
      if Awaited(c.state, side, ev) {
        ReadySpends(cfg, c, side, ev, env, n);
      } else {
        OthersChangeNothing(cfg, c, side, ev, env);
      }
  }

  /** The readiness a handshake state reacts to. */
  predicate Awaited(s: State, side: Side, ev: Event) {
    match s
    case WaitingMethods => side.Client? && ev.input
    case SendingMethod => side.Client? && ev.output
    case WaitingCommand => side.Client? && ev.input
    case SendingReply => side.Client? && ev.output
    case SendingReply2 => side.Client? && ev.output
    case Connecting => side.Server? && ev.output
    case BindListening => side.Server? && ev.input
    case _ => false
  }

  lemma OthersChangeNothing(cfg: Configs, c: Conn, side: Side, ev: Event, env: Env)
    requires Handshake(c.state) && c.clientFd != c.serverFd && !Awaited(c.state, side, ev)
    ensures Step(cfg, c, side, ev, env) == c
  {
  }

  lemma ReadySpends(cfg: Configs, c: Conn, side: Side, ev: Event, env: Env, n: nat)
    requires Inv(cfg, c) && EnvOk(c, env) && Awaited(c.state, side, ev)
    ensures var d := Step(cfg, c, side, ev, env); Budget(d, n) < Budget(c, n) || (d == c && env.sent == Some(0))
  {
    if c.state in {SendingMethod, SendingReply, SendingReply2} {
      SendStepSpends(cfg, c, ev, env, n);
    } else {
      ProgressesUnlessSending(cfg, c, side, ev, env, n);
    }
  }

  lemma MethodStepSpends(cfg: Configs, c: Conn, ev: Event, env: Env, n: nat)
    requires Inv(cfg, c) && c.state == WaitingMethods && EnvOk(c, env) && ev.input
    ensures Budget(Step(cfg, c, Client, ev, env), n) < Budget(c, n)
  {
    KeepMethods(cfg, c, Client, ev, env);
  }

  /** The event a state waits for, with successful I/O. */
  predicate Expected(c: Conn, i: Input) {
    match i
    case Resolved(_, _, _) => c.state == AsyncDns
    case Ready(side, ev, env) =>
      && Awaited(c.state, side, ev)
      && match c.state
         case WaitingMethods => env.recv.Some?
         case WaitingCommand => env.recv.Some?
         case Connecting => env.soError.Some?
         case BindListening => env.newFd != -1
         case _ => env.sent.Some? && env.sent.value > 0
  }

  /** The expected event always makes progress. */
  lemma ExpectedSpends(cfg: Configs, c: Conn, i: Input, n: nat)
    requires Inv(cfg, c) && Enabled(c, i) && Expected(c, i) && Short(i, n)
    ensures Budget(Apply(cfg, c, i), n) < Budget(c, n)
  {
    match i
    case Resolved(ai, gaiRet, env) => ResolvedSpends(cfg, c, ai, gaiRet, env, n);
    case Ready(side, ev, env) =>
      if c.state in {SendingMethod, SendingReply, SendingReply2} {
        SendStepSpends(cfg, c, ev, env, n);
      } else {
        ProgressesUnlessSending(cfg, c, side, ev, env, n);
      }
  }

  lemma ProgressesUnlessSending(cfg: Configs, c: Conn, side: Side, ev: Event, env: Env, n: nat)
    requires Inv(cfg, c) && EnvOk(c, env) && Awaited(c.state, side, ev)
    requires c.state !in {SendingMethod, SendingReply, SendingReply2}
    ensures Budget(Step(cfg, c, side, ev, env), n) < Budget(c, n)
  {
    match c.state
    case WaitingMethods => MethodStepSpends(cfg, c, ev, env, n);
    case WaitingCommand => CommandStepSpends(cfg, c, ev, env, n);
    case Connecting => ConnectStepSpends(cfg, c, ev, env, n);
    case _ => ListenStepSpends(cfg, c, ev, env, n);
  }

  /** How many steps of a run change the connection while it is in its handshake. */
  function Changes(cfg: Configs, c: Conn, run: seq<Input>): nat
    decreases |run|
  {
    if run == [] then 0
    else
      var d := Apply(cfg, c, run[0]);
      (if Handshake(c.state) && d != c then 1 else 0) + Changes(cfg, d, run[1..])
  }

  lemma OverStaysOver(cfg: Configs, c: Conn, i: Input, n: nat)
    requires Inv(cfg, c) && Enabled(c, i) && !Handshake(c.state)
    ensures !Handshake(Apply(cfg, c, i).state)
  {
    ApplyInv(cfg, c, i);
  }

  lemma StepPays(cfg: Configs, c: Conn, i: Input, n: nat)
    requires Inv(cfg, c) && Enabled(c, i) && Short(i, n)
    ensures Inv(cfg, Apply(cfg, c, i))
    ensures var d := Apply(cfg, c, i);
      Budget(d, n) + (if Handshake(c.state) && d != c then 1 else 0) <= Budget(c, n)
  {
    ApplyInv(cfg, c, i);
    if Handshake(c.state) {
      StepSpends(cfg, c, i, n);
    } else {
      OverStaysOver(cfg, c, i, n);
      Zero(c, n);
      Zero(Apply(cfg, c, i), n);
    }
  }

  lemma Zero(c: Conn, n: nat)
    requires !Handshake(c.state)
    ensures Budget(c, n) == 0
  {
  }

  lemma {:induction false} ChangesBounded(cfg: Configs, c: Conn, run: seq<Input>, n: nat)
    requires Inv(cfg, c) && Possible(cfg, c, run) && forall i :: 0 <= i < |run| ==> Short(run[i], n)
    ensures Changes(cfg, c, run) <= Budget(c, n)
    decreases |run|
  {
    if run == [] {
      BudgetNat(cfg, c, n);
    } else {
      StepPays(cfg, c, run[0], n);
      ChangesBounded(cfg, Apply(cfg, c, run[0]), run[1..], n);
    }
  }

  /**
   * A handshake ends: whatever the client and the network do, at most 4402 + n steps of a run
   * change the connection before it relays or closes.
   */
  lemma HandshakeEnds(cfg: Configs, fd: int, run: seq<Input>, n: nat)
    requires fd >= 0 && Possible(cfg, Accepted(fd), run)
    requires forall i :: 0 <= i < |run| ==> Short(run[i], n)
    ensures Changes(cfg, Accepted(fd), run) <= 4402 + n
  {
    AcceptedInv(cfg, fd);
    ChangesBounded(cfg, Accepted(fd), run, n);
  }
}
