/** How many reply frames a request is answered with. */
module Replies {
  import opened Wire
  import opened Firewall
  import opened Machine
  import opened Invariant
  import opened Guarantees

  /** The connection is about to tell the client that the request failed. */
  predicate Refusing(c: Conn) {
    c.state == SendingReply && c.info.rep != REP_SUCCESS
  }

  /** `one` or `two` frames, as the command is enabled or not. */
  function PerCommand(cfg: Configs, cmd: byte, enabled: nat, disabled: nat): nat {
    if cmd == CMD_CONN && cfg.allowConnect then enabled
    else if cmd == CMD_BIND && cfg.allowBind then enabled
    else if cmd == CMD_UDPA && cfg.allowUdpAssoc then enabled
    else disabled
  }

  /** What InitCommand leaves of an enabled command. */
  lemma EnabledIsQuiet(cfg: Configs, c: Conn, env: Env)
    requires c.info.rep == UNSET && CommandAllowed(cfg, c.info.cmd)
    ensures QuietUnlessSuccess(c, InitCommand(cfg, c, Client, env))
  {
    if c.info.cmd == CMD_CONN { ConnectIsQuiet(c, env); }
    else if c.info.cmd == CMD_BIND { BindIsQuiet(cfg, c, env); }
    else { UdpaIsQuiet(cfg, c, env); }
  }

  /** A command that is not enabled is refused twice, with the same frame. */
  lemma DisabledRefusedTwice(cfg: Configs, c: Conn, env: Env)
    requires |c.clientOut| <= 10 && !CommandAllowed(cfg, c.info.cmd)
    ensures RunCommand(cfg, c, Client, env) == Failed(Failed(c, REP_BADCOMM), REP_BADCOMM)
  {
    FailWithEffect(c, Client, REP_BADCOMM);
    var d := Failed(c, REP_BADCOMM);
    assert d.(info := d.info.(rep := REP_BADCOMM)) == d;
    FailWithEffect(d, Client, REP_BADCOMM);
  }

  /**
   * A request that fails when its command is started is answered with one frame if and only if
   * the command is enabled, otherwise with two.
   */
  lemma CommandFrames(cfg: Configs, c: Conn, env: Env)
    requires Startable(cfg, c) && NewFdOk(c, env)
    ensures var d := RunCommand(cfg, c, Client, env);
      && (Refusing(d) ==> |d.hist.replies| == PerCommand(cfg, c.info.cmd, 1, 2))
      && (!CommandAllowed(cfg, c.info.cmd) ==> Refusing(d))
  {
    if CommandAllowed(cfg, c.info.cmd) {
      EnabledIsQuiet(cfg, c, env);
      var d := InitCommand(cfg, c, Client, env);
      if d.info.rep != UNSET && d.info.rep != REP_SUCCESS { FailWithEffect(d, Client, d.info.rep); }
    } else {
      DisabledRefusedTwice(cfg, c, env);
    }
  }

  /** After a failed lookup it is two frames if and only if the command is enabled, otherwise three. */
  lemma LookupFailedFrames(cfg: Configs, c: Conn, gaiRet: int, env: Env)
    requires Inv(cfg, c) && c.state == AsyncDns && gaiRet != 0 && AnswerOk(c.info.ai, gaiRet) && NewFdOk(c, env)
    ensures var d := ResolverReturned(cfg, c, gaiRet, env);
      Refusing(d) && |d.hist.replies| == PerCommand(cfg, c.info.cmd, 2, 3)
  {
    var c1 := c.(info := c.info.(resolverRet := gaiRet), state := WaitingCommand);
    var c2 := Failed(c1, REP_GENFAIL);
    FailWithEffect(c1, Client, REP_GENFAIL);
    assert ResolverReturned(cfg, c, gaiRet, env) == RunCommand(cfg, c2, Client, env);
    if CommandAllowed(cfg, c.info.cmd) {
      NoDestination(cfg, c2, Client, env);
      FailWithEffect(SetRep(c2, REP_GENFAIL), Client, REP_GENFAIL);
    } else {
      DisabledRefusedTwice(cfg, c2, env);
    }
  }

  /** The frames of a failing decision; nothing else is answered more than once. */
  function FramesOf(cfg: Configs, d: Decision): nat {
    match d
    case Literal(cmd, target) =>
      if Drops(cmd, Some(target), Nil, cfg.blocks) then 1 else PerCommand(cfg, cmd, 1, 2)
    case _ => 1
  }

  lemma DecisionFrames(cfg: Configs, c: Conn, d: Decision, env: Env)
    requires Deciding(cfg, c) && NewFdOk(c, env)
    ensures var e := Act(cfg, c, Client, d, env); Refusing(e) ==> |e.hist.replies| == FramesOf(cfg, d)
  {
    match d
    case BadAddressType => FailWithEffect(c, Client, REP_BADATYP);
    case Literal(cmd, target) =>
      var c1 := c.(info := c.info.(cmd := cmd, atyp := Atyp(target.family), sa := Some(target)));
      if Drops(cmd, Some(target), Nil, cfg.blocks) {
        FailWithEffect(c1, Client, REP_RULESET);
      } else {
        CommandFrames(cfg, c1, env);
      }
    case _ =>
  }

  /** A failure after that adds exactly one frame. */
  lemma LateFrames(cfg: Configs, c: Conn, ev: Event, env: Env)
    requires Inv(cfg, c) && c.state in {Connecting, BindListening} && NewFdOk(c, env)
    ensures var d := Step(cfg, c, Server, ev, env);
      Refusing(d) ==> |d.hist.replies| == |c.hist.replies| + 1 == (if c.state == Connecting then 1 else 2)
  {
    if c.state == Connecting && ev.output { ConnectingEffect(c, ev, env); }
    if c.state == BindListening && ev.input { ListeningEffect(c, ev, env); }
  }

  /** Command byte 9 is answered with the same failure frame twice. */
  lemma UnknownCommandExample(cfg: Configs, c: Conn, target: SockAddr, env: Env)
    requires Deciding(cfg, c) && NewFdOk(c, env) && cfg.blocks == Nil
    ensures Act(cfg, c, Client, Literal(9, target), env).hist.replies
      == [FailureReply(REP_BADCOMM), FailureReply(REP_BADCOMM)]
  {
    var c1 := c.(info := c.info.(cmd := 9, atyp := Atyp(target.family), sa := Some(target)));
    DisabledRefusedTwice(cfg, c1, env);
  }
}
