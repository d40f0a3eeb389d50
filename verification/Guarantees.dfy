/** What every run of a connection guarantees, from the accept on. */
module Guarantees {
  import opened Wire
  import opened Firewall
  import opened Machine
  import opened Invariant

  // ---- What the client is sent

  /**
   * Before relaying, the client received a prefix of the method reply followed by whole reply
   * frames: at most two successes, then only failures with codes 1 to 8. A connection that is
   * past its handshake without a failed send has delivered all of it.
   */
  ghost predicate WellSpoken(c: Conn) {
    var h := c.hist;
    && h.toClient <= h.greeting + EncodeAll(h.replies)
    && (h.greeting == [] ==> h.replies == [])
    && (h.greeting != [] ==> |h.greeting| == 2 && h.greeting[0] == VERSION)
    && (Shape(h.replies, 0) || Shape(h.replies, 1) || Shape(h.replies, 2))
    && (c.state in {Closed, Full, FullUdpa, HalfClose} && !h.sendFailed ==>
          h.toClient == h.greeting + EncodeAll(h.replies))
  }

  lemma SpeaksWell(cfg: Configs, c: Conn)
    requires Inv(cfg, c)
    ensures WellSpoken(c)
  {
    SentSoFar(cfg, c);
    FramesShape(cfg, c);
  }

  /** So it is in every run. */
  lemma Transcript(cfg: Configs, fd: int, run: seq<Input>)
    requires fd >= 0 && Possible(cfg, Accepted(fd), run)
    ensures WellSpoken(Run(cfg, Accepted(fd), run))
  {
    AcceptedInv(cfg, fd);
    RunInv(cfg, Accepted(fd), run);
    SpeaksWell(cfg, Run(cfg, Accepted(fd), run));
  }

  lemma SentSoFar(cfg: Configs, c: Conn)
    requires Inv(cfg, c)
    ensures var h := c.hist;
      && h.toClient <= Script(h)
      && (h.greeting == [] ==> h.replies == [])
      && (h.greeting != [] ==> |h.greeting| == 2 && h.greeting[0] == VERSION)
      && (!Handshake(c.state) && !h.sendFailed ==> h.toClient == Script(h))
  {
    if Handshake(c.state) {
      assert c.hist.toClient <= c.hist.toClient + c.clientOut;
    }
  }

  lemma FramesShape(cfg: Configs, c: Conn)
    requires Inv(cfg, c)
    ensures Shape(c.hist.replies, 0) || Shape(c.hist.replies, 1) || Shape(c.hist.replies, 2)
  {
    if c.state in {Full, HalfClose} && c.info.cmd == CMD_CONN {
      assert Shape(c.hist.replies, 1);
    }
  }

  /** A client that reads to the end decodes exactly the frames that were queued. */
  lemma ClientDecodes(cfg: Configs, fd: int, run: seq<Input>)
    requires fd >= 0 && Possible(cfg, Accepted(fd), run)
    ensures var c := Run(cfg, Accepted(fd), run);
      c.state in {Closed, Full, FullUdpa, HalfClose} && !c.hist.sendFailed && c.hist.greeting != [] ==>
        |c.hist.toClient| >= 2 && DecodeAll(c.hist.toClient[2..]) == Some(c.hist.replies)
  {
    Transcript(cfg, fd, run);
    var h := Run(cfg, Accepted(fd), run).hist;
    DecodeAllEncodeAll(h.replies);
    if |h.greeting| == 2 {
      assert (h.greeting + EncodeAll(h.replies))[2..] == EncodeAll(h.replies);
    }
  }

  // ---- What relaying presupposes

  /**
   * A relayed connection was authenticated and authorised: method 0 offered and configured, an
   * enabled command, one destination, two descriptors; one success frame for CONNECT, two for
   * BIND, whose peer is the host the client named.
   */
  ghost predicate Authorised(cfg: Configs, c: Conn) {
    && METH_NOAUTH in c.hist.offered && cfg.methods[METH_NOAUTH]
    && c.info.rep == REP_SUCCESS && (c.info.sa.Some? <==> c.info.ai.Nil?)
    && c.clientFd != c.serverFd && c.clientLive && c.serverLive
    && c.hist.bound.Some?
    && (if c.info.cmd == CMD_CONN then
          && cfg.allowConnect
          && c.hist.replies == [Reply(REP_SUCCESS, c.hist.bound.value)]
        else
          && c.info.cmd == CMD_BIND && cfg.allowBind
          && c.hist.peer.Some? && c.hist.peer == Requested(c.info)
          && |c.hist.replies| == 2
          && IsSuccess(c.hist.replies[0]) && Advertises(cfg, c.hist.replies[0].addr)
          && c.hist.replies[0].addr.port == c.hist.bound.value.port
          && c.hist.replies[1] == Reply(REP_SUCCESS, c.hist.peer.value))
  }

  lemma RelayingIsAuthorised(cfg: Configs, c: Conn)
    requires Inv(cfg, c) && c.state == Full
    ensures Authorised(cfg, c)
  {
  }

  lemma RelayAuthorised(cfg: Configs, fd: int, run: seq<Input>)
    requires fd >= 0 && Possible(cfg, Accepted(fd), run)
    ensures var c := Run(cfg, Accepted(fd), run); c.state == Full ==> Authorised(cfg, c)
  {
    AcceptedInv(cfg, fd);
    RunInv(cfg, Accepted(fd), run);
    var c := Run(cfg, Accepted(fd), run);
    if c.state == Full { RelayingIsAuthorised(cfg, c); }
  }

  /** Relaying starts with both rings empty and both descriptors watched for input only. */
  lemma RelayStartsEmpty(cfg: Configs, c: Conn, i: Input)
    requires Inv(cfg, c) && Enabled(c, i) && c.state != Full && Apply(cfg, c, i).state == Full
    ensures var d := Apply(cfg, c, i);
      && d.clientOut == [] && d.serverOut == []
      && d.clientMask == IN_ONLY && d.serverMask == IN_ONLY
      && d.hist.up == NEW_LANE && d.hist.down == NEW_LANE
  {
    ApplyInv(cfg, c, i);
    match i
    case Ready(side, ev, env) =>
      if env.sent.Some? { SendMoves(c, LOCAL_BUFFER, env.sent.value); }
  }

  // ---- The firewall over runs

  /** A command was started and has not failed. */
  predicate Serves(c: Conn) {
    || c.state in {Connecting, BindListening, SendingReply2, Full, FullUdpa, HalfClose}
    || (c.state == SendingReply && c.info.rep == REP_SUCCESS)
  }

  /**
   * A connection that serves a literal address does not serve one that a configured rule names,
   * except for the all-zero address of UDP ASSOCIATE.
   */
  ghost predicate Screened(rules: seq<Rule>, c: Conn) {
    Serves(c) && c.info.sa.Some? && !UdpaUnspec(c.info.cmd, c.info.sa) ==>
      && (forall i :: 0 <= i < |rules| ==> !Names(rules[i], c.info.sa.value))
      && (c.state == Connecting ==> c.hist.tried == [c.info.sa.value])
  }

  lemma ServesOnlyScreened(cfg: Configs, rules: seq<Rule>, c: Conn)
    requires Inv(cfg, c) && LinkedFrom(cfg.blocks, rules)
    ensures Screened(rules, c)
  {
    if Serves(c) && c.info.sa.Some? {
      TargetCleared(cfg, c);
      CoveredIffNamed(cfg.blocks, rules, c.info.sa.value);
    }
  }

  /** No run connects to, or listens for, a literal address that a configured rule names. */
  lemma FirewallSafety(cfg: Configs, rules: seq<Rule>, fd: int, run: seq<Input>)
    requires fd >= 0 && Possible(cfg, Accepted(fd), run) && LinkedFrom(cfg.blocks, rules)
    ensures Screened(rules, Run(cfg, Accepted(fd), run))
  {
    AcceptedInv(cfg, fd);
    RunInv(cfg, Accepted(fd), run);
    ServesOnlyScreened(cfg, rules, Run(cfg, Accepted(fd), run));
  }

  lemma TargetCleared(cfg: Configs, c: Conn)
    requires Inv(cfg, c) && Serves(c) && c.info.sa.Some?
    ensures !Drops(c.info.cmd, c.info.sa, Nil, cfg.blocks)
    ensures c.state == Connecting ==> c.hist.tried == [c.info.sa.value]
  {
  }

  /** A literal request is answered with reply 2 exactly when the verdict over the blocks is to drop it. */
  lemma DropsRefuses(cfg: Configs, c: Conn, cmd: byte, target: SockAddr, env: Env)
    requires Deciding(cfg, c) && NewFdOk(c, env)
    ensures var d := Act(cfg, c, Client, Literal(cmd, target), env);
      Drops(cmd, Some(target), Nil, cfg.blocks) <==> d.hist.replies == [FailureReply(REP_RULESET)]
    ensures var d := Act(cfg, c, Client, Literal(cmd, target), env);
      Drops(cmd, Some(target), Nil, cfg.blocks) ==> !d.serverLive && d.hist.tried == []
  {
    var c1 := c.(info := c.info.(cmd := cmd, atyp := Atyp(target.family), sa := Some(target)));
    if Drops(cmd, Some(target), Nil, cfg.blocks) {
      ReplyWithErrEffect(SetRep(c1, REP_RULESET), Client);
      assert [] + [FailureReply(REP_RULESET)] == [FailureReply(REP_RULESET)];
    } else {
      CommandNeverSaysRuleset(cfg, c1, env);
      assert [FailureReply(REP_RULESET)][0].rep == REP_RULESET;
    }
  }

  /**
   * A literal request is answered with one frame of code 2, and contacts nobody, if and only if the
   * rules say so; an enabled CONNECT that no rule names is contacted whenever there is a socket.
   */
  lemma FirewallRefuses(cfg: Configs, rules: seq<Rule>, c: Conn, cmd: byte, target: SockAddr, env: Env)
    requires Deciding(cfg, c) && NewFdOk(c, env) && LinkedFrom(cfg.blocks, rules)
    ensures var d := Act(cfg, c, Client, Literal(cmd, target), env);
      && (RuledOut(rules, cmd, Some(target), Nil) <==> d.hist.replies == [Reply(2, ANY_ADDR)])
      && (RuledOut(rules, cmd, Some(target), Nil) ==> !d.serverLive && d.hist.tried == [])
      && (!RuledOut(rules, cmd, Some(target), Nil) && cmd == 1 && cfg.allowConnect && env.newFd != -1 ==>
            d.hist.tried == [target] && (d.state == Connecting <==> env.connected))
  {
    DropsIffRuledOut(cmd, Some(target), Nil, cfg.blocks, rules);
    DropsRefuses(cfg, c, cmd, target, env);
    if !Drops(cmd, Some(target), Nil, cfg.blocks) && cmd == 1 && cfg.allowConnect && env.newFd != -1 {
      var c1 := c.(info := c.info.(cmd := cmd, atyp := Atyp(target.family), sa := Some(target)));
      var d := InitConnect(c1, env);
      if d.info.rep != UNSET { FailWithEffect(d, Client, REP_GENFAIL); }
    }
  }

  /** Between c and d nothing was queued unless the command succeeded. */
  ghost predicate QuietUnlessSuccess(c: Conn, d: Conn) {
    if d.info.rep == REP_SUCCESS then
      exists r :: IsSuccess(r) && d.hist.replies == c.hist.replies + [r]
    else
      d.info.rep in {UNSET, REP_GENFAIL, REP_BADATYP}
      && d.hist.replies == c.hist.replies && d.clientOut == c.clientOut
  }

  lemma ConnectIsQuiet(c: Conn, env: Env)
    requires c.info.rep == UNSET
    ensures QuietUnlessSuccess(c, InitConnect(c, env))
  {
  }

  lemma OpenSocketSucceeds(c: Conn, r: Reply)
    requires IsSuccess(r)
    ensures QuietUnlessSuccess(c, OpenSocket(c, r))
  {
    assert OpenSocket(c, r).hist.replies == c.hist.replies + [r];
  }

  lemma BindIsQuiet(cfg: Configs, c: Conn, env: Env)
    requires c.info.rep == UNSET
    ensures QuietUnlessSuccess(c, InitBind(cfg, c, env))
  {
    match BindOpening(cfg, c.info, env)
    case Announce(r) =>
      OpenSocketSucceeds(c.(serverLive := true, serverFd := env.newFd, hist := c.hist.(bound := env.sockname)), r);
    case _ =>
  }

  lemma UdpaIsQuiet(cfg: Configs, c: Conn, env: Env)
    requires c.info.rep == UNSET
    ensures QuietUnlessSuccess(c, InitUdpa(cfg, c, env))
  {
    match UdpaOpening(cfg, c.info, env)
    case Announce(r) => OpenSocketSucceeds(c.(serverLive := true, serverFd := env.newFd), r);
    case _ =>
  }

  lemma CommandNeverSaysRuleset(cfg: Configs, c: Conn, env: Env)
    requires c.clientOut == [] && c.hist.replies == [] && c.info.rep == UNSET
    ensures var d := RunCommand(cfg, c, Client, env);
      forall i :: 0 <= i < |d.hist.replies| ==> d.hist.replies[i].rep != REP_RULESET
  {
    var d := InitCommand(cfg, c, Client, env);
    if CommandAllowed(cfg, c.info.cmd) {
      if c.info.cmd == CMD_CONN { ConnectIsQuiet(c, env); }
      else if c.info.cmd == CMD_BIND { BindIsQuiet(cfg, c, env); }
      else { UdpaIsQuiet(cfg, c, env); }
      if d.info.rep != REP_SUCCESS && d.info.rep != UNSET { ReplyWithErrEffect(d, Client); }
    } else {
      ReplyWithErrEffect(SetRep(c, REP_BADCOMM), Client);
      ReplyWithErrEffect(d, Client);
    }
  }

  lemma BlocksDoNotMatter(cfg: Configs, blocks: List<Block>, c: Conn, env: Env)
    ensures RunCommand(cfg.(blocks := blocks), c, Client, env) == RunCommand(cfg, c, Client, env)
  {
    var cfg' := cfg.(blocks := blocks);
    assert BindOpening(cfg', c.info, env) == BindOpening(cfg, c.info, env);
    assert UdpaOpening(cfg', c.info, env) == UdpaOpening(cfg, c.info, env);
    assert InitCommand(cfg', c, Client, env) == InitCommand(cfg, c, Client, env);
  }

  /** Resolved names are not filtered: the block list has no influence on them. */
  lemma FirewallSkipsNames(cfg: Configs, blocks: List<Block>, c: Conn, gaiRet: int, env: Env)
    requires Inv(cfg, c) && c.state == AsyncDns && gaiRet != -1
    ensures ResolverReturned(cfg, c, gaiRet, env) == ResolverReturned(cfg.(blocks := blocks), c, gaiRet, env)
  {
    var c1 := c.(info := c.info.(resolverRet := gaiRet), state := WaitingCommand);
    var c2 := if gaiRet != 0 then FailWith(c1, Client, REP_GENFAIL) else c1;
    BlocksDoNotMatter(cfg, blocks, c2, env);
  }

  /**
   * When a name resolves to an address that the block list covers, connect() is called with that
   * address if and only if there is a socket, and the connection is under way if and only if
   * connect() does not fail at once.
   */
  lemma BlockedNameIsContacted(cfg: Configs, c: Conn, a: SockAddr, rest: List<SockAddr>, env: Env)
    requires Inv(cfg, c) && c.state == AsyncDns && c.info.cmd == CMD_CONN && cfg.allowConnect
    requires c.info.ai == Cons(a, rest) && Covered(a, cfg.blocks) && NewFdOk(c, env)
    ensures var d := ResolverReturned(cfg, c, 0, env);
      && (d.hist.tried == [a] <==> env.newFd != -1)
      && (d.state == Connecting <==> env.newFd != -1 && env.connected)
  {
    var c1 := c.(info := c.info.(resolverRet := 0), state := WaitingCommand);
    var d := InitConnect(c1, env);
    assert ResolverReturned(cfg, c, 0, env) == RunCommand(cfg, c1, Client, env);
    if d.info.rep != UNSET { FailWithEffect(d, Client, REP_GENFAIL); }
  }

  /**
   * An address that the block list covers is contacted as the first one of a CONNECT if and only if
   * the client gave it by name: with the same list, socket and connect(), the literal request is
   * answered with code 2 and contacts nobody.
   */
  lemma BlockedIsContactedIffNamed(cfg: Configs, c: Conn, a: SockAddr, rest: List<SockAddr>, byName: bool, env: Env)
    requires cfg.allowConnect && Covered(a, cfg.blocks) && NewFdOk(c, env) && env.newFd != -1
    requires if byName then Inv(cfg, c) && c.state == AsyncDns && c.info.cmd == CMD_CONN && c.info.ai == Cons(a, rest)
             else Deciding(cfg, c)
    ensures var d := if byName then ResolverReturned(cfg, c, 0, env) else Act(cfg, c, Client, Literal(CMD_CONN, a), env);
      && (d.hist.tried == [a] <==> byName)
      && (!byName ==> d.hist.tried == [] && d.hist.replies == [FailureReply(REP_RULESET)])
  {
    if byName {
      BlockedNameIsContacted(cfg, c, a, rest, env);
    } else {
      DropsRefuses(cfg, c, CMD_CONN, a, env);
    }
  }

  /** 10.0.0.1 is inside the block rule 10.0.0.0/8, and a name that resolves to it is connected to. */
  lemma PrivateNetworkExample(cfg: Configs, c: Conn, env: Env)
    requires LinkedFrom(cfg.blocks, [Rule(SockAddr(Inet, [10, 0, 0, 0], [0, 0]), 8, 0)]) && cfg.allowConnect
    requires Inv(cfg, c) && c.state == AsyncDns && c.info.cmd == CMD_CONN
    requires c.info.ai == Cons(SockAddr(Inet, [10, 0, 0, 1], [0, 80]), Nil)
    requires NewFdOk(c, env) && env.newFd != -1 && env.connected
    ensures var a := SockAddr(Inet, [10, 0, 0, 1], [0, 80]); var d := ResolverReturned(cfg, c, 0, env);
      Covered(a, cfg.blocks) && d.state == Connecting && d.hist.tried == [a]
  {
    var a: SockAddr := SockAddr(Inet, [10, 0, 0, 1], [0, 80]);
    var rules := [Rule(SockAddr(Inet, [10, 0, 0, 0], [0, 0]), 8, 0)];
    assert Names(rules[0], a);
    CoveredIffNamed(cfg.blocks, rules, a);
    BlockedNameIsContacted(cfg, c, a, Nil, env);
  }

  // ---- Buffers and wakeups

  /**
   * During the handshake the client's ring holds at most 30 bytes, so one local buffer covers it
   * and no handshake write is refused, and a state that reads from the client has room to read.
   */
  ghost predicate BuffersFit(c: Conn) {
    && (Handshake(c.state) ==> |c.clientOut| <= 30 < LOCAL_BUFFER)
    && (c.state in {WaitingMethods, WaitingCommand} ==> |c.serverOut| < CAPACITY)
  }

  lemma InvBuffersFit(cfg: Configs, c: Conn)
    requires Inv(cfg, c)
    ensures BuffersFit(c)
  {
  }

  lemma HandshakeBuffers(cfg: Configs, fd: int, run: seq<Input>)
    requires fd >= 0 && Possible(cfg, Accepted(fd), run)
    ensures BuffersFit(Run(cfg, Accepted(fd), run))
  {
    AcceptedInv(cfg, fd);
    RunInv(cfg, Accepted(fd), run);
    InvBuffersFit(cfg, Run(cfg, Accepted(fd), run));
  }

  /**
   * No lost wakeup: pending bytes keep their descriptor waiting for output, sending states have
   * something to send, and relaying never stops watching for input.
   */
  ghost predicate WakesUp(c: Conn) {
    && ((Handshake(c.state) || c.state == Full) && c.clientOut != [] ==> c.clientMask == IN_OUT)
    && (c.state == Full && c.serverOut != [] ==> c.serverMask == IN_OUT)
    && (c.state in {SendingMethod, SendingReply, SendingReply2} ==> c.clientOut != [])
    && (c.state == Full ==> c.clientMask in {IN_ONLY, IN_OUT} && c.serverMask in {IN_ONLY, IN_OUT})
    && (c.state in {WaitingMethods, WaitingCommand} ==> c.clientMask == IN_ONLY)
    && (c.state == Connecting ==> c.serverMask == OUT_ONLY)
    && (c.state == BindListening ==> c.serverMask == IN_ONLY)
  }

  lemma InvWakesUp(cfg: Configs, c: Conn)
    requires Inv(cfg, c)
    ensures WakesUp(c)
  {
  }

  lemma NoLostWakeup(cfg: Configs, fd: int, run: seq<Input>)
    requires fd >= 0 && Possible(cfg, Accepted(fd), run)
    ensures WakesUp(Run(cfg, Accepted(fd), run))
  {
    AcceptedInv(cfg, fd);
    RunInv(cfg, Accepted(fd), run);
    InvWakesUp(cfg, Run(cfg, Accepted(fd), run));
  }

  // ---- Lifetimes

  /**
   * Each Data was freed at most once and no more than that, Shared exactly when no side is left,
   * nothing outside CLOSED, and epoll holds no pointer to freed Data.
   */
  ghost predicate FreedRight(c: Conn) {
    && c.hist.clientFrees <= 1 && c.hist.serverFrees <= 1 && c.hist.sharedFrees <= 1
    && (c.clientLive <==> c.hist.clientFrees == 0)
    && (c.hist.sharedFrees == 1 <==> !c.clientLive && !c.serverLive)
    && (c.hist.clientFrees + c.hist.serverFrees > 0 ==> c.state == Closed)
    && (forall side :: Watched(c, side) ==> Live(c, side))
  }

  lemma FreesRight(cfg: Configs, c: Conn)
    requires Inv(cfg, c)
    ensures FreedRight(c)
  {
  }

  /** In every run whose events come from registered descriptors. */
  lemma FreedOnce(cfg: Configs, fd: int, run: seq<Input>)
    requires fd >= 0 && Possible(cfg, Accepted(fd), run)
    ensures FreedRight(Run(cfg, Accepted(fd), run))
  {
    AcceptedInv(cfg, fd);
    RunInv(cfg, Accepted(fd), run);
    FreesRight(cfg, Run(cfg, Accepted(fd), run));
  }

  /** The next event of a run reaches Data that is still allocated. */
  lemma EventsReachLiveData(cfg: Configs, fd: int, run: seq<Input>, i: Input)
    requires fd >= 0 && Possible(cfg, Accepted(fd), run) && Enabled(Run(cfg, Accepted(fd), run), i)
    ensures var c := Run(cfg, Accepted(fd), run);
      if i.Ready? then Live(c, i.side) else c.clientLive && c.infoLive
  {
    AcceptedInv(cfg, fd);
    RunInv(cfg, Accepted(fd), run);
  }

  /**
   * The step from c to d left every Data but its own alone, allocated and registered, and Shared
   * is gone iff no side is left.
   */
  ghost predicate FreesOwnOnly(c: Conn, d: Conn, side: Side) {
    var other := if side.Client? then Server else Client;
    && (Live(c, other) ==> Live(d, other))
    && (Watched(c, other) ==> Watched(d, other))
    && (if side.Client? then d.hist.serverFrees == c.hist.serverFrees else d.hist.clientFrees == c.hist.clientFrees)
    && (d.hist.sharedFrees == 1 <==> !Live(d, Client) && !Live(d, Server))
  }

  /** A step touches the life of no Data but its own; Shared dies with the last one. */
  lemma StepFreesItsOwn(cfg: Configs, c: Conn, side: Side, ev: Event, env: Env)
    requires Inv(cfg, c) && Live(c, side) && EnvOk(c, env)
    ensures FreesOwnOnly(c, Step(cfg, c, side, ev, env), side)
  {
    if c.state in {Connecting, BindListening} {
      KeepsServer(cfg, c, side, ev, env);
      StepInv(cfg, c, side, ev, env);
    } else if c.state in {SendingReply, SendingReply2} {
      RepliesFreeClient(cfg, c, side, ev, env);
      StepInv(cfg, c, side, ev, env);
    } else if c.state in {WaitingMethods, SendingMethod, WaitingCommand} {
      EarlySteps(cfg, c, side, ev, env);
    } else {
      LateSteps(cfg, c, side, ev, env);
    }
  }

  lemma EarlySteps(cfg: Configs, c: Conn, side: Side, ev: Event, env: Env)
    requires Inv(cfg, c) && Live(c, side) && EnvOk(c, env) && c.state in {WaitingMethods, SendingMethod, WaitingCommand}
    ensures FreesOwnOnly(c, Step(cfg, c, side, ev, env), side)
  {
    StepInv(cfg, c, side, ev, env);
    if c.state == WaitingCommand { KeepCommand(cfg, c, side, ev, env); }
  }

  lemma LateSteps(cfg: Configs, c: Conn, side: Side, ev: Event, env: Env)
    requires Inv(cfg, c) && Live(c, side) && c.state in {AsyncDns, Full, FullUdpa, HalfClose, Closed}
    ensures FreesOwnOnly(c, Step(cfg, c, side, ev, env), side)
  {
    if c.state == Full && ev.output { FullOutput(cfg, c, side, ev, env); }
    if c.state == Full && !ev.output && ev.input { FullInput(cfg, c, side, ev, env); }
  }

  lemma RepliesFreeClient(cfg: Configs, c: Conn, side: Side, ev: Event, env: Env)
    requires Inv(cfg, c) && c.state in {SendingReply, SendingReply2}
    ensures var d := HandleSendReply(c, side, ev, env);
      d.serverLive == c.serverLive && d.serverMask == c.serverMask && d.hist.serverFrees == c.hist.serverFrees
  {
  }

  /** The liveness bits of c and d agree, and what was registered still is. */
  predicate SameLives(c: Conn, d: Conn) {
    && d.clientLive == c.clientLive && d.serverLive == c.serverLive && d.hist.serverFrees == c.hist.serverFrees
    && (Watched(c, Client) ==> Watched(d, Client)) && (Watched(c, Server) ==> Watched(d, Server))
  }

  lemma KeepsServer(cfg: Configs, c: Conn, side: Side, ev: Event, env: Env)
    requires Inv(cfg, c) && c.state in {Connecting, BindListening} && NewFdOk(c, env)
    ensures SameLives(c, Step(cfg, c, side, ev, env)) && c.clientLive && c.serverLive && c.hist.serverFrees == 0
  {
    if side.Server? && c.state == Connecting && ev.output {
      ConnectingEffect(c, ev, env);
    } else if side.Server? && c.state == BindListening && ev.input {
      ListeningEffect(c, ev, env);
    } else {
      Unmoved(cfg, c, side, ev, env);
    }
  }

  lemma Unmoved(cfg: Configs, c: Conn, side: Side, ev: Event, env: Env)
    requires c.clientFd != c.serverFd && c.state in {Connecting, BindListening}
    requires side.Client? || (if c.state == Connecting then !ev.output else !ev.input)
    ensures Step(cfg, c, side, ev, env) == c
  {
  }

  /** CLOSED is final, and Info plays no part in it. */
  lemma {:induction false} ClosedForGood(cfg: Configs, c: Conn, run: seq<Input>)
    requires Inv(cfg, c) && c.state == Closed && Possible(cfg, c, run)
    ensures Run(cfg, c, run).state == Closed
    decreases |run|
  {
    if run != [] {
      ApplyInv(cfg, c, run[0]);
      ClosedForGood(cfg, Apply(cfg, c, run[0]), run[1..]);
    }
  }

  lemma ClosedIgnoresInfo(cfg: Configs, c: Conn, info: Info, side: Side, ev: Event, env: Env)
    requires c.state == Closed
    ensures Step(cfg, c.(info := info), side, ev, env) == Step(cfg, c, side, ev, env)
  {
  }

  /** Once a side was freed, Info stays freed, and neither side comes back. */
  lemma {:induction false} FreedForGood(cfg: Configs, c: Conn, run: seq<Input>)
    requires Inv(cfg, c) && c.hist.clientFrees + c.hist.serverFrees > 0 && Possible(cfg, c, run)
    ensures var d := Run(cfg, c, run);
      && d.state == Closed && !d.infoLive
      && (d.clientLive ==> c.clientLive) && (d.serverLive ==> c.serverLive)
    decreases |run|
  {
    if run != [] {
      ClosedOnlyFrees(cfg, c, run[0]);
      ApplyInv(cfg, c, run[0]);
      FreedForGood(cfg, Apply(cfg, c, run[0]), run[1..]);
    }
  }

  lemma ClosedOnlyFrees(cfg: Configs, c: Conn, i: Input)
    requires c.state == Closed && Enabled(c, i)
    ensures var d := Apply(cfg, c, i);
      && (d.clientLive ==> c.clientLive) && (d.serverLive ==> c.serverLive)
      && d.hist.clientFrees + d.hist.serverFrees > c.hist.clientFrees + c.hist.serverFrees
  {
  }
}
