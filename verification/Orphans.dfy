/** When Shared is never freed. */
module Orphans {
  import opened Wire
  import opened Firewall
  import opened Machine
  import opened Invariant
  import opened Guarantees

  /** The server side has a Data that epoll will not report. */
  predicate Orphaned(c: Conn) {
    c.serverLive && !Watched(c, Server)
  }

  /**
   * A closed connection whose client is gone keeps its Shared in every later run if and only if
   * its server Data is allocated but not registered.
   */
  lemma KeepsSharedIff(cfg: Configs, c: Conn)
    requires Inv(cfg, c) && c.state == Closed && !c.clientLive
    ensures Orphaned(c) <==> forall run :: Possible(cfg, c, run) ==> Run(cfg, c, run).hist.sharedFrees == 0
  {
    if Orphaned(c) {
      forall run | Possible(cfg, c, run)
        ensures Run(cfg, c, run).hist.sharedFrees == 0
      {
        OrphanStays(cfg, c, run);
      }
    } else if c.serverLive {
      var run := [Ready(Server, Event(true, false), IDLE)];
      assert run[1..] == [];
      assert Possible(cfg, c, run);
      assert Run(cfg, c, run) == HandleClosed(c, Server);
    } else {
      NothingHappens(cfg, c, []);
    }
  }

  lemma NothingHappens(cfg: Configs, c: Conn, run: seq<Input>)
    requires run == []
    ensures Possible(cfg, c, run) && Run(cfg, c, run) == c
  {
  }

  /** System calls that return nothing. */
  const IDLE := Env(None, None, -1, false, false, false, None, None, ANY_ADDR, ANY_ADDR)

  /** While the reply is sent and after the close, nothing frees the server side, and so Shared stays. */
  lemma {:induction false} OrphanStays(cfg: Configs, c: Conn, run: seq<Input>)
    requires Inv(cfg, c) && Orphaned(c) && c.state in {SendingReply, Closed} && Possible(cfg, c, run)
    ensures var d := Run(cfg, c, run);
      Orphaned(d) && d.state in {SendingReply, Closed} && d.hist.sharedFrees == 0
    decreases |run|
  {
    if run != [] {
      OrphanStep(cfg, c, run[0]);
      ApplyInv(cfg, c, run[0]);
      OrphanStays(cfg, Apply(cfg, c, run[0]), run[1..]);
    }
  }

  lemma OrphanStep(cfg: Configs, c: Conn, i: Input)
    requires Inv(cfg, c) && Orphaned(c) && c.state in {SendingReply, Closed} && Enabled(c, i)
    ensures var d := Apply(cfg, c, i); Orphaned(d) && d.state in {SendingReply, Closed}
  {
  }

  // ---- Where orphans come from

  /** The listener was opened but its address could not be read back. */
  predicate NameUnknown(cfg: Configs, info: Info, env: Env) {
    && info.cmd == CMD_BIND && cfg.allowBind && env.bound && env.listening && env.sockname.None? && env.newFd != -1
    && Requested(info).Some?
    && var af := Requested(info).value.family;
       FirstOf(cfg.bindListen, af).Some? && FirstOf(cfg.bindAdvertise, af).Some?
  }

  /** Starting a command leaves an orphan if and only if getsockname fails on a listener. */
  lemma CommandOrphans(cfg: Configs, c: Conn, env: Env)
    requires Startable(cfg, c) && NewFdOk(c, env)
    ensures var d := RunCommand(cfg, c, Client, env); Orphaned(d) <==> NameUnknown(cfg, c.info, env)
    ensures var d := RunCommand(cfg, c, Client, env); Orphaned(d) ==> d.state == SendingReply
  {
    if CommandAllowed(cfg, c.info.cmd) {
      InitOrphans(cfg, c, env);
      var d := InitCommand(cfg, c, Client, env);
      if d.info.rep != UNSET && d.info.rep != REP_SUCCESS { FailWithEffect(d, Client, d.info.rep); }
    } else {
      DisabledOrphansNothing(cfg, c, env);
    }
  }

  lemma DisabledOrphansNothing(cfg: Configs, c: Conn, env: Env)
    requires |c.clientOut| <= 10 && !CommandAllowed(cfg, c.info.cmd) && !c.serverLive
    ensures !RunCommand(cfg, c, Client, env).serverLive
  {
    FailWithEffect(c, Client, REP_BADCOMM);
    FailWithEffect(Failed(c, REP_BADCOMM), Client, REP_BADCOMM);
  }

  /** What a started command leaves on the server side. */
  ghost predicate OrphansIff(d: Conn, unknown: bool) {
    && (Orphaned(d) <==> unknown)
    && (Orphaned(d) ==> d.info.rep == REP_GENFAIL)
    && (d.info.rep != REP_SUCCESS ==> d.clientOut == []) && d.info.rep in {UNSET, REP_SUCCESS, REP_GENFAIL, REP_BADATYP}
  }

  lemma InitOrphans(cfg: Configs, c: Conn, env: Env)
    requires Startable(cfg, c) && NewFdOk(c, env) && CommandAllowed(cfg, c.info.cmd)
    ensures OrphansIff(InitCommand(cfg, c, Client, env), NameUnknown(cfg, c.info, env))
  {
    if c.info.cmd == CMD_CONN { ConnectOrphans(c, env); }
    else if c.info.cmd == CMD_BIND { BindOrphans(cfg, c, env); }
    else { UdpaOrphans(cfg, c, env); }
  }

  lemma ConnectOrphans(c: Conn, env: Env)
    requires c.clientOut == [] && c.info.rep == UNSET && !c.serverLive && NewFdOk(c, env)
    ensures OrphansIff(InitConnect(c, env), false)
  {
  }

  lemma BindOrphans(cfg: Configs, c: Conn, env: Env)
    requires c.clientOut == [] && c.info.rep == UNSET && !c.serverLive && c.serverMask == Unregistered && NewFdOk(c, env)
    requires c.info.cmd == CMD_BIND && cfg.allowBind
    ensures OrphansIff(InitBind(cfg, c, env), NameUnknown(cfg, c.info, env))
  {
  }

  lemma UdpaOrphans(cfg: Configs, c: Conn, env: Env)
    requires c.clientOut == [] && c.info.rep == UNSET && !c.serverLive && NewFdOk(c, env)
    ensures OrphansIff(InitUdpa(cfg, c, env), false)
  {
  }

  /** The connection of a listener whose getsockname failed keeps its Shared in every later run. */
  lemma ListenerWithoutName(cfg: Configs, c: Conn, env: Env, run: seq<Input>)
    requires Startable(cfg, c) && NewFdOk(c, env) && NameUnknown(cfg, c.info, env)
    requires Possible(cfg, RunCommand(cfg, c, Client, env), run)
    ensures Run(cfg, RunCommand(cfg, c, Client, env), run).hist.sharedFrees == 0
  {
    CommandOrphans(cfg, c, env);
    RunCommandInv(cfg, c, env);
    OrphanStays(cfg, RunCommand(cfg, c, Client, env), run);
  }

  /** So does a decision, for a literal BIND that passes the firewall. */
  lemma DecisionOrphans(cfg: Configs, c: Conn, d: Decision, env: Env)
    requires Deciding(cfg, c) && NewFdOk(c, env)
    ensures Orphaned(Act(cfg, c, Client, d, env)) <==>
      && d.Literal? && !Drops(d.cmd, Some(d.target), Nil, cfg.blocks)
      && NameUnknown(cfg, c.info.(cmd := d.cmd, sa := Some(d.target)), env)
    ensures var e := Act(cfg, c, Client, d, env); Orphaned(e) ==> e.state == SendingReply
  {
    match d
    case BadAddressType => FailWithEffect(c, Client, REP_BADATYP);
    case Literal(cmd, target) =>
      var c1 := c.(info := c.info.(cmd := cmd, atyp := Atyp(target.family), sa := Some(target)));
      if Drops(cmd, Some(target), Nil, cfg.blocks) {
        FailWithEffect(c1, Client, REP_RULESET);
      } else {
        CommandOrphans(cfg, c1, env);
      }
    case _ =>
  }

  /** And the answer of the resolver, when the lookup succeeded. */
  lemma LookupOrphans(cfg: Configs, c: Conn, gaiRet: int, env: Env)
    requires Inv(cfg, c) && c.state == AsyncDns && AnswerOk(c.info.ai, gaiRet) && NewFdOk(c, env)
    ensures Orphaned(ResolverReturned(cfg, c, gaiRet, env)) <==> gaiRet == 0 && NameUnknown(cfg, c.info, env)
    ensures var d := ResolverReturned(cfg, c, gaiRet, env); Orphaned(d) ==> d.state == SendingReply
  {
    var c1 := c.(info := c.info.(resolverRet := gaiRet), state := WaitingCommand);
    if gaiRet == 0 {
      CommandOrphans(cfg, c1, env);
    } else {
      var c2 := Failed(c1, REP_GENFAIL);
      FailWithEffect(c1, Client, REP_GENFAIL);
      assert ResolverReturned(cfg, c, gaiRet, env) == RunCommand(cfg, c2, Client, env);
      if CommandAllowed(cfg, c.info.cmd) {
        NoDestination(cfg, c2, Client, env);
        FailWithEffect(SetRep(c2, REP_GENFAIL), Client, REP_GENFAIL);
      } else {
        DisabledOrphansNothing(cfg, c2, env);
      }
    }
  }

  /** No other step makes an orphan. */
  lemma OtherStepsOrphanNothing(cfg: Configs, c: Conn, i: Input)
    requires Inv(cfg, c) && Enabled(c, i) && !Orphaned(c) && c.state !in {WaitingCommand, AsyncDns}
    ensures !Orphaned(Apply(cfg, c, i))
  {
    match i
    case Ready(side, ev, env) =>
      if c.state in {Connecting, BindListening} {
        KeepsServer(cfg, c, side, ev, env);
      } else if c.state in {SendingReply, SendingReply2} {
        RepliesFreeClient(cfg, c, side, ev, env);
      } else if c.state in {WaitingMethods, SendingMethod} {
        EarlyStepsOrphanNothing(cfg, c, side, ev, env);
      } else {
        LateStepsOrphanNothing(cfg, c, side, ev, env);
      }
    case Resolved(_, _, _) =>
  }

  lemma EarlyStepsOrphanNothing(cfg: Configs, c: Conn, side: Side, ev: Event, env: Env)
    requires Inv(cfg, c) && c.state in {WaitingMethods, SendingMethod} && Live(c, side) && EnvOk(c, env)
    ensures !Step(cfg, c, side, ev, env).serverLive
  {
    StepInv(cfg, c, side, ev, env);
  }

  lemma LateStepsOrphanNothing(cfg: Configs, c: Conn, side: Side, ev: Event, env: Env)
    requires Lifetimes(c) && c.state in {Full, FullUdpa, HalfClose, Closed} && !Orphaned(c)
    ensures !Orphaned(Step(cfg, c, side, ev, env))
  {
    if c.state == Full && ev.output { FullOutput(cfg, c, side, ev, env); }
    if c.state == Full && !ev.output && ev.input { FullInput(cfg, c, side, ev, env); }
  }

  // ---- Over whole runs

  /** This step starts a BIND whose listener cannot be named. */
  predicate NamelessStep(cfg: Configs, c: Conn, i: Input) {
    match i
    case Ready(side, ev, env) =>
      && c.state == WaitingCommand && side.Client? && ev.input && env.recv.Some?
      && var d := Parse(Take(c.serverOut + env.recv.value, LOCAL_BUFFER), cfg.allowDomains);
         && d.Literal? && !Drops(d.cmd, Some(d.target), Nil, cfg.blocks)
         && NameUnknown(cfg, c.info.(cmd := d.cmd, sa := Some(d.target)), env)
    case Resolved(ai, gaiRet, env) =>
      c.state == AsyncDns && gaiRet == 0 && NameUnknown(cfg, c.info.(ai := ai), env)
  }

  /** Some step of the run does. */
  predicate SomeNameless(cfg: Configs, c: Conn, run: seq<Input>)
    decreases |run|
  {
    run != [] && (NamelessStep(cfg, c, run[0]) || SomeNameless(cfg, Apply(cfg, c, run[0]), run[1..]))
  }

  lemma CommandStepOrphans(cfg: Configs, c: Conn, side: Side, ev: Event, env: Env)
    requires Inv(cfg, c) && c.state == WaitingCommand && EnvOk(c, env)
    ensures Orphaned(Step(cfg, c, side, ev, env)) <==> NamelessStep(cfg, c, Ready(side, ev, env))
    ensures var d := Step(cfg, c, side, ev, env); Orphaned(d) ==> d.state == SendingReply
  {
    if side.Client? && ev.input && env.recv.Some? {
      var c1 := c.(serverOut := c.serverOut + env.recv.value);
      DecisionOrphans(cfg, c1, Parse(Take(c1.serverOut, LOCAL_BUFFER), cfg.allowDomains), env);
    } else {
      IdleCommandStep(cfg, c, side, ev, env);
    }
  }

  lemma IdleCommandStep(cfg: Configs, c: Conn, side: Side, ev: Event, env: Env)
    requires Inv(cfg, c) && c.state == WaitingCommand && !(side.Client? && ev.input && env.recv.Some?)
    ensures !Step(cfg, c, side, ev, env).serverLive
  {
  }

  /** A step makes an orphan if and only if it is such a step. */
  lemma StepOrphansIff(cfg: Configs, c: Conn, i: Input)
    requires Inv(cfg, c) && Enabled(c, i) && !Orphaned(c)
    ensures Orphaned(Apply(cfg, c, i)) <==> NamelessStep(cfg, c, i)
    ensures var d := Apply(cfg, c, i); Orphaned(d) ==> d.state == SendingReply
  {
    match i
    case Ready(side, ev, env) =>
      if c.state == WaitingCommand {
        CommandStepOrphans(cfg, c, side, ev, env);
      } else if c.state == AsyncDns {
        assert Step(cfg, c, side, ev, env) == c;
      } else {
        OtherStepsOrphanNothing(cfg, c, i);
      }
    case Resolved(ai, gaiRet, env) =>
      StoreAddressesInv(cfg, c, ai);
      LookupOrphans(cfg, StoreAddresses(c, ai), gaiRet, env);
  }

  /** Where orphans are found. */
  ghost predicate OrphanState(c: Conn) {
    Orphaned(c) ==> c.state in {SendingReply, Closed}
  }

  lemma StepOrphanState(cfg: Configs, c: Conn, i: Input)
    requires Inv(cfg, c) && Enabled(c, i) && OrphanState(c)
    ensures OrphanState(Apply(cfg, c, i))
    ensures Orphaned(Apply(cfg, c, i)) <==> Orphaned(c) || NamelessStep(cfg, c, i)
  {
    if Orphaned(c) {
      OrphanStep(cfg, c, i);
    } else {
      StepOrphansIff(cfg, c, i);
    }
  }

  /** A run leaves an orphan if and only if some step of it starts a BIND whose listener cannot be named. */
  lemma {:induction false} OrphanedRunIff(cfg: Configs, c: Conn, run: seq<Input>)
    requires Inv(cfg, c) && OrphanState(c) && Possible(cfg, c, run)
    ensures var d := Run(cfg, c, run);
      OrphanState(d) && (Orphaned(d) <==> Orphaned(c) || SomeNameless(cfg, c, run))
    decreases |run|
  {
    if run != [] {
      StepOrphanState(cfg, c, run[0]);
      ApplyInv(cfg, c, run[0]);
      OrphanedRunIff(cfg, Apply(cfg, c, run[0]), run[1..]);
    }
  }

  // ---- When Shared can still be freed

  /** The UDP relay is a stub: a connection that reaches it stays there, and keeps its Shared. */
  lemma {:induction false} UdpaStays(cfg: Configs, c: Conn, run: seq<Input>)
    requires Inv(cfg, c) && c.state == FullUdpa && Possible(cfg, c, run)
    ensures Run(cfg, c, run).state == FullUdpa && Run(cfg, c, run).hist.sharedFrees == 0
    decreases |run|
  {
    if run != [] {
      assert Apply(cfg, c, run[0]) == c;
      UdpaStays(cfg, c, run[1..]);
    }
  }

  predicate Doomed(c: Conn) {
    Orphaned(c) || c.state == FullUdpa
  }

  /** Steps left until Shared is freed, when every call fails. */
  function Distance(c: Conn): nat {
    match c.state
    case Closed => (if c.clientLive then 1 else 0) + (if c.serverLive then 1 else 0)
    case HalfClose => 3
    case WaitingMethods => 3
    case SendingMethod => 3
    case WaitingCommand => 3
    case SendingReply => 3
    case SendingReply2 => 3
    case _ => 4
  }

  /** An event whose system calls all fail, or the close of a side. */
  function Failure(c: Conn): Input {
    match c.state
    case Closed => Ready(if c.clientLive then Client else Server, Event(true, false), IDLE)
    case SendingMethod => Ready(Client, Event(false, true), IDLE)
    case SendingReply => Ready(Client, Event(false, true), IDLE)
    case SendingReply2 => Ready(Client, Event(false, true), IDLE)
    case AsyncDns => Resolved(Nil, 1, IDLE)
    case Connecting => Ready(Server, Event(false, true), IDLE)
    case BindListening => Ready(Server, Event(true, false), IDLE)
    case _ => Ready(Client, Event(true, false), IDLE)
  }

  lemma FailureEnabled(cfg: Configs, c: Conn)
    requires Inv(cfg, c) && !Doomed(c) && Distance(c) > 0
    ensures Enabled(c, Failure(c)) && !NamelessStep(cfg, c, Failure(c))
  {
  }

  lemma FailureApproaches(cfg: Configs, c: Conn)
    requires Inv(cfg, c) && !Doomed(c) && Distance(c) > 0
    ensures var d := Apply(cfg, c, Failure(c)); Distance(d) < Distance(c) && d.state != FullUdpa
  {
    if c.state in {AsyncDns, Connecting, BindListening} {
      FailureReplies(cfg, c);
    } else if c.state == Full {
      FullInput(cfg, c, Client, Event(true, false), IDLE);
    } else {
      FailureCloses(cfg, c);
    }
  }

  lemma FailureReplies(cfg: Configs, c: Conn)
    requires Inv(cfg, c) && c.state in {AsyncDns, Connecting, BindListening}
    ensures Apply(cfg, c, Failure(c)).state == SendingReply
  {
    match c.state
    case AsyncDns =>
      StoreAddressesInv(cfg, c, Nil);
      KeepFailedLookup(cfg, StoreAddresses(c, Nil), 1, IDLE);
    case Connecting => ConnectingEffect(c, Event(false, true), IDLE);
    case BindListening => ListeningEffect(c, Event(true, false), IDLE);
  }

  lemma FailureCloses(cfg: Configs, c: Conn)
    requires Inv(cfg, c) && !Doomed(c) && Distance(c) > 0 && c.state !in {AsyncDns, Connecting, BindListening, Full}
    ensures var d := Apply(cfg, c, Failure(c)); Distance(d) < Distance(c) && d.state == Closed
  {
  }

  /** A run that frees Shared. */
  lemma {:induction false} FreeingRun(cfg: Configs, c: Conn) returns (run: seq<Input>)
    requires Inv(cfg, c) && OrphanState(c) && !Doomed(c)
    ensures Possible(cfg, c, run) && Run(cfg, c, run).hist.sharedFrees == 1
    decreases Distance(c)
  {
    run := [];
    if Distance(c) > 0 {
      var i := Failure(c);
      FailureEnabled(cfg, c);
      FailureApproaches(cfg, c);
      ApplyInv(cfg, c, i);
      StepOrphanState(cfg, c, i);
      var rest := FreeingRun(cfg, Apply(cfg, c, i));
      run := [i] + rest;
      assert run[1..] == rest;
    }
  }

  /**
   * In every state that a run reaches: Shared is kept in every later run if and only if the
   * connection is orphaned or has become a UDP relay.
   */
  lemma NeverFreedIff(cfg: Configs, fd: int, before: seq<Input>)
    requires fd >= 0 && Possible(cfg, Accepted(fd), before)
    ensures var c := Run(cfg, Accepted(fd), before);
      SomeNameless(cfg, Accepted(fd), before) || c.state == FullUdpa <==>
        forall run :: Possible(cfg, c, run) ==> Run(cfg, c, run).hist.sharedFrees == 0
  {
    AcceptedInv(cfg, fd);
    RunInv(cfg, Accepted(fd), before);
    OrphanedRunIff(cfg, Accepted(fd), before);
    var c := Run(cfg, Accepted(fd), before);
    if Doomed(c) {
      forall run | Possible(cfg, c, run)
        ensures Run(cfg, c, run).hist.sharedFrees == 0
      {
        if Orphaned(c) { OrphanStays(cfg, c, run); } else { UdpaStays(cfg, c, run); }
      }
    } else {
      var run := FreeingRun(cfg, c);
    }
  }
}
