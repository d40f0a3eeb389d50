/** Connecting to a name that resolved to several addresses. */
module Fallback {
  import opened Wire
  import opened Bits
  import opened Machine
  import opened Invariant

  /** The addresses a CONNECT may use, in order. */
  function Candidates(info: Info): seq<SockAddr> {
    if info.sa.Some? then [info.sa.value] else Elements(info.ai)
  }

  /** The socket reports a failed connection attempt. */
  predicate Refusal(i: Input) {
    i.Ready? && i.side.Server? && i.ev.output && i.env.soError.Some? && i.env.soError.value != 0
  }

  /**
   * A failed attempt moves on to the next address in list order; a failure is reported exactly
   * when no address is left.
   */
  lemma RefusalStep(cfg: Configs, c: Conn, i: Input)
    requires Inv(cfg, c) && c.state == Connecting && Enabled(c, i) && Refusal(i)
    ensures var d := Apply(cfg, c, i); var n := |c.hist.tried|;
      && c.hist.tried <= Candidates(c.info) && Candidates(d.info) == Candidates(c.info)
      && if n < |Candidates(c.info)| then
           d.state == Connecting && d.hist.tried == Candidates(c.info)[..n + 1] && d.hist.replies == []
         else
           && d.state == SendingReply && d.hist.tried == Candidates(c.info)
           && |d.hist.replies| == 1 && IsFailure(d.hist.replies[0])
  {
    TriedFacts(cfg, c);
    ConnectingEffect(c, i.ev, i.env);
    RepOfErrorFails(i.env.soError.value);
    if HasNext(c) {
      var l, n := Elements(c.info.ai), |c.hist.tried|;
      assert l[..n + 1] == l[..n] + [l[n]];
    } else {
      assert c.hist.tried == Candidates(c.info);
    }
  }

  /** What the invariant says about the attempts so far. */
  lemma TriedFacts(cfg: Configs, c: Conn)
    requires Inv(cfg, c) && c.state == Connecting
    ensures c.hist.tried <= Candidates(c.info) && c.hist.replies == []
    ensures HasNext(c) <==> |c.hist.tried| < |Candidates(c.info)|
    ensures HasNext(c) ==> c.info.sa.None? && |c.hist.tried| == c.info.aiIndex + 1
    ensures c.clientOut == [] && c.clientFd != c.serverFd
  {
    assert Elements(c.info.ai)[..|Elements(c.info.ai)|] == Elements(c.info.ai);
  }

  /** The connection is about to report a failure although some address was never tried. */
  predicate GivesUpEarly(c: Conn) {
    c.state == SendingReply && c.info.rep != REP_SUCCESS && c.hist.tried != Candidates(c.info)
  }

  /** The outcome of an attempt cannot be told: getsockopt failed, or getsockname after a success. */
  predicate Unreadable(env: Env) {
    env.soError.None? || (env.soError.value == 0 && env.sockname.None?)
  }

  /**
   * Once connect() is under way, the fallback stops with addresses untried if and only if the
   * outcome of an attempt but the last cannot be told.
   */
  lemma GivesUpEarlyIff(cfg: Configs, c: Conn, ev: Event, env: Env)
    requires Inv(cfg, c) && c.state == Connecting && NewFdOk(c, env) && ev.output
    ensures GivesUpEarly(Step(cfg, c, Server, ev, env)) <==>
      |c.hist.tried| < |Candidates(c.info)| && Unreadable(env)
  {
    TriedFacts(cfg, c);
    ConnectingEffect(c, ev, env);
    if env.soError.Some? { RepOfErrorFails(env.soError.value); }
    if !HasNext(c) { assert c.hist.tried == Candidates(c.info); }
  }

  /** Two addresses; the first attempt succeeds but getsockname fails: the second is never tried. */
  lemma SecondAddressForgotten(cfg: Configs, c: Conn, a: SockAddr, b: SockAddr, env: Env)
    requires Inv(cfg, c) && c.state == Connecting && NewFdOk(c, env)
    requires c.info.sa.None? && c.info.ai == Cons(a, Cons(b, Nil)) && c.info.aiIndex == 0
    requires env.soError == Some(0) && env.sockname.None?
    ensures var d := Step(cfg, c, Server, Event(false, true), env);
      d.state == SendingReply && d.hist.tried == [a] && d.hist.replies == [FailureReply(REP_GENFAIL)]
  {
    TriedFacts(cfg, c);
    ConnectingEffect(c, Event(false, true), env);
    assert Elements(c.info.ai)[..1] == [a];
  }

  /** k refusals in a row try the first k further addresses, in order and once each. */
  lemma {:induction false} RefusalRun(cfg: Configs, c: Conn, run: seq<Input>)
    requires Inv(cfg, c) && c.state == Connecting && Possible(cfg, c, run)
    requires forall k :: 0 <= k < |run| ==> Refusal(run[k])
    requires |c.hist.tried| + |run| <= |Candidates(c.info)|
    ensures var d := Run(cfg, c, run);
      && d.state == Connecting && d.hist.replies == [] && Candidates(d.info) == Candidates(c.info)
      && |c.hist.tried| + |run| <= |Candidates(c.info)|
      && d.hist.tried == Candidates(c.info)[..|c.hist.tried| + |run|]
    decreases |run|
  {
    if run == [] {
      assert c.hist.tried == Candidates(c.info)[..|c.hist.tried|];
    } else {
      RefusalStep(cfg, c, run[0]);
      ApplyInv(cfg, c, run[0]);
      RefusalRun(cfg, Apply(cfg, c, run[0]), run[1..]);
    }
  }

  /**
   * Of the addresses a name resolved to, the one at position k is contacted by then if and only
   * if the attempts before it failed; whether it is on the block list does not matter.
   */
  lemma ContactedIffReached(cfg: Configs, c: Conn, run: seq<Input>, k: nat)
    requires Inv(cfg, c) && c.state == Connecting && Possible(cfg, c, run)
    requires forall j :: 0 <= j < |run| ==> Refusal(run[j])
    requires |c.hist.tried| + |run| <= |Candidates(c.info)| && k < |Candidates(c.info)|
    ensures var d := Run(cfg, c, run);
      (k < |d.hist.tried| && d.hist.tried[k] == Candidates(c.info)[k]) <==> k < |c.hist.tried| + |run|
  {
    RefusalRun(cfg, c, run);
  }

  /** When all n attempts are refused, all n addresses were tried before the one failure frame. */
  lemma AllRefused(cfg: Configs, c: Conn, run: seq<Input>, last: Input)
    requires Inv(cfg, c) && c.state == Connecting && Possible(cfg, c, run)
    requires forall k :: 0 <= k < |run| ==> Refusal(run[k])
    requires |c.hist.tried| + |run| == |Candidates(c.info)|
    requires Refusal(last) && Enabled(Run(cfg, c, run), last)
    ensures var d := Apply(cfg, Run(cfg, c, run), last);
      d.state == SendingReply && d.hist.tried == Candidates(c.info) && |d.hist.replies| == 1
  {
    RefusalRun(cfg, c, run);
    RunInv(cfg, c, run);
    RefusalStep(cfg, Run(cfg, c, run), last);
  }

  /**
   * The fallback exists only once the first connect() is under way. When the command itself
   * fails, all addresses were tried exactly when there was a socket and only one address.
   */
  lemma FirstAttemptFails(cfg: Configs, c: Conn, env: Env)
    requires Startable(cfg, c) && NewFdOk(c, env) && c.info.cmd == CMD_CONN && cfg.allowConnect
    requires Requested(c.info).Some?
    ensures var d := RunCommand(cfg, c, Client, env);
      && (d.state == SendingReply <==> env.newFd == -1 || !env.connected)
      && (d.state == SendingReply ==>
            (d.hist.tried == Candidates(c.info) <==> env.newFd != -1 && |Candidates(c.info)| == 1))
      && (d.state == Connecting ==> d.hist.tried == Candidates(c.info)[..1])
  {
    var d := InitConnect(c, env);
    if d.info.rep != UNSET { ReplyWithErrEffect(d, Client); }
    if c.info.sa.None? {
      assert Elements(c.info.ai)[0] == c.info.ai.head;
      assert |Elements(c.info.ai)| == 1 ==> Elements(c.info.ai) == [c.info.ai.head];
    }
  }

  /** Two addresses, the first unreachable at once: the second is never tried. */
  lemma SecondAddressSkipped(cfg: Configs, c: Conn, a: SockAddr, b: SockAddr, env: Env)
    requires Startable(cfg, c) && c.info.cmd == CMD_CONN && cfg.allowConnect
    requires c.info.sa.None? && c.info.ai == Cons(a, Cons(b, Nil))
    requires env.newFd >= 0 && NewFdOk(c, env) && !env.connected
    ensures var d := RunCommand(cfg, c, Client, env);
      d.state == SendingReply && d.hist.tried == [a] && |d.hist.replies| == 1
  {
    ReplyWithErrEffect(InitConnect(c, env), Client);
  }

  /**
   * The error code is matched bit by bit, so "connection refused" is never reported: any error
   * sharing a bit with ECONNREFUSED shares one with ENETUNREACH or ETIMEDOUT, tested before it.
   */
  lemma NeverReportsRefused(error: nat)
    ensures RepOfError(error) in {REP_NUNRECH, REP_HUNRECH, REP_TTLEXPR, REP_GENFAIL}
  {
  }

  /** A refused connection itself reads as an unreachable network. */
  lemma RefusedReadsAsUnreachable()
    ensures RepOfError(ECONNREFUSED) == REP_NUNRECH
  {
    assert And(111, 101) != 0;
  }
}
