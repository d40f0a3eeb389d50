/** What a finished name lookup leads to, from the list and the code that getaddrinfo returned. */
module Lookups {
  import opened Wire
  import opened Bits
  import opened Machine
  import opened Invariant
  import opened Progress
  import opened Replies
  import opened Segmentation
  import opened Fallback
  import opened Outcomes

  /** The connection when the answer is handed to the command handler. */
  function Answered(c: Conn, ai: List<SockAddr>, gaiRet: int): Conn {
    c.(state := WaitingCommand, info := c.info.(ai := ai, resolverRet := gaiRet))
  }

  lemma AnswerRuns(cfg: Configs, c: Conn, ai: List<SockAddr>, env: Env)
    requires Inv(cfg, c) && c.state == AsyncDns && NewFdOk(c, env)
    ensures Startable(cfg, Answered(c, ai, 0)) && NewFdOk(Answered(c, ai, 0), env)
    ensures Apply(cfg, c, Resolved(ai, 0, env)) == RunCommand(cfg, Answered(c, ai, 0), Client, env)
  {
    StoreAddressesInv(cfg, c, ai);
  }

  /** CONNECT: the first resolved address is being contacted, and the whole list is kept. */
  lemma AnswerConnects(cfg: Configs, c: Conn, a: SockAddr, rest: List<SockAddr>, env: Env)
    requires Inv(cfg, c) && c.state == AsyncDns && c.info.cmd == 1 && cfg.allowConnect
    requires NewFdOk(c, env) && env.newFd != -1 && env.connected
    ensures Apply(cfg, c, Resolved(Cons(a, rest), 0, env)) ==
      c.(state := Connecting, info := c.info.(ai := Cons(a, rest), resolverRet := 0), serverLive := true,
         serverFd := env.newFd, serverOut := [], serverMask := OUT_ONLY, hist := c.hist.(tried := [a]))
  {
    AnswerRuns(cfg, c, Cons(a, rest), env);
    ConnectStarts(cfg, Answered(c, Cons(a, rest), 0), a, env);
  }

  /** BIND: the listener is announced for the family of the first resolved address. */
  lemma AnswerBinds(cfg: Configs, c: Conn, a: SockAddr, rest: List<SockAddr>, adv: SockAddr, s: SockAddr, env: Env)
    requires Inv(cfg, c) && c.state == AsyncDns && c.info.cmd == 2 && cfg.allowBind && NewFdOk(c, env)
    requires env.newFd != -1 && env.bound && env.listening && env.sockname == Some(s)
    requires !NoneWith(Elements(cfg.bindListen), a.family) && FirstWith(Elements(cfg.bindAdvertise), a.family, adv)
    ensures var d := Apply(cfg, c, Resolved(Cons(a, rest), 0, env)); var r := Reply(0, SockAddr(a.family, adv.addr, s.port));
      d.state == SendingReply && d.info.cmd == 2 && d.info.ai == Cons(a, rest) && d.info.rep == 0
      && d.hist.replies == [r] && d.clientOut == Encode(r) && d.hist.bound == Some(s) && d.serverFd == env.newFd
  {
    AnswerRuns(cfg, c, Cons(a, rest), env);
    BindAnnounces(cfg, Answered(c, Cons(a, rest), 0), a, adv, s, env);
  }

  /** A failed lookup: code 1, then what the command handler makes of a request without destination. */
  lemma FailedLookup(cfg: Configs, c: Conn, gaiRet: int, env: Env)
    requires Inv(cfg, c) && c.state == AsyncDns && gaiRet != 0 && gaiRet != -1 && NewFdOk(c, env)
    ensures var c1 := Failed(Answered(c, Nil, gaiRet), 1);
      Apply(cfg, c, Resolved(Nil, gaiRet, env)) == if PerCommand(cfg, c.info.cmd, 1, 2) == 1 then Failed(c1, 1) else Failed(Failed(c1, 7), 7)
  {
    var c0 := Answered(c, Nil, gaiRet);
    var c1 := Failed(c0, REP_GENFAIL);
    FailWithEffect(c0, Client, REP_GENFAIL);
    assert Apply(cfg, c, Resolved(Nil, gaiRet, env)) == RunCommand(cfg, c1, Client, env);
    if CommandAllowed(cfg, c.info.cmd) {
      NoDestination(cfg, c1, Client, env);
      FailWithEffect(c1, Client, REP_GENFAIL);
    } else {
      DisabledRefusedTwice(cfg, c1, env);
    }
  }

  /** Whatever follows a successful lookup has the list that was returned. */
  lemma AnswerKeepsList(cfg: Configs, c: Conn, ai: List<SockAddr>, env: Env)
    requires Inv(cfg, c) && c.state == AsyncDns && NewFdOk(c, env)
    requires Apply(cfg, c, Resolved(ai, 0, env)).state == Connecting
    ensures var d := Apply(cfg, c, Resolved(ai, 0, env));
      ai.Cons? && Candidates(d.info) == Elements(ai) && d.info.ai == ai && d.hist.tried == [ai.head] && c.info.cmd == 1
  {
    AnswerRuns(cfg, c, ai, env);
    var c1 := Answered(c, ai, 0);
    if PerCommand(cfg, c.info.cmd, 1, 2) == 2 {
      DisabledCommand(cfg, c1, env);
    } else if ai.Nil? {
      NoDestination(cfg, c1, Client, env);
      FailWithEffect(c1, Client, REP_GENFAIL);
    } else if c.info.cmd == 1 {
      if env.newFd != -1 && env.connected { ConnectStarts(cfg, c1, ai.head, env); }
      else { ConnectRefused(cfg, c1, ai.head, env); }
    } else {
      OthersDoNotConnect(cfg, c1, env);
    }
  }

  /** After a successful lookup and k failed attempts, the first k + 1 returned addresses were tried, in order. */
  lemma ResolvedFallback(cfg: Configs, c: Conn, ai: List<SockAddr>, env: Env, run: seq<Input>)
    requires Inv(cfg, c) && Enabled(c, Resolved(ai, 0, env))
    requires var d := Apply(cfg, c, Resolved(ai, 0, env));
      d.state == Connecting && Possible(cfg, d, run) && |run| < |Elements(ai)|
    requires forall j :: 0 <= j < |run| ==> Refusal(run[j])
    ensures var d := Run(cfg, Apply(cfg, c, Resolved(ai, 0, env)), run);
      d.state == Connecting && d.hist.tried == Elements(ai)[..|run| + 1] && d.hist.replies == []
  {
    var d := Apply(cfg, c, Resolved(ai, 0, env));
    ApplyInv(cfg, c, Resolved(ai, 0, env));
    AnswerKeepsList(cfg, c, ai, env);
    RefusalRun(cfg, d, run);
  }

  // ---- From the request on

  lemma {:induction false} FeedInv(cfg: Configs, c: Conn, chunks: seq<seq<byte>>, env: Env)
    requires Inv(cfg, c) && c.state in {WaitingMethods, WaitingCommand} && Receivable(cfg, c, chunks, env)
    ensures Inv(cfg, Feed(cfg, c, chunks, env).0)
    decreases |chunks|
  {
    if chunks != [] {
      var e := env.(recv := Some(chunks[0]));
      var d := Step(cfg, c, Client, READABLE, e);
      StepInv(cfg, c, Client, READABLE, e);
      if d.state == c.state { FeedInv(cfg, d, chunks[1..], env); }
    }
  }

  /**
   * A CONNECT by name, however it is cut, contacts the first address that its name resolves to;
   * the others are kept for the fallback.
   */
  lemma NamedConnect(cfg: Configs, c: Conn, chunks: seq<seq<byte>>, rsv: byte, query: Query, a: SockAddr, rest: List<SockAddr>,
      early: Env, late: Env)
    requires Inv(cfg, c) && c.state == WaitingCommand && chunks != [] && Receivable(cfg, c, chunks, early)
    requires |query.name| < 256 && |query.port| == 2 && cfg.allowDomains && cfg.allowConnect
    requires EncodeNameRequest(1, rsv, query) <= c.serverOut + Join(chunks)
    requires NewFdOk(Feed(cfg, c, chunks, early).0, late) && late.newFd != -1 && late.connected
    ensures var d := Feed(cfg, c, chunks, early).0;
      && d.state == AsyncDns && |d.hist.lookups| == 1 && d.hist.lookups[0].name == query.name
      && var e := Apply(cfg, d, Resolved(Cons(a, rest), 0, late));
         e.state == Connecting && e.hist.tried == [a] && Candidates(e.info) == Elements(Cons(a, rest))
  {
    StreamIsName(cfg, c.serverOut + Join(chunks), 1, rsv, query);
    NameAsked(cfg, c, chunks, early);
    FeedInv(cfg, c, chunks, early);
    AnswerConnects(cfg, Feed(cfg, c, chunks, early).0, a, rest, late);
  }

  /** A BIND by name, however it is cut, announces its listener once the name is resolved. */
  lemma NamedBind(cfg: Configs, c: Conn, chunks: seq<seq<byte>>, rsv: byte, query: Query, a: SockAddr, rest: List<SockAddr>,
      adv: SockAddr, s: SockAddr, early: Env, late: Env)
    requires Inv(cfg, c) && c.state == WaitingCommand && chunks != [] && Receivable(cfg, c, chunks, early)
    requires |query.name| < 256 && |query.port| == 2 && cfg.allowDomains && cfg.allowBind
    requires EncodeNameRequest(2, rsv, query) <= c.serverOut + Join(chunks)
    requires NewFdOk(Feed(cfg, c, chunks, early).0, late)
    requires late.newFd != -1 && late.bound && late.listening && late.sockname == Some(s)
    requires !NoneWith(Elements(cfg.bindListen), a.family) && FirstWith(Elements(cfg.bindAdvertise), a.family, adv)
    ensures var e := Apply(cfg, Feed(cfg, c, chunks, early).0, Resolved(Cons(a, rest), 0, late));
      e.state == SendingReply && e.info.cmd == 2 && e.hist.replies == [Reply(0, SockAddr(a.family, adv.addr, s.port))]
  {
    StreamIsName(cfg, c.serverOut + Join(chunks), 2, rsv, query);
    NameAsked(cfg, c, chunks, early);
    FeedInv(cfg, c, chunks, early);
    AnswerBinds(cfg, Feed(cfg, c, chunks, early).0, a, rest, adv, s, late);
  }

  lemma StreamIsName(cfg: Configs, stream: seq<byte>, cmd: byte, rsv: byte, query: Query)
    requires |query.name| < 256 && |query.port| == 2 && cfg.allowDomains
    requires EncodeNameRequest(cmd, rsv, query) <= stream
    ensures Decide(cfg, stream) == Lookup(cmd, query)
    ensures |stream| > 4 && stream[1] == cmd && stream[4] as int == |query.name| && stream[5..5 + |query.name|] == query.name
  {
    var r := EncodeNameRequest(cmd, rsv, query);
    var s := Take(stream, LOCAL_BUFFER);
    var more := s[|r|..];
    assert s == r + more;
    NameRoundTrip(cmd, rsv, query, more);
    assert stream[5..5 + |query.name|] == r[5..5 + |query.name|] == query.name;
  }

  // ---- The code of a failed attempt

  /** Bit k of a number. */
  predicate BitSet(x: nat, k: nat) {
    x / Pow2(k) % 2 == 1
  }

  /**
   * The reply code for a socket error, by its bits: 3 for bits 0, 2, 5 and 6, else 4 for bit 4,
   * else 6 for bits 1 and 3, else 1.
   */
  lemma CodeOfError(error: nat)
    ensures RepOfError(error) ==
      if BitSet(error, 0) || BitSet(error, 2) || BitSet(error, 5) || BitSet(error, 6) then 3
      else if BitSet(error, 4) then 4
      else if BitSet(error, 1) || BitSet(error, 3) then 6
      else 1
  {
    AndBits(error);
  }

  /** The errors the program means to tell apart all get code 3. */
  lemma CodesCollapse()
    ensures RepOfError(ENETUNREACH) == RepOfError(EHOSTUNREACH) == RepOfError(ETIMEDOUT) == RepOfError(ECONNREFUSED) == 3
  {
    assert Pow2(6) == 64;
    CodeOfError(101);
    CodeOfError(113);
    CodeOfError(110);
    CodeOfError(111);
  }

  lemma AndBits(e: nat)
    ensures And(e, 101) != 0 <==> BitSet(e, 0) || BitSet(e, 2) || BitSet(e, 5) || BitSet(e, 6)
    ensures And(e, 113) != 0 <==> BitSet(e, 0) || BitSet(e, 4) || BitSet(e, 5) || BitSet(e, 6)
    ensures And(e, 110) != 0 <==> BitSet(e, 1) || BitSet(e, 2) || BitSet(e, 3) || BitSet(e, 5) || BitSet(e, 6)
    ensures And(e, 111) != 0 <==>
      BitSet(e, 0) || BitSet(e, 1) || BitSet(e, 2) || BitSet(e, 3) || BitSet(e, 5) || BitSet(e, 6)
  {
    SevenBits(e, 101);
    SevenBits(e, 113);
    SevenBits(e, 110);
    SevenBits(e, 111);
    BitsOf101();
    BitsOf113();
    BitsOf110();
    BitsOf111();
  }

  lemma BitsOf101()
    ensures BitSet(101, 0) && !BitSet(101, 1) && BitSet(101, 2) && !BitSet(101, 3) && !BitSet(101, 4) && BitSet(101, 5) && BitSet(101, 6)
  {
  }

  lemma BitsOf113()
    ensures BitSet(113, 0) && !BitSet(113, 1) && !BitSet(113, 2) && !BitSet(113, 3) && BitSet(113, 4) && BitSet(113, 5) && BitSet(113, 6)
  {
  }

  lemma BitsOf110()
    ensures !BitSet(110, 0) && BitSet(110, 1) && BitSet(110, 2) && BitSet(110, 3) && !BitSet(110, 4) && BitSet(110, 5) && BitSet(110, 6)
  {
  }

  lemma BitsOf111()
    ensures BitSet(111, 0) && BitSet(111, 1) && BitSet(111, 2) && BitSet(111, 3) && !BitSet(111, 4) && BitSet(111, 5) && BitSet(111, 6)
  {
  }

  predicate BothSet(x: nat, y: nat, k: nat) {
    BitSet(x, k) && BitSet(y, k)
  }

  lemma SevenBits(e: nat, y: nat)
    requires y < 128
    ensures And(e, y) != 0 <==>
      || BothSet(e, y, 0) || BothSet(e, y, 1) || BothSet(e, y, 2) || BothSet(e, y, 3)
      || BothSet(e, y, 4) || BothSet(e, y, 5) || BothSet(e, y, 6)
  {
    SmallPowers();
    CommonBit(e, y, 7);
  }

  lemma SmallPowers()
    ensures Pow2(0) == 1 && Pow2(1) == 2 && Pow2(2) == 4 && Pow2(3) == 8 && Pow2(4) == 16 && Pow2(5) == 32
    ensures Pow2(6) == 64 && Pow2(7) == 128
  {
  }

  lemma NextBit(x: nat, k: nat)
    ensures BitSet(x, k + 1) <==> BitSet(x / 2, k)
  {
    DivStep(x, k + 1);
  }

  /** Some bit below n is set in both. */
  ghost predicate Common(x: nat, y: nat, n: nat) {
    exists k: nat :: k < n && BothSet(x, y, k)
  }

  lemma CommonStep(x: nat, y: nat, n: nat)
    requires n > 0
    ensures Common(x, y, n) <==> (x % 2 == 1 && y % 2 == 1) || Common(x / 2, y / 2, n - 1)
  {
    assert BothSet(x, y, 0) <==> x % 2 == 1 && y % 2 == 1;
    if Common(x, y, n) {
      var k: nat :| k < n && BothSet(x, y, k);
      if k > 0 {
        NextBit(x, k - 1);
        NextBit(y, k - 1);
        assert BothSet(x / 2, y / 2, k - 1);
      }
    }
    if Common(x / 2, y / 2, n - 1) {
      var k: nat :| k < n - 1 && BothSet(x / 2, y / 2, k);
      NextBit(x, k);
      NextBit(y, k);
      assert BothSet(x, y, k + 1);
    }
  }

  /** And is zero exactly when no bit is set in both. */
  lemma {:induction false} CommonBit(x: nat, y: nat, n: nat)
    requires y < Pow2(n)
    ensures And(x, y) != 0 <==> Common(x, y, n)
  {
    if n > 0 {
      AndUnfold(x, y);
      CommonStep(x, y, n);
      CommonBit(x / 2, y / 2, n - 1);
    }
  }
}
