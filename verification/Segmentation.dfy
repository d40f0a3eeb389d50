/** How the client's bytes are cut into recv chunks does not matter. */
module Segmentation {
  import opened Wire
  import opened Firewall
  import opened Machine
  import opened Invariant

  function Join(chunks: seq<seq<byte>>): seq<byte> {
    if chunks == [] then [] else chunks[0] + Join(chunks[1..])
  }

  const READABLE := Event(true, false)

  /** Deliver chunks to the client's handler until the state changes; the rest stays unread. */
  function Feed(cfg: Configs, c: Conn, chunks: seq<seq<byte>>, env: Env): (Conn, seq<seq<byte>>)
    decreases |chunks|
  {
    if chunks == [] then (c, [])
    else
      var d := Step(cfg, c, Client, READABLE, env.(recv := Some(chunks[0])));
      if d.state != c.state then (d, chunks[1..]) else Feed(cfg, d, chunks[1..], env)
  }

  /** Every chunk is one that recv could return when its turn comes. */
  predicate Receivable(cfg: Configs, c: Conn, chunks: seq<seq<byte>>, env: Env)
    decreases |chunks|
  {
    chunks != [] ==>
      var e := env.(recv := Some(chunks[0]));
      && EnvOk(c, e)
      && var d := Step(cfg, c, Client, READABLE, e);
         d.state != c.state || Receivable(cfg, d, chunks[1..], env)
  }

  // ---- The method request

  datatype Greeting = Incomplete | WrongVersion | Chosen(meth: byte, length: nat)

  /** What a stream, read as a method request, asks for. */
  function ReadGreeting(cfg: Configs, stream: seq<byte>): Greeting {
    if |stream| < 2 || |stream| < 2 + stream[1] as int then Incomplete
    else if stream[0] != VERSION then WrongVersion
    else Chosen(Select(cfg, stream[2..2 + stream[1] as int]), 2 + stream[1] as int)
  }

  /** The selected method is the first configured one in the client's order. */
  lemma {:induction false} SelectFirst(cfg: Configs, offered: seq<byte>)
    ensures var m := Select(cfg, offered);
      || (m == METH_NOMETH && forall i :: 0 <= i < |offered| ==> !Configured(cfg, offered[i]))
      || exists i :: 0 <= i < |offered| && m == offered[i] && Configured(cfg, m)
           && forall j :: 0 <= j < i ==> !Configured(cfg, offered[j])
  {
    if offered != [] && !Configured(cfg, offered[0]) {
      SelectFirst(cfg, offered[1..]);
      if Select(cfg, offered) != METH_NOMETH {
        var i :| 0 <= i < |offered| - 1 && Select(cfg, offered) == offered[1..][i] && Configured(cfg, offered[1..][i])
          && forall j :: 0 <= j < i ==> !Configured(cfg, offered[1..][j]);
        assert offered[i + 1] == offered[1..][i];
        forall j | 0 <= j < i + 1
          ensures !Configured(cfg, offered[j])
        {
          if j > 0 { assert offered[j] == offered[1..][j - 1]; }
        }
      } else {
        forall i | 0 <= i < |offered|
          ensures !Configured(cfg, offered[i])
        {
          if i > 0 { assert offered[i] == offered[1..][i - 1]; }
        }
      }
    }
  }

  /** What the greeting handler did with the bytes of a stream. */
  ghost predicate GreetingDone(cfg: Configs, c: Conn, stream: seq<byte>, d: Conn, unread: seq<byte>) {
    match ReadGreeting(cfg, stream)
    case Incomplete => d == c.(serverOut := stream) && unread == []
    case WrongVersion => d.state == Closed && d.hist.toClient == [] && d.hist.clientFrees == 1
    case Chosen(m, n) =>
      && d.state == SendingMethod && d.info.meth == m && d.clientOut == [VERSION, m]
      && d.hist.offered == stream[2..n] && d.serverOut + unread == stream[n..]
  }

  /** The greeting handler's answer, for a ring that holds q and unread bytes `rest`. */
  lemma AnswerIsDone(cfg: Configs, c: Conn, rest: seq<byte>)
    requires Untouched(c) && Listening(c) && c.info == NO_INFO && c.hist.toClient == [] && c.hist.clientFrees == 0
    requires !ReadGreeting(cfg, c.serverOut).Incomplete?
    ensures GreetingDone(cfg, c, c.serverOut + rest, AnswerGreeting(cfg, c, Client), rest)
  {
    var q := c.serverOut;
    var n := 2 + q[1] as int;
    assert (q + rest)[2..n] == q[2..n];
    assert (q + rest)[n..] == q[n..] + rest;
  }

  /** One chunk handed to the greeting handler. */
  lemma GreetingStep(cfg: Configs, c: Conn, b: seq<byte>, rest: seq<byte>, env: Env)
    requires Inv(cfg, c) && c.state == WaitingMethods && EnvOk(c, env) && env.recv == Some(b)
    ensures var d := Step(cfg, c, Client, READABLE, env); var q := c.serverOut + b;
      if ReadGreeting(cfg, q).Incomplete? then d == c.(serverOut := q) && Inv(cfg, d)
      else d.state != WaitingMethods && GreetingDone(cfg, c, q + rest, d, rest)
  {
    var q := c.serverOut + b;
    assert Step(cfg, c, Client, READABLE, env) == AnswerGreeting(cfg, c.(serverOut := q), Client);
    if ReadGreeting(cfg, q).Incomplete? {
      AnswerGreetingInv(cfg, c.(serverOut := q));
    } else {
      AnswerIsDone(cfg, c.(serverOut := q), rest);
    }
  }

  /**
   * However the stream is cut, the greeting has the same outcome and leaves the same bytes, in
   * the ring or unread.
   */
  lemma {:induction false} GreetingSegmentation(cfg: Configs, c: Conn, chunks: seq<seq<byte>>, env: Env)
    requires Inv(cfg, c) && c.state == WaitingMethods && Receivable(cfg, c, chunks, env)
    ensures var (d, rest) := Feed(cfg, c, chunks, env);
      GreetingDone(cfg, c, c.serverOut + Join(chunks), d, Join(rest))
    decreases |chunks|
  {
    var stream := c.serverOut + Join(chunks);
    if chunks == [] {
      assert stream == c.serverOut;
    } else {
      var e := env.(recv := Some(chunks[0]));
      var q, rest := c.serverOut + chunks[0], Join(chunks[1..]);
      assert stream == q + rest;
      GreetingStep(cfg, c, chunks[0], rest, e);
      if ReadGreeting(cfg, q).Incomplete? {
        GreetingSegmentation(cfg, c.(serverOut := q), chunks[1..], env);
      }
    }
  }

  /** Two ways of cutting the same bytes select the same method and leave the same bytes. */
  lemma GreetingIndependent(cfg: Configs, fd: int, xs: seq<seq<byte>>, ys: seq<seq<byte>>, env: Env)
    requires fd >= 0 && Join(xs) == Join(ys)
    requires Receivable(cfg, Accepted(fd), xs, env) && Receivable(cfg, Accepted(fd), ys, env)
    ensures var (dx, restx) := Feed(cfg, Accepted(fd), xs, env); var (dy, resty) := Feed(cfg, Accepted(fd), ys, env);
      && dx.state == dy.state
      && (dx.state != Closed ==>
            && dx.info.meth == dy.info.meth && dx.clientOut == dy.clientOut
            && dx.serverOut + Join(restx) == dy.serverOut + Join(resty))
  {
    AcceptedInv(cfg, fd);
    GreetingSegmentation(cfg, Accepted(fd), xs, env);
    GreetingSegmentation(cfg, Accepted(fd), ys, env);
    assert [] + Join(xs) == Join(xs) && [] + Join(ys) == Join(ys);
  }

  // ---- The command request

  /** Decisions that agree, except that a name lookup may have missed the last byte of the port. */
  predicate SameDecision(d: Decision, e: Decision) {
    if d.Lookup? && e.Lookup? then
      && d.cmd == e.cmd && d.query.name == e.query.name
      && |d.query.port| == |e.query.port| == 2 && d.query.port[0] == e.query.port[0]
    else d == e
  }

  /** A decision once made is not changed by further bytes. */
  lemma DecisionStable(p: seq<byte>, more: seq<byte>, allowDomains: bool)
    requires !Parse(p, allowDomains).Pending?
    ensures SameDecision(Parse(p, allowDomains), Parse(p + more, allowDomains))
    ensures Parse(p, allowDomains).Lookup? && |p| >= 7 + p[4] as int ==>
      Parse(p, allowDomains) == Parse(p + more, allowDomains)
  {
    var s := p + more;
    assert forall i, j :: 0 <= i <= j <= |p| ==> s[i..j] == p[i..j];
  }

  /** The decision on a stream of which the handler peeks at most 300 bytes. */
  function Decide(cfg: Configs, stream: seq<byte>): Decision {
    Parse(Take(stream, LOCAL_BUFFER), cfg.allowDomains)
  }

  lemma DecideStable(cfg: Configs, p: seq<byte>, more: seq<byte>)
    requires !Decide(cfg, p).Pending?
    ensures SameDecision(Decide(cfg, p), Decide(cfg, p + more))
    ensures Decide(cfg, p).Lookup? && |p| >= 7 + p[4] as int ==> Decide(cfg, p) == Decide(cfg, p + more)
  {
    var a, b := Take(p, LOCAL_BUFFER), Take(p + more, LOCAL_BUFFER);
    assert b == a + b[|a|..];
    DecisionStable(a, b[|a|..], cfg.allowDomains);
  }

  /** The same state but for the input ring. */
  predicate SameButRing(c: Conn, d: Conn) {
    d == c.(serverOut := d.serverOut)
  }

  lemma HandshakeErrIgnoresRing(c: Conn, d: Conn, side: Side)
    requires SameButRing(c, d)
    ensures HandshakeErr(c, side) == HandshakeErr(d, side)
  {
  }

  lemma ReplyIgnoresRing(c: Conn, d: Conn, side: Side)
    requires SameButRing(c, d)
    ensures SameButRing(ReplyWithErr(c, side), ReplyWithErr(d, side))
  {
    var c1 := if c.info.rep < 1 || c.info.rep > 8 then SetRep(c, REP_GENFAIL) else c;
    var d1 := if d.info.rep < 1 || d.info.rep > 8 then SetRep(d, REP_GENFAIL) else d;
    assert SameButRing(c1, d1);
    HandshakeErrIgnoresRing(c1, d1, side);
  }

  lemma ConnectIgnoresRing(c: Conn, d: Conn, env: Env)
    requires SameButRing(c, d)
    ensures SameButRing(InitConnect(c, env), InitConnect(d, env))
  {
    if Requested(c.info).Some? && env.newFd != -1 && env.connected {
      assert InitConnect(c, env) == InitConnect(d, env);
    }
  }

  lemma OpenIgnoresRing(c: Conn, d: Conn, r: Reply)
    requires SameButRing(c, d)
    ensures OpenSocket(c, r) == OpenSocket(d, r)
  {
  }

  lemma BindIgnoresRing(cfg: Configs, c: Conn, d: Conn, env: Env)
    requires SameButRing(c, d)
    ensures SameButRing(InitBind(cfg, c, env), InitBind(cfg, d, env))
  {
    match BindOpening(cfg, c.info, env)
    case Announce(r) =>
      var h := c.hist.(bound := env.sockname);
      OpenIgnoresRing(c.(serverLive := true, serverFd := env.newFd, hist := h),
                      d.(serverLive := true, serverFd := env.newFd, hist := h), r);
    case _ =>
  }

  lemma UdpaIgnoresRing(cfg: Configs, c: Conn, d: Conn, env: Env)
    requires SameButRing(c, d)
    ensures SameButRing(InitUdpa(cfg, c, env), InitUdpa(cfg, d, env))
  {
    match UdpaOpening(cfg, c.info, env)
    case Announce(r) =>
      OpenIgnoresRing(c.(serverLive := true, serverFd := env.newFd), d.(serverLive := true, serverFd := env.newFd), r);
    case _ =>
  }

  lemma RunCommandIgnoresRing(cfg: Configs, c: Conn, d: Conn, env: Env)
    requires SameButRing(c, d)
    ensures SameButRing(RunCommand(cfg, c, Client, env), RunCommand(cfg, d, Client, env))
  {
    ConnectIgnoresRing(c, d, env);
    BindIgnoresRing(cfg, c, d, env);
    UdpaIgnoresRing(cfg, c, d, env);
    ReplyIgnoresRing(SetRep(c, REP_BADCOMM), SetRep(d, REP_BADCOMM), Client);
    ReplyIgnoresRing(InitCommand(cfg, c, Client, env), InitCommand(cfg, d, Client, env), Client);
  }

  /** The outcome of a decision does not depend on what else the input ring holds. */
  lemma ActIgnoresRing(cfg: Configs, c: Conn, ring: seq<byte>, d: Decision, env: Env)
    ensures SameButRing(Act(cfg, c, Client, d, env), Act(cfg, c.(serverOut := ring), Client, d, env))
  {
    var c' := c.(serverOut := ring);
    match d
    case Literal(cmd, target) =>
      var c1 := c.(info := c.info.(cmd := cmd, atyp := Atyp(target.family), sa := Some(target)));
      ReplyIgnoresRing(SetRep(c1, REP_RULESET), SetRep(c1.(serverOut := ring), REP_RULESET), Client);
      RunCommandIgnoresRing(cfg, c1, c1.(serverOut := ring), env);
    case BadAddressType => ReplyIgnoresRing(SetRep(c, REP_BADATYP), SetRep(c', REP_BADATYP), Client);
    case _ =>
  }

  lemma RunCommandIgnoresRecv(cfg: Configs, c: Conn, env: Env, r: Option<seq<byte>>)
    ensures RunCommand(cfg, c, Client, env.(recv := r)) == RunCommand(cfg, c, Client, env)
  {
    var e := env.(recv := r);
    assert BindOpening(cfg, c.info, e) == BindOpening(cfg, c.info, env);
    assert UdpaOpening(cfg, c.info, e) == UdpaOpening(cfg, c.info, env);
    assert InitConnect(c, e) == InitConnect(c, env);
    assert InitCommand(cfg, c, Client, e) == InitCommand(cfg, c, Client, env);
  }

  lemma ActIgnoresRecv(cfg: Configs, c: Conn, d: Decision, env: Env, r: Option<seq<byte>>)
    ensures Act(cfg, c, Client, d, env.(recv := r)) == Act(cfg, c, Client, d, env)
  {
    if d.Literal? {
      RunCommandIgnoresRecv(cfg, c.(info := c.info.(cmd := d.cmd, atyp := Atyp(d.target.family), sa := Some(d.target))), env, r);
    }
  }

  /**
   * However a request is cut, the handler reaches the decision that the whole stream denotes
   * (up to the last port byte of a name) and carries it out; an undecided request just waits.
   * There must be at least one chunk: bytes read ahead are looked at when more arrive.
   */
  lemma {:induction false} CommandSegmentation(cfg: Configs, c: Conn, chunks: seq<seq<byte>>, env: Env)
    returns (e: Decision)
    requires Inv(cfg, c) && c.state == WaitingCommand && chunks != [] && Receivable(cfg, c, chunks, env)
    ensures SameDecision(e, Decide(cfg, c.serverOut + Join(chunks)))
    ensures e.Pending? ==> Feed(cfg, c, chunks, env) == (c.(serverOut := c.serverOut + Join(chunks)), [])
    ensures !e.Pending? ==> SameButRing(Act(cfg, c, Client, e, env), Feed(cfg, c, chunks, env).0)
    decreases |chunks|
  {
    var stream := c.serverOut + Join(chunks);
    var env' := env.(recv := Some(chunks[0]));
    var q, rest := c.serverOut + chunks[0], Join(chunks[1..]);
    assert stream == q + rest;
    e := Decide(cfg, q);
    CommandStep(cfg, c, chunks[0], env, env');
    if !e.Pending? {
      DecideStable(cfg, q, rest);
    } else if chunks[1..] == [] {
      assert stream == q;
    } else {
      var c1 := c.(serverOut := q);
      e := CommandSegmentation(cfg, c1, chunks[1..], env);
      ActIgnoresRing(cfg, c, q, e, env);
    }
  }

  /** One chunk handed to the command handler. */
  lemma CommandStep(cfg: Configs, c: Conn, b: seq<byte>, env: Env, env': Env)
    requires Inv(cfg, c) && c.state == WaitingCommand && env' == env.(recv := Some(b)) && EnvOk(c, env')
    ensures var d := Step(cfg, c, Client, READABLE, env'); var q := c.serverOut + b; var e := Decide(cfg, q);
      if e.Pending? then d == c.(serverOut := q) && Inv(cfg, d)
      else d.state != WaitingCommand && SameButRing(Act(cfg, c, Client, e, env), d)
  {
    var q := c.serverOut + b;
    var c1, e := c.(serverOut := q), Decide(cfg, q);
    KeepCommand(cfg, c, Client, READABLE, env');
    if !e.Pending? {
      LookupNeedsDomains(Take(q, LOCAL_BUFFER), cfg.allowDomains);
      DecisionMovesOn(cfg, c1, e, env');
      ActIgnoresRecv(cfg, c1, e, env, env'.recv);
      ActIgnoresRing(cfg, c, q, e, env);
    }
  }

  lemma DecisionMovesOn(cfg: Configs, c: Conn, d: Decision, env: Env)
    requires Deciding(cfg, c) && NewFdOk(c, env) && !d.Pending? && (d.Lookup? ==> cfg.allowDomains)
    ensures Act(cfg, c, Client, d, env).state != WaitingCommand
  {
    match d
    case Lookup(_, _) =>
    case BadVersion(_, _) =>
    case BadAddressType => ReplyWithErrInv(cfg, SetRep(c, REP_BADATYP), Client, 0);
    case Literal(cmd, target) =>
      var c1 := c.(info := c.info.(cmd := cmd, atyp := Atyp(target.family), sa := Some(target)));
      if Drops(cmd, c1.info.sa, c1.info.ai, cfg.blocks) {
        ReplyWithErrInv(cfg, SetRep(c1, REP_RULESET), Client, 0);
      } else {
        RunCommandInv(cfg, c1, env);
      }
  }

  // ---- The last byte of a name request

  /** Some chunk, arriving after `have` bytes, ends exactly at byte `at` of the stream. */
  predicate CutAt(have: nat, chunks: seq<seq<byte>>, at: nat)
    decreases |chunks|
  {
    chunks != [] && (have + |chunks[0]| == at || CutAt(have + |chunks[0]|, chunks[1..], at))
  }

  lemma {:induction false} NoCutBehind(have: nat, chunks: seq<seq<byte>>, at: nat)
    requires have > at
    ensures !CutAt(have, chunks, at)
    decreases |chunks|
  {
    if chunks != [] { NoCutBehind(have + |chunks[0]|, chunks[1..], at); }
  }

  /** Where the last port byte of a name request lies. */
  function LastByteAt(stream: seq<byte>): nat
    requires |stream| > 4
  {
    6 + stream[4] as int
  }

  /** The last port byte, zero when it never arrives. */
  function LastByte(stream: seq<byte>): byte
    requires |stream| > 4
  {
    if |stream| > LastByteAt(stream) then stream[LastByteAt(stream)] else 0
  }

  /** The lookup that is asked for: without its last port byte when a chunk ends just before it. */
  function AskedFor(d: Decision, cut: bool): Decision
    requires d.Lookup? && |d.query.port| == 2
  {
    if cut then d.(query := d.query.(port := [d.query.port[0], 0])) else d
  }

  /** What a prefix of a name request is decided as. */
  lemma PrefixDecision(p: seq<byte>, stream: seq<byte>, allowDomains: bool)
    requires p <= stream && Parse(stream, allowDomains).Lookup?
    ensures var d := Parse(stream, allowDomains); var at := LastByteAt(stream);
      && |d.query.port| == 2 && d.query.port[1] == LastByte(stream)
      && Parse(p, allowDomains) == if |p| < at then Pending else AskedFor(d, |p| == at)
  {
    assert forall i, j :: 0 <= i <= j <= |p| ==> stream[i..j] == p[i..j];
  }

  lemma PrefixDecide(cfg: Configs, p: seq<byte>, stream: seq<byte>)
    requires p <= stream && Decide(cfg, stream).Lookup?
    ensures var d := Decide(cfg, stream);
      && |stream| > 4 && |d.query.port| == 2 && d.query.port[1] == LastByte(stream)
      && Decide(cfg, p) == if |p| < LastByteAt(stream) then Pending else AskedFor(d, |p| == LastByteAt(stream))
  {
    PrefixDecision(Take(p, LOCAL_BUFFER), Take(stream, LOCAL_BUFFER), cfg.allowDomains);
  }

  lemma AskingIgnoresRing(cfg: Configs, c: Conn, ring: seq<byte>, d: Decision, env: Env, e: Conn)
    requires d.Lookup? && SameButRing(Act(cfg, c.(serverOut := ring), Client, d, env), e)
    ensures SameButRing(Act(cfg, c, Client, d, env), e)
  {
  }

  /**
   * However a name request is cut, the handler asks for the name and port sent, except that the
   * last port byte reads as zero if and only if a chunk ends just before it.
   */
  lemma {:induction false} NameSegmentation(cfg: Configs, c: Conn, chunks: seq<seq<byte>>, env: Env)
    requires Inv(cfg, c) && c.state == WaitingCommand && chunks != [] && Receivable(cfg, c, chunks, env)
    requires Decide(cfg, c.serverOut + Join(chunks)).Lookup?
    ensures var stream := c.serverOut + Join(chunks); var d := Decide(cfg, stream);
      && |stream| > 4 && |d.query.port| == 2 && d.query.port[1] == LastByte(stream)
      && var e := AskedFor(d, CutAt(|c.serverOut|, chunks, LastByteAt(stream)));
         SameButRing(Act(cfg, c, Client, e, env), Feed(cfg, c, chunks, env).0)
    decreases |chunks|
  {
    var stream := c.serverOut + Join(chunks);
    var q, rest := c.serverOut + chunks[0], chunks[1..];
    assert stream == q + Join(rest);
    if rest == [] { assert stream == q; }
    NameStep(cfg, c, chunks[0], stream, env);
    if |q| < LastByteAt(stream) {
      NameSegmentation(cfg, c.(serverOut := q), rest, env);
      var e := AskedFor(Decide(cfg, stream), CutAt(|q|, rest, LastByteAt(stream)));
      AskingIgnoresRing(cfg, c, q, e, env, Feed(cfg, c, chunks, env).0);
    } else if |q| > LastByteAt(stream) {
      NoCutBehind(|q|, rest, LastByteAt(stream));
    }
  }

  /** One chunk of a name request. */
  lemma NameStep(cfg: Configs, c: Conn, b: seq<byte>, stream: seq<byte>, env: Env)
    requires Inv(cfg, c) && c.state == WaitingCommand && EnvOk(c, env.(recv := Some(b)))
    requires c.serverOut + b <= stream && Decide(cfg, stream).Lookup?
    ensures var d := Decide(cfg, stream); |stream| > 4 && |d.query.port| == 2 && d.query.port[1] == LastByte(stream)
    ensures var q := c.serverOut + b; var d := Step(cfg, c, Client, READABLE, env.(recv := Some(b)));
      if |q| < LastByteAt(stream) then q != stream && d == c.(serverOut := q) && Inv(cfg, d)
      else
        && d.state != WaitingCommand
        && SameButRing(Act(cfg, c, Client, AskedFor(Decide(cfg, stream), |q| == LastByteAt(stream)), env), d)
  {
    CommandStep(cfg, c, b, env, env.(recv := Some(b)));
    PrefixDecide(cfg, c.serverOut + b, stream);
  }

  /** Just one of the two cuts falls before the last port byte of a name request, which is not zero. */
  predicate CutsMatter(cfg: Configs, have: nat, stream: seq<byte>, xs: seq<seq<byte>>, ys: seq<seq<byte>>) {
    && Decide(cfg, stream).Lookup? && |stream| > 4 && LastByte(stream) != 0
    && CutAt(have, xs, LastByteAt(stream)) != CutAt(have, ys, LastByteAt(stream))
  }

  /** Different lookups leave different histories. */
  lemma SameLookupIff(cfg: Configs, c: Conn, d: Decision, e: Decision, env: Env, x: Conn, y: Conn)
    requires d.Lookup? && e.Lookup? && d.cmd == e.cmd
    requires SameButRing(Act(cfg, c, Client, d, env), x) && SameButRing(Act(cfg, c, Client, e, env), y)
    ensures SameButRing(x, y) <==> d.query == e.query
  {
    assert (c.hist.lookups + [d.query])[|c.hist.lookups|] == d.query;
    assert (c.hist.lookups + [e.query])[|c.hist.lookups|] == e.query;
  }

  /**
   * Two ways of cutting a request leave the same connection, apart from unread bytes, unless it
   * is a name request whose last port byte is not zero and just one of the cuts falls before it.
   */
  lemma CommandIndependent(cfg: Configs, c: Conn, xs: seq<seq<byte>>, ys: seq<seq<byte>>, env: Env)
    requires Inv(cfg, c) && c.state == WaitingCommand && xs != [] && ys != [] && Join(xs) == Join(ys)
    requires Receivable(cfg, c, xs, env) && Receivable(cfg, c, ys, env)
    ensures SameButRing(Feed(cfg, c, xs, env).0, Feed(cfg, c, ys, env).0) <==>
      !CutsMatter(cfg, |c.serverOut|, c.serverOut + Join(xs), xs, ys)
  {
    var stream := c.serverOut + Join(xs);
    var d := Decide(cfg, stream);
    if d.Lookup? {
      NameSegmentation(cfg, c, xs, env);
      NameSegmentation(cfg, c, ys, env);
      var ex := AskedFor(d, CutAt(|c.serverOut|, xs, LastByteAt(stream)));
      var ey := AskedFor(d, CutAt(|c.serverOut|, ys, LastByteAt(stream)));
      SameLookupIff(cfg, c, ex, ey, env, Feed(cfg, c, xs, env).0, Feed(cfg, c, ys, env).0);
      assert d.query.port == [d.query.port[0], d.query.port[1]];
    } else {
      OthersIndependent(cfg, c, xs, ys, env);
    }
  }

  lemma OthersIndependent(cfg: Configs, c: Conn, xs: seq<seq<byte>>, ys: seq<seq<byte>>, env: Env)
    requires Inv(cfg, c) && c.state == WaitingCommand && xs != [] && ys != [] && Join(xs) == Join(ys)
    requires Receivable(cfg, c, xs, env) && Receivable(cfg, c, ys, env)
    requires !Decide(cfg, c.serverOut + Join(xs)).Lookup?
    ensures SameButRing(Feed(cfg, c, xs, env).0, Feed(cfg, c, ys, env).0)
  {
    var _ := CommandSegmentation(cfg, c, xs, env);
    var _ := CommandSegmentation(cfg, c, ys, env);
  }

  // ---- Requests as section 4 of RFC 1928 lays them out

  function EncodeRequest(cmd: byte, rsv: byte, target: SockAddr): seq<byte> {
    [VERSION, cmd, rsv, Atyp(target.family)] + target.addr + target.port
  }

  function EncodeNameRequest(cmd: byte, rsv: byte, query: Query): seq<byte>
    requires |query.name| < 256
  {
    [VERSION, cmd, rsv, ATYP_DOMN, |query.name|] + query.name + query.port
  }

  /** A stream is decided as a literal request exactly when it starts with that request. */
  lemma LiteralRoundTrip(s: seq<byte>, allowDomains: bool, cmd: byte, target: SockAddr)
    ensures Parse(s, allowDomains) == Literal(cmd, target) <==>
      |s| > 2 && EncodeRequest(cmd, s[2], target) <= s
  {
    var n := AddrLen(target.family);
    if |s| > 2 && EncodeRequest(cmd, s[2], target) <= s {
      var r := EncodeRequest(cmd, s[2], target);
      assert s[..|r|] == r;
      assert s[4..4 + n] == r[4..4 + n] == target.addr;
      assert s[4 + n..6 + n] == r[4 + n..6 + n] == target.port;
    }
    if Parse(s, allowDomains) == Literal(cmd, target) {
      assert s[..6 + n] == [s[0], s[1], s[2], s[3]] + s[4..4 + n] + s[4 + n..6 + n];
    }
  }

  /** A name request that arrived in full is looked up as sent. */
  lemma NameRoundTrip(cmd: byte, rsv: byte, query: Query, more: seq<byte>)
    requires |query.name| < 256 && |query.port| == 2
    ensures Parse(EncodeNameRequest(cmd, rsv, query) + more, true) == Lookup(cmd, query)
  {
    var n := |query.name|;
    var s := EncodeNameRequest(cmd, rsv, query) + more;
    assert s[5..5 + n] == query.name;
    assert s[5 + n] == query.port[0] && s[6 + n] == query.port[1];
    assert query.port == [query.port[0], query.port[1]];
  }

  /**
   * The handler does not wait for the last byte of a name request: when only that byte is
   * missing, the lookup already starts, and its port is right exactly when that byte is zero.
   */
  lemma NameWithoutLastByte(cmd: byte, rsv: byte, query: Query)
    requires |query.name| < 256 && |query.port| == 2
    ensures var s := EncodeNameRequest(cmd, rsv, query);
      var d := Parse(s[..|s| - 1], true);
      && d == Lookup(cmd, Query(query.name, [query.port[0], 0]))
      && (d == Parse(s, true) <==> query.port[1] == 0)
  {
    var n := |query.name|;
    var s := EncodeNameRequest(cmd, rsv, query);
    var p := s[..|s| - 1];
    assert s[5..5 + n] == query.name && p[5..5 + n] == query.name;
    assert s[5 + n] == query.port[0] == p[5 + n] && s[6 + n] == query.port[1];
    NameRoundTrip(cmd, rsv, query, []);
    assert s + [] == s;
    assert query.port[1] == 0 ==> query.port == [query.port[0], 0];
  }

  /** A concrete request, port 443 on host "a", that is looked up with port 256 when cut before its end. */
  lemma PortLostExample()
    ensures var s := EncodeNameRequest(CMD_CONN, 0, Query([97], [1, 187]));
      && Parse(s, true) == Lookup(CMD_CONN, Query([97], [1, 187]))
      && Parse(s[..7], true) == Lookup(CMD_CONN, Query([97], [1, 0]))
  {
    var q := Query([97], [1, 187]);
    NameWithoutLastByte(CMD_CONN, 0, q);
    NameRoundTrip(CMD_CONN, 0, q, []);
    assert EncodeNameRequest(CMD_CONN, 0, q) + [] == EncodeNameRequest(CMD_CONN, 0, q);
  }
}
