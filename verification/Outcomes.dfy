/**
 * What each step leads to, in terms of its inputs: the next state, the bytes sent and queued, the
 * reply codes, the addresses contacted.
 */
module Outcomes {
  import opened Wire
  import opened Firewall
  import opened Machine
  import opened Invariant
  import opened Replies
  import opened Segmentation

  // ---- Closing

  /** The client's side is gone, freed once and with Info; the server's side is as before. */
  ghost predicate TornDown(c: Conn, d: Conn) {
    && d.state == Closed && !d.clientLive && d.clientMask == Unregistered && !d.infoLive
    && d.hist.clientFrees == 1 && d.serverLive == c.serverLive && d.serverMask == c.serverMask
    && d.hist.serverFrees == c.hist.serverFrees && d.hist.sharedFrees == (if c.serverLive then 0 else 1)
    && d.hist.replies == c.hist.replies
  }

  /** A failed or empty read during the handshake closes the connection. */
  lemma ReadErrorCloses(cfg: Configs, c: Conn, ev: Event, env: Env)
    requires Inv(cfg, c) && c.state in {WaitingMethods, WaitingCommand} && ev.input && env.recv.None?
    ensures TornDown(c, Step(cfg, c, Client, ev, env))
  {
  }

  /** In CLOSED, an event on a side frees that side and nothing else. */
  lemma ClosedFreesSide(cfg: Configs, c: Conn, side: Side, ev: Event, env: Env)
    requires Inv(cfg, c) && c.state == Closed && Live(c, side)
    ensures var d := Step(cfg, c, side, ev, env);
      && !Live(d, side) && !Watched(d, side) && d.state == Closed && !d.infoLive
      && (if side.Client? then
            && d.hist.clientFrees == 1
            && d.serverLive == c.serverLive && d.serverMask == c.serverMask && d.hist.serverFrees == c.hist.serverFrees
          else
            && d.hist.serverFrees == 1
            && d.clientLive == c.clientLive && d.clientMask == c.clientMask && d.hist.clientFrees == c.hist.clientFrees)
      && d.hist.sharedFrees == (if d.clientLive || d.serverLive then 0 else 1)
  {
  }

  /** Any event ends a half-closed connection, without draining its rings. */
  lemma HalfCloseEnds(cfg: Configs, c: Conn, side: Side, ev: Event, env: Env)
    requires c.state == HalfClose
    ensures Step(cfg, c, side, ev, env) == c.(state := Closed)
  {
  }

  // ---- Sending to the client during the handshake

  /** A send that takes k bytes, but not all, moves exactly those to the client. */
  lemma PartialSend(cfg: Configs, c: Conn, ev: Event, env: Env, k: nat)
    requires Inv(cfg, c) && c.state in {SendingMethod, SendingReply, SendingReply2} && ev.output
    requires env.sent == Some(k) && k < |c.clientOut|
    ensures Step(cfg, c, Client, ev, env) ==
      c.(clientOut := c.clientOut[k..], hist := c.hist.(toClient := c.hist.toClient + c.clientOut[..k]))
  {
  }

  lemma SendErrorCloses(cfg: Configs, c: Conn, ev: Event, env: Env)
    requires Inv(cfg, c) && c.state in {SendingMethod, SendingReply, SendingReply2} && ev.output && env.sent.None?
    ensures var d := Step(cfg, c, Client, ev, env);
      TornDown(c, d) && d.hist.sendFailed && d.hist.toClient == c.hist.toClient
  {
  }

  /** All queued bytes have gone to the client, who is watched for input again. */
  function AllSent(c: Conn): Conn {
    c.(clientOut := [], clientMask := IN_ONLY, hist := c.hist.(toClient := c.hist.toClient + c.clientOut))
  }

  /** After the method reply: the command when method 0 was selected, otherwise the end. */
  lemma MethodReplySent(cfg: Configs, c: Conn, ev: Event, env: Env, k: nat)
    requires Inv(cfg, c) && c.state == SendingMethod && ev.output && env.sent == Some(k) && k >= |c.clientOut|
    ensures var d := Step(cfg, c, Client, ev, env);
      if c.info.meth == 0 then d == AllSent(c).(state := WaitingCommand)
      else TornDown(c, d) && !d.hist.sendFailed && d.hist.toClient == c.hist.toClient + c.clientOut
  {
  }

  /**
   * After a reply: a failure ends the connection; an announced CONNECT relays, an announced BIND
   * waits for its peer, an announced UDP ASSOCIATE becomes a relay.
   */
  lemma ReplyFullySent(cfg: Configs, c: Conn, ev: Event, env: Env, k: nat)
    requires Inv(cfg, c) && c.state == SendingReply && ev.output && env.sent == Some(k) && k >= |c.clientOut|
    ensures var d := Step(cfg, c, Client, ev, env);
      if c.info.rep == 0 then
        && d.clientLive && d.serverLive && d.clientOut == [] && c.info.cmd in {1, 2, 3}
        && d == if c.info.cmd == 1 then AllSent(c).(state := Full)
                else if c.info.cmd == 2 then AllSent(c).(state := BindListening, info := c.info.(rep := UNSET))
                else AllSent(c).(state := FullUdpa)
      else TornDown(c, d) && !d.hist.sendFailed && d.hist.toClient == c.hist.toClient + c.clientOut
  {
    SendMoves(c, LOCAL_BUFFER, k);
    assert Step(cfg, c, Client, ev, env) == ReplySent(Drained(c), Client);
  }

  /** After the second reply of a BIND the connection relays. */
  lemma SecondReplySent(cfg: Configs, c: Conn, ev: Event, env: Env, k: nat)
    requires Inv(cfg, c) && c.state == SendingReply2 && ev.output && env.sent == Some(k) && k >= |c.clientOut|
    ensures var d := Step(cfg, c, Client, ev, env);
      d.clientLive && d.serverLive && d.clientOut == [] && d == AllSent(c).(state := Full)
  {
    SendMoves(c, LOCAL_BUFFER, k);
    assert Step(cfg, c, Client, ev, env) == ReplySent(Drained(c), Client);
  }

  // ---- Starting a command

  /** The destination: the literal address, else the first resolved one. */
  ghost predicate Destination(info: Info, target: SockAddr) {
    match info.sa
    case Some(a) => a == target
    case None => info.ai.Cons? && info.ai.head == target
  }

  /** `a` is the first address of this family in the list. */
  ghost predicate FirstWith(addrs: seq<SockAddr>, af: Family, a: SockAddr) {
    exists k :: 0 <= k < |addrs| && addrs[k] == a && a.family == af && forall j :: 0 <= j < k ==> addrs[j].family != af
  }

  ghost predicate NoneWith(addrs: seq<SockAddr>, af: Family) {
    forall k :: 0 <= k < |addrs| ==> addrs[k].family != af
  }

  lemma {:induction false} FirstOfIsFirst(addrs: List<SockAddr>, af: Family)
    ensures FirstOf(addrs, af).None? <==> NoneWith(Elements(addrs), af)
    ensures FirstOf(addrs, af).Some? ==> FirstWith(Elements(addrs), af, FirstOf(addrs, af).value)
  {
    if addrs.Cons? {
      FirstOfIsFirst(addrs.tail, af);
      var t := Elements(addrs.tail);
      assert Elements(addrs) == [addrs.head] + t;
      if addrs.head.family == af {
        assert ([addrs.head] + t)[0] == addrs.head;
      } else {
        NoneWithCons(addrs.head, t, af);
        if FirstOf(addrs, af).Some? { FirstWithCons(addrs.head, t, af, FirstOf(addrs, af).value); }
      }
    }
  }

  lemma NoneWithCons(head: SockAddr, t: seq<SockAddr>, af: Family)
    requires head.family != af
    ensures NoneWith([head] + t, af) <==> NoneWith(t, af)
  {
    assert forall k :: 0 <= k < |t| ==> ([head] + t)[k + 1] == t[k];
  }

  lemma FirstWithCons(head: SockAddr, t: seq<SockAddr>, af: Family, a: SockAddr)
    requires head.family != af && FirstWith(t, af, a)
    ensures FirstWith([head] + t, af, a)
  {
    var l := [head] + t;
    var k :| 0 <= k < |t| && t[k] == a && a.family == af && forall j :: 0 <= j < k ==> t[j].family != af;
    assert l[k + 1] == a;
    assert forall j :: 0 <= j < k + 1 ==> l[j] == (if j == 0 then head else t[j - 1]);
  }

  lemma FirstIsUnique(addrs: seq<SockAddr>, af: Family, a: SockAddr, b: SockAddr)
    requires FirstWith(addrs, af, a) && FirstWith(addrs, af, b)
    ensures a == b
  {
  }

  /** CONNECT: the attempt on the destination is under way. */
  lemma ConnectStarts(cfg: Configs, c: Conn, target: SockAddr, env: Env)
    requires Startable(cfg, c) && NewFdOk(c, env) && c.info.cmd == 1 && cfg.allowConnect && Destination(c.info, target)
    requires env.newFd != -1 && env.connected
    ensures RunCommand(cfg, c, Client, env) ==
      c.(state := Connecting, serverLive := true, serverFd := env.newFd, serverOut := [], serverMask := OUT_ONLY,
         hist := c.hist.(tried := [target]))
  {
  }

  /** CONNECT: without a socket, or when connect() fails at once, code 1. */
  lemma ConnectRefused(cfg: Configs, c: Conn, target: SockAddr, env: Env)
    requires Startable(cfg, c) && NewFdOk(c, env) && c.info.cmd == 1 && cfg.allowConnect && Destination(c.info, target)
    requires env.newFd == -1 || !env.connected
    ensures RunCommand(cfg, c, Client, env) ==
      Failed(c.(hist := c.hist.(tried := if env.newFd == -1 then [] else [target])), 1)
  {
    var d := InitConnect(c, env);
    ReplyWithErrEffect(d, Client);
  }

  /** BIND: the listener is announced with the first advertised address and the port really bound. */
  lemma BindAnnounces(cfg: Configs, c: Conn, target: SockAddr, adv: SockAddr, s: SockAddr, env: Env)
    requires Startable(cfg, c) && NewFdOk(c, env) && c.info.cmd == 2 && cfg.allowBind && Destination(c.info, target)
    requires env.newFd != -1 && env.bound && env.listening && env.sockname == Some(s)
    requires !NoneWith(Elements(cfg.bindListen), target.family)
    requires FirstWith(Elements(cfg.bindAdvertise), target.family, adv)
    ensures var r := Reply(0, SockAddr(target.family, adv.addr, s.port));
      RunCommand(cfg, c, Client, env) ==
        c.(state := SendingReply, serverLive := true, serverFd := env.newFd, serverOut := [], serverMask := IN_ONLY,
           clientOut := Encode(r), clientMask := IN_OUT, info := c.info.(rep := 0),
           hist := c.hist.(replies := [r], bound := Some(s)))
  {
    FirstOfIsFirst(cfg.bindListen, target.family);
    FirstOfIsFirst(cfg.bindAdvertise, target.family);
    FirstIsUnique(Elements(cfg.bindAdvertise), target.family, adv, FirstOf(cfg.bindAdvertise, target.family).value);
    var r := Reply(REP_SUCCESS, WithPort(adv, s));
    QueueReplyAppends(SetRep(c.(serverLive := true, serverFd := env.newFd, hist := c.hist.(bound := Some(s))), REP_SUCCESS), r);
    assert InitBind(cfg, c, env) == Opened(c, env.newFd, r, Some(s));
  }

  /** The code a BIND is refused with: 8 without an address of the family, 1 for a failed call. */
  function BindCode(socket: bool, addresses: bool): byte {
    if socket && !addresses then 8 else 1
  }

  /** BIND: every way to be refused. */
  lemma BindRefused(cfg: Configs, c: Conn, target: SockAddr, env: Env)
    requires Startable(cfg, c) && NewFdOk(c, env) && c.info.cmd == 2 && cfg.allowBind && Destination(c.info, target)
    ensures var d := RunCommand(cfg, c, Client, env);
      var addresses := !NoneWith(Elements(cfg.bindListen), target.family) && !NoneWith(Elements(cfg.bindAdvertise), target.family);
      && (env.newFd == -1 || !addresses || !env.bound || !env.listening ==>
            d == Failed(c, BindCode(env.newFd != -1, addresses)))
      && (env.newFd != -1 && addresses && env.bound && env.listening && env.sockname.None? ==>
            d == Failed(c.(serverLive := true, serverFd := env.newFd), 1))
  {
    FirstOfIsFirst(cfg.bindListen, target.family);
    FirstOfIsFirst(cfg.bindAdvertise, target.family);
    var d := InitBind(cfg, c, env);
    if 1 <= d.info.rep <= 8 { ReplyWithErrEffect(d, Client); }
  }

  /** UDP ASSOCIATE: the relay socket is announced. */
  lemma UdpaAnnounces(cfg: Configs, c: Conn, target: SockAddr, env: Env)
    requires Startable(cfg, c) && NewFdOk(c, env) && c.info.cmd == 3 && cfg.allowUdpAssoc && Destination(c.info, target)
    requires env.newFd != -1 && env.bound
    requires !NoneWith(Elements(cfg.udpaListen), target.family) && !NoneWith(Elements(cfg.udpaAdvertise), target.family)
    ensures var r := Reply(0, env.udpaShown);
      RunCommand(cfg, c, Client, env) ==
        c.(state := SendingReply, serverLive := true, serverFd := env.newFd, serverOut := [], serverMask := IN_ONLY,
           clientOut := Encode(r), clientMask := IN_OUT, info := c.info.(rep := 0), hist := c.hist.(replies := [r]))
  {
    FirstOfIsFirst(cfg.udpaListen, target.family);
    FirstOfIsFirst(cfg.udpaAdvertise, target.family);
    var r := Reply(REP_SUCCESS, env.udpaShown);
    QueueReplyAppends(SetRep(c.(serverLive := true, serverFd := env.newFd), REP_SUCCESS), r);
    assert InitUdpa(cfg, c, env) == Opened(c, env.newFd, r, c.hist.bound);
  }

  lemma UdpaRefused(cfg: Configs, c: Conn, target: SockAddr, env: Env)
    requires Startable(cfg, c) && NewFdOk(c, env) && c.info.cmd == 3 && cfg.allowUdpAssoc && Destination(c.info, target)
    ensures var addresses := !NoneWith(Elements(cfg.udpaListen), target.family) && !NoneWith(Elements(cfg.udpaAdvertise), target.family);
      env.newFd == -1 || !addresses || !env.bound ==>
        RunCommand(cfg, c, Client, env) == Failed(c, BindCode(env.newFd != -1, addresses))
  {
    FirstOfIsFirst(cfg.udpaListen, target.family);
    FirstOfIsFirst(cfg.udpaAdvertise, target.family);
    var d := InitUdpa(cfg, c, env);
    if 1 <= d.info.rep <= 8 { ReplyWithErrEffect(d, Client); }
  }

  /** A command that is unknown or not enabled: code 7, twice. */
  lemma DisabledCommand(cfg: Configs, c: Conn, env: Env)
    requires Startable(cfg, c)
    requires !(c.info.cmd == 1 && cfg.allowConnect) && !(c.info.cmd == 2 && cfg.allowBind) && !(c.info.cmd == 3 && cfg.allowUdpAssoc)
    ensures RunCommand(cfg, c, Client, env) == Failed(Failed(c, 7), 7)
  {
    DisabledRefusedTwice(cfg, c, env);
  }

  // ---- Requests as they arrive

  /** An undecided request is one of which too few bytes arrived. */
  lemma PendingIff(s: seq<byte>, allowDomains: bool)
    ensures Parse(s, allowDomains).Pending? <==>
      || |s| < 5 || (s[3] == 1 && |s| < 10) || (s[3] == 4 && |s| < 22)
      || (s[3] == 3 && allowDomains && |s| < 6 + s[4] as int)
  {
  }

  /** A bad address type is any but IPv4 and IPv6, and names unless they are allowed. */
  lemma BadAddressTypeIff(s: seq<byte>, allowDomains: bool)
    ensures Parse(s, allowDomains).BadAddressType? <==> |s| >= 5 && s[3] != 1 && s[3] != 4 && !(s[3] == 3 && allowDomains)
  {
  }

  /** A complete request of a good address type is refused for its version exactly when that is not 5. */
  lemma BadVersionIff(s: seq<byte>, allowDomains: bool)
    requires !Parse(s, allowDomains).Pending? && !Parse(s, allowDomains).BadAddressType?
    ensures Parse(s, allowDomains).BadVersion? <==> s[0] != 5
  {
  }

  /** However it is cut: a bad address type is answered with code 8. */
  lemma BadAddressTypeAnswer(cfg: Configs, c: Conn, chunks: seq<seq<byte>>, env: Env)
    requires Inv(cfg, c) && c.state == WaitingCommand && chunks != [] && Receivable(cfg, c, chunks, env)
    requires Segmentation.Decide(cfg, c.serverOut + Join(chunks)).BadAddressType?
    ensures SameButRing(Failed(c, 8), Feed(cfg, c, chunks, env).0)
  {
    var e := CommandSegmentation(cfg, c, chunks, env);
    FailWithEffect(c, Client, REP_BADATYP);
  }

  /** However it is cut: a bad version closes the connection. */
  lemma BadVersionAnswer(cfg: Configs, c: Conn, chunks: seq<seq<byte>>, env: Env)
    requires Inv(cfg, c) && c.state == WaitingCommand && chunks != [] && Receivable(cfg, c, chunks, env)
    requires Segmentation.Decide(cfg, c.serverOut + Join(chunks)).BadVersion?
    ensures TornDown(c, Feed(cfg, c, chunks, env).0)
  {
    var e := CommandSegmentation(cfg, c, chunks, env);
  }

  /** The connection once a literal request was read. */
  function WithLiteral(c: Conn, cmd: byte, target: SockAddr): Conn {
    c.(info := c.info.(cmd := cmd, atyp := if target.family.Inet? then 1 else 4, sa := Some(target)))
  }

  lemma DecidingNow(cfg: Configs, c: Conn)
    requires Inv(cfg, c) && c.state == WaitingCommand
    ensures Deciding(cfg, c)
  {
  }

  lemma LiteralStartable(cfg: Configs, rules: seq<Rule>, c: Conn, cmd: byte, target: SockAddr, env: Env)
    requires Deciding(cfg, c) && NewFdOk(c, env) && LinkedFrom(cfg.blocks, rules)
    requires !RuledOut(rules, cmd, Some(target), Nil)
    ensures var c1 := WithLiteral(c, cmd, target);
      Startable(cfg, c1) && Act(cfg, c, Client, Literal(cmd, target), env) == RunCommand(cfg, c1, Client, env)
  {
    DropsIffRuledOut(cmd, Some(target), Nil, cfg.blocks, rules);
  }

  /** What the whole stream denotes when it starts with an encoded request. */
  lemma StreamIsLiteral(cfg: Configs, stream: seq<byte>, cmd: byte, rsv: byte, target: SockAddr)
    requires EncodeRequest(cmd, rsv, target) <= stream
    ensures Segmentation.Decide(cfg, stream) == Literal(cmd, target)
  {
    var s := Take(stream, LOCAL_BUFFER);
    assert EncodeRequest(cmd, rsv, target) <= s && s[2] == rsv;
    LiteralRoundTrip(s, cfg.allowDomains, cmd, target);
  }

  /** However it is cut: a literal CONNECT that no rule names contacts its destination. */
  lemma LiteralConnects(cfg: Configs, rules: seq<Rule>, c: Conn, chunks: seq<seq<byte>>, env: Env, rsv: byte, target: SockAddr)
    requires Inv(cfg, c) && c.state == WaitingCommand && chunks != [] && Receivable(cfg, c, chunks, env)
    requires EncodeRequest(1, rsv, target) <= c.serverOut + Join(chunks)
    requires LinkedFrom(cfg.blocks, rules) && !RuledOut(rules, 1, Some(target), Nil)
    requires cfg.allowConnect && env.newFd != -1 && env.connected
    ensures SameButRing(Feed(cfg, c, chunks, env).0,
      WithLiteral(c, 1, target).(state := Connecting, serverLive := true, serverFd := env.newFd, serverOut := [],
        serverMask := OUT_ONLY, hist := c.hist.(tried := [target])))
  {
    StreamIsLiteral(cfg, c.serverOut + Join(chunks), 1, rsv, target);
    var e := CommandSegmentation(cfg, c, chunks, env);
    DecidingNow(cfg, c);
    LiteralStartable(cfg, rules, c, 1, target, env);
    ConnectStarts(cfg, WithLiteral(c, 1, target), target, env);
  }

  /** However it is cut: a literal BIND that no rule names announces its listener. */
  lemma LiteralBinds(cfg: Configs, rules: seq<Rule>, c: Conn, chunks: seq<seq<byte>>, env: Env, rsv: byte, target: SockAddr,
      adv: SockAddr, s: SockAddr)
    requires Inv(cfg, c) && c.state == WaitingCommand && chunks != [] && Receivable(cfg, c, chunks, env)
    requires EncodeRequest(2, rsv, target) <= c.serverOut + Join(chunks)
    requires LinkedFrom(cfg.blocks, rules) && !RuledOut(rules, 2, Some(target), Nil)
    requires cfg.allowBind && env.newFd != -1 && env.bound && env.listening && env.sockname == Some(s)
    requires !NoneWith(Elements(cfg.bindListen), target.family)
    requires FirstWith(Elements(cfg.bindAdvertise), target.family, adv)
    ensures var r := Reply(0, SockAddr(target.family, adv.addr, s.port)); var d := Feed(cfg, c, chunks, env).0;
      d.state == SendingReply && d.info.cmd == 2 && d.info.sa == Some(target) && d.info.rep == 0
      && d.hist.replies == [r] && d.clientOut == Encode(r) && d.hist.bound == Some(s) && d.serverFd == env.newFd
      && d.clientFd == c.clientFd && d.hist.toClient == c.hist.toClient
  {
    StreamIsLiteral(cfg, c.serverOut + Join(chunks), 2, rsv, target);
    var e := CommandSegmentation(cfg, c, chunks, env);
    DecidingNow(cfg, c);
    LiteralStartable(cfg, rules, c, 2, target, env);
    BindAnnounces(cfg, WithLiteral(c, 2, target), target, adv, s, env);
  }

  /**
   * However it is cut: a name request is remembered with its command and asked for, up to the last
   * port byte when a chunk ends just before it.
   */
  lemma NameAsked(cfg: Configs, c: Conn, chunks: seq<seq<byte>>, env: Env)
    requires Inv(cfg, c) && c.state == WaitingCommand && chunks != [] && Receivable(cfg, c, chunks, env)
    requires Segmentation.Decide(cfg, c.serverOut + Join(chunks)).Lookup?
    ensures var stream := c.serverOut + Join(chunks); var n := stream[4] as int;
      var cut := CutAt(|c.serverOut|, chunks, 6 + n);
      && |stream| >= 6 + n
      && SameButRing(Feed(cfg, c, chunks, env).0,
           c.(state := AsyncDns, info := c.info.(cmd := stream[1], atyp := 3),
              hist := c.hist.(lookups := [Query(stream[5..5 + n], [stream[5 + n], if cut || |stream| == 6 + n then 0 else stream[6 + n]])])))
  {
    var stream := c.serverOut + Join(chunks);
    NameSegmentation(cfg, c, chunks, env);
    NameDecision(cfg, stream);
  }

  lemma NameDecision(cfg: Configs, stream: seq<byte>)
    requires Segmentation.Decide(cfg, stream).Lookup?
    ensures |stream| > 4
    ensures var n := stream[4] as int;
      && |stream| >= 6 + n
      && Segmentation.Decide(cfg, stream) ==
           Lookup(stream[1], Query(stream[5..5 + n], [stream[5 + n], if |stream| == 6 + n then 0 else stream[6 + n]]))
  {
    var s := Take(stream, LOCAL_BUFFER);
    assert forall i, j :: 0 <= i <= j <= |s| ==> s[i..j] == stream[i..j];
  }
}
