/** Runs from the accept to the relay: the server does what a client asks it for. */
module Journeys {
  import opened Wire
  import opened Firewall
  import opened Machine
  import opened Invariant
  import opened Segmentation
  import opened Orphans
  import opened Outcomes
  import opened Lookups
  import opened Refinement

  const WRITABLE := Event(false, true)

  /** The client sends b. */
  function Sends(b: seq<byte>, env: Env): Input {
    Ready(Client, READABLE, env.(recv := Some(b)))
  }

  /** The client takes all that is queued for it. */
  function Takes(n: nat): Input {
    Ready(Client, WRITABLE, IDLE.(sent := Some(n)))
  }

  /** The connection to the server is up, from this address. */
  function IsUp(bound: SockAddr): Input {
    Ready(Server, WRITABLE, IDLE.(soError := Some(0), sockname := Some(bound)))
  }

  /** A peer connects to the listener. */
  function Arrives(peer: SockAddr, fd: int): Input {
    Ready(Server, READABLE, IDLE.(newFd := fd, peer := peer))
  }

  // ---- The greeting

  /** A client that offered method 0 and was told to use it. */
  function Greeted(fd: int): Conn {
    Accepted(fd).(state := WaitingCommand, info := NO_INFO.(meth := 0),
      hist := NEW_HISTORY.(offered := [0], greeting := [5, 0], toClient := [5, 0]))
  }

  const GREETING := [Sends([5, 1, 0], IDLE), Takes(2)]

  lemma Greets(cfg: Configs, fd: int)
    requires fd >= 0 && Configured(cfg, 0)
    ensures Possible(cfg, Accepted(fd), GREETING) && Run(cfg, Accepted(fd), GREETING) == Greeted(fd)
    ensures Inv(cfg, Greeted(fd))
  {
    var c := Accepted(fd);
    AcceptedInv(cfg, fd);
    GreetingRead(cfg, fd);
    var d := Apply(cfg, c, GREETING[0]);
    ApplyInv(cfg, c, GREETING[0]);
    MethodReplySent(cfg, d, WRITABLE, IDLE.(sent := Some(2)), 2);
    ApplyInv(cfg, d, GREETING[1]);
    TwoSteps(cfg, c, GREETING[0], GREETING[1]);
    assert GREETING == [GREETING[0], GREETING[1]];
    assert Apply(cfg, d, GREETING[1]) == Greeted(fd);
  }

  lemma GreetingRead(cfg: Configs, fd: int)
    requires fd >= 0 && Configured(cfg, 0)
    ensures Enabled(Accepted(fd), GREETING[0])
    ensures Apply(cfg, Accepted(fd), GREETING[0]) ==
      Accepted(fd).(state := SendingMethod, clientOut := [5, 0], clientMask := IN_OUT, info := NO_INFO.(meth := 0),
        hist := NEW_HISTORY.(offered := [0], greeting := [5, 0]))
  {
    var q: seq<byte> := [5, 1, 0];
    assert [] + q == q && q[2..3] == [0] && q[3..] == [];
    assert Select(cfg, [0]) == 0;
  }

  // ---- The request

  lemma FeedOne(cfg: Configs, c: Conn, b: seq<byte>, env: Env)
    requires Inv(cfg, c) && c.state == WaitingCommand && c.serverOut == [] && NewFdOk(c, env) && 0 < |b| <= CAPACITY
    ensures Enabled(c, Sends(b, env)) && Receivable(cfg, c, [b], env) && Join([b]) == b && c.serverOut + Join([b]) == b
    ensures Feed(cfg, c, [b], env).0 == Apply(cfg, c, Sends(b, env))
  {
    assert [b][1..] == [];
    assert Join([b][1..]) == [] && b + [] == b && [] + b == b;
  }

  /** The relay, once a CONNECT came up from this address and the client was told. */
  function Relayed(c: Conn, bound: SockAddr): Conn {
    var r := Reply(0, bound);
    c.(state := Full, info := c.info.(rep := 0), clientMask := IN_ONLY, serverMask := IN_ONLY,
       hist := c.hist.(replies := [r], bound := Some(bound), toClient := c.hist.toClient + Encode(r)))
  }

  /** The server socket of a CONNECT comes up and the client takes the reply: the relay is open. */
  lemma ConnectFinishes(cfg: Configs, c: Conn, bound: SockAddr)
    requires Inv(cfg, c) && c.state == Connecting
    ensures var run := [IsUp(bound), Takes(6 + AddrLen(bound.family))];
      Possible(cfg, c, run) && Run(cfg, c, run) == Relayed(c, bound)
  {
    var i, j := IsUp(bound), Takes(6 + AddrLen(bound.family));
    ComesUp(cfg, c, bound);
    SuccessTaken(cfg, c, bound);
    TwoSteps(cfg, c, i, j);
  }

  lemma ComesUp(cfg: Configs, c: Conn, bound: SockAddr)
    requires Inv(cfg, c) && c.state == Connecting
    ensures var i := IsUp(bound); Enabled(c, i) && Apply(cfg, c, i) == Connected(c, bound) && Inv(cfg, Connected(c, bound))
  {
    ConnectingEffect(c, WRITABLE, IsUp(bound).env);
    ConnectedInv(cfg, c, bound);
  }

  lemma SuccessTaken(cfg: Configs, c: Conn, bound: SockAddr)
    requires Inv(cfg, c) && c.state == Connecting && Inv(cfg, Connected(c, bound))
    ensures var d, j := Connected(c, bound), Takes(6 + AddrLen(bound.family));
      Enabled(d, j) && Apply(cfg, d, j) == Relayed(c, bound)
  {
    var d, j := Connected(c, bound), Takes(6 + AddrLen(bound.family));
    assert c.clientOut == [] && [] + Encode(Reply(0, bound)) == Encode(Reply(0, bound));
    ReplyFullySent(cfg, d, WRITABLE, j.env, 6 + AddrLen(bound.family));
  }

  /**
   * A client that offers method 0 and sends a literal CONNECT which no rule names is relayed to its
   * destination, after the method reply and one success frame.
   */
  lemma ConnectRelays(cfg: Configs, rules: seq<Rule>, fd: int, target: SockAddr, bound: SockAddr, env: Env)
    requires fd >= 0 && Configured(cfg, 0) && cfg.allowConnect && env.newFd >= 0 && env.newFd != fd && env.connected
    requires LinkedFrom(cfg.blocks, rules) && forall i :: 0 <= i < |rules| ==> !Names(rules[i], target)
    ensures var run := GREETING + ([Sends(EncodeRequest(1, 0, target), env)] + [IsUp(bound), Takes(6 + AddrLen(bound.family))]);
      var d := Run(cfg, Accepted(fd), run);
      && Possible(cfg, Accepted(fd), run) && d.state == Full && d.hist.tried == [target]
      && d.hist.toClient == [5, 0] + Encode(Reply(0, bound))
  {
    var c, b := Greeted(fd), EncodeRequest(1, 0, target);
    var i := Sends(b, env);
    Greets(cfg, fd);
    FeedOne(cfg, c, b, env);
    LiteralConnects(cfg, rules, c, [b], env, 0, target);
    ApplyInv(cfg, c, i);
    var d := Apply(cfg, c, i);
    ConnectFinishes(cfg, d, bound);
    var rest := [IsUp(bound), Takes(6 + AddrLen(bound.family))];
    Onward(cfg, c, i, rest);
    RunAppend(cfg, Accepted(fd), GREETING, [i] + rest);
  }

  lemma AsksForName(cfg: Configs, c: Conn, query: Query)
    requires Inv(cfg, c) && c.state == WaitingCommand && c.serverOut == [] && cfg.allowDomains
    requires |query.name| < 256 && |query.port| == 2
    ensures var b := EncodeNameRequest(1, 0, query); var i := Sends(b, IDLE);
      && Enabled(c, i)
      && SameButRing(c.(state := AsyncDns, info := c.info.(cmd := 1, atyp := 3), hist := c.hist.(lookups := [query])),
                     Apply(cfg, c, i))
  {
    var b := EncodeNameRequest(1, 0, query);
    FeedOne(cfg, c, b, IDLE);
    StreamIsName(cfg, b, 1, 0, query);
    NameAsked(cfg, c, [b], IDLE);
    NotCut(b, |b| - 1);
    assert query.port == [query.port[0], query.port[1]];
    assert b[5 + |query.name|] == query.port[0] && b[6 + |query.name|] == query.port[1];
  }

  lemma NotCut(b: seq<byte>, at: nat)
    requires |b| != at
    ensures !CutAt(0, [b], at)
  {
  }

  /** A CONNECT by name is relayed to the first address the name resolves to. */
  lemma NamedConnectRelays(cfg: Configs, fd: int, query: Query, a: SockAddr, more: List<SockAddr>, bound: SockAddr, env: Env)
    requires fd >= 0 && Configured(cfg, 0) && cfg.allowDomains && cfg.allowConnect
    requires env.newFd >= 0 && env.newFd != fd && env.connected && |query.name| < 256 && |query.port| == 2
    ensures var run := GREETING + ([Sends(EncodeNameRequest(1, 0, query), IDLE)]
        + ([Resolved(Cons(a, more), 0, env)] + [IsUp(bound), Takes(6 + AddrLen(bound.family))]));
      var d := Run(cfg, Accepted(fd), run);
      && Possible(cfg, Accepted(fd), run) && d.state == Full && d.hist.tried == [a] && d.hist.lookups == [query]
      && d.info.ai == Cons(a, more) && d.hist.toClient == [5, 0] + Encode(Reply(0, bound))
  {
    var c := Greeted(fd);
    var i, j := Sends(EncodeNameRequest(1, 0, query), IDLE), Resolved(Cons(a, more), 0, env);
    Greets(cfg, fd);
    AsksForName(cfg, c, query);
    ApplyInv(cfg, c, i);
    var d := Apply(cfg, c, i);
    AnswerConnects(cfg, d, a, more, env);
    ApplyInv(cfg, d, j);
    ConnectFinishes(cfg, Apply(cfg, d, j), bound);
    var rest := [IsUp(bound), Takes(6 + AddrLen(bound.family))];
    Onward(cfg, d, j, rest);
    Onward(cfg, c, i, [j] + rest);
    RunAppend(cfg, Accepted(fd), GREETING, [i] + ([j] + rest));
  }

  // ---- BIND

  /** The listening connection, once its announcement was taken. */
  function Listens(c: Conn): Conn {
    c.(state := BindListening, info := c.info.(rep := UNSET), clientOut := [], clientMask := IN_ONLY,
       hist := c.hist.(toClient := c.hist.toClient + c.clientOut))
  }

  lemma AnnouncementTaken(cfg: Configs, c: Conn)
    requires Inv(cfg, c) && c.state == SendingReply && c.info.rep == 0 && c.info.cmd == 2
    ensures var i := Takes(|c.clientOut|); Enabled(c, i) && Apply(cfg, c, i) == Listens(c) && Inv(cfg, Listens(c))
  {
    var i := Takes(|c.clientOut|);
    ReplyFullySent(cfg, c, WRITABLE, i.env, |c.clientOut|);
    ApplyInv(cfg, c, i);
  }

  /** The relay to a peer that connected to the listener. */
  function Joined(c: Conn, target: SockAddr, peerFd: int): Conn {
    var r := Reply(0, target);
    c.(state := Full, info := c.info.(rep := 0), serverFd := peerFd, clientMask := IN_ONLY, serverMask := IN_ONLY,
       hist := c.hist.(replies := c.hist.replies + [r], peer := Some(target), toClient := c.hist.toClient + Encode(r)))
  }

  lemma PeerJoins(cfg: Configs, c: Conn, target: SockAddr, peerFd: int)
    requires Inv(cfg, c) && c.state == BindListening && Destination(c.info, target)
    requires peerFd >= 0 && peerFd != c.clientFd && peerFd != c.serverFd
    ensures var run := [Arrives(target, peerFd), Takes(6 + AddrLen(target.family))];
      Possible(cfg, c, run) && Run(cfg, c, run) == Joined(c, target, peerFd)
  {
    var j, k := Arrives(target, peerFd), Takes(6 + AddrLen(target.family));
    PeerArrives(cfg, c, target, peerFd);
    SecondReplyTaken(cfg, c, target, peerFd);
    TwoSteps(cfg, c, j, k);
  }

  lemma PeerArrives(cfg: Configs, c: Conn, target: SockAddr, peerFd: int)
    requires Inv(cfg, c) && c.state == BindListening && Destination(c.info, target)
    requires peerFd >= 0 && peerFd != c.clientFd && peerFd != c.serverFd
    ensures var j := Arrives(target, peerFd);
      Enabled(c, j) && Apply(cfg, c, j) == PeerAccepted(c, peerFd, target) && Inv(cfg, PeerAccepted(c, peerFd, target))
  {
    var j := Arrives(target, peerFd);
    ListeningEffect(c, READABLE, j.env);
    ApplyInv(cfg, c, j);
  }

  lemma SecondReplyTaken(cfg: Configs, c: Conn, target: SockAddr, peerFd: int)
    requires Inv(cfg, c) && c.state == BindListening && Inv(cfg, PeerAccepted(c, peerFd, target))
    ensures var e, k := PeerAccepted(c, peerFd, target), Takes(6 + AddrLen(target.family));
      Enabled(e, k) && Apply(cfg, e, k) == Joined(c, target, peerFd)
  {
    var e, k := PeerAccepted(c, peerFd, target), Takes(6 + AddrLen(target.family));
    assert c.clientOut == [] && [] + Encode(Reply(0, target)) == Encode(Reply(0, target));
    SecondReplySent(cfg, e, WRITABLE, k.env, 6 + AddrLen(target.family));
  }

  /** The announcement is taken, the named peer connects, and the client is told. */
  lemma BindFinishes(cfg: Configs, c: Conn, target: SockAddr, peerFd: int)
    requires Inv(cfg, c) && c.state == SendingReply && c.info.rep == 0 && c.info.cmd == 2 && Destination(c.info, target)
    requires peerFd >= 0 && peerFd != c.clientFd && peerFd != c.serverFd
    ensures var run := [Takes(|c.clientOut|)] + [Arrives(target, peerFd), Takes(6 + AddrLen(target.family))];
      Possible(cfg, c, run) && Run(cfg, c, run) == Joined(Listens(c), target, peerFd)
  {
    AnnouncementTaken(cfg, c);
    PeerJoins(cfg, Listens(c), target, peerFd);
    Onward(cfg, c, Takes(|c.clientOut|), [Arrives(target, peerFd), Takes(6 + AddrLen(target.family))]);
  }

  /** The request of the client, and what it leads to. */
  lemma BindRequested(cfg: Configs, rules: seq<Rule>, fd: int, target: SockAddr, adv: SockAddr, s: SockAddr, env: Env)
    requires fd >= 0 && Configured(cfg, 0) && cfg.allowBind
    requires env.newFd >= 0 && env.newFd != fd && env.bound && env.listening && env.sockname == Some(s)
    requires LinkedFrom(cfg.blocks, rules) && forall i :: 0 <= i < |rules| ==> !Names(rules[i], target)
    requires !NoneWith(Elements(cfg.bindListen), target.family) && FirstWith(Elements(cfg.bindAdvertise), target.family, adv)
    ensures var first := Reply(0, SockAddr(target.family, adv.addr, s.port));
      var i := Sends(EncodeRequest(2, 0, target), env); var d := Apply(cfg, Greeted(fd), i);
      && Enabled(Greeted(fd), i) && Inv(cfg, d)
      && d.state == SendingReply && d.info.rep == 0 && d.info.cmd == 2 && Destination(d.info, target)
      && d.clientFd == fd && d.serverFd == env.newFd && d.clientOut == Encode(first)
      && d.hist.replies == [first] && d.hist.toClient == [5, 0]
  {
    var c, b := Greeted(fd), EncodeRequest(2, 0, target);
    Greets(cfg, fd);
    FeedOne(cfg, c, b, env);
    LiteralBinds(cfg, rules, c, [b], env, 0, target, adv, s);
    ApplyInv(cfg, c, Sends(b, env));
  }

  /**
   * A client that sends a literal BIND which no rule names is told the advertised address with the
   * port really bound, then the peer it named, and is relayed to that peer.
   */
  lemma BindRelays(cfg: Configs, rules: seq<Rule>, fd: int, target: SockAddr, adv: SockAddr, s: SockAddr, peerFd: int, env: Env)
    requires fd >= 0 && Configured(cfg, 0) && cfg.allowBind
    requires env.newFd >= 0 && env.newFd != fd && env.bound && env.listening && env.sockname == Some(s)
    requires peerFd >= 0 && peerFd != fd && peerFd != env.newFd
    requires LinkedFrom(cfg.blocks, rules) && forall i :: 0 <= i < |rules| ==> !Names(rules[i], target)
    requires !NoneWith(Elements(cfg.bindListen), target.family) && FirstWith(Elements(cfg.bindAdvertise), target.family, adv)
    ensures var first := Reply(0, SockAddr(target.family, adv.addr, s.port)); var second := Reply(0, target);
      var n := 6 + AddrLen(target.family);
      var run := GREETING + ([Sends(EncodeRequest(2, 0, target), env)] + ([Takes(n)] + [Arrives(target, peerFd), Takes(n)]));
      var d := Run(cfg, Accepted(fd), run);
      && Possible(cfg, Accepted(fd), run) && d.state == Full && d.serverFd == peerFd
      && d.hist.replies == [first, second] && d.hist.toClient == [5, 0] + Encode(first) + Encode(second)
  {
    var n, i := 6 + AddrLen(target.family), Sends(EncodeRequest(2, 0, target), env);
    var rest := [Takes(n)] + [Arrives(target, peerFd), Takes(n)];
    Greets(cfg, fd);
    BindRequested(cfg, rules, fd, target, adv, s, env);
    BindFinishes(cfg, Apply(cfg, Greeted(fd), i), target, peerFd);
    Onward(cfg, Greeted(fd), i, rest);
    RunAppend(cfg, Accepted(fd), GREETING, [i] + rest);
  }
}
