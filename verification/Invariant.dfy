/** The invariant of a connection over every run, and its preservation by every handler. */
module Invariant {
  import opened Wire
  import opened Firewall
  import opened Machine

  // ---- Parts of the invariant

  /** Who has been freed, and how often; epoll holds no pointer to freed Data, and watches every client. */
  ghost predicate Lifetimes(c: Conn) {
    && (c.clientMask.Registered? <==> c.clientLive)
    && (c.serverMask.Registered? ==> c.serverLive)
    && c.clientFd >= 0 && c.clientFd != c.serverFd
    && (c.clientLive <==> c.hist.clientFrees == 0) && c.hist.clientFrees <= 1
    && (c.serverLive ==> c.hist.serverFrees == 0) && c.hist.serverFrees <= 1
    && c.hist.sharedFrees == (if c.clientLive || c.serverLive then 0 else 1)
    && (c.infoLive <==> c.hist.clientFrees + c.hist.serverFrees == 0)
    && (c.state != Closed ==> c.infoLive)
  }

  /** The bytes queued for the client during the handshake, in order. */
  function Script(h: History): seq<byte> {
    h.greeting + EncodeAll(h.replies)
  }

  /** `n` success frames followed by failure frames only. */
  ghost predicate Shape(rs: seq<Reply>, n: nat) {
    && n <= |rs|
    && (forall i :: 0 <= i < n ==> IsSuccess(rs[i]))
    && (forall i :: n <= i < |rs| ==> IsFailure(rs[i]))
  }

  /** No server side exists and none was attempted. */
  ghost predicate Untouched(c: Conn) {
    && !c.serverLive && c.serverFd == -1 && c.serverMask == Unregistered
    && c.hist.tried == [] && c.hist.replies == [] && c.hist.peer.None? && c.hist.bound.None?
    && NoRelay(c)
  }

  ghost predicate NoRelay(c: Conn) {
    c.hist.up == NEW_LANE && c.hist.down == NEW_LANE
  }

  /** The client offered method 0 and the configuration has it. */
  ghost predicate Authenticated(cfg: Configs, c: Conn) {
    && c.info.meth == METH_NOAUTH && Configured(cfg, METH_NOAUTH) && METH_NOAUTH in c.hist.offered
    && c.hist.greeting == [VERSION, METH_NOAUTH]
  }

  /** The destination passed the firewall when it was given literally. */
  ghost predicate Cleared(cfg: Configs, c: Conn) {
    && (c.info.sa.Some? <==> c.info.ai.Nil?)
    && (c.info.sa.Some? ==> !Drops(c.info.cmd, c.info.sa, Nil, cfg.blocks))
  }

  ghost predicate CommandAllowed(cfg: Configs, cmd: byte) {
    || (cmd == CMD_CONN && cfg.allowConnect)
    || (cmd == CMD_BIND && cfg.allowBind)
    || (cmd == CMD_UDPA && cfg.allowUdpAssoc)
  }

  /** A request in progress: authenticated, allowed, cleared, with its server side open. */
  ghost predicate Serving(cfg: Configs, c: Conn) {
    && Authenticated(cfg, c) && CommandAllowed(cfg, c.info.cmd) && Cleared(cfg, c)
    && c.serverLive && c.serverFd >= 0
  }

  /** The addresses connect() was called with are the first ones of the list, in list order. */
  ghost predicate TriedInOrder(c: Conn) {
    if c.info.sa.Some? then c.hist.tried == [c.info.sa.value]
    else
      && c.info.aiIndex < |Elements(c.info.ai)|
      && c.hist.tried == Elements(c.info.ai)[..c.info.aiIndex + 1]
  }

  /** The address, whatever its port, is one of the configured ones. */
  ghost predicate Advertises(cfg: Configs, shown: SockAddr) {
    exists a: SockAddr :: a in Elements(cfg.bindAdvertise) && a.family == shown.family && a.addr == shown.addr
  }

  /** The first BIND reply shows an advertised address with the port really bound. */
  ghost predicate ShowsListener(cfg: Configs, rs: seq<Reply>, bound: Option<SockAddr>) {
    && bound.Some? && |rs| >= 1
    && IsSuccess(rs[0]) && rs[0].addr.port == bound.value.port && Advertises(cfg, rs[0].addr)
  }

  /** The second BIND reply shows the accepted peer, which is the host the client named. */
  ghost predicate ShowsPeer(info: Info, rs: seq<Reply>, peer: Option<SockAddr>) {
    && peer.Some? && peer == Requested(info)
    && |rs| == 2 && rs[1] == Reply(REP_SUCCESS, peer.value)
  }

  /** The success frames sent by the time relaying may start. */
  ghost predicate Announced(cfg: Configs, info: Info, rs: seq<Reply>, bound: Option<SockAddr>, peer: Option<SockAddr>) {
    if info.cmd == CMD_CONN then
      bound.Some? && rs == [Reply(REP_SUCCESS, bound.value)]
    else
      && info.cmd == CMD_BIND && Shape(rs, 2)
      && ShowsListener(cfg, rs, bound) && ShowsPeer(info, rs, peer)
  }

  /** Chunks that were stored, joined. */
  function Stored(chunks: seq<seq<byte>>, kept: seq<bool>): seq<byte>
    requires |chunks| == |kept|
  {
    if chunks == [] then []
    else
      var n := |chunks| - 1;
      Stored(chunks[..n], kept[..n]) + if kept[n] then chunks[n] else []
  }

  /** Conservation: what was stored is what was sent on plus what still waits, in order. */
  ghost predicate Conserved(lane: Lane, ring: seq<byte>) {
    && |lane.chunks| == |lane.kept|
    && Stored(lane.chunks, lane.kept) == lane.sent + ring
  }

  ghost predicate Relaying(cfg: Configs, c: Conn) {
    && Serving(cfg, c) && c.info.rep == REP_SUCCESS && Announced(cfg, c.info, c.hist.replies, c.hist.bound, c.hist.peer)
    && c.hist.toClient == Script(c.hist)
    && Conserved(c.hist.down, c.clientOut) && Conserved(c.hist.up, c.serverOut)
    && |c.clientOut| <= CAPACITY && |c.serverOut| <= CAPACITY
  }

  /** No lost wakeup: pending bytes mean the descriptor waits for EPOLLOUT. */
  ghost predicate Awake(mask: Mask, pending: seq<byte>) {
    mask.Registered? && mask.input && (pending != [] ==> mask.output)
  }

  ghost predicate Sending(c: Conn, limit: nat) {
    0 < |c.clientOut| <= limit && c.clientMask == IN_OUT
  }

  /** Reading states: nothing is queued for the client and the client is watched for input. */
  ghost predicate Listening(c: Conn) {
    c.clientOut == [] && c.clientMask == IN_ONLY
  }

  ghost predicate Failing(cfg: Configs, c: Conn) {
    && Authenticated(cfg, c) && IsFailure(FailureReply(c.info.rep))
    && |c.hist.replies| > 0 && c.hist.replies[|c.hist.replies| - 1] == FailureReply(c.info.rep)
    && (Shape(c.hist.replies, 0) || (c.info.cmd == CMD_BIND && Shape(c.hist.replies, 1)))
    && |c.hist.lookups| <= 1
  }

  // ---- The invariant by state

  ghost predicate InState(cfg: Configs, c: Conn) {
    match c.state
    case WaitingMethods =>
      && Untouched(c) && Listening(c) && c.info == NO_INFO && c.hist.greeting == [] && c.hist.lookups == []
      && (|c.serverOut| < 2 || |c.serverOut| < 2 + c.serverOut[1] as int)
    case SendingMethod =>
      && Untouched(c) && Sending(c, 2) && c.hist.lookups == []
      && c.info == NO_INFO.(meth := Select(cfg, c.hist.offered))
      && c.hist.greeting == [VERSION, c.info.meth]
      && |c.serverOut| <= CAPACITY - 2 - |c.hist.offered|
    case WaitingCommand =>
      && Untouched(c) && Listening(c) && c.info == NO_INFO.(meth := METH_NOAUTH) && c.hist.lookups == []
      && Authenticated(cfg, c) && |c.serverOut| < CAPACITY
    case AsyncDns =>
      && Untouched(c) && Listening(c) && |c.hist.lookups| == 1
      && c.info == NO_INFO.(meth := METH_NOAUTH, cmd := c.info.cmd, atyp := ATYP_DOMN, ai := c.info.ai)
      && Authenticated(cfg, c) && cfg.allowDomains
    case Connecting =>
      && Serving(cfg, c) && Listening(c) && c.serverOut == [] && c.serverMask == OUT_ONLY
      && c.info.cmd == CMD_CONN && c.info.rep == UNSET && c.hist.replies == [] && NoRelay(c)
      && TriedInOrder(c) && |c.hist.lookups| <= 1
    case SendingReply =>
      && Sending(c, 30) && NoRelay(c)
      && if c.info.rep == REP_SUCCESS then
           && Serving(cfg, c) && c.serverOut == [] && c.serverMask == IN_ONLY && |c.clientOut| <= 22
           && Shape(c.hist.replies, 1) && |c.hist.replies| == 1 && |c.hist.lookups| <= 1
           && (c.info.cmd == CMD_CONN ==> Announced(cfg, c.info, c.hist.replies, c.hist.bound, c.hist.peer))
           && (c.info.cmd == CMD_BIND ==> ShowsListener(cfg, c.hist.replies, c.hist.bound))
         else Failing(cfg, c)
    case BindListening =>
      && Serving(cfg, c) && Listening(c) && c.serverOut == [] && c.serverMask == IN_ONLY && NoRelay(c)
      && c.info.cmd == CMD_BIND && c.info.rep == UNSET && |c.hist.lookups| <= 1
      && Shape(c.hist.replies, 1) && |c.hist.replies| == 1 && ShowsListener(cfg, c.hist.replies, c.hist.bound)
    case SendingReply2 =>
      && Serving(cfg, c) && Sending(c, 22) && c.serverOut == [] && c.serverMask == IN_ONLY && NoRelay(c)
      && c.info.cmd == CMD_BIND && c.info.rep == REP_SUCCESS && Announced(cfg, c.info, c.hist.replies, c.hist.bound, c.hist.peer) && |c.hist.lookups| <= 1
    case Full =>
      && Relaying(cfg, c) && Awake(c.clientMask, c.clientOut) && Awake(c.serverMask, c.serverOut)
      && |c.hist.lookups| <= 1
    case FullUdpa => Serving(cfg, c) && c.info.cmd == CMD_UDPA && |c.hist.lookups| <= 1 && NoRelay(c)
      && Shape(c.hist.replies, 1) && |c.hist.replies| == 1 && c.hist.toClient == Script(c.hist)
    case HalfClose => Relaying(cfg, c) && |c.hist.lookups| <= 1
    case Closed =>
      && c.hist.toClient <= Script(c.hist)
      && (!c.hist.sendFailed ==> c.hist.toClient == Script(c.hist))
      && (Shape(c.hist.replies, 0) || Shape(c.hist.replies, 1) || Shape(c.hist.replies, 2))
      && |c.hist.lookups| <= 1
      && |c.hist.up.chunks| == |c.hist.up.kept| && |c.hist.down.chunks| == |c.hist.down.kept|
      && c.hist.up.sent <= Stored(c.hist.up.chunks, c.hist.up.kept)
      && c.hist.down.sent <= Stored(c.hist.down.chunks, c.hist.down.kept)
  }

  predicate Handshake(s: State) {
    s != Full && s != FullUdpa && s != HalfClose && s != Closed
  }

  ghost predicate Inv(cfg: Configs, c: Conn) {
    && Lifetimes(c)
    && (Handshake(c.state) ==> c.hist.toClient + c.clientOut == Script(c.hist))
    && (c.state != Closed ==> !c.hist.sendFailed)
    && (|c.hist.greeting| == 0 ==> c.hist.replies == [])
    && (|c.hist.greeting| != 0 ==> |c.hist.greeting| == 2 && c.hist.greeting[0] == VERSION)
    && InState(cfg, c)
  }

  /** The edges of the state graph. */
  predicate Successor(s: State, t: State) {
    match s
    case WaitingMethods => t in {WaitingMethods, SendingMethod, Closed}
    case SendingMethod => t in {SendingMethod, WaitingCommand, Closed}
    case WaitingCommand => t in {WaitingCommand, AsyncDns, Connecting, SendingReply, Closed}
    case AsyncDns => t in {AsyncDns, Connecting, SendingReply}
    case Connecting => t in {Connecting, SendingReply}
    case SendingReply => t in {SendingReply, BindListening, Full, FullUdpa, Closed}
    case BindListening => t in {BindListening, SendingReply, SendingReply2}
    case SendingReply2 => t in {SendingReply2, Full, Closed}
    case Full => t in {Full, HalfClose}
    case FullUdpa => t == FullUdpa
    case HalfClose => t == Closed
    case Closed => t == Closed
  }

  // ---- Preservation

  lemma AcceptedInv(cfg: Configs, fd: int)
    requires fd >= 0
    ensures Inv(cfg, Accepted(fd))
  {
  }

  /** Tearing the handshake down on the client's Data. */
  lemma HandshakeErrInv(cfg: Configs, c: Conn)
    requires Lifetimes(c) && c.state != Closed && NoRelay(c)
    requires c.hist.toClient <= Script(c.hist)
    requires !c.hist.sendFailed ==> c.hist.toClient == Script(c.hist)
    requires Shape(c.hist.replies, 0) || Shape(c.hist.replies, 1) || Shape(c.hist.replies, 2)
    requires |c.hist.greeting| == 0 ==> c.hist.replies == []
    requires |c.hist.greeting| != 0 ==> |c.hist.greeting| == 2 && c.hist.greeting[0] == VERSION
    requires |c.hist.lookups| <= 1
    ensures Inv(cfg, HandshakeErr(c, Client))
  {
  }

  lemma SelectSound(cfg: Configs, offered: seq<byte>)
    ensures var m := Select(cfg, offered); m != METH_NOMETH ==> m in offered && Configured(cfg, m)
  {
  }

  /** The invariant while the greeting is read, whether or not it is complete. */
  ghost predicate Greeting(c: Conn) {
    && Lifetimes(c) && c.state == WaitingMethods && c.hist.toClient == [] && !c.hist.sendFailed
    && Untouched(c) && Listening(c) && c.info == NO_INFO && c.hist.greeting == [] && c.hist.lookups == []
    && |c.serverOut| <= CAPACITY
  }

  lemma AnswerGreetingInv(cfg: Configs, c: Conn)
    requires Greeting(c)
    ensures var d := AnswerGreeting(cfg, c, Client); Inv(cfg, d) && Successor(WaitingMethods, d.state)
  {
    var q := c.serverOut;
    if |q| >= 2 { HandshakeErrInv(cfg, c.(serverOut := q[2..])); }
  }

  lemma KeepMethods(cfg: Configs, c: Conn, side: Side, ev: Event, env: Env)
    requires Inv(cfg, c) && c.state == WaitingMethods && Live(c, side) && EnvOk(c, env)
    ensures Inv(cfg, Step(cfg, c, side, ev, env))
    ensures Successor(c.state, Step(cfg, c, side, ev, env).state)
  {
    if env.recv.None? {
      HandshakeErrInv(cfg, c);
    } else {
      AnswerGreetingInv(cfg, c.(serverOut := c.serverOut + env.recv.value));
    }
  }

  /** Sending moves bytes from the queue to the client and changes nothing else. */
  lemma SendMoves(c: Conn, n: nat, k: nat)
    ensures var (c1, all) := SendHandshake(c, n, k);
      && c1.hist.toClient + c1.clientOut == c.hist.toClient + c.clientOut
      && (all && |c.clientOut| <= n ==> c1.clientOut == [] && c1.hist.toClient == c.hist.toClient + c.clientOut)
      && (!all ==> 0 < |c1.clientOut| <= |c.clientOut|)
      && c1 == c.(clientOut := c1.clientOut, hist := c.hist.(toClient := c1.hist.toClient))
  {
    var peek := Take(c.clientOut, n);
    var m := if k < |peek| then k else |peek|;
    assert Take(peek, m) == c.clientOut[..m] && Drop(c.clientOut, m) == c.clientOut[m..];
    assert c.clientOut[..m] + c.clientOut[m..] == c.clientOut;
    assert c.hist.toClient + c.clientOut[..m] + c.clientOut[m..] == c.hist.toClient + c.clientOut;
  }

  lemma KeepSendMethod(cfg: Configs, c: Conn, side: Side, ev: Event, env: Env)
    requires Inv(cfg, c) && c.state == SendingMethod && Live(c, side) && EnvOk(c, env)
    ensures Inv(cfg, Step(cfg, c, side, ev, env))
    ensures Successor(c.state, Step(cfg, c, side, ev, env).state)
  {
    SelectSound(cfg, c.hist.offered);
    match env.sent
    case None => HandshakeErrInv(cfg, SendFailed(c));
    case Some(k) =>
      SendMoves(c, 2, k);
      var (c1, all) := SendHandshake(c, 2, k);
      if all {
        HandshakeErrInv(cfg, Register(c1, c1.clientFd, IN_ONLY));
      }
  }

  // ---- Replies

  lemma QueueReplyAppends(c: Conn, r: Reply)
    requires |c.clientOut| + 22 <= CAPACITY
    ensures QueueReply(c, r) == c.(clientOut := c.clientOut + Encode(r), hist := c.hist.(replies := c.hist.replies + [r]))
  {
    var q, a := c.clientOut, r.addr;
    assert q + [VERSION, r.rep, 0] + [Atyp(a.family)] + a.addr + a.port == q + Encode(r);
  }

  /** A failure frame may be queued: the handshake is alive and no failure hides behind a success. */
  ghost predicate Replyable(cfg: Configs, c: Conn, room: nat) {
    && Lifetimes(c) && c.state != Closed && NoRelay(c) && !c.hist.sendFailed && |c.clientOut| <= room
    && c.hist.toClient + c.clientOut == Script(c.hist) && Authenticated(cfg, c) && |c.hist.lookups| <= 1
    && (Shape(c.hist.replies, 0) || (c.info.cmd == CMD_BIND && Shape(c.hist.replies, 1)))
  }

  function ErrorRep(rep: byte): byte {
    if rep < 1 || rep > 8 then REP_GENFAIL else rep
  }

  /** With room, a failure frame is queued and the client is watched for output. */
  lemma ReplyWithErrEffect(c: Conn, side: Side)
    requires |c.clientOut| <= 20
    ensures var r := FailureReply(ErrorRep(c.info.rep));
      ReplyWithErr(c, side) == c.(
        info := c.info.(rep := r.rep), clientOut := c.clientOut + Encode(r), clientMask := IN_OUT,
        state := SendingReply, hist := c.hist.(replies := c.hist.replies + [r]))
  {
    assert ReplyWithErr(c, side).info == c.info.(rep := ErrorRep(c.info.rep));
  }

  lemma ScriptAppend(c: Conn, r: Reply)
    requires c.hist.toClient + c.clientOut == Script(c.hist)
    ensures c.hist.toClient + (c.clientOut + Encode(r)) == Script(c.hist.(replies := c.hist.replies + [r]))
  {
    EncodeAllAppend(c.hist.replies, r);
    assert c.hist.toClient + (c.clientOut + Encode(r)) == c.hist.toClient + c.clientOut + Encode(r);
    assert c.hist.greeting + (EncodeAll(c.hist.replies) + Encode(r)) == Script(c.hist) + Encode(r);
  }

  lemma ReplyWithErrInv(cfg: Configs, c: Conn, side: Side, room: nat)
    requires Replyable(cfg, c, room) && room <= 20
    ensures var d := ReplyWithErr(c, side);
      && Inv(cfg, d) && Replyable(cfg, d, room + 10) && d.state == SendingReply && Failing(cfg, d)
      && d.info == c.info.(rep := d.info.rep) && IsFailure(FailureReply(d.info.rep))
      && |d.hist.replies| == |c.hist.replies| + 1
  {
    var r := FailureReply(ErrorRep(c.info.rep));
    ReplyWithErrEffect(c, side);
    ScriptAppend(c, r);
    var d := ReplyWithErr(c, side);
    assert d.hist.replies == c.hist.replies + [r];
    assert Shape(c.hist.replies, 0) ==> Shape(d.hist.replies, 0);
    assert Shape(c.hist.replies, 1) ==> Shape(d.hist.replies, 1);
    assert Failing(cfg, d);
    assert InState(cfg, d);
  }

  // ---- Starting a command

  /** Nothing was replied yet and the destination, if any, is cleared. */
  ghost predicate Startable(cfg: Configs, c: Conn) {
    && Replyable(cfg, c, 0) && c.state == WaitingCommand && Untouched(c) && Listening(c)
    && c.info.rep == UNSET && c.info.aiIndex == 0
    && (Cleared(cfg, c) || Requested(c.info).None?)
  }

  /** The failure of the lookup was replied already and there is no destination. */
  ghost predicate LookupFailed(cfg: Configs, c: Conn) {
    Replyable(cfg, c, 10) && Inv(cfg, c) && Failing(cfg, c) && Shape(c.hist.replies, 0) && Requested(c.info).None?
  }

  lemma InitConnectInv(cfg: Configs, c: Conn, env: Env)
    requires Startable(cfg, c) && NewFdOk(c, env) && c.info.cmd == CMD_CONN && cfg.allowConnect
    ensures var d := InitConnect(c, env);
      if d.info.rep == UNSET then Inv(cfg, d) && d.state == Connecting else d.info.rep == REP_GENFAIL && Replyable(cfg, d, 0)
  {
    if c.info.sa.None? && c.info.ai.Cons? {
      assert Elements(c.info.ai)[..1] == [c.info.ai.head];
    }
  }

  /** The state once a listening or relay socket is open and its success frame queued. */
  function Opened(c: Conn, fd: int, r: Reply, bound: Option<SockAddr>): Conn {
    c.(info := c.info.(rep := REP_SUCCESS), serverLive := true, serverFd := fd, serverOut := [],
       clientOut := c.clientOut + Encode(r), clientMask := IN_OUT, serverMask := IN_ONLY, state := SendingReply,
       hist := c.hist.(replies := c.hist.replies + [r], bound := bound))
  }

  lemma OpenedInv(cfg: Configs, c: Conn, fd: int, r: Reply, bound: Option<SockAddr>)
    requires Startable(cfg, c) && Cleared(cfg, c) && fd >= 0 && fd != c.clientFd && IsSuccess(r)
    requires CommandAllowed(cfg, c.info.cmd) && c.info.cmd != CMD_CONN
    requires c.info.cmd == CMD_BIND ==> ShowsListener(cfg, [r], bound)
    ensures Inv(cfg, Opened(c, fd, r, bound))
  {
    ScriptAppend(c, r);
    assert Opened(c, fd, r, bound).hist.replies == [r];
  }

  lemma {:induction false} FirstOfListed(addrs: List<SockAddr>, f: Family)
    ensures FirstOf(addrs, f).Some? ==> FirstOf(addrs, f).value in Elements(addrs)
    ensures FirstOf(addrs, f).None? ==> forall a: SockAddr :: a in Elements(addrs) ==> a.family != f
  {
    if addrs.Cons? { FirstOfListed(addrs.tail, f); }
  }

  lemma InitBindInv(cfg: Configs, c: Conn, env: Env)
    requires Startable(cfg, c) && NewFdOk(c, env) && c.info.cmd == CMD_BIND && cfg.allowBind
    ensures var d := InitBind(cfg, c, env);
      if d.info.rep == REP_SUCCESS then Inv(cfg, d) && d.state == SendingReply else 1 <= d.info.rep <= 8 && Replyable(cfg, d, 0)
  {
    var d := InitBind(cfg, c, env);
    if d.info.rep == REP_SUCCESS {
      var af := Requested(c.info).value.family;
      var adv := FirstOf(cfg.bindAdvertise, af).value;
      var r := Reply(REP_SUCCESS, WithPort(adv, env.sockname.value));
      var h := c.hist.(bound := env.sockname);
      QueueReplyAppends(SetRep(c.(serverLive := true, serverFd := env.newFd, hist := h), REP_SUCCESS), r);
      assert d == Opened(c, env.newFd, r, env.sockname);
      assert d.hist.replies == [r];
      FirstOfListed(cfg.bindAdvertise, af);
      assert adv in Elements(cfg.bindAdvertise) && adv.family == r.addr.family && adv.addr == r.addr.addr;
      assert Advertises(cfg, r.addr);
      OpenedInv(cfg, c, env.newFd, r, env.sockname);
    }
  }

  lemma InitUdpaInv(cfg: Configs, c: Conn, env: Env)
    requires Startable(cfg, c) && NewFdOk(c, env) && c.info.cmd == CMD_UDPA && cfg.allowUdpAssoc
    ensures var d := InitUdpa(cfg, c, env);
      if d.info.rep == REP_SUCCESS then Inv(cfg, d) && d.state == SendingReply else 1 <= d.info.rep <= 8 && Replyable(cfg, d, 0)
  {
    var d := InitUdpa(cfg, c, env);
    if d.info.rep == REP_SUCCESS {
      var r := Reply(REP_SUCCESS, env.udpaShown);
      QueueReplyAppends(SetRep(c.(serverLive := true, serverFd := env.newFd), REP_SUCCESS), r);
      assert d == Opened(c, env.newFd, r, c.hist.bound);
      OpenedInv(cfg, c, env.newFd, r, c.hist.bound);
    }
  }

  lemma RunCommandInv(cfg: Configs, c: Conn, env: Env)
    requires Startable(cfg, c) && NewFdOk(c, env)
    ensures Inv(cfg, RunCommand(cfg, c, Client, env))
    ensures RunCommand(cfg, c, Client, env).state in {Connecting, SendingReply}
  {
    var d := InitCommand(cfg, c, Client, env);
    if !CommandAllowed(cfg, c.info.cmd) {
      ReplyWithErrInv(cfg, SetRep(c, REP_BADCOMM), Client, 0);
      ReplyWithErrInv(cfg, d, Client, 10);
    } else {
      if c.info.cmd == CMD_CONN { InitConnectInv(cfg, c, env); }
      else if c.info.cmd == CMD_BIND { InitBindInv(cfg, c, env); }
      else { InitUdpaInv(cfg, c, env); }
      if d.info.rep != UNSET && d.info.rep != REP_SUCCESS { ReplyWithErrInv(cfg, d, Client, 0); }
    }
  }

  /** Without a destination no command starts. */
  lemma NoDestination(cfg: Configs, c: Conn, side: Side, env: Env)
    requires Requested(c.info).None?
    ensures InitCommand(cfg, c, side, env) ==
      if CommandAllowed(cfg, c.info.cmd) then SetRep(c, REP_GENFAIL) else FailWith(c, side, REP_BADCOMM)
  {
  }

  lemma RunCommandAfterFailedLookup(cfg: Configs, c: Conn, env: Env)
    requires LookupFailed(cfg, c)
    ensures var d := RunCommand(cfg, c, Client, env); Inv(cfg, d) && d.state == SendingReply && Failing(cfg, d)
  {
    NoDestination(cfg, c, Client, env);
    if CommandAllowed(cfg, c.info.cmd) {
      ReplyWithErrInv(cfg, SetRep(c, REP_GENFAIL), Client, 10);
    } else {
      var d := FailWith(c, Client, REP_BADCOMM);
      ReplyWithErrInv(cfg, SetRep(c, REP_BADCOMM), Client, 10);
      ReplyWithErrInv(cfg, d, Client, 20);
    }
  }

  /** The state in which a decision is carried out; the input ring may be full. */
  ghost predicate Deciding(cfg: Configs, c: Conn) {
    && Replyable(cfg, c, 0) && c.state == WaitingCommand && Untouched(c) && Listening(c)
    && c.info == NO_INFO.(meth := METH_NOAUTH) && c.hist.lookups == []
    && (c.hist.greeting != [] ==> |c.hist.greeting| == 2 && c.hist.greeting[0] == VERSION)
  }

  lemma ActInv(cfg: Configs, c: Conn, d: Decision, env: Env)
    requires Deciding(cfg, c) && NewFdOk(c, env)
    requires d.Pending? ==> |c.serverOut| < CAPACITY
    requires d.Lookup? ==> cfg.allowDomains
    ensures var e := Act(cfg, c, Client, d, env);
      Inv(cfg, e) && Successor(WaitingCommand, e.state) && e.hist.serverFrees == 0
  {
    match d
    case Pending =>
    case Lookup(cmd, query) =>
    case BadAddressType => ReplyWithErrInv(cfg, SetRep(c, REP_BADATYP), Client, 0);
    case BadVersion(cmd, atyp) => HandshakeErrInv(cfg, c);
    case Literal(cmd, target) =>
      var c1 := c.(info := c.info.(cmd := cmd, atyp := Atyp(target.family), sa := Some(target)));
      if Drops(cmd, c1.info.sa, c1.info.ai, cfg.blocks) {
        ReplyWithErrInv(cfg, SetRep(c1, REP_RULESET), Client, 0);
      } else {
        RunCommandInv(cfg, c1, env);
      }
  }

  lemma KeepCommand(cfg: Configs, c: Conn, side: Side, ev: Event, env: Env)
    requires Inv(cfg, c) && c.state == WaitingCommand && Live(c, side) && EnvOk(c, env)
    ensures Inv(cfg, Step(cfg, c, side, ev, env))
    ensures Successor(c.state, Step(cfg, c, side, ev, env).state)
    ensures Step(cfg, c, side, ev, env).hist.serverFrees == 0
  {
    if ev.input {
      match env.recv
      case None => HandshakeErrInv(cfg, c);
      case Some(b) =>
        var c1 := c.(serverOut := c.serverOut + b);
        var req := Take(c1.serverOut, LOCAL_BUFFER);
        if Parse(req, cfg.allowDomains).Pending? { PendingIsShort(req, cfg.allowDomains); }
        LookupNeedsDomains(req, cfg.allowDomains);
        ActInv(cfg, c1, Parse(req, cfg.allowDomains), env);
    }
  }

  /** Only a name request is posted, and it is the one recorded. */
  lemma ActPosts(cfg: Configs, c: Conn, d: Decision, env: Env)
    requires Deciding(cfg, c) && NewFdOk(c, env)
    ensures var e := Act(cfg, c, Client, d, env);
      Posted(c, e) == DecisionPosts(d) && (e.state == AsyncDns ==> e.info.ai == Nil)
  {
    match d
    case BadAddressType => ReplyWithErrInv(cfg, SetRep(c, REP_BADATYP), Client, 0);
    case Literal(cmd, target) =>
      var c1 := c.(info := c.info.(cmd := cmd, atyp := Atyp(target.family), sa := Some(target)));
      if Drops(cmd, c1.info.sa, c1.info.ai, cfg.blocks) {
        ReplyWithErrInv(cfg, SetRep(c1, REP_RULESET), Client, 0);
      } else {
        RunCommandInv(cfg, c1, env);
      }
    case _ =>
  }

  lemma CommandStepPosts(cfg: Configs, c: Conn, side: Side, ev: Event, env: Env)
    requires Inv(cfg, c) && c.state == WaitingCommand && EnvOk(c, env)
    ensures var d := Step(cfg, c, side, ev, env);
      Posted(c, d) == CommandPosts(cfg, c, side, ev, env) && (d.state == AsyncDns ==> d.info.ai == Nil)
  {
    if ev.input && side.Client? && env.recv.Some? {
      var c1 := c.(serverOut := c.serverOut + env.recv.value);
      ActPosts(cfg, c1, Parse(Take(c1.serverOut, LOCAL_BUFFER), cfg.allowDomains), env);
    }
  }

  lemma LookupNeedsDomains(req: seq<byte>, allowDomains: bool)
    ensures Parse(req, allowDomains).Lookup? ==> allowDomains
  {
  }

  /** An undecided request is at most 260 bytes long. */
  lemma PendingIsShort(req: seq<byte>, allowDomains: bool)
    requires Parse(req, allowDomains).Pending?
    ensures |req| < 261
  {
  }

  // ---- Sending replies

  /** The state once the client's queue has drained. */
  function Drained(c: Conn): Conn {
    c.(clientOut := [], clientMask := IN_ONLY, hist := c.hist.(toClient := c.hist.toClient + c.clientOut))
  }

  lemma KeepPartialSend(cfg: Configs, c: Conn, k: nat)
    requires Inv(cfg, c) && c.state in {SendingReply, SendingReply2} && !SendHandshake(c, LOCAL_BUFFER, k).1
    ensures Inv(cfg, SendHandshake(c, LOCAL_BUFFER, k).0)
  {
    SendMoves(c, LOCAL_BUFFER, k);
    KeepFewerQueued(cfg, c, SendHandshake(c, LOCAL_BUFFER, k).0);
  }

  lemma KeepFewerQueued(cfg: Configs, c: Conn, d: Conn)
    requires Inv(cfg, c) && c.state in {SendingReply, SendingReply2}
    requires d == c.(clientOut := d.clientOut, hist := c.hist.(toClient := d.hist.toClient))
    requires d.hist.toClient + d.clientOut == c.hist.toClient + c.clientOut && 0 < |d.clientOut| <= |c.clientOut|
    ensures Inv(cfg, d)
  {
    assert Script(d.hist) == Script(c.hist);
  }

  lemma KeepDrained(cfg: Configs, c: Conn, side: Side, ev: Event, env: Env)
    requires Inv(cfg, c) && c.state in {SendingReply, SendingReply2} && Live(c, side)
    requires ev.output && side.Client? && env.sent.Some? && SendHandshake(c, LOCAL_BUFFER, env.sent.value).1
    ensures Inv(cfg, Step(cfg, c, side, ev, env))
    ensures Successor(c.state, Step(cfg, c, side, ev, env).state)
  {
    SendMoves(c, LOCAL_BUFFER, env.sent.value);
    assert Step(cfg, c, side, ev, env) == ReplySent(Drained(c), Client);
    KeepReplySent(cfg, c);
  }

  lemma KeepReplySent(cfg: Configs, c: Conn)
    requires Inv(cfg, c) && c.state in {SendingReply, SendingReply2}
    ensures Inv(cfg, ReplySent(Drained(c), Client))
    ensures Successor(c.state, ReplySent(Drained(c), Client).state)
  {
    var d := Drained(c);
    if c.info.rep != REP_SUCCESS {
      HandshakeErrInv(cfg, d);
    } else if c.info.cmd == CMD_CONN || c.state == SendingReply2 {
      RelayStarts(cfg, c);
    }
  }

  lemma RelayStarts(cfg: Configs, c: Conn)
    requires Inv(cfg, c) && c.info.rep == REP_SUCCESS
    requires c.state == SendingReply2 || (c.state == SendingReply && c.info.cmd == CMD_CONN)
    ensures Inv(cfg, Drained(c).(state := Full))
  {
    var d := Drained(c);
    assert Announced(cfg, d.info, d.hist.replies, d.hist.bound, d.hist.peer);
    assert Conserved(d.hist.up, []) && Conserved(d.hist.down, []);
    assert Relaying(cfg, d.(state := Full));
  }

  lemma KeepSendFailed(cfg: Configs, c: Conn)
    requires Inv(cfg, c) && c.state in {SendingReply, SendingReply2}
    ensures Inv(cfg, HandshakeErr(SendFailed(c), Client))
  {
    HandshakeErrInv(cfg, SendFailed(c));
  }

  lemma SendReplyIs(cfg: Configs, c: Conn, side: Side, ev: Event, env: Env)
    requires c.state in {SendingReply, SendingReply2} && c.clientFd != c.serverFd
    requires !ev.output || side.Server? || env.sent.None? || !SendHandshake(c, LOCAL_BUFFER, env.sent.value).1
    ensures Step(cfg, c, side, ev, env) ==
      if !ev.output || side.Server? then c
      else if env.sent.None? then HandshakeErr(SendFailed(c), Client)
      else SendHandshake(c, LOCAL_BUFFER, env.sent.value).0
  {
  }

  lemma KeepUndrained(cfg: Configs, c: Conn, side: Side, ev: Event, env: Env)
    requires Inv(cfg, c) && c.state in {SendingReply, SendingReply2}
    requires !ev.output || side.Server? || env.sent.None? || !SendHandshake(c, LOCAL_BUFFER, env.sent.value).1
    requires Step(cfg, c, side, ev, env) ==
      if !ev.output || side.Server? then c
      else if env.sent.None? then HandshakeErr(SendFailed(c), Client)
      else SendHandshake(c, LOCAL_BUFFER, env.sent.value).0
    ensures Inv(cfg, Step(cfg, c, side, ev, env))
    ensures Successor(c.state, Step(cfg, c, side, ev, env).state)
  {
    if ev.output && side.Client? {
      if env.sent.None? { KeepSendFailed(cfg, c); } else { KeepPartialSend(cfg, c, env.sent.value); }
    }
  }

  lemma KeepSendReply(cfg: Configs, c: Conn, side: Side, ev: Event, env: Env)
    requires Inv(cfg, c) && c.state in {SendingReply, SendingReply2} && Live(c, side) && EnvOk(c, env)
    ensures Inv(cfg, Step(cfg, c, side, ev, env))
    ensures Successor(c.state, Step(cfg, c, side, ev, env).state)
  {
    if ev.output && side.Client? && env.sent.Some? && SendHandshake(c, LOCAL_BUFFER, env.sent.value).1 {
      KeepDrained(cfg, c, side, ev, env);
    } else {
      SendReplyIs(cfg, c, side, ev, env);
      KeepUndrained(cfg, c, side, ev, env);
    }
  }

  // ---- Connecting

  lemma {:induction false} AdvanceIs(ai: List<SockAddr>, n: nat)
    ensures Elements(Advance(ai, n)) == if n <= |Elements(ai)| then Elements(ai)[n..] else []
  {
    if n > 0 && ai.Cons? {
      AdvanceIs(ai.tail, n - 1);
      assert Elements(ai) == [ai.head] + Elements(ai.tail);
    }
  }

  /** The state once a failure frame is queued. */
  function Failed(c: Conn, rep: byte): Conn {
    var r := FailureReply(rep);
    c.(info := c.info.(rep := rep), clientOut := c.clientOut + Encode(r), clientMask := IN_OUT,
       state := SendingReply, hist := c.hist.(replies := c.hist.replies + [r]))
  }

  lemma FailWithEffect(c: Conn, side: Side, rep: byte)
    requires |c.clientOut| <= 20 && 1 <= rep <= 8
    ensures FailWith(c, side, rep) == Failed(c, rep)
  {
    ReplyWithErrEffect(SetRep(c, rep), side);
  }

  lemma FailWithInv(cfg: Configs, c: Conn, side: Side, rep: byte)
    requires Replyable(cfg, c, 0) && 1 <= rep <= 8
    ensures Inv(cfg, FailWith(c, side, rep)) && FailWith(c, side, rep).state == SendingReply
  {
    ReplyWithErrInv(cfg, SetRep(c, rep), side, 0);
  }

  lemma RepOfErrorFails(error: nat)
    ensures 1 <= RepOfError(error) <= 8
  {
  }

  /** The state once the next address in the list is being tried. */
  function NextTried(c: Conn, a: SockAddr): Conn {
    c.(info := c.info.(aiIndex := c.info.aiIndex + 1), hist := c.hist.(tried := c.hist.tried + [a]))
  }

  predicate HasNext(c: Conn) {
    var l := Elements(c.info.ai); |l| >= 2 && c.info.aiIndex + 1 < |l|
  }

  /** The state once no address is left to try. */
  function Exhausted(c: Conn): Conn {
    if |Elements(c.info.ai)| >= 2 then c.(info := c.info.(aiIndex := c.info.aiIndex + 1)) else c
  }

  lemma TryNextEffect(c: Conn, side: Side, error: nat)
    requires |c.clientOut| <= 20
    ensures TryNext(c, side, error) ==
      if HasNext(c) then NextTried(c, Elements(c.info.ai)[c.info.aiIndex + 1])
      else Failed(Exhausted(c), RepOfError(error))
  {
    var rep := RepOfError(error);
    RepOfErrorFails(error);
    AtLeastTwo(c.info.ai);
    AdvanceHead(c.info.ai, c.info.aiIndex + 1);
    if !HasNext(c) { FailWithEffect(Exhausted(c), side, rep); }
  }

  lemma AtLeastTwo(ai: List<SockAddr>)
    ensures ai.Cons? && ai.tail.Cons? <==> |Elements(ai)| >= 2
  {
  }

  lemma AdvanceHead(ai: List<SockAddr>, n: nat)
    ensures Advance(ai, n).Cons? <==> n < |Elements(ai)|
    ensures n < |Elements(ai)| ==> Advance(ai, n).head == Elements(ai)[n]
  {
    AdvanceIs(ai, n);
    if Advance(ai, n).Cons? { assert Elements(Advance(ai, n))[0] == Advance(ai, n).head; }
  }

  lemma NextTriedInv(cfg: Configs, c: Conn)
    requires Inv(cfg, c) && c.state == Connecting && HasNext(c)
    ensures Inv(cfg, NextTried(c, Elements(c.info.ai)[c.info.aiIndex + 1]))
  {
    var l, n := Elements(c.info.ai), c.info.aiIndex + 1;
    assert l[..n + 1] == l[..n] + [l[n]];
  }

  lemma ExhaustedReplyable(cfg: Configs, c: Conn)
    requires Inv(cfg, c) && c.state == Connecting
    ensures Replyable(cfg, c, 0) && Replyable(cfg, Exhausted(c), 0)
  {
  }

  lemma TryNextInv(cfg: Configs, c: Conn, side: Side, error: nat)
    requires Inv(cfg, c) && c.state == Connecting
    ensures Inv(cfg, TryNext(c, side, error)) && Successor(Connecting, TryNext(c, side, error).state)
  {
    ExhaustedReplyable(cfg, c);
    TryNextEffect(c, side, error);
    if HasNext(c) {
      NextTriedInv(cfg, c);
    } else {
      RepOfErrorFails(error);
      FailWithEffect(Exhausted(c), side, RepOfError(error));
      FailWithInv(cfg, Exhausted(c), side, RepOfError(error));
    }
  }

  /** The state once the connection is up. */
  function Connected(c: Conn, ss: SockAddr): Conn {
    var r := Reply(REP_SUCCESS, ss);
    c.(info := c.info.(rep := REP_SUCCESS), clientOut := c.clientOut + Encode(r), clientMask := IN_OUT,
       serverMask := IN_ONLY, state := SendingReply,
       hist := c.hist.(replies := c.hist.replies + [r], bound := Some(ss)))
  }

  lemma ConnectedInv(cfg: Configs, c: Conn, ss: SockAddr)
    requires Inv(cfg, c) && c.state == Connecting
    ensures Inv(cfg, Connected(c, ss))
  {
    var r := Reply(REP_SUCCESS, ss);
    ScriptAppend(c, r);
    assert Connected(c, ss).hist.replies == [r];
  }

  /** What readiness of the connecting socket leads to. */
  function ConnectOutcome(c: Conn, env: Env): Conn {
    if env.soError.None? || (env.soError.value == 0 && env.sockname.None?) then Failed(c, REP_GENFAIL)
    else if env.soError.value == 0 then Connected(c, env.sockname.value)
    else if HasNext(c) then NextTried(c, Elements(c.info.ai)[c.info.aiIndex + 1])
    else Failed(Exhausted(c), RepOfError(env.soError.value))
  }

  lemma ConnectingEffect(c: Conn, ev: Event, env: Env)
    requires |c.clientOut| <= 20 && c.clientFd != c.serverFd && ev.output
    ensures HandleConnecting(c, Server, ev, env) == ConnectOutcome(c, env)
  {
    FailWithEffect(c, Server, REP_GENFAIL);
    if env.soError.Some? && env.soError.value != 0 {
      TryNextEffect(c, Server, env.soError.value);
    } else if env.soError.Some? && env.sockname.Some? {
      ConnectedEffect(c, ev, env);
    }
  }

  lemma ConnectedEffect(c: Conn, ev: Event, env: Env)
    requires |c.clientOut| <= 20 && c.clientFd != c.serverFd
    requires ev.output && env.soError == Some(0) && env.sockname.Some?
    ensures HandleConnecting(c, Server, ev, env) == Connected(c, env.sockname.value)
  {
    QueueReplyAppends(SetRep(c, REP_SUCCESS), Reply(REP_SUCCESS, env.sockname.value));
  }

  lemma KeepConnecting(cfg: Configs, c: Conn, side: Side, ev: Event, env: Env)
    requires Inv(cfg, c) && c.state == Connecting && Live(c, side) && EnvOk(c, env)
    ensures Inv(cfg, Step(cfg, c, side, ev, env))
    ensures Successor(c.state, Step(cfg, c, side, ev, env).state)
  {
    if ev.output && side.Server? {
      if env.soError.None? || (env.soError.value == 0 && env.sockname.None?) {
        ExhaustedReplyable(cfg, c);
        FailWithInv(cfg, c, side, REP_GENFAIL);
      } else if env.soError.value != 0 {
        TryNextInv(cfg, c, side, env.soError.value);
      } else {
        ConnectedEffect(c, ev, env);
        ConnectedInv(cfg, c, env.sockname.value);
      }
    }
  }

  /** The state once the named peer was accepted. */
  function PeerAccepted(c: Conn, fd: int, peer: SockAddr): Conn {
    var r := Reply(REP_SUCCESS, peer);
    c.(info := c.info.(rep := REP_SUCCESS), serverFd := fd, clientOut := c.clientOut + Encode(r),
       clientMask := IN_OUT, serverMask := IN_ONLY, state := SendingReply2,
       hist := c.hist.(replies := c.hist.replies + [r], peer := Some(peer)))
  }

  lemma PeerAcceptedInv(cfg: Configs, c: Conn, fd: int, peer: SockAddr)
    requires Inv(cfg, c) && c.state == BindListening && fd >= 0 && fd != c.clientFd
    requires Requested(c.info) == Some(peer)
    ensures Inv(cfg, PeerAccepted(c, fd, peer))
  {
    var d := PeerAccepted(c, fd, peer);
    ScriptAppend(c, Reply(REP_SUCCESS, peer));
    assert d.hist.replies[0] == c.hist.replies[0];
    assert Announced(cfg, d.info, d.hist.replies, d.hist.bound, d.hist.peer);
  }

  /** What the listening server socket leads to. */
  function ListenOutcome(c: Conn, env: Env): Conn {
    var req := Requested(c.info);
    if env.newFd == -1 || req.None? then Failed(c, REP_GENFAIL)
    else if req.value != env.peer then Failed(c, REP_RULESET)
    else PeerAccepted(c, env.newFd, env.peer)
  }

  lemma ListeningEffect(c: Conn, ev: Event, env: Env)
    requires |c.clientOut| <= 20 && c.clientFd != c.serverFd && ev.input && NewFdOk(c, env)
    ensures HandleListening(c, Server, ev, env) == ListenOutcome(c, env)
  {
    var req := Requested(c.info);
    if env.newFd == -1 || req.None? {
      FailWithEffect(c, Server, REP_GENFAIL);
    } else if req.value != env.peer {
      FailWithEffect(c, Server, REP_RULESET);
    } else {
      var c1 := Register(c, c.serverFd, Unregistered).(serverFd := env.newFd);
      QueueReplyAppends(SetRep(Register(c1, env.newFd, IN_ONLY), REP_SUCCESS), Reply(REP_SUCCESS, env.peer));
    }
  }

  lemma KeepListening(cfg: Configs, c: Conn, side: Side, ev: Event, env: Env)
    requires Inv(cfg, c) && c.state == BindListening && Live(c, side) && EnvOk(c, env)
    ensures Inv(cfg, Step(cfg, c, side, ev, env))
    ensures Successor(c.state, Step(cfg, c, side, ev, env).state)
  {
    if ev.input && side.Server? {
      ListeningEffect(c, ev, env);
      var req := Requested(c.info);
      if env.newFd == -1 || req.None? {
        FailWithEffect(c, side, REP_GENFAIL);
        FailWithInv(cfg, c, side, REP_GENFAIL);
      } else if req.value != env.peer {
        FailWithEffect(c, side, REP_RULESET);
        FailWithInv(cfg, c, side, REP_RULESET);
      } else {
        PeerAcceptedInv(cfg, c, env.newFd, env.peer);
      }
    }
  }

  // ---- Relaying

  lemma ConservedSend(lane: Lane, ring: seq<byte>, k: nat)
    requires Conserved(lane, ring)
    ensures Conserved(Sent(lane, Take(ring, k)), Drop(ring, k))
  {
    assert Take(ring, k) + Drop(ring, k) == ring;
    assert lane.sent + Take(ring, k) + Drop(ring, k) == lane.sent + ring;
  }

  lemma ConservedReceive(lane: Lane, ring: seq<byte>, b: seq<byte>)
    requires Conserved(lane, ring)
    ensures Conserved(Received(lane, b, |ring| + |b| <= CAPACITY), Push(ring, b))
  {
    var kept := |ring| + |b| <= CAPACITY;
    var l := Received(lane, b, kept);
    var n := |lane.chunks|;
    assert l.chunks[..n] == lane.chunks && l.kept[..n] == lane.kept;
    assert lane.sent + (ring + b) == lane.sent + ring + b;
    assert Stored(lane.chunks, lane.kept) + [] == Stored(lane.chunks, lane.kept);
  }

  /** A lane, its ring and its registration may move together. */
  lemma KeepUp(cfg: Configs, c: Conn, lane: Lane, ring: seq<byte>, mask: Mask)
    requires Inv(cfg, c) && c.state == Full && Conserved(lane, ring) && |ring| <= CAPACITY && Awake(mask, ring)
    ensures Inv(cfg, c.(serverOut := ring, serverMask := mask, hist := c.hist.(up := lane)))
  {
  }

  lemma KeepDown(cfg: Configs, c: Conn, lane: Lane, ring: seq<byte>, mask: Mask)
    requires Inv(cfg, c) && c.state == Full && Conserved(lane, ring) && |ring| <= CAPACITY && Awake(mask, ring)
    ensures Inv(cfg, c.(clientOut := ring, clientMask := mask, hist := c.hist.(down := lane)))
  {
  }

  lemma FullFacts(cfg: Configs, c: Conn)
    requires Inv(cfg, c) && c.state == Full
    ensures c.clientFd != c.serverFd && |c.clientOut| <= CAPACITY && |c.serverOut| <= CAPACITY
    ensures Conserved(c.hist.up, c.serverOut) && Conserved(c.hist.down, c.clientOut)
    ensures Awake(c.clientMask, c.clientOut) && Awake(c.serverMask, c.serverOut)
  {
  }

  lemma KeepHalfClosing(cfg: Configs, c: Conn, d: Conn)
    requires Inv(cfg, c) && c.state == Full
    requires d == c.(state := HalfClose, clientMask := d.clientMask, serverMask := d.serverMask)
    requires d.clientMask.Registered? && d.serverMask.Registered?
    ensures Inv(cfg, d)
  {
  }

  /** Effect of a send on the given side: its ring and lane move; an empty ring ends the waiting. */
  function SentOn(c: Conn, side: Side, k: nat): Conn {
    if side.Client? then
      var ring := Drop(c.clientOut, k);
      c.(clientOut := ring, clientMask := if ring == [] then IN_ONLY else c.clientMask,
         hist := c.hist.(down := Sent(c.hist.down, Take(c.clientOut, k))))
    else
      var ring := Drop(c.serverOut, k);
      c.(serverOut := ring, serverMask := if ring == [] then IN_ONLY else c.serverMask,
         hist := c.hist.(up := Sent(c.hist.up, Take(c.serverOut, k))))
  }

  /** Effect of receiving b from the given side. */
  function ReceivedFrom(c: Conn, side: Side, b: seq<byte>): Conn {
    if side.Client? then
      c.(serverOut := Push(c.serverOut, b), serverMask := IN_OUT,
         hist := c.hist.(up := Received(c.hist.up, b, |c.serverOut| + |b| <= CAPACITY)))
    else
      c.(clientOut := Push(c.clientOut, b), clientMask := IN_OUT,
         hist := c.hist.(down := Received(c.hist.down, b, |c.clientOut| + |b| <= CAPACITY)))
  }

  lemma FullOutput(cfg: Configs, c: Conn, side: Side, ev: Event, env: Env)
    requires c.state == Full && ev.output && c.clientFd != c.serverFd
    ensures Step(cfg, c, side, ev, env) ==
      if env.sent.None? then c.(state := HalfClose) else SentOn(c, side, env.sent.value)
  {
  }

  lemma FullInput(cfg: Configs, c: Conn, side: Side, ev: Event, env: Env)
    requires c.state == Full && !ev.output && ev.input && c.clientFd != c.serverFd
    ensures Step(cfg, c, side, ev, env) ==
      if env.recv.None? then Register(c.(state := HalfClose), PeerFd(c, side), IN_OUT)
      else ReceivedFrom(c, side, env.recv.value)
  {
  }

  lemma KeepSentOn(cfg: Configs, c: Conn, side: Side, k: nat)
    requires Inv(cfg, c) && c.state == Full
    ensures Inv(cfg, SentOn(c, side, k))
  {
    FullFacts(cfg, c);
    var d := SentOn(c, side, k);
    if side.Client? {
      ConservedSend(c.hist.down, c.clientOut, k);
      KeepDown(cfg, c, d.hist.down, d.clientOut, d.clientMask);
    } else {
      ConservedSend(c.hist.up, c.serverOut, k);
      KeepUp(cfg, c, d.hist.up, d.serverOut, d.serverMask);
    }
  }

  lemma KeepReceivedFrom(cfg: Configs, c: Conn, side: Side, b: seq<byte>)
    requires Inv(cfg, c) && c.state == Full
    ensures Inv(cfg, ReceivedFrom(c, side, b))
  {
    FullFacts(cfg, c);
    var d := ReceivedFrom(c, side, b);
    if side.Client? {
      ConservedReceive(c.hist.up, c.serverOut, b);
      KeepUp(cfg, c, d.hist.up, d.serverOut, IN_OUT);
    } else {
      ConservedReceive(c.hist.down, c.clientOut, b);
      KeepDown(cfg, c, d.hist.down, d.clientOut, IN_OUT);
    }
  }

  lemma KeepFullOutput(cfg: Configs, c: Conn, side: Side, ev: Event, env: Env)
    requires Inv(cfg, c) && c.state == Full && ev.output
    ensures Inv(cfg, Step(cfg, c, side, ev, env))
    ensures Successor(c.state, Step(cfg, c, side, ev, env).state)
  {
    FullFacts(cfg, c);
    FullOutput(cfg, c, side, ev, env);
    if env.sent.None? {
      KeepHalfClosing(cfg, c, c.(state := HalfClose));
    } else {
      KeepSentOn(cfg, c, side, env.sent.value);
    }
  }

  lemma KeepFullInput(cfg: Configs, c: Conn, side: Side, ev: Event, env: Env)
    requires Inv(cfg, c) && c.state == Full && !ev.output && ev.input
    ensures Inv(cfg, Step(cfg, c, side, ev, env))
    ensures Successor(c.state, Step(cfg, c, side, ev, env).state)
  {
    FullFacts(cfg, c);
    FullInput(cfg, c, side, ev, env);
    if env.recv.None? {
      KeepHalfClosing(cfg, c, Register(c.(state := HalfClose), PeerFd(c, side), IN_OUT));
    } else {
      KeepReceivedFrom(cfg, c, side, env.recv.value);
    }
  }

  lemma KeepFull(cfg: Configs, c: Conn, side: Side, ev: Event, env: Env)
    requires Inv(cfg, c) && c.state == Full
    ensures Inv(cfg, Step(cfg, c, side, ev, env))
    ensures Successor(c.state, Step(cfg, c, side, ev, env).state)
  {
    if ev.output {
      KeepFullOutput(cfg, c, side, ev, env);
    } else if ev.input {
      KeepFullInput(cfg, c, side, ev, env);
    } else {
      assert Step(cfg, c, side, ev, env) == c;
    }
  }

  // ---- Closing and the resolver

  lemma KeepClosing(cfg: Configs, c: Conn, side: Side, ev: Event, env: Env)
    requires Inv(cfg, c) && c.state in {HalfClose, Closed, AsyncDns, FullUdpa} && Live(c, side)
    ensures Inv(cfg, Step(cfg, c, side, ev, env))
    ensures Successor(c.state, Step(cfg, c, side, ev, env).state)
  {
    if c.state == HalfClose {
      assert c.hist.up.sent <= c.hist.up.sent + c.serverOut;
      assert c.hist.down.sent <= c.hist.down.sent + c.clientOut;
      if c.info.cmd == CMD_CONN { assert Shape(c.hist.replies, 1); }
    }
  }

  lemma StoreAddressesInv(cfg: Configs, c: Conn, ai: List<SockAddr>)
    requires Inv(cfg, c) && c.state == AsyncDns
    ensures Inv(cfg, StoreAddresses(c, ai))
  {
  }

  lemma KeepResolved(cfg: Configs, c: Conn, gaiRet: int, env: Env)
    requires Inv(cfg, c) && c.state == AsyncDns && AnswerOk(c.info.ai, gaiRet) && NewFdOk(c, env)
    ensures Inv(cfg, ResolverReturned(cfg, c, gaiRet, env))
    ensures ResolverReturned(cfg, c, gaiRet, env).state in {Connecting, SendingReply}
  {
    if gaiRet != 0 {
      KeepFailedLookup(cfg, c, gaiRet, env);
    } else {
      RunCommandInv(cfg, c.(info := c.info.(resolverRet := 0), state := WaitingCommand), env);
    }
  }

  lemma KeepFailedLookup(cfg: Configs, c: Conn, gaiRet: int, env: Env)
    requires Inv(cfg, c) && c.state == AsyncDns && AnswerOk(c.info.ai, gaiRet) && gaiRet != 0
    ensures var d := ResolverReturned(cfg, c, gaiRet, env); Inv(cfg, d) && d.state == SendingReply
  {
    var c1 := c.(info := c.info.(resolverRet := gaiRet), state := WaitingCommand);
    ReplyWithErrInv(cfg, SetRep(c1, REP_GENFAIL), Client, 0);
    RunCommandAfterFailedLookup(cfg, FailWith(c1, Client, REP_GENFAIL), env);
  }

  // ---- Every step, every run

  lemma RequestStepInv(cfg: Configs, c: Conn, side: Side, ev: Event, env: Env)
    requires Inv(cfg, c) && c.state in {WaitingMethods, SendingMethod, WaitingCommand} && Live(c, side) && EnvOk(c, env)
    ensures Inv(cfg, Step(cfg, c, side, ev, env))
    ensures Successor(c.state, Step(cfg, c, side, ev, env).state)
  {
    match c.state
    case WaitingMethods => KeepMethods(cfg, c, side, ev, env);
    case SendingMethod => KeepSendMethod(cfg, c, side, ev, env);
    case WaitingCommand => KeepCommand(cfg, c, side, ev, env);
  }

  lemma ReplyStepInv(cfg: Configs, c: Conn, side: Side, ev: Event, env: Env)
    requires Inv(cfg, c) && c.state in {SendingReply, SendingReply2, Connecting, BindListening}
    requires Live(c, side) && EnvOk(c, env)
    ensures Inv(cfg, Step(cfg, c, side, ev, env))
    ensures Successor(c.state, Step(cfg, c, side, ev, env).state)
  {
    if c.state == Connecting {
      KeepConnecting(cfg, c, side, ev, env);
    } else if c.state == BindListening {
      KeepListening(cfg, c, side, ev, env);
    } else {
      KeepSendReply(cfg, c, side, ev, env);
    }
  }

  lemma StepInv(cfg: Configs, c: Conn, side: Side, ev: Event, env: Env)
    requires Inv(cfg, c) && Live(c, side) && EnvOk(c, env)
    ensures Inv(cfg, Step(cfg, c, side, ev, env))
    ensures Successor(c.state, Step(cfg, c, side, ev, env).state)
  {
    if c.state in {WaitingMethods, SendingMethod, WaitingCommand} {
      RequestStepInv(cfg, c, side, ev, env);
    } else if c.state in {SendingReply, SendingReply2, Connecting, BindListening} {
      ReplyStepInv(cfg, c, side, ev, env);
    } else if c.state == Full {
      KeepFull(cfg, c, side, ev, env);
    } else {
      KeepClosing(cfg, c, side, ev, env);
    }
  }

  /** What a step posts is what its handler posts. */
  lemma StepPosts(cfg: Configs, c: Conn, side: Side, ev: Event, env: Env)
    requires Inv(cfg, c) && Live(c, side) && EnvOk(c, env)
    ensures Posted(c, Step(cfg, c, side, ev, env)) ==
      if c.state == WaitingCommand then CommandPosts(cfg, c, side, ev, env) else None
  {
    if c.state == WaitingCommand {
      CommandStepPosts(cfg, c, side, ev, env);
    } else {
      StepInv(cfg, c, side, ev, env);
    }
  }

  lemma ApplyInv(cfg: Configs, c: Conn, i: Input)
    requires Inv(cfg, c) && Enabled(c, i)
    ensures Inv(cfg, Apply(cfg, c, i)) && Successor(c.state, Apply(cfg, c, i).state)
  {
    match i
    case Ready(side, ev, env) => StepInv(cfg, c, side, ev, env);
    case Resolved(ai, gaiRet, env) =>
      StoreAddressesInv(cfg, c, ai);
      KeepResolved(cfg, StoreAddresses(c, ai), gaiRet, env);
  }

  lemma {:induction false} RunInv(cfg: Configs, c: Conn, run: seq<Input>)
    requires Inv(cfg, c) && Possible(cfg, c, run)
    ensures Inv(cfg, Run(cfg, c, run))
    decreases |run|
  {
    if run != [] {
      ApplyInv(cfg, c, run[0]);
      RunInv(cfg, Apply(cfg, c, run[0]), run[1..]);
    }
  }
}
