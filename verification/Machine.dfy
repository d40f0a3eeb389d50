/**
 * The connection state machine as functions on values: one function per state handler, the
 * results of system calls being arguments. `Connection.dfy` proves the in-place handlers
 * against these functions; the other modules prove what runs of them guarantee.
 */
module Machine {
  import opened Wire
  import opened Bits
  import opened Firewall

  // ---- Constants

  /** Ring capacity. */
  const CAPACITY := 4096
  /** Local buffer of the command and reply handlers. */
  const LOCAL_BUFFER := 300

  const METH_NOAUTH: byte := 0
  const METH_NOMETH: byte := 0xFF

  const ENETUNREACH := 101
  const ETIMEDOUT := 110
  const ECONNREFUSED := 111
  const EHOSTUNREACH := 113

  // ---- Configuration and environment

  datatype RawConfigs = Configs(
    allowDomains: bool,
    allowConnect: bool,
    allowBind: bool,
    allowUdpAssoc: bool,
    methods: seq<bool>,
    bindAdvertise: List<SockAddr>,
    bindListen: List<SockAddr>,
    udpaAdvertise: List<SockAddr>,
    udpaListen: List<SockAddr>,
    blocks: List<Block>)

  type Configs = c: RawConfigs | |c.methods| == 255
    witness Configs(false, false, false, false, seq(255, _ => false), Nil, Nil, Nil, Nil, Nil)

  /** Entry 0xFF lies past the table and counts as not configured. */
  predicate Configured(cfg: Configs, m: byte) {
    m < 255 && cfg.methods[m]
  }

  /** What the system calls of one step return. Failures are None, -1 or false. */
  datatype Env = Env(
    recv: Option<seq<byte>>,
    sent: Option<nat>,
    newFd: int,
    connected: bool,
    bound: bool,
    listening: bool,
    sockname: Option<SockAddr>,
    soError: Option<nat>,
    peer: SockAddr,
    udpaShown: SockAddr)

  /** Readiness bits of one epoll event. */
  datatype Event = Event(input: bool, output: bool)

  /** Which of the two Data records of the connection an event carries. */
  datatype Side = Client | Server

  // ---- State

  datatype State =
    | WaitingMethods | SendingMethod | WaitingCommand | AsyncDns
    | SendingReply | SendingReply2 | Connecting | BindListening
    | Full | FullUdpa | HalfClose | Closed

  /** Registration of a descriptor with epoll. */
  datatype Mask = Unregistered | Registered(input: bool, output: bool)

  const IN_ONLY := Registered(true, false)
  const OUT_ONLY := Registered(false, true)
  const IN_OUT := Registered(true, true)

  datatype Info = Info(
    meth: byte,
    rep: byte,
    cmd: byte,
    atyp: byte,
    resolverRet: int,
    aiIndex: nat,
    ai: List<SockAddr>,
    sa: Option<SockAddr>)

  const NO_INFO := Info(UNSET, UNSET, UNSET, UNSET, -1, 0, Nil, None)

  /** A name lookup handed to the resolver. */
  datatype Query = Query(name: seq<byte>, port: seq<byte>)

  /** One direction of the relay: chunks received, whether each was stored, and bytes sent on. */
  datatype Lane = Lane(chunks: seq<seq<byte>>, kept: seq<bool>, sent: seq<byte>)

  const NEW_LANE := Lane([], [], [])

  /** What happened so far; no handler reads it. */
  datatype History = History(
    offered: seq<byte>,
    greeting: seq<byte>,
    toClient: seq<byte>,
    replies: seq<Reply>,
    sendFailed: bool,
    tried: seq<SockAddr>,
    lookups: seq<Query>,
    bound: Option<SockAddr>,
    peer: Option<SockAddr>,
    clientFrees: nat,
    serverFrees: nat,
    sharedFrees: nat,
    up: Lane,
    down: Lane)

  const NEW_HISTORY := History([], [], [], [], false, [], [], None, None, 0, 0, 0, NEW_LANE, NEW_LANE)

  datatype Conn = Conn(
    state: State,
    clientFd: int,
    serverFd: int,
    clientOut: seq<byte>,
    serverOut: seq<byte>,
    clientLive: bool,
    serverLive: bool,
    clientMask: Mask,
    serverMask: Mask,
    info: Info,
    infoLive: bool,
    hist: History)

  /** A freshly accepted client. */
  function Accepted(fd: int): Conn {
    Conn(WaitingMethods, fd, -1, [], [], true, false, IN_ONLY, Unregistered, NO_INFO, true, NEW_HISTORY)
  }

  // ---- Helpers

  function Take(q: seq<byte>, n: nat): seq<byte> {
    if n < |q| then q[..n] else q
  }

  function Drop(q: seq<byte>, n: nat): seq<byte> {
    if n < |q| then q[n..] else []
  }

  /** A ring write: all or nothing. */
  function Push(q: seq<byte>, b: seq<byte>): seq<byte> {
    if |q| + |b| <= CAPACITY then q + b else q
  }

  function SelfFd(c: Conn, side: Side): int {
    if side.Client? then c.clientFd else c.serverFd
  }

  function Register(c: Conn, fd: int, m: Mask): Conn {
    if fd == c.clientFd then c.(clientMask := m)
    else if fd == c.serverFd then c.(serverMask := m)
    else c
  }

  function SetRep(c: Conn, rep: byte): Conn {
    c.(info := c.info.(rep := rep))
  }

  /** The four writes that queue one reply frame. */
  function QueueReply(c: Conn, r: Reply): Conn {
    c.(clientOut :=
         Push(Push(Push(Push(c.clientOut, [VERSION, r.rep, 0]), [Atyp(r.addr.family)]), r.addr.addr), r.addr.port),
       hist := c.hist.(replies := c.hist.replies + [r]))
  }

  /** First address of a list with the given family. */
  function FirstOf(addrs: List<SockAddr>, f: Family): (r: Option<SockAddr>)
    ensures r.Some? ==> r.value.family == f
  {
    match addrs
    case Nil => None
    case Cons(a, rest) => if a.family == f then Some(a) else FirstOf(rest, f)
  }

  function Advance(ai: List<SockAddr>, n: nat): List<SockAddr> {
    if n == 0 || ai.Nil? then ai else Advance(ai.tail, n - 1)
  }

  function FreeData(c: Conn, side: Side): Conn {
    var self := SelfFd(c, side);
    var clientLive := c.clientLive && self != c.clientFd;
    var serverLive := c.serverLive && self != c.serverFd;
    c.(info := NO_INFO, infoLive := false, clientOut := [], serverOut := [],
       clientLive := clientLive, serverLive := serverLive,
       hist := c.hist.(
         clientFrees := c.hist.clientFrees + (if side.Client? then 1 else 0),
         serverFrees := c.hist.serverFrees + (if side.Server? then 1 else 0),
         sharedFrees := c.hist.sharedFrees + (if clientLive || serverLive then 0 else 1)))
  }

  function HandshakeErr(c: Conn, side: Side): Conn {
    FreeData(Register(c.(state := Closed), SelfFd(c, side), Unregistered), side)
  }

  function FailureReply(rep: byte): Reply { Reply(rep, ANY_ADDR) }

  function ReplyWithErr(c: Conn, side: Side): Conn {
    var c1 := if c.info.rep < 1 || c.info.rep > 8 then SetRep(c, REP_GENFAIL) else c;
    if 10 > CAPACITY - |c1.clientOut| then HandshakeErr(c1, side)
    else
      var c2 := c1.(clientOut := c1.clientOut + Encode(FailureReply(c1.info.rep)),
                    hist := c1.hist.(replies := c1.hist.replies + [FailureReply(c1.info.rep)]),
                    state := SendingReply);
      Register(c2, c2.clientFd, IN_OUT)
  }

  function FailWith(c: Conn, side: Side, rep: byte): Conn {
    ReplyWithErr(SetRep(c, rep), side)
  }

  // ---- Commands

  function InitConnect(c: Conn, env: Env): Conn {
    if c.info.ai.Nil? && c.info.sa.None? then SetRep(c, REP_GENFAIL)
    else if env.newFd == -1 then SetRep(c, REP_GENFAIL)
    else
      var target := if c.info.sa.Some? then c.info.sa.value else c.info.ai.head;
      var c1 := c.(hist := c.hist.(tried := c.hist.tried + [target]));
      if !env.connected then SetRep(c1, REP_GENFAIL)
      else
        var c2 := c1.(info := c1.info.(aiIndex := if c1.info.sa.Some? then c1.info.aiIndex else 0),
                      serverLive := true, serverFd := env.newFd, serverOut := []);
        Register(c2, env.newFd, OUT_ONLY).(state := Connecting)
  }

  /** The destination the client named: the literal address or the first resolved one. */
  function Requested(info: Info): Option<SockAddr> {
    if info.sa.Some? then info.sa
    else if info.ai.Cons? then Some(info.ai.head)
    else None
  }

  /** The address of one socket address with the port of another. */
  function WithPort(a: SockAddr, p: SockAddr): SockAddr {
    SockAddr(a.family, a.addr, p.port)
  }

  /** Announce an open server socket to the client and watch it. */
  function OpenSocket(c: Conn, r: Reply): Conn {
    var c1 := QueueReply(SetRep(c, REP_SUCCESS), r);
    var c2 := Register(c1, c1.clientFd, IN_OUT).(serverOut := []);
    Register(c2, c2.serverFd, IN_ONLY).(state := SendingReply)
  }

  /** How far opening a listening or relay socket gets. */
  datatype Opening = Refused(rep: byte) | Nameless | Announce(reply: Reply)

  function BindOpening(cfg: Configs, info: Info, env: Env): Opening {
    if Requested(info).None? || env.newFd == -1 then Refused(REP_GENFAIL)
    else
      var af := Requested(info).value.family;
      var advertise := FirstOf(cfg.bindAdvertise, af);
      if FirstOf(cfg.bindListen, af).None? || advertise.None? then Refused(REP_BADATYP)
      else if !env.bound || !env.listening then Refused(REP_GENFAIL)
      else if env.sockname.None? then Nameless
      else Announce(Reply(REP_SUCCESS, WithPort(advertise.value, env.sockname.value)))
  }

  function InitBind(cfg: Configs, c: Conn, env: Env): Conn {
    match BindOpening(cfg, c.info, env)
    case Refused(rep) => SetRep(c, rep)
    case Nameless => SetRep(c.(serverLive := true, serverFd := env.newFd), REP_GENFAIL)
    case Announce(r) =>
      OpenSocket(c.(serverLive := true, serverFd := env.newFd, hist := c.hist.(bound := env.sockname)), r)
  }

  /** The advertised address is read from the wrong memory; it comes from the environment here. */
  function UdpaOpening(cfg: Configs, info: Info, env: Env): Opening {
    if Requested(info).None? || env.newFd == -1 then Refused(REP_GENFAIL)
    else
      var af := Requested(info).value.family;
      if FirstOf(cfg.udpaListen, af).None? || FirstOf(cfg.udpaAdvertise, af).None? then Refused(REP_BADATYP)
      else if !env.bound then Refused(REP_GENFAIL)
      else Announce(Reply(REP_SUCCESS, env.udpaShown))
  }

  function InitUdpa(cfg: Configs, c: Conn, env: Env): Conn {
    match UdpaOpening(cfg, c.info, env)
    case Refused(rep) => SetRep(c, rep)
    case Nameless => c
    case Announce(r) => OpenSocket(c.(serverLive := true, serverFd := env.newFd), r)
  }

  function InitCommand(cfg: Configs, c: Conn, side: Side, env: Env): Conn {
    if c.info.cmd == CMD_CONN then
      if cfg.allowConnect then InitConnect(c, env) else FailWith(c, side, REP_BADCOMM)
    else if c.info.cmd == CMD_BIND then
      if cfg.allowBind then InitBind(cfg, c, env) else FailWith(c, side, REP_BADCOMM)
    else if c.info.cmd == CMD_UDPA then
      if cfg.allowUdpAssoc then InitUdpa(cfg, c, env) else FailWith(c, side, REP_BADCOMM)
    else FailWith(c, side, REP_BADCOMM)
  }

  /** Start the command; when it failed, queue the failure frame. */
  function RunCommand(cfg: Configs, c: Conn, side: Side, env: Env): Conn {
    var c1 := InitCommand(cfg, c, side, env);
    if c1.info.rep != UNSET && c1.info.rep != REP_SUCCESS then ReplyWithErr(c1, side) else c1
  }

  // ---- Handlers

  /** First method in the client's order that is configured, else 0xFF. */
  function Select(cfg: Configs, offered: seq<byte>): byte {
    if offered == [] then METH_NOMETH
    else if Configured(cfg, offered[0]) then offered[0]
    else Select(cfg, offered[1..])
  }

  /** Select a method and queue the method reply; `rest` stays in the input ring. */
  function AnswerMethods(cfg: Configs, c: Conn, side: Side, offered: seq<byte>, rest: seq<byte>): Conn {
    var selected := Select(cfg, offered);
    Register(
      c.(serverOut := rest, clientOut := Push(c.clientOut, [VERSION, selected]), state := SendingMethod,
         info := c.info.(meth := selected),
         hist := c.hist.(offered := offered, greeting := [VERSION, selected])),
      SelfFd(c, side), IN_OUT)
  }

  /** Look at the greeting as far as it is in the input ring. */
  function AnswerGreeting(cfg: Configs, c: Conn, side: Side): Conn {
    var q := c.serverOut;
    if |q| < 2 || |q| < 2 + q[1] as int then c
    else if q[0] != VERSION then HandshakeErr(c.(serverOut := q[2..]), side)
    else AnswerMethods(cfg, c, side, q[2..2 + q[1] as int], q[2 + q[1] as int..])
  }

  function HandleMethods(cfg: Configs, c: Conn, side: Side, ev: Event, env: Env): Conn {
    if !ev.input || SelfFd(c, side) != c.clientFd then c
    else match env.recv
      case None => HandshakeErr(c, side)
      case Some(b) =>
        if |b| > CAPACITY - |c.serverOut| then HandshakeErr(c, side)
        else AnswerGreeting(cfg, c.(serverOut := c.serverOut + b), side)
  }

  /** Send up to n queued bytes; the flag says whether all of them left. */
  function SendHandshake(c: Conn, n: nat, k: nat): (Conn, bool) {
    var peek := Take(c.clientOut, n);
    if k < |peek| then
      (c.(clientOut := Drop(c.clientOut, k), hist := c.hist.(toClient := c.hist.toClient + Take(peek, k))), false)
    else
      (c.(clientOut := Drop(c.clientOut, |peek|), hist := c.hist.(toClient := c.hist.toClient + peek)), true)
  }

  function SendFailed(c: Conn): Conn {
    c.(hist := c.hist.(sendFailed := true))
  }

  function HandleSendMethod(c: Conn, side: Side, ev: Event, env: Env): Conn {
    if !ev.output || SelfFd(c, side) != c.clientFd then c
    else match env.sent
      case None => HandshakeErr(SendFailed(c), side)
      case Some(k) =>
        var (c1, all) := SendHandshake(c, 2, k);
        if !all then c1
        else
          var c2 := Register(c1, SelfFd(c1, side), IN_ONLY);
          if c2.info.meth == METH_NOAUTH then c2.(state := WaitingCommand)
          else HandshakeErr(c2, side)
  }

  /** What the bytes of a request, as far as they arrived, ask for. */
  datatype Decision =
    | Pending
    | BadAddressType
    | BadVersion(cmd: byte, atyp: byte)
    | Literal(cmd: byte, target: SockAddr)
    | Lookup(cmd: byte, query: Query)

  /** Decision on the bytes peeked; a byte that has not arrived reads as zero. */
  function Parse(req: seq<byte>, allowDomains: bool): Decision {
    if |req| < 5 then Pending
    else if req[3] == ATYP_IPV4 then
      if |req| < 10 then Pending
      else if req[0] != VERSION then BadVersion(req[1], req[3])
      else Literal(req[1], SockAddr(Inet, req[4..8], req[8..10]))
    else if req[3] == ATYP_IPV6 then
      if |req| < 22 then Pending
      else if req[0] != VERSION then BadVersion(req[1], req[3])
      else Literal(req[1], SockAddr(Inet6, req[4..20], req[20..22]))
    else if req[3] == ATYP_DOMN && allowDomains then
      var n: nat := req[4];
      if |req| < 6 + n then Pending
      else if req[0] != VERSION then BadVersion(req[1], req[3])
      else Lookup(req[1], Query(req[5..5 + n], [req[5 + n], if |req| > 6 + n then req[6 + n] else 0]))
    else BadAddressType
  }

  /** Carry out a decision. */
  function Act(cfg: Configs, c: Conn, side: Side, d: Decision, env: Env): Conn {
    match d
    case Pending => c
    case BadAddressType => FailWith(c, side, REP_BADATYP)
    case BadVersion(cmd, atyp) => HandshakeErr(c, side)
    case Lookup(cmd, query) =>
      c.(info := c.info.(cmd := cmd, atyp := ATYP_DOMN), state := AsyncDns,
         hist := c.hist.(lookups := c.hist.lookups + [query]))
    case Literal(cmd, target) =>
      var c1 := c.(info := c.info.(cmd := cmd, atyp := Atyp(target.family), sa := Some(target)));
      if Drops(c1.info.cmd, c1.info.sa, c1.info.ai, cfg.blocks) then FailWith(c1, side, REP_RULESET)
      else RunCommand(cfg, c1, side, env)
  }

  function HandleCommand(cfg: Configs, c: Conn, side: Side, ev: Event, env: Env): Conn {
    if !ev.input || SelfFd(c, side) != c.clientFd then c
    else if c.info.resolverRet != -1 then
      var c1 := if c.info.resolverRet != 0 then FailWith(c, side, REP_GENFAIL) else c;
      RunCommand(cfg, c1, side, env)
    else match env.recv
      case None => HandshakeErr(c, side)
      case Some(b) =>
        if |b| > CAPACITY - |c.serverOut| then HandshakeErr(c, side)
        else
          var c1 := c.(serverOut := c.serverOut + b);
          Act(cfg, c1, side, Parse(Take(c1.serverOut, LOCAL_BUFFER), cfg.allowDomains), env)
  }

  /** The request that a decision writes to the pipe of the resolver. */
  function DecisionPosts(d: Decision): Option<Query> {
    if d.Lookup? then Some(d.query) else None
  }

  function CommandPosts(cfg: Configs, c: Conn, side: Side, ev: Event, env: Env): Option<Query> {
    if !ev.input || SelfFd(c, side) != c.clientFd || c.info.resolverRet != -1 || env.recv.None? then None
    else if |env.recv.value| > CAPACITY - |c.serverOut| then None
    else DecisionPosts(Parse(Take(c.serverOut + env.recv.value, LOCAL_BUFFER), cfg.allowDomains))
  }

  /** What follows once the reply has left. */
  function ReplySent(c: Conn, side: Side): Conn {
    if c.info.rep != REP_SUCCESS then HandshakeErr(c, side)
    else if c.info.cmd == CMD_CONN then c.(state := Full)
    else if c.info.cmd == CMD_BIND then
      if c.state == SendingReply then SetRep(c, UNSET).(state := BindListening)
      else if c.state == SendingReply2 then c.(state := Full)
      else c
    else if c.info.cmd == CMD_UDPA then c.(state := FullUdpa)
    else c
  }

  function HandleSendReply(c: Conn, side: Side, ev: Event, env: Env): Conn {
    if !ev.output || SelfFd(c, side) != c.clientFd then c
    else match env.sent
      case None => HandshakeErr(SendFailed(c), side)
      case Some(k) =>
        var (c1, all) := SendHandshake(c, LOCAL_BUFFER, k);
        if !all then c1
        else
          ReplySent(Register(c1, SelfFd(c1, side), IN_ONLY), side)
  }

  /** Reply code for a socket error; the tests are bitwise. */
  function RepOfError(error: nat): byte {
    if And(error, ENETUNREACH) != 0 then REP_NUNRECH
    else if And(error, EHOSTUNREACH) != 0 then REP_HUNRECH
    else if And(error, ETIMEDOUT) != 0 then REP_TTLEXPR
    else if And(error, ECONNREFUSED) != 0 then REP_REFUSED
    else REP_GENFAIL
  }

  function TryNext(c: Conn, side: Side, error: nat): Conn {
    if c.info.ai.Cons? && c.info.ai.tail.Cons? then
      var c1 := c.(info := c.info.(aiIndex := c.info.aiIndex + 1));
      var current := Advance(c1.info.ai, c1.info.aiIndex);
      if current.Cons? then c1.(hist := c1.hist.(tried := c1.hist.tried + [current.head]))
      else FailWith(c1, side, RepOfError(error))
    else FailWith(c, side, RepOfError(error))
  }

  function HandleConnecting(c: Conn, side: Side, ev: Event, env: Env): Conn {
    if !ev.output || SelfFd(c, side) != c.serverFd then c
    else if env.soError.None? then FailWith(c, side, REP_GENFAIL)
    else if env.soError.value != 0 then TryNext(c, side, env.soError.value)
    else if env.sockname.None? then FailWith(c, side, REP_GENFAIL)
    else
      var c1 := QueueReply(SetRep(c, REP_SUCCESS), Reply(REP_SUCCESS, env.sockname.value));
      var c2 := c1.(state := SendingReply, hist := c1.hist.(bound := env.sockname));
      Register(Register(c2, c2.clientFd, IN_OUT), SelfFd(c2, side), IN_ONLY)
  }

  function HandleListening(c: Conn, side: Side, ev: Event, env: Env): Conn {
    if !ev.input || SelfFd(c, side) != c.serverFd then c
    else if env.newFd == -1 then FailWith(c, side, REP_GENFAIL)
    else match Requested(c.info)
      case None => FailWith(c, side, REP_GENFAIL)
      case Some(req) =>
        if req.family != env.peer.family || req.port != env.peer.port || req.addr != env.peer.addr then
          FailWith(c, side, REP_RULESET)
        else
          var c1 := Register(c, SelfFd(c, side), Unregistered).(serverFd := env.newFd);
          var c2 := Register(c1, env.newFd, IN_ONLY);
          var c3 := QueueReply(SetRep(c2, REP_SUCCESS), Reply(REP_SUCCESS, env.peer));
          Register(c3, c3.clientFd, IN_OUT).(
            state := SendingReply2, hist := c3.hist.(peer := Some(env.peer)))
  }

  function Received(lane: Lane, b: seq<byte>, kept: bool): Lane {
    lane.(chunks := lane.chunks + [b], kept := lane.kept + [kept])
  }

  function Sent(lane: Lane, b: seq<byte>): Lane {
    lane.(sent := lane.sent + b)
  }

  /** Send from the ring of the ready side. */
  function RelaySend(c: Conn, side: Side, k: nat): Conn {
    if SelfFd(c, side) == c.clientFd then
      c.(clientOut := Drop(c.clientOut, k), hist := c.hist.(down := Sent(c.hist.down, Take(c.clientOut, k))))
    else
      c.(serverOut := Drop(c.serverOut, k), hist := c.hist.(up := Sent(c.hist.up, Take(c.serverOut, k))))
  }

  /** Store a received chunk in the ring of the other side; a chunk that does not fit is dropped. */
  function RelayReceive(c: Conn, side: Side, b: seq<byte>): Conn {
    if SelfFd(c, side) == c.clientFd then
      c.(serverOut := Push(c.serverOut, b),
         hist := c.hist.(up := Received(c.hist.up, b, |c.serverOut| + |b| <= CAPACITY)))
    else
      c.(clientOut := Push(c.clientOut, b),
         hist := c.hist.(down := Received(c.hist.down, b, |c.clientOut| + |b| <= CAPACITY)))
  }

  function PeerFd(c: Conn, side: Side): int {
    if SelfFd(c, side) == c.clientFd then c.serverFd else c.clientFd
  }

  function OwnRing(c: Conn, side: Side): seq<byte> {
    if SelfFd(c, side) == c.clientFd then c.clientOut else c.serverOut
  }

  function HandleFull(c: Conn, side: Side, ev: Event, env: Env): Conn {
    if ev.output then
      match env.sent
      case None => c.(state := HalfClose)
      case Some(k) =>
        var c1 := RelaySend(c, side, k);
        if |OwnRing(c1, side)| == 0 then Register(c1, SelfFd(c1, side), IN_ONLY) else c1
    else if ev.input then
      var c1 := match env.recv
        case None => c.(state := HalfClose)
        case Some(b) => RelayReceive(c, side, b);
      Register(c1, PeerFd(c1, side), IN_OUT)
    else c
  }

  function HandleClosed(c: Conn, side: Side): Conn {
    FreeData(Register(c, SelfFd(c, side), Unregistered), side)
  }

  /** The dispatch on the shared state. */
  function Step(cfg: Configs, c: Conn, side: Side, ev: Event, env: Env): Conn {
    match c.state
    case WaitingMethods => HandleMethods(cfg, c, side, ev, env)
    case SendingMethod => HandleSendMethod(c, side, ev, env)
    case WaitingCommand => HandleCommand(cfg, c, side, ev, env)
    case AsyncDns => c
    case SendingReply => HandleSendReply(c, side, ev, env)
    case SendingReply2 => HandleSendReply(c, side, ev, env)
    case Connecting => HandleConnecting(c, side, ev, env)
    case BindListening => HandleListening(c, side, ev, env)
    case Full => HandleFull(c, side, ev, env)
    case FullUdpa => c
    case HalfClose => c.(state := Closed)
    case Closed => HandleClosed(c, side)
  }

  /** The request that the step from c to d wrote to the pipe of the resolver. */
  function Posted(c: Conn, d: Conn): Option<Query> {
    if c.state != AsyncDns && d.state == AsyncDns && d.hist.lookups != [] then
      Some(d.hist.lookups[|d.hist.lookups| - 1])
    else None
  }

  // ---- The resolver's two effects on a connection

  /** The resolver thread stores the address list. */
  function StoreAddresses(c: Conn, ai: List<SockAddr>): Conn {
    c.(info := c.info.(ai := ai))
  }

  /** The main loop takes the answer off the pipe and re-enters the command handler. */
  function ResolverReturned(cfg: Configs, c: Conn, gaiRet: int, env: Env): Conn {
    var c1 := c.(info := c.info.(resolverRet := gaiRet), state := WaitingCommand);
    Step(cfg, c1, Client, Event(true, false), env)
  }

  // ---- Runs of one connection

  /** One event of a run. `Resolved` is the whole round trip through the resolver. */
  datatype Input =
    | Ready(side: Side, ev: Event, env: Env)
    | Resolved(ai: List<SockAddr>, gaiRet: int, env: Env)

  function Apply(cfg: Configs, c: Conn, i: Input): Conn {
    match i
    case Ready(side, ev, env) => Step(cfg, c, side, ev, env)
    case Resolved(ai, gaiRet, env) => ResolverReturned(cfg, StoreAddresses(c, ai), gaiRet, env)
  }

  /** The Data of this side is allocated. */
  predicate Live(c: Conn, side: Side) {
    if side.Client? then c.clientLive else c.serverLive
  }

  /** The descriptor of this side is registered with epoll. */
  predicate Watched(c: Conn, side: Side) {
    if side.Client? then c.clientMask.Registered? else c.serverMask.Registered?
  }

  /** A new descriptor is none of those in use. */
  predicate NewFdOk(c: Conn, env: Env) {
    env.newFd == -1 || (env.newFd >= 0 && env.newFd != c.clientFd && env.newFd != c.serverFd)
  }

  /** What the kernel promises about the results of one step's calls. */
  predicate EnvOk(c: Conn, env: Env) {
    && NewFdOk(c, env)
    && (env.recv.Some? ==> 0 < |env.recv.value|)
    && (env.recv.Some? && c.state in {WaitingMethods, WaitingCommand} ==>
          |env.recv.value| <= CAPACITY - |c.serverOut|)
    && (env.recv.Some? && c.state == Full ==> |env.recv.value| <= 1024)
  }

  /** What the resolver promises: never -1, and no addresses when it failed. */
  predicate AnswerOk(ai: List<SockAddr>, gaiRet: int) {
    gaiRet != -1 && (gaiRet != 0 ==> ai.Nil?)
  }

  /** The event can happen: its descriptor is registered, or the lookup is outstanding. */
  predicate Enabled(c: Conn, i: Input) {
    match i
    case Ready(side, ev, env) => Watched(c, side) && EnvOk(c, env)
    case Resolved(ai, gaiRet, env) => c.state == AsyncDns && AnswerOk(ai, gaiRet) && NewFdOk(c, env)
  }

  function Run(cfg: Configs, c: Conn, run: seq<Input>): Conn
    decreases |run|
  {
    if run == [] then c else Run(cfg, Apply(cfg, c, run[0]), run[1..])
  }

  predicate Possible(cfg: Configs, c: Conn, run: seq<Input>)
    decreases |run|
  {
    run == [] || (Enabled(c, run[0]) && Possible(cfg, Apply(cfg, c, run[0]), run[1..]))
  }
}
