/**
 * The connection records and their handlers, in place: Shared with its two rings, Info and the
 * two Data records. Every handler is proved against its function in `Machine.dfy`.
 */
module Connection {
  import opened Wire
  import opened Firewall
  import opened RingBuffers
  import M = Machine
  import I = Invariant

  class Info {
    var meth: byte
    var rep: byte
    var cmd: byte
    var atyp: byte
    var resolverRet: int
    var aiIndex: nat
    var ai: List<SockAddr>
    var sa: Option<SockAddr>

    constructor ()
      ensures View() == M.NO_INFO
    {
      meth, rep, cmd, atyp := UNSET, UNSET, UNSET, UNSET;
      resolverRet, aiIndex, ai, sa := -1, 0, Nil, None;
    }

    ghost function View(): M.Info
      reads this
    {
      M.Info(meth, rep, cmd, atyp, resolverRet, aiIndex, ai, sa)
    }
  }

  /** What epoll hands back; a freed Data is no longer referred to by its Shared. */
  class Data {
    var selfFd: int

    constructor (fd: int)
      ensures selfFd == fd
    {
      selfFd := fd;
    }
  }

  class Shared {
    var state: M.State
    var clientFd: int
    var serverFd: int
    const clientOut: Ringbuff
    const serverOut: Ringbuff
    var clientData: Data?
    var serverData: Data?
    var info: Info?
    /** The registrations the kernel holds, and the history. */
    ghost var clientMask: M.Mask
    ghost var serverMask: M.Mask
    ghost var hist: M.History

    ghost predicate Valid()
      reads this, clientOut, serverOut, clientData, serverData
    {
      && clientOut != serverOut && clientOut.Valid() && serverOut.Valid()
      && clientOut.buff != serverOut.buff
      && clientOut.capacity == M.CAPACITY == serverOut.capacity
      && clientOut.live == serverOut.live == (info != null)
      && (clientData != null ==> clientData.selfFd == clientFd && clientData != serverData)
      && (serverData != null ==> serverData.selfFd == serverFd)
    }

    ghost function View(): M.Conn
      requires Valid()
      reads this, clientOut, serverOut, clientOut.buff, serverOut.buff, clientData, serverData, info
    {
      M.Conn(state, clientFd, serverFd, clientOut.Contents(), serverOut.Contents(),
             clientData != null, serverData != null, clientMask, serverMask,
             if info == null then M.NO_INFO else info.View(), info != null, hist)
    }

    /** The Data is one of the two records of this connection. */
    ghost predicate Owns(data: Data)
      reads this
    {
      data == clientData || data == serverData
    }

    ghost function SideOf(data: Data): M.Side
      reads this
    {
      if data == clientData then M.Client else M.Server
    }

    /** A client was accepted. */
    constructor (fd: int)
      ensures Valid() && fresh({clientOut, serverOut, clientOut.buff, serverOut.buff, clientData, info}) && View() == M.Accepted(fd)
    {
      state, clientFd, serverFd := M.WaitingMethods, fd, -1;
      clientOut := new Ringbuff(M.CAPACITY);
      serverOut := new Ringbuff(M.CAPACITY);
      clientData := new Data(fd);
      serverData := null;
      info := new Info();
      clientMask, serverMask, hist := M.IN_ONLY, M.Unregistered, M.NEW_HISTORY;
    }

    /** epoll_ctl on one descriptor. */
    method Register(fd: int, mask: M.Mask)
      requires Valid()
      modifies this`clientMask, this`serverMask
      ensures Valid() && View() == M.Register(old(View()), fd, mask)
    {
      if fd == clientFd {
        clientMask := mask;
      } else if fd == serverFd {
        serverMask := mask;
      }
    }

    /** free() on Info and the ring storage. */
    method FreeParts()
      requires Valid()
      modifies this`info, clientOut`live, serverOut`live
      ensures Valid() && info == null
      ensures View() == old(View()).(info := M.NO_INFO, infoLive := false, clientOut := [], serverOut := [])
    {
      info := null;
      clientOut.Free();
      serverOut.Free();
    }

    method FreeData(data: Data)
      requires Valid() && Owns(data)
      modifies this, clientOut`live, serverOut`live
      ensures Valid() && View() == M.FreeData(old(View()), old(SideOf(data)))
      ensures serverData == old(serverData) || serverData == null
    {
      hist := M.FreeData(View(), SideOf(data)).hist;
      FreeParts();
      if data.selfFd == clientFd {
        clientData := null;
      }
      if data.selfFd == serverFd {
        serverData := null;
      }
    }

    method HandshakeErr(data: Data)
      requires Valid() && Owns(data)
      modifies this, clientOut`live, serverOut`live
      ensures Valid() && View() == M.HandshakeErr(old(View()), old(SideOf(data)))
      ensures serverData == old(serverData) || serverData == null
    {
      state := M.Closed;
      Register(data.selfFd, M.Unregistered);
      FreeData(data);
    }

    /** write_ringbuff on the client's ring. */
    method WriteOut(b: seq<byte>) returns (n: nat)
      requires Valid() && info != null
      modifies clientOut, clientOut.buff
      ensures Valid() && View() == old(View()).(clientOut := M.Push(old(View()).clientOut, b))
      ensures n == if |old(View()).clientOut| + |b| <= M.CAPACITY then |b| else 0
    {
      n := clientOut.Write(b);
    }

    /** write_ringbuff on the server's ring. */
    method WriteIn(b: seq<byte>) returns (n: nat)
      requires Valid() && info != null
      modifies serverOut, serverOut.buff
      ensures Valid() && View() == old(View()).(serverOut := M.Push(old(View()).serverOut, b))
      ensures n == if |old(View()).serverOut| + |b| <= M.CAPACITY then |b| else 0
    {
      n := serverOut.Write(b);
    }

    /** The four writes of a reply frame. */
    method QueueReply(rep: byte, addr: SockAddr)
      requires Valid() && info != null
      modifies this`hist, clientOut, clientOut.buff
      ensures Valid() && View() == M.QueueReply(old(View()), Reply(rep, addr))
    {
      hist := M.QueueReply(View(), Reply(rep, addr)).hist;
      var _ := WriteOut([VERSION, rep, 0]);
      var _ := WriteOut([Atyp(addr.family)]);
      var _ := WriteOut(addr.addr);
      var _ := WriteOut(addr.port);
    }

    method SetRep(rep: byte)
      requires Valid() && info != null
      modifies info`rep
      ensures Valid() && View() == M.SetRep(old(View()), rep)
    {
      info.rep := rep;
    }

    /** The failure frame is queued: wait for the client to take it. */
    method StartReply()
      requires Valid() && info != null
      modifies this`hist, this`state, this`clientMask, this`serverMask
      ensures Valid()
      ensures var c := old(View());
        View() == M.Register(
          c.(hist := c.hist.(replies := c.hist.replies + [M.FailureReply(c.info.rep)]), state := M.SendingReply),
          c.clientFd, M.IN_OUT)
    {
      hist := hist.(replies := hist.replies + [M.FailureReply(info.rep)]);
      state := M.SendingReply;
      Register(clientFd, M.IN_OUT);
    }

    method ReplyWithErr(data: Data)
      requires Valid() && info != null && Owns(data)
      modifies this, info`rep, clientOut, clientOut.buff, serverOut`live
      ensures Valid() && View() == M.ReplyWithErr(old(View()), old(SideOf(data)))
      ensures |old(View()).clientOut| <= M.CAPACITY - 10 ==>
        info == old(info) && clientData == old(clientData) && serverData == old(serverData)
      ensures serverData == old(serverData) || serverData == null
    {
      if info.rep < 1 || info.rep > 8 {
        SetRep(REP_GENFAIL);
      }
      var frame := [VERSION, info.rep, 0, ATYP_IPV4, 0, 0, 0, 0, 0, 0];
      assert frame == Encode(M.FailureReply(info.rep));
      var n := WriteOut(frame);
      if n != 10 {
        HandshakeErr(data);
      } else {
        StartReply();
      }
    }

    /** Set the reply code, then answer with it. */
    method FailWith(data: Data, rep: byte)
      requires Valid() && info != null && Owns(data)
      modifies this, info`rep, clientOut, clientOut.buff, serverOut`live
      ensures Valid() && View() == M.FailWith(old(View()), old(SideOf(data)), rep)
      ensures |old(View()).clientOut| <= M.CAPACITY - 10 ==>
        info == old(info) && clientData == old(clientData) && serverData == old(serverData)
      ensures serverData == old(serverData) || serverData == null
    {
      SetRep(rep);
      ReplyWithErr(data);
    }

    // ---- Commands

    /** consume_ringbuff with the full capacity: clear the input ring. */
    method ClearIn()
      requires Valid() && info != null
      modifies serverOut
      ensures Valid() && View() == old(View()).(serverOut := [])
    {
      var _ := serverOut.Consume(M.CAPACITY);
    }

    /** A new Data for the server side. */
    method AttachServer(fd: int)
      requires Valid() && info != null
      modifies this`serverData, this`serverFd
      ensures Valid() && View() == old(View()).(serverLive := true, serverFd := fd)
      ensures serverData != null && fresh(serverData)
    {
      serverData := new Data(fd);
      serverFd := fd;
    }

    method InitConnect(env: M.Env)
      requires Valid() && info != null
      modifies this, info, serverOut
      ensures Valid() && View() == M.InitConnect(old(View()), env)
      ensures info == old(info) && clientData == old(clientData)
      ensures serverData == old(serverData) || fresh(serverData)
    {
      if info.ai.Nil? && info.sa.None? {
        SetRep(REP_GENFAIL);
        return;
      }
      var sfd := env.newFd;
      if sfd == -1 {
        SetRep(REP_GENFAIL);
        return;
      }
      hist := hist.(tried := hist.tried + [if info.sa.Some? then info.sa.value else info.ai.head]);
      if !env.connected {
        SetRep(REP_GENFAIL);
        return;
      }
      if info.sa.None? {
        info.aiIndex := 0;
      }
      StartConnecting(sfd);
    }

    /** A connection attempt is under way on a new server socket. */
    method StartConnecting(sfd: int)
      requires Valid() && info != null
      modifies this`serverData, this`serverFd, this`clientMask, this`serverMask, this`state, serverOut
      ensures Valid()
      ensures View() == M.Register(old(View()).(serverLive := true, serverFd := sfd, serverOut := []), sfd, M.OUT_ONLY)
        .(state := M.Connecting)
      ensures serverData != null && fresh(serverData)
    {
      AttachServer(sfd);
      ClearIn();
      Register(sfd, M.OUT_ONLY);
      state := M.Connecting;
    }

    method OpenSocket(rep: Reply)
      requires Valid() && info != null && rep.rep == REP_SUCCESS
      modifies this, info`rep, clientOut, clientOut.buff, serverOut
      ensures Valid() && View() == M.OpenSocket(old(View()), rep)
      ensures info == old(info) && clientData == old(clientData) && serverData == old(serverData)
    {
      SetRep(REP_SUCCESS);
      QueueReply(info.rep, rep.addr);
      Register(clientFd, M.IN_OUT);
      ClearIn();
      Register(serverFd, M.IN_ONLY);
      state := M.SendingReply;
    }

    /** Everything init_bind does before it touches the connection. */
    method OpenListener(cfg: M.Configs, env: M.Env) returns (o: M.Opening)
      requires Valid() && info != null
      ensures o == M.BindOpening(cfg, info.View(), env)
    {
      if (info.sa.None? && info.ai.Nil?) || env.newFd == -1 {
        return M.Refused(REP_GENFAIL);
      }
      var af := if info.sa.Some? then info.sa.value.family else info.ai.head.family;
      var listenAddr := FindFamily(cfg.bindListen, af);
      if listenAddr.None? {
        return M.Refused(REP_BADATYP);
      }
      var advertiseAddr := FindFamily(cfg.bindAdvertise, af);
      if advertiseAddr.None? {
        return M.Refused(REP_BADATYP);
      }
      if !env.bound || !env.listening {
        return M.Refused(REP_GENFAIL);
      }
      if env.sockname.None? {
        return M.Nameless;
      }
      return M.Announce(Reply(REP_SUCCESS, M.WithPort(advertiseAddr.value, env.sockname.value)));
    }

    method InitBind(cfg: M.Configs, env: M.Env)
      requires Valid() && info != null
      modifies this, info`rep, clientOut, clientOut.buff, serverOut
      ensures Valid() && View() == M.InitBind(cfg, old(View()), env)
      ensures info == old(info) && clientData == old(clientData)
      ensures serverData == old(serverData) || fresh(serverData)
    {
      var o := OpenListener(cfg, env);
      match o {
        case Refused(rep) => SetRep(rep);
        case Nameless =>
          AttachServer(env.newFd);
          SetRep(REP_GENFAIL);
        case Announce(rep) =>
          hist := hist.(bound := env.sockname);
          AttachServer(env.newFd);
          OpenSocket(rep);
      }
    }

    /** Everything init_udpa does before it touches the connection. */
    method OpenRelay(cfg: M.Configs, env: M.Env) returns (o: M.Opening)
      requires Valid() && info != null
      ensures o == M.UdpaOpening(cfg, info.View(), env)
    {
      if (info.sa.None? && info.ai.Nil?) || env.newFd == -1 {
        return M.Refused(REP_GENFAIL);
      }
      var af := if info.sa.Some? then info.sa.value.family else info.ai.head.family;
      var listenAddr := FindFamily(cfg.udpaListen, af);
      if listenAddr.None? {
        return M.Refused(REP_BADATYP);
      }
      var advertiseAddr := FindFamily(cfg.udpaAdvertise, af);
      if advertiseAddr.None? {
        return M.Refused(REP_BADATYP);
      }
      if !env.bound {
        return M.Refused(REP_GENFAIL);
      }
      return M.Announce(Reply(REP_SUCCESS, env.udpaShown));
    }

    method InitUdpa(cfg: M.Configs, env: M.Env)
      requires Valid() && info != null
      modifies this, info`rep, clientOut, clientOut.buff, serverOut
      ensures Valid() && View() == M.InitUdpa(cfg, old(View()), env)
      ensures info == old(info) && clientData == old(clientData)
      ensures serverData == old(serverData) || fresh(serverData)
    {
      var o := OpenRelay(cfg, env);
      match o {
        case Refused(rep) => SetRep(rep);
        case Nameless =>
        case Announce(rep) =>
          AttachServer(env.newFd);
          OpenSocket(rep);
      }
    }

    /** Dispatch on the command. The client's Data stays, and Info too when there is room to reply. */
    method InitCommand(cfg: M.Configs, data: Data, env: M.Env)
      requires Valid() && info != null && data == clientData
      requires |View().clientOut| <= M.CAPACITY - 10
      modifies this, info, clientOut, clientOut.buff, serverOut
      ensures Valid() && View() == M.InitCommand(cfg, old(View()), M.Client, env)
      ensures info == old(info) && clientData == old(clientData)
      ensures serverData == old(serverData) || fresh(serverData)
    {
      if info.cmd == CMD_CONN {
        if cfg.allowConnect { InitConnect(env); } else { FailWith(data, REP_BADCOMM); }
      } else if info.cmd == CMD_BIND {
        if cfg.allowBind { InitBind(cfg, env); } else { FailWith(data, REP_BADCOMM); }
      } else if info.cmd == CMD_UDPA {
        if cfg.allowUdpAssoc { InitUdpa(cfg, env); } else { FailWith(data, REP_BADCOMM); }
      } else {
        FailWith(data, REP_BADCOMM);
      }
    }

    method RunCommand(cfg: M.Configs, data: Data, env: M.Env)
      requires Valid() && info != null && data == clientData
      requires |View().clientOut| <= M.CAPACITY - 10
      modifies this, info, clientOut, clientOut.buff, serverOut
      ensures Valid() && View() == M.RunCommand(cfg, old(View()), M.Client, env)
      ensures serverData == null || serverData == old(serverData) || fresh(serverData)
    {
      InitCommand(cfg, data, env);
      if info.rep != UNSET && info.rep != REP_SUCCESS {
        ReplyWithErr(data);
      }
    }

    // ---- Buffers of the handlers

    /** peek_ringbuff of the input ring into a local buffer. */
    method PeekIn(n: nat) returns (b: seq<byte>)
      requires Valid() && info != null
      ensures b == M.Take(View().serverOut, n)
    {
      var buffer := new byte[n];
      var k := serverOut.Peek(buffer);
      b := buffer[..k];
    }

    /** peek_ringbuff of the client's ring into a local buffer. */
    method PeekOut(n: nat) returns (b: seq<byte>)
      requires Valid() && info != null
      ensures b == M.Take(View().clientOut, n)
    {
      var buffer := new byte[n];
      var k := clientOut.Peek(buffer);
      b := buffer[..k];
    }

    method ConsumeIn(n: nat)
      requires Valid() && info != null
      modifies serverOut
      ensures Valid() && View() == old(View()).(serverOut := M.Drop(old(View()).serverOut, n))
    {
      var _ := serverOut.Consume(n);
    }

    method ConsumeOut(n: nat)
      requires Valid() && info != null
      modifies clientOut
      ensures Valid() && View() == old(View()).(clientOut := M.Drop(old(View()).clientOut, n))
    {
      var _ := clientOut.Consume(n);
    }

    // ---- Handlers

    method ChooseMethod(methods: seq<byte>, selected: byte)
      requires Valid() && info != null
      modifies this`state, this`hist, info`meth
      ensures Valid()
      ensures var c := old(View());
        View() == c.(state := M.SendingMethod, info := c.info.(meth := selected),
                     hist := c.hist.(offered := methods, greeting := [VERSION, selected]))
    {
      state := M.SendingMethod;
      info.meth := selected;
      hist := hist.(offered := methods, greeting := [VERSION, selected]);
    }

    /** Select among the next n bytes of the input ring and announce the method. */
    method ReplyMethod(cfg: M.Configs, data: Data, n: nat)
      requires Valid() && info != null && Owns(data) && n <= |View().serverOut|
      modifies this`state, this`hist, this`clientMask, this`serverMask, info`meth, clientOut, clientOut.buff, serverOut
      ensures Valid()
      ensures var c := old(View());
        View() == M.AnswerMethods(cfg, c, old(SideOf(data)), c.serverOut[..n], c.serverOut[n..])
    {
      var methods := PeekIn(n);
      assert methods == View().serverOut[..n];
      var selected := SelectMethod(cfg, methods);
      ConsumeIn(|methods|);
      var _ := WriteOut([VERSION, selected]);
      ChooseMethod(methods, selected);
      Register(data.selfFd, M.IN_OUT);
    }

    method WaitingMethods(cfg: M.Configs, data: Data, ev: M.Event, env: M.Env)
      requires Valid() && info != null && Owns(data)
      modifies this, info, clientOut, clientOut.buff, serverOut, serverOut.buff
      ensures Valid() && View() == M.HandleMethods(cfg, old(View()), old(SideOf(data)), ev, env)
      ensures serverData == old(serverData) || serverData == null
    {
      if !ev.input || data.selfFd != clientFd {
        return;
      }
      if env.recv.None? {
        HandshakeErr(data);
        return;
      }
      var buffer := env.recv.value;
      var n := WriteIn(buffer);
      if n != |buffer| {
        HandshakeErr(data);
        return;
      }
      GreetingArrived(cfg, data);
    }

    /** The greeting so far is in the input ring. */
    method GreetingArrived(cfg: M.Configs, data: Data)
      requires Valid() && info != null && Owns(data)
      modifies this, info, clientOut, clientOut.buff, serverOut
      ensures Valid() && View() == M.AnswerGreeting(cfg, old(View()), old(SideOf(data)))
      ensures serverData == old(serverData) || serverData == null
    {
      ghost var q := View().serverOut;
      if serverOut.used < 2 {
        return;
      }
      var firstTwo := PeekIn(2);
      assert firstTwo[0] == q[0] && firstTwo[1] == q[1];
      var version, nmethods: nat := firstTwo[0], firstTwo[1];
      if serverOut.used < 2 + nmethods {
        return;
      }
      HeaderRead(cfg, data, version, nmethods);
    }

    /** The whole greeting is there: drop its header, then refuse it or answer it. */
    method HeaderRead(cfg: M.Configs, data: Data, version: byte, nmethods: nat)
      requires Valid() && info != null && Owns(data) && 2 + nmethods <= |View().serverOut|
      modifies this, info, clientOut, clientOut.buff, serverOut
      ensures Valid()
      ensures var c := old(View()); var q := c.serverOut;
        View() ==
          if version != VERSION then M.HandshakeErr(c.(serverOut := q[2..]), old(SideOf(data)))
          else M.AnswerMethods(cfg, c, old(SideOf(data)), q[2..2 + nmethods], q[2 + nmethods..])
      ensures serverData == old(serverData) || serverData == null
    {
      SliceAfter(View().serverOut, 2, nmethods);
      ConsumeIn(2);
      if version != VERSION {
        HandshakeErr(data);
        return;
      }
      ReplyMethod(cfg, data, nmethods);
    }

    /** Send what is queued, at most `limit` bytes; tell whether all of them left. */
    method SendQueued(limit: nat, sent: nat) returns (all: bool)
      requires Valid() && info != null
      modifies this`hist, clientOut
      ensures Valid()
      ensures View() == M.SendHandshake(old(View()), limit, sent).0
      ensures all == M.SendHandshake(old(View()), limit, sent).1
    {
      var reply := PeekOut(limit);
      hist := M.SendHandshake(View(), limit, sent).0.hist;
      if sent < |reply| {
        ConsumeOut(sent);
        return false;
      }
      ConsumeOut(|reply|);
      return true;
    }

    method SendError(data: Data)
      requires Valid() && Owns(data)
      modifies this, clientOut`live, serverOut`live
      ensures Valid() && View() == M.HandshakeErr(M.SendFailed(old(View())), old(SideOf(data)))
      ensures serverData == old(serverData) || serverData == null
    {
      hist := hist.(sendFailed := true);
      HandshakeErr(data);
    }

    method SendingMethod(data: Data, ev: M.Event, env: M.Env)
      requires Valid() && info != null && Owns(data)
      modifies this, clientOut, serverOut`live
      ensures Valid() && View() == M.HandleSendMethod(old(View()), old(SideOf(data)), ev, env)
      ensures serverData == old(serverData) || serverData == null
    {
      if !ev.output || data.selfFd != clientFd {
        return;
      }
      if env.sent.None? {
        SendError(data);
        return;
      }
      var all := SendQueued(2, env.sent.value);
      if !all {
        return;
      }
      Register(data.selfFd, M.IN_ONLY);
      if info.meth == M.METH_NOAUTH {
        state := M.WaitingCommand;
      } else {
        HandshakeErr(data);
      }
    }

    /** The request, as far as it arrived, was decided; carry it out. */
    method Act(cfg: M.Configs, data: Data, d: M.Decision, env: M.Env) returns (posted: Option<M.Query>)
      requires Valid() && info != null && data == clientData && |View().clientOut| <= M.CAPACITY - 10
      modifies this, info, clientOut, clientOut.buff, serverOut
      ensures Valid() && View() == M.Act(cfg, old(View()), M.Client, d, env)
      ensures posted == M.DecisionPosts(d)
      ensures serverData == null || serverData == old(serverData) || fresh(serverData)
    {
      posted := None;
      match d {
        case Pending =>
        case BadAddressType => FailWith(data, REP_BADATYP);
        case BadVersion(_, _) => HandshakeErr(data);
        case Lookup(cmd, query) =>
          info.cmd, info.atyp := cmd, ATYP_DOMN;
          posted := Resolve(query);
        case Literal(cmd, target) =>
          info.cmd, info.atyp, info.sa := cmd, Atyp(target.family), Some(target);
          ActLiteral(cfg, data, env);
      }
    }

    /** Firewall, then the command. */
    method ActLiteral(cfg: M.Configs, data: Data, env: M.Env)
      requires Valid() && info != null && data == clientData && |View().clientOut| <= M.CAPACITY - 10
      modifies this, info, clientOut, clientOut.buff, serverOut
      ensures Valid()
      ensures var c := old(View());
        View() ==
          if Drops(c.info.cmd, c.info.sa, c.info.ai, cfg.blocks) then M.FailWith(c, M.Client, REP_RULESET)
          else M.RunCommand(cfg, c, M.Client, env)
      ensures serverData == null || serverData == old(serverData) || fresh(serverData)
    {
      var drop := Decide(info.cmd, info.sa, info.ai, cfg.blocks);
      if drop {
        FailWith(data, REP_RULESET);
      } else {
        RunCommand(cfg, data, env);
      }
    }

    /** Hand the name to the resolver; the message itself is the recorded query. */
    method Resolve(query: M.Query) returns (posted: Option<M.Query>)
      requires Valid()
      modifies this`state, this`hist
      ensures Valid()
      ensures var c := old(View());
        View() == c.(state := M.AsyncDns, hist := c.hist.(lookups := c.hist.lookups + [query]))
      ensures posted == Some(query)
    {
      posted := Some(query);
      state := M.AsyncDns;
      hist := hist.(lookups := hist.lookups + [query]);
    }

    method WaitingCommand(cfg: M.Configs, data: Data, ev: M.Event, env: M.Env) returns (posted: Option<M.Query>)
      requires Valid() && info != null && Owns(data) && clientFd != serverFd
      requires |View().clientOut| <= M.CAPACITY - 20
      modifies this, info, clientOut, clientOut.buff, serverOut, serverOut.buff
      ensures Valid() && View() == M.HandleCommand(cfg, old(View()), old(SideOf(data)), ev, env)
      ensures posted == M.CommandPosts(cfg, old(View()), old(SideOf(data)), ev, env)
      ensures serverData == null || serverData == old(serverData) || fresh(serverData)
    {
      posted := None;
      if !ev.input || data.selfFd != clientFd {
        return;
      }
      if info.resolverRet != -1 {
        if info.resolverRet != 0 {
          FailWith(data, REP_GENFAIL);
          assert |View().clientOut| == |old(View()).clientOut| + 10;
        }
        RunCommand(cfg, data, env);
        return;
      }
      if env.recv.None? {
        HandshakeErr(data);
        return;
      }
      var buffer := env.recv.value;
      var n := WriteIn(buffer);
      if n != |buffer| {
        HandshakeErr(data);
        return;
      }
      var req := PeekIn(M.LOCAL_BUFFER);
      var d := ParseRequest(req, cfg.allowDomains);
      posted := Act(cfg, data, d, env);
    }

    /** The reply has left. */
    method ReplySent(data: Data)
      requires Valid() && info != null && Owns(data)
      modifies this, info`rep, clientOut`live, serverOut`live
      ensures Valid() && View() == M.ReplySent(old(View()), old(SideOf(data)))
      ensures serverData == old(serverData) || serverData == null
    {
      if info.rep != REP_SUCCESS {
        HandshakeErr(data);
      } else if info.cmd == CMD_CONN {
        state := M.Full;
      } else if info.cmd == CMD_BIND {
        if state == M.SendingReply {
          SetRep(UNSET);
          state := M.BindListening;
        } else if state == M.SendingReply2 {
          state := M.Full;
        }
      } else if info.cmd == CMD_UDPA {
        state := M.FullUdpa;
      }
    }

    method SendingReply(data: Data, ev: M.Event, env: M.Env)
      requires Valid() && info != null && Owns(data)
      modifies this, info`rep, clientOut, serverOut`live
      ensures Valid() && View() == M.HandleSendReply(old(View()), old(SideOf(data)), ev, env)
      ensures serverData == old(serverData) || serverData == null
    {
      if !ev.output || data.selfFd != clientFd {
        return;
      }
      if env.sent.None? {
        SendError(data);
        return;
      }
      var all := SendQueued(M.LOCAL_BUFFER, env.sent.value);
      if !all {
        return;
      }
      Register(data.selfFd, M.IN_ONLY);
      ReplySent(data);
    }

    /** The attempt failed: connect to the next address, or report the error. */
    method TryNext(data: Data, error: nat)
      requires Valid() && info != null && Owns(data)
      modifies this, info, clientOut, clientOut.buff, serverOut`live
      ensures Valid() && View() == M.TryNext(old(View()), old(SideOf(data)), error)
      ensures serverData == old(serverData) || serverData == null
    {
      if info.ai.Cons? && info.ai.tail.Cons? {
        info.aiIndex := info.aiIndex + 1;
        var current: List<SockAddr> := NthAddress(info.ai, info.aiIndex);
        if current.Cons? {
          hist := hist.(tried := hist.tried + [current.head]);
          return;
        }
      }
      FailWith(data, M.RepOfError(error));
    }

    method Connecting(data: Data, ev: M.Event, env: M.Env)
      requires Valid() && info != null && Owns(data)
      modifies this, info, clientOut, clientOut.buff, serverOut`live
      ensures Valid() && View() == M.HandleConnecting(old(View()), old(SideOf(data)), ev, env)
      ensures serverData == old(serverData) || serverData == null
    {
      if !ev.output || data.selfFd != serverFd {
        return;
      }
      if env.soError.None? {
        FailWith(data, REP_GENFAIL);
        return;
      }
      var error := env.soError.value;
      if error != 0 {
        TryNext(data, error);
        return;
      }
      SetRep(REP_SUCCESS);
      if env.sockname.None? {
        FailWith(data, REP_GENFAIL);
        return;
      }
      Connected(data, env.sockname.value);
    }

    /** Report the local address of the connected socket. */
    method Connected(data: Data, ss: SockAddr)
      requires Valid() && info != null && Owns(data) && info.rep == REP_SUCCESS
      modifies this`state, this`hist, this`clientMask, this`serverMask, clientOut, clientOut.buff
      ensures Valid()
      ensures var c1 := M.QueueReply(old(View()), Reply(REP_SUCCESS, ss));
        var c2 := c1.(state := M.SendingReply, hist := c1.hist.(bound := Some(ss)));
        View() == M.Register(M.Register(c2, c2.clientFd, M.IN_OUT), M.SelfFd(c2, old(SideOf(data))), M.IN_ONLY)
    {
      QueueReply(info.rep, ss);
      state := M.SendingReply;
      hist := hist.(bound := Some(ss));
      Register(clientFd, M.IN_OUT);
      Register(data.selfFd, M.IN_ONLY);
    }

    method BindListening(data: Data, ev: M.Event, env: M.Env)
      requires Valid() && info != null && Owns(data) && clientFd != serverFd
      requires env.newFd != clientFd
      modifies this, data`selfFd, info, clientOut, clientOut.buff, serverOut`live
      ensures Valid() && View() == M.HandleListening(old(View()), old(SideOf(data)), ev, env)
      ensures serverData == old(serverData) || serverData == null
    {
      if !ev.input || data.selfFd != serverFd {
        return;
      }
      if env.newFd == -1 {
        FailWith(data, REP_GENFAIL);
        return;
      }
      var req: SockAddr;
      if info.sa.Some? {
        req := info.sa.value;
      } else if info.ai.Cons? {
        req := info.ai.head;
      } else {
        FailWith(data, REP_GENFAIL);
        return;
      }
      if req.family != env.peer.family || req.port != env.peer.port || req.addr != env.peer.addr {
        FailWith(data, REP_RULESET);
        return;
      }
      AcceptPeer(data, env);
    }

    /** The peer is the one the client named. */
    method AcceptPeer(data: Data, env: M.Env)
      requires Valid() && info != null && data == serverData && clientFd != serverFd && env.newFd != clientFd
      modifies this`serverFd, this`state, this`hist, this`clientMask, this`serverMask
      modifies data`selfFd, info`rep, clientOut, clientOut.buff
      ensures Valid()
      ensures var c1 := M.Register(old(View()), old(serverFd), M.Unregistered).(serverFd := env.newFd);
        var c2 := M.Register(c1, env.newFd, M.IN_ONLY);
        var c3 := M.QueueReply(M.SetRep(c2, REP_SUCCESS), Reply(REP_SUCCESS, env.peer));
        View() == M.Register(c3, c3.clientFd, M.IN_OUT).(
          state := M.SendingReply2, hist := c3.hist.(peer := Some(env.peer)))
    {
      ReplaceSocket(data, env.newFd);
      SetRep(REP_SUCCESS);
      AnnouncePeer(env.peer);
    }

    /** The accepted socket takes the place of the listening one. */
    method ReplaceSocket(data: Data, newFd: int)
      requires Valid() && info != null && data == serverData && clientFd != serverFd && newFd != clientFd
      modifies this`serverFd, this`clientMask, this`serverMask, data`selfFd
      ensures Valid()
      ensures View() == M.Register(
        M.Register(old(View()), old(serverFd), M.Unregistered).(serverFd := newFd), newFd, M.IN_ONLY)
    {
      Register(data.selfFd, M.Unregistered);
      data.selfFd := newFd;
      serverFd := newFd;
      Register(newFd, M.IN_ONLY);
    }

    /** Second BIND reply. */
    method AnnouncePeer(peer: SockAddr)
      requires Valid() && info != null && info.rep == REP_SUCCESS
      modifies this`state, this`hist, this`clientMask, this`serverMask, clientOut, clientOut.buff
      ensures Valid()
      ensures var c := M.QueueReply(old(View()), Reply(REP_SUCCESS, peer));
        View() == M.Register(c, c.clientFd, M.IN_OUT).(state := M.SendingReply2, hist := c.hist.(peer := Some(peer)))
    {
      QueueReply(info.rep, peer);
      Register(clientFd, M.IN_OUT);
      state := M.SendingReply2;
      hist := hist.(peer := Some(peer));
    }

    // ---- Relaying

    /** Returns the bytes left in the ring, or None on an error. */
    method SendTraffic(fd: int, env: M.Env, ghost side: M.Side) returns (left: Option<nat>)
      requires Valid() && info != null && fd == M.SelfFd(View(), side) && (fd == clientFd || fd == serverFd)
      modifies this`hist, clientOut, serverOut
      ensures Valid() && (left.None? <==> env.sent.None?)
      ensures View() == if env.sent.None? then old(View()) else M.RelaySend(old(View()), side, env.sent.value)
      ensures left.Some? ==> left.value == |M.OwnRing(View(), side)|
    {
      if env.sent.None? {
        return None;
      }
      hist := M.RelaySend(View(), side, env.sent.value).hist;
      if fd == clientFd {
        ConsumeOut(env.sent.value);
        return Some(clientOut.used);
      } else {
        ConsumeIn(env.sent.value);
        return Some(serverOut.used);
      }
    }

    /** Stores what was received; the result of the ring write is ignored. */
    method ReadTraffic(fd: int, env: M.Env, ghost side: M.Side) returns (ok: bool)
      requires Valid() && info != null && fd == M.SelfFd(View(), side) && (fd == clientFd || fd == serverFd)
      modifies this`hist, clientOut, clientOut.buff, serverOut, serverOut.buff
      ensures Valid() && ok == env.recv.Some?
      ensures View() == if env.recv.None? then old(View()) else M.RelayReceive(old(View()), side, env.recv.value)
    {
      if env.recv.None? {
        return false;
      }
      hist := M.RelayReceive(View(), side, env.recv.value).hist;
      if fd == clientFd {
        var _ := WriteIn(env.recv.value);
      } else {
        var _ := WriteOut(env.recv.value);
      }
      return true;
    }

    method FullRelay(data: Data, ev: M.Event, env: M.Env)
      requires Valid() && info != null && Owns(data)
      modifies this`state, this`hist, this`clientMask, this`serverMask
      modifies clientOut, clientOut.buff, serverOut, serverOut.buff
      ensures Valid() && View() == M.HandleFull(old(View()), old(SideOf(data)), ev, env)
    {
      if ev.output {
        var left := SendTraffic(data.selfFd, env, SideOf(data));
        if left.None? {
          state := M.HalfClose;
        } else if left.value == 0 {
          Register(data.selfFd, M.IN_ONLY);
        }
      } else if ev.input {
        var ok := ReadTraffic(data.selfFd, env, SideOf(data));
        if !ok {
          state := M.HalfClose;
        }
        var pfd := if data.selfFd == clientFd then serverFd else clientFd;
        Register(pfd, M.IN_OUT);
      }
    }

    method ClosedState(data: Data)
      requires Valid() && Owns(data)
      modifies this, clientOut`live, serverOut`live
      ensures Valid() && View() == M.HandleClosed(old(View()), old(SideOf(data)))
      ensures serverData == old(serverData) || serverData == null
    {
      Register(data.selfFd, M.Unregistered);
      FreeData(data);
    }

    // ---- Dispatch

    /** What the handlers rely on; it follows from the invariant of every run. */
    ghost predicate Ready()
      requires Valid()
      reads this, clientOut, serverOut, clientOut.buff, serverOut.buff, clientData, serverData, info
    {
      && (state != M.Closed ==> info != null) && clientFd != serverFd
      && (state == M.WaitingCommand ==> |View().clientOut| <= M.CAPACITY - 20)
    }

    /** The switch on the state. */
    method Dispatch(cfg: M.Configs, data: Data, ev: M.Event, env: M.Env) returns (posted: Option<M.Query>)
      requires Valid() && Owns(data) && Ready() && M.NewFdOk(View(), env) && clientFd >= 0
      modifies this, data, info, clientOut, clientOut.buff, serverOut, serverOut.buff
      ensures Valid() && View() == M.Step(cfg, old(View()), old(SideOf(data)), ev, env)
      ensures serverData == null || serverData == old(serverData) || fresh(serverData)
      ensures posted == if old(state) != M.WaitingCommand then None
        else M.CommandPosts(cfg, old(View()), old(SideOf(data)), ev, env)
    {
      posted := None;
      if I.Handshake(state) {
        posted := DispatchHandshake(cfg, data, ev, env);
      } else if state == M.Full {
        FullRelay(data, ev, env);
      } else {
        DispatchClosing(cfg, data, ev, env);
      }
    }

    /** Its cases before relaying. */
    method DispatchHandshake(cfg: M.Configs, data: Data, ev: M.Event, env: M.Env) returns (posted: Option<M.Query>)
      requires Valid() && Owns(data) && Ready() && I.Handshake(state) && M.NewFdOk(View(), env) && clientFd >= 0
      modifies this, data, info, clientOut, clientOut.buff, serverOut, serverOut.buff
      ensures Valid() && View() == M.Step(cfg, old(View()), old(SideOf(data)), ev, env)
      ensures serverData == null || serverData == old(serverData) || fresh(serverData)
      ensures posted == if old(state) != M.WaitingCommand then None
        else M.CommandPosts(cfg, old(View()), old(SideOf(data)), ev, env)
    {
      posted := None;
      match state {
        case WaitingMethods => WaitingMethods(cfg, data, ev, env);
        case SendingMethod => SendingMethod(data, ev, env);
        case WaitingCommand => posted := WaitingCommand(cfg, data, ev, env);
        case AsyncDns =>
        case SendingReply => SendingReply(data, ev, env);
        case SendingReply2 => SendingReply(data, ev, env);
        case Connecting => Connecting(data, ev, env);
        case BindListening => BindListening(data, ev, env);
      }
    }

    /** Its cases after relaying, and the UDP stub. */
    method DispatchClosing(cfg: M.Configs, data: Data, ev: M.Event, env: M.Env)
      requires Valid() && Owns(data) && state in {M.FullUdpa, M.HalfClose, M.Closed}
      modifies this, clientOut`live, serverOut`live
      ensures Valid() && View() == M.Step(cfg, old(View()), old(SideOf(data)), ev, env)
      ensures serverData == null || serverData == old(serverData)
    {
      match state {
        case FullUdpa =>
        case HalfClose => HalfCloseState();
        case Closed => ClosedState(data);
      }
    }

    method HalfCloseState()
      requires Valid()
      modifies this`state
      ensures Valid() && View() == old(View()).(state := M.Closed)
    {
      state := M.Closed;
    }

    /** One event on one of the two Data records; `posted` is what goes to the pipe of the resolver. */
    method Socks5(cfg: M.Configs, data: Data, ev: M.Event, env: M.Env) returns (posted: Option<M.Query>)
      requires Valid() && Owns(data) && I.Inv(cfg, View()) && M.EnvOk(View(), env)
      modifies this, data, info, clientOut, clientOut.buff, serverOut, serverOut.buff
      ensures Valid() && View() == M.Step(cfg, old(View()), old(SideOf(data)), ev, env)
      ensures I.Inv(cfg, View()) && posted == M.Posted(old(View()), View())
      ensures serverData == null || serverData == old(serverData) || fresh(serverData)
    {
      I.StepInv(cfg, View(), SideOf(data), ev, env);
      I.StepPosts(cfg, View(), SideOf(data), ev, env);
      InvIsReady(cfg);
      posted := Dispatch(cfg, data, ev, env);
    }

    lemma InvIsReady(cfg: M.Configs)
      requires Valid() && I.Inv(cfg, View())
      ensures Ready() && clientFd >= 0
    {
      assert I.Lifetimes(View());
    }

    /** The resolver thread stores its result. */
    method StoreAddresses(ai: List<SockAddr>)
      requires Valid() && info != null
      modifies info`ai
      ensures Valid() && View() == M.StoreAddresses(old(View()), ai)
    {
      info.ai := ai;
    }

    /** The answer came back on the pipe. */
    method ResolveRet(cfg: M.Configs, gaiRet: int, env: M.Env)
      requires Valid() && I.Inv(cfg, View()) && state == M.AsyncDns
      requires M.AnswerOk(View().info.ai, gaiRet) && M.NewFdOk(View(), env)
      modifies this, info, clientOut, clientOut.buff, serverOut, serverOut.buff
      ensures Valid() && View() == M.ResolverReturned(cfg, old(View()), gaiRet, env)
      ensures I.Inv(cfg, View())
    {
      I.KeepResolved(cfg, View(), gaiRet, env);
      info.resolverRet := gaiRet;
      state := M.WaitingCommand;
      var posted := WaitingCommand(cfg, clientData, M.Event(true, false), env);
      assert posted == None;
    }
  }

  lemma SliceAfter(q: seq<byte>, m: nat, n: nat)
    requires m + n <= |q|
    ensures q[m..][..n] == q[m..m + n] && q[m..][n..] == q[m + n..]
  {
  }

  /** Follow `index` links of the list, stopping at its end. */
  method NthAddress(ai: List<SockAddr>, index: nat) returns (current: List<SockAddr>)
    requires ai.Cons?
    ensures current == M.Advance(ai, index)
  {
    current := ai;
    var i := 0;
    while i < index
      invariant 0 <= i <= index && current.Cons?
      invariant M.Advance(ai, index) == M.Advance(current, index - i)
    {
      current := current.tail;
      i := i + 1;
      if current.Nil? {
        break;
      }
    }
  }

  /** Length first, then version, then the fields. */
  method ParseRequest(req: seq<byte>, allowDomains: bool) returns (d: M.Decision)
    ensures d == M.Parse(req, allowDomains)
  {
    var peek := |req|;
    if peek < 5 {
      return M.Pending;
    }
    var totalLen: nat := 6;
    var command, addrtype := req[1], req[3];
    if addrtype == ATYP_IPV4 {
      totalLen := totalLen + 4;
    } else if addrtype == ATYP_DOMN {
      if !allowDomains {
        return M.BadAddressType;
      }
      totalLen := totalLen + req[4];
    } else if addrtype == ATYP_IPV6 {
      totalLen := totalLen + 16;
    } else {
      return M.BadAddressType;
    }
    if peek < totalLen {
      return M.Pending;
    }
    if req[0] != VERSION {
      return M.BadVersion(command, addrtype);
    }
    if addrtype == ATYP_IPV4 {
      return M.Literal(command, SockAddr(Inet, req[4..8], req[8..10]));
    } else if addrtype == ATYP_DOMN {
      var last: byte := if peek > totalLen then req[totalLen] else 0;
      return M.Lookup(command, M.Query(req[5..totalLen - 1], [req[totalLen - 1], last]));
    } else {
      return M.Literal(command, SockAddr(Inet6, req[4..20], req[20..22]));
    }
  }

  /** The first offered method that is configured. */
  method SelectMethod(cfg: M.Configs, methods: seq<byte>) returns (selected: byte)
    ensures selected == M.Select(cfg, methods)
  {
    selected := M.METH_NOMETH;
    var i := 0;
    while i < |methods|
      invariant 0 <= i <= |methods| && selected == M.METH_NOMETH
      invariant M.Select(cfg, methods) == M.Select(cfg, methods[i..])
    {
      if M.Configured(cfg, methods[i]) {
        selected := methods[i];
        break;
      }
      assert methods[i..][1..] == methods[i + 1..];
      i := i + 1;
    }
  }

  /** Walk a list to the first address of a family. */
  method FindFamily(addrs: List<SockAddr>, af: Family) returns (r: Option<SockAddr>)
    ensures r == M.FirstOf(addrs, af)
  {
    var current: List<SockAddr> := addrs;
    while current.Cons?
      invariant M.FirstOf(addrs, af) == M.FirstOf(current, af)
      decreases current
    {
      if current.head.family == af {
        return Some(current.head);
      }
      current := current.tail;
    }
    return None;
  }
}
