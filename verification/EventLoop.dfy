/** One batch of epoll events: none of them reaches a Data freed earlier in the batch. */
module EventLoop {
  import opened Machine
  import opened Invariant
  import opened Guarantees
  import opened Resolver

  /** An action other than the event of this very Data leaves its descriptor registered. */
  lemma StaysWatched(cfg: Configs, s: System, a: Action, id: nat, side: Side)
    requires SysInv(cfg, s) && Offered(s, a) && Reportable(s, a)
    requires id in s.conns && Watched(s.conns[id], side)
    requires !(a.Peer? && a.id == id && a.side == side)
    ensures var t := Next(cfg, s, a); id in t.conns && Watched(t.conns[id], side)
  {
    NextConn(cfg, s, a, id);
    match a
    case Peer(other, from, ev, env) =>
      if other == id { StepFreesItsOwn(cfg, s.conns[id], from, ev, env); }
    case Return(env) =>
      if s.answers[0].id == id {
        HeadOfAnswers(s);
        WaitingConnStaysWatched(cfg, s.conns[id], side, s.answers[0].gaiRet, env);
      }
    case _ =>
  }

  lemma WaitingConnStaysWatched(cfg: Configs, c: Conn, side: Side, gaiRet: int, env: Env)
    requires Inv(cfg, c) && c.state == AsyncDns && AnswerOk(c.info.ai, gaiRet) && NewFdOk(c, env) && Watched(c, side)
    ensures Watched(ResolverReturned(cfg, c, gaiRet, env), side)
  {
    KeepResolved(cfg, c, gaiRet, env);
    OnlyClientWatched(cfg, c, side);
    ClientWatched(cfg, ResolverReturned(cfg, c, gaiRet, env));
  }

  lemma OnlyClientWatched(cfg: Configs, c: Conn, side: Side)
    requires Inv(cfg, c) && c.state == AsyncDns && Watched(c, side)
    ensures side.Client?
  {
  }

  lemma ClientWatched(cfg: Configs, c: Conn)
    requires Inv(cfg, c) && c.state in {Connecting, SendingReply}
    ensures Watched(c, Client)
  {
  }

  /** Every event of the system reaches Data that is still allocated. */
  lemma ReportedIsLive(cfg: Configs, s: System, a: Action)
    requires SysInv(cfg, s) && Reportable(s, a) && a.Peer?
    ensures Live(s.conns[a.id], a.side)
  {
  }

  // ---- A batch

  /** What epoll reports: an action, or an error on a listener. */
  datatype Report = Does(action: Action) | ListenerFailed

  /** The actions up to the first listener error, which ends the server. */
  function Taken(batch: seq<Report>): seq<Action> {
    if batch == [] || batch[0].ListenerFailed? then []
    else [batch[0].action] + Taken(batch[1..])
  }

  /** epoll reports each registered Data at most once per batch. */
  ghost predicate OncePerData(actions: seq<Action>) {
    forall i, j :: 0 <= i < j < |actions| && actions[i].Peer? && actions[j].Peer? ==>
      actions[i].id != actions[j].id || actions[i].side != actions[j].side
  }

  /** Each descriptor was registered when epoll reported it. */
  ghost predicate AllReportable(s: System, actions: seq<Action>) {
    forall i :: 0 <= i < |actions| ==> Reportable(s, actions[i])
  }

  /** The results of system calls are acceptable when each action's turn comes. */
  ghost predicate OfferedInTurn(cfg: Configs, s: System, actions: seq<Action>)
    decreases |actions|
  {
    actions != [] ==> Offered(s, actions[0]) && OfferedInTurn(cfg, Next(cfg, s, actions[0]), actions[1..])
  }

  /** What remains of a batch after its first action was reported in the same way. */
  lemma RestStaysReportable(cfg: Configs, s: System, actions: seq<Action>)
    requires SysInv(cfg, s) && OncePerData(actions) && actions != [] && Offered(s, actions[0]) && AllReportable(s, actions)
    ensures OncePerData(actions[1..]) && AllReportable(Next(cfg, s, actions[0]), actions[1..])
  {
    var t := Next(cfg, s, actions[0]);
    forall i | 0 <= i < |actions[1..]|
      ensures Reportable(t, actions[1..][i])
    {
      var e := actions[i + 1];
      assert Reportable(s, e) && Reportable(s, actions[0]);
      if e.Peer? { StaysWatched(cfg, s, actions[0], e.id, e.side); }
    }
    assert forall i :: 0 <= i < |actions[1..]| ==> actions[1..][i] == actions[i + 1];
  }

  /**
   * A batch, with steps of the resolver thread and a resolver answer anywhere in between, is
   * dispatched without ever touching freed Data: it is enough that each descriptor was registered
   * when epoll reported it.
   */
  lemma {:induction false} BatchTouchesOnlyLiveData(cfg: Configs, s: System, actions: seq<Action>)
    requires SysInv(cfg, s) && OncePerData(actions) && OfferedInTurn(cfg, s, actions) && AllReportable(s, actions)
    ensures Schedule(cfg, s, actions)
    decreases |actions|
  {
    if actions != [] {
      assert Reportable(s, actions[0]);
      RestStaysReportable(cfg, s, actions);
      NextInv(cfg, s, actions[0]);
      BatchTouchesOnlyLiveData(cfg, Next(cfg, s, actions[0]), actions[1..]);
    }
  }

  /** The loop over the events of one batch; a listener error ends it and the server. */
  method DispatchBatch(cfg: Configs, s: System, batch: seq<Report>) returns (t: System, stopped: bool)
    requires SysInv(cfg, s)
    requires OncePerData(Taken(batch)) && OfferedInTurn(cfg, s, Taken(batch)) && AllReportable(s, Taken(batch))
    ensures Schedule(cfg, s, Taken(batch)) && t == After(cfg, s, Taken(batch)) && SysInv(cfg, t)
    ensures stopped <==> ListenerFailed in batch
  {
    BatchTouchesOnlyLiveData(cfg, s, Taken(batch));
    t := s;
    var i := 0;
    while i < |batch|
      invariant 0 <= i <= |batch| && SysInv(cfg, t) && ListenerFailed !in batch[..i]
      invariant Schedule(cfg, t, Taken(batch[i..])) && After(cfg, t, Taken(batch[i..])) == After(cfg, s, Taken(batch))
    {
      if batch[i].ListenerFailed? {
        return t, true;
      }
      var a := batch[i].action;
      assert batch[i..][1..] == batch[i + 1..];
      assert Taken(batch[i..])[0] == a && Taken(batch[i..])[1..] == Taken(batch[i + 1..]);
      NextInv(cfg, t, a);
      t := Next(cfg, t, a);
      i := i + 1;
    }
    return t, false;
  }

  /** A connection in CLOSED, or with a side freed, stays that way whatever the server does. */
  lemma FreedStaysClosed(cfg: Configs, s: System, a: Action, id: nat)
    requires SysInv(cfg, s) && Offered(s, a) && Reportable(s, a) && id in s.conns && s.conns[id].state == Closed
    ensures var t := Next(cfg, s, a); id in t.conns && t.conns[id].state == Closed
  {
    NextConn(cfg, s, a, id);
    if a.Return? { HeadOfAnswers(s); }
    if a.Resolve? { LookedUpWaits(s); }
  }
}
