/**
 * The whole server: many connections, the main loop and the resolver thread, which talk through
 * two pipes. Every interleaving of their steps is a sequence of actions.
 */
module Resolver {
  import opened Wire
  import opened Machine
  import opened Invariant

  /** A message on the request pipe; the name and port are kept as a record. */
  datatype Request = Request(id: nat, query: Query)

  /** A message on the answer pipe. */
  datatype Answer = Answer(id: nat, gaiRet: int)

  /** Where the resolver thread stands. */
  datatype Worker = Idle | Looking(req: Request) | Stored(id: nat, gaiRet: int)

  datatype System = System(
    conns: map<nat, Conn>,
    nextId: nat,
    requests: seq<Request>,
    worker: Worker,
    answers: seq<Answer>)

  const BOOT := System(map[], 0, [], Idle, [])

  /** Steps of the main loop (Accept, Peer, Return) and of the resolver thread (the others). */
  datatype Action =
    | Accept(fd: int)
    | Peer(id: nat, side: Side, ev: Event, env: Env)
    | Return(env: Env)
    | TakeRequest
    | Resolve(ai: List<SockAddr>, gaiRet: int)
    | PostAnswer

  function PeerStep(cfg: Configs, s: System, id: nat, side: Side, ev: Event, env: Env): System
    requires id in s.conns
  {
    var c := s.conns[id];
    var d := Step(cfg, c, side, ev, env);
    s.(conns := s.conns[id := d],
       requests := match Posted(c, d) case Some(query) => s.requests + [Request(id, query)] case None => s.requests)
  }

  function ReturnStep(cfg: Configs, s: System, env: Env): System
    requires s.answers != [] && s.answers[0].id in s.conns
  {
    var a := s.answers[0];
    s.(conns := s.conns[a.id := ResolverReturned(cfg, s.conns[a.id], a.gaiRet, env)], answers := s.answers[1..])
  }

  /** What the environment promises, whether or not the event can be reported. */
  predicate Offered(s: System, a: Action) {
    match a
    case Accept(fd) => fd >= 0
    case Peer(id, side, ev, env) => id in s.conns && EnvOk(s.conns[id], env)
    case Return(env) => s.answers != [] && s.answers[0].id in s.conns && NewFdOk(s.conns[s.answers[0].id], env)
    case TakeRequest => s.worker.Idle? && s.requests != []
    case Resolve(ai, gaiRet) => s.worker.Looking? && s.worker.req.id in s.conns && AnswerOk(ai, gaiRet)
    case PostAnswer => s.worker.Stored?
  }

  function Next(cfg: Configs, s: System, a: Action): System
    requires Offered(s, a)
  {
    match a
    case Accept(fd) => s.(conns := s.conns[s.nextId := Accepted(fd)], nextId := s.nextId + 1)
    case Peer(id, side, ev, env) => PeerStep(cfg, s, id, side, ev, env)
    case Return(env) => ReturnStep(cfg, s, env)
    case TakeRequest => s.(worker := Looking(s.requests[0]), requests := s.requests[1..])
    case Resolve(ai, gaiRet) =>
      var id := s.worker.req.id;
      s.(conns := s.conns[id := StoreAddresses(s.conns[id], ai)], worker := Stored(id, gaiRet))
    case PostAnswer =>
      s.(answers := s.answers + [Answer(s.worker.id, s.worker.gaiRet)], worker := Idle)
  }

  /** What an action does to one connection. */
  function ConnAfter(cfg: Configs, s: System, a: Action, id: nat): Conn
    requires Offered(s, a) && id in s.conns
  {
    var c := s.conns[id];
    match a
    case Peer(i, side, ev, env) => if i == id then Step(cfg, c, side, ev, env) else c
    case Return(env) => if s.answers[0].id == id then ResolverReturned(cfg, c, s.answers[0].gaiRet, env) else c
    case Resolve(ai, _) => if s.worker.req.id == id then StoreAddresses(c, ai) else c
    case _ => c
  }

  lemma NextConn(cfg: Configs, s: System, a: Action, id: nat)
    requires Offered(s, a) && id in s.conns && id != s.nextId
    ensures id in Next(cfg, s, a).conns && Next(cfg, s, a).conns[id] == ConnAfter(cfg, s, a, id)
  {
  }

  /** epoll can report the event: the descriptor of its Data is registered. */
  predicate Reportable(s: System, a: Action) {
    a.Peer? ==> a.id in s.conns && Watched(s.conns[a.id], a.side)
  }

  // ---- Outstanding lookups

  function WorkerIds(w: Worker): seq<nat> {
    match w
    case Idle => []
    case Looking(req) => [req.id]
    case Stored(id, _) => [id]
  }

  /** The Shared pointers on their way through the resolver, oldest first. */
  function Outstanding(s: System): seq<nat> {
    seq(|s.answers|, i requires 0 <= i < |s.answers| => s.answers[i].id)
    + WorkerIds(s.worker)
    + seq(|s.requests|, i requires 0 <= i < |s.requests| => s.requests[i].id)
  }

  ghost predicate Distinct<T>(q: seq<T>) {
    forall i, j :: 0 <= i < j < |q| ==> q[i] != q[j]
  }

  /** The answer matches what the thread stored. */
  ghost predicate Answered(s: System, id: nat, gaiRet: int) {
    id in s.conns && AnswerOk(s.conns[id].info.ai, gaiRet)
  }

  /** The request carries the name the client sent. */
  ghost predicate Asked(s: System, r: Request) {
    r.id in s.conns && s.conns[r.id].hist.lookups == [r.query]
  }

  ghost predicate ConnsInv(cfg: Configs, s: System) {
    forall id :: id in s.conns ==> id < s.nextId && Inv(cfg, s.conns[id])
  }

  /** A connection waits for the resolver exactly when one message about it is under way. */
  ghost predicate PipesInv(s: System) {
    && Distinct(Outstanding(s))
    && (forall id :: id in Outstanding(s) <==> id in s.conns && s.conns[id].state == AsyncDns)
    && (forall a :: a in s.answers ==> Answered(s, a.id, a.gaiRet))
    && (s.worker.Stored? ==> Answered(s, s.worker.id, s.worker.gaiRet))
    && (forall r :: r in s.requests ==> Asked(s, r))
    && (s.worker.Looking? ==> Asked(s, s.worker.req))
  }

  ghost predicate SysInv(cfg: Configs, s: System) {
    ConnsInv(cfg, s) && PipesInv(s)
  }

  // ---- Preservation

  lemma AcceptPipes(s: System, fd: int)
    requires PipesInv(s) && s.nextId !in s.conns
    ensures PipesInv(s.(conns := s.conns[s.nextId := Accepted(fd)], nextId := s.nextId + 1))
  {
    var t := s.(conns := s.conns[s.nextId := Accepted(fd)], nextId := s.nextId + 1);
    assert Outstanding(t) == Outstanding(s);
  }

  /** Messages in flight speak of connections other than the one that moved. */
  lemma OthersUntouched(s: System, t: System, id: nat)
    requires id !in Outstanding(s) && t.answers == s.answers && t.worker == s.worker
    requires forall other :: other in s.conns && other != id ==> other in t.conns && t.conns[other] == s.conns[other]
    ensures forall a :: a in s.answers ==> (Answered(s, a.id, a.gaiRet) ==> Answered(t, a.id, a.gaiRet))
    ensures s.worker.Stored? && Answered(s, s.worker.id, s.worker.gaiRet) ==> Answered(t, s.worker.id, s.worker.gaiRet)
    ensures forall r :: r in s.requests ==> (Asked(s, r) ==> Asked(t, r))
    ensures s.worker.Looking? && Asked(s, s.worker.req) ==> Asked(t, s.worker.req)
  {
    var q, n, m := Outstanding(s), |s.answers|, |WorkerIds(s.worker)|;
    assert forall i :: 0 <= i < n ==> q[i] == s.answers[i].id;
    assert m > 0 ==> q[n] == WorkerIds(s.worker)[0];
    assert forall i :: 0 <= i < |s.requests| ==> q[n + m + i] == s.requests[i].id;
  }

  /** A connection that is not waiting moves without asking. */
  lemma MovePipes(s: System, id: nat, d: Conn)
    requires PipesInv(s) && id in s.conns && s.conns[id].state != AsyncDns && d.state != AsyncDns
    ensures PipesInv(s.(conns := s.conns[id := d]))
  {
    var t := s.(conns := s.conns[id := d]);
    assert Outstanding(t) == Outstanding(s);
    OthersUntouched(s, t, id);
  }

  /** A connection that is not waiting asks. */
  lemma AskPipes(s: System, id: nat, d: Conn, query: Query)
    requires PipesInv(s) && id in s.conns && s.conns[id].state != AsyncDns && d.state == AsyncDns
    requires d.hist.lookups == [query]
    ensures PipesInv(s.(conns := s.conns[id := d], requests := s.requests + [Request(id, query)]))
  {
    var r := Request(id, query);
    var t := s.(conns := s.conns[id := d], requests := s.requests + [r]);
    assert Outstanding(t) == Outstanding(s) + [id];
    assert id !in Outstanding(s);
    OthersUntouched(s, t, id);
    forall x | x in t.requests ensures Asked(t, x) {
      if x != r { assert x in s.requests; }
    }
  }

  lemma AsyncDnsAsked(cfg: Configs, c: Conn)
    requires Inv(cfg, c) && c.state == AsyncDns
    ensures |c.hist.lookups| == 1
  {
  }

  lemma PeerPipes(cfg: Configs, s: System, id: nat, side: Side, ev: Event, env: Env)
    requires PipesInv(s) && id in s.conns
    requires var d := Step(cfg, s.conns[id], side, ev, env); d.state == AsyncDns ==> |d.hist.lookups| == 1
    ensures PipesInv(PeerStep(cfg, s, id, side, ev, env))
  {
    var c := s.conns[id];
    var d := Step(cfg, c, side, ev, env);
    if c.state == AsyncDns {
      assert s.conns[id := c] == s.conns;
    } else if d.state == AsyncDns {
      AskPipes(s, id, d, d.hist.lookups[0]);
    } else {
      MovePipes(s, id, d);
    }
  }

  lemma OutstandingHead(s: System)
    requires s.answers != []
    ensures Outstanding(s) == [s.answers[0].id] + Outstanding(s.(answers := s.answers[1..]))
  {
  }

  lemma DistinctTail(x: nat, q: seq<nat>)
    requires Distinct([x] + q)
    ensures Distinct(q) && x !in q
  {
    assert ([x] + q)[0] == x;
    assert forall i :: 0 <= i < |q| ==> q[i] == ([x] + q)[i + 1];
  }

  /** The oldest answer is taken and its connection moves on. */
  lemma ReturnPipes(s: System, d: Conn)
    requires PipesInv(s) && s.answers != [] && d.state != AsyncDns
    ensures PipesInv(s.(conns := s.conns[s.answers[0].id := d], answers := s.answers[1..]))
  {
    var id := s.answers[0].id;
    var u := s.(answers := s.answers[1..]);
    var t := s.(conns := s.conns[id := d], answers := s.answers[1..]);
    OutstandingHead(s);
    DistinctTail(id, Outstanding(u));
    assert Outstanding(t) == Outstanding(u);
    OthersUntouched(u, t, id);
    assert forall x :: x in u.answers ==> x in s.answers && (Answered(s, x.id, x.gaiRet) ==> Answered(u, x.id, x.gaiRet));
    assert forall x :: Asked(s, x) ==> Asked(u, x);
  }

  /** The answer at the head speaks of a waiting connection. */
  lemma HeadOfAnswers(s: System)
    requires PipesInv(s) && s.answers != []
    ensures var a := s.answers[0];
      a.id in s.conns && s.conns[a.id].state == AsyncDns && AnswerOk(s.conns[a.id].info.ai, a.gaiRet)
  {
    assert Outstanding(s)[0] == s.answers[0].id;
    assert s.answers[0] in s.answers;
  }

  /** The connection being looked up is waiting. */
  lemma LookedUpWaits(s: System)
    requires PipesInv(s) && s.worker.Looking?
    ensures s.worker.req.id in s.conns && s.conns[s.worker.req.id].state == AsyncDns
  {
    assert Outstanding(s)[|s.answers|] == s.worker.req.id;
  }

  lemma ResolvePipes(s: System, ai: List<SockAddr>, gaiRet: int)
    requires PipesInv(s) && s.worker.Looking? && s.worker.req.id in s.conns && AnswerOk(ai, gaiRet)
    ensures var id := s.worker.req.id;
      PipesInv(s.(conns := s.conns[id := StoreAddresses(s.conns[id], ai)], worker := Stored(id, gaiRet)))
  {
    var id := s.worker.req.id;
    LookedUpWaits(s);
    var t := s.(conns := s.conns[id := StoreAddresses(s.conns[id], ai)], worker := Stored(id, gaiRet));
    assert Outstanding(t) == Outstanding(s);
    var q, n := Outstanding(s), |s.answers|;
    assert q[n] == id;
    assert forall i :: 0 <= i < n ==> q[i] == s.answers[i].id;
    assert forall i :: 0 <= i < |s.requests| ==> q[n + 1 + i] == s.requests[i].id;
  }

  lemma TakePipes(s: System)
    requires PipesInv(s) && s.worker.Idle? && s.requests != []
    ensures PipesInv(s.(worker := Looking(s.requests[0]), requests := s.requests[1..]))
  {
    var t := s.(worker := Looking(s.requests[0]), requests := s.requests[1..]);
    assert Outstanding(t) == Outstanding(s);
    assert forall r :: r in t.requests ==> r in s.requests;
    assert s.requests[0] in s.requests;
    assert forall r :: Asked(s, r) ==> Asked(t, r);
    assert forall a :: a in t.answers ==> Answered(s, a.id, a.gaiRet);
  }

  lemma PostPipes(s: System)
    requires PipesInv(s) && s.worker.Stored?
    ensures PipesInv(s.(answers := s.answers + [Answer(s.worker.id, s.worker.gaiRet)], worker := Idle))
  {
    var a := Answer(s.worker.id, s.worker.gaiRet);
    var t := s.(answers := s.answers + [a], worker := Idle);
    assert Outstanding(t) == Outstanding(s);
    assert forall x :: x in t.answers ==> x in s.answers || x == a;
    assert forall r :: r in t.requests ==> Asked(s, r);
    assert forall r :: Asked(s, r) ==> Asked(t, r);
  }

  /** Every connection keeps its invariant. */
  lemma ConnAfterInv(cfg: Configs, s: System, a: Action, id: nat)
    requires SysInv(cfg, s) && Offered(s, a) && Reportable(s, a) && id in s.conns
    ensures Inv(cfg, ConnAfter(cfg, s, a, id))
  {
    match a
    case Peer(i, side, ev, env) => if i == id { StepInv(cfg, s.conns[id], side, ev, env); }
    case Return(env) =>
      if s.answers[0].id == id {
        HeadOfAnswers(s);
        KeepResolved(cfg, s.conns[id], s.answers[0].gaiRet, env);
      }
    case Resolve(ai, _) =>
      if s.worker.req.id == id {
        LookedUpWaits(s);
        StoreAddressesInv(cfg, s.conns[id], ai);
      }
    case _ =>
  }

  lemma NextConnsInv(cfg: Configs, s: System, a: Action)
    requires SysInv(cfg, s) && Offered(s, a) && Reportable(s, a)
    ensures ConnsInv(cfg, Next(cfg, s, a))
  {
    var t := Next(cfg, s, a);
    forall id | id in t.conns
      ensures id < t.nextId && Inv(cfg, t.conns[id])
    {
      if id == s.nextId {
        AcceptedInv(cfg, a.fd);
      } else {
        NextConn(cfg, s, a, id);
        ConnAfterInv(cfg, s, a, id);
      }
    }
  }

  lemma NextPipesInv(cfg: Configs, s: System, a: Action)
    requires SysInv(cfg, s) && Offered(s, a) && Reportable(s, a)
    ensures PipesInv(Next(cfg, s, a))
  {
    match a
    case Accept(fd) => AcceptPipes(s, fd);
    case Peer(id, side, ev, env) =>
      ConnAfterInv(cfg, s, a, id);
      var d := Step(cfg, s.conns[id], side, ev, env);
      if d.state == AsyncDns { AsyncDnsAsked(cfg, d); }
      PeerPipes(cfg, s, id, side, ev, env);
    case Return(env) =>
      HeadOfAnswers(s);
      AnsweredMovesOn(cfg, s.conns[s.answers[0].id], s.answers[0].gaiRet, env);
      ReturnPipes(s, ResolverReturned(cfg, s.conns[s.answers[0].id], s.answers[0].gaiRet, env));
    case TakeRequest => TakePipes(s);
    case PostAnswer => PostPipes(s);
    case Resolve(ai, gaiRet) => ResolvePipes(s, ai, gaiRet);
  }

  lemma AnsweredMovesOn(cfg: Configs, c: Conn, gaiRet: int, env: Env)
    requires Inv(cfg, c) && c.state == AsyncDns && AnswerOk(c.info.ai, gaiRet) && NewFdOk(c, env)
    ensures ResolverReturned(cfg, c, gaiRet, env).state != AsyncDns
  {
    KeepResolved(cfg, c, gaiRet, env);
  }

  lemma NextInv(cfg: Configs, s: System, a: Action)
    requires SysInv(cfg, s) && Offered(s, a) && Reportable(s, a)
    ensures SysInv(cfg, Next(cfg, s, a))
  {
    NextConnsInv(cfg, s, a);
    NextPipesInv(cfg, s, a);
  }

  // ---- What the hand-off guarantees

  /** Every step is one the environment offers, on a registered descriptor. */
  ghost predicate Schedule(cfg: Configs, s: System, actions: seq<Action>)
    decreases |actions|
  {
    actions != [] ==>
      Offered(s, actions[0]) && Reportable(s, actions[0]) && Schedule(cfg, Next(cfg, s, actions[0]), actions[1..])
  }

  ghost function After(cfg: Configs, s: System, actions: seq<Action>): System
    requires Schedule(cfg, s, actions)
    decreases |actions|
  {
    if actions == [] then s else After(cfg, Next(cfg, s, actions[0]), actions[1..])
  }

  lemma {:induction false} ScheduleInv(cfg: Configs, s: System, actions: seq<Action>)
    requires SysInv(cfg, s) && Schedule(cfg, s, actions)
    ensures SysInv(cfg, After(cfg, s, actions))
    decreases |actions|
  {
    if actions != [] {
      NextInv(cfg, s, actions[0]);
      ScheduleInv(cfg, Next(cfg, s, actions[0]), actions[1..]);
    }
  }

  /** Neither the client's Data nor Info nor Shared has been freed. */
  predicate AllAlive(c: Conn) {
    c.clientLive && c.infoLive && c.hist.clientFrees == 0 && c.hist.sharedFrees == 0
  }

  /**
   * Under every interleaving: a connection has at most one lookup outstanding, the connections
   * with one are exactly those waiting for it, all of them are live, each request carries the
   * name its client sent, and a connection asks at most once.
   */
  lemma LookupSafety(cfg: Configs, actions: seq<Action>)
    requires Schedule(cfg, BOOT, actions)
    ensures var s := After(cfg, BOOT, actions);
      && Distinct(Outstanding(s))
      && (forall id :: id in Outstanding(s) <==> id in s.conns && s.conns[id].state == AsyncDns)
      && (forall id :: id in Outstanding(s) ==> AllAlive(s.conns[id]))
      && (forall r :: r in s.requests ==> r.id in s.conns && s.conns[r.id].hist.lookups == [r.query])
      && (forall id :: id in s.conns ==> |s.conns[id].hist.lookups| <= 1)
  {
    ScheduleInv(cfg, BOOT, actions);
    PipesAreSafe(cfg, After(cfg, BOOT, actions));
  }

  lemma PipesAreSafe(cfg: Configs, s: System)
    requires SysInv(cfg, s)
    ensures Distinct(Outstanding(s))
    ensures forall id :: id in Outstanding(s) <==> id in s.conns && s.conns[id].state == AsyncDns
    ensures forall id :: id in Outstanding(s) ==> AllAlive(s.conns[id])
    ensures forall r :: r in s.requests ==> r.id in s.conns && s.conns[r.id].hist.lookups == [r.query]
    ensures forall id :: id in s.conns ==> |s.conns[id].hist.lookups| <= 1
  {
    forall id | id in s.conns
      ensures |s.conns[id].hist.lookups| <= 1
    {
      AtMostOneLookup(cfg, s.conns[id]);
    }
  }

  lemma AtMostOneLookup(cfg: Configs, c: Conn)
    requires Inv(cfg, c)
    ensures |c.hist.lookups| <= 1
  {
  }

  lemma PeerOnlyAdds(cfg: Configs, s: System, id: nat, side: Side, ev: Event, env: Env)
    requires id in s.conns
    ensures var q, q' := Outstanding(s), Outstanding(PeerStep(cfg, s, id, side, ev, env)); q' == q || q' == q + [id]
  {
    var d := Step(cfg, s.conns[id], side, ev, env);
    if Posted(s.conns[id], d).Some? {
      assert Outstanding(PeerStep(cfg, s, id, side, ev, env)) == Outstanding(s) + [id];
    } else {
      assert Outstanding(PeerStep(cfg, s, id, side, ev, env)) == Outstanding(s);
    }
  }

  /** While its lookup is outstanding, the main loop neither changes nor frees a connection. */
  lemma OneOwner(cfg: Configs, s: System, a: Action, id: nat)
    requires SysInv(cfg, s) && Offered(s, a) && id in Outstanding(s)
    requires a.Accept? || a.Peer? || (a.Return? && s.answers[0].id != id)
    ensures var t := Next(cfg, s, a); id in t.conns && t.conns[id] == s.conns[id] && id in Outstanding(t)
  {
    NextConn(cfg, s, a, id);
    var t := Next(cfg, s, a);
    match a
    case Accept(_) => assert Outstanding(t) == Outstanding(s);
    case Peer(i, side, ev, env) => PeerOnlyAdds(cfg, s, i, side, ev, env);
    case Return(_) =>
      OutstandingHead(s);
      assert Outstanding(t) == Outstanding(s.(answers := s.answers[1..]));
  }

  /** The resolver thread touches nothing but the address list of the connection it looks up. */
  lemma ThreadWritesAddressesOnly(cfg: Configs, s: System, a: Action, id: nat)
    requires SysInv(cfg, s) && Offered(s, a) && (a.TakeRequest? || a.Resolve? || a.PostAnswer?) && id in s.conns
    ensures var t := Next(cfg, s, a);
      && id in t.conns && t.conns[id] == s.conns[id].(info := s.conns[id].info.(ai := t.conns[id].info.ai))
      && (s.conns[id].state != AsyncDns ==> t.conns[id] == s.conns[id])
  {
    NextConn(cfg, s, a, id);
    if a.Resolve? { LookedUpWaits(s); }
  }

  /**
   * What getaddrinfo returned is what waits on the answer pipe: the oldest request is taken, its
   * connection is given the list, and the code travels with its pointer.
   */
  lemma ThreadPassesOn(cfg: Configs, s: System, a: Action)
    requires SysInv(cfg, s) && Offered(s, a)
    ensures var t := Next(cfg, s, a);
      && (a.TakeRequest? ==> s.requests == [t.worker.req] + t.requests && t.answers == s.answers)
      && (a.Resolve? ==>
            && var id := s.worker.req.id;
               t.worker == Stored(id, a.gaiRet) && id in t.conns && t.conns[id].info.ai == a.ai
               && t.requests == s.requests && t.answers == s.answers)
      && (a.PostAnswer? ==>
            t.answers == s.answers + [Answer(s.worker.id, s.worker.gaiRet)] && t.requests == s.requests && t.worker.Idle?)
      && (a.Return? ==> t.answers == s.answers[1..] && t.requests == s.requests && t.worker == s.worker)
  {
  }

  // ---- One connection asks once

  predicate BeforeAsking(s: State) {
    s in {WaitingMethods, SendingMethod, WaitingCommand}
  }

  /** How often a run enters ASYNC_DNS. */
  function Questions(cfg: Configs, c: Conn, run: seq<Input>): nat
    decreases |run|
  {
    if run == [] then 0
    else
      var d := Apply(cfg, c, run[0]);
      (if c.state != AsyncDns && d.state == AsyncDns then 1 else 0) + Questions(cfg, d, run[1..])
  }

  lemma OneQuestion(cfg: Configs, c: Conn, i: Input)
    requires Inv(cfg, c) && Enabled(c, i)
    ensures var d := Apply(cfg, c, i);
      && Inv(cfg, d) && (BeforeAsking(d.state) ==> BeforeAsking(c.state))
      && (c.state != AsyncDns && d.state == AsyncDns ==> BeforeAsking(c.state))
  {
    ApplyInv(cfg, c, i);
  }

  lemma {:induction false} AsksAtMostOnce(cfg: Configs, c: Conn, run: seq<Input>)
    requires Inv(cfg, c) && Possible(cfg, c, run)
    ensures Questions(cfg, c, run) <= if BeforeAsking(c.state) then 1 else 0
    decreases |run|
  {
    if run != [] {
      OneQuestion(cfg, c, run[0]);
      AsksAtMostOnce(cfg, Apply(cfg, c, run[0]), run[1..]);
    }
  }
}
