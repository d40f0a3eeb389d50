/**
 * The lookup as one step. Every connection of the server, whatever its two threads do in between,
 * is one that a run of a single connection reaches, in which a lookup is the atomic input
 * `Resolved` with exactly what getaddrinfo returned.
 */
module Refinement {
  import opened Wire
  import opened Machine
  import opened Resolver

  /** What getaddrinfo returned for a connection and the main loop has not taken yet. */
  datatype Given = Nothing | Result(ai: List<SockAddr>, gaiRet: int)

  function GivenAfter(s: System, a: Action, id: nat, given: Given): Given
    requires Offered(s, a)
  {
    match a
    case Resolve(ai, gaiRet) => if s.worker.req.id == id then Result(ai, gaiRet) else given
    case Return(_) => if s.answers[0].id == id then Nothing else given
    case _ => given
  }

  /** What an action is to connection `id`: its own event, the answer to its lookup, or nothing. */
  function InputOf(s: System, a: Action, id: nat, given: Given): seq<Input>
    requires Offered(s, a)
  {
    match a
    case Peer(i, side, ev, env) => if i == id then [Ready(side, ev, env)] else []
    case Return(env) => if s.answers[0].id == id && given.Result? then [Resolved(given.ai, given.gaiRet, env)] else []
    case _ => []
  }

  /** The inputs of connection `id` in a schedule, in order. */
  ghost function Inputs(cfg: Configs, s: System, actions: seq<Action>, id: nat, given: Given): seq<Input>
    requires Schedule(cfg, s, actions)
    decreases |actions|
  {
    if actions == [] then []
    else
      InputOf(s, actions[0], id, given)
      + Inputs(cfg, Next(cfg, s, actions[0]), actions[1..], id, GivenAfter(s, actions[0], id, given))
  }

  ghost function GivenAtEnd(cfg: Configs, s: System, actions: seq<Action>, id: nat, given: Given): Given
    requires Schedule(cfg, s, actions)
    decreases |actions|
  {
    if actions == [] then given
    else GivenAtEnd(cfg, Next(cfg, s, actions[0]), actions[1..], id, GivenAfter(s, actions[0], id, given))
  }

  /** c, of the server, is r, of a single run, but for a list that was stored ahead of its answer. */
  predicate Matches(c: Conn, r: Conn, given: Given) {
    match given
    case Nothing => c == r
    case Result(ai, _) => r.state == AsyncDns && c == StoreAddresses(r, ai)
  }

  /** The code on its way through the resolver is the one that was given. */
  ghost predicate Carries(s: System, id: nat, given: Given) {
    && (s.worker.Stored? && s.worker.id == id ==> given.Result? && given.gaiRet == s.worker.gaiRet)
    && (forall a :: a in s.answers && a.id == id ==> given.Result? && given.gaiRet == a.gaiRet)
  }

  // ---- One action

  /** While a connection is looked up, and while its answer is taken, nothing else about it is under way. */
  lemma OnlyOnce(s: System, id: nat)
    requires PipesInv(s)
    ensures s.worker.Looking? && s.worker.req.id == id ==> forall a :: a in s.answers ==> a.id != id
    ensures s.answers != [] && s.answers[0].id == id ==>
      && (forall a :: a in s.answers[1..] ==> a.id != id)
      && !(s.worker.Stored? && s.worker.id == id)
  {
    var q, n := Outstanding(s), |s.answers|;
    assert forall i :: 0 <= i < n ==> q[i] == s.answers[i].id;
    if s.worker.Looking? { assert q[n] == s.worker.req.id; }
    if s.worker.Stored? { assert q[n] == s.worker.id; }
  }

  lemma CarriesOn(cfg: Configs, s: System, a: Action, id: nat, given: Given)
    requires SysInv(cfg, s) && Offered(s, a) && Carries(s, id, given)
    ensures Carries(Next(cfg, s, a), id, GivenAfter(s, a, id, given))
  {
    OnlyOnce(s, id);
    match a
    case Return(_) => assert forall x :: x in s.answers[1..] ==> x in s.answers;
    case PostAnswer =>
      var x := Answer(s.worker.id, s.worker.gaiRet);
      assert forall y :: y in s.answers + [x] ==> y in s.answers || y == x;
    case _ =>
  }

  /** At most one input. */
  function Drive(cfg: Configs, r: Conn, now: seq<Input>): Conn {
    if now == [] then r else Apply(cfg, r, now[0])
  }

  /** An action on the server is its inputs on the single run. */
  lemma ActionMatches(cfg: Configs, s: System, a: Action, id: nat, given: Given, r: Conn)
    requires SysInv(cfg, s) && Offered(s, a) && Reportable(s, a) && id in s.conns
    requires Matches(s.conns[id], r, given) && Carries(s, id, given)
    ensures var t := Next(cfg, s, a); var now := InputOf(s, a, id, given);
      && id in t.conns && |now| <= 1 && (now != [] ==> Enabled(r, now[0]))
      && Matches(t.conns[id], Drive(cfg, r, now), GivenAfter(s, a, id, given))
  {
    NextConn(cfg, s, a, id);
    match a
    case Peer(i, side, ev, env) => if i == id && given.Result? { assert Step(cfg, r, side, ev, env) == r; }
    case Return(env) =>
      HeadOfAnswers(s);
      if s.answers[0].id == id { assert s.answers[0] in s.answers; }
    case Resolve(ai, gaiRet) => LookedUpWaits(s);
    case _ =>
  }

  /** At most one step and then a run are a run. */
  lemma RunOn(cfg: Configs, c: Conn, now: seq<Input>, later: seq<Input>)
    requires |now| <= 1 && (now != [] ==> Enabled(c, now[0])) && Possible(cfg, Drive(cfg, c, now), later)
    ensures Possible(cfg, c, now + later) && Run(cfg, c, now + later) == Run(cfg, Drive(cfg, c, now), later)
  {
    if now == [] {
      assert now + later == later;
    } else {
      assert (now + later)[1..] == later;
    }
  }

  /** One step, and the run after it. */
  lemma Onward(cfg: Configs, c: Conn, i: Input, rest: seq<Input>)
    requires Enabled(c, i) && Possible(cfg, Apply(cfg, c, i), rest)
    ensures Possible(cfg, c, [i] + rest) && Run(cfg, c, [i] + rest) == Run(cfg, Apply(cfg, c, i), rest)
  {
    RunOn(cfg, c, [i], rest);
  }

  lemma TwoSteps(cfg: Configs, c: Conn, i: Input, j: Input)
    requires Enabled(c, i) && Enabled(Apply(cfg, c, i), j)
    ensures Possible(cfg, c, [i, j]) && Run(cfg, c, [i, j]) == Apply(cfg, Apply(cfg, c, i), j)
  {
    Onward(cfg, Apply(cfg, c, i), j, []);
    Onward(cfg, c, i, [j]);
    assert [j] + [] == [j] && [i] + [j] == [i, j];
  }

  /** Two runs in a row. */
  lemma {:induction false} RunAppend(cfg: Configs, c: Conn, xs: seq<Input>, ys: seq<Input>)
    requires Possible(cfg, c, xs) && Possible(cfg, Run(cfg, c, xs), ys)
    ensures Possible(cfg, c, xs + ys) && Run(cfg, c, xs + ys) == Run(cfg, Run(cfg, c, xs), ys)
    decreases |xs|
  {
    if xs == [] {
      assert xs + ys == ys;
    } else {
      var d := Apply(cfg, c, xs[0]);
      RunHead(cfg, c, xs);
      RunAppend(cfg, d, xs[1..], ys);
      Onward(cfg, c, xs[0], xs[1..] + ys);
      HeadAndTail(xs, ys);
    }
  }

  lemma HeadAndTail(xs: seq<Input>, ys: seq<Input>)
    requires xs != []
    ensures [xs[0]] + (xs[1..] + ys) == xs + ys
  {
  }

  lemma RunHead(cfg: Configs, c: Conn, xs: seq<Input>)
    requires xs != [] && Possible(cfg, c, xs)
    ensures var d := Apply(cfg, c, xs[0]);
      Enabled(c, xs[0]) && Possible(cfg, d, xs[1..]) && Run(cfg, c, xs) == Run(cfg, d, xs[1..])
  {
  }

  /** The single run that belongs to a schedule, and how it ends. */
  ghost predicate Simulates(cfg: Configs, s: System, actions: seq<Action>, id: nat, given: Given, r: Conn)
    requires Schedule(cfg, s, actions)
  {
    var t := After(cfg, s, actions); var run := Inputs(cfg, s, actions, id, given);
    && id in t.conns && Possible(cfg, r, run)
    && Matches(t.conns[id], Run(cfg, r, run), GivenAtEnd(cfg, s, actions, id, given))
  }

  lemma SimulatesOn(cfg: Configs, s: System, actions: seq<Action>, id: nat, given: Given, r: Conn)
    requires Schedule(cfg, s, actions) && actions != []
    requires var now := InputOf(s, actions[0], id, given);
      && |now| <= 1 && (now != [] ==> Enabled(r, now[0]))
      && Simulates(cfg, Next(cfg, s, actions[0]), actions[1..], id, GivenAfter(s, actions[0], id, given), Drive(cfg, r, now))
    ensures Simulates(cfg, s, actions, id, given, r)
  {
    var now := InputOf(s, actions[0], id, given);
    var later := Inputs(cfg, Next(cfg, s, actions[0]), actions[1..], id, GivenAfter(s, actions[0], id, given));
    RunOn(cfg, r, now, later);
    assert Inputs(cfg, s, actions, id, given) == now + later;
  }

  lemma {:induction false} ScheduleMatches(cfg: Configs, s: System, actions: seq<Action>, id: nat, given: Given, r: Conn)
    requires SysInv(cfg, s) && Schedule(cfg, s, actions) && id in s.conns
    requires Matches(s.conns[id], r, given) && Carries(s, id, given)
    ensures Simulates(cfg, s, actions, id, given, r)
    decreases |actions|
  {
    if actions != [] {
      var a := actions[0];
      NextInv(cfg, s, a);
      ActionMatches(cfg, s, a, id, given, r);
      CarriesOn(cfg, s, a, id, given);
      var now := InputOf(s, a, id, given);
      ScheduleMatches(cfg, Next(cfg, s, a), actions[1..], id, GivenAfter(s, a, id, given), Drive(cfg, r, now));
      SimulatesOn(cfg, s, actions, id, given, r);
    }
  }

  // ---- From the boot on

  /** Before its accept nothing happens to a connection. */
  lemma BeforeAccept(cfg: Configs, s: System, a: Action, id: nat)
    requires SysInv(cfg, s) && Offered(s, a) && Reportable(s, a) && id !in s.conns && Carries(s, id, Nothing)
    ensures var t := Next(cfg, s, a);
      && InputOf(s, a, id, Nothing) == [] && GivenAfter(s, a, id, Nothing) == Nothing && Carries(t, id, Nothing)
      && (id in t.conns ==> a.Accept? && a.fd >= 0 && t.conns[id] == Accepted(a.fd))
  {
    CarriesOn(cfg, s, a, id, Nothing);
    if a.Resolve? { LookedUpWaits(s); }
  }

  lemma {:induction false} SimulatedFromAccept(cfg: Configs, s: System, actions: seq<Action>, id: nat) returns (fd: int)
    requires SysInv(cfg, s) && Schedule(cfg, s, actions) && id !in s.conns && id in After(cfg, s, actions).conns
    requires Carries(s, id, Nothing)
    ensures fd >= 0 && Accept(fd) in actions && Simulates(cfg, s, actions, id, Nothing, Accepted(fd))
    decreases |actions|
  {
    var a := actions[0];
    var t := Next(cfg, s, a);
    NextInv(cfg, s, a);
    BeforeAccept(cfg, s, a, id);
    if id in t.conns {
      fd := a.fd;
      ScheduleMatches(cfg, t, actions[1..], id, Nothing, Accepted(fd));
    } else {
      fd := SimulatedFromAccept(cfg, t, actions[1..], id);
    }
    SimulatesOn(cfg, s, actions, id, Nothing, Accepted(fd));
  }

  /**
   * Every connection of the server is one that a possible run of a single connection reaches, but
   * for a list that was stored and whose answer the main loop has not taken yet. The run consists
   * of the events of this connection and, for its lookup, the list and the code that getaddrinfo
   * returned for it.
   */
  lemma LookupIsAtomic(cfg: Configs, actions: seq<Action>, id: nat) returns (fd: int)
    requires Schedule(cfg, BOOT, actions) && id in After(cfg, BOOT, actions).conns
    ensures var run := Inputs(cfg, BOOT, actions, id, Nothing);
      && fd >= 0 && Accept(fd) in actions && Possible(cfg, Accepted(fd), run)
      && Matches(After(cfg, BOOT, actions).conns[id], Run(cfg, Accepted(fd), run), GivenAtEnd(cfg, BOOT, actions, id, Nothing))
  {
    fd := SimulatedFromAccept(cfg, BOOT, actions, id);
  }
}
