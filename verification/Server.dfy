/** What holds of every connection of the server, under every interleaving of its two threads. */
module Server {
  import opened Wire
  import opened Firewall
  import opened Machine
  import opened Invariant
  import opened Guarantees
  import opened Progress
  import opened Resolver

  /** Connection `id` of a server that booted and performed these actions. */
  ghost predicate Reached(cfg: Configs, actions: seq<Action>, id: nat, c: Conn) {
    Schedule(cfg, BOOT, actions) && id in After(cfg, BOOT, actions).conns && c == After(cfg, BOOT, actions).conns[id]
  }

  lemma ReachedInv(cfg: Configs, actions: seq<Action>, id: nat, c: Conn)
    requires Reached(cfg, actions, id, c)
    ensures Inv(cfg, c)
  {
    ScheduleInv(cfg, BOOT, actions);
  }

  /** Every client is sent its method reply and whole frames, in the order of the protocol. */
  lemma EveryTranscript(cfg: Configs, actions: seq<Action>, id: nat, c: Conn)
    requires Reached(cfg, actions, id, c)
    ensures WellSpoken(c)
  {
    ReachedInv(cfg, actions, id, c);
    SpeaksWell(cfg, c);
  }

  /** Every relayed connection is authorised. */
  lemma EveryRelayAuthorised(cfg: Configs, actions: seq<Action>, id: nat, c: Conn)
    requires Reached(cfg, actions, id, c) && c.state == Full
    ensures Authorised(cfg, c)
  {
    ReachedInv(cfg, actions, id, c);
    RelayingIsAuthorised(cfg, c);
  }

  /** No connection serves a literal address that a configured rule names. */
  lemma EveryTargetScreened(cfg: Configs, rules: seq<Rule>, actions: seq<Action>, id: nat, c: Conn)
    requires Reached(cfg, actions, id, c) && LinkedFrom(cfg.blocks, rules)
    ensures Screened(rules, c)
  {
    ReachedInv(cfg, actions, id, c);
    ServesOnlyScreened(cfg, rules, c);
  }

  /** No connection misses a wakeup. */
  lemma EveryWakeup(cfg: Configs, actions: seq<Action>, id: nat, c: Conn)
    requires Reached(cfg, actions, id, c)
    ensures WakesUp(c)
  {
    ReachedInv(cfg, actions, id, c);
    InvWakesUp(cfg, c);
  }

  /** Every record is freed at most once, and epoll holds no pointer to a freed one. */
  lemma EveryLifetime(cfg: Configs, actions: seq<Action>, id: nat, c: Conn)
    requires Reached(cfg, actions, id, c)
    ensures FreedRight(c)
  {
    ReachedInv(cfg, actions, id, c);
    FreesRight(cfg, c);
  }

  /** No handshake write is refused, and no read is asked for nothing. */
  lemma EveryBuffer(cfg: Configs, actions: seq<Action>, id: nat, c: Conn)
    requires Reached(cfg, actions, id, c)
    ensures BuffersFit(c)
  {
    ReachedInv(cfg, actions, id, c);
    InvBuffersFit(cfg, c);
  }

  // ---- Every handshake ends

  /** Lookups return at most n addresses. */
  predicate AtMost(a: Action, n: nat) {
    a.Resolve? ==> |Elements(a.ai)| <= n
  }

  /** What a waiting connection has been given is at most that long. */
  predicate HoldsAtMost(c: Conn, n: nat) {
    c.state == AsyncDns ==> |Elements(c.info.ai)| <= n
  }

  /** The main loop changed this connection, which was in its handshake. */
  predicate Advances(s: System, a: Action, t: System, id: nat) {
    && !a.Resolve? && id in s.conns && id in t.conns
    && Handshake(s.conns[id].state) && t.conns[id] != s.conns[id]
  }

  /** How often the main loop changes a connection while it is in its handshake. */
  ghost function Advanced(cfg: Configs, s: System, actions: seq<Action>, id: nat): nat
    requires Schedule(cfg, s, actions)
    decreases |actions|
  {
    if actions == [] then 0
    else
      var t := Next(cfg, s, actions[0]);
      (if Advances(s, actions[0], t, id) then 1 else 0) + Advanced(cfg, t, actions[1..], id)
  }

  /** An event, on this connection or another. */
  lemma EventPays(cfg: Configs, c: Conn, side: Side, ev: Event, env: Env, n: nat)
    requires Inv(cfg, c) && Watched(c, side) && EnvOk(c, env) && HoldsAtMost(c, n)
    ensures var d := Step(cfg, c, side, ev, env);
      HoldsAtMost(d, n) && Budget(d, n) + (if Handshake(c.state) && d != c then 1 else 0) <= Budget(c, n)
  {
    StepPays(cfg, c, Ready(side, ev, env), n);
    StepInv(cfg, c, side, ev, env);
    if c.state == WaitingCommand { CommandStepPosts(cfg, c, side, ev, env); }
    if c.state == AsyncDns { assert Step(cfg, c, side, ev, env) == c; }
  }

  /** The answer of the resolver. */
  lemma AnswerPays(cfg: Configs, c: Conn, gaiRet: int, env: Env, n: nat)
    requires Inv(cfg, c) && c.state == AsyncDns && AnswerOk(c.info.ai, gaiRet) && NewFdOk(c, env) && HoldsAtMost(c, n)
    ensures var d := ResolverReturned(cfg, c, gaiRet, env); HoldsAtMost(d, n) && Budget(d, n) < Budget(c, n)
  {
    KeepResolved(cfg, c, gaiRet, env);
    if gaiRet == 0 {
      DoneLookupSpends(cfg, c, env, n);
    } else {
      FailedLookupSpends(cfg, c, gaiRet, env, n);
    }
  }

  /** Any action. */
  lemma ActionPays(cfg: Configs, s: System, a: Action, id: nat, n: nat)
    requires SysInv(cfg, s) && Offered(s, a) && Reportable(s, a) && AtMost(a, n)
    requires id in s.conns && HoldsAtMost(s.conns[id], n)
    ensures var t := Next(cfg, s, a);
      && id in t.conns && HoldsAtMost(t.conns[id], n)
      && Budget(t.conns[id], n) + (if Advances(s, a, t, id) then 1 else 0) <= Budget(s.conns[id], n)
  {
    NextConn(cfg, s, a, id);
    match a
    case Peer(i, side, ev, env) => if i == id { EventPays(cfg, s.conns[id], side, ev, env, n); }
    case Return(env) =>
      HeadOfAnswers(s);
      if s.answers[0].id == id { AnswerPays(cfg, s.conns[id], s.answers[0].gaiRet, env, n); }
    case Resolve(ai, _) => LookedUpWaits(s);
    case _ =>
  }

  lemma {:induction false} AdvancedWithinBudget(cfg: Configs, s: System, actions: seq<Action>, id: nat, n: nat)
    requires SysInv(cfg, s) && Schedule(cfg, s, actions) && forall k :: 0 <= k < |actions| ==> AtMost(actions[k], n)
    requires id in s.conns && HoldsAtMost(s.conns[id], n)
    ensures Advanced(cfg, s, actions, id) <= Budget(s.conns[id], n)
    decreases |actions|
  {
    if actions == [] {
      BudgetNat(cfg, s.conns[id], n);
    } else {
      ActionPays(cfg, s, actions[0], id, n);
      NextInv(cfg, s, actions[0]);
      AdvancedWithinBudget(cfg, Next(cfg, s, actions[0]), actions[1..], id, n);
    }
  }

  /** A connection that is not there yet is accepted, or stays away. */
  lemma NewComer(cfg: Configs, s: System, a: Action, id: nat, n: nat)
    requires Offered(s, a) && id !in s.conns && id in Next(cfg, s, a).conns
    ensures var c := Next(cfg, s, a).conns[id]; HoldsAtMost(c, n) && Budget(c, n) == 4402 + n
  {
  }

  /**
   * Under every interleaving, and however many connections there are: the main loop changes a
   * connection at most 4402 + n times before it relays or closes.
   */
  lemma {:induction false} EveryHandshakeEnds(cfg: Configs, s: System, actions: seq<Action>, id: nat, n: nat)
    requires SysInv(cfg, s) && Schedule(cfg, s, actions) && forall k :: 0 <= k < |actions| ==> AtMost(actions[k], n)
    requires id !in s.conns
    ensures Advanced(cfg, s, actions, id) <= 4402 + n
    decreases |actions|
  {
    if actions != [] {
      var t := Next(cfg, s, actions[0]);
      NextInv(cfg, s, actions[0]);
      if id in t.conns {
        NewComer(cfg, s, actions[0], id, n);
        AdvancedWithinBudget(cfg, t, actions[1..], id, n);
      } else {
        EveryHandshakeEnds(cfg, t, actions[1..], id, n);
      }
    }
  }
}
