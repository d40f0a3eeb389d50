/** The relay: bytes cross in order, unmixed, and are lost only a whole chunk at a time. */
module Relay {
  import opened Wire
  import opened Machine
  import opened Invariant
  import opened Segmentation

  /** The step reads chunk b from the given side while relaying. */
  predicate ReadsFrom(c: Conn, i: Input, side: Side) {
    c.state == Full && i.Ready? && i.side == side && !i.ev.output && i.ev.input && i.env.recv.Some?
  }

  predicate WritesTo(c: Conn, i: Input, side: Side) {
    c.state == Full && i.Ready? && i.side == side && i.ev.output && i.env.sent.Some?
  }

  /** The ring that bytes from the given side go to. */
  function TargetRing(c: Conn, side: Side): seq<byte> {
    if side.Client? then c.serverOut else c.clientOut
  }

  function Other(side: Side): Side {
    if side.Client? then Server else Client
  }

  /** What one step does to the traffic coming from the given side. */
  function Traffic(c: Conn, i: Input, from: Side): Lane {
    if ReadsFrom(c, i, from) then
      Lane([i.env.recv.value], [|i.env.recv.value| <= CAPACITY - |TargetRing(c, from)|], [])
    else if WritesTo(c, i, Other(from)) then
      Lane([], [], Take(TargetRing(c, from), i.env.sent.value))
    else NEW_LANE
  }

  function Append(l: Lane, m: Lane): Lane {
    Lane(l.chunks + m.chunks, l.kept + m.kept, l.sent + m.sent)
  }

  lemma AppendAssoc(l: Lane, m: Lane, n: Lane)
    ensures Append(l, Append(m, n)) == Append(Append(l, m), n)
  {
    assert l.chunks + (m.chunks + n.chunks) == l.chunks + m.chunks + n.chunks;
    assert l.kept + (m.kept + n.kept) == l.kept + m.kept + n.kept;
    assert l.sent + (m.sent + n.sent) == l.sent + m.sent + n.sent;
  }

  lemma AppendUnit(l: Lane)
    ensures Append(l, NEW_LANE) == l && Append(NEW_LANE, l) == l
  {
    assert l.chunks + [] == l.chunks && l.kept + [] == l.kept && l.sent + [] == l.sent;
    assert [] + l.chunks == l.chunks && [] + l.kept == l.kept && [] + l.sent == l.sent;
  }

  /**
   * The traffic of a run coming from one side: the chunks recv returned, whether each fitted into
   * the free space it found, and the bytes send accepted on the other side.
   */
  function RunTraffic(cfg: Configs, c: Conn, run: seq<Input>, from: Side): Lane
    decreases |run|
  {
    if run == [] then NEW_LANE
    else Append(Traffic(c, run[0], from), RunTraffic(cfg, Apply(cfg, c, run[0]), run[1..], from))
  }

  /** The step from c to d records exactly the traffic of input i. */
  ghost predicate Records(c: Conn, i: Input, d: Conn) {
    && d.hist.up == Append(c.hist.up, Traffic(c, i, Client))
    && d.hist.down == Append(c.hist.down, Traffic(c, i, Server))
  }

  lemma SendTraffic(cfg: Configs, c: Conn, i: Input)
    requires c.state == Full && c.clientFd != c.serverFd && i.Ready? && i.ev.output
    ensures Records(c, i, Apply(cfg, c, i))
  {
    FullOutput(cfg, c, i.side, i.ev, i.env);
    AppendUnit(c.hist.up);
    AppendUnit(c.hist.down);
    assert c.hist.up.chunks + [] == c.hist.up.chunks && c.hist.up.kept + [] == c.hist.up.kept;
    assert c.hist.down.chunks + [] == c.hist.down.chunks && c.hist.down.kept + [] == c.hist.down.kept;
  }

  lemma ReceiveTraffic(cfg: Configs, c: Conn, i: Input)
    requires c.state == Full && c.clientFd != c.serverFd && i.Ready? && !i.ev.output && i.ev.input
    ensures Records(c, i, Apply(cfg, c, i))
  {
    FullInput(cfg, c, i.side, i.ev, i.env);
    AppendUnit(c.hist.up);
    AppendUnit(c.hist.down);
    assert c.hist.up.sent + [] == c.hist.up.sent && c.hist.down.sent + [] == c.hist.down.sent;
  }

  lemma NoTraffic(cfg: Configs, c: Conn, i: Input)
    requires c.state in {HalfClose, Closed} || (c.state == Full && i.Ready? && !i.ev.output && !i.ev.input)
    requires i.Ready?
    ensures Records(c, i, Apply(cfg, c, i))
  {
    LanesUntouched(cfg, c, i);
    AppendUnit(c.hist.up);
    AppendUnit(c.hist.down);
  }

  lemma LanesUntouched(cfg: Configs, c: Conn, i: Input)
    requires c.state in {HalfClose, Closed} || (c.state == Full && i.Ready? && !i.ev.output && !i.ev.input)
    requires i.Ready?
    ensures var d := Apply(cfg, c, i); d.hist.up == c.hist.up && d.hist.down == c.hist.down
  {
  }

  /** One relaying step changes one lane at one end; after relaying no step does. */
  lemma StepTraffic(cfg: Configs, c: Conn, i: Input)
    requires Lifetimes(c) && c.state in {Full, HalfClose, Closed} && Enabled(c, i)
    ensures Records(c, i, Apply(cfg, c, i))
  {
    if c.state == Full && i.ev.output {
      SendTraffic(cfg, c, i);
    } else if c.state == Full && i.ev.input {
      ReceiveTraffic(cfg, c, i);
    } else {
      NoTraffic(cfg, c, i);
    }
  }

  /** The recorded lanes are what the run received and sent. */
  lemma {:induction false} LanesRecordRun(cfg: Configs, c: Conn, run: seq<Input>)
    requires Inv(cfg, c) && c.state in {Full, HalfClose, Closed} && Possible(cfg, c, run)
    ensures var d := Run(cfg, c, run);
      && d.hist.up == Append(c.hist.up, RunTraffic(cfg, c, run, Client))
      && d.hist.down == Append(c.hist.down, RunTraffic(cfg, c, run, Server))
      && d.state in {Full, HalfClose, Closed}
    decreases |run|
  {
    if run == [] {
      AppendUnit(c.hist.up);
      AppendUnit(c.hist.down);
    } else {
      var d := Apply(cfg, c, run[0]);
      ApplyInv(cfg, c, run[0]);
      StepTraffic(cfg, c, run[0]);
      LanesRecordRun(cfg, d, run[1..]);
      AppendAssoc(c.hist.up, Traffic(c, run[0], Client), RunTraffic(cfg, d, run[1..], Client));
      AppendAssoc(c.hist.down, Traffic(c, run[0], Server), RunTraffic(cfg, d, run[1..], Server));
    }
  }

  /** A relay that just opened: nothing received, nothing pending. */
  ghost predicate JustOpened(cfg: Configs, c: Conn) {
    Inv(cfg, c) && c.state == Full && c.clientOut == [] && c.serverOut == [] && NoRelay(c)
  }

  /**
   * Conservation over every run: in each direction the chunks that fitted, joined, are the bytes
   * sent on followed by the bytes still in the ring; after the close they start with the bytes
   * sent on.
   */
  lemma RelayConserves(cfg: Configs, c: Conn, run: seq<Input>)
    requires JustOpened(cfg, c) && Possible(cfg, c, run)
    ensures var d := Run(cfg, c, run);
      var up, down := RunTraffic(cfg, c, run, Client), RunTraffic(cfg, c, run, Server);
      && |up.chunks| == |up.kept| && |down.chunks| == |down.kept|
      && (d.state in {Full, HalfClose} ==>
            && Stored(up.chunks, up.kept) == up.sent + d.serverOut
            && Stored(down.chunks, down.kept) == down.sent + d.clientOut)
      && up.sent <= Stored(up.chunks, up.kept)
      && down.sent <= Stored(down.chunks, down.kept)
  {
    LanesRecordRun(cfg, c, run);
    RunInv(cfg, c, run);
    AppendUnit(RunTraffic(cfg, c, run, Client));
    AppendUnit(RunTraffic(cfg, c, run, Server));
  }

  // ---- When nothing is lost

  /** A chunk read at this step fits into the ring it goes to. */
  predicate ChunkFits(c: Conn, i: Input, from: Side) {
    ReadsFrom(c, i, from) ==> |i.env.recv.value| <= CAPACITY - |TargetRing(c, from)|
  }

  /** Every chunk of the run does when it arrives. */
  predicate AllFit(cfg: Configs, c: Conn, run: seq<Input>, from: Side)
    decreases |run|
  {
    run != [] ==> ChunkFits(c, run[0], from) && AllFit(cfg, Apply(cfg, c, run[0]), run[1..], from)
  }

  predicate AllTrue(kept: seq<bool>) {
    forall k :: 0 <= k < |kept| ==> kept[k]
  }

  lemma AllTrueSplits(xs: seq<bool>, ys: seq<bool>)
    ensures AllTrue(xs + ys) <==> AllTrue(xs) && AllTrue(ys)
  {
    assert forall k :: 0 <= k < |ys| ==> (xs + ys)[|xs| + k] == ys[k];
    assert forall k :: 0 <= k < |xs| ==> (xs + ys)[k] == xs[k];
  }

  /** The flags of a lane say which chunks fitted. */
  lemma {:induction false} KeptIffFits(cfg: Configs, c: Conn, run: seq<Input>, from: Side)
    ensures AllTrue(RunTraffic(cfg, c, run, from).kept) <==> AllFit(cfg, c, run, from)
    decreases |run|
  {
    if run != [] {
      var d := Apply(cfg, c, run[0]);
      KeptIffFits(cfg, d, run[1..], from);
      AllTrueSplits(Traffic(c, run[0], from).kept, RunTraffic(cfg, d, run[1..], from).kept);
      var kept := Traffic(c, run[0], from).kept;
      assert ReadsFrom(c, run[0], from) ==> |kept| == 1 && (kept[0] <==> ChunkFits(c, run[0], from));
    }
  }

  ghost predicate NonEmpty(chunks: seq<seq<byte>>) {
    forall k :: 0 <= k < |chunks| ==> chunks[k] != []
  }

  /** recv returns at least one byte. */
  lemma {:induction false} ChunksNonEmpty(cfg: Configs, c: Conn, run: seq<Input>, from: Side)
    requires Possible(cfg, c, run)
    ensures NonEmpty(RunTraffic(cfg, c, run, from).chunks)
    decreases |run|
  {
    if run != [] {
      ChunksNonEmpty(cfg, Apply(cfg, c, run[0]), run[1..], from);
      assert NonEmpty(Traffic(c, run[0], from).chunks);
    }
  }

  lemma {:induction false} JoinAppend(chunks: seq<seq<byte>>, last: seq<byte>)
    ensures Join(chunks + [last]) == Join(chunks) + last
  {
    if chunks == [] {
      assert Join([last]) == last + Join([]) by { assert [last][1..] == []; }
    } else {
      assert (chunks + [last])[1..] == chunks[1..] + [last];
      JoinAppend(chunks[1..], last);
    }
  }

  /** What was stored is everything if and only if every chunk was stored. */
  lemma {:induction false} StoredIsAllIff(chunks: seq<seq<byte>>, kept: seq<bool>)
    requires |chunks| == |kept| && NonEmpty(chunks)
    ensures |Stored(chunks, kept)| <= |Join(chunks)|
    ensures Stored(chunks, kept) == Join(chunks) <==> AllTrue(kept)
    ensures |Stored(chunks, kept)| == |Join(chunks)| ==> AllTrue(kept)
  {
    if chunks != [] {
      var n := |chunks| - 1;
      StoredIsAllIff(chunks[..n], kept[..n]);
      JoinAppend(chunks[..n], chunks[n]);
      AllTrueSplits(kept[..n], [kept[n]]);
      assert chunks[..n] + [chunks[n]] == chunks && kept[..n] + [kept[n]] == kept;
      assert AllTrue([kept[n]]) <==> kept[n];
    }
  }

  /** The bytes received from one side, in order. */
  function Arrived(cfg: Configs, c: Conn, run: seq<Input>, from: Side): seq<byte> {
    Join(RunTraffic(cfg, c, run, from).chunks)
  }

  /**
   * In every run of a fresh relay, and in each direction on its own: all received bytes are sent
   * on or still in the ring, in order, if and only if every chunk fitted when it arrived.
   */
  lemma NothingLost(cfg: Configs, c: Conn, run: seq<Input>)
    requires JustOpened(cfg, c) && Possible(cfg, c, run)
    ensures var d := Run(cfg, c, run);
      var up, down := RunTraffic(cfg, c, run, Client), RunTraffic(cfg, c, run, Server);
      d.state in {Full, HalfClose} ==>
        && (Arrived(cfg, c, run, Client) == up.sent + d.serverOut <==> AllFit(cfg, c, run, Client))
        && (Arrived(cfg, c, run, Server) == down.sent + d.clientOut <==> AllFit(cfg, c, run, Server))
  {
    var up, down := RunTraffic(cfg, c, run, Client), RunTraffic(cfg, c, run, Server);
    RelayConserves(cfg, c, run);
    ChunksNonEmpty(cfg, c, run, Client);
    ChunksNonEmpty(cfg, c, run, Server);
    StoredIsAllIff(up.chunks, up.kept);
    StoredIsAllIff(down.chunks, down.kept);
    KeptIffFits(cfg, c, run, Client);
    KeptIffFits(cfg, c, run, Server);
  }

  /** A read at this step finds room for a whole receive buffer. */
  predicate RoomNow(c: Conn, i: Input, from: Side) {
    ReadsFrom(c, i, from) ==> CAPACITY - |TargetRing(c, from)| >= 1024
  }

  /** Every read of the run finds such room. */
  predicate Roomy(cfg: Configs, c: Conn, run: seq<Input>, from: Side)
    decreases |run|
  {
    run != [] ==> RoomNow(c, run[0], from) && Roomy(cfg, Apply(cfg, c, run[0]), run[1..], from)
  }

  /** A read is at most 1024 bytes long: with that much room every chunk fits. */
  lemma {:induction false} RoomyFits(cfg: Configs, c: Conn, run: seq<Input>, from: Side)
    requires Possible(cfg, c, run) && Roomy(cfg, c, run, from)
    ensures AllFit(cfg, c, run, from)
    decreases |run|
  {
    if run != [] { RoomyFits(cfg, Apply(cfg, c, run[0]), run[1..], from); }
  }

  // ---- A run that loses a chunk

  /** The client sends 1024 bytes and nothing else happens. */
  const BURST := Ready(Client, Event(true, false),
    Env(Some(seq(1024, _ => 0)), None, -1, false, false, false, None, None, ANY_ADDR, ANY_ADDR))

  /** A relay that only received bursts of the client. */
  ghost predicate Filled(cfg: Configs, c: Conn, n: nat) {
    Inv(cfg, c) && c.state == Full && |c.serverOut| == 1024 * n
  }

  lemma BurstStep(cfg: Configs, c: Conn, n: nat)
    requires Filled(cfg, c, n) && n <= 4
    ensures Enabled(c, BURST) && ReadsFrom(c, BURST, Client)
    ensures Apply(cfg, c, BURST).state == Full && (ChunkFits(c, BURST, Client) <==> n < 4)
    ensures n < 4 ==> Filled(cfg, Apply(cfg, c, BURST), n + 1)
  {
    FullFacts(cfg, c);
    FullInput(cfg, c, Client, BURST.ev, BURST.env);
    KeepReceivedFrom(cfg, c, Client, BURST.env.recv.value);
  }

  lemma {:induction false} BurstsOverflow(cfg: Configs, c: Conn, n: nat, run: seq<Input>)
    requires Filled(cfg, c, n) && n <= 4 && run == seq(5 - n, _ => BURST)
    ensures Possible(cfg, c, run) && Run(cfg, c, run).state == Full && !AllFit(cfg, c, run, Client)
    decreases 4 - n
  {
    BurstStep(cfg, c, n);
    var d := Apply(cfg, c, BURST);
    if n < 4 {
      BurstsOverflow(cfg, d, n + 1, run[1..]);
    } else {
      assert run[1..] == [];
    }
  }

  /** Five bursts without a send overrun the ring: the fifth is lost. */
  lemma FifthBurstLost(cfg: Configs, c: Conn)
    requires JustOpened(cfg, c)
    ensures var run := [BURST, BURST, BURST, BURST, BURST]; var d := Run(cfg, c, run);
      && Possible(cfg, c, run)
      && Arrived(cfg, c, run, Client) != RunTraffic(cfg, c, run, Client).sent + d.serverOut
  {
    var run := [BURST, BURST, BURST, BURST, BURST];
    BurstsOverflow(cfg, c, 0, run);
    NothingLost(cfg, c, run);
  }
}
