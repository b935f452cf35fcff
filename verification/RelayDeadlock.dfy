/** Exactly when the read loop and a pump can come to wait for each other, and when the read loop can be
    blocked at all. */
module RelayDeadlock {
  import opened Bytes
  import opened Stream
  import opened RelayLink
  import opened Pacing
  import opened ClientMessage
  import opened Relay
  import opened RelayInvariant
  import opened RelayWindow
  import opened RelayProgress
  import opened RelayRuns

  /** The pump waits for something only the read loop can bring: credit, or the end of backpressure. */
  predicate DownStuck(s: State) {
    (s.down.pc.Writing? && s.embed.cred == 0) || (s.down.pc == AtGate && s.gated)
  }

  predicate UpStuck(s: State) {
    (s.up.pc.Forwarding? || s.up.pc.SendInit?) && s.tcp.cred == 0
  }

  predicate Full(l: Link) {
    |l.queue| >= RECV_CAPACITY && l.hand.Some? && !l.done
  }

  /** The read loop is blocked delivering to a full queue, and the pump that would empty the queue waits for
      something behind it on stdin. */
  predicate Deadlocked(s: State) {
    s.pipe != [] && s.pipe[0].Data?
    && (if s.pipe[0].port == Tcp then Full(s.tcp) && DownStuck(s) else Full(s.embed) && UpStuck(s))
  }

  /** The read loop can neither deliver the next item nor drop it. */
  predicate Blocked(s: State) {
    s.pipe != [] && !CanDeliver(s) && !EndEnabled(s, DropData)
  }

  // ---- a deadlock is for good ----

  /** The bytes that get through in the direction that is stuck. */
  function StuckBytes(s: State): seq<byte>
    requires s.pipe != [] && s.pipe[0].Data?
  {
    if s.pipe[0].port == Tcp then s.down.relayed else s.up.forwarded
  }

  predicate StillDeadlocked(s: State, s': State)
    requires Deadlocked(s)
  {
    Deadlocked(s') && s'.pipe[0] == s.pipe[0] && StuckBytes(s') == StuckBytes(s)
  }

  lemma DeadlockedTransport(cfg: Config, s: State)
    requires Deadlocked(s)
    ensures !CanDeliver(s)
    ensures forall e :: HostEnabled(s, e) ==> StillDeadlocked(s, HostNext(s, e))
    ensures forall p :: CanPump(LinkOf(s, p)) ==> StillDeadlocked(s, ReadPumpNext(s, p))
  {
  }

  lemma DeadlockedSetup(s: State, e: SetupStep)
    requires Deadlocked(s) && OpeningBytes(s.down.pc, s.up.pc, s.embed.taken)
    ensures !SetupEnabled(s, e)
  {
  }

  lemma DeadlockedDown(policy: Policy, s: State, e: DownStep)
    requires Deadlocked(s) && DownEnabled(s, e)
    ensures StillDeadlocked(s, DownNext(policy, s, e))
  {
  }

  lemma DeadlockedUp(readOnly: bool, s: State, e: UpStep)
    requires Deadlocked(s) && UpEnabled(s, e)
    ensures StillDeadlocked(s, UpNext(readOnly, s, e))
  {
  }

  lemma DeadlockedStep(cfg: Config, s: State, e: Event)
    requires Deadlocked(s) && OpeningBytes(s.down.pc, s.up.pc, s.embed.taken) && Enabled(s, e) && !e.Ending?
    ensures StillDeadlocked(s, Next(cfg, s, e))
  {
    DeadlockedTransport(cfg, s);
    match e
    case SetUp(e') => DeadlockedSetup(s, e');
    case Downward(e') => DeadlockedDown(cfg.policy, s, e');
    case Upward(e') => DeadlockedUp(cfg.readOnly, s, e');
    case _ =>
  }

  lemma OpeningHolds(cfg: Config, s: State)
    requires Reachable(cfg, s)
    ensures OpeningBytes(s.down.pc, s.up.pc, s.embed.taken)
  {
    ReachableInv(cfg, s);
  }

  /** Whatever the host writes, nothing gets through any more until the relay ends. */
  lemma {:induction false} DeadlockedForever(cfg: Config, s: State, es: seq<Event>, s': State)
    requires Reachable(cfg, s) && Deadlocked(s) && Reaches(cfg, s, es, s') && forall e :: e in es ==> !e.Ending?
    ensures StillDeadlocked(s, s')
    decreases |es|
  {
    if es != [] {
      assert es == [es[0]] + es[1..];
      OpeningHolds(cfg, s);
      DeadlockedStep(cfg, s, es[0]);
      ReachableNext(cfg, s, es[0]);
      DeadlockedForever(cfg, Next(cfg, s, es[0]), es[1..], s');
    }
  }

  // ---- when there is none ----

  lemma FullCounts(s: State, p: Port)
    requires s.pipe != [] && s.pipe[0].Data? && s.pipe[0].port == p && |LinkOf(s, p).queue| >= RECV_CAPACITY
    ensures Ahead(LinkOf(s, p), InPipe(s.pipe, p)) >= RECV_CAPACITY + 1
    ensures LinkOf(s, p).hand.Some? ==> Ahead(LinkOf(s, p), InPipe(s.pipe, p)) >= RECV_CAPACITY + 2
  {
    assert InPipe(s.pipe, p)[0] == s.pipe[0].frame;
  }

  lemma NoDeadlockBelow(cfg: Config, max: nat, slack: nat, s: State)
    requires Walked(cfg, max, slack, s) && max <= READ_SIZE && slack <= SAFE_SLACK
    ensures !Deadlocked(s)
  {
    ReachableInv(cfg, s);
    if Deadlocked(s) {
      FullCounts(s, s.pipe[0].port);
      if s.pipe[0].port == Tcp {
        TcpAhead(cfg, s);
      } else {
        EmbedAhead(cfg, s, slack);
      }
    }
  }

  lemma NotBlockedBelow(cfg: Config, max: nat, slack: nat, s: State)
    requires Walked(cfg, max, slack, s) && max <= READ_SIZE && slack <= FREE_SLACK
    ensures !Blocked(s)
  {
    if s.pipe != [] {
      ReachableInv(cfg, s);
      NeverBlocks(cfg, s);
    }
  }

  // ---- large frames ----

  /** A frame of one byte more than the pump's buffer is two reads, and so two grants for one frame. */
  lemma RelayLarge(cfg: Config, max: nat, slack: nat, s: State) returns (s': State)
    requires Walked(cfg, max, slack, s) && max > READ_SIZE && cfg.policy.Coupled?
    requires s.pipe == [] && Idle(s.tcp) && s.down.pc == AtGate && !s.gated && s.tcp.window > 0
    ensures Walked(cfg, max, slack, s') && s' == s.(tcp := s'.tcp, down := s'.down)
    ensures Idle(s'.tcp) && s'.down.pc == AtGate && s'.tcp.window == s.tcp.window + 1
  {
    s' := ServerArrives(cfg, max, slack, s, seq(READ_SIZE + 1, _ => 0));
    s' := ReadSlice(cfg, max, slack, s');
    s' := ReadSlice(cfg, max, slack, s');
  }

  /** A chunk the pump reads fits one frame to the browser. */
  lemma OneChunk(l: Link)
    requires HasBytes(l) && l.hand != Some([])
    ensures var b := Take(l, READ_SIZE).0; b != [] && TakeFrom(b, EMBED_MAX_PAYLOAD).1 == []
  {
  }

  lemma ChunkRelayed(cfg: Config, max: nat, slack: nat, s: State) returns (s': State)
    requires Walked(cfg, max, slack, s) && cfg.policy.Coupled? && s.embed.cred > 0
    requires s.down.pc.Writing? && TakeFrom(s.down.pc.rest, EMBED_MAX_PAYLOAD).1 == []
    ensures Walked(cfg, max, slack, s') && s'.down.pc == AtGate
    ensures s' == s.(tcp := Return(s.tcp, 1), embed := Spend(s.embed), down := s'.down)
  {
    s' := DownSteps(cfg, max, slack, s, WriteFrame);
    GrantIsSmall(cfg.policy, s'.embed.cred);
    s' := DownSteps(cfg, max, slack, s', GrantTcp);
  }

  /** One read of it: the host returns the browser's credit, and gains a frame. */
  lemma ReadSlice(cfg: Config, max: nat, slack: nat, s: State) returns (s': State)
    requires Walked(cfg, max, slack, s) && cfg.policy.Coupled? && HasBytes(s.tcp)
    requires s.pipe == [] && s.down.pc == AtGate && !s.gated && s.tcp.hand != Some([])
    ensures Walked(cfg, max, slack, s') && s'.down.pc == AtGate
    ensures s' == s.(tcp := Return(Take(s.tcp, READ_SIZE).1, 1), down := s'.down)
  {
    OneChunk(s.tcp);
    s' := CreditArrives(cfg, max, slack, s, Embed, 1);
    s' := DownSteps(cfg, max, slack, s', PassGate);
    s' := DownSteps(cfg, max, slack, s', ReadTcp);
    s' := ChunkRelayed(cfg, max, slack, s');
  }

  lemma FillTcp(cfg: Config, max: nat, slack: nat, s: State) returns (s': State)
    requires Walked(cfg, max, slack, s) && max > 0 && s.pipe == [] && s.tcp.queue == [] && s.tcp.window >= 65
    ensures Walked(cfg, max, slack, s') && s' == s.(tcp := s'.tcp, pipe := [Data(Tcp, [0])])
    ensures |s'.tcp.queue| == RECV_CAPACITY && s'.tcp.hand == s.tcp.hand && s'.tcp.done == s.tcp.done
  {
    s' := s;
    var i := 0;
    while i < RECV_CAPACITY
      invariant 0 <= i <= RECV_CAPACITY && Walked(cfg, max, slack, s') && s' == s.(tcp := s'.tcp)
      invariant |s'.tcp.queue| == i && s'.tcp.hand == s.tcp.hand && s'.tcp.done == s.tcp.done
      invariant s'.tcp.window == s.tcp.window - i
    {
      SendsTcp(cfg, max, slack, s', [0]);
      s' := HostNext(s', Send(Tcp, [0]));
      Delivers(cfg, max, slack, s');
      s' := DeliverNext(s');
      i := i + 1;
    }
    SendsTcp(cfg, max, slack, s', [0]);
    s' := HostNext(s', Send(Tcp, [0]));
  }

  /** 63 frames of 32 KiB and a byte leave the host with a window of 67, more than the receive queue holds;
      a burst into a slow browser then locks the read loop and the pump against each other. */
  lemma LargeFramesDeadlock(cfg: Config, max: nat, slack: nat) returns (s: State)
    requires max > READ_SIZE && cfg.policy.Coupled?
    ensures Walked(cfg, max, slack, s) && Deadlocked(s)
  {
    s := GrownWindow(cfg, max, slack);
    s := SlowBrowser(cfg, max, slack, s);
    s := ServerArrives(cfg, max, slack, s, [0]);
    s := DownSteps(cfg, max, slack, s, PassGate);
    s := DownSteps(cfg, max, slack, s, ReadTcp);
    s := ServerArrives(cfg, max, slack, s, [0]);
    s := FillTcp(cfg, max, slack, s);
  }

  predicate Ready(s: State) {
    s.pipe == [] && Idle(s.tcp) && s.down.pc == AtGate && !s.gated
  }

  lemma GrownWindow(cfg: Config, max: nat, slack: nat) returns (s: State)
    requires max > READ_SIZE && cfg.policy.Coupled?
    ensures Walked(cfg, max, slack, s) && Ready(s) && s.tcp.window == 67 && s.embed.cred == 5
  {
    s := Established(cfg, max, slack);
    var i := 0;
    while i < 63
      invariant 0 <= i <= 63 && Walked(cfg, max, slack, s) && Ready(s) && s.tcp.window == 4 + i && s.embed.cred == 5
    {
      s := RelayLarge(cfg, max, slack, s);
      i := i + 1;
    }
  }

  lemma SlowBrowser(cfg: Config, max: nat, slack: nat, s: State) returns (s': State)
    requires Walked(cfg, max, slack, s) && max > 0 && cfg.policy.Coupled? && Ready(s) && s.tcp.window == 67
        && s.embed.cred == 5
    ensures Walked(cfg, max, slack, s') && Ready(s') && s'.tcp.window == 67 && s'.embed.cred == 0
  {
    s' := s;
    var i := 0;
    while i < 5
      invariant 0 <= i <= 5 && Walked(cfg, max, slack, s') && Ready(s') && s'.tcp.window == 67 && s'.embed.cred == 5 - i
    {
      s' := RelayOne(cfg, max, slack, s');
      GrantIsSmall(cfg.policy, s'.embed.cred);
      i := i + 1;
    }
  }

  // ---- many messages in one frame ----

  /** m times SetEncodings without an encoding, the shortest client message. */
  function Burst(m: nat): (b: seq<byte>)
    ensures |b| == 4 * m
  {
    seq(4 * m, i => if i % 4 == 0 then SET_ENCODINGS else 0)
  }

  const SHORTEST: seq<byte> := [SET_ENCODINGS, 0, 0, 0]

  lemma ShortestIsWhole()
    ensures Missing([SET_ENCODINGS]) == 3 && Missing(SHORTEST) == 0 && Whole(SHORTEST)
  {
    var whole := SHORTEST;
    var body := whole[1..];
    assert body == whole[1..4] && body[1] == whole[2] && body[2] == whole[3];
    assert body[1..3] == [body[1], body[2]];
    assert U16(body[1..3]) == 0;
  }

  lemma BurstFirst(m: nat)
    requires m > 0
    ensures Burst(m)[..1] == [SET_ENCODINGS] && Burst(m)[1..][..3] == [0, 0, 0] && Burst(m)[1..][3..] == Burst(m - 1)
  {
  }

  /** The bytes at hand are m short messages, read or not. */
  predicate Holds(l: Link, m: nat) {
    l.queue == [] && !l.gone && !l.done && !l.lost
    && (if l.readBuf != [] then l.readBuf == Burst(m) && l.hand.None?
        else if m > 0 then l.hand == Some(Burst(m)) else l.hand.None?)
  }

  lemma ReadsType(cfg: Config, max: nat, slack: nat, s: State, m: nat) returns (s': State)
    requires Walked(cfg, max, slack, s) && s.up.pc == Collecting([]) && m > 0 && Holds(s.embed, m)
    ensures Walked(cfg, max, slack, s') && s' == s.(embed := s'.embed, up := s.up.(pc := Collecting([SET_ENCODINGS])))
    ensures s'.embed.readBuf == Burst(m)[1..] && s'.embed.hand.None? && s'.embed.queue == []
    ensures s'.embed == s.embed.(readBuf := s'.embed.readBuf, hand := None,
                                 moved := s'.embed.moved, taken := s'.embed.taken)
  {
    BurstFirst(m);
    s' := UpSteps(cfg, max, slack, s, ReadPart);
    assert [] + [SET_ENCODINGS] == [SET_ENCODINGS];
  }

  lemma ReadsShortest(cfg: Config, max: nat, slack: nat, s: State, m: nat) returns (s': State)
    requires Walked(cfg, max, slack, s) && s.up.pc == Collecting([]) && m > 0 && Holds(s.embed, m)
    ensures Walked(cfg, max, slack, s') && s' == s.(embed := s'.embed, up := s'.up)
    ensures s'.up.pc == Forwarding(SHORTEST)
    ensures s'.embed.readBuf == Burst(m - 1) && s'.embed.hand.None? && Holds(s'.embed, m - 1)
    ensures s'.embed.window == s.embed.window && s'.embed.sent == s.embed.sent
  {
    s' := ReadsType(cfg, max, slack, s, m);
    BurstFirst(m);
    ShortestIsWhole();
    assert |Burst(m)[1..]| == 4 * m - 1;
    s' := UpSteps(cfg, max, slack, s', ReadPart);
    assert [SET_ENCODINGS] + [0, 0, 0] == SHORTEST && s'.up.pc == Collecting(SHORTEST);
    s' := UpSteps(cfg, max, slack, s', Finish);
  }

  lemma ForwardsShortest(cfg: Config, max: nat, slack: nat, s: State) returns (s': State)
    requires Walked(cfg, max, slack, s) && s.up.pc == Forwarding(SHORTEST) && s.tcp.cred > 0
    ensures Walked(cfg, max, slack, s') && s' == s.(tcp := Spend(s.tcp), embed := Return(s.embed, 1), up := s'.up)
    ensures s'.up.pc == Collecting([])
  {
    s' := UpSteps(cfg, max, slack, s, WritePart);
    s' := UpSteps(cfg, max, slack, s', GrantEmbed);
  }

  /** A frame of m messages, of which n are forwarded, each with a credit of its own. */
  lemma BurstForwarded(cfg: Config, max: nat, slack: nat, m: nat, n: nat) returns (s: State)
    requires max >= 12 && 0 < n <= m <= slack + 4
    ensures Walked(cfg, max, slack, s) && s.pipe == [] && s.up.pc == Collecting([]) && Holds(s.embed, m - n)
    ensures s.embed.window == 4 + n && s.tcp.cred == 0
    ensures |s.embed.sent| == 4 && |Concat(s.embed.sent)| == PREAMBLE + 4 * m
  {
    s := BurstSent(cfg, max, slack, m, n);
    var i := 0;
    while i < n
      invariant 0 <= i <= n && Walked(cfg, max, slack, s) && s.pipe == [] && s.up.pc == Collecting([])
      invariant Holds(s.embed, m - i) && s.embed.window == 4 + i && s.tcp.cred == n - i
      invariant |s.embed.sent| == 4 && |Concat(s.embed.sent)| == PREAMBLE + 4 * m
    {
      s := ReadsShortest(cfg, max, slack, s, m - i);
      s := ForwardsShortest(cfg, max, slack, s);
      i := i + 1;
    }
  }

  lemma BurstSent(cfg: Config, max: nat, slack: nat, m: nat, n: nat) returns (s: State)
    requires max >= 12 && 0 < n <= m <= slack + 4
    ensures Walked(cfg, max, slack, s) && s.pipe == [] && s.up.pc == Collecting([]) && Holds(s.embed, m)
    ensures s.embed.window == 4 && s.tcp.cred == n
    ensures |s.embed.sent| == 4 && |Concat(s.embed.sent)| == PREAMBLE + 4 * m
  {
    s := Established(cfg, max, slack);
    s := InitRelayed(cfg, max, slack, s);
    s := CreditArrives(cfg, max, slack, s, Tcp, n - 1);
    ConcatSnoc(s.embed.sent, Burst(m));
    s := BrowserArrives(cfg, max, slack, s, Burst(m));
  }

  /** Frames of one byte pile up: the first 64 in the queue, the last before the read loop. */
  lemma FillEmbed(cfg: Config, max: nat, slack: nat, s: State) returns (s': State)
    requires Walked(cfg, max, slack, s) && s.pipe == [] && s.embed.queue == [] && s.embed.window >= 65
    requires |Concat(s.embed.sent)| + 1 < PREAMBLE + 4 * (|s.embed.sent| + 2 + slack)
    ensures Walked(cfg, max, slack, s') && s' == s.(embed := s'.embed, pipe := [Data(Embed, [0])])
    ensures |s'.embed.queue| == RECV_CAPACITY && s'.embed.hand == s.embed.hand && s'.embed.done == s.embed.done
  {
    s' := s;
    var i := 0;
    while i < RECV_CAPACITY
      invariant 0 <= i <= RECV_CAPACITY && Walked(cfg, max, slack, s') && s' == s.(embed := s'.embed)
      invariant |s'.embed.queue| == i && s'.embed.hand == s.embed.hand && s'.embed.done == s.embed.done
      invariant s'.embed.window == s.embed.window - i
      invariant |s'.embed.sent| == |s.embed.sent| + i && |Concat(s'.embed.sent)| == |Concat(s.embed.sent)| + i
    {
      SendsEmbed(cfg, max, slack, s', [0]);
      ConcatSnoc(s'.embed.sent, [0]);
      s' := HostNext(s', Send(Embed, [0]));
      Delivers(cfg, max, slack, s');
      s' := DeliverNext(s');
      i := i + 1;
    }
    SendsEmbed(cfg, max, slack, s', [0]);
    s' := HostNext(s', Send(Embed, [0]));
  }

  /** A browser frame of 63 messages: 62 are forwarded and give the host a window of 66; if the VNC server
      stops reading then, 66 more frames lock the read loop and the other pump against each other. */
  lemma BurstDeadlocks(cfg: Config, max: nat, slack: nat) returns (s: State)
    requires max >= 12 && slack > SAFE_SLACK
    ensures Walked(cfg, max, slack, s) && Deadlocked(s)
  {
    s := BurstForwarded(cfg, max, slack, 63, 62);
    s := ReadsShortest(cfg, max, slack, s, 1);
    ReachableInv(cfg, s);
    ConcatSnoc(s.embed.sent, [0]);
    s := OneMoreQueued(cfg, max, slack, s);
    s := FillEmbed(cfg, max, slack, s);
  }

  lemma OneMoreQueued(cfg: Config, max: nat, slack: nat, s: State) returns (s': State)
    requires Walked(cfg, max, slack, s) && s.pipe == [] && s.embed.window > 0 && Holds(s.embed, 0)
    requires Room(s.embed.sent, [0], slack)
    ensures Walked(cfg, max, slack, s') && s' == s.(embed := s.embed.(hand := Some([0]), window := s.embed.window - 1,
                                                                      sent := s.embed.sent + [[0]]))
  {
    SendsEmbed(cfg, max, slack, s, [0]);
    s' := HostNext(s, Send(Embed, [0]));
    Delivers(cfg, max, slack, s');
    s' := DeliverNext(s');
    ReadPumps(cfg, max, slack, s', Embed);
    s' := ReadPumpNext(s', Embed);
  }

  lemma BurstBlocks(cfg: Config, max: nat, slack: nat) returns (s: State)
    requires max >= 12 && slack > FREE_SLACK
    ensures Walked(cfg, max, slack, s) && Blocked(s)
  {
    s := BurstForwarded(cfg, max, slack, 61, 61);
    s := FillEmbed(cfg, max, slack, s);
  }

  // ---- exactly ----

  /** What NoDeadlock promises fails in a deadlocked state, and in all that follow (DeadlockedForever). */
  lemma DeadlockedIsBlocked(s: State)
    requires Deadlocked(s)
    ensures Blocked(s) && !Delivered(s)
  {
  }

  /** The read loop and a pump can come to wait for each other exactly if server frames may be longer than
      32 KiB or the browser's whole messages may outnumber its frames by 59 or more. (A version line must
      fit a frame.) */
  lemma DeadlockIff(cfg: Config, max: nat, slack: nat)
    requires cfg.policy.Coupled? && max >= 12
    ensures (exists s :: Walked(cfg, max, slack, s) && Deadlocked(s)) <==> max > 32768 || slack >= 59
  {
    if max > READ_SIZE {
      var s := LargeFramesDeadlock(cfg, max, slack);
    } else if slack >= 59 {
      var s := BurstDeadlocks(cfg, max, slack);
    } else {
      forall s | Walked(cfg, max, slack, s) ensures !Deadlocked(s) {
        NoDeadlockBelow(cfg, max, slack, s);
      }
    }
  }

  /** And its read loop can be blocked in delivery, if only for a while, exactly from a lead of 57 on. */
  lemma BlockedIff(cfg: Config, max: nat, slack: nat)
    requires cfg.policy.Coupled? && max >= 12
    ensures (exists s :: Walked(cfg, max, slack, s) && Blocked(s)) <==> max > 32768 || slack >= 57
  {
    if max > READ_SIZE {
      var s := LargeFramesDeadlock(cfg, max, slack);
      DeadlockedIsBlocked(s);
    } else if slack >= 57 {
      var s := BurstBlocks(cfg, max, slack);
    } else {
      forall s | Walked(cfg, max, slack, s) ensures !Blocked(s) {
        NotBlockedBelow(cfg, max, slack, s);
      }
    }
  }
}
