/** Waiting for bytes that the host has no credit left to send: in either handshake or either pump, that it
    is permanent, and exactly when it happens in terms of the frames sent. */
module RelayStarvation {
  import opened Bytes
  import opened RelayLink
  import opened Pacing
  import opened ClientMessage
  import opened Relay
  import opened RelayInvariant
  import opened RelayWindow
  import Stream

  /** The downward goroutine needs the server's bytes to go on. */
  predicate WaitsForServer(pc: DownPc) {
    WantsServer(pc) > 0 || pc == AtGate || pc == Reading
  }

  /** The synthetic handshake or the upward pump needs the browser's. */
  predicate WaitsForBrowser(s: State) {
    || WantsBrowser(s.down.pc) > 0 || s.up.pc == AwaitInit
    || (s.up.pc.Collecting? && Missing(s.up.pc.part) > 0)
  }

  /** It waits, everything sent has been read, and the host may send nothing. */
  predicate Starved(s: State) {
    WaitsForServer(s.down.pc) && TcpUnread(s) == 0 && s.tcp.window == 0
  }

  predicate BrowserStarved(s: State) {
    WaitsForBrowser(s) && EmbedUnread(s) == 0 && s.embed.window == 0
  }

  // ---- starvation is for good ----

  lemma HostLeavesStarved(s: State, e: HostStep)
    requires HostEnabled(s, e)
    ensures Starved(s) ==> Starved(HostNext(s, e))
    ensures BrowserStarved(s) ==> BrowserStarved(HostNext(s, e))
  {
    match e
    case Send(p, f) =>
      InPipeSnoc(s.pipe, Data(p, f), Tcp);
      InPipeSnoc(s.pipe, Data(p, f), Embed);
    case Credit(p, n) =>
      InPipeSnoc(s.pipe, Grants(p, n), Tcp);
      InPipeSnoc(s.pipe, Grants(p, n), Embed);
    case Backpressure(active) =>
      InPipeSnoc(s.pipe, Pressure(active), Tcp);
      InPipeSnoc(s.pipe, Pressure(active), Embed);
  }

  lemma DeliveryLeavesStarved(s: State)
    requires CanDeliver(s)
    ensures Starved(s) ==> Starved(DeliverNext(s))
    ensures BrowserStarved(s) ==> BrowserStarved(DeliverNext(s))
  {
  }

  /** No more of the server's bytes are read, and none are relayed. */
  predicate ServerStays(s: State, s': State) {
    && Starved(s') && s'.tcp.taken == s.tcp.taken && s'.down.relayed == s.down.relayed
    && (s.down.pc.Greeting? ==> s'.down == s.down)
  }

  predicate BrowserStays(s: State, s': State) {
    && BrowserStarved(s') && s'.embed.taken == s.embed.taken && s'.up == s.up
    && (s.down.pc.Fronting? ==> s'.down == s.down)
  }

  lemma StarvedSetup(s: State, e: SetupStep)
    requires Starved(s)
    ensures !SetupEnabled(s, e)
  {
  }

  lemma StarvedDown(policy: Policy, s: State, e: DownStep)
    requires Starved(s) && DownEnabled(s, e)
    ensures ServerStays(s, DownNext(policy, s, e))
  {
  }

  lemma StarvedUp(readOnly: bool, s: State, e: UpStep)
    requires Starved(s) && UpEnabled(s, e)
    ensures ServerStays(s, UpNext(readOnly, s, e))
  {
  }

  lemma StarvedStep(cfg: Config, s: State, e: Event)
    requires Starved(s) && Enabled(s, e) && !e.Ending?
    ensures ServerStays(s, Next(cfg, s, e))
  {
    match e
    case Host(e') => HostLeavesStarved(s, e');
    case Deliver => DeliveryLeavesStarved(s);
    case ReadPump(p) => assert p == Embed;
    case SetUp(e') => StarvedSetup(s, e');
    case Downward(e') => StarvedDown(cfg.policy, s, e');
    case Upward(e') => StarvedUp(cfg.readOnly, s, e');
  }

  /** Starvation is permanent: whatever the host does within its windows, no byte of the server is read or
      relayed again, and a handshake stays where it is, until the relay ends. */
  lemma {:induction false} StarvedForever(cfg: Config, s: State, es: seq<Event>, s': State)
    requires Starved(s) && Reaches(cfg, s, es, s') && forall e :: e in es ==> !e.Ending?
    ensures ServerStays(s, s')
    decreases |es|
  {
    if es != [] {
      assert es == [es[0]] + es[1..];
      StarvedStep(cfg, s, es[0]);
      StarvedForever(cfg, Next(cfg, s, es[0]), es[1..], s');
    }
  }

  lemma BrowserStarvedSetup(s: State, e: SetupStep)
    requires BrowserStarved(s) && OpeningBytes(s.down.pc, s.up.pc, s.embed.taken)
    ensures !SetupEnabled(s, e)
  {
  }

  lemma BrowserStarvedDown(policy: Policy, s: State, e: DownStep)
    requires BrowserStarved(s) && DownEnabled(s, e)
    ensures BrowserStays(s, DownNext(policy, s, e))
  {
  }

  lemma BrowserStarvedUp(s: State, e: UpStep)
    requires BrowserStarved(s) && OpeningBytes(s.down.pc, s.up.pc, s.embed.taken)
    ensures !UpEnabled(s, e)
  {
    if s.up.pc.Collecting? && Whole(s.up.pc.part) {
      WholeMissesNothing(s.up.pc.part);
    }
  }

  lemma BrowserStarvedStep(cfg: Config, s: State, e: Event)
    requires BrowserStarved(s) && OpeningBytes(s.down.pc, s.up.pc, s.embed.taken) && Enabled(s, e) && !e.Ending?
    ensures BrowserStays(s, Next(cfg, s, e))
  {
    match e
    case Host(e') => HostLeavesStarved(s, e');
    case Deliver => DeliveryLeavesStarved(s);
    case ReadPump(p) => assert p == Tcp;
    case SetUp(e') => BrowserStarvedSetup(s, e');
    case Downward(e') => BrowserStarvedDown(cfg.policy, s, e');
    case Upward(e') => BrowserStarvedUp(s, e');
  }

  lemma OpeningHolds(cfg: Config, s: State)
    requires Reachable(cfg, s)
    ensures OpeningBytes(s.down.pc, s.up.pc, s.embed.taken)
  {
    ReachableInv(cfg, s);
  }

  lemma {:induction false} BrowserStarvedForever(cfg: Config, s: State, es: seq<Event>, s': State)
    requires Reachable(cfg, s) && BrowserStarved(s) && Reaches(cfg, s, es, s') && forall e :: e in es ==> !e.Ending?
    ensures BrowserStays(s, s')
    decreases |es|
  {
    if es != [] {
      assert es == [es[0]] + es[1..];
      OpeningHolds(cfg, s);
      BrowserStarvedStep(cfg, s, es[0]);
      ReachableNext(cfg, s, es[0]);
      BrowserStarvedForever(cfg, Next(cfg, s, es[0]), es[1..], s');
    }
  }

  // ---- the reads a server's frames take ----

  /** Reads of at most READ_SIZE for n bytes. */
  function Chunks(n: nat): nat {
    (n + READ_SIZE - 1) / READ_SIZE
  }

  function Size(frames: seq<seq<byte>>): nat {
    |Concat(frames)|
  }

  /** How much of a frame that ends at byte end lies past byte start. */
  function Past(len: nat, end: nat, start: nat): nat {
    if end <= start then 0 else if end - start < len then end - start else len
  }

  /** Reads the pump makes for these frames when the handshake takes the first start bytes. */
  function ReadsOf(frames: seq<seq<byte>>, start: nat): nat {
    if frames == [] then 0
    else
      ReadsOf(frames[..|frames| - 1], start)
      + Chunks(Past(|frames[|frames| - 1]|, Size(frames), start))
  }

  lemma ReadsSnoc(frames: seq<seq<byte>>, f: seq<byte>, start: nat)
    ensures ReadsOf(frames + [f], start) == ReadsOf(frames, start) + Chunks(Past(|f|, Size(frames) + |f|, start))
  {
    assert (frames + [f])[..|frames|] == frames;
    ConcatSnoc(frames, f);
  }

  lemma SizeOfFront(frames: seq<seq<byte>>)
    requires frames != []
    ensures Size(frames) == Size(frames[..|frames| - 1]) + |frames[|frames| - 1]|
  {
    assert frames == frames[..|frames| - 1] + [frames[|frames| - 1]];
    ConcatSnoc(frames[..|frames| - 1], frames[|frames| - 1]);
  }

  lemma {:induction false} NoReadsBefore(frames: seq<seq<byte>>, start: nat)
    requires Size(frames) <= start
    ensures ReadsOf(frames, start) == 0
  {
    if frames != [] {
      SizeOfFront(frames);
      NoReadsBefore(frames[..|frames| - 1], start);
    }
  }

  /** What is left of the last frame is all there is to read. */
  lemma {:induction false} ReadsOfRest(frames: seq<seq<byte>>, rest: nat)
    requires rest <= LastLen(frames) && rest <= Size(frames)
    ensures ReadsOf(frames, Size(frames) - rest) == Chunks(rest)
  {
    if frames != [] {
      var front := frames[..|frames| - 1];
      SizeOfFront(frames);
      if frames[|frames| - 1] == [] {
        ReadsOfRest(front, rest);
      } else {
        NoReadsBefore(front, Size(frames) - rest);
      }
    }
  }

  /** Grants asked for and still to come: one per read so far. */
  function Reads(l: Link, d: Down): int {
    l.granted - (if d.pc.Greeting? then 0 else 4) + d.withheld + Pending(d.pc)
  }

  /** The reads made and the reads still needed for what is in readBuf are those of the frames taken. */
  predicate ReadsLaw(l: Link, d: Down) {
    d.pc.Stopped? || ReadsOf(l.moved, |d.greeted|) == Reads(l, d) + Chunks(|l.readBuf|)
  }

  lemma SkipKeepsReads(l: Link, d: Down)
    requires ReadsLaw(l, d) && CanPump(l)
    ensures ReadsLaw(PumpOne(l), d)
  {
    ReadsSnoc(l.moved, l.queue[0], |d.greeted|);
  }

  lemma ReadServerKeepsReads(s: State)
    requires Links(s) && TcpLaw(s.tcp, s.down) && WantsServer(s.down.pc) > 0 && HasBytes(s.tcp)
    ensures ReadsLaw(ReadServerNext(s).tcp, ReadServerNext(s).down)
  {
    TakeKeeps(s.tcp, InPipe(s.pipe, Tcp), 4, WantsServer(s.down.pc));
    var l := Take(s.tcp, WantsServer(s.down.pc)).1;
    assert Size(l.moved) == |l.taken| + |l.readBuf|;
    ReadsOfRest(l.moved, |l.readBuf|);
  }

  lemma OneChunkLess(n: nat)
    requires n > 0
    ensures Chunks(n - if n < READ_SIZE then n else READ_SIZE) == Chunks(n) - 1
  {
  }

  lemma ReadTcpBuffered(l: Link, d: Down, d': Down)
    requires ReadsLaw(l, d) && l.readBuf != [] && d.pc == Reading && d'.pc.Writing?
    requires d'.greeted == d.greeted && d'.withheld == d.withheld
    ensures ReadsLaw(Take(l, READ_SIZE).1, d')
  {
    OneChunkLess(|l.readBuf|);
  }

  lemma ReadTcpFrame(l: Link, inPipe: seq<seq<byte>>, d: Down, d': Down)
    requires LinkInv(l, inPipe, 4) && ReadsLaw(l, d) && l.readBuf == [] && l.hand.Some?
    requires d.pc == Reading && d'.pc.Writing?
    requires |d.greeted| <= |l.taken| && d'.greeted == d.greeted && d'.withheld == d.withheld
    ensures ReadsLaw(Take(l, READ_SIZE).1, d')
  {
    var f := l.hand.value;
    assert l.taken + [] == l.taken && Size(l.moved) == |l.taken|;
    ReadsSnoc(l.moved, f, |d.greeted|);
    OneChunkLess(|f|);
  }

  lemma DownKeepsReads(policy: Policy, s: State, e: DownStep)
    requires Links(s) && ReadsLaw(s.tcp, s.down) && DownBytes(s.down, s.tcp.taken) && DownEnabled(s, e)
    ensures var s' := DownNext(policy, s, e); ReadsLaw(s'.tcp, s'.down)
  {
    if e.ReadTcp? {
      if s.tcp.readBuf != [] {
        ReadTcpBuffered(s.tcp, s.down, DownNext(policy, s, e).down);
      } else {
        ReadTcpFrame(s.tcp, InPipe(s.pipe, Tcp), s.down, DownNext(policy, s, e).down);
      }
    }
  }

  lemma SetupKeepsReads(s: State, e: SetupStep)
    requires Links(s) && TcpLaw(s.tcp, s.down) && ReadsLaw(s.tcp, s.down) && SetupEnabled(s, e)
    ensures var s' := SetupNext(s, e); ReadsLaw(s'.tcp, s'.down)
  {
    if e.ReadServer? {
      ReadServerKeepsReads(s);
    }
  }

  lemma OthersKeepReads(cfg: Config, s: State, e: Event)
    requires ReadsLaw(s.tcp, s.down) && Enabled(s, e) && (e.Host? || e.Deliver? || e.Upward? || e.Ending?)
    ensures var s' := Next(cfg, s, e); ReadsLaw(s'.tcp, s'.down)
  {
    var s' := Next(cfg, s, e);
    assert s'.tcp.moved == s.tcp.moved && s'.tcp.readBuf == s.tcp.readBuf && s'.tcp.granted == s.tcp.granted;
    assert s'.down == s.down || s'.down.pc.Stopped?;
  }

  lemma {:induction false} RunKeepsReads(cfg: Config, s: State, es: seq<Event>, s': State)
    requires Inv(cfg, s) && ReadsLaw(s.tcp, s.down) && Reaches(cfg, s, es, s')
    ensures ReadsLaw(s'.tcp, s'.down)
    decreases |es|
  {
    if es != [] {
      StepKeepsInv(cfg, s, es[0]);
      match es[0] {
        case ReadPump(p) => if p == Tcp { SkipKeepsReads(s.tcp, s.down); }
        case SetUp(e) => SetupKeepsReads(s, e);
        case Downward(e) => DownKeepsReads(cfg.policy, s, e);
        case _ => OthersKeepReads(cfg, s, es[0]);
      }
      RunKeepsReads(cfg, Next(cfg, s, es[0]), es[1..], s');
    }
  }

  // ---- exactly when ----

  lemma AllMoved(l: Link, inPipe: seq<seq<byte>>, initial: nat)
    requires LinkInv(l, inPipe, initial) && !l.lost && Unread(l, inPipe) == 0
    ensures l.moved == l.sent && l.taken == Concat(l.sent)
  {
    LinkMeaning(l, inPipe, initial);
    assert l.taken + [] == l.taken;
  }

  /** A server handshake that waits, with everything sent read, is starved exactly after four frames: it
      reads without returning any credit. */
  lemma HandshakeStarvedIff(cfg: Config, s: State)
    requires Reachable(cfg, s) && WantsServer(s.down.pc) > 0 && TcpUnread(s) == 0 && !s.tcp.done
    ensures Starved(s) <==> |s.tcp.sent| == 4
  {
    ReachableInv(cfg, s);
  }

  lemma ReadsHold(cfg: Config, s: State)
    requires Reachable(cfg, s)
    ensures ReadsLaw(s.tcp, s.down) && (cfg.policy.Coupled? ==> s.down.withheld == 0)
  {
    var es :| Reaches(cfg, INIT, es, s);
    assert Concat([]) == [];
    RunKeepsReads(cfg, INIT, es, s);
    if cfg.policy.Coupled? {
      CoupledWithholdsNothing(cfg, INIT, es, s);
    }
  }

  lemma WindowLeft(l: Link, inPipe: seq<seq<byte>>, d: Down)
    requires LinkInv(l, inPipe, 4) && Unread(l, inPipe) == 0 && !l.done
    requires ReadsLaw(l, d) && d.withheld == 0 && (d.pc == AtGate || d.pc == Reading)
    ensures l.window == 8 - |l.sent| + ReadsOf(l.sent, |d.greeted|)
  {
    AllMoved(l, inPipe, 4);
  }

  /** A pump that waits, with everything sent read, is starved exactly if the server's frames outnumber the
      reads they take past the handshake by all eight credits. */
  lemma StarvedIff(cfg: Config, s: State)
    requires Reachable(cfg, s) && cfg.policy.Coupled? && (s.down.pc == AtGate || s.down.pc == Reading)
    requires TcpUnread(s) == 0 && !s.tcp.done
    ensures Starved(s) <==> |s.tcp.sent| - ReadsOf(s.tcp.sent, |s.down.greeted|) == 8
  {
    ReachableInv(cfg, s);
    ReadsHold(cfg, s);
    WindowLeft(s.tcp, InPipe(s.pipe, Tcp), s.down);
  }

  /** So it takes empty frames: with fewer than four of them the pump is never starved. */
  lemma FewEmptiesNeverStarve(cfg: Config, s: State)
    requires Reachable(cfg, s) && cfg.policy.Coupled? && (s.down.pc == AtGate || s.down.pc == Reading) && !s.tcp.done
    requires Empties(s.tcp.sent) < 4
    ensures !Starved(s)
  {
    ReachableInv(cfg, s);
    if Starved(s) {
      AllMoved(s.tcp, InPipe(s.pipe, Tcp), 4);
      WindowConservation(cfg, s);
    }
  }

  /** Whoever waits for the browser, with everything it sent read, is starved exactly if its frames
      outnumber its whole messages by eight; its handshake and ClientInit are no messages. */
  lemma BrowserStarvedIff(cfg: Config, s: State)
    requires Reachable(cfg, s) && WaitsForBrowser(s) && EmbedUnread(s) == 0 && !s.embed.done && !s.up.pc.UpStopped?
    ensures BrowserStarved(s) <==> |s.embed.sent| - Messages(Concat(s.embed.sent)) == 8
  {
    ReachableInv(cfg, s);
    AllMoved(s.embed, InPipe(s.pipe, Embed), 8);
    if s.up.pc.Collecting? {
      PartFails(s.up.pc.part);
      UniqueDecoding(s.up.msgs, s.up.pc.part, Stream.Eof);
    }
  }

  // ---- the frames a connect can take ----

  /** The handshakes were over within the first frames, before any credit came back. */
  ghost predicate Early(frames: seq<seq<byte>>, bytes: seq<byte>, max: nat) {
    exists k: nat :: k <= max && k <= |frames| && bytes <= Concat(frames[..k])
  }

  lemma EarlyStays(frames: seq<seq<byte>>, f: seq<byte>, bytes: seq<byte>, max: nat)
    requires Early(frames, bytes, max)
    ensures Early(frames + [f], bytes, max)
  {
    var k: nat :| k <= max && k <= |frames| && bytes <= Concat(frames[..k]);
    assert (frames + [f])[..k] == frames[..k];
  }

  lemma EarlyNow(l: Link, inPipe: seq<seq<byte>>, initial: nat, bytes: seq<byte>)
    requires LinkInv(l, inPipe, initial) && !l.gap && bytes <= l.taken && |l.sent| <= initial
    ensures Early(l.sent, bytes, initial)
  {
    LinkPrefix(l, inPipe, initial);
    assert l.sent[..|l.moved|] == l.moved;
  }

  ghost predicate Connected(s: State) {
    && (!s.tcp.gap && AfterHandshake(s) ==> Early(s.tcp.sent, s.down.greeted, 4))
    && (!s.embed.gap && !s.up.pc.NotYet? ==>
          |s.embed.taken| >= OPENING && Early(s.embed.sent, s.embed.taken[..OPENING], 8))
  }

  lemma SetupConnects(s: State, e: SetupStep)
    requires Connected(s) && Links(s) && SetupEnabled(s, e) && TcpLaw(s.tcp, s.down)
    requires DownBytes(s.down, s.tcp.taken) && OpeningBytes(s.down.pc, s.up.pc, s.embed.taken)
    requires s.up.pc.NotYet? ==> s.embed.granted == 0
    ensures Connected(SetupNext(s, e))
  {
    if e.Batch? && !s.tcp.gap {
      EarlyNow(s.tcp, InPipe(s.pipe, Tcp), 4, s.down.greeted);
    }
    if e.Start? && !s.embed.gap {
      EarlyNow(s.embed, InPipe(s.pipe, Embed), 8, s.embed.taken[..OPENING]);
    }
  }

  lemma HostConnects(s: State, e: HostStep)
    requires Connected(s) && HostEnabled(s, e)
    ensures Connected(HostNext(s, e))
  {
    if e.Send? && e.port == Tcp && !s.tcp.gap && AfterHandshake(s) {
      EarlyStays(s.tcp.sent, e.f, s.down.greeted, 4);
    }
    if e.Send? && e.port == Embed && !s.embed.gap && !s.up.pc.NotYet? {
      EarlyStays(s.embed.sent, e.f, s.embed.taken[..OPENING], 8);
    }
  }

  /** Nothing of the connect changes: only more of the browser's bytes may have been taken. */
  predicate ConnectSame(s: State, s': State) {
    && s'.tcp.sent == s.tcp.sent && s'.embed.sent == s.embed.sent && s'.down.greeted == s.down.greeted
    && s.embed.taken <= s'.embed.taken && (s.tcp.gap ==> s'.tcp.gap) && (s.embed.gap ==> s'.embed.gap)
    && (s'.up.pc.NotYet? <==> s.up.pc.NotYet?) && (AfterHandshake(s') ==> AfterHandshake(s))
  }

  lemma DeliverySame(s: State)
    requires CanDeliver(s)
    ensures ConnectSame(s, DeliverNext(s))
  {
  }

  lemma ReadPumpSame(s: State, p: Port)
    requires CanPump(LinkOf(s, p))
    ensures ConnectSame(s, ReadPumpNext(s, p))
  {
  }

  lemma DownSame(policy: Policy, s: State, e: DownStep)
    requires DownEnabled(s, e)
    ensures ConnectSame(s, DownNext(policy, s, e))
  {
  }

  lemma UpSame(readOnly: bool, s: State, e: UpStep)
    requires UpEnabled(s, e)
    ensures ConnectSame(s, UpNext(readOnly, s, e))
  {
  }

  lemma EndSame(s: State, e: EndStep)
    requires EndEnabled(s, e)
    ensures ConnectSame(s, EndNext(s, e))
  {
  }

  lemma SameConnected(s: State, s': State)
    requires Connected(s) && ConnectSame(s, s')
    ensures Connected(s')
  {
    if !s'.embed.gap && !s'.up.pc.NotYet? {
      assert s'.embed.taken[..OPENING] == s.embed.taken[..OPENING];
    }
  }

  lemma ConnectedStep(cfg: Config, s: State, e: Event)
    requires Connected(s) && Inv(cfg, s) && Enabled(s, e)
    ensures Connected(Next(cfg, s, e))
  {
    match e
    case Host(e') => HostConnects(s, e');
    case SetUp(e') => SetupConnects(s, e');
    case Deliver =>
      DeliverySame(s);
      SameConnected(s, DeliverNext(s));
    case ReadPump(p) =>
      ReadPumpSame(s, p);
      SameConnected(s, ReadPumpNext(s, p));
    case Downward(e') =>
      DownSame(cfg.policy, s, e');
      SameConnected(s, DownNext(cfg.policy, s, e'));
    case Upward(e') =>
      UpSame(cfg.readOnly, s, e');
      SameConnected(s, UpNext(cfg.readOnly, s, e'));
    case Ending(e') =>
      EndSame(s, e');
      SameConnected(s, EndNext(s, e'));
  }

  lemma {:induction false} ConnectedRun(cfg: Config, s: State, es: seq<Event>, s': State)
    requires Connected(s) && Inv(cfg, s) && Reaches(cfg, s, es, s')
    ensures Connected(s')
    decreases |es|
  {
    if es != [] {
      ConnectedStep(cfg, s, es[0]);
      StepKeepsInv(cfg, s, es[0]);
      ConnectedRun(cfg, Next(cfg, s, es[0]), es[1..], s');
    }
  }

  /** A relay only ever gets going with a server whose handshake fits its first four frames and a browser
      whose opening fits its first eight: any other is starved on the way. */
  lemma ConnectTakesFewFrames(cfg: Config, s: State)
    requires Reachable(cfg, s)
    ensures AfterHandshake(s) && !s.tcp.gap ==> Early(s.tcp.sent, s.down.greeted, 4)
    ensures !s.up.pc.NotYet? && !s.embed.gap ==>
              |s.embed.taken| >= OPENING && Early(s.embed.sent, s.embed.taken[..OPENING], 8)
  {
    var es :| Reaches(cfg, INIT, es, s);
    assert Concat([]) == [];
    ConnectedRun(cfg, INIT, es, s);
  }
}
