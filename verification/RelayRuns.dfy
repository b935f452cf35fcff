/** Runs that reach particular states, built step by step: an established relay, starvation, gaps. */
module RelayRuns {
  import opened Bytes
  import opened Coupling
  import opened RelayLink
  import opened Pacing
  import opened ClientMessage
  import opened Relay
  import opened RelayInvariant
  import opened RelayHistory
  import opened RelayWindow
  import opened RelayStarvation
  import V = Version
  import Hs = RfbHandshake

  /** Reached with server frames of at most max bytes and a browser paced with this slack. */
  ghost predicate Walked(cfg: Config, max: nat, slack: nat, s: State) {
    Reachable(cfg, s) && FramesUpTo(s.tcp.sent, max) && Paced(s.embed.sent, slack)
  }

  lemma PumpsKeepSent(cfg: Config, s: State, e: Event)
    requires Enabled(s, e) && (e.SetUp? || e.Downward? || e.Upward?)
    ensures Next(cfg, s, e).tcp.sent == s.tcp.sent && Next(cfg, s, e).embed.sent == s.embed.sent
  {
    StepSends(cfg, s, e, Tcp);
    StepSends(cfg, s, e, Embed);
    assert [e][1..] == [];
  }

  // ---- single steps of a walk ----

  lemma Goes(cfg: Config, max: nat, slack: nat, s: State, e: Event)
    requires Walked(cfg, max, slack, s) && Enabled(s, e) && (e.SetUp? || e.Downward? || e.Upward?)
    ensures Walked(cfg, max, slack, Next(cfg, s, e))
  {
    ReachableNext(cfg, s, e);
    PumpsKeepSent(cfg, s, e);
  }

  lemma Delivers(cfg: Config, max: nat, slack: nat, s: State)
    requires Walked(cfg, max, slack, s) && CanDeliver(s)
    ensures Walked(cfg, max, slack, DeliverNext(s))
  {
    ReachableNext(cfg, s, Deliver);
  }

  lemma ReadPumps(cfg: Config, max: nat, slack: nat, s: State, p: Port)
    requires Walked(cfg, max, slack, s) && CanPump(LinkOf(s, p))
    ensures Walked(cfg, max, slack, ReadPumpNext(s, p))
  {
    ReachableNext(cfg, s, ReadPump(p));
  }

  lemma Credits(cfg: Config, max: nat, slack: nat, s: State, p: Port, n: nat)
    requires Walked(cfg, max, slack, s)
    ensures Walked(cfg, max, slack, HostNext(s, Credit(p, n)))
  {
    ReachableNext(cfg, s, Host(Credit(p, n)));
  }

  lemma SendsTcp(cfg: Config, max: nat, slack: nat, s: State, f: seq<byte>)
    requires Walked(cfg, max, slack, s) && s.tcp.window > 0 && |f| <= max
    ensures Walked(cfg, max, slack, HostNext(s, Send(Tcp, f)))
  {
    ReachableNext(cfg, s, Host(Send(Tcp, f)));
  }

  /** A frame that leaves the browser's bytes short enough cannot break its pace. */
  predicate Room(frames: seq<seq<byte>>, f: seq<byte>, slack: nat) {
    |Concat(frames)| + |f| < PREAMBLE + 4 * (|frames| + 2 + slack)
  }

  lemma SendsEmbed(cfg: Config, max: nat, slack: nat, s: State, f: seq<byte>)
    requires Walked(cfg, max, slack, s) && s.embed.window > 0 && Room(s.embed.sent, f, slack)
    ensures Walked(cfg, max, slack, HostNext(s, Send(Embed, f)))
  {
    ReachableNext(cfg, s, Host(Send(Embed, f)));
    var bytes := Concat(s.embed.sent) + f;
    if |bytes| >= PREAMBLE {
      MessagesBound(bytes);
    }
    PacedSnoc(s.embed.sent, f, slack);
  }

  // ---- composite steps ----

  predicate Idle(l: Link) {
    l.queue == [] && l.hand.None? && l.readBuf == [] && !l.closed && !l.done && !l.gone && !l.lost
  }

  /** A frame of the server into the read pump. */
  lemma ServerArrives(cfg: Config, max: nat, slack: nat, s: State, f: seq<byte>) returns (s': State)
    requires Walked(cfg, max, slack, s) && s.tcp.window > 0 && 0 < |f| <= max && s.pipe == [] && Idle(s.tcp)
    ensures Walked(cfg, max, slack, s')
    ensures s' == s.(tcp := s.tcp.(hand := Some(f), window := s.tcp.window - 1, sent := s.tcp.sent + [f]))
  {
    SendsTcp(cfg, max, slack, s, f);
    s' := HostNext(s, Send(Tcp, f));
    Delivers(cfg, max, slack, s');
    s' := DeliverNext(s');
    ReadPumps(cfg, max, slack, s', Tcp);
    s' := ReadPumpNext(s', Tcp);
  }

  lemma BrowserArrives(cfg: Config, max: nat, slack: nat, s: State, f: seq<byte>) returns (s': State)
    requires Walked(cfg, max, slack, s) && s.embed.window > 0 && f != [] && s.pipe == [] && Idle(s.embed)
    requires Room(s.embed.sent, f, slack)
    ensures Walked(cfg, max, slack, s')
    ensures s' == s.(embed := s.embed.(hand := Some(f), window := s.embed.window - 1, sent := s.embed.sent + [f]))
  {
    SendsEmbed(cfg, max, slack, s, f);
    s' := HostNext(s, Send(Embed, f));
    Delivers(cfg, max, slack, s');
    s' := DeliverNext(s');
    ReadPumps(cfg, max, slack, s', Embed);
    s' := ReadPumpNext(s', Embed);
  }

  lemma CreditArrives(cfg: Config, max: nat, slack: nat, s: State, p: Port, n: nat) returns (s': State)
    requires Walked(cfg, max, slack, s) && s.pipe == []
    ensures Walked(cfg, max, slack, s') && s' == SetLink(s, p, LinkOf(s, p).(cred := LinkOf(s, p).cred + n))
  {
    Credits(cfg, max, slack, s, p, n);
    s' := HostNext(s, Credit(p, n));
    Delivers(cfg, max, slack, s');
    s' := DeliverNext(s');
  }

  /** Reading a frame that is exactly the field wanted. */
  lemma ReadsServer(s: State, c: Hs.Client, f: seq<byte>)
    requires s.down.pc == Greeting(c, []) && c.Need() == Some(|f|) && f != []
    requires s.tcp.hand == Some(f) && s.tcp.readBuf == []
    ensures SetupEnabled(s, ReadServer)
    ensures var s' := SetupNext(s, ReadServer);
            && s'.down.pc == Greeting(c, f) && s' == s.(tcp := s'.tcp, down := s'.down)
            && s'.tcp == s.tcp.(hand := None, moved := s'.tcp.moved, taken := s'.tcp.taken)
            && s'.down == s.down.(pc := s'.down.pc, greeted := s'.down.greeted, consumed := s.down.consumed + 1)
  {
    assert f[..|f|] == f && [] + f == f && f[|f|..] == [];
  }

  lemma ReadsBrowser(s: State, c: Hs.Server, f: seq<byte>)
    requires s.down.pc == Fronting(c, []) && c.Need() == Some(|f|) && f != []
    requires s.embed.hand == Some(f) && s.embed.readBuf == []
    ensures SetupEnabled(s, ReadBrowser)
    ensures var s' := SetupNext(s, ReadBrowser);
            && s' == s.(embed := s'.embed, down := s.down.(pc := Fronting(c, f)))
            && s'.embed == s.embed.(hand := None, moved := s'.embed.moved, taken := s'.embed.taken)
  {
    assert f[..|f|] == f && [] + f == f && f[|f|..] == [];
  }

  /** The server sends exactly the field the client role reads next. */
  lemma ServerSays(cfg: Config, max: nat, slack: nat, s: State, c: Hs.Client, f: seq<byte>) returns (s': State)
    requires Walked(cfg, max, slack, s) && s.pipe == [] && Idle(s.tcp) && s.tcp.window > 0
    requires s.down.pc == Greeting(c, []) && c.Need() == Some(|f|) && 0 < |f| <= max
    ensures Walked(cfg, max, slack, s') && s'.down.pc == Greeting(c.Feed(f), [])
    ensures s' == s.(tcp := s'.tcp, down := s'.down)
    ensures Idle(s'.tcp) && s'.tcp.window == s.tcp.window - 1 && s'.tcp.cred == s.tcp.cred
    ensures s'.tcp.skipped == s.tcp.skipped
    ensures s'.down.partials == s.down.partials && s'.down.withheld == s.down.withheld
    ensures s'.down.relayed == s.down.relayed
  {
    s' := ServerArrives(cfg, max, slack, s, f);
    ReadsServer(s', c, f);
    Goes(cfg, max, slack, s', SetUp(ReadServer));
    s' := SetupNext(s', ReadServer);
    Goes(cfg, max, slack, s', SetUp(FeedServer));
    s' := SetupNext(s', FeedServer);
  }

  lemma BrowserSays(cfg: Config, max: nat, slack: nat, s: State, c: Hs.Server, f: seq<byte>) returns (s': State)
    requires Walked(cfg, max, slack, s) && s.pipe == [] && Idle(s.embed) && s.embed.window > 0
    requires s.down.pc == Fronting(c, []) && c.Need() == Some(|f|) && f != [] && Room(s.embed.sent, f, slack)
    ensures Walked(cfg, max, slack, s') && s'.down.pc == Fronting(c.Feed(f), [])
    ensures s' == s.(embed := s'.embed, down := s.down.(pc := s'.down.pc))
    ensures Idle(s'.embed) && s'.embed.window == s.embed.window - 1 && s'.embed.cred == s.embed.cred
    ensures |s'.embed.sent| == |s.embed.sent| + 1 && |Concat(s'.embed.sent)| == |Concat(s.embed.sent)| + |f|
  {
    s' := BrowserArrives(cfg, max, slack, s, f);
    ConcatSnoc(s.embed.sent, f);
    ReadsBrowser(s', c, f);
    Goes(cfg, max, slack, s', SetUp(ReadBrowser));
    s' := SetupNext(s', ReadBrowser);
    Goes(cfg, max, slack, s', SetUp(FeedBrowser));
    s' := SetupNext(s', FeedBrowser);
  }

  // ---- an established relay ----

  /** Both handshakes done, everything read: the server spoke in four frames, the browser in two. */
  predicate Fresh(s: State) {
    && s.pipe == [] && Idle(s.tcp) && Idle(s.embed) && !s.gated && s.down.pc == AtGate && s.up.pc == AwaitInit
    && s.tcp.window == 4 && s.tcp.cred == 2 && s.embed.window == 6 && s.embed.cred == 5
    && s.tcp.skipped == 0 && s.down.partials == 0 && s.down.withheld == 0 && s.down.relayed == []
    && |s.embed.sent| == 2 && |Concat(s.embed.sent)| == OPENING
  }

  predicate Unharmed(s: State) {
    Idle(s.tcp) && s.tcp.skipped == 0 && s.down.partials == 0 && s.down.withheld == 0 && s.down.relayed == []
  }

  lemma VersionsExchanged(cfg: Config, max: nat, slack: nat) returns (s: State)
    requires max >= 12
    ensures Walked(cfg, max, slack, s) && s == INIT.(tcp := s.tcp, down := s.down)
    ensures s.down.pc == Greeting(Hs.AwaitCount(V.V38), []) && s.tcp.window == 3 && s.tcp.cred == 3 && Unharmed(s)
  {
    s := INIT;
    assert Reaches(cfg, INIT, [], s) && Concat([]) == [];
    V.ParseIff(V.Line(V.V38), V.V38);
    s := ServerSays(cfg, max, slack, s, Hs.AwaitVersion, V.Line(V.V38));
    Goes(cfg, max, slack, s, SetUp(WriteServer));
    s := SetupNext(s, WriteServer);
  }

  lemma TypeChosen(cfg: Config, max: nat, slack: nat) returns (s: State)
    requires max >= 12
    ensures Walked(cfg, max, slack, s) && s == INIT.(tcp := s.tcp, down := s.down)
    ensures s.down.pc == Greeting(Hs.AwaitResult(V.V38, Hs.SEC_NONE), []) && s.tcp.window == 1 && s.tcp.cred == 2
        && Unharmed(s)
  {
    s := VersionsExchanged(cfg, max, slack);
    s := ServerSays(cfg, max, slack, s, Hs.AwaitCount(V.V38), [1]);
    s := ServerSays(cfg, max, slack, s, Hs.AwaitTypes(V.V38, 1), [Hs.SEC_NONE]);
    Goes(cfg, max, slack, s, SetUp(WriteServer));
    s := SetupNext(s, WriteServer);
  }

  lemma Greeted(cfg: Config, max: nat, slack: nat) returns (s: State)
    requires max >= 12
    ensures Walked(cfg, max, slack, s) && s == INIT.(tcp := s.tcp, down := s.down)
    ensures s.down.pc == Fronting(Hs.GreetBrowser, []) && s.tcp.window == 4 && s.tcp.cred == 2 && Unharmed(s)
  {
    s := TypeChosen(cfg, max, slack);
    assert U32(Hs.RESULT_OK) == 0;
    s := ServerSays(cfg, max, slack, s, Hs.AwaitResult(V.V38, Hs.SEC_NONE), Hs.RESULT_OK);
    Goes(cfg, max, slack, s, SetUp(Batch));
    s := SetupNext(s, Batch);
  }

  lemma VersionAnswered(cfg: Config, max: nat, slack: nat) returns (s: State)
    requires max >= 12
    ensures Walked(cfg, max, slack, s) && s == INIT.(tcp := s.tcp, embed := s.embed, down := s.down)
    ensures s.down.pc == Fronting(Hs.SendList, []) && s.tcp.window == 4 && s.tcp.cred == 2 && Unharmed(s)
    ensures Idle(s.embed) && s.embed.window == 7 && s.embed.cred == 7
    ensures |s.embed.sent| == 1 && |Concat(s.embed.sent)| == 12
  {
    s := Greeted(cfg, max, slack);
    assert Concat([]) == [];
    V.ParseIff(V.Line(V.V38), V.V38);
    Goes(cfg, max, slack, s, SetUp(WriteBrowser));
    s := SetupNext(s, WriteBrowser);
    s := BrowserSays(cfg, max, slack, s, Hs.AwaitBrowserVersion, V.Line(V.V38));
  }

  lemma Established(cfg: Config, max: nat, slack: nat) returns (s: State)
    requires max >= 12
    ensures Walked(cfg, max, slack, s) && Fresh(s)
  {
    s := VersionAnswered(cfg, max, slack);
    Goes(cfg, max, slack, s, SetUp(WriteBrowser));
    s := SetupNext(s, WriteBrowser);
    s := BrowserSays(cfg, max, slack, s, Hs.AwaitBrowserChoice, [Hs.SEC_NONE]);
    Goes(cfg, max, slack, s, SetUp(WriteBrowser));
    s := SetupNext(s, WriteBrowser);
    Goes(cfg, max, slack, s, SetUp(Start));
    s := SetupNext(s, Start);
  }

  // ---- relaying frames ----

  /** One small frame from the server to the browser. */
  lemma RelayOne(cfg: Config, max: nat, slack: nat, s: State) returns (s': State)
    requires Walked(cfg, max, slack, s) && max > 0 && s.pipe == [] && Idle(s.tcp) && s.down.pc == AtGate && !s.gated
    requires s.tcp.window > 0 && s.embed.cred > 0
    ensures Walked(cfg, max, slack, s') && s' == s.(tcp := s'.tcp, embed := Spend(s.embed), down := s'.down)
    ensures Idle(s'.tcp) && s'.down.pc == AtGate && s'.tcp.cred == s.tcp.cred
    ensures s'.tcp.window == s.tcp.window - 1 + GrantOf(cfg.policy, s'.embed.cred)
  {
    s' := ServerArrives(cfg, max, slack, s, [0]);
    s' := DownSteps(cfg, max, slack, s', PassGate);
    s' := DownSteps(cfg, max, slack, s', ReadTcp);
    s' := DownSteps(cfg, max, slack, s', WriteFrame);
    s' := DownSteps(cfg, max, slack, s', GrantTcp);
  }

  lemma DownSteps(cfg: Config, max: nat, slack: nat, s: State, e: DownStep) returns (s': State)
    requires Walked(cfg, max, slack, s) && DownEnabled(s, e)
    ensures Walked(cfg, max, slack, s') && s' == DownNext(cfg.policy, s, e)
  {
    Goes(cfg, max, slack, s, Downward(e));
    s' := DownNext(cfg.policy, s, e);
  }

  lemma UpSteps(cfg: Config, max: nat, slack: nat, s: State, e: UpStep) returns (s': State)
    requires Walked(cfg, max, slack, s) && UpEnabled(s, e)
    ensures Walked(cfg, max, slack, s') && s' == UpNext(cfg.readOnly, s, e)
  {
    Goes(cfg, max, slack, s, Upward(e));
    s' := UpNext(cfg.readOnly, s, e);
  }

  // ---- starvation ----

  lemma Setup(cfg: Config, max: nat, slack: nat, s: State, e: SetupStep) returns (s': State)
    requires Walked(cfg, max, slack, s) && SetupEnabled(s, e)
    ensures Walked(cfg, max, slack, s') && s' == SetupNext(s, e)
  {
    Goes(cfg, max, slack, s, SetUp(e));
    s' := SetupNext(s, e);
  }

  lemma NothingUnread(cfg: Config, s: State)
    requires Reachable(cfg, s) && s.pipe == []
    ensures Idle(s.tcp) ==> TcpUnread(s) == 0
    ensures Idle(s.embed) ==> EmbedUnread(s) == 0
  {
    ReachableInv(cfg, s);
    assert InPipe(s.pipe, Tcp) == [] && InPipe(s.pipe, Embed) == [];
  }

  /** A server that sends version, count, types, challenge and result in a frame each never gets to send
      the last: its handshake has used up the window, and the plugin waits for the result. */
  lemma HandshakeStarves(cfg: Config) returns (s: State)
    ensures Walked(cfg, 16, 0, s) && Starved(s)
    ensures s.down.pc == Greeting(Hs.AwaitResult(V.V38, Hs.SEC_VNC_AUTH), [])
  {
    s := VersionsExchanged(cfg, 16, 0);
    s := ServerSays(cfg, 16, 0, s, Hs.AwaitCount(V.V38), [1]);
    s := ServerSays(cfg, 16, 0, s, Hs.AwaitTypes(V.V38, 1), [Hs.SEC_VNC_AUTH]);
    s := Setup(cfg, 16, 0, s, WriteServer);
    s := ServerSays(cfg, 16, 0, s, Hs.AwaitChallenge(V.V38), seq(16, _ => 0));
    s := Setup(cfg, 16, 0, s, WriteServer);
    NothingUnread(cfg, s);
  }

  /** The browser has sent i bytes of its version line, in a frame each. */
  predicate Trickling(s: State, i: nat) {
    && s.pipe == [] && Idle(s.embed) && s.embed.window == 8 - i
    && s.down.pc.Fronting? && s.down.pc.f == Hs.AwaitBrowserVersion && |s.down.pc.buf| == i
    && |s.embed.sent| == i && |Concat(s.embed.sent)| == i
  }

  lemma TricklesOne(cfg: Config, s: State, i: nat) returns (s': State)
    requires Walked(cfg, 12, 0, s) && Trickling(s, i) && i < 8
    ensures Walked(cfg, 12, 0, s') && Trickling(s', i + 1)
  {
    s' := BrowserArrives(cfg, 12, 0, s, [0]);
    ConcatSnoc(s.embed.sent, [0]);
    assert [0][..1] == [0] && [0][1..] == [];
    s' := Setup(cfg, 12, 0, s', ReadBrowser);
  }

  /** Likewise a browser whose opening comes in more than eight frames. */
  lemma OpeningStarves(cfg: Config) returns (s: State)
    ensures Walked(cfg, 12, 0, s) && BrowserStarved(s) && s.down.pc.Fronting?
  {
    s := Greeted(cfg, 12, 0);
    assert Concat([]) == [];
    s := Setup(cfg, 12, 0, s, WriteBrowser);
    var i := 0;
    while i < 8
      invariant 0 <= i <= 8 && Walked(cfg, 12, 0, s) && Trickling(s, i)
    {
      s := TricklesOne(cfg, s, i);
      i := i + 1;
    }
    NothingUnread(cfg, s);
  }

  /** Granting with the bare policy starves the relay on nothing worse than small frames: the browser is
      slow for five frames, then returns all its credit, and still nothing can move. */
  lemma BareGrantStarves(readOnly: bool) returns (s: State)
    ensures Walked(Config(Bare(DEFAULT_CAPACITY), readOnly), 12, 0, s) && Starved(s) && s.embed.cred == 8
  {
    var cfg := Config(Bare(DEFAULT_CAPACITY), readOnly);
    s := Established(cfg, 12, 0);
    var i := 0;
    while i < 5
      invariant 0 <= i <= 5 && Walked(cfg, 12, 0, s) && s.pipe == [] && Idle(s.tcp) && s.down.pc == AtGate && !s.gated
      invariant s.embed.cred == 5 - i && s.tcp.window == if i == 0 then 4 else 5 - i
    {
      s := RelayOne(cfg, 12, 0, s);
      i := i + 1;
    }
    assert InPipe(s.pipe, Tcp) == [];
    s := CreditArrives(cfg, 12, 0, s, Embed, 8);
    ReachableInv(cfg, s);
  }

  lemma EmptyArrives(cfg: Config, max: nat, slack: nat, s: State) returns (s': State)
    requires Walked(cfg, max, slack, s) && s.tcp.window > 0 && s.pipe == [] && Idle(s.tcp)
    ensures Walked(cfg, max, slack, s') && s' == s.(tcp := s'.tcp)
    ensures Idle(s'.tcp) && s'.tcp.window == s.tcp.window - 1
  {
    SendsTcp(cfg, max, slack, s, []);
    s' := HostNext(s, Send(Tcp, []));
    Delivers(cfg, max, slack, s');
    s' := DeliverNext(s');
    ReadPumps(cfg, max, slack, s', Tcp);
    s' := ReadPumpNext(s', Tcp);
  }

  /** Empty frames cost the host a credit that is never given back: four of them after a four-frame
      handshake starve the relay. */
  lemma EmptyFramesStarve(cfg: Config) returns (s: State)
    ensures Walked(cfg, 12, 0, s) && Starved(s)
  {
    s := Established(cfg, 12, 0);
    var i := 0;
    while i < 4
      invariant 0 <= i <= 4 && Walked(cfg, 12, 0, s) && s.pipe == [] && Idle(s.tcp) && s.down.pc == AtGate
      invariant s.tcp.window == 4 - i
    {
      s := EmptyArrives(cfg, 12, 0, s);
      i := i + 1;
    }
    assert InPipe(s.pipe, Tcp) == [];
    ReachableInv(cfg, s);
  }

  /** ClientInit is relayed; it returns no credit. */
  lemma InitRelayed(cfg: Config, max: nat, slack: nat, s: State) returns (s': State)
    requires Walked(cfg, max, slack, s) && Fresh(s)
    ensures Walked(cfg, max, slack, s') && s' == s.(tcp := Spend(s.tcp), embed := s'.embed, up := s'.up)
    ensures Idle(s'.embed) && s'.embed.window == 5 && s'.embed.cred == 5 && s'.up.pc == Collecting([])
    ensures |s'.embed.sent| == 3 && |Concat(s'.embed.sent)| == PREAMBLE
  {
    s' := BrowserArrives(cfg, max, slack, s, [1]);
    ConcatSnoc(s.embed.sent, [1]);
    s' := UpSteps(cfg, max, slack, s', ReadInit);
    s' := UpSteps(cfg, max, slack, s', WriteInit);
  }

  /** One more byte of a client message that stays incomplete. */
  lemma PartArrives(cfg: Config, max: nat, slack: nat, s: State, b: byte) returns (s': State)
    requires Walked(cfg, max, slack, s) && s.pipe == [] && Idle(s.embed) && s.embed.window > 0
    requires s.up.pc.Collecting? && Missing(s.up.pc.part) > 0 && Room(s.embed.sent, [b], slack)
    ensures Walked(cfg, max, slack, s')
    ensures s' == s.(embed := s'.embed, up := s.up.(pc := Collecting(s.up.pc.part + [b])))
    ensures Idle(s'.embed) && s'.embed.window == s.embed.window - 1
    ensures |s'.embed.sent| == |s.embed.sent| + 1 && |Concat(s'.embed.sent)| == |Concat(s.embed.sent)| + 1
  {
    s' := BrowserArrives(cfg, max, slack, s, [b]);
    ConcatSnoc(s.embed.sent, [b]);
    assert [b][..1] == [b] && [b][1..] == [];
    s' := UpSteps(cfg, max, slack, s', ReadPart);
  }

  /** A cut-text message of which i bytes have come, in a frame each. */
  predicate Cutting(s: State, i: nat) {
    && s.pipe == [] && Idle(s.embed) && s.embed.window == 5 - i
    && s.up.pc.Collecting? && |s.up.pc.part| == i && (i > 0 ==> s.up.pc.part[0] == CLIENT_CUT_TEXT)
    && |s.embed.sent| == 3 + i && |Concat(s.embed.sent)| == PREAMBLE + i
  }

  lemma CutsOne(cfg: Config, s: State, i: nat) returns (s': State)
    requires Walked(cfg, 12, 0, s) && Cutting(s, i) && i < 5
    ensures Walked(cfg, 12, 0, s') && Cutting(s', i + 1)
  {
    s' := PartArrives(cfg, 12, 0, s, if i == 0 then CLIENT_CUT_TEXT else 0);
  }

  /** The other direction starves too: credit comes back per message, so one message cut into five frames
      or more can use up the browser's window before it is complete. */
  lemma LongMessageStarves(cfg: Config) returns (s: State)
    ensures Walked(cfg, 12, 0, s) && BrowserStarved(s)
  {
    s := Established(cfg, 12, 0);
    s := InitRelayed(cfg, 12, 0, s);
    var i := 0;
    while i < 5
      invariant 0 <= i <= 5 && Walked(cfg, 12, 0, s) && Cutting(s, i)
    {
      s := CutsOne(cfg, s, i);
      i := i + 1;
    }
    NoneDropped(cfg, s);
    assert InPipe(s.pipe, Embed) == [];
  }

  lemma NoneDropped(cfg: Config, s: State)
    requires Reachable(cfg, s) && !s.embed.gone
    ensures s.embed.dropped == []
  {
    ReachableInv(cfg, s);
  }

  // ---- a closed channel ----

  lemma Ends(cfg: Config, max: nat, slack: nat, s: State, e: EndStep) returns (s': State)
    requires Walked(cfg, max, slack, s) && EndEnabled(s, e) && (e.Sever? || e.DropData?)
    ensures Walked(cfg, max, slack, s') && s' == EndNext(s, e)
  {
    ReachableNext(cfg, s, Ending(e));
    s' := EndNext(s, e);
  }

  /** Two frames arrive for a channel that is being closed: the select at delivery drops the first and
      queues the second. */
  lemma FirstDropped(cfg: Config, s: State) returns (s': State)
    requires Walked(cfg, 12, 0, s) && Fresh(s)
    ensures Walked(cfg, 12, 0, s') && s' == s.(tcp := s'.tcp) && s'.tcp.gap && CanPump(s'.tcp)
    ensures s'.tcp.queue == [[2]] && s'.tcp.readBuf == [] && s'.tcp.sent == (s.tcp.sent + [[1]]) + [[2]]
  {
    SendsTcp(cfg, 12, 0, s, [1]);
    s' := HostNext(s, Send(Tcp, [1]));
    SendsTcp(cfg, 12, 0, s', [2]);
    s' := HostNext(s', Send(Tcp, [2]));
    s' := Ends(cfg, 12, 0, s', Sever(Tcp));
    s' := Ends(cfg, 12, 0, s', DropData);
    Delivers(cfg, 12, 0, s');
    s' := DeliverNext(s');
  }

  lemma QueuedRelayed(cfg: Config, s: State) returns (s': State)
    requires Walked(cfg, 12, 0, s) && CanPump(s.tcp) && s.tcp.queue == [[2]] && s.tcp.readBuf == []
    requires s.down.pc == AtGate && !s.gated && s.embed.cred > 0
    ensures Walked(cfg, 12, 0, s') && s'.tcp.sent == s.tcp.sent && s'.tcp.gap == s.tcp.gap
    ensures s'.down.greeted == s.down.greeted && s'.down.relayed == s.down.relayed + [2]
  {
    ReadPumps(cfg, 12, 0, s, Tcp);
    s' := ReadPumpNext(s, Tcp);
    s' := DownSteps(cfg, 12, 0, s', PassGate);
    s' := DownSteps(cfg, 12, 0, s', ReadTcp);
    s' := DownSteps(cfg, 12, 0, s', WriteFrame);
  }

  lemma FreshBytes(cfg: Config, s: State)
    requires Walked(cfg, 12, 0, s) && Fresh(s)
    ensures Concat(s.tcp.sent) == s.down.greeted
  {
    ReachableInv(cfg, s);
    assert s.tcp.taken == s.down.greeted + [] == s.down.greeted;
    assert HandSeq(s.tcp) + s.tcp.queue + InPipe(s.pipe, Tcp) == [];
    LinkMeaning(s.tcp, InPipe(s.pipe, Tcp), 4);
  }

  /** So the condition in RelayIntegrity is needed: the pump can be handed a frame queued after a drop, and
      the browser gets bytes that are not what the server sent next. */
  lemma DroppedFrameLeavesGap(cfg: Config) returns (s: State)
    ensures Reachable(cfg, s) && s.tcp.gap && s.down.greeted <= Concat(s.tcp.sent)
    ensures !(s.down.relayed <= Concat(s.tcp.sent)[|s.down.greeted|..])
  {
    var s0 := Established(cfg, 12, 0);
    FreshBytes(cfg, s0);
    var s1 := FirstDropped(cfg, s0);
    s := QueuedRelayed(cfg, s1);
    ConcatSnoc(s0.tcp.sent, [1]);
    ConcatSnoc(s0.tcp.sent + [[1]], [2]);
    assert s.down.relayed == [2];
    Gap(s.down.greeted, Concat(s.tcp.sent));
  }

  lemma Gap(greeted: seq<byte>, all: seq<byte>)
    requires all == (greeted + [1]) + [2]
    ensures greeted <= all && !([2] <= all[|greeted|..])
  {
    assert all[|greeted|..][0] == 1;
  }
}
