/** The relay's invariant holds in every reachable state. */
module RelayInvariant {
  import opened Bytes
  import opened Stream
  import opened Coupling
  import opened RelayLink
  import opened Pacing
  import opened ClientMessage
  import opened Relay
  import Hs = RfbHandshake
  import Filter = ReadOnlyFilter

  /** All of the invariant but the links. */
  predicate Laws(cfg: Config, s: State) {
    && TcpLaw(s.tcp, s.down) && DownBytes(s.down, s.tcp.taken)
    && OpeningBytes(s.down.pc, s.up.pc, s.embed.taken)
    && UpLaw(s.up, s.embed.taken, s.embed.granted, cfg.readOnly)
  }

  // ---- host, read loop, read pumps ----

  lemma SendKeepsLinks(s: State, p: Port, f: seq<byte>)
    requires Links(s) && LinkOf(s, p).window > 0
    ensures Links(HostNext(s, Send(p, f)))
  {
    InPipeSnoc(s.pipe, Data(p, f), Tcp);
    InPipeSnoc(s.pipe, Data(p, f), Embed);
    if p == Tcp {
      SendKeeps(s.tcp, InPipe(s.pipe, Tcp), 4, f);
    } else {
      SendKeeps(s.embed, InPipe(s.pipe, Embed), 8, f);
    }
  }

  lemma HostKeepsLinks(s: State, e: HostStep)
    requires Links(s) && HostEnabled(s, e)
    ensures Links(HostNext(s, e))
  {
    match e
    case Send(p, f) => SendKeepsLinks(s, p, f);
    case Credit(p, n) =>
      InPipeSnoc(s.pipe, Grants(p, n), Tcp);
      InPipeSnoc(s.pipe, Grants(p, n), Embed);
    case Backpressure(active) =>
      InPipeSnoc(s.pipe, Pressure(active), Tcp);
      InPipeSnoc(s.pipe, Pressure(active), Embed);
  }

  lemma DeliverDataKeepsLinks(s: State, f: seq<byte>)
    requires Links(s) && CanDeliver(s)
    ensures s.pipe[0] == Data(Tcp, f) ==> Links(DeliverNext(s))
    ensures s.pipe[0] == Data(Embed, f) ==> Links(DeliverNext(s))
  {
    var t, e := InPipe(s.pipe[1..], Tcp), InPipe(s.pipe[1..], Embed);
    if s.pipe[0] == Data(Tcp, f) {
      assert InPipe(s.pipe, Tcp) == [f] + t && InPipe(s.pipe, Embed) == [] + e == e;
      DeliverKeeps(s.tcp, [f] + t, 4);
      assert ([f] + t)[1..] == t;
    } else if s.pipe[0] == Data(Embed, f) {
      assert InPipe(s.pipe, Embed) == [f] + e && InPipe(s.pipe, Tcp) == [] + t == t;
      DeliverKeeps(s.embed, [f] + e, 8);
      assert ([f] + e)[1..] == e;
    }
  }

  lemma DeliverOtherKeepsLinks(s: State)
    requires Links(s) && CanDeliver(s) && !s.pipe[0].Data?
    ensures Links(DeliverNext(s))
  {
    var t, e := InPipe(s.pipe[1..], Tcp), InPipe(s.pipe[1..], Embed);
    assert InPipe(s.pipe, Tcp) == [] + t == t && InPipe(s.pipe, Embed) == [] + e == e;
    CreditKeeps(s.tcp, t, 4, DeliverNext(s).tcp.cred);
    CreditKeeps(s.embed, e, 8, DeliverNext(s).embed.cred);
  }

  lemma DeliverKeepsLinks(s: State)
    requires Links(s) && CanDeliver(s)
    ensures Links(DeliverNext(s))
  {
    if s.pipe[0].Data? {
      DeliverDataKeepsLinks(s, s.pipe[0].frame);
    } else {
      DeliverOtherKeepsLinks(s);
    }
  }

  lemma ReadPumpKeepsLinks(s: State, p: Port)
    requires Links(s) && CanPump(LinkOf(s, p))
    ensures Links(ReadPumpNext(s, p))
  {
    if p == Tcp {
      PumpKeeps(s.tcp, InPipe(s.pipe, Tcp), 4);
    } else {
      PumpKeeps(s.embed, InPipe(s.pipe, Embed), 8);
    }
  }

  lemma HostKeepsLaws(cfg: Config, s: State, e: HostStep)
    requires Laws(cfg, s) && HostEnabled(s, e)
    ensures Laws(cfg, HostNext(s, e))
  {
  }

  lemma DeliverKeepsLaws(cfg: Config, s: State)
    requires Laws(cfg, s) && CanDeliver(s)
    ensures Laws(cfg, DeliverNext(s))
  {
  }

  lemma PumpCounts(l: Link, d: Down)
    requires TcpLaw(l, d) && CanPump(l)
    ensures TcpLaw(PumpOne(l), d) && PumpOne(l).taken == l.taken && PumpOne(l).granted == l.granted
  {
    LongestSnoc(l.moved, l.queue[0]);
  }

  lemma ReadPumpKeepsLaws(cfg: Config, s: State, p: Port)
    requires Laws(cfg, s) && CanPump(LinkOf(s, p))
    ensures Laws(cfg, ReadPumpNext(s, p))
  {
    if p == Tcp {
      PumpCounts(s.tcp, s.down);
    } else {
      assert PumpOne(s.embed).taken == s.embed.taken && PumpOne(s.embed).granted == s.embed.granted;
    }
  }

  // ---- handshakes ----

  lemma SetupReadKeepsLinks(s: State, e: SetupStep)
    requires Links(s) && SetupEnabled(s, e) && (e.ReadServer? || e.ReadBrowser?)
    ensures Links(SetupNext(s, e))
  {
    if e.ReadServer? {
      TakeKeeps(s.tcp, InPipe(s.pipe, Tcp), 4, WantsServer(s.down.pc));
    } else {
      TakeKeeps(s.embed, InPipe(s.pipe, Embed), 8, WantsBrowser(s.down.pc));
    }
  }

  lemma BatchKeepsLinks(s: State)
    requires Links(s) && SetupEnabled(s, Batch)
    ensures Links(SetupNext(s, Batch))
  {
    ReturnKeeps(s.tcp, InPipe(s.pipe, Tcp), 4, TCP_RELAY_INITIAL_CREDIT);
  }

  lemma SetupOtherKeepsLinks(s: State, e: SetupStep)
    requires Links(s) && SetupEnabled(s, e) && !e.ReadServer? && !e.ReadBrowser?
    ensures Links(SetupNext(s, e))
  {
    match e
    case WriteServer => CreditKeeps(s.tcp, InPipe(s.pipe, Tcp), 4, s.tcp.cred - 1);
    case WriteBrowser => CreditKeeps(s.embed, InPipe(s.pipe, Embed), 8, s.embed.cred - 1);
    case Batch => BatchKeepsLinks(s);
    case _ =>
  }

  lemma SetupKeepsLinks(s: State, e: SetupStep)
    requires Links(s) && SetupEnabled(s, e)
    ensures Links(SetupNext(s, e))
  {
    if e.ReadServer? || e.ReadBrowser? {
      SetupReadKeepsLinks(s, e);
    } else {
      SetupOtherKeepsLinks(s, e);
    }
  }

  lemma SetupReads(s: State, e: SetupStep)
    requires Links(s) && SetupEnabled(s, e) && TcpLaw(s.tcp, s.down)
    ensures e.ReadServer? ==> TakesWell(s.tcp, WantsServer(s.down.pc))
    ensures e.ReadBrowser? ==> TakesWell(s.embed, WantsBrowser(s.down.pc))
    ensures e.ReadServer? || e.Batch? ==> |s.tcp.sent| <= 4
  {
    match e
    case ReadServer => TakeKeeps(s.tcp, InPipe(s.pipe, Tcp), 4, WantsServer(s.down.pc));
    case ReadBrowser => TakeKeeps(s.embed, InPipe(s.pipe, Embed), 8, WantsBrowser(s.down.pc));
    case _ =>
  }

  lemma ReadServerCounts(l: Link, l': Link, d: Down, d': Down)
    requires TcpLaw(l, d) && d.pc.Greeting? && d'.pc.Greeting? && |l'.moved| <= 4
    requires |l'.moved| - Open(l') == |l.moved| - Open(l) + (if l'.readBuf == [] then 1 else 0)
    requires l'.skipped == l.skipped && l'.granted == l.granted
    requires d' == d.(pc := d'.pc, greeted := d'.greeted, consumed := d.consumed + if l'.readBuf == [] then 1 else 0)
    ensures TcpLaw(l', d')
  {
  }

  lemma TakeKeepsCredit(l: Link, max: nat)
    requires HasBytes(l)
    ensures var l' := Take(l, max).1;
            && l'.skipped == l.skipped && l'.granted == l.granted && l'.refused == l.refused && l'.window == l.window
            && l'.sent == l.sent && l'.done == l.done
  {
  }

  lemma ReadServerKeepsTcp(s: State)
    requires TcpLaw(s.tcp, s.down) && WantsServer(s.down.pc) > 0 && HasBytes(s.tcp) && |s.tcp.sent| <= 4
    requires TakeCounts(s.tcp, WantsServer(s.down.pc))
    ensures var s' := ReadServerNext(s); TcpLaw(s'.tcp, s'.down)
  {
    TakeKeepsCredit(s.tcp, WantsServer(s.down.pc));
    ReadServerCounts(s.tcp, Take(s.tcp, WantsServer(s.down.pc)).1, s.down, ReadServerNext(s).down);
  }

  lemma ReadServerKeepsDown(s: State)
    requires DownBytes(s.down, s.tcp.taken) && WantsServer(s.down.pc) > 0 && HasBytes(s.tcp)
    ensures var s' := ReadServerNext(s); DownBytes(s'.down, s'.tcp.taken)
  {
  }

  lemma SetupKeepsTcp(s: State, e: SetupStep)
    requires TcpLaw(s.tcp, s.down) && SetupEnabled(s, e) && !e.ReadServer? && (e.Batch? ==> |s.tcp.sent| <= 4)
    ensures var s' := SetupNext(s, e); TcpLaw(s'.tcp, s'.down)
  {
  }

  lemma SetupKeepsDown(s: State, e: SetupStep)
    requires DownBytes(s.down, s.tcp.taken) && SetupEnabled(s, e) && !e.ReadServer?
    ensures var s' := SetupNext(s, e); DownBytes(s'.down, s'.tcp.taken)
  {
  }

  lemma FrontFeeds(f: Hs.Server, b: seq<byte>)
    requires f.Need() == Some(|b|)
    ensures f.Feed(b).Declined? || FrontTaken(f.Feed(b)) == FrontTaken(f) + |b|
  {
  }

  lemma OpeningReads(s: State)
    requires OpeningBytes(s.down.pc, s.up.pc, s.embed.taken) && SetupEnabled(s, ReadBrowser)
    requires TakesWell(s.embed, WantsBrowser(s.down.pc))
    ensures var s' := SetupNext(s, ReadBrowser); OpeningBytes(s'.down.pc, s'.up.pc, s'.embed.taken)
  {
    var (b, l) := Take(s.embed, WantsBrowser(s.down.pc));
    OpeningGrows(s.down.pc.f, s.down.pc.buf, s.up.pc, s.embed.taken, b);
    assert l.taken == s.embed.taken + b;
  }

  lemma OpeningGrows(f: Hs.Server, buf: seq<byte>, up: UpPc, taken: seq<byte>, b: seq<byte>)
    requires OpeningBytes(Fronting(f, buf), up, taken) && f.Need().Some? && |b| <= f.Need().value - |buf|
    ensures OpeningBytes(Fronting(f, buf + b), up, taken + b)
  {
  }

  lemma OpeningReadsServer(s: State)
    requires OpeningBytes(s.down.pc, s.up.pc, s.embed.taken) && SetupEnabled(s, ReadServer)
    requires TakesWell(s.tcp, WantsServer(s.down.pc))
    ensures var s' := SetupNext(s, ReadServer); OpeningBytes(s'.down.pc, s'.up.pc, s'.embed.taken)
  {
  }

  lemma OpeningFeeds(s: State)
    requires OpeningBytes(s.down.pc, s.up.pc, s.embed.taken) && SetupEnabled(s, FeedBrowser)
    ensures var s' := SetupNext(s, FeedBrowser); OpeningBytes(s'.down.pc, s'.up.pc, s'.embed.taken)
  {
    FrontFeeds(s.down.pc.f, s.down.pc.buf);
  }

  lemma SetupKeepsOpening(s: State, e: SetupStep)
    requires OpeningBytes(s.down.pc, s.up.pc, s.embed.taken) && SetupEnabled(s, e)
    requires !e.ReadServer? && !e.ReadBrowser? && !e.FeedBrowser?
    ensures var s' := SetupNext(s, e); OpeningBytes(s'.down.pc, s'.up.pc, s'.embed.taken)
  {
  }

  lemma SetupKeepsUp(s: State, e: SetupStep, readOnly: bool)
    requires OpeningBytes(s.down.pc, s.up.pc, s.embed.taken) && SetupEnabled(s, e)
    requires UpLaw(s.up, s.embed.taken, s.embed.granted, readOnly)
    ensures var s' := SetupNext(s, e); UpLaw(s'.up, s'.embed.taken, s'.embed.granted, readOnly)
  {
    var s' := SetupNext(s, e);
    assert s.up.pc.NotYet? && s'.embed.granted == s.embed.granted;
    assert s'.up == if e.Start? then s.up.(pc := AwaitInit) else s.up;
  }

  lemma SetupKeepsLaws(cfg: Config, s: State, e: SetupStep)
    requires Links(s) && Laws(cfg, s) && SetupEnabled(s, e)
    ensures Laws(cfg, SetupNext(s, e))
  {
    SetupReads(s, e);
    SetupKeepsUp(s, e, cfg.readOnly);
    if e.ReadServer? {
      ReadServerKeepsTcp(s);
      ReadServerKeepsDown(s);
    } else {
      SetupKeepsTcp(s, e);
      SetupKeepsDown(s, e);
    }
    match e
    case ReadServer => OpeningReadsServer(s);
    case ReadBrowser => OpeningReads(s);
    case FeedBrowser => OpeningFeeds(s);
    case _ => SetupKeepsOpening(s, e);
  }

  // ---- server to browser ----

  lemma GrantIsSmall(p: Policy, remaining: int)
    ensures 0 <= GrantOf(p, remaining) <= 1
    ensures p.Coupled? ==> GrantOf(p, remaining) == 1
  {
    match p
    case Coupled(c) => CouplingGrantIsOne(remaining, true, c);
    case Bare(c) => GrantBounds(c, remaining, 1);
  }

  lemma DownKeepsLinks(policy: Policy, s: State, e: DownStep)
    requires Links(s) && DownEnabled(s, e)
    ensures Links(DownNext(policy, s, e))
  {
    match e
    case PassGate =>
    case ReadTcp => TakeKeeps(s.tcp, InPipe(s.pipe, Tcp), 4, READ_SIZE);
    case WriteFrame => CreditKeeps(s.embed, InPipe(s.pipe, Embed), 8, s.embed.cred - 1);
    case GrantTcp =>
      GrantIsSmall(policy, s.embed.cred);
      ReturnKeeps(s.tcp, InPipe(s.pipe, Tcp), 4, GrantOf(policy, s.embed.cred));
  }

  lemma DownKeepsBytes(policy: Policy, s: State, e: DownStep)
    requires DownBytes(s.down, s.tcp.taken) && DownEnabled(s, e) && (e.ReadTcp? ==> TakesWell(s.tcp, READ_SIZE))
    ensures var s' := DownNext(policy, s, e); DownBytes(s'.down, s'.tcp.taken)
  {
    if e.WriteFrame? {
      var (b, rest) := TakeFrom(s.down.pc.rest, EMBED_MAX_PAYLOAD);
      Assoc(s.down.greeted + s.down.relayed, b, rest);
      Assoc(s.down.greeted, s.down.relayed, b);
    }
  }

  lemma DownKeepsTcp(policy: Policy, s: State, e: DownStep)
    requires TcpLaw(s.tcp, s.down) && DownEnabled(s, e) && (e.ReadTcp? ==> TakesWell(s.tcp, READ_SIZE))
    ensures var s' := DownNext(policy, s, e); TcpLaw(s'.tcp, s'.down)
  {
    if e.GrantTcp? {
      GrantIsSmall(policy, s.embed.cred);
    }
  }

  lemma DownKeepsLaws(cfg: Config, s: State, e: DownStep)
    requires Laws(cfg, s) && DownEnabled(s, e) && (e.ReadTcp? ==> TakesWell(s.tcp, READ_SIZE))
    ensures Laws(cfg, DownNext(cfg.policy, s, e))
  {
    DownKeepsBytes(cfg.policy, s, e);
    DownKeepsTcp(cfg.policy, s, e);
  }

  // ---- browser to server ----

  lemma UpKeepsLinks(readOnly: bool, s: State, e: UpStep)
    requires Links(s) && UpEnabled(s, e)
    ensures Links(UpNext(readOnly, s, e))
  {
    match e
    case ReadInit => TakeKeeps(s.embed, InPipe(s.pipe, Embed), 8, 1);
    case ReadPart => TakeKeeps(s.embed, InPipe(s.pipe, Embed), 8, Missing(s.up.pc.part));
    case WriteInit => CreditKeeps(s.tcp, InPipe(s.pipe, Tcp), 4, s.tcp.cred - 1);
    case WritePart => CreditKeeps(s.tcp, InPipe(s.pipe, Tcp), 4, s.tcp.cred - 1);
    case GrantEmbed => ReturnKeeps(s.embed, InPipe(s.pipe, Embed), 8, 1);
    case Finish =>
  }

  lemma UpKeepsRest(cfg: Config, s: State, e: UpStep)
    requires Laws(cfg, s) && UpEnabled(s, e)
    ensures var s' := UpNext(cfg.readOnly, s, e);
            TcpLaw(s'.tcp, s'.down) && DownBytes(s'.down, s'.tcp.taken)
                && OpeningBytes(s'.down.pc, s'.up.pc, s'.embed.taken)
  {
  }

  lemma InitRead(u: Up, l: Link, readOnly: bool)
    requires HasBytes(l) && TakesWell(l, 1) && UpLaw(u, l.taken, l.granted, readOnly) && u.pc == AwaitInit
    ensures var (b, l') := Take(l, 1); UpLaw(u.(pc := SendInit(b)), l'.taken, l'.granted, readOnly)
  {
    var (b, l') := Take(l, 1);
    assert l'.taken[OPENING..] == b && l'.taken[PREAMBLE..] == [];
  }

  lemma PartRead(u: Up, taken: seq<byte>, granted: int, b: seq<byte>, readOnly: bool)
    requires UpLaw(u, taken, granted, readOnly) && u.pc.Collecting? && 0 < |b| <= Missing(u.pc.part)
    ensures UpLaw(u.(pc := Collecting(u.pc.part + b)), taken + b, granted, readOnly)
  {
    PieceKeepsGrowing(u.pc.part, b);
    assert (taken + b)[PREAMBLE..] == taken[PREAMBLE..] + b;
    Assoc(SerializeAll(u.msgs), u.pc.part, b);
  }

  lemma UpReads(cfg: Config, s: State, e: UpStep)
    requires UpLaw(s.up, s.embed.taken, s.embed.granted, cfg.readOnly) && UpEnabled(s, e)
    requires (e.ReadInit? && TakesWell(s.embed, 1)) || (e.ReadPart? && TakesWell(s.embed, Missing(s.up.pc.part)))
    ensures var s' := UpNext(cfg.readOnly, s, e); UpLaw(s'.up, s'.embed.taken, s'.embed.granted, cfg.readOnly)
  {
    if e.ReadInit? {
      InitRead(s.up, s.embed, cfg.readOnly);
    } else {
      PartRead(s.up, s.embed.taken, s.embed.granted, Take(s.embed, Missing(s.up.pc.part)).0, cfg.readOnly);
    }
  }

  /** One more whole message. */
  lemma OneMoreGot(taken: seq<byte>, msgs: seq<Message>, part: seq<byte>)
    requires Got(taken, msgs, part) && Whole(part)
    ensures Got(taken, msgs + [Message(part[0], part[1..])], [])
  {
    var m := Message(part[0], part[1..]);
    Filter.SerializeAppend(msgs, [m]);
    assert SerializeAll([m]) == Serialize(m) + [] && Serialize(m) == part;
    assert SerializeAll(msgs + [m]) + [] == SerializeAll(msgs) + part;
  }

  lemma OneMoreKept(taken: seq<byte>, msgs: seq<Message>, m: Message, readOnly: bool)
    requires |taken| >= PREAMBLE
    ensures Kept(taken, msgs + [m], readOnly) == Kept(taken, msgs, readOnly) + Filter.Contribution(m, readOnly)
  {
    Filter.KeepAppend(msgs, [m], readOnly);
    Filter.SerializeAppend(Filter.Keep(msgs, readOnly), Filter.Keep([m], readOnly));
    assert SerializeAll([m]) == Serialize(m) + [];
    assert SerializeAll(Filter.Keep([m], readOnly)) == Filter.Contribution(m, readOnly);
    Assoc([taken[OPENING]], SerializeAll(Filter.Keep(msgs, readOnly)), Filter.Contribution(m, readOnly));
  }

  lemma OneMore(taken: seq<byte>, msgs: seq<Message>, part: seq<byte>, readOnly: bool)
    requires Got(taken, msgs, part) && Whole(part)
    ensures var m := Message(part[0], part[1..]);
            && Got(taken, msgs + [m], [])
            && Kept(taken, msgs + [m], readOnly)
               == Kept(taken, msgs, readOnly) + if Filter.Decide(m, readOnly) == Filter.Forward then part else []
  {
    var m := Message(part[0], part[1..]);
    assert Serialize(m) == part;
    OneMoreGot(taken, msgs, part);
    OneMoreKept(taken, msgs, m, readOnly);
  }

  lemma UpMoves(cfg: Config, s: State, e: UpStep)
    requires UpLaw(s.up, s.embed.taken, s.embed.granted, cfg.readOnly) && UpEnabled(s, e) && !e.ReadInit?
        && !e.ReadPart?
    ensures var s' := UpNext(cfg.readOnly, s, e); UpLaw(s'.up, s'.embed.taken, s'.embed.granted, cfg.readOnly)
  {
    match e
    case Finish => OneMore(s.embed.taken, s.up.msgs, s.up.pc.part, cfg.readOnly);
    case WritePart =>
      var (b, rest) := TakeFrom(s.up.pc.rest, TCP_MAX_PAYLOAD);
      Assoc(s.up.forwarded, b, rest);
    case _ =>
  }

  lemma UpKeepsLaws(cfg: Config, s: State, e: UpStep)
    requires Links(s) && Laws(cfg, s) && UpEnabled(s, e)
    ensures Laws(cfg, UpNext(cfg.readOnly, s, e))
  {
    UpKeepsRest(cfg, s, e);
    if e.ReadInit? || e.ReadPart? {
      TakeKeeps(s.embed, InPipe(s.pipe, Embed), 8, if e.ReadInit? then 1 else Missing(s.up.pc.part));
      UpReads(cfg, s, e);
    } else {
      UpMoves(cfg, s, e);
    }
  }

  // ---- endings ----

  lemma DropKeepsLinks(s: State)
    requires Links(s) && EndEnabled(s, DropData)
    ensures Links(EndNext(s, DropData))
  {
    var f, t, e := s.pipe[0].frame, InPipe(s.pipe[1..], Tcp), InPipe(s.pipe[1..], Embed);
    assert ([f] + t)[1..] == t && ([f] + e)[1..] == e && [] + t == t && [] + e == e;
    if s.pipe[0].port == Tcp {
      CloseKeeps(s.tcp, [f] + t, 4);
    } else {
      CloseKeeps(s.embed, [f] + e, 8);
    }
  }

  lemma PortEndKeepsLinks(s: State, e: EndStep)
    requires Links(s) && EndEnabled(s, e) && (e.Close? || e.Sever? || e.PumpExit?)
    ensures Links(EndNext(s, e))
  {
    if e.port == Tcp {
      CloseKeeps(s.tcp, InPipe(s.pipe, Tcp), 4);
    } else {
      CloseKeeps(s.embed, InPipe(s.pipe, Embed), 8);
    }
  }

  lemma EndKeepsLinks(s: State, e: EndStep)
    requires Links(s) && EndEnabled(s, e)
    ensures Links(EndNext(s, e))
  {
    match e
    case DropData => DropKeepsLinks(s);
    case EndDown(_) =>
    case EndUp(_) =>
    case LateDown =>
    case LateUp =>
    case _ => PortEndKeepsLinks(s, e);
  }

  lemma EndKeepsTcp(s: State, e: EndStep)
    requires TcpLaw(s.tcp, s.down) && EndEnabled(s, e)
    ensures var s' := EndNext(s, e); TcpLaw(s'.tcp, s'.down)
  {
  }

  lemma EndKeepsOpening(s: State, e: EndStep)
    requires OpeningBytes(s.down.pc, s.up.pc, s.embed.taken) && EndEnabled(s, e)
    ensures var s' := EndNext(s, e); OpeningBytes(s'.down.pc, s'.up.pc, s'.embed.taken)
  {
  }

  lemma EndKeepsDown(s: State, e: EndStep)
    requires DownBytes(s.down, s.tcp.taken) && EndEnabled(s, e)
    ensures var s' := EndNext(s, e); DownBytes(s'.down, s'.tcp.taken)
  {
    match e
    case EndDown(late) =>
      assert (s.down.greeted + s.down.relayed) + [] == s.down.greeted + s.down.relayed;
      if s.down.pc.Writing? {
        var (b, rest) := TakeFrom(s.down.pc.rest, EMBED_MAX_PAYLOAD);
        Assoc(s.down.greeted + s.down.relayed, b, rest);
      }
    case LateDown => Assoc(s.down.greeted, s.down.relayed, s.down.pc.late);
    case _ =>
  }

  /** What the up pump has taken whole are the first messages of the browser's stream, and the bytes they
      amount to are the first the server is meant to get. */
  lemma GotMeaning(taken: seq<byte>, msgs: seq<Message>, part: seq<byte>, readOnly: bool)
    requires Got(taken, msgs, part)
    ensures |msgs| <= Messages(taken)
    ensures Kept(taken, msgs, readOnly) <= Filter.PumpOutput(taken[OPENING..], readOnly)
    ensures ParseOne(part, Eof).Failed? ==> Filter.PumpOutput(taken[OPENING..], readOnly) == Kept(taken, msgs, readOnly)
  {
    var bytes := taken[PREAMBLE..];
    assert taken[OPENING..][1..] == bytes;
    UniqueDecoding(msgs, part, Eof);
    var all := ParseAll(bytes, Eof).msgs;
    var more := all[|msgs|..];
    assert all == msgs + more;
    Filter.KeepAppend(msgs, more, readOnly);
    Filter.SerializeAppend(Filter.Keep(msgs, readOnly), Filter.Keep(more, readOnly));
    Assoc([taken[OPENING]], SerializeAll(Filter.Keep(msgs, readOnly)), SerializeAll(Filter.Keep(more, readOnly)));
  }

  lemma UpEnds(u: Up, taken: seq<byte>, granted: int, readOnly: bool)
    requires UpLaw(u, taken, granted, readOnly) && !u.pc.NotYet? && !u.pc.UpStopped?
    ensures UpLaw(u.(pc := UpStopped([])), taken, granted, readOnly)
    ensures UpLaw(u.(pc := UpStopped(UpLate(u.pc))), taken, granted, readOnly)
  {
    assert u.forwarded + [] == u.forwarded;
    if u.pc.SendInit? {
      GotMeaning(taken, [], [], readOnly);
      assert u.pc.init == [taken[OPENING]] <= Kept(taken, [], readOnly);
    } else if u.pc.Collecting? {
      GotMeaning(taken, u.msgs, u.pc.part, readOnly);
    } else if u.pc.Forwarding? || u.pc.Returning? {
      GotMeaning(taken, u.msgs, [], readOnly);
      if u.pc.Forwarding? {
        var (b, rest) := TakeFrom(u.pc.rest, TCP_MAX_PAYLOAD);
        Assoc(u.forwarded, b, rest);
      }
    }
  }

  lemma EndKeepsUp(cfg: Config, s: State, e: EndStep)
    requires UpLaw(s.up, s.embed.taken, s.embed.granted, cfg.readOnly) && EndEnabled(s, e)
    ensures var s' := EndNext(s, e); UpLaw(s'.up, s'.embed.taken, s'.embed.granted, cfg.readOnly)
  {
    match e
    case EndUp(_) => UpEnds(s.up, s.embed.taken, s.embed.granted, cfg.readOnly);
    case LateUp => assert (s.up.forwarded + s.up.pc.late) + [] == s.up.forwarded + s.up.pc.late;
    case _ =>
  }

  // ---- every step, every run ----

  lemma StepKeepsInv(cfg: Config, s: State, e: Event)
    requires Inv(cfg, s) && Enabled(s, e)
    ensures Inv(cfg, Next(cfg, s, e))
  {
    match e
    case Host(e') =>
      HostKeepsLinks(s, e');
      HostKeepsLaws(cfg, s, e');
    case Deliver =>
      DeliverKeepsLinks(s);
      DeliverKeepsLaws(cfg, s);
    case ReadPump(p) =>
      ReadPumpKeepsLinks(s, p);
      ReadPumpKeepsLaws(cfg, s, p);
    case SetUp(e') =>
      SetupKeepsLinks(s, e');
      SetupKeepsLaws(cfg, s, e');
    case Downward(e') =>
      DownKeepsLinks(cfg.policy, s, e');
      if e'.ReadTcp? { TakeKeeps(s.tcp, InPipe(s.pipe, Tcp), 4, READ_SIZE); }
      DownKeepsLaws(cfg, s, e');
    case Upward(e') =>
      UpKeepsLinks(cfg.readOnly, s, e');
      UpKeepsLaws(cfg, s, e');
    case Ending(e') =>
      EndKeepsLinks(s, e');
      EndKeepsTcp(s, e');
      EndKeepsOpening(s, e');
      EndKeepsDown(s, e');
      EndKeepsUp(cfg, s, e');
  }

  lemma {:induction false} RunKeepsInv(cfg: Config, s: State, es: seq<Event>, s': State)
    requires Inv(cfg, s) && Reaches(cfg, s, es, s')
    ensures Inv(cfg, s')
    decreases |es|
  {
    if es != [] {
      StepKeepsInv(cfg, s, es[0]);
      RunKeepsInv(cfg, Next(cfg, s, es[0]), es[1..], s');
    }
  }

  ghost predicate Reachable(cfg: Config, s: State) {
    exists es :: Reaches(cfg, INIT, es, s)
  }

  lemma InitInv(cfg: Config)
    ensures Inv(cfg, INIT)
  {
    InitLinks();
    InitLaws();
  }

  lemma InitLinks()
    ensures Links(INIT)
  {
    assert Concat([]) == [];
    assert InPipe([], Tcp) == [] && InPipe([], Embed) == [];
    assert Empties([]) == 0 && LastLen([]) == 0;
  }

  lemma InitLaws()
    ensures TcpLaw(INIT.tcp, INIT.down) && DownBytes(INIT.down, INIT.tcp.taken)
    ensures OpeningBytes(INIT.down.pc, INIT.up.pc, INIT.embed.taken)
    ensures forall readOnly :: UpLaw(INIT.up, INIT.embed.taken, INIT.embed.granted, readOnly)
  {
  }

  /** The invariant holds in every reachable state. */
  lemma ReachableInv(cfg: Config, s: State)
    requires Reachable(cfg, s)
    ensures Inv(cfg, s)
  {
    var es :| Reaches(cfg, INIT, es, s);
    InitInv(cfg);
    RunKeepsInv(cfg, INIT, es, s);
  }

  lemma {:induction false} Join(cfg: Config, s: State, es: seq<Event>, m: State, es': seq<Event>, s': State)
    requires Reaches(cfg, s, es, m) && Reaches(cfg, m, es', s')
    ensures Reaches(cfg, s, es + es', s')
    decreases |es|
  {
    if es == [] {
      assert es + es' == es';
    } else {
      assert (es + es')[1..] == es[1..] + es' && (es + es')[0] == es[0];
      Join(cfg, Next(cfg, s, es[0]), es[1..], m, es', s');
    }
  }

  lemma ReachableNext(cfg: Config, s: State, e: Event)
    requires Reachable(cfg, s) && Enabled(s, e)
    ensures Reachable(cfg, Next(cfg, s, e))
  {
    var es :| Reaches(cfg, INIT, es, s);
    var s' := Next(cfg, s, e);
    assert Reaches(cfg, s, [e], s');
    Join(cfg, INIT, es, s, [e], s');
  }
}
