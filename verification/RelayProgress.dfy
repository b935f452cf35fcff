/** The relay never locks up by itself: under every schedule the plugin's own steps come to an end, and only
    where everything the host wrote has been delivered and each goroutine waits for the host. */
module RelayProgress {
  import opened Bytes
  import opened RelayLink
  import opened Pacing
  import opened ClientMessage
  import opened Relay
  import opened RelayInvariant
  import opened RelayWindow
  import Hs = RfbHandshake
  import Filter = ReadOnlyFilter

  predicate Live(l: Link) {
    !l.closed && !l.done && !l.gone && !l.lost
  }

  /** Connecting or relaying: nothing is being closed and neither goroutine has returned. */
  predicate Going(s: State) {
    !s.down.pc.Stopped? && !s.up.pc.UpStopped? && Live(s.tcp) && Live(s.embed)
  }

  /** A step of the plugin itself. */
  predicate Plugin(e: Event) {
    e.Deliver? || e.ReadPump? || e.SetUp? || e.Downward? || e.Upward?
  }

  /** Or something the host gives without sending data: credit, or the end of backpressure. */
  predicate Helps(e: Event) {
    Plugin(e) || (e.Host? && (e.host.Credit? || e.host == Backpressure(false)))
  }

  // ---- the work there is ----

  function PipeWork(pipe: seq<Item>): nat {
    if pipe == [] then 0 else (if pipe[0].Data? then 2 + 5 * |pipe[0].frame| else 1) + PipeWork(pipe[1..])
  }

  /** Bytes that have been delivered and not been taken by a Read. */
  function LeftIn(l: Link): nat {
    |l.readBuf| + (if l.hand.Some? then |l.hand.value| else 0) + |Concat(l.queue)|
  }

  function LinkWork(l: Link): nat {
    5 * LeftIn(l) + |l.queue|
  }

  function DownWork(pc: DownPc): nat {
    match pc
    case Greeting(c, _) => 20 + c.Rank()
    case Fronting(f, _) => 8 + f.Rank()
    case Writing(rest) => 4 * |rest|
    case Granting => 3
    case AtGate => 2
    case Reading => 1
    case Stopped(_) => 0
  }

  function UpWork(pc: UpPc): nat {
    match pc
    case SendInit(_) => 1
    case Collecting(part) => 3 * |part|
    case Forwarding(rest) => |rest| + 1
    case Returning => 1
    case _ => 0
  }

  /** Bounds the plugin's steps from here on, as long as the host writes nothing. */
  function Work(s: State): nat {
    PipeWork(s.pipe) + LinkWork(s.tcp) + LinkWork(s.embed) + DownWork(s.down.pc) + UpWork(s.up.pc)
  }

  lemma TakeWorks(l: Link, max: nat)
    requires HasBytes(l) && l.hand != Some([]) && max > 0
    ensures var (b, l') := Take(l, max); b != [] && LinkWork(l') == LinkWork(l) - 5 * |b|
  {
  }

  lemma PumpWorks(l: Link)
    requires CanPump(l)
    ensures LinkWork(PumpOne(l)) < LinkWork(l)
  {
    ConcatTail(l.queue);
  }

  lemma DeliveryWorks(s: State)
    requires CanDeliver(s)
    ensures Work(DeliverNext(s)) < Work(s)
  {
    if s.pipe[0].Data? {
      ConcatSnoc(LinkOf(s, s.pipe[0].port).queue, s.pipe[0].frame);
    }
  }

  lemma ReadPumpWorks(s: State, p: Port)
    requires CanPump(LinkOf(s, p))
    ensures Work(ReadPumpNext(s, p)) < Work(s)
  {
    PumpWorks(LinkOf(s, p));
  }

  lemma FeedWorks(c: Hs.Client, b: seq<byte>)
    requires c.Need() == Some(|b|)
    ensures c.Feed(b).Rank() < c.Rank()
  {
  }

  lemma FrontFeedWorks(f: Hs.Server, b: seq<byte>)
    requires f.Need() == Some(|b|)
    ensures f.Feed(b).Rank() < f.Rank()
  {
  }

  lemma SetupReadWorks(s: State)
    requires s.tcp.hand != Some([]) && s.embed.hand != Some([])
    ensures WantsServer(s.down.pc) > 0 && HasBytes(s.tcp) ==> Work(ReadServerNext(s)) < Work(s)
    ensures WantsBrowser(s.down.pc) > 0 && HasBytes(s.embed) ==> Work(ReadBrowserNext(s)) < Work(s)
  {
    if WantsServer(s.down.pc) > 0 && HasBytes(s.tcp) {
      TakeWorks(s.tcp, WantsServer(s.down.pc));
    }
    if WantsBrowser(s.down.pc) > 0 && HasBytes(s.embed) {
      TakeWorks(s.embed, WantsBrowser(s.down.pc));
    }
  }

  lemma SetupWorks(s: State, e: SetupStep)
    requires SetupEnabled(s, e) && s.tcp.hand != Some([]) && s.embed.hand != Some([])
    requires OpeningBytes(s.down.pc, s.up.pc, s.embed.taken)
    ensures Work(SetupNext(s, e)) < Work(s)
  {
    match e
    case ReadServer => SetupReadWorks(s);
    case ReadBrowser => SetupReadWorks(s);
    case FeedServer => FeedWorks(s.down.pc.c, s.down.pc.buf);
    case FeedBrowser => FrontFeedWorks(s.down.pc.f, s.down.pc.buf);
    case _ =>
  }

  lemma DownWorks(policy: Policy, s: State, e: DownStep)
    requires DownEnabled(s, e) && s.tcp.hand != Some([]) && s.down.pc != Writing([])
    ensures Work(DownNext(policy, s, e)) < Work(s)
  {
    if e.ReadTcp? {
      TakeWorks(s.tcp, READ_SIZE);
    }
  }

  lemma UpWorks(readOnly: bool, s: State, e: UpStep)
    requires UpEnabled(s, e) && s.embed.hand != Some([]) && s.up.pc != Forwarding([])
    ensures Work(UpNext(readOnly, s, e)) < Work(s)
  {
    if e.ReadInit? {
      TakeWorks(s.embed, 1);
    } else if e.ReadPart? {
      TakeWorks(s.embed, Missing(s.up.pc.part));
    }
  }

  lemma NothingEmpty(cfg: Config, s: State)
    requires Reachable(cfg, s)
    ensures s.tcp.hand != Some([]) && s.embed.hand != Some([])
    ensures s.down.pc != Writing([]) && s.up.pc != Forwarding([])
    ensures OpeningBytes(s.down.pc, s.up.pc, s.embed.taken)
  {
    ReachableInv(cfg, s);
  }

  lemma StepWorks(cfg: Config, s: State, e: Event)
    requires Reachable(cfg, s) && Plugin(e) && Enabled(s, e)
    ensures Work(Next(cfg, s, e)) < Work(s)
  {
    NothingEmpty(cfg, s);
    match e
    case Deliver => DeliveryWorks(s);
    case ReadPump(p) => ReadPumpWorks(s, p);
    case SetUp(e') => SetupWorks(s, e');
    case Downward(e') => DownWorks(cfg.policy, s, e');
    case Upward(e') => UpWorks(cfg.readOnly, s, e');
  }

  /** From every reachable state, and under every schedule, the plugin takes at most Work steps before it
      needs the host again. */
  lemma {:induction false} EveryScheduleEnds(cfg: Config, s: State, es: seq<Event>, s': State)
    requires Reachable(cfg, s) && Reaches(cfg, s, es, s') && forall e :: e in es ==> Plugin(e)
    ensures |es| + Work(s') <= Work(s)
    decreases |es|
  {
    if es != [] {
      assert es == [es[0]] + es[1..];
      StepWorks(cfg, s, es[0]);
      ReachableNext(cfg, s, es[0]);
      EveryScheduleEnds(cfg, Next(cfg, s, es[0]), es[1..], s');
    }
  }

  // ---- where it ends ----

  /** No step of the plugin is left. */
  ghost predicate AtRest(s: State) {
    forall e :: Plugin(e) ==> !Enabled(s, e)
  }

  predicate NothingHere(l: Link) {
    l.queue == [] && !HasBytes(l)
  }

  /** The downward goroutine is about to return an error: its handshake was refused. */
  predicate DownRefuses(pc: DownPc) {
    (pc.Greeting? && pc.c.Refused?) || (pc.Fronting? && pc.f.Declined?)
  }

  /** It waits for credit, or for the end of backpressure. */
  predicate DownWantsCredit(s: State) {
    || (s.down.pc.Greeting? && s.down.pc.c.Sending() && s.tcp.cred == 0)
    || (s.down.pc.Fronting? && s.down.pc.f.Sending() && s.embed.cred == 0)
    || (s.down.pc.Writing? && s.embed.cred == 0) || (s.down.pc == AtGate && s.gated)
  }

  predicate DownWantsBytes(s: State) {
    || ((WantsServer(s.down.pc) > 0 || s.down.pc == Reading) && NothingHere(s.tcp))
    || (WantsBrowser(s.down.pc) > 0 && NothingHere(s.embed))
  }

  /** The upward pump has found a message it refuses, and is about to return the error. */
  predicate Refuses(pc: UpPc) {
    pc.Collecting? && Missing(pc.part) == 0 && !Whole(pc.part)
  }

  predicate UpWantsCredit(s: State) {
    (s.up.pc.SendInit? || s.up.pc.Forwarding?) && s.tcp.cred == 0
  }

  predicate UpWantsBytes(s: State) {
    (s.up.pc == AwaitInit || (s.up.pc.Collecting? && Missing(s.up.pc.part) > 0)) && NothingHere(s.embed)
  }

  /** Everything the host wrote has been delivered, or what is left waits for an upward pump that is about
      to end the relay. */
  predicate Delivered(s: State) {
    s.pipe == [] || (s.pipe[0].Data? && s.pipe[0].port == Embed && Refuses(s.up.pc))
  }

  lemma RestsDown(s: State)
    requires AtRest(s) && Going(s) && OpeningBytes(s.down.pc, s.up.pc, s.embed.taken)
    ensures DownWantsCredit(s) || DownWantsBytes(s) || DownRefuses(s.down.pc)
  {
    assert !Enabled(s, ReadPump(Tcp)) && !Enabled(s, ReadPump(Embed)) && !Enabled(s, Downward(GrantTcp));
    match s.down.pc
    case Greeting(c, buf) =>
      assert !Enabled(s, SetUp(ReadServer)) && !Enabled(s, SetUp(FeedServer));
      assert !Enabled(s, SetUp(WriteServer)) && !Enabled(s, SetUp(Batch));
    case Fronting(f, buf) =>
      assert !Enabled(s, SetUp(ReadBrowser)) && !Enabled(s, SetUp(FeedBrowser));
      assert !Enabled(s, SetUp(WriteBrowser)) && !Enabled(s, SetUp(Start));
    case AtGate => assert !Enabled(s, Downward(PassGate));
    case Reading => assert !Enabled(s, Downward(ReadTcp));
    case Writing(_) => assert !Enabled(s, Downward(WriteFrame));
  }

  lemma RestsUp(s: State)
    requires AtRest(s) && Going(s)
    ensures s.up.pc.NotYet? || UpWantsCredit(s) || UpWantsBytes(s) || Refuses(s.up.pc)
  {
    assert !Enabled(s, ReadPump(Embed)) && !Enabled(s, Upward(GrantEmbed));
    match s.up.pc
    case NotYet =>
    case AwaitInit => assert !Enabled(s, Upward(ReadInit));
    case SendInit(_) => assert !Enabled(s, Upward(WriteInit));
    case Collecting(_) => assert !Enabled(s, Upward(ReadPart)) && !Enabled(s, Upward(Finish));
    case Forwarding(_) => assert !Enabled(s, Upward(WritePart));
  }

  /** How far a browser may run ahead for all of this: one message short of a deadlock. */
  const SAFE_SLACK: nat := 58

  /** A whole message in hand counts for the pace before it counts for the credit. */
  lemma WholeCounts(cfg: Config, s: State)
    requires Inv(cfg, s) && !s.embed.lost && Paced(s.embed.sent, SAFE_SLACK)
    requires s.up.pc.Collecting? && Whole(s.up.pc.part)
    ensures Ahead(s.embed, InPipe(s.pipe, Embed)) <= 65
  {
    var m := Message(s.up.pc.part[0], s.up.pc.part[1..]);
    OneMoreGot(s.embed.taken, s.up.msgs, s.up.pc.part);
    GotMeaning(s.embed.taken, s.up.msgs + [m], [], cfg.readOnly);
    LinkPrefix(s.embed, InPipe(s.pipe, Embed), 8);
    var k := |s.embed.moved|;
    assert s.embed.sent[..k] == s.embed.moved;
    MessagesMonotone(s.embed.taken, Concat(s.embed.moved));
  }

  lemma FarAhead(cfg: Config, s: State)
    requires Inv(cfg, s) && Going(s) && Paced(s.embed.sent, SAFE_SLACK)
    requires Ahead(s.embed, InPipe(s.pipe, Embed)) >= 66
    ensures s.up.pc.Collecting? && !Whole(s.up.pc.part)
  {
    EmbedAhead(cfg, s, SAFE_SLACK);
    if s.up.pc.Collecting? && Whole(s.up.pc.part) {
      WholeCounts(cfg, s);
    }
  }

  lemma BlockedCounts(s: State, p: Port)
    requires !CanDeliver(s) && s.pipe != [] && s.pipe[0].Data? && s.pipe[0].port == p
    requires !CanPump(LinkOf(s, p)) && Live(LinkOf(s, p))
    ensures Ahead(LinkOf(s, p), InPipe(s.pipe, p)) >= 66 && LinkOf(s, p).hand.Some?
  {
    assert InPipe(s.pipe, p)[0] == s.pipe[0].frame;
  }

  lemma TcpNeverBlocks(cfg: Config, s: State)
    requires Inv(cfg, s) && Going(s) && FramesUpTo(s.tcp.sent, READ_SIZE)
    requires !CanDeliver(s) && s.pipe != [] && !CanPump(s.tcp)
    ensures s.pipe[0].Data? && s.pipe[0].port == Embed
  {
    TcpAhead(cfg, s);
    if s.pipe[0].port == Tcp {
      BlockedCounts(s, Tcp);
    }
  }

  lemma RestFacts(s: State)
    requires AtRest(s)
    ensures !CanDeliver(s) && !CanPump(s.tcp) && !CanPump(s.embed) && !UpEnabled(s, ReadPart)
  {
    assert !Enabled(s, Deliver) && !Enabled(s, ReadPump(Tcp)) && !Enabled(s, ReadPump(Embed));
    assert !Enabled(s, Upward(ReadPart));
  }

  lemma RestDelivers(cfg: Config, s: State)
    requires Inv(cfg, s) && Going(s)
    requires !CanDeliver(s) && !CanPump(s.tcp) && !CanPump(s.embed) && !UpEnabled(s, ReadPart)
    requires FramesUpTo(s.tcp.sent, READ_SIZE) && Paced(s.embed.sent, SAFE_SLACK)
    ensures Delivered(s) && (Paced(s.embed.sent, SAFE_SLACK - 1) ==> s.pipe == [])
  {
    if s.pipe != [] {
      TcpNeverBlocks(cfg, s);
      BlockedCounts(s, Embed);
      FarAhead(cfg, s);
      if Paced(s.embed.sent, SAFE_SLACK - 1) {
        EmbedAhead(cfg, s, SAFE_SLACK - 1);
      }
    }
  }

  /** Deadlock freedom, in every phase: the plugin comes to rest only with everything delivered, each
      goroutine waiting for the host or about to return an error; in particular nobody waits for anything
      stuck behind a full queue. */
  lemma NoDeadlock(cfg: Config, s: State)
    requires Reachable(cfg, s) && Going(s) && AtRest(s)
    requires FramesUpTo(s.tcp.sent, 32768) && Paced(s.embed.sent, 58)
    ensures Delivered(s) && (Paced(s.embed.sent, 57) ==> s.pipe == [])
    ensures DownWantsCredit(s) || DownWantsBytes(s) || DownRefuses(s.down.pc)
    ensures s.up.pc.NotYet? || UpWantsCredit(s) || UpWantsBytes(s) || Refuses(s.up.pc)
  {
    ReachableInv(cfg, s);
    RestFacts(s);
    RestDelivers(cfg, s);
    RestsDown(s);
    RestsUp(s);
  }

  // ---- what has got through by then ----

  /** A pump that waits for the server's bytes has relayed all of them. */
  lemma ServerDone(cfg: Config, s: State)
    requires Inv(cfg, s) && Going(s) && s.pipe == [] && s.down.pc == Reading && NothingHere(s.tcp)
    ensures s.down.greeted <= Concat(s.tcp.sent) && s.down.relayed == Concat(s.tcp.sent)[|s.down.greeted|..]
  {
    assert HandSeq(s.tcp) + s.tcp.queue + InPipe(s.pipe, Tcp) == [];
    assert Waiting(s.tcp, InPipe(s.pipe, Tcp)) == [];
    DownMeaning(s);
    assert s.down.relayed + ([] + []) == s.down.relayed;
  }

  /** Bytes after a part that lacks some, or after one that is refused, add no message. */
  lemma NoMoreMessages(taken: seq<byte>, u: Up, granted: int, w: seq<byte>, readOnly: bool)
    requires UpLaw(u, taken, granted, readOnly) && u.pc.Collecting?
    requires if Missing(u.pc.part) > 0 then w == [] else !Whole(u.pc.part)
    ensures u.forwarded == Filter.PumpOutput((taken + w)[OPENING..], readOnly)
  {
    var all, part := taken + w, u.pc.part;
    assert all[PREAMBLE..] == taken[PREAMBLE..] + w;
    Assoc(SerializeAll(u.msgs), part, w);
    if Missing(part) > 0 {
      assert part + w == part;
      PartFails(part);
    } else {
      WholeOrRefused(part, w);
    }
    GotMeaning(all, u.msgs, part + w, readOnly);
  }

  /** A pump that waits for the browser's bytes, or refuses a message, has forwarded all there was to. */
  lemma BrowserDone(cfg: Config, s: State)
    requires Inv(cfg, s) && Going(s) && (UpWantsBytes(s) || Refuses(s.up.pc)) && (s.pipe == [] || Refuses(s.up.pc))
    ensures |Concat(s.embed.sent)| >= OPENING
    ensures s.up.forwarded == Filter.PumpOutput(Concat(s.embed.sent)[OPENING..], cfg.readOnly)
  {
    LinkMeaning(s.embed, InPipe(s.pipe, Embed), 8);
    if s.pipe == [] && NothingHere(s.embed) {
      assert HandSeq(s.embed) + s.embed.queue + InPipe(s.pipe, Embed) == [];
      assert Waiting(s.embed, InPipe(s.pipe, Embed)) == [];
    }
    if s.up.pc.Collecting? {
      NoMoreMessages(s.embed.taken, s.up, s.embed.granted, Waiting(s.embed, InPipe(s.pipe, Embed)), cfg.readOnly);
    }
  }

  /** Whatever the schedule: when the plugin comes to rest and is not short of credit or held at the gate,
      the browser has every byte the server sent after the handshake and the server has ClientInit and
      every kept message of what the browser sent, as far as either pump was running. */
  lemma RestIsComplete(cfg: Config, s: State)
    requires Reachable(cfg, s) && Going(s) && AtRest(s) && s.pipe == []
    ensures s.down.pc == Reading ==>
              && s.down.greeted <= Concat(s.tcp.sent)
              && s.down.relayed == Concat(s.tcp.sent)[|s.down.greeted|..]
    ensures !s.up.pc.NotYet? && !UpWantsCredit(s) ==>
              && |Concat(s.embed.sent)| >= OPENING
              && s.up.forwarded == Filter.PumpOutput(Concat(s.embed.sent)[OPENING..], cfg.readOnly)
  {
    ReachableInv(cfg, s);
    RestsUp(s);
    if s.down.pc == Reading {
      RestsDown(s);
      ServerDone(cfg, s);
    }
    if !s.up.pc.NotYet? && !UpWantsCredit(s) {
      BrowserDone(cfg, s);
    }
  }

  // ---- with the host's help ----

  ghost predicate Helped(cfg: Config, s: State, es: seq<Event>, s': State) {
    && Reaches(cfg, s, es, s') && Reachable(cfg, s') && Going(s') && (forall e :: e in es ==> Helps(e))
    && s'.tcp.sent == s.tcp.sent && s'.embed.sent == s.embed.sent
  }

  lemma PluginKeepsGoing(cfg: Config, s: State, e: Event)
    requires Going(s) && Enabled(s, e) && Plugin(e)
    ensures var s' := Next(cfg, s, e); Going(s') && s'.tcp.sent == s.tcp.sent && s'.embed.sent == s.embed.sent
  {
    match e
    case Deliver =>
    case ReadPump(_) =>
    case SetUp(e') => SetupKeepsGoing(s, e');
    case Downward(e') => DownKeepsGoing(cfg.policy, s, e');
    case Upward(e') => UpKeepsGoing(cfg.readOnly, s, e');
  }

  lemma SetupKeepsGoing(s: State, e: SetupStep)
    requires Going(s) && SetupEnabled(s, e)
    ensures var s' := SetupNext(s, e); Going(s') && s'.tcp.sent == s.tcp.sent && s'.embed.sent == s.embed.sent
  {
  }

  lemma DownKeepsGoing(policy: Policy, s: State, e: DownStep)
    requires Going(s) && DownEnabled(s, e)
    ensures var s' := DownNext(policy, s, e); Going(s') && s'.tcp.sent == s.tcp.sent && s'.embed.sent == s.embed.sent
  {
  }

  lemma UpKeepsGoing(readOnly: bool, s: State, e: UpStep)
    requires Going(s) && UpEnabled(s, e)
    ensures var s' := UpNext(readOnly, s, e); Going(s') && s'.tcp.sent == s.tcp.sent && s'.embed.sent == s.embed.sent
  {
  }

  /** One helping step, as the end of a helped path. */
  lemma Then(cfg: Config, s: State, es: seq<Event>, m: State, e: Event)
    requires Helped(cfg, s, es, m) && Enabled(m, e) && Helps(e)
    ensures Helped(cfg, s, es + [e], Next(cfg, m, e))
  {
    ReachableNext(cfg, m, e);
    if Plugin(e) {
      PluginKeepsGoing(cfg, m, e);
    }
    assert Reaches(cfg, m, [e], Next(cfg, m, e));
    Join(cfg, s, es, m, [e], Next(cfg, m, e));
  }

  /** What the host can give to a plugin at rest, and the step that becomes possible. */
  lemma HelpFor(s: State) returns (h: HostStep, e: Event)
    requires Going(s) && s.pipe == [] && (DownWantsCredit(s) || UpWantsCredit(s))
    ensures (h.Credit? || h == Backpressure(false)) && Plugin(e)
    ensures CanDeliver(HostNext(s, h)) && Enabled(DeliverNext(HostNext(s, h)), e)
    ensures Work(DeliverNext(HostNext(s, h))) == Work(s)
  {
    if s.down.pc == AtGate && s.gated {
      h, e := Backpressure(false), Downward(PassGate);
    } else if s.down.pc.Writing? && s.embed.cred == 0 {
      h, e := Credit(Embed, 1), Downward(WriteFrame);
    } else if s.down.pc.Fronting? && s.down.pc.f.Sending() && s.embed.cred == 0 {
      h, e := Credit(Embed, 1), SetUp(WriteBrowser);
    } else if s.down.pc.Greeting? && s.down.pc.c.Sending() && s.tcp.cred == 0 {
      h, e := Credit(Tcp, 1), SetUp(WriteServer);
    } else {
      h, e := Credit(Tcp, 1), Upward(if s.up.pc.SendInit? then WriteInit else WritePart);
    }
  }

  /** Nothing the plugin or the host's credit could still move. */
  ghost predicate Settled(s: State) {
    AtRest(s) && (s.pipe == [] ==> !DownWantsCredit(s) && !UpWantsCredit(s))
  }

  lemma Settles(cfg: Config, s: State) returns (es: seq<Event>, s': State)
    requires Reachable(cfg, s) && Going(s)
    ensures Helped(cfg, s, es, s') && Settled(s')
    decreases Work(s)
  {
    es, s' := [], s;
    if exists e :: Plugin(e) && Enabled(s, e) {
      var e :| Plugin(e) && Enabled(s, e);
      StepWorks(cfg, s, e);
      es, s' := SettlesFrom(cfg, s, [], s, e);
    } else if s.pipe == [] && (DownWantsCredit(s) || UpWantsCredit(s)) {
      var before, m, e := Help(cfg, s);
      es, s' := SettlesFrom(cfg, s, before, m, e);
    }
  }

  lemma Help(cfg: Config, s: State) returns (before: seq<Event>, m: State, e: Event)
    requires Reachable(cfg, s) && Going(s) && s.pipe == [] && (DownWantsCredit(s) || UpWantsCredit(s))
    ensures Helped(cfg, s, before, m) && Plugin(e) && Enabled(m, e) && Work(Next(cfg, m, e)) < Work(s)
  {
    var h;
    h, e := HelpFor(s);
    var given := HostNext(s, h);
    Then(cfg, s, [], s, Host(h));
    Then(cfg, s, [Host(h)], given, Deliver);
    before, m := [Host(h)] + [Deliver], DeliverNext(given);
    StepWorks(cfg, m, e);
  }

  lemma SettlesFrom(cfg: Config, s: State, before: seq<Event>, m: State, e: Event) returns (es: seq<Event>, s': State)
    requires Helped(cfg, s, before, m) && Plugin(e) && Enabled(m, e) && Work(Next(cfg, m, e)) < Work(s)
    ensures Helped(cfg, s, es, s') && Settled(s')
    decreases Work(s), 0
  {
    Then(cfg, s, before, m, e);
    var n := Next(cfg, m, e);
    var after, last := Settles(cfg, n);
    Join(cfg, s, before + [e], n, after, last);
    es, s' := (before + [e]) + after, last;
  }

  /** Progress. From every reachable state, in a handshake or relaying, whatever it is in the middle of and
      with either direction out of credit or held at the gate, there is a continuation by the plugin's own
      steps, credit and a resume to a state in which no goroutine waits for anything but bytes the host has
      not sent, or for returning an error; the browser then has every byte the server sent after the
      handshake, and the server has ClientInit and every kept message the browser sent. */
  lemma CatchesUp(cfg: Config, s: State) returns (es: seq<Event>, s': State)
    requires Reachable(cfg, s) && Going(s)
    requires FramesUpTo(s.tcp.sent, 32768) && Paced(s.embed.sent, 58)
    ensures Reaches(cfg, s, es, s') && (forall e :: e in es ==> Helps(e)) && Delivered(s')
    ensures s'.tcp.sent == s.tcp.sent && s'.embed.sent == s.embed.sent
    ensures Paced(s.embed.sent, 57) ==> s'.pipe == []
    ensures s'.pipe == [] ==>
              && (DownWantsBytes(s') || DownRefuses(s'.down.pc))
              && (s'.down.pc == Reading ==> s'.down.greeted + s'.down.relayed == Concat(s.tcp.sent))
    ensures s'.pipe == [] && !s'.up.pc.NotYet? ==>
              && (UpWantsBytes(s') || Refuses(s'.up.pc)) && |Concat(s.embed.sent)| >= OPENING
              && s'.up.forwarded == Filter.PumpOutput(Concat(s.embed.sent)[OPENING..], cfg.readOnly)
  {
    es, s' := Settles(cfg, s);
    NoDeadlock(cfg, s');
    if s'.pipe == [] {
      RestIsComplete(cfg, s');
    }
  }
}
