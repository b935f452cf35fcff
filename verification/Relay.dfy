/** The running relay as one system of interleaved steps: the host, which sends only within its windows;
    the single read loop over stdin; the read pumps of both channels; the goroutine that runs the two
    handshakes and then becomes the server-to-browser pump; and the browser-to-server pump. */
module Relay {
  import opened Bytes
  import opened Stream
  import opened Coupling
  import opened RelayLink
  import opened Pacing
  import opened ClientMessage
  import Hs = RfbHandshake
  import Pump
  import Filter = ReadOnlyFilter

  const READ_SIZE: Positive := Pump.SERVER_TO_BROWSER_BUF
  const EMBED_MAX_PAYLOAD: nat := 64 * 1024
  const TCP_MAX_PAYLOAD: nat := 1024 * 1024

  datatype Port = Tcp | Embed

  /** What travels on stdin for this relay, in order. */
  datatype Item = Data(port: Port, frame: seq<byte>) | Grants(port: Port, n: nat) | Pressure(active: bool)

  /** The goroutine that runs doHandshakes and then pumpServerToBrowser. buf is what an unfinished
      io.ReadFull has collected; late is a chunk the write pump still holds after Write gave up. */
  datatype DownPc =
    | Greeting(c: Hs.Client, buf: seq<byte>)
    | Fronting(f: Hs.Server, buf: seq<byte>)
    | AtGate
    | Reading
    | Writing(rest: seq<byte>)
    | Granting
    | Stopped(late: seq<byte>)

  /** pumpBrowserToServer. */
  datatype UpPc =
    | NotYet
    | AwaitInit
    | SendInit(init: seq<byte>)
    | Collecting(part: seq<byte>)
    | Forwarding(rest: seq<byte>)
    | Returning
    | UpStopped(late: seq<byte>)

  /** The downward goroutine and what it did: bytes the server handshake took, tcp-relay frames it
      finished, bytes the pump wrote to embed-stream, pump reads that did not finish their frame, and pump
      grants that gave 0 instead of 1. */
  datatype Down = Down(
    pc: DownPc, greeted: seq<byte>, consumed: nat, relayed: seq<byte>, partials: nat, withheld: int)

  /** The upward pump and what it did: client messages taken whole, bytes written to tcp-relay. */
  datatype Up = Up(pc: UpPc, msgs: seq<Message>, forwarded: seq<byte>)

  /** pipe is what the host has written and the read loop has not delivered; gated is backpressure. */
  datatype State = State(tcp: Link, embed: Link, pipe: seq<Item>, gated: bool, down: Down, up: Up)

  datatype SetupStep = ReadServer | FeedServer | WriteServer | Batch | ReadBrowser | FeedBrowser | WriteBrowser | Start
  datatype DownStep = PassGate | ReadTcp | WriteFrame | GrantTcp
  datatype UpStep = ReadInit | WriteInit | ReadPart | Finish | WritePart | GrantEmbed

  /** How things come to an end: either channel object is closed, a read pump returns, a frame for a
      closed channel is dropped, a pump returns (its last chunk maybe still under way). */
  datatype EndStep =
    | Close(port: Port)
    | Sever(port: Port)
    | PumpExit(port: Port)
    | DropData
    | EndDown(late: bool)
    | EndUp(late: bool)
    | LateDown
    | LateUp

  datatype HostStep = Send(port: Port, f: seq<byte>) | Credit(port: Port, n: nat) | Backpressure(active: bool)

  datatype Event =
    | Host(host: HostStep)
    | Deliver
    | ReadPump(port: Port)
    | SetUp(setup: SetupStep)
    | Downward(downStep: DownStep)
    | Upward(upStep: UpStep)
    | Ending(end: EndStep)

  /** Which grant the pump issues: couplingGrant, as the code does, or the bare policy. */
  datatype Policy = Coupled(capacity: int) | Bare(capacity: int)

  datatype Config = Config(policy: Policy, readOnly: bool)

  function GrantOf(p: Policy, remaining: int): int {
    match p
    case Coupled(c) => CouplingGrant(remaining, true, c)
    case Bare(c) => Grant(c, remaining, 1)
  }

  const INIT: State :=
    State(NewLink(TCP_RELAY_INITIAL_CREDIT), NewLink(EMBED_STREAM_INITIAL_CREDIT), [], false,
          Down(Greeting(Hs.AwaitVersion, []), [], 0, [], 0, 0), Up(NotYet, [], []))

  function LinkOf(s: State, p: Port): Link {
    if p == Tcp then s.tcp else s.embed
  }

  function SetLink(s: State, p: Port, l: Link): State {
    if p == Tcp then s.(tcp := l) else s.(embed := l)
  }

  function Spend(l: Link): Link
    requires l.cred > 0
  {
    l.(cred := l.cred - 1)
  }

  // ---- host, read loop, read pumps ----

  predicate HostEnabled(s: State, e: HostStep) {
    e.Send? ==> LinkOf(s, e.port).window > 0
  }

  function HostNext(s: State, e: HostStep): State {
    match e
    case Send(p, f) => SetLink(s, p, HostSends(LinkOf(s, p), f)).(pipe := s.pipe + [Data(p, f)])
    case Credit(p, n) => s.(pipe := s.pipe + [Grants(p, n)])
    case Backpressure(active) => s.(pipe := s.pipe + [Pressure(active)])
  }

  /** The read loop delivers the next item; only a data frame for a full queue can stop it. */
  predicate CanDeliver(s: State) {
    s.pipe != [] && (s.pipe[0].Data? ==> |LinkOf(s, s.pipe[0].port).queue| < RECV_CAPACITY)
  }

  function DeliverNext(s: State): State
    requires CanDeliver(s)
  {
    var i, s' := s.pipe[0], s.(pipe := s.pipe[1..]);
    match i
    case Data(p, f) => SetLink(s', p, Enqueue(LinkOf(s, p), f))
    case Grants(p, n) => SetLink(s', p, LinkOf(s, p).(cred := LinkOf(s, p).cred + n))
    case Pressure(active) => s'.(gated := active)
  }

  function ReadPumpNext(s: State, p: Port): State
    requires CanPump(LinkOf(s, p))
  {
    SetLink(s, p, PumpOne(LinkOf(s, p)))
  }

  // ---- the handshakes ----

  predicate SetupEnabled(s: State, e: SetupStep) {
    var pc := s.down.pc;
    match e
    case ReadServer => WantsServer(pc) > 0 && HasBytes(s.tcp)
    case FeedServer => pc.Greeting? && pc.c.Need() == Some(|pc.buf|)
    case WriteServer => pc.Greeting? && pc.c.Sending() && s.tcp.cred > 0
    case Batch => pc.Greeting? && pc.c.Done?
    case ReadBrowser => WantsBrowser(pc) > 0 && HasBytes(s.embed)
    case FeedBrowser => pc.Fronting? && pc.f.Need() == Some(|pc.buf|)
    case WriteBrowser => pc.Fronting? && pc.f.Sending() && s.embed.cred > 0
    case Start => pc.Fronting? && pc.f.Synthesised?
  }

  /** What io.ReadFull still asks for. */
  function WantsServer(pc: DownPc): nat {
    if pc.Greeting? && pc.c.Need().Some? && |pc.buf| < pc.c.Need().value then pc.c.Need().value - |pc.buf| else 0
  }

  function WantsBrowser(pc: DownPc): nat {
    if pc.Fronting? && pc.f.Need().Some? && |pc.buf| < pc.f.Need().value then pc.f.Need().value - |pc.buf| else 0
  }

  function ReadServerNext(s: State): State
    requires WantsServer(s.down.pc) > 0 && HasBytes(s.tcp)
  {
    var (b, l) := Take(s.tcp, WantsServer(s.down.pc));
    var consumed := s.down.consumed + if l.readBuf == [] then 1 else 0;
    var pc := Greeting(s.down.pc.c, s.down.pc.buf + b);
    s.(tcp := l, down := s.down.(pc := pc, greeted := l.taken, consumed := consumed))
  }

  function ReadBrowserNext(s: State): State
    requires WantsBrowser(s.down.pc) > 0 && HasBytes(s.embed)
  {
    var (b, l) := Take(s.embed, WantsBrowser(s.down.pc));
    s.(embed := l, down := s.down.(pc := Fronting(s.down.pc.f, s.down.pc.buf + b)))
  }

  function SetupNext(s: State, e: SetupStep): State
    requires SetupEnabled(s, e)
  {
    var d, pc := s.down, s.down.pc;
    match e
    case ReadServer => ReadServerNext(s)
    case FeedServer => s.(down := d.(pc := Greeting(pc.c.Feed(pc.buf), [])))
    case WriteServer => s.(tcp := Spend(s.tcp), down := d.(pc := Greeting(pc.c.AfterSend(), [])))
    case Batch => s.(tcp := Return(s.tcp, TCP_RELAY_INITIAL_CREDIT), down := d.(pc := Fronting(Hs.GreetBrowser, [])))
    case ReadBrowser => ReadBrowserNext(s)
    case FeedBrowser => s.(down := d.(pc := Fronting(pc.f.Feed(pc.buf), [])))
    case WriteBrowser => s.(embed := Spend(s.embed), down := d.(pc := Fronting(pc.f.AfterSend(), [])))
    case Start => s.(down := d.(pc := AtGate), up := s.up.(pc := AwaitInit))
  }

  // ---- server to browser ----

  predicate DownEnabled(s: State, e: DownStep) {
    match e
    case PassGate => s.down.pc == AtGate && !s.gated
    case ReadTcp => s.down.pc == Reading && HasBytes(s.tcp)
    case WriteFrame => s.down.pc.Writing? && s.embed.cred > 0
    case GrantTcp => s.down.pc == Granting
  }

  function DownNext(policy: Policy, s: State, e: DownStep): State
    requires DownEnabled(s, e)
  {
    var d := s.down;
    match e
    case PassGate => s.(down := d.(pc := Reading))
    case ReadTcp =>
      var (b, l) := Take(s.tcp, READ_SIZE);
      s.(tcp := l, down := d.(pc := Writing(b), partials := d.partials + if l.readBuf == [] then 0 else 1))
    case WriteFrame =>
      var (b, rest) := TakeFrom(d.pc.rest, EMBED_MAX_PAYLOAD);
      s.(embed := Spend(s.embed),
         down := d.(relayed := d.relayed + b, pc := if rest == [] then Granting else Writing(rest)))
    case GrantTcp =>
      var g := GrantOf(policy, s.embed.cred);
      s.(tcp := Return(s.tcp, g), down := d.(withheld := d.withheld + 1 - g, pc := AtGate))
  }

  // ---- browser to server ----

  predicate UpEnabled(s: State, e: UpStep) {
    match e
    case ReadInit => s.up.pc == AwaitInit && HasBytes(s.embed)
    case WriteInit => s.up.pc.SendInit? && s.tcp.cred > 0
    case ReadPart => s.up.pc.Collecting? && Missing(s.up.pc.part) > 0 && HasBytes(s.embed)
    case Finish => s.up.pc.Collecting? && Whole(s.up.pc.part)
    case WritePart => s.up.pc.Forwarding? && s.tcp.cred > 0
    case GrantEmbed => s.up.pc == Returning
  }

  function UpNext(readOnly: bool, s: State, e: UpStep): State
    requires UpEnabled(s, e)
  {
    var u := s.up;
    match e
    case ReadInit =>
      var (b, l) := Take(s.embed, 1);
      s.(embed := l, up := u.(pc := SendInit(b)))
    case WriteInit =>
      s.(tcp := Spend(s.tcp), up := u.(forwarded := u.forwarded + u.pc.init, pc := Collecting([])))
    case ReadPart =>
      var (b, l) := Take(s.embed, Missing(u.pc.part));
      s.(embed := l, up := u.(pc := Collecting(u.pc.part + b)))
    case Finish =>
      var m := Message(u.pc.part[0], u.pc.part[1..]);
      s.(up := u.(msgs := u.msgs + [m],
                  pc := if Filter.Decide(m, readOnly) == Filter.Forward then Forwarding(u.pc.part) else Returning))
    case WritePart =>
      var (b, rest) := TakeFrom(u.pc.rest, TCP_MAX_PAYLOAD);
      s.(tcp := Spend(s.tcp),
         up := u.(forwarded := u.forwarded + b, pc := if rest == [] then Returning else Forwarding(rest)))
    case GrantEmbed => s.(embed := Return(s.embed, 1), up := u.(pc := Collecting([])))
  }

  // ---- endings ----

  predicate EndEnabled(s: State, e: EndStep) {
    match e
    case Close(_) => true
    case Sever(_) => true
    case PumpExit(p) => MayExit(LinkOf(s, p))
    case DropData => s.pipe != [] && s.pipe[0].Data? && LinkOf(s, s.pipe[0].port).done
    case EndDown(_) => !s.down.pc.Stopped?
    case EndUp(_) => !s.up.pc.NotYet? && !s.up.pc.UpStopped?
    case LateDown => s.down.pc.Stopped? && s.down.pc.late != [] && s.embed.cred > 0
    case LateUp => s.up.pc.UpStopped? && s.up.pc.late != [] && s.tcp.cred > 0
  }

  /** The chunk a pump may leave with the write pump when it returns. */
  function DownLate(pc: DownPc): seq<byte> {
    if pc.Writing? then TakeFrom(pc.rest, EMBED_MAX_PAYLOAD).0 else []
  }

  function UpLate(pc: UpPc): seq<byte> {
    if pc.Forwarding? then TakeFrom(pc.rest, TCP_MAX_PAYLOAD).0 else if pc.SendInit? then pc.init else []
  }

  function EndNext(s: State, e: EndStep): State
    requires EndEnabled(s, e)
  {
    var d, u := s.down, s.up;
    match e
    case Close(p) => SetLink(s, p, LinkOf(s, p).(closed := true))
    case Sever(p) => SetLink(s, p, LinkOf(s, p).(done := true))
    case PumpExit(p) => SetLink(s, p, Exit(LinkOf(s, p)))
    case DropData => SetLink(s, s.pipe[0].port, LinkOf(s, s.pipe[0].port).(lost := true)).(pipe := s.pipe[1..])
    case EndDown(late) => s.(down := d.(pc := Stopped(if late then DownLate(d.pc) else [])))
    case EndUp(late) => s.(up := u.(pc := UpStopped(if late then UpLate(u.pc) else [])))
    case LateDown => s.(embed := Spend(s.embed), down := d.(relayed := d.relayed + d.pc.late, pc := Stopped([])))
    case LateUp => s.(tcp := Spend(s.tcp), up := u.(forwarded := u.forwarded + u.pc.late, pc := UpStopped([])))
  }

  // ---- all steps ----

  predicate Enabled(s: State, e: Event) {
    match e
    case Host(e') => HostEnabled(s, e')
    case Deliver => CanDeliver(s)
    case ReadPump(p) => CanPump(LinkOf(s, p))
    case SetUp(e') => SetupEnabled(s, e')
    case Downward(e') => DownEnabled(s, e')
    case Upward(e') => UpEnabled(s, e')
    case Ending(e') => EndEnabled(s, e')
  }

  function Next(cfg: Config, s: State, e: Event): State
    requires Enabled(s, e)
  {
    match e
    case Host(e') => HostNext(s, e')
    case Deliver => DeliverNext(s)
    case ReadPump(p) => ReadPumpNext(s, p)
    case SetUp(e') => SetupNext(s, e')
    case Downward(e') => DownNext(cfg.policy, s, e')
    case Upward(e') => UpNext(cfg.readOnly, s, e')
    case Ending(e') => EndNext(s, e')
  }

  ghost predicate Reaches(cfg: Config, s: State, es: seq<Event>, s': State)
    decreases |es|
  {
    if es == [] then s' == s else Enabled(s, es[0]) && Reaches(cfg, Next(cfg, s, es[0]), es[1..], s')
  }

  // ---- the invariant ----

  /** The frames of one channel on their way to the read loop. */
  function InPipe(pipe: seq<Item>, p: Port): seq<seq<byte>> {
    if pipe == [] then []
    else (if pipe[0].Data? && pipe[0].port == p then [pipe[0].frame] else []) + InPipe(pipe[1..], p)
  }

  lemma {:induction false} InPipeSnoc(pipe: seq<Item>, i: Item, p: Port)
    ensures InPipe(pipe + [i], p) == InPipe(pipe, p) + if i.Data? && i.port == p then [i.frame] else []
  {
    if pipe == [] {
      assert pipe + [i] == [i];
    } else {
      assert (pipe + [i])[1..] == pipe[1..] + [i];
      InPipeSnoc(pipe[1..], i, p);
    }
  }

  predicate Links(s: State) {
    && LinkInv(s.tcp, InPipe(s.pipe, Tcp), TCP_RELAY_INITIAL_CREDIT)
    && LinkInv(s.embed, InPipe(s.pipe, Embed), EMBED_STREAM_INITIAL_CREDIT)
  }

  /** Grants still to come for reads already made. */
  function Pending(pc: DownPc): nat {
    if pc.Writing? || pc.Granting? then 1 else 0
  }

  /** Reads the pump has made, less the grants it has made for them: every finished frame was finished
      by the handshake, was empty, or was finished by a read that was not partial. */
  function Ungranted(l: Link, d: Down): int {
    |l.moved| - Open(l) + d.partials - d.consumed - l.skipped - d.withheld
    - (l.granted - if d.pc.Greeting? then 0 else TCP_RELAY_INITIAL_CREDIT)
  }

  predicate TcpLaw(l: Link, d: Down) {
    && d.consumed <= TCP_RELAY_INITIAL_CREDIT && d.withheld >= 0
    && (if d.pc.Stopped? then Ungranted(l, d) >= 0 else Ungranted(l, d) == Pending(d.pc))
    && (d.pc.Greeting? ==> d.partials == 0 && d.withheld == 0 && l.granted == 0)
    && (d.partials > 0 ==> Longest(l.moved) > READ_SIZE)
  }

  /** The server's bytes: what was taken is what the handshake took, what was relayed, and the rest of
      the chunk in hand. */
  predicate DownBytes(d: Down, taken: seq<byte>) {
    match d.pc
    case Greeting(_, _) => d.greeted == taken && d.relayed == []
    case Fronting(_, _) => d.greeted == taken && d.relayed == []
    case Writing(rest) => rest != [] && taken == (d.greeted + d.relayed) + rest
    case Stopped(late) => (d.greeted + d.relayed) + late <= taken
    case _ => taken == d.greeted + d.relayed
  }

  /** Bytes the synthetic handshake has taken before its current read. */
  function FrontTaken(f: Hs.Server): nat {
    match f
    case GreetBrowser => 0
    case AwaitBrowserVersion => 0
    case SendList => 12
    case AwaitBrowserChoice => 12
    case _ => OPENING
  }

  /** An io.ReadFull collects no more than its field, and nothing is collected between reads. */
  predicate Collected(need: Option<nat>, buf: seq<byte>) {
    if need.Some? then |buf| <= need.value else buf == []
  }

  predicate OpeningBytes(down: DownPc, up: UpPc, taken: seq<byte>) {
    match down
    case Greeting(c, buf) => up == NotYet && taken == [] && Collected(c.Need(), buf)
    case Fronting(f, buf) =>
      up == NotYet && (f.Declined? || |taken| == FrontTaken(f) + |buf|) && Collected(f.Need(), buf)
    case Stopped(_) => true
    case _ => up != NotYet
  }

  /** The browser's bytes since the opening are ClientInit, the whole messages, and the part in hand. */
  predicate Got(taken: seq<byte>, msgs: seq<Message>, part: seq<byte>) {
    |taken| >= PREAMBLE && AllWellFormed(msgs) && taken[PREAMBLE..] == SerializeAll(msgs) + part
  }

  function Kept(taken: seq<byte>, msgs: seq<Message>, readOnly: bool): seq<byte>
    requires |taken| >= PREAMBLE
  {
    [taken[OPENING]] + SerializeAll(Filter.Keep(msgs, readOnly))
  }

  predicate UpLaw(u: Up, taken: seq<byte>, granted: int, readOnly: bool) {
    match u.pc
    case NotYet => granted == 0 && u.msgs == [] && u.forwarded == []
    case AwaitInit => |taken| == OPENING && granted == 0 && u.msgs == [] && u.forwarded == []
    case SendInit(b) =>
      |b| == 1 && Got(taken, [], []) && taken[OPENING..] == b && granted == 0 && u.msgs == [] && u.forwarded == []
    case Collecting(part) =>
      && Growing(part) && Got(taken, u.msgs, part)
      && granted == |u.msgs| && u.forwarded == Kept(taken, u.msgs, readOnly)
    case Forwarding(rest) =>
      && rest != [] && Got(taken, u.msgs, []) && granted == |u.msgs| - 1
      && u.forwarded + rest == Kept(taken, u.msgs, readOnly)
    case Returning =>
      Got(taken, u.msgs, []) && granted == |u.msgs| - 1 && u.forwarded == Kept(taken, u.msgs, readOnly)
    case UpStopped(late) =>
      && |taken| >= OPENING && granted <= |u.msgs| <= Messages(taken)
      && u.forwarded + late <= Filter.PumpOutput(taken[OPENING..], readOnly)
  }

  predicate Inv(cfg: Config, s: State) {
    && Links(s) && TcpLaw(s.tcp, s.down) && DownBytes(s.down, s.tcp.taken)
    && OpeningBytes(s.down.pc, s.up.pc, s.embed.taken)
    && UpLaw(s.up, s.embed.taken, s.embed.granted, cfg.readOnly)
  }
}
