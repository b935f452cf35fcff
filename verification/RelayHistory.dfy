/** The relay's state against the events of its run: what the host sent, granted and asked for, what the
    plugin sent and gave back, counted off the run and not kept by the steps themselves. */
module RelayHistory {
  import opened Bytes
  import opened ClientMessage
  import opened RelayLink
  import opened Relay
  import opened RelayInvariant

  // ---- frames from the host ----

  /** The frames the host sent on p, in order. */
  function SentIn(es: seq<Event>, p: Port): seq<seq<byte>> {
    if es == [] then []
    else (if es[0].Host? && es[0].host.Send? && es[0].host.port == p then [es[0].host.f] else []) + SentIn(es[1..], p)
  }

  /** What the plugin's own steps leave alone on a channel; and one that is done refuses what is granted. */
  predicate Undisturbed(l: Link, l': Link) {
    && l'.sent == l.sent && l'.closed == l.closed && l'.done == l.done && l'.gone == l.gone
    && l'.refused - l.refused == if l.done then l'.granted - l.granted else 0
  }

  predicate BothUndisturbed(s: State, s': State) {
    Undisturbed(s.tcp, s'.tcp) && Undisturbed(s.embed, s'.embed)
  }

  lemma TakeUndisturbed(l: Link, max: nat)
    requires HasBytes(l)
    ensures Undisturbed(l, Take(l, max).1)
  {
  }

  lemma SetupUndisturbed(s: State, e: SetupStep)
    requires SetupEnabled(s, e)
    ensures BothUndisturbed(s, SetupNext(s, e))
  {
    match e
    case ReadServer => TakeUndisturbed(s.tcp, WantsServer(s.down.pc));
    case ReadBrowser => TakeUndisturbed(s.embed, WantsBrowser(s.down.pc));
    case _ =>
  }

  lemma DownUndisturbed(policy: Policy, s: State, e: DownStep)
    requires DownEnabled(s, e)
    ensures BothUndisturbed(s, DownNext(policy, s, e))
  {
    match e
    case ReadTcp => TakeUndisturbed(s.tcp, READ_SIZE);
    case _ =>
  }

  lemma UpUndisturbed(readOnly: bool, s: State, e: UpStep)
    requires UpEnabled(s, e)
    ensures BothUndisturbed(s, UpNext(readOnly, s, e))
  {
    match e
    case ReadInit => TakeUndisturbed(s.embed, 1);
    case ReadPart => TakeUndisturbed(s.embed, Missing(s.up.pc.part));
    case _ =>
  }

  lemma DeliveryUndisturbed(s: State, p: Port)
    requires CanDeliver(s)
    ensures Undisturbed(LinkOf(s, p), LinkOf(DeliverNext(s), p))
  {
  }

  lemma PumpUndisturbed(s: State, q: Port, p: Port)
    requires CanPump(LinkOf(s, q))
    ensures Undisturbed(LinkOf(s, p), LinkOf(ReadPumpNext(s, q), p))
  {
  }

  /** An ending marks its own channel and touches nothing else of either. */
  predicate Marked(l: Link, l': Link, e: EndStep, p: Port) {
    && l'.sent == l.sent && l'.granted == l.granted && l'.refused == l.refused
    && (l'.closed <==> l.closed || e == Close(p))
    && (l'.done <==> l.done || e == Sever(p))
    && (l'.gone <==> l.gone || e == PumpExit(p))
  }

  lemma EndMarks(s: State, e: EndStep, p: Port)
    requires EndEnabled(s, e)
    ensures Marked(LinkOf(s, p), LinkOf(EndNext(s, e), p), e, p)
  {
    if !e.Close? && !e.Sever? && !e.PumpExit? {
      OtherEndMarks(s, e, p);
    }
  }

  lemma OtherEndMarks(s: State, e: EndStep, p: Port)
    requires EndEnabled(s, e) && !e.Close? && !e.Sever? && !e.PumpExit?
    ensures Marked(LinkOf(s, p), LinkOf(EndNext(s, e), p), e, p)
  {
  }

  lemma StepSends(cfg: Config, s: State, e: Event, p: Port)
    requires Enabled(s, e)
    ensures LinkOf(Next(cfg, s, e), p).sent == LinkOf(s, p).sent + SentIn([e], p)
  {
    assert [e][1..] == [];
    assert LinkOf(s, p).sent + [] == LinkOf(s, p).sent;
    match e
    case Host(_) =>
    case Deliver => DeliveryUndisturbed(s, p);
    case ReadPump(q) => PumpUndisturbed(s, q, p);
    case SetUp(e') => SetupUndisturbed(s, e');
    case Downward(e') => DownUndisturbed(cfg.policy, s, e');
    case Upward(e') => UpUndisturbed(cfg.readOnly, s, e');
    case Ending(e') => EndMarks(s, e', p);
  }

  lemma {:induction false} RunSends(cfg: Config, s: State, es: seq<Event>, s': State, p: Port)
    requires Reaches(cfg, s, es, s')
    ensures LinkOf(s', p).sent == LinkOf(s, p).sent + SentIn(es, p)
    decreases |es|
  {
    if es == [] {
      assert LinkOf(s, p).sent + [] == LinkOf(s, p).sent;
    } else {
      var n := Next(cfg, s, es[0]);
      StepSends(cfg, s, es[0], p);
      RunSends(cfg, n, es[1..], s', p);
      assert SentIn([es[0]], p) + SentIn(es[1..], p) == SentIn(es, p);
      Assoc(LinkOf(s, p).sent, SentIn([es[0]], p), SentIn(es[1..], p));
    }
  }

  // ---- credit the plugin gave back ----

  /** Grants the plugin issued on p: the batch after the server handshake, one per read relayed, one per
      client message. */
  function GrantsIn(es: seq<Event>, p: Port): nat {
    if es == [] then 0 else GrantsOf(es[0], p) + GrantsIn(es[1..], p)
  }

  function GrantsOf(e: Event, p: Port): nat {
    if p == Tcp then (if e == SetUp(Batch) then 4 else if e == Downward(GrantTcp) then 1 else 0)
    else if e == Upward(GrantEmbed) then 1 else 0
  }

  lemma ReadGrants(s: State)
    ensures SetupEnabled(s, ReadServer) ==> ReadServerNext(s).tcp.granted == s.tcp.granted
    ensures SetupEnabled(s, ReadServer) ==> ReadServerNext(s).embed.granted == s.embed.granted
    ensures SetupEnabled(s, ReadBrowser) ==> ReadBrowserNext(s).tcp.granted == s.tcp.granted
    ensures SetupEnabled(s, ReadBrowser) ==> ReadBrowserNext(s).embed.granted == s.embed.granted
  {
  }

  lemma SetupGrants(s: State, e: SetupStep)
    requires SetupEnabled(s, e)
    ensures SetupNext(s, e).tcp.granted == s.tcp.granted + GrantsOf(SetUp(e), Tcp)
    ensures SetupNext(s, e).embed.granted == s.embed.granted
  {
    if e.ReadServer? || e.ReadBrowser? {
      ReadGrants(s);
    }
  }

  lemma DownGrants(policy: Policy, s: State, e: DownStep)
    requires DownEnabled(s, e) && policy.Coupled?
    ensures DownNext(policy, s, e).tcp.granted == s.tcp.granted + GrantsOf(Downward(e), Tcp)
    ensures DownNext(policy, s, e).embed.granted == s.embed.granted
  {
    if e.GrantTcp? {
      GrantIsSmall(policy, s.embed.cred);
    } else {
      OtherDownGrants(policy, s, e);
    }
  }

  lemma OtherDownGrants(policy: Policy, s: State, e: DownStep)
    requires DownEnabled(s, e) && !e.GrantTcp?
    ensures DownNext(policy, s, e).tcp.granted == s.tcp.granted
    ensures DownNext(policy, s, e).embed.granted == s.embed.granted
  {
  }

  lemma UpGrants(readOnly: bool, s: State, e: UpStep)
    requires UpEnabled(s, e)
    ensures UpNext(readOnly, s, e).tcp.granted == s.tcp.granted
    ensures UpNext(readOnly, s, e).embed.granted == s.embed.granted + GrantsOf(Upward(e), Embed)
  {
    if e.ReadInit? || e.ReadPart? || e.Finish? {
      UpReadGrants(readOnly, s, e);
    }
  }

  lemma UpReadGrants(readOnly: bool, s: State, e: UpStep)
    requires UpEnabled(s, e) && (e.ReadInit? || e.ReadPart? || e.Finish?)
    ensures UpNext(readOnly, s, e).tcp.granted == s.tcp.granted
    ensures UpNext(readOnly, s, e).embed.granted == s.embed.granted
  {
  }

  lemma StepGrants(cfg: Config, s: State, e: Event, p: Port)
    requires Enabled(s, e) && cfg.policy.Coupled?
    ensures LinkOf(Next(cfg, s, e), p).granted == LinkOf(s, p).granted + GrantsOf(e, p)
  {
    match e
    case SetUp(e') => SetupGrants(s, e');
    case Downward(e') => DownGrants(cfg.policy, s, e');
    case Upward(e') => UpGrants(cfg.readOnly, s, e');
    case Ending(e') => EndMarks(s, e', p);
    case _ =>
  }

  lemma {:induction false} RunGrants(cfg: Config, s: State, es: seq<Event>, s': State, p: Port)
    requires Reaches(cfg, s, es, s') && cfg.policy.Coupled?
    ensures LinkOf(s', p).granted == LinkOf(s, p).granted + GrantsIn(es, p)
    decreases |es|
  {
    if es != [] {
      StepGrants(cfg, s, es[0], p);
      RunGrants(cfg, Next(cfg, s, es[0]), es[1..], s', p);
    }
  }

  /** Of these grants, those the host hears of: a channel that is done refuses the rest. */
  function Heard(es: seq<Event>, p: Port): nat {
    if es == [] || es[0] == Ending(Sever(p)) then 0 else GrantsOf(es[0], p) + Heard(es[1..], p)
  }

  /** A channel refuses the grants issued once it is done, and no other. */
  lemma {:induction false} RunRefuses(cfg: Config, s: State, es: seq<Event>, s': State, p: Port)
    requires Reaches(cfg, s, es, s') && cfg.policy.Coupled?
    ensures var l, l' := LinkOf(s, p), LinkOf(s', p);
            l'.refused == l.refused + GrantsIn(es, p) - if l.done then 0 else Heard(es, p)
    decreases |es|
  {
    if es != [] {
      StepGrants(cfg, s, es[0], p);
      StepRefuses(cfg, s, es[0], p);
      RunRefuses(cfg, Next(cfg, s, es[0]), es[1..], s', p);
    }
  }

  lemma StepRefuses(cfg: Config, s: State, e: Event, p: Port)
    requires Enabled(s, e)
    ensures var l, l' := LinkOf(s, p), LinkOf(Next(cfg, s, e), p);
            && (l'.done <==> l.done || e == Ending(Sever(p)))
            && l'.refused - l.refused == if l.done then l'.granted - l.granted else 0
  {
    match e
    case Host(_) =>
    case Deliver => DeliveryUndisturbed(s, p);
    case ReadPump(q) => PumpUndisturbed(s, q, p);
    case SetUp(e') => SetupUndisturbed(s, e');
    case Downward(e') => DownUndisturbed(cfg.policy, s, e');
    case Upward(e') => UpUndisturbed(cfg.readOnly, s, e');
    case Ending(e') => EndMarks(s, e', p);
  }

  /** The host's window is always what it began with and was granted while the channel was open, less what it
      sent, and that is never negative: 4 and the grants of the run on tcp-relay, 8 and those on
      embed-stream. */
  lemma HostWindowIs(cfg: Config, es: seq<Event>, s: State)
    requires Reaches(cfg, INIT, es, s) && cfg.policy.Coupled?
    ensures s.tcp.window == 4 + Heard(es, Tcp) - |SentIn(es, Tcp)| >= 0
    ensures s.embed.window == 8 + Heard(es, Embed) - |SentIn(es, Embed)| >= 0
    ensures s.tcp.granted == GrantsIn(es, Tcp) && s.embed.granted == GrantsIn(es, Embed)
    ensures s.tcp.sent == SentIn(es, Tcp) && s.embed.sent == SentIn(es, Embed)
  {
    ReachableInv(cfg, s);
    RunLink(cfg, es, s, Tcp);
    RunLink(cfg, es, s, Embed);
  }

  lemma RunLink(cfg: Config, es: seq<Event>, s: State, p: Port)
    requires Reaches(cfg, INIT, es, s) && cfg.policy.Coupled?
    ensures var l := LinkOf(s, p);
            l.sent == SentIn(es, p) && l.granted == GrantsIn(es, p) && l.refused == GrantsIn(es, p) - Heard(es, p)
  {
    RunSends(cfg, INIT, es, s, p);
    RunGrants(cfg, INIT, es, s, p);
    RunRefuses(cfg, INIT, es, s, p);
  }

  // ---- credit the host gave ----

  function CreditIn(es: seq<Event>, p: Port): nat {
    if es == [] then 0
    else (if es[0].Host? && es[0].host.Credit? && es[0].host.port == p then es[0].host.n else 0) + CreditIn(es[1..], p)
  }

  /** Frames the plugin sent on p. */
  function FramesOut(es: seq<Event>, p: Port): nat {
    if es == [] then 0 else FrameOut(es[0], p) + FramesOut(es[1..], p)
  }

  function FrameOut(e: Event, p: Port): nat {
    if p == Tcp then
      if e == SetUp(WriteServer) || e == Upward(WriteInit) || e == Upward(WritePart) || e == Ending(LateUp) then 1
      else 0
    else
      if e == SetUp(WriteBrowser) || e == Downward(WriteFrame) || e == Ending(LateDown) then 1 else 0
  }

  /** Credit on its way to the read loop. */
  function CreditInPipe(pipe: seq<Item>, p: Port): nat {
    if pipe == [] then 0
    else (if pipe[0].Grants? && pipe[0].port == p then pipe[0].n else 0) + CreditInPipe(pipe[1..], p)
  }

  lemma {:induction false} CreditInPipeSnoc(pipe: seq<Item>, i: Item, p: Port)
    ensures CreditInPipe(pipe + [i], p) == CreditInPipe(pipe, p) + if i.Grants? && i.port == p then i.n else 0
  {
    if pipe == [] {
      assert pipe + [i] == [i];
    } else {
      assert (pipe + [i])[1..] == pipe[1..] + [i];
      CreditInPipeSnoc(pipe[1..], i, p);
    }
  }

  /** The plugin's send window on p, with the credit under way. */
  function SendCredit(s: State, p: Port): nat {
    LinkOf(s, p).cred + CreditInPipe(s.pipe, p)
  }

  lemma HostCredits(s: State, e: HostStep, p: Port)
    requires HostEnabled(s, e)
    ensures SendCredit(HostNext(s, e), p) == SendCredit(s, p) + CreditIn([Host(e)], p)
  {
    assert [Host(e)][1..] == [];
    match e
    case Send(q, f) => CreditInPipeSnoc(s.pipe, Data(q, f), p);
    case Credit(q, n) => CreditInPipeSnoc(s.pipe, Grants(q, n), p);
    case Backpressure(active) => CreditInPipeSnoc(s.pipe, Pressure(active), p);
  }

  lemma DeliveryCredits(s: State, p: Port)
    requires CanDeliver(s)
    ensures SendCredit(DeliverNext(s), p) == SendCredit(s, p)
  {
  }

  lemma SetupSpends(s: State, e: SetupStep, p: Port)
    requires SetupEnabled(s, e)
    ensures SendCredit(SetupNext(s, e), p) + FrameOut(SetUp(e), p) == SendCredit(s, p)
  {
  }

  lemma DownSpends(policy: Policy, s: State, e: DownStep, p: Port)
    requires DownEnabled(s, e)
    ensures SendCredit(DownNext(policy, s, e), p) + FrameOut(Downward(e), p) == SendCredit(s, p)
  {
  }

  lemma UpSpends(readOnly: bool, s: State, e: UpStep, p: Port)
    requires UpEnabled(s, e)
    ensures SendCredit(UpNext(readOnly, s, e), p) + FrameOut(Upward(e), p) == SendCredit(s, p)
  {
  }

  lemma EndSpends(s: State, e: EndStep, p: Port)
    requires EndEnabled(s, e)
    ensures SendCredit(EndNext(s, e), p) + FrameOut(Ending(e), p) == SendCredit(s, p)
  {
  }

  lemma StepSpends(cfg: Config, s: State, e: Event, p: Port)
    requires Enabled(s, e)
    ensures SendCredit(Next(cfg, s, e), p) + FrameOut(e, p) == SendCredit(s, p) + CreditIn([e], p)
  {
    assert [e][1..] == [];
    match e
    case Host(e') => HostCredits(s, e', p);
    case Deliver => DeliveryCredits(s, p);
    case ReadPump(_) =>
    case SetUp(e') => SetupSpends(s, e', p);
    case Downward(e') => DownSpends(cfg.policy, s, e', p);
    case Upward(e') => UpSpends(cfg.readOnly, s, e', p);
    case Ending(e') => EndSpends(s, e', p);
  }

  lemma {:induction false} RunSpends(cfg: Config, s: State, es: seq<Event>, s': State, p: Port)
    requires Reaches(cfg, s, es, s')
    ensures SendCredit(s', p) + FramesOut(es, p) == SendCredit(s, p) + CreditIn(es, p)
    decreases |es|
  {
    if es != [] {
      StepSpends(cfg, s, es[0], p);
      RunSpends(cfg, Next(cfg, s, es[0]), es[1..], s', p);
      assert CreditIn(es, p) == CreditIn([es[0]], p) + CreditIn(es[1..], p);
    }
  }

  /** The plugin never sends a frame it has no credit for, on either channel, in a handshake or relaying;
      and its send window is exactly what it was given and has not used. */
  lemma PluginSendsWithinCredit(cfg: Config, es: seq<Event>, s: State)
    requires Reaches(cfg, INIT, es, s)
    ensures FramesOut(es, Tcp) <= 4 + CreditIn(es, Tcp) && FramesOut(es, Embed) <= 8 + CreditIn(es, Embed)
    ensures s.pipe == [] ==>
              && s.tcp.cred == 4 + CreditIn(es, Tcp) - FramesOut(es, Tcp)
              && s.embed.cred == 8 + CreditIn(es, Embed) - FramesOut(es, Embed)
  {
    RunSpends(cfg, INIT, es, s, Tcp);
    RunSpends(cfg, INIT, es, s, Embed);
  }

  // ---- backpressure ----

  /** What the host last asked for in a run: hold back, or go on. */
  function LastAsked(es: seq<Event>, before: bool): bool {
    if es == [] then before
    else LastAsked(es[1..], if es[0].Host? && es[0].host.Backpressure? then es[0].host.active else before)
  }

  /** The last request still on stdin, or what the gate is set to if there is none. */
  function Asked(pipe: seq<Item>, gated: bool): bool {
    if pipe == [] then gated else Asked(pipe[1..], if pipe[0].Pressure? then pipe[0].active else gated)
  }

  lemma {:induction false} AskedSnoc(pipe: seq<Item>, i: Item, gated: bool)
    ensures Asked(pipe + [i], gated) == if i.Pressure? then i.active else Asked(pipe, gated)
  {
    if pipe == [] {
      assert pipe + [i] == [i];
    } else {
      assert (pipe + [i])[1..] == pipe[1..] + [i];
      AskedSnoc(pipe[1..], i, if pipe[0].Pressure? then pipe[0].active else gated);
    }
  }

  /** Only the host and the read loop have to do with the gate. */
  lemma GateUntouched(cfg: Config, s: State, e: Event)
    requires Enabled(s, e) && !e.Host? && !e.Deliver?
    ensures Next(cfg, s, e).gated == s.gated && (Next(cfg, s, e).pipe == s.pipe || e == Ending(DropData))
  {
  }

  lemma StepAsks(cfg: Config, s: State, e: Event)
    requires Enabled(s, e)
    ensures var s' := Next(cfg, s, e); Asked(s'.pipe, s'.gated) == LastAsked([e], Asked(s.pipe, s.gated))
  {
    assert [e][1..] == [];
    match e
    case Host(Send(q, f)) => AskedSnoc(s.pipe, Data(q, f), s.gated);
    case Host(Credit(q, n)) => AskedSnoc(s.pipe, Grants(q, n), s.gated);
    case Host(Backpressure(active)) => AskedSnoc(s.pipe, Pressure(active), s.gated);
    case Deliver =>
    case _ => GateUntouched(cfg, s, e);
  }

  lemma {:induction false} RunAsks(cfg: Config, s: State, es: seq<Event>, s': State)
    requires Reaches(cfg, s, es, s')
    ensures Asked(s'.pipe, s'.gated) == LastAsked(es, Asked(s.pipe, s.gated))
    decreases |es|
  {
    if es != [] {
      StepAsks(cfg, s, es[0]);
      RunAsks(cfg, Next(cfg, s, es[0]), es[1..], s');
    }
  }

  /** The gate does what the host asks: the last request on stdin, or the gate itself once all have been
      delivered, is always the last the host made. */
  lemma GateFollowsHost(cfg: Config, es: seq<Event>, s: State)
    requires Reaches(cfg, INIT, es, s)
    ensures Asked(s.pipe, s.gated) == LastAsked(es, false)
    ensures (forall i :: i in s.pipe ==> !i.Pressure?) ==> s.gated == LastAsked(es, false)
  {
    RunAsks(cfg, INIT, es, s);
    NoneAsked(s.pipe, s.gated);
  }

  lemma {:induction false} NoneAsked(pipe: seq<Item>, gated: bool)
    ensures (forall i :: i in pipe ==> !i.Pressure?) ==> Asked(pipe, gated) == gated
  {
    if pipe != [] {
      NoneAsked(pipe[1..], gated);
    }
  }

  /** No resume is delivered in this run. */
  ghost predicate NoResume(cfg: Config, s: State, es: seq<Event>)
    decreases |es|
  {
    es == [] || (Enabled(s, es[0]) && !(es[0].Deliver? && s.pipe[0] == Pressure(false))
                 && NoResume(cfg, Next(cfg, s, es[0]), es[1..]))
  }

  function ReadsIn(es: seq<Event>): nat {
    if es == [] then 0 else (if es[0] == Downward(ReadTcp) then 1 else 0) + ReadsIn(es[1..])
  }

  lemma GatedDown(policy: Policy, s: State, e: DownStep)
    requires s.gated && DownEnabled(s, e)
    ensures DownNext(policy, s, e).down.pc != Reading
  {
  }

  lemma GatedSetup(s: State, e: SetupStep)
    requires SetupEnabled(s, e)
    ensures SetupNext(s, e).down.pc != Reading
  {
  }

  lemma GatedStep(cfg: Config, s: State, e: Event)
    requires s.gated && Enabled(s, e) && Next(cfg, s, e).down.pc == Reading
    ensures s.down.pc == Reading && !e.Downward?
  {
    match e
    case SetUp(e') => GatedSetup(s, e');
    case Downward(e') => GatedDown(cfg.policy, s, e');
    case _ =>
  }

  lemma {:induction false} GatedReads(cfg: Config, s: State, es: seq<Event>, s': State)
    requires s.gated && Reaches(cfg, s, es, s') && NoResume(cfg, s, es)
    ensures s'.gated && ReadsIn(es) <= if s.down.pc == Reading then 1 else 0
    decreases |es|
  {
    if es != [] {
      var n := Next(cfg, s, es[0]);
      if !es[0].Host? && !es[0].Deliver? {
        GateUntouched(cfg, s, es[0]);
      }
      GatedReads(cfg, n, es[1..], s');
      if n.down.pc == Reading {
        GatedStep(cfg, s, es[0]);
      }
    }
  }

  /** Backpressure takes hold: from the moment the host's request is delivered until a resume is, the pump
      makes at most one more read from the server, and none unless it was already past the gate. */
  lemma GateBound(cfg: Config, s: State, es: seq<Event>, s': State)
    requires CanDeliver(s) && s.pipe[0] == Pressure(true)
    requires Reaches(cfg, DeliverNext(s), es, s') && NoResume(cfg, DeliverNext(s), es)
    ensures s'.gated && ReadsIn(es) <= if s.down.pc == Reading then 1 else 0
  {
    GatedReads(cfg, DeliverNext(s), es, s');
  }

  /** And a delivered resume lets it on. */
  lemma ResumeOpens(s: State)
    requires CanDeliver(s) && s.pipe[0] == Pressure(false) && s.down.pc == AtGate
    ensures DownEnabled(DeliverNext(s), PassGate)
  {
  }

  // ---- the size of frames ----

  /** No frame the plugin writes is longer than its channel takes: 64 KiB towards the browser, 1 MiB towards
      the server; and it writes the longest it can. */
  lemma WritesFit(policy: Policy, readOnly: bool, s: State)
    ensures s.down.pc.Writing? && s.embed.cred > 0 ==>
              var d, rest := DownNext(policy, s, WriteFrame).down, s.down.pc.rest;
              d.relayed == s.down.relayed + rest[..if |rest| < 65536 then |rest| else 65536]
    ensures s.up.pc.Forwarding? && s.tcp.cred > 0 ==>
              var u, rest := UpNext(readOnly, s, WritePart).up, s.up.pc.rest;
              u.forwarded == s.up.forwarded + rest[..if |rest| < 1048576 then |rest| else 1048576]
  {
  }
}
