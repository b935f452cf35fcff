/** What holds in every reachable state of the relay: credit, bytes, and the read loop. */
module RelayWindow {
  import opened Bytes
  import opened RelayLink
  import opened Pacing
  import opened Relay
  import opened RelayInvariant
  import Filter = ReadOnlyFilter

  function TcpUnread(s: State): nat { Unread(s.tcp, InPipe(s.pipe, Tcp)) }

  function EmbedUnread(s: State): nat { Unread(s.embed, InPipe(s.pipe, Embed)) }

  predicate AfterHandshake(s: State) {
    !s.down.pc.Greeting? && !s.down.pc.Stopped?
  }

  ghost predicate FramesUpTo(frames: seq<seq<byte>>, max: nat) {
    forall f :: f in frames ==> |f| <= max
  }

  // ---- credit ----

  lemma {:induction false} CoupledWithholdsNothing(cfg: Config, s: State, es: seq<Event>, s': State)
    requires cfg.policy.Coupled? && s.down.withheld == 0 && Reaches(cfg, s, es, s')
    ensures s'.down.withheld == 0
    decreases |es|
  {
    if es != [] {
      GrantIsSmall(cfg.policy, s.embed.cred);
      CoupledWithholdsNothing(cfg, Next(cfg, s, es[0]), es[1..], s');
    }
  }

  /** Server to browser, for any frames and either policy: window, unread frames and pending grant account
      for the eight credits issued, less one per frame the handshake finished, per empty frame, per withheld
      grant and per grant refused by a closed channel, and plus one per partial read. */
  lemma WindowConservation(cfg: Config, s: State)
    requires Reachable(cfg, s) && AfterHandshake(s) && !s.tcp.lost
    ensures s.down.consumed <= 4 && s.tcp.window >= 0
    ensures s.tcp.window + TcpUnread(s) + Pending(s.down.pc)
            == 8 - s.down.consumed - s.tcp.skipped - s.down.withheld - s.tcp.refused + s.down.partials
    ensures cfg.policy.Coupled? ==> s.down.withheld == 0
    ensures !s.tcp.done ==> s.tcp.refused == 0
  {
    ReachableInv(cfg, s);
    LinkMeaning(s.tcp, InPipe(s.pipe, Tcp), 4);
    if cfg.policy.Coupled? {
      var es :| Reaches(cfg, INIT, es, s);
      CoupledWithholdsNothing(cfg, INIT, es, s);
    }
  }

  lemma SmallFramesReadWhole(s: State)
    requires Links(s) && TcpLaw(s.tcp, s.down) && !s.tcp.gap && FramesUpTo(s.tcp.sent, READ_SIZE)
    ensures s.down.partials == 0
  {
    LinkPrefix(s.tcp, InPipe(s.pipe, Tcp), 4);
    assert s.tcp.moved <= s.tcp.sent;
    forall f | f in s.tcp.moved ensures |f| <= READ_SIZE {
      assert f in s.tcp.sent;
    }
    LongestBound(s.tcp.moved, READ_SIZE);
  }

  lemma NonEmptyNotSkipped(s: State)
    requires Links(s) && !s.tcp.gap && [] !in s.tcp.sent
    ensures s.tcp.skipped == 0
  {
    LinkPrefix(s.tcp, InPipe(s.pipe, Tcp), 4);
    assert s.tcp.moved <= s.tcp.sent;
    NoEmpties(s.tcp.moved);
  }

  /** Window conservation proper: for frames of 1 byte to 32 KiB the credit in circulation never changes
      after the handshake until the channel is closed; for non-empty frames of any size it never shrinks. */
  lemma CirculatingCredit(cfg: Config, s: State)
    requires Reachable(cfg, s) && AfterHandshake(s) && !s.tcp.lost && cfg.policy.Coupled?
    requires [] !in s.tcp.sent
    ensures s.tcp.window + TcpUnread(s) + Pending(s.down.pc) >= 8 - s.down.consumed - s.tcp.refused
    ensures !s.tcp.done ==> 8 - s.down.consumed - s.tcp.refused >= 4
    ensures FramesUpTo(s.tcp.sent, 32768) ==>
              s.tcp.window + TcpUnread(s) + Pending(s.down.pc) == 8 - s.down.consumed - s.tcp.refused
  {
    ReachableInv(cfg, s);
    WindowConservation(cfg, s);
    NonEmptyNotSkipped(s);
    if FramesUpTo(s.tcp.sent, READ_SIZE) {
      SmallFramesReadWhole(s);
    }
  }

  /** A pump parked on Read with nothing on its way to it leaves the host at least four credits. */
  lemma ParkedPumpLeavesCredit(cfg: Config, s: State)
    requires Reachable(cfg, s) && s.down.pc == Reading && TcpUnread(s) == 0 && !s.tcp.done
    requires cfg.policy.Coupled? && [] !in s.tcp.sent
    ensures s.tcp.window >= 4
  {
    ReachableInv(cfg, s);
    CirculatingCredit(cfg, s);
  }

  /** Grants still to come for client messages already taken. */
  function UpPending(pc: UpPc): nat {
    if pc.Forwarding? || pc.Returning? then 1 else 0
  }

  /** Browser to server: the window starts at eight, loses one per frame finished (those of the synthetic
      handshake and ClientInit are never returned) and gains one per message taken whole, unless a closed
      channel refused its grant. */
  lemma BrowserWindow(cfg: Config, s: State)
    requires Reachable(cfg, s) && !s.embed.lost && !s.up.pc.UpStopped?
    ensures s.embed.window >= 0
    ensures s.embed.window + EmbedUnread(s) + UpPending(s.up.pc)
            == 8 - (|s.embed.moved| - Open(s.embed)) + |s.up.msgs| - s.embed.refused
    ensures !s.embed.done ==> s.embed.refused == 0
    ensures |s.up.msgs| <= Messages(s.embed.taken)
  {
    ReachableInv(cfg, s);
    LinkMeaning(s.embed, InPipe(s.pipe, Embed), 8);
    UpCounts(s.up, s.embed.taken, s.embed.granted, cfg.readOnly);
  }

  lemma UpCounts(u: Up, taken: seq<byte>, granted: int, readOnly: bool)
    requires UpLaw(u, taken, granted, readOnly)
    ensures granted <= |u.msgs| <= Messages(taken)
    ensures !u.pc.UpStopped? ==> granted == |u.msgs| - UpPending(u.pc)
  {
    match u.pc
    case Collecting(part) => GotMeaning(taken, u.msgs, part, readOnly);
    case Forwarding(_) => GotMeaning(taken, u.msgs, [], readOnly);
    case Returning => GotMeaning(taken, u.msgs, [], readOnly);
    case _ =>
  }

  // ---- the read loop ----

  /** Frames on their way to Read. */
  function Ahead(l: Link, inPipe: seq<seq<byte>>): nat {
    |HandSeq(l)| + |l.queue| + |inPipe|
  }

  lemma TcpAhead(cfg: Config, s: State)
    requires Inv(cfg, s) && !s.tcp.gap && FramesUpTo(s.tcp.sent, READ_SIZE)
    ensures Ahead(s.tcp, InPipe(s.pipe, Tcp)) <= 8
  {
    SmallFramesReadWhole(s);
  }

  lemma EmbedAhead(cfg: Config, s: State, slack: nat)
    requires Inv(cfg, s) && !s.embed.gap && Paced(s.embed.sent, slack)
    ensures Ahead(s.embed, InPipe(s.pipe, Embed)) <= 8 + slack
    ensures !s.up.pc.UpStopped? ==> Ahead(s.embed, InPipe(s.pipe, Embed)) <= 8 + slack - UpPending(s.up.pc)
  {
    LinkPrefix(s.embed, InPipe(s.pipe, Embed), 8);
    UpCounts(s.up, s.embed.taken, s.embed.granted, cfg.readOnly);
    var k := |s.embed.moved|;
    assert s.embed.sent[..k] == s.embed.moved;
    MessagesMonotone(s.embed.taken, Concat(s.embed.moved));
  }

  /** How far a browser may run ahead without the read loop ever being blocked. */
  const FREE_SLACK: nat := 56

  /** The read loop is never blocked in delivery: for server frames of up to 32 KiB and a browser whose
      whole messages never outnumber its frames by more than 56, the next item can always be delivered,
      or is for a channel that is closed and drops it. */
  lemma ReadLoopNeverBlocks(cfg: Config, s: State)
    requires Reachable(cfg, s) && FramesUpTo(s.tcp.sent, 32768) && Paced(s.embed.sent, 56)
    requires s.pipe != []
    ensures CanDeliver(s) || EndEnabled(s, DropData)
  {
    ReachableInv(cfg, s);
    NeverBlocks(cfg, s);
  }

  lemma NeverBlocks(cfg: Config, s: State)
    requires Inv(cfg, s) && FramesUpTo(s.tcp.sent, READ_SIZE) && Paced(s.embed.sent, FREE_SLACK)
    requires s.pipe != []
    ensures CanDeliver(s) || EndEnabled(s, DropData)
  {
    if s.pipe[0].Data? {
      assert InPipe(s.pipe, s.pipe[0].port)[0] == s.pipe[0].frame;
      if s.pipe[0].port == Tcp && !s.tcp.gap {
        TcpAhead(cfg, s);
      } else if s.pipe[0].port == Embed && !s.embed.gap {
        EmbedAhead(cfg, s, FREE_SLACK);
      }
    }
  }

  // ---- bytes ----

  lemma DropPrefix(a: seq<byte>, b: seq<byte>, s: seq<byte>)
    requires a + b <= s
    ensures a <= s && b <= s[|a|..]
  {
    assert s == (a + b) + s[|a + b|..];
    Assoc(a, b, s[|a + b|..]);
  }

  /** The chunk the pump is writing. */
  function InPump(pc: DownPc): seq<byte> {
    if pc.Writing? then pc.rest else []
  }

  /** Whatever the frame boundaries, read sizes, timing and endings, the browser has a prefix of the
      server's bytes after the handshake, as long as no frame was queued after one that was dropped at a
      closed channel; while the pump runs and none was dropped, the rest is exactly what is under way. */
  lemma RelayIntegrity(cfg: Config, s: State)
    requires Reachable(cfg, s) && !s.tcp.gap
    ensures var all := Concat(s.tcp.sent);
            && s.down.greeted <= all && s.down.relayed <= all[|s.down.greeted|..]
            && (!s.down.pc.Stopped? && !s.tcp.lost ==>
                  all[|s.down.greeted|..] == s.down.relayed + (InPump(s.down.pc) + Waiting(s.tcp, InPipe(s.pipe, Tcp))))
  {
    ReachableInv(cfg, s);
    DownMeaning(s);
  }

  lemma DownMeaning(s: State)
    requires Links(s) && DownBytes(s.down, s.tcp.taken) && !s.tcp.gap
    ensures var all := Concat(s.tcp.sent);
            && s.down.greeted <= all && s.down.relayed <= all[|s.down.greeted|..]
            && (!s.down.pc.Stopped? && !s.tcp.lost ==>
                  all[|s.down.greeted|..] == s.down.relayed + (InPump(s.down.pc) + Waiting(s.tcp, InPipe(s.pipe, Tcp))))
  {
    var d, all, waiting := s.down, Concat(s.tcp.sent), Waiting(s.tcp, InPipe(s.pipe, Tcp));
    LinkPrefix(s.tcp, InPipe(s.pipe, Tcp), 4);
    if d.pc.Stopped? {
      assert d.greeted + d.relayed <= (d.greeted + d.relayed) + d.pc.late <= s.tcp.taken <= all;
    } else {
      assert s.tcp.taken == (d.greeted + d.relayed) + InPump(d.pc);
      if !s.tcp.lost {
        LinkMeaning(s.tcp, InPipe(s.pipe, Tcp), 4);
        Assoc(d.greeted + d.relayed, InPump(d.pc), waiting);
        Assoc(d.greeted, d.relayed, InPump(d.pc) + waiting);
      }
    }
    DropPrefix(d.greeted, d.relayed, all);
  }

  /** The other way: the server has a prefix of ClientInit and the kept messages of everything the browser
      sent after its 13 handshake bytes. */
  lemma BrowserIntegrity(cfg: Config, s: State)
    requires Reachable(cfg, s) && !s.embed.gap && !s.up.pc.NotYet?
    ensures var all := Concat(s.embed.sent);
            |all| >= OPENING && s.up.forwarded <= Filter.PumpOutput(all[OPENING..], cfg.readOnly)
  {
    ReachableInv(cfg, s);
    LinkPrefix(s.embed, InPipe(s.pipe, Embed), 8);
    UpMeaning(s.up, s.embed.taken, s.embed.granted, cfg.readOnly);
    PumpOutputMonotone(s.embed.taken[OPENING..], Concat(s.embed.sent)[OPENING..], cfg.readOnly);
  }

  lemma UpMeaning(u: Up, taken: seq<byte>, granted: int, readOnly: bool)
    requires UpLaw(u, taken, granted, readOnly) && !u.pc.NotYet?
    ensures |taken| >= OPENING && u.forwarded <= Filter.PumpOutput(taken[OPENING..], readOnly)
  {
    match u.pc
    case Collecting(part) => GotMeaning(taken, u.msgs, part, readOnly);
    case Forwarding(rest) => GotMeaning(taken, u.msgs, [], readOnly);
    case Returning => GotMeaning(taken, u.msgs, [], readOnly);
    case _ =>
  }

  lemma PumpOutputMonotone(a: seq<byte>, b: seq<byte>, readOnly: bool)
    requires a <= b
    ensures Filter.PumpOutput(a, readOnly) <= Filter.PumpOutput(b, readOnly)
  {
    if a != [] {
      assert b[1..] == a[1..] + b[|a|..];
      Filter.OutputMonotone(a[1..], b[|a|..], readOnly);
    }
  }
}
