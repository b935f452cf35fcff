/** How channels and pumps come to an end: when a read pump may return, and what a relay goroutine that
    returns leaves unwritten. */
module RelayEndings {
  import opened Bytes
  import opened ClientMessage
  import opened Pacing
  import opened Relay
  import opened RelayLink
  import opened RelayInvariant
  import opened RelayHistory
  import Filter = ReadOnlyFilter

  // ---- the read pumps ----

  lemma {:induction false} RunEnds(cfg: Config, s: State, es: seq<Event>, s': State, p: Port)
    requires Reaches(cfg, s, es, s')
    ensures LinkOf(s', p).closed <==> LinkOf(s, p).closed || Ending(Close(p)) in es
    ensures LinkOf(s', p).done <==> LinkOf(s, p).done || Ending(Sever(p)) in es
    ensures LinkOf(s', p).gone <==> LinkOf(s, p).gone || Ending(PumpExit(p)) in es
    decreases |es|
  {
    if es != [] {
      StepEnds(cfg, s, es[0], p);
      RunEnds(cfg, Next(cfg, s, es[0]), es[1..], s', p);
      assert es == [es[0]] + es[1..];
    }
  }

  lemma StepEnds(cfg: Config, s: State, e: Event, p: Port)
    requires Enabled(s, e)
    ensures var l, l' := LinkOf(s, p), LinkOf(Next(cfg, s, e), p);
            && (l'.closed <==> l.closed || e == Ending(Close(p)))
            && (l'.done <==> l.done || e == Ending(Sever(p)))
            && (l'.gone <==> l.gone || e == Ending(PumpExit(p)))
  {
    match e
    case Host(_) =>
    case Deliver => DeliveryUndisturbed(s, p);
    case ReadPump(q) => PumpUndisturbed(s, q, p);
    case SetUp(e') => SetupUndisturbed(s, e');
    case Downward(e') => DownUndisturbed(cfg.policy, s, e');
    case Upward(e') => UpUndisturbed(cfg.readOnly, s, e');
    case Ending(e') => EndMarks(s, e', p);
  }

  /** In every run a read pump can return exactly if it has not yet, and either holds a payload of a channel
      that was closed under it, or has nothing left of one that is done. */
  lemma ReadPumpReturnsIff(cfg: Config, es: seq<Event>, s: State, p: Port)
    requires Reaches(cfg, INIT, es, s)
    ensures Enabled(s, Ending(PumpExit(p))) <==>
            && Ending(PumpExit(p)) !in es
            && if LinkOf(s, p).hand.Some? then Ending(Close(p)) in es
               else Ending(Sever(p)) in es && LinkOf(s, p).queue == []
  {
    RunEnds(cfg, INIT, es, s, p);
  }

  // ---- the relay goroutines ----

  /** What a downward pump that has returned leaves out: nothing if it handed its last chunk over, and never
      more than one read. */
  predicate DownLateLaw(s: State, handed: bool) {
    var d := s.down;
    match d.pc
    case Writing(rest) => !handed && |rest| <= 32768
    case Stopped(late) =>
      var out := (d.greeted + d.relayed) + late;
      |s.tcp.taken| <= |out| + 32768 && (handed ==> s.tcp.taken == out)
    case _ => !handed
  }

  lemma DownLateStep(cfg: Config, s: State, e: DownStep, handed: bool)
    requires DownEnabled(s, e) && DownLateLaw(s, handed)
    ensures DownLateLaw(DownNext(cfg.policy, s, e), handed)
  {
  }

  lemma SetupLateStep(s: State, e: SetupStep, handed: bool)
    requires SetupEnabled(s, e) && DownLateLaw(s, handed)
    ensures DownLateLaw(SetupNext(s, e), handed)
  {
  }

  lemma UpLeavesDown(cfg: Config, s: State, e: UpStep)
    requires UpEnabled(s, e)
    ensures UpNext(cfg.readOnly, s, e).down == s.down && UpNext(cfg.readOnly, s, e).tcp.taken == s.tcp.taken
  {
  }

  lemma OthersLeaveDown(cfg: Config, s: State, e: Event)
    requires Enabled(s, e) && (e.Host? || e.Deliver? || e.ReadPump?)
    ensures Next(cfg, s, e).down == s.down && Next(cfg, s, e).tcp.taken == s.tcp.taken
  {
  }

  lemma EndLateStep(s: State, e: EndStep, handed: bool)
    requires DownBytes(s.down, s.tcp.taken) && EndEnabled(s, e) && DownLateLaw(s, handed)
    ensures DownLateLaw(EndNext(s, e), handed || e == EndDown(true))
  {
    var d := s.down;
    match e
    case EndDown(late) =>
      assert (d.greeted + d.relayed) + [] == d.greeted + d.relayed;
    case LateDown =>
      Assoc(d.greeted, d.relayed, d.pc.late);
      assert (d.greeted + (d.relayed + d.pc.late)) + [] == (d.greeted + d.relayed) + d.pc.late;
    case _ => EndLeavesDown(s, e);
  }

  lemma EndLeavesDown(s: State, e: EndStep)
    requires EndEnabled(s, e) && !e.EndDown? && !e.LateDown?
    ensures EndNext(s, e).down == s.down && EndNext(s, e).tcp.taken == s.tcp.taken
  {
  }

  lemma StepLate(cfg: Config, s: State, e: Event, handed: bool)
    requires Inv(cfg, s) && Enabled(s, e) && DownLateLaw(s, handed)
    ensures DownLateLaw(Next(cfg, s, e), handed || e == Ending(EndDown(true)))
  {
    match e
    case SetUp(e') => SetupLateStep(s, e', handed);
    case Downward(e') => DownLateStep(cfg, s, e', handed);
    case Upward(e') => UpLeavesDown(cfg, s, e');
    case Ending(e') => EndLateStep(s, e', handed);
    case _ => OthersLeaveDown(cfg, s, e);
  }

  // ---- the upward pump ----

  predicate Short(msgs: seq<Message>) {
    forall m :: m in msgs ==> |m.body| < 1048576
  }

  predicate UpLateLaw(s: State, readOnly: bool, handed: bool) {
    var u := s.up;
    match u.pc
    case Forwarding(rest) => !handed && u.msgs != [] && |rest| <= 1 + |u.msgs[|u.msgs| - 1].body|
    case UpStopped(late) =>
      if |s.embed.taken| < PREAMBLE then u.forwarded == [] && late == []
      else handed && Short(u.msgs) ==> u.forwarded + late == Kept(s.embed.taken, u.msgs, readOnly)
    case _ => !handed
  }

  lemma UpLateUp(cfg: Config, s: State, e: UpStep, handed: bool)
    requires UpEnabled(s, e) && UpLateLaw(s, cfg.readOnly, handed)
    ensures UpLateLaw(UpNext(cfg.readOnly, s, e), cfg.readOnly, handed)
  {
    var s' := UpNext(cfg.readOnly, s, e);
    if s'.up.pc.Forwarding? && e.Finish? {
      assert s'.up.msgs[|s.up.msgs|].body == s.up.pc.part[1..];
    }
  }

  lemma SetupLeavesUp(cfg: Config, s: State, e: SetupStep, handed: bool)
    requires Inv(cfg, s) && SetupEnabled(s, e) && UpLateLaw(s, cfg.readOnly, handed)
    ensures UpLateLaw(SetupNext(s, e), cfg.readOnly, handed)
  {
  }

  lemma DownLeavesUp(cfg: Config, s: State, e: DownStep)
    requires DownEnabled(s, e)
    ensures DownNext(cfg.policy, s, e).up == s.up && DownNext(cfg.policy, s, e).embed.taken == s.embed.taken
  {
  }

  lemma OthersLeaveUp(cfg: Config, s: State, e: Event)
    requires Enabled(s, e) && (e.Host? || e.Deliver? || e.ReadPump?)
    ensures Next(cfg, s, e).up == s.up && Next(cfg, s, e).embed.taken == s.embed.taken
  {
  }

  lemma UpHandsOver(cfg: Config, s: State, handed: bool, late: bool)
    requires UpLaw(s.up, s.embed.taken, s.embed.granted, cfg.readOnly)
    requires EndEnabled(s, EndUp(late)) && UpLateLaw(s, cfg.readOnly, handed)
    ensures UpLateLaw(EndNext(s, EndUp(late)), cfg.readOnly, late)
  {
    var u := s.up;
    assert u.forwarded + [] == u.forwarded;
    if u.pc.SendInit? {
      assert Kept(s.embed.taken, [], cfg.readOnly) == u.pc.init;
    } else if u.pc.Forwarding? && late && Short(u.msgs) {
      assert u.msgs[|u.msgs| - 1] in u.msgs;
    }
  }

  lemma UpSendsLast(cfg: Config, s: State, handed: bool)
    requires EndEnabled(s, LateUp) && UpLateLaw(s, cfg.readOnly, handed)
    ensures UpLateLaw(EndNext(s, LateUp), cfg.readOnly, handed)
  {
    assert (s.up.forwarded + s.up.pc.late) + [] == s.up.forwarded + s.up.pc.late;
  }

  lemma EndLeavesUp(s: State, e: EndStep)
    requires EndEnabled(s, e) && !e.EndUp? && !e.LateUp?
    ensures EndNext(s, e).up == s.up && EndNext(s, e).embed.taken == s.embed.taken
  {
  }

  lemma EndLateUp(cfg: Config, s: State, e: EndStep, handed: bool)
    requires UpLaw(s.up, s.embed.taken, s.embed.granted, cfg.readOnly)
    requires EndEnabled(s, e) && UpLateLaw(s, cfg.readOnly, handed)
    ensures UpLateLaw(EndNext(s, e), cfg.readOnly, handed || e == EndUp(true))
  {
    match e
    case EndUp(late) => UpHandsOver(cfg, s, handed, late);
    case LateUp => UpSendsLast(cfg, s, handed);
    case _ => EndLeavesUp(s, e);
  }

  lemma StepLateUp(cfg: Config, s: State, e: Event, handed: bool)
    requires Inv(cfg, s) && Enabled(s, e) && UpLateLaw(s, cfg.readOnly, handed)
    ensures UpLateLaw(Next(cfg, s, e), cfg.readOnly, handed || e == Ending(EndUp(true)))
  {
    match e
    case SetUp(e') => SetupLeavesUp(cfg, s, e', handed);
    case Downward(e') => DownLeavesUp(cfg, s, e');
    case Upward(e') => UpLateUp(cfg, s, e', handed);
    case Ending(e') => EndLateUp(cfg, s, e', handed);
    case _ => OthersLeaveUp(cfg, s, e);
  }

  // ---- whole runs ----

  lemma StepLates(cfg: Config, s: State, e: Event, down: bool, up: bool)
    requires Inv(cfg, s) && Enabled(s, e) && DownLateLaw(s, down) && UpLateLaw(s, cfg.readOnly, up)
    ensures var s' := Next(cfg, s, e);
            && Inv(cfg, s') && DownLateLaw(s', down || e == Ending(EndDown(true)))
            && UpLateLaw(s', cfg.readOnly, up || e == Ending(EndUp(true)))
  {
    StepKeepsInv(cfg, s, e);
    StepLate(cfg, s, e, down);
    StepLateUp(cfg, s, e, up);
  }

  predicate Has(es: seq<Event>, e: Event) {
    es != [] && (es[0] == e || Has(es[1..], e))
  }

  lemma {:induction false} HasMeans(es: seq<Event>, e: Event)
    ensures Has(es, e) <==> e in es
  {
    if es != [] {
      HasMeans(es[1..], e);
      assert es == [es[0]] + es[1..];
    }
  }

  lemma {:induction false} RunLates(cfg: Config, s: State, es: seq<Event>, s': State, down: bool, up: bool)
    requires Inv(cfg, s) && Reaches(cfg, s, es, s') && DownLateLaw(s, down) && UpLateLaw(s, cfg.readOnly, up)
    ensures DownLateLaw(s', down || Has(es, Ending(EndDown(true))))
    ensures UpLateLaw(s', cfg.readOnly, up || Has(es, Ending(EndUp(true))))
    decreases |es|
  {
    if es != [] {
      var e := es[0];
      StepLates(cfg, s, e, down, up);
      RunLates(cfg, Next(cfg, s, e), es[1..], s', down || e == Ending(EndDown(true)), up || e == Ending(EndUp(true)));
    }
  }

  /** When the server-to-browser pump has returned, the browser lacks at most one read of what the pump took,
      32 KiB; and nothing once the write pump has sent the chunk it was handed. */
  lemma DownReturnLoses(cfg: Config, es: seq<Event>, s: State)
    requires Reaches(cfg, INIT, es, s) && s.down.pc.Stopped?
    ensures |s.tcp.taken| <= |s.down.greeted + s.down.relayed| + |s.down.pc.late| + 32768
    ensures Ending(EndDown(true)) in es && s.down.pc.late == [] ==> s.tcp.taken == s.down.greeted + s.down.relayed
  {
    InitInv(cfg);
    RunLates(cfg, INIT, es, s, false, false);
    HasMeans(es, Ending(EndDown(true)));
    assert (s.down.greeted + s.down.relayed) + [] == s.down.greeted + s.down.relayed;
  }

  /** When the browser-to-server pump has returned and its last chunk has been sent, the server has ClientInit
      and every kept message the pump had taken whole, as long as none needs more than one frame (1 MiB). */
  lemma UpReturnLoses(cfg: Config, es: seq<Event>, s: State)
    requires Reaches(cfg, INIT, es, s) && s.up.pc == UpStopped([])
    ensures |s.embed.taken| < 14 ==> s.up.forwarded == []
    ensures |s.embed.taken| >= 14 && Ending(EndUp(true)) in es && Short(s.up.msgs) ==>
              s.up.forwarded == [s.embed.taken[13]] + SerializeAll(Filter.Keep(s.up.msgs, cfg.readOnly))
  {
    InitInv(cfg);
    RunLates(cfg, INIT, es, s, false, false);
    HasMeans(es, Ending(EndUp(true)));
    assert s.up.forwarded + [] == s.up.forwarded;
  }
}
