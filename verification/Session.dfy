/** Who may open channels: the goroutines of one Session (orchestrate, the relay goroutines it and
    its successors start, and teardowns), interleaved at every lock region and every RPC. */
module Session {
  import opened Bytes

  datatype Purpose = TcpRelay | EmbedStream

  /** A channel the host allocated. */
  datatype Chan = Chan(id: nat, purpose: Purpose)

  /** Where a goroutine that connects, or may still come to connect, is. */
  datatype Pc =
    | OpeningTcp
    | OpeningEmbed(t: Chan)
    | ClosingTcp(t: Chan)                 // embed-stream could not be opened
    | Storing(t: Chan, e: Chan)
    | Registering(t: Chan, e: Chan)
    | Starting(t: Chan, e: Chan)
    | ReportingReady                      // updateState(ready), then done
    | Running(t: Chan, e: Chan)           // the relay goroutine
    | RelayEnded                          // ReportRelayEnded
    | LoopTop                             // reconnect: window left? torn down?
    | TakingChannels                      // closeChannels, its lock region
    | ClosingOld(oldT: Option<Chan>, oldE: Option<Chan>)
    | ClosingOldEmbed(oldE: Option<Chan>)
    | GivingUp
    | Finished

  /** orchestrate gives up after one failed connect; a reconnecting goroutine loops. */
  datatype Thread = Thread(orchestrate: bool, pc: Pc)

  datatype Teardown =
    | TearingDown
    | TdClosing(t: Option<Chan>, e: Option<Chan>)
    | TdClosingEmbed(e: Option<Chan>)
    | TdDone

  datatype Lifecycle = Connecting | Ready | Error

  /** The session's own fields, and the channels the host holds open for it. */
  datatype Shared = Shared(
    hostOpen: set<Chan>,
    tcpField: Option<Chan>,
    embedField: Option<Chan>,
    torndown: bool,
    lifecycle: Lifecycle,
    nextId: nat)

  datatype State = State(shared: Shared, threads: seq<Thread>, teardowns: seq<Teardown>)

  /** ok is the answer of the RPC (or, at LoopTop, whether the window is still open). */
  datatype Event = Step(i: nat, ok: bool) | Disconnect | TeardownStep(j: nat)

  const INIT := State(Shared({}, None, None, false, Connecting, 0), [Thread(true, OpeningTcp)], [])

  predicate Enabled(s: State, e: Event) {
    match e
    case Step(i, _) => i < |s.threads| && s.threads[i].pc != Finished
    case Disconnect => true
    case TeardownStep(j) => j < |s.teardowns| && s.teardowns[j] != TdDone
  }

  /** CloseChannel: the host is told; closing twice, or nothing, is harmless. */
  function Close(s: Shared, c: Option<Chan>): Shared {
    if c.None? then s else s.(hostOpen := s.hostOpen - {c.value})
  }

  /** What one step of a goroutine does to the session, where it goes, and what it starts. */
  datatype Outcome = Outcome(shared: Shared, pc: Pc, relay: Option<Pc> := None, teardown: bool := false)

  /** Where a failed connect leads. */
  function Failed(s: Shared, orchestrate: bool): Outcome {
    if orchestrate then Outcome(s.(lifecycle := Error), Finished) else Outcome(s, LoopTop)
  }

  function Advance(s: Shared, th: Thread, ok: bool): Outcome {
    match th.pc
    case OpeningTcp =>
      if !ok then Failed(s, th.orchestrate)
      else
        var t := Chan(s.nextId, TcpRelay);
        Outcome(s.(hostOpen := s.hostOpen + {t}, nextId := s.nextId + 1), OpeningEmbed(t))
    case OpeningEmbed(t) =>
      if !ok then Outcome(s, ClosingTcp(t))
      else
        var em := Chan(s.nextId, EmbedStream);
        Outcome(s.(hostOpen := s.hostOpen + {em}, nextId := s.nextId + 1), Storing(t, em))
    case ClosingTcp(t) => Failed(Close(s, Some(t)), th.orchestrate)
    case Storing(t, em) => Outcome(s.(tcpField := Some(t), embedField := Some(em)), Registering(t, em))
    case Registering(t, em) => if !ok then Failed(s, th.orchestrate) else Outcome(s, Starting(t, em))
    case Starting(t, em) =>
      if !ok then Failed(s, th.orchestrate) else Outcome(s, ReportingReady, Some(Running(t, em)))
    case ReportingReady => Outcome(s.(lifecycle := Ready), Finished)
    case Running(_, _) => Outcome(s, RelayEnded)
    case RelayEnded => Outcome(s, if s.torndown then Finished else LoopTop)
    case LoopTop =>
      if !ok || s.torndown then Outcome(s, GivingUp) else Outcome(s.(lifecycle := Connecting), TakingChannels)
    case TakingChannels => Outcome(s.(tcpField := None, embedField := None), ClosingOld(s.tcpField, s.embedField))
    case ClosingOld(t, em) => Outcome(Close(s, t), ClosingOldEmbed(em))
    case ClosingOldEmbed(em) => Outcome(Close(s, em), OpeningTcp)
    case GivingUp => Outcome(s.(lifecycle := Error), Finished, None, true)
    case Finished => Outcome(s, Finished)
  }

  function AdvanceTeardown(s: Shared, td: Teardown): (Shared, Teardown) {
    match td
    case TearingDown =>
      if s.torndown then (s, TdDone) else (s.(torndown := true), TdClosing(s.tcpField, s.embedField))
    case TdClosing(t, em) => (Close(s, t), TdClosingEmbed(em))
    case TdClosingEmbed(em) => (Close(s, em), TdDone)
    case TdDone => (s, TdDone)
  }

  function Next(s: State, e: Event): State
    requires Enabled(s, e)
  {
    match e
    case Disconnect => s.(teardowns := s.teardowns + [TearingDown])
    case TeardownStep(j) =>
      var (shared, td) := AdvanceTeardown(s.shared, s.teardowns[j]);
      s.(shared := shared, teardowns := s.teardowns[j := td])
    case Step(i, ok) =>
      var o := Advance(s.shared, s.threads[i], ok);
      State(o.shared,
            s.threads[i := s.threads[i].(pc := o.pc)] + (if o.relay.Some? then [Thread(false, o.relay.value)] else []),
            s.teardowns + (if o.teardown then [TearingDown] else []))
  }

  ghost predicate Reaches(s: State, es: seq<Event>, s': State)
    decreases |es|
  {
    if es == [] then s' == s else Enabled(s, es[0]) && Reaches(Next(s, es[0]), es[1..], s')
  }

  // ---- the invariant ----

  function Only(c: Option<Chan>): set<Chan> {
    if c.None? then {} else {c.value}
  }

  predicate Right(c: Option<Chan>, p: Purpose) {
    c.Some? ==> c.value.purpose == p
  }

  predicate Connected(s: Shared, t: Chan, e: Chan) {
    t.purpose == TcpRelay && e.purpose == EmbedStream && s.tcpField == Some(t) && s.embedField == Some(e)
    && s.hostOpen <= {t, e}
  }

  predicate NoFields(s: Shared) {
    s.tcpField.None? && s.embedField.None?
  }

  /** What the goroutine in charge may have left open at the host. */
  predicate InCharge(s: Shared, pc: Pc) {
    match pc
    case OpeningTcp => NoFields(s) && s.hostOpen == {}
    case OpeningEmbed(t) => NoFields(s) && t.purpose == TcpRelay && s.hostOpen <= {t}
    case ClosingTcp(t) => NoFields(s) && t.purpose == TcpRelay && s.hostOpen <= {t}
    case Storing(t, e) => NoFields(s) && t.purpose == TcpRelay && e.purpose == EmbedStream && s.hostOpen <= {t, e}
    case Registering(t, e) => Connected(s, t, e)
    case Starting(t, e) => Connected(s, t, e)
    case Running(t, e) => Connected(s, t, e)
    case ClosingOld(t, e) => NoFields(s) && Right(t, TcpRelay) && Right(e, EmbedStream)
        && s.hostOpen <= Only(t) + Only(e)
    case ClosingOldEmbed(e) => NoFields(s) && Right(e, EmbedStream) && s.hostOpen <= Only(e)
    case _ => Right(s.tcpField, TcpRelay) && Right(s.embedField, EmbedStream)
              && s.hostOpen <= Only(s.tcpField) + Only(s.embedField)
  }

  /** A goroutine that can open a channel now or later without being started anew. */
  predicate MayOpen(pc: Pc) {
    pc != Finished && pc != ReportingReady
  }

  /** Every goroutine but the newest has handed over for good. */
  predicate HandedOver(threads: seq<Thread>) {
    threads != [] && forall i :: 0 <= i < |threads| - 1 ==> !MayOpen(threads[i].pc)
  }

  function Newest(s: State): Pc
    requires s.threads != []
  {
    s.threads[|s.threads| - 1].pc
  }

  predicate Inv(s: State) {
    HandedOver(s.threads) && InCharge(s.shared, Newest(s))
  }

  /** The goroutine in charge stays within its bounds, or hands them to the one it starts. */
  lemma AdvanceInCharge(s: Shared, th: Thread, ok: bool)
    requires InCharge(s, th.pc)
    ensures var o := Advance(s, th, ok);
            if o.relay.Some? then !MayOpen(o.pc) && InCharge(o.shared, o.relay.value) else InCharge(o.shared, o.pc)
  {
  }

  /** One that has handed over opens nothing, starts nothing and leaves the fields alone. */
  lemma AdvanceRetired(s: Shared, th: Thread, ok: bool)
    requires !MayOpen(th.pc)
    ensures var o := Advance(s, th, ok);
            !MayOpen(o.pc) && o.relay.None? && !o.teardown && o.shared == s.(lifecycle := o.shared.lifecycle)
  {
  }

  /** A teardown only ever closes. */
  lemma AdvanceTeardownCloses(s: Shared, td: Teardown)
    ensures var (s', td') := AdvanceTeardown(s, td);
            s'.hostOpen <= s.hostOpen && s' == s.(hostOpen := s'.hostOpen, torndown := s'.torndown)
                && (s.torndown ==> s'.torndown)
  {
  }

  lemma ClosingKeepsInCharge(s: Shared, s': Shared, pc: Pc)
    requires InCharge(s, pc) && s'.hostOpen <= s.hostOpen
    requires s' == s.(hostOpen := s'.hostOpen, torndown := s'.torndown, lifecycle := s'.lifecycle)
    ensures InCharge(s', pc)
  {
  }

  /** How a step changes the shared state and the goroutine in charge. */
  lemma StepCases(s: State, e: Event)
    requires Inv(s) && Enabled(s, e)
    ensures var s' := Next(s, e);
            && HandedOver(s'.threads)
            && (if e.Step? && e.i == |s.threads| - 1 then
                  var o := Advance(s.shared, s.threads[e.i], e.ok);
                  s'.shared == o.shared && Newest(s') == if o.relay.Some? then o.relay.value else o.pc
                else
                  && Newest(s') == Newest(s) && s'.shared.hostOpen <= s.shared.hostOpen
                  && (s.shared.torndown ==> s'.shared.torndown)
                  && s'.shared == s.shared.(hostOpen := s'.shared.hostOpen, torndown := s'.shared.torndown,
                                               lifecycle := s'.shared.lifecycle))
  {
    match e
    case Disconnect =>
    case TeardownStep(j) => AdvanceTeardownCloses(s.shared, s.teardowns[j]);
    case Step(i, ok) =>
      if i == |s.threads| - 1 {
        AdvanceInCharge(s.shared, s.threads[i], ok);
      } else {
        AdvanceRetired(s.shared, s.threads[i], ok);
      }
  }

  lemma StepKeepsInv(s: State, e: Event)
    requires Inv(s) && Enabled(s, e)
    ensures Inv(Next(s, e))
  {
    StepCases(s, e);
    if e.Step? && e.i == |s.threads| - 1 {
      AdvanceInCharge(s.shared, s.threads[e.i], e.ok);
    } else {
      ClosingKeepsInCharge(s.shared, Next(s, e).shared, Newest(s));
    }
  }

  lemma {:induction false} RunKeepsInv(s: State, es: seq<Event>, s': State)
    requires Inv(s) && Reaches(s, es, s')
    ensures Inv(s')
    decreases |es|
  {
    if es != [] {
      StepKeepsInv(s, es[0]);
      RunKeepsInv(Next(s, es[0]), es[1..], s');
    }
  }

  /** One session never holds more than two channels at the host, at most one per purpose, and at
      most one of its goroutines can ever open one. */
  lemma ChannelBound(es: seq<Event>, s: State)
    requires Reaches(INIT, es, s)
    ensures |s.shared.hostOpen| <= 2
    ensures forall c, d :: c in s.shared.hostOpen && d in s.shared.hostOpen && c.purpose == d.purpose ==> c == d
    ensures forall i, j | 0 <= i < |s.threads| && 0 <= j < |s.threads| ::
              MayOpen(s.threads[i].pc) && MayOpen(s.threads[j].pc) ==> i == j
  {
    RunKeepsInv(INIT, es, s);
    var t, e := TwoChannels(s.shared, Newest(s));
    assert |{t, e}| <= 2;
    SubsetSize(s.shared.hostOpen, {t, e});
  }

  /** Two channels of different purpose that cover everything open. */
  lemma TwoChannels(s: Shared, pc: Pc) returns (t: Chan, e: Chan)
    requires InCharge(s, pc)
    ensures t.purpose == TcpRelay && e.purpose == EmbedStream && s.hostOpen <= {t, e}
  {
    t, e := Chan(0, TcpRelay), Chan(0, EmbedStream);
    match pc
    case OpeningTcp =>
    case OpeningEmbed(t') => t := t';
    case ClosingTcp(t') => t := t';
    case Storing(t', e') => t, e := t', e';
    case Registering(t', e') => t, e := t', e';
    case Starting(t', e') => t, e := t', e';
    case Running(t', e') => t, e := t', e';
    case ClosingOld(t', e') =>
      if t'.Some? { t := t'.value; }
      if e'.Some? { e := e'.value; }
    case ClosingOldEmbed(e') => if e'.Some? { e := e'.value; }
    case _ =>
      if s.tcpField.Some? { t := s.tcpField.value; }
      if s.embedField.Some? { e := s.embedField.value; }
  }

  lemma {:induction false} SubsetSize<T>(a: set<T>, b: set<T>)
    requires a <= b
    ensures |a| <= |b|
    decreases |a|
  {
    if a != {} {
      var x :| x in a;
      SubsetSize(a - {x}, b - {x});
    }
  }

  // ---- after a teardown ----

  /** Channels the goroutine in charge may still open before it looks at torndown again. */
  function OpensLeft(pc: Pc): nat {
    match pc
    case OpeningTcp => 2
    case OpeningEmbed(_) => 1
    case TakingChannels => 2
    case ClosingOld(_, _) => 2
    case ClosingOldEmbed(_) => 2
    case _ => 0
  }

  /** Once a session is torn down no new attempt starts: what was under way opens at most the rest
      of its two channels, and that is the last of it. */
  lemma {:induction false} NoAttemptAfterTeardown(s: State, es: seq<Event>, s': State)
    requires Inv(s) && s.shared.torndown && Reaches(s, es, s')
    ensures Inv(s') && s'.shared.torndown
    ensures s'.shared.nextId + OpensLeft(Newest(s')) <= s.shared.nextId + OpensLeft(Newest(s)) <= s.shared.nextId + 2
    decreases |es|
  {
    if es != [] {
      StepKeepsInv(s, es[0]);
      StepCases(s, es[0]);
      NoAttemptAfterTeardown(Next(s, es[0]), es[1..], s');
    }
  }

  /** No channel is still to be opened, and the session's fields name every open one: the goroutine in
      charge holds none that only it knows of. */
  predicate Settled(s: Shared, pc: Pc) {
    OpensLeft(pc) == 0 && (pc.ClosingTcp? || pc.Storing? ==> s.hostOpen == {})
  }

  /** What teardown j still has to close. */
  function ToClose(td: Teardown): set<Chan> {
    match td
    case TearingDown => {}
    case TdClosing(t, e) => Only(t) + Only(e)
    case TdClosingEmbed(e) => Only(e)
    case TdDone => {}
  }

  predicate Sealed(s: State, j: nat) {
    && Inv(s) && s.shared.torndown && Settled(s.shared, Newest(s))
    && j < |s.teardowns| && !s.teardowns[j].TearingDown? && s.shared.hostOpen <= ToClose(s.teardowns[j])
  }

  lemma SealedStep(s: State, j: nat, e: Event)
    requires Sealed(s, j) && Enabled(s, e)
    ensures Sealed(Next(s, e), j)
  {
    StepKeepsInv(s, e);
    StepCases(s, e);
  }

  lemma {:induction false} SealedRun(s: State, j: nat, es: seq<Event>, s': State)
    requires Sealed(s, j) && Reaches(s, es, s')
    ensures Sealed(s', j)
    decreases |es|
  {
    if es != [] {
      SealedStep(s, j, es[0]);
      SealedRun(Next(s, es[0]), j, es[1..], s');
    }
  }

  lemma TeardownOfSettled(s: State, j: nat, after: seq<Event>, s': State)
    requires Inv(s) && !s.shared.torndown && j < |s.teardowns| && s.teardowns[j].TearingDown?
    requires Settled(s.shared, Newest(s))
    requires Reaches(Next(s, TeardownStep(j)), after, s') && j < |s'.teardowns| && s'.teardowns[j] == TdDone
    ensures s'.shared.hostOpen == {}
  {
    StepKeepsInv(s, TeardownStep(j));
    SealedRun(Next(s, TeardownStep(j)), j, after, s');
  }

  lemma Cons(s: State, e: Event, es: seq<Event>, s': State)
    requires Enabled(s, e) && Reaches(Next(s, e), es, s')
    ensures Reaches(s, [e] + es, s')
  {
    assert ([e] + es)[1..] == es;
  }

  /** A connect that still has a channel to open can go on and open it. */
  lemma OpensAgain(s: State) returns (es: seq<Event>, s': State)
    requires Inv(s) && OpensLeft(Newest(s)) > 0
    ensures Reaches(s, es, s') && s'.shared.hostOpen != {} && s'.teardowns == s.teardowns
    decreases match Newest(s)
              case TakingChannels => 3 case ClosingOld(_, _) => 2 case ClosingOldEmbed(_) => 1 case _ => 0
  {
    var e := Step(|s.threads| - 1, true);
    var n := Next(s, e);
    StepKeepsInv(s, e);
    StepCases(s, e);
    if Newest(s).OpeningTcp? || Newest(s).OpeningEmbed? {
      es, s' := [], n;
      var added := Chan(s.shared.nextId, if Newest(s).OpeningTcp? then TcpRelay else EmbedStream);
      assert added in n.shared.hostOpen;
    } else {
      es, s' := OpensAgain(n);
    }
    Cons(s, e, es, s');
    es := [e] + es;
  }

  /** Otherwise the teardown can run to its end and a channel still be open afterwards. */
  lemma TeardownMisses(s: State, j: nat) returns (es: seq<Event>, s': State)
    requires Inv(s) && !s.shared.torndown && j < |s.teardowns| && s.teardowns[j].TearingDown?
    requires !Settled(s.shared, Newest(s))
    ensures es != [] && es[0] == TeardownStep(j)
    ensures Reaches(s, es, s') && j < |s'.teardowns| && s'.teardowns[j] == TdDone && s'.shared.hostOpen != {}
  {
    var td := TeardownStep(j);
    var s1 := Next(s, td);
    var s2 := Next(s1, td);
    var s3 := Next(s2, td);
    StepKeepsInv(s, td);
    StepKeepsInv(s1, td);
    StepKeepsInv(s2, td);
    if OpensLeft(Newest(s)) > 0 {
      es, s' := OpensAgain(s3);
    } else {
      es, s' := [], s3;
    }
    Cons(s2, td, es, s');
    Cons(s1, td, [td] + es, s');
    Cons(s, td, [td] + ([td] + es), s');
    es := [td] + ([td] + ([td] + es));
  }

  /** In every continuation, once teardown j has run to its end the host has nothing open. */
  ghost predicate DoneClosesAll(s: State, j: nat) {
    forall after, s' :: Reaches(s, after, s') && j < |s'.teardowns| && s'.teardowns[j] == TdDone ==>
        s'.shared.hostOpen == {}
  }

  /** Exactly when a session's teardown is sure to leave nothing open at the host: when, as it takes
      the lock, no connect has a channel to open or a channel it has not stored. */
  lemma TeardownClosesEverything(before: seq<Event>, s: State, j: nat)
    requires Reaches(INIT, before, s) && !s.shared.torndown
    requires j < |s.teardowns| && s.teardowns[j].TearingDown?
    ensures s.threads != []
    ensures Settled(s.shared, Newest(s)) <==> DoneClosesAll(Next(s, TeardownStep(j)), j)
  {
    RunKeepsInv(INIT, before, s);
    var locked := Next(s, TeardownStep(j));
    if Settled(s.shared, Newest(s)) {
      forall after, s' | Reaches(locked, after, s') && j < |s'.teardowns| && s'.teardowns[j] == TdDone
        ensures s'.shared.hostOpen == {}
      {
        TeardownOfSettled(s, j, after, s');
      }
    } else {
      var es, s' := TeardownMisses(s, j);
      assert Reaches(locked, es[1..], s') && !DoneClosesAll(locked, j);
    }
  }

  /** So the only teardown a session gets can have finished with a channel open at the host. */
  lemma TeardownCanMiss() returns (es: seq<Event>, s: State)
    ensures Reaches(INIT, es, s) && |s.teardowns| > 0 && s.teardowns[0] == TdDone && s.shared.hostOpen != {}
  {
    es, s := TeardownMisses(Next(INIT, Disconnect), 0);
    Cons(INIT, Disconnect, es, s);
    es := [Disconnect] + es;
  }

  // ---- disconnects and errors ----

  /** Neither connecting nor reconnecting: a relay is up or has just ended, or nobody is in charge. */
  predicate Quiet(pc: Pc) {
    pc.Running? || pc.RelayEnded? || pc.ReportingReady? || pc.Finished?
  }

  /** Steps on the way to an error report when everything fails. */
  function StepsToError(pc: Pc): nat {
    match pc
    case GivingUp => 1
    case LoopTop => 2
    case OpeningTcp => 3
    case ClosingTcp(_) => 3
    case Registering(_, _) => 3
    case Starting(_, _) => 3
    case OpeningEmbed(_) => 4
    case Storing(_, _) => 4
    case ClosingOldEmbed(_) => 4
    case ClosingOld(_, _) => 5
    case TakingChannels => 6
    case _ => 0
  }

  lemma {:induction false} QuietRun(s: State, es: seq<Event>, s': State)
    requires Inv(s) && s.shared.torndown && s.shared.lifecycle != Error && Quiet(Newest(s)) && Reaches(s, es, s')
    ensures s'.shared.lifecycle != Error
    decreases |es|
  {
    if es != [] {
      StepKeepsInv(s, es[0]);
      StepCases(s, es[0]);
      QuietRun(Next(s, es[0]), es[1..], s');
    }
  }

  lemma FailsToError(s: State) returns (es: seq<Event>, s': State)
    requires Inv(s) && !Quiet(Newest(s))
    ensures Reaches(s, es, s') && s'.shared.lifecycle == Error
    decreases StepsToError(Newest(s))
  {
    var e := Step(|s.threads| - 1, false);
    var n := Next(s, e);
    StepKeepsInv(s, e);
    StepCases(s, e);
    if n.shared.lifecycle == Error {
      es, s' := [], n;
    } else {
      es, s' := FailsToError(n);
    }
    Cons(s, e, es, s');
    es := [e] + es;
  }

  ghost predicate NeverError(s: State) {
    forall after, s' :: Reaches(s, after, s') ==> s'.shared.lifecycle != Error
  }

  /** A disconnect is never reported as an error exactly if, as its teardown takes the lock, the
      session is neither connecting nor reconnecting. */
  lemma DisconnectReported(before: seq<Event>, s: State, j: nat)
    requires Reaches(INIT, before, s) && !s.shared.torndown && s.shared.lifecycle != Error
    requires j < |s.teardowns| && s.teardowns[j].TearingDown?
    ensures s.threads != []
    ensures Quiet(Newest(s)) <==> NeverError(Next(s, TeardownStep(j)))
  {
    RunKeepsInv(INIT, before, s);
    var locked := Next(s, TeardownStep(j));
    StepKeepsInv(s, TeardownStep(j));
    if Quiet(Newest(s)) {
      forall after, s' | Reaches(locked, after, s') ensures s'.shared.lifecycle != Error {
        QuietRun(locked, after, s');
      }
    } else {
      var es, s' := FailsToError(locked);
      assert Reaches(locked, es, s') && !NeverError(locked);
    }
  }

  /** Both channels open, about to be stored. */
  lemma ChannelsOpen() returns (es: seq<Event>, s: State, t: Chan, e: Chan)
    ensures Reaches(INIT, es, s) && !s.shared.torndown && s.teardowns == []
    ensures s.threads == [Thread(true, Storing(t, e))]
    ensures s.shared.hostOpen == {t, e} && t.purpose == TcpRelay && e.purpose == EmbedStream
  {
    es, s := Go([], INIT, Step(0, true));
    t := Chan(0, TcpRelay);
    assert s.threads == [Thread(true, OpeningEmbed(t))];
    es, s := Go(es, s, Step(0, true));
    e := Chan(1, EmbedStream);
  }

  lemma SessionUp() returns (es: seq<Event>, s: State, t: Chan, e: Chan)
    ensures Reaches(INIT, es, s) && !s.shared.torndown && s.teardowns == []
    ensures s.threads == [Thread(true, ReportingReady), Thread(false, Running(t, e))]
  {
    es, s, t, e := ChannelsOpen();
    es, s := Go(es, s, Step(0, true));
    assert s.threads == [Thread(true, Registering(t, e))];
    es, s := Go(es, s, Step(0, true));
    assert s.threads == [Thread(true, Starting(t, e))];
    es, s := Go(es, s, Step(0, true));
  }

  /** A session that was up and whose relay has ended. */
  lemma RelayLost() returns (es: seq<Event>, s: State)
    ensures Reaches(INIT, es, s) && !s.shared.torndown && s.teardowns == []
    ensures s.threads == [Thread(true, ReportingReady), Thread(false, LoopTop)]
  {
    var t, e;
    es, s, t, e := SessionUp();
    es, s := Go(es, s, Step(1, true));
    es, s := Go(es, s, Step(1, true));
  }

  /** And it does happen to a session that was up: its relay ends, the user disconnects, and the
      reconnect loop sees torndown and gives up. */
  lemma DisconnectCanBeReported() returns (es: seq<Event>, s: State)
    ensures Reaches(INIT, es, s) && s.shared.torndown && s.shared.lifecycle == Error
  {
    es, s := RelayLost();
    es, s := Go(es, s, Disconnect);
    es, s := Go(es, s, TeardownStep(0));
    es, s := Go(es, s, Step(1, true));
    es, s := Go(es, s, Step(1, true));
  }

  // ---- what is reported ----

  predicate OthersDone(threads: seq<Thread>) {
    forall i :: 0 <= i < |threads| - 1 ==> threads[i].pc == Finished
  }

  predicate UpIsReady(s: State) {
    && s.threads != []
    && ((Newest(s).Running? || Newest(s).RelayEnded?) && OthersDone(s.threads) ==> s.shared.lifecycle == Ready)
  }

  lemma StepKeepsReady(s: State, e: Event)
    requires Inv(s) && UpIsReady(s) && Enabled(s, e)
    ensures UpIsReady(Next(s, e))
  {
    StepCases(s, e);
    var s' := Next(s, e);
    if e.Step? && e.i < |s.threads| - 1 {
      assert s.threads[e.i].pc == ReportingReady;
    } else if e.Step? {
      if s'.threads != [] && |s'.threads| > |s.threads| {
        assert s'.threads[|s.threads| - 1].pc == ReportingReady;
      } else if OthersDone(s'.threads) {
        forall i | 0 <= i < |s.threads| - 1 ensures s.threads[i].pc == Finished {
          assert s'.threads[i] == s.threads[i];
        }
      }
    }
  }

  lemma {:induction false} RunKeepsReady(s: State, es: seq<Event>, s': State)
    requires Inv(s) && UpIsReady(s) && Reaches(s, es, s')
    ensures UpIsReady(s')
    decreases |es|
  {
    if es != [] {
      StepKeepsReady(s, es[0]);
      StepKeepsInv(s, es[0]);
      RunKeepsReady(Next(s, es[0]), es[1..], s');
    }
  }

  /** A session whose relay runs, and whose connects have all made their report, is ready. */
  lemma RelayingIsReady(es: seq<Event>, s: State)
    requires Reaches(INIT, es, s)
    ensures s.threads != []
    ensures Newest(s).Running? && OthersDone(s.threads) ==> s.shared.lifecycle == Ready
  {
    RunKeepsReady(INIT, es, s);
  }

  /** Where a goroutine is that has not come to its first Serve yet. */
  predicate Arriving(pc: Pc) {
    pc.OpeningTcp? || pc.OpeningEmbed? || pc.ClosingTcp? || pc.Storing? || pc.Registering? || pc.Starting?
  }

  /** A session that was up and has nobody in charge any more is torn down, or about to be. */
  predicate NotAbandoned(s: State) {
    && s.threads != [] && !Newest(s).ReportingReady?
    && (forall i :: 0 <= i < |s.threads| ==> (s.threads[i].orchestrate <==> i == 0))
    && (|s.threads| == 1 ==> Arriving(Newest(s)) || (Newest(s).Finished? && s.shared.lifecycle == Error))
    && (|s.threads| > 1 && Newest(s).Finished? ==> s.shared.torndown || TearingDown in s.teardowns)
  }

  /** A teardown that waits for the lock goes on waiting, or takes it. */
  lemma StepKeepsWaiting(s: State, e: Event)
    requires Inv(s) && Enabled(s, e)
    ensures var s' := Next(s, e);
            && (s.shared.torndown ==> s'.shared.torndown)
            && (TearingDown in s.teardowns ==> s'.shared.torndown || TearingDown in s'.teardowns)
            && (e.Step? && Advance(s.shared, s.threads[e.i], e.ok).teardown ==> TearingDown in s'.teardowns)
  {
    var s' := Next(s, e);
    match e
    case Step(i, ok) =>
      if Advance(s.shared, s.threads[i], ok).teardown {
        assert s'.teardowns[|s.teardowns|] == TearingDown;
      }
    case Disconnect =>
      assert s'.teardowns[|s.teardowns|] == TearingDown;
    case TeardownStep(j) =>
      if TearingDown in s.teardowns {
        var k :| 0 <= k < |s.teardowns| && s.teardowns[k] == TearingDown;
        assert k != j ==> s'.teardowns[k] == TearingDown;
      }
  }

  lemma StepAbandonsNone(s: State, e: Event)
    requires Inv(s) && NotAbandoned(s) && Enabled(s, e)
    ensures NotAbandoned(Next(s, e))
  {
    StepCases(s, e);
    StepKeepsWaiting(s, e);
  }

  lemma {:induction false} RunAbandonsNone(s: State, es: seq<Event>, s': State)
    requires Inv(s) && NotAbandoned(s) && Reaches(s, es, s')
    ensures NotAbandoned(s')
    decreases |es|
  {
    if es != [] {
      StepAbandonsNone(s, es[0]);
      StepKeepsInv(s, es[0]);
      RunAbandonsNone(Next(s, es[0]), es[1..], s');
    }
  }

  /** When nobody is in charge any more: a first connect that failed has been reported as an error, and a
      session that was up has been torn down, or its teardown is waiting to take the lock. */
  lemma EndIsReported(es: seq<Event>, s: State)
    requires Reaches(INIT, es, s)
    ensures s.threads != []
    ensures |s.threads| == 1 && Newest(s) == Finished ==> s.shared.lifecycle == Error
    ensures |s.threads| > 1 && Newest(s) == Finished ==> s.shared.torndown || TearingDown in s.teardowns
  {
    RunAbandonsNone(INIT, es, s);
  }

  /** The report of a connect can come late: with everything over and torn down, the last that is reported
      may be that the session is ready. */
  lemma DeadCanBeReportedReady() returns (es: seq<Event>, s: State)
    ensures Reaches(INIT, es, s) && s.shared.torndown && s.shared.lifecycle == Ready
    ensures |s.threads| == 2 && s.threads[0].pc == Finished && s.threads[1].pc == Finished
  {
    es, s := RelayLost();
    es, s := Go(es, s, Disconnect);
    es, s := Go(es, s, TeardownStep(0));
    es, s := Go(es, s, Step(1, true));
    es, s := Go(es, s, Step(1, true));
    es, s := Go(es, s, Step(0, true));
  }

  lemma Go(es: seq<Event>, s: State, e: Event) returns (es': seq<Event>, s': State)
    requires Reaches(INIT, es, s) && Enabled(s, e)
    ensures es' == es + [e] && s' == Next(s, e) && Reaches(INIT, es', s')
  {
    es', s' := es + [e], Next(s, e);
    Extend(INIT, es, s, e);
  }

  lemma {:induction false} Extend(s: State, es: seq<Event>, s': State, e: Event)
    requires Reaches(s, es, s') && Enabled(s', e)
    ensures Reaches(s, es + [e], Next(s', e))
    decreases |es|
  {
    if es == [] {
      assert es + [e] == [e];
    } else {
      assert (es + [e])[1..] == es[1..] + [e];
      Extend(Next(s, es[0]), es[1..], s', e);
    }
  }
}
