/** What can still become of a session: whether it comes to relay again, what is reported while it tries,
    and what its teardowns do. */
module SessionOutcome {
  import opened Session

  // ---- coming to relay (again) ----

  /** The goroutine in charge is connecting or reconnecting, or will look whether it may. */
  predicate MayRelay(s: State)
    requires s.threads != []
  {
    match Newest(s)
    case ClosingTcp(_) => !s.threads[|s.threads| - 1].orchestrate && !s.shared.torndown
    case RelayEnded => !s.shared.torndown
    case LoopTop => !s.shared.torndown
    case GivingUp => false
    case ReportingReady => false
    case Finished => false
    case _ => true
  }

  function StepsToRelay(pc: Pc): nat {
    match pc
    case Running(_, _) => 0
    case Starting(_, _) => 1
    case Registering(_, _) => 2
    case Storing(_, _) => 3
    case OpeningEmbed(_) => 4
    case OpeningTcp => 5
    case ClosingOldEmbed(_) => 6
    case ClosingOld(_, _) => 7
    case TakingChannels => 8
    case LoopTop => 9
    case _ => 10
  }

  /** If every call to the host succeeds from here on, the goroutine in charge gets a relay going by its own
      steps. */
  lemma RelaysAgain(s: State) returns (es: seq<Event>, s': State)
    requires Inv(s) && MayRelay(s)
    ensures Reaches(s, es, s') && s'.threads != [] && Newest(s').Running?
    ensures forall e :: e in es ==> e.Step? && e.ok
    decreases StepsToRelay(Newest(s))
  {
    if Newest(s).Running? {
      return [], s;
    }
    var e := Step(|s.threads| - 1, true);
    var n := Next(s, e);
    StepKeepsInv(s, e);
    StepCases(s, e);
    es, s' := RelaysAgain(n);
    Cons(s, e, es, s');
    es := [e] + es;
  }

  lemma StepStaysDown(s: State, e: Event)
    requires Inv(s) && !MayRelay(s) && Enabled(s, e)
    ensures Inv(Next(s, e)) && !MayRelay(Next(s, e))
  {
    StepKeepsInv(s, e);
    StepCases(s, e);
  }

  lemma {:induction false} StaysDown(s: State, es: seq<Event>, s': State)
    requires Inv(s) && !MayRelay(s) && Reaches(s, es, s')
    ensures Inv(s') && !Newest(s').Running?
    decreases |es|
  {
    if es != [] {
      StepStaysDown(s, es[0]);
      StaysDown(Next(s, es[0]), es[1..], s');
    }
  }

  ghost predicate CanRelay(s: State) {
    exists es, s' :: Reaches(s, es, s') && s'.threads != [] && Newest(s').Running?
  }

  /** In every reachable state: the session can still come to a running relay exactly if a connect is under way
      that may yet succeed, or its relay was lost and nobody has torn it down. */
  lemma RelaysAgainIff(before: seq<Event>, s: State)
    requires Reaches(INIT, before, s)
    ensures s.threads != [] && (CanRelay(s) <==> MayRelay(s))
  {
    RunKeepsInv(INIT, before, s);
    if MayRelay(s) {
      var es, s' := RelaysAgain(s);
    } else {
      forall es, s' | Reaches(s, es, s') ensures s'.threads != [] && !Newest(s').Running? {
        StaysDown(s, es, s');
      }
    }
  }

  // ---- what is reported meanwhile ----

  /** Between the two looks at the window. */
  predicate Attempting(pc: Pc) {
    pc.TakingChannels? || pc.ClosingOld? || pc.ClosingOldEmbed? || pc.OpeningTcp? || pc.OpeningEmbed?
    || pc.ClosingTcp? || pc.Storing? || pc.Registering? || pc.Starting?
  }

  predicate Reported(s: State) {
    s.threads != [] && OthersDone(s.threads) && (Attempting(Newest(s)) ==> s.shared.lifecycle == Connecting)
  }

  lemma StepReports(s: State, e: Event)
    requires Inv(s) && Reported(s) && Enabled(s, e) && |Next(s, e).threads| == |s.threads|
    ensures Reported(Next(s, e))
  {
    StepCases(s, e);
    var s' := Next(s, e);
    if e.Step? {
      assert e.i == |s.threads| - 1;
      forall i | 0 <= i < |s.threads| - 1 ensures s'.threads[i].pc == Finished {
        assert s'.threads[i] == s.threads[i];
      }
    }
  }

  lemma ThreadsGrow(s: State, e: Event)
    requires Enabled(s, e)
    ensures |Next(s, e).threads| >= |s.threads|
  {
  }

  lemma {:induction false} RunThreadsGrow(s: State, es: seq<Event>, s': State)
    requires Reaches(s, es, s')
    ensures |s'.threads| >= |s.threads|
    decreases |es|
  {
    if es != [] {
      ThreadsGrow(s, es[0]);
      RunThreadsGrow(Next(s, es[0]), es[1..], s');
    }
  }

  lemma {:induction false} RunReports(s: State, es: seq<Event>, s': State)
    requires Inv(s) && Reported(s) && Reaches(s, es, s') && |s'.threads| == |s.threads|
    ensures Reported(s')
    decreases |es|
  {
    if es != [] {
      var n := Next(s, es[0]);
      ThreadsGrow(s, es[0]);
      RunThreadsGrow(n, es[1..], s');
      StepReports(s, es[0]);
      StepKeepsInv(s, es[0]);
      RunReports(n, es[1..], s');
    }
  }

  /** As long as the first connect is under way the session is connecting; and so it is in every reconnect
      attempt of a goroutine that found, at the top of its loop, every earlier report made. */
  lemma AttemptIsConnecting(s: State, es: seq<Event>, s': State)
    requires s == INIT || (Inv(s) && OthersDone(s.threads) && Newest(s) == LoopTop)
    requires Reaches(s, es, s') && |s'.threads| == |s.threads|
    ensures Attempting(Newest(s')) ==> s'.shared.lifecycle == Connecting
  {
    RunReports(s, es, s');
  }

  // ---- teardowns ----

  predicate Closing(td: Teardown) {
    td.TdClosing? || td.TdClosingEmbed?
  }

  ghost predicate OneCloses(s: State) {
    && (!s.shared.torndown ==> forall i :: 0 <= i < |s.teardowns| ==> s.teardowns[i] == TearingDown)
    && forall i, j | 0 <= i < |s.teardowns| && 0 <= j < |s.teardowns| ::
         Closing(s.teardowns[i]) && Closing(s.teardowns[j]) ==> i == j
  }

  lemma StepOneCloses(s: State, e: Event)
    requires OneCloses(s) && Enabled(s, e)
    ensures OneCloses(Next(s, e))
  {
  }

  lemma {:induction false} RunOneCloses(s: State, es: seq<Event>, s': State)
    requires OneCloses(s) && Reaches(s, es, s')
    ensures OneCloses(s')
    decreases |es|
  {
    if es != [] {
      StepOneCloses(s, es[0]);
      RunOneCloses(Next(s, es[0]), es[1..], s');
    }
  }

  /** However many disconnects and failures there are, only one teardown closes channels, and one that comes
      to a session already torn down changes nothing. */
  lemma OneTeardown(es: seq<Event>, s: State, i: nat, j: nat)
    requires Reaches(INIT, es, s) && i < |s.teardowns| && j < |s.teardowns|
    ensures Closing(s.teardowns[i]) && Closing(s.teardowns[j]) ==> i == j
    ensures s.teardowns[i] == TearingDown && s.shared.torndown ==>
              Next(s, TeardownStep(i)) == s.(teardowns := s.teardowns[i := TdDone])
  {
    RunOneCloses(INIT, es, s);
  }

  // ---- channel ids ----

  predicate FreshIds(s: Shared) {
    && (forall c :: c in s.hostOpen ==> c.id < s.nextId)
    && (forall c, d :: c in s.hostOpen && d in s.hostOpen && c.id == d.id ==> c == d)
  }

  lemma StepKeepsIds(s: State, e: Event)
    requires FreshIds(s.shared) && Enabled(s, e)
    ensures FreshIds(Next(s, e).shared)
  {
  }

  /** No two channels open at once share an id. */
  lemma {:induction false} RunKeepsIds(s: State, es: seq<Event>, s': State)
    requires FreshIds(s.shared) && Reaches(s, es, s')
    ensures FreshIds(s'.shared)
    decreases |es|
  {
    if es != [] {
      StepKeepsIds(s, es[0]);
      RunKeepsIds(Next(s, es[0]), es[1..], s');
    }
  }

  // ---- a first connect that fails late ----

  /** A first connect that fails once its channels are stored leaves both open: nobody is in charge, the error
      has been reported, and only a disconnect will close them. */
  lemma FailedConnectKeepsChannels(starting: bool) returns (es: seq<Event>, s: State)
    ensures Reaches(INIT, es, s) && s.threads == [Thread(true, Finished)] && s.teardowns == []
    ensures s.shared.lifecycle == Error && !s.shared.torndown
    ensures exists t, e :: s.shared.hostOpen == {t, e} && t.purpose == TcpRelay && e.purpose == EmbedStream
  {
    var t, e;
    es, s, t, e := ChannelsOpen();
    es, s := Go(es, s, Step(0, true));
    if starting {
      es, s := Go(es, s, Step(0, true));
    }
    es, s := Go(es, s, Step(0, false));
    assert s.shared.hostOpen == {t, e};
  }
}
