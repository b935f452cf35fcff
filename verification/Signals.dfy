/** Two close-and-replace signals: the backpressure gate of a session and the registration signal of
    the channel registry. A waiter captures the current channel under the mutex and blocks on it
    without the mutex; the signal closes it and, later, makes a new one. */
module Signals {
  import opened Bytes

  // ---- the backpressure gate ----

  /** gate is the armed channel, if any; parked maps a waiter to the channel it captured. */
  datatype GateState = GateState(gate: Option<nat>, closed: set<nat>, minted: nat, parked: map<nat, nat>)

  datatype GateEvent = SetBackpressure(active: bool) | Look(t: nat) | Wake(t: nat) | Stop(t: nat)

  const GATE_INIT := GateState(None, {}, 0, map[])

  predicate GateEnabled(s: GateState, e: GateEvent) {
    match e
    case SetBackpressure(_) => true
    case Look(t) => t !in s.parked
    case Wake(t) => t in s.parked && s.parked[t] in s.closed
    case Stop(t) => t in s.parked
  }

  /** The head of WaitForReadClearance's loop: clear to read, or park on the current gate. */
  function LookAt(s: GateState, t: nat): GateState {
    if s.gate.None? then s.(parked := s.parked - {t}) else s.(parked := s.parked[t := s.gate.value])
  }

  function GateNext(s: GateState, e: GateEvent): GateState
    requires GateEnabled(s, e)
  {
    match e
    case SetBackpressure(true) => if s.gate.Some? then s else s.(gate := Some(s.minted), minted := s.minted + 1)
    case SetBackpressure(false) => if s.gate.None? then s else s.(gate := None, closed := s.closed + {s.gate.value})
    case Look(t) => LookAt(s, t)
    case Wake(t) => LookAt(s, t)
    case Stop(t) => s.(parked := s.parked - {t})
  }

  ghost predicate GateReaches(s: GateState, es: seq<GateEvent>, s': GateState)
    decreases |es|
  {
    if es == [] then s' == s else GateEnabled(s, es[0]) && GateReaches(GateNext(s, es[0]), es[1..], s')
  }

  ghost predicate GateInv(s: GateState) {
    && (s.gate.Some? ==> s.gate.value < s.minted && s.gate.value !in s.closed)
    && (forall c: nat :: c in s.closed ==> c < s.minted)
    && (forall t: nat :: t in s.parked ==> s.parked[t] in s.closed || s.gate == Some(s.parked[t]))
  }

  lemma {:induction false} GateRun(s: GateState, es: seq<GateEvent>, s': GateState)
    requires GateInv(s) && GateReaches(s, es, s')
    ensures GateInv(s') && s.closed <= s'.closed
    decreases |es|
  {
    if es != [] {
      GateRun(GateNext(s, es[0]), es[1..], s');
    }
  }

  /** The last request of a run, false before the first. */
  function LastSet(es: seq<GateEvent>, before: bool): bool {
    if es == [] then before else LastSet(es[1..], if es[0].SetBackpressure? then es[0].active else before)
  }

  lemma {:induction false} GateFollows(s: GateState, es: seq<GateEvent>, s': GateState)
    requires GateReaches(s, es, s')
    ensures s'.gate.Some? <==> LastSet(es, s.gate.Some?)
    decreases |es|
  {
    if es != [] {
      GateFollows(GateNext(s, es[0]), es[1..], s');
    }
  }

  /** The gate is armed exactly while the last request was to hold back; a reader that looks then parks, and
      one that looks otherwise passes. */
  lemma ArmedIff(es: seq<GateEvent>, s: GateState, t: nat)
    requires GateReaches(GATE_INIT, es, s) && t !in s.parked
    ensures s.gate.Some? <==> LastSet(es, false)
    ensures t in GateNext(s, Look(t)).parked <==> LastSet(es, false)
  {
    GateFollows(GATE_INIT, es, s);
  }

  /** No resume is missed: a captured gate is current or closed, so once the session is not
      backpressured every parked waiter can wake, and then passes; and a resume never closes a
      channel twice. */
  lemma NoMissedResume(es: seq<GateEvent>, s: GateState)
    requires GateReaches(GATE_INIT, es, s)
    ensures forall t: nat :: t in s.parked ==> s.parked[t] in s.closed || s.gate == Some(s.parked[t])
    ensures s.gate.None? ==>
              forall t: nat :: t in s.parked ==> GateEnabled(s, Wake(t)) && t !in GateNext(s, Wake(t)).parked
    ensures s.gate.Some? ==> s.gate.value !in s.closed
  {
    GateRun(GATE_INIT, es, s);
  }

  /** A resume reaches every waiter parked at that moment, whatever happens next: backpressure that
      sets in again makes a new channel and leaves the closed one closed. */
  lemma ResumeReachesAll(s: GateState, t: nat, es: seq<GateEvent>, s': GateState)
    requires GateInv(s) && t in s.parked
    requires GateReaches(GateNext(s, SetBackpressure(false)), es, s') && t in s'.parked && s'.parked[t] == s.parked[t]
    ensures GateEnabled(s', Wake(t))
  {
    GateRun(GateNext(s, SetBackpressure(false)), es, s');
  }

  /** A parked reader is woken by a resume and by nothing else: over any run in which it neither wakes nor stops,
      it can wake at the end exactly if its gate was no longer the current one, or the host asked to go on. */
  lemma {:induction false} WokenIff(s: GateState, t: nat, es: seq<GateEvent>, s': GateState)
    requires GateInv(s) && t in s.parked && GateReaches(s, es, s') && Wake(t) !in es && Stop(t) !in es
    ensures t in s'.parked && s'.parked[t] == s.parked[t]
    ensures GateEnabled(s', Wake(t)) <==> s.gate != Some(s.parked[t]) || SetBackpressure(false) in es
    decreases |es|
  {
    if es != [] {
      var n := GateNext(s, es[0]);
      assert GateInv(n) by { GateRun(s, [es[0]], n); }
      assert es == [es[0]] + es[1..];
      WokenIff(n, t, es[1..], s');
    }
  }

  // ---- the registry ----

  /** A waiter in awaitChannel: the id it wants and the signal channel it captured. */
  datatype Waiter = Waiter(id: nat, signal: nat)

  datatype RegState = RegState(channels: set<nat>, registered: nat, closed: set<nat>, waiting: map<nat, Waiter>)

  datatype RegEvent = Register(id: nat) | LookFor(t: nat, id: nat) | Signalled(t: nat) | GraceOver(t: nat)

  const REG_INIT := RegState({}, 0, {}, map[])

  predicate RegEnabled(s: RegState, e: RegEvent) {
    match e
    case Register(_) => true
    case LookFor(t, _) => t !in s.waiting
    case Signalled(t) => t in s.waiting && s.waiting[t].signal in s.closed
    case GraceOver(t) => t in s.waiting
  }

  /** The locked part of awaitChannel: found, or wait for the current signal. */
  function Await(s: RegState, t: nat, id: nat): RegState {
    if id in s.channels then s.(waiting := s.waiting - {t}) else s.(waiting := s.waiting[t := Waiter(id, s.registered)])
  }

  function RegNext(s: RegState, e: RegEvent): RegState
    requires RegEnabled(s, e)
  {
    match e
    case Register(id) =>
      s.(channels := s.channels + {id}, closed := s.closed + {s.registered}, registered := s.registered + 1)
    case LookFor(t, id) => Await(s, t, id)
    case Signalled(t) => Await(s, t, s.waiting[t].id)
    case GraceOver(t) => s.(waiting := s.waiting - {t})
  }

  ghost predicate RegReaches(s: RegState, es: seq<RegEvent>, s': RegState)
    decreases |es|
  {
    if es == [] then s' == s else RegEnabled(s, es[0]) && RegReaches(RegNext(s, es[0]), es[1..], s')
  }

  ghost predicate RegInv(s: RegState) {
    && (forall c: nat :: c in s.closed <==> c < s.registered)
    && (forall t: nat :: t in s.waiting ==> s.waiting[t].signal <= s.registered)
    && (forall t: nat :: t in s.waiting && s.waiting[t].id in s.channels ==> s.waiting[t].signal in s.closed)
  }

  lemma {:induction false} RegRun(s: RegState, es: seq<RegEvent>, s': RegState)
    requires RegInv(s) && RegReaches(s, es, s')
    ensures RegInv(s')
    decreases |es|
  {
    if es != [] {
      RegRun(RegNext(s, es[0]), es[1..], s');
    }
  }

  /** The ids a run registers. */
  function RegisteredIn(es: seq<RegEvent>): set<nat> {
    if es == [] then {} else (if es[0].Register? then {es[0].id} else {}) + RegisteredIn(es[1..])
  }

  lemma {:induction false} RegisteredRun(s: RegState, es: seq<RegEvent>, s': RegState)
    requires RegReaches(s, es, s')
    ensures s'.channels == s.channels + RegisteredIn(es)
    decreases |es|
  {
    if es != [] {
      RegisteredRun(RegNext(s, es[0]), es[1..], s');
    }
  }

  /** The registry holds exactly the ids registered; whoever looks for one of them finds it, and for any
      other waits. */
  lemma FoundIff(es: seq<RegEvent>, s: RegState, t: nat, id: nat)
    requires RegReaches(REG_INIT, es, s) && t !in s.waiting
    ensures s.channels == RegisteredIn(es)
    ensures t !in RegNext(s, LookFor(t, id)).waiting <==> id in RegisteredIn(es)
  {
    RegisteredRun(REG_INIT, es, s);
  }

  /** A waiter is signalled by a registration and by nothing else: over any run in which its wait goes on, it is
      signalled at the end exactly if its signal was no longer the current one, or a channel was registered. */
  lemma {:induction false} SignalledIff(s: RegState, t: nat, es: seq<RegEvent>, s': RegState)
    requires RegInv(s) && t in s.waiting && RegReaches(s, es, s') && Signalled(t) !in es && GraceOver(t) !in es
    ensures t in s'.waiting && s'.waiting[t] == s.waiting[t]
    ensures RegEnabled(s', Signalled(t)) <==> s.waiting[t].signal != s.registered || RegisteredIn(es) != {}
    decreases |es|
  {
    if es != [] {
      var n := RegNext(s, es[0]);
      assert RegInv(n) by { RegRun(s, [es[0]], n); }
      assert es == [es[0]] + es[1..];
      SignalledIff(n, t, es[1..], s');
      if es[0].Register? {
        assert es[0].id in RegisteredIn(es);
      }
    }
  }

  /** No registration is missed: a waiter whose id is registered holds a closed signal, and finds the
      channel when it looks again; the signal a registration closes was open. */
  lemma NoMissedRegistration(es: seq<RegEvent>, s: RegState)
    requires RegReaches(REG_INIT, es, s)
    ensures forall t: nat :: t in s.waiting && s.waiting[t].id in s.channels ==>
              RegEnabled(s, Signalled(t)) && t !in RegNext(s, Signalled(t)).waiting
    ensures forall t: nat :: t in s.waiting ==> s.waiting[t].signal in s.closed || s.waiting[t].signal == s.registered
    ensures s.registered !in s.closed
  {
    RegRun(REG_INIT, es, s);
  }

  // ---- the objects ----

  class Gate {
    var gate: Option<nat>
    var closed: set<nat>
    var minted: nat
    var parked: map<nat, nat>

    constructor ()
      ensures View() == GATE_INIT
    {
      gate, closed, minted, parked := None, {}, 0, map[];
    }

    function View(): GateState
      reads this
    {
      GateState(gate, closed, minted, parked)
    }

    method SetActive(active: bool)
      requires GateInv(View())
      modifies this`gate, this`closed, this`minted
      ensures View() == GateNext(old(View()), SetBackpressure(active)) && GateInv(View())
    {
      if active {
        if gate.None? {
          gate, minted := Some(minted), minted + 1;
        }
        return;
      }
      if gate.Some? {
        assert gate.value !in closed;
        closed := closed + {gate.value};
        gate := None;
      }
    }

    /** One turn of WaitForReadClearance: true when clear to read. */
    method Turn(t: nat) returns (clear: bool)
      requires GateInv(View()) && (t in parked ==> parked[t] in closed)
      modifies this`parked
      ensures View() == GateNext(old(View()), if t in old(parked) then Wake(t) else Look(t)) && GateInv(View())
      ensures clear <==> t !in parked
    {
      if gate.None? {
        parked := parked - {t};
        return true;
      }
      parked := parked[t := gate.value];
      return false;
    }
  }

  class Registry {
    var channels: set<nat>
    var registered: nat
    var closed: set<nat>
    var waiting: map<nat, Waiter>

    constructor ()
      ensures View() == REG_INIT
    {
      channels, registered, closed, waiting := {}, 0, {}, map[];
    }

    function View(): RegState
      reads this
    {
      RegState(channels, registered, closed, waiting)
    }

    method Add(id: nat)
      requires RegInv(View())
      modifies this`channels, this`registered, this`closed
      ensures View() == RegNext(old(View()), Register(id)) && RegInv(View())
    {
      channels := channels + {id};
      assert registered !in closed;
      closed := closed + {registered};
      registered := registered + 1;
    }

    /** One turn of awaitChannel. */
    method Turn(t: nat, id: nat) returns (found: bool)
      requires RegInv(View()) && (t in waiting ==> waiting[t].id == id && waiting[t].signal in closed)
      modifies this`waiting
      ensures View() == RegNext(old(View()), if t in old(waiting) then Signalled(t) else LookFor(t, id))
          && RegInv(View())
      ensures found <==> t !in waiting
    {
      if id in channels {
        waiting := waiting - {t};
        return true;
      }
      waiting := waiting[t := Waiter(id, registered)];
      return false;
    }
  }
}
