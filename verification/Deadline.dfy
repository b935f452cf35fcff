/** The resettable one-shot alarm behind SetDeadline: set under a mutex, wait, and a timer whose
    callback runs on its own goroutine, without the mutex. */
module Deadline {
  import opened Bytes

  /** Armed may still be stopped; Firing has started its callback; Fired has finished it. The timer
      field keeps pointing at a fired timer until the next set. */
  datatype Timer = NoTimer | Armed(target: nat) | Firing(target: nat) | Fired(target: nat)

  datatype When = Zero | Past | Future

  /** A set that found the timer already fired waits, mutex held, for the callback's close. */
  datatype Setter = Idle | Draining(when: When)

  /** Channels are numbered in the order they are made; waited are those wait() has returned. */
  datatype State = State(timer: Timer, cancel: nat, closed: set<nat>, minted: nat, setter: Setter, waited: set<nat>)

  datatype Event = Wait | Set(when: When) | Drained | Expire | Callback

  const INIT := State(NoTimer, 0, {}, 1, Idle, {})

  predicate Enabled(s: State, e: Event) {
    match e
    case Wait => s.setter == Idle
    case Set(_) => s.setter == Idle
    case Drained => s.setter.Draining? && s.cancel in s.closed
    case Expire => s.timer.Armed?
    case Callback => s.timer.Firing?
  }

  /** The rest of set once no timer can fire any more. */
  function Rearm(s: State, when: When): State {
    var expired := s.cancel in s.closed;
    var c := if expired then s.minted else s.cancel;
    var s' := s.(timer := NoTimer, setter := Idle, cancel := c, minted := if expired then s.minted + 1 else s.minted);
    match when
    case Zero => s'
    case Future => s'.(timer := Armed(c))
    case Past => s'.(closed := s.closed + {c})
  }

  function Next(s: State, e: Event): State
    requires Enabled(s, e)
  {
    match e
    case Wait => s.(waited := s.waited + {s.cancel})
    case Set(when) =>
      if s.timer.Firing? || s.timer.Fired? then s.(setter := Draining(when)) else Rearm(s, when)
    case Drained => Rearm(s, s.setter.when)
    case Expire => s.(timer := Firing(s.timer.target))
    case Callback => s.(timer := Fired(s.timer.target), closed := s.closed + {s.timer.target})
  }

  ghost predicate Reaches(s: State, es: seq<Event>, s': State)
    decreases |es|
  {
    if es == [] then s' == s else Enabled(s, es[0]) && Reaches(Next(s, es[0]), es[1..], s')
  }

  predicate Inv(s: State) {
    && s.cancel < s.minted
    && (forall c: nat :: c < s.minted ==> c == s.cancel || c in s.closed)
    && (forall c: nat :: c in s.closed ==> c < s.minted)
    && (forall c: nat :: c in s.waited ==> c < s.minted)
    && (match s.timer
        case NoTimer => s.setter == Idle
        case Armed(c) => c == s.cancel && c !in s.closed && s.setter == Idle
        case Firing(c) => c == s.cancel && c !in s.closed
        case Fired(c) => c == s.cancel && c in s.closed)
  }

  lemma StepKeepsInv(s: State, e: Event)
    requires Inv(s) && Enabled(s, e)
    ensures Inv(Next(s, e))
  {
  }

  lemma {:induction false} RunKeepsInv(s: State, es: seq<Event>, s': State)
    requires Inv(s) && Reaches(s, es, s')
    ensures Inv(s')
    decreases |es|
  {
    if es != [] {
      StepKeepsInv(s, es[0]);
      RunKeepsInv(Next(s, es[0]), es[1..], s');
    }
  }

  /** The channel an event closes, if it closes one. */
  function Closes(s: State, e: Event): Option<nat>
    requires Enabled(s, e)
  {
    match e
    case Callback => Some(s.timer.target)
    case Set(Past) => if s.timer.Firing? || s.timer.Fired? then None else Some(Next(s, e).cancel)
    case Drained => if s.setter.when == Past then Some(Next(s, e).cancel) else None
    case _ => None
  }

  /** In every interleaving: no channel is closed twice, a set that drains is only ever waiting for
      a callback that can run, every channel wait ever returned is closed or still the current one,
      a timer that can still fire targets the current one, and one that has fired has released it. */
  lemma DeadlineSafety(es: seq<Event>, s: State)
    requires Reaches(INIT, es, s)
    ensures forall e :: Enabled(s, e) && Closes(s, e).Some? ==> Closes(s, e).value !in s.closed
    ensures s.setter.Draining? ==> Enabled(s, Drained) || Enabled(s, Callback)
    ensures forall c: nat :: c in s.waited ==> c in s.closed || c == s.cancel
    ensures s.timer.Armed? || s.timer.Firing? ==> s.timer.target == s.cancel
    ensures s.timer.Fired? ==> s.cancel in s.closed
  {
    RunKeepsInv(INIT, es, s);
  }

  /** After a set has gone through, waiting fails at once exactly for a deadline in the past, and an
      alarm is pending exactly for one in the future. Whoever still waited on the old channel is
      either released by it or sees the new deadline through it. */
  lemma SetTakesEffect(s: State, e: Event)
    requires Inv(s) && Enabled(s, e) && (e.Drained? || e.Set?) && Next(s, e).setter == Idle
    ensures var s', when := Next(s, e), if e.Set? then e.when else s.setter.when;
            && (s'.cancel in s'.closed <==> when == Past)
            && (s'.timer.Armed? <==> when == Future) && (s'.timer == NoTimer <==> when != Future)
            && (s'.cancel == s.cancel || s.cancel in s'.closed)
  {
  }

  /** A timer that has fired is never passed over: as long as its callback is to run, no set goes through, and
      when it runs whoever waits on its channel is released. */
  lemma FiringFinishes(s: State, e: Event)
    requires Inv(s) && Enabled(s, e) && s.timer.Firing?
    ensures Next(s, e).timer != s.timer <==> e == Callback
    ensures e == Callback ==> s.cancel in Next(s, e).closed
    ensures e.Set? ==> Next(s, e).setter == Draining(e.when) && Next(s, e).cancel == s.cancel
  {
  }

  class DeadlineTimer {
    var timer: Timer
    var cancel: nat
    var closed: set<nat>
    var minted: nat
    var setter: Setter
    var waited: set<nat>

    constructor ()
      ensures View() == INIT
    {
      timer, cancel, closed, minted, setter, waited := NoTimer, 0, {}, 1, Idle, {};
    }

    function View(): State
      reads this
    {
      State(timer, cancel, closed, minted, setter, waited)
    }

    method WaitChannel() returns (c: nat)
      requires setter == Idle
      modifies this`waited
      ensures c == cancel && View() == Next(old(View()), Wait)
    {
      waited := waited + {cancel};
      return cancel;
    }

    /** set up to its drain; blocked says whether it now waits for the callback. */
    method BeginSet(when: When) returns (blocked: bool)
      requires Inv(View()) && setter == Idle
      modifies this
      ensures View() == Next(old(View()), Set(when)) && Inv(View())
      ensures blocked <==> setter == Draining(when)
    {
      if timer.Firing? || timer.Fired? {
        setter := Draining(when);
        return true;
      }
      FinishSet(when);
      return false;
    }

    /** set from its drain on. The close below is always of an open channel. */
    method FinishSet(when: When)
      requires cancel < minted && (forall c: nat :: c in closed ==> c < minted)
      modifies this
      ensures View() == Rearm(old(View()), when)
    {
      timer, setter := NoTimer, Idle;
      if cancel in closed {
        cancel, minted := minted, minted + 1;
      }
      if when == Future {
        timer := Armed(cancel);
      } else if when == Past {
        assert cancel !in closed;
        closed := closed + {cancel};
      }
    }

    method RunCallback()
      requires Inv(View()) && timer.Firing?
      modifies this`timer, this`closed
      ensures View() == Next(old(View()), Callback) && Inv(View())
    {
      assert timer.target !in closed;
      closed := closed + {timer.target};
      timer := Fired(timer.target);
    }
  }
}
