/** The sender-side credit window of a CreditChannel under any number of concurrent senders. Each
    mutex-protected region is one step; sync.Cond is the set of sleeping senders plus the set of
    senders that were woken and have not yet taken the mutex again. */
module Credit {
  import opened Bytes
  import opened Stream
  import opened Codec

  /** Close sets isClosed under the mutex, then closes done, then broadcasts without the mutex. */
  datatype Closing = Open | Marked | DoneClosed | AllClosed

  datatype State = State(
    cred: int,
    closing: Closing,
    asleep: set<nat>,  // parked in cond.Wait
    woken: set<nat>,   // woken, not yet running
    taken: set<nat>,   // past the gate, Encode not finished
    failed: set<nat>,  // Encode failed, refund not done
    wire: nat,         // data frames written
    granted: nat)      // credit received since the channel was opened

  datatype Event =
    | Enter(t: nat)
    | Resume(t: nat)
    | Try(t: nat)
    | EncodeOk(t: nat)
    | EncodeFail(t: nat)
    | Refund(t: nat, signalled: Option<nat>)
    | Grant(n: nat)
    | CloseMark
    | CloseDone
    | CloseBroadcast

  function Init(credit: nat): State {
    State(credit, Open, {}, {}, {}, {}, 0, 0)
  }

  predicate Busy(s: State, t: nat) {
    t in s.asleep || t in s.woken || t in s.taken || t in s.failed
  }

  predicate Enabled(s: State, e: Event) {
    match e
    case Enter(t) => !Busy(s, t)
    case Resume(t) => t in s.woken
    case Try(t) => !Busy(s, t)
    case EncodeOk(t) => t in s.taken
    case EncodeFail(t) => t in s.taken
    case Refund(t, w) => t in s.failed && (if s.asleep == {} then w.None? else w.Some? && w.value in s.asleep)
    case Grant(_) => true
    case CloseMark => s.closing == Open
    case CloseDone => s.closing == Marked
    case CloseBroadcast => s.closing == DoneClosed
  }

  /** The loop head of Send, run with the mutex held by t. */
  function Gate(s: State, t: nat): State {
    if s.closing != Open then s
    else if s.cred <= 0 then s.(asleep := s.asleep + {t})
    else s.(cred := s.cred - 1, taken := s.taken + {t})
  }

  function Next(s: State, e: Event): State
    requires Enabled(s, e)
  {
    match e
    case Enter(t) => Gate(s, t)
    case Resume(t) => Gate(s.(woken := s.woken - {t}), t)
    case Try(t) => if s.closing != Open || s.cred <= 0 then s else Gate(s, t)
    case EncodeOk(t) => s.(taken := s.taken - {t}, wire := s.wire + 1)
    case EncodeFail(t) => s.(taken := s.taken - {t}, failed := s.failed + {t})
    case Refund(t, w) =>
      var s' := s.(failed := s.failed - {t}, cred := s.cred + 1);
      if w.None? then s' else s'.(asleep := s.asleep - {w.value}, woken := s.woken + {w.value})
    case Grant(n) =>
      if n == 0 then s
      else s.(cred := s.cred + n, granted := s.granted + n, asleep := {}, woken := s.woken + s.asleep)
    case CloseMark => s.(closing := Marked)
    case CloseDone => s.(closing := DoneClosed)
    case CloseBroadcast => s.(closing := AllClosed, asleep := {}, woken := s.woken + s.asleep)
  }

  ghost predicate Reaches(s: State, es: seq<Event>, s': State)
    decreases |es|
  {
    if es == [] then s' == s else Enabled(s, es[0]) && Reaches(Next(s, es[0]), es[1..], s')
  }

  // ---- what every step keeps ----

  predicate Conserved(s: State, initial: nat) {
    s.cred >= 0 && s.cred + |s.taken| + |s.failed| + s.wire == initial + s.granted
  }

  predicate Apart(s: State) {
    && s.asleep !! s.woken && s.asleep !! s.taken && s.asleep !! s.failed
    && s.woken !! s.taken && s.woken !! s.failed && s.taken !! s.failed
  }

  /** While somebody sleeps on an open channel, every credit there is has a woken sender on its way
      to it; and once Close has finished nobody sleeps. */
  predicate NoLostWakeup(s: State) {
    && (s.closing == Open && s.asleep != {} ==> s.cred <= |s.woken|)
    && (s.closing == AllClosed ==> s.asleep == {})
  }

  predicate Inv(s: State, initial: nat) {
    Conserved(s, initial) && Apart(s) && NoLostWakeup(s)
  }

  lemma Moved<T>(a: set<T>, t: T)
    ensures t in a ==> |a - {t}| == |a| - 1
    ensures t !in a ==> |a + {t}| == |a| + 1
  {
  }

  lemma GateKeepsConserved(s: State, t: nat, initial: nat)
    requires Conserved(s, initial) && t !in s.taken
    ensures Conserved(Gate(s, t), initial)
  {
    Moved(s.taken, t);
  }

  lemma StepKeepsConserved(s: State, e: Event, initial: nat)
    requires Inv(s, initial) && Enabled(s, e)
    ensures Conserved(Next(s, e), initial)
  {
    match e
    case Enter(t) => GateKeepsConserved(s, t, initial);
    case Resume(t) => GateKeepsConserved(s.(woken := s.woken - {t}), t, initial);
    case Try(t) => GateKeepsConserved(s, t, initial);
    case EncodeOk(t) => Moved(s.taken, t);
    case EncodeFail(t) => Moved(s.taken, t); Moved(s.failed, t);
    case Refund(t, _) => Moved(s.failed, t);
    case _ =>
  }

  lemma StepKeepsApart(s: State, e: Event)
    requires Apart(s) && Enabled(s, e)
    ensures Apart(Next(s, e))
  {
  }

  lemma StepLosesNoWakeup(s: State, e: Event, initial: nat)
    requires Inv(s, initial) && Enabled(s, e)
    ensures NoLostWakeup(Next(s, e))
  {
    match e
    case Resume(t) => Moved(s.woken, t);
    case Refund(t, w) => if w.Some? { Moved(s.woken, w.value); }
    case _ =>
  }

  lemma StepKeepsInv(s: State, e: Event, initial: nat)
    requires Inv(s, initial) && Enabled(s, e)
    ensures Inv(Next(s, e), initial)
  {
    StepKeepsConserved(s, e, initial);
    StepKeepsApart(s, e);
    StepLosesNoWakeup(s, e, initial);
  }

  /** Credit is conserved and no wakeup is lost, in every interleaving of senders, failing encodes,
      grants and Close. */
  lemma {:induction false} RunKeepsInv(s: State, es: seq<Event>, s': State, initial: nat)
    requires Inv(s, initial) && Reaches(s, es, s')
    ensures Inv(s', initial)
    decreases |es|
  {
    if es != [] {
      StepKeepsInv(s, es[0], initial);
      RunKeepsInv(Next(s, es[0]), es[1..], s', initial);
    }
  }

  /** What the host granted and what reached the wire, counted off the run itself. */
  function GrantedIn(es: seq<Event>): nat {
    if es == [] then 0 else (if es[0].Grant? then es[0].n else 0) + GrantedIn(es[1..])
  }

  function WrittenIn(es: seq<Event>): nat {
    if es == [] then 0 else (if es[0].EncodeOk? then 1 else 0) + WrittenIn(es[1..])
  }

  lemma {:induction false} RunCounts(s: State, es: seq<Event>, s': State)
    requires Reaches(s, es, s')
    ensures s'.granted == s.granted + GrantedIn(es) && s'.wire == s.wire + WrittenIn(es)
    decreases |es|
  {
    if es != [] {
      RunCounts(Next(s, es[0]), es[1..], s');
    }
  }

  /** In every run: the window, the slots taken and the frames written are the credit there was and the
      credit granted; the wire never carries more; and no wakeup is lost. */
  lemma CreditSafety(initial: nat, es: seq<Event>, s: State)
    requires Reaches(Init(initial), es, s)
    ensures s.cred >= 0 && s.cred + |s.taken| + |s.failed| + WrittenIn(es) == initial + GrantedIn(es)
    ensures WrittenIn(es) + |s.taken| + |s.failed| <= initial + GrantedIn(es)
    ensures NoLostWakeup(s)
  {
    RunKeepsInv(Init(initial), es, s, initial);
    RunCounts(Init(initial), es, s);
  }

  /** If the plugin can do nothing more by itself and a sender sleeps on an open channel, then the
      host holds the whole window: every credit it ever gave is a frame on the wire. */
  lemma StuckMeansHostOwes(initial: nat, es: seq<Event>, s: State)
    requires Reaches(Init(initial), es, s) && s.closing == Open && s.asleep != {}
    requires s.woken == {} && s.taken == {} && s.failed == {}
    ensures s.cred == 0 && WrittenIn(es) == initial + GrantedIn(es)
  {
    CreditSafety(initial, es, s);
  }

  /** After isClosed is set, only sends already past the gate can still reach the wire. */
  lemma {:induction false} AfterClose(s: State, es: seq<Event>, s': State, initial: nat)
    requires Inv(s, initial) && s.closing != Open && Reaches(s, es, s')
    ensures s'.closing != Open && s'.taken <= s.taken
    ensures WrittenIn(es) <= |s.taken| - |s'.taken|
    decreases |es|
  {
    if es != [] {
      var m := Next(s, es[0]);
      StepKeepsInv(s, es[0], initial);
      AfterClose(m, es[1..], s', initial);
      if es[0].EncodeOk? || es[0].EncodeFail? {
        assert |s.taken - {es[0].t}| == |s.taken| - 1;
      }
    }
  }

  /** What a send finds at the gate: a slot if the channel is open and has credit, a place among the
      sleepers if it is open and has none, and neither once it is closed. */
  lemma SendOutcome(s: State, t: nat)
    requires Apart(s) && (!Busy(s, t) || t in s.woken)
    ensures var s' := Next(s, if t in s.woken then Resume(t) else Enter(t));
            && (t in s'.taken <==> s.closing == Open && s.cred > 0)
            && (t in s'.asleep <==> s.closing == Open && s.cred <= 0)
            && t !in s'.woken && t !in s'.failed && s'.closing == s.closing
            && s'.cred == s.cred - if t in s'.taken then 1 else 0
    ensures !Busy(s, t) ==>
              var s' := Next(s, Try(t));
              (t in s'.taken <==> s.closing == Open && s.cred > 0) && (t !in s'.taken ==> s' == s)
  {
  }

  /** A grant of any credit, and the end of Close, leave nobody asleep; a refund wakes one, if there is one. */
  lemma WakeOutcome(s: State, n: nat, t: nat, w: Option<nat>)
    ensures n > 0 ==> Next(s, Grant(n)).asleep == {} && s.asleep <= Next(s, Grant(n)).woken
    ensures s.closing == DoneClosed ==>
              Next(s, CloseBroadcast).asleep == {} && s.asleep <= Next(s, CloseBroadcast).woken
    ensures Enabled(s, Refund(t, w)) && s.asleep != {} ==>
              |Next(s, Refund(t, w)).asleep| == |s.asleep| - 1 && w.value in Next(s, Refund(t, w)).woken
  {
  }

  // ---- credit frames ----

  const CREDIT_PAYLOAD_LEN: nat := 8

  datatype Routed = Data(payload: seq<byte>) | GrantOf(n: nat) | Violation(reason: Reason)
  datatype Reason = MalformedCredit | ChannelMismatch | UnexpectedKind

  /** What HandleChannelFrame makes of a frame for a registered channel. */
  function Route(f: Frame): Routed {
    if f.kind == KIND_CHANNEL_DATA then Data(f.payload)
    else if f.kind == KIND_CREDIT then
      if |f.payload| != CREDIT_PAYLOAD_LEN then Violation(MalformedCredit)
      else if U32(f.payload[0..4]) != f.channelId then Violation(ChannelMismatch)
      else GrantOf(U32(f.payload[4..8]))
    else Violation(UnexpectedKind)
  }

  /** The frame GrantCredit writes; uint32(n) keeps the low 32 bits. */
  function CreditFrame(id: nat, n: nat): Frame
    requires id < 0x1_0000_0000
  {
    Frame(KIND_CREDIT, id, PutU32(id) + PutU32(n % 0x1_0000_0000))
  }

  /** A credit frame, byte by byte: kind 3 on the channel's id, then the id again and the credit, each four
      bytes, most significant first. */
  lemma CreditFrameLayout(id: nat, n: nat)
    requires id < 0x1_0000_0000 && n < 0x1_0000_0000
    ensures var f := CreditFrame(id, n);
            && f.kind == 3 && f.channelId == id && |f.payload| == 8
            && U32(f.payload[0..4]) == id && U32(f.payload[4..8]) == n
  {
  }

  /** What each frame for a channel is taken for: data, credit, or which violation. */
  lemma RouteIff(f: Frame, payload: seq<byte>, n: nat)
    ensures Route(f) == Data(payload) <==> f.kind == 2 && payload == f.payload
    ensures Route(f) == GrantOf(n) <==>
            f.kind == 3 && |f.payload| == 8 && U32(f.payload[0..4]) == f.channelId && U32(f.payload[4..8]) == n
    ensures Route(f) == Violation(MalformedCredit) <==> f.kind == 3 && |f.payload| != 8
    ensures Route(f) == Violation(ChannelMismatch) <==>
            f.kind == 3 && |f.payload| == 8 && U32(f.payload[0..4]) != f.channelId
    ensures Route(f) == Violation(UnexpectedKind) <==> f.kind != 2 && f.kind != 3
  {
  }

  /** A grant survives the wire: the frame is well formed and routes to the same number on the other
      side, for every number that fits the field. */
  lemma GrantRoundTrip(id: nat, n: nat)
    requires id < 0x1_0000_0000
    ensures WellFormed(CreditFrame(id, n))
    ensures Route(CreditFrame(id, n)) == GrantOf(n) <==> n < 0x1_0000_0000
    ensures DecodeOne(EncodeFrame(CreditFrame(id, n)), Eof) == Got(CreditFrame(id, n), [])
  {
    var f := CreditFrame(id, n);
    assert f.payload[0..4] == PutU32(id) && f.payload[4..8] == PutU32(n % 0x1_0000_0000);
    assert EncodeFrame(f) + [] == EncodeFrame(f);
    DecodeIff(EncodeFrame(f), Eof, f, []);
  }

  // ---- the channel object ----

  datatype SendGate = Taken | Parked | ErrClosed | ErrNoCredit | ErrTooLarge
  datatype Delivery = Queued | DroppedClosed | WouldBlock
  datatype Received = Payload(payload: seq<byte>) | Exhausted | Waits
  datatype GrantResult = NothingToGrant | Refused | Emit(frame: Frame)

  const RECV_CAPACITY: nat := 64

  // ---- delivery and receipt ----

  predicate IsDone(closing: Closing) {
    closing == DoneClosed || closing == AllClosed
  }

  /** What a delivery does to the queue: with room and done both ready, the select may take either. */
  function Delivered(q: seq<seq<byte>>, closing: Closing, payload: seq<byte>, pickQueue: bool)
      : (Delivery, seq<seq<byte>>)
  {
    if |q| < RECV_CAPACITY && (pickQueue || !IsDone(closing)) then (Queued, q + [payload])
    else if IsDone(closing) then (DroppedClosed, q)
    else (WouldBlock, q)
  }

  function Received1(q: seq<seq<byte>>, closing: Closing): (Received, seq<seq<byte>>) {
    if q != [] then (Payload(q[0]), q[1..]) else (if IsDone(closing) then Exhausted else Waits, q)
  }

  /** While the channel is open a frame is queued behind the others, or blocks the read loop, exactly at 64. */
  lemma OpenDelivery(q: seq<seq<byte>>, closing: Closing, payload: seq<byte>, pick: bool)
    requires closing == Open || closing == Marked
    ensures Delivered(q, closing, payload, pick) == if |q| < 64 then (Queued, q + [payload]) else (WouldBlock, q)
  {
  }

  /** Data after close is sure to be dropped exactly if the queue is full; and no delivery to a closed
      channel ever blocks. */
  lemma LateDataDropped(q: seq<seq<byte>>, closing: Closing, payload: seq<byte>)
    requires IsDone(closing)
    ensures (forall pick :: Delivered(q, closing, payload, pick) == (DroppedClosed, q)) <==> |q| >= 64
    ensures forall pick :: Delivered(q, closing, payload, pick).0 != WouldBlock
  {
    assert |q| < RECV_CAPACITY ==> Delivered(q, closing, payload, true).0 == Queued;
  }

  function AfterReceipts(q: seq<seq<byte>>, closing: Closing, n: nat): seq<seq<byte>> {
    if n == 0 then q else AfterReceipts(Received1(q, closing).1, closing, n - 1)
  }

  /** A late payload that found room is handed to the reader like any other, once those before it are. */
  lemma {:induction false} LateDataReceived(q: seq<seq<byte>>, closing: Closing, payload: seq<byte>)
    requires |q| < RECV_CAPACITY
    ensures var q' := Delivered(q, closing, payload, true).1;
            Received1(AfterReceipts(q', closing, |q|), closing) == (Payload(payload), [])
    decreases |q|
  {
    var q' := q + [payload];
    if q == [] {
      assert q' == [payload];
    } else {
      assert Received1(q', closing).1 == q[1..] + [payload];
      LateDataReceived(q[1..], closing, payload);
    }
  }

  // ---- the object ----

  class CreditChannel {
    const id: nat
    const maxPayload: nat
    var sendCred: int
    var closing: Closing
    var asleep: set<nat>
    var woken: set<nat>
    var taken: set<nat>
    var failed: set<nat>
    var wire: nat
    var received: nat
    var recvCh: seq<seq<byte>>

    constructor (id: nat, initialCredit: nat, maxPayload: nat)
      ensures View() == Init(initialCredit) && recvCh == []
      ensures this.id == id && this.maxPayload == maxPayload
    {
      this.id, this.maxPayload := id, maxPayload;
      sendCred, closing, wire, received, recvCh := initialCredit, Open, 0, 0, [];
      asleep, woken, taken, failed := {}, {}, {}, {};
    }

    function View(): State
      reads this
    {
      State(sendCred, closing, asleep, woken, taken, failed, wire, received)
    }

    /** Send up to the gate: first entry. A payload over the channel's maximum never gets there. */
    method EnterSend(t: nat, size: nat) returns (r: SendGate)
      requires Enabled(View(), Enter(t))
      modifies this`sendCred, this`asleep, this`taken
      ensures View() == if size > maxPayload then old(View()) else Next(old(View()), Enter(t))
      ensures (r == Taken <==> t in taken) && (r == Parked <==> t in asleep)
      ensures r == ErrTooLarge <==> size > maxPayload
      ensures r == Taken <==> size <= maxPayload && closing == Open && old(sendCred) > 0
      ensures r == Parked <==> size <= maxPayload && closing == Open && old(sendCred) <= 0
      ensures r == ErrClosed <==> size <= maxPayload && closing != Open
    {
      if size > maxPayload {
        return ErrTooLarge;
      }
      r := Pass(t);
    }

    /** Send after cond.Wait returned. */
    method ResumeSend(t: nat) returns (r: SendGate)
      requires Enabled(View(), Resume(t)) && Apart(View())
      modifies this`sendCred, this`asleep, this`taken, this`woken
      ensures View() == Next(old(View()), Resume(t))
      ensures (r == Taken <==> t in taken) && (r == Parked <==> t in asleep)
      ensures r == if closing != Open then ErrClosed else if old(sendCred) > 0 then Taken else Parked
    {
      woken := woken - {t};
      r := Pass(t);
    }

    method Pass(t: nat) returns (r: SendGate)
      requires !Busy(View(), t)
      modifies this`sendCred, this`asleep, this`taken
      ensures View() == Gate(old(View()), t)
      ensures (r == Taken <==> t in taken) && (r == Parked <==> t in asleep)
      ensures r == if closing != Open then ErrClosed else if old(sendCred) > 0 then Taken else Parked
    {
      if closing != Open {
        return ErrClosed;
      }
      if sendCred <= 0 {
        asleep := asleep + {t};
        return Parked;
      }
      sendCred := sendCred - 1;
      taken := taken + {t};
      return Taken;
    }

    /** TrySend never parks: it reports what it found. */
    method TrySend(t: nat, size: nat) returns (r: SendGate)
      requires Enabled(View(), Try(t))
      modifies this`sendCred, this`asleep, this`taken
      ensures View() == if size > maxPayload then old(View()) else Next(old(View()), Try(t))
      ensures r != Parked && (r == Taken <==> t in taken) && (r == ErrTooLarge <==> size > maxPayload)
      ensures r == ErrClosed <==> size <= maxPayload && closing != Open
      ensures r == ErrNoCredit <==> size <= maxPayload && closing == Open && old(sendCred) <= 0
    {
      if size > maxPayload {
        return ErrTooLarge;
      }
      if closing == Open && sendCred <= 0 {
        return ErrNoCredit;
      }
      r := Pass(t);
    }

    /** What follows the gate: one Encode, and the refund region when it failed. */
    method FinishEncode(t: nat, ok: bool)
      requires t in taken
      modifies this`taken, this`failed, this`wire
      ensures View() == Next(old(View()), if ok then EncodeOk(t) else EncodeFail(t))
    {
      taken := taken - {t};
      if ok {
        wire := wire + 1;
      } else {
        failed := failed + {t};
      }
    }

    method RefundSlot(t: nat) returns (signalled: Option<nat>)
      requires t in failed
      modifies this`failed, this`sendCred, this`asleep, this`woken
      ensures Enabled(old(View()), Refund(t, signalled)) && View() == Next(old(View()), Refund(t, signalled))
    {
      failed := failed - {t};
      sendCred := sendCred + 1;
      if asleep == {} {
        return None;
      }
      var u :| u in asleep;
      asleep, woken := asleep - {u}, woken + {u};
      return Some(u);
    }

    method ReceiveCreditGrant(n: nat)
      modifies this`sendCred, this`received, this`asleep, this`woken
      ensures View() == Next(old(View()), Grant(n)) && sendCred == old(sendCred) + n
    {
      if n == 0 {
        return;
      }
      sendCred := sendCred + n;
      received := received + n;
      asleep, woken := {}, woken + asleep;
    }

    /** One of Close's three steps. */
    method AdvanceClose()
      requires closing != AllClosed
      modifies this`closing, this`asleep, this`woken
      ensures View() == Next(old(View()),
          match old(closing) case Open => CloseMark case Marked => CloseDone case _ => CloseBroadcast)
      ensures closing == match old(closing) case Open => Marked case Marked => DoneClosed case _ => AllClosed
    {
      if closing == Open {
        closing := Marked;
      } else if closing == Marked {
        closing := DoneClosed;
      } else {
        asleep, woken, closing := {}, woken + asleep, AllClosed;
      }
    }

    method GrantCredit(n: int) returns (r: GrantResult)
      requires id < 0x1_0000_0000
      ensures r == if n <= 0 then NothingToGrant else if closing != Open then Refused else Emit(CreditFrame(id, n))
    {
      if n <= 0 {
        return NothingToGrant;
      }
      if closing != Open {
        return Refused;
      }
      var payload := PutU32(id) + PutU32(n % 0x1_0000_0000);
      return Emit(Frame(KIND_CREDIT, id, payload));
    }

    /** The select between the queue and done; pickQueue is its choice when both are ready. */
    method DeliverData(payload: seq<byte>, pickQueue: bool) returns (r: Delivery)
      modifies this`recvCh
      ensures (r, recvCh) == Delivered(old(recvCh), closing, payload, pickQueue)
    {
      var room, done := |recvCh| < RECV_CAPACITY, closing == DoneClosed || closing == AllClosed;
      if room && (pickQueue || !done) {
        recvCh := recvCh + [payload];
        return Queued;
      }
      return if done then DroppedClosed else WouldBlock;
    }

    /** Recv drains the queue before it reports the end. */
    method Recv() returns (r: Received)
      modifies this`recvCh
      ensures (r, recvCh) == Received1(old(recvCh), closing)
    {
      if recvCh != [] {
        r := Payload(recvCh[0]);
        recvCh := recvCh[1..];
        return;
      }
      return if closing == DoneClosed || closing == AllClosed then Exhausted else Waits;
    }

    /** HandleChannelFrame for a frame carrying this channel's id: a violation changes nothing. pickQueue is
        the choice of the select at delivery. */
    method HandleFrame(f: Frame, pickQueue: bool) returns (r: Result<Delivery, Reason>)
      requires f.channelId == id
      modifies this
      ensures match Route(f)
              case Violation(reason) => r == Failure(reason) && View() == old(View()) && recvCh == old(recvCh)
              case GrantOf(n) => r == Success(Queued) && View() == Next(old(View()), Grant(n)) && recvCh == old(recvCh)
              case Data(payload) => r.Success? && View() == old(View())
                                    && (r.value, recvCh) == Delivered(old(recvCh), closing, payload, pickQueue)
    {
      if f.kind == KIND_CHANNEL_DATA {
        var d := DeliverData(f.payload, pickQueue);
        return Success(d);
      }
      if f.kind == KIND_CREDIT {
        if |f.payload| != CREDIT_PAYLOAD_LEN {
          return Failure(MalformedCredit);
        }
        if U32(f.payload[0..4]) != f.channelId {
          return Failure(ChannelMismatch);
        }
        ReceiveCreditGrant(U32(f.payload[4..8]));
        return Success(Queued);
      }
      return Failure(UnexpectedKind);
    }
  }
}
