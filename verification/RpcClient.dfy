/** Request/response correlation of the JSON-RPC client: any number of concurrent Calls and Delivers,
    with duplicate, late and unknown responses and timeouts. A call is identified by the number its
    id was made from. */
module RpcClient {
  import opened Bytes

  // ---- request ids ----

  function Digit(d: nat): char
    requires d < 10
  {
    "0123456789"[d]
  }

  function Decimal(n: nat): (text: string)
    ensures text != ""
  {
    if n < 10 then [Digit(n)] else Decimal(n / 10) + [Digit(n % 10)]
  }

  /** nextID's text for the n-th request. */
  function IdText(n: nat): string {
    "xqs-vnc-" + Decimal(n)
  }

  lemma {:induction false} DecimalInjective(m: nat, n: nat)
    requires Decimal(m) == Decimal(n)
    ensures m == n
    decreases m
  {
    var a, b := Decimal(m), Decimal(n);
    assert a[|a| - 1] == Digit(m % 10) && b[|b| - 1] == Digit(n % 10);
    if m >= 10 && n >= 10 {
      assert a[..|a| - 1] == Decimal(m / 10) && b[..|b| - 1] == Decimal(n / 10);
      DecimalInjective(m / 10, n / 10);
    }
  }

  /** Distinct numbers make distinct ids, so correlating by text is correlating by number. */
  lemma IdTextInjective(m: nat, n: nat)
    ensures IdText(m) == IdText(n) <==> m == n
  {
    if IdText(m) == IdText(n) {
      assert IdText(m)[8..] == Decimal(m) && IdText(n)[8..] == Decimal(n);
      DecimalInjective(m, n);
    }
  }

  /** What a decimal text denotes, character by character. */
  function NumberOf(text: string): int {
    if text == "" then 0 else NumberOf(text[..|text| - 1]) * 10 + (text[|text| - 1] as int - '0' as int)
  }

  lemma DigitValue(d: nat)
    requires d < 10
    ensures Digit(d) as int == '0' as int + d
  {
  }

  lemma {:induction false} DecimalValue(n: nat)
    ensures NumberOf(Decimal(n)) == n
    ensures Decimal(n)[0] == '0' <==> n == 0
  {
    var t := Decimal(n);
    DigitValue(n % 10);
    if n >= 10 {
      DecimalValue(n / 10);
      assert t[..|t| - 1] == Decimal(n / 10) && NumberOf(Decimal(n / 10)) == n / 10;
      assert n == n / 10 * 10 + n % 10;
      assert t[0] == Decimal(n / 10)[0];
    } else {
      assert t[..0] == "";
    }
  }

  /** The id of the n-th request is this prefix and n itself in decimal, without leading zeros. */
  lemma IdTextIs(n: nat)
    ensures IdText(n)[..8] == "xqs-vnc-" && NumberOf(IdText(n)[8..]) == n
    ensures IdText(n)[8] == '0' <==> n == 0
  {
    DecimalValue(n);
    assert IdText(n)[8..] == Decimal(n);
  }

  // ---- the system ----

  /** result is None when the call ends without a response. */
  datatype Call =
    | Numbered                      // has its id, not registered
    | Registered                    // in pending, request not sent
    | Waiting                       // in the select
    | Leaving(result: Option<nat>)  // result known, deferred delete still to run
    | Returned(result: Option<nat>)

  /** A Deliver that found its call's slot and has not yet put the response in. */
  datatype Holding = Holding(id: nat, response: nat)

  /** One call: where it is, its one-place channel, and every response put into that, in order. */
  datatype Entry = Entry(call: Call, slot: Option<nat>, delivered: seq<nat>)

  datatype State = State(idSeq: nat, entries: map<nat, Entry>, pending: set<nat>, delivering: map<nat, Holding>)

  /** The steps a call takes itself. */
  datatype Act = Register | Send(ok: bool) | Receive | TimeOut | Unregister

  datatype Event = NextId | Of(id: nat, act: Act) | Look(d: nat, wanted: nat, response: nat) | Put(d: nat)

  const INIT := State(0, map[], {}, map[])

  predicate MayStep(n: Entry, act: Act) {
    match act
    case Register => n.call == Numbered
    case Send(_) => n.call == Registered
    case Receive => n.call == Waiting && n.slot.Some?
    case TimeOut => n.call == Waiting
    case Unregister => n.call.Leaving?
  }

  predicate Enabled(s: State, e: Event) {
    match e
    case NextId => true
    case Of(id, act) => id in s.entries && MayStep(s.entries[id], act)
    case Look(d, _, _) => d !in s.delivering
    case Put(d) => d in s.delivering && s.delivering[d].id in s.entries
  }

  function StepEntry(n: Entry, act: Act): Entry
    requires MayStep(n, act)
  {
    match act
    case Register => Entry(Registered, None, [])
    case Send(ok) => n.(call := if ok then Waiting else Leaving(None))
    case Receive => n.(call := Leaving(n.slot), slot := None)
    case TimeOut => n.(call := Leaving(None))
    case Unregister => n.(call := Returned(n.call.result))
  }

  /** A non-blocking send into the one-place channel. */
  function Offer(n: Entry, response: nat): Entry {
    if n.slot.Some? then n else n.(slot := Some(response), delivered := n.delivered + [response])
  }

  function Next(s: State, e: Event): State
    requires Enabled(s, e)
  {
    match e
    case NextId => s.(idSeq := s.idSeq + 1, entries := s.entries[s.idSeq + 1 := Entry(Numbered, None, [])])
    case Look(d, id, response) =>
      if id in s.pending then s.(delivering := s.delivering[d := Holding(id, response)]) else s
    case Put(d) =>
      var h := s.delivering[d];
      s.(delivering := s.delivering - {d}, entries := s.entries[h.id := Offer(s.entries[h.id], h.response)])
    case Of(id, act) =>
      s.(entries := s.entries[id := StepEntry(s.entries[id], act)],
         pending := if act.Register? then s.pending + {id} else if act.Unregister? then s.pending - {id} else s.pending)
  }

  ghost predicate Reaches(s: State, es: seq<Event>, s': State)
    decreases |es|
  {
    if es == [] then s' == s else Enabled(s, es[0]) && Reaches(Next(s, es[0]), es[1..], s')
  }

  predicate Outstanding(c: Call) {
    c.Registered? || c.Waiting? || c.Leaving?
  }

  /** What a call has or will return is the first response its channel ever took. */
  predicate FirstOnly(n: Entry) {
    match n.call
    case Numbered => true
    case Leaving(r) => r.Some? ==> n.delivered != [] && r.value == n.delivered[0]
    case Returned(r) => r.Some? ==> n.delivered != [] && r.value == n.delivered[0]
    case _ => n.delivered == if n.slot.None? then [] else [n.slot.value]
  }

  ghost predicate Inv(s: State) {
    && (forall id: nat :: id in s.entries ==> id <= s.idSeq && FirstOnly(s.entries[id]))
    && (forall id: nat :: id in s.pending <==> id in s.entries && Outstanding(s.entries[id].call))
    && (forall d: nat :: d in s.delivering ==>
          s.delivering[d].id in s.entries && s.entries[s.delivering[d].id].call != Numbered)
  }

  lemma EntryStepKeepsFirst(n: Entry, act: Act)
    requires FirstOnly(n) && MayStep(n, act)
    ensures FirstOnly(StepEntry(n, act))
    ensures StepEntry(n, act).call != Numbered
    ensures Outstanding(StepEntry(n, act).call) <==> if act.Register? then true else if act.Unregister? then false
        else Outstanding(n.call)
  {
  }

  lemma OfferKeepsFirst(n: Entry, response: nat)
    requires FirstOnly(n)
    ensures FirstOnly(Offer(n, response)) && Offer(n, response).call == n.call
  {
  }

  lemma StepKeepsInv(s: State, e: Event)
    requires Inv(s) && Enabled(s, e)
    ensures Inv(Next(s, e))
  {
    match e
    case NextId =>
    case Look(_, _, _) =>
    case Put(d) => OfferKeepsFirst(s.entries[s.delivering[d].id], s.delivering[d].response);
    case Of(id, act) => EntryStepKeepsFirst(s.entries[id], act);
  }

  lemma {:induction false} RunKeepsInv(s: State, es: seq<Event>, s': State)
    requires Inv(s) && Reaches(s, es, s')
    ensures Inv(s')
    decreases |es|
  {
    if es != [] {
      StepKeepsInv(s, es[0]);
      RunKeepsInv(Next(s, es[0]), es[1..], s');
    }
  }

  /** Every response a Deliver holds or has put in comes from a Look for that very id. */
  ghost predicate FromLooks(s: State, seen: seq<Event>) {
    && (forall d: nat :: d in s.delivering ==> Look(d, s.delivering[d].id, s.delivering[d].response) in seen)
    && (forall id: nat, r: nat :: id in s.entries && r in s.entries[id].delivered ==> Arrived(seen, id, r))
  }

  /** The host's response r for id has been looked up. */
  ghost predicate Arrived(seen: seq<Event>, id: nat, r: nat) {
    exists d: nat :: Look(d, id, r) in seen
  }

  lemma StepFromLooks(s: State, seen: seq<Event>, e: Event)
    requires FromLooks(s, seen) && Enabled(s, e)
    ensures FromLooks(Next(s, e), seen + [e])
  {
    var s' := Next(s, e);
    forall id: nat, r: nat | Arrived(seen, id, r) ensures Arrived(seen + [e], id, r) {
      var d: nat :| Look(d, id, r) in seen;
      assert Look(d, id, r) in seen + [e];
    }
    forall id: nat, r: nat | id in s'.entries && r in s'.entries[id].delivered ensures Arrived(seen + [e], id, r) {
      if !(id in s.entries && r in s.entries[id].delivered) {
        assert e.Put? && Look(e.d, id, r) in seen;
      }
    }
  }

  lemma {:induction false} RunFromLooks(s: State, seen: seq<Event>, es: seq<Event>, s': State)
    requires FromLooks(s, seen) && Reaches(s, es, s')
    ensures FromLooks(s', seen + es)
    decreases |es|
  {
    if es == [] {
      assert seen + es == seen;
    } else {
      StepFromLooks(s, seen, es[0]);
      RunFromLooks(Next(s, es[0]), seen + [es[0]], es[1..], s');
      assert (seen + [es[0]]) + es[1..] == seen + es;
    }
  }

  /** A response goes into an empty slot and is dropped at a full one; either way the Deliver is over. */
  ghost predicate PutOutcome(s: State, d: nat)
    requires Enabled(s, Put(d))
  {
    var h, s' := s.delivering[d], Next(s, Put(d));
    var n := s.entries[h.id];
    && d !in s'.delivering && s'.pending == s.pending
    && s'.entries == (if n.slot.Some? then s.entries
                      else s.entries[h.id := Entry(n.call, Some(h.response), n.delivered + [h.response])])
  }

  /** pending holds exactly the outstanding calls; a Deliver that found its call finds its channel and
      always completes, whether its slot is empty or full; a call that returns a response returns the
      first one delivered for its id, and that is one the host sent for that id; and the next id is fresh. */
  lemma Correlation(es: seq<Event>, s: State)
    requires Reaches(INIT, es, s)
    ensures forall id: nat :: id in s.pending <==> id in s.entries && Outstanding(s.entries[id].call)
    ensures forall d: nat :: d in s.delivering ==> Enabled(s, Put(d)) && PutOutcome(s, d)
    ensures forall id: nat :: id in s.entries && s.entries[id].call.Returned? && s.entries[id].call.result.Some? ==>
              s.entries[id].delivered != [] && s.entries[id].call.result.value == s.entries[id].delivered[0]
    ensures forall id: nat :: id in s.entries && s.entries[id].call.Returned? && s.entries[id].call.result.Some? ==>
              Arrived(es, id, s.entries[id].call.result.value)
    ensures s.idSeq + 1 !in s.entries
  {
    RunKeepsInv(INIT, es, s);
    RunFromLooks(INIT, [], es, s);
    assert [] + es == es;
  }

  /** A response for an id that is not outstanding changes nothing. */
  lemma StrayResponseIgnored(s: State, d: nat, id: nat, response: nat)
    requires Inv(s) && Enabled(s, Look(d, id, response))
    ensures Next(s, Look(d, id, response)) == s <==> id !in s.entries || !Outstanding(s.entries[id].call)
  {
    if id in s.pending {
      assert d in Next(s, Look(d, id, response)).delivering;
    }
  }

  // ---- how a call ended ----

  /** What a call has come to, by the steps it has taken. */
  predicate CameTo(c: Call, took: bool, gaveUp: bool, sent: bool) {
    match c
    case Leaving(r) => (r.Some? <==> took) && (r.None? <==> gaveUp)
    case Returned(r) => (r.Some? <==> took) && (r.None? <==> gaveUp)
    case Waiting => sent && !took && !gaveUp
    case _ => !sent && !took && !gaveUp
  }

  ghost predicate Ended(s: State, seen: seq<Event>) {
    && (forall id: nat :: id in s.entries ==>
          CameTo(s.entries[id].call, Of(id, Receive) in seen,
            Of(id, TimeOut) in seen || Of(id, Send(false)) in seen, Of(id, Send(true)) in seen))
    && (forall id: nat, act: Act :: Of(id, act) in seen ==> id <= s.idSeq)
  }

  lemma StepEnds(s: State, seen: seq<Event>, e: Event)
    requires Inv(s) && Ended(s, seen) && Enabled(s, e)
    ensures Ended(Next(s, e), seen + [e])
  {
    var s' := Next(s, e);
    forall id: nat | id in s'.entries
      ensures CameTo(s'.entries[id].call, Of(id, Receive) in seen + [e],
                Of(id, TimeOut) in seen + [e] || Of(id, Send(false)) in seen + [e], Of(id, Send(true)) in seen + [e])
    {
      if e.Put? && id == s.delivering[e.d].id {
        assert s'.entries[id].call == s.entries[id].call;
      } else if e.Of? && id == e.id {
        EntryEnds(s.entries[id], e.act, id, seen);
      }
    }
  }

  lemma EntryEnds(n: Entry, act: Act, id: nat, seen: seq<Event>)
    requires MayStep(n, act) && (n.call.Waiting? ==> FirstOnly(n))
    requires CameTo(n.call, Of(id, Receive) in seen,
               Of(id, TimeOut) in seen || Of(id, Send(false)) in seen, Of(id, Send(true)) in seen)
    ensures var all := seen + [Of(id, act)];
            CameTo(StepEntry(n, act).call, Of(id, Receive) in all,
              Of(id, TimeOut) in all || Of(id, Send(false)) in all, Of(id, Send(true)) in all)
  {
  }

  lemma {:induction false} RunEnded(s: State, seen: seq<Event>, es: seq<Event>, s': State)
    requires Inv(s) && Ended(s, seen) && Reaches(s, es, s')
    ensures Ended(s', seen + es)
    decreases |es|
  {
    if es == [] {
      assert seen + es == seen;
    } else {
      StepEnds(s, seen, es[0]);
      StepKeepsInv(s, es[0]);
      RunEnded(Next(s, es[0]), seen + [es[0]], es[1..], s');
      assert (seen + [es[0]]) + es[1..] == seen + es;
    }
  }

  /** A call returns a response exactly if it took one from its channel, and none exactly if it timed out or
      its request could not be sent; it waits only once the request has been sent. */
  lemma HowItEnded(es: seq<Event>, s: State, id: nat)
    requires Reaches(INIT, es, s) && id in s.entries
    ensures s.entries[id].call.Returned? ==>
              && (s.entries[id].call.result.Some? <==> Of(id, Receive) in es)
              && (s.entries[id].call.result.None? <==> Of(id, TimeOut) in es || Of(id, Send(false)) in es)
    ensures s.entries[id].call.Waiting? ==> Of(id, Send(true)) in es
  {
    RunEnded(INIT, [], es, s);
    assert [] + es == es;
  }

  class Client {
    var idSeq: nat
    var entries: map<nat, Entry>
    var pending: set<nat>
    var delivering: map<nat, Holding>

    constructor ()
      ensures View() == INIT
    {
      idSeq, entries, pending, delivering := 0, map[], {}, map[];
    }

    function View(): State
      reads this
    {
      State(idSeq, entries, pending, delivering)
    }

    method FreshId() returns (id: nat, text: string)
      requires Inv(View())
      modifies this`idSeq, this`entries
      ensures View() == Next(old(View()), NextId) && id == idSeq && text == IdText(id)
      ensures forall other: nat :: other in old(entries) ==> IdText(other) != text
    {
      idSeq := idSeq + 1;
      entries := entries[idSeq := Entry(Numbered, None, [])];
      id, text := idSeq, IdText(idSeq);
      forall other: nat | other in old(entries) ensures IdText(other) != text {
        IdTextInjective(other, id);
      }
    }

    method RegisterCall(id: nat)
      requires Enabled(View(), Of(id, Register))
      modifies this`entries, this`pending
      ensures View() == Next(old(View()), Of(id, Register))
    {
      entries, pending := entries[id := Entry(Registered, None, [])], pending + {id};
    }

    /** Deliver, its locked lookup. */
    method LookUp(d: nat, id: nat, response: nat) returns (found: bool)
      requires d !in delivering
      modifies this`delivering
      ensures View() == Next(old(View()), Look(d, id, response)) && (found <==> id in pending)
    {
      found := id in pending;
      if found {
        delivering := delivering[d := Holding(id, response)];
      }
    }

    /** Deliver, its non-blocking send: a full channel drops the response. */
    method PutResponse(d: nat) returns (accepted: bool)
      requires Enabled(View(), Put(d))
      modifies this`delivering, this`entries
      ensures View() == Next(old(View()), Put(d))
      ensures accepted <==> old(entries[delivering[d].id].slot).None?
    {
      var h := delivering[d];
      var n := entries[h.id];
      delivering := delivering - {d};
      accepted := n.slot.None?;
      if accepted {
        entries := entries[h.id := n.(slot := Some(h.response), delivered := n.delivered + [h.response])];
      }
    }

    /** The select of Call; with a response and a timeout both ready either may win. */
    method Await(id: nat) returns (result: Option<nat>)
      requires Enabled(View(), Of(id, TimeOut))
      modifies this`entries
      ensures if result.None? then View() == Next(old(View()), Of(id, TimeOut))
              else Enabled(old(View()), Of(id, Receive)) && View() == Next(old(View()), Of(id, Receive))
                   && result == old(entries)[id].slot
    {
      var response: bool := *;
      result := if response then entries[id].slot else None;
      if result.Some? {
        entries := entries[id := Entry(Leaving(result), None, entries[id].delivered)];
      } else {
        entries := entries[id := entries[id].(call := Leaving(None))];
      }
    }

    method Leave(id: nat)
      requires Enabled(View(), Of(id, Unregister))
      modifies this`entries, this`pending
      ensures View() == Next(old(View()), Of(id, Unregister))
    {
      entries := entries[id := entries[id].(call := Returned(entries[id].call.result))];
      pending := pending - {id};
    }
  }
}
