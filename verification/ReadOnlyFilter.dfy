/** The read-only filter over client messages, and the browser-to-server pump built on it. */
module ReadOnlyFilter {
  import opened Bytes
  import opened Stream
  import opened ClientMessage

  datatype Decision = Forward | Drop

  datatype FilterError =
    | Fatal(parse: ParseError)
    | Reading(parse: ParseError)
    | Forwarding(write: WriteError)

  predicate IsInput(t: byte) {
    t == KEY_EVENT || t == POINTER_EVENT || t == CLIENT_CUT_TEXT
  }

  function Decide(m: Message, readOnly: bool): Decision {
    if IsInput(m.kind) then (if readOnly then Drop else Forward) else Forward
  }

  // ---- the meaning of filtering ----

  /** The messages the server is meant to see. */
  function Keep(ms: seq<Message>, readOnly: bool): seq<Message> {
    if ms == [] then []
    else (if readOnly && IsInput(ms[0].kind) then [] else [ms[0]]) + Keep(ms[1..], readOnly)
  }

  lemma {:induction false} KeepAppend(xs: seq<Message>, ys: seq<Message>, readOnly: bool)
    ensures Keep(xs + ys, readOnly) == Keep(xs, readOnly) + Keep(ys, readOnly)
  {
    var zs := xs + ys;
    if xs == [] {
      assert zs == ys;
    } else {
      assert zs[0] == xs[0] && zs[1..] == xs[1..] + ys;
      KeepAppend(xs[1..], ys, readOnly);
      Assoc(if readOnly && IsInput(xs[0].kind) then [] else [xs[0]], Keep(xs[1..], readOnly), Keep(ys, readOnly));
    }
  }

  lemma {:induction false} SerializeAppend(xs: seq<Message>, ys: seq<Message>)
    ensures SerializeAll(xs + ys) == SerializeAll(xs) + SerializeAll(ys)
  {
    var zs := xs + ys;
    if xs == [] {
      assert zs == ys;
    } else {
      assert zs[0] == xs[0] && zs[1..] == xs[1..] + ys;
      SerializeAppend(xs[1..], ys);
      Assoc(Serialize(xs[0]), SerializeAll(xs[1..]), SerializeAll(ys));
    }
  }

  /** Keep drops input messages when readOnly and nothing else, and never invents one. */
  lemma {:induction false} KeepMeaning(ms: seq<Message>, readOnly: bool)
    ensures forall m :: m in Keep(ms, readOnly) <==> m in ms && !(readOnly && IsInput(m.kind))
    ensures !readOnly ==> Keep(ms, readOnly) == ms
    ensures Keep(Keep(ms, readOnly), readOnly) == Keep(ms, readOnly)
  {
    if ms != [] {
      var head := if readOnly && IsInput(ms[0].kind) then [] else [ms[0]];
      var kept := Keep(ms[1..], readOnly);
      KeepMeaning(ms[1..], readOnly);
      assert ms == [ms[0]] + ms[1..];
      assert Keep(ms, readOnly) == head + kept;
      KeepAppend(head, kept, readOnly);
      assert Keep(head, readOnly) == head;
    }
  }

  /** The policy, by message number: types 4, 5 and 6 are dropped in read-only mode, nothing else ever is. */
  lemma DecideMeans(m: Message, readOnly: bool)
    ensures Decide(m, readOnly) == Drop <==> readOnly && 4 <= m.kind <= 6
    ensures Keep([m], readOnly) == if readOnly && 4 <= m.kind <= 6 then [] else [m]
  {
  }

  /** What the server receives of a client stream (after ClientInit). */
  function FilterOutput(s: seq<byte>, readOnly: bool): seq<byte> {
    SerializeAll(Keep(ParseAll(s, Eof).msgs, readOnly))
  }

  /** Which messages a stream holds does not depend on how its read side will end. */
  lemma {:induction false} FateIrrelevant(s: seq<byte>, fate: Fate)
    ensures ParseAll(s, fate).msgs == ParseAll(s, Eof).msgs && ParseAll(s, fate).tail == ParseAll(s, Eof).tail
    decreases |s|
  {
    if ParseOne(s, fate).Parsed? {
      FateIrrelevant(ParseOne(s, fate).rest, fate);
    }
  }

  /** Re-parsing what the server receives yields exactly the kept messages, in order, with nothing
      left over; filtering again changes nothing. */
  lemma OutputReparses(s: seq<byte>, readOnly: bool)
    ensures ParseAll(FilterOutput(s, readOnly), Eof)
              == Trace(Keep(ParseAll(s, Eof).msgs, readOnly), Truncated(TypeByte, Ended(Eof)), [])
    ensures FilterOutput(FilterOutput(s, readOnly), readOnly) == FilterOutput(s, readOnly)
  {
    var ms := ParseAll(s, Eof).msgs;
    ParseAllSound(s, Eof);
    KeepMeaning(ms, readOnly);
    UniqueDecoding(Keep(ms, readOnly), [], Eof);
    assert FilterOutput(s, readOnly) + [] == FilterOutput(s, readOnly);
  }

  /** Without read-only mode the server receives the consumed input itself. */
  lemma OutputIsInputUnlessReadOnly(s: seq<byte>)
    ensures FilterOutput(s, false) + ParseAll(s, Eof).tail == s
  {
    ParseAllSound(s, Eof);
    KeepMeaning(ParseAll(s, Eof).msgs, false);
  }

  /** More input only ever adds messages: what a prefix of the run produced is never revised. */
  lemma OutputMonotone(s: seq<byte>, more: seq<byte>, readOnly: bool)
    ensures ParseAll(s, Eof).msgs <= ParseAll(s + more, Eof).msgs
    ensures FilterOutput(s, readOnly) <= FilterOutput(s + more, readOnly)
  {
    var t := ParseAll(s, Eof);
    ParseAllSound(s, Eof);
    Assoc(SerializeAll(t.msgs), t.tail, more);
    ParseAllAppend(t.msgs, t.tail + more, Eof);
    var extra := ParseAll(t.tail + more, Eof).msgs;
    assert ParseAll(s + more, Eof).msgs == t.msgs + extra;
    KeepAppend(t.msgs, extra, readOnly);
    SerializeAppend(Keep(t.msgs, readOnly), Keep(extra, readOnly));
  }

  /** What a server gets to see in read-only mode: of the messages sent those of types 0, 2 and 3, and no
      others. */
  lemma ReadOnlyMeans(s: seq<byte>, m: Message)
    ensures m in ParseAll(FilterOutput(s, true), Eof).msgs
            <==> m in ParseAll(s, Eof).msgs && (m.kind == 0 || m.kind == 2 || m.kind == 3)
  {
    OutputReparses(s, true);
    ParseAllSound(s, Eof);
    KeepMeaning(ParseAll(s, Eof).msgs, true);
    if m in ParseAll(s, Eof).msgs {
      assert WellFormed(m);
    }
  }

  // ---- the loops ----

  function Verdict(e: ParseError): FilterError {
    if e.UnknownType? then Fatal(e) else Reading(e)
  }

  /** The session is lost exactly to a message of unknown type. */
  lemma FatalIff(s: seq<byte>, fate: Fate)
    requires ParseOne(s, fate).Failed?
    ensures Verdict(ParseOne(s, fate).error).Fatal? <==> s != [] && s[0] != 0 && !(2 <= s[0] <= 6)
    ensures Verdict(ParseOne(s, fate).error).parse == ParseOne(s, fate).error
  {
    if s != [] {
      FailIff(s, fate, s[0], 0);
    }
  }

  /** The bytes one message contributes to the server's stream. */
  function Contribution(m: Message, readOnly: bool): seq<byte> {
    if Decide(m, readOnly) == Forward then Serialize(m) else []
  }

  /** One filter step on a stream that parses as p: what it reports and what the server got. */
  ghost predicate Stepped(p: Parse, readOnly: bool, msg: Option<Message>, err: Option<FilterError>,
                          before: seq<byte>, after: seq<byte>) {
    match p
    case Failed(e, _) => msg.None? && err == Some(Verdict(e)) && after == before
    case Parsed(m, _) =>
      && msg == Some(m)
      && before <= after <= before + Contribution(m, readOnly)
      && (if err.None? then after == before + Contribution(m, readOnly) else err.value.Forwarding?)
  }

  method FilterOnce(r: Conn, w: Conn, readOnly: bool) returns (msg: Option<Message>, err: Option<FilterError>)
    requires r != w
    modifies r`frames, r`readBuf, w`sent, w`broken
    ensures Stepped(ParseOne(old(r.Unread()), r.fate), readOnly, msg, err, old(w.Written()), w.Written())
    ensures r.Unread() == ParseOne(old(r.Unread()), r.fate).rest
    ensures if err.Some? && err.value.Forwarding? then w.broken else w.broken == old(w.broken)
  {
    var result := ReadClientMessage(r);
    if result.Failure? {
      return None, Some(Verdict(result.error));
    }
    msg, err := Some(result.value), None;
    if Decide(result.value, readOnly) == Forward {
      var n, e := w.Write(Serialize(result.value));
      if e.Some? {
        err := Some(Forwarding(e.value));
      }
    }
  }

  /** errors.Is(err, io.EOF) */
  predicate IsEof(e: FilterError) {
    e.Reading? && e.parse.Truncated? && e.parse.cause == Ended(Eof)
  }

  /** done are the messages handled so far; what is left of the stream holds the others. */
  ghost predicate Progress(whole: Trace, done: seq<Message>, left: Trace) {
    whole == left.(msgs := done + left.msgs)
  }

  lemma ProgressStep(whole: Trace, done: seq<Message>, s: seq<byte>, fate: Fate, readOnly: bool)
    requires Progress(whole, done, ParseAll(s, fate)) && ParseOne(s, fate).Parsed?
    ensures var m := ParseOne(s, fate).msg;
            && Progress(whole, done + [m], ParseAll(ParseOne(s, fate).rest, fate))
            && SerializeAll(Keep(done + [m], readOnly))
                == SerializeAll(Keep(done, readOnly)) + Contribution(m, readOnly)
            && SerializeAll(Keep(done + [m], readOnly)) <= SerializeAll(Keep(whole.msgs, readOnly))
  {
    var m, left := ParseOne(s, fate).msg, ParseAll(ParseOne(s, fate).rest, fate);
    Assoc(done, [m], left.msgs);
    KeepAppend(done, [m], readOnly);
    assert Keep([m], readOnly) == if Decide(m, readOnly) == Forward then [m] else [];
    assert SerializeAll([m]) == Serialize(m) + [];
    SerializeAppend(Keep(done, readOnly), Keep([m], readOnly));
    KeepAppend(done + [m], left.msgs, readOnly);
    SerializeAppend(Keep(done + [m], readOnly), Keep(left.msgs, readOnly));
  }

  /** The write of message k stopped part way: everything kept before it went out, nothing after it did. */
  ghost predicate BrokeAt(msgs: seq<Message>, k: nat, readOnly: bool, before: seq<byte>, after: seq<byte>) {
    && k < |msgs|
    && before + SerializeAll(Keep(msgs[..k], readOnly)) <= after
    && after <= before + SerializeAll(Keep(msgs[..k + 1], readOnly))
  }

  lemma BrokeWithin(msgs: seq<Message>, k: nat, readOnly: bool, before: seq<byte>, after: seq<byte>)
    requires BrokeAt(msgs, k, readOnly, before, after)
    ensures before <= after <= before + SerializeAll(Keep(msgs, readOnly))
  {
    assert msgs == msgs[..k + 1] + msgs[k + 1..];
    KeepAppend(msgs[..k + 1], msgs[k + 1..], readOnly);
    SerializeAppend(Keep(msgs[..k + 1], readOnly), Keep(msgs[k + 1..], readOnly));
    Assoc(before, SerializeAll(Keep(msgs[..k + 1], readOnly)), SerializeAll(Keep(msgs[k + 1..], readOnly)));
  }

  /** How a filter run over a whole stream must end, n messages having been dealt with: everything kept
      was forwarded, unless the write of the next message failed. */
  ghost predicate RunResult(t: Trace, readOnly: bool, before: seq<byte>, after: seq<byte>, err: FilterError, n: nat) {
    if err.Forwarding? then BrokeAt(t.msgs, n, readOnly, before, after)
    else n == |t.msgs| && after == before + SerializeAll(Keep(t.msgs, readOnly)) && err == Verdict(t.error)
  }

  /** The messages done have been handled: s holds the others, and the server has what was kept. */
  ghost predicate Handled(whole: Trace, done: seq<Message>, s: seq<byte>, fate: Fate, readOnly: bool,
                          start: seq<byte>, now: seq<byte>) {
    Progress(whole, done, ParseAll(s, fate)) && now == start + SerializeAll(Keep(done, readOnly))
  }

  lemma RunEnds(whole: Trace, done: seq<Message>, s: seq<byte>, fate: Fate, readOnly: bool,
                start: seq<byte>, before: seq<byte>, after: seq<byte>, msg: Option<Message>, err: FilterError)
    requires Handled(whole, done, s, fate, readOnly, start, before)
    requires Stepped(ParseOne(s, fate), readOnly, msg, Some(err), before, after)
    ensures RunResult(whole, readOnly, start, after, err, |done|)
  {
    if ParseOne(s, fate).Parsed? {
      ProgressStep(whole, done, s, fate, readOnly);
      assert whole.msgs[..|done|] == done && whole.msgs[..|done| + 1] == done + [msg.value];
      Assoc(start, SerializeAll(Keep(done, readOnly)), Contribution(msg.value, readOnly));
    } else {
      assert whole.msgs == done;
    }
  }

  lemma RunContinues(whole: Trace, done: seq<Message>, s: seq<byte>, fate: Fate, readOnly: bool,
                     start: seq<byte>, before: seq<byte>, after: seq<byte>, msg: Option<Message>)
    requires Handled(whole, done, s, fate, readOnly, start, before)
    requires Stepped(ParseOne(s, fate), readOnly, msg, None, before, after)
    ensures msg.Some? && Handled(whole, done + [msg.value], ParseOne(s, fate).rest, fate, readOnly, start, after)
  {
    ProgressStep(whole, done, s, fate, readOnly);
    Assoc(start, SerializeAll(Keep(done, readOnly)), Contribution(msg.value, readOnly));
  }

  /** The loop of RunClientFilter and of the pump: it ends with the error that stopped it. n counts
      the messages taken off the stream without an error. */
  method FilterAll(r: Conn, w: Conn, readOnly: bool, grants: bool) returns (err: FilterError)
    requires r != w
    modifies r`frames, r`readBuf, r`granted, w`sent, w`broken
    ensures exists n: nat ::
              && RunResult(ParseAll(old(r.Unread()), r.fate), readOnly, old(w.Written()), w.Written(), err, n)
              && r.granted == old(r.granted) + if grants then n else 0
    ensures if err.Forwarding? then w.broken else w.broken == old(w.broken)
  {
    ghost var start, whole := w.Written(), ParseAll(r.Unread(), r.fate);
    ghost var done: seq<Message> := [];
    while true
      invariant Handled(whole, done, r.Unread(), r.fate, readOnly, start, w.Written())
      invariant w.broken == old(w.broken)
      invariant r.granted == old(r.granted) + if grants then |done| else 0
      decreases |r.Unread()|
    {
      ghost var s, before := r.Unread(), w.Written();
      var msg, e := FilterOnce(r, w, readOnly);
      if e.Some? {
        RunEnds(whole, done, s, r.fate, readOnly, start, before, w.Written(), msg, e.value);
        assert RunResult(whole, readOnly, start, w.Written(), e.value, |done|);
        return e.value;
      }
      RunContinues(whole, done, s, r.fate, readOnly, start, before, w.Written(), msg);
      if grants {
        r.GrantCredit(1);
      }
      done := done + [msg.value];
    }
  }

  /** RunClientFilter ends without an error exactly when the stream stopped at a field boundary and
      every write went through. */
  method RunClientFilter(r: Conn, w: Conn, readOnly: bool) returns (err: Option<FilterError>)
    requires r != w
    modifies r`frames, r`readBuf, r`granted, w`sent, w`broken
    ensures var t := ParseAll(old(r.Unread()), r.fate);
            && (err.None? || !err.value.Forwarding? ==>
                  && w.Written() == old(w.Written()) + FilterOutput(old(r.Unread()), readOnly)
                  && (err.None? <==> r.fate == Eof && FieldBoundary(t.tail))
                  && (err.Some? ==> err.value == Verdict(t.error)))
            && (err.Some? && err.value.Forwarding? ==>
                  old(w.Written()) <= w.Written() <= old(w.Written()) + FilterOutput(old(r.Unread()), readOnly))
    ensures r.granted == old(r.granted)
  {
    ghost var s := r.Unread();
    ParseAllSound(s, r.fate);
    FateIrrelevant(s, r.fate);
    CleanEndIff(ParseAll(s, r.fate).tail, r.fate);
    var e := FilterAll(r, w, readOnly, false);
    ghost var n: nat :| RunResult(ParseAll(s, r.fate), readOnly, old(w.Written()), w.Written(), e, n);
    if e.Forwarding? {
      BrokeWithin(ParseAll(s, r.fate).msgs, n, readOnly, old(w.Written()), w.Written());
    }
    err := if IsEof(e) then None else Some(e);
  }

  datatype PumpError = NoClientInit(cause: ReadError) | ClientInitNotRelayed(write: WriteError)
      | Stopped(filter: FilterError)

  /** What the server receives of a whole browser stream: the ClientInit byte (section 7.3.1), then
      the kept messages. */
  function PumpOutput(s: seq<byte>, readOnly: bool): seq<byte> {
    if s == [] then [] else [s[0]] + FilterOutput(s[1..], readOnly)
  }

  /** How the pump ends, n messages having been dealt with. */
  ghost predicate PumpResult(s: seq<byte>, fate: Fate, readOnly: bool, before: seq<byte>, after: seq<byte>,
                             err: PumpError, n: nat) {
    match err
    case NoClientInit(cause) => s == [] && cause == Ended(fate) && after == before && n == 0
    case ClientInitNotRelayed(_) => s != [] && before <= after <= before + [s[0]] && n == 0
    case Stopped(e) => s != [] && RunResult(ParseAll(s[1..], fate), readOnly, before + [s[0]], after, e, n)
  }

  predicate IsWriteError(e: PumpError) {
    e.ClientInitNotRelayed? || (e.Stopped? && e.filter.Forwarding?)
  }

  /** However the pump ends, the server has a prefix of ClientInit followed by the kept messages,
      and all of it unless a write failed. */
  lemma PumpMeaning(s: seq<byte>, fate: Fate, readOnly: bool, before: seq<byte>, after: seq<byte>, err: PumpError,
                    n: nat)
    requires PumpResult(s, fate, readOnly, before, after, err, n)
    ensures before <= after <= before + PumpOutput(s, readOnly)
    ensures !IsWriteError(err) ==> after == before + PumpOutput(s, readOnly)
  {
    if s != [] {
      FateIrrelevant(s[1..], fate);
      if err.Stopped? && IsWriteError(err) {
        BrokeWithin(ParseAll(s[1..], fate).msgs, n, readOnly, before + [s[0]], after);
      }
      Assoc(before, [s[0]], FilterOutput(s[1..], readOnly));
    }
  }

  /** The browser-to-server pump. It always ends with an error; one credit goes back per message. */
  method PumpBrowserToServer(embed: Conn, tcp: Conn, readOnly: bool) returns (err: PumpError)
    requires embed != tcp
    modifies embed`frames, embed`readBuf, embed`granted, tcp`sent, tcp`broken
    ensures exists n: nat ::
              && PumpResult(old(embed.Unread()), embed.fate, readOnly, old(tcp.Written()), tcp.Written(), err, n)
              && embed.granted == old(embed.granted) + n
    ensures if IsWriteError(err) then tcp.broken else tcp.broken == old(tcp.broken)
  {
    var clientInit, e := embed.ReadFull(1);
    if e.Some? {
      err := NoClientInit(e.value);
      assert PumpResult(old(embed.Unread()), embed.fate, readOnly, old(tcp.Written()), tcp.Written(), err, 0);
      return;
    }
    assert clientInit == [old(embed.Unread())[0]];
    var written, we := tcp.Write(clientInit);
    if we.Some? {
      err := ClientInitNotRelayed(we.value);
      assert PumpResult(old(embed.Unread()), embed.fate, readOnly, old(tcp.Written()), tcp.Written(), err, 0);
      return;
    }
    ghost var rest, before := embed.Unread(), tcp.Written();
    var fe := FilterAll(embed, tcp, readOnly, true);
    ghost var n: nat :| RunResult(ParseAll(rest, embed.fate), readOnly, before, tcp.Written(), fe, n)
                        && embed.granted == old(embed.granted) + n;
    err := Stopped(fe);
    assert PumpResult(old(embed.Unread()), embed.fate, readOnly, old(tcp.Written()), tcp.Written(), err, n);
  }
}
