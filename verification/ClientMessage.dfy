/** Client-to-server RFB messages (section 7.5 of RFC 6143): one self-delimiting message at a time. */
module ClientMessage {
  import opened Bytes
  import opened Stream

  const SET_PIXEL_FORMAT: byte := 0
  const SET_ENCODINGS: byte := 2
  const FRAMEBUFFER_UPDATE_REQUEST: byte := 3
  const KEY_EVENT: byte := 4
  const POINTER_EVENT: byte := 5
  const CLIENT_CUT_TEXT: byte := 6

  const SET_PIXEL_FORMAT_BODY: nat := 20 - 1
  const FRAMEBUFFER_UPDATE_REQUEST_BODY: nat := 10 - 1
  const KEY_EVENT_BODY: nat := 8 - 1
  const POINTER_EVENT_BODY: nat := 6 - 1
  const MAX_CLIENT_CUT_TEXT: nat := 16 * 1024 * 1024

  /** Type byte and everything after it. */
  datatype Message = Message(kind: byte, body: seq<byte>)

  /** The field whose read was cut short. */
  datatype Field = TypeByte | FixedBody | Header | Counted

  datatype ParseError =
    | UnknownType(kind: byte)
    | TooLong(length: nat)
    | Truncated(field: Field, cause: ReadError)

  // ---- what the format is, without reading order ----

  predicate KnownType(t: byte) {
    t == SET_PIXEL_FORMAT || t == SET_ENCODINGS || t == FRAMEBUFFER_UPDATE_REQUEST
    || t == KEY_EVENT || t == POINTER_EVENT || t == CLIENT_CUT_TEXT
  }

  /** The message layouts of sections 7.5.1 to 7.5.6, plus the size limit on cut text. */
  predicate WellFormed(m: Message) {
    var n := |m.body|;
    match m.kind
    case 0 => n == 19
    case 2 => n >= 3 && n == 3 + 4 * U16(m.body[1..3])
    case 3 => n == 9
    case 4 => n == 7
    case 5 => n == 5
    case 6 => n >= 7 && n == 7 + U32(m.body[3..7]) && n - 7 <= 16777216
    case _ => false
  }

  predicate AllWellFormed(ms: seq<Message>) {
    forall m :: m in ms ==> WellFormed(m)
  }

  function Serialize(m: Message): seq<byte> {
    [m.kind] + m.body
  }

  function SerializeAll(ms: seq<Message>): seq<byte> {
    if ms == [] then [] else Serialize(ms[0]) + SerializeAll(ms[1..])
  }

  /** A stream stops at a field boundary: before a type byte, right after a known one, or right
      after a header that announces a payload of a legal, non-zero size. */
  predicate FieldBoundary(s: seq<byte>) {
    || s == []
    || (|s| == 1 && KnownType(s[0]))
    || (|s| == 4 && s[0] == SET_ENCODINGS && U16(s[2..4]) > 0)
    || (|s| == 8 && s[0] == CLIENT_CUT_TEXT && 0 < U32(s[4..8]) <= MAX_CLIENT_CUT_TEXT)
  }

  // ---- reading one message ----

  datatype Parse =
    | Parsed(msg: Message, rest: seq<byte>)
    | Failed(error: ParseError, rest: seq<byte>)

  /** First field after the type byte, and the bytes that field announces. */
  function HeadLen(t: byte): nat
    requires KnownType(t)
  {
    match t
    case 0 => SET_PIXEL_FORMAT_BODY
    case 2 => 3
    case 3 => FRAMEBUFFER_UPDATE_REQUEST_BODY
    case 4 => KEY_EVENT_BODY
    case 5 => POINTER_EVENT_BODY
    case _ => 7
  }

  function CountedLen(t: byte, head: seq<byte>): nat
    requires KnownType(t) && |head| == HeadLen(t)
  {
    match t
    case 2 => 4 * U16(head[1..3])
    case 6 => U32(head[3..7])
    case _ => 0
  }

  function ParseOne(s: seq<byte>, fate: Fate): (p: Parse)
    ensures p.Parsed? ==> |p.rest| < |s|
  {
    if s == [] then Failed(Truncated(TypeByte, Ended(fate)), [])
    else
      var t, r := s[0], s[1..];
      if !KnownType(t) then Failed(UnknownType(t), r)
      else
        var h := HeadLen(t);
        if |r| < h then
          Failed(Truncated(if t == SET_ENCODINGS || t == CLIENT_CUT_TEXT then Header else FixedBody,
              CutError(r, fate)), [])
        else
          var c := CountedLen(t, r[..h]);
          if t == CLIENT_CUT_TEXT && c > MAX_CLIENT_CUT_TEXT then Failed(TooLong(c), r[h..])
          else if |r| - h < c then Failed(Truncated(Counted, CutError(r[h..], fate)), [])
          else Parsed(Message(t, r[..h + c]), r[h + c..])
  }

  /** What reading from conn amounts to, as a parse of the bytes it held before. */
  ghost function Outcome(result: Result<Message, ParseError>, left: seq<byte>): Parse {
    match result
    case Success(m) => Parsed(m, left)
    case Failure(e) => Failed(e, left)
  }

  method ReadFixed(conn: Conn, t: byte, n: nat) returns (result: Result<Message, ParseError>)
    requires KnownType(t) && n == HeadLen(t) && t != SET_ENCODINGS && t != CLIENT_CUT_TEXT
    modifies conn`frames, conn`readBuf
    ensures Outcome(result, conn.Unread()) == ParseOne([t] + old(conn.Unread()), conn.fate)
  {
    ghost var r := conn.Unread();
    assert ([t] + r)[1..] == r;
    var body, err := conn.ReadFull(n);
    if err.Some? {
      return Failure(Truncated(FixedBody, err.value));
    }
    return Success(Message(t, body));
  }

  /** Padding, a u16 count, then four bytes per encoding. */
  method ReadSetEncodings(conn: Conn) returns (result: Result<Message, ParseError>)
    modifies conn`frames, conn`readBuf
    ensures Outcome(result, conn.Unread()) == ParseOne([SET_ENCODINGS] + old(conn.Unread()), conn.fate)
  {
    ghost var r := conn.Unread();
    assert ([SET_ENCODINGS] + r)[1..] == r;
    var header, err := conn.ReadFull(3);
    if err.Some? {
      return Failure(Truncated(Header, err.value));
    }
    var n := U16(header[1..3]);
    var encodings, err' := conn.ReadFull(n * 4);
    if err'.Some? {
      return Failure(Truncated(Counted, err'.value));
    }
    Joined(r, 3, n * 4);
    return Success(Message(SET_ENCODINGS, header + encodings));
  }

  /** Padding, a u32 length, then the text. */
  method ReadClientCutText(conn: Conn) returns (result: Result<Message, ParseError>)
    modifies conn`frames, conn`readBuf
    ensures Outcome(result, conn.Unread()) == ParseOne([CLIENT_CUT_TEXT] + old(conn.Unread()), conn.fate)
  {
    ghost var r := conn.Unread();
    assert ([CLIENT_CUT_TEXT] + r)[1..] == r;
    var header, err := conn.ReadFull(7);
    if err.Some? {
      return Failure(Truncated(Header, err.value));
    }
    var length := U32(header[3..7]);
    if length > MAX_CLIENT_CUT_TEXT {
      return Failure(TooLong(length));
    }
    var text, err' := conn.ReadFull(length);
    if err'.Some? {
      return Failure(Truncated(Counted, err'.value));
    }
    Joined(r, 7, length);
    return Success(Message(CLIENT_CUT_TEXT, header + text));
  }

  lemma Joined(r: seq<byte>, h: nat, c: nat)
    requires h + c <= |r|
    ensures r[..h] + r[h..][..c] == r[..h + c]
    ensures r[h..][c..] == r[h + c..]
  {
  }

  method ReadClientMessage(conn: Conn) returns (result: Result<Message, ParseError>)
    modifies conn`frames, conn`readBuf
    ensures Outcome(result, conn.Unread()) == ParseOne(old(conn.Unread()), conn.fate)
  {
    ghost var s := conn.Unread();
    var typeBuf, err := conn.ReadFull(1);
    if err.Some? {
      return Failure(Truncated(TypeByte, err.value));
    }
    var t := typeBuf[0];
    ghost var r := conn.Unread();
    assert s == [t] + r;
    if t == SET_PIXEL_FORMAT {
      result := ReadFixed(conn, t, SET_PIXEL_FORMAT_BODY);
    } else if t == FRAMEBUFFER_UPDATE_REQUEST {
      result := ReadFixed(conn, t, FRAMEBUFFER_UPDATE_REQUEST_BODY);
    } else if t == KEY_EVENT {
      result := ReadFixed(conn, t, KEY_EVENT_BODY);
    } else if t == POINTER_EVENT {
      result := ReadFixed(conn, t, POINTER_EVENT_BODY);
    } else if t == SET_ENCODINGS {
      result := ReadSetEncodings(conn);
    } else if t == CLIENT_CUT_TEXT {
      result := ReadClientCutText(conn);
    } else {
      result := Failure(UnknownType(t));
    }
  }

  // ---- what a parse means ----

  /** Parsing and well-formedness are the same thing: a message comes out exactly when the stream
      starts with the serialisation of a well-formed message, and nothing past it is touched. */
  lemma ParseIff(s: seq<byte>, fate: Fate, m: Message, rest: seq<byte>)
    ensures ParseOne(s, fate) == Parsed(m, rest) <==> WellFormed(m) && s == Serialize(m) + rest
  {
    if WellFormed(m) && s == Serialize(m) + rest {
      SerializedParses(fate, m, rest);
    }
    if ParseOne(s, fate) == Parsed(m, rest) {
      ParsedIsSerialized(s, fate);
    }
  }

  lemma SerializedParses(fate: Fate, m: Message, rest: seq<byte>)
    requires WellFormed(m)
    ensures ParseOne(Serialize(m) + rest, fate) == Parsed(m, rest)
  {
    var s := Serialize(m) + rest;
    var r := m.body + rest;
    assert s[0] == m.kind && s[1..] == r;
    HeadOf(m.kind, r, m.body);
    assert r[..|m.body|] == m.body && r[|m.body|..] == rest;
  }

  lemma ParsedIsSerialized(s: seq<byte>, fate: Fate)
    requires ParseOne(s, fate).Parsed?
    ensures var p := ParseOne(s, fate); WellFormed(p.msg) && s == Serialize(p.msg) + p.rest
  {
    var m := ParseOne(s, fate).msg;
    assert m.body <= s[1..];
    HeadOf(s[0], s[1..], m.body);
    assert s == [s[0]] + s[1..];
  }

  /** The counts are read from the same place whether one looks at the stream or at the body. */
  lemma HeadOf(t: byte, r: seq<byte>, body: seq<byte>)
    requires KnownType(t) && HeadLen(t) <= |body| && body <= r
    ensures r[..HeadLen(t)] == body[..HeadLen(t)]
    ensures t == 2 ==> CountedLen(t, r[..HeadLen(t)]) == 4 * U16(body[1..3])
    ensures t == 6 ==> CountedLen(t, r[..HeadLen(t)]) == U32(body[3..7])
  {
    var h := HeadLen(t);
    assert r[..h] == body[..h] by { assert body == r[..|body|]; }
    if t == 2 { SubPrefix(body, h, 1, 3); }
    if t == 6 { SubPrefix(body, h, 3, 7); }
  }

  /** A clean end of stream is reported at field boundaries and nowhere else. */
  lemma CleanEndIff(s: seq<byte>, fate: Fate)
    ensures (exists f, rest :: ParseOne(s, fate) == Failed(Truncated(f, Ended(Eof)), rest))
            <==> fate == Eof && FieldBoundary(s)
  {
    var p := ParseOne(s, fate);
    if s != [] && KnownType(s[0]) {
      var t, r, h := s[0], s[1..], HeadLen(s[0]);
      if |r| >= h {
        assert t == 2 ==> r[..h][1..3] == s[2..4];
        assert t == 6 ==> r[..h][3..7] == s[4..8];
      }
    }
    if fate == Eof && FieldBoundary(s) {
      assert p == Failed(Truncated(p.error.field, Ended(Eof)), p.rest);
    }
  }

  /** Which error a stream that starts no message gets, and how far it has been read by then: an unknown
      type stops after the type byte, an oversize text after its header, anything else at the end. */
  lemma FailIff(s: seq<byte>, fate: Fate, t: byte, n: nat)
    requires ParseOne(s, fate).Failed?
    ensures var p := ParseOne(s, fate);
            && (p.error == UnknownType(t) <==> s != [] && s[0] == t && t != 0 && !(2 <= t <= 6))
            && (p.error == TooLong(n) <==> |s| >= 8 && s[0] == 6 && U32(s[4..8]) == n && n > 16777216)
            && p.rest == match p.error
                         case UnknownType(_) => s[1..]
                         case TooLong(_) => s[8..]
                         case Truncated(_, _) => []
  {
    if s != [] && KnownType(s[0]) && |s| >= 8 {
      assert s[0] == 6 ==> s[1..][..7][3..7] == s[4..8];
      assert s[1..][7..] == s[8..];
    }
  }

  /** And where an incomplete message was cut: before its type, in its fixed part, or in what that announces. */
  lemma CutAt(s: seq<byte>, fate: Fate)
    requires ParseOne(s, fate).Failed? && ParseOne(s, fate).error.Truncated?
    ensures var e := ParseOne(s, fate).error;
            && (e.field == TypeByte <==> s == [])
            && (e.field == FixedBody <==> s != [] && (s[0] == 0 || s[0] == 3 || s[0] == 4 || s[0] == 5))
            && (e.field == Header <==> s != [] && ((s[0] == 2 && |s| < 4) || (s[0] == 6 && |s| < 8)))
            && (e.field == Counted <==> s != [] && ((s[0] == 2 && |s| >= 4) || (s[0] == 6 && |s| >= 8)))
            && e.cause == if fate == Eof && !FieldBoundary(s) then UnexpectedEof else Ended(fate)
  {
    CleanEndIff(s, fate);
  }

  // ---- whole streams ----

  /** Every message that can be parsed, then the first error and the bytes it happened at. */
  datatype Trace = Trace(msgs: seq<Message>, error: ParseError, tail: seq<byte>)

  function ParseAll(s: seq<byte>, fate: Fate): Trace
    decreases |s|
  {
    match ParseOne(s, fate)
    case Failed(e, _) => Trace([], e, s)
    case Parsed(m, rest) =>
      var t := ParseAll(rest, fate);
      t.(msgs := [m] + t.msgs)
  }

  /** The messages are well formed and spell the consumed part of the stream. */
  lemma {:induction false} ParseAllSound(s: seq<byte>, fate: Fate)
    ensures var t := ParseAll(s, fate);
            AllWellFormed(t.msgs) && s == SerializeAll(t.msgs) + t.tail
            && ParseOne(t.tail, fate).Failed? && ParseOne(t.tail, fate).error == t.error
    decreases |s|
  {
    match ParseOne(s, fate)
    case Failed(_, _) =>
    case Parsed(m, rest) =>
      ParseIff(s, fate, m, rest);
      ParseAllSound(rest, fate);
      var t := ParseAll(rest, fate);
      assert ([m] + t.msgs)[1..] == t.msgs;
      Assoc(Serialize(m), SerializeAll(t.msgs), t.tail);
  }

  /** Serialised messages in front of a stream come back one for one. */
  lemma {:induction false} ParseAllAppend(ms: seq<Message>, s: seq<byte>, fate: Fate)
    requires AllWellFormed(ms)
    ensures var t := ParseAll(s, fate); ParseAll(SerializeAll(ms) + s, fate) == t.(msgs := ms + t.msgs)
  {
    var t := ParseAll(s, fate);
    if ms == [] {
      assert SerializeAll(ms) + s == s && ms + t.msgs == t.msgs;
    } else {
      var whole, rest := SerializeAll(ms) + s, SerializeAll(ms[1..]) + s;
      Assoc(Serialize(ms[0]), SerializeAll(ms[1..]), s);
      ParseIff(whole, fate, ms[0], rest);
      ParseAllAppend(ms[1..], s, fate);
      Assoc([ms[0]], ms[1..], t.msgs);
      assert ms == [ms[0]] + ms[1..];
    }
  }

  /** Unique decodability: whatever way a stream is cut into well-formed messages and a remainder,
      those messages are the first ones parsed; if the remainder starts no message, they are all. */
  lemma UniqueDecoding(ms: seq<Message>, rest: seq<byte>, fate: Fate)
    requires AllWellFormed(ms)
    ensures ms <= ParseAll(SerializeAll(ms) + rest, fate).msgs
    ensures ParseOne(rest, fate).Failed? ==>
              ParseAll(SerializeAll(ms) + rest, fate) == Trace(ms, ParseOne(rest, fate).error, rest)
  {
    ParseAllAppend(ms, rest, fate);
  }

  // ---- one message, read piece by piece ----

  /** Bytes the current field still needs, given the bytes read so far; none once the message is
      complete or can only be refused. */
  function Missing(part: seq<byte>): nat {
    if part == [] then 1
    else if !KnownType(part[0]) then 0
    else
      var h := 1 + HeadLen(part[0]);
      if |part| < h then h - |part|
      else
        var c := CountedLen(part[0], part[1..h]);
        if part[0] == CLIENT_CUT_TEXT && c > MAX_CLIENT_CUT_TEXT then 0
        else if |part| < h + c then h + c - |part| else 0
  }

  /** What reading field by field can have collected. */
  predicate Growing(part: seq<byte>) {
    if part == [] then true
    else if !KnownType(part[0]) then |part| == 1
    else
      var h := 1 + HeadLen(part[0]);
      |part| <= h
      || (var c := CountedLen(part[0], part[1..h]);
          |part| <= h + c && !(part[0] == CLIENT_CUT_TEXT && c > MAX_CLIENT_CUT_TEXT))
  }

  predicate Whole(part: seq<byte>) {
    part != [] && WellFormed(Message(part[0], part[1..]))
  }

  lemma PieceKeepsGrowing(part: seq<byte>, b: seq<byte>)
    requires Growing(part) && 0 < |b| <= Missing(part)
    ensures Growing(part + b)
  {
    if part != [] {
      var h := 1 + HeadLen(part[0]);
      if |part| >= h {
        assert (part + b)[1..h] == part[1..h];
      }
    }
  }

  /** The first field is where it is, whatever follows. */
  lemma SameHead(part: seq<byte>, rest: seq<byte>, h: nat)
    requires h < |part|
    ensures (part + rest)[1..][..h] == part[1..1 + h] && part[1..][..h] == part[1..1 + h]
  {
    assert (part + rest)[1..] == part[1..] + rest;
  }

  /** Reading stops short of a whole message only where every continuation is refused. */
  lemma WholeOrRefused(part: seq<byte>, rest: seq<byte>)
    requires Growing(part) && Missing(part) == 0
    ensures Whole(part) || ParseOne(part + rest, Eof).Failed?
  {
    if KnownType(part[0]) {
      SameHead(part, rest, HeadLen(part[0]));
      HeadOf(part[0], part[1..], part[1..]);
    }
  }

  lemma WholeMissesNothing(part: seq<byte>)
    requires Whole(part)
    ensures Missing(part) == 0
  {
    SerializedParses(Eof, Message(part[0], part[1..]), []);
    assert Serialize(Message(part[0], part[1..])) + [] == part;
    if Missing(part) > 0 {
      PartFails(part);
    }
  }

  lemma PartFails(part: seq<byte>)
    requires Missing(part) > 0
    ensures ParseOne(part, Eof).Failed?
  {
    if part != [] && |part| >= 1 + HeadLen(part[0]) {
      assert part[1..][..HeadLen(part[0])] == part[1..1 + HeadLen(part[0])];
    }
  }
}
