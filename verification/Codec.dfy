/** The 9-byte length-prefixed frame codec: [u32 length][kind][u32 channel id][payload]. */
module Codec {
  import opened Bytes
  import opened Stream

  const KIND_JSON_RPC: byte := 1
  const KIND_CHANNEL_DATA: byte := 2
  const KIND_CREDIT: byte := 3
  const HEADER_LEN: nat := 9
  const MAX_FRAME_LENGTH: nat := 1024 * 1024

  datatype Frame = Frame(kind: byte, channelId: nat, payload: seq<byte>)

  datatype CodecError =
    | CleanEof
    | Cut(cause: ReadError)
    | ReservedKind(kind: byte, length: nat)
    | Oversize(kind: byte, length: nat)

  predicate ReservedOrUnknown(kind: byte) {
    kind != KIND_JSON_RPC && kind != KIND_CHANNEL_DATA && kind != KIND_CREDIT
  }

  predicate WellFormed(f: Frame) {
    !ReservedOrUnknown(f.kind) && f.channelId < 0x1_0000_0000 && |f.payload| <= MAX_FRAME_LENGTH
  }

  predicate AllWellFormed(fs: seq<Frame>) {
    forall f :: f in fs ==> WellFormed(f)
  }

  function HeaderOf(length: nat, kind: byte, channelId: nat): (h: seq<byte>)
    requires length < 0x1_0000_0000 && channelId < 0x1_0000_0000
    ensures |h| == HEADER_LEN
  {
    PutU32(length) + [kind] + PutU32(channelId)
  }

  function EncodeFrame(f: Frame): (b: seq<byte>)
    requires WellFormed(f)
    ensures |b| == HEADER_LEN + |f.payload|
  {
    HeaderOf(|f.payload|, f.kind, f.channelId) + f.payload
  }

  function EncodeAll(fs: seq<Frame>): seq<byte>
    requires AllWellFormed(fs)
  {
    if fs == [] then [] else EncodeFrame(fs[0]) + EncodeAll(fs[1..])
  }

  // ---- decoding ----

  function LengthField(s: seq<byte>): nat requires |s| >= HEADER_LEN { U32(s[0..4]) }
  function KindField(s: seq<byte>): byte requires |s| >= HEADER_LEN { s[4] }
  function IdField(s: seq<byte>): nat requires |s| >= HEADER_LEN { U32(s[5..9]) }

  /** A header and a frame's encoding determine each other. */
  lemma HeaderFields(length: nat, kind: byte, channelId: nat, rest: seq<byte>)
    requires length < 0x1_0000_0000 && channelId < 0x1_0000_0000
    ensures var s := HeaderOf(length, kind, channelId) + rest;
            LengthField(s) == length && KindField(s) == kind && IdField(s) == channelId
  {
    var s := HeaderOf(length, kind, channelId) + rest;
    assert s[0..4] == PutU32(length);
    assert s[5..9] == PutU32(channelId);
  }

  lemma HeaderRebuilt(s: seq<byte>)
    requires |s| >= HEADER_LEN
    ensures HeaderOf(LengthField(s), KindField(s), IdField(s)) == s[..HEADER_LEN]
  {
    PutU32OfU32(s[0..4]);
    PutU32OfU32(s[5..9]);
  }

  datatype Decoded = Got(frame: Frame, rest: seq<byte>) | Stop(error: CodecError, rest: seq<byte>)

  function DecodeOne(s: seq<byte>, fate: Fate): (d: Decoded)
    ensures d.Got? ==> |d.rest| < |s|
  {
    if |s| < HEADER_LEN then
      Stop(if s == [] && fate == Eof then CleanEof else Cut(CutError(s, fate)), [])
    else
      var length, kind, body := LengthField(s), KindField(s), s[HEADER_LEN..];
      if ReservedOrUnknown(kind) then Stop(ReservedKind(kind, length), body)
      else if length > MAX_FRAME_LENGTH then Stop(Oversize(kind, length), body)
      else if |body| < length then Stop(Cut(if fate == Eof then UnexpectedEof else Ended(fate)), [])
      else Got(Frame(kind, IdField(s), body[..length]), body[length..])
  }

  /** Decode succeeds exactly on encodings of well-formed frames, and takes nothing more. */
  lemma DecodeIff(s: seq<byte>, fate: Fate, f: Frame, rest: seq<byte>)
    ensures DecodeOne(s, fate) == Got(f, rest) <==> WellFormed(f) && s == EncodeFrame(f) + rest
  {
    if WellFormed(f) && s == EncodeFrame(f) + rest {
      EncodedDecodes(fate, f, rest);
    }
    if DecodeOne(s, fate) == Got(f, rest) {
      DecodedIsEncoded(s, fate);
    }
  }

  lemma EncodedDecodes(fate: Fate, f: Frame, rest: seq<byte>)
    requires WellFormed(f)
    ensures DecodeOne(EncodeFrame(f) + rest, fate) == Got(f, rest)
  {
    var h, r := HeaderOf(|f.payload|, f.kind, f.channelId), f.payload + rest;
    var s := h + r;
    Assoc(h, f.payload, rest);
    HeaderFields(|f.payload|, f.kind, f.channelId, r);
    assert s[HEADER_LEN..] == r;
    assert r[..|f.payload|] == f.payload && r[|f.payload|..] == rest;
  }

  lemma DecodedIsEncoded(s: seq<byte>, fate: Fate)
    requires DecodeOne(s, fate).Got?
    ensures var d := DecodeOne(s, fate); WellFormed(d.frame) && s == EncodeFrame(d.frame) + d.rest
  {
    var d := DecodeOne(s, fate);
    HeaderRebuilt(s);
    assert s == s[..HEADER_LEN] + s[HEADER_LEN..];
    assert s[HEADER_LEN..] == d.frame.payload + d.rest;
    Assoc(s[..HEADER_LEN], d.frame.payload, d.rest);
  }

  /** The frame on the wire, byte by byte: length first, most significant byte first, then the kind, then
      the channel id, then the payload. */
  lemma FrameLayout(f: Frame)
    requires WellFormed(f)
    ensures var b := EncodeFrame(f);
            && |b| == 9 + |f.payload| && U32(b[0..4]) == |f.payload| && b[4] == f.kind && U32(b[5..9]) == f.channelId
            && b[9..] == f.payload
  {
    HeaderFields(|f.payload|, f.kind, f.channelId, f.payload);
  }

  /** What may be sent: kinds 1, 2 and 3, and up to 1 MiB. */
  lemma WellFormedMeans(f: Frame)
    ensures WellFormed(f) <==>
            (f.kind == 1 || f.kind == 2 || f.kind == 3) && f.channelId < 0x1_0000_0000 && |f.payload| <= 1048576
  {
  }

  predicate KnownKind(k: byte) {
    k == 1 || k == 2 || k == 3
  }

  /** Which error a stream that starts no frame gets, and what has been read by then: of a violation the
      header and nothing else. */
  lemma StopIff(s: seq<byte>, fate: Fate, kind: byte, length: nat)
    requires DecodeOne(s, fate).Stop?
    ensures var d := DecodeOne(s, fate);
            && (d.error == ReservedKind(kind, length) <==>
                  |s| >= 9 && s[4] == kind && !KnownKind(kind) && U32(s[0..4]) == length)
            && (d.error == Oversize(kind, length) <==>
                  |s| >= 9 && s[4] == kind && KnownKind(kind) && U32(s[0..4]) == length && length > 1048576)
            && (d.error == CleanEof <==> s == [] && fate == Eof)
            && (d.error.Cut? ==> d.error.cause == if fate == Eof then UnexpectedEof else Ended(fate))
            && d.rest == if d.error.ReservedKind? || d.error.Oversize? then s[9..] else []
  {
  }

  /** A stream cut inside a header, or after an acceptable header inside its payload. */
  predicate CutFrame(s: seq<byte>) {
    && s != []
    && (|s| < HEADER_LEN
        || (!ReservedOrUnknown(KindField(s)) && LengthField(s) <= MAX_FRAME_LENGTH
            && |s| < HEADER_LEN + LengthField(s)))
  }

  predicate BadHeader(s: seq<byte>) {
    |s| >= HEADER_LEN && (ReservedOrUnknown(KindField(s)) || LengthField(s) > MAX_FRAME_LENGTH)
  }

  datatype Trace = Trace(frames: seq<Frame>, error: CodecError, tail: seq<byte>)

  /** Decode until it reports an error; tail is where that happened. */
  function DecodeAll(s: seq<byte>, fate: Fate): Trace
    decreases |s|
  {
    match DecodeOne(s, fate)
    case Stop(e, _) => Trace([], e, s)
    case Got(f, rest) => var t := DecodeAll(rest, fate); t.(frames := [f] + t.frames)
  }

  lemma {:induction false} EncodeAllAppend(xs: seq<Frame>, ys: seq<Frame>)
    requires AllWellFormed(xs) && AllWellFormed(ys)
    ensures AllWellFormed(xs + ys) && EncodeAll(xs + ys) == EncodeAll(xs) + EncodeAll(ys)
  {
    var zs := xs + ys;
    if xs == [] {
      assert zs == ys;
    } else {
      assert zs[0] == xs[0] && zs[1..] == xs[1..] + ys;
      EncodeAllAppend(xs[1..], ys);
      Assoc(EncodeFrame(xs[0]), EncodeAll(xs[1..]), EncodeAll(ys));
    }
  }

  lemma {:induction false} DecodeAllAppend(fs: seq<Frame>, s: seq<byte>, fate: Fate)
    requires AllWellFormed(fs)
    ensures var t := DecodeAll(s, fate); DecodeAll(EncodeAll(fs) + s, fate) == t.(frames := fs + t.frames)
  {
    var t := DecodeAll(s, fate);
    if fs == [] {
      assert EncodeAll(fs) + s == s && fs + t.frames == t.frames;
    } else {
      var rest := EncodeAll(fs[1..]) + s;
      Assoc(EncodeFrame(fs[0]), EncodeAll(fs[1..]), s);
      DecodeIff(EncodeAll(fs) + s, fate, fs[0], rest);
      DecodeAllAppend(fs[1..], s, fate);
      Assoc([fs[0]], fs[1..], t.frames);
      assert fs == [fs[0]] + fs[1..];
    }
  }

  /** Every byte string decodes into well-formed frames whose re-encoding is what was consumed, and
      the way it ends says exactly what is left. */
  lemma {:induction false} DecodeTotal(s: seq<byte>, fate: Fate)
    ensures var t := DecodeAll(s, fate);
            && AllWellFormed(t.frames) && s == EncodeAll(t.frames) + t.tail
            && (t.error == CleanEof <==> fate == Eof && t.tail == [])
            && (t.error == Cut(UnexpectedEof) <==> fate == Eof && CutFrame(t.tail))
            && (t.error.ReservedKind? || t.error.Oversize? <==> BadHeader(t.tail))
    decreases |s|
  {
    match DecodeOne(s, fate)
    case Stop(_, _) =>
      assert EncodeAll([]) + s == s;
    case Got(f, rest) =>
      DecodeIff(s, fate, f, rest);
      DecodeTotal(rest, fate);
      var t := DecodeAll(rest, fate);
      assert ([f] + t.frames)[1..] == t.frames;
      Assoc(EncodeFrame(f), EncodeAll(t.frames), t.tail);
  }

  /** No other reading exists: frames that spell a prefix of the stream are the first ones decoded,
      and a list that cannot be extended is the decoded one. */
  lemma DecodeUnique(fs: seq<Frame>, rest: seq<byte>, fate: Fate)
    requires AllWellFormed(fs)
    ensures fs <= DecodeAll(EncodeAll(fs) + rest, fate).frames
    ensures DecodeOne(rest, fate).Stop? ==>
              DecodeAll(EncodeAll(fs) + rest, fate) == Trace(fs, DecodeOne(rest, fate).error, rest)
  {
    DecodeAllAppend(fs, rest, fate);
  }

  // ---- the encoder and the decoder ----

  datatype EncodeError = RefusedKind(kind: byte) | RefusedLength(length: nat)

  /** Copies b into buf from offset on. */
  method Put(buf: array<byte>, offset: nat, b: seq<byte>)
    requires offset + |b| <= buf.Length
    modifies buf
    ensures buf[..] == old(buf[..offset]) + b + old(buf[offset + |b|..])
  {
    for i := 0 to |b|
      invariant buf[..offset] == old(buf[..offset])
      invariant buf[offset..offset + i] == b[..i]
      invariant buf[offset + i..] == old(buf[offset + i..])
    {
      buf[offset + i] := b[i];
    }
    assert buf[..] == buf[..offset] + buf[offset..offset + |b|] + buf[offset + |b|..];
  }

  /** The buffer Encode hands to its one Write call, or the reason it refuses. */
  method Encode(kind: byte, channelId: nat, payload: seq<byte>) returns (r: Result<array<byte>, EncodeError>)
    requires channelId < 0x1_0000_0000
    ensures r.Success? <==> WellFormed(Frame(kind, channelId, payload))
    ensures r.Success? ==> fresh(r.value) && r.value[..] == EncodeFrame(Frame(kind, channelId, payload))
    ensures r.Failure? ==> r.error == if ReservedOrUnknown(kind) then RefusedKind(kind) else RefusedLength(|payload|)
  {
    if ReservedOrUnknown(kind) {
      return Failure(RefusedKind(kind));
    }
    if |payload| > MAX_FRAME_LENGTH {
      return Failure(RefusedLength(|payload|));
    }
    var buf := new byte[HEADER_LEN + |payload|];
    Put(buf, 0, PutU32(|payload|));
    Put(buf, 4, [kind]);
    Put(buf, 5, PutU32(channelId));
    Put(buf, HEADER_LEN, payload);
    assert buf[..4] == PutU32(|payload|);
    r := Success(buf);
  }

  ghost function Outcome(r: Result<Frame, CodecError>, left: seq<byte>): Decoded {
    match r
    case Success(f) => Got(f, left)
    case Failure(e) => Stop(e, left)
  }

  /** On a violation exactly the header has been read: the payload is never touched. */
  method Decode(conn: Conn) returns (r: Result<Frame, CodecError>)
    modifies conn`frames, conn`readBuf
    ensures Outcome(r, conn.Unread()) == DecodeOne(old(conn.Unread()), conn.fate)
  {
    ghost var s := conn.Unread();
    var hdr, err := conn.ReadFull(HEADER_LEN);
    if err.Some? {
      return Failure(if err.value == Ended(Eof) then CleanEof else Cut(err.value));
    }
    SubPrefix(s, HEADER_LEN, 0, 4);
    SubPrefix(s, HEADER_LEN, 5, 9);
    var length, kind := LengthField(hdr), KindField(hdr);
    if ReservedOrUnknown(kind) {
      return Failure(ReservedKind(kind, length));
    }
    if length > MAX_FRAME_LENGTH {
      return Failure(Oversize(kind, length));
    }
    var payload: seq<byte> := [];
    if length > 0 {
      payload, err := conn.ReadFull(length);
      if err.Some? {
        return Failure(Cut(if err.value == Ended(Eof) then UnexpectedEof else err.value));
      }
    }
    return Success(Frame(kind, IdField(hdr), payload));
  }
}
