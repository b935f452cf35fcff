/** transport.Channel as a byte stream: a Read that hands out at most one payload at a time, a Write
    that splits what it is given into frames, and io.ReadFull over such a Read. */
module Stream {
  import opened Bytes

  /** Why the read side ends once every payload that arrived has been handed out. */
  datatype Fate = Eof | TimedOut | Closed

  /** io.ReadFull's errors: the reader's own, or a field cut part way through. */
  datatype ReadError = Ended(fate: Fate) | UnexpectedEof

  datatype WriteError = SendFailed | WriteTimedOut | WriteClosed

  type Positive = n: nat | n > 0 witness 1

  const DEFAULT_MAX_PAYLOAD: Positive := 1024 * 1024

  // ---- splitting a write into frames (frame.go) ----

  function Ceiling(max: int): Positive {
    if max <= 0 then DEFAULT_MAX_PAYLOAD else max
  }

  /** A channel without a maximum of its own takes frames of up to 1 MiB. */
  lemma CeilingMeans(max: int)
    ensures Ceiling(max) == if max > 0 then max else 1048576
  {
  }

  function Split(b: seq<byte>, max: Positive): (chunks: seq<seq<byte>>) {
    if b == [] then [] else if |b| <= max then [b] else [b[..max]] + Split(b[max..], max)
  }

  /** A chunk list is what splitPayload promises: it rebuilds b in order, nothing is empty or too
      long, and only the last chunk may be short. */
  ghost predicate IsSplit(chunks: seq<seq<byte>>, b: seq<byte>, max: nat) {
    && Concat(chunks) == b
    && (forall i :: 0 <= i < |chunks| ==> 0 < |chunks[i]| <= max)
    && (forall i :: 0 <= i < |chunks| - 1 ==> |chunks[i]| == max)
  }

  lemma {:induction false} SplitIsSplit(b: seq<byte>, max: Positive)
    ensures IsSplit(Split(b, max), b, max)
  {
    if b == [] {
    } else if |b| <= max {
      assert Concat([b]) == b + Concat([]);
    } else {
      SplitIsSplit(b[max..], max);
      var rest := Split(b[max..], max);
      assert ([b[..max]] + rest)[1..] == rest;
      assert b == b[..max] + b[max..];
    }
  }

  /** The number of chunks is |b| / max rounded up: max times one fewer is not enough. */
  lemma {:induction false} SplitCount(b: seq<byte>, max: Positive)
    ensures |b| <= max * |Split(b, max)|
    ensures b != [] ==> max * (|Split(b, max)| - 1) < |b|
  {
    if |b| > max {
      SplitCount(b[max..], max);
      TimesNext(max, |Split(b[max..], max)|);
      TimesNext(max, |Split(b[max..], max)| - 1);
    }
  }

  lemma TimesNext(d: int, k: int)
    ensures d * (k + 1) == d * k + d
  {
  }

  /** The promise pins the chunk list down: no other list meets it. */
  lemma {:induction false} SplitUnique(chunks: seq<seq<byte>>, b: seq<byte>, max: Positive)
    requires IsSplit(chunks, b, max)
    ensures chunks == Split(b, max)
  {
    if chunks != [] {
      var rest := chunks[1..];
      ConcatTail(chunks);
      if rest == [] {
        assert Concat(rest) == [];
        assert b == chunks[0] && chunks == [b];
      } else {
        assert |chunks[0]| == max;
        assert rest[0] == chunks[1] && Concat(rest) != [] by { ConcatTail(rest); }
        assert b[max..] == Concat(rest) && b[..max] == chunks[0];
        assert IsSplit(rest, b[max..], max) by {
          forall i | 0 <= i < |rest| ensures 0 < |rest[i]| <= max && (i < |rest| - 1 ==> |rest[i]| == max) {
            assert rest[i] == chunks[i + 1];
          }
        }
        SplitUnique(rest, b[max..], max);
        assert chunks == [chunks[0]] + rest;
      }
    }
  }

  lemma SplitStep(b: seq<byte>, max: Positive, n: nat)
    requires b != [] && n == (if max > |b| then |b| else max)
    ensures Split(b, max) == [b[..n]] + Split(b[n..], max)
  {
    if |b| <= max {
      assert b[..n] == b && b[n..] == [];
      assert Split(b, max) == [b] + [];
    }
  }

  method SplitPayload(b: seq<byte>, max: int) returns (chunks: seq<seq<byte>>)
    ensures chunks == Split(b, Ceiling(max))
    ensures IsSplit(chunks, b, Ceiling(max))
  {
    var ceiling := Ceiling(max);
    chunks := [];
    var rest := b;
    while rest != []
      invariant chunks + Split(rest, ceiling) == Split(b, ceiling)
      decreases |rest|
    {
      var n := if ceiling > |rest| then |rest| else ceiling;
      SplitStep(rest, ceiling, n);
      Assoc(chunks, [rest[..n]], Split(rest[n..], ceiling));
      chunks := chunks + [rest[..n]];
      rest := rest[n..];
    }
    assert chunks + [] == chunks;
    SplitIsSplit(b, ceiling);
  }

  // ---- the connection ----

  function Min(a: nat, b: nat): nat { if a < b then a else b }

  /** One Read: what it returns and what it leaves in readBuf, given the bytes at hand. */
  function TakeFrom(buf: seq<byte>, max: nat): (r: (seq<byte>, seq<byte>))
    ensures r.0 + r.1 == buf
  {
    var n := Min(max, |buf|);
    (buf[..n], buf[n..])
  }

  /** The error io.ReadFull reports when the stream ends before the field is complete. */
  function CutError(available: seq<byte>, fate: Fate): ReadError {
    if available != [] && fate == Eof then UnexpectedEof else Ended(fate)
  }

  class Conn {
    /** Payloads the source still delivers before the read side ends, in order. */
    var frames: seq<seq<byte>>
    var readBuf: seq<byte>
    /** Payloads the sink accepted, in order. */
    var sent: seq<seq<byte>>
    /** Some Write on this connection reported an error. */
    var broken: bool
    /** Receive credit granted back to the host. */
    var granted: nat
    /** Reads and writes have a deadline. */
    var deadline: bool
    const fate: Fate
    const maxPayload: Positive

    constructor (frames: seq<seq<byte>>, fate: Fate, max: int)
      ensures this.frames == frames && readBuf == [] && sent == [] && !broken && granted == 0 && !deadline
      ensures this.fate == fate && maxPayload == Ceiling(max)
    {
      this.frames, this.readBuf, this.sent := frames, [], [];
      this.broken, this.granted, this.deadline := false, 0, false;
      this.fate, this.maxPayload := fate, Ceiling(max);
    }

    /** Every byte a reader of this connection will still see. */
    ghost function Unread(): seq<byte>
      reads this`readBuf, this`frames
    {
      readBuf + Concat(frames)
    }

    ghost function Written(): seq<byte>
      reads this`sent
    {
      Concat(sent)
    }

    /** Read returns one payload or what is left of it, never more than asked, and an error only
        once nothing is left; empty payloads are skipped by the read pump. */
    method Read(max: nat) returns (b: seq<byte>, err: Option<ReadError>)
      modifies this`frames, this`readBuf
      ensures err.None? <==> old(Unread()) != []
      ensures err.None? ==> b + Unread() == old(Unread()) && |b| <= max
      ensures err.None? && max > 0 ==> b != []
      ensures err.None? && old(readBuf) != [] ==> (b, readBuf) == TakeFrom(old(readBuf), max) && frames == old(frames)
      ensures err.None? && old(readBuf) == [] ==>
                exists i: nat :: FirstPayload(old(frames), i) && (b, readBuf) == TakeFrom(old(frames)[i], max)
                            && frames == old(frames)[i + 1..]
      ensures err.Some? ==> b == [] && err.value == Ended(fate) && Unread() == []
    {
      if readBuf == [] {
        ghost var i := 0;
        while frames != [] && frames[0] == []
          invariant 0 <= i <= |old(frames)| && frames == old(frames)[i..]
          invariant forall j :: 0 <= j < i ==> old(frames)[j] == []
          invariant readBuf == [] && Unread() == old(Unread())
          decreases |frames|
        {
          assert Concat(frames) == frames[0] + Concat(frames[1..]);
          frames := frames[1..];
          i := i + 1;
        }
        if frames == [] {
          return [], Some(Ended(fate));
        }
        assert FirstPayload(old(frames), i);
        assert Concat(frames) == frames[0] + Concat(frames[1..]);
        readBuf, frames := frames[0], frames[1..];
      }
      label taken:
      var (got, rest) := TakeFrom(readBuf, max);
      b, readBuf, err := got, rest, None;
      assert b + Unread() == old@taken(Unread());
    }

    /** io.ReadFull: all n bytes or an error, however the peer cut its stream into frames. */
    method ReadFull(n: nat) returns (b: seq<byte>, err: Option<ReadError>)
      modifies this`frames, this`readBuf
      ensures err.None? <==> |old(Unread())| >= n
      ensures err.None? ==> b == old(Unread())[..n] && Unread() == old(Unread())[n..]
      ensures err.Some? ==> err.value == CutError(old(Unread()), fate) && Unread() == []
    {
      b, err := [], None;
      while |b| < n
        invariant |b| <= n && b + Unread() == old(Unread())
        decreases n - |b|
      {
        var got, e := Read(n - |b|);
        if e.Some? {
          assert b == old(Unread());
          return b, Some(if b != [] && fate == Eof then UnexpectedEof else Ended(fate));
        }
        Assoc(b, got, Unread());
        b := b + got;
      }
      assert old(Unread()) == b + Unread();
    }

    /** One chunk through the write pump. The hand-off may time out or find the channel closed
        before the pump takes the chunk; once taken, Send may fail, or the caller may give up while
        Send is still on its way, in which case the chunk may still reach the sink. */
    method HandOff(chunk: seq<byte>) returns (err: Option<WriteError>)
      modifies this`sent, this`broken
      ensures err.None? ==> sent == old(sent) + [chunk] && broken == old(broken)
      ensures err.Some? ==> broken && (sent == old(sent) || sent == old(sent) + [chunk])
    {
      var taken: bool, arrives: bool, waited: bool, closed: bool := *, *, *, *;
      if taken && arrives {
        sent := sent + [chunk];
      }
      if taken && waited && arrives {
        return None;
      }
      broken := true;
      err := Some(if taken && waited then SendFailed else if closed then WriteClosed else WriteTimedOut);
    }

    /** The bytes the sink accepted are always a gap-free prefix of b, the returned count covers
        whole accepted chunks, and at most one more chunk got through. */
    method Write(b: seq<byte>) returns (n: nat, err: Option<WriteError>)
      modifies this`sent, this`broken
      ensures err.None? ==> n == |b| && sent == old(sent) + Split(b, maxPayload) && broken == old(broken)
      ensures err.Some? ==> broken && exists k: nat :: StoppedAt(Split(b, maxPayload), k, n, old(sent), sent)
      ensures n <= |b| && old(Written()) + b[..n] <= Written() <= old(Written()) + b
      ensures |Written()| <= |old(Written())| + n + maxPayload
      ensures err.None? ==> Written() == old(Written()) + b
    {
      var chunks := SplitPayload(b, maxPayload);
      n := 0;
      for k := 0 to |chunks|
        invariant n == |Concat(chunks[..k])|
        invariant sent == old(sent) + chunks[..k] && broken == old(broken)
      {
        err := HandOff(chunks[k]);
        assert chunks[..k + 1] == chunks[..k] + [chunks[k]];
        Assoc(old(sent), chunks[..k], [chunks[k]]);
        if err.Some? {
          assert StoppedAt(chunks, k, n, old(sent), sent);
          StoppedBytes(chunks, k, n, b, old(sent), sent);
          return;
        }
        n := n + |chunks[k]|;
        ConcatSnoc(chunks[..k], chunks[k]);
      }
      err := None;
      assert chunks[..|chunks|] == chunks;
      ConcatAppend(old(sent), chunks);
    }

    method SetDeadline(on: bool)
      modifies this`deadline
      ensures deadline == on
    {
      deadline := on;
    }

    /** GrantCredit on a credit-windowed channel: the host may send n more frames. */
    method GrantCredit(n: nat)
      modifies this`granted
      ensures granted == old(granted) + n
    {
      granted := granted + n;
    }
  }

  /** i is the first payload the read pump does not skip. */
  ghost predicate FirstPayload(frames: seq<seq<byte>>, i: nat) {
    i < |frames| && frames[i] != [] && forall j :: 0 <= j < i ==> frames[j] == []
  }

  /** n counts the first k chunks; those, and at most the one after them, reached the sink. */
  ghost predicate StoppedAt(chunks: seq<seq<byte>>, k: nat, n: nat, before: seq<seq<byte>>, after: seq<seq<byte>>) {
    && k < |chunks|
    && n == |Concat(chunks[..k])|
    && (after == before + chunks[..k] || after == before + chunks[..k + 1])
  }

  /** What stopping a Write at chunk k, before or after it reaches the sink, means in bytes. */
  lemma StoppedBytes(chunks: seq<seq<byte>>, k: nat, n: nat, b: seq<byte>, before: seq<seq<byte>>,
                     after: seq<seq<byte>>)
    requires StoppedAt(chunks, k, n, before, after) && Concat(chunks) == b
    ensures n + |chunks[k]| <= |b|
    ensures Concat(after) == Concat(before) + b[..n] || Concat(after) == Concat(before) + b[..n + |chunks[k]|]
    ensures Concat(before) + b[..n] <= Concat(after) <= Concat(before) + b
  {
    var done, next, rest := chunks[..k], chunks[..k + 1], chunks[k + 1..];
    assert chunks == next + rest && next == done + [chunks[k]];
    ConcatAppend(next, rest);
    ConcatSnoc(done, chunks[k]);
    ConcatAppend(before, done);
    ConcatAppend(before, next);
    assert b == Concat(done) + chunks[k] + Concat(rest);
    assert b[..n] == Concat(done) && b[..n + |chunks[k]|] == Concat(next);
  }
}
