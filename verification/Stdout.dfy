/** One stdout shared by many goroutines: each frame goes out in one Write under syncWriter's mutex. */
module Stdout {
  import opened Bytes
  import opened Stream
  import opened Codec

  /** The goroutine in the critical section and how much of its frame the pipe has taken. */
  datatype Holder = Holder(writer: nat, frame: Frame, done: nat)

  datatype Entry = Entry(writer: nat, frame: Frame)

  /** next[w] frames of writer w have been written; log lists all written frames in order. */
  datatype State = State(out: seq<byte>, holder: Option<Holder>, log: seq<Entry>, next: seq<nat>)

  datatype Event = Lock(writer: nat) | Put(count: nat) | Unlock

  /** What each writer means to send. */
  type Programs = seq<seq<Frame>>

  predicate Encodable(programs: Programs) {
    forall p :: p in programs ==> AllWellFormed(p)
  }

  function Init(programs: Programs): State {
    State([], None, [], seq(|programs|, _ => 0))
  }

  predicate Enabled(programs: Programs, s: State, e: Event)
    requires Encodable(programs)
  {
    match e
    case Lock(w) => s.holder.None? && w < |programs| && w < |s.next| && s.next[w] < |programs[w]|
    case Put(k) =>
      s.holder.Some? && WellFormed(s.holder.value.frame)
      && 0 < k <= |EncodeFrame(s.holder.value.frame)| - s.holder.value.done
    case Unlock =>
      && s.holder.Some? && WellFormed(s.holder.value.frame)
      && s.holder.value.done == |EncodeFrame(s.holder.value.frame)| && s.holder.value.writer < |s.next|
  }

  function Next(programs: Programs, s: State, e: Event): State
    requires Encodable(programs) && Enabled(programs, s, e)
  {
    match e
    case Lock(w) => s.(holder := Some(Holder(w, programs[w][s.next[w]], 0)))
    case Put(k) =>
      var h := s.holder.value;
      s.(out := s.out + EncodeFrame(h.frame)[h.done..h.done + k], holder := Some(h.(done := h.done + k)))
    case Unlock =>
      var h := s.holder.value;
      s.(holder := None, log := s.log + [Entry(h.writer, h.frame)], next := s.next[h.writer := s.next[h.writer] + 1])
  }

  ghost predicate Reaches(programs: Programs, s: State, es: seq<Event>, s': State)
    requires Encodable(programs)
    decreases |es|
  {
    if es == [] then s' == s
    else Enabled(programs, s, es[0]) && Reaches(programs, Next(programs, s, es[0]), es[1..], s')
  }

  function Frames(log: seq<Entry>): (fs: seq<Frame>)
    ensures |fs| == |log|
  {
    seq(|log|, i requires 0 <= i < |log| => log[i].frame)
  }

  /** The frames of one writer, in the order they are on the wire. */
  function Of(log: seq<Entry>, w: nat): seq<Frame> {
    if log == [] then []
    else Of(log[..|log| - 1], w) + if log[|log| - 1].writer == w then [log[|log| - 1].frame] else []
  }

  function Partial(holder: Option<Holder>): seq<byte>
    requires holder.Some? ==> WellFormed(holder.value.frame) && holder.value.done <= |EncodeFrame(holder.value.frame)|
  {
    if holder.None? then [] else EncodeFrame(holder.value.frame)[..holder.value.done]
  }

  ghost predicate Inv(programs: Programs, s: State)
    requires Encodable(programs)
  {
    && |s.next| == |programs|
    && AllWellFormed(Frames(s.log))
    && (s.holder.Some? ==>
          var h := s.holder.value;
          && h.writer < |programs| && s.next[h.writer] < |programs[h.writer]|
          && h.frame == programs[h.writer][s.next[h.writer]]
          && WellFormed(h.frame) && h.done <= |EncodeFrame(h.frame)|)
    && s.out == EncodeAll(Frames(s.log)) + Partial(s.holder)
    && (forall w: nat :: w < |programs| ==> s.next[w] <= |programs[w]| && Of(s.log, w) == programs[w][..s.next[w]])
  }

  lemma StepKeepsInv(programs: Programs, s: State, e: Event)
    requires Encodable(programs) && Inv(programs, s) && Enabled(programs, s, e)
    ensures Inv(programs, Next(programs, s, e))
  {
    var s' := Next(programs, s, e);
    match e
    case Lock(w) =>
      assert programs[w] in programs && programs[w][s.next[w]] in programs[w];
    case Put(k) =>
      var h := s.holder.value;
      var enc := EncodeFrame(h.frame);
      assert enc[..h.done] + enc[h.done..h.done + k] == enc[..h.done + k];
      Assoc(EncodeAll(Frames(s.log)), enc[..h.done], enc[h.done..h.done + k]);
    case Unlock =>
      UnlockKeepsInv(programs, s);
  }

  /** The written frame joins the log. */
  lemma LogGrows(log: seq<Entry>, writer: nat, frame: Frame)
    requires AllWellFormed(Frames(log)) && WellFormed(frame)
    ensures var log' := log + [Entry(writer, frame)];
            AllWellFormed(Frames(log')) && EncodeAll(Frames(log')) == EncodeAll(Frames(log)) + EncodeFrame(frame)
  {
    assert Frames(log + [Entry(writer, frame)]) == Frames(log) + [frame];
    assert EncodeAll([frame]) == EncodeFrame(frame) + [];
    EncodeAllAppend(Frames(log), [frame]);
  }

  lemma WriterGrows(log: seq<Entry>, program: seq<Frame>, next: nat, w: nat, writer: nat)
    requires next <= |program| && Of(log, w) == program[..next]
    requires w == writer ==> next < |program|
    ensures w == writer ==> Of(log + [Entry(writer, program[next])], w) == program[..next + 1]
    ensures forall f :: w != writer ==> Of(log + [Entry(writer, f)], w) == program[..next]
  {
    forall e: Entry ensures (log + [e])[..|log|] == log {
    }
    if w == writer {
      assert program[..next + 1] == program[..next] + [program[next]];
    }
  }

  lemma UnlockKeepsInv(programs: Programs, s: State)
    requires Encodable(programs) && Inv(programs, s) && Enabled(programs, s, Unlock)
    ensures Inv(programs, Next(programs, s, Unlock))
  {
    var s' := Next(programs, s, Unlock);
    var h := s.holder.value;
    assert EncodeFrame(h.frame)[..h.done] == EncodeFrame(h.frame);
    LogGrows(s.log, h.writer, h.frame);
    assert EncodeAll(Frames(s'.log)) + [] == EncodeAll(Frames(s'.log));
    forall w: nat | w < |programs|
      ensures s'.next[w] <= |programs[w]| && Of(s'.log, w) == programs[w][..s'.next[w]]
    {
      WriterGrows(s.log, programs[w], s.next[w], w, h.writer);
    }
  }

  lemma {:induction false} RunKeepsInv(programs: Programs, s: State, es: seq<Event>, s': State)
    requires Encodable(programs) && Inv(programs, s) && Reaches(programs, s, es, s')
    ensures Inv(programs, s')
    decreases |es|
  {
    if es != [] {
      StepKeepsInv(programs, s, es[0]);
      RunKeepsInv(programs, Next(programs, s, es[0]), es[1..], s');
    }
  }

  /** The frame being written, once all its bytes are out. */
  function LastFrame(holder: Option<Holder>): seq<Frame> {
    if holder.Some? && WellFormed(holder.value.frame) && holder.value.done == |EncodeFrame(holder.value.frame)|
    then [holder.value.frame] else []
  }

  /** At any moment of any interleaving, decoding stdout yields the logged frames, then at most the
      frame whose bytes are all out; and the log, seen by one writer, is that writer's program so
      far. Between frames nothing is left over. */
  lemma Demultiplexes(programs: Programs, es: seq<Event>, s: State)
    requires Encodable(programs) && Reaches(programs, Init(programs), es, s)
    ensures |s.next| == |programs|
    ensures DecodeAll(s.out, Eof).frames == Frames(s.log) + LastFrame(s.holder)
    ensures s.holder.None? ==> DecodeAll(s.out, Eof).tail == [] && DecodeAll(s.out, Eof).error == CleanEof
    ensures forall w: nat :: w < |programs| ==> s.next[w] <= |programs[w]| && Of(s.log, w) == programs[w][..s.next[w]]
  {
    RunKeepsInv(programs, Init(programs), es, s);
    DecodeAllAppend(Frames(s.log), Partial(s.holder), Eof);
    if s.holder.Some? {
      PartialDecodes(s.holder.value);
    }
  }

  /** Part of a frame decodes to nothing; the whole of it to the frame. */
  lemma PartialDecodes(h: Holder)
    requires WellFormed(h.frame) && h.done <= |EncodeFrame(h.frame)|
    ensures var part := Partial(Some(h));
            && (CutFrame(part) || part == [] <==> h.done < |EncodeFrame(h.frame)|)
            && DecodeAll(part, Eof).frames == LastFrame(Some(h))
  {
    var enc := EncodeFrame(h.frame);
    var part := Partial(Some(h));
    HeaderFields(|h.frame.payload|, h.frame.kind, h.frame.channelId, h.frame.payload);
    if h.done == |enc| {
      assert part == enc + [];
      DecodeIff(part, Eof, h.frame, []);
      assert DecodeAll([], Eof).frames == [];
    } else if HEADER_LEN <= h.done {
      SubPrefix(enc, h.done, 0, 4);
      SubPrefix(enc, h.done, 5, 9);
    }
  }

  // ---- the writer ----

  class SyncWriter {
    var out: seq<byte>

    constructor ()
      ensures out == []
    {
      out := [];
    }

    /** The underlying pipe may take the bytes in several pieces; the mutex is held throughout. */
    method Write(p: seq<byte>)
      modifies this
      ensures out == old(out) + p
    {
      var done := 0;
      while done < |p|
        invariant done <= |p| && out == old(out) + p[..done]
      {
        var k: nat :| 0 < k <= |p| - done;
        out := out + p[done..done + k];
        assert p[..done] + p[done..done + k] == p[..done + k];
        done := done + k;
      }
      assert p[..done] == p;
    }

    /** A refused frame puts nothing on the wire. */
    method WriteFrame(kind: byte, channelId: nat, payload: seq<byte>) returns (err: Option<EncodeError>)
      requires channelId < 0x1_0000_0000
      modifies this
      ensures err.None? <==> Codec.WellFormed(Frame(kind, channelId, payload))
      ensures out == old(out) + if err.None? then EncodeFrame(Frame(kind, channelId, payload)) else []
    {
      var r := Encode(kind, channelId, payload);
      if r.Failure? {
        return Some(r.error);
      }
      Write(r.value[..]);
      return None;
    }
  }
}
