/** How many client messages a browser's frames hold, against how many frames they are. */
module Pacing {
  import opened Bytes
  import opened Stream
  import opened ClientMessage
  import ReadOnlyFilter

  /** Version line and choice of the synthetic handshake, and ClientInit. */
  const OPENING: nat := 13
  const PREAMBLE: nat := OPENING + 1

  /** Whole messages in a browser's bytes. */
  function Messages(bytes: seq<byte>): nat {
    if |bytes| < PREAMBLE then 0 else |ParseAll(bytes[PREAMBLE..], Eof).msgs|
  }

  /** At no point do the frames sent hold more whole messages than there are frames, plus slack. */
  ghost predicate Paced(frames: seq<seq<byte>>, slack: nat) {
    forall k: nat :: k <= |frames| ==> Messages(Concat(frames[..k])) <= k + slack
  }

  lemma MessagesMonotone(a: seq<byte>, b: seq<byte>)
    requires a <= b
    ensures Messages(a) <= Messages(b)
  {
    if |a| >= PREAMBLE {
      assert b == a + b[|a|..];
      assert b[PREAMBLE..] == a[PREAMBLE..] + b[|a|..];
      ReadOnlyFilter.OutputMonotone(a[PREAMBLE..], b[|a|..], false);
    }
  }

  /** The shortest client message is four bytes long. */
  lemma {:induction false} FourBytesEach(ms: seq<Message>)
    requires AllWellFormed(ms)
    ensures 4 * |ms| <= |SerializeAll(ms)|
  {
    if ms != [] {
      FourBytesEach(ms[1..]);
      assert WellFormed(ms[0]);
    }
  }

  lemma MessagesBound(bytes: seq<byte>)
    requires |bytes| >= PREAMBLE
    ensures 4 * Messages(bytes) <= |bytes| - PREAMBLE
  {
    ParseAllSound(bytes[PREAMBLE..], Eof);
    FourBytesEach(ParseAll(bytes[PREAMBLE..], Eof).msgs);
  }

  /** One more frame. */
  lemma PacedSnoc(frames: seq<seq<byte>>, f: seq<byte>, slack: nat)
    requires Paced(frames, slack) && Messages(Concat(frames) + f) <= |frames| + 1 + slack
    ensures Paced(frames + [f], slack)
  {
    var all := frames + [f];
    forall k: nat | k <= |all| ensures Messages(Concat(all[..k])) <= k + slack {
      if k <= |frames| {
        assert all[..k] == frames[..k];
      } else {
        assert all[..k] == all;
        ConcatSnoc(frames, f);
      }
    }
  }

  /** A browser that ends at most one message per frame is paced without slack. */
  lemma {:induction false} OneMessagePerFrame(frames: seq<seq<byte>>)
    requires forall k: nat :: k < |frames| ==>
        Messages(Concat(frames[..k]) + frames[k]) <= Messages(Concat(frames[..k])) + 1
    ensures Paced(frames, 0)
    decreases |frames|
  {
    if frames != [] {
      var front, last := frames[..|frames| - 1], frames[|frames| - 1];
      assert frames == front + [last];
      forall k: nat | k < |front| ensures Messages(Concat(front[..k]) + front[k]) <= Messages(Concat(front[..k])) + 1 {
        assert front[..k] == frames[..k] && front[k] == frames[k];
      }
      OneMessagePerFrame(front);
      assert front[..|front|] == front && frames[..|front|] == front;
      PacedSnoc(front, last, 0);
    } else {
      assert Concat([]) == [];
    }
  }
}
