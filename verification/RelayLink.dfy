/** One credit-windowed channel between the host and the plugin, as the plugin's receiving side and its
    own send window see it: CreditChannel's queue, the payload in the read pump, and Read's leftover. */
module RelayLink {
  import opened Bytes
  import opened Stream
  import Credit

  const RECV_CAPACITY: nat := Credit.RECV_CAPACITY

  datatype Link = Link(
    window: int,              // frames the host may still send
    queue: seq<seq<byte>>,    // recvCh
    hand: Option<seq<byte>>,  // payload held by the read pump
    readBuf: seq<byte>,
    cred: nat,                // frames the plugin may still send
    closed: bool,             // Channel.Close has run
    done: bool,               // CreditChannel.Close has run
    gone: bool,               // the read pump has returned
    // history
    sent: seq<seq<byte>>,     // every frame the host sent
    moved: seq<seq<byte>>,    // frames that left the read pump: handed to Read, or empty and skipped
    taken: seq<byte>,         // bytes Read handed out
    skipped: nat,             // empty frames among moved
    dropped: seq<seq<byte>>,  // the frame a returning read pump held
    granted: int,             // credit the pumps gave back
    refused: int,             // of that, credit GrantCredit refused because the channel was done
    lost: bool,               // a frame was dropped at delivery
    gap: bool)                // and a later one was queued

  function NewLink(initial: nat): Link {
    Link(initial, [], None, [], initial, false, false, false, [], [], [], 0, [], 0, 0, false, false)
  }

  predicate HasBytes(l: Link) {
    l.readBuf != [] || l.hand.Some?
  }

  function HandSeq(l: Link): seq<seq<byte>> {
    if l.hand.Some? then [l.hand.value] else l.dropped
  }

  /** 1 if a frame is partly read. */
  function Open(l: Link): nat {
    if l.readBuf != [] then 1 else 0
  }

  // ---- steps ----

  function HostSends(l: Link, f: seq<byte>): Link {
    l.(window := l.window - 1, sent := l.sent + [f])
  }

  function Enqueue(l: Link, f: seq<byte>): Link {
    l.(queue := l.queue + [f], gap := l.gap || l.lost)
  }

  predicate CanPump(l: Link) {
    !l.gone && l.hand.None? && l.queue != []
  }

  /** One turn of the read pump: empty payloads are skipped. */
  function PumpOne(l: Link): Link
    requires CanPump(l)
  {
    var f, rest := l.queue[0], l.queue[1..];
    if f == [] then l.(queue := rest, moved := l.moved + [f], skipped := l.skipped + 1)
    else l.(queue := rest, hand := Some(f))
  }

  /** Channel.Read: a payload is taken over only when the buffer is empty. */
  function Take(l: Link, max: nat): (r: (seq<byte>, Link))
    requires HasBytes(l)
  {
    if l.readBuf != [] then
      var (b, rest) := TakeFrom(l.readBuf, max);
      (b, l.(readBuf := rest, taken := l.taken + b))
    else
      var (b, rest) := TakeFrom(l.hand.value, max);
      (b, l.(readBuf := rest, hand := None, moved := l.moved + [l.hand.value], taken := l.taken + b))
  }

  /** The read pump returns: its select chose closed, or Recv found the channel done and empty. */
  predicate MayExit(l: Link) {
    !l.gone && if l.hand.Some? then l.closed else l.done && l.queue == []
  }

  function Exit(l: Link): Link {
    l.(gone := true, dropped := HandSeq(l), hand := None)
  }

  /** GrantCredit: a channel that is done returns nothing to the host. */
  function Return(l: Link, n: int): Link {
    if l.done then l.(granted := l.granted + n, refused := l.refused + n)
    else l.(window := l.window + n, granted := l.granted + n)
  }

  // ---- what they keep ----

  function Longest(frames: seq<seq<byte>>): nat {
    if frames == [] then 0
    else
      var front, last := Longest(frames[..|frames| - 1]), |frames[|frames| - 1]|;
      if front < last then last else front
  }

  lemma LongestSnoc(frames: seq<seq<byte>>, f: seq<byte>)
    ensures Longest(frames + [f]) == if Longest(frames) < |f| then |f| else Longest(frames)
  {
    assert (frames + [f])[..|frames|] == frames;
  }

  function Empties(frames: seq<seq<byte>>): nat {
    if frames == [] then 0
    else Empties(frames[..|frames| - 1]) + if frames[|frames| - 1] == [] then 1 else 0
  }

  lemma EmptiesSnoc(frames: seq<seq<byte>>, f: seq<byte>)
    ensures Empties(frames + [f]) == Empties(frames) + if f == [] then 1 else 0
  {
    assert (frames + [f])[..|frames|] == frames;
  }

  lemma {:induction false} NoEmpties(frames: seq<seq<byte>>)
    ensures Empties(frames) == 0 <==> [] !in frames
  {
    if frames != [] {
      NoEmpties(frames[..|frames| - 1]);
      assert frames == frames[..|frames| - 1] + [frames[|frames| - 1]];
    }
  }

  /** The length of the last frame that is not empty. */
  function LastLen(frames: seq<seq<byte>>): nat {
    if frames == [] then 0
    else if frames[|frames| - 1] == [] then LastLen(frames[..|frames| - 1]) else |frames[|frames| - 1]|
  }

  lemma LastLenSnoc(frames: seq<seq<byte>>, f: seq<byte>)
    ensures LastLen(frames + [f]) == if f == [] then LastLen(frames) else |f|
  {
    assert (frames + [f])[..|frames|] == frames;
  }

  lemma {:induction false} LastIsNoLonger(frames: seq<seq<byte>>)
    ensures LastLen(frames) <= Longest(frames)
  {
    if frames != [] {
      LastIsNoLonger(frames[..|frames| - 1]);
    }
  }

  /** The frames that have been delivered, in order. */
  function Arrived(l: Link): seq<seq<byte>> {
    (l.moved + HandSeq(l)) + l.queue
  }

  /** inPipe are the frames on stdin that the read loop has not delivered. Unless a frame was lost at
      delivery, every frame sent is in its place; unless a later one was queued, those delivered are. */
  predicate LinkInv(l: Link, inPipe: seq<seq<byte>>, initial: nat) {
    && l.window >= 0 && l.granted >= l.refused >= 0 && (l.refused > 0 ==> l.done)
    && l.window + |l.sent| == initial + l.granted - l.refused
    && |l.queue| <= RECV_CAPACITY && |l.moved| + |HandSeq(l)| + |l.queue| + |inPipe| <= |l.sent|
    && l.hand != Some([]) && (l.gone ==> l.hand.None?) && (!l.gone ==> l.dropped == [])
    && (l.lost ==> l.done) && (l.gap ==> l.lost)
    && l.taken + l.readBuf == Concat(l.moved) && |l.readBuf| <= LastLen(l.moved)
    && l.skipped == Empties(l.moved)
    && (if l.lost then l.gap || Arrived(l) <= l.sent else l.sent == Arrived(l) + inPipe)
  }

  lemma SendKeeps(l: Link, inPipe: seq<seq<byte>>, initial: nat, f: seq<byte>)
    requires LinkInv(l, inPipe, initial) && l.window > 0
    ensures LinkInv(HostSends(l, f), inPipe + [f], initial)
  {
    Assoc(Arrived(l), inPipe, [f]);
  }

  lemma DeliverKeeps(l: Link, inPipe: seq<seq<byte>>, initial: nat)
    requires LinkInv(l, inPipe, initial) && inPipe != [] && |l.queue| < RECV_CAPACITY
    ensures LinkInv(Enqueue(l, inPipe[0]), inPipe[1..], initial)
  {
    assert inPipe == [inPipe[0]] + inPipe[1..];
    Assoc(Arrived(l), [inPipe[0]], inPipe[1..]);
    Assoc(l.moved + HandSeq(l), l.queue, [inPipe[0]]);
  }

  lemma PumpMovesOn(l: Link)
    requires CanPump(l) && l.dropped == []
    ensures Arrived(PumpOne(l)) == Arrived(l)
  {
    var f, rest := l.queue[0], l.queue[1..];
    assert (l.moved + []) + l.queue == (l.moved + [f]) + rest == ((l.moved + [f]) + []) + rest;
  }

  lemma PumpKeeps(l: Link, inPipe: seq<seq<byte>>, initial: nat)
    requires LinkInv(l, inPipe, initial) && CanPump(l)
    ensures LinkInv(PumpOne(l), inPipe, initial)
  {
    var f := l.queue[0];
    ConcatSnoc(l.moved, f);
    LastLenSnoc(l.moved, f);
    EmptiesSnoc(l.moved, f);
    assert f == [] ==> Concat(l.moved) + f == Concat(l.moved);
    PumpMovesOn(l);
  }

  /** A read hands out bytes, and either finishes its frame or leaves it open. */
  predicate TakeCounts(l: Link, max: nat)
    requires HasBytes(l)
  {
    var (b, l') := Take(l, max);
    && b != [] && |b| <= max && l'.taken == l.taken + b
    && |l'.moved| - Open(l') == |l.moved| - Open(l) + (if l'.readBuf == [] then 1 else 0)
    && |l'.moved| <= |l'.sent|
  }

  predicate TakesWell(l: Link, max: nat)
    requires HasBytes(l)
  {
    var (b, l') := Take(l, max);
    && TakeCounts(l, max)
    && (l'.readBuf != [] ==> |b| == max < Longest(l'.moved)) && Longest(l.moved) <= Longest(l'.moved)
  }

  lemma TakeBuffered(l: Link, inPipe: seq<seq<byte>>, initial: nat, max: nat)
    requires LinkInv(l, inPipe, initial) && l.readBuf != [] && max > 0
    ensures TakesWell(l, max) && LinkInv(Take(l, max).1, inPipe, initial)
  {
    var (b, l') := Take(l, max);
    Assoc(l.taken, b, l'.readBuf);
    LastIsNoLonger(l.moved);
  }

  lemma TakeFrame(l: Link, inPipe: seq<seq<byte>>, initial: nat, max: nat)
    requires LinkInv(l, inPipe, initial) && l.readBuf == [] && l.hand.Some? && max > 0
    ensures TakesWell(l, max) && LinkInv(Take(l, max).1, inPipe, initial)
  {
    var (b, l') := Take(l, max);
    var f := l.hand.value;
    ConcatSnoc(l.moved, f);
    LongestSnoc(l.moved, f);
    LastLenSnoc(l.moved, f);
    EmptiesSnoc(l.moved, f);
    Assoc(l.taken, b, l'.readBuf);
    assert l.taken + [] == l.taken && (l.moved + [f]) + [] == l.moved + [f];
  }

  lemma TakeKeeps(l: Link, inPipe: seq<seq<byte>>, initial: nat, max: nat)
    requires LinkInv(l, inPipe, initial) && HasBytes(l) && max > 0
    ensures TakesWell(l, max) && LinkInv(Take(l, max).1, inPipe, initial)
  {
    if l.readBuf != [] {
      TakeBuffered(l, inPipe, initial, max);
    } else {
      TakeFrame(l, inPipe, initial, max);
    }
  }

  lemma CloseKeeps(l: Link, inPipe: seq<seq<byte>>, initial: nat)
    requires LinkInv(l, inPipe, initial)
    ensures LinkInv(l.(closed := true), inPipe, initial) && LinkInv(l.(done := true), inPipe, initial)
    ensures MayExit(l) ==> LinkInv(Exit(l), inPipe, initial)
    ensures l.done && inPipe != [] ==> LinkInv(l.(lost := true), inPipe[1..], initial)
  {
    assert !l.lost ==> Arrived(l) <= l.sent;
  }

  lemma CreditKeeps(l: Link, inPipe: seq<seq<byte>>, initial: nat, cred: nat)
    requires LinkInv(l, inPipe, initial)
    ensures LinkInv(l.(cred := cred), inPipe, initial)
  {
  }

  lemma ReturnKeeps(l: Link, inPipe: seq<seq<byte>>, initial: nat, n: nat)
    requires LinkInv(l, inPipe, initial)
    ensures LinkInv(Return(l, n), inPipe, initial)
  {
  }

  /** Frames sent and not yet fully read. */
  function Unread(l: Link, inPipe: seq<seq<byte>>): nat {
    |inPipe| + |l.queue| + |HandSeq(l)| + Open(l)
  }

  /** Bytes sent and not yet handed out by Read. */
  function Waiting(l: Link, inPipe: seq<seq<byte>>): seq<byte> {
    l.readBuf + Concat((HandSeq(l) + l.queue) + inPipe)
  }

  /** Unless a frame was queued after a drop, what Read handed out is a prefix of what was sent. */
  lemma LinkPrefix(l: Link, inPipe: seq<seq<byte>>, initial: nat)
    requires LinkInv(l, inPipe, initial) && !l.gap
    ensures l.moved <= l.sent && l.taken <= Concat(l.moved) <= Concat(l.sent)
  {
    assert l.moved <= Arrived(l) <= l.sent;
    assert l.sent == l.moved + l.sent[|l.moved|..];
    ConcatAppend(l.moved, l.sent[|l.moved|..]);
  }

  /** Credit and bytes of a link on which nothing was lost: the window law per frame, and every byte
      sent is taken or waiting, in order. */
  lemma LinkMeaning(l: Link, inPipe: seq<seq<byte>>, initial: nat)
    requires LinkInv(l, inPipe, initial) && !l.lost
    ensures l.moved <= l.sent && l.taken <= Concat(l.moved) <= Concat(l.sent)
    ensures l.window + Unread(l, inPipe) == initial + l.granted - l.refused - (|l.moved| - Open(l))
    ensures Concat(l.sent) == l.taken + Waiting(l, inPipe)
  {
    var ahead := (HandSeq(l) + l.queue) + inPipe;
    Assoc(l.moved, HandSeq(l), l.queue);
    Assoc(l.moved, HandSeq(l) + l.queue, inPipe);
    assert l.sent == l.moved + ahead;
    ConcatAppend(l.moved, ahead);
    Assoc(l.taken, l.readBuf, Concat(ahead));
  }

  lemma {:induction false} LongestBound(frames: seq<seq<byte>>, max: nat)
    ensures Longest(frames) <= max <==> forall f :: f in frames ==> |f| <= max
  {
    if frames != [] {
      var front, last := frames[..|frames| - 1], frames[|frames| - 1];
      assert frames == front + [last];
      LongestBound(front, max);
    }
  }
}
