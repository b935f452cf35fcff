/** Bytes, big-endian integers and concatenation of byte chunks. */
module Bytes {

  newtype byte = x: int | 0 <= x < 256

  datatype Option<+T> = None | Some(value: T)

  datatype Result<+T, +E> = Success(value: T) | Failure(error: E)

  function U16(b: seq<byte>): (n: nat)
    requires |b| == 2
    ensures n < 0x1_0000
  {
    b[0] as nat * 0x100 + b[1] as nat
  }

  function U32(b: seq<byte>): (n: nat)
    requires |b| == 4
    ensures n < 0x1_0000_0000
  {
    U16(b[..2]) * 0x1_0000 + U16(b[2..])
  }

  function PutU16(n: nat): (b: seq<byte>)
    requires n < 0x1_0000
    ensures |b| == 2 && U16(b) == n
  {
    [(n / 0x100) as byte, (n % 0x100) as byte]
  }

  function PutU32(n: nat): (b: seq<byte>)
    requires n < 0x1_0000_0000
    ensures |b| == 4 && U32(b) == n
  {
    var hi, lo := PutU16(n / 0x1_0000), PutU16(n % 0x1_0000);
    assert (hi + lo)[..2] == hi && (hi + lo)[2..] == lo;
    hi + lo
  }

  /** Big-endian decoding is injective, so a header is determined by the numbers it carries. */
  lemma PutU32OfU32(b: seq<byte>)
    requires |b| == 4
    ensures PutU32(U32(b)) == b
  {
    assert U32(b) / 0x1_0000 == U16(b[..2]) && U32(b) % 0x1_0000 == U16(b[2..]);
    assert b == b[..2] + b[2..];
  }

  // ---- the byte order of the wire ----

  /** The low byte is last, and zeros in front do not count. */
  lemma ZerosInFront(x: byte, y: byte)
    ensures U16([0, x]) == x as nat && U32([0, 0, x, y]) == U16([x, y])
  {
    var b: seq<byte> := [0, 0, x, y];
    assert b[2..] == [x, y];
  }

  predicate LexLess(a: seq<byte>, b: seq<byte>)
    requires |a| == |b|
  {
    a != [] && (a[0] < b[0] || (a[0] == b[0] && LexLess(a[1..], b[1..])))
  }

  lemma LexLess2(a: seq<byte>, b: seq<byte>)
    requires |a| == 2 && |b| == 2
    ensures LexLess(a, b) <==> a[0] < b[0] || (a[0] == b[0] && a[1] < b[1])
  {
    assert !LexLess(a[1..][1..], b[1..][1..]);
    assert LexLess(a[1..], b[1..]) <==> a[1..][0] < b[1..][0];
  }

  lemma U16InOrder(a: seq<byte>, b: seq<byte>)
    requires |a| == 2 && |b| == 2
    ensures U16(a) < U16(b) <==> LexLess(a, b)
  {
    LexLess2(a, b);
  }

  lemma LexLessSplit(a: seq<byte>, b: seq<byte>)
    requires |a| == 4 && |b| == 4
    ensures LexLess(a, b) <==> LexLess(a[..2], b[..2]) || (a[..2] == b[..2] && LexLess(a[2..], b[2..]))
  {
    LexLess2(a[..2], b[..2]);
    assert a[1..][1..] == a[2..] && b[1..][1..] == b[2..];
    assert LexLess(a[1..], b[1..]) <==> a[1] < b[1] || (a[1] == b[1] && LexLess(a[2..], b[2..]));
    assert a[..2] == [a[0], a[1]] && b[..2] == [b[0], b[1]];
  }

  /** Numbers are ordered as their bytes are read, first byte first. Together with the round trip through
      PutU32 this leaves no other reading of the four bytes. */
  lemma U32InOrder(a: seq<byte>, b: seq<byte>)
    requires |a| == 4 && |b| == 4
    ensures U32(a) < U32(b) <==> LexLess(a, b)
  {
    LexLessSplit(a, b);
    U16InOrder(a[..2], b[..2]);
    U16InOrder(a[2..], b[2..]);
    if U16(a[..2]) == U16(b[..2]) {
      assert a[..2] == [a[0], a[1]] && b[..2] == [b[0], b[1]];
    }
  }

  lemma SubPrefix<T>(s: seq<T>, n: nat, i: nat, j: nat)
    requires i <= j <= n <= |s|
    ensures s[..n][i..j] == s[i..j]
  {
  }

  function Concat(chunks: seq<seq<byte>>): seq<byte> {
    if chunks == [] then [] else chunks[0] + Concat(chunks[1..])
  }

  lemma Assoc<T>(a: seq<T>, b: seq<T>, c: seq<T>)
    ensures (a + b) + c == a + (b + c)
  {
  }

  lemma {:induction false} ConcatAppend(xs: seq<seq<byte>>, ys: seq<seq<byte>>)
    ensures Concat(xs + ys) == Concat(xs) + Concat(ys)
  {
    var zs := xs + ys;
    if xs == [] {
      assert zs == ys;
    } else {
      assert zs[0] == xs[0] && zs[1..] == xs[1..] + ys;
      ConcatAppend(xs[1..], ys);
      Assoc(xs[0], Concat(xs[1..]), Concat(ys));
    }
  }

  lemma ConcatSnoc(xs: seq<seq<byte>>, y: seq<byte>)
    ensures Concat(xs + [y]) == Concat(xs) + y
  {
    ConcatAppend(xs, [y]);
    assert Concat([y]) == y + Concat([]);
  }

  lemma ConcatTail(xs: seq<seq<byte>>)
    requires xs != []
    ensures Concat(xs) == xs[0] + Concat(xs[1..])
  {
  }
}
