/** The 12-byte RFB version line (section 7.1.1 of RFC 6143). */
module Version {
  import opened Bytes
  import opened Stream

  datatype Version = Version(major: nat, minor: nat) {
    predicate Less(other: Version) {
      if major != other.major then major < other.major else minor < other.minor
    }

    predicate AtLeast(other: Version) {
      !Less(other)
    }
  }

  const V38 := Version(3, 8)
  const VERSION_LINE_LEN: nat := 12

  datatype VersionError = WrongLength | Malformed | MalformedMajor | MalformedMinor | BelowMinimum(found: Version)

  /** "RFB ", '.', '\n' and '0' as bytes. */
  const PREFIX: seq<byte> := [82, 70, 66, 32]
  const DOT: byte := 46
  const NEWLINE: byte := 10
  const ZERO: byte := 48

  predicate IsDigit(c: byte) { ZERO <= c <= 57 }

  predicate AllDigits(s: seq<byte>) {
    forall i :: 0 <= i < |s| ==> IsDigit(s[i])
  }

  function DigitValue(c: byte): nat
    requires IsDigit(c)
  {
    (c - ZERO) as nat
  }

  function Value(digits: seq<byte>): nat
    requires AllDigits(digits)
  {
    if digits == [] then 0
    else Value(digits[..|digits| - 1]) * 10 + DigitValue(digits[|digits| - 1])
  }

  method ParseDigits3(s: seq<byte>) returns (n: Option<nat>)
    ensures n == if AllDigits(s) then Some(Value(s)) else None
  {
    var acc := 0;
    for i := 0 to |s|
      invariant AllDigits(s[..i])
      invariant acc == Value(s[..i])
    {
      if !IsDigit(s[i]) {
        return None;
      }
      assert s[..i + 1][..i] == s[..i];
      acc := acc * 10 + DigitValue(s[i]);
    }
    assert s[..|s|] == s;
    return Some(acc);
  }

  /** %03d for the values a version line can carry. */
  function Digits3(n: nat): (d: seq<byte>)
    requires n < 1000
    ensures |d| == 3 && AllDigits(d)
  {
    [(n / 100) as byte + ZERO, (n / 10 % 10) as byte + ZERO, (n % 10) as byte + ZERO]
  }

  lemma ValueOf3(d: seq<byte>)
    requires |d| == 3 && AllDigits(d)
    ensures Value(d) == DigitValue(d[0]) * 100 + DigitValue(d[1]) * 10 + DigitValue(d[2]) < 1000
  {
    assert d[..2][..1] == d[..1] && d[..1][..0] == [];
    assert Value(d[..1]) == DigitValue(d[0]);
    assert Value(d[..2]) == Value(d[..1]) * 10 + DigitValue(d[1]);
  }

  lemma Decimal(n: nat, a: nat, b: nat, c: nat)
    requires a < 10 && b < 10 && c < 10 && n == a * 100 + b * 10 + c
    ensures n / 100 == a && n / 10 % 10 == b && n % 10 == c
  {
    assert n / 10 == a * 10 + b;
  }

  /** Printing and reading three digits are inverse, both ways round. */
  lemma ValueOfDigits(n: nat)
    requires n < 1000
    ensures Value(Digits3(n)) == n
  {
    ValueOf3(Digits3(n));
    assert n == n / 10 * 10 + n % 10;
    assert n / 10 == n / 100 * 10 + n / 10 % 10;
  }

  lemma DigitsOfValue(d: seq<byte>)
    requires |d| == 3 && AllDigits(d)
    ensures Value(d) < 1000 && Digits3(Value(d)) == d
  {
    ValueOf3(d);
    Decimal(Value(d), DigitValue(d[0]), DigitValue(d[1]), DigitValue(d[2]));
  }

  function Line(v: Version): (b: seq<byte>)
    requires v.major < 1000 && v.minor < 1000
    ensures |b| == VERSION_LINE_LEN
  {
    PREFIX + Digits3(v.major) + [DOT] + Digits3(v.minor) + [NEWLINE]
  }

  function Parse(line: seq<byte>): Result<Version, VersionError> {
    if |line| != VERSION_LINE_LEN then Failure(WrongLength)
    else if line[..4] != PREFIX || line[7] != DOT || line[11] != NEWLINE then Failure(Malformed)
    else if !AllDigits(line[4..7]) then Failure(MalformedMajor)
    else if !AllDigits(line[8..11]) then Failure(MalformedMinor)
    else Success(Version(Value(line[4..7]), Value(line[8..11])))
  }

  /** A line parses to v exactly when it is v's own line. */
  lemma ParseIff(line: seq<byte>, v: Version)
    ensures Parse(line) == Success(v) <==> v.major < 1000 && v.minor < 1000 && line == Line(v)
  {
    if v.major < 1000 && v.minor < 1000 && line == Line(v) {
      assert line[4..7] == Digits3(v.major) && line[8..11] == Digits3(v.minor);
      ValueOfDigits(v.major);
      ValueOfDigits(v.minor);
    }
    if Parse(line) == Success(v) {
      DigitsOfValue(line[4..7]);
      DigitsOfValue(line[8..11]);
      assert line == line[..4] + line[4..7] + [line[7]] + line[8..11] + [line[11]];
    }
  }

  /** The line, character by character: "RFB ", three digits, '.', three digits, newline. */
  lemma LineLayout(v: Version)
    requires v.major < 1000 && v.minor < 1000
    ensures var b := Line(v);
            && |b| == 12 && b[..4] == [82, 70, 66, 32] && b[7] == 46 && b[11] == 10
            && b[4] as nat == 48 + v.major / 100
            && b[5] as nat == 48 + v.major / 10 % 10 && b[6] as nat == 48 + v.major % 10
            && b[8] as nat == 48 + v.minor / 100
            && b[9] as nat == 48 + v.minor / 10 % 10 && b[10] as nat == 48 + v.minor % 10
  {
  }

  /** Which error a line that is no version gets. */
  lemma ParseErrorIff(line: seq<byte>)
    ensures Parse(line) == Failure(WrongLength) <==> |line| != 12
    ensures Parse(line) == Failure(Malformed) <==>
            |line| == 12 && !(line[..4] == [82, 70, 66, 32] && line[7] == 46 && line[11] == 10)
    ensures Parse(line) == Failure(MalformedMajor) ==> !AllDigits(line[4..7])
    ensures Parse(line) == Failure(MalformedMinor) ==> AllDigits(line[4..7]) && !AllDigits(line[8..11])
  {
  }

  method ParseVersion(line: seq<byte>) returns (r: Result<Version, VersionError>)
    ensures r == Parse(line)
  {
    if |line| != VERSION_LINE_LEN {
      return Failure(WrongLength);
    }
    if line[..4] != PREFIX || line[7] != DOT || line[11] != NEWLINE {
      return Failure(Malformed);
    }
    var major := ParseDigits3(line[4..7]);
    if major.None? {
      return Failure(MalformedMajor);
    }
    var minor := ParseDigits3(line[8..11]);
    if minor.None? {
      return Failure(MalformedMinor);
    }
    return Success(Version(major.value, minor.value));
  }

  /** Parse, then insist on 3.8 or newer. */
  function Accept(line: seq<byte>): Result<Version, VersionError> {
    match Parse(line)
    case Failure(e) => Failure(e)
    case Success(v) => if v.Less(V38) then Failure(BelowMinimum(v)) else Success(v)
  }

  /** A line is accepted exactly if it is that of a version from 3.8 on. */
  lemma AcceptIff(line: seq<byte>, v: Version)
    ensures Accept(line) == Success(v)
            <==> v.major < 1000 && v.minor < 1000 && line == Line(v) && 1000 * v.major + v.minor >= 3008
    ensures v.major < 1000 && v.minor < 1000 && line == Line(v) && 1000 * v.major + v.minor < 3008 ==>
            Accept(line) == Failure(BelowMinimum(v))
  {
    ParseIff(line, v);
  }

  datatype ReadVersionError = CutLine(cause: ReadError) | Rejected(version: VersionError)

  method ReadVersion(conn: Conn) returns (r: Result<Version, ReadVersionError>)
    modifies conn`frames, conn`readBuf
    ensures var s := old(conn.Unread());
            if |s| < VERSION_LINE_LEN then r == Failure(CutLine(CutError(s, conn.fate))) && conn.Unread() == []
            else
              && conn.Unread() == s[VERSION_LINE_LEN..]
              && r == match Accept(s[..VERSION_LINE_LEN])
                      case Success(v) => Success(v)
                      case Failure(e) => Failure(Rejected(e))
  {
    var buf, err := conn.ReadFull(VERSION_LINE_LEN);
    if err.Some? {
      return Failure(CutLine(err.value));
    }
    var parsed := ParseVersion(buf);
    if parsed.Failure? {
      return Failure(Rejected(parsed.error));
    }
    if parsed.value.Less(V38) {
      return Failure(Rejected(BelowMinimum(parsed.value)));
    }
    return Success(parsed.value);
  }
}
