/** The RFB handshake towards the VNC server (client role) and towards the browser (server role).
    Both are written as the ordered reads and writes they perform on a connection, and specified by
    two small automata whose steps are "read exactly this many bytes" or "write these bytes". */
module RfbHandshake {
  import opened Bytes
  import opened Stream
  import opened Version

  const SEC_NONE: byte := 1
  const SEC_VNC_AUTH: byte := 2
  const SUPPORTED: seq<byte> := [SEC_NONE, SEC_VNC_AUTH]
  const CHALLENGE_LEN: nat := 16
  const MAX_REASON_LEN: nat := 1024 * 1024
  const RESULT_OK: seq<byte> := [0, 0, 0, 0]

  datatype Field = Count | Types | Challenge | SecResult | ReasonLength | Reason | Choice

  datatype HandshakeError =
    | BadVersion(cause: ReadVersionError)
    | CutField(field: Field, read: ReadError)
    | ReasonTooLong(length: nat)
    | SecurityRejected(reason: seq<byte>)
    | NoSupportedType(offered: seq<byte>)
    | BrowserVersion(found: Version)
    | BrowserChoice(chosen: byte)
    | WriteFailed(write: WriteError)

  /** VNCAuthResponse, as a function of password and challenge. */
  type Auth = (seq<byte>, seq<byte>) -> seq<byte>

  // ---- choosing a security type ----

  function FirstSupported(offered: seq<byte>, supported: seq<byte>): Option<byte> {
    if offered == [] then None
    else if offered[0] in supported then Some(offered[0])
    else FirstSupported(offered[1..], supported)
  }

  function Select(offered: seq<byte>, supported: seq<byte>): Option<byte> {
    if SEC_VNC_AUTH in supported && SEC_VNC_AUTH in offered then Some(SEC_VNC_AUTH)
    else if SEC_NONE in supported && SEC_NONE in offered then Some(SEC_NONE)
    else FirstSupported(offered, supported)
  }

  /** A choice is always offered and supported, and is missing only if nothing is both. */
  lemma {:induction false} FirstSupportedMeaning(offered: seq<byte>, supported: seq<byte>)
    ensures match FirstSupported(offered, supported)
            case Some(t) => t in offered && t in supported
            case None => forall t :: t in offered ==> t !in supported
  {
    if offered != [] {
      FirstSupportedMeaning(offered[1..], supported);
      assert offered == [offered[0]] + offered[1..];
    }
  }

  lemma SelectMeaning(offered: seq<byte>, supported: seq<byte>)
    ensures match Select(offered, supported)
            case Some(t) => t in offered && t in supported
                            && (SEC_VNC_AUTH in offered && SEC_VNC_AUTH in supported ==> t == SEC_VNC_AUTH)
            case None => forall t :: t in offered ==> t !in supported
  {
    FirstSupportedMeaning(offered, supported);
  }

  /** With the list this plugin ships, the fallback never finds anything: VNCAuth is preferred to
      None, and nothing else is ever chosen. */
  lemma FallbackUnreachable(offered: seq<byte>)
    requires SEC_VNC_AUTH !in offered && SEC_NONE !in offered
    ensures FirstSupported(offered, SUPPORTED) == None
  {
    FirstSupportedMeaning(offered, SUPPORTED);
  }

  /** By number: type 2 if offered, else type 1 if offered, else none. */
  lemma ShippedChoice(offered: seq<byte>)
    ensures Select(offered, SUPPORTED) == if 2 in offered then Some(2) else if 1 in offered then Some(1) else None
  {
    SelectMeaning(offered, SUPPORTED);
  }

  method SelectSecurityType(offered: seq<byte>, supported: seq<byte>) returns (r: Option<byte>)
    ensures r == Select(offered, supported)
  {
    var supportedSet := set t | t in supported;
    var preference := [SEC_VNC_AUTH, SEC_NONE];
    var offeredSet := set t | t in offered;
    for i := 0 to |preference|
      invariant preference == [SEC_VNC_AUTH, SEC_NONE]
      invariant forall j :: 0 <= j < i ==> !(preference[j] in supported && preference[j] in offered)
    {
      assert i == 0 || (i == 1 && !(preference[0] in supported && preference[0] in offered));
      if preference[i] in supportedSet && preference[i] in offeredSet {
        return Some(preference[i]);
      }
    }
    assert preference[0] == SEC_VNC_AUTH && preference[1] == SEC_NONE;
    for i := 0 to |offered|
      invariant FirstSupported(offered, supported) == FirstSupported(offered[i..], supported)
    {
      if offered[i] in supportedSet {
        return Some(offered[i]);
      }
    }
    return None;
  }

  // ---- the client automaton ----

  datatype Client =
    | AwaitVersion
    | SendVersion(v: Version)
    | AwaitCount(v: Version)
    | AwaitTypes(v: Version, n: nat)
    | SendChoice(v: Version, t: byte)
    | AwaitChallenge(v: Version)
    | SendResponse(v: Version, challenge: seq<byte>)
    | AwaitResult(v: Version, t: byte)
    | AwaitReasonLength
    | AwaitReason(n: nat)
    | Done(v: Version, t: byte)
    | Refused(error: HandshakeError)
  {
    /** Bytes the next read takes, if the next step is a read. */
    function Need(): Option<nat> {
      match this
      case AwaitVersion => Some(VERSION_LINE_LEN)
      case AwaitCount(_) => Some(1)
      case AwaitTypes(_, n) => Some(n)
      case AwaitChallenge(_) => Some(CHALLENGE_LEN)
      case AwaitResult(_, _) => Some(4)
      case AwaitReasonLength => Some(4)
      case AwaitReason(n) => Some(n)
      case _ => None
    }

    function Feed(b: seq<byte>): Client
      requires Need() == Some(|b|)
    {
      match this
      case AwaitVersion =>
        (match Accept(b)
         case Success(v) => SendVersion(v)
         case Failure(e) => Refused(BadVersion(Rejected(e))))
      case AwaitCount(v) => if b[0] == 0 then AwaitReasonLength else AwaitTypes(v, b[0] as nat)
      case AwaitTypes(v, _) =>
        (match Select(b, SUPPORTED)
         case Some(t) => SendChoice(v, t)
         case None => Refused(NoSupportedType(b)))
      case AwaitChallenge(v) => SendResponse(v, b)
      case AwaitResult(v, t) =>
        if U32(b) == 0 then Done(v, t)
        else if !v.AtLeast(V38) then Refused(SecurityRejected([]))
        else AwaitReasonLength
      case AwaitReasonLength => if U32(b) > MAX_REASON_LEN then Refused(ReasonTooLong(U32(b))) else AwaitReason(U32(b))
      case AwaitReason(_) => Refused(SecurityRejected(b))
      case _ => assert false; this
    }

    /** The error when the stream ends inside this read. */
    function CutOff(e: ReadError): HandshakeError
      requires Need().Some?
    {
      match this
      case AwaitVersion => BadVersion(CutLine(e))
      case AwaitCount(_) => CutField(Count, e)
      case AwaitTypes(_, _) => CutField(Types, e)
      case AwaitChallenge(_) => CutField(Challenge, e)
      case AwaitResult(_, _) => CutField(SecResult, e)
      case AwaitReasonLength => CutField(ReasonLength, e)
      case _ => CutField(Reason, e)
    }

    predicate Sending() {
      SendVersion? || SendChoice? || SendResponse?
    }

    function Output(auth: Auth, password: seq<byte>): seq<byte>
      requires Sending()
    {
      match this
      case SendVersion(_) => Line(V38)
      case SendChoice(_, t) => [t]
      case _ => auth(password, challenge)
    }

    function AfterSend(): Client
      requires Sending()
    {
      match this
      case SendVersion(v) => AwaitCount(v)
      case SendChoice(v, t) => if t == SEC_VNC_AUTH then AwaitChallenge(v) else AwaitResult(v, t)
      case _ => AwaitResult(v, SEC_VNC_AUTH)
    }

    function Rank(): nat {
      match this
      case AwaitVersion => 10
      case SendVersion(_) => 9
      case AwaitCount(_) => 8
      case AwaitTypes(_, _) => 7
      case SendChoice(_, _) => 6
      case AwaitChallenge(_) => 5
      case SendResponse(_, _) => 4
      case AwaitResult(_, _) => 3
      case AwaitReasonLength => 2
      case AwaitReason(_) => 1
      case _ => 0
    }
  }

  /** How an automaton run ends, what it leaves unread and what it wrote. */
  datatype Ran<T> = Ran(final: T, left: seq<byte>, wrote: seq<byte>)

  function RunClient(c: Client, s: seq<byte>, fate: Fate, auth: Auth, password: seq<byte>): Ran<Client>
    decreases c.Rank()
  {
    if c.Need().Some? then
      var n := c.Need().value;
      if |s| < n then Ran(Refused(c.CutOff(CutError(s, fate))), [], [])
      else RunClient(c.Feed(s[..n]), s[n..], fate, auth, password)
    else if c.Sending() then
      var ran := RunClient(c.AfterSend(), s, fate, auth, password);
      ran.(wrote := c.Output(auth, password) + ran.wrote)
    else Ran(c, s, [])
  }

  // ---- exactness ----

  /** A server stream that a handshake succeeds on, field by field, followed by rest. */
  ghost predicate Accepting(s: seq<byte>, v: Version, types: seq<byte>, challenge: seq<byte>, rest: seq<byte>) {
    && 1000 * v.major + v.minor >= 3008 && v.major < 1000 && v.minor < 1000
    && 0 < |types| < 256 && (2 in types || 1 in types)
    && |challenge| == (if 2 in types then 16 else 0)
    && s == Line(v) + ([|types| as byte] + (types + (challenge + ([0, 0, 0, 0] + rest))))
  }

  function Preferred(types: seq<byte>): byte {
    if 2 in types then 2 else 1
  }

  lemma ReadStep(c: Client, b: seq<byte>, rest: seq<byte>, fate: Fate, auth: Auth, password: seq<byte>)
    requires c.Need() == Some(|b|)
    ensures RunClient(c, b + rest, fate, auth, password) == RunClient(c.Feed(b), rest, fate, auth, password)
  {
    assert (b + rest)[..|b|] == b && (b + rest)[|b|..] == rest;
  }

  lemma FromResult(v: Version, t: byte, rest: seq<byte>, fate: Fate, auth: Auth, password: seq<byte>)
    ensures RunClient(AwaitResult(v, t), RESULT_OK + rest, fate, auth, password) == Ran(Done(v, t), rest, [])
  {
    assert U32(RESULT_OK) == 0;
    ReadStep(AwaitResult(v, t), RESULT_OK, rest, fate, auth, password);
  }

  /** What the client writes from its choice on. */
  function Answer(t: byte, challenge: seq<byte>, auth: Auth, password: seq<byte>): seq<byte> {
    if t == 2 then [t] + auth(password, challenge) else [t]
  }

  lemma FromChoice(v: Version, t: byte, challenge: seq<byte>, rest: seq<byte>, fate: Fate, auth: Auth,
                   password: seq<byte>)
    requires |challenge| == if t == SEC_VNC_AUTH then CHALLENGE_LEN else 0
    ensures RunClient(SendChoice(v, t), challenge + (RESULT_OK + rest), fate, auth, password)
              == Ran(Done(v, t), rest, Answer(t, challenge, auth, password))
  {
    FromResult(v, t, rest, fate, auth, password);
    if t == SEC_VNC_AUTH {
      ReadStep(AwaitChallenge(v), challenge, RESULT_OK + rest, fate, auth, password);
      assert auth(password, challenge) + [] == auth(password, challenge);
    } else {
      assert challenge + (RESULT_OK + rest) == RESULT_OK + rest;
      assert [t] + [] == [t];
    }
  }

  lemma FromCount(v: Version, types: seq<byte>, tail: seq<byte>, fate: Fate, auth: Auth, password: seq<byte>)
    requires 0 < |types| < 256 && (SEC_VNC_AUTH in types || SEC_NONE in types)
    ensures RunClient(AwaitCount(v), [|types| as byte] + (types + tail), fate, auth, password)
              == RunClient(SendChoice(v, Preferred(types)), tail, fate, auth, password)
  {
    ReadStep(AwaitCount(v), [|types| as byte], types + tail, fate, auth, password);
    ReadStep(AwaitTypes(v, |types|), types, tail, fate, auth, password);
  }

  lemma AcceptingSucceeds(s: seq<byte>, fate: Fate, auth: Auth, password: seq<byte>,
                          v: Version, types: seq<byte>, challenge: seq<byte>, rest: seq<byte>)
    requires Accepting(s, v, types, challenge, rest)
    ensures RunClient(AwaitVersion, s, fate, auth, password)
              == Ran(Done(v, Preferred(types)), rest, Line(V38) + Answer(Preferred(types), challenge, auth, password))
  {
    var tail := challenge + (RESULT_OK + rest);
    ParseIff(Line(v), v);
    ReadStep(AwaitVersion, Line(v), [|types| as byte] + (types + tail), fate, auth, password);
    FromCount(v, types, tail, fate, auth, password);
    FromChoice(v, Preferred(types), challenge, rest, fate, auth, password);
  }

  lemma ToResult(v: Version, t: byte, s: seq<byte>, fate: Fate, auth: Auth, password: seq<byte>)
    requires RunClient(AwaitResult(v, t), s, fate, auth, password).final.Done?
    ensures var ran := RunClient(AwaitResult(v, t), s, fate, auth, password);
            ran.final == Done(v, t) && s == RESULT_OK + ran.left
  {
    NoWayBack(AwaitReasonLength, s[4..], fate, auth, password);
    PutU32OfU32(s[..4]);
    assert PutU32(0) == RESULT_OK;
    assert s == s[..4] + s[4..];
  }

  lemma ToChoice(v: Version, t: byte, s: seq<byte>, fate: Fate, auth: Auth, password: seq<byte>)
      returns (challenge: seq<byte>)
    requires RunClient(SendChoice(v, t), s, fate, auth, password).final.Done?
    ensures var ran := RunClient(SendChoice(v, t), s, fate, auth, password);
            && ran.final == Done(v, t)
            && |challenge| == (if t == SEC_VNC_AUTH then CHALLENGE_LEN else 0)
            && s == challenge + (RESULT_OK + ran.left)
  {
    if t == SEC_VNC_AUTH {
      challenge := s[..CHALLENGE_LEN];
      assert s == challenge + s[CHALLENGE_LEN..];
      ReadStep(AwaitChallenge(v), challenge, s[CHALLENGE_LEN..], fate, auth, password);
      ToResult(v, t, s[CHALLENGE_LEN..], fate, auth, password);
    } else {
      challenge := [];
      ToResult(v, t, s, fate, auth, password);
      assert s == [] + s;
    }
  }

  lemma ToCount(v: Version, s: seq<byte>, fate: Fate, auth: Auth, password: seq<byte>)
      returns (types: seq<byte>, tail: seq<byte>)
    requires RunClient(AwaitCount(v), s, fate, auth, password).final.Done?
    ensures 0 < |types| < 256 && (SEC_VNC_AUTH in types || SEC_NONE in types)
    ensures s == [|types| as byte] + (types + tail)
  {
    if s[0] == 0 {
      NoWayBack(AwaitReasonLength, s[1..], fate, auth, password);
    }
    var n := s[0] as nat;
    assert s[..1] == [s[0]];
    types, tail := s[1..][..n], s[1..][n..];
    assert s[1..] == types + tail && s == [s[0]] + s[1..];
    ReadStep(AwaitCount(v), [s[0]], s[1..], fate, auth, password);
    ReadStep(AwaitTypes(v, n), types, tail, fate, auth, password);
    SelectMeaning(types, SUPPORTED);
  }

  /** The converse, with the fields recovered from their positions in the stream. */
  lemma SuccessIsAccepting(s: seq<byte>, fate: Fate, auth: Auth, password: seq<byte>)
    returns (types: seq<byte>, challenge: seq<byte>)
    requires RunClient(AwaitVersion, s, fate, auth, password).final.Done?
    ensures var ran := RunClient(AwaitVersion, s, fate, auth, password);
            Accepting(s, ran.final.v, types, challenge, ran.left)
  {
    var line, s1 := s[..12], s[12..];
    assert s == line + s1;
    ReadStep(AwaitVersion, line, s1, fate, auth, password);
    var v := AwaitVersion.Feed(line).v;
    ParseIff(line, v);
    var tail;
    types, tail := ToCount(v, s1, fate, auth, password);
    FromCount(v, types, tail, fate, auth, password);
    challenge := ToChoice(v, Preferred(types), tail, fate, auth, password);
  }

  /** Once a reason string is due the handshake can only fail. */
  lemma {:induction false} NoWayBack(c: Client, s: seq<byte>, fate: Fate, auth: Auth, password: seq<byte>)
    requires c.AwaitReasonLength? || c.AwaitReason?
    ensures RunClient(c, s, fate, auth, password).final.Refused?
    decreases c.Rank()
  {
    if c.AwaitReasonLength? && |s| >= 4 && U32(s[..4]) <= MAX_REASON_LEN {
      NoWayBack(AwaitReason(U32(s[..4])), s[4..], fate, auth, password);
    }
  }

  /** Boundary exactness: a handshake succeeds exactly on an accepting stream, prefers VNCAuth, and
      leaves the rest untouched; the number of bytes taken follows from the list length. */
  lemma HandshakeExact(s: seq<byte>, fate: Fate, auth: Auth, password: seq<byte>)
    ensures var ran := RunClient(AwaitVersion, s, fate, auth, password);
            (ran.final.Done? <==> exists v, types, challenge, rest :: Accepting(s, v, types, challenge, rest))
    ensures var ran := RunClient(AwaitVersion, s, fate, auth, password);
            forall v, types, challenge, rest :: Accepting(s, v, types, challenge, rest) ==>
              && ran.final == Done(v, Preferred(types)) && ran.left == rest
              && |s| - |ran.left| == 12 + 1 + |types| + (if SEC_VNC_AUTH in types then 16 else 0) + 4
  {
    var ran := RunClient(AwaitVersion, s, fate, auth, password);
    if ran.final.Done? {
      var types, challenge := SuccessIsAccepting(s, fate, auth, password);
    }
    forall v, types, challenge, rest | Accepting(s, v, types, challenge, rest)
      ensures ran.final == Done(v, Preferred(types)) && ran.left == rest
      ensures |s| - |ran.left| == 12 + 1 + |types| + (if SEC_VNC_AUTH in types then 16 else 0) + 4
    {
      AcceptingSucceeds(s, fate, auth, password, v, types, challenge, rest);
    }
  }

  // ---- refusals ----

  /** A refusal with a reason, as it is on the wire: its length, the text, then whatever follows. */
  function ReasonOnWire(text: seq<byte>, rest: seq<byte>): seq<byte>
    requires |text| < 0x1_0000_0000
  {
    PutU32(|text|) + (text + rest)
  }

  /** The text of a reason is what the error carries, and nothing after it is read; one over 1 MiB is not
      read at all. */
  lemma ReasonExact(text: seq<byte>, rest: seq<byte>, fate: Fate, auth: Auth, password: seq<byte>)
    requires |text| < 0x1_0000_0000
    ensures RunClient(AwaitReasonLength, ReasonOnWire(text, rest), fate, auth, password)
            == if |text| <= 1048576 then Ran(Refused(SecurityRejected(text)), rest, [])
               else Ran(Refused(ReasonTooLong(|text|)), text + rest, [])
  {
    ReadStep(AwaitReasonLength, PutU32(|text|), text + rest, fate, auth, password);
    if |text| <= 1048576 {
      ReadStep(AwaitReason(|text|), text, rest, fate, auth, password);
    }
  }

  /** What a handshake that is refused after text amounts to; wrote is what the client had said by then. */
  function RefusedFor(text: seq<byte>, rest: seq<byte>, wrote: seq<byte>): Ran<Client> {
    if |text| <= 1048576 then Ran(Refused(SecurityRejected(text)), rest, wrote)
    else Ran(Refused(ReasonTooLong(|text|)), text + rest, wrote)
  }

  /** A server that offers no security type gives its reason instead. */
  lemma EmptyListRefused(v: Version, text: seq<byte>, rest: seq<byte>, fate: Fate, auth: Auth, password: seq<byte>)
    requires 1000 * v.major + v.minor >= 3008 && v.major < 1000 && v.minor < 1000 && |text| < 0x1_0000_0000
    ensures RunClient(AwaitVersion, Line(v) + ([0] + ReasonOnWire(text, rest)), fate, auth, password)
            == RefusedFor(text, rest, Line(Version(3, 8)))
  {
    AcceptIff(Line(v), v);
    ReadStep(AwaitVersion, Line(v), [0] + ReasonOnWire(text, rest), fate, auth, password);
    ReadStep(AwaitCount(v), [0], ReasonOnWire(text, rest), fate, auth, password);
    ReasonExact(text, rest, fate, auth, password);
    assert Line(V38) + [] == Line(V38);
  }

  /** A server that rejects the client gives its reason after a result other than zero. */
  lemma RejectionRefused(v: Version, types: seq<byte>, challenge: seq<byte>, code: seq<byte>, text: seq<byte>,
                         rest: seq<byte>, fate: Fate, auth: Auth, password: seq<byte>)
    requires 1000 * v.major + v.minor >= 3008 && v.major < 1000 && v.minor < 1000 && |text| < 0x1_0000_0000
    requires 0 < |types| < 256 && (2 in types || 1 in types)
    requires |challenge| == (if 2 in types then 16 else 0) && |code| == 4 && code != [0, 0, 0, 0]
    ensures RunClient(AwaitVersion,
                      Line(v) + ([|types| as byte] + (types + (challenge + (code + ReasonOnWire(text, rest))))),
                      fate, auth, password)
            == RefusedFor(text, rest, Line(Version(3, 8)) + Answer(Preferred(types), challenge, auth, password))
  {
    var t, tail := Preferred(types), challenge + (code + ReasonOnWire(text, rest));
    AcceptIff(Line(v), v);
    ReadStep(AwaitVersion, Line(v), [|types| as byte] + (types + tail), fate, auth, password);
    FromCount(v, types, tail, fate, auth, password);
    RejectedChoice(v, t, challenge, code, text, rest, fate, auth, password);
  }

  lemma RejectedChoice(v: Version, t: byte, challenge: seq<byte>, code: seq<byte>, text: seq<byte>, rest: seq<byte>,
                       fate: Fate, auth: Auth, password: seq<byte>)
    requires 1000 * v.major + v.minor >= 3008 && v.minor < 1000 && |text| < 0x1_0000_0000
    requires |challenge| == (if t == 2 then 16 else 0) && |code| == 4 && code != [0, 0, 0, 0]
    ensures RunClient(SendChoice(v, t), challenge + (code + ReasonOnWire(text, rest)), fate, auth, password)
            == RefusedFor(text, rest, Answer(t, challenge, auth, password))
  {
    var tail := code + ReasonOnWire(text, rest);
    RejectedResult(v, t, code, text, rest, fate, auth, password);
    if t == 2 {
      ReadStep(AwaitChallenge(v), challenge, tail, fate, auth, password);
      assert auth(password, challenge) + [] == auth(password, challenge);
    } else {
      assert challenge + tail == tail;
      assert [t] + [] == [t];
    }
  }

  lemma RejectedResult(v: Version, t: byte, code: seq<byte>, text: seq<byte>, rest: seq<byte>, fate: Fate,
                       auth: Auth, password: seq<byte>)
    requires 1000 * v.major + v.minor >= 3008 && v.minor < 1000 && |text| < 0x1_0000_0000
    requires |code| == 4 && code != [0, 0, 0, 0]
    ensures RunClient(AwaitResult(v, t), code + ReasonOnWire(text, rest), fate, auth, password)
            == RefusedFor(text, rest, [])
  {
    PutU32OfU32(code);
    assert PutU32(0) == [0, 0, 0, 0];
    ReadStep(AwaitResult(v, t), code, ReasonOnWire(text, rest), fate, auth, password);
    ReasonExact(text, rest, fate, auth, password);
  }

  /** A server whose types are all unknown is refused with its list, before anything is chosen. */
  lemma UnknownTypesRefused(v: Version, types: seq<byte>, rest: seq<byte>, fate: Fate, auth: Auth, password: seq<byte>)
    requires 1000 * v.major + v.minor >= 3008 && v.major < 1000 && v.minor < 1000
    requires 0 < |types| < 256 && 2 !in types && 1 !in types
    ensures RunClient(AwaitVersion, Line(v) + ([|types| as byte] + (types + rest)), fate, auth, password)
            == Ran(Refused(NoSupportedType(types)), rest, Line(Version(3, 8)))
  {
    AcceptIff(Line(v), v);
    ShippedChoice(types);
    ReadStep(AwaitVersion, Line(v), [|types| as byte] + (types + rest), fate, auth, password);
    ReadStep(AwaitCount(v), [|types| as byte], types + rest, fate, auth, password);
    ReadStep(AwaitTypes(v, |types|), types, rest, fate, auth, password);
    assert Line(V38) + [] == Line(V38);
  }

  /** A version line that is none, or too old, is refused before anything is said. */
  lemma VersionRefused(line: seq<byte>, rest: seq<byte>, fate: Fate, auth: Auth, password: seq<byte>)
    requires |line| == 12 && Accept(line).Failure?
    ensures RunClient(AwaitVersion, line + rest, fate, auth, password)
            == Ran(Refused(BadVersion(Rejected(Accept(line).error))), rest, [])
  {
    ReadStep(AwaitVersion, line, rest, fate, auth, password);
  }

  lemma CutResult(v: Version, t: byte, s: seq<byte>, fate: Fate, auth: Auth, password: seq<byte>)
    requires |s| < 4
    ensures var ran := RunClient(AwaitResult(v, t), s, fate, auth, password);
            ran.final == Refused(CutField(SecResult, CutError(s, fate))) && ran.left == []
  {
  }

  lemma CutChoice(v: Version, t: byte, s: seq<byte>, fate: Fate, auth: Auth, password: seq<byte>)
    requires |s| < (if t == 2 then 16 else 0) + 4
    ensures var ran, c := RunClient(SendChoice(v, t), s, fate, auth, password), if t == 2 then 16 else 0;
            && ran.left == []
            && ran.final == Refused(if |s| < c then CutField(Challenge, CutError(s, fate))
                                    else CutField(SecResult, CutError(s[c..], fate)))
  {
    if t == 2 && |s| >= 16 {
      assert s == s[..16] + s[16..];
      ReadStep(AwaitChallenge(v), s[..16], s[16..], fate, auth, password);
      CutResult(v, t, s[16..], fate, auth, password);
    } else if t != 2 {
      CutResult(v, t, s, fate, auth, password);
      assert s[0..] == s;
    }
  }

  lemma CutTypes(v: Version, types: seq<byte>, s: seq<byte>, fate: Fate, auth: Auth, password: seq<byte>)
    requires |s| < |types|
    ensures var ran := RunClient(AwaitTypes(v, |types|), s, fate, auth, password);
            ran.final == Refused(CutField(Types, CutError(s, fate))) && ran.left == []
  {
  }

  function ChallengeLen(types: seq<byte>): nat {
    if 2 in types then 16 else 0
  }

  /** The error for a stream that ends, after the version line, in the list, the challenge or the result. */
  function CutAt(s: seq<byte>, types: seq<byte>, fate: Fate): HandshakeError {
    var n, c := |types|, ChallengeLen(types);
    if s == [] then CutField(Count, Ended(fate))
    else if |s| < 1 + n then CutField(Types, CutError(s[1..], fate))
    else if |s| < 1 + n + c then CutField(Challenge, CutError(s[1 + n..], fate))
    else if |s| < 1 + n + c + 4 then CutField(SecResult, CutError(s[1 + n + c..], fate))
    else CutField(SecResult, UnexpectedEof)
  }

  lemma CutList(v: Version, types: seq<byte>, s: seq<byte>, fate: Fate, auth: Auth, password: seq<byte>)
    requires 0 < |types| < 256 && (2 in types || 1 in types) && |s| < 1 + |types| + ChallengeLen(types) + 4
    requires s != [] ==> s[0] as nat == |types|
    requires |s| > |types| ==> s[1..][..|types|] == types
    ensures var ran := RunClient(AwaitCount(v), s, fate, auth, password);
            ran.left == [] && ran.final == Refused(CutAt(s, types, fate))
  {
    if s != [] {
      assert s == [s[0]] + s[1..];
      ReadStep(AwaitCount(v), [s[0]], s[1..], fate, auth, password);
      if |s| - 1 < |types| {
        CutTypes(v, types, s[1..], fate, auth, password);
      } else {
        var s' := s[1 + |types|..];
        assert s[1..] == types + s';
        ReadStep(AwaitTypes(v, |types|), types, s', fate, auth, password);
        ShippedChoice(types);
        CutChoice(v, Preferred(types), s', fate, auth, password);
        assert |s'| >= ChallengeLen(types) ==> s'[ChallengeLen(types)..] == s[1 + |types| + ChallengeLen(types)..];
      }
    }
  }

  lemma PrefixParts(s: seq<byte>, a: seq<byte>, b: seq<byte>)
    requires s <= a + b && |s| >= |a|
    ensures s == a + s[|a|..] && s[|a|..] <= b
  {
  }

  lemma PrefixOfList(s: seq<byte>, types: seq<byte>, b: seq<byte>)
    requires 0 < |types| < 256 && s <= [|types| as byte] + (types + b)
    ensures s != [] ==> s[0] as nat == |types|
    ensures |s| > |types| ==> s[1..][..|types|] == types
  {
    if |s| > |types| {
      PrefixParts(s, [|types| as byte], types + b);
      PrefixParts(s[1..], types, b);
    }
  }

  /** A stream that ends inside a good handshake is refused naming the field it ends in; the end counts as
      clean only between fields. */
  lemma CutShort(s: seq<byte>, whole: seq<byte>, v: Version, types: seq<byte>, challenge: seq<byte>, rest: seq<byte>,
                 fate: Fate, auth: Auth, password: seq<byte>)
    requires Accepting(whole, v, types, challenge, rest) && s <= whole && |s| < |whole| - |rest|
    ensures var ran := RunClient(AwaitVersion, s, fate, auth, password);
            && ran.left == []
            && ran.final == Refused(
                 if |s| < 12 then BadVersion(CutLine(CutError(s, fate))) else CutAt(s[12..], types, fate))
  {
    if |s| >= 12 {
      var b := challenge + ([0, 0, 0, 0] + rest);
      PrefixParts(s, Line(v), [|types| as byte] + (types + b));
      PrefixOfList(s[12..], types, b);
      AcceptIff(Line(v), v);
      ReadStep(AwaitVersion, Line(v), s[12..], fate, auth, password);
      CutList(v, types, s[12..], fate, auth, password);
    }
  }

  // ---- the client role in code ----

  /** n = 0 is an empty list, not an error. */
  method ReadSecurityTypeList(conn: Conn) returns (r: Result<seq<byte>, HandshakeError>)
    modifies conn`frames, conn`readBuf
    ensures var s := old(conn.Unread());
            if s == [] then r == Failure(CutField(Count, CutError([], conn.fate))) && conn.Unread() == []
            else if |s| - 1 < s[0] as int then r == Failure(CutField(Types, CutError(s[1..], conn.fate)))
                && conn.Unread() == []
            else r == Success(s[1..][..s[0]]) && conn.Unread() == s[1..][s[0]..]
  {
    var nBuf, err := conn.ReadFull(1);
    if err.Some? {
      return Failure(CutField(Count, err.value));
    }
    var n := nBuf[0] as nat;
    if n == 0 {
      return Success([]);
    }
    var buf, err' := conn.ReadFull(n);
    if err'.Some? {
      return Failure(CutField(Types, err'.value));
    }
    return Success(buf);
  }

  /** A reason string always ends in a refusal: with the text, or with what went wrong reading it. */
  method ReadReasonString(conn: Conn, ghost auth: Auth, ghost password: seq<byte>)
      returns (r: Result<seq<byte>, HandshakeError>)
    modifies conn`frames, conn`readBuf
    ensures var ran := RunClient(AwaitReasonLength, old(conn.Unread()), conn.fate, auth, password);
            && ran == Ran(Refused(match r case Success(text) => SecurityRejected(text) case Failure(e) => e),
                conn.Unread(), [])
            && (r.Failure? ==> !r.error.WriteFailed?)
  {
    var lenBuf, err := conn.ReadFull(4);
    if err.Some? {
      return Failure(CutField(ReasonLength, err.value));
    }
    var length := U32(lenBuf);
    if length > MAX_REASON_LEN {
      return Failure(ReasonTooLong(length));
    }
    var buf, err' := conn.ReadFull(length);
    if err'.Some? {
      return Failure(CutField(Reason, err'.value));
    }
    return Success(buf);
  }

  /** None for an accepted result, the reason for a refused one. */
  method ReadSecurityResult(conn: Conn, v: Version, ghost t: byte, ghost auth: Auth, ghost password: seq<byte>)
    returns (r: Result<Option<seq<byte>>, HandshakeError>)
    modifies conn`frames, conn`readBuf
    ensures var ran := RunClient(AwaitResult(v, t), old(conn.Unread()), conn.fate, auth, password);
            && ran.left == conn.Unread() && ran.wrote == []
            && ran.final == (match r
                             case Success(None) => Done(v, t)
                             case Success(Some(reason)) => Refused(SecurityRejected(reason))
                             case Failure(e) => Refused(e))
            && (r.Failure? ==> !r.error.WriteFailed?)
  {
    var buf, err := conn.ReadFull(4);
    if err.Some? {
      return Failure(CutField(SecResult, err.value));
    }
    if U32(buf) == 0 {
      return Success(None);
    }
    if !v.AtLeast(V38) {
      return Success(Some([]));
    }
    var reason := ReadReasonString(conn, auth, password);
    match reason
    case Success(text) => return Success(Some(text));
    case Failure(e) => return Failure(e);
  }

  /** The run so far wrote w and goes on as cur. */
  ghost predicate Tracks<T>(ran: Ran<T>, w: seq<byte>, cur: Ran<T>) {
    ran == Ran(cur.final, cur.left, w + cur.wrote)
  }

  lemma TracksSend<T>(ran: Ran<T>, w: seq<byte>, out: seq<byte>, cur: Ran<T>)
    requires Tracks(ran, w, cur.(wrote := out + cur.wrote))
    ensures Tracks(ran, w + out, cur) && w + out <= ran.wrote
  {
    Assoc(w, out, cur.wrote);
  }

  /** What a handshake reports, against the automaton's run on the same stream. */
  ghost predicate Reports(ran: Ran<Client>, r: Result<(Version, byte), HandshakeError>, before: seq<byte>,
                          after: seq<byte>, left: seq<byte>) {
    match r
    case Success(vt) => ran.final == Done(vt.0, vt.1) && left == ran.left && after == before + ran.wrote
    case Failure(WriteFailed(_)) => before <= after <= before + ran.wrote
    case Failure(e) => ran.final == Refused(e) && left == ran.left && after == before + ran.wrote
  }

  /** One write of the handshake: all of it, or an error with a prefix of it on the wire. */
  method Say(conn: Conn, b: seq<byte>, ghost start: seq<byte>, ghost w: seq<byte>, ghost total: seq<byte>)
      returns (err: Option<HandshakeError>)
    requires conn.Written() == start + w && w + b <= total
    modifies conn`sent, conn`broken
    ensures err.None? ==> conn.Written() == start + (w + b)
    ensures err.Some? ==> err.value.WriteFailed? && start <= conn.Written() <= start + total
  {
    var n, e := conn.Write(b);
    Assoc(start, w, b);
    err := if e.Some? then Some(WriteFailed(e.value)) else None;
  }

  method Handshake(conn: Conn, password: seq<byte>, auth: Auth) returns (r: Result<(Version, byte), HandshakeError>)
    modifies conn`frames, conn`readBuf, conn`sent, conn`broken
    ensures Reports(RunClient(AwaitVersion, old(conn.Unread()), conn.fate, auth, password), r,
                    old(conn.Written()), conn.Written(), conn.Unread())
  {
    ghost var start := conn.Written();
    ghost var ran := RunClient(AwaitVersion, conn.Unread(), conn.fate, auth, password);
    var version := ReadVersion(conn);
    if version.Failure? {
      return Failure(BadVersion(version.error));
    }
    var v := version.value;
    assert ran == RunClient(SendVersion(v), conn.Unread(), conn.fate, auth, password);
    TracksSend(ran, [], Line(V38), RunClient(AwaitCount(v), conn.Unread(), conn.fate, auth, password));
    var failed := Say(conn, Line(V38), start, [], ran.wrote);
    if failed.Some? {
      return Failure(failed.value);
    }
    r := Negotiate(conn, v, password, auth, start, ran);
  }

  /** Everything after the version exchange. */
  method Negotiate(conn: Conn, v: Version, password: seq<byte>, auth: Auth, ghost start: seq<byte>,
                   ghost ran: Ran<Client>)
    returns (r: Result<(Version, byte), HandshakeError>)
    requires conn.Written() == start + Line(V38)
    requires Tracks(ran, Line(V38), RunClient(AwaitCount(v), conn.Unread(), conn.fate, auth, password))
    modifies conn`frames, conn`readBuf, conn`sent, conn`broken
    ensures Reports(ran, r, start, conn.Written(), conn.Unread())
  {
    ghost var w := Line(V38);
    ghost var s := conn.Unread();
    assert w + [] == w;
    var list := ReadSecurityTypeList(conn);
    if list.Failure? {
      if s != [] {
        assert RunClient(AwaitCount(v), s, conn.fate, auth, password)
            == RunClient(AwaitTypes(v, s[0] as nat), s[1..], conn.fate, auth, password);
      }
      return Failure(list.error);
    }
    if list.value == [] {
      var reason := ReadReasonString(conn, auth, password);
      match reason
      case Success(text) => return Failure(SecurityRejected(text));
      case Failure(e) => return Failure(e);
    }
    assert RunClient(AwaitCount(v), s, conn.fate, auth, password)
        == RunClient(AwaitTypes(v, |list.value|), s[1..], conn.fate, auth, password);
    assert RunClient(AwaitTypes(v, |list.value|), s[1..], conn.fate, auth, password)
        == RunClient(AwaitTypes(v, |list.value|).Feed(list.value), conn.Unread(), conn.fate, auth, password);
    var choice := SelectSecurityType(list.value, SUPPORTED);
    if choice.None? {
      return Failure(NoSupportedType(list.value));
    }
    r := Prove(conn, v, choice.value, password, auth, start, ran);
  }

  /** Everything after a security type has been chosen. */
  method Prove(conn: Conn, v: Version, t: byte, password: seq<byte>, auth: Auth, ghost start: seq<byte>,
               ghost ran: Ran<Client>)
    returns (r: Result<(Version, byte), HandshakeError>)
    requires conn.Written() == start + Line(V38)
    requires Tracks(ran, Line(V38), RunClient(SendChoice(v, t), conn.Unread(), conn.fate, auth, password))
    modifies conn`frames, conn`readBuf, conn`sent, conn`broken
    ensures Reports(ran, r, start, conn.Written(), conn.Unread())
  {
    ghost var w := Line(V38);
    TracksSend(ran, w, [t], RunClient(SendChoice(v, t).AfterSend(), conn.Unread(), conn.fate, auth, password));
    var failed := Say(conn, [t], start, w, ran.wrote);
    if failed.Some? {
      return Failure(failed.value);
    }
    w := w + [t];
    assert w + [] == w;
    if t == SEC_VNC_AUTH {
      var challenge, err := conn.ReadFull(CHALLENGE_LEN);
      if err.Some? {
        return Failure(CutField(Challenge, err.value));
      }
      var response := auth(password, challenge);
      assert Tracks(ran, w, RunClient(SendResponse(v, challenge), conn.Unread(), conn.fate, auth, password));
      TracksSend(ran, w, response, RunClient(AwaitResult(v, t), conn.Unread(), conn.fate, auth, password));
      failed := Say(conn, response, start, w, ran.wrote);
      if failed.Some? {
        return Failure(failed.value);
      }
      w := w + response;
      assert w + [] == w;
    }
    var result := ReadSecurityResult(conn, v, t, auth, password);
    match result
    case Failure(e) => return Failure(e);
    case Success(Some(reason)) => return Failure(SecurityRejected(reason));
    case Success(None) => return Success((v, t));
  }

  // ---- the server role ----

  datatype Server =
    | GreetBrowser
    | AwaitBrowserVersion
    | SendList
    | AwaitBrowserChoice
    | SendOk
    | Synthesised
    | Declined(error: HandshakeError)
  {
    function Need(): Option<nat> {
      match this
      case AwaitBrowserVersion => Some(VERSION_LINE_LEN)
      case AwaitBrowserChoice => Some(1)
      case _ => None
    }

    function Feed(b: seq<byte>): Server
      requires Need() == Some(|b|)
    {
      match this
      case AwaitBrowserVersion =>
        (match Accept(b)
         case Failure(e) => Declined(BadVersion(Rejected(e)))
         case Success(v) => if v != V38 then Declined(BrowserVersion(v)) else SendList)
      case AwaitBrowserChoice => if b[0] != SEC_NONE then Declined(BrowserChoice(b[0])) else SendOk
      case _ => assert false; this
    }

    function CutOff(e: ReadError): HandshakeError
      requires Need().Some?
    {
      if AwaitBrowserVersion? then BadVersion(CutLine(e)) else CutField(Choice, e)
    }

    predicate Sending() {
      GreetBrowser? || SendList? || SendOk?
    }

    function Output(): seq<byte>
      requires Sending()
    {
      match this
      case GreetBrowser => Line(V38)
      case SendList => [1, SEC_NONE]
      case _ => RESULT_OK
    }

    function AfterSend(): Server
      requires Sending()
    {
      match this
      case GreetBrowser => AwaitBrowserVersion
      case SendList => AwaitBrowserChoice
      case _ => Synthesised
    }

    function Rank(): nat {
      match this
      case GreetBrowser => 5
      case AwaitBrowserVersion => 4
      case SendList => 3
      case AwaitBrowserChoice => 2
      case SendOk => 1
      case _ => 0
    }
  }

  function RunServer(c: Server, s: seq<byte>, fate: Fate): Ran<Server>
    decreases c.Rank()
  {
    if c.Need().Some? then
      var n := c.Need().value;
      if |s| < n then Ran(Declined(c.CutOff(CutError(s, fate))), [], [])
      else RunServer(c.Feed(s[..n]), s[n..], fate)
    else if c.Sending() then
      var ran := RunServer(c.AfterSend(), s, fate);
      ran.(wrote := c.Output() + ran.wrote)
    else Ran(c, s, [])
  }

  lemma ServerReadStep(c: Server, b: seq<byte>, rest: seq<byte>, fate: Fate)
    requires c.Need() == Some(|b|)
    ensures RunServer(c, b + rest, fate) == RunServer(c.Feed(b), rest, fate)
  {
    assert (b + rest)[..|b|] == b && (b + rest)[|b|..] == rest;
  }

  lemma OfferExact(s: seq<byte>, fate: Fate, rest: seq<byte>)
    ensures var ran := RunServer(SendList, s, fate);
            && (ran.final == Synthesised && ran.left == rest <==> s == [SEC_NONE] + rest)
            && (ran.final == Synthesised ==> ran.wrote == [1, SEC_NONE] + RESULT_OK)
  {
    if s != [] {
      assert s == [s[0]] + s[1..];
      ServerReadStep(AwaitBrowserChoice, [s[0]], s[1..], fate);
      assert RunServer(SendOk, s[1..], fate) == Ran(Synthesised, s[1..], RESULT_OK + []);
      assert RESULT_OK + [] == RESULT_OK;
    }
  }

  /** The synthetic handshake succeeds exactly on a 3.8 version line and a choice of None, takes
      those 13 bytes and no more, and stops before ClientInit. */
  lemma FrontshakeExact(s: seq<byte>, fate: Fate, rest: seq<byte>)
    ensures var ran := RunServer(GreetBrowser, s, fate);
            && (ran.final == Synthesised && ran.left == rest <==> s == Line(Version(3, 8)) + ([1] + rest))
            && (ran.final == Synthesised ==> ran.wrote == Line(Version(3, 8)) + ([1, 1] + [0, 0, 0, 0]))
  {
    var ran := RunServer(AwaitBrowserVersion, s, fate);
    assert RunServer(GreetBrowser, s, fate) == ran.(wrote := Line(V38) + ran.wrote);
    if |s| >= 12 {
      var line, s1 := s[..12], s[12..];
      assert s == line + s1;
      ServerReadStep(AwaitBrowserVersion, line, s1, fate);
      ParseIff(line, V38);
      OfferExact(s1, fate, rest);
      assert s == Line(V38) + ([SEC_NONE] + rest) ==> line == Line(V38) && s1 == [SEC_NONE] + rest;
    }
  }

  /** A browser that claims another version, or chooses another type, is declined with what it sent. */
  lemma FrontRefusals(v: Version, choice: byte, rest: seq<byte>, fate: Fate)
    requires 1000 * v.major + v.minor >= 3008 && v.major < 1000 && v.minor < 1000
    ensures v != Version(3, 8) ==>
              RunServer(GreetBrowser, Line(v) + rest, fate)
              == Ran(Declined(BrowserVersion(v)), rest, Line(Version(3, 8)))
    ensures choice != 1 ==>
              RunServer(GreetBrowser, Line(Version(3, 8)) + ([choice] + rest), fate)
              == Ran(Declined(BrowserChoice(choice)), rest, Line(Version(3, 8)) + [1, 1])
  {
    AcceptIff(Line(v), v);
    AcceptIff(Line(V38), V38);
    ServerReadStep(AwaitBrowserVersion, Line(v), rest, fate);
    ServerReadStep(AwaitBrowserVersion, Line(V38), [choice] + rest, fate);
    ServerReadStep(AwaitBrowserChoice, [choice], rest, fate);
    assert Line(V38) + [] == Line(V38) && [1, SEC_NONE] + [] == [1, SEC_NONE];
  }

  /** What a synthetic handshake reports, against the automaton's run. */
  ghost predicate FrontReports(ran: Ran<Server>, err: Option<HandshakeError>, before: seq<byte>, after: seq<byte>,
                               left: seq<byte>) {
    match err
    case None => ran.final == Synthesised && left == ran.left && after == before + ran.wrote
    case Some(WriteFailed(_)) => before <= after <= before + ran.wrote
    case Some(e) => ran.final == Declined(e) && left == ran.left && after == before + ran.wrote
  }

  method Frontshake(conn: Conn) returns (err: Option<HandshakeError>)
    modifies conn`frames, conn`readBuf, conn`sent, conn`broken
    ensures FrontReports(RunServer(GreetBrowser, old(conn.Unread()), conn.fate), err,
                         old(conn.Written()), conn.Written(), conn.Unread())
  {
    ghost var start := conn.Written();
    ghost var ran := RunServer(GreetBrowser, conn.Unread(), conn.fate);
    ghost var w := Line(V38);
    assert start + [] == start && w + [] == w;
    assert Tracks(ran, w, RunServer(AwaitBrowserVersion, conn.Unread(), conn.fate));
    err := Say(conn, Line(V38), start, [], ran.wrote);
    if err.Some? {
      return;
    }
    var version := ReadVersion(conn);
    if version.Failure? {
      return Some(BadVersion(version.error));
    }
    if version.value != V38 {
      return Some(BrowserVersion(version.value));
    }
    assert Tracks(ran, w, RunServer(SendList, conn.Unread(), conn.fate));
    err := Offer(conn, start, ran);
  }

  /** Everything after the version exchange. */
  method Offer(conn: Conn, ghost start: seq<byte>, ghost ran: Ran<Server>) returns (err: Option<HandshakeError>)
    requires conn.Written() == start + Line(V38)
    requires Tracks(ran, Line(V38), RunServer(SendList, conn.Unread(), conn.fate))
    modifies conn`frames, conn`readBuf, conn`sent, conn`broken
    ensures FrontReports(ran, err, start, conn.Written(), conn.Unread())
  {
    ghost var w := Line(V38);
    TracksSend(ran, w, [1, SEC_NONE], RunServer(AwaitBrowserChoice, conn.Unread(), conn.fate));
    err := Say(conn, [1, SEC_NONE], start, w, ran.wrote);
    if err.Some? {
      return;
    }
    w := w + [1, SEC_NONE];
    assert w + [] == w;
    var selBuf, e := conn.ReadFull(1);
    if e.Some? {
      return Some(CutField(Choice, e.value));
    }
    if selBuf[0] != SEC_NONE {
      return Some(BrowserChoice(selBuf[0]));
    }
    TracksSend(ran, w, RESULT_OK, RunServer(Synthesised, conn.Unread(), conn.fate));
    err := Say(conn, RESULT_OK, start, w, ran.wrote);
  }
}
