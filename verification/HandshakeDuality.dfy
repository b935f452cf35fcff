/** The plugin's two handshake roles run against each other over two FIFO byte queues: every
    interleaving of their steps, and every way of cutting the reads, ends in success. */
module HandshakeDuality {
  import opened Bytes
  import opened Version
  import opened RfbHandshake

  /** up carries the client's bytes, down the server's; cbuf and sbuf hold what an unfinished
      io.ReadFull has collected so far. */
  datatype Net = Net(c: Client, cbuf: seq<byte>, s: Server, sbuf: seq<byte>, up: seq<byte>, down: seq<byte>)

  datatype Event = ClientRead(k: nat) | ClientWrite | ServerRead(k: nat) | ServerWrite

  const START := Net(AwaitVersion, [], GreetBrowser, [], [], [])

  predicate CanRead(need: Option<nat>, buf: seq<byte>, queue: seq<byte>, k: nat) {
    need.Some? && k <= |queue| && |buf| + k <= need.value && (k > 0 || need.value == 0)
  }

  predicate Enabled(n: Net, e: Event) {
    match e
    case ClientRead(k) => CanRead(n.c.Need(), n.cbuf, n.down, k)
    case ClientWrite => n.c.Sending()
    case ServerRead(k) => CanRead(n.s.Need(), n.sbuf, n.up, k)
    case ServerWrite => n.s.Sending()
  }

  function Next(n: Net, e: Event, auth: Auth, password: seq<byte>): Net
    requires Enabled(n, e)
  {
    match e
    case ClientRead(k) =>
      var buf := n.cbuf + n.down[..k];
      if |buf| == n.c.Need().value then n.(c := n.c.Feed(buf), cbuf := [], down := n.down[k..])
      else n.(cbuf := buf, down := n.down[k..])
    case ClientWrite => n.(c := n.c.AfterSend(), up := n.up + n.c.Output(auth, password))
    case ServerRead(k) =>
      var buf := n.sbuf + n.up[..k];
      if |buf| == n.s.Need().value then n.(s := n.s.Feed(buf), sbuf := [], up := n.up[k..])
      else n.(sbuf := buf, up := n.up[k..])
    case ServerWrite => n.(s := n.s.AfterSend(), down := n.down + n.s.Output())
  }

  ghost predicate Reaches(n: Net, es: seq<Event>, n': Net, auth: Auth, password: seq<byte>)
    decreases |es|
  {
    if es == [] then n' == n
    else Enabled(n, es[0]) && Reaches(Next(n, es[0], auth, password), es[1..], n', auth, password)
  }

  // ---- the invariant ----

  /** Everything either side ever says. */
  const UP: seq<byte> := Line(V38) + [SEC_NONE]
  const DOWN: seq<byte> := Line(V38) + [1, SEC_NONE] + RESULT_OK

  /** Bytes the client has taken off down before its current read, and bytes it has written. */
  function ClientTaken(c: Client): nat {
    match c
    case AwaitVersion => 0
    case SendVersion(_) => 12
    case AwaitCount(_) => 12
    case AwaitTypes(_, _) => 13
    case SendChoice(_, _) => 14
    case AwaitResult(_, _) => 14
    case _ => 18
  }

  function ClientSaid(c: Client): nat {
    match c
    case AwaitVersion => 0
    case SendVersion(_) => 0
    case AwaitCount(_) => 12
    case AwaitTypes(_, _) => 12
    case SendChoice(_, _) => 12
    case _ => 13
  }

  function ServerTaken(s: Server): nat {
    match s
    case GreetBrowser => 0
    case AwaitBrowserVersion => 0
    case SendList => 12
    case AwaitBrowserChoice => 12
    case _ => 13
  }

  function ServerSaid(s: Server): nat {
    match s
    case GreetBrowser => 0
    case AwaitBrowserVersion => 12
    case SendList => 12
    case AwaitBrowserChoice => 14
    case SendOk => 14
    case _ => 18
  }

  predicate ClientOnTrack(c: Client) {
    match c
    case SendVersion(v) => v == V38
    case AwaitCount(v) => v == V38
    case AwaitTypes(v, n) => v == V38 && n == 1
    case SendChoice(v, t) => v == V38 && t == SEC_NONE
    case AwaitResult(v, t) => v == V38 && t == SEC_NONE
    case Done(v, t) => v == V38 && t == SEC_NONE
    case _ => c.AwaitVersion?
  }

  /** Fed or echoed the right slice of the two byte strings, each role moves on along the
      successful path and its counters advance by the length of the slice. */
  ghost predicate Scripted(up: seq<byte>, down: seq<byte>) {
    && |up| == 13 && |down| == 18
    && (forall c: Client :: ClientOnTrack(c) && c.Need().Some? ==> ClientFollows(c, down))
    && (forall s: Server :: !s.Declined? && s.Need().Some? ==> ServerFollows(s, up))
  }

  ghost predicate ClientFollows(c: Client, down: seq<byte>)
    requires ClientOnTrack(c) && c.Need().Some? && |down| == 18
  {
    var a, b := ClientTaken(c), ClientTaken(c) + c.Need().value;
    && b <= 18
    && var c' := c.Feed(down[a..b]);
       ClientOnTrack(c') && ClientTaken(c') == b && ClientSaid(c') == ClientSaid(c)
  }

  ghost predicate ServerFollows(s: Server, up: seq<byte>)
    requires !s.Declined? && s.Need().Some? && |up| == 13
  {
    var a, b := ServerTaken(s), ServerTaken(s) + s.Need().value;
    && b <= 13
    && var s' := s.Feed(up[a..b]);
       !s'.Declined? && ServerTaken(s') == b && ServerSaid(s') == ServerSaid(s)
  }

  lemma TheScript()
    ensures Scripted(UP, DOWN)
  {
    Spoken();
    ParseIff(Line(V38), V38);
    assert U32(RESULT_OK) == 0;
    assert DOWN[12..13] == [1] && DOWN[13..14] == [SEC_NONE];
  }

  lemma Spoken()
    ensures DOWN[0..12] == Line(V38) && DOWN[12..14] == [1, SEC_NONE] && DOWN[14..18] == RESULT_OK
    ensures UP[0..12] == Line(V38) && UP[12..13] == [SEC_NONE]
  {
  }

  ghost predicate Inv(n: Net, up: seq<byte>, down: seq<byte>)
    requires |up| == 13 && |down| == 18
  {
    && ClientOnTrack(n.c) && !n.s.Declined?
    && (if n.c.Need().Some? then |n.cbuf| < n.c.Need().value else n.cbuf == [])
    && (if n.s.Need().Some? then |n.sbuf| < n.s.Need().value else n.sbuf == [])
    && Between(n.cbuf, n.down, down, ClientTaken(n.c), ServerSaid(n.s))
    && Between(n.sbuf, n.up, up, ServerTaken(n.s), ClientSaid(n.c))
  }

  /** What has been collected and what is still queued are together the bytes from a to b. */
  ghost predicate Between(buf: seq<byte>, queue: seq<byte>, all: seq<byte>, a: nat, b: nat) {
    a <= b <= |all| && buf + queue == all[a..b]
  }

  lemma Took(buf: seq<byte>, queue: seq<byte>, all: seq<byte>, a: nat, b: nat, k: nat)
    requires Between(buf, queue, all, a, b) && k <= |queue|
    ensures a + |buf| + k <= b
    ensures buf + queue[..k] == all[a..a + |buf| + k]
    ensures Between(buf + queue[..k], queue[k..], all, a, b)
    ensures Between([], queue[k..], all, a + |buf| + k, b)
  {
    var buf' := buf + queue[..k];
    assert buf + queue == buf' + queue[k..];
    assert |buf + queue| == b - a;
    assert buf' == (buf + queue)[..|buf'|];
    assert queue[k..] == (buf + queue)[|buf'|..];
  }

  lemma Added(buf: seq<byte>, queue: seq<byte>, all: seq<byte>, a: nat, b: nat, c: nat)
    requires Between(buf, queue, all, a, b) && b <= c <= |all|
    ensures Between(buf, queue + all[b..c], all, a, c)
  {
    Assoc(buf, queue, all[b..c]);
    assert all[a..b] + all[b..c] == all[a..c];
  }

  lemma ClientReadKeepsInv(n: Net, k: nat, up: seq<byte>, down: seq<byte>, auth: Auth, password: seq<byte>)
    requires Scripted(up, down) && Inv(n, up, down) && Enabled(n, ClientRead(k))
    ensures k > 0
    ensures var n' := Next(n, ClientRead(k), auth, password); Inv(n', up, down) && Remaining(n') == Remaining(n) - k
  {
    assert ClientFollows(n.c, down);
    Took(n.cbuf, n.down, down, ClientTaken(n.c), ServerSaid(n.s), k);
    var n' := Next(n, ClientRead(k), auth, password);
    if |n.cbuf| + k == n.c.Need().value {
      assert n'.cbuf == [] && ClientTaken(n'.c) == ClientTaken(n.c) + |n.cbuf| + k;
    } else {
      assert n'.c == n.c && n'.cbuf == n.cbuf + n.down[..k];
    }
  }

  lemma ServerReadKeepsInv(n: Net, k: nat, up: seq<byte>, down: seq<byte>, auth: Auth, password: seq<byte>)
    requires Scripted(up, down) && Inv(n, up, down) && Enabled(n, ServerRead(k))
    ensures k > 0
    ensures var n' := Next(n, ServerRead(k), auth, password); Inv(n', up, down) && Remaining(n') == Remaining(n) - k
  {
    assert ServerFollows(n.s, up);
    Took(n.sbuf, n.up, up, ServerTaken(n.s), ClientSaid(n.c), k);
    var n' := Next(n, ServerRead(k), auth, password);
    if |n.sbuf| + k == n.s.Need().value {
      assert n'.sbuf == [] && ServerTaken(n'.s) == ServerTaken(n.s) + |n.sbuf| + k;
    } else {
      assert n'.s == n.s && n'.sbuf == n.sbuf + n.up[..k];
    }
  }

  /** Each write is the next stretch of the writer's byte string. */
  lemma ClientSpeaks(c: Client, auth: Auth, password: seq<byte>)
    requires ClientOnTrack(c) && c.Sending()
    ensures var c' := c.AfterSend();
            && ClientOnTrack(c') && ClientTaken(c') == ClientTaken(c) && c'.Need().Some? && c'.Need().value > 0
            && ClientSaid(c) < ClientSaid(c') <= 13
            && c.Output(auth, password) == UP[ClientSaid(c)..ClientSaid(c')]
  {
    Spoken();
  }

  lemma ServerSpeaks(s: Server)
    requires s.Sending()
    ensures var s' := s.AfterSend();
            && !s'.Declined? && ServerTaken(s') == ServerTaken(s) && (s'.Need().Some? ==> s'.Need().value > 0)
            && ServerSaid(s) < ServerSaid(s') <= 18
            && s.Output() == DOWN[ServerSaid(s)..ServerSaid(s')]
  {
    Spoken();
  }

  lemma ClientWriteKeepsInv(n: Net, up: seq<byte>, down: seq<byte>, auth: Auth, password: seq<byte>)
    requires up == UP && |up| == 13 && |down| == 18 && Inv(n, up, down) && Enabled(n, ClientWrite)
    ensures var n' := Next(n, ClientWrite, auth, password); Inv(n', up, down) && Remaining(n') < Remaining(n)
  {
    ClientSpeaks(n.c, auth, password);
    Added(n.sbuf, n.up, up, ServerTaken(n.s), ClientSaid(n.c), ClientSaid(n.c.AfterSend()));
  }

  lemma ServerWriteKeepsInv(n: Net, up: seq<byte>, down: seq<byte>, auth: Auth, password: seq<byte>)
    requires down == DOWN && |up| == 13 && |down| == 18 && Inv(n, up, down) && Enabled(n, ServerWrite)
    ensures var n' := Next(n, ServerWrite, auth, password); Inv(n', up, down) && Remaining(n') < Remaining(n)
  {
    ServerSpeaks(n.s);
    Added(n.cbuf, n.down, down, ClientTaken(n.c), ServerSaid(n.s), ServerSaid(n.s.AfterSend()));
  }

  /** Bytes still to be read and written by both sides: 62 at the start. */
  function Remaining(n: Net): int {
    (18 - ClientTaken(n.c) - |n.cbuf|) + (13 - ClientSaid(n.c))
    + (13 - ServerTaken(n.s) - |n.sbuf|) + (18 - ServerSaid(n.s))
  }

  lemma Step(n: Net, e: Event, auth: Auth, password: seq<byte>)
    requires Inv(n, UP, DOWN) && Enabled(n, e)
    ensures Inv(Next(n, e, auth, password), UP, DOWN)
    ensures Remaining(Next(n, e, auth, password)) < Remaining(n)
  {
    TheScript();
    match e
    case ClientRead(k) => ClientReadKeepsInv(n, k, UP, DOWN, auth, password);
    case ServerRead(k) => ServerReadKeepsInv(n, k, UP, DOWN, auth, password);
    case ClientWrite => ClientWriteKeepsInv(n, UP, DOWN, auth, password);
    case ServerWrite => ServerWriteKeepsInv(n, UP, DOWN, auth, password);
  }

  lemma {:induction false} Run(n: Net, es: seq<Event>, n': Net, auth: Auth, password: seq<byte>)
    requires Inv(n, UP, DOWN) && Reaches(n, es, n', auth, password)
    ensures Inv(n', UP, DOWN) && |es| <= Remaining(n) - Remaining(n')
    decreases |es|
  {
    if es != [] {
      Step(n, es[0], auth, password);
      Run(Next(n, es[0], auth, password), es[1..], n', auth, password);
    }
  }

  /** Somebody can always move until both sides are done, and then nothing is left over. */
  lemma SomeoneMoves(n: Net, up: seq<byte>, down: seq<byte>)
    requires |up| == 13 && |down| == 18 && Inv(n, up, down)
    ensures Remaining(n) >= 0
    ensures n.c.Done? && n.s.Synthesised? <==> forall e :: !Enabled(n, e)
    ensures n.c.Done? && n.s.Synthesised? ==> n.up == [] && n.down == [] && n.cbuf == [] && n.sbuf == []
  {
    assert |n.cbuf| + |n.down| == ServerSaid(n.s) - ClientTaken(n.c);
    assert |n.sbuf| + |n.up| == ClientSaid(n.c) - ServerTaken(n.s);
    if n.c.Sending() {
      assert Enabled(n, ClientWrite);
    } else if n.s.Sending() {
      assert Enabled(n, ServerWrite);
    } else if n.c.Need().Some? && n.down != [] {
      assert Enabled(n, ClientRead(1));
    } else if n.s.Need().Some? && n.up != [] {
      assert Enabled(n, ServerRead(1));
    }
  }

  /** Every run is finite, never fails on either side, and can only stop with both sides done,
      security type None, and both queues empty. */
  lemma HandshakesAgree(es: seq<Event>, n: Net, auth: Auth, password: seq<byte>)
    requires Reaches(START, es, n, auth, password)
    ensures |es| <= 62 && !n.c.Refused? && !n.s.Declined?
    ensures (forall e :: !Enabled(n, e)) <==> n.c == Done(V38, SEC_NONE) && n.s == Synthesised
    ensures n.c.Done? && n.s.Synthesised? ==> n.up == [] && n.down == [] && n.cbuf == [] && n.sbuf == []
  {
    assert Between([], [], DOWN, 0, 0) && Between([], [], UP, 0, 0);
    Run(START, es, n, auth, password);
    SomeoneMoves(n, UP, DOWN);
  }
}
