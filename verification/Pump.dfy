/** Connecting the two handshakes and the server-to-browser pump. */
module Pump {
  import opened Bytes
  import opened Stream
  import opened Coupling
  import opened RfbHandshake

  const SERVER_TO_BROWSER_BUF: Positive := 32 * 1024

  // ---- handshakes ----

  datatype SetupError = ServerHandshake(e: HandshakeError) | BrowserHandshake(e: HandshakeError)

  /** The server handshake, one batch of credit for what it consumed, then the browser handshake, all under
      a deadline that is lifted again however they end. */
  method DoHandshakes(tcp: Conn, embed: Conn, password: seq<byte>, auth: Auth) returns (err: Option<SetupError>)
    requires tcp != embed
    modifies tcp, embed`frames, embed`readBuf, embed`sent, embed`broken, embed`deadline
    ensures !tcp.deadline && !embed.deadline
    ensures var server := RunClient(AwaitVersion, old(tcp.Unread()), tcp.fate, auth, password);
            var browser := RunServer(GreetBrowser, old(embed.Unread()), embed.fate);
            match err
            case None =>
              && server.final.Done? && tcp.Unread() == server.left && tcp.Written() == old(tcp.Written()) + server.wrote
              && browser.final.Synthesised? && embed.Unread() == browser.left
              && embed.Written() == old(embed.Written()) + browser.wrote
              && tcp.granted == old(tcp.granted) + 4
            case Some(ServerHandshake(e)) =>
              && Reports(server, Failure(e), old(tcp.Written()), tcp.Written(), tcp.Unread())
              && tcp.granted == old(tcp.granted)
              && embed.Written() == old(embed.Written()) && embed.Unread() == old(embed.Unread())
            case Some(BrowserHandshake(e)) =>
              && server.final.Done? && tcp.Unread() == server.left && tcp.Written() == old(tcp.Written()) + server.wrote
              && tcp.granted == old(tcp.granted) + 4
              && FrontReports(browser, Some(e), old(embed.Written()), embed.Written(), embed.Unread())
  {
    tcp.SetDeadline(true);
    embed.SetDeadline(true);
    var server := Handshake(tcp, password, auth);
    if server.Failure? {
      err := Some(ServerHandshake(server.error));
    } else {
      tcp.GrantCredit(TCP_RELAY_INITIAL_CREDIT);
      var browser := Frontshake(embed);
      err := if browser.Some? then Some(BrowserHandshake(browser.value)) else None;
    }
    tcp.SetDeadline(false);
    embed.SetDeadline(false);
  }

  // ---- server to browser ----

  datatype PumpEnd = GateStopped | WriteToEmbed(write: WriteError) | ServerClosed | ReadFailed(read: ReadError)

  /** Reads it takes to drain a payload; none for an empty one. */
  function ReadsFor(payload: seq<byte>): nat {
    |Split(payload, SERVER_TO_BROWSER_BUF)|
  }

  function Reads(buf: seq<byte>, frames: seq<seq<byte>>): nat
    decreases |frames|
  {
    ReadsFor(buf) + if frames == [] then 0 else Reads(frames[0], frames[1..])
  }

  /** Draining frames of 1 to 32 KiB takes exactly one read, hence one grant, per frame. */
  lemma {:induction false} OneReadPerSmallFrame(buf: seq<byte>, frames: seq<seq<byte>>)
    requires forall f :: f in frames ==> 0 < |f| <= 32768
    requires |buf| <= 32768
    ensures Reads(buf, frames) == |frames| + if buf == [] then 0 else 1
    decreases |frames|
  {
    if frames != [] {
      OneReadPerSmallFrame(frames[0], frames[1..]);
    }
  }

  lemma OneReadLess(buf: seq<byte>, frames: seq<seq<byte>>)
    requires buf != []
    ensures Reads(TakeFrom(buf, SERVER_TO_BROWSER_BUF).1, frames) == Reads(buf, frames) - 1
  {
    var n := Min(SERVER_TO_BROWSER_BUF, |buf|);
    SplitStep(buf, SERVER_TO_BROWSER_BUF, n);
  }

  lemma {:induction false} SkipEmpty(frames: seq<seq<byte>>, i: nat)
    requires FirstPayload(frames, i)
    ensures Reads([], frames) == Reads(frames[i], frames[i + 1..])
    decreases i
  {
    if i > 0 {
      SkipEmpty(frames[1..], i - 1);
      assert frames[1..][i - 1 + 1..] == frames[i + 1..];
    }
  }

  lemma {:induction false} NothingToRead(buf: seq<byte>, frames: seq<seq<byte>>)
    requires buf + Concat(frames) == []
    ensures Reads(buf, frames) == 0
    decreases |frames|
  {
    if frames != [] {
      NothingToRead(frames[0], frames[1..]);
    }
  }

  /** What one Read does to the number of reads still needed. */
  lemma ReadCounts(readBuf: seq<byte>, frames: seq<seq<byte>>, b: seq<byte>, readBuf': seq<byte>,
                   frames': seq<seq<byte>>)
    requires readBuf != [] ==> (b, readBuf') == TakeFrom(readBuf, SERVER_TO_BROWSER_BUF) && frames' == frames
    requires readBuf == [] ==> exists i: nat :: FirstPayload(frames, i)
                                 && (b, readBuf') == TakeFrom(frames[i], SERVER_TO_BROWSER_BUF)
                                 && frames' == frames[i + 1..]
    ensures Reads(readBuf', frames') == Reads(readBuf, frames) - 1
  {
    if readBuf != [] {
      OneReadLess(readBuf, frames);
    } else {
      var i: nat :| FirstPayload(frames, i)
                    && (b, readBuf') == TakeFrom(frames[i], SERVER_TO_BROWSER_BUF) && frames' == frames[i + 1..];
      SkipEmpty(frames, i);
      OneReadLess(frames[i], frames[i + 1..]);
    }
  }

  /** Everything read from the server goes to the browser, in order and unchanged, and each read gives one
      credit back, except the read whose write failed. The pump ends with nothing read but unrelayed unless
      a write failed. */
  method PumpServerToBrowser(tcp: Conn, embed: Conn, capacity: int) returns (end: PumpEnd)
    requires tcp != embed
    modifies tcp`frames, tcp`readBuf, tcp`granted, embed`sent, embed`broken
    ensures old(embed.Written()) <= embed.Written() <= old(embed.Written()) + old(tcp.Unread())
    ensures !end.WriteToEmbed? ==>
              && embed.Written() + tcp.Unread() == old(embed.Written()) + old(tcp.Unread())
              && tcp.granted + Reads(tcp.readBuf, tcp.frames) == old(tcp.granted) + old(Reads(tcp.readBuf, tcp.frames))
    ensures end.WriteToEmbed? ==>
              tcp.granted + Reads(tcp.readBuf, tcp.frames) + 1 == old(tcp.granted) + old(Reads(tcp.readBuf, tcp.frames))
    ensures end.ServerClosed? || end.ReadFailed? ==> tcp.Unread() == [] && (end.ServerClosed? <==> tcp.fate == Eof)
  {
    while true
      invariant embed.Written() + tcp.Unread() == old(embed.Written()) + old(tcp.Unread())
      invariant old(embed.Written()) <= embed.Written()
      invariant tcp.granted + Reads(tcp.readBuf, tcp.frames) == old(tcp.granted) + old(Reads(tcp.readBuf, tcp.frames))
      decreases |tcp.Unread()|
    {
      var clear: bool, remaining: int, hasCredit: bool := *, *, *;
      if !clear {
        return GateStopped;
      }
      ghost var written, unread, readBuf, frames := embed.Written(), tcp.Unread(), tcp.readBuf, tcp.frames;
      var buf, readErr := tcp.Read(SERVER_TO_BROWSER_BUF);
      if readErr.Some? {
        NothingToRead(readBuf, frames);
        NothingToRead(tcp.readBuf, tcp.frames);
        return if readErr.value == Ended(Eof) then ServerClosed else ReadFailed(readErr.value);
      }
      ReadCounts(readBuf, frames, buf, tcp.readBuf, tcp.frames);
      Assoc(written, buf, tcp.Unread());
      var n, err := embed.Write(buf);
      if err.Some? {
        return WriteToEmbed(err.value);
      }
      CouplingGrantIsOne(remaining, hasCredit, capacity);
      tcp.GrantCredit(CouplingGrant(remaining, hasCredit, capacity));
    }
  }
}
