/** The Session object as its own goroutine sees it: each method is the source's sequence of lock
    regions and host calls, and between any two of them a teardown may run (Interfere). */
module SessionObject {
  import opened Bytes
  import opened Session

  class LiveSession {
    var tcpChannel: Option<Chan>
    var embedChannel: Option<Chan>
    var torndown: bool
    var lifecycle: Lifecycle
    /** Every state told to the web process, in order. */
    var reports: seq<Lifecycle>
    /** Channels the host has open for this session. */
    var hostOpen: set<Chan>
    var nextId: nat
    /** An abstract clock that never runs backwards. */
    var now: nat
    /** Connects begun by the reconnect loop, in all and when the session was torn down. */
    var attempts: nat
    var tornAt: nat
    const password: array<byte>
    const reconnectWindow: nat
    const reconnectBackoff: nat

    constructor (password: array<byte>, window: nat, backoff: nat)
      ensures this.password == password && reconnectWindow == window && reconnectBackoff == backoff
      ensures tcpChannel.None? && embedChannel.None? && hostOpen == {} && !torndown && lifecycle == Connecting
      ensures reports == []
    {
      this.password, reconnectWindow, reconnectBackoff := password, window, backoff;
      tcpChannel, embedChannel, hostOpen, torndown, lifecycle := None, None, {}, false, Connecting;
      nextId, now, attempts, tornAt, reports := 0, 0, 0, 0, [];
    }

    predicate Covered()
      reads this
    {
      hostOpen <= Only(tcpChannel) + Only(embedChannel)
    }

    /** A session stays torn down, and the time of its teardown is that of the first. */
    predicate TornDown(before: bool, at: nat)
      reads this
    {
      if before then torndown && tornAt == at else torndown ==> tornAt == attempts
    }

    /** clear(password): in place, so no copy of the bytes survives in the buffer. */
    method ClearPassword()
      modifies password
      ensures forall i :: 0 <= i < password.Length ==> password[i] == 0
    {
      for i := 0 to password.Length
        invariant forall j :: 0 <= j < i ==> password[j] == 0
      {
        password[i] := 0;
      }
    }

    method CloseChannel(c: Option<Chan>)
      modifies this`hostOpen
      ensures hostOpen == old(hostOpen) - Only(c)
    {
      hostOpen := hostOpen - Only(c);
    }

    /** What another goroutine's teardown may do meanwhile; time passes too. */
    method Interfere()
      modifies this`torndown, this`tornAt, this`hostOpen, this`now, password
      ensures TornDown(old(torndown), old(tornAt))
      ensures hostOpen <= old(hostOpen) && old(now) <= now
    {
      var teardown: bool := *;
      if teardown {
        Teardown();
      }
      var later: nat :| true;
      now := now + later;
    }

    method Teardown()
      modifies this`torndown, this`tornAt, this`hostOpen, password
      ensures torndown && tornAt == if old(torndown) then old(tornAt) else attempts
      ensures old(torndown) ==> hostOpen == old(hostOpen) && password[..] == old(password[..])
      ensures !old(torndown) ==> hostOpen == old(hostOpen) - Only(tcpChannel) - Only(embedChannel)
                                 && forall i :: 0 <= i < password.Length ==> password[i] == 0
      ensures !old(torndown) && old(Covered()) ==> hostOpen == {}
    {
      if torndown {
        return;
      }
      torndown, tornAt := true, attempts;
      ClearPassword();
      CloseChannel(tcpChannel);
      CloseChannel(embedChannel);
    }

    method CloseChannels()
      requires Covered()
      modifies this`tcpChannel, this`embedChannel, this`torndown, this`tornAt, this`hostOpen, this`now, password
      ensures tcpChannel.None? && embedChannel.None? && hostOpen == {}
      ensures TornDown(old(torndown), old(tornAt))
      ensures old(now) <= now
    {
      var tcp, embed := tcpChannel, embedChannel;
      tcpChannel, embedChannel := None, None;
      Interfere();
      CloseChannel(tcp);
      Interfere();
      CloseChannel(embed);
    }

    /** One channel.open: the host picks an id it never used before. */
    method OpenChannel(p: Purpose) returns (c: Option<Chan>)
      modifies this`hostOpen, this`nextId
      ensures c.None? ==> hostOpen == old(hostOpen)
      ensures c.Some? ==> c.value.purpose == p && c.value.id == old(nextId) && hostOpen == old(hostOpen) + {c.value}
      ensures c.Some? ==> nextId > c.value.id
      ensures nextId >= old(nextId)
    {
      var ok: bool := *;
      if !ok {
        return None;
      }
      c := Some(Chan(nextId, p));
      hostOpen, nextId := hostOpen + {c.value}, nextId + 1;
    }

    /** Success leaves both channels in the fields; failure leaves either both there, or none and
        nothing open. In between, never more than these two are open. It succeeds exactly if both channels
        open, the embed surface is registered and the relay starts. */
    method ConnectAndRelay() returns (ok: bool, ghost registered: bool, ghost started: bool)
      requires tcpChannel.None? && embedChannel.None? && hostOpen == {}
      modifies this`tcpChannel, this`embedChannel, this`torndown, this`tornAt, this`hostOpen, this`nextId, this`now,
          password
      ensures Covered()
      ensures ok <==> tcpChannel.Some? && embedChannel.Some? && registered && started
      ensures tcpChannel.Some? ==> tcpChannel.value.purpose == TcpRelay
      ensures tcpChannel.Some? ==> embedChannel.Some? && embedChannel.value.purpose == EmbedStream
      ensures tcpChannel.None? ==> embedChannel.None? && hostOpen == {}
      ensures TornDown(old(torndown), old(tornAt))
      ensures old(now) <= now
    {
      var tcp := OpenChannel(TcpRelay);
      if tcp.None? {
        return false, false, false;
      }
      Interfere();
      var embed := OpenChannel(EmbedStream);
      if embed.None? {
        CloseChannel(tcp);
        return false, false, false;
      }
      Interfere();
      tcpChannel, embedChannel := tcp, embed;
      Interfere();
      var embedded: bool, relaying: bool := *, *;
      registered, started := embedded, relaying;
      ok := embedded && relaying;
    }

    method UpdateState(st: Lifecycle)
      modifies this`lifecycle, this`reports
      ensures lifecycle == st && reports == old(reports) + [st]
    {
      lifecycle, reports := st, reports + [st];
    }

    /** Attempts the window leaves room for: window / backoff, rounded up. */
    predicate WithinBudget(n: nat) {
      n > 0 ==> (n - 1) * reconnectBackoff < reconnectWindow
    }

    /** What n attempts tell the web process before their outcome. */
    function Told(n: nat): seq<Lifecycle> {
      seq(n, _ => Connecting)
    }

    /** The loop ends, makes no more attempts than the window has room for, begins at most one more once a
        teardown has come in between, and reports connecting before each attempt, and ready once, last, and
        only with both channels in place. It gives up for no reason but a teardown, a cancelled context or
        the end of the window. */
    method Reconnect() returns (ok: bool, ghost cancelled: bool)
      requires Covered() && reconnectBackoff > 0
      modifies this, password
      ensures Covered()
      ensures ok ==> lifecycle == Ready && tcpChannel.Some? && embedChannel.Some?
      ensures old(torndown) ==> torndown && !ok && attempts == old(attempts)
      ensures attempts >= old(attempts) && WithinBudget(attempts - old(attempts))
      ensures reports == old(reports) + Told(attempts - old(attempts)) + (if ok then [Ready] else [])
      ensures torndown && !old(torndown) ==> attempts <= tornAt + 1
      ensures !ok && !torndown && !cancelled ==> now >= old(now) + reconnectWindow
    {
      cancelled := false;
      var deadline := now + reconnectWindow;
      while now < deadline
        invariant Covered() && (old(torndown) ==> torndown && attempts == old(attempts))
        invariant torndown && !old(torndown) ==> attempts <= tornAt + 1
        invariant attempts >= old(attempts) && WithinBudget(attempts - old(attempts))
        invariant reports == old(reports) + Told(attempts - old(attempts))
        invariant now >= old(now) + (attempts - old(attempts)) * reconnectBackoff
        decreases deadline - now
      {
        if torndown {
          return false, false;
        }
        ghost var tries := attempts - old(attempts);
        UpdateState(Connecting);
        CloseChannels();
        attempts := attempts + 1;
        ghost var begun := now;
        var connected, _, _ := ConnectAndRelay();
        if connected {
          UpdateState(Ready);
          return true, false;
        }
        var stop: bool := *;
        if stop {
          return false, true;
        }
        now := now + reconnectBackoff;
        assert (tries + 1) * reconnectBackoff == tries * reconnectBackoff + reconnectBackoff;
      }
      return false, false;
    }

    /** A lost relay is reconnected or the session ends in the error state, torn down. Giving up leaves
        nothing open at the host, unless another teardown came first (intervened): then this one does
        nothing, and a channel stored after the first may stay open. */
    method ReportRelayEnded() returns (reconnected: bool, ghost intervened: bool)
      requires Covered() && reconnectBackoff > 0
      modifies this, password
      ensures Covered()
      ensures old(torndown) ==> lifecycle == old(lifecycle) && hostOpen == old(hostOpen) && attempts == old(attempts)
      ensures !old(torndown) ==> if reconnected then lifecycle == Ready else lifecycle == Error && torndown
      ensures !old(torndown) && !reconnected && !intervened ==> hostOpen == {} && tornAt == attempts
      ensures intervened ==> torndown && attempts <= tornAt + 1
      ensures attempts >= old(attempts) && WithinBudget(attempts - old(attempts))
      ensures reports == old(reports) + Told(attempts - old(attempts))
                         + (if old(torndown) then [] else [if reconnected then Ready else Error])
    {
      intervened := false;
      if torndown {
        return false, false;
      }
      var again, _ := Reconnect();
      reconnected := again;
      intervened := torndown;
      if reconnected {
        return;
      }
      UpdateState(Error);
      Teardown();
    }
  }

  /** As shipped, a 30 s window and a 2 s backoff allow 15 attempts and no more; in general n
      attempts fit exactly if n - 1 backoffs are shorter than the window. */
  lemma AttemptBudget(s: LiveSession, n: nat)
    requires s.reconnectBackoff > 0
    ensures s.WithinBudget(n) <==> n <= (s.reconnectWindow + s.reconnectBackoff - 1) / s.reconnectBackoff
    ensures s.reconnectWindow == 30 && s.reconnectBackoff == 2 ==> (s.WithinBudget(n) <==> n <= 15)
  {
    CeilingBound(n, s.reconnectWindow, s.reconnectBackoff);
  }

  lemma CeilingBound(n: nat, w: nat, b: nat)
    requires b > 0
    ensures (n == 0 || (n - 1) * b < w) <==> n <= (w + b - 1) / b
  {
    var q, r := (w + b - 1) / b, (w + b - 1) % b;
    assert w + b - 1 == b * q + r;
    if n <= q && n > 0 {
      Times(b, n - 1, q - 1);
    } else if n > q {
      Times(b, q, n - 1);
    }
  }

  lemma Times(k: nat, a: int, b: int)
    requires a <= b
    ensures k * a <= k * b
  {
    assert k * b - k * a == k * (b - a);
  }
}
