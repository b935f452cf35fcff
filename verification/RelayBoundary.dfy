/** Where the relay begins: the bytes the server handshake took are exactly one accepted handshake. */
module RelayBoundary {
  import opened Bytes
  import opened Stream
  import opened RelayLink
  import opened Relay
  import opened RelayInvariant
  import opened RelayWindow
  import Hs = RfbHandshake

  /** The client automaton on a stream, without what it writes. */
  function Outcome(c: Hs.Client, s: seq<byte>, auth: Hs.Auth, password: seq<byte>): (Hs.Client, seq<byte>) {
    var ran := Hs.RunClient(c, s, Eof, auth, password);
    (ran.final, ran.left)
  }

  /** Whatever follows, reading on from here is running the automaton on everything taken so far; past the
      handshake, that run has succeeded and left exactly what follows. */
  ghost predicate OnBoundary(d: Down, auth: Hs.Auth, password: seq<byte>) {
    match d.pc
    case Greeting(c, buf) =>
      forall rest: seq<byte> :: Outcome(Hs.AwaitVersion, d.greeted + rest, auth, password)
          == Outcome(c, buf + rest, auth, password)
    case Stopped(_) => true
    case _ =>
      forall rest: seq<byte> ::
        var o := Outcome(Hs.AwaitVersion, d.greeted + rest, auth, password); o.0.Done? && o.1 == rest
  }

  lemma ReadStays(d: Down, b: seq<byte>, d': Down, auth: Hs.Auth, password: seq<byte>)
    requires OnBoundary(d, auth, password) && d.pc.Greeting?
    requires d'.pc == Greeting(d.pc.c, d.pc.buf + b) && d'.greeted == d.greeted + b
    ensures OnBoundary(d', auth, password)
  {
    forall rest: seq<byte>
      ensures Outcome(Hs.AwaitVersion, d'.greeted + rest, auth, password)
          == Outcome(d.pc.c, d'.pc.buf + rest, auth, password)
    {
      Assoc(d.greeted, b, rest);
      Assoc(d.pc.buf, b, rest);
    }
  }

  lemma FeedStays(d: Down, d': Down, auth: Hs.Auth, password: seq<byte>)
    requires OnBoundary(d, auth, password) && d.pc.Greeting? && d.pc.c.Need() == Some(|d.pc.buf|)
    requires d'.pc == Greeting(d.pc.c.Feed(d.pc.buf), []) && d'.greeted == d.greeted
    ensures OnBoundary(d', auth, password)
  {
    forall rest: seq<byte>
      ensures Outcome(Hs.AwaitVersion, d.greeted + rest, auth, password) == Outcome(d'.pc.c, [] + rest, auth, password)
    {
      Hs.ReadStep(d.pc.c, d.pc.buf, rest, Eof, auth, password);
      assert [] + rest == rest;
    }
  }

  lemma WriteStays(d: Down, d': Down, auth: Hs.Auth, password: seq<byte>)
    requires OnBoundary(d, auth, password) && d.pc.Greeting? && d.pc.c.Sending() && d.pc.buf == []
    requires d'.pc == Greeting(d.pc.c.AfterSend(), []) && d'.greeted == d.greeted
    ensures OnBoundary(d', auth, password)
  {
  }

  lemma BatchArrives(d: Down, d': Down, auth: Hs.Auth, password: seq<byte>)
    requires OnBoundary(d, auth, password) && d.pc.Greeting? && d.pc.c.Done? && d.pc.buf == []
    requires d'.pc.Fronting? && d'.greeted == d.greeted
    ensures OnBoundary(d', auth, password)
  {
    forall rest: seq<byte>
      ensures var o := Outcome(Hs.AwaitVersion, d.greeted + rest, auth, password); o.0.Done? && o.1 == rest
    {
      assert [] + rest == rest;
    }
  }

  /** Nothing is collected between reads. */
  predicate Tidy(pc: DownPc) {
    pc.Greeting? && pc.c.Need().None? ==> pc.buf == []
  }

  lemma SetupStays(s: State, e: SetupStep, auth: Hs.Auth, password: seq<byte>)
    requires SetupEnabled(s, e) && OnBoundary(s.down, auth, password) && Tidy(s.down.pc)
    requires s.down.pc.Greeting? ==> s.down.greeted == s.tcp.taken
    requires e.ReadServer? ==> TakesWell(s.tcp, WantsServer(s.down.pc))
    ensures OnBoundary(SetupNext(s, e).down, auth, password) && Tidy(SetupNext(s, e).down.pc)
  {
    var d' := SetupNext(s, e).down;
    match e
    case ReadServer => ReadStays(s.down, Take(s.tcp, WantsServer(s.down.pc)).0, d', auth, password);
    case FeedServer => FeedStays(s.down, d', auth, password);
    case WriteServer => WriteStays(s.down, d', auth, password);
    case Batch => BatchArrives(s.down, d', auth, password);
    case _ =>
  }

  lemma OthersStay(cfg: Config, s: State, e: Event, auth: Hs.Auth, password: seq<byte>)
    requires Enabled(s, e) && !e.SetUp? && OnBoundary(s.down, auth, password) && Tidy(s.down.pc)
    ensures OnBoundary(Next(cfg, s, e).down, auth, password) && Tidy(Next(cfg, s, e).down.pc)
  {
    var d, d' := s.down, Next(cfg, s, e).down;
    assert d' == d || d'.pc.Stopped?
           || (!d.pc.Greeting? && !d.pc.Stopped? && !d'.pc.Greeting? && d'.greeted == d.greeted);
  }

  lemma {:induction false} RunStays(cfg: Config, s: State, es: seq<Event>, s': State, auth: Hs.Auth,
                                    password: seq<byte>)
    requires Inv(cfg, s) && OnBoundary(s.down, auth, password) && Tidy(s.down.pc) && Reaches(cfg, s, es, s')
    ensures OnBoundary(s'.down, auth, password)
    decreases |es|
  {
    if es != [] {
      StepKeepsInv(cfg, s, es[0]);
      if es[0].SetUp? {
        SetupReads(s, es[0].setup);
        SetupStays(s, es[0].setup, auth, password);
      } else {
        OthersStay(cfg, s, es[0], auth, password);
      }
      RunStays(cfg, Next(cfg, s, es[0]), es[1..], s', auth, password);
    }
  }

  /** In every reachable state past the server handshake the bytes it took are, to the byte, a version line
      of at least 3.8, a security list, a challenge exactly if VNCAuth was offered, and a zero result:
      what RelayIntegrity relays starts with ServerInit. */
  lemma BoundaryExact(cfg: Config, s: State) returns (v: Hs.Version.Version, types: seq<byte>, challenge: seq<byte>)
    requires Reachable(cfg, s) && AfterHandshake(s)
    ensures Hs.Accepting(s.down.greeted, v, types, challenge, [])
  {
    var auth: Hs.Auth, password := (p, c) => c, [];
    var es :| Reaches(cfg, INIT, es, s);
    assert Concat([]) == [];
    assert forall rest: seq<byte> :: [] + rest == rest;
    RunStays(cfg, INIT, es, s, auth, password);
    var o := Outcome(Hs.AwaitVersion, s.down.greeted + [], auth, password);
    assert s.down.greeted + [] == s.down.greeted;
    types, challenge := Hs.SuccessIsAccepting(s.down.greeted, Eof, auth, password);
    v := o.0.v;
  }
}
