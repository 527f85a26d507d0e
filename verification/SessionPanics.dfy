/** Exactly when a new session can panic. */
module SessionPanics {
  import opened Bytes
  import opened Session
  import SocksSession
  import opened ProxyRuns
  import opened SessionReuse
  import opened PanicCondition
  import PanicUnreachable
  import opened PanicReachable

  // ---- Exactly when ----

  /** The new session sees the queues as they were. */
  lemma AcceptWaits(t: SocksSession.Ipv6Text, s: System, port: u16)
    requires Possible(s, Accept(port))
    ensures var s', c := Next(t, s, Accept(port)), |s.actors|;
      && Awaits(s', port, c) && Told(s'.actors[c].inbox) == [] && s'.far == s.far
      && Upward(s') == Upward(s) && s'.server.hbIndex == s.server.hbIndex
      && (forall j :: 0 <= j < c ==> s'.actors[j] == s.actors[j])
  {
  }

  lemma PassableAfter(s: System, s': System, port: u16, p: Prospect, n: nat)
    requires n <= |Upward(s)| && Upward(s') == Upward(s) && s'.server.hbIndex == s.server.hbIndex
    ensures WayIsFree(s', p, n) <==> WayIsFree(s, p, n)
  {
  }

  lemma AcceptPassingPanics(t: SocksSession.Ipv6Text, es: seq<Event>, port: u16)
    requires var s := Exec(t, es);
      && Possible(s, Accept(port)) && Coming(s.far.s, port) == [] && s.far.s.fault.NoFault?
      && RequestCanPass(s, port) && FirstAsk(Upward(s), port) < |Upward(s)|
    ensures SomeRunPanics(t, es + [Accept(port)], |Exec(t, es).actors|)
  {
    var s := Exec(t, es);
    var s', n := Next(t, s, Accept(port)), FirstAsk(Upward(s), port);
    AcceptWaits(t, s, port);
    ExecSnoc(t, es, Accept(port));
    PassableAfter(s, s', port, ProspectOf(s.far.s), n);
    PassingPanics(t, es + [Accept(port)], port, |s.actors|, ProspectOf(s.far.s), n);
  }

  lemma AcceptUnsettledPanics(t: SocksSession.Ipv6Text, es: seq<Event>, port: u16, j: nat)
    requires var s := Exec(t, es);
      && Possible(s, Accept(port)) && Coming(s.far.s, port) == [] && s.far.s.fault.NoFault?
      && RequestCanPass(s, port) && FirstAsk(Upward(s), port) == |Upward(s)| && Unsettled(s, port, j)
    ensures SomeRunPanics(t, es + [Accept(port)], |Exec(t, es).actors|)
  {
    var s := Exec(t, es);
    var s', n := Next(t, s, Accept(port)), FirstAsk(Upward(s), port);
    AcceptWaits(t, s, port);
    ExecSnoc(t, es, Accept(port));
    PassableAfter(s, s', port, ProspectOf(s.far.s), n);
    assert s'.actors[j] == s.actors[j];
    UnsettledPanics(t, es + [Accept(port)], port, |s.actors|, j);
  }

  lemma AcceptRequestPanics(t: SocksSession.Ipv6Text, es: seq<Event>, port: u16)
    requires var s := Exec(t, es);
      && Possible(s, Accept(port)) && Coming(s.far.s, port) == [] && s.far.s.fault.NoFault?
      && RequestCanPass(s, port)
    ensures SomeRunPanics(t, es + [Accept(port)], |Exec(t, es).actors|)
  {
    var s := Exec(t, es);
    if FirstAsk(Upward(s), port) < |Upward(s)| {
      AcceptPassingPanics(t, es, port);
    } else {
      var j: nat :| j < |s.actors| && Unsettled(s, port, j);
      AcceptUnsettledPanics(t, es, port, j);
    }
  }

  lemma AcceptPanics(t: SocksSession.Ipv6Text, es: seq<Event>, port: u16)
    requires Possible(Exec(t, es), Accept(port)) && CanPanic(Exec(t, es), port)
    ensures SomeRunPanics(t, es + [Accept(port)], |Exec(t, es).actors|)
  {
    var s, c := Exec(t, es), |Exec(t, es).actors|;
    AcceptWaits(t, s, port);
    ExecSnoc(t, es, Accept(port));
    if Coming(s.far.s, port) != [] {
      DoomedPanics(t, es + [Accept(port)], port, c);
    } else if Dialing(s.far.s.dials, port) != [] {
      DialingPanics(t, es + [Accept(port)], port, c);
    } else {
      AcceptRequestPanics(t, es, port);
    }
  }

  /** Whatever has happened to a port before it is accepted again: some continuation panics the new
      session if and only if the first thing to reach it can be an outcome. */
  lemma {:induction false} ReusedPortPanicsExactly(t: SocksSession.Ipv6Text, es: seq<Event>, port: u16)
    requires Possible(Exec(t, es), Accept(port))
    ensures SomeRunPanics(t, es + [Accept(port)], |Exec(t, es).actors|) <==> CanPanic(Exec(t, es), port)
  {
    if CanPanic(Exec(t, es), port) {
      AcceptPanics(t, es, port);
    } else {
      forall more ensures !PanicsAfter(t, es + [Accept(port)] + more, |Exec(t, es).actors|) {
        PanicUnreachable.NoPanicOtherwise(t, es, port, more);
      }
    }
  }
}
