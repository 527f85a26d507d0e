/** The main results about whole runs of the system, under every interleaving. */
module SessionTheorems {
  import opened Bytes
  import opened Messages
  import opened Sequences
  import opened Session
  import Aead
  import FrameCodec
  import FrameStream
  import SocksMessages
  import SocksReplies
  import SocksRequests
  import SocksSession
  import LocalServer
  import ProxySide
  import opened ProxyRuns
  import SessionLinks
  import SessionRouting
  import opened SessionActors

  /** Everything that holds of all uuids. */
  predicate Sound(s: System) {
    && SessionLinks.Linked(s) && SessionLinks.Numbered(s) && SessionLinks.Timed(s)
    && SessionRouting.Routed(s) && ActorsOk(s) && SuccessSeen(s) && DataExplained(s)
    && RequestsAsked(s) && DialsAsked(s)
  }

  /** What holds of a uuid. */
  ghost predicate Counted(s: System, u: u16) {
    && Good(s.far, u)
    && SessionLinks.Submitted(s, RequestFor(u))
    && SessionLinks.Submitted(s, DataFor(u))
    && OneRequestEach(s, u)
  }

  /** What holds of a session whose uuid is unshared. */
  predicate Private(s: System, c: nat) {
    Alone(s, c) ==> Addressed(s, c)
  }

  /** Every request of a uuid is somewhere on its way up, being dialled, or its outcome on its way down. */
  lemma RequestsSomewhere(s: System, u: u16)
    requires SessionLinks.Linked(s) && SessionLinks.Submitted(s, RequestFor(u)) && Good(s.far, u)
    ensures |Requests(s.log.requested, u)|
      == |FlatMap(SessionLinks.Via(RequestFor(u)), s.mailbox)| + |Requests(s.server.writer, u)|
       + |Dialing(s.far.s.dials, u)| + |WaitingOutcomes(s.far.s.mailbox, u)|
       + |Outcomes(s.far.s.outbox, u)| + |Outcomes(s.log.received, u)|
  {
    FlatMapConcat(RequestFor(u), s.far.log.consumed, s.server.writer);
    FlatMapConcat(OutcomeFor(u), s.log.received, s.far.s.outbox);
  }

  /** A session whose uuid is unshared has sent its request if an outcome has been received for it. */
  lemma OutcomeMeansReady(s: System, c: nat)
    requires Alone(s, c) && c < |s.actors| && SessionLinks.Linked(s) && Counted(s, s.actors[c].s.uuid)
    ensures |Requests(s.far.log.consumed, s.actors[c].s.uuid)| <= 1
    ensures |Outcomes(s.log.received, s.actors[c].s.uuid)|
      <= if s.actors[c].phase == SocksRequests.READY then 1 else 0
  {
    var u := s.actors[c].s.uuid;
    RequestsSomewhere(s, u);
    OnlyReady(s, c);
    FlatMapConcat(RequestFor(u), s.far.log.consumed, s.server.writer);
  }

  lemma SoundStep(t: SocksSession.Ipv6Text, s: System, e: Event)
    requires Sound(s) && Possible(s, e) && SuccessImpliesInserted(s.far)
    ensures Sound(Next(t, s, e))
  {
    SessionLinks.LinkedStep(t, s, e);
    SessionLinks.NumberedStep(t, s, e);
    SessionLinks.TimedStep(t, s, e);
    SessionRouting.RoutedStep(t, s, e);
    ActorsOkStep(t, s, e);
    SuccessSeenStep(t, s, e);
    DataExplainedStep(t, s, e);
    RequestsAskedStep(t, s, e);
    DialsAskedStep(t, s, e);
  }

  /** What an event does at the far end. */
  function FarEvent(s: System, e: Event): Option<ProxySide.Event>
    requires Possible(s, e)
  {
    match e
    case Far(f) => Some(f)
    case DeliverRequest(w) => Some(ProxySide.Consume(s.server.writer[0], w))
    case DeliverReply => Some(ProxySide.Flush)
    case _ => None
  }

  lemma FarMoves(t: SocksSession.Ipv6Text, s: System, e: Event)
    requires Possible(s, e)
    ensures Next(t, s, e).far ==
      if FarEvent(s, e).Some? then ProxySide.Next(s.far, FarEvent(s, e).value) else s.far
  {
  }

  lemma FarGoodStep(t: SocksSession.Ipv6Text, s: System, e: Event, u: u16)
    requires Good(s.far, u) && Possible(s, e)
    ensures Good(Next(t, s, e).far, u)
  {
    FarMoves(t, s, e);
    if FarEvent(s, e).Some? {
      GoodStep(s.far, FarEvent(s, e).value, u);
    }
  }

  lemma SubmittedBothStep(t: SocksSession.Ipv6Text, s: System, e: Event, u: u16)
    requires SessionLinks.Submitted(s, RequestFor(u)) && SessionLinks.Submitted(s, DataFor(u)) && Possible(s, e)
    ensures SessionLinks.Submitted(Next(t, s, e), RequestFor(u)) && SessionLinks.Submitted(Next(t, s, e), DataFor(u))
  {
    SessionLinks.SubmittedStep(t, s, e, RequestFor(u));
    DataSubmittedStep(t, s, e, u);
  }

  lemma DataSubmittedStep(t: SocksSession.Ipv6Text, s: System, e: Event, u: u16)
    requires SessionLinks.Submitted(s, DataFor(u)) && Possible(s, e)
    ensures SessionLinks.Submitted(Next(t, s, e), DataFor(u))
  {
    SessionLinks.SubmittedStep(t, s, e, DataFor(u));
  }

  lemma CountedStep(t: SocksSession.Ipv6Text, s: System, e: Event, u: u16)
    requires Counted(s, u) && Possible(s, e)
    ensures Counted(Next(t, s, e), u)
  {
    FarGoodStep(t, s, e, u);
    SubmittedBothStep(t, s, e, u);
    OneRequestEachStep(t, s, e, u);
  }

  lemma PrivateStep(t: SocksSession.Ipv6Text, s: System, e: Event, c: nat)
    requires Private(s, c) && Possible(s, e) && SessionLinks.Linked(s) && SessionRouting.Routed(s)
    ensures Private(Next(t, s, e), c)
  {
    if Alone(Next(t, s, e), c) {
      AloneBefore(t, s, e, c);
      AddressedStep(t, s, e, c);
    }
  }

  lemma InitIsSound(c: nat)
    ensures Sound(INIT) && Private(INIT, c)
  {
    assert SessionLinks.UpTo(0) == [];
  }

  lemma InitIsCounted(u: u16)
    ensures Counted(INIT, u)
  {
    RunsAreGood([], u);
  }

  lemma {:induction false} RunsAreSound(t: SocksSession.Ipv6Text, es: seq<Event>, u: u16, c: nat)
    ensures Sound(Exec(t, es)) && Counted(Exec(t, es), u) && Private(Exec(t, es), c)
  {
    if es == [] {
      InitIsSound(c);
      InitIsCounted(u);
    } else {
      var s, e := Exec(t, es[..|es| - 1]), es[|es| - 1];
      RunsAreSound(t, es[..|es| - 1], u, c);
      if Possible(s, e) {
        SoundStep(t, s, e);
        CountedStep(t, s, e, u);
        PrivateStep(t, s, e, c);
      }
    }
  }

  // ---- Routing, even with uuid reuse ----

  /** In every reachable state all traffic is addressed to 0 or to a known session, of a kind its
      receiver expects; no routing panic has happened and none can. */
  lemma {:induction false} RoutingSafe(t: SocksSession.Ipv6Text, es: seq<Event>)
    ensures var s := Exec(t, es);
      && SessionRouting.Routed(s)
      && s.status != RoutingFailed
      && s.far.s.fault != ProxySide.UnexpectedResponse
      && (s.far.s.outbox != [] ==>
            LocalServer.OnResponse(s.server, s.far.s.outbox[0], s.now).1 != LocalServer.RoutingPanic)
  {
    RunsAreSound(t, es, 0, 0);
    if Exec(t, es).far.s.outbox != [] {
      SessionRouting.NextReplyRoutes(Exec(t, es));
    }
  }

  // ---- Heartbeats ----

  /** The echoes received are numbered from one without gap, and the rest are in the pipes. */
  lemma {:induction false} HeartbeatsInOrder(t: SocksSession.Ipv6Text, es: seq<Event>)
    ensures var s := Exec(t, es);
      Beats(s.log.received) + Beats(s.far.s.outbox) + Beats(s.server.writer)
      == SessionLinks.UpTo(s.server.hbIndex)
  {
    RunsAreSound(t, es, 0, 0);
    var s := Exec(t, es);
    FlatMapConcat(BeatIn(), s.far.log.consumed, s.server.writer);
    FlatMapConcat(BeatIn(), s.log.received, s.far.s.outbox);
  }

  /** However long the far end is silent, at most four ticks post a heartbeat between two echoes, five
      seconds apart and none later than fifteen seconds after the echo. */
  lemma {:induction false} AtMostFourHeartbeats(t: SocksSession.Ipv6Text, es: seq<Event>)
    ensures var log := Exec(t, es).log;
      && log.sinceEcho <= 4
      && (log.sinceEcho > 0 ==> 5_000 * (log.sinceEcho - 1) <= log.lastPost - log.lastEcho <= 15_000)
  {
    RunsAreSound(t, es, 0, 0);
  }

  /** A tick posts a heartbeat if and only if the last echo was taken at most fifteen seconds ago. */
  lemma {:induction false} TickPostsExactly(t: SocksSession.Ipv6Text, es: seq<Event>)
    requires Possible(Exec(t, es), Tick)
    ensures var s := Exec(t, es);
      Exec(t, es + [Tick]).mailbox == if s.now - s.log.lastEcho <= 15_000 then s.mailbox + [Beat] else s.mailbox
  {
    RunsAreSound(t, es, 0, 0);
    TickHere(Exec(t, es));
    ExecSnoc(t, es, Tick);
  }

  lemma TickHere(s: System)
    requires SessionLinks.Timed(s)
    ensures OnTick(s).mailbox == if s.now - s.log.lastEcho <= 15_000 then s.mailbox + [Beat] else s.mailbox
  {
  }

  /** The instants the local server and its sessions keep are those of the events they name: the last
      echo, the last heartbeat handled, the request taken, and from there to the outcome handled. */
  lemma {:induction false} ClocksAreRight(t: SocksSession.Ipv6Text, es: seq<Event>, c: nat)
    requires c < |Exec(t, es).actors|
    ensures var s := Exec(t, es);
      var a := s.actors[c];
      && s.server.hb == s.log.lastEcho && s.server.lastHbInstant == s.log.lastBeat
      && a.s.connectRequestRecord == a.askedAt
      && (a.s.connectRtt.Some? <==> a.toldAt.Some?)
      && (a.toldAt.Some? ==> a.askedAt.Some? && a.s.connectRtt.value == a.toldAt.value - a.askedAt.value)
  {
    RunsAreSound(t, es, 0, 0);
    ClocksHere(Exec(t, es), c);
  }

  lemma ClocksHere(s: System, c: nat)
    requires c < |s.actors| && ActorsOk(s)
    ensures var a := s.actors[c];
      && a.s.connectRequestRecord == a.askedAt
      && (a.s.connectRtt.Some? <==> a.toldAt.Some?)
      && (a.toldAt.Some? ==> a.askedAt.Some? && a.s.connectRtt.value == a.toldAt.value - a.askedAt.value)
  {
    assert ActorOk(s.actors[c]);
  }

  // ---- Sessions whose uuid is unshared, whatever other sessions share ----

  lemma ReceivedTranscript(s: System, u: u16)
    requires s.far.log.enqueued == s.log.received + s.far.s.outbox
    requires Piped(s.far, u) && OneDial(s.far, u) && |Requests(s.far.log.consumed, u)| <= 1
    ensures Transcript(Of(s.log.received, u))
  {
    FlatMapConcat(ForUuid(u), s.log.received, s.far.s.outbox);
    var all, some := Of(s.far.log.posted, u), Of(s.log.received, u);
    assert all[..|some|] == some;
    TranscriptPrefix(all, |some|);
  }

  /** A session is dialled for at most once, is told the replies of one dial, and is told at most one
      outcome, once it has recorded its request. */
  lemma {:induction false} OneOutcomePerSession(t: SocksSession.Ipv6Text, es: seq<Event>, c: nat)
    requires Alone(Exec(t, es), c) && c < |Exec(t, es).actors|
    ensures var s := Exec(t, es);
      var u := s.actors[c].s.uuid;
      && |Requests(s.far.log.consumed, u)| <= 1
      && Transcript(Of(s.log.received, u))
      && s.actors[c].arrived == Arrivals(s.log.received, u)
      && |Outcomes(s.log.received, u)| <= (if s.actors[c].s.connectRequestRecord.Some? then 1 else 0)
  {
    var s := Exec(t, es);
    var u := s.actors[c].s.uuid;
    RunsAreSound(t, es, u, c);
    OutcomeMeansReady(s, c);
    assert ActorOk(s.actors[c]);
    ReceivedTranscript(s, u);
  }

  predicate SaysOutcome(code: byte, kind: ResponseKind) {
    match kind
    case Succeeded => code == 0
    case ConnectionRefused => code == 5
    case Timeout => code == 5
    case Abort => false
  }

  /** What sessions tell applications is what the replies say. */
  lemma {:induction false} VerdictsAreOutcomes(q: seq<Message>, u: u16)
    ensures var codes, kinds := Verdicts(Arrivals(q, u)), Outcomes(q, u);
      |codes| == |kinds| && forall i :: 0 <= i < |codes| ==> SaysOutcome(codes[i], kinds[i])
  {
    if q != [] {
      VerdictsAreOutcomes(q[1..], u);
      FlatMapConcat(VerdictIn(), ArrivalFor(u)(q[0]), Arrivals(q[1..], u));
      if ArrivalFor(u)(q[0]) != [] {
        FlatMapSnoc(VerdictIn(), [], LocalServer.Translate(q[0].transfer).value);
      }
    }
  }

  lemma ToldIsPrefix(a: Actor)
    requires ActorOk(a)
    ensures CodesTold(a.s.writer) <= Verdicts(a.arrived)
  {
    var later := a.arrived[|a.handled|..];
    assert a.arrived == a.handled + later;
    FlatMapConcat(VerdictIn(), a.handled, later);
  }

  /** An application is told at most one outcome: success only if the far end reported success,
      refusal only if it reported a refusal or a timeout. */
  lemma {:induction false} ApplicationsToldTruth(t: SocksSession.Ipv6Text, es: seq<Event>, c: nat)
    requires Alone(Exec(t, es), c) && c < |Exec(t, es).actors|
    ensures var s := Exec(t, es);
      var told := CodesTold(s.actors[c].s.writer);
      var outcomes := Outcomes(s.log.received, s.actors[c].s.uuid);
      |told| <= |outcomes| <= 1 && (|told| == 1 ==> SaysOutcome(told[0], outcomes[0]))
  {
    OneOutcomePerSession(t, es, c);
    var s := Exec(t, es);
    VerdictsAreOutcomes(s.log.received, s.actors[c].s.uuid);
    assert ActorOk(s.actors[c]) by {
      RunsAreSound(t, es, 0, 0);
    }
    ToldIsPrefix(s.actors[c]);
  }

  lemma {:induction false} ArrivedData(q: seq<Message>, u: u16)
    ensures ReceivedData(Arrivals(q, u)) == DataOf(q, u)
  {
    if q != [] {
      ArrivedData(q[1..], u);
      FlatMapConcat(ReceivedIn(), ArrivalFor(u)(q[0]), Arrivals(q[1..], u));
      if ArrivalFor(u)(q[0]) != [] {
        FlatMapSnoc(ReceivedIn(), [], LocalServer.Translate(q[0].transfer).value);
      }
    }
  }

  /** Every byte read from a target is delivered in order or on its way: written to the application,
      in the session's mailbox, in the response pipe, or in the far end's mailbox. */
  lemma {:induction false} DownstreamConserved(t: SocksSession.Ipv6Text, es: seq<Event>, c: nat)
    requires Alone(Exec(t, es), c) && c < |Exec(t, es).actors| && Exec(t, es).actors[c].running
    ensures var s := Exec(t, es);
      var a := s.actors[c];
      var u := a.s.uuid;
      && ProxySide.FetchedFor(s.far.log, u)
         == Delivered(a.s.writer) + ReceivedData(a.inbox) + DataOf(s.far.s.outbox, u)
          + WaitingData(s.far.s.mailbox, u)
      && a.s.recvBytes == |Delivered(a.s.writer)|
  {
    var s := Exec(t, es);
    var a := s.actors[c];
    var u := a.s.uuid;
    RunsAreSound(t, es, u, c);
    FlatMapConcat(DataFor(u), s.log.received, s.far.s.outbox);
    ArrivedData(s.log.received, u);
    FlatMapConcat(ReceivedIn(), a.handled, a.inbox);
  }

  // ---- Requests and upstream data, even with uuid reuse ----

  /** Requests sent equal requests under way plus dials plus outcomes under way plus outcomes received:
      no request is lost or answered twice. */
  lemma {:induction false} EveryRequestAccounted(t: SocksSession.Ipv6Text, es: seq<Event>, u: u16)
    ensures var s := Exec(t, es);
      |Requests(s.log.requested, u)|
      == |FlatMap(SessionLinks.Via(RequestFor(u)), s.mailbox)| + |Requests(s.server.writer, u)|
       + |Dialing(s.far.s.dials, u)| + |WaitingOutcomes(s.far.s.mailbox, u)|
       + |Outcomes(s.far.s.outbox, u)| + |Outcomes(s.log.received, u)|
  {
    RunsAreSound(t, es, u, 0);
    RequestsSomewhere(Exec(t, es), u);
  }

  /** A session of that uuid recorded that target. */
  predicate SomeSessionAsked(s: System, d: ProxySide.Dial) {
    exists c :: 0 <= c < |s.actors| && s.actors[c].s.uuid == d.uuid && s.actors[c].s.targetAddress == Some(d.addr)
  }

  /** Even with uuid reuse, whatever is being dialled is the target a session of that uuid recorded, and
      so is what every socket was dialled for. */
  lemma {:induction false} DialsWereAskedFor(t: SocksSession.Ipv6Text, es: seq<Event>, d: ProxySide.Dial)
    requires d in Exec(t, es).far.s.dials || d in Exec(t, es).far.log.sockets
    ensures SomeSessionAsked(Exec(t, es), d)
  {
    RunsAreSound(t, es, 0, 0);
    DialAsked(Exec(t, es), d);
  }

  lemma DialAsked(s: System, d: ProxySide.Dial)
    requires DialsAsked(s) && (d in s.far.s.dials || d in s.far.log.sockets)
    ensures SomeSessionAsked(s, d)
  {
    assert Asked(s, d.uuid, RequestAddr(d.addr));
  }

  lemma {:induction false} InsertedShows(table: seq<ProxySide.TableOp>, u: u16)
    requires ProxySide.Inserted(u) in table
    ensures Ops(table, u) != []
  {
    if table[0] != ProxySide.Inserted(u) {
      InsertedShows(table[1..], u);
    }
  }

  lemma {:induction false} OpsAreOps(table: seq<ProxySide.TableOp>, u: u16)
    ensures forall op :: op in Ops(table, u) ==> op in table && op.uuid == u
  {
    if table != [] {
      OpsAreOps(table[1..], u);
    }
  }

  /** A uuid that was inserted and is not in the table was removed. */
  lemma InsertedThenRemoved(r: ProxySide.Run, u: u16)
    requires TableFollows(r, u) && u !in r.s.connections && ProxySide.Inserted(u) in r.log.table
    ensures ProxySide.Removed(u) in r.log.table
  {
    InsertedShows(r.log.table, u);
    OpsAreOps(r.log.table, u);
    var ops := Ops(r.log.table, u);
    assert ops[|ops| - 1] in ops;
  }

  lemma ConsumedIsExplained(s: System, m: Message)
    requires SessionLinks.Linked(s) && DataExplained(s) && m in s.far.log.consumed
    ensures Explained(s, m)
  {
  }

  /** The far end panics on data only where an application did not wait for success, or its
      connection had been removed by a failed write or a reader error. */
  lemma {:induction false} UnroutedDataExplained(t: SocksSession.Ipv6Text, es: seq<Event>, u: u16)
    requires Exec(t, es).far.s.fault == ProxySide.UnroutedData(u)
    ensures u in Exec(t, es).log.hasty || ProxySide.Removed(u) in Exec(t, es).far.log.table
  {
    RunsAreSound(t, es, u, 0);
    var s := Exec(t, es);
    var m :| m in s.far.log.consumed && m.uuid == u && m.transfer.Data?;
    ConsumedIsExplained(s, m);
    if u !in s.log.hasty {
      InsertedThenRemoved(s.far, u);
    }
  }

  lemma NextRequestPanics(s: System, w: ProxySide.WriteOutcome)
    requires Possible(s, DeliverRequest(w)) && SessionLinks.Linked(s) && SessionRouting.NearRouted(s)
    requires TableFollows(s.far, s.server.writer[0].uuid)
    ensures var m := s.server.writer[0];
      var ops := Ops(s.far.log.table, m.uuid);
      !OnDeliverRequest(s, w).far.s.fault.NoFault?
      <==> m.transfer.Data? && (ops == [] || ops[|ops| - 1].Removed?)
  {
    SessionRouting.ConsumedIsGood(s);
    if s.server.writer[0].transfer.Data? {
      DataPanicsHere(s.far, s.server.writer[0], w);
    }
  }

  lemma NextRequestHere(t: SocksSession.Ipv6Text, es: seq<Event>, w: ProxySide.WriteOutcome)
    requires Possible(Exec(t, es), DeliverRequest(w))
    ensures var s := Exec(t, es);
      var m := s.server.writer[0];
      var ops := Ops(s.far.log.table, m.uuid);
      !OnDeliverRequest(s, w).far.s.fault.NoFault?
      <==> m.transfer.Data? && (ops == [] || ops[|ops| - 1].Removed?)
  {
    var s := Exec(t, es);
    assert SessionLinks.Linked(s) && SessionRouting.NearRouted(s)
           && TableFollows(s.far, s.server.writer[0].uuid) by {
      RunsAreSound(t, es, s.server.writer[0].uuid, 0);
    }
    NextRequestPanics(s, w);
  }

  /** The far end panics on the next request exactly if it is data of a uuid that was never connected
      or was removed since. */
  lemma {:induction false} NextRequestPanicsExactly(t: SocksSession.Ipv6Text, es: seq<Event>, w: ProxySide.WriteOutcome)
    requires Possible(Exec(t, es), DeliverRequest(w))
    ensures var s := Exec(t, es);
      var m := s.server.writer[0];
      var ops := Ops(s.far.log.table, m.uuid);
      !Exec(t, es + [DeliverRequest(w)]).far.s.fault.NoFault?
      <==> m.transfer.Data? && (ops == [] || ops[|ops| - 1].Removed?)
  {
    NextRequestHere(t, es, w);
    ExecSnoc(t, es, DeliverRequest(w));
  }

  /** So patient applications whose connections are never removed cannot make it panic at all. */
  lemma {:induction false} PatienceIsSafe(t: SocksSession.Ipv6Text, es: seq<Event>)
    requires Exec(t, es).log.hasty == {}
    requires forall op :: op in Exec(t, es).far.log.table ==> op.Inserted?
    ensures Exec(t, es).far.s.fault == ProxySide.NoFault
  {
    RoutingSafe(t, es);
    var fault := Exec(t, es).far.s.fault;
    if fault.UnroutedData? {
      UnroutedDataExplained(t, es, fault.uuid);
    }
  }

  /** The data the far end was ever asked to write is not empty. */
  lemma ConsumedDataNotEmpty(s: System)
    requires SessionLinks.Linked(s) && SessionRouting.TrafficRouted(s)
    ensures NoEmptyData(s.far.log.consumed)
  {
    forall m | m in s.far.log.consumed ensures SessionRouting.GoodUp(s.server.clients.Keys, m) {
      assert m in s.log.submitted;
    }
  }

  /** Data sent up is consumed, in the request pipe or in the local server's mailbox, in order. What a
      target was given is the data consumed, a prefix of the data sent, if and only if all of that was
      written whole: no short or failed write, and none for a missing connection. Otherwise bytes are
      lost. */
  lemma {:induction false} UpstreamConserved(t: SocksSession.Ipv6Text, es: seq<Event>, u: u16)
    ensures var s := Exec(t, es);
      && DataOf(s.log.requested, u)
         == DataOf(s.far.log.consumed, u) + DataOf(s.server.writer, u)
          + FlatMap(SessionLinks.Via(DataFor(u)), s.mailbox)
      && (ProxySide.WrittenFor(s.far.log, u) == DataOf(s.far.log.consumed, u) <==> u !in s.far.log.torn)
      && (u !in s.far.log.torn ==> ProxySide.WrittenFor(s.far.log, u) <= DataOf(s.log.requested, u))
      && (u in s.far.log.torn ==> |ProxySide.WrittenFor(s.far.log, u)| < |DataOf(s.far.log.consumed, u)|)
  {
    RunsAreSound(t, es, u, 0);
    var s := Exec(t, es);
    FlatMapConcat(DataFor(u), s.far.log.consumed, s.server.writer);
    ConsumedDataNotEmpty(s);
  }

  // ---- The other layers ----

  lemma LinkMessageMade(s: System, m: Message)
    requires SessionRouting.Routed(s) && (m in s.log.submitted || m in s.far.log.enqueued)
    ensures MadeByNew(m)
  {
  }

  /** Whatever is put on either pipe may be sent over a byte pipe, which then is a queue: it was made
      by `New`, so only the limits on its payload remain. */
  lemma {:induction false} LinkMessagesSendable(t: SocksSession.Ipv6Text, es: seq<Event>, cipher: Aead.Cipher,
                                                 sent: FrameStream.Sent)
    requires sent.m in Exec(t, es).log.submitted || sent.m in Exec(t, es).far.log.enqueued
    requires |sent.random| == 4
    ensures FrameStream.Sendable(cipher, sent)
      <==> FrameCodec.CanSeal(cipher, sent.m) && |sent.m.transfer.Payload()| < 0x1_0000_0000
  {
    RunsAreSound(t, es, 0, 0);
    LinkMessageMade(Exec(t, es), sent.m);
  }

  /** A corollary: the replies sessions send are replies a SOCKS client can read, and say what they should. */
  lemma SessionRepliesReadable()
    ensures SocksReplies.ReadReply(SocksReplies.Encoded(SocksSession.SUCCEEDED).value)
      == Some(SocksReplies.Read(0, SocksMessages.DOMAIN([49, 50, 51]), 0))
    ensures SocksReplies.ReadReply(SocksReplies.Encoded(SocksSession.REFUSED).value)
      == Some(SocksReplies.Read(5, SocksMessages.DOMAIN([]), 0))
  {
    SocksReplies.ReplyReadableExactly(SocksSession.SUCCEEDED.response);
    SocksReplies.ReplyReadableExactly(SocksSession.REFUSED.response);
  }
}
