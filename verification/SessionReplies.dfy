/** From the bytes read from a target to the bytes an application reads: the stream each application is
    given, over every run. */
module SessionReplies {
  import opened Bytes
  import opened Messages
  import opened Sequences
  import opened Session
  import SocksMessages
  import SocksReplies
  import SocksRequests
  import SocksSession
  import LocalServer
  import ProxySide
  import ProxyRuns
  import SessionLinks
  import opened SessionActors
  import SessionTheorems

  const METHOD := SocksMessages.MethodSelected(5, 0)

  /** The replies of section 6 of RFC 1928 that applications are given. */
  const SUCCESS: seq<byte> := [5, 0, 0, 3, 3, 49, 50, 51, 0, 0]
  const REFUSAL: seq<byte> := [5, 5, 0, 3, 0, 0, 0]

  function EncodedIn(): SocksMessages.SocksResponse -> seq<byte> {
    (r: SocksMessages.SocksResponse) =>
      match SocksReplies.Encoded(r)
      case Some(bytes) => bytes
      case None => []
  }

  /** The bytes the application reads. */
  function Stream(q: seq<SocksMessages.SocksResponse>): seq<byte> {
    FlatMap(EncodedIn(), q)
  }

  function AnswerTo(): ConnectorResponse -> seq<SocksMessages.SocksResponse> {
    (msg: ConnectorResponse) =>
      match msg
      case Success => [SocksSession.SUCCEEDED]
      case Failed => [SocksSession.REFUSED]
      case Received(data) => [SocksMessages.Payload(data)]
      case Aborted => []
  }

  /** What a session writes for what it is told. */
  function Answers(q: seq<ConnectorResponse>): seq<SocksMessages.SocksResponse> {
    FlatMap(AnswerTo(), q)
  }

  // ---- A session answers what it is told, in order ----

  /** The method first, then an answer to each message. */
  predicate AnswersInOrder(a: Actor) {
    a.s.writer == (if a.phase == SocksRequests.NEGOTIATION then [] else [METHOD]) + Answers(a.handled)
  }

  predicate InOrder(s: System, c: nat) {
    c < |s.actors| && Alone(s, c) ==> AnswersInOrder(s.actors[c])
  }

  lemma ItemInOrder(t: SocksSession.Ipv6Text, s: System, c: nat, item: SocksMessages.SocksRequest)
    requires Possible(s, AppItem(c, item)) && AnswersInOrder(s.actors[c])
    requires s.actors[c].handled != [] ==> s.actors[c].phase == SocksRequests.READY
    ensures AnswersInOrder(OnAppItem(t, s, c, item).actors[c])
  {
  }

  lemma MailInOrder(s: System, c: nat)
    requires Possible(s, SessionMail(c)) && ActorOk(s.actors[c]) && AnswersInOrder(s.actors[c])
    ensures AnswersInOrder(OnSessionMail(s, c).actors[c])
  {
    var a := s.actors[c];
    FlatMapSnoc(AnswerTo(), a.handled, a.inbox[0]);
    HandlerAnswers(a.s, a.inbox[0], s.now);
  }

  lemma HandlerAnswers(a: SocksSession.State, msg: ConnectorResponse, now: nat)
    ensures var (a', reaction) := SocksSession.OnConnector(a, msg, now);
      a'.writer == if reaction.UnwrapPanic? then a.writer else a.writer + AnswerTo()(msg)
  {
  }

  lemma OthersInOrder(t: SocksSession.Ipv6Text, s: System, e: Event, c: nat)
    requires Possible(s, e) && c < |s.actors| && AnswersInOrder(s.actors[c])
    requires !(e.AppItem? && e.c == c) && !(e.SessionMail? && e.c == c)
    ensures c < |Next(t, s, e).actors| && AnswersInOrder(Next(t, s, e).actors[c])
  {
  }

  lemma InOrderStep(t: SocksSession.Ipv6Text, s: System, e: Event, c: nat)
    requires Possible(s, e) && InOrder(s, c) && ActorsOk(s)
    requires c < |s.actors| && Alone(s, c) && s.actors[c].handled != [] ==> s.actors[c].phase == SocksRequests.READY
    ensures InOrder(Next(t, s, e), c)
  {
    if Alone(Next(t, s, e), c) {
      AloneBefore(t, s, e, c);
      if c >= |s.actors| {
        NewInOrder(t, s, e, c);
      } else if e.AppItem? && e.c == c {
        ItemInOrder(t, s, c, e.item);
      } else if e.SessionMail? && e.c == c {
        MailInOrder(s, c);
      } else {
        OthersInOrder(t, s, e, c);
      }
    }
  }

  lemma NewInOrder(t: SocksSession.Ipv6Text, s: System, e: Event, c: nat)
    requires Possible(s, e) && |s.actors| <= c
    ensures c < |Next(t, s, e).actors| ==> AnswersInOrder(Next(t, s, e).actors[c])
  {
  }

  // ---- What a session is told ----

  /** A refusal, or success and then data and aborts. */
  predicate Orderly(q: seq<ConnectorResponse>) {
    q == [] || q == [Failed] || (q[0].Success? && Following(q[1..]))
  }

  predicate Following(q: seq<ConnectorResponse>) {
    forall i :: 0 <= i < |q| ==> q[i].Received? || q[i].Aborted?
  }

  lemma {:induction false} ArrivalsAreReplies(q: seq<Message>, u: u16)
    requires forall i :: 0 <= i < |ProxyRuns.Of(q, u)| ==> LocalServer.Translate(ProxyRuns.Of(q, u)[i]).Some?
    ensures var ts, arrivals := ProxyRuns.Of(q, u), Arrivals(q, u);
      |arrivals| == |ts| && forall i :: 0 <= i < |ts| ==> Some(arrivals[i]) == LocalServer.Translate(ts[i])
  {
    if q != [] {
      var head := ProxyRuns.ForUuid(u)(q[0]);
      assert ProxyRuns.Of(q, u) == head + ProxyRuns.Of(q[1..], u);
      assert forall i :: 0 <= i < |ProxyRuns.Of(q[1..], u)| ==>
          ProxyRuns.Of(q[1..], u)[i] == ProxyRuns.Of(q, u)[|head| + i];
      assert Arrivals(q, u) == ArrivalFor(u)(q[0]) + Arrivals(q[1..], u);
      assert head != [] ==> ProxyRuns.Of(q, u)[0] == head[0];
      ArrivalsAreReplies(q[1..], u);
    }
  }

  lemma TranscriptIsOrderly(q: seq<Message>, u: u16)
    requires ProxyRuns.Transcript(ProxyRuns.Of(q, u))
    ensures Orderly(Arrivals(q, u))
  {
    var ts := ProxyRuns.Of(q, u);
    if ProxyRuns.Closed(ts) {
      assert forall i :: 0 <= i < |ts| - 1 ==> ts[i] == ts[..|ts| - 1][i];
    }
    ArrivalsAreReplies(q, u);
  }

  lemma OrderlyPrefix(q: seq<ConnectorResponse>, n: nat)
    requires Orderly(q) && n <= |q|
    ensures Orderly(q[..n])
  {
  }

  lemma HandledIsOrderly(a: Actor, q: seq<Message>)
    requires ActorOk(a) && a.arrived == Arrivals(q, a.s.uuid) && ProxyRuns.Transcript(ProxyRuns.Of(q, a.s.uuid))
    ensures Orderly(a.handled) && a.handled <= a.arrived
  {
    TranscriptIsOrderly(q, a.s.uuid);
    assert a.handled == a.arrived[..|a.handled|];
    OrderlyPrefix(a.arrived, |a.handled|);
  }

  lemma HandledOrderly(t: SocksSession.Ipv6Text, es: seq<Event>, c: nat)
    requires c < |Exec(t, es).actors| && Alone(Exec(t, es), c)
    ensures var a := Exec(t, es).actors[c];
      && ActorOk(a) && Orderly(a.handled)
      && a.handled <= a.arrived && a.arrived == Arrivals(Exec(t, es).log.received, a.s.uuid)
  {
    SessionTheorems.OneOutcomePerSession(t, es, c);
    SessionTheorems.RunsAreSound(t, es, 0, 0);
    HandledIsOrderly(Exec(t, es).actors[c], Exec(t, es).log.received);
  }

  lemma {:induction false} NoOutcomeNoFirst(q: seq<Message>, u: u16)
    requires ProxyRuns.Outcomes(q, u) == []
    ensures forall msg :: msg in Arrivals(q, u) ==> msg.Received? || msg.Aborted?
  {
    if q != [] {
      NoOutcomeNoFirst(q[1..], u);
    }
  }

  /** A session alone on its port has been told nothing before it has sent its request. */
  lemma {:induction false} HandledMeansReady(t: SocksSession.Ipv6Text, es: seq<Event>, c: nat)
    requires c < |Exec(t, es).actors| && Alone(Exec(t, es), c) && Exec(t, es).actors[c].handled != []
    ensures Exec(t, es).actors[c].phase == SocksRequests.READY
  {
    var s := Exec(t, es);
    var a := s.actors[c];
    HandledOrderly(t, es, c);
    SessionTheorems.OneOutcomePerSession(t, es, c);
    assert a.handled[0] in Arrivals(s.log.received, a.s.uuid);
    if ProxyRuns.Outcomes(s.log.received, a.s.uuid) == [] {
      NoOutcomeNoFirst(s.log.received, a.s.uuid);
    }
  }

  lemma {:induction false} RunsAnswerInOrder(t: SocksSession.Ipv6Text, es: seq<Event>, c: nat)
    ensures InOrder(Exec(t, es), c)
  {
    if es != [] {
      var front, e := es[..|es| - 1], es[|es| - 1];
      RunsAnswerInOrder(t, front, c);
      if c < |Exec(t, front).actors| && Alone(Exec(t, front), c) && Exec(t, front).actors[c].handled != [] {
        HandledMeansReady(t, front, c);
      }
      SessionTheorems.RunsAreSound(t, front, 0, 0);
      if Possible(Exec(t, front), e) {
        InOrderStep(t, Exec(t, front), e, c);
      }
    }
  }

  // ---- What an application reads ----

  lemma AnswerStream(msg: ConnectorResponse)
    requires msg.Received? || msg.Aborted?
    ensures Stream(AnswerTo()(msg)) == ReceivedIn()(msg)
  {
    if msg.Received? {
      FlatMapSnoc(EncodedIn(), [], SocksMessages.Payload(msg.data));
      assert [] + [SocksMessages.Payload(msg.data)] == AnswerTo()(msg);
    }
  }

  lemma {:induction false} FollowingStream(q: seq<ConnectorResponse>)
    requires Following(q)
    ensures Stream(Answers(q)) == ReceivedData(q)
  {
    if q != [] {
      AnswerStream(q[0]);
      FollowingStream(q[1..]);
      FlatMapConcat(EncodedIn(), AnswerTo()(q[0]), Answers(q[1..]));
      assert Stream(Answers(q)) == ReceivedIn()(q[0]) + Stream(Answers(q[1..]));
    }
  }

  lemma RepliesEncoded()
    ensures SocksReplies.Encoded(SocksSession.SUCCEEDED) == Some(SUCCESS)
    ensures SocksReplies.Encoded(SocksSession.REFUSED) == Some(REFUSAL)
    ensures SocksReplies.Encoded(METHOD) == Some([5, 0])
  {
    assert SocksReplies.PutI16(0) == [0, 0];
    var named: seq<byte> := [3, 49, 50, 51];
    assert SocksReplies.AddressField(SocksSession.SUCCEEDED.response.address) == named;
    assert [5, 0, 0, 3] + named + [0, 0] == SUCCESS;
    assert SocksReplies.AddressField(SocksSession.REFUSED.response.address) == [0];
    assert [5, 5, 0, 3] + [0] + [0, 0] == REFUSAL;
  }

  lemma RefusedIsEmpty(q: seq<ConnectorResponse>)
    requires Orderly(q)
    ensures q == [] || q[0].Failed? ==> ReceivedData(q) == []
  {
    if q != [] && q[0].Failed? {
      assert q == [] + [Failed];
      FlatMapSnoc(ReceivedIn(), [], Failed);
    }
  }

  lemma OrderlyStream(q: seq<ConnectorResponse>)
    requires Orderly(q)
    ensures Stream(Answers(q)) ==
      if q == [] then [] else if q[0].Failed? then REFUSAL else SUCCESS + ReceivedData(q)
  {
    RepliesEncoded();
    if q != [] {
      assert q == [q[0]] + q[1..];
      FlatMapConcat(AnswerTo(), [q[0]], q[1..]);
      FlatMapSnoc(AnswerTo(), [], q[0]);
      FlatMapConcat(EncodedIn(), AnswerTo()(q[0]), Answers(q[1..]));
      FlatMapSnoc(EncodedIn(), [], AnswerTo()(q[0])[0]);
      FollowingStream(q[1..]);
    }
  }

  lemma HandledIsPrefix(a: Actor)
    requires a.handled <= a.arrived
    ensures ReceivedData(a.handled) <= ReceivedData(a.arrived)
  {
    var later := a.arrived[|a.handled|..];
    assert a.arrived == a.handled + later;
    FlatMapConcat(ReceivedIn(), a.handled, later);
  }

  lemma ReceivedWasFetched(s: System, u: u16)
    requires SessionLinks.Linked(s) && ProxyRuns.Piped(s.far, u) && ProxyRuns.BytesFollow(s.far, u)
    ensures ProxyRuns.DataOf(s.log.received, u) <= ProxySide.FetchedFor(s.far.log, u)
  {
    FlatMapConcat(ProxyRuns.DataFor(u), s.log.received, s.far.s.outbox);
  }

  /** The data a session has handled is the beginning of what was read from its target. */
  lemma HandledWasFetched(t: SocksSession.Ipv6Text, es: seq<Event>, c: nat)
    requires c < |Exec(t, es).actors| && Alone(Exec(t, es), c)
    ensures var s := Exec(t, es);
      var a := s.actors[c];
      ReceivedData(a.handled) <= ProxySide.FetchedFor(s.far.log, a.s.uuid)
  {
    var s := Exec(t, es);
    var a := s.actors[c];
    HandledOrderly(t, es, c);
    HandledIsPrefix(a);
    SessionTheorems.ArrivedData(s.log.received, a.s.uuid);
    SessionTheorems.RunsAreSound(t, es, a.s.uuid, c);
    ReceivedWasFetched(s, a.s.uuid);
  }

  /** What an application whose port no other session has reads, from a target that gave `fetched`. */
  predicate Reads(stream: seq<byte>, fetched: seq<byte>) {
    || stream == [] || stream == [5, 0] || stream == [5, 0] + REFUSAL
    || (|stream| >= 12 && stream[..12] == [5, 0] + SUCCESS && stream[12..] <= fetched)
  }

  /** Over every run: nothing, the method, then a refusal, or success followed only by bytes of the
      target, in order and from the first. */
  lemma {:induction false} ApplicationsReadTheTarget(t: SocksSession.Ipv6Text, es: seq<Event>, c: nat)
    requires c < |Exec(t, es).actors| && Alone(Exec(t, es), c)
    ensures var s := Exec(t, es);
      var a := s.actors[c];
      Reads(Stream(a.s.writer), ProxySide.FetchedFor(s.far.log, a.s.uuid))
  {
    var a := Exec(t, es).actors[c];
    RunsAnswerInOrder(t, es, c);
    HandledOrderly(t, es, c);
    HandledWasFetched(t, es, c);
    if a.handled != [] {
      HandledMeansReady(t, es, c);
    }
    SessionReads(a, ProxySide.FetchedFor(Exec(t, es).far.log, a.s.uuid));
  }

  lemma SessionReads(a: Actor, fetched: seq<byte>)
    requires AnswersInOrder(a) && Orderly(a.handled) && ReceivedData(a.handled) <= fetched
    requires a.handled != [] ==> a.phase == SocksRequests.READY
    ensures Reads(Stream(a.s.writer), fetched)
  {
    StreamOfSession(a);
    OrderlyStream(a.handled);
    if a.handled != [] && !a.handled[0].Failed? {
      SuccessReads(ReceivedData(a.handled), fetched);
    }
  }

  lemma SuccessReads(data: seq<byte>, fetched: seq<byte>)
    requires data <= fetched
    ensures Reads([5, 0] + (SUCCESS + data), fetched)
  {
    var stream := [5, 0] + (SUCCESS + data);
    assert stream[..12] == [5, 0] + SUCCESS && stream[12..] == data;
  }

  lemma StreamOfSession(a: Actor)
    requires AnswersInOrder(a)
    ensures Stream(a.s.writer)
      == (if a.phase == SocksRequests.NEGOTIATION then [] else [5, 0]) + Stream(Answers(a.handled))
  {
    RepliesEncoded();
    if a.phase == SocksRequests.NEGOTIATION {
      assert [] + Answers(a.handled) == Answers(a.handled);
    } else {
      FlatMapConcat(EncodedIn(), [METHOD], Answers(a.handled));
      FlatMapSnoc(EncodedIn(), [], METHOD);
    }
  }

  /** Once nothing is on its way down, a running session has given its application all of it. */
  lemma {:induction false} QuietApplicationsHaveTheTarget(t: SocksSession.Ipv6Text, es: seq<Event>, c: nat)
    requires c < |Exec(t, es).actors| && Alone(Exec(t, es), c) && Exec(t, es).actors[c].running
    requires Exec(t, es).actors[c].inbox == [] && Exec(t, es).far.s.outbox == [] && Exec(t, es).far.s.mailbox == []
    ensures var s := Exec(t, es);
      var a := s.actors[c];
      var fetched := ProxySide.FetchedFor(s.far.log, a.s.uuid);
      fetched != [] ==> Stream(a.s.writer) == [5, 0] + SUCCESS + fetched
  {
    var s := Exec(t, es);
    var a := s.actors[c];
    RunsAnswerInOrder(t, es, c);
    HandledOrderly(t, es, c);
    SessionTheorems.DownstreamConserved(t, es, c);
    if a.handled != [] {
      HandledMeansReady(t, es, c);
    }
    StreamHasAll(a, ProxySide.FetchedFor(s.far.log, a.s.uuid));
  }

  lemma StreamHasAll(a: Actor, fetched: seq<byte>)
    requires AnswersInOrder(a) && Orderly(a.handled) && ActorOk(a) && fetched == Delivered(a.s.writer)
    requires a.handled != [] ==> a.phase == SocksRequests.READY
    ensures fetched != [] ==> Stream(a.s.writer) == [5, 0] + SUCCESS + fetched
  {
    StreamOfSession(a);
    OrderlyStream(a.handled);
    RefusedIsEmpty(a.handled);
  }
}
