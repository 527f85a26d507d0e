/** The queues of the system over every run: the way of requests, the two pipes and the heartbeats. */
module SessionLinks {
  import opened Messages
  import opened Sequences
  import opened Session
  import SocksMessages
  import SocksSession
  import ProxySide
  import ProxyRuns

  /** Reading the local server's mailbox like the messages it holds. */
  function Via<T>(f: Message -> seq<T>): Mail -> seq<T> {
    (mail: Mail) => if mail.Submit? then f(mail.m) else []
  }

  /** Every request posted has been written to the link, in order, or waits in the mailbox. */
  ghost predicate Submitted<T>(s: System, f: Message -> seq<T>) {
    FlatMap(f, s.log.requested) == FlatMap(f, s.log.submitted) + FlatMap(Via(f), s.mailbox)
  }

  /** The two pipes hold exactly what has been written and not yet taken. */
  predicate Linked(s: System) {
    && s.log.submitted == s.far.log.consumed + s.server.writer
    && s.far.log.enqueued == s.log.received + s.far.s.outbox
  }

  function UpTo(n: nat): seq<nat> {
    seq(n, i => i + 1)
  }

  /** Heartbeats are numbered from one. */
  predicate Numbered(s: System) {
    ProxyRuns.Beats(s.log.submitted) == UpTo(s.server.hbIndex)
  }

  /** The server's clocks say when the last echo was taken and when a heartbeat was last handled; at most
      four heartbeats are posted after an echo. */
  predicate Timed(s: System) {
    && s.server.hb == s.log.lastEcho && s.server.lastHbInstant == s.log.lastBeat
    && s.server.hb <= s.now && s.log.lastPost <= s.lastTick <= s.now
    && (s.log.sinceEcho > 0 ==>
          5_000 * (s.log.sinceEcho - 1) <= s.log.lastPost - s.server.hb <= 15_000)
  }

  lemma SubmittedStep<T>(t: SocksSession.Ipv6Text, s: System, e: Event, f: Message -> seq<T>)
    requires Possible(s, e) && Submitted(s, f)
    requires forall m: Message :: m.transfer.Heartbeat? ==> f(m) == []
    ensures Submitted(Next(t, s, e), f)
  {
    match e
    case AppItem(c, item) => ItemSubmits(t, s, c, item, f);
    case Tick => TickSubmits(s, f);
    case ServerMail => ServerMailSubmits(s, f);
    case _ => OthersSubmitNothing(t, s, e);
  }

  lemma OthersSubmitNothing(t: SocksSession.Ipv6Text, s: System, e: Event)
    requires Possible(s, e) && !e.AppItem? && !e.Tick? && !e.ServerMail?
    ensures var s' := Next(t, s, e);
      s'.mailbox == s.mailbox && s'.log.requested == s.log.requested && s'.log.submitted == s.log.submitted
  {
  }

  lemma ItemSubmits<T>(t: SocksSession.Ipv6Text, s: System, c: nat, item: SocksMessages.SocksRequest,
                       f: Message -> seq<T>)
    requires Possible(s, AppItem(c, item)) && Submitted(s, f)
    ensures Submitted(OnAppItem(t, s, c, item), f)
  {
    ItemPosts(t, s, c, item);
    var posts := Posts(t, s, c, item);
    if posts != [] {
      PostEnters(f, s.log.requested, s.log.submitted, s.mailbox, posts[0]);
    }
  }

  lemma PostEnters<T>(f: Message -> seq<T>, requested: seq<Message>, submitted: seq<Message>, mailbox: seq<Mail>,
                      m: Message)
    requires FlatMap(f, requested) == FlatMap(f, submitted) + FlatMap(Via(f), mailbox)
    ensures FlatMap(f, requested + [m]) == FlatMap(f, submitted) + FlatMap(Via(f), mailbox + [Submit(m)])
  {
    FlatMapSnoc(f, requested, m);
    FlatMapSnoc(Via(f), mailbox, Submit(m));
    Associative(FlatMap(f, submitted), FlatMap(Via(f), mailbox), f(m));
  }

  lemma TickSubmits<T>(s: System, f: Message -> seq<T>)
    requires Possible(s, Tick) && Submitted(s, f)
    ensures Submitted(OnTick(s), f)
  {
    FlatMapSnoc(Via(f), s.mailbox, Beat);
  }

  lemma ItemPosts(t: SocksSession.Ipv6Text, s: System, c: nat, item: SocksMessages.SocksRequest)
    requires Possible(s, AppItem(c, item))
    ensures var s', posts := OnAppItem(t, s, c, item), Posts(t, s, c, item);
      && s'.log.submitted == s.log.submitted
      && (posts == [] ==> s'.mailbox == s.mailbox && s'.log.requested == s.log.requested)
      && (posts != [] ==> posts == [posts[0]] && s'.mailbox == s.mailbox + [Submit(posts[0])]
                          && s'.log.requested == s.log.requested + [posts[0]])
  {
  }

  /** Handling a message submits it, or the next heartbeat. */
  lemma ServerMailWrites(s: System)
    requires Possible(s, ServerMail)
    ensures var s', mail := OnServerMail(s), s.mailbox[0];
      && s'.mailbox == s.mailbox[1..] && s'.log.requested == s.log.requested
      && (mail.Submit? ==> s'.log.submitted == s.log.submitted + [mail.m])
      && (mail.Beat? ==> s'.log.submitted == s.log.submitted
                         || s'.log.submitted == s.log.submitted + [New(0, Heartbeat(s'.server.hbIndex))])
  {
  }

  lemma ServerMailSubmits<T>(s: System, f: Message -> seq<T>)
    requires Possible(s, ServerMail) && Submitted(s, f)
    requires forall m: Message :: m.transfer.Heartbeat? ==> f(m) == []
    ensures Submitted(OnServerMail(s), f)
  {
    ServerMailWrites(s);
    assert FlatMap(Via(f), s.mailbox) == Via(f)(s.mailbox[0]) + FlatMap(Via(f), s.mailbox[1..]);
    match s.mailbox[0]
    case Submit(m) => FlatMapSnoc(f, s.log.submitted, m);
    case Beat => FlatMapSnoc(f, s.log.submitted, New(0, Heartbeat(OnServerMail(s).server.hbIndex)));
  }

  /** What the far end puts on the link is what it logs. */
  lemma FarEnqueues(r: ProxySide.Run, e: ProxySide.Event)
    requires ProxySide.Possible(r.s, e) && !e.Flush?
    ensures var r' := ProxySide.Next(r, e);
      && r'.log.enqueued == r.log.enqueued + r'.s.outbox[|r.s.outbox|..]
      && r'.s.outbox == r.s.outbox + r'.s.outbox[|r.s.outbox|..]
      && r'.log.consumed == r.log.consumed + (if e.Consume? then [e.m] else [])
  {
  }

  lemma LinkedFar(s: System, f: ProxySide.Event)
    requires Possible(s, Far(f)) && Linked(s)
    ensures Linked(s.(far := ProxySide.Next(s.far, f)))
  {
    FarEnqueues(s.far, f);
  }

  lemma LinkedRequest(s: System, w: ProxySide.WriteOutcome)
    requires Possible(s, DeliverRequest(w)) && Linked(s)
    ensures Linked(OnDeliverRequest(s, w))
  {
    var m, rest, s' := s.server.writer[0], s.server.writer[1..], OnDeliverRequest(s, w);
    FarEnqueues(s.far, ProxySide.Consume(m, w));
    assert s'.far.log.consumed == s.far.log.consumed + [m];
    Associative(s.far.log.consumed, [m], rest);
    assert s.server.writer == [m] + rest;
    Associative(s.log.received, s.far.s.outbox, s'.far.s.outbox[|s.far.s.outbox|..]);
  }

  lemma LinkedReply(s: System)
    requires Possible(s, DeliverReply) && Linked(s)
    ensures Linked(OnDeliverReply(s))
  {
  }

  lemma LinkedMail(s: System)
    requires Possible(s, ServerMail) && Linked(s)
    ensures Linked(OnServerMail(s))
  {
  }

  lemma LinkedStep(t: SocksSession.Ipv6Text, s: System, e: Event)
    requires Possible(s, e) && Linked(s)
    ensures Linked(Next(t, s, e))
  {
    match e
    case Far(f) => LinkedFar(s, f);
    case DeliverRequest(w) => LinkedRequest(s, w);
    case DeliverReply => LinkedReply(s);
    case ServerMail => LinkedMail(s);
    case _ =>
  }

  lemma NumberedStep(t: SocksSession.Ipv6Text, s: System, e: Event)
    requires Possible(s, e) && Numbered(s)
    requires forall i :: 0 <= i < |s.mailbox| && s.mailbox[i].Submit? ==> !s.mailbox[i].m.transfer.Heartbeat?
    ensures Numbered(Next(t, s, e))
  {
    if e.ServerMail? {
      match s.mailbox[0]
      case Submit(m) => FlatMapSnoc(ProxyRuns.BeatIn(), s.log.submitted, m);
      case Beat =>
        if s.server.hbIndex < 0xFFFF_FFFF {
          FlatMapSnoc(ProxyRuns.BeatIn(), s.log.submitted, New(0, Heartbeat(s.server.hbIndex + 1)));
        }
    }
  }

  lemma TimedStep(t: SocksSession.Ipv6Text, s: System, e: Event)
    requires Possible(s, e) && Timed(s)
    ensures Timed(Next(t, s, e))
  {
  }
}
