/** From the bytes an application sends to what its target is given: the items a session takes are those
    of its byte stream, and the far end dials and writes what that stream means. */
module SessionStreams {
  import opened Bytes
  import opened Messages
  import opened Sequences
  import opened Session
  import SocksMessages
  import SocksRequests
  import SocksSession
  import SocksStream
  import AddressText
  import Utf8
  import ProxySide
  import ProxyRuns
  import SessionActors
  import SessionRouting
  import SessionTheorems

  /** The item session `c` takes in a step, if any. */
  function ItemTaken(s: System, e: Event, c: nat): seq<SocksMessages.SocksRequest> {
    if Possible(s, e) && e.AppItem? && e.c == c then [e.item] else []
  }

  /** The items session `c` has taken. */
  function ItemsTaken(t: SocksSession.Ipv6Text, es: seq<Event>, c: nat): seq<SocksMessages.SocksRequest> {
    if es == [] then []
    else
      var front := es[..|es| - 1];
      ItemsTaken(t, front, c) + ItemTaken(Exec(t, front), es[|es| - 1], c)
  }

  /** The address asked for by a list of items. */
  function AddressAsked(t: SocksSession.Ipv6Text, items: seq<SocksMessages.SocksRequest>): Option<Utf8.Text> {
    if |items| >= 2 && items[1].Target? then Some(SocksSession.AddressString(t, items[1].request)) else None
  }

  // ---- The items a session may take ----

  /** Phase, target and byte count of a session are those its items lead to. */
  predicate Follows(t: SocksSession.Ipv6Text, s: System, c: nat, items: seq<SocksMessages.SocksRequest>) {
    if c < |s.actors| then
      && SocksStream.AcceptAll(items) == Some(s.actors[c].phase)
      && AddressAsked(t, items) == s.actors[c].s.targetAddress
      && s.actors[c].s.sendBytes == |SocksStream.DataOf(items)|
    else items == []
  }

  lemma {:induction false} AcceptedShape(items: seq<SocksMessages.SocksRequest>)
    requires SocksStream.AcceptAll(items).Some?
    ensures var phase := SocksStream.AcceptAll(items).value;
      match phase
      case NEGOTIATION => items == []
      case WORKING => |items| == 1
      case READY => |items| >= 2 && items[1].Target?
  {
    if items != [] {
      AcceptedShape(items[..|items| - 1]);
    }
  }

  lemma ItemFollows(t: SocksSession.Ipv6Text, s: System, c: nat, item: SocksMessages.SocksRequest,
                    items: seq<SocksMessages.SocksRequest>)
    requires Possible(s, AppItem(c, item)) && Follows(t, s, c, items)
    ensures Follows(t, OnAppItem(t, s, c, item), c, items + [item])
  {
    AcceptedShape(items);
    assert (items + [item])[..|items|] == items;
    ItemCounted(t, s.actors[c].s, item, s.now);
  }

  lemma ItemCounted(t: SocksSession.Ipv6Text, a: SocksSession.State, item: SocksMessages.SocksRequest, now: nat)
    ensures var a' := SocksSession.OnRequest(t, a, item, now).0;
      && a'.sendBytes == a.sendBytes + (if item.Data? then |item.data| else 0)
      && a'.targetAddress == if item.Target? then Some(SocksSession.AddressString(t, item.request)) else a.targetAddress
  {
  }

  lemma OthersFollow(t: SocksSession.Ipv6Text, s: System, e: Event, c: nat,
                     items: seq<SocksMessages.SocksRequest>)
    requires Possible(s, e) && Follows(t, s, c, items) && !(e.AppItem? && e.c == c)
    ensures Follows(t, Next(t, s, e), c, items)
  {
    if c < |s.actors| {
      SessionRouting.UuidsKept(t, s, e, c);
    }
  }

  lemma FollowsStep(t: SocksSession.Ipv6Text, s: System, e: Event, c: nat,
                    items: seq<SocksMessages.SocksRequest>)
    requires Follows(t, s, c, items)
    ensures Follows(t, Next(t, s, e), c, items + ItemTaken(s, e, c))
  {
    if Possible(s, e) && e.AppItem? && e.c == c {
      ItemFollows(t, s, c, e.item, items);
    } else {
      assert items + ItemTaken(s, e, c) == items;
      if Possible(s, e) {
        OthersFollow(t, s, e, c, items);
      }
    }
  }

  lemma {:induction false} TakenFollows(t: SocksSession.Ipv6Text, es: seq<Event>, c: nat)
    ensures Follows(t, Exec(t, es), c, ItemsTaken(t, es, c))
  {
    if es != [] {
      var front := es[..|es| - 1];
      TakenFollows(t, front, c);
      FollowsStep(t, Exec(t, front), es[|es| - 1], c, ItemsTaken(t, front, c));
    }
  }

  /** In every run, a session has counted the data it has taken. */
  lemma {:induction false} SentBytesCounted(t: SocksSession.Ipv6Text, es: seq<Event>, c: nat)
    requires c < |Exec(t, es).actors|
    ensures Exec(t, es).actors[c].s.sendBytes == |SocksStream.DataOf(ItemsTaken(t, es, c))|
  {
    TakenFollows(t, es, c);
  }

  /** In every run, a session may take an item exactly if it is running and its items, with this one,
      come in the order of the parser. */
  lemma {:induction false} ItemsPossibleExactly(t: SocksSession.Ipv6Text, es: seq<Event>, c: nat,
                                                 item: SocksMessages.SocksRequest)
    requires c < |Exec(t, es).actors|
    ensures Possible(Exec(t, es), AppItem(c, item))
      <==> Exec(t, es).actors[c].running && SocksStream.AcceptAll(ItemsTaken(t, es, c) + [item]).Some?
  {
    TakenFollows(t, es, c);
    assert (ItemsTaken(t, es, c) + [item])[..|ItemsTaken(t, es, c)|] == ItemsTaken(t, es, c);
  }

  lemma NextAccepted(items: seq<SocksMessages.SocksRequest>, taken: seq<SocksMessages.SocksRequest>)
    requires SocksStream.AcceptAll(items).Some? && taken < items
    ensures SocksStream.AcceptAll(taken + [items[|taken|]]).Some?
  {
    SocksStream.AcceptPrefix(items, |taken| + 1);
    assert items[..|taken| + 1] == taken + [items[|taken|]];
  }

  /** The items of any byte stream, however cut, can be taken one after the other, whatever else happens
      in between, until the session ends. */
  lemma {:induction false} StreamItemPossible(t: SocksSession.Ipv6Text, es: seq<Event>, c: nat, chunks: seq<seq<byte>>)
    requires c < |Exec(t, es).actors| && Exec(t, es).actors[c].running
    requires ItemsTaken(t, es, c) < SocksStream.FeedAll(chunks).items
    ensures Possible(Exec(t, es), AppItem(c, SocksStream.FeedAll(chunks).items[|ItemsTaken(t, es, c)|]))
  {
    var items, taken := SocksStream.FeedAll(chunks).items, ItemsTaken(t, es, c);
    SocksStream.ItemsAccepted(chunks);
    NextAccepted(items, taken);
    ItemsPossibleExactly(t, es, c, items[|taken|]);
  }

  // ---- What a session sends up is what it takes ----

  /** What a step posts to the local server. */
  function Posted(t: SocksSession.Ipv6Text, s: System, e: Event): seq<Message>
    requires Possible(s, e)
  {
    if e.AppItem? then Posts(t, s, e.c, e.item) else []
  }

  lemma RequestedStep(t: SocksSession.Ipv6Text, s: System, e: Event, u: u16)
    requires Possible(s, e)
    ensures Next(t, s, e).log.requested == s.log.requested + Posted(t, s, e)
    ensures ProxyRuns.DataOf(Next(t, s, e).log.requested, u)
      == ProxyRuns.DataOf(s.log.requested, u)
       + if e.AppItem? && s.status.Serving? && s.actors[e.c].s.uuid == u && e.item.Data? then e.item.data else []
  {
    assert s.log.requested + [] == s.log.requested;
    if Posted(t, s, e) != [] {
      FlatMapSnoc(ProxyRuns.DataFor(u), s.log.requested, Posted(t, s, e)[0]);
    }
  }

  predicate HasSession(s: System, u: u16) {
    exists c :: 0 <= c < |s.actors| && s.actors[c].s.uuid == u
  }

  /** Data sent up for a uuid is data taken by its only session, all of it as long as the local server
      runs. */
  predicate SendsTaken(s: System, c: nat, items: seq<SocksMessages.SocksRequest>) {
    c < |s.actors| && Alone(s, c) ==>
      var sent := ProxyRuns.DataOf(s.log.requested, s.actors[c].s.uuid);
      sent <= SocksStream.DataOf(items) && (s.status.Serving? ==> sent == SocksStream.DataOf(items))
  }

  /** No data was sent up for a uuid no session has. */
  predicate Unheard(s: System, u: u16) {
    !HasSession(s, u) ==> ProxyRuns.DataOf(s.log.requested, u) == []
  }

  lemma UnheardStep(t: SocksSession.Ipv6Text, s: System, e: Event, u: u16)
    requires Possible(s, e) && Unheard(s, u)
    ensures Unheard(Next(t, s, e), u)
  {
    var s' := Next(t, s, e);
    RequestedStep(t, s, e, u);
    if HasSession(s, u) {
      var c :| 0 <= c < |s.actors| && s.actors[c].s.uuid == u;
      SessionRouting.UuidsKept(t, s, e, c);
    }
  }

  lemma ServingBefore(t: SocksSession.Ipv6Text, s: System, e: Event)
    requires Possible(s, e) && Next(t, s, e).status.Serving?
    ensures s.status.Serving?
  {
  }

  lemma SendsTakenStep(t: SocksSession.Ipv6Text, s: System, e: Event, c: nat,
                       items: seq<SocksMessages.SocksRequest>)
    requires Possible(s, e) && c < |s.actors| && SendsTaken(s, c, items)
    ensures SendsTaken(Next(t, s, e), c, items + ItemTaken(s, e, c))
  {
    var s' := Next(t, s, e);
    SessionRouting.UuidsKept(t, s, e, c);
    if Alone(s', c) {
      SessionActors.AloneBefore(t, s, e, c);
      RequestedStep(t, s, e, s.actors[c].s.uuid);
      if s'.status.Serving? {
        ServingBefore(t, s, e);
      }
      var taken := ItemTaken(s, e, c);
      if taken == [] {
        assert items + taken == items;
      } else {
        assert (items + taken)[..|items|] == items;
      }
    }
  }

  lemma NewSessionSends(t: SocksSession.Ipv6Text, s: System, port: u16)
    requires Possible(s, Accept(port)) && Unheard(s, port)
    ensures SendsTaken(Next(t, s, Accept(port)), |s.actors|, [])
  {
    var s' := Next(t, s, Accept(port));
    if Alone(s', |s.actors|) {
      forall i | 0 <= i < |s.actors| ensures s.actors[i].s.uuid != port {
        assert s'.actors[i] == s.actors[i];
      }
    }
  }

  lemma {:induction false} AlwaysUnheard(t: SocksSession.Ipv6Text, es: seq<Event>, u: u16)
    ensures Unheard(Exec(t, es), u)
  {
    if es != [] {
      var s, e := Exec(t, es[..|es| - 1]), es[|es| - 1];
      AlwaysUnheard(t, es[..|es| - 1], u);
      if Possible(s, e) {
        UnheardStep(t, s, e, u);
      }
    }
  }

  lemma SendsTakenNext(t: SocksSession.Ipv6Text, s: System, e: Event, c: nat,
                       items: seq<SocksMessages.SocksRequest>)
    requires SendsTaken(s, c, items) && Follows(t, s, c, items) && (e.Accept? ==> Unheard(s, e.port))
    ensures SendsTaken(Next(t, s, e), c, items + ItemTaken(s, e, c))
  {
    if !Possible(s, e) {
      assert items + [] == items;
    } else if c < |s.actors| {
      SendsTakenStep(t, s, e, c, items);
    } else if e.Accept? && c == |s.actors| {
      NewSessionSends(t, s, e.port);
    } else if !e.Accept? {
      SessionRouting.ClientsKept(t, s, e);
    }
  }

  lemma {:induction false} SessionsSendTaken(t: SocksSession.Ipv6Text, es: seq<Event>, c: nat)
    ensures SendsTaken(Exec(t, es), c, ItemsTaken(t, es, c))
  {
    if es != [] {
      var front, e := es[..|es| - 1], es[|es| - 1];
      SessionsSendTaken(t, front, c);
      TakenFollows(t, front, c);
      if e.Accept? {
        AlwaysUnheard(t, front, e.port);
      }
      SendsTakenNext(t, Exec(t, front), e, c, ItemsTaken(t, front, c));
    }
  }

  // ---- End to end ----

  lemma TakenIsMeant(t: SocksSession.Ipv6Text, taken: seq<SocksMessages.SocksRequest>, chunks: seq<seq<byte>>)
    requires taken <= SocksStream.FeedAll(chunks).items
    ensures var meaning := SocksStream.Meaning(Joined(chunks));
      && (AddressAsked(t, taken).Some? ==> AddressAsked(t, taken) == AddressAsked(t, meaning.headers))
      && SocksStream.DataOf(taken) <= meaning.data
  {
    var items := SocksStream.FeedAll(chunks).items;
    SocksStream.ParsedIsMeant(chunks);
    assert taken == items[..|taken|];
    SocksStream.DataPrefix(items, |taken|);
    PrefixOfPrefix(SocksStream.DataOf(taken), SocksStream.DataOf(items),
                   SocksStream.Meaning(Joined(chunks)).data);
  }

  lemma PrefixOfPrefix(a: seq<byte>, b: seq<byte>, c: seq<byte>)
    requires a <= b <= c
    ensures a <= c
  {
  }

  lemma DialsAreTaken(t: SocksSession.Ipv6Text, es: seq<Event>, c: nat, d: ProxySide.Dial)
    requires c < |Exec(t, es).actors| && Alone(Exec(t, es), c) && d.uuid == Exec(t, es).actors[c].s.uuid
    requires d in Exec(t, es).far.s.dials || d in Exec(t, es).far.log.sockets
    ensures AddressAsked(t, ItemsTaken(t, es, c)) == Some(d.addr)
  {
    SessionTheorems.DialsWereAskedFor(t, es, d);
    TakenFollows(t, es, c);
  }

  lemma WrittenIsTaken(t: SocksSession.Ipv6Text, es: seq<Event>, c: nat)
    requires c < |Exec(t, es).actors| && Alone(Exec(t, es), c)
    requires Exec(t, es).actors[c].s.uuid !in Exec(t, es).far.log.torn
    ensures ProxySide.WrittenFor(Exec(t, es).far.log, Exec(t, es).actors[c].s.uuid)
      <= SocksStream.DataOf(ItemsTaken(t, es, c))
  {
    SessionsSendTaken(t, es, c);
    SessionTheorems.UpstreamConserved(t, es, Exec(t, es).actors[c].s.uuid);
  }

  /** Let a session whose uuid no other session has take items of a byte stream, however cut. Then the
      far end dials for it, and has opened sockets for it, only at the address that stream asks for, and
      as long as all its data was written whole, what those sockets have been given is a prefix of the
      data in that stream. */
  lemma {:induction false} TargetsGetTheStream(t: SocksSession.Ipv6Text, es: seq<Event>, c: nat, chunks: seq<seq<byte>>)
    requires c < |Exec(t, es).actors| && Alone(Exec(t, es), c)
    requires ItemsTaken(t, es, c) <= SocksStream.FeedAll(chunks).items
    ensures var s := Exec(t, es);
      var u := s.actors[c].s.uuid;
      var meaning := SocksStream.Meaning(Joined(chunks));
      && (forall d :: d in s.far.s.dials + s.far.log.sockets && d.uuid == u ==>
            AddressAsked(t, meaning.headers) == Some(d.addr))
      && (u !in s.far.log.torn ==> ProxySide.WrittenFor(s.far.log, u) <= meaning.data)
  {
    var s := Exec(t, es);
    var u := s.actors[c].s.uuid;
    TakenIsMeant(t, ItemsTaken(t, es, c), chunks);
    forall d | d in s.far.s.dials + s.far.log.sockets && d.uuid == u
      ensures AddressAsked(t, ItemsTaken(t, es, c)) == Some(d.addr)
    {
      DialsAreTaken(t, es, c, d);
    }
    if u !in s.far.log.torn {
      WrittenIsTaken(t, es, c);
    }
  }

  /** Once the whole stream has been taken and nothing is on its way up, the target has been given all
      of its data if and only if it was written whole, unless the greeting was overlooked. */
  lemma {:induction false} QuietTargetsHaveTheStream(t: SocksSession.Ipv6Text, es: seq<Event>, c: nat,
                                                      chunks: seq<seq<byte>>)
    requires c < |Exec(t, es).actors| && Alone(Exec(t, es), c)
    requires ItemsTaken(t, es, c) == SocksStream.FeedAll(chunks).items
    requires SocksStream.FeedAll(chunks).phase != SocksRequests.NEGOTIATION
    requires Exec(t, es).status.Serving? && Exec(t, es).mailbox == [] && Exec(t, es).server.writer == []
    ensures var s := Exec(t, es);
      var u := s.actors[c].s.uuid;
      ProxySide.WrittenFor(s.far.log, u) == SocksStream.Meaning(Joined(chunks)).data
      <==> u !in s.far.log.torn
  {
    var s := Exec(t, es);
    var u := s.actors[c].s.uuid;
    SessionsSendTaken(t, es, c);
    SessionTheorems.UpstreamConserved(t, es, u);
    SocksStream.FeedTracks(chunks);
    SocksStream.PastNegotiationMeansMeaning(SocksStream.FeedAll(chunks), Joined(chunks));
  }

  // ---- The address is the one on the wire ----

  /** If a byte stream asks for an address, then behind its greeting stands a request of section 4 of
      RFC 1928, then its data, and the text dialled names the address and the port of that request. */
  lemma {:induction false} AskedIsOnWire(t: SocksSession.Ipv6Text, input: seq<byte>)
    requires AddressAsked(t, SocksStream.Meaning(input).headers).Some?
    ensures var meaning := SocksStream.Meaning(input);
      && SocksRequests.GreetingPresent(input) && |meaning.headers| == 2 && meaning.headers[1].Target?
      && var r, buf := meaning.headers[1].request, SocksStream.AfterGreeting(input);
         && SocksRequests.Encodable(r.address) && |buf| >= 3
         && buf == SocksRequests.TargetBytes(
                     buf[0], r.command, buf[2], r.address, SocksMessages.Unsigned(r.port)) + meaning.data
         && AddressText.Names(t, AddressAsked(t, meaning.headers).value, r.address, r.port)
  {
    var meaning := SocksStream.Meaning(input);
    SocksRequests.TargetWasOnWire(SocksStream.AfterGreeting(input));
    AddressText.TextNamesTarget(t, meaning.headers[1].request);
  }
}
