/** Whole streams of SOCKS requests: the order of items, what becomes of every byte, and when the
    way a stream is cut into chunks matters. */
module SocksStream {
  import opened Bytes
  import opened Sequences
  import opened SocksMessages
  import opened SocksRequests

  /** A connection's parser: its phase, the bytes not yet parsed, the items so far, whether it panicked. */
  datatype Reader = Reader(phase: Phase, buffer: seq<byte>, items: seq<SocksRequest>, panicked: bool)

  const FRESH := Reader(NEGOTIATION, [], [], false)

  function Arrive(r: Reader, chunk: seq<byte>): Reader {
    r.(buffer := r.buffer + chunk)
  }

  /** One call of `decode`. */
  function Call(r: Reader): Reader {
    var d := DecodeRequest(r.phase, r.buffer);
    match d.outcome
    case Item(item) =>
      ItemsProgress(r.phase, r.buffer);
      Reader(Accept(r.phase, item).value, d.rest, r.items + [item], r.panicked)
    case Panic => r.(buffer := d.rest, panicked := true)
    case _ => r.(buffer := d.rest)
  }

  function Drain(r: Reader): Reader
    decreases |r.buffer|
  {
    if r.panicked then r
    else if DecodeRequest(r.phase, r.buffer).outcome.Item? then
      ItemsProgress(r.phase, r.buffer);
      Drain(Call(r))
    else Call(r)
  }

  function FeedAll(chunks: seq<seq<byte>>): Reader {
    if chunks == [] then FRESH
    else Feed(FeedAll(chunks[..|chunks| - 1]), chunks[|chunks| - 1])
  }

  function Feed(r: Reader, chunk: seq<byte>): Reader {
    if r.panicked then r else Drain(Arrive(r, chunk))
  }

  // ---- The reference: what a stream means ----

  /** The data carried by a list of items. */
  function DataOf(items: seq<SocksRequest>): seq<byte> {
    if items == [] then []
    else DataOf(items[..|items| - 1])
         + if items[|items| - 1].Data? then items[|items| - 1].data else []
  }

  /** What an observer sees of a stream: the two headers, a panic, and the data run together. */
  datatype Summary = Summary(headers: seq<SocksRequest>, panicked: bool, data: seq<byte>)

  /** The meaning of a whole stream, from the wire formats alone: greeting, request, data. */
  function Meaning(input: seq<byte>): Summary {
    if !GreetingPresent(input) then Summary([], false, [])
    else
      var d := DecodeTarget(AfterGreeting(input));
      match d.outcome
      case Item(t) => Summary([GreetingOf(input), t], false, d.rest)
      case Panic => Summary([GreetingOf(input)], true, [])
      case _ => Summary([GreetingOf(input)], false, [])
  }

  function AfterGreeting(input: seq<byte>): seq<byte>
    requires GreetingPresent(input)
  {
    input[2 + input[1] as int..]
  }

  function Headers(items: seq<SocksRequest>): seq<SocksRequest> {
    if |items| <= 2 then items else items[..2]
  }

  function Summarise(r: Reader): Summary {
    Summary(Headers(r.items), r.panicked, DataOf(r.items))
  }

  /** What a live or panicked parser has done with `input`. */
  predicate Tracks(r: Reader, input: seq<byte>) {
    match r.phase
    case NEGOTIATION => r.items == [] && !r.panicked && r.buffer == input
    case WORKING =>
      && GreetingPresent(input)
      && r.items == [GreetingOf(input)]
      && (if r.panicked then DecodeTarget(AfterGreeting(input)).outcome.Panic?
          else r.buffer == AfterGreeting(input))
    case READY =>
      && GreetingPresent(input) && !r.panicked
      && DecodeTarget(AfterGreeting(input)).outcome.Item?
      && |r.items| >= 2
      && r.items[..2] == [GreetingOf(input), DecodeTarget(AfterGreeting(input)).outcome.item]
      && (forall i :: 2 <= i < |r.items| ==> r.items[i].Data? && r.items[i].data != [])
      && DataOf(r.items) + r.buffer == DecodeTarget(AfterGreeting(input)).rest
  }

  lemma DataOfHeaders(items: seq<SocksRequest>)
    requires |items| <= 2 && forall i :: 0 <= i < |items| ==> !items[i].Data?
    ensures DataOf(items) == []
  {
  }

  lemma ArriveTracks(r: Reader, input: seq<byte>, chunk: seq<byte>)
    requires Tracks(r, input)
    ensures Tracks(if r.panicked then r else Arrive(r, chunk), input + chunk)
  {
    if r.phase != NEGOTIATION {
      GreetingKept(input, chunk);
      TargetMonotone(AfterGreeting(input), chunk);
    }
  }

  lemma GreetingKept(input: seq<byte>, chunk: seq<byte>)
    requires GreetingPresent(input)
    ensures GreetingPresent(input + chunk) && GreetingOf(input + chunk) == GreetingOf(input)
    ensures AfterGreeting(input + chunk) == AfterGreeting(input) + chunk
  {
  }

  lemma CallTracks(r: Reader, input: seq<byte>)
    requires Tracks(r, input) && !r.panicked
    ensures Tracks(Call(r), input)
  {
    match r.phase
    case NEGOTIATION => GreetingExactly(input);
    case WORKING =>
      var d := DecodeTarget(r.buffer);
      if d.outcome.Item? {
        DataOfHeaders(r.items + [d.outcome.item]);
      }
    case READY =>
      if r.buffer != [] {
        assert Call(r).items[..2] == r.items[..2];
        assert Call(r).items[..|r.items|] == r.items;
      }
  }

  lemma {:induction false} DrainTracks(r: Reader, input: seq<byte>)
    requires Tracks(r, input)
    ensures Tracks(Drain(r), input)
    ensures Drain(r).panicked || DecodeRequest(Drain(r).phase, Drain(r).buffer).outcome.Pending?
    ensures r.phase == NEGOTIATION && !r.panicked ==>
      (Drain(r).phase == NEGOTIATION <==> DecodeGreeting(input).outcome.Pending?)
    ensures r.phase != NEGOTIATION ==> Drain(r).phase != NEGOTIATION
    decreases |r.buffer|
  {
    if !r.panicked {
      CallTracks(r, input);
      if DecodeRequest(r.phase, r.buffer).outcome.Item? {
        ItemsProgress(r.phase, r.buffer);
        DrainTracks(Call(r), input);
      } else if r.phase == WORKING {
        TargetMonotone(r.buffer, []);
      }
    }
  }

  /** Over every chunking the items come in order, no data item is empty, and after the two headers
      the data delivered is exactly the rest of the input. */
  lemma {:induction false} FeedTracks(chunks: seq<seq<byte>>)
    ensures var r := FeedAll(chunks);
      && Tracks(r, Joined(chunks))
      && (r.panicked || DecodeRequest(r.phase, r.buffer).outcome.Pending?)
  {
    if chunks != [] {
      var front, chunk := chunks[..|chunks| - 1], chunks[|chunks| - 1];
      FeedTracks(front);
      ArriveTracks(FeedAll(front), Joined(front), chunk);
      if !FeedAll(front).panicked {
        DrainTracks(Arrive(FeedAll(front), chunk), Joined(chunks));
      }
    }
  }

  /** Once the greeting has been taken, chunks no longer matter: the reader shows what the stream means. */
  lemma PastNegotiationMeansMeaning(r: Reader, input: seq<byte>)
    requires Tracks(r, input) && (r.panicked || DecodeRequest(r.phase, r.buffer).outcome.Pending?)
    ensures Summarise(r) == Meaning(input) <==> (r.phase != NEGOTIATION || !GreetingPresent(input))
  {
    match r.phase
    case NEGOTIATION =>
    case WORKING =>
      DataOfHeaders(r.items);
    case READY =>
      assert r.buffer == [];
      assert DataOf(r.items) == DataOf(r.items) + r.buffer;
  }

  /** The greeting parser accepts: two bytes and, modulo 256, enough after them. */
  predicate Recognised(buf: seq<byte>) {
    |buf| >= 2 && (|buf| - 2) % 0x100 >= buf[1] as int
  }

  /** It accepts the stream as it stands after `k` chunks. */
  predicate RecognisedAfter(chunks: seq<seq<byte>>, k: nat)
    requires k <= |chunks|
  {
    Recognised(Joined(chunks[..k]))
  }

  lemma FeedLeaves(r: Reader, input: seq<byte>, chunk: seq<byte>)
    requires Tracks(r, input)
    ensures Feed(r, chunk).phase != NEGOTIATION <==> (r.phase != NEGOTIATION || Recognised(input + chunk))
  {
    if !r.panicked {
      ArriveTracks(r, input, chunk);
      DrainTracks(Arrive(r, chunk), input + chunk);
    }
  }

  lemma {:induction false} NegotiationLeft(chunks: seq<seq<byte>>)
    ensures FeedAll(chunks).phase != NEGOTIATION <==> exists k :: 0 <= k <= |chunks| && RecognisedAfter(chunks, k)
  {
    if chunks == [] {
      assert !RecognisedAfter(chunks, 0);
    } else {
      var front := chunks[..|chunks| - 1];
      NegotiationLeft(front);
      FeedTracks(front);
      FeedLeaves(FeedAll(front), Joined(front), chunks[|chunks| - 1]);
      assert chunks[..|chunks|] == chunks;
      assert RecognisedAfter(chunks, |chunks|) == Recognised(Joined(front) + chunks[|chunks| - 1]);
      forall k | 0 <= k < |chunks|
        ensures RecognisedAfter(front, k) == RecognisedAfter(chunks, k)
      {
        assert front[..k] == chunks[..k];
      }
      if k: nat :| k <= |chunks| && RecognisedAfter(chunks, k) {
        assert k == |chunks| || RecognisedAfter(front, k);
      }
      if k: nat :| k <= |front| && RecognisedAfter(front, k) {
        assert RecognisedAfter(chunks, k);
      }
    }
  }

  /** However a stream is cut, what is observed is its meaning if and only if its greeting is
      incomplete or the greeting parser accepts at one of the chunk boundaries. */
  lemma {:induction false} ChunksMatterExactly(chunks: seq<seq<byte>>)
    ensures Summarise(FeedAll(chunks)) == Meaning(Joined(chunks))
      <==> (!GreetingPresent(Joined(chunks))
            || exists k :: 0 <= k <= |chunks| && RecognisedAfter(chunks, k))
  {
    FeedTracks(chunks);
    NegotiationLeft(chunks);
    PastNegotiationMeansMeaning(FeedAll(chunks), Joined(chunks));
  }

  /** In particular the cut does not matter when the greeting completes within 257 bytes. */
  lemma ShortGreetingIndependent(chunks: seq<seq<byte>>, k: nat)
    requires k <= |chunks|
    requires GreetingPresent(Joined(chunks[..k])) && |Joined(chunks[..k])| <= 257
    ensures Summarise(FeedAll(chunks)) == Meaning(Joined(chunks))
  {
    ChunksMatterExactly(chunks);
    assert RecognisedAfter(chunks, k);
  }

  function Zeros(n: nat): (s: seq<byte>)
    ensures |s| == n
  {
    seq(n, i => 0)
  }

  lemma JoinedUpTo(a: seq<byte>, b: seq<byte>)
    ensures Joined([a]) == a && Joined([a, b]) == a + b && Joined<byte>([]) == []
    ensures [a][..0] == [] && [a][..1] == [a] && [a, b][..1] == [a]
  {
    assert [a][..0] == [] && [a, b][..1] == [a];
    assert Joined([a]) == Joined([a][..0]) + a;
    assert Joined([a, b]) == Joined([a, b][..1]) + b;
  }

  lemma SplitIsSeen(greeting: seq<byte>, more: seq<byte>)
    requires Recognised(greeting)
    ensures FeedAll([greeting, more]).items != []
  {
    JoinedUpTo(greeting, more);
    assert RecognisedAfter([greeting, more], 1);
    NegotiationLeft([greeting, more]);
    FeedTracks([greeting, more]);
  }

  lemma TogetherIsOverlooked(buf: seq<byte>)
    requires !Recognised(buf)
    ensures FeedAll([buf]).items == []
  {
    JoinedUpTo(buf, []);
    assert !RecognisedAfter([buf], 0) && !RecognisedAfter([buf], 1);
    NegotiationLeft([buf]);
    FeedTracks([buf]);
  }

  /** A greeting with 255 more bytes behind it is seen when they arrive separately, overlooked when
      they arrive together. */
  lemma ChunksCanMatter()
    ensures var greeting: seq<byte> := [5, 1, 0];
      && Joined([greeting, Zeros(255)]) == Joined([greeting + Zeros(255)])
      && FeedAll([greeting, Zeros(255)]).items != []
      && FeedAll([greeting + Zeros(255)]).items == []
  {
    var greeting: seq<byte> := [5, 1, 0];
    JoinedUpTo(greeting, Zeros(255));
    JoinedUpTo(greeting + Zeros(255), []);
    SplitIsSeen(greeting, Zeros(255));
    TogetherIsOverlooked(greeting + Zeros(255));
  }

  // ---- The order of items ----

  /** The phase a list of items leads to, if the parser lets them come in that order. */
  function AcceptAll(items: seq<SocksRequest>): Option<Phase> {
    if items == [] then Some(NEGOTIATION)
    else
      match AcceptAll(items[..|items| - 1])
      case Some(phase) => Accept(phase, items[|items| - 1])
      case None => None
  }

  lemma {:induction false} AcceptPrefix(items: seq<SocksRequest>, k: nat)
    requires k <= |items| && AcceptAll(items).Some?
    ensures AcceptAll(items[..k]).Some?
  {
    if k == |items| {
      assert items[..k] == items;
    } else {
      AcceptPrefix(items[..|items| - 1], k);
      assert items[..|items| - 1][..k] == items[..k];
    }
  }

  lemma {:induction false} DrainAccepted(r: Reader)
    requires AcceptAll(r.items) == Some(r.phase)
    ensures AcceptAll(Drain(r).items) == Some(Drain(r).phase)
    decreases |r.buffer|
  {
    if !r.panicked && DecodeRequest(r.phase, r.buffer).outcome.Item? {
      ItemsProgress(r.phase, r.buffer);
      var item := DecodeRequest(r.phase, r.buffer).outcome.item;
      assert (r.items + [item])[..|r.items|] == r.items;
      DrainAccepted(Call(r));
    }
  }

  /** The items of any stream, however cut, come in that order. */
  lemma {:induction false} ItemsAccepted(chunks: seq<seq<byte>>)
    ensures AcceptAll(FeedAll(chunks).items) == Some(FeedAll(chunks).phase)
  {
    if chunks != [] {
      var front := FeedAll(chunks[..|chunks| - 1]);
      ItemsAccepted(chunks[..|chunks| - 1]);
      if !front.panicked {
        DrainAccepted(Arrive(front, chunks[|chunks| - 1]));
      }
    }
  }

  lemma {:induction false} DataPrefix(items: seq<SocksRequest>, k: nat)
    requires k <= |items|
    ensures DataOf(items[..k]) <= DataOf(items)
  {
    if k == |items| {
      assert items[..k] == items;
    } else {
      DataPrefix(items[..|items| - 1], k);
      assert items[..|items| - 1][..k] == items[..k];
    }
  }

  /** Whatever has been parsed of a stream is part of what the stream means. */
  lemma {:induction false} ParsedIsMeant(chunks: seq<seq<byte>>)
    ensures var r, meaning := FeedAll(chunks), Meaning(Joined(chunks));
      && Headers(r.items) <= meaning.headers
      && DataOf(r.items) <= meaning.data
  {
    FeedTracks(chunks);
    var r, input := FeedAll(chunks), Joined(chunks);
    PastNegotiationMeansMeaning(r, input);
    if r.phase == NEGOTIATION {
      assert DataOf(r.items) == [];
    }
  }
}
