/** Streams of frames: decoding does not depend on how bytes are cut into chunks, and a byte pipe
    between an encoder and a decoder is a first-in-first-out queue of messages. */
module FrameStream {
  import opened Bytes
  import opened Sequences
  import opened Messages
  import opened Aead
  import opened FrameCodec

  datatype Status = Running | Errored | Panicked

  /** Items decoded so far, bytes still buffered, and whether the reader is still alive. */
  datatype Reader = Reader(items: seq<Message>, rest: seq<byte>, status: Status)

  /** Decodes until the decoder asks for more bytes, fails or panics. */
  function Drain(c: Cipher, buf: seq<byte>): Reader
    requires c.Lawful()
    decreases |buf|
  {
    DecodeMonotone(c, buf, []);
    var d := DecodeFrame(c, buf);
    match d.outcome
    case Pending => Reader([], buf, Running)
    case Error => Reader([], d.rest, Errored)
    case Panic => Reader([], d.rest, Panicked)
    case Item(m) =>
      Prefixed(m, Drain(c, d.rest))
  }

  function Prefixed(m: Message, r: Reader): Reader {
    Reader([m] + r.items, r.rest, r.status)
  }

  /** The same items and the same end; while alive, also the same buffered bytes. */
  predicate Agree(r: Reader, s: Reader) {
    r.items == s.items && r.status == s.status && (r.status == Running ==> r.rest == s.rest)
  }

  /** A chunk arrives at a reader. */
  function Feed(c: Cipher, r: Reader, chunk: seq<byte>): Reader
    requires c.Lawful()
  {
    if r.status != Running then r
    else
      var d := Drain(c, r.rest + chunk);
      Reader(r.items + d.items, d.rest, d.status)
  }

  function FeedAll(c: Cipher, chunks: seq<seq<byte>>): Reader
    requires c.Lawful()
  {
    if chunks == [] then Reader([], [], Running)
    else Feed(c, FeedAll(c, chunks[..|chunks| - 1]), chunks[|chunks| - 1])
  }

  lemma FeedPrefixed(c: Cipher, m: Message, r: Reader, b: seq<byte>)
    requires c.Lawful()
    ensures Feed(c, Prefixed(m, r), b) == Prefixed(m, Feed(c, r, b))
  {
  }

  lemma {:induction false} DrainAppend(c: Cipher, a: seq<byte>, b: seq<byte>)
    requires c.Lawful()
    ensures Agree(Drain(c, a + b), Feed(c, Drain(c, a), b))
    decreases |a|
  {
    DecodeMonotone(c, a, b);
    var d := DecodeFrame(c, a);
    match d.outcome
    case Item(m) =>
      DrainAppend(c, d.rest, b);
      FeedPrefixed(c, m, Drain(c, d.rest), b);
      assert Drain(c, a + b) == Prefixed(m, Drain(c, d.rest + b));
    case Pending => assert Drain(c, a) == Reader([], a, Running);
    case _ =>
  }

  /** Valid or not, a byte stream decodes to the same items and ends the same way however it is cut. */
  lemma {:induction false} ChunkIndependence(c: Cipher, chunks: seq<seq<byte>>)
    requires c.Lawful()
    ensures Agree(FeedAll(c, chunks), Drain(c, Joined(chunks)))
  {
    if chunks != [] {
      var front := chunks[..|chunks| - 1];
      ChunkIndependence(c, front);
      DrainAppend(c, Joined(front), chunks[|chunks| - 1]);
    }
  }

  // ---- The byte pipe ----

  /** A message given to the encoder with the random bytes it drew. */
  datatype Sent = Sent(m: Message, random: seq<byte>)

  /** Everything ever sent, the bytes in transit, the bytes received but not decoded, everything decoded. */
  datatype Pipe = Pipe(
    sent: seq<Sent>, wire: seq<byte>, buffer: seq<byte>, received: seq<Message>, status: Status)

  datatype Event =
    | Send(s: Sent)
    | Carry(n: nat)
    | Poll

  const EMPTY := Pipe([], [], [], [], Running)

  predicate Sendable(c: Cipher, s: Sent) {
    && MadeByNew(s.m) && CanSeal(c, s.m) && |s.random| == 4
    && s.m.transferLen < 0x1_0000_0000
  }

  /** One step; an event that cannot happen changes nothing. */
  function Next(c: Cipher, p: Pipe, e: Event): Pipe
    requires c.Lawful()
  {
    match e
    case Send(s) =>
      if Sendable(c, s) then p.(sent := p.sent + [s], wire := p.wire + EncodeFrame(c, s.m, s.random)) else p
    case Carry(n) =>
      if n <= |p.wire| then p.(buffer := p.buffer + p.wire[..n], wire := p.wire[n..]) else p
    case Poll =>
      if p.status != Running then p
      else
        var d := DecodeFrame(c, p.buffer);
        match d.outcome
        case Pending => p.(buffer := d.rest)
        case Error => p.(buffer := d.rest, status := Errored)
        case Panic => p.(buffer := d.rest, status := Panicked)
        case Item(m) => p.(buffer := d.rest, received := p.received + [m])
  }

  function Exec(c: Cipher, es: seq<Event>): Pipe
    requires c.Lawful()
  {
    if es == [] then EMPTY else Next(c, Exec(c, es[..|es| - 1]), es[|es| - 1])
  }

  function Frames(c: Cipher, q: seq<Sent>): seq<byte> {
    if q == [] then [] else EncodeFrame(c, q[0].m, q[0].random) + Frames(c, q[1..])
  }

  lemma {:induction false} FramesSnoc(c: Cipher, q: seq<Sent>, s: Sent)
    ensures Frames(c, q + [s]) == Frames(c, q) + EncodeFrame(c, s.m, s.random)
  {
    if q == [] {
      assert Frames(c, [s]) == EncodeFrame(c, s.m, s.random) + Frames(c, []);
    } else {
      FramesSnoc(c, q[1..], s);
      assert (q + [s])[1..] == q[1..] + [s];
    }
  }

  /** The abstract queue: what has been sent and not yet received, and what has been received. */
  function Undelivered(p: Pipe): seq<Sent>
    requires |p.received| <= |p.sent|
  {
    p.sent[|p.received|..]
  }

  /** The pipe is a queue: alive, in order, and holding exactly the frames of the undelivered messages. */
  predicate IsQueue(c: Cipher, p: Pipe) {
    && p.status == Running
    && |p.received| <= |p.sent|
    && (forall i :: 0 <= i < |p.received| ==> p.received[i] == p.sent[i].m)
    && (forall i :: 0 <= i < |p.sent| ==> Sendable(c, p.sent[i]))
    && p.buffer + p.wire == Frames(c, Undelivered(p))
  }

  /** What an event does to the abstract queue. A poll takes the head exactly when its frame has arrived. */
  predicate QueueStep(c: Cipher, p: Pipe, e: Event, p': Pipe)
    requires |p.received| <= |p.sent| && |p'.received| <= |p'.sent|
  {
    var q, q' := Undelivered(p), Undelivered(p');
    match e
    case Send(s) => p'.received == p.received && q' == if Sendable(c, s) then q + [s] else q
    case Carry(_) => p'.received == p.received && q' == q
    case Poll =>
      if q != [] && |EncodeFrame(c, q[0].m, q[0].random)| <= |p.buffer|
      then p'.received == p.received + [q[0].m] && q' == q[1..]
      else p' == p
  }

  lemma PollTakesHead(c: Cipher, p: Pipe)
    requires c.Lawful() && IsQueue(c, p)
    ensures var p' := Next(c, p, Poll);
      IsQueue(c, p') && QueueStep(c, p, Poll, p')
  {
    var q := Undelivered(p);
    var p' := Next(c, p, Poll);
    if q == [] {
      assert p.buffer == [];
    } else {
      var frame := EncodeFrame(c, q[0].m, q[0].random);
      var stream := p.buffer + p.wire;
      assert stream == frame + Frames(c, q[1..]);
      if |p.buffer| < |frame| {
        assert p.buffer == stream[..|p.buffer|] == frame[..|p.buffer|];
        StrictPrefixPending(c, q[0].m, q[0].random, |p.buffer|);
      } else {
        var tail := p.buffer[|frame|..];
        assert p.buffer[..|frame|] == stream[..|frame|] == frame;
        assert p.buffer == frame + tail;
        DecodeEncoded(c, q[0].m, q[0].random, tail);
        assert tail + p.wire == stream[|frame|..] == Frames(c, q[1..]);
        assert Undelivered(p') == q[1..];
      }
    }
  }

  lemma SendEnqueues(c: Cipher, p: Pipe, s: Sent)
    requires c.Lawful() && IsQueue(c, p) && Sendable(c, s)
    ensures var p' := Next(c, p, Send(s));
      IsQueue(c, p') && QueueStep(c, p, Send(s), p')
  {
    var p' := Next(c, p, Send(s));
    FramesSnoc(c, Undelivered(p), s);
    assert Undelivered(p') == Undelivered(p) + [s];
    assert p'.buffer + p'.wire == (p.buffer + p.wire) + EncodeFrame(c, s.m, s.random);
  }

  lemma StepIsQueueStep(c: Cipher, p: Pipe, e: Event)
    requires c.Lawful() && IsQueue(c, p)
    ensures var p' := Next(c, p, e);
      IsQueue(c, p') && QueueStep(c, p, e, p')
  {
    match e
    case Send(s) =>
      if Sendable(c, s) {
        SendEnqueues(c, p, s);
      }
    case Carry(n) => assert Next(c, p, e).buffer + Next(c, p, e).wire == p.buffer + p.wire;
    case Poll => PollTakesHead(c, p);
  }

  /** Over every run: nothing is lost, duplicated, reordered or altered, and the decoder never fails. */
  lemma {:induction false} PipeIsQueue(c: Cipher, es: seq<Event>)
    requires c.Lawful()
    ensures IsQueue(c, Exec(c, es))
  {
    if es == [] {
      assert Undelivered(EMPTY) == [];
    } else {
      PipeIsQueue(c, es[..|es| - 1]);
      StepIsQueueStep(c, Exec(c, es[..|es| - 1]), es[|es| - 1]);
    }
  }

  /** When all bytes have arrived and the decoder asks for more, every message has been received. */
  lemma QuietPipeHasDelivered(c: Cipher, es: seq<Event>)
    requires c.Lawful()
    requires var p := Exec(c, es); p.wire == [] && DecodeFrame(c, p.buffer).outcome.Pending?
    ensures var p := Exec(c, es);
      |p.received| == |p.sent| && p.buffer == []
      && forall i :: 0 <= i < |p.sent| ==> p.received[i] == p.sent[i].m
  {
    PipeIsQueue(c, es);
    var p := Exec(c, es);
    var q := Undelivered(p);
    if q != [] {
      assert p.buffer == EncodeFrame(c, q[0].m, q[0].random) + Frames(c, q[1..]);
      DecodeEncoded(c, q[0].m, q[0].random, Frames(c, q[1..]));
    }
  }
}
