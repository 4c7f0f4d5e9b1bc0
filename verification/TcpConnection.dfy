// Receiving messages over a byte stream (src/ps/tcp_connection.cc): one growing, trimmed
// input buffer, from which complete messages are taken off as the bytes arrive in chunks of
// any size; and the output buffer of one message at a time.
module TcpConnections {
  import opened Bytes
  import opened DistMessages

  // ---------------------------------------------------------------------------------------
  // The specification: taking messages off a byte sequence
  // ---------------------------------------------------------------------------------------

  /** The messages taken off, the bytes left over, and whether a malformed one was met. */
  datatype Drained = Drained(messages: seq<Message>, rest: Buf, malformed: bool)

  function Drain(pending: Buf): (d: Drained)
    ensures |d.rest| <= |pending|
    ensures d.messages == [] ==> d.rest == pending
    decreases |pending|
  {
    match Attempted(pending)
    case Incomplete => Drained([], pending, false)
    case Malformed => Drained([], pending, true)
    case Complete(m, consumed) =>
      var d := Drain(pending[consumed..]);
      Drained([m] + d.messages, d.rest, d.malformed)
  }

  /** The same with the bytes arriving in chunks: each chunk is appended to what was left. */
  function Feed(pending: Buf, chunks: seq<Buf>): Drained
    decreases |chunks|
  {
    if chunks == [] then Drained([], pending, false)
    else
      var d := Drain(pending + chunks[0]);
      if d.malformed then d
      else
        var e := Feed(d.rest, chunks[1..]);
        Drained(d.messages + e.messages, e.rest, e.malformed)
  }

  function Concat(chunks: seq<Buf>): Buf {
    if chunks == [] then [] else chunks[0] + Concat(chunks[1..])
  }

  predicate AllSendable(ms: seq<Message>) {
    forall i :: 0 <= i < |ms| ==> Sendable(ms[i])
  }

  function EncodeAll(ms: seq<Message>): Buf
    requires AllSendable(ms)
  {
    if ms == [] then [] else Encode(ms[0]) + EncodeAll(ms[1..])
  }

  // ---------------------------------------------------------------------------------------
  // Chunking does not matter
  // ---------------------------------------------------------------------------------------

  lemma {:induction false} DrainedRestIsIncomplete(pending: Buf)
    ensures !Drain(pending).malformed ==> Attempted(Drain(pending).rest) == Incomplete
    decreases |pending|
  {
    match Attempted(pending) {
      case Complete(_, consumed) => DrainedRestIsIncomplete(pending[consumed..]);
      case _ =>
    }
  }

  /** Draining in two goes is draining once. */
  lemma {:induction false} DrainAppend(a: Buf, b: Buf)
    requires !Drain(a).malformed
    ensures var d, e := Drain(a), Drain(Drain(a).rest + b);
            Drain(a + b) == Drained(d.messages + e.messages, e.rest, e.malformed)
    decreases |a|
  {
    hide Attempted;
    match Attempted(a) {
      case Incomplete =>
      case Complete(m, consumed) =>
        AttemptedIsStable(a, b);
        assert (a + b)[consumed..] == a[consumed..] + b;
        DrainAppend(a[consumed..], b);
        var d, e := Drain(a[consumed..]), Drain(Drain(a[consumed..]).rest + b);
        assert [m] + (d.messages + e.messages) == ([m] + d.messages) + e.messages;
    }
  }

  /** However any bytes are cut into chunks, the messages and whether a malformed one is met are
      those of all the bytes at once; so is what is left over, unless a malformed message stops
      the reading before the last chunk. */
  lemma {:induction false} FeedIsDrain(pending: Buf, chunks: seq<Buf>)
    requires Attempted(pending) == Incomplete
    ensures var f, d := Feed(pending, chunks), Drain(pending + Concat(chunks));
            && f.messages == d.messages && f.malformed == d.malformed && f.rest <= d.rest
            && (!d.malformed ==> f == d)
    decreases |chunks|
  {
    if chunks == [] {
      assert pending + Concat(chunks) == pending;
    } else {
      var first, others := pending + chunks[0], Concat(chunks[1..]);
      assert pending + Concat(chunks) == first + others;
      if Drain(first).malformed {
        DrainMalformed(first, others);
      } else {
        DrainAppend(first, others);
        DrainedRestIsIncomplete(first);
        FeedIsDrain(Drain(first).rest, chunks[1..]);
      }
    }
  }

  /** Nothing is taken off behind a malformed message. */
  lemma {:induction false} DrainMalformed(a: Buf, b: Buf)
    requires Drain(a).malformed
    ensures Drain(a + b) == Drained(Drain(a).messages, Drain(a).rest + b, true)
    decreases |a|
  {
    hide Attempted;
    AttemptedIsStable(a, b);
    if Attempted(a).Complete? {
      var consumed := Attempted(a).consumed;
      assert (a + b)[consumed..] == a[consumed..] + b;
      DrainMalformed(a[consumed..], b);
    }
  }

  // ---------------------------------------------------------------------------------------
  // A stream of encoded messages
  // ---------------------------------------------------------------------------------------

  lemma {:induction false} EncodeAllSplit(ms: seq<Message>, k: nat)
    requires AllSendable(ms) && k <= |ms|
    ensures EncodeAll(ms) == EncodeAll(ms[..k]) + EncodeAll(ms[k..])
  {
    hide Encode, Sendable;
    if k > 0 {
      EncodeAllSplit(ms[1..], k - 1);
      assert ms[..k][1..] == ms[1..][..k - 1];
      assert ms[k..] == ms[1..][k - 1..];
    } else {
      assert ms[k..] == ms;
    }
  }

  lemma NothingToDrain()
    ensures Drain([]) == Drained([], [], false)
  {
  }

  /** What has been made of the first n bytes of a stream of messages: the messages that lie
      completely within them, in order, and exactly the bytes after the last of those. */
  ghost predicate Delivered(ms: seq<Message>, n: nat, d: Drained)
    requires AllSendable(ms) && n <= |EncodeAll(ms)|
  {
    && !d.malformed
    && d.messages <= ms
    && EncodeAll(d.messages) + d.rest == EncodeAll(ms)[..n]
    && (|d.messages| < |ms| ==> |d.rest| < |Encode(ms[|d.messages|])|)
  }

  lemma DrainOfFirst(m: Message, tail: Buf)
    requires Sendable(m)
    ensures Drain(Encode(m) + tail)
            == Drained([m] + Drain(tail).messages, Drain(tail).rest, Drain(tail).malformed)
  {
    hide Attempted, Encode;
    SendableSize(m);
    FrameRoundTrip(m, tail);
    assert (Encode(m) + tail)[|Encode(m)|..] == tail;
  }

  lemma DeliveredFirst(ms: seq<Message>, n: nat, d: Drained)
    requires ms != [] && AllSendable(ms) && n <= |EncodeAll(ms[1..])|
    requires Delivered(ms[1..], n, d)
    ensures Delivered(ms, |Encode(ms[0])| + n, Drained([ms[0]] + d.messages, d.rest, false))
  {
    hide Encode, EncodeAll, Representable;
    var first, all := Encode(ms[0]), [ms[0]] + d.messages;
    assert all[1..] == d.messages && all <= ms;
    assert AllSendable(all) && AllSendable(d.messages);
    EncodeAllFirst(all);
    EncodeAllFirst(ms);
    TakeBeyond(first, EncodeAll(ms[1..]), n);
    Regroup(first, EncodeAll(d.messages), d.rest);
    if |all| < |ms| {
      assert ms[|all|] == ms[1..][|d.messages|];
    }
  }

  lemma EncodeAllFirst(ms: seq<Message>)
    requires AllSendable(ms) && ms != []
    ensures EncodeAll(ms) == Encode(ms[0]) + EncodeAll(ms[1..])
  {
    hide Encode, Sendable;
  }

  lemma TakeBeyond(a: Buf, b: Buf, n: nat)
    requires n <= |b|
    ensures (a + b)[..|a| + n] == a + b[..n]
  {
  }

  lemma Regroup(a: Buf, b: Buf, c: Buf)
    ensures (a + b) + c == a + (b + c)
  {
  }

  lemma {:induction false} DrainOfStream(ms: seq<Message>, n: nat)
    requires AllSendable(ms) && n <= |EncodeAll(ms)|
    ensures Delivered(ms, n, Drain(EncodeAll(ms)[..n]))
    decreases |ms|
  {
    hide Attempted, Encode, Delivered;
    if ms == [] {
      NothingToDrain();
      assert EncodeAll(ms)[..n] == [];
      NothingDelivered(ms, n);
    } else if n < |Encode(ms[0])| {
      FrameIncomplete(ms[0], n);
      assert EncodeAll(ms)[..n] == Encode(ms[0])[..n];
      NothingDelivered(ms, n);
    } else {
      var k := n - |Encode(ms[0])|;
      assert EncodeAll(ms)[..n] == Encode(ms[0]) + EncodeAll(ms[1..])[..k];
      DrainOfFirst(ms[0], EncodeAll(ms[1..])[..k]);
      DrainOfStream(ms[1..], k);
      DeliveredIsNotMalformed(ms[1..], k, Drain(EncodeAll(ms[1..])[..k]));
      DeliveredFirst(ms, k, Drain(EncodeAll(ms[1..])[..k]));
    }
  }

  lemma NothingDelivered(ms: seq<Message>, n: nat)
    requires AllSendable(ms) && n <= |EncodeAll(ms)|
    requires ms == [] || n < |Encode(ms[0])|
    ensures Delivered(ms, n, Drained([], EncodeAll(ms)[..n], false))
  {
    hide Encode;
    assert EncodeAll([]) + EncodeAll(ms)[..n] == EncodeAll(ms)[..n];
  }

  lemma DeliveredIsNotMalformed(ms: seq<Message>, n: nat, d: Drained)
    requires AllSendable(ms) && n <= |EncodeAll(ms)| && Delivered(ms, n, d)
    ensures !d.malformed
  {
  }

  lemma SendableSize(m: Message)
    requires Sendable(m)
    ensures |Encode(m)| < TWO31
  {
  }

  /** Whatever the chunks in which any part of the stream arrives, exactly the messages that
      have arrived completely are delivered, in order, and exactly the incomplete tail is kept. */
  lemma AnyChunkingDelivers(ms: seq<Message>, chunks: seq<Buf>)
    requires AllSendable(ms) && Concat(chunks) <= EncodeAll(ms)
    ensures Delivered(ms, |Concat(chunks)|, Feed([], chunks))
    ensures Concat(chunks) == EncodeAll(ms) ==> Feed([], chunks) == Drained(ms, [], false)
  {
    hide Attempted, Encode;
    var n := |Concat(chunks)|;
    assert [] + Concat(chunks) == EncodeAll(ms)[..n];
    DrainOfStream(ms, n);
    NothingToDrain();
    DrainedRestIsIncomplete([]);
    FeedIsDrain([], chunks);
    var d := Feed([], chunks);
    var k := |d.messages|;
    EncodeAllSplit(ms, k);
    assert d.messages == ms[..k];
    if Concat(chunks) == EncodeAll(ms) {
      assert d.rest == EncodeAll(ms[k..]);
      assert k == |ms| ==> ms[k..] == [];
    }
  }

  // ---------------------------------------------------------------------------------------
  // The class
  // ---------------------------------------------------------------------------------------

  const INITIAL_BUF_BYTES: nat := 100 * 1024
  const MAX_BUF_BYTES: nat := 10 * 1024 * 1024

  /** std::string::resize: cut, or filled up with zero bytes. */
  function Resize(s: Buf, n: nat): (r: Buf)
    ensures |r| == n
    ensures forall i :: 0 <= i < n && i < |s| ==> r[i] == s[i]
  {
    if n <= |s| then s[..n] else s + seq(n - |s|, _ => 0)
  }

  /** What a reading function with result `r` owes when the bytes at hand are `p`: the code
      for an incomplete message is `incomplete`, `rest` is kept, `m` is the message read. */
  predicate Took(p: Buf, incomplete: int, r: int, rest: Buf, m: Message) {
    match Attempted(p)
    case Incomplete => r == incomplete && rest == p
    case Malformed => r == -2 && rest == p
    case Complete(message, consumed) => r == 0 && rest == p[consumed..] && m == message
  }

  lemma TookOf(p: Buf, incomplete: int, m: Message)
    ensures Attempted(p) == Incomplete ==> Took(p, incomplete, incomplete, p, m)
    ensures Attempted(p) == Malformed ==> Took(p, incomplete, -2, p, m)
    ensures Attempted(p).Complete? ==>
              Took(p, incomplete, 0, p[Attempted(p).consumed..], Attempted(p).message)
  {
  }

  lemma TookIncomplete(p: Buf, r: int, rest: Buf, m: Message)
    requires Took(p, 1, r, rest, m)
    ensures if r == 1 then rest == p && Took(p, -1, -1, rest, m)
            else r != -1 && Took(p, -1, r, rest, m)
  {
  }

  lemma FirstOfSlice(s: Buf, i: nat, n: nat, k: nat)
    requires k <= n && i + n <= |s|
    ensures s[i..i + n][..k] == s[i..i + k] && s[i..i + n][k..] == s[i + k..i + n]
  {
  }

  lemma SliceJoin(s: Buf, i: nat, j: nat, k: nat)
    requires i <= j <= k <= |s|
    ensures s[i..j] + s[j..k] == s[i..k]
  {
  }

  lemma AttemptOf(p: Buf)
    ensures |p| < 4 ==> Attempted(p) == Incomplete
    ensures |p| >= 4 ==>
              var size := CastToSize(FromInt(p[..4]));
              && (|p| < size ==> Attempted(p) == Incomplete)
              && (|p| >= size && Decode(p[..size]).Bad? ==> Attempted(p) == Malformed)
              && (|p| >= size && Decode(p[..size]).Ok? ==>
                    size >= 8 && Attempted(p) == Complete(Decode(p[..size]).value, size))
  {
  }

  lemma JoinSlices(p: Buf, s: Buf, i: nat, n: nat)
    requires i + n <= |s|
    ensures (p + s[..i]) + s[i..][..n] == p + s[..i + n]
  {
  }

  class TcpConnection {
    var inBuf: Buf
    var inBufOffset: nat
    var inBytes: nat
    var inMessage: Message
    var outMessage: Message
    var outBuf: Buf
    var outBytes: nat

    ghost predicate Valid()
      reads this
    {
      && |inBuf| > 0
      && inBufOffset + inBytes <= |inBuf|
      && (inBufOffset > 0 ==> inBytes > 0)
      && outBytes <= |outBuf|
    }

    /** The received bytes that have not been taken off as messages. */
    ghost function Pending(): (b: Buf)
      reads this
      requires Valid()
      ensures |b| == inBytes
    {
      inBuf[inBufOffset..inBufOffset + inBytes]
    }

    /** The pending bytes and the n bytes received behind them. */
    ghost function Received(n: nat): (b: Buf)
      reads this
      requires Valid() && inBufOffset + inBytes + n <= |inBuf|
      ensures |b| == inBytes + n
    {
      Pending() + inBuf[inBufOffset + inBytes..inBufOffset + inBytes + n]
    }

    lemma ReceivedNothing()
      requires Valid()
      ensures Received(0) == Pending()
    {
    }

    /** The bytes of the current output message that have not been written. */
    ghost function Unwritten(): Buf
      reads this
      requires Valid()
    {
      outBuf[outBytes..]
    }

    constructor ()
      ensures Valid() && Pending() == [] && Unwritten() == []
    {
      inBuf := seq(INITIAL_BUF_BYTES, _ => 0);
      inBufOffset, inBytes := 0, 0;
      inMessage, outMessage := Untyped(0), Untyped(0);
      outBuf, outBytes := [], 0;
    }

    /** Where the next bytes are to be stored, and how many there is room for: never none. */
    method GetInBuf() returns (at: nat, room: nat)
      requires Valid()
      modifies this`inBuf, this`inBufOffset
      ensures Valid() && Pending() == old(Pending())
      ensures inBufOffset == 0 && at == inBytes && room > 0 && at + room == |inBuf|
      ensures inBytes == 0 ==> |inBuf| <= MAX_BUF_BYTES
      ensures |inBuf| <= old(|inBuf|) || |inBuf| == 2 * inBytes
    {
      if inBufOffset > 0 {
        inBuf := inBuf[inBufOffset..];
        inBufOffset := 0;
      }
      var inBufBytes := |inBuf|;
      if inBufBytes == inBytes {
        inBufBytes := inBufBytes * 2;
        inBuf := Resize(inBuf, inBufBytes);
      } else if inBytes == 0 && inBufBytes > MAX_BUF_BYTES {
        inBufBytes := INITIAL_BUF_BYTES;
        inBuf := Resize(inBuf, inBufBytes);
      }
      assert Pending() == old(Pending());
      return inBytes, inBufBytes - inBytes;
    }

    /** The socket stores the bytes it read into the space that GetInBuf offered. */
    method Store(data: Buf)
      requires Valid() && inBufOffset == 0 && inBytes + |data| <= |inBuf|
      modifies this`inBuf
      ensures Valid() && Pending() == old(Pending()) && |inBuf| == old(|inBuf|)
      ensures inBuf[inBytes..inBytes + |data|] == data
    {
      inBuf := inBuf[..inBytes] + data + inBuf[inBytes + |data|..];
    }

    /** One read from a socket that has `data` to deliver: at least one byte, at most what
        there is room for, and no more than `size` if that is not zero. */
    method Receive(data: Buf, size: nat) returns (n: nat)
      requires Valid() && data != []
      modifies this`inBuf, this`inBufOffset
      ensures Valid() && Pending() == old(Pending()) && inBufOffset == 0
      ensures 0 < n <= |data| && inBytes + n <= |inBuf|
      ensures Received(n) == old(Pending()) + data[..n]
    {
      var at, room := GetInBuf();
      n := if size == 0 then 1 else size;
      n := if n > |data| then |data| else n;
      n := if n > room then room else n;
      Store(data[..n]);
    }

    /** 0: a message has been taken off; 1: it is incomplete; -2: it is malformed.
        `n` bytes have been stored behind the pending ones. */
    method TryReadMessage(n: nat) returns (r: int)
      requires Valid() && inBufOffset + inBytes + n <= |inBuf|
      modifies this`inBytes, this`inBufOffset, this`inMessage
      ensures Valid()
      ensures Took(old(Received(n)), 1, r, Pending(), inMessage)
      ensures r != 0 ==> inMessage == old(inMessage) && inBufOffset == old(inBufOffset)
    {
      hide Decode, Attempted, CastToSize, FromInt, Took;
      ghost var p := Received(n);
      AttemptOf(p);
      TookOf(p, 1, inMessage);
      TakeIn(n);
      if inBytes < 4 {
        return 1;
      }
      var packetBytes := CastToSize(FromInt(inBuf[inBufOffset..inBufOffset + 4]));
      FirstOfSlice(inBuf, inBufOffset, inBytes, 4);
      if inBytes < packetBytes {
        return 1;
      }
      var packet := inBuf[inBufOffset..inBufOffset + packetBytes];
      FirstOfSlice(inBuf, inBufOffset, inBytes, packetBytes);
      var parsed := Decode(packet);
      if parsed.Bad? {
        return -2;
      }
      inMessage := parsed.value;
      Consume(packetBytes);
      return 0;
    }

    /** The bytes received become pending. */
    method TakeIn(n: nat)
      requires Valid() && inBufOffset + inBytes + n <= |inBuf|
      modifies this`inBytes
      ensures Valid() && inBytes == old(inBytes) + n && Pending() == old(Received(n))
    {
      SliceJoin(inBuf, inBufOffset, inBufOffset + inBytes, inBufOffset + inBytes + n);
      inBytes := inBytes + n;
    }

    /** Drops the packet from the head of the pending bytes; an empty buffer starts anew. */
    method Consume(packetBytes: nat)
      requires Valid() && 0 < packetBytes <= inBytes
      modifies this`inBytes, this`inBufOffset
      ensures Valid() && Pending() == old(Pending())[packetBytes..]
    {
      if inBytes == packetBytes {
        inBufOffset := 0;
        inBytes := 0;
      } else {
        inBufOffset := inBufOffset + packetBytes;
        inBytes := inBytes - packetBytes;
      }
    }

    /** The blocking client's read from a socket that still has `incoming` to deliver, in
        chunks of the given sizes as far as there is room for them. `taken` bytes are read.
        0: the first message of the bytes has been taken off; -2: it is malformed; -1: the
        socket had nothing more to deliver. */
    method ReadMessage(incoming: Buf, sizes: seq<nat>) returns (r: int, taken: nat)
      requires Valid()
      modifies this`inBuf, this`inBytes, this`inBufOffset, this`inMessage
      ensures Valid() && taken <= |incoming|
      ensures Took(old(Pending()) + incoming[..taken], -1, r, Pending(), inMessage)
      ensures r == -1 ==> taken == |incoming|
    {
      hide Took, Pending, Received;
      ghost var p := Pending();
      ReceivedNothing();
      assert p + incoming[..0] == p;
      var calls: nat := 0;
      var n: nat := 0;
      taken := 0;
      while true
        invariant Valid() && n <= taken <= |incoming|
        invariant inBufOffset + inBytes + n <= |inBuf|
        invariant Received(n) == p + incoming[..taken]
        decreases |incoming| - taken
      {
        r := TryReadMessage(n);
        TookIncomplete(p + incoming[..taken], r, Pending(), inMessage);
        if r != 1 {
          return r, taken;
        }
        if taken == |incoming| {
          return -1, taken;
        }
        n := Receive(incoming[taken..], if calls < |sizes| then sizes[calls] else 1);
        calls := calls + 1;
        JoinSlices(p, incoming, taken, n);
        taken := taken + n;
      }
    }

    method PrepareOutBuf()
      requires Valid() && Representable(outMessage)
      modifies this`outBuf, this`outBytes
      ensures Valid() && Unwritten() == Encode(outMessage) == outBuf && outBytes == 0
    {
      outBuf := Encode(outMessage);
      outBytes := 0;
    }

    /** 0: the message has been written completely; 1: not yet. */
    method OnWritten(n: nat) returns (r: int)
      requires Valid() && outBytes + n <= |outBuf|
      modifies this`outBytes
      ensures Valid() && Pending() == old(Pending())
      ensures Unwritten() == old(Unwritten())[n..]
      ensures r == if Unwritten() == [] then 0 else 1
      ensures outBytes == old(outBytes) + n && (r == 0 <==> outBytes == |outBuf|)
    {
      outBytes := outBytes + n;
      if outBytes == |outBuf| {
        return 0;
      }
      return 1;
    }
  }
}
