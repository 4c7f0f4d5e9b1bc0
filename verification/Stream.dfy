// The buffered reader (src/common/stream.cc): whatever the source's short reads, it delivers
// the source's bytes in order.
module Streams {
  import opened Basics
  import opened Bytes
  import opened Sequences

  /** A source of bytes. It may read short, but never nothing unless nothing is asked for or
      left: `sizes` is how much the next reads hand over, those after them all they can. */
  class ByteSource {
    var unread: seq<Byte>
    var sizes: seq<nat>

    constructor (bytes: seq<Byte>, sizes: seq<nat>)
      ensures unread == bytes && this.sizes == sizes
    {
      unread, this.sizes := bytes, sizes;
    }

    /** How many bytes the next read hands over when this many are asked for. */
    function Next(size: nat): (n: nat)
      reads this
      ensures n <= size && n <= |unread| && (n == 0 <==> size == 0 || unread == [])
    {
      var most := Min(size, |unread|);
      if sizes == [] then most else Min(Max(sizes[0], 1), most)
    }

    method Read(data: array<Byte>, at: nat, size: nat) returns (n: nat)
      requires at + size <= data.Length
      modifies this, data
      ensures n == old(Next(size)) && unread == old(unread)[n..]
      ensures data[..at] == old(data[..at]) && data[at..at + n] == old(unread)[..n]
    {
      n := Next(size);
      for i := 0 to n
        invariant data[..at] == old(data[..at])
        invariant data[at..at + i] == unread[..i]
        modifies data
      {
        data[at + i] := unread[i];
        assert data[at..at + i + 1] == data[at..at + i] + [unread[i]];
      }
      unread := unread[n..];
      sizes := if sizes == [] then [] else sizes[1..];
    }
  }

  lemma Slices(a: array<Byte>, i: nat, j: nat, k: nat)
    requires i <= j <= k <= a.Length
    ensures a[i..k] == a[i..j] + a[j..k] && |a[i..j]| == j - i
  {
  }

  /** What was read behind the buffered bytes follows them. */
  lemma Grown(a: array<Byte>, before: seq<Byte>, cur: nat, end: nat, more: seq<Byte>, rest: seq<Byte>)
    requires cur <= end == |before| && end + |more| <= a.Length
    requires a[..end] == before && a[end..end + |more|] == more
    ensures a[cur..end + |more|] + rest == before[cur..] + (more + rest)
  {
    Slices(a, cur, end, end + |more|);
    assert a[cur..end] == a[..end][cur..];
    Associate(before[cur..], more, rest);
  }

  class BufferedInputStream {
    const source: ByteSource
    var buf: array<Byte>
    var cur: nat
    var end: nat
    var bad: bool

    constructor (source: ByteSource, bufSize: nat)
      ensures Valid() && this.source == source && fresh(buf) && buf.Length == bufSize && !bad
      ensures Remaining() == source.unread
    {
      this.source, cur, end, bad := source, 0, 0, false;
      buf := new Byte[bufSize](_ => 0);
    }

    predicate Valid()
      reads this
    {
      cur <= end <= buf.Length
    }

    /** What is still to be delivered: what is buffered, then what the source has left. */
    ghost function Remaining(): seq<Byte>
      requires Valid()
      reads this, buf, source
    {
      buf[cur..end] + source.unread
    }

    method FillEmptyBuf() returns (avail: nat)
      requires Valid() && cur == end
      modifies this`cur, this`end, this`bad, buf, source
      ensures Valid() && Remaining() == old(Remaining())
      ensures avail == end - cur && (avail == 0 <==> buf.Length == 0 || old(Remaining()) == [])
      ensures bad == (old(bad) || avail == 0) && |source.unread| + avail == |old(source.unread)|
    {
      avail := source.Read(buf, 0, buf.Length);
      if avail == 0 {
        bad := true;
        return 0;
      }
      cur := 0;
      end := avail;
    }

    /** Makes room behind the buffered bytes and asks the source once. */
    method EnsureBuf(need: nat) returns (avail: nat)
      requires Valid()
      modifies this`buf, this`end, this`bad, buf, source
      ensures Valid() && (buf == old(buf) || fresh(buf)) && buf.Length >= old(buf.Length)
      ensures Remaining() == old(Remaining())
      ensures avail == end - cur >= old(end - cur)
      ensures old(end - cur) >= need ==> avail == old(end - cur) && bad == old(bad)
      ensures old(end - cur) < need ==>
                && (avail == old(end - cur) <==> old(source.unread) == [])
                && bad == (old(bad) || old(source.unread) == [])
                && avail == old(end - cur + source.Next(Max(buf.Length, cur + need) - end))
    {
      avail := end - cur;
      if avail >= need {
        return;
      }
      ghost var buffered := buf[cur..end];
      if cur + need > buf.Length {
        Resize(cur + need);
      }
      assert buf[cur..end] == buffered;
      var n := FillMore(buffered);
      if n == 0 {
        bad := true;
        return;
      }
      avail := avail + n;
    }

    /** The new bytes follow the buffered ones. */
    method FillMore(ghost buffered: seq<Byte>) returns (n: nat)
      requires Valid() && end < buf.Length && buf[cur..end] == buffered
      modifies this`end, buf, source
      ensures Valid() && end == old(end) + n && (n == 0 <==> old(source.unread) == [])
      ensures n == old(source.Next(buf.Length - end)) && source.unread == old(source.unread)[n..]
      ensures Remaining() == buffered + old(source.unread)
    {
      ghost var before, unread := buf[..end], source.unread;
      assert before[cur..] == buffered;
      n := source.Read(buf, end, buf.Length - end);
      Grown(buf, before, cur, end, unread[..n], source.unread);
      assert unread[..n] + source.unread == unread;
      end := end + n;
    }

    method Resize(size: nat)
      requires Valid() && size > buf.Length
      modifies this`buf
      ensures Valid() && fresh(buf) && buf.Length == size && buf[..end] == old(buf[..end])
    {
      var bigger := new Byte[size](_ => 0);
      for i := 0 to end
        invariant bigger[..i] == buf[..i]
        modifies bigger
      {
        bigger[i] := buf[i];
        assert bigger[..i + 1] == bigger[..i] + [buf[i]];
      }
      buf := bigger;
    }

    /** Reads short only at the end of the source. */
    method Read(data: array<Byte>, size: nat) returns (n: nat)
      requires Valid() && size <= data.Length && data != buf
      modifies this`cur, this`end, this`bad, buf, source, data
      ensures Valid() && n <= size && data[..n] + Remaining() == old(Remaining())
      ensures n < size ==> buf.Length == 0 || Remaining() == []
      ensures bad == (old(bad) || n < size)
    {
      hide Remaining;
      n := 0;
      var need: nat := size;
      var avail := end - cur;
      while true
        invariant Valid() && buf == old(buf) && avail == end - cur && n + need == size && bad == old(bad)
        invariant data[..n] + Remaining() == old(Remaining())
        decreases |source.unread|
      {
        if avail >= need {
          Take(data, n, need);
          return size;
        } else if avail > 0 {
          Take(data, n, avail);
          n := n + avail;
          need := need - avail;
        }
        avail := FillEmptyBuf();
        if avail == 0 {
          return;
        }
      }
    }

    /** Delivers buffered bytes. */
    method Take(data: array<Byte>, at: nat, count: nat)
      requires Valid() && cur + count <= end && at + count <= data.Length && data != buf
      modifies this`cur, data
      ensures Valid() && cur == old(cur) + count
      ensures data[..at + count] + Remaining() == old(data[..at] + Remaining())
    {
      ghost var before, rest := data[..at], buf[cur + count..end];
      CopyOut(data, at, count);
      Slices(buf, cur, cur + count, end);
      Associate(buf[cur..cur + count], rest, source.unread);
      Associate(before, buf[cur..cur + count], rest + source.unread);
      cur := cur + count;
    }

    method CopyOut(data: array<Byte>, at: nat, count: nat)
      requires Valid() && cur + count <= end && at + count <= data.Length && data != buf
      modifies data
      ensures data[..at + count] == old(data[..at]) + buf[cur..cur + count]
    {
      for i := 0 to count
        invariant data[..at + i] == old(data[..at]) + buf[cur..cur + i]
      {
        data[at + i] := buf[cur + i];
        assert data[..at + i + 1] == data[..at + i] + [buf[cur + i]];
      }
    }

    /** The next byte, or 255 and a bad stream if there is none. */
    method ReadChar() returns (c: Byte)
      requires Valid()
      modifies this`cur, this`end, this`bad, buf, source
      ensures Valid()
      ensures var none := old(Remaining()) == [] || (old(cur) == old(end) && buf.Length == 0);
              && bad == (old(bad) || none)
              && (none ==> c == 255 && Remaining() == old(Remaining()))
              && (!none ==> [c] + Remaining() == old(Remaining()))
    {
      var avail := end - cur;
      if avail == 0 {
        avail := FillEmptyBuf();
      }
      if avail > 0 {
        c := buf[cur];
        Slices(buf, cur, cur + 1, end);
        Associate([c], buf[cur + 1..end], source.unread);
        cur := cur + 1;
        return;
      }
      return 255;
    }

    /** What a peek at this many bytes asks of the source, which is at most once, and gets. */
    function More(size: nat): nat
      requires Valid()
      reads this, source
    {
      if end - cur >= size then 0 else source.Next(Max(buf.Length, cur + size) - end)
    }

    /** Shows the next bytes without moving: all that are asked for and there exactly if the
        buffered bytes and those of one read reach so far. Once the source has no more, it marks
        the stream bad even if it shows some. */
    method Peek(data: array<Byte>, size: nat) returns (n: nat)
      requires Valid() && size <= data.Length && data != buf
      modifies this`buf, this`end, this`bad, buf, source, data
      ensures Valid() && (buf == old(buf) || fresh(buf)) && buf.Length >= old(buf.Length)
      ensures Remaining() == old(Remaining())
      ensures n == Min(size, old(end - cur + More(size)))
      ensures n <= |Remaining()| && data[..n] == Remaining()[..n]
      ensures n == Min(size, |Remaining()|) <==> old(end - cur + More(size)) >= Min(size, |Remaining()|)
      ensures n == 0 <==> size == 0 || Remaining() == []
      ensures bad == (old(bad) || (old(end - cur) < size && old(source.unread) == []))
    {
      var avail := EnsureBuf(size);
      n := if size > avail then avail else size;
      CopyOut(data, 0, n);
      Slices(buf, cur, cur + n, end);
      Associate(buf[cur..cur + n], buf[cur + n..end], source.unread);
    }

    /** Reads up to the delimiter, which is left out; without one, all that is left, and the
        stream is bad then. On a stream that is bad already, takes one byte and delivers none. */
    method GetLine(delim: Byte) returns (line: seq<Byte>)
      requires Valid()
      modifies this`cur, this`end, this`bad, buf, source
      ensures Valid() && delim !in line
      ensures !old(bad) && !bad ==> line + [delim] + Remaining() == old(Remaining())
      ensures !old(bad) && bad ==>
                line + Remaining() == old(Remaining()) && (Remaining() == [] || (buf.Length == 0 && line == []))
      ensures old(bad) ==>
                && bad && line == []
                && Remaining() == old(if Remaining() == [] || buf.Length == 0 then Remaining() else Remaining()[1..])
    {
      hide Remaining;
      line := [];
      while true
        invariant Valid() && bad == old(bad) && buf == old(buf) && delim !in line
        invariant line + Remaining() == old(Remaining())
        invariant bad || buf.Length == 0 ==> line == []
        decreases |Remaining()|
      {
        var c := ReadChar();
        if bad {
          return;
        }
        Associate(line, [c], Remaining());
        if c == delim {
          return;
        }
        line := line + [c];
      }
    }
  }

  /** A source that reads short lets a peek show one byte of many. */
  method ShortPeek(bytes: seq<Byte>, bufSize: nat) returns (shown: seq<Byte>)
    requires |bytes| > 1
    ensures shown == bytes[..1]
  {
    var source := new ByteSource(bytes, [1]);
    var stream := new BufferedInputStream(source, bufSize);
    var data := new Byte[|bytes|](_ => 0);
    var n := stream.Peek(data, |bytes|);
    shown := data[..n];
  }

  // ---------------------------------------------------------------------------------------
  // Whole runs
  // ---------------------------------------------------------------------------------------

  datatype Op = ReadOp(size: nat) | ReadCharOp | PeekOp(size: nat)

  /** Any mix of reads and peeks, each into its own memory: what the reads delivered, in order,
      followed by what is left, is what there was. */
  method RunOps(s: BufferedInputStream, ops: seq<Op>) returns (ghost delivered: seq<Byte>)
    requires s.Valid() && s.buf.Length > 0
    modifies s, s.buf, s.source
    ensures s.Valid() && delivered + s.Remaining() == old(s.Remaining())
    ensures |delivered| == Min(Wanted(ops), |old(s.Remaining())|)
  {
    delivered := [];
    for i := 0 to |ops|
      invariant s.Valid() && s.buf.Length > 0 && (s.buf == old(s.buf) || fresh(s.buf))
      invariant delivered + s.Remaining() == old(s.Remaining())
      invariant |delivered| == Min(Wanted(ops[..i]), |old(s.Remaining())|)
    {
      ghost var more := RunOp(s, ops[i]);
      assert ops[..i + 1][..i] == ops[..i];
      Associate(delivered, more, s.Remaining());
      delivered := delivered + more;
    }
    assert ops[..|ops|] == ops;
  }

  method RunOp(s: BufferedInputStream, op: Op) returns (ghost more: seq<Byte>)
    requires s.Valid() && s.buf.Length > 0
    modifies s, s.buf, s.source
    ensures s.Valid() && s.buf.Length > 0 && (s.buf == old(s.buf) || fresh(s.buf))
    ensures more + s.Remaining() == old(s.Remaining())
    ensures |more| == Min(WantedBy(op), |old(s.Remaining())|)
  {
    match op
    case ReadOp(size) =>
      var data := new Byte[size](_ => 0);
      var n := s.Read(data, size);
      more := data[..n];
    case ReadCharOp =>
      ghost var before := s.Remaining();
      var c := s.ReadChar();
      more := if before == [] then [] else [c];
    case PeekOp(size) =>
      var data := new Byte[size](_ => 0);
      var n := s.Peek(data, size);
      more := [];
  }

  function WantedBy(op: Op): nat {
    match op
    case ReadOp(size) => size
    case ReadCharOp => 1
    case PeekOp(_) => 0
  }

  /** How many bytes the reads ask for; peeks ask for none to be taken. */
  function Wanted(ops: seq<Op>): nat {
    if ops == [] then 0 else Wanted(ops[..|ops| - 1]) + WantedBy(ops[|ops| - 1])
  }
}
