// The messages between workers, parameter servers and the coordinator
// (src/ps/dist_message.cc), their encoding, and the framing by a leading total size.
module DistMessages {
  import opened Bytes

  type Buf = seq<Byte>

  /** A message with the fields its type carries. A double is kept as its eight bytes. */
  datatype Message =
    | EchoRequest(buf: Buf)
    | EchoResponse(buf: Buf)
    | HeartBeatNotify
    | FileRequest
    | FileResponse(epoch: int, file: Buf)
    | FileFinishNotify(file: Buf, loss: Buf, lossWeight: Buf)
    | PullRequest(buf: Buf)
    | PullResponse(buf: Buf)
    | PushNotify(buf: Buf)
    | ModelSaveRequest(epoch: int, timestamp: Buf, version: int)
    | ModelSaveResponse
    | TerminationNotify
    | UserRequest(buf: Buf)
    | UserResponse(buf: Buf)
    | UserNotify(buf: Buf)
    | Untyped(kind: int)

  function Kind(m: Message): int {
    match m
    case EchoRequest(_) => 1
    case EchoResponse(_) => 2
    case HeartBeatNotify => 3
    case FileRequest => 11
    case FileResponse(_, _) => 12
    case FileFinishNotify(_, _, _) => 13
    case PullRequest(_) => 14
    case PullResponse(_) => 15
    case PushNotify(_) => 16
    case ModelSaveRequest(_, _, _) => 17
    case ModelSaveResponse => 18
    case TerminationNotify => 19
    case UserRequest(_) => 31
    case UserResponse(_) => 32
    case UserNotify(_) => 33
    case Untyped(kind) => kind
  }

  predicate HasResponse(m: Message) {
    || m.EchoRequest? || m.FileRequest? || m.PullRequest?
    || m.ModelSaveRequest? || m.UserRequest?
  }

  /** Five kinds bear a response, each the kind that follows it; no response and no notification
      bears one. */
  lemma BearsResponse(m: Message)
    requires Representable(m)
    ensures HasResponse(m) <==> Kind(m) == 1 || Kind(m) == 11 || Kind(m) == 14 || Kind(m) == 17 || Kind(m) == 31
    ensures HasResponse(EchoRequest([])) && HasResponse(FileRequest) && HasResponse(PullRequest([]))
    ensures HasResponse(ModelSaveRequest(0, [], 0)) && HasResponse(UserRequest([]))
    ensures HasResponse(m) ==> !(m.EchoResponse? || m.FileResponse? || m.PullResponse? || m.ModelSaveResponse?
                                 || m.UserResponse?)
    ensures HasResponse(m) ==> !(m.HeartBeatNotify? || m.FileFinishNotify? || m.PushNotify?
                                 || m.TerminationNotify? || m.UserNotify?)
  {
  }

  predicate KnownKind(kind: int) {
    1 <= kind <= 3 || 11 <= kind <= 19 || 31 <= kind <= 33
  }

  /** The values that the C++ fields can hold. */
  predicate Representable(m: Message) {
    match m
    case FileResponse(epoch, _) => IsInt(epoch)
    case FileFinishNotify(_, loss, lossWeight) => |loss| == 8 && |lossWeight| == 8
    case ModelSaveRequest(epoch, _, version) => IsInt(epoch) && IsInt(version)
    case Untyped(kind) => IsInt(kind) && !KnownKind(kind)
    case _ => true
  }

  /** The values of a message are those of its type's fields: 32-bit integers and eight-byte
      doubles; the kinds with fields are not among the untyped ones. */
  lemma RepresentableMeans(m: Message)
    ensures !(m.FileResponse? || m.FileFinishNotify? || m.ModelSaveRequest? || m.Untyped?) ==> Representable(m)
    ensures m.FileResponse? ==> (Representable(m) <==> -0x8000_0000 <= m.epoch < 0x8000_0000)
    ensures m.FileFinishNotify? ==> (Representable(m) <==> |m.loss| == 8 && |m.lossWeight| == 8)
    ensures m.ModelSaveRequest? ==>
              (Representable(m)
               <==> -0x8000_0000 <= m.epoch < 0x8000_0000 && -0x8000_0000 <= m.version < 0x8000_0000)
    ensures m.Untyped? ==>
              (Representable(m)
               <==> -0x8000_0000 <= m.kind < 0x8000_0000
                    && m.kind !in {1, 2, 3, 11, 12, 13, 14, 15, 16, 17, 18, 19, 31, 32, 33})
  {
  }

  // ---------------------------------------------------------------------------------------
  // Writing
  // ---------------------------------------------------------------------------------------

  /** A string is its size, cast to int, and then its bytes if that size is positive. */
  function Str(s: Buf): Buf {
    var size := CastToInt(|s|);
    Int(size) + (if size > 0 then s else [])
  }

  function Fields(m: Message): Buf
    requires Representable(m)
  {
    match m
    case EchoRequest(buf) => Str(buf)
    case EchoResponse(buf) => Str(buf)
    case HeartBeatNotify => []
    case FileRequest => []
    case FileResponse(epoch, file) => Int(epoch) + Str(file)
    case FileFinishNotify(file, loss, lossWeight) => Str(file) + loss + lossWeight
    case PullRequest(buf) => Str(buf)
    case PullResponse(buf) => Str(buf)
    case PushNotify(buf) => Str(buf)
    case ModelSaveRequest(epoch, timestamp, version) => Int(epoch) + Str(timestamp) + Int(version)
    case ModelSaveResponse => []
    case TerminationNotify => []
    case UserRequest(buf) => Str(buf)
    case UserResponse(buf) => Str(buf)
    case UserNotify(buf) => Str(buf)
    case Untyped(_) => []
  }

  function Body(m: Message): Buf
    requires Representable(m)
  {
    Int(Kind(m)) + Fields(m)
  }

  /** BeginMessage leaves room for the total size and EndMessage fills it in, cast to int. */
  function Encode(m: Message): (b: Buf)
    requires Representable(m)
    ensures |b| >= 8
  {
    Int(CastToInt(4 + |Body(m)|)) + Body(m)
  }

  /** A string is followed by its bytes exactly if its size, cut to 32 bits and read as signed,
      is positive. */
  lemma StrOfAnySize(s: Buf)
    ensures |s| % TWO32 == 0 || |s| % TWO32 >= TWO31 ==> Str(s) == Int(CastToInt(|s|))
    ensures 0 < |s| % TWO32 < TWO31 ==> Str(s) == Int(|s| % TWO32) + s
    ensures |s| < TWO31 ==> Str(s) == Int(|s|) + s
  {
    CastMeans(|s|);
  }

  /** Bytes that travel: sizes and kinds with the low byte first, then the fields. */
  lemma WireFormat()
    ensures Encode(HeartBeatNotify) == [8, 0, 0, 0, 3, 0, 0, 0]
    ensures Encode(UserRequest([7, 8])) == [14, 0, 0, 0, 31, 0, 0, 0, 2, 0, 0, 0, 7, 8]
    ensures Encode(FileResponse(-1, [65]))
         == [17, 0, 0, 0, 12, 0, 0, 0, 255, 255, 255, 255, 1, 0, 0, 0, 65]
  {
    hide Int, Body, Encode;
    SmallBodies();
    SmallPacket(HeartBeatNotify, [3, 0, 0, 0]);
    SmallPacket(UserRequest([7, 8]), [31, 0, 0, 0, 2, 0, 0, 0, 7, 8]);
    SmallPacket(FileResponse(-1, [65]), [12, 0, 0, 0, 255, 255, 255, 255, 1, 0, 0, 0, 65]);
  }

  lemma WireFormatOfSave()
    ensures Encode(ModelSaveRequest(1, [9], 2))
         == [21, 0, 0, 0, 17, 0, 0, 0, 1, 0, 0, 0, 1, 0, 0, 0, 9, 2, 0, 0, 0]
  {
    hide Int, Body, Encode;
    SaveBody();
    SmallPacket(ModelSaveRequest(1, [9], 2), [17, 0, 0, 0, 1, 0, 0, 0, 1, 0, 0, 0, 9, 2, 0, 0, 0]);
  }

  lemma SmallPacket(m: Message, body: Buf)
    requires Representable(m) && Body(m) == body && |body| < 252
    ensures Encode(m) == [4 + |body|, 0, 0, 0] + body
  {
    hide Body, Int;
    SmallInts();
  }

  lemma SmallBodies()
    ensures Body(HeartBeatNotify) == [3, 0, 0, 0]
    ensures Body(UserRequest([7, 8])) == [31, 0, 0, 0, 2, 0, 0, 0, 7, 8]
    ensures Body(FileResponse(-1, [65])) == [12, 0, 0, 0, 255, 255, 255, 255, 1, 0, 0, 0, 65]
  {
    hide Int, Str;
    SmallInts();
    SmallStrs();
  }

  lemma SaveBody()
    ensures Body(ModelSaveRequest(1, [9], 2)) == [17, 0, 0, 0, 1, 0, 0, 0, 1, 0, 0, 0, 9, 2, 0, 0, 0]
  {
    hide Int, Str;
    SmallInts();
    SmallStrs();
  }

  lemma SmallStrs()
    ensures Str([7, 8]) == [2, 0, 0, 0, 7, 8] && Str([65]) == [1, 0, 0, 0, 65] && Str([9]) == [1, 0, 0, 0, 9]
  {
    hide Int;
    SmallInts();
  }

  // ---------------------------------------------------------------------------------------
  // Reading
  // ---------------------------------------------------------------------------------------

  /** Once a stream is bad it stays bad, so a failed read ends the reading. */
  datatype Parsed<T> = Ok(value: T, rest: Buf) | Bad

  function ReadInt(s: Buf): Parsed<int> {
    if |s| < 4 then Bad else Ok(FromInt(s[..4]), s[4..])
  }

  function ReadDouble(s: Buf): Parsed<Buf> {
    if |s| < 8 then Bad else Ok(s[..8], s[8..])
  }

  function ReadStr(s: Buf): Parsed<Buf> {
    match ReadInt(s)
    case Bad => Bad
    case Ok(size, rest) =>
      if size <= 0 then Ok([], rest)
      else if |rest| < size then Bad
      else Ok(rest[..size], rest[size..])
  }

  /** The types whose only field is a buffer. */
  predicate BufKind(kind: int) {
    1 <= kind <= 2 || 14 <= kind <= 16 || 31 <= kind <= 33
  }

  function OfBuf(kind: int, buf: Buf): Message
    requires BufKind(kind)
  {
    if kind == 1 then EchoRequest(buf)
    else if kind == 2 then EchoResponse(buf)
    else if kind == 14 then PullRequest(buf)
    else if kind == 15 then PullResponse(buf)
    else if kind == 16 then PushNotify(buf)
    else if kind == 31 then UserRequest(buf)
    else if kind == 32 then UserResponse(buf)
    else UserNotify(buf)
  }

  /** The types without fields, unknown types included. */
  function OfNothing(kind: int): Message {
    if kind == 3 then HeartBeatNotify
    else if kind == 11 then FileRequest
    else if kind == 18 then ModelSaveResponse
    else if kind == 19 then TerminationNotify
    else Untyped(kind)
  }

  function ReadFileResponse(s: Buf): Parsed<Message> {
    match ReadInt(s)
    case Bad => Bad
    case Ok(epoch, rest) =>
      match ReadStr(rest)
      case Bad => Bad
      case Ok(file, rest) => Ok(FileResponse(epoch, file), rest)
  }

  function ReadFileFinish(s: Buf): Parsed<Message> {
    match ReadStr(s)
    case Bad => Bad
    case Ok(file, rest) =>
      match ReadDouble(rest)
      case Bad => Bad
      case Ok(loss, rest) =>
        match ReadDouble(rest)
        case Bad => Bad
        case Ok(lossWeight, rest) => Ok(FileFinishNotify(file, loss, lossWeight), rest)
  }

  function ReadModelSave(s: Buf): Parsed<Message> {
    match ReadInt(s)
    case Bad => Bad
    case Ok(epoch, rest) =>
      match ReadStr(rest)
      case Bad => Bad
      case Ok(timestamp, rest) =>
        match ReadInt(rest)
        case Bad => Bad
        case Ok(version, rest) => Ok(ModelSaveRequest(epoch, timestamp, version), rest)
  }

  function ReadFields(kind: int, s: Buf): Parsed<Message> {
    if BufKind(kind) then
      (match ReadStr(s)
       case Bad => Bad
       case Ok(buf, rest) => Ok(OfBuf(kind, buf), rest))
    else if kind == 12 then ReadFileResponse(s)
    else if kind == 13 then ReadFileFinish(s)
    else if kind == 17 then ReadModelSave(s)
    else Ok(OfNothing(kind), s)
  }

  /** One message from exactly one packet: the size again, the type, the fields. */
  function Decode(packet: Buf): Parsed<Message> {
    match ReadInt(packet)
    case Bad => Bad
    case Ok(_, rest) =>
      match ReadInt(rest)
      case Bad => Bad
      case Ok(kind, rest) => ReadFields(kind, rest)
  }

  // ---------------------------------------------------------------------------------------
  // The round trip
  // ---------------------------------------------------------------------------------------

  lemma ReadIntOfInt(i: int, tail: Buf)
    requires IsInt(i)
    ensures ReadInt(Int(i) + tail) == Ok(i, tail)
  {
    IntRoundTrip(i);
    assert (Int(i) + tail)[..4] == Int(i);
    assert (Int(i) + tail)[4..] == tail;
  }

  lemma ReadStrOfStr(s: Buf, tail: Buf)
    requires |s| < TWO31
    ensures ReadStr(Str(s) + tail) == Ok(s, tail)
  {
    assert Str(s) + tail == Int(|s|) + (s + tail);
    ReadIntOfInt(|s|, s + tail);
    assert (s + tail)[..|s|] == s && (s + tail)[|s|..] == tail;
  }

  lemma ReadDoubleOf(d: Buf, tail: Buf)
    requires |d| == 8
    ensures ReadDouble(d + tail) == Ok(d, tail)
  {
    assert (d + tail)[..8] == d && (d + tail)[8..] == tail;
  }

  /** The strings of a message are below the limit of the int that stores their size. */
  predicate Short(m: Message) {
    match m
    case EchoRequest(b) => |b| < TWO31
    case EchoResponse(b) => |b| < TWO31
    case FileResponse(_, b) => |b| < TWO31
    case FileFinishNotify(b, _, _) => |b| < TWO31
    case PullRequest(b) => |b| < TWO31
    case PullResponse(b) => |b| < TWO31
    case PushNotify(b) => |b| < TWO31
    case ModelSaveRequest(_, b, _) => |b| < TWO31
    case UserRequest(b) => |b| < TWO31
    case UserResponse(b) => |b| < TWO31
    case UserNotify(b) => |b| < TWO31
    case _ => true
  }

  lemma BufRoundTrip(m: Message, tail: Buf)
    requires BufKind(Kind(m)) && Representable(m) && Short(m)
    ensures ReadFields(Kind(m), Fields(m) + tail) == Ok(m, tail)
  {
    ReadStrOfStr(m.buf, tail);
  }

  lemma FileResponseRoundTrip(m: Message, tail: Buf)
    requires m.FileResponse? && Representable(m) && Short(m)
    ensures ReadFileResponse(Fields(m) + tail) == Ok(m, tail)
  {
    assert Fields(m) + tail == Int(m.epoch) + (Str(m.file) + tail);
    ReadIntOfInt(m.epoch, Str(m.file) + tail);
    ReadStrOfStr(m.file, tail);
  }

  lemma FileFinishRoundTrip(m: Message, tail: Buf)
    requires m.FileFinishNotify? && Representable(m) && Short(m)
    ensures ReadFileFinish(Fields(m) + tail) == Ok(m, tail)
  {
    assert Fields(m) + tail == Str(m.file) + (m.loss + (m.lossWeight + tail));
    ReadStrOfStr(m.file, m.loss + (m.lossWeight + tail));
    ReadDoubleOf(m.loss, m.lossWeight + tail);
    ReadDoubleOf(m.lossWeight, tail);
  }

  lemma ModelSaveRoundTrip(m: Message, tail: Buf)
    requires m.ModelSaveRequest? && Representable(m) && Short(m)
    ensures ReadModelSave(Fields(m) + tail) == Ok(m, tail)
  {
    assert Fields(m) + tail == Int(m.epoch) + (Str(m.timestamp) + (Int(m.version) + tail));
    ReadIntOfInt(m.epoch, Str(m.timestamp) + (Int(m.version) + tail));
    ReadStrOfStr(m.timestamp, Int(m.version) + tail);
    ReadIntOfInt(m.version, tail);
  }

  lemma FieldsRoundTrip(m: Message, tail: Buf)
    requires Representable(m) && Short(m)
    ensures ReadFields(Kind(m), Fields(m) + tail) == Ok(m, tail)
  {
    if BufKind(Kind(m)) {
      BufRoundTrip(m, tail);
    } else if m.FileResponse? {
      FileResponseRoundTrip(m, tail);
    } else if m.FileFinishNotify? {
      FileFinishRoundTrip(m, tail);
    } else if m.ModelSaveRequest? {
      ModelSaveRoundTrip(m, tail);
    } else {
      assert Fields(m) + tail == tail;
    }
  }

  lemma DecodeOfEncode(m: Message)
    requires Representable(m) && Short(m)
    ensures Decode(Encode(m)) == Ok(m, [])
  {
    var header := CastToInt(4 + |Body(m)|);
    assert Encode(m) == Int(header) + (Int(Kind(m)) + (Fields(m) + []));
    ReadIntOfInt(header, Int(Kind(m)) + (Fields(m) + []));
    ReadIntOfInt(Kind(m), Fields(m) + []);
    FieldsRoundTrip(m, []);
  }

  // ---------------------------------------------------------------------------------------
  // Framing
  // ---------------------------------------------------------------------------------------

  datatype Attempt = Incomplete | Malformed | Complete(message: Message, consumed: nat)

  /** What one attempt to take a message off the received bytes makes of them. */
  function Attempted(pending: Buf): (a: Attempt)
    ensures a.Complete? ==> 8 <= a.consumed <= |pending|
  {
    if |pending| < 4 then Incomplete
    else
      var size := CastToSize(FromInt(pending[..4]));
      if |pending| < size then Incomplete
      else match Decode(pending[..size])
           case Bad => Malformed
           case Ok(m, _) => Complete(m, size)
  }

  /** A header that announces less than a header and a type is malformed as soon as it is read; a
      negative one announces more than can ever arrive. */
  lemma WrongHeader(size: int, more: Buf)
    requires IsInt(size)
    ensures 0 <= size < 8 && |more| >= 4 ==> Attempted(Int(size) + more) == Malformed
    ensures size < 0 && |more| < TWO63 ==> Attempted(Int(size) + more) == Incomplete
  {
    var pending := Int(size) + more;
    assert pending[..4] == Int(size);
    IntRoundTrip(size);
  }

  /** The header announces the packet's own size exactly when that size fits an int. */
  lemma HeaderIsExact(m: Message)
    requires Representable(m)
    ensures |Encode(m)| < TWO63 ==>
              (CastToSize(FromInt(Encode(m)[..4])) == |Encode(m)| <==> |Encode(m)| < TWO31)
  {
    IntRoundTrip(CastToInt(|Encode(m)|));
    assert Encode(m)[..4] == Int(CastToInt(|Encode(m)|));
  }

  lemma ReadStrIsShort(s: Buf)
    ensures ReadStr(s).Ok? ==> |ReadStr(s).value| < TWO31
  {
  }

  lemma ReadFieldsIsShort(kind: int, s: Buf)
    ensures ReadFields(kind, s).Ok? ==> Short(ReadFields(kind, s).value)
  {
    hide ReadStr, FromInt;
    ReadStrIsShort(s);
    if |s| >= 4 {
      ReadStrIsShort(s[4..]);
    }
  }

  /** A string read back is never longer than an int can say. */
  lemma DecodedIsShort(packet: Buf)
    ensures Decode(packet).Ok? ==> Short(Decode(packet).value)
  {
    hide ReadFields, Short, FromInt;
    if |packet| >= 8 {
      ReadFieldsIsShort(FromInt(packet[4..][..4]), packet[4..][4..]);
    }
  }

  /** The messages that arrive as they were sent. */
  predicate Sendable(m: Message) {
    Representable(m) && Short(m) && |Encode(m)| < TWO31
  }

  /** A message at the head of the received bytes is taken off unchanged, whatever follows it,
      exactly when its strings and its packet are within the range of the sizes sent. (No
      packet is as large as half the address space.) */
  lemma FrameRoundTrip(m: Message, tail: Buf)
    requires Representable(m)
    ensures |Encode(m)| < TWO63 ==>
              (Attempted(Encode(m) + tail) == Complete(m, |Encode(m)|) <==> Sendable(m))
  {
    var pending := Encode(m) + tail;
    assert pending[..4] == Encode(m)[..4];
    HeaderIsExact(m);
    assert pending[..|Encode(m)|] == Encode(m);
    if Sendable(m) {
      DecodeOfEncode(m);
    } else if |Encode(m)| < TWO63 && Attempted(pending) == Complete(m, |Encode(m)|) {
      DecodedIsShort(pending[..|Encode(m)|]);
      assert false;
    }
  }

  /** A packet of which bytes are still missing is recognised as such. */
  lemma FrameIncomplete(m: Message, k: nat)
    requires Sendable(m) && k < |Encode(m)|
    ensures Attempted(Encode(m)[..k]) == Incomplete
  {
    if k >= 4 {
      HeaderIsExact(m);
      assert Encode(m)[..k][..4] == Encode(m)[..4];
    }
  }

  /** More bytes do not change what a complete or malformed packet is. */
  lemma AttemptedIsStable(pending: Buf, more: Buf)
    requires Attempted(pending) != Incomplete
    ensures Attempted(pending + more) == Attempted(pending)
  {
    var size := CastToSize(FromInt(pending[..4]));
    assert (pending + more)[..4] == pending[..4];
    assert (pending + more)[..size] == pending[..size];
  }
}
