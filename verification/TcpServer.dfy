// The server's callback loop for one connection (src/ps/tcp_server.cc), run by any number of
// io threads. Every completion handler ends by starting at most one read or write, and the
// safety of the buffers rests on there never being two.
module TcpServers {
  import opened DistMessages
  import opened TcpConnections

  /** The server behind the connection: which messages it accepts, and how it responds to the
      last message of a history. */
  datatype Service = Service(accepts: Message -> bool, respond: seq<Message> -> Message)

  // ---------------------------------------------------------------------------------------
  // The connection as a state machine
  // ---------------------------------------------------------------------------------------

  /** Something that still is to touch the connection: an outstanding operation of the io
      context, or a completion handler on some thread, and where in its code that is. */
  datatype Activity =
    | Reading                  // an outstanding async_read_some
    | Writing                  // an outstanding async_write_some
    | Trying                   // OnRead, about to try to read a message
    | Handling(m: Message)     // OnReadMessage
    | StartRead                // AsyncRead
    | StartWrite               // AsyncWrite

  datatype Session = Session(
    acts: seq<Activity>,
    closed: bool,
    arrived: Buf,              // all bytes ever read
    pending: Buf,              // read, but not taken off as messages
    handled: seq<Message>,     // messages the service has accepted
    out: Buf,                  // the response being written
    outBytes: nat,             // how much of it has been written
    wire: Buf)                 // all bytes ever written

  /** What an activity does when it runs: the activities that follow it, and the new state.
      `n` and `data` are what the io context reports: bytes read, number of bytes written. */
  ghost predicate Runs(v: Service, a: Activity, s: Session, next: seq<Activity>, s': Session) {
    match a
    case Reading =>
      || (next == [] && s' == s.(closed := true))
      || (exists data: Buf :: data != [] && next == [Trying]
            && s' == s.(arrived := s.arrived + data, pending := s.pending + data))
    case Trying =>
      (match Attempted(s.pending)
       case Incomplete => next == [StartRead] && s' == s
       case Malformed => next == [] && s' == s.(closed := true)
       case Complete(m, consumed) =>
         next == [Handling(m)] && s' == s.(pending := s.pending[consumed..]))
    case Handling(m) =>
      if !v.accepts(m) then next == [] && s' == s.(closed := true)
      else if HasResponse(m) then
        && Representable(v.respond(s.handled + [m]))
        && next == [StartWrite]
        && s' == s.(handled := s.handled + [m], out := Encode(v.respond(s.handled + [m])),
                    outBytes := 0)
      else next == [Trying] && s' == s.(handled := s.handled + [m])
    case StartRead => next == [Reading] && s' == s
    case StartWrite => next == [Writing] && s' == s
    case Writing =>
      || (next == [] && s' == s.(closed := true))
      || (exists n: nat :: Writes(s, n, next, s'))
  }

  /** The io context has written the next n bytes of the response. */
  predicate Writes(s: Session, n: nat, next: seq<Activity>, s': Session) {
    && 0 < n && s.outBytes + n <= |s.out|
    && s' == s.(outBytes := s.outBytes + n,
                wire := s.wire + s.out[s.outBytes..s.outBytes + n])
    && next == [if s.outBytes + n == |s.out| then Trying else StartWrite]
  }

  /** Any of the activities runs, on any thread. */
  ghost predicate Step(v: Service, s: Session, s': Session) {
    exists i: nat, next, t ::
      && i < |s.acts|
      && Runs(v, s.acts[i], s, next, t)
      && s' == t.(acts := s.acts[..i] + next + s.acts[i + 1..])
  }

  /** The connection has been accepted. */
  const ACCEPTED: Session := Session([StartRead], false, [], [], [], [], 0, [])

  ghost predicate IsRun(v: Service, trace: seq<Session>) {
    && |trace| > 0
    && trace[0] == ACCEPTED
    && (forall i :: 0 < i < |trace| ==> Step(v, trace[i - 1], trace[i]))
  }

  // ---------------------------------------------------------------------------------------
  // What a correct server makes of a sequence of messages
  // ---------------------------------------------------------------------------------------

  /** The responses to the response-bearing ones of the messages after the first `from`. */
  function Responses(v: Service, ms: seq<Message>): seq<Message>
    decreases |ms|
  {
    if ms == [] then []
    else
      var init, last := ms[..|ms| - 1], ms[|ms| - 1];
      Responses(v, init) + (if HasResponse(last) then [v.respond(ms)] else [])
  }

  /** The service's responses can all be sent. */
  ghost predicate Answers(v: Service) {
    forall ms :: Sendable(v.respond(ms))
  }

  lemma {:induction false} ResponsesSendable(v: Service, ms: seq<Message>)
    requires Answers(v)
    ensures AllSendable(Responses(v, ms))
    decreases |ms|
  {
    if ms != [] {
      ResponsesSendable(v, ms[..|ms| - 1]);
    }
  }

  // ---------------------------------------------------------------------------------------
  // The invariant
  // ---------------------------------------------------------------------------------------

  /** The message that has been taken off but not handled, if there is one. */
  function Current(s: Session): seq<Message> {
    if s.acts != [] && s.acts[0].Handling? then [s.acts[0].m] else []
  }

  predicate WriteUnderWay(s: Session) {
    s.acts != [] && (s.acts[0].StartWrite? || s.acts[0].Writing?)
  }

  /** All messages of the arrived bytes, in order: handled, being handled, still in the buffer. */
  ghost predicate InputInOrder(s: Session) {
    var d := Drain(s.pending);
    Drain(s.arrived) == Drained(s.handled + Current(s) + d.messages, d.rest, d.malformed)
  }

  /** The bytes written are the encoded responses, in order, but for the unwritten rest of the
      last one while a write is under way. */
  ghost predicate OutputInOrder(v: Service, s: Session)
    requires Answers(v)
  {
    ResponsesSendable(v, s.handled);
    var all := EncodeAll(Responses(v, s.handled));
    && s.outBytes <= |s.out|
    && (WriteUnderWay(s) ==> s.outBytes < |s.out| && s.wire + s.out[s.outBytes..] == all)
    && (!WriteUnderWay(s) && !s.closed ==> s.wire == all)
    && s.wire <= all
  }

  /** Nothing complete is left in the buffer when more bytes are waited for. */
  predicate WaitsForMore(s: Session) {
    s.acts != [] && (s.acts[0].StartRead? || s.acts[0].Reading?)
  }

  ghost predicate Inv(v: Service, s: Session)
    requires Answers(v)
  {
    && |s.acts| == (if s.closed then 0 else 1)
    && (!s.closed ==> InputInOrder(s))
    && (WaitsForMore(s) ==> Attempted(s.pending) == Incomplete)
    && s.handled <= Drain(s.arrived).messages
    && OutputInOrder(v, s)
  }

  lemma AcceptedInv(v: Service)
    requires Answers(v)
    ensures Inv(v, ACCEPTED)
  {
  }

  lemma ClosingKeepsInv(v: Service, s: Session, s': Session)
    requires Answers(v) && Inv(v, s) && s' == s.(acts := [], closed := true)
    ensures Inv(v, s')
  {
    hide Attempted;
  }

  lemma ReadingKeepsInv(v: Service, s: Session, data: Buf, s': Session)
    requires Answers(v) && Inv(v, s) && s.acts == [Reading]
    requires s' == s.(acts := [Trying], arrived := s.arrived + data, pending := s.pending + data)
    ensures Inv(v, s')
  {
    hide Attempted, OutputInOrder;
    assert Drain(s.pending) == Drained([], s.pending, false);
    DrainAppend(s.arrived, data);
    assert s.handled + Current(s) + [] == s.handled;
    assert s'.handled + Current(s') == s.handled;
    OutputUnchanged(v, s, s');
  }

  /** Steps that neither handle nor write leave the output as it is. */
  lemma OutputUnchanged(v: Service, s: Session, s': Session)
    requires Answers(v) && OutputInOrder(v, s)
    requires s'.handled == s.handled && s'.out == s.out && s'.outBytes == s.outBytes
    requires s'.wire == s.wire && s'.closed == s.closed && WriteUnderWay(s) == WriteUnderWay(s')
    ensures OutputInOrder(v, s')
  {
  }

  lemma TryingKeepsInv(v: Service, s: Session, s': Session)
    requires Answers(v) && Inv(v, s) && s.acts == [Trying]
    requires match Attempted(s.pending)
             case Incomplete => s' == s.(acts := [StartRead])
             case Malformed => s' == s.(acts := [], closed := true)
             case Complete(m, consumed) =>
               s' == s.(acts := [Handling(m)], pending := s.pending[consumed..])
    ensures Inv(v, s')
  {
    hide Attempted, OutputInOrder;
    match Attempted(s.pending) {
      case Incomplete =>
        OutputUnchanged(v, s, s');
      case Malformed =>
        ClosingKeepsInv(v, s, s');
      case Complete(m, consumed) =>
        var d := Drain(s.pending[consumed..]);
        assert s.handled + Current(s) + ([m] + d.messages) == s.handled + [m] + d.messages;
        OutputUnchanged(v, s, s');
    }
  }

  lemma HandlingKeepsInput(s: Session, m: Message, s': Session)
    requires s.acts == [Handling(m)] && InputInOrder(s)
    requires s'.arrived == s.arrived && s'.pending == s.pending && s'.handled == s.handled + [m]
    requires s'.acts == [Trying] || s'.acts == [StartWrite]
    ensures InputInOrder(s') && s'.handled <= Drain(s'.arrived).messages
  {
    hide Attempted;
    assert s'.handled + Current(s') == s.handled + Current(s);
  }

  lemma HandlingKeepsInv(v: Service, s: Session, m: Message, s': Session)
    requires Answers(v) && Inv(v, s) && s.acts == [Handling(m)] && v.accepts(m)
    requires if HasResponse(m) then
               s' == s.(acts := [StartWrite], handled := s.handled + [m],
                        out := Encode(v.respond(s.handled + [m])), outBytes := 0)
             else
               s' == s.(acts := [Trying], handled := s.handled + [m])
    ensures Inv(v, s')
  {
    hide Attempted, Encode;
    HandlingKeepsInput(s, m, s');
    ResponsesSendable(v, s.handled);
    ResponsesSendable(v, s'.handled);
    assert s'.handled[..|s'.handled| - 1] == s.handled;
    var before, after := Responses(v, s.handled), Responses(v, s'.handled);
    if HasResponse(m) {
      var r := v.respond(s.handled + [m]);
      assert after == before + [r];
      EncodeAllAppend(before, r);
      assert s'.out[0..] == s'.out;
    } else {
      assert after == before;
    }
  }

  lemma EncodeAllAppend(ms: seq<Message>, m: Message)
    requires AllSendable(ms) && Sendable(m)
    ensures AllSendable(ms + [m])
    ensures EncodeAll(ms + [m]) == EncodeAll(ms) + Encode(m)
  {
    hide Encode;
    EncodeAllSplit(ms + [m], |ms|);
    assert (ms + [m])[..|ms|] == ms && (ms + [m])[|ms|..] == [m];
    assert [m][1..] == [];
  }

  lemma WritingKeepsInv(v: Service, s: Session, n: nat, s': Session)
    requires Answers(v) && Inv(v, s) && s.acts == [Writing]
    requires 0 < n && s.outBytes + n <= |s.out|
    requires s' == s.(acts := [if s.outBytes + n == |s.out| then Trying else StartWrite],
                      outBytes := s.outBytes + n,
                      wire := s.wire + s.out[s.outBytes..s.outBytes + n])
    ensures Inv(v, s')
  {
    hide Attempted, EncodeAll, Encode;
    var k := s.outBytes + n;
    assert s.out[s.outBytes..] == s.out[s.outBytes..k] + s.out[k..];
    assert s'.wire + s.out[k..] == s.wire + s.out[s.outBytes..];
  }

  lemma StepKeepsInv(v: Service, s: Session, s': Session)
    requires Answers(v) && Inv(v, s) && Step(v, s, s')
    ensures Inv(v, s')
  {
    hide Attempted, Encode, OutputInOrder, InputInOrder;
    var i: nat, next, t :| i < |s.acts| && Runs(v, s.acts[i], s, next, t)
      && s' == t.(acts := s.acts[..i] + next + s.acts[i + 1..]);
    assert i == 0 && s'.acts == next;
    if s'.closed {
      ClosingKeepsInv(v, s, s');
    } else {
      match s.acts[0] {
        case Reading =>
          var data :| t == s.(arrived := s.arrived + data, pending := s.pending + data);
          ReadingKeepsInv(v, s, data, s');
        case Trying => TryingKeepsInv(v, s, s');
        case Handling(m) => HandlingKeepsInv(v, s, m, s');
        case StartRead => StartingKeepsInv(v, s, s');
        case StartWrite => StartingKeepsInv(v, s, s');
        case Writing =>
          var n: nat :| Writes(s, n, next, t);
          WritingKeepsInv(v, s, n, s');
      }
    }
  }

  lemma StartingKeepsInv(v: Service, s: Session, s': Session)
    requires Answers(v) && Inv(v, s)
    requires || (s.acts == [StartRead] && s' == s.(acts := [Reading]))
             || (s.acts == [StartWrite] && s' == s.(acts := [Writing]))
    ensures Inv(v, s')
  {
    hide Attempted, OutputInOrder;
    OutputUnchanged(v, s, s');
  }

  lemma {:induction false} RunKeepsInv(v: Service, trace: seq<Session>, i: nat)
    requires Answers(v) && IsRun(v, trace) && i < |trace|
    ensures Inv(v, trace[i])
  {
    if i == 0 {
      AcceptedInv(v);
    } else {
      RunKeepsInv(v, trace, i - 1);
      StepKeepsInv(v, trace[i - 1], trace[i]);
    }
  }

  // ---------------------------------------------------------------------------------------
  // What the invariant gives
  // ---------------------------------------------------------------------------------------

  /** Whatever the threads do, a connection that is not closed has exactly one outstanding
      operation or running handler, and a closed one has none: handlers never overlap, and
      nothing is read, let alone handled, while a response is being written. */
  lemma OneActivity(v: Service, trace: seq<Session>, i: nat)
    requires Answers(v) && IsRun(v, trace) && i < |trace|
    ensures |trace[i].acts| == (if trace[i].closed then 0 else 1)
  {
    RunKeepsInv(v, trace, i);
  }

  /** A client that sends the messages `ms` has its messages handled in order without gaps,
      and the bytes it receives are the encoded responses to them, in order without gaps. */
  lemma HandledInOrder(v: Service, trace: seq<Session>, i: nat, ms: seq<Message>)
    requires Answers(v) && IsRun(v, trace) && i < |trace|
    requires AllSendable(ms) && trace[i].arrived <= EncodeAll(ms)
    ensures AllSendable(Responses(v, trace[i].handled))
    ensures trace[i].handled <= ms
    ensures trace[i].wire <= EncodeAll(Responses(v, trace[i].handled))
    // When the server waits for more, everything that arrived is handled and answered.
    ensures trace[i].acts == [Reading] ==>
              && trace[i].wire == EncodeAll(Responses(v, trace[i].handled))
              && (trace[i].arrived == EncodeAll(ms) ==> trace[i].handled == ms)
  {
    hide Attempted, Encode;
    var s := trace[i];
    RunKeepsInv(v, trace, i);
    ResponsesSendable(v, s.handled);
    var n := |s.arrived|;
    assert s.arrived == EncodeAll(ms)[..n];
    DrainOfStream(ms, n);
    if s.acts == [Reading] {
      assert Drain(s.pending) == Drained([], s.pending, false);
      assert s.handled + Current(s) + [] == s.handled;
      if s.arrived == EncodeAll(ms) {
        WholeStreamDelivered(ms, Drain(s.arrived));
      }
    }
  }

  lemma WholeStreamDelivered(ms: seq<Message>, d: Drained)
    requires AllSendable(ms) && Delivered(ms, |EncodeAll(ms)|, d)
    ensures d.messages == ms
  {
    hide Attempted, Encode;
    var k := |d.messages|;
    EncodeAllSplit(ms, k);
    assert d.messages == ms[..k] && EncodeAll(ms)[..|EncodeAll(ms)|] == EncodeAll(ms);
    assert d.rest == EncodeAll(ms[k..]);
  }

  /** What the client takes off the bytes written so far is a prefix of the responses, in the
      order of the requests, however those bytes reach it. */
  lemma ClientReadsResponsesInOrder(v: Service, trace: seq<Session>, i: nat, chunks: seq<Buf>)
    requires Answers(v) && IsRun(v, trace) && i < |trace|
    requires Concat(chunks) <= trace[i].wire
    ensures !Feed([], chunks).malformed
    ensures Feed([], chunks).messages <= Responses(v, trace[i].handled)
  {
    hide Attempted, Encode;
    var s := trace[i];
    RunKeepsInv(v, trace, i);
    ResponsesSendable(v, s.handled);
    AnyChunkingDelivers(Responses(v, s.handled), chunks);
  }

  /** The kinds of the responses that a client may expect for its messages. */
  function Owed(ms: seq<Message>): seq<int> {
    if ms == [] then []
    else
      var kind := Kind(ms[|ms| - 1]);
      Owed(ms[..|ms| - 1]) + if AsksForResponse(kind) then [kind + 1] else []
  }

  predicate AsksForResponse(kind: int) {
    kind == 1 || kind == 11 || kind == 14 || kind == 17 || kind == 31
  }

  /** Every request is answered by a message of the kind that follows its own. */
  ghost predicate InKind(v: Service) {
    forall ms: seq<Message> :: ms != [] && v.accepts(ms[|ms| - 1]) && AsksForResponse(Kind(ms[|ms| - 1])) ==>
      Kind(v.respond(ms)) == Kind(ms[|ms| - 1]) + 1
  }

  function KindsOf(ms: seq<Message>): seq<int> {
    seq(|ms|, i requires 0 <= i < |ms| => Kind(ms[i]))
  }

  lemma {:induction false} ResponsesInKind(v: Service, ms: seq<Message>)
    requires InKind(v) && forall m :: m in ms ==> v.accepts(m) && Representable(m)
    ensures KindsOf(Responses(v, ms)) == Owed(ms)
    decreases |ms|
  {
    hide Kind, Representable;
    if ms != [] {
      ResponsesInKind(v, ms[..|ms| - 1]);
      BearsResponse(ms[|ms| - 1]);
    }
  }

  lemma {:induction false} HandledAccepted(v: Service, trace: seq<Session>, i: nat)
    requires IsRun(v, trace) && i < |trace|
    ensures forall m :: m in trace[i].handled ==> v.accepts(m)
  {
    if i > 0 {
      HandledAccepted(v, trace, i - 1);
      StepHandlesAccepted(v, trace[i - 1], trace[i]);
    }
  }

  lemma StepHandlesAccepted(v: Service, s: Session, s': Session)
    requires Step(v, s, s') && forall m :: m in s.handled ==> v.accepts(m)
    ensures forall m :: m in s'.handled ==> v.accepts(m)
  {
    hide Attempted, Encode;
  }

  /** Once the server waits again after all the messages have arrived, the client has got, for
      every request in turn and for nothing else, a response of the kind that follows it. */
  lemma EveryRequestAnswered(v: Service, trace: seq<Session>, i: nat, ms: seq<Message>, chunks: seq<Buf>)
    requires Answers(v) && InKind(v) && IsRun(v, trace) && i < |trace|
    requires AllSendable(ms) && trace[i].arrived == EncodeAll(ms) && trace[i].acts == [Reading]
    requires Concat(chunks) == trace[i].wire
    ensures KindsOf(Feed([], chunks).messages) == Owed(ms)
  {
    hide Attempted, Encode, EncodeAll, Kind, Owed, KindsOf, InKind, Feed, Responses;
    HandledInOrder(v, trace, i, ms);
    HandledAccepted(v, trace, i);
    ResponsesInKind(v, ms);
    AnyChunkingDelivers(Responses(v, ms), chunks);
    WholeStreamDelivered(Responses(v, ms), Feed([], chunks));
  }

  // ---------------------------------------------------------------------------------------
  // The completion handler as code
  // ---------------------------------------------------------------------------------------

  datatype Op = NoOp | ReadOp | WriteOp

  /** What a completion handler leaves behind: the buffered bytes, the messages accepted so
      far, the operation it has started, and whether it has deleted the connection. */
  datatype Outcome = Outcome(pending: Buf, handled: seq<Message>, op: Op, closed: bool)

  function Settle(v: Service, pending: Buf, handled: seq<Message>): Outcome
    decreases |pending|
  {
    match Attempted(pending)
    case Incomplete => Outcome(pending, handled, ReadOp, false)
    case Malformed => Outcome(pending, handled, NoOp, true)
    case Complete(m, consumed) =>
      if !v.accepts(m) then Outcome(pending[consumed..], handled, NoOp, true)
      else if HasResponse(m) then Outcome(pending[consumed..], handled + [m], WriteOp, false)
      else Settle(v, pending[consumed..], handled + [m])
  }

  /** Settling by what one attempt to read a message has made of the bytes. */
  lemma SettleTook(v: Service, p: Buf, handled: seq<Message>, r: int, rest: Buf, m: Message)
    requires Took(p, 1, r, rest, m)
    ensures r == 1 || r == 0 || r == -2
    ensures r == 1 ==> Settle(v, p, handled) == Outcome(rest, handled, ReadOp, false)
    ensures r == -2 ==> Settle(v, p, handled) == Outcome(rest, handled, NoOp, true)
    ensures r == 0 ==>
              && |rest| < |p|
              && Settle(v, p, handled)
                 == if !v.accepts(m) then Outcome(rest, handled, NoOp, true)
                    else if HasResponse(m) then Outcome(rest, handled + [m], WriteOp, false)
                    else Settle(v, rest, handled + [m])
  {
    hide Attempted;
  }

  /** One accepted message and nothing else in the buffer: a request of any of the five kinds
      ends in a write, any other message in a read. */
  ghost predicate OneSettled(v: Service, p: Buf, handled: seq<Message>, o: Outcome) {
    forall m :: Sendable(m) && v.accepts(m) && p == Encode(m) ==>
      o == Outcome([], handled + [m], if AsksForResponse(Kind(m)) then WriteOp else ReadOp, false)
  }

  lemma OneMessageSettled(v: Service, p: Buf, handled: seq<Message>)
    ensures OneSettled(v, p, handled, Settle(v, p, handled))
  {
    hide Encode, Attempted, Kind;
    forall m | Sendable(m) && v.accepts(m) && p == Encode(m)
      ensures Settle(v, p, handled)
           == Outcome([], handled + [m], if AsksForResponse(Kind(m)) then WriteOp else ReadOp, false)
    {
      SendableSize(m);
      BearsResponse(m);
      FrameRoundTrip(m, []);
      assert p + [] == p && p[|p|..] == [];
      assert Attempted([]) == Incomplete by { NothingIsIncomplete(); }
    }
  }

  /** A pull request alone in the buffer is answered, a push notification is not. */
  lemma PullIsAnswered(v: Service, handled: seq<Message>, o: Outcome, m: Message)
    requires Sendable(m) && v.accepts(m) && OneSettled(v, Encode(m), handled, o)
    ensures m.EchoRequest? || m.FileRequest? || m.PullRequest? || m.ModelSaveRequest? || m.UserRequest? ==>
              o == Outcome([], handled + [m], WriteOp, false)
    ensures m.HeartBeatNotify? || m.FileFinishNotify? || m.PushNotify? || m.TerminationNotify? || m.UserNotify? ==>
              o == Outcome([], handled + [m], ReadOp, false)
  {
    hide Encode, Sendable;
  }

  lemma NothingIsIncomplete()
    ensures Attempted([]) == Incomplete
  {
  }

  class TcpServer {
    const conn: TcpConnection
    const service: Service
    var handled: seq<Message>
    var op: Op
    var closed: bool

    constructor (conn: TcpConnection, service: Service)
      ensures this.conn == conn && this.service == service
      ensures handled == [] && op == NoOp && !closed
    {
      this.conn, this.service := conn, service;
      handled, op, closed := [], NoOp, false;
    }

    method AsyncRead()
      requires conn.Valid() && op == NoOp
      modifies this`op, conn`inBuf, conn`inBufOffset
      ensures op == ReadOp && conn.Valid() && conn.Pending() == old(conn.Pending())
    {
      var at, room := conn.GetInBuf();
      op := ReadOp;
    }

    method AsyncWriteMessage()
      requires conn.Valid() && Representable(conn.outMessage) && op == NoOp
      modifies this`op, conn`outBuf, conn`outBytes
      ensures op == WriteOp && conn.Valid()
      ensures conn.outBuf == Encode(conn.outMessage) && conn.outBytes == 0
      ensures conn.Pending() == old(conn.Pending())
    {
      conn.PrepareOutBuf();
      op := WriteOp;
    }

    /** 0: handled; 1: handled, and the response is being written; -1: not accepted, and the
        connection is deleted. */
    method OnReadMessage() returns (read: int)
      requires conn.Valid() && op == NoOp && Answers(service)
      modifies this, conn`outMessage, conn`outBuf, conn`outBytes
      ensures conn.Valid() && conn.Pending() == old(conn.Pending())
      ensures var m := old(conn.inMessage);
              if !service.accepts(m) then
                read == -1 && handled == old(handled) && op == NoOp && closed
              else
                && handled == old(handled) + [m] && closed == old(closed)
                && (if HasResponse(m) then
                      read == 1 && op == WriteOp && conn.outBytes == 0
                      && conn.outBuf == Encode(service.respond(handled))
                    else read == 0 && op == NoOp)
    {
      hide Encode;
      if !service.accepts(conn.inMessage) {
        closed := true;
        return -1;
      }
      handled := handled + [conn.inMessage];
      if HasResponse(conn.inMessage) {
        conn.outMessage := service.respond(handled);
        assert Sendable(conn.outMessage);
        AsyncWriteMessage();
        return 1;
      }
      return 0;
    }

    /** The handler of a completed read of n bytes, and of a completed response with n == 0. */
    method OnRead(n: nat)
      requires conn.Valid() && conn.inBufOffset + conn.inBytes + n <= |conn.inBuf|
      requires op == NoOp && !closed && Answers(service)
      modifies this, conn
      ensures conn.Valid()
      ensures Outcome(conn.Pending(), handled, op, closed)
              == Settle(service, old(conn.Received(n)), old(handled))
      ensures op == WriteOp ==> conn.outBytes == 0
                                && conn.outBuf == Encode(service.respond(handled))
      ensures OneSettled(service, old(conn.Received(n)), old(handled), Outcome(conn.Pending(), handled, op, closed))
    {
      hide Attempted, Encode, Settle, Took, OneSettled;
      OneMessageSettled(service, conn.Received(n), handled);
      var inBytes := n;
      while true
        invariant conn.Valid() && op == NoOp && !closed
        invariant conn.inBufOffset + conn.inBytes + inBytes <= |conn.inBuf|
        invariant Settle(service, conn.Received(inBytes), handled)
               == Settle(service, old(conn.Received(n)), old(handled))
        decreases conn.inBytes + inBytes
      {
        ghost var p, before := conn.Received(inBytes), handled;
        var r := conn.TryReadMessage(inBytes);
        SettleTook(service, p, before, r, conn.Pending(), conn.inMessage);
        if r == 0 {
          var read := OnReadMessage();
          if read == 0 {
            conn.ReceivedNothing();
            inBytes := 0;
            continue;
          } else if read != 1 {
            closed := true;
          }
          return;
        } else if r == 1 {
          AsyncRead();
          return;
        } else {
          closed := true;
          return;
        }
      }
    }

    /** The handler of a completed write of n bytes. */
    method OnWrite(n: nat)
      requires conn.Valid() && conn.outBytes + n <= |conn.outBuf|
      requires op == NoOp && !closed && Answers(service)
      modifies this, conn
      ensures conn.Valid()
      ensures if old(conn.outBytes) + n == |old(conn.outBuf)| then
                Outcome(conn.Pending(), handled, op, closed)
                == Settle(service, old(conn.Pending()), old(handled))
              else
                && op == WriteOp && !closed && handled == old(handled)
                && conn.outBuf == old(conn.outBuf) && conn.outBytes == old(conn.outBytes) + n
                && conn.Pending() == old(conn.Pending())
    {
      hide Settle, Encode, TcpConnection.Pending, TcpConnection.Received, TcpConnection.Unwritten;
      var r := conn.OnWritten(n);
      if r == 0 {
        conn.ReceivedNothing();
        OnRead(0);
      } else {
        op := WriteOp;
      }
    }
  }

  /** The state in which the handler leaves the session. */
  function Settled(s: Session, o: Outcome, out: Buf, outBytes: nat): Session {
    s.(acts := match o.op case NoOp => [] case ReadOp => [Reading] case WriteOp => [Writing],
       closed := o.closed, pending := o.pending, handled := o.handled,
       out := out, outBytes := outBytes)
  }

  ghost predicate IsPath(v: Service, path: seq<Session>) {
    |path| > 0 && forall i :: 0 < i < |path| ==> Step(v, path[i - 1], path[i])
  }

  lemma StepBy(v: Service, s: Session, a: Activity, next: seq<Activity>, t: Session)
    requires s.acts == [a] && Runs(v, a, s, next, t)
    ensures Step(v, s, t.(acts := next))
  {
    assert s.acts[..0] + next + s.acts[0 + 1..] == next;
  }

  lemma IncompletePath(v: Service, s: Session) returns (path: seq<Session>)
    requires s.acts == [Trying] && Attempted(s.pending) == Incomplete
    ensures IsPath(v, path) && path[0] == s && path[|path| - 1] == s.(acts := [Reading])
  {
    hide Attempted;
    StepBy(v, s, Trying, [StartRead], s);
    var t := s.(acts := [StartRead]);
    StepBy(v, t, StartRead, [Reading], t);
    path := [s, t, t.(acts := [Reading])];
  }

  lemma RefusedPath(v: Service, s: Session, m: Message) returns (path: seq<Session>)
    requires s.acts == [Handling(m)] && !v.accepts(m)
    ensures IsPath(v, path) && path[0] == s && path[|path| - 1] == s.(acts := [], closed := true)
  {
    StepBy(v, s, Handling(m), [], s.(closed := true));
    path := [s, s.(acts := [], closed := true)];
  }

  lemma AnsweredPath(v: Service, s: Session, m: Message) returns (path: seq<Session>)
    requires Answers(v) && s.acts == [Handling(m)] && v.accepts(m) && HasResponse(m)
    ensures IsPath(v, path) && path[0] == s
    ensures path[|path| - 1] == s.(acts := [Writing], handled := s.handled + [m],
                                   out := Encode(v.respond(s.handled + [m])), outBytes := 0)
  {
    hide Encode;
    assert Sendable(v.respond(s.handled + [m]));
    var t := s.(handled := s.handled + [m], out := Encode(v.respond(s.handled + [m])),
                outBytes := 0);
    StepBy(v, s, Handling(m), [StartWrite], t);
    var w := t.(acts := [StartWrite]);
    StepBy(v, w, StartWrite, [Writing], w);
    path := [s, w, w.(acts := [Writing])];
  }

  lemma PrependPath(v: Service, s: Session, path: seq<Session>)
    requires IsPath(v, path) && Step(v, s, path[0])
    ensures IsPath(v, [s] + path)
  {
    forall i | 0 < i < |path| + 1
      ensures Step(v, ([s] + path)[i - 1], ([s] + path)[i])
    {
      if i > 1 {
        assert Step(v, path[i - 2], path[i - 1]);
      }
    }
  }

  /** The code of the handler is a path of the state machine. */
  lemma {:induction false} HandlerIsPath(v: Service, s: Session) returns (path: seq<Session>)
    requires Answers(v) && s.acts == [Trying] && !s.closed
    ensures IsPath(v, path) && path[0] == s
    ensures var o := Settle(v, s.pending, s.handled);
            path[|path| - 1]
            == (if o.op == WriteOp then Settled(s, o, Encode(v.respond(o.handled)), 0)
                else Settled(s, o, s.out, s.outBytes))
    decreases |s.pending|
  {
    hide Attempted, Encode, Step;
    match Attempted(s.pending) {
      case Incomplete =>
        path := IncompletePath(v, s);
      case Malformed =>
        StepBy(v, s, Trying, [], s.(closed := true));
        path := [s, s.(acts := [], closed := true)];
      case Complete(m, consumed) =>
        var t := s.(acts := [Handling(m)], pending := s.pending[consumed..]);
        StepBy(v, s, Trying, [Handling(m)], s.(pending := s.pending[consumed..]));
        var rest;
        if !v.accepts(m) {
          rest := RefusedPath(v, t, m);
        } else if HasResponse(m) {
          rest := AnsweredPath(v, t, m);
        } else {
          var u := t.(acts := [Trying], handled := s.handled + [m]);
          StepBy(v, t, Handling(m), [Trying], t.(handled := s.handled + [m]));
          rest := HandlerIsPath(v, u);
          PrependPath(v, t, rest);
          rest := [t] + rest;
        }
        PrependPath(v, s, rest);
        path := [s] + rest;
    }
  }

  // ---------------------------------------------------------------------------------------
  // Whatever the io context does, the server can go on
  // ---------------------------------------------------------------------------------------

  /** An outstanding operation may always fail. */
  lemma MayFail(v: Service, s: Session)
    requires s.acts == [Reading] || s.acts == [Writing]
    ensures Step(v, s, s.(acts := [], closed := true))
  {
    StepBy(v, s, s.acts[0], [], s.(closed := true));
  }

  lemma RunGoesOn(v: Service, trace: seq<Session>, path: seq<Session>)
    requires IsRun(v, trace) && IsPath(v, path) && path[0] == trace[|trace| - 1]
    ensures IsRun(v, trace + path[1..])
    ensures (trace + path[1..])[|trace + path[1..]| - 1] == path[|path| - 1]
  {
    hide Step;
    var longer := trace + path[1..];
    forall i | 0 < i < |longer|
      ensures Step(v, longer[i - 1], longer[i])
    {
      if i < |trace| {
        assert Step(v, trace[i - 1], trace[i]);
      } else {
        var k := i - |trace| + 1;
        assert Step(v, path[k - 1], path[k]);
      }
    }
  }

  lemma OneStepOn(v: Service, trace: seq<Session>, a: Activity, next: seq<Activity>, t: Session)
    returns (longer: seq<Session>)
    requires IsRun(v, trace) && trace[|trace| - 1].acts == [a] && Runs(v, a, trace[|trace| - 1], next, t)
    ensures IsRun(v, longer) && longer[|longer| - 1] == t.(acts := next)
  {
    hide Runs, Step;
    var s := trace[|trace| - 1];
    StepBy(v, s, a, next, t);
    var path := [s, t.(acts := next)];
    assert IsPath(v, path);
    RunGoesOn(v, trace, path);
    longer := trace + path[1..];
  }

  /** What the handler does with well-formed bytes whose messages are all accepted. */
  lemma {:induction false} SettleOpen(v: Service, p: Buf, handled: seq<Message>)
    requires !Drain(p).malformed && forall m :: m in Drain(p).messages ==> v.accepts(m)
    ensures var o := Settle(v, p, handled);
            !o.closed && (o.op == ReadOp || (o.op == WriteOp && |o.pending| < |p|))
    decreases |p|
  {
    hide Attempted;
    match Attempted(p)
    case Incomplete =>
    case Malformed =>
    case Complete(m, consumed) =>
      assert m in Drain(p).messages;
      assert forall x :: x in Drain(p[consumed..]).messages ==> x in Drain(p).messages;
      SettleOpen(v, p[consumed..], handled + [m]);
  }

  /** The bytes still to be handled are well-formed and hold messages that the client sent. */
  lemma PendingIsSent(v: Service, trace: seq<Session>, ms: seq<Message>)
    requires Answers(v) && IsRun(v, trace) && AllSendable(ms)
    requires var s := trace[|trace| - 1]; s.acts == [Trying] && s.arrived <= EncodeAll(ms)
    ensures var d := Drain(trace[|trace| - 1].pending); !d.malformed && forall m :: m in d.messages ==> m in ms
  {
    hide Attempted, Encode, EncodeAll, OutputInOrder;
    var s := trace[|trace| - 1];
    RunKeepsInv(v, trace, |trace| - 1);
    assert s.arrived == EncodeAll(ms)[..|s.arrived|];
    DrainOfStream(ms, |s.arrived|);
    var all, d := Drain(s.arrived), Drain(s.pending);
    assert all.messages == s.handled + d.messages && all.malformed == d.malformed;
    forall m | m in d.messages
      ensures m in ms
    {
      assert m in all.messages;
    }
  }

  /** The response is written `cut` bytes at a time. */
  lemma WritesOut(v: Service, trace: seq<Session>, cut: nat) returns (longer: seq<Session>)
    requires IsRun(v, trace) && cut > 0
    requires var s := trace[|trace| - 1]; s.acts == [Writing] && s.outBytes < |s.out|
    ensures IsRun(v, longer)
    ensures var s, s' := trace[|trace| - 1], longer[|longer| - 1];
            && s' == s.(acts := [Trying], outBytes := |s.out|, wire := s.wire + s.out[s.outBytes..])
    decreases |trace[|trace| - 1].out| - trace[|trace| - 1].outBytes
  {
    hide Step, Runs;
    var s := trace[|trace| - 1];
    var left := |s.out| - s.outBytes;
    var n := if cut < left then cut else left;
    var next := [if n == left then Trying else StartWrite];
    var t := s.(outBytes := s.outBytes + n, wire := s.wire + s.out[s.outBytes..s.outBytes + n]);
    WritesSome(v, s, n, next, t);
    longer := OneStepOn(v, trace, Writing, next, t);
    if n < left {
      longer := WritesAgain(v, longer);
      longer := WritesOut(v, longer, cut);
    }
    OutCut(s.out, s.outBytes, n);
  }

  lemma OutCut(out: Buf, from: nat, n: nat)
    requires from + n <= |out|
    ensures out[from..] == out[from..from + n] + out[from + n..]
    ensures from + n == |out| ==> out[from..from + n] == out[from..]
  {
  }

  lemma WritesAgain(v: Service, trace: seq<Session>) returns (longer: seq<Session>)
    requires IsRun(v, trace) && trace[|trace| - 1].acts == [StartWrite]
    ensures IsRun(v, longer) && longer[|longer| - 1] == trace[|trace| - 1].(acts := [Writing])
  {
    hide Step;
    var u := trace[|trace| - 1];
    assert Runs(v, StartWrite, u, [Writing], u);
    longer := OneStepOn(v, trace, StartWrite, [Writing], u);
  }

  lemma WritesSome(v: Service, s: Session, n: nat, next: seq<Activity>, t: Session)
    requires Writes(s, n, next, t)
    ensures Runs(v, Writing, s, next, t)
  {
  }

  /** From a completed read the server gets back to reading, writing responses on the way. */
  lemma BackToReading(v: Service, trace: seq<Session>, ms: seq<Message>, cut: nat) returns (longer: seq<Session>)
    requires Answers(v) && IsRun(v, trace) && cut > 0
    requires AllSendable(ms) && forall m :: m in ms ==> v.accepts(m)
    requires var s := trace[|trace| - 1]; s.acts == [Trying] && !s.closed && s.arrived <= EncodeAll(ms)
    ensures IsRun(v, longer)
    ensures var s := longer[|longer| - 1];
            s.acts == [Reading] && !s.closed && s.arrived == trace[|trace| - 1].arrived
    decreases |trace[|trace| - 1].pending|
  {
    hide Attempted, Encode, EncodeAll, Settle, Step, Drain, AllSendable, Answers;
    var s := trace[|trace| - 1];
    PendingIsSent(v, trace, ms);
    SettleOpen(v, s.pending, s.handled);
    var path := HandlerIsPath(v, s);
    RunGoesOn(v, trace, path);
    longer := trace + path[1..];
    var t := longer[|longer| - 1];
    if t.acts == [Writing] {
      longer := WritesOut(v, longer, cut);
      longer := BackToReading(v, longer, ms, cut);
    }
  }

  /** Whatever messages are sent, however their bytes are cut into chunks and the responses into
      writes: the server can take and answer them all. */
  lemma {:induction false} AllCanBeServed(v: Service, ms: seq<Message>, chunks: seq<Buf>, cut: nat)
    returns (trace: seq<Session>)
    requires Answers(v) && cut > 0
    requires AllSendable(ms) && forall m :: m in ms ==> v.accepts(m)
    requires (forall c :: c in chunks ==> c != []) && Concat(chunks) <= EncodeAll(ms)
    ensures IsRun(v, trace)
    ensures var s := trace[|trace| - 1]; s.acts == [Reading] && !s.closed && s.arrived == Concat(chunks)
    decreases |chunks|
  {
    hide Attempted, Encode, EncodeAll, Step, AllSendable, Answers, Concat;
    if chunks == [] {
      trace := Accepted(v);
      assert Concat([]) == [] by { ConcatNothing(); }
    } else {
      var init, last := chunks[..|chunks| - 1], chunks[|chunks| - 1];
      ConcatLast(chunks);
      assert forall c :: c in init ==> c in chunks;
      assert last in chunks && Concat(init) == Concat(chunks)[..|Concat(init)|];
      assert Concat(init) == EncodeAll(ms)[..|Concat(init)|];
      trace := AllCanBeServed(v, ms, init, cut);
      var s := trace[|trace| - 1];
      var t := s.(arrived := s.arrived + last, pending := s.pending + last);
      assert Runs(v, Reading, s, [Trying], t) by { ReadsSome(v, s, last, t); }
      trace := OneStepOn(v, trace, Reading, [Trying], t);
      trace := BackToReading(v, trace, ms, cut);
    }
  }

  lemma ConcatNothing()
    ensures Concat([]) == []
  {
  }

  lemma ReadsSome(v: Service, s: Session, data: Buf, t: Session)
    requires data != [] && t == s.(arrived := s.arrived + data, pending := s.pending + data)
    ensures Runs(v, Reading, s, [Trying], t)
  {
  }

  lemma Accepted(v: Service) returns (trace: seq<Session>)
    ensures IsRun(v, trace) && trace[|trace| - 1] == ACCEPTED.(acts := [Reading])
  {
    assert IsRun(v, [ACCEPTED]);
    trace := OneStepOn(v, [ACCEPTED], StartRead, [Reading], ACCEPTED);
  }

  lemma {:induction false} ConcatLast(chunks: seq<Buf>)
    requires chunks != []
    ensures Concat(chunks) == Concat(chunks[..|chunks| - 1]) + chunks[|chunks| - 1]
  {
    if |chunks| > 1 {
      ConcatLast(chunks[1..]);
      assert chunks[1..][..|chunks| - 2] == chunks[..|chunks| - 1][1..];
    }
  }
}
