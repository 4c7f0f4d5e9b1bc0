// The parameter server's side of a connection (src/ps/param_server.cc): which messages it takes,
// and the type of the answer that it prepares before a handler fills it in.
module ParamServers {
  import opened DistMessages
  import opened TcpConnections
  import opened TcpServers

  predicate Accepts(m: Message) {
    match m
    case PullRequest(_) => true
    case PushNotify(_) => true
    case ModelSaveRequest(_, _, _) => true
    case TerminationNotify => true
    case UserRequest(_) => true
    case UserResponse(_) => true
    case UserNotify(_) => true
    case _ => false
  }

  /** The answer to the last of the messages, filled in with `buf`; nothing is sent for the
      others. */
  function Answer(m: Message, buf: Buf): Message {
    match m
    case PullRequest(_) => PullResponse(buf)
    case UserRequest(_) => UserResponse(buf)
    case _ => ModelSaveResponse
  }

  function Param(fill: seq<Message> -> Buf): Service {
    Service(Accepts, ms => if ms == [] then ModelSaveResponse else Answer(ms[|ms| - 1], fill(ms)))
  }

  /** The connection is kept for exactly seven kinds of messages, three of which are answered by
      the kind that follows. */
  lemma AnswersInKind(fill: seq<Message> -> Buf)
    requires forall ms :: Sendable(PullResponse(fill(ms))) && Sendable(UserResponse(fill(ms)))
    ensures Answers(Param(fill)) && InKind(Param(fill))
    ensures forall m :: Representable(m) ==>
              (Param(fill).accepts(m) <==> Kind(m) in {14, 16, 17, 19, 31, 32, 33})
  {
    hide Sendable, Representable, Kind, Accepts, Answer;
    SaveIsSendable();
    forall ms
      ensures Sendable(Param(fill).respond(ms))
    {
      if ms != [] {
        AnswerIsSendable(ms[|ms| - 1], fill(ms));
      }
    }
    forall ms: seq<Message> | ms != [] && Param(fill).accepts(ms[|ms| - 1]) && AsksForResponse(Kind(ms[|ms| - 1]))
      ensures Kind(Param(fill).respond(ms)) == Kind(ms[|ms| - 1]) + 1
    {
      AnswerInKind(ms[|ms| - 1], fill(ms));
    }
    forall m | Representable(m)
      ensures Param(fill).accepts(m) <==> Kind(m) in {14, 16, 17, 19, 31, 32, 33}
    {
      AcceptedKinds(m);
    }
  }

  lemma AnswerIsSendable(m: Message, buf: Buf)
    requires Sendable(PullResponse(buf)) && Sendable(UserResponse(buf)) && Sendable(ModelSaveResponse)
    ensures Sendable(Answer(m, buf))
  {
    hide Sendable;
  }

  lemma AnswerInKind(m: Message, buf: Buf)
    requires Accepts(m) && AsksForResponse(Kind(m))
    ensures Kind(Answer(m, buf)) == Kind(m) + 1
  {
  }

  lemma AcceptedKinds(m: Message)
    requires Representable(m)
    ensures Accepts(m) <==> Kind(m) in {14, 16, 17, 19, 31, 32, 33}
  {
  }

  lemma SaveIsSendable()
    ensures Sendable(ModelSaveResponse)
  {
  }

  /** Every pull, save and user request of a worker is answered in its turn by a response of its
      own kind, and its notifications by nothing. */
  lemma WorkerIsAnswered(fill: seq<Message> -> Buf, trace: seq<Session>, i: nat, ms: seq<Message>,
                         chunks: seq<Buf>)
    requires forall hs :: Sendable(PullResponse(fill(hs))) && Sendable(UserResponse(fill(hs)))
    requires IsRun(Param(fill), trace) && i < |trace|
    requires AllSendable(ms) && trace[i].arrived == EncodeAll(ms) && trace[i].acts == [Reading]
    requires Concat(chunks) == trace[i].wire
    ensures KindsOf(Feed([], chunks).messages) == Owed(ms)
  {
    hide Encode, EncodeAll, Sendable, InKind, Answers, IsRun, Param, Owed, KindsOf;
    AnswersInKind(fill);
    EveryRequestAnswered(Param(fill), trace, i, ms, chunks);
  }

  /** A pull and a save request with a push notification between them. */
  lemma PullPushSave(pull: Buf, push: Buf)
    ensures Owed([PullRequest(pull), PushNotify(push), ModelSaveRequest(0, [], 1)]) == [15, 18]
  {
    var ms := [PullRequest(pull), PushNotify(push), ModelSaveRequest(0, [], 1)];
    assert ms[..2] == [PullRequest(pull), PushNotify(push)] && ms[..2][..1] == [PullRequest(pull)];
    assert Owed(ms[..2][..1][..0]) == [] && Owed(ms[..2][..1]) == [15] && Owed(ms[..2]) == [15];
  }
}
