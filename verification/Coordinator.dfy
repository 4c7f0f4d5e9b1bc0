// The coordinator (src/ps/coord_server.cc) and its workers (example/rank/dist_worker.cc):
// a protocol of requests, responses and finish notifications over connections that may be
// lost at any moment. The file timeout is off, as the coordinator is configured in
// example/rank/dist_server.cc:223.
module Coordinator {
  import opened Sequences
  import opened FileDispatch

  // ---------------------------------------------------------------------------------------
  // What the coordinator's handlers do to the dispatcher and to a connection's file
  // ---------------------------------------------------------------------------------------

  /** "" is the connection's "no file", and the response to a worker that gets none. */
  const NONE: File := ""

  function Deleted(d: Dispatch, file: File): Dispatch {
    if file == NONE then d else Failure(d, file)
  }

  // ---------------------------------------------------------------------------------------
  // The class
  // ---------------------------------------------------------------------------------------

  class Connection {
    var file: File
  }

  datatype Incoming =
    | FileRequest
    | FileFinish(file: File)
    | UserRequest
    | UserResponse
    | UserNotify
    | Other(kind: int)

  predicate HasResponse(m: Incoming) {
    m.FileRequest? || m.UserRequest?
  }

  predicate Handled(m: Incoming) {
    !m.Other?
  }

  class CoordServer {
    const dispatcher: FileDispatcher
    var epoch: int

    constructor (dispatcher: FileDispatcher)
      ensures this.dispatcher == dispatcher && epoch == 0
    {
      this.dispatcher := dispatcher;
      epoch := 0;
    }

    /** What runs before the event loop of the first epoch: the file list is loaded and queued. */
    method Begin(input: seq<File>, shuffled: seq<File>)
      requires input != [] && multiset(shuffled) == multiset(input)
      requires dispatcher.View() == Dispatch([], [], map[], [])
      modifies this, dispatcher
      ensures Initial(input, System(dispatcher.View(), map[], false, []))
      ensures epoch == 0 && dispatcher.timeout == old(dispatcher.timeout)
    {
      ReverseIsPermutation(input);
      assert |multiset(input)| > 0;
      dispatcher.PreTrain(input);
      epoch := 0;
      dispatcher.PreEpoch(shuffled);
    }

    method DeleteConnection(conn: Connection)
      modifies dispatcher
      ensures dispatcher.View() == Deleted(old(dispatcher.View()), conn.file)
      ensures dispatcher.timeout == old(dispatcher.timeout)
    {
      if conn.file != "" {
        dispatcher.WorkerFailureFile(conn.file);
      }
    }

    method OnFileRequest(conn: Connection, scan: int, stamp: int) returns (response: (int, File))
      modifies dispatcher, conn
      ensures response.0 == epoch
      ensures exists ok, file ::
                && DispatchStep(old(dispatcher.View()), old(dispatcher.timeout), scan, stamp,
                                ok, file, dispatcher.View())
                && response.1 == (if ok then file else NONE)
                && conn.file == (if ok then file else old(conn.file))
    {
      var ok, file := dispatcher.WorkerDispatchFile(scan, stamp);
      if ok {
        conn.file := file;
      }
      response := (epoch, if ok then file else "");
      assert DispatchStep(old(dispatcher.View()), old(dispatcher.timeout), scan, stamp,
                          ok, file, dispatcher.View());
    }

    /** `stop` says that the event loop is told to stop: the epoch is over. */
    method OnFileFinishNotify(conn: Connection, file: File) returns (stop: bool)
      modifies dispatcher, conn
      ensures dispatcher.View() == Finish(old(dispatcher.View()), file)
      ensures conn.file == NONE
      ensures stop == CountTest(dispatcher.View())
    {
      conn.file := "";
      stop := dispatcher.WorkerFinishFile(file);
    }

    method OnReadMessage(conn: Connection, m: Incoming, scan: int, stamp: int)
      returns (read: int, response: (int, File), stop: bool)
      modifies dispatcher, conn
      ensures read == (if !Handled(m) then -1 else if HasResponse(m) then 1 else 0)
      ensures m.FileRequest? ==> exists ok, file ::
                && DispatchStep(old(dispatcher.View()), old(dispatcher.timeout), scan, stamp,
                                ok, file, dispatcher.View())
                && response == (epoch, if ok then file else NONE)
                && conn.file == (if ok then file else old(conn.file))
      ensures m.FileFinish? ==>
                && dispatcher.View() == Finish(old(dispatcher.View()), m.file)
                && conn.file == NONE
      ensures !m.FileRequest? && !m.FileFinish? ==> conn.file == old(conn.file)
      ensures m.UserRequest? || m.UserResponse? || m.UserNotify? ==>
                dispatcher.View() == old(dispatcher.View())
      ensures m.Other? ==> dispatcher.View() == Deleted(old(dispatcher.View()), conn.file)
      ensures stop == (m.FileFinish? && CountTest(dispatcher.View()))
    {
      response := (epoch, "");
      stop := false;
      match m {
        case FileRequest => response := OnFileRequest(conn, scan, stamp);
        case FileFinish(file) => stop := OnFileFinishNotify(conn, file);
        case UserRequest =>
        case UserResponse =>
        case UserNotify =>
        case Other(_) =>
          DeleteConnection(conn);
          return -1, response, stop;
      }
      read := if m.FileRequest? || m.UserRequest? then 1 else 0;
    }

    /** The server's read loop deletes the connection again when the handler has reported an
        error, although the handler has deleted it already: the file is queued only once. */
    method OnBadMessage(conn: Connection, m: Incoming)
      requires !Handled(m)
      modifies dispatcher, conn
      ensures dispatcher.View() == Deleted(old(dispatcher.View()), old(conn.file))
      ensures conn.file == old(conn.file)
    {
      var read, _, _ := OnReadMessage(conn, m, 0, 0);
      if read == -1 {
        DeleteConnection(conn);
      }
    }
  }

  // ---------------------------------------------------------------------------------------
  // The whole system as a state machine
  // ---------------------------------------------------------------------------------------

  /** Where a worker's request/train/finish loop is. */
  datatype Worker = Idle | Waiting | Training(file: File)

  /** A connection: the coordinator's record of the worker's file, the worker's own state, and
      the messages under way in both directions. */
  datatype Link = Link(file: File, worker: Worker, inbox: seq<Incoming>, outbox: seq<File>)

  datatype System = System(
    d: Dispatch,
    links: map<nat, Link>,
    over: bool,
    history: seq<seq<File>>)

  datatype Action =
    | Accept(c: nat)
    | SendRequest(c: nat)
    | HandleRequest(c: nat, scan: int, stamp: int)
    | Receive(c: nat)
    | SendFinish(c: nat)
    | HandleFinish(c: nat)
    | Lose(c: nat)
    | Reject(c: nat)
    | NextEpoch(order: seq<File>)

  ghost predicate Act(s: System, a: Action, s': System) {
    match a
    case Accept(c) =>
      && c !in s.links
      && s' == s.(links := s.links[c := Link(NONE, Idle, [], [])])
    case SendRequest(c) =>
      && c in s.links
      && s.links[c].worker.Idle?
      && s' == s.(links := s.links[c := s.links[c].(worker := Waiting,
                                                    inbox := s.links[c].inbox + [FileRequest])])
    case HandleRequest(c, scan, stamp) =>
      && c in s.links
      && s.links[c].inbox != [] && s.links[c].inbox[0] == FileRequest
      && var l := s.links[c].(inbox := s.links[c].inbox[1..]);
      exists ok, file, d' ::
        && DispatchStep(s.d, 0, scan, stamp, ok, file, d')
        && s' == s.(d := d',
                    links := s.links[c := if ok then l.(file := file, outbox := l.outbox + [file])
                                          else l.(outbox := l.outbox + [NONE])])
    case Receive(c) =>
      && c in s.links
      && s.links[c].worker.Waiting? && s.links[c].outbox != []
      && var l := s.links[c];
      s' == s.(links := s.links[c := l.(outbox := l.outbox[1..],
                                        worker := if l.outbox[0] == NONE then Idle
                                                  else Training(l.outbox[0]))])
    case SendFinish(c) =>
      && c in s.links
      && s.links[c].worker.Training?
      && var l := s.links[c];
      s' == s.(links := s.links[c := l.(worker := Idle,
                                        inbox := l.inbox + [FileFinish(l.worker.file)])])
    case HandleFinish(c) =>
      && c in s.links
      && s.links[c].inbox != [] && s.links[c].inbox[0].FileFinish?
      && var l := s.links[c];
      && var d' := Finish(s.d, l.inbox[0].file);
      s' == s.(d := d', over := s.over || CountTest(d'),
               links := s.links[c := l.(file := NONE, inbox := l.inbox[1..])])
    case Lose(c) =>
      && c in s.links
      && s' == s.(d := Deleted(s.d, s.links[c].file), links := s.links - {c})
    case Reject(c) =>
      // An unexpected message deletes the connection twice.
      && c in s.links
      && s' == s.(d := Deleted(Deleted(s.d, s.links[c].file), s.links[c].file),
                  links := s.links - {c})
    case NextEpoch(order) =>
      && s.over
      && multiset(order) == multiset(s.d.files)
      && s' == System(StartEpoch(s.d, order), map[], false, s.history + [s.d.finished])
  }

  ghost predicate Initial(inputs: seq<File>, s: System) {
    exists order: seq<File> ::
      && multiset(order) == multiset(inputs)
      && s == System(Dispatch(order, order, map[], []), map[], false, [])
  }

  ghost predicate Next(s: System, s': System) {
    exists a :: Act(s, a, s')
  }

  ghost predicate IsRun(inputs: seq<File>, trace: seq<System>) {
    && |trace| > 0
    && Initial(inputs, trace[0])
    && (forall i :: 0 < i < |trace| ==> Next(trace[i - 1], trace[i]))
  }

  // ---------------------------------------------------------------------------------------
  // The invariant
  // ---------------------------------------------------------------------------------------

  /** What is under way on a connection follows from the coordinator's record of its file. */
  predicate LinkOk(l: Link) {
    match l.worker
    case Idle =>
      l.outbox == [] && l.inbox == (if l.file == NONE then [] else [FileFinish(l.file)])
    case Waiting =>
      || (l.outbox == [] && l.inbox == (if l.file == NONE then [FileRequest]
                                        else [FileFinish(l.file), FileRequest]))
      || (l.outbox == [l.file] && l.inbox == [])
    case Training(f) =>
      l.outbox == [] && l.inbox == [] && l.file == f && f != NONE
  }

  ghost predicate Holds(links: map<nat, Link>, f: File) {
    exists c :: c in links && links[c].file == f
  }

  /** The dispatched files are exactly those held by one live connection each. */
  ghost predicate HeldOnce(d: Dispatch, links: map<nat, Link>) {
    && (forall c :: c in links && links[c].file != NONE ==> links[c].file in d.dispatched)
    && (forall c, e :: c in links && e in links && c != e && links[c].file != NONE
          ==> links[c].file != links[e].file)
    && (forall f :: f in d.dispatched ==> Holds(links, f))
  }

  ghost predicate FinishedOnce(d: Dispatch) {
    && NoDup(d.finished)
    && (forall f :: f in d.finished ==> f in d.files && f !in d.queue && f !in d.dispatched)
  }

  ghost predicate Inv(inputs: seq<File>, s: System) {
    && Accounted(s.d)
    && FinishedOnce(s.d)
    && multiset(s.d.files) == multiset(inputs)
    && (forall c :: c in s.links ==> LinkOk(s.links[c]))
    && HeldOnce(s.d, s.links)
    && (s.over <==> Drained(s.d))
    && (forall e :: 0 <= e < |s.history| ==> multiset(s.history[e]) == multiset(inputs))
  }

  ghost predicate GoodInputs(inputs: seq<File>) {
    inputs != [] && NoDup(inputs) && NONE !in inputs
  }

  lemma NoneNotListed(inputs: seq<File>, s: System)
    requires GoodInputs(inputs) && Inv(inputs, s)
    ensures NONE !in s.d.files && s.d.files != []
  {
    BagNoDup(inputs, s.d.files);
  }

  lemma InitialInv(inputs: seq<File>, s: System)
    requires GoodInputs(inputs) && Initial(inputs, s)
    ensures Inv(inputs, s)
  {
    BagNoDup(inputs, s.d.files);
  }

  /** Giving the head of the queue to connection `c`. */
  lemma GrantKeepsHeldOnce(d: Dispatch, links: map<nat, Link>, c: nat, stamp: int, l: Link)
    requires Accounted(d) && HeldOnce(d, links) && d.queue != [] && NONE !in d.files
    requires c in links && links[c].file == NONE && l.file == d.queue[0]
    ensures HeldOnce(d.(queue := d.queue[1..], dispatched := d.dispatched[d.queue[0] := stamp]),
                     links[c := l])
  {
    var links' := links[c := l];
    assert d.queue[0] in d.queue && d.queue[0] in d.files;
    assert links'[c].file == d.queue[0];
    forall f | f in d.dispatched
      ensures Holds(links', f)
    {
      var e :| e in links && links[e].file == f;
      assert e in links' && links'[e].file == f;
    }
  }

  /** Changing a connection without changing the coordinator's record of its file. */
  lemma SameFileKeepsHeldOnce(d: Dispatch, links: map<nat, Link>, c: nat, l: Link)
    requires HeldOnce(d, links)
    requires if c in links then l.file == links[c].file else l.file == NONE && NONE !in d.dispatched
    ensures HeldOnce(d, links[c := l])
  {
    var links' := links[c := l];
    forall f | f in d.dispatched
      ensures Holds(links', f)
    {
      var e :| e in links && links[e].file == f;
      assert e in links' && links'[e].file == f;
    }
  }

  /** Taking `file`, which connection `c` holds, out of the dispatched files. */
  lemma ReleaseKeepsHeldOnce(d: Dispatch, d': Dispatch, links: map<nat, Link>, links': map<nat, Link>,
                             c: nat)
    requires HeldOnce(d, links) && c in links
    requires d'.dispatched == d.dispatched - {links[c].file}
    requires links' == links - {c} || exists l: Link :: l.file == NONE && links' == links[c := l]
    requires links[c].file != NONE || d'.dispatched == d.dispatched
    requires NONE !in d.dispatched
    ensures HeldOnce(d', links')
  {
    forall f | f in d'.dispatched
      ensures Holds(links', f)
    {
      var e :| e in links && links[e].file == f;
      assert e != c;
      assert e in links' && links'[e].file == f;
    }
  }

  lemma DispatchKeepsFinishedOnce(d: Dispatch, scan: int, stamp: int, ok: bool, file: File, d': Dispatch)
    requires Accounted(d) && FinishedOnce(d) && DispatchStep(d, 0, scan, stamp, ok, file, d')
    ensures FinishedOnce(d') && d'.files == d.files && (Drained(d') <==> Drained(d))
    ensures if d.queue == [] then !ok && d' == d
            else ok && file == d.queue[0] && file in d.files
                 && d' == d.(queue := d.queue[1..], dispatched := d.dispatched[file := stamp])
  {
    if d.queue != [] {
      assert d.queue == [file] + d'.queue;
      assert file in d'.dispatched;
    }
  }

  lemma RequestedLink(l: Link, ok: bool, file: File)
    requires LinkOk(l) && l.inbox != [] && l.inbox[0] == FileRequest && (ok ==> file != NONE)
    ensures l.file == NONE
    ensures var l' := l.(inbox := l.inbox[1..]);
            LinkOk(if ok then l'.(file := file, outbox := l'.outbox + [file])
                   else l'.(outbox := l'.outbox + [NONE]))
  {
  }

  lemma HandleRequestKeepsInv(inputs: seq<File>, s: System, c: nat, scan: int, stamp: int, s': System)
    requires GoodInputs(inputs) && Inv(inputs, s) && Act(s, HandleRequest(c, scan, stamp), s')
    ensures Inv(inputs, s')
  {
    hide LinkOk, HeldOnce, Accounted, Drained, FinishedOnce, DispatchStep, GoodInputs;
    NoneNotListed(inputs, s);
    var ok, file, d' :| DispatchStep(s.d, 0, scan, stamp, ok, file, d') && s'.d == d' &&
      var l := s.links[c].(inbox := s.links[c].inbox[1..]);
      s'.links == s.links[c := if ok then l.(file := file, outbox := l.outbox + [file])
                               else l.(outbox := l.outbox + [NONE])];
    DispatchKeepsAccounted(s.d, 0, scan, stamp, ok, file, d');
    DispatchKeepsFinishedOnce(s.d, scan, stamp, ok, file, d');
    RequestedLink(s.links[c], ok, file);
    if s.d.queue != [] {
      GrantKeepsHeldOnce(s.d, s.links, c, stamp, s'.links[c]);
    } else {
      SameFileKeepsHeldOnce(s.d, s.links, c, s'.links[c]);
    }
  }

  lemma HandleFinishKeepsInv(inputs: seq<File>, s: System, c: nat, s': System)
    requires GoodInputs(inputs) && Inv(inputs, s) && Act(s, HandleFinish(c), s')
    ensures Inv(inputs, s')
  {
    NoneNotListed(inputs, s);
    var file := s.links[c].file;
    assert s.links[c].inbox[0] == FileFinish(file);
    FinishKeepsAccounted(s.d, file);
    CountTestIsDrained(s'.d);
    assert file in s.d.dispatched;
    assert LinkOk(s'.links[c]) && s'.links[c].file == NONE;
    ReleaseKeepsHeldOnce(s.d, s'.d, s.links, s'.links, c);
  }

  lemma HeldIsDispatched(d: Dispatch, links: map<nat, Link>, c: nat)
    requires HeldOnce(d, links) && c in links && links[c].file != NONE
    ensures links[c].file in d.dispatched
  {
  }

  lemma DeleteKeepsInv(inputs: seq<File>, s: System, c: nat, s': System)
    requires GoodInputs(inputs) && Inv(inputs, s) && (Act(s, Lose(c), s') || Act(s, Reject(c), s'))
    ensures Inv(inputs, s')
  {
    hide HeldOnce, LinkOk;
    NoneNotListed(inputs, s);
    var file := s.links[c].file;
    FailureKeepsAccounted(s.d, file);
    assert s'.d == Deleted(s.d, file);
    assert s'.links == s.links - {c};
    assert NONE !in s.d.dispatched;
    if file != NONE {
      HeldIsDispatched(s.d, s.links, c);
    }
    ReleaseKeepsHeldOnce(s.d, s'.d, s.links, s'.links, c);
    if file != NONE {
      assert file in s.d.dispatched;
      assert s'.d.queue[|s.d.queue|] == file;
      assert FinishedOnce(s'.d);
    }
  }

  lemma NextEpochKeepsInv(inputs: seq<File>, s: System, order: seq<File>, s': System)
    requires GoodInputs(inputs) && Inv(inputs, s) && Act(s, NextEpoch(order), s')
    ensures Inv(inputs, s')
  {
    BagNoDup(inputs, order);
    FinishedIsWholeInput(inputs, s);
  }

  /** Receiving and sending on one connection, and accepting a new one. */
  lemma LinkStepKeepsInv(inputs: seq<File>, s: System, a: Action, s': System)
    requires GoodInputs(inputs) && Inv(inputs, s) && Act(s, a, s')
    requires a.Accept? || a.SendRequest? || a.Receive? || a.SendFinish?
    ensures Inv(inputs, s')
  {
    NoneNotListed(inputs, s);
    assert LinkOk(s'.links[a.c]);
    SameFileKeepsHeldOnce(s.d, s.links, a.c, s'.links[a.c]);
  }

  lemma ActKeepsInv(inputs: seq<File>, s: System, a: Action, s': System)
    requires GoodInputs(inputs) && Inv(inputs, s) && Act(s, a, s')
    ensures Inv(inputs, s')
  {
    match a {
      case HandleRequest(c, scan, stamp) => HandleRequestKeepsInv(inputs, s, c, scan, stamp, s');
      case HandleFinish(c) => HandleFinishKeepsInv(inputs, s, c, s');
      case Lose(c) => DeleteKeepsInv(inputs, s, c, s');
      case Reject(c) => DeleteKeepsInv(inputs, s, c, s');
      case NextEpoch(order) => NextEpochKeepsInv(inputs, s, order, s');
      case _ => LinkStepKeepsInv(inputs, s, a, s');
    }
  }

  lemma {:induction false} RunKeepsInv(inputs: seq<File>, trace: seq<System>, i: nat)
    requires GoodInputs(inputs) && IsRun(inputs, trace) && i < |trace|
    ensures Inv(inputs, trace[i])
  {
    if i == 0 {
      InitialInv(inputs, trace[0]);
    } else {
      RunKeepsInv(inputs, trace, i - 1);
      var a :| Act(trace[i - 1], a, trace[i]);
      ActKeepsInv(inputs, trace[i - 1], a, trace[i]);
    }
  }

  // ---------------------------------------------------------------------------------------
  // What the invariant gives
  // ---------------------------------------------------------------------------------------

  lemma FinishedIsWholeInput(inputs: seq<File>, s: System)
    requires GoodInputs(inputs) && Inv(inputs, s) && s.over
    ensures multiset(s.d.finished) == multiset(inputs)
  {
    BagNoDup(inputs, s.d.files);
    SameElemsSameBag(s.d.finished, s.d.files);
  }

  /** At every reachable state, each input file is in exactly one place: waiting in the queue
      (once), held by exactly one live connection, or finished (once). */
  lemma EachFileInOnePlace(inputs: seq<File>, trace: seq<System>, i: nat, f: File)
    requires GoodInputs(inputs) && IsRun(inputs, trace) && i < |trace| && f in inputs
    ensures var s := trace[i];
            && multiset(s.d.queue)[f] + multiset(s.d.finished)[f]
               + (if Holds(s.links, f) then 1 else 0) == 1
            && (forall c, e :: (c in s.links && e in s.links && s.links[c].file == f
                                && s.links[e].file == f) ==> c == e)
  {
    var s := trace[i];
    RunKeepsInv(inputs, trace, i);
    NoneNotListed(inputs, s);
    BagNoDup(inputs, s.d.files);
    CountInNoDup(s.d.queue, f);
    CountInNoDup(s.d.finished, f);
    if c :| c in s.links && s.links[c].file == f {
      assert s.links[c].file in s.d.dispatched;
    }
  }

  /** When the epoch is declared over, every file has been finished exactly once and no
      connection still holds one, so the assertions at the start of the next epoch hold; and
      the epoch is declared over as soon as that is the case. */
  lemma EpochEnd(inputs: seq<File>, trace: seq<System>, i: nat)
    requires GoodInputs(inputs) && IsRun(inputs, trace) && i < |trace|
    ensures var s := trace[i];
            && (s.over ==> s.d.queue == [] && s.d.dispatched == map[]
                           && forall c :: c in s.links ==> s.links[c].file == NONE)
            && (s.over <==> multiset(s.d.finished) == multiset(inputs))
  {
    var s := trace[i];
    RunKeepsInv(inputs, trace, i);
    NoneNotListed(inputs, s);
    assert s.d.queue != [] ==> s.d.queue[0] in s.d.files;
    if s.over {
      FinishedIsWholeInput(inputs, s);
    } else if multiset(s.d.finished) == multiset(inputs) {
      BagNoDup(inputs, s.d.finished);
      BagNoDup(inputs, s.d.files);
      assert false;
    }
  }

  function Total(history: seq<seq<File>>, f: File): nat {
    if history == [] then 0 else multiset(history[0])[f] + Total(history[1..], f)
  }

  lemma {:induction false} TotalOfPermutations(inputs: seq<File>, history: seq<seq<File>>, f: File)
    requires NoDup(inputs) && f in inputs
    requires forall e :: 0 <= e < |history| ==> multiset(history[e]) == multiset(inputs)
    ensures Total(history, f) == |history|
  {
    if history != [] {
      TotalOfPermutations(inputs, history[1..], f);
      CountInNoDup(inputs, f);
    }
  }

  /** Over a whole training run, every input file has been finished once per completed epoch,
      whatever workers died on the way, and at most once in the current epoch. */
  lemma FinishedOncePerEpoch(inputs: seq<File>, trace: seq<System>, i: nat, f: File)
    requires GoodInputs(inputs) && IsRun(inputs, trace) && i < |trace| && f in inputs
    ensures Total(trace[i].history, f) == |trace[i].history|
    ensures multiset(trace[i].d.finished)[f] <= 1
  {
    RunKeepsInv(inputs, trace, i);
    CountInNoDup(trace[i].d.finished, f);
    TotalOfPermutations(inputs, trace[i].history, f);
  }

  // ---------------------------------------------------------------------------------------
  // An epoch can always be ended
  // ---------------------------------------------------------------------------------------

  ghost predicate IsPath(path: seq<System>) {
    |path| > 0 && forall i :: 0 < i < |path| ==> Next(path[i - 1], path[i])
  }

  lemma Longer(path: seq<System>, a: Action, s': System)
    requires IsPath(path) && Act(path[|path| - 1], a, s')
    ensures IsPath(path + [s'])
  {
    hide Act;
    var longer := path + [s'];
    forall i | 0 < i < |longer|
      ensures Next(longer[i - 1], longer[i])
    {
      if i < |path| {
        assert Next(path[i - 1], path[i]);
      }
    }
  }

  /** One more step of a path whose states satisfy the invariant. */
  lemma Step(inputs: seq<File>, path: seq<System>, a: Action, s': System) returns (path': seq<System>)
    requires GoodInputs(inputs) && IsPath(path) && Inv(inputs, path[|path| - 1])
    requires Act(path[|path| - 1], a, s')
    ensures IsPath(path') && path'[0] == path[0] && path'[|path'| - 1] == s' && Inv(inputs, s')
  {
    hide Act, Inv, IsPath;
    assert |path| > 0 by { NotEmpty(path); }
    Longer(path, a, s');
    ActKeepsInv(inputs, path[|path| - 1], a, s');
    path' := path + [s'];
  }

  lemma NotEmpty(path: seq<System>)
    requires IsPath(path)
    ensures |path| > 0
  {
  }

  /** All workers may be lost; their files are queued again. */
  lemma LoseAll(inputs: seq<File>, path: seq<System>) returns (path': seq<System>)
    requires GoodInputs(inputs) && IsPath(path) && Inv(inputs, path[|path| - 1])
    ensures IsPath(path') && path'[0] == path[0] && Inv(inputs, path'[|path'| - 1])
    ensures var s, s' := path[|path| - 1], path'[|path'| - 1];
            s'.links == map[] && s'.over == s.over && s'.history == s.history
  {
    hide IsPath, Inv, GoodInputs;
    NotEmpty(path);
    path' := path;
    var s := path[|path| - 1];
    while s.links != map[]
      invariant IsPath(path') && |path'| > 0 && path'[0] == path[0] && path'[|path'| - 1] == s
      invariant Inv(inputs, s) && s.over == path[|path| - 1].over && s.history == path[|path| - 1].history
      decreases |s.links.Keys|
    {
      var c :| c in s.links;
      var s' := s.(d := Deleted(s.d, s.links[c].file), links := s.links - {c});
      assert Act(s, Lose(c), s');
      assert s'.links.Keys == s.links.Keys - {c};
      path' := Step(inputs, path', Lose(c), s');
      NotEmpty(path');
      s := s';
    }
  }

  /** A worker connects, is given the first file of the queue, trains on it, reports it and
      leaves. */
  lemma ServeOne(inputs: seq<File>, path: seq<System>) returns (path': seq<System>)
    requires GoodInputs(inputs) && IsPath(path) && Inv(inputs, path[|path| - 1])
    requires var s := path[|path| - 1]; s.links == map[] && s.d.queue != []
    ensures IsPath(path') && path'[0] == path[0] && Inv(inputs, path'[|path'| - 1])
    ensures var s, s' := path[|path| - 1], path'[|path'| - 1];
            && s'.links == map[] && s'.history == s.history
            && s'.d.queue == s.d.queue[1..] && s'.d.finished == s.d.finished + [s.d.queue[0]]
  {
    hide IsPath, Inv, GoodInputs, Act;
    NotEmpty(path);
    var s := path[|path| - 1];
    var f := s.d.queue[0];
    assert f != NONE by { QueuedIsFile(inputs, s); }
    var s' := Granted(s);
    var end := Completed(s', f);
    Served(s);
    Trained(s', f);
    path' := Step(inputs, path, Accept(0), Alone(s, Link(NONE, Idle, [], [])));
    path' := Step(inputs, path', SendRequest(0), Alone(s, Link(NONE, Waiting, [FileRequest], [])));
    path' := Step(inputs, path', HandleRequest(0, 0, 0), Alone(s', Link(f, Waiting, [], [f])));
    path' := Step(inputs, path', Receive(0), Alone(s', Link(f, Training(f), [], [])));
    path' := Step(inputs, path', SendFinish(0), Alone(s', Link(f, Idle, [FileFinish(f)], [])));
    path' := Step(inputs, path', HandleFinish(0), Alone(end, Link(NONE, Idle, [], [])));
    path' := Step(inputs, path', Lose(0), end);
  }

  /** The state with one connection only. */
  function Alone(s: System, l: Link): System {
    s.(links := map[0 := l])
  }

  /** The first file is given to a worker. */
  function Granted(s: System): System
    requires s.d.queue != []
  {
    s.(d := s.d.(queue := s.d.queue[1..], dispatched := s.d.dispatched[s.d.queue[0] := 0]))
  }

  function Completed(s: System, file: File): System {
    var d := Finish(s.d, file);
    s.(d := d, over := s.over || CountTest(d), links := map[])
  }

  lemma OneLink(l: Link, l': Link)
    ensures map[0 := l][0 := l'] == map[0 := l'] && map[0 := l] - {0} == map[]
  {
  }

  /** The steps of one worker and one file. */
  lemma Served(s: System)
    requires s.links == map[] && s.d.queue != []
    ensures var f, s' := s.d.queue[0], Granted(s);
            && Act(s, Accept(0), Alone(s, Link(NONE, Idle, [], [])))
            && Act(Alone(s, Link(NONE, Idle, [], [])), SendRequest(0),
                   Alone(s, Link(NONE, Waiting, [FileRequest], [])))
            && Act(Alone(s, Link(NONE, Waiting, [FileRequest], [])), HandleRequest(0, 0, 0),
                   Alone(s', Link(f, Waiting, [], [f])))
  {
    var f, d := s.d.queue[0], Granted(s).d;
    assert DispatchStep(s.d, 0, 0, 0, true, f, d);
    OneLink(Link(NONE, Idle, [], []), Link(NONE, Waiting, [FileRequest], []));
    OneLink(Link(NONE, Waiting, [FileRequest], []), Link(f, Waiting, [], [f]));
    assert s.links[0 := Link(NONE, Idle, [], [])] == map[0 := Link(NONE, Idle, [], [])];
    assert [] + [FileRequest] == [FileRequest] && [FileRequest][1..] == [] && [] + [f] == [f];
  }

  lemma Trained(s: System, f: File)
    requires f != NONE
    ensures var end := Completed(s, f);
            && Act(Alone(s, Link(f, Waiting, [], [f])), Receive(0), Alone(s, Link(f, Training(f), [], [])))
            && Act(Alone(s, Link(f, Training(f), [], [])), SendFinish(0),
                   Alone(s, Link(f, Idle, [FileFinish(f)], [])))
            && Act(Alone(s, Link(f, Idle, [FileFinish(f)], [])), HandleFinish(0),
                   Alone(end, Link(NONE, Idle, [], [])))
            && Act(Alone(end, Link(NONE, Idle, [], [])), Lose(0), end)
  {
    OneLink(Link(f, Waiting, [], [f]), Link(f, Training(f), [], []));
    OneLink(Link(f, Training(f), [], []), Link(f, Idle, [FileFinish(f)], []));
    OneLink(Link(f, Idle, [FileFinish(f)], []), Link(NONE, Idle, [], []));
    OneLink(Link(NONE, Idle, [], []), Link(NONE, Idle, [], []));
    assert [f][1..] == [] && [] + [FileFinish(f)] == [FileFinish(f)] && [FileFinish(f)][1..] == [];
  }

  lemma QueuedIsFile(inputs: seq<File>, s: System)
    requires GoodInputs(inputs) && Inv(inputs, s) && s.d.queue != []
    ensures s.d.queue[0] != NONE
  {
    NoneNotListed(inputs, s);
  }

  lemma NobodyHolds(inputs: seq<File>, s: System)
    requires GoodInputs(inputs) && Inv(inputs, s) && s.links == map[] && !s.over
    ensures s.d.queue != []
  {
    assert forall f :: f in s.d.dispatched ==> Holds(s.links, f);
    assert s.d.dispatched == map[];
  }

  /** From any reachable state the epoch can still be brought to its end: no loss of workers,
      however timed, leaves a file that cannot be finished. */
  lemma EpochCanEnd(inputs: seq<File>, trace: seq<System>, i: nat) returns (path: seq<System>)
    requires GoodInputs(inputs) && IsRun(inputs, trace) && i < |trace|
    ensures IsPath(path) && path[0] == trace[i]
    ensures path[|path| - 1].over && path[|path| - 1].history == trace[i].history
  {
    hide Inv, GoodInputs, IsPath;
    RunKeepsInv(inputs, trace, i);
    assert IsPath([trace[i]]) by { Single(trace[i]); }
    path := LoseAll(inputs, [trace[i]]);
    NotEmpty(path);
    var s := path[|path| - 1];
    while !s.over
      invariant IsPath(path) && |path| > 0 && path[0] == trace[i] && s == path[|path| - 1]
      invariant Inv(inputs, s) && s.links == map[] && s.history == trace[i].history
      decreases |s.d.queue|
    {
      NobodyHolds(inputs, s);
      path := ServeOne(inputs, path);
      NotEmpty(path);
      s := path[|path| - 1];
    }
  }

  lemma Single(s: System)
    ensures IsPath([s])
  {
  }

  /** An epoch that was over goes into the history, as it was finished, when the next one starts. */
  lemma HistoryStep(s: System, s': System)
    requires Next(s, s')
    ensures s'.history == if s.over && !s'.over then s.history + [s.d.finished] else s.history
    ensures s.over && !s'.over ==> s'.d.finished == [] && s'.d.queue == s'.d.files && s'.links == map[]
  {
  }

  ghost function EpochsEnded(trace: seq<System>): nat {
    if |trace| < 2 then 0
    else
      var last := |trace| - 1;
      EpochsEnded(trace[..last]) + if trace[last - 1].over && !trace[last].over then 1 else 0
  }

  lemma {:induction false} HistoryCounts(inputs: seq<File>, trace: seq<System>)
    requires IsRun(inputs, trace)
    ensures |trace[|trace| - 1].history| == EpochsEnded(trace)
    decreases |trace|
  {
    hide Next;
    if |trace| > 1 {
      var last := |trace| - 1;
      assert IsRun(inputs, trace[..last]);
      HistoryCounts(inputs, trace[..last]);
      HistoryStep(trace[last - 1], trace[last]);
    }
  }

  lemma RunGoesOn(inputs: seq<File>, trace: seq<System>, path: seq<System>)
    requires IsRun(inputs, trace) && IsPath(path) && path[0] == trace[|trace| - 1]
    ensures IsRun(inputs, trace + path[1..])
    ensures (trace + path[1..])[|trace + path[1..]| - 1] == path[|path| - 1]
  {
    hide Next;
    var longer := trace + path[1..];
    forall i | 0 < i < |longer|
      ensures Next(longer[i - 1], longer[i])
    {
      if i < |trace| {
        assert Next(trace[i - 1], trace[i]);
      } else {
        var k := i - |trace| + 1;
        assert Next(path[k - 1], path[k]);
      }
    }
  }

  lemma NextEpochStarts(inputs: seq<File>, trace: seq<System>) returns (longer: seq<System>)
    requires IsRun(inputs, trace) && trace[|trace| - 1].over
    ensures IsRun(inputs, longer)
    ensures var s := trace[|trace| - 1]; longer[|longer| - 1].history == s.history + [s.d.finished]
  {
    var s := trace[|trace| - 1];
    var s' := System(StartEpoch(s.d, s.d.files), map[], false, s.history + [s.d.finished]);
    assert Act(s, NextEpoch(s.d.files), s');
    assert IsPath([s, s']);
    RunGoesOn(inputs, trace, [s, s']);
    longer := trace + [s, s'][1..];
  }

  /** Over any list of distinct files, training can run for any number of epochs. */
  lemma AnyNumberOfEpochs(inputs: seq<File>, n: nat) returns (trace: seq<System>)
    requires inputs != [] && NoDup(inputs) && "" !in inputs
    ensures IsRun(inputs, trace) && EpochsEnded(trace) == n && trace[|trace| - 1].over
  {
    hide Act, Next, EpochsEnded;
    var start := System(Dispatch(inputs, inputs, map[], []), map[], false, []);
    assert Initial(inputs, start);
    trace := [start];
    for e := 0 to n
      invariant IsRun(inputs, trace) && |trace[|trace| - 1].history| == e
    {
      trace := EpochEnds(inputs, trace);
      trace := NextEpochStarts(inputs, trace);
    }
    trace := EpochEnds(inputs, trace);
    HistoryCounts(inputs, trace);
  }

  lemma EpochEnds(inputs: seq<File>, trace: seq<System>) returns (longer: seq<System>)
    requires GoodInputs(inputs) && IsRun(inputs, trace)
    ensures IsRun(inputs, longer) && longer[|longer| - 1].over
    ensures longer[|longer| - 1].history == trace[|trace| - 1].history
  {
    var path := EpochCanEnd(inputs, trace, |trace| - 1);
    RunGoesOn(inputs, trace, path);
    longer := trace + path[1..];
  }
}
