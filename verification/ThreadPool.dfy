// The thread pool (src/common/thread_pool.cc) as a machine of its critical sections: any number
// of workers, posters and callers of run, interleaved in any way, with spurious wake-ups.
module ThreadPools {
  import opened Basics

  /** A posted function; the functions of a call of run share the call's token. */
  datatype Task = Task(func: nat, token: Option<nat>)

  /** Where a worker stands: before the critical section of its loop, in the wait, inside a
      function, before the critical section that ends a function of run, in the drain after
      stop, or done. */
  datatype Pc =
    | AtLoop
    | Waiting
    | Running(task: Task, drain: bool)
    | Signalling(task: Task, drain: bool)
    | AtDrain
    | Exited

  datatype Phase = Posting | Checking | Blocked | Returned

  datatype Call = Call(total: nat, posted: nat, remain: int, phase: Phase)

  /** pending counts the posts whose notify_one is still to come. posted and completed are
      histories; mark is the number of posts when the last worker left. */
  datatype Pool = Pool(
    started: bool,
    tasks: seq<Task>,
    workers: seq<Pc>,
    pending: nat,
    calls: seq<Call>,
    posted: seq<Task>,
    completed: seq<Task>,
    mark: nat)

  datatype Action =
    | Start(n: nat)
    | Stop
    | Join
    | Step(w: nat)
    | Finish(w: nat)
    | Signal(w: nat)
    | Wake(w: nat)
    | Notify(w: nat)
    | NotifyNobody
    | Post(func: nat)
    | Run(total: nat)
    | RunPost(r: nat, func: nat)
    | RunCheck(r: nat)
    | RunWake(r: nat)

  const INITIAL := Pool(false, [], [], 0, [], [], [], 0)

  predicate AllExited(workers: seq<Pc>) {
    forall w :: 0 <= w < |workers| ==> workers[w] == Exited
  }

  predicate NoneWaiting(workers: seq<Pc>) {
    forall w :: 0 <= w < |workers| ==> workers[w] != Waiting
  }

  predicate Enabled(s: Pool, a: Action) {
    match a
    case Start(n) => !s.started && s.workers == [] && n >= 1
    case Stop => true
    case Join => !s.started && s.workers != [] && AllExited(s.workers)
    case Step(w) => w < |s.workers| && (s.workers[w] == AtLoop || s.workers[w] == AtDrain)
    case Finish(w) => w < |s.workers| && s.workers[w].Running?
    case Signal(w) => w < |s.workers| && s.workers[w].Signalling?
    case Wake(w) => w < |s.workers| && s.workers[w] == Waiting
    case Notify(w) => s.pending > 0 && w < |s.workers| && s.workers[w] == Waiting
    case NotifyNobody => s.pending > 0 && NoneWaiting(s.workers)
    case Post(_) => true
    case Run(_) => true
    case RunPost(r, _) => r < |s.calls| && s.calls[r].phase == Posting && s.calls[r].posted < s.calls[r].total
    case RunCheck(r) => r < |s.calls| && (s.calls[r].phase == Checking
                          || (s.calls[r].phase == Posting && s.calls[r].posted == s.calls[r].total))
    case RunWake(r) => r < |s.calls| && s.calls[r].phase == Blocked
  }

  /** The task goes to the front of the list; its notification follows outside the lock. */
  function Posted(s: Pool, task: Task): Pool {
    s.(tasks := [task] + s.tasks, pending := s.pending + 1, posted := s.posted + [task])
  }

  function Back(drain: bool): Pc {
    if drain then AtDrain else AtLoop
  }

  function WorkerSection(s: Pool, w: nat): Pool
    requires w < |s.workers| && (s.workers[w] == AtLoop || s.workers[w] == AtDrain)
  {
    if s.workers[w] == AtLoop then
      if !s.started then s.(workers := s.workers[w := AtDrain])
      else if s.tasks == [] then s.(workers := s.workers[w := Waiting])
      else s.(workers := s.workers[w := Running(s.tasks[0], false)], tasks := s.tasks[1..])
    else if s.tasks != [] then
      s.(workers := s.workers[w := Running(s.tasks[0], true)], tasks := s.tasks[1..])
    else
      var left := s.workers[w := Exited];
      s.(workers := left, mark := if AllExited(left) then |s.posted| else s.mark)
  }

  /** The last function of the call to finish wakes the caller up. */
  function SignalSection(s: Pool, w: nat): Pool
    requires w < |s.workers| && s.workers[w].Signalling?
  {
    var pc := s.workers[w];
    var back := s.(workers := s.workers[w := Back(pc.drain)]);
    if pc.task.token.None? || pc.task.token.value >= |s.calls| then back
    else
      var r := pc.task.token.value;
      var call := s.calls[r];
      var remain := call.remain - 1;
      back.(calls := s.calls[r := call.(
                       remain := remain,
                       phase := if remain == 0 && call.phase == Blocked then Checking else call.phase)])
  }

  function Awake(workers: seq<Pc>): seq<Pc> {
    seq(|workers|, w requires 0 <= w < |workers| => if workers[w] == Waiting then AtLoop else workers[w])
  }

  function Next(s: Pool, a: Action): Pool
    requires Enabled(s, a)
  {
    match a
    case Start(n) => s.(started := true, workers := seq(n, _ => AtLoop))
    case Stop => s.(started := false, workers := Awake(s.workers))
    case Join => s.(workers := [])
    case Step(w) => WorkerSection(s, w)
    case Finish(w) =>
      var pc := s.workers[w];
      s.(completed := s.completed + [pc.task],
         workers := s.workers[w := if pc.task.token.Some? then Signalling(pc.task, pc.drain) else Back(pc.drain)])
    case Signal(w) => SignalSection(s, w)
    case Wake(w) => s.(workers := s.workers[w := AtLoop])
    case Notify(w) => s.(workers := s.workers[w := AtLoop], pending := s.pending - 1)
    case NotifyNobody => s.(pending := s.pending - 1)
    case Post(func) => Posted(s, Task(func, None))
    case Run(total) => s.(calls := s.calls + [Call(total, 0, total, Posting)])
    case RunPost(r, func) =>
      Posted(s.(calls := s.calls[r := s.calls[r].(posted := s.calls[r].posted + 1)]), Task(func, Some(r)))
    case RunCheck(r) =>
      s.(calls := s.calls[r := s.calls[r].(phase := if s.calls[r].remain == 0 then Returned else Blocked)])
    case RunWake(r) => s.(calls := s.calls[r := s.calls[r].(phase := Checking)])
  }

  // ---------------------------------------------------------------------------------------
  // Counting
  // ---------------------------------------------------------------------------------------

  datatype Kind = Looping | Asleep | RunningFor(r: nat) | SignallingFor(r: nat)

  predicate IsKind(pc: Pc, kind: Kind) {
    match kind
    case Looping => pc == AtLoop
    case Asleep => pc == Waiting
    case RunningFor(r) => pc.Running? && pc.task.token == Some(r)
    case SignallingFor(r) => pc.Signalling? && pc.task.token == Some(r)
  }

  function One(pc: Pc, kind: Kind): nat {
    if IsKind(pc, kind) then 1 else 0
  }

  function Count(workers: seq<Pc>, kind: Kind): nat {
    if workers == [] then 0 else One(workers[0], kind) + Count(workers[1..], kind)
  }

  lemma {:induction false} CountUpdate(workers: seq<Pc>, w: nat, pc: Pc, kind: Kind)
    requires w < |workers|
    ensures Count(workers[w := pc], kind) + One(workers[w], kind) == Count(workers, kind) + One(pc, kind)
    decreases |workers|
  {
    if w == 0 {
      assert workers[0 := pc][1..] == workers[1..];
    } else {
      assert workers[w := pc][1..] == workers[1..][w - 1 := pc];
      CountUpdate(workers[1..], w - 1, pc, kind);
    }
  }

  lemma {:induction false} CountNone(workers: seq<Pc>, kind: Kind)
    requires forall w :: 0 <= w < |workers| ==> !IsKind(workers[w], kind)
    ensures Count(workers, kind) == 0
    decreases |workers|
  {
    if workers != [] {
      CountNone(workers[1..], kind);
    }
  }

  /** The tasks that workers are inside of. */
  function Held(workers: seq<Pc>): multiset<Task> {
    if workers == [] then multiset{} else HeldBy(workers[0]) + Held(workers[1..])
  }

  function HeldBy(pc: Pc): multiset<Task> {
    if pc.Running? then multiset{pc.task} else multiset{}
  }

  lemma AddBoth(a: multiset<Task>, b: multiset<Task>, c: multiset<Task>, d: multiset<Task>,
                e: multiset<Task>)
    requires b + c == d + e
    ensures a + b + c == a + d + e
  {
    assert a + b + c == a + (b + c);
    assert a + d + e == a + (d + e);
  }

  lemma {:induction false} HeldUpdate(workers: seq<Pc>, w: nat, pc: Pc)
    requires w < |workers|
    ensures Held(workers[w := pc]) + HeldBy(workers[w]) == Held(workers) + HeldBy(pc)
    decreases |workers|
  {
    if w == 0 {
      assert workers[0 := pc][1..] == workers[1..];
    } else {
      assert workers[w := pc][1..] == workers[1..][w - 1 := pc];
      HeldUpdate(workers[1..], w - 1, pc);
      var first, rest, rest' := HeldBy(workers[0]), Held(workers[1..]), Held(workers[1..][w - 1 := pc]);
      AddBoth(first, rest', HeldBy(workers[w]), rest, HeldBy(pc));
    }
  }

  lemma {:induction false} HeldNone(workers: seq<Pc>)
    requires forall w :: 0 <= w < |workers| ==> !workers[w].Running?
    ensures Held(workers) == multiset{}
    decreases |workers|
  {
    if workers != [] {
      HeldNone(workers[1..]);
    }
  }

  /** The number of tasks that belong to the call of run. */
  function Tokens(tasks: seq<Task>, r: nat): nat {
    if tasks == [] then 0 else Belongs(tasks[0], r) + Tokens(tasks[1..], r)
  }

  function Belongs(task: Task, r: nat): nat {
    if task.token == Some(r) then 1 else 0
  }

  lemma {:induction false} TokensAppend(tasks: seq<Task>, task: Task, r: nat)
    ensures Tokens(tasks + [task], r) == Tokens(tasks, r) + Belongs(task, r)
    decreases |tasks|
  {
    if tasks == [] {
    } else {
      assert (tasks + [task])[1..] == tasks[1..] + [task];
      TokensAppend(tasks[1..], task, r);
    }
  }

  // ---------------------------------------------------------------------------------------
  // The invariant
  // ---------------------------------------------------------------------------------------

  /** Every post is in the list, in a worker's hands or completed, never twice. */
  ghost predicate Conserved(s: Pool) {
    multiset(s.posted) == multiset(s.tasks) + Held(s.workers) + multiset(s.completed)
  }

  /** While a worker sleeps, every task of the list has a wake-up of its own under way. */
  ghost predicate NoneForgotten(s: Pool) {
    && (Count(s.workers, Asleep) > 0 ==> |s.tasks| <= s.pending + Count(s.workers, Looping))
    && (!s.started ==> NoneWaiting(s.workers))
  }

  /** The last worker leaves nothing behind: what is left was posted after it left. */
  ghost predicate Drained(s: Pool) {
    s.workers != [] && AllExited(s.workers) ==>
      s.mark <= |s.posted| && multiset(s.tasks) == multiset(s.posted[s.mark..])
  }

  /** Workers drain only after stop. */
  predicate Phased(s: Pool) {
    s.started ==> forall w :: 0 <= w < |s.workers| ==>
      && s.workers[w] != AtDrain && s.workers[w] != Exited
      && (s.workers[w].Running? || s.workers[w].Signalling? ==> !s.workers[w].drain)
  }

  predicate KnownToken(s: Pool, task: Task) {
    task.token.Some? ==> task.token.value < |s.calls|
  }

  predicate KnownTokens(s: Pool) {
    && (forall t :: t in s.tasks ==> KnownToken(s, t))
    && (forall w :: 0 <= w < |s.workers| && s.workers[w].Running? ==> KnownToken(s, s.workers[w].task))
    && (forall w :: 0 <= w < |s.workers| && s.workers[w].Signalling? ==>
          s.workers[w].task.token.Some? && KnownToken(s, s.workers[w].task))
    && (forall t :: t in s.completed ==> KnownToken(s, t))
  }

  /** remain counts the functions of the call that are not posted, queued, running or about to
      be counted down. */
  ghost predicate CallOk(s: Pool, r: nat)
    requires r < |s.calls|
  {
    var c := s.calls[r];
    && c.posted <= c.total
    && c.remain == c.total - c.posted + Tokens(s.tasks, r)
                   + Count(s.workers, RunningFor(r)) + Count(s.workers, SignallingFor(r))
    && c.posted == Tokens(s.tasks, r) + Count(s.workers, RunningFor(r)) + Tokens(s.completed, r)
    && (c.phase != Posting ==> c.posted == c.total)
    && (c.phase == Blocked ==> c.remain > 0)
    && (c.phase == Returned ==> c.remain == 0)
  }

  ghost predicate Inv(s: Pool) {
    && Conserved(s)
    && NoneForgotten(s)
    && Drained(s)
    && Phased(s)
    && KnownTokens(s)
    && (forall r :: 0 <= r < |s.calls| ==> CallOk(s, r))
    && (s.started ==> s.workers != [])
  }

  lemma {:induction false} AwakeKeeps(workers: seq<Pc>, r: nat)
    ensures NoneWaiting(Awake(workers)) && Count(Awake(workers), Asleep) == 0
    ensures Count(Awake(workers), RunningFor(r)) == Count(workers, RunningFor(r))
    ensures Count(Awake(workers), SignallingFor(r)) == Count(workers, SignallingFor(r))
    ensures Held(Awake(workers)) == Held(workers)
    decreases |workers|
  {
    if workers == [] {
    } else {
      assert Awake(workers)[1..] == Awake(workers[1..]);
      AwakeKeeps(workers[1..], r);
    }
  }

  lemma Moved(workers: seq<Pc>, w: nat, pc: Pc, r: nat)
    requires w < |workers|
    ensures var after := workers[w := pc];
            && Count(after, Looping) + One(workers[w], Looping) == Count(workers, Looping) + One(pc, Looping)
            && Count(after, Asleep) + One(workers[w], Asleep) == Count(workers, Asleep) + One(pc, Asleep)
            && Count(after, RunningFor(r)) + One(workers[w], RunningFor(r))
               == Count(workers, RunningFor(r)) + One(pc, RunningFor(r))
            && Count(after, SignallingFor(r)) + One(workers[w], SignallingFor(r))
               == Count(workers, SignallingFor(r)) + One(pc, SignallingFor(r))
            && Held(after) + HeldBy(workers[w]) == Held(workers) + HeldBy(pc)
  {
    CountUpdate(workers, w, pc, Looping);
    CountUpdate(workers, w, pc, Asleep);
    CountUpdate(workers, w, pc, RunningFor(r));
    CountUpdate(workers, w, pc, SignallingFor(r));
    HeldUpdate(workers, w, pc);
  }

  /** The worker that a step moves, if it moves exactly one, and where to. */
  function Mover(s: Pool, a: Action): Option<(nat, Pc)>
    requires Enabled(s, a)
  {
    match a
    case Step(w) => Some((w, Next(s, a).workers[w]))
    case Finish(w) => Some((w, Next(s, a).workers[w]))
    case Signal(w) => Some((w, Next(s, a).workers[w]))
    case Wake(w) => Some((w, AtLoop))
    case Notify(w) => Some((w, AtLoop))
    case _ => None
  }

  lemma MoverMoves(s: Pool, a: Action)
    requires Enabled(s, a)
    ensures Mover(s, a).Some? ==>
              var (w, pc) := Mover(s, a).value;
              w < |s.workers| && Next(s, a).workers == s.workers[w := pc]
    ensures Mover(s, a).None? ==>
              a.Start? || a.Stop? || a.Join? || Next(s, a).workers == s.workers
  {
  }

  lemma KeepsConserved(s: Pool, a: Action)
    requires Conserved(s) && Enabled(s, a)
    ensures Conserved(Next(s, a))
  {
    hide Held, Count;
    var s' := Next(s, a);
    MoverMoves(s, a);
    if Mover(s, a).Some? {
      ConservedWhenMoved(s, a);
    } else if a.Start? || a.Join? {
      HeldNone(s'.workers);
      HeldNone(s.workers);
    } else if a.Stop? {
      AwakeKeeps(s.workers, 0);
    }
  }

  lemma MoverHolds(s: Pool, a: Action)
    requires Enabled(s, a) && Mover(s, a).Some? && !a.Finish?
    ensures var s', (w, pc) := Next(s, a), Mover(s, a).value;
            && s'.posted == s.posted && s'.completed == s.completed && HeldBy(s.workers[w]) == multiset{}
            && (s'.tasks != s.tasks ==>
                  s.tasks != [] && s'.tasks == s.tasks[1..] && HeldBy(pc) == multiset{s.tasks[0]})
            && (s'.tasks == s.tasks ==> HeldBy(pc) == multiset{})
  {
    assert s.tasks != [] ==> |s.tasks[1..]| < |s.tasks|;
  }

  lemma FinisherHolds(s: Pool, a: Action)
    requires Enabled(s, a) && a.Finish?
    ensures var s', (w, pc) := Next(s, a), Mover(s, a).value;
            && s'.posted == s.posted && s'.tasks == s.tasks && HeldBy(pc) == multiset{}
            && s.workers[w].Running? && HeldBy(s.workers[w]) == multiset{s.workers[w].task}
            && s'.completed == s.completed + [s.workers[w].task]
  {
  }

  lemma ConservedWhenMoved(s: Pool, a: Action)
    requires Conserved(s) && Enabled(s, a) && Mover(s, a).Some?
    ensures Conserved(Next(s, a))
  {
    hide Held, HeldBy, Mover, Next, Enabled;
    var s' := Next(s, a);
    var (w, pc) := Mover(s, a).value;
    var before, after := Held(s.workers), Held(s'.workers);
    MoverMoves(s, a);
    HeldUpdate(s.workers, w, pc);
    if a.Finish? {
      FinisherHolds(s, a);
      Rebalanced(multiset(s.posted), multiset(s.tasks), before, multiset(s.completed),
                 multiset(s'.tasks), after, multiset(s'.completed), multiset{s.workers[w].task});
      return;
    }
    MoverHolds(s, a);
    if s'.tasks != s.tasks {
      assert s.tasks == [s.tasks[0]] + s.tasks[1..];
      Transferred(multiset(s.posted), multiset(s.tasks), before, multiset(s.completed),
                  multiset(s'.tasks), after, multiset{s.tasks[0]});
    } else {
      assert after + multiset{} == after && before + multiset{} == before;
    }
  }

  lemma Transferred(all: multiset<Task>, t: multiset<Task>, h: multiset<Task>, c: multiset<Task>,
                    t': multiset<Task>, h': multiset<Task>, m: multiset<Task>)
    requires all == t + h + c && t == t' + m && h' == h + m
    ensures all == t' + h' + c
  {
  }

  lemma Rebalanced(all: multiset<Task>, t: multiset<Task>, h: multiset<Task>, c: multiset<Task>,
                   t': multiset<Task>, h': multiset<Task>, c': multiset<Task>, m: multiset<Task>)
    requires all == t + h + c && t' == t && h' + m == h && c' == c + m
    ensures all == t' + h' + c'
  {
  }

  lemma KeepsNoneForgotten(s: Pool, a: Action)
    requires NoneForgotten(s) && Enabled(s, a)
    ensures NoneForgotten(Next(s, a))
  {
    hide Held, Count;
    var s' := Next(s, a);
    if Mover(s, a).Some? {
      NoneForgottenWhenMoved(s, a);
    } else if a.Start? || a.Join? {
      CountNone(s'.workers, Asleep);
    } else if a.Stop? {
      AwakeKeeps(s.workers, 0);
    } else if NoneWaiting(s.workers) {
      CountNone(s.workers, Asleep);
    }
  }

  lemma NoneForgottenWhenMoved(s: Pool, a: Action)
    requires NoneForgotten(s) && Enabled(s, a) && Mover(s, a).Some?
    ensures NoneForgotten(Next(s, a))
  {
    hide Held, Count;
    var (w, pc) := Mover(s, a).value;
    MoverMoves(s, a);
    CountUpdate(s.workers, w, pc, Looping);
    CountUpdate(s.workers, w, pc, Asleep);
    if NoneWaiting(s.workers) {
      CountNone(s.workers, Asleep);
    }
  }

  lemma KeepsDrained(s: Pool, a: Action)
    requires Drained(s) && Enabled(s, a)
    ensures Drained(Next(s, a))
  {
    hide Held, Count;
    var s' := Next(s, a);
    MoverMoves(s, a);
    if Mover(s, a).Some? {
      DrainedWhenMoved(s, a);
    } else if a.Start? {
      assert s'.workers[0] == AtLoop;
    } else if a.Stop? {
      AwakeExited(s.workers);
    } else if s'.posted != s.posted {
      if s.workers != [] && AllExited(s.workers) {
        assert s'.posted[s.mark..] == s.posted[s.mark..] + [s'.tasks[0]];
      }
    }
  }

  lemma AwakeExited(workers: seq<Pc>)
    ensures AllExited(Awake(workers)) ==> AllExited(workers)
  {
    assert forall w :: 0 <= w < |workers| && Awake(workers)[w] == Exited ==> workers[w] == Exited;
  }

  lemma DrainedWhenMoved(s: Pool, a: Action)
    requires Drained(s) && Enabled(s, a) && Mover(s, a).Some?
    ensures Drained(Next(s, a))
  {
    var s' := Next(s, a);
    var (w, pc) := Mover(s, a).value;
    MoverMoves(s, a);
    assert s'.workers[w] == pc && (pc == Exited ==> a.Step? && s.tasks == []);
    if pc == Exited && AllExited(s'.workers) {
      assert s'.tasks == [] && s'.posted[s'.mark..] == [];
    }
  }

  lemma KeepsPhased(s: Pool, a: Action)
    requires Inv(s) && Enabled(s, a)
    ensures Phased(Next(s, a)) && (Next(s, a).started ==> Next(s, a).workers != [])
  {
    hide Held, Count, Conserved, NoneForgotten, Drained, KnownTokens, CallOk;
  }

  lemma KeepsTokens(s: Pool, a: Action)
    requires Inv(s) && Enabled(s, a)
    ensures KnownTokens(Next(s, a))
  {
    hide Held, Count, Conserved, NoneForgotten, Drained, CallOk, Phased;
    var s' := Next(s, a);
    MoverMoves(s, a);
    TasksKnown(s, a);
    if Mover(s, a).Some? {
      var (w, pc) := Mover(s, a).value;
      assert a.Step? && s'.tasks != s.tasks ==> s.tasks[0] in s.tasks && pc.task == s.tasks[0];
      assert a.Finish? ==> KnownToken(s, s.workers[w].task);
    }
  }

  lemma TasksKnown(s: Pool, a: Action)
    requires KnownTokens(s) && Enabled(s, a)
    ensures |s.calls| <= |Next(s, a).calls| && forall t :: t in Next(s, a).tasks ==> KnownToken(Next(s, a), t)
  {
    var s' := Next(s, a);
    forall t | t in s'.tasks
      ensures KnownToken(s', t)
    {
      if t in s.tasks {
        assert KnownToken(s, t);
      }
    }
  }

  lemma KeepsCall(s: Pool, a: Action, r: nat)
    requires Inv(s) && Enabled(s, a) && r < |Next(s, a).calls|
    ensures CallOk(Next(s, a), r)
  {
    hide Held, Count, Tokens, Conserved, NoneForgotten, Drained, Phased;
    var s' := Next(s, a);
    MoverMoves(s, a);
    TokensStep(s, a, r);
    if r >= |s.calls| {
      NewCall(s);
    } else if Mover(s, a).Some? {
      KeepsCallWhenMoved(s, a, r);
    } else {
      assert CallOk(s, r);
      if a.Start? || a.Join? {
        CountNone(s.workers, RunningFor(r));
        CountNone(s.workers, SignallingFor(r));
        CountNone(s'.workers, RunningFor(r));
        CountNone(s'.workers, SignallingFor(r));
      } else if a.Stop? {
        AwakeKeeps(s.workers, r);
      }
    }
  }

  lemma KeepsCallWhenMoved(s: Pool, a: Action, r: nat)
    requires Inv(s) && Enabled(s, a) && r < |s.calls| && Mover(s, a).Some?
    ensures CallOk(Next(s, a), r)
  {
    hide Held, Count, Tokens, Conserved, NoneForgotten, Drained, Phased;
    var s' := Next(s, a);
    var (w, pc) := Mover(s, a).value;
    MoverMoves(s, a);
    TokensStep(s, a, r);
    Moved(s.workers, w, pc, r);
    assert CallOk(s, r);
    assert a.Signal? && s.workers[w].task.token == Some(r) ==> s'.calls[r].remain == s.calls[r].remain - 1;
    assert !(a.Signal? && s.workers[w].task.token == Some(r)) ==> s'.calls[r] == s.calls[r];
  }

  lemma TokensStep(s: Pool, a: Action, r: nat)
    requires Enabled(s, a)
    ensures var s' := Next(s, a);
            && (s'.posted == s.posted && s'.tasks == s.tasks ==> Tokens(s'.tasks, r) == Tokens(s.tasks, r))
            && (s'.posted != s.posted ==>
                  s'.tasks != [] && Tokens(s'.tasks, r) == Tokens(s.tasks, r) + Belongs(s'.tasks[0], r))
            && (s'.posted == s.posted && s'.tasks != s.tasks ==>
                  s.tasks != [] && Tokens(s.tasks, r) == Tokens(s'.tasks, r) + Belongs(s.tasks[0], r))
            && (a.Finish? ==>
                  Tokens(s'.completed, r) == Tokens(s.completed, r) + Belongs(s.workers[a.w].task, r))
            && (!a.Finish? ==> s'.completed == s.completed)
  {
    if a.Finish? {
      TokensAppend(s.completed, s.workers[a.w].task, r);
    }
  }

  /** No task has the token of a call yet to come. */
  lemma NewCall(s: Pool)
    requires Inv(s)
    ensures var r := |s.calls|;
            && Tokens(s.tasks, r) == 0 && Tokens(s.completed, r) == 0
            && Count(s.workers, RunningFor(r)) == 0 && Count(s.workers, SignallingFor(r)) == 0
  {
    var r := |s.calls|;
    NoTokens(s.tasks, r);
    NoTokens(s.completed, r);
    CountNone(s.workers, RunningFor(r));
    CountNone(s.workers, SignallingFor(r));
  }

  lemma {:induction false} NoTokens(tasks: seq<Task>, r: nat)
    requires forall t :: t in tasks ==> t.token != Some(r)
    ensures Tokens(tasks, r) == 0
    decreases |tasks|
  {
    if tasks != [] {
      assert tasks[0] in tasks;
      NoTokens(tasks[1..], r);
    }
  }

  lemma StepKeepsInv(s: Pool, a: Action)
    requires Inv(s) && Enabled(s, a)
    ensures Inv(Next(s, a))
  {
    hide Held, Count, Tokens, Conserved, NoneForgotten, Drained, Phased, KnownTokens, CallOk;
    KeepsConserved(s, a);
    KeepsNoneForgotten(s, a);
    KeepsDrained(s, a);
    KeepsPhased(s, a);
    KeepsTokens(s, a);
    forall r | 0 <= r < |Next(s, a).calls|
      ensures CallOk(Next(s, a), r)
    {
      KeepsCall(s, a, r);
    }
  }

  // ---------------------------------------------------------------------------------------
  // Whole runs
  // ---------------------------------------------------------------------------------------

  predicate Valid(s: Pool, run: seq<Action>)
    decreases |run|
  {
    run == [] || (Enabled(s, run[0]) && Valid(Next(s, run[0]), run[1..]))
  }

  function After(s: Pool, run: seq<Action>): Pool
    requires Valid(s, run)
    decreases |run|
  {
    if run == [] then s else After(Next(s, run[0]), run[1..])
  }

  lemma {:induction false} RunKeepsInv(s: Pool, run: seq<Action>)
    requires Inv(s) && Valid(s, run)
    ensures Inv(After(s, run))
    decreases |run|
  {
    if run != [] {
      StepKeepsInv(s, run[0]);
      RunKeepsInv(Next(s, run[0]), run[1..]);
    }
  }

  lemma EveryReachableStateKeepsInv(run: seq<Action>)
    requires Valid(INITIAL, run)
    ensures Inv(After(INITIAL, run))
  {
    RunKeepsInv(INITIAL, run);
  }

  /** When the workers have left, exactly the tasks posted before the last of them left have
      been completed, each once; the list holds what was posted later. */
  lemma ExactlyOnce(run: seq<Action>)
    requires Valid(INITIAL, run)
    ensures var s := After(INITIAL, run);
            s.workers != [] && AllExited(s.workers) ==>
              && s.mark <= |s.posted|
              && multiset(s.completed) == multiset(s.posted[..s.mark])
              && multiset(s.tasks) == multiset(s.posted[s.mark..])
  {
    EveryReachableStateKeepsInv(run);
    var s := After(INITIAL, run);
    if s.workers != [] && AllExited(s.workers) {
      AllLeft(s);
    }
  }

  lemma AllLeft(s: Pool)
    requires Inv(s) && s.workers != [] && AllExited(s.workers)
    ensures s.mark <= |s.posted| && multiset(s.completed) == multiset(s.posted[..s.mark])
    ensures multiset(s.tasks) == multiset(s.posted[s.mark..])
    ensures s.posted == s.posted[..s.mark] + s.posted[s.mark..]
  {
    HeldNone(s.workers);
    assert s.posted == s.posted[..s.mark] + s.posted[s.mark..];
    Cancelled(multiset(s.posted), multiset(s.tasks), multiset(s.completed), multiset(s.posted[..s.mark]));
  }

  lemma Cancelled(all: multiset<Task>, t: multiset<Task>, c: multiset<Task>, d: multiset<Task>)
    requires all == t + multiset{} + c && all == d + t
    ensures c == d
  {
    forall x: Task
      ensures c[x] == d[x]
    {
      assert (t + multiset{} + c)[x] == t[x] + c[x];
      assert (d + t)[x] == d[x] + t[x];
    }
  }

  /** Whatever was posted while a worker was there - before stop, or by a running task - is
      among the completed tasks when all workers have left. */
  lemma {:induction false} PostedInTime(s: Pool, run: seq<Action>, n: nat)
    requires Inv(s) && Valid(s, run) && n <= |s.posted|
    requires s.workers != [] && Join !in run
    requires AllExited(s.workers) ==> n <= s.mark
    ensures var s' := After(s, run);
            && s'.workers != []
            && s.posted <= s'.posted
            && (AllExited(s'.workers) ==> n <= s'.mark)
    decreases |run|
  {
    hide Inv;
    if run != [] {
      StepKeepsInv(s, run[0]);
      var next := Next(s, run[0]);
      assert run[0] in run && run[0] != Join;
      MarkStays(s, run[0], n);
      PostedInTime(next, run[1..], n);
    }
  }

  /** If the pool is started or some worker is there when a task is posted, and no join follows,
      then once all workers have left, what was posted up to then is completed, each task as
      often as it was posted; and only tasks still in the list were posted more often. */
  lemma PostedIsCompleted(before: seq<Action>, a: Action, after: seq<Action>)
    requires Valid(INITIAL, before) && (a.Post? || a.RunPost?) && Enabled(After(INITIAL, before), a)
    requires var s := After(INITIAL, before);
             && (s.started || (s.workers != [] && !AllExited(s.workers)))
             && Valid(Next(s, a), after) && Join !in after
    ensures var s := Next(After(INITIAL, before), a);
            var s' := After(s, after);
            && s'.workers != []
            && (AllExited(s'.workers) ==>
                  && multiset(s.posted) <= multiset(s'.completed) <= multiset(s'.posted)
                  && forall t :: t !in s'.tasks ==> multiset(s'.completed)[t] == multiset(s'.posted)[t])
  {
    hide Held, Count, Tokens, Conserved, NoneForgotten, Drained, KnownTokens, CallOk, Valid, After, Awake;
    var start := After(INITIAL, before);
    EveryReachableStateKeepsInv(before);
    assert start.started ==> start.workers != [] && start.workers[0] != Exited;
    StepKeepsInv(start, a);
    var s := Next(start, a);
    assert s.workers == start.workers && !AllExited(s.workers);
    PostedInTime(s, after, |s.posted|);
    RunKeepsInv(s, after);
    var s' := After(s, after);
    if AllExited(s'.workers) {
      AllLeft(s');
      var done, late := s'.posted[..s'.mark], s'.posted[s'.mark..];
      assert done == s.posted + done[|s.posted|..];
      assert multiset(s'.posted) == multiset(done) + multiset(late);
    }
  }

  lemma MarkStays(s: Pool, a: Action, n: nat)
    requires Inv(s) && Enabled(s, a) && a != Join && n <= |s.posted| && s.workers != []
    requires AllExited(s.workers) ==> n <= s.mark
    ensures var s' := Next(s, a);
            && s'.workers != [] && s.posted <= s'.posted
            && (AllExited(s'.workers) ==> n <= s'.mark)
  {
    hide Held, Count, Tokens, Conserved, NoneForgotten, Drained, KnownTokens, CallOk;
    var s' := Next(s, a);
    MoverMoves(s, a);
    assert Mover(s, a).Some? && !a.Step? ==> s'.workers[Mover(s, a).value.0] != Exited;
    assert a.Stop? ==> forall w :: 0 <= w < |s.workers| && s'.workers[w] == Exited ==> s.workers[w] == Exited;
  }

  /** run returns only when each of its functions has completed; none of its tasks, which
      refer to the caller's function objects and token, is left anywhere. */
  lemma RunReturnsLast(run: seq<Action>, r: nat)
    requires Valid(INITIAL, run)
    ensures var s := After(INITIAL, run);
            r < |s.calls| && s.calls[r].phase == Returned ==>
              && Tokens(s.completed, r) == s.calls[r].total
              && (forall t :: t in s.tasks ==> t.token != Some(r))
              && (forall w :: 0 <= w < |s.workers| && (s.workers[w].Running? || s.workers[w].Signalling?) ==>
                    s.workers[w].task.token != Some(r))
  {
    hide Inv, Valid, After, Tokens;
    EveryReachableStateKeepsInv(run);
    var s := After(INITIAL, run);
    if r < |s.calls| && s.calls[r].phase == Returned {
      NothingOfCall(s, r);
    }
  }

  lemma NothingOfCall(s: Pool, r: nat)
    requires Inv(s) && r < |s.calls| && s.calls[r].phase == Returned
    ensures Tokens(s.completed, r) == s.calls[r].total
    ensures forall t :: t in s.tasks ==> t.token != Some(r)
    ensures forall w :: 0 <= w < |s.workers| && (s.workers[w].Running? || s.workers[w].Signalling?) ==>
              s.workers[w].task.token != Some(r)
  {
    hide Held, Count, Tokens, Conserved, NoneForgotten, Drained, Phased, KnownTokens;
    assert CallOk(s, r);
    forall t | t in s.tasks
      ensures t.token != Some(r)
    {
      TokensOfMember(s.tasks, t, r);
    }
    forall w | 0 <= w < |s.workers| && (s.workers[w].Running? || s.workers[w].Signalling?)
      ensures s.workers[w].task.token != Some(r)
    {
      CountOfMember(s.workers, w, RunningFor(r));
      CountOfMember(s.workers, w, SignallingFor(r));
    }
  }

  lemma {:induction false} TokensOfMember(tasks: seq<Task>, task: Task, r: nat)
    requires task in tasks
    ensures Tokens(tasks, r) >= Belongs(task, r)
    decreases |tasks|
  {
    if task != tasks[0] {
      assert task in tasks[1..];
      TokensOfMember(tasks[1..], task, r);
    }
  }

  lemma {:induction false} CountOfMember(workers: seq<Pc>, w: nat, kind: Kind)
    requires w < |workers|
    ensures Count(workers, kind) >= One(workers[w], kind)
    decreases |workers|
  {
    if w > 0 {
      CountOfMember(workers[1..], w - 1, kind);
    }
  }

  /** No wake-up is lost: if every worker of a started pool sleeps over a task, a notification
      is still to come; a caller of run that sleeps has functions to wait for. */
  lemma NoLostWakeUp(run: seq<Action>)
    requires Valid(INITIAL, run)
    ensures var s := After(INITIAL, run);
            && (s.started && s.tasks != [] && (forall w :: 0 <= w < |s.workers| ==> s.workers[w] == Waiting) ==>
                  s.pending >= |s.tasks|)
            && (forall r :: 0 <= r < |s.calls| && s.calls[r].phase == Blocked ==> s.calls[r].remain > 0)
            && (!s.started ==> forall w :: 0 <= w < |s.workers| ==> s.workers[w] != Waiting)
  {
    hide Held, Count, Tokens, Conserved, Drained, Phased, KnownTokens, Valid, After, Enabled, Next;
    EveryReachableStateKeepsInv(run);
    var s := After(INITIAL, run);
    if s.started && (forall w :: 0 <= w < |s.workers| ==> s.workers[w] == Waiting) {
      CountOfMember(s.workers, 0, Asleep);
      CountNone(s.workers, Looping);
    }
    forall r | 0 <= r < |s.calls| && s.calls[r].phase == Blocked
      ensures s.calls[r].remain > 0
    {
      assert CallOk(s, r);
    }
  }

  /** A started pool with tasks always has a worker or a poster that can go on. */
  lemma NeverStuck(run: seq<Action>)
    requires Valid(INITIAL, run)
    ensures var s := After(INITIAL, run);
            s.started && s.tasks != [] ==>
              exists w :: 0 <= w < |s.workers| &&
                (Enabled(s, Step(w)) || Enabled(s, Finish(w)) || Enabled(s, Signal(w)) || Enabled(s, Notify(w)))
  {
    hide Held, Count, Tokens, Conserved, Drained, KnownTokens, CallOk, Valid, After, Next;
    EveryReachableStateKeepsInv(run);
    var s := After(INITIAL, run);
    if s.started && s.tasks != [] {
      if w :| 0 <= w < |s.workers| && s.workers[w] != Waiting {
        assert Enabled(s, Step(w)) || Enabled(s, Finish(w)) || Enabled(s, Signal(w));
      } else {
        NoLostWakeUp(run);
        assert Enabled(s, Notify(0));
      }
    }
  }

  // ---------------------------------------------------------------------------------------
  // Everything can be finished
  // ---------------------------------------------------------------------------------------

  lemma {:induction false} ThenOne(s: Pool, run: seq<Action>, a: Action)
    requires Valid(s, run) && Enabled(After(s, run), a)
    ensures Valid(s, run + [a]) && After(s, run + [a]) == Next(After(s, run), a)
    decreases |run|
  {
    hide Enabled, Next;
    if run == [] {
      assert [a][1..] == [];
      assert Valid(Next(s, a), []);
    } else {
      assert (run + [a])[1..] == run[1..] + [a];
      ThenOne(Next(s, run[0]), run[1..], a);
    }
  }

  /** Extends a run from a state with the invariant. */
  lemma Go(s: Pool, run: seq<Action>, a: Action) returns (run': seq<Action>)
    requires Inv(s) && Valid(s, run) && Enabled(After(s, run), a)
    ensures Valid(s, run') && After(s, run') == Next(After(s, run), a) && Inv(After(s, run'))
  {
    hide Inv, Enabled, Next;
    ThenOne(s, run, a);
    run' := run + [a];
    RunKeepsInv(s, run');
  }

  /** How far a worker is from leaving, apart from the tasks in the list. */
  function Distance(pc: Pc): nat {
    match pc
    case Exited => 0
    case AtDrain => 1
    case AtLoop => 2
    case Signalling(_, _) => 3
    case Running(_, _) => 4
    case Waiting => 5
  }

  /** The calls have the same functions, as many of them posted. */
  ghost predicate SameCalls(s: Pool, s': Pool) {
    && |s'.calls| == |s.calls| && s'.posted == s.posted
    && forall r :: 0 <= r < |s.calls| ==>
         s'.calls[r].total == s.calls[r].total && s'.calls[r].posted == s.calls[r].posted
  }

  /** What the worker does next once the pool has been stopped. */
  function Leaving(s: Pool, w: nat): Action
    requires w < |s.workers|
  {
    match s.workers[w]
    case Running(_, _) => Finish(w)
    case Signalling(_, _) => Signal(w)
    case _ => Step(w)
  }

  lemma LeavingStep(s: Pool, w: nat)
    requires !s.started && w < |s.workers| && s.workers[w] != Exited && s.workers[w] != Waiting
    ensures Enabled(s, Leaving(s, w))
    ensures var s' := Next(s, Leaving(s, w));
            && !s'.started && w < |s'.workers| && s'.workers == s.workers[w := s'.workers[w]]
            && s'.workers[w] != Waiting && SameCalls(s, s')
            && |s'.tasks| <= |s.tasks|
            && (|s'.tasks| < |s.tasks| || Distance(s'.workers[w]) < Distance(s.workers[w]))
            && (s'.workers[w] == Exited ==> s'.tasks == [])
  {
  }

  /** A worker of a stopped pool leaves; it takes all tasks of the list before. */
  lemma LetOut(s: Pool, run: seq<Action>, w: nat) returns (run': seq<Action>)
    requires Inv(s) && Valid(s, run)
    requires !After(s, run).started && w < |After(s, run).workers|
    ensures Valid(s, run')
    ensures var t, t' := After(s, run), After(s, run');
            && !t'.started && SameCalls(t, t') && t'.workers == t.workers[w := Exited]
            && (t.workers[w] != Exited || t.tasks == [] ==> t'.tasks == [])
  {
    hide Inv, Next, Enabled, Valid, After, SameCalls;
    run' := run;
    var t := After(s, run);
    var u := t;
    SameCallsSelf(t);
    while u.workers[w] != Exited
      invariant Valid(s, run') && After(s, run') == u && !u.started && w < |u.workers|
      invariant SameCalls(t, u) && u.workers == t.workers[w := u.workers[w]]
      invariant t.tasks == [] ==> u.tasks == []
      invariant u.workers[w] == Exited && t.workers[w] != Exited ==> u.tasks == []
      decreases |u.tasks|, Distance(u.workers[w])
    {
      StoppedIsAwake(s, run');
      LeavingStep(u, w);
      var a := Leaving(u, w);
      run' := Go(s, run', a);
      SameCallsJoin(t, u, Next(u, a));
      u := Next(u, a);
    }
  }

  lemma SameCallsSelf(s: Pool)
    ensures SameCalls(s, s)
  {
  }

  lemma SameCallsJoin(s: Pool, t: Pool, u: Pool)
    requires SameCalls(s, t) && SameCalls(t, u)
    ensures SameCalls(s, u)
  {
  }

  lemma StoppedIsAwake(s: Pool, run: seq<Action>)
    requires Inv(s) && Valid(s, run)
    ensures !After(s, run).started ==> NoneWaiting(After(s, run).workers)
  {
    RunKeepsInv(s, run);
  }

  /** All workers leave; the first that had not left takes all tasks of the list before. */
  lemma LetAllOut(s: Pool, run: seq<Action>) returns (run': seq<Action>)
    requires Inv(s) && Valid(s, run) && !After(s, run).started
    requires exists w :: 0 <= w < |After(s, run).workers| && After(s, run).workers[w] != Exited
    ensures Valid(s, run')
    ensures var t, t' := After(s, run), After(s, run');
            && !t'.started && SameCalls(t, t') && |t'.workers| == |t.workers| && AllExited(t'.workers)
            && t'.tasks == []
  {
    hide Inv, Next, Enabled, Valid, After, SameCalls;
    var t := After(s, run);
    var first: nat :| first < |t.workers| && t.workers[first] != Exited;
    run' := run;
    SameCallsSelf(t);
    for w := 0 to |t.workers|
      invariant Valid(s, run') && !After(s, run').started && SameCalls(t, After(s, run'))
      invariant |After(s, run').workers| == |t.workers|
      invariant forall v :: 0 <= v < w ==> After(s, run').workers[v] == Exited
      invariant if first < w then After(s, run').tasks == [] else After(s, run').workers[first] != Exited
    {
      var u := After(s, run');
      run' := LetOut(s, run', w);
      SameCallsJoin(t, u, After(s, run'));
    }
  }

  /** A call posts the functions that it has not posted yet. */
  lemma PostRest(s: Pool, run: seq<Action>, r: nat) returns (run': seq<Action>)
    requires Inv(s) && Valid(s, run) && r < |After(s, run).calls|
    ensures Valid(s, run')
    ensures var t, t' := After(s, run), After(s, run');
            && t'.started == t.started && t'.workers == t.workers && t.posted <= t'.posted
            && t'.calls == t.calls[r := t.calls[r].(posted := t.calls[r].total)]
  {
    hide Inv, Next, Enabled, Valid, After;
    run' := run;
    var t := After(s, run);
    var u := t;
    CallsPost(s, run, r);
    while u.calls[r].posted < u.calls[r].total
      invariant Valid(s, run') && After(s, run') == u
      invariant u.started == t.started && u.workers == t.workers && t.posted <= u.posted
      invariant |u.calls| == |t.calls| && u.calls == t.calls[r := t.calls[r].(posted := u.calls[r].posted)]
      invariant u.calls[r].posted <= u.calls[r].total
      invariant u.calls[r].posted < u.calls[r].total ==> u.calls[r].phase == Posting
      decreases u.calls[r].total - u.calls[r].posted
    {
      PostsOne(u, r);
      run' := Go(s, run', RunPost(r, 0));
      u := Next(u, RunPost(r, 0));
    }
  }

  lemma CallsPost(s: Pool, run: seq<Action>, r: nat)
    requires Inv(s) && Valid(s, run) && r < |After(s, run).calls|
    ensures var c := After(s, run).calls[r];
            c.posted <= c.total && (c.posted < c.total ==> c.phase == Posting)
  {
    hide Count, Tokens, Valid, After;
    RunKeepsInv(s, run);
    assert CallOk(After(s, run), r);
  }

  lemma PostsOne(s: Pool, r: nat)
    requires r < |s.calls| && s.calls[r].phase == Posting && s.calls[r].posted < s.calls[r].total
    ensures Enabled(s, RunPost(r, 0))
    ensures var s' := Next(s, RunPost(r, 0));
            && s'.started == s.started && s'.workers == s.workers && s'.posted == s.posted + [Task(0, Some(r))]
            && s'.calls == s.calls[r := s.calls[r].(posted := s.calls[r].posted + 1)]
  {
  }

  lemma PostAll(s: Pool, run: seq<Action>) returns (run': seq<Action>)
    requires Inv(s) && Valid(s, run)
    ensures Valid(s, run')
    ensures var t, t' := After(s, run), After(s, run');
            && t'.started == t.started && t'.workers == t.workers && t.posted <= t'.posted
            && |t'.calls| == |t.calls|
            && forall r :: 0 <= r < |t.calls| ==> t'.calls[r].posted == t'.calls[r].total == t.calls[r].total
  {
    hide Inv, Next, Enabled, Valid, After;
    run' := run;
    var t := After(s, run);
    for r := 0 to |t.calls|
      invariant Valid(s, run')
      invariant After(s, run').started == t.started && After(s, run').workers == t.workers
      invariant t.posted <= After(s, run').posted && |After(s, run').calls| == |t.calls|
      invariant forall q :: 0 <= q < r ==>
                  After(s, run').calls[q].posted == After(s, run').calls[q].total == t.calls[q].total
      invariant forall q :: r <= q < |t.calls| ==> After(s, run').calls[q] == t.calls[q]
    {
      run' := PostRest(s, run', r);
    }
  }

  /** The state in which all functions have been posted and all workers have left. */
  ghost predicate Idle(s: Pool) {
    && !s.started && s.workers != [] && AllExited(s.workers) && s.tasks == []
    && forall r :: 0 <= r < |s.calls| ==> s.calls[r].posted == s.calls[r].total
  }

  lemma IdleCall(s: Pool, r: nat)
    requires Inv(s) && Idle(s) && r < |s.calls|
    ensures s.calls[r].remain == 0 && s.calls[r].phase != Blocked
    ensures s.calls[r].phase != Returned ==>
              && Enabled(s, RunCheck(r))
              && Next(s, RunCheck(r)) == s.(calls := s.calls[r := s.calls[r].(phase := Returned)])
  {
    hide Conserved, NoneForgotten, Drained, KnownTokens, Phased;
    CountNone(s.workers, RunningFor(r));
    CountNone(s.workers, SignallingFor(r));
    assert CallOk(s, r);
  }

  /** Then every caller of run goes on. */
  lemma ReturnAll(s: Pool, run: seq<Action>) returns (run': seq<Action>)
    requires Inv(s) && Valid(s, run) && Idle(After(s, run))
    ensures Valid(s, run')
    ensures var t, t' := After(s, run), After(s, run');
            && Idle(t') && SameCalls(t, t')
            && forall r :: 0 <= r < |t'.calls| ==> t'.calls[r].phase == Returned
  {
    hide Inv, Next, Enabled, Valid, After, AllExited;
    run' := run;
    var t := After(s, run);
    for r := 0 to |t.calls|
      invariant Valid(s, run') && Idle(After(s, run')) && SameCalls(t, After(s, run'))
      invariant forall q :: 0 <= q < r ==> After(s, run').calls[q].phase == Returned
    {
      RunKeepsInv(s, run');
      IdleCall(After(s, run'), r);
      if After(s, run').calls[r].phase != Returned {
        run' := Go(s, run', RunCheck(r));
      }
    }
  }

  /** The notifications that are still to come reach nobody, and the workers are joined. */
  lemma JoinAll(s: Pool, run: seq<Action>) returns (run': seq<Action>)
    requires Inv(s) && Valid(s, run) && Idle(After(s, run))
    ensures Valid(s, run')
    ensures After(s, run') == After(s, run).(pending := 0, workers := [])
  {
    hide Inv, Valid, After, Held, Tokens, Count;
    run' := run;
    var t := After(s, run);
    var u := t;
    while u.pending > 0
      invariant Valid(s, run') && After(s, run') == u && u == t.(pending := u.pending)
      decreases u.pending
    {
      run' := Go(s, run', NotifyNobody);
      u := Next(u, NotifyNobody);
    }
    run' := Go(s, run', Join);
  }

  /** From any reachable state in which some worker has not left, some run completes every task,
      lets every caller of run return, and ends with all workers joined. */
  lemma CanFinish(run: seq<Action>) returns (run': seq<Action>)
    requires Valid(INITIAL, run)
    requires exists w :: 0 <= w < |After(INITIAL, run).workers| && After(INITIAL, run).workers[w] != Exited
    ensures Valid(INITIAL, run')
    ensures var s, s' := After(INITIAL, run), After(INITIAL, run');
            && !s'.started && s'.workers == [] && s'.tasks == [] && s'.pending == 0
            && s.posted <= s'.posted && multiset(s'.completed) == multiset(s'.posted)
            && |s'.calls| == |s.calls|
            && forall r :: 0 <= r < |s.calls| ==>
                 && s'.calls[r].phase == Returned && s'.calls[r].total == s.calls[r].total
                 && Tokens(s'.completed, r) == s.calls[r].total
  {
    hide Inv, Next, Enabled, Valid, After, Held, Tokens, Count, SameCalls, Awake;
    InitialInv();
    var s := After(INITIAL, run);
    run' := PostAll(INITIAL, run);
    var t := After(INITIAL, run');
    Stopping(t);
    run' := Go(INITIAL, run', Action.Stop);
    run' := LetAllOut(INITIAL, run');
    var v := After(INITIAL, run');
    AllPosted(t, Next(t, Action.Stop), v);
    run' := ReturnAll(INITIAL, run');
    var u := After(INITIAL, run');
    RunKeepsInv(INITIAL, run');
    CallsKept(s, t, Next(t, Action.Stop), v, u);
    NothingLeft(u);
    run' := JoinAll(INITIAL, run');
  }

  lemma InitialInv()
    ensures Inv(INITIAL)
  {
  }

  lemma Stopping(s: Pool)
    ensures Enabled(s, Action.Stop)
    ensures var s' := Next(s, Action.Stop);
            && !s'.started && |s'.workers| == |s.workers| && s'.calls == s.calls && s'.posted == s.posted
            && forall w :: 0 <= w < |s.workers| && s.workers[w] != Exited ==> s'.workers[w] != Exited
  {
  }

  lemma AllPosted(t: Pool, u: Pool, v: Pool)
    requires u.calls == t.calls && SameCalls(u, v)
    requires forall r :: 0 <= r < |t.calls| ==> t.calls[r].posted == t.calls[r].total
    ensures forall r :: 0 <= r < |v.calls| ==> v.calls[r].posted == v.calls[r].total
  {
  }

  lemma CallsKept(s: Pool, t: Pool, u: Pool, v: Pool, w: Pool)
    requires |t.calls| == |s.calls| && forall r :: 0 <= r < |s.calls| ==> t.calls[r].total == s.calls[r].total
    requires u.calls == t.calls && u.posted == t.posted && s.posted <= t.posted
    requires SameCalls(u, v) && SameCalls(v, w)
    ensures |w.calls| == |s.calls| && s.posted <= w.posted
    ensures forall r :: 0 <= r < |s.calls| ==> w.calls[r].total == s.calls[r].total
  {
  }

  lemma NothingLeft(s: Pool)
    requires Inv(s) && Idle(s) && forall r :: 0 <= r < |s.calls| ==> s.calls[r].phase == Returned
    ensures multiset(s.completed) == multiset(s.posted)
    ensures forall r :: 0 <= r < |s.calls| ==> Tokens(s.completed, r) == s.calls[r].total
  {
    HeldNone(s.workers);
    forall r | 0 <= r < |s.calls|
      ensures Tokens(s.completed, r) == s.calls[r].total
    {
      CountNone(s.workers, RunningFor(r));
      assert CallOk(s, r);
    }
  }

  /** A whole life of the pool: started with any number of threads, given any functions and any
      calls of run, all of whose functions are posted and whose callers sleep before the first
      of them runs, it completes everything, and all callers return. */
  lemma WholeLife(n: nat, funcs: seq<nat>, totals: seq<nat>) returns (run: seq<Action>)
    requires n >= 1
    ensures Valid(INITIAL, run)
    ensures var s := After(INITIAL, run);
            && !s.started && s.workers == [] && s.tasks == [] && s.pending == 0
            && multiset(s.completed) == multiset(s.posted)
            && |s.calls| == |totals|
            && (forall r :: 0 <= r < |totals| ==>
                  s.calls[r].phase == Returned && s.calls[r].total == Tokens(s.completed, r) == totals[r])
            && |s.posted| >= |funcs| && forall k :: 0 <= k < |funcs| ==> s.posted[k] == Task(funcs[k], None)
  {
    hide Inv, Next, Enabled, Valid, After, Tokens;
    InitialInv();
    run := Started(n);
    run := PostsFuncs(run, n, funcs);
    run := CallsRun(run, n, funcs, totals);
    var s := After(INITIAL, run);
    assert s.workers[0] != Exited;
    run := CanFinish(run);
  }

  /** A started pool of n threads that have not gone into their loops. */
  ghost predicate Fresh(s: Pool, n: nat) {
    s.started && |s.workers| == n && forall w :: 0 <= w < n ==> s.workers[w] == AtLoop
  }

  lemma Started(n: nat) returns (run: seq<Action>)
    requires n >= 1
    ensures Valid(INITIAL, run) && Fresh(After(INITIAL, run), n)
    ensures After(INITIAL, run).calls == [] && After(INITIAL, run).posted == []
  {
    hide Inv;
    InitialInv();
    run := Go(INITIAL, [], Action.Start(n));
  }

  lemma PostsFuncs(run: seq<Action>, n: nat, funcs: seq<nat>) returns (run': seq<Action>)
    requires Valid(INITIAL, run) && Fresh(After(INITIAL, run), n)
    requires After(INITIAL, run).calls == [] && After(INITIAL, run).posted == []
    ensures Valid(INITIAL, run') && Fresh(After(INITIAL, run'), n)
    ensures After(INITIAL, run').calls == []
    ensures After(INITIAL, run').posted == seq(|funcs|, k requires 0 <= k < |funcs| => Task(funcs[k], None))
  {
    hide Inv, Valid, After;
    InitialInv();
    run' := run;
    for k := 0 to |funcs|
      invariant Valid(INITIAL, run') && Fresh(After(INITIAL, run'), n)
      invariant After(INITIAL, run').calls == []
      invariant After(INITIAL, run').posted == seq(k, i requires 0 <= i < k => Task(funcs[i], None))
    {
      run' := Go(INITIAL, run', Action.Post(funcs[k]));
    }
  }

  lemma CallsRun(run: seq<Action>, n: nat, funcs: seq<nat>, totals: seq<nat>) returns (run': seq<Action>)
    requires Valid(INITIAL, run) && Fresh(After(INITIAL, run), n) && After(INITIAL, run).calls == []
    ensures Valid(INITIAL, run') && Fresh(After(INITIAL, run'), n)
    ensures After(INITIAL, run).posted <= After(INITIAL, run').posted
    ensures |After(INITIAL, run').calls| == |totals|
    ensures forall r :: 0 <= r < |totals| ==>
              var c := After(INITIAL, run').calls[r];
              c.total == totals[r] && (totals[r] > 0 ==> c.phase == Blocked)
  {
    hide Inv, Valid, After, Fresh, Next, Enabled;
    InitialInv();
    run' := run;
    for r := 0 to |totals|
      invariant Valid(INITIAL, run') && Fresh(After(INITIAL, run'), n)
      invariant After(INITIAL, run).posted <= After(INITIAL, run').posted
      invariant |After(INITIAL, run').calls| == r
      invariant forall q :: 0 <= q < r ==>
                  var c := After(INITIAL, run').calls[q];
                  c.total == totals[q] && (totals[q] > 0 ==> c.phase == Blocked)
    {
      var s := After(INITIAL, run');
      CallBegins(s, totals[r]);
      run' := Go(INITIAL, run', Action.Run(totals[r]));
      run' := PostRest(INITIAL, run', r);
      var t := After(INITIAL, run');
      CallChecks(t, r);
      run' := Go(INITIAL, run', RunCheck(r));
      SameThreads(s, After(INITIAL, run'), n);
    }
  }

  lemma CallBegins(s: Pool, total: nat)
    ensures Enabled(s, Action.Run(total))
    ensures Next(s, Action.Run(total)) == s.(calls := s.calls + [Call(total, 0, total, Posting)])
  {
  }

  lemma SameThreads(s: Pool, s': Pool, n: nat)
    requires Fresh(s, n) && s'.started == s.started && s'.workers == s.workers
    ensures Fresh(s', n)
  {
  }

  lemma CallChecks(s: Pool, r: nat)
    requires r < |s.calls| && s.calls[r].phase == Posting && s.calls[r].posted == s.calls[r].total
    ensures Enabled(s, RunCheck(r))
    ensures Next(s, RunCheck(r))
         == s.(calls := s.calls[r := s.calls[r].(phase := if s.calls[r].remain == 0 then Returned else Blocked)])
  {
  }

  function PostsIn(run: seq<Action>): nat {
    if run == [] then 0 else (if run[0].Post? || run[0].RunPost? then 1 else 0) + PostsIn(run[1..])
  }

  function NotificationsIn(run: seq<Action>): nat {
    if run == [] then 0 else (if run[0].Notify? || run[0].NotifyNobody? then 1 else 0) + NotificationsIn(run[1..])
  }

  /** Every post is notified once: what is still to come is what has been posted and not yet
      notified. */
  lemma {:induction false} OneNotificationPerPost(s: Pool, run: seq<Action>)
    requires Valid(s, run)
    ensures After(s, run).pending + NotificationsIn(run) == s.pending + PostsIn(run)
    ensures |After(s, run).posted| == |s.posted| + PostsIn(run)
    decreases |run|
  {
    if run != [] {
      OneNotificationPerPost(Next(s, run[0]), run[1..]);
    }
  }

  /** Of the functions of a call the last to be counted down, and no other, wakes its caller; a
      caller that wakes up for another reason goes to sleep again. */
  lemma LastWakes(run: seq<Action>, w: nat)
    requires Valid(INITIAL, run) && Enabled(After(INITIAL, run), Signal(w))
    ensures var s := After(INITIAL, run);
            var s', r := Next(s, Signal(w)), s.workers[w].task.token;
            && r.Some? && r.value < |s.calls|
            && s'.calls[r.value].remain == s.calls[r.value].remain - 1
            && (s.calls[r.value].phase == Blocked ==>
                  s'.calls[r.value].phase == if s.calls[r.value].remain == 1 then Checking else Blocked)
            && (s.calls[r.value].phase != Blocked ==> s'.calls[r.value].phase == s.calls[r.value].phase)
    ensures var s := After(INITIAL, run);
            forall r :: 0 <= r < |s.calls| && s.calls[r].phase == Blocked ==>
              && Enabled(s, RunWake(r)) && Enabled(Next(s, RunWake(r)), RunCheck(r))
              && Next(Next(s, RunWake(r)), RunCheck(r)) == s
  {
    hide Held, Count, Tokens, Conserved, NoneForgotten, Drained, Phased, Valid, After;
    EveryReachableStateKeepsInv(run);
    var s := After(INITIAL, run);
    forall r | 0 <= r < |s.calls| && s.calls[r].phase == Blocked
      ensures Enabled(s, RunWake(r)) && Enabled(Next(s, RunWake(r)), RunCheck(r))
      ensures Next(Next(s, RunWake(r)), RunCheck(r)) == s
    {
      assert CallOk(s, r);
      assert Next(Next(s, RunWake(r)), RunCheck(r)).calls == s.calls;
    }
  }

  /** The shared state of the pool; every method is one critical section under the mutex. */
  class ThreadPool {
    var started: bool
    var tasks: seq<Task>

    constructor ()
      ensures Shows(INITIAL)
    {
      started, tasks := false, [];
    }

    predicate Shows(s: Pool)
      reads this
    {
      started == s.started && tasks == s.tasks
    }

    method Start(n: nat, ghost s: Pool)
      requires Shows(s) && Enabled(s, Action.Start(n))
      modifies this`started
      ensures Shows(Next(s, Action.Start(n)))
    {
      if !started {
        started := true;
      }
    }

    method Stop(ghost s: Pool)
      requires Shows(s)
      modifies this`started
      ensures Shows(Next(s, Action.Stop))
    {
      if started {
        started := false;
      }
    }

    /** Used by post itself and for the functions of run. */
    method Post(func: nat, token: Option<nat>, ghost s: Pool)
      requires Shows(s)
      modifies this`tasks
      ensures Shows(Posted(s, Task(func, token)))
    {
      tasks := [Task(func, token)] + tasks;
    }

    /** What a worker does with the mutex held: it sleeps, leaves its loop or the pool, or
        takes the first task. */
    method WorkerSection(draining: bool, ghost s: Pool, ghost w: nat) returns (pc: Pc)
      requires Shows(s) && w < |s.workers| && s.workers[w] == Back(draining)
      modifies this`tasks
      ensures Shows(Next(s, Step(w))) && Next(s, Step(w)).workers[w] == pc
    {
      if !draining {
        if started && tasks == [] {
          return Waiting;
        }
        if !started {
          return AtDrain;
        }
      } else if tasks == [] {
        return Exited;
      }
      var func := tasks[0];
      tasks := tasks[1..];
      return Running(func, draining);
    }
  }
}