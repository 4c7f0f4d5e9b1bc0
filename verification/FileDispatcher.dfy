// The file dispatcher of the coordinator (src/ps/file_dispatcher.cc): which input files
// still wait, which are being processed and since when, and which have been finished.
module FileDispatch {
  import opened Sequences

  type File = string

  /** The dispatcher's data, as a value. */
  datatype Dispatch = Dispatch(
    files: seq<File>,
    queue: seq<File>,
    dispatched: map<File, int>,
    finished: seq<File>)

  // ---------------------------------------------------------------------------------------
  // What one operation does to the data
  // ---------------------------------------------------------------------------------------

  predicate TimedOut(d: Dispatch, timeout: int, now: int, file: File) {
    timeout > 0 && file in d.dispatched && now - d.dispatched[file] > timeout
  }

  /** One dispatch. `scan` and `stamp` are the two clock readings; a non-empty queue gives its
      head, an empty one gives some timed-out file if there is one. */
  ghost predicate DispatchStep(d: Dispatch, timeout: int, scan: int, stamp: int,
                               ok: bool, file: File, d': Dispatch) {
    if d.queue != [] then
      && ok
      && file == d.queue[0]
      && d' == d.(queue := d.queue[1..], dispatched := d.dispatched[file := stamp])
    else if ok then
      && TimedOut(d, timeout, scan, file)
      && d' == d.(dispatched := d.dispatched[file := stamp])
    else
      && (forall f :: f in d.dispatched ==> !TimedOut(d, timeout, scan, f))
      && d' == d
  }

  /** A worker gets a file exactly if one is queued or has been out for longer than the timeout,
      and then the first of the queue or such a one. */
  lemma GivenExactly(d: Dispatch, timeout: int, scan: int, stamp: int, ok: bool, file: File, d': Dispatch)
    requires DispatchStep(d, timeout, scan, stamp, ok, file, d')
    ensures ok <==> d.queue != []
                    || (timeout > 0 && exists f :: f in d.dispatched && scan - d.dispatched[f] > timeout)
    ensures ok ==> file in d'.dispatched && d'.dispatched[file] == stamp
    ensures ok && d.queue != [] ==> d.queue == [file] + d'.queue
    ensures ok && d.queue == [] ==> file in d.dispatched && scan - d.dispatched[file] > timeout
    ensures !ok ==> d' == d
  {
  }

  function Finish(d: Dispatch, file: File): Dispatch {
    d.(finished := d.finished + [file], dispatched := d.dispatched - {file})
  }

  /** The test by which an epoch is declared over. */
  predicate CountTest(d: Dispatch) {
    |d.finished| >= |d.files| && d.queue == [] && d.dispatched == map[]
  }

  function Failure(d: Dispatch, file: File): Dispatch {
    if file in d.dispatched then
      d.(queue := d.queue + [file], dispatched := d.dispatched - {file})
    else d
  }

  function StartEpoch(d: Dispatch, order: seq<File>): Dispatch {
    Dispatch(order, order, d.dispatched, [])
  }

  ghost predicate Drained(d: Dispatch) {
    d.queue == [] && d.dispatched == map[]
  }

  /** Any operation, with any clock readings, any choice of timed-out file and any argument. */
  ghost predicate Step(timeout: int, d: Dispatch, d': Dispatch) {
    || (exists scan, stamp, ok, file :: DispatchStep(d, timeout, scan, stamp, ok, file, d'))
    || (exists file :: d' == Finish(d, file))
    || (exists file :: d' == Failure(d, file))
  }

  ghost predicate IsRun(timeout: int, trace: seq<Dispatch>) {
    && |trace| > 0
    && (forall i :: 0 < i < |trace| ==> Step(timeout, trace[i - 1], trace[i]))
  }

  // ---------------------------------------------------------------------------------------
  // What every operation keeps, timeouts and late or repeated notifications included
  // ---------------------------------------------------------------------------------------

  ghost predicate Accounted(d: Dispatch) {
    && NoDup(d.files)
    && NoDup(d.queue)
    && (forall f :: f in d.queue ==> f in d.files && f !in d.dispatched)
    && (forall f :: f in d.dispatched ==> f in d.files)
    && (forall f :: f in d.files ==> f in d.queue || f in d.dispatched || f in d.finished)
  }

  lemma StartEpochAccounted(d: Dispatch, order: seq<File>)
    requires NoDup(order) && d.dispatched == map[]
    ensures Accounted(StartEpoch(d, order))
  {
  }

  lemma DispatchKeepsAccounted(d: Dispatch, timeout: int, scan: int, stamp: int,
                               ok: bool, file: File, d': Dispatch)
    requires Accounted(d) && DispatchStep(d, timeout, scan, stamp, ok, file, d')
    ensures Accounted(d') && d'.files == d.files && d'.finished == d.finished
  {
    if d.queue != [] {
      assert d.queue == [d.queue[0]] + d'.queue;
    }
  }

  lemma FailureKeepsAccounted(d: Dispatch, file: File)
    requires Accounted(d)
    ensures Accounted(Failure(d, file))
    // A second failure report for the same file, as the error path sends it, changes nothing.
    ensures Failure(Failure(d, file), file) == Failure(d, file)
  {
  }

  lemma FinishKeepsAccounted(d: Dispatch, file: File)
    requires Accounted(d)
    ensures Accounted(Finish(d, file))
  {
    var d' := Finish(d, file);
    assert forall f :: f in d.finished ==> f in d'.finished;
    assert d'.finished[|d.finished|] == file;
  }

  lemma StepKeepsAccounted(timeout: int, d: Dispatch, d': Dispatch)
    requires Accounted(d) && Step(timeout, d, d')
    ensures Accounted(d') && d'.files == d.files
  {
    if scan, stamp, ok, file :| DispatchStep(d, timeout, scan, stamp, ok, file, d') {
      DispatchKeepsAccounted(d, timeout, scan, stamp, ok, file, d');
    } else if file :| d' == Finish(d, file) {
      FinishKeepsAccounted(d, file);
    } else {
      var file :| d' == Failure(d, file);
      FailureKeepsAccounted(d, file);
    }
  }

  lemma {:induction false} RunKeepsAccounted(timeout: int, trace: seq<Dispatch>, i: nat)
    requires IsRun(timeout, trace) && Accounted(trace[0]) && i < |trace|
    ensures Accounted(trace[i]) && trace[i].files == trace[0].files
  {
    if i > 0 {
      RunKeepsAccounted(timeout, trace, i - 1);
      StepKeepsAccounted(timeout, trace[i - 1], trace[i]);
    }
  }

  /** The count in the end-of-epoch test decides nothing: once nothing waits and nothing is
      being processed, every file has been finished at least once. */
  lemma CountTestIsDrained(d: Dispatch)
    requires Accounted(d)
    ensures CountTest(d) <==> Drained(d)
  {
    if Drained(d) {
      assert Elems(d.files) <= Elems(d.finished);
      SubsetSize(Elems(d.files), Elems(d.finished));
      ElemsOfNoDup(d.files);
      ElemsAtMost(d.finished);
    }
  }

  /** Over any run: a finish notification ends the epoch exactly when it leaves nothing queued
      and nothing dispatched, and then no file was missed. */
  lemma EpochEndsExactlyWhenDrained(timeout: int, trace: seq<Dispatch>, i: nat, file: File)
    requires IsRun(timeout, trace) && Accounted(trace[0]) && i < |trace|
    ensures var d' := Finish(trace[i], file);
            && (CountTest(d') <==> Drained(d'))
            && (CountTest(d') ==> forall f :: f in trace[0].files ==> f in d'.finished)
  {
    RunKeepsAccounted(timeout, trace, i);
    FinishKeepsAccounted(trace[i], file);
    CountTestIsDrained(Finish(trace[i], file));
  }

  /** After the epoch was declared over, further requests, failures and finishes cannot bring a
      file back, so the assertions at the start of the next epoch hold. */
  lemma DrainedStays(timeout: int, d: Dispatch, d': Dispatch)
    requires Drained(d) && Step(timeout, d, d')
    ensures Drained(d')
  {
  }

  // ---------------------------------------------------------------------------------------
  // Repeated input files
  // ---------------------------------------------------------------------------------------

  /** Every run of an epoch over the files: a finish notification declares the epoch over exactly
      when it leaves nothing queued and nothing dispatched. */
  ghost predicate EndIsExact(timeout: int, d: Dispatch, files: seq<File>) {
    forall trace, i, file ::
      IsRun(timeout, trace) && trace[0] == StartEpoch(d, files) && 0 <= i < |trace| ==>
        (CountTest(Finish(trace[i], file)) <==> Drained(Finish(trace[i], file)))
  }

  /** Once started properly, with whatever timeout, an epoch ends exactly when it should if and
      only if no file is listed twice. */
  lemma EndIsExactIfDistinct(timeout: int, d: Dispatch, files: seq<File>)
    requires Drained(d)
    ensures EndIsExact(timeout, d, files) <==> NoDup(files)
  {
    if NoDup(files) {
      StartEpochAccounted(d, files);
      forall trace, i, file | IsRun(timeout, trace) && trace[0] == StartEpoch(d, files) && 0 <= i < |trace|
        ensures CountTest(Finish(trace[i], file)) <==> Drained(Finish(trace[i], file))
      {
        EpochEndsExactlyWhenDrained(timeout, trace, i, file);
      }
    } else {
      var trace, file := StuckRun(timeout, d, files);
      var i := |trace| - 1;
      assert Drained(Finish(trace[i], file)) && !CountTest(Finish(trace[i], file));
    }
  }

  lemma Extended(timeout: int, trace: seq<Dispatch>, d': Dispatch)
    requires IsRun(timeout, trace) && Step(timeout, trace[|trace| - 1], d')
    ensures IsRun(timeout, trace + [d'])
  {
    var longer := trace + [d'];
    forall i | 0 < i < |longer|
      ensures Step(timeout, longer[i - 1], longer[i])
    {
      if i < |trace| {
        assert Step(timeout, trace[i - 1], trace[i]);
      }
    }
  }

  /** Over a list with a repetition: all of the queue is dispatched, then each distinct file is
      finished. The last finish leaves nothing behind, and fewer files finished than listed. */
  lemma StuckRun(timeout: int, d: Dispatch, files: seq<File>) returns (trace: seq<Dispatch>, file: File)
    requires Drained(d) && !NoDup(files)
    ensures IsRun(timeout, trace) && trace[0] == StartEpoch(d, files)
    ensures var d' := Finish(trace[|trace| - 1], file);
            Drained(d') && |d'.finished| < |d'.files|
  {
    trace := AllDispatched(timeout, d, files);
    var last := trace[|trace| - 1];
    ElemsLess(files);
    while |last.dispatched| > 1
      invariant IsRun(timeout, trace) && trace[0] == StartEpoch(d, files)
      invariant last == trace[|trace| - 1]
      invariant last.files == files && last.queue == []
      invariant |last.dispatched| >= 1 && |last.finished| + |last.dispatched| == |Elems(files)|
      decreases |last.dispatched|
    {
      var f :| f in last.dispatched;
      var next := Finish(last, f);
      KeysLess(last.dispatched, f);
      Extended(timeout, trace, next);
      trace, last := trace + [next], next;
    }
    file :| file in last.dispatched;
    KeysLess(last.dispatched, file);
    assert Finish(last, file).dispatched == map[];
  }

  /** The smallest such input, with a worker that fails on the way. */
  lemma RepeatedFileCanStick(f: File)
    ensures var trace := [
              Dispatch([f, f], [f, f], map[], []),
              Dispatch([f, f], [f], map[f := 0], []),
              Dispatch([f, f], [], map[f := 0], []),
              Dispatch([f, f], [f], map[], []),
              Dispatch([f, f], [], map[f := 0], []),
              Dispatch([f, f], [], map[], [f])];
            && IsRun(0, trace)
            && Drained(trace[5]) && !CountTest(trace[5])
  {
    var d0 := Dispatch([f, f], [f, f], map[], []);
    var d1 := Dispatch([f, f], [f], map[f := 0], []);
    var d2 := Dispatch([f, f], [], map[f := 0], []);
    var d3 := Dispatch([f, f], [f], map[], []);
    var d4 := Dispatch([f, f], [], map[f := 0], []);
    var d5 := Dispatch([f, f], [], map[], [f]);
    assert DispatchStep(d0, 0, 0, 0, true, f, d1);
    assert d1.dispatched[f := 0] == d2.dispatched;
    assert DispatchStep(d1, 0, 0, 0, true, f, d2);
    assert d2.dispatched - {f} == map[];
    assert d3 == Failure(d2, f);
    assert DispatchStep(d3, 0, 0, 0, true, f, d4);
    assert d5 == Finish(d4, f);
  }

  lemma KeysLess(m: map<File, int>, f: File)
    requires f in m
    ensures |m - {f}| == |m| - 1
  {
    assert (m - {f}).Keys == m.Keys - {f};
    assert |m.Keys| == |m| && |(m - {f}).Keys| == |m - {f}|;
  }

  lemma {:induction false} ElemsLess(s: seq<File>)
    requires !NoDup(s)
    ensures |Elems(s)| < |s|
  {
    var rest := s[1..];
    assert s == [s[0]] + rest;
    if s[0] in rest {
      assert Elems(s) == Elems(rest);
      ElemsAtMost(rest);
    } else {
      assert Elems(s) == Elems(rest) + {s[0]};
      var i, j :| 0 <= i < j < |s| && s[i] == s[j];
      assert i > 0 ==> rest[i - 1] == rest[j - 1];
      ElemsLess(rest);
    }
  }

  lemma AllDispatched(timeout: int, d: Dispatch, files: seq<File>) returns (trace: seq<Dispatch>)
    requires Drained(d) && files != []
    ensures IsRun(timeout, trace) && trace[0] == StartEpoch(d, files)
    ensures var last := trace[|trace| - 1];
            && last.files == files && last.queue == [] && last.finished == []
            && |last.dispatched| == |Elems(files)| >= 1
  {
    var last := StartEpoch(d, files);
    trace := [last];
    for k := 0 to |files|
      invariant IsRun(timeout, trace) && trace[0] == StartEpoch(d, files)
      invariant last == trace[|trace| - 1]
      invariant last.files == files && last.queue == files[k..] && last.finished == []
      invariant last.dispatched.Keys == Elems(files[..k])
    {
      var next := last.(queue := last.queue[1..], dispatched := last.dispatched[files[k] := 0]);
      assert DispatchStep(last, timeout, 0, 0, true, files[k], next);
      assert files[..k + 1] == files[..k] + [files[k]];
      Extended(timeout, trace, next);
      trace, last := trace + [next], next;
    }
    assert files[..|files|] == files && files[0] in Elems(files);
    assert |last.dispatched.Keys| == |last.dispatched|;
  }

  // ---------------------------------------------------------------------------------------
  // The class
  // ---------------------------------------------------------------------------------------

  function Reverse(s: seq<File>): (r: seq<File>) {
    if s == [] then [] else Reverse(s[1..]) + [s[0]]
  }

  lemma {:induction false} ReverseIsPermutation(s: seq<File>)
    ensures multiset(Reverse(s)) == multiset(s)
  {
    if s != [] {
      ReverseIsPermutation(s[1..]);
      assert s == [s[0]] + s[1..];
    }
  }

  lemma {:induction false} ReverseAt(s: seq<File>)
    ensures |Reverse(s)| == |s|
    ensures forall k :: 0 <= k < |s| ==> Reverse(s)[k] == s[|s| - 1 - k]
  {
    if s != [] {
      ReverseAt(s[1..]);
    }
  }

  class FileDispatcher {
    var reverse: bool
    var shuffle: bool
    var timeout: int
    var files: seq<File>
    var toDispatch: seq<File>
    var finished: seq<File>
    var dispatchTime: map<File, int>

    constructor (reverse: bool, shuffle: bool, timeout: int)
      ensures this.reverse == reverse && this.shuffle == shuffle && this.timeout == timeout
      ensures View() == Dispatch([], [], map[], [])
    {
      this.reverse, this.shuffle, this.timeout := reverse, shuffle, timeout;
      files, toDispatch, finished, dispatchTime := [], [], [], map[];
    }

    ghost function View(): Dispatch
      reads this
    {
      Dispatch(files, toDispatch, dispatchTime, finished)
    }

    method PreTrain(input: seq<File>)
      requires input != []
      modifies this`files
      ensures View() == old(View()).(files := if reverse then Reverse(input) else input)
      ensures |files| == |input|
      ensures forall k :: 0 <= k < |input| ==> files[k] == input[if reverse then |input| - 1 - k else k]
    {
      ReverseAt(input);
      files := input;
      if reverse {
        files := Reverse(files);
      }
    }

    /** `shuffled` is what the random shuffle makes of the file list. */
    method PreEpoch(shuffled: seq<File>)
      requires files != [] && Drained(View())
      requires multiset(shuffled) == multiset(files)
      modifies this`files, this`toDispatch, this`finished
      ensures View() == StartEpoch(old(View()), if shuffle then shuffled else old(files))
    {
      if shuffle {
        files := shuffled;
      }
      toDispatch := files;
      finished := [];
    }

    /** `scan` and `stamp` are the clock readings of the timeout scan and of the dispatch. */
    method WorkerDispatchFile(scan: int, stamp: int) returns (ok: bool, file: File)
      modifies this`toDispatch, this`dispatchTime
      ensures DispatchStep(old(View()), timeout, scan, stamp, ok, file, View())
      ensures ok <==> old(toDispatch) != []
                      || (timeout > 0
                          && exists f :: f in old(dispatchTime) && scan - old(dispatchTime)[f] > timeout)
    {
      file := "";
      ghost var before := View();
      ghost var expired := false;
      while true
        invariant !expired ==> View() == before
        invariant expired ==>
          && before.queue == []
          && |toDispatch| == 1
          && TimedOut(before, timeout, scan, toDispatch[0])
          && View() == before.(queue := toDispatch,
                               dispatched := before.dispatched - {toDispatch[0]})
        decreases !expired
      {
        if toDispatch != [] {
          file := toDispatch[0];
          toDispatch := toDispatch[1..];
          dispatchTime := dispatchTime[file := stamp];
          if expired {
            assert dispatchTime == before.dispatched[file := stamp];
          }
          return true, file;
        }
        if timeout > 0 {
          // The scan takes the first expired entry in the map's own, arbitrary order.
          var late := set f | f in dispatchTime && scan - dispatchTime[f] > timeout;
          if late != {} {
            var f :| f in late;
            toDispatch := toDispatch + [f];
            dispatchTime := dispatchTime - {f};
            expired := true;
          }
          assert late == {} ==> forall f :: f in dispatchTime ==> f !in late;
        }
        if toDispatch == [] {
          return false, "";
        }
      }
    }

    method WorkerFinishFile(file: File) returns (done: bool)
      modifies this`finished, this`dispatchTime
      ensures View() == Finish(old(View()), file)
      ensures done == CountTest(View())
    {
      finished := finished + [file];
      dispatchTime := dispatchTime - {file};
      if |finished| >= |files| && toDispatch == [] && dispatchTime == map[] {
        return true;
      }
      return false;
    }

    method WorkerFailureFile(file: File)
      modifies this`toDispatch, this`dispatchTime
      ensures View() == Failure(old(View()), file)
    {
      if file in dispatchTime {
        toDispatch := toDispatch + [file];
        dispatchTime := dispatchTime - {file};
      }
    }
  }
}
