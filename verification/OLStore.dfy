// Incremental export (src/graph/ol_store.cc): which rows of the matrices have changed enough
// since they last made their id due. An export writes an id's rows in all matrices; the baseline
// takes over only those that were due themselves.
module OLStores {
  import opened Basics
  import opened TensorMaps
  import opened Models
  import opened Optimizers
  import opened FreqStores

  /** The number of updates of every pending row since it was last due, modulo 2^32. */
  type State = map<string, map<nat, nat>>

  const FREQ_VALUES: nat := 0x1_0000_0000

  datatype Thresholds = Thresholds(update: nat, distance: real, distanceOf: (nat, Row, Row) -> real)

  function RowAt(m: TensorMap, name: string, id: nat): Option<Row> {
    if name in m then RowOf(m[name], id) else None
  }

  predicate Pending(state: State, name: string, id: nat) {
    name in state && id in state[name]
  }

  /** The rows that a gradient or new values address, as far as they belong to matrices. */
  predicate Addressed(param: TensorMap, remote: TensorMap, name: string) {
    name in remote && name in param && param[name].Srm? && remote[name].Srm?
  }

  function CountUp(counts: map<nat, nat>, rows: map<nat, Row>): map<nat, nat> {
    map id | id in counts.Keys + rows.Keys ::
      if id in rows then ((if id in counts then counts[id] else 0) + 1) % FREQ_VALUES else counts[id]
  }

  function CountsOf(state: State, name: string): map<nat, nat> {
    if name in state then state[name] else map[]
  }

  function Marked(param: TensorMap, state: State, remote: TensorMap): State {
    map name | name in state.Keys + remote.Keys && (name in state || Addressed(param, remote, name)) ::
      if Addressed(param, remote, name) then CountUp(CountsOf(state, name), remote[name].rows)
      else state[name]
  }

  /** In so many words: the rows of given matrices that the model has as matrices are counted once,
      in 32 bits; nothing else is. */
  ghost predicate MarkedRight(param: TensorMap, state: State, remote: TensorMap, state': State) {
    && (forall name :: name in state' <==>
          name in state || (name in remote && name in param && param[name].Srm? && remote[name].Srm?))
    && forall name, id :: name in state' ==>
         var before := if name in state && id in state[name] then state[name][id] else 0;
         if name in remote && name in param && param[name].Srm? && remote[name].Srm? && id in remote[name].rows
         then id in state'[name] && state'[name][id] == (before + 1) % 0x1_0000_0000
         else (id in state'[name] <==> name in state && id in state[name])
              && (id in state'[name] ==> state'[name][id] == before)
  }

  lemma MarkingIsRight(param: TensorMap, state: State, remote: TensorMap)
    ensures MarkedRight(param, state, remote, Marked(param, state, remote))
  {
  }

  /** Nothing is left open by that. */
  lemma MarkedOnce(param: TensorMap, state: State, remote: TensorMap, state': State)
    requires MarkedRight(param, state, remote, state')
    ensures state' == Marked(param, state, remote)
  {
    var marked := Marked(param, state, remote);
    MarkingIsRight(param, state, remote);
    hide Marked;
    assert state'.Keys == marked.Keys;
    forall name | name in state'
      ensures state'[name] == marked[name]
    {
      assert state'[name].Keys == marked[name].Keys;
    }
  }

  /** Whether a row makes its id due: never if it is gone; otherwise if it has no baseline, was
      updated too often or has moved too far from its baseline. */
  predicate Due(th: Thresholds, count: nat, col: nat, row: Option<Row>, prev: Option<Row>) {
    row.Some? && (prev.None? || count > th.update || th.distanceOf(col, row.value, prev.value) > th.distance)
  }

  predicate Collects(th: Thresholds, param: TensorMap, prev: TensorMap, state: State, name: string, id: nat) {
    && Pending(state, name, id)
    && name in param && param[name].Srm? && name in prev && prev[name].Srm?
    && Due(th, state[name][id], param[name].col, RowAt(param, name, id), RowAt(prev, name, id))
  }

  function LeftPending(th: Thresholds, param: TensorMap, prev: TensorMap, state: State): State {
    map name | name in state ::
      map id | id in state[name] && !Collects(th, param, prev, state, name, id) :: state[name][id]
  }

  function NewBaseline(th: Thresholds, param: TensorMap, prev: TensorMap, state: State): TensorMap {
    map name | name in prev ::
      if name in state && name in param && param[name].Srm? && prev[name].Srm? then
        Srm(prev[name].col,
            prev[name].rows
            + (map id | id in state[name] && id in param[name].rows && Collects(th, param, prev, state, name, id) ::
                 param[name].rows[id]))
      else prev[name]
  }

  /** In so many words: a pending row leaves, for the baseline, exactly if it is in the model and
      has no baseline, more updates than the threshold or a distance above the threshold. */
  ghost predicate Leaves(th: Thresholds, param: TensorMap, prev: TensorMap, state: State, name: string, id: nat) {
    && name in state && id in state[name]
    && name in param && param[name].Srm? && name in prev && prev[name].Srm?
    && id in param[name].rows
    && (|| id !in prev[name].rows
        || state[name][id] > th.update
        || th.distanceOf(param[name].col, param[name].rows[id], prev[name].rows[id]) > th.distance)
  }

  /** Exactly the rows that leave are no longer pending, are in the new baseline as they are in
      the model, and make their ids due; nothing else changes. */
  ghost predicate CollectedRight(th: Thresholds, param: TensorMap, prev: TensorMap, state: State,
                                 prev': TensorMap, state': State, ids: set<nat>)
  {
    && state'.Keys == state.Keys && prev'.Keys == prev.Keys
    && (forall name, id :: name in state ==>
          (id in state'[name] <==> id in state[name] && !Leaves(th, param, prev, state, name, id)))
    && (forall name, id :: name in state && id in state'[name] ==> state'[name][id] == state[name][id])
    && (forall name :: name in prev && prev[name].Tsr? ==> prev'[name] == prev[name])
    && (forall name :: name in prev && prev[name].Srm? ==> prev'[name].Srm? && prev'[name].col == prev[name].col)
    && (forall name, id :: name in prev && prev[name].Srm? ==>
          Lookup(prev'[name].rows, id) == if Leaves(th, param, prev, state, name, id) then Some(param[name].rows[id])
                                          else Lookup(prev[name].rows, id))
    && (forall id :: id in ids <==> exists name :: name in state && id in state[name] && id !in state'[name])
  }

  lemma CollectsIfLeaves(th: Thresholds, param: TensorMap, prev: TensorMap, state: State, name: string, id: nat)
    ensures Collects(th, param, prev, state, name, id) <==> Leaves(th, param, prev, state, name, id)
  {
  }

  lemma CollectionIsRight(th: Thresholds, param: TensorMap, prev: TensorMap, state: State, ids: set<nat>)
    requires Tracked(param, prev, state)
    requires forall id: nat :: id in ids <==>
               exists name :: name in state && Collects(th, param, prev, state, name, id)
    ensures CollectedRight(th, param, prev, state, NewBaseline(th, param, prev, state),
                           LeftPending(th, param, prev, state), ids)
  {
    hide Collects, Leaves;
    forall name, id
      ensures Collects(th, param, prev, state, name, id) <==> Leaves(th, param, prev, state, name, id)
    {
      CollectsIfLeaves(th, param, prev, state, name, id);
    }
    PendingOfCollects(th, param, prev, state);
    LeftByCollects(th, param, prev, state);
    BaselineByCollects(th, param, prev, state);
  }

  /** That determines what a collection leaves. */
  lemma CollectedOnce(th: Thresholds, param: TensorMap, prev: TensorMap, state: State, prev': TensorMap,
                      state': State, ids: set<nat>, prev'': TensorMap, state'': State, ids': set<nat>)
    requires CollectedRight(th, param, prev, state, prev', state', ids)
    requires CollectedRight(th, param, prev, state, prev'', state'', ids')
    ensures prev' == prev'' && state' == state'' && ids == ids'
  {
    hide Leaves;
    forall name | name in state
      ensures state'[name] == state''[name]
    {
      assert state'[name].Keys == state''[name].Keys;
    }
    forall name | name in prev
      ensures prev'[name] == prev''[name]
    {
      if prev[name].Srm? {
        SameRows(prev'[name].rows, prev''[name].rows);
      }
    }
    assert forall id :: id in ids <==> id in ids';
  }

  lemma SameRows(rows: map<nat, Row>, rows': map<nat, Row>)
    requires forall id :: Lookup(rows, id) == Lookup(rows', id)
    ensures rows == rows'
  {
    forall id: nat
      ensures id in rows <==> id in rows'
      ensures id in rows ==> rows[id] == rows'[id]
    {
      assert Lookup(rows, id) == Lookup(rows', id);
    }
  }

  lemma PendingOfCollects(th: Thresholds, param: TensorMap, prev: TensorMap, state: State)
    ensures forall name, id :: Collects(th, param, prev, state, name, id) ==> name in state && id in state[name]
    ensures forall name, id :: Leaves(th, param, prev, state, name, id) ==>
              name in param && param[name].Srm? && id in param[name].rows
  {
  }

  lemma LeftByCollects(th: Thresholds, param: TensorMap, prev: TensorMap, state: State)
    ensures var left := LeftPending(th, param, prev, state);
            && left.Keys == state.Keys
            && (forall name, id :: name in state ==>
                  (id in left[name] <==> id in state[name] && !Collects(th, param, prev, state, name, id)))
            && (forall name, id :: name in state && id in left[name] ==> left[name][id] == state[name][id])
  {
    hide Collects;
  }

  lemma BaselineByCollects(th: Thresholds, param: TensorMap, prev: TensorMap, state: State)
    requires Tracked(param, prev, state)
    ensures var next := NewBaseline(th, param, prev, state);
            && next.Keys == prev.Keys
            && (forall name :: name in prev && prev[name].Tsr? ==> next[name] == prev[name])
            && (forall name :: name in prev && prev[name].Srm? ==> next[name].Srm? && next[name].col == prev[name].col)
            && (forall name, id :: name in prev && prev[name].Srm? ==>
                  Lookup(next[name].rows, id)
                  == if Leaves(th, param, prev, state, name, id) then Some(param[name].rows[id])
                     else Lookup(prev[name].rows, id))
  {
  }

  ghost predicate Tracked(param: TensorMap, prev: TensorMap, state: State) {
    && param.Keys == prev.Keys
    && (forall name :: name in param ==> SameKind(param[name], prev[name]))
    && (forall name :: name in state ==> name in param && param[name].Srm?)
  }

  // ---------------------------------------------------------------------------------------
  // Over a run
  // ---------------------------------------------------------------------------------------

  /** created holds the rows that a pull made up and no push has addressed since, touched those
      that a push has addressed since they last moved into the baseline. */
  datatype Export = Export(
    param: TensorMap,
    slots: Slots,
    prev: TensorMap,
    state: State,
    created: set<(string, nat)>,
    touched: set<(string, nat)>)

  /** A push applies the gradient with the rows of rare ids taken out; expiring removes ids. */
  datatype Action =
    | Push(grad: TensorMap, freqs: Freqs, threshold: nat, rule: Rule, given: TensorMap)
    | Pull(req: PullRequest, init: RowInit)
    | Expire(ids: set<nat>)
    | Collect(th: Thresholds)

  function Without(m: TensorMap, ids: set<nat>): TensorMap {
    map name | name in m :: WithoutRows(m[name], ids)
  }

  function WithoutRows(v: Value, ids: set<nat>): Value {
    if v.Srm? then Srm(v.col, map id | id in v.rows && id !in ids :: v.rows[id]) else v
  }

  /** The ids leave the slots of the optimizer as well. */
  function SlotsWithout(slots: Slots, ids: set<nat>): Slots {
    map name | name in slots ::
      seq(|slots[name]|, k requires 0 <= k < |slots[name]| => WithoutRows(slots[name][k], ids))
  }

  /** Exactly the rows of the ids given disappear, from the model and from all slots. */
  lemma ExpiredExactly(s: Export, ids: set<nat>)
    ensures var s' := Next(s, Expire(ids));
            && s'.param.Keys == s.param.Keys && s'.slots.Keys == s.slots.Keys
            && (forall name :: name in s.param ==> IsWithout(s.param[name], s'.param[name], ids))
            && (forall name :: name in s.slots ==> |s'.slots[name]| == |s.slots[name]|)
            && (forall name, k :: name in s.slots && 0 <= k < |s.slots[name]| ==>
                  IsWithout(s.slots[name][k], s'.slots[name][k], ids))
            && s'.prev == s.prev && s'.state == s.state
  {
  }

  /** A training pull makes up exactly the rows asked for and missing; others only read. */
  lemma PulledExactly(s: Export, req: PullRequest, init: RowInit, name: string)
    requires name in s.param
    ensures var s' := Next(s, Pull(req, init));
            && s'.param.Keys == s.param.Keys && s'.prev == s.prev && s'.state == s.state && s'.slots == s.slots
            && (s.param[name].Tsr? || !req.isTrain || name !in req.srmMap ==> s'.param[name] == s.param[name])
            && (s.param[name].Srm? && req.isTrain && name in req.srmMap ==>
                  && s'.param[name].Srm? && s'.param[name].col == s.param[name].col
                  && s'.param[name].rows.Keys == s.param[name].rows.Keys + req.srmMap[name]
                  && forall id :: id in s'.param[name].rows ==>
                       s'.param[name].rows[id] == if id in s.param[name].rows then s.param[name].rows[id]
                                                  else init(name, id))
  {
  }

  lemma WithoutOnce(v: Value, v': Value, ids: set<nat>)
    ensures IsWithout(v, v', ids) <==> v' == WithoutRows(v, ids)
  {
  }

  ghost predicate IsWithout(v: Value, v': Value, ids: set<nat>) {
    && (v.Tsr? ==> v' == v)
    && (v.Srm? ==>
          && v'.Srm? && v'.col == v.col && v'.rows.Keys == v.rows.Keys - ids
          && forall id :: id in v'.rows ==> v'.rows[id] == v.rows[id])
  }

  function Touched(param: TensorMap, remote: TensorMap): set<(string, nat)> {
    set name, id | name in remote && Addressed(param, remote, name) && id in remote[name].rows :: (name, id)
  }

  function Missing(param: TensorMap, req: PullRequest): set<(string, nat)> {
    set name, id | req.isTrain && name in req.srmMap && id in req.srmMap[name] && RowAt(param, name, id).None? ::
      (name, id)
  }

  function Next(s: Export, a: Action): Export {
    match a
    case Push(grad, freqs, threshold, rule, given) =>
      var updated := Updated(Trained(s.param, s.slots), FilteredGrad(freqs, threshold, grad), rule);
      Export(Overwritten(updated.param, given), updated.slots, s.prev,
             Marked(updated.param, Marked(s.param, s.state, grad), given),
             s.created - Touched(s.param, grad) - Touched(s.param, given),
             s.touched + Touched(s.param, grad) + Touched(s.param, given))
    case Pull(req, init) =>
      s.(param := PulledFrom(s.param, req, init), created := s.created + Missing(s.param, req))
    case Expire(ids) => s.(param := Without(s.param, ids), slots := SlotsWithout(s.slots, ids))
    case Collect(th) =>
      s.(prev := NewBaseline(th, s.param, s.prev, s.state), state := LeftPending(th, s.param, s.prev, s.state),
         touched := set row | row in s.touched && !Collects(th, s.param, s.prev, s.state, row.0, row.1))
  }

  /** A row that differs from its baseline is pending, or no push ever gave it its value. */
  ghost predicate Inv(s: Export) {
    && Tracked(s.param, s.prev, s.state)
    && forall name, id: nat :: RowAt(s.param, name, id).Some? ==>
         RowAt(s.param, name, id) == RowAt(s.prev, name, id) || Pending(s.state, name, id)
         || (name, id) in s.created
  }

  lemma MarkedPending(param: TensorMap, state: State, remote: TensorMap, name: string, id: nat)
    ensures Pending(Marked(param, state, remote), name, id)
            <==> Pending(state, name, id) || (Addressed(param, remote, name) && id in remote[name].rows)
  {
  }

  /** Only rows that the gradient addresses change. */
  lemma UpdateIsAddressed(t: Trained, grad: TensorMap, freqs: Freqs, threshold: nat, rule: Rule,
                          name: string, id: nat)
    ensures var after := Updated(t, FilteredGrad(freqs, threshold, grad), rule).param;
            RowAt(after, name, id) == RowAt(t.param, name, id)
            || (Addressed(t.param, grad, name) && id in grad[name].rows)
  {
    hide LevelsOf, AllRows, AllData, AllSlices, Written, ElementUpdated;
    var kept := FilteredGrad(freqs, threshold, grad);
    if name in t.param && name in kept {
      FirstOfLevels(t, name);
      FirstUpdated(name, LevelsOf(t, name), kept[name], rule, id);
    }
  }

  lemma FirstOfLevels(t: Trained, name: string)
    requires name in t.param
    ensures LevelsOf(t, name) != [] && LevelsOf(t, name)[0] == t.param[name]
  {
  }

  lemma FirstUpdated(name: string, levels: seq<Value>, g: Value, rule: Rule, id: nat)
    requires levels != []
    ensures var after := UpdatedLevels(name, levels, g, rule)[0];
            && SameKind(levels[0], after)
            && (levels[0].Srm? ==> RowOf(after, id) == RowOf(levels[0], id) || (Applies(levels[0], g) && id in g.rows))
  {
  }

  lemma OverwriteIsAddressed(param: TensorMap, given: TensorMap, name: string, id: nat)
    ensures RowAt(Overwritten(param, given), name, id) == RowAt(param, name, id)
            || (Addressed(param, given, name) && id in given[name].rows)
  {
  }

  lemma KindsStay(t: Trained, grad: TensorMap, freqs: Freqs, threshold: nat, rule: Rule, given: TensorMap)
    ensures var after := Updated(t, FilteredGrad(freqs, threshold, grad), rule).param;
            && after.Keys == t.param.Keys
            && (forall name :: name in t.param ==> SameKind(t.param[name], after[name]))
            && Overwritten(after, given).Keys == t.param.Keys
            && (forall name :: name in t.param ==> SameKind(t.param[name], Overwritten(after, given)[name]))
  {
    hide LevelsOf, UpdatedLevels;
    var kept := FilteredGrad(freqs, threshold, grad);
    forall name | name in t.param && name in kept
      ensures LevelsOf(t, name) != []
      ensures SameKind(t.param[name], UpdatedLevels(name, LevelsOf(t, name), kept[name], rule)[0])
    {
      FirstOfLevels(t, name);
      FirstUpdated(name, LevelsOf(t, name), kept[name], rule, 0);
    }
  }

  lemma PushKeepsInv(s: Export, a: Action)
    requires Inv(s) && a.Push?
    ensures Inv(Next(s, a))
  {
    hide Updated, Overwritten, FilteredGrad, Marked;
    var t := Trained(s.param, s.slots);
    var updated := Updated(t, FilteredGrad(a.freqs, a.threshold, a.grad), a.rule).param;
    var marked := Marked(s.param, s.state, a.grad);
    var s' := Next(s, a);
    KindsStay(t, a.grad, a.freqs, a.threshold, a.rule, a.given);
    MarkedTracks(s.param, s.state, a.grad);
    MarkedTracks(updated, marked, a.given);
    forall name, id: nat | RowAt(s'.param, name, id).Some?
      ensures RowAt(s'.param, name, id) == RowAt(s'.prev, name, id) || Pending(s'.state, name, id)
              || (name, id) in s'.created
    {
      MarkedPending(s.param, s.state, a.grad, name, id);
      MarkedPending(updated, marked, a.given, name, id);
      UpdateIsAddressed(t, a.grad, a.freqs, a.threshold, a.rule, name, id);
      OverwriteIsAddressed(updated, a.given, name, id);
    }
  }

  lemma MarkedTracks(param: TensorMap, state: State, remote: TensorMap)
    requires forall name :: name in state ==> name in param && param[name].Srm?
    ensures forall name :: name in Marked(param, state, remote) ==> name in param && param[name].Srm?
  {
  }

  lemma PullKeepsInv(s: Export, a: Action)
    requires Inv(s) && a.Pull?
    ensures Inv(Next(s, a))
  {
  }

  lemma ExpireKeepsInv(s: Export, a: Action)
    requires Inv(s) && a.Expire?
    ensures Inv(Next(s, a))
  {
  }

  lemma CollectKeepsInv(s: Export, a: Action)
    requires Inv(s) && a.Collect?
    ensures Inv(Next(s, a))
  {
    hide LeftPending, NewBaseline, RowAt, Pending;
    var s' := Next(s, a);
    CollectKeepsTracked(a.th, s.param, s.prev, s.state);
    forall name, id: nat | RowAt(s.param, name, id).Some?
      ensures RowAt(s'.param, name, id) == RowAt(s'.prev, name, id) || Pending(s'.state, name, id)
              || (name, id) in s'.created
    {
      CollectedRow(a.th, s.param, s.prev, s.state, name, id);
    }
  }

  lemma CollectKeepsTracked(th: Thresholds, param: TensorMap, prev: TensorMap, state: State)
    requires Tracked(param, prev, state)
    ensures Tracked(param, NewBaseline(th, param, prev, state), LeftPending(th, param, prev, state))
  {
    hide Collects;
  }

  /** A row that was not pending stays as it is in the baseline; one that was is taken over or
      stays pending. */
  lemma CollectedRow(th: Thresholds, param: TensorMap, prev: TensorMap, state: State, name: string, id: nat)
    requires Tracked(param, prev, state)
    ensures var prev', state' := NewBaseline(th, param, prev, state), LeftPending(th, param, prev, state);
            if !Pending(state, name, id) then RowAt(prev', name, id) == RowAt(prev, name, id)
            else Pending(state', name, id) || RowAt(prev', name, id) == RowAt(param, name, id)
  {
  }

  lemma StepKeepsInv(s: Export, a: Action)
    requires Inv(s)
    ensures Inv(Next(s, a))
  {
    hide Inv, Next;
    match a
    case Push(_, _, _, _, _) => PushKeepsInv(s, a);
    case Pull(_, _) => PullKeepsInv(s, a);
    case Expire(_) => ExpireKeepsInv(s, a);
    case Collect(_) => CollectKeepsInv(s, a);
  }

  function After(s: Export, run: seq<Action>): Export
    decreases |run|
  {
    if run == [] then s else After(Next(s, run[0]), run[1..])
  }

  lemma {:induction false} RunKeepsInv(s: Export, run: seq<Action>)
    requires Inv(s)
    ensures Inv(After(s, run))
    decreases |run|
  {
    if run != [] {
      StepKeepsInv(s, run[0]);
      RunKeepsInv(Next(s, run[0]), run[1..]);
    }
  }

  /** The push gives the row a gradient or a new value. */
  predicate Pushes(param: TensorMap, a: Action, name: string, id: nat) {
    a.Push? && name in param && param[name].Srm?
    && (|| (name in a.grad && a.grad[name].Srm? && id in a.grad[name].rows)
        || (name in a.given && a.given[name].Srm? && id in a.given[name].rows))
  }

  /** A training pull of the run found the row missing, and no push after it was for the row. */
  ghost predicate MadeUp(s: Export, run: seq<Action>, name: string, id: nat) {
    exists i :: 0 <= i < |run| && Asks(After(s, run[..i]).param, run[i], name, id) && NotPushed(s, run, i, name, id)
  }

  ghost predicate Asks(param: TensorMap, a: Action, name: string, id: nat) {
    && a.Pull? && a.req.isTrain && name in a.req.srmMap && id in a.req.srmMap[name]
    && !(name in param && param[name].Srm? && id in param[name].rows)
  }

  ghost predicate NotPushed(s: Export, run: seq<Action>, from: int, name: string, id: nat) {
    forall j :: 0 <= j < |run| && from < j ==> !Pushes(After(s, run[..j]).param, run[j], name, id)
  }

  lemma {:induction false} AfterLast(s: Export, run: seq<Action>)
    requires run != []
    ensures After(s, run) == Next(After(s, run[..|run| - 1]), run[|run| - 1])
    decreases |run|
  {
    hide Next;
    if |run| > 1 {
      AfterLast(Next(s, run[0]), run[1..]);
      assert run[1..][..|run| - 2] == run[..|run| - 1][1..];
    }
  }

  lemma CreatedNext(s: Export, a: Action, name: string, id: nat)
    ensures (name, id) in Next(s, a).created
            <==> Asks(s.param, a, name, id) || ((name, id) in s.created && !Pushes(s.param, a, name, id))
  {
  }

  lemma {:induction false} CreatedIsMadeUp(s: Export, run: seq<Action>, name: string, id: nat)
    ensures (name, id) in After(s, run).created
            <==> MadeUp(s, run, name, id) || ((name, id) in s.created && NotPushed(s, run, -1, name, id))
    decreases |run|
  {
    hide Next, Asks, Pushes;
    if run != [] {
      var init, a := run[..|run| - 1], run[|run| - 1];
      assert run == init + [a];
      AfterLast(s, run);
      CreatedIsMadeUp(s, init, name, id);
      CreatedNext(After(s, init), a, name, id);
      NotPushedLast(s, run, -1, name, id);
      MadeUpLast(s, run, name, id);
    }
  }

  lemma NotPushedLast(s: Export, run: seq<Action>, from: int, name: string, id: nat)
    requires run != [] && from < |run| - 1
    ensures var init, a := run[..|run| - 1], run[|run| - 1];
            NotPushed(s, run, from, name, id)
            <==> NotPushed(s, init, from, name, id) && !Pushes(After(s, init).param, a, name, id)
  {
    hide Next, Pushes, After;
    var init := run[..|run| - 1];
    forall j | 0 <= j < |init|
      ensures run[..j] == init[..j]
    {
    }
    if NotPushed(s, run, from, name, id) {
      forall j | 0 <= j < |init| && from < j
        ensures !Pushes(After(s, init[..j]).param, init[j], name, id)
      {
        assert !Pushes(After(s, run[..j]).param, run[j], name, id);
      }
    }
  }

  lemma MadeUpLast(s: Export, run: seq<Action>, name: string, id: nat)
    requires run != []
    ensures var init, a := run[..|run| - 1], run[|run| - 1];
            MadeUp(s, run, name, id)
            <==> Asks(After(s, init).param, a, name, id)
                 || (MadeUp(s, init, name, id) && !Pushes(After(s, init).param, a, name, id))
  {
    hide Next, Pushes, Asks, After, NotPushed;
    var init, last := run[..|run| - 1], |run| - 1;
    assert NotPushed(s, run, last, name, id) by { NothingBehind(s, run, name, id); }
    if MadeUp(s, run, name, id) && !Asks(After(s, init).param, run[last], name, id) {
      var i :| 0 <= i < |run| && Asks(After(s, run[..i]).param, run[i], name, id) && NotPushed(s, run, i, name, id);
      assert run[..last] == init && i < last && run[..i] == init[..i];
      NotPushedLast(s, run, i, name, id);
    }
    if MadeUp(s, init, name, id) && !Pushes(After(s, init).param, run[last], name, id) {
      var i :| 0 <= i < |init| && Asks(After(s, init[..i]).param, init[i], name, id) && NotPushed(s, init, i, name, id);
      assert run[..i] == init[..i];
      NotPushedLast(s, run, i, name, id);
    }
  }

  lemma NothingBehind(s: Export, run: seq<Action>, name: string, id: nat)
    ensures NotPushed(s, run, |run| - 1, name, id)
  {
  }

  /** From initialisation on, whatever is pushed, pulled, expired and collected: a row that
      differs from its baseline is pending, or was made up by a pull and not pushed since. */
  lemma ChangedIsPending(param: TensorMap, slots: Slots, run: seq<Action>, name: string, id: nat)
    ensures var start := Export(param, slots, param, map[], {}, {});
            var s := After(start, run);
            RowAt(s.param, name, id).Some? && RowAt(s.param, name, id) != RowAt(s.prev, name, id) ==>
              Pending(s.state, name, id) || MadeUp(start, run, name, id)
  {
    var start := Export(param, slots, param, map[], {}, {});
    RunKeepsInv(start, run);
    CreatedIsMadeUp(start, run, name, id);
  }

  /** The pending rows are the ones that a push has addressed since they last moved into the
      baseline, whether or not their values changed. */
  ghost predicate TouchedPending(s: Export) {
    forall name, id: nat :: (name, id) in s.touched <==> Pending(s.state, name, id)
  }

  lemma StepKeepsTouched(s: Export, a: Action)
    requires TouchedPending(s)
    ensures TouchedPending(Next(s, a))
  {
    var s' := Next(s, a);
    forall name, id: nat
      ensures (name, id) in s'.touched <==> Pending(s'.state, name, id)
    {
      if a.Push? {
        PushTouches(s, a, name, id);
      }
    }
  }

  lemma PushTouches(s: Export, a: Action, name: string, id: nat)
    requires TouchedPending(s) && a.Push?
    ensures (name, id) in Next(s, a).touched <==> Pending(Next(s, a).state, name, id)
  {
    hide Updated, Overwritten, FilteredGrad, Marked, Pending;
    var t := Trained(s.param, s.slots);
    var updated := Updated(t, FilteredGrad(a.freqs, a.threshold, a.grad), a.rule).param;
    var marked := Marked(s.param, s.state, a.grad);
    KindsStay(t, a.grad, a.freqs, a.threshold, a.rule, a.given);
    MarkedPending(s.param, s.state, a.grad, name, id);
    MarkedPending(updated, marked, a.given, name, id);
    assert Addressed(updated, a.given, name) <==> Addressed(s.param, a.given, name);
  }

  lemma {:induction false} RunKeepsTouched(s: Export, run: seq<Action>)
    requires TouchedPending(s)
    ensures TouchedPending(After(s, run))
    decreases |run|
  {
    hide TouchedPending, Next;
    if run != [] {
      StepKeepsTouched(s, run[0]);
      RunKeepsTouched(Next(s, run[0]), run[1..]);
    }
  }

  /** From initialisation on a row is pending exactly if a push has addressed it since it last
      moved into the baseline. */
  lemma PendingIsTouched(param: TensorMap, slots: Slots, run: seq<Action>, name: string, id: nat)
    ensures var s := After(Export(param, slots, param, map[], {}, {}), run);
            (name, id) in s.touched <==> Pending(s.state, name, id)
  {
    RunKeepsTouched(Export(param, slots, param, map[], {}, {}), run);
  }

  /** What a collection leaves pending and present is close to its baseline; what it takes is
      in the baseline. */
  lemma CollectedIsClose(s: Export, th: Thresholds, name: string, id: nat)
    requires Inv(s)
    ensures var s' := Next(s, Collect(th));
            && (Pending(s'.state, name, id) && RowAt(s.param, name, id).Some? ==>
                  && RowAt(s'.prev, name, id).Some?
                  && s'.state[name][id] <= th.update
                  && th.distanceOf(s.param[name].col, RowAt(s.param, name, id).value,
                                   RowAt(s'.prev, name, id).value) <= th.distance)
            && (Pending(s.state, name, id) && !Pending(s'.state, name, id) ==>
                  RowAt(s'.prev, name, id) == RowAt(s.param, name, id) && RowAt(s.param, name, id).Some?)
            && (!Pending(s.state, name, id) ==> RowAt(s'.prev, name, id) == RowAt(s.prev, name, id))
  {
    var collects := Collects(th, s.param, s.prev, s.state, name, id);
    assert Pending(Next(s, Collect(th)).state, name, id) <==> Pending(s.state, name, id) && !collects;
  }

  // ---------------------------------------------------------------------------------------
  // The store
  // ---------------------------------------------------------------------------------------

  class OLStore {
    var prev: TensorMap
    var state: State
    const th: Thresholds

    constructor (th: Thresholds)
      ensures prev == map[] && state == map[] && this.th == th
    {
      prev, state, this.th := map[], map[], th;
    }

    method InitParam(param: TensorMap)
      modifies this`prev
      ensures prev == param
    {
      prev := param;
    }

    /** Counts every row that the gradient or the new values address. */
    method Update(param: TensorMap, remote: TensorMap)
      modifies this`state
      ensures state == Marked(param, old(state), remote)
      ensures MarkedRight(param, old(state), remote, state)
    {
      MarkingIsRight(param, state, remote);
      hide MarkedRight;
      var names := remote.Keys;
      MarkedStart(param, state, remote);
      while names != {}
        invariant names <= remote.Keys
        invariant state == MarkedExcept(param, old(state), remote, names)
        decreases |names|
      {
        var name :| name in names;
        MarkedMore(param, old(state), remote, names, name);
        if name in param && param[name].Srm? && remote[name].Srm? {
          var counts := CountRows(CountsOf(state, name), remote[name].rows);
          state := state[name := counts];
        }
        names := names - {name};
      }
      MarkedEnd(param, old(state), remote);
    }

    /** Moves the rows that are due into the baseline and returns their ids. */
    method Collect(param: TensorMap) returns (ids: set<nat>)
      requires Tracked(param, prev, state)
      modifies this
      ensures state == LeftPending(th, param, old(prev), old(state))
      ensures prev == NewBaseline(th, param, old(prev), old(state))
      ensures forall id: nat :: id in ids <==>
                exists name :: name in old(state) && Collects(th, param, old(prev), old(state), name, id)
      ensures CollectedRight(th, param, old(prev), old(state), prev, state, ids)
    {
      hide CollectedRight;
      hide LeftExcept, BaselineExcept, DueOfAll, LeftPending, NewBaseline, Tracked, Collects;
      var names := state.Keys;
      ghost var first, all := prev, state;
      CollectStart(th, param, prev, state);
      ids := {};
      while names != {}
        invariant names <= all.Keys
        invariant Collecting(param, first, all, names, ids)
        decreases |names|
      {
        var name :| name in names;
        ids := CollectOne(param, first, all, names, name, ids);
        names := names - {name};
      }
      CollectEnd(th, param, first, all);
      CollectedIds(th, param, first, all, ids);
      CollectionIsRight(th, param, first, all, ids);
    }

    /** The state of a collection with some names still to come. */
    ghost predicate Collecting(param: TensorMap, first: TensorMap, all: State, names: set<string>, ids: set<nat>)
      reads this
    {
      && state == LeftExcept(th, param, first, all, names)
      && prev == BaselineExcept(th, param, first, all, names)
      && ids == DueOfAll(th, param, first, all, all.Keys - names)
    }

    method CollectOne(param: TensorMap, ghost first: TensorMap, ghost all: State, ghost names: set<string>,
                      name: string, ids: set<nat>) returns (ids': set<nat>)
      requires Tracked(param, first, all) && name in names && name in all
      requires Collecting(param, first, all, names, ids)
      modifies this
      ensures Collecting(param, first, all, names - {name}, ids')
    {
      hide LeftExcept, BaselineExcept, DueOfAll, DueOf, Tracked;
      CollectMore(th, param, first, all, names, name);
      var due := DueIds(param, prev, state, name);
      DueSame(th, param, first, all, prev, state, name);
      var counts, rows := state[name], param[name].rows;
      state := state[name := map id | id in counts && id !in due :: counts[id]];
      prev := prev[name := Srm(prev[name].col, prev[name].rows + map id | id in due :: rows[id])];
      ids' := ids + due;
      DueOfOneMore(th, param, first, all, names, name);
    }

    /** The ids of one matrix that are due. */
    method DueIds(param: TensorMap, first: TensorMap, all: State, name: string) returns (due: set<nat>)
      requires name in all && name in param && param[name].Srm? && name in first && first[name].Srm?
      ensures due == DueOf(th, param, first, all, name)
      ensures forall id :: id in due ==> id in param[name].rows
    {
      due := {};
      var left := all[name].Keys;
      while left != {}
        invariant left <= all[name].Keys
        invariant due == DueOf(th, param, first, all, name) - left
        decreases |left|
      {
        var id :| id in left;
        if Due(th, all[name][id], param[name].col, Lookup(param[name].rows, id), Lookup(first[name].rows, id)) {
          due := due + {id};
        }
        left := left - {id};
      }
    }
  }

  method CountRows(counts: map<nat, nat>, rows: map<nat, Row>) returns (after: map<nat, nat>)
    ensures after == CountUp(counts, rows)
  {
    hide CountUp, CountExcept;
    after := counts;
    var left := rows.Keys;
    CountEnds(counts, rows);
    while left != {}
      invariant left <= rows.Keys
      invariant after == CountExcept(counts, rows, left)
      decreases |left|
    {
      var id :| id in left;
      CountMore(counts, rows, left, id);
      after := after[id := ((if id in after then after[id] else 0) + 1) % FREQ_VALUES];
      left := left - {id};
    }
  }

  function CountExcept(counts: map<nat, nat>, rows: map<nat, Row>, left: set<nat>): map<nat, nat> {
    CountUp(counts, map id | id in rows && id !in left :: rows[id])
  }

  lemma CountEnds(counts: map<nat, nat>, rows: map<nat, Row>)
    ensures CountExcept(counts, rows, rows.Keys) == counts
    ensures CountExcept(counts, rows, {}) == CountUp(counts, rows)
  {
    assert (map id | id in rows && id !in {} :: rows[id]) == rows;
  }

  lemma CountMore(counts: map<nat, nat>, rows: map<nat, Row>, left: set<nat>, id: nat)
    requires id in left && id in rows
    ensures var before := CountExcept(counts, rows, left);
            CountExcept(counts, rows, left - {id})
            == before[id := ((if id in before then before[id] else 0) + 1) % FREQ_VALUES]
  {
  }

  function MarkedExcept(param: TensorMap, state: State, remote: TensorMap, names: set<string>): State {
    map name | name in state.Keys + remote.Keys
               && (name in state || (Addressed(param, remote, name) && name !in names)) ::
      if Addressed(param, remote, name) && name !in names then CountUp(CountsOf(state, name), remote[name].rows)
      else state[name]
  }

  lemma MarkedStart(param: TensorMap, state: State, remote: TensorMap)
    ensures MarkedExcept(param, state, remote, remote.Keys) == state
  {
  }

  lemma MarkedEnd(param: TensorMap, state: State, remote: TensorMap)
    ensures MarkedExcept(param, state, remote, {}) == Marked(param, state, remote)
  {
    hide CountUp;
  }

  lemma MarkedMore(param: TensorMap, state: State, remote: TensorMap, names: set<string>, name: string)
    requires name in names && name in remote
    ensures var before := MarkedExcept(param, state, remote, names);
            var after := MarkedExcept(param, state, remote, names - {name});
            && CountsOf(before, name) == CountsOf(state, name)
            && after == if Addressed(param, remote, name)
                        then before[name := CountUp(CountsOf(state, name), remote[name].rows)] else before
  {
    hide CountUp;
  }

  function DueOf(th: Thresholds, param: TensorMap, prev: TensorMap, state: State, name: string): set<nat>
    requires name in state
  {
    set id | id in state[name] && Collects(th, param, prev, state, name, id)
  }

  function LeftExcept(th: Thresholds, param: TensorMap, prev: TensorMap, state: State, names: set<string>): State {
    map name | name in state :: if name in names then state[name] else LeftPending(th, param, prev, state)[name]
  }

  function BaselineExcept(th: Thresholds, param: TensorMap, prev: TensorMap, state: State,
                          names: set<string>): TensorMap
  {
    map name | name in prev :: if name in names then prev[name] else NewBaseline(th, param, prev, state)[name]
  }

  lemma CollectStart(th: Thresholds, param: TensorMap, prev: TensorMap, state: State)
    ensures LeftExcept(th, param, prev, state, state.Keys) == state
    ensures BaselineExcept(th, param, prev, state, state.Keys) == prev
    ensures DueOfAll(th, param, prev, state, state.Keys - state.Keys) == {}
  {
  }

  lemma CollectEnd(th: Thresholds, param: TensorMap, prev: TensorMap, state: State)
    ensures LeftExcept(th, param, prev, state, {}) == LeftPending(th, param, prev, state)
    ensures BaselineExcept(th, param, prev, state, {}) == NewBaseline(th, param, prev, state)
  {
  }

  lemma CollectMore(th: Thresholds, param: TensorMap, prev: TensorMap, state: State, names: set<string>,
                    name: string)
    requires Tracked(param, prev, state) && name in names && name in state
    ensures name in param && param[name].Srm? && name in prev && prev[name].Srm?
    ensures var due := DueOf(th, param, prev, state, name);
            && name in LeftExcept(th, param, prev, state, names)
            && LeftExcept(th, param, prev, state, names)[name] == state[name]
            && name in BaselineExcept(th, param, prev, state, names)
            && (forall id :: id in due ==> id in param[name].rows)
            && LeftExcept(th, param, prev, state, names - {name})
               == LeftExcept(th, param, prev, state, names)[
                    name := map id | id in state[name] && id !in due :: state[name][id]]
            && BaselineExcept(th, param, prev, state, names)[name] == prev[name]
            && BaselineExcept(th, param, prev, state, names - {name})
               == BaselineExcept(th, param, prev, state, names)[
                    name := Srm(prev[name].col, prev[name].rows + map id | id in due :: param[name].rows[id])]
  {
    hide Collects, LeftPending, NewBaseline, DueOf;
    DueIsPresent(th, param, prev, state, name);
    LeftOfName(th, param, prev, state, name);
    BaselineOfName(th, param, prev, state, name);
  }

  lemma LeftOfName(th: Thresholds, param: TensorMap, prev: TensorMap, state: State, name: string)
    requires name in state
    ensures LeftPending(th, param, prev, state).Keys == state.Keys
    ensures var due := DueOf(th, param, prev, state, name);
            LeftPending(th, param, prev, state)[name] == map id | id in state[name] && id !in due :: state[name][id]
  {
    hide Collects;
  }

  lemma BaselineOfName(th: Thresholds, param: TensorMap, prev: TensorMap, state: State, name: string)
    requires name in state && name in param && param[name].Srm? && name in prev && prev[name].Srm?
    requires forall id :: id in DueOf(th, param, prev, state, name) ==> id in param[name].rows
    ensures NewBaseline(th, param, prev, state).Keys == prev.Keys
    ensures var due := DueOf(th, param, prev, state, name);
            NewBaseline(th, param, prev, state)[name]
            == Srm(prev[name].col, prev[name].rows + map id | id in due :: param[name].rows[id])
  {
    hide Collects;
    var due := DueOf(th, param, prev, state, name);
    assert (map id | id in state[name] && id in param[name].rows && Collects(th, param, prev, state, name, id) ::
              param[name].rows[id])
        == map id | id in due :: param[name].rows[id];
  }

  lemma DueIsPresent(th: Thresholds, param: TensorMap, prev: TensorMap, state: State, name: string)
    requires name in state && name in param && param[name].Srm?
    ensures forall id :: id in DueOf(th, param, prev, state, name) ==> id in param[name].rows
  {
  }

  function DueOfAll(th: Thresholds, param: TensorMap, prev: TensorMap, state: State, names: set<string>): set<nat> {
    set name, id | name in names && name in state && id in state[name]
                   && Collects(th, param, prev, state, name, id) :: id
  }

  lemma DueOfOneMore(th: Thresholds, param: TensorMap, prev: TensorMap, state: State, names: set<string>,
                     name: string)
    requires name in names && name in state
    ensures DueOfAll(th, param, prev, state, state.Keys - (names - {name}))
         == DueOfAll(th, param, prev, state, state.Keys - names) + DueOf(th, param, prev, state, name)
  {
    hide Collects;
  }

  lemma CollectedIds(th: Thresholds, param: TensorMap, prev: TensorMap, state: State, ids: set<nat>)
    requires ids == DueOfAll(th, param, prev, state, state.Keys - {})
    ensures forall id: nat :: id in ids <==>
              exists name :: name in state && Collects(th, param, prev, state, name, id)
  {
  }

  /** The names done do not change what is due of the others. */
  lemma DueSame(th: Thresholds, param: TensorMap, first: TensorMap, all: State, prev: TensorMap, state: State,
                name: string)
    requires name in all && name in state && state[name] == all[name]
    requires name in first && name in prev && prev[name] == first[name]
    ensures DueOf(th, param, prev, state, name) == DueOf(th, param, first, all, name)
  {
  }
}