// Applying gradients (src/graph/optimizer/optimizer_impl.cc): an optimizer keeps slots beside
// every parameter - tensors of its shape, matrices of its width - and an arbitrary rule writes
// the parameter and its slots in place, a dense tensor as a whole, of a matrix the rows that
// have gradients.
module Optimizers {
  import opened Basics
  import opened Maps
  import opened TensorMaps
  import opened Models

  type Slots = map<string, seq<Value>>

  /** A model with what its optimizer has learned about it. */
  datatype Trained = Trained(param: TensorMap, slots: Slots)

  /** The new elements of a parameter and its slots, from its name, whether it is dense, the
      elements of the gradient and the old elements; a matrix may have no row yet. */
  datatype Rule = Rule(write: (string, bool, Row, seq<Option<Row>>) -> seq<Row>)

  /** Elements are written in place, so none are added or lost. */
  ghost predicate InPlace(rule: Rule) {
    forall name, dense, g, chunks: seq<Option<Row>> ::
      var r := rule.write(name, dense, g, chunks);
      && |r| == |chunks|
      && forall k :: 0 <= k < |chunks| && chunks[k].Some? ==> |r[k]| == |chunks[k].value|
  }

  /** The rule by the number of batches that the optimizer has counted before. */
  type Schedule = nat -> Rule

  ghost predicate AllInPlace(schedule: Schedule) {
    forall n: nat :: InPlace(schedule(n))
  }

  /** The rule does not depend on the count. */
  ghost predicate Steady(schedule: Schedule) {
    forall m: nat, n: nat :: schedule(m) == schedule(n)
  }

  function Written(rule: Rule, name: string, dense: bool, g: Row, chunks: seq<Option<Row>>, k: nat): Row {
    var r := rule.write(name, dense, g, chunks);
    if k < |r| then r[k] else []
  }

  function Lookup(rows: map<nat, Row>, id: nat): Option<Row> {
    if id in rows then Some(rows[id]) else None
  }

  // ---------------------------------------------------------------------------------------
  // One parameter, the first of the levels, and its slots, the others
  // ---------------------------------------------------------------------------------------

  function DataOf(v: Value): Option<Row> {
    if v.Tsr? then Some(v.data) else None
  }

  /** The elements of row id of a dense tensor with n columns. */
  function SliceOf(v: Value, id: nat, n: nat): Option<Row> {
    if v.Tsr? && id * n + n <= |v.data| then Some(v.data[id * n..id * n + n]) else None
  }

  function RowOf(v: Value, id: nat): Option<Row> {
    if v.Srm? then Lookup(v.rows, id) else None
  }

  function AllData(levels: seq<Value>): seq<Option<Row>> {
    seq(|levels|, k requires 0 <= k < |levels| => DataOf(levels[k]))
  }

  function AllSlices(levels: seq<Value>, id: nat, n: nat): seq<Option<Row>> {
    seq(|levels|, k requires 0 <= k < |levels| => SliceOf(levels[k], id, n))
  }

  function AllRows(levels: seq<Value>, id: nat): seq<Option<Row>> {
    seq(|levels|, k requires 0 <= k < |levels| => RowOf(levels[k], id))
  }

  /** A dense gradient: all elements. */
  function WholeUpdated(name: string, levels: seq<Value>, g: Row, rule: Rule, k: nat): Value
    requires k < |levels|
  {
    if levels[k].Srm? then levels[k]
    else levels[k].(data := Written(rule, name, true, g, AllData(levels), k))
  }

  /** Element j of a dense tensor that has gradients for some of its rows of n elements. */
  function ElementUpdated(name: string, levels: seq<Value>, n: nat, grads: map<nat, Row>, rule: Rule, k: nat,
                          j: nat): real
    requires k < |levels| && levels[k].Tsr? && j < |levels[k].data|
  {
    if n == 0 || j / n !in grads then levels[k].data[j]
    else
      var row := Written(rule, name, true, grads[j / n], AllSlices(levels, j / n, n), k);
      if j % n < |row| then row[j % n] else levels[k].data[j]
  }

  function SlicesUpdated(name: string, levels: seq<Value>, n: nat, grads: map<nat, Row>, rule: Rule, k: nat): Value
    requires k < |levels|
  {
    if levels[k].Srm? then levels[k]
    else
      levels[k].(data := seq(|levels[k].data|, j requires 0 <= j < |levels[k].data| =>
                               ElementUpdated(name, levels, n, grads, rule, k, j)))
  }

  /** The rows of a matrix that have gradients; those that are missing are added. */
  function RowsUpdated(name: string, levels: seq<Value>, grads: map<nat, Row>, rule: Rule, k: nat): Value
    requires k < |levels|
  {
    if levels[k].Tsr? then levels[k]
    else
      levels[k].(rows := levels[k].rows
                         + map id | id in grads ::
                             Written(rule, name, false, grads[id], AllRows(levels, id), k))
  }

  function Dim1(shape: seq<nat>): nat {
    if |shape| < 2 then 0 else shape[1]
  }

  /** Whether a gradient fits: a dense one of another shape, one with rows of another width and
      a dense one for a matrix are passed over. */
  predicate Applies(w: Value, g: Value) {
    match w
    case Tsr(shape, _) => if g.Tsr? then g.shape == shape else Dim1(shape) == g.col
    case Srm(col, _) => g.Srm? && g.col == col
  }

  function UpdatedLevel(name: string, levels: seq<Value>, g: Value, rule: Rule, k: nat): Value
    requires k < |levels|
  {
    if !Applies(levels[0], g) then levels[k]
    else if g.Tsr? then WholeUpdated(name, levels, g.data, rule, k)
    else if levels[0].Tsr? then SlicesUpdated(name, levels, g.col, g.rows, rule, k)
    else RowsUpdated(name, levels, g.rows, rule, k)
  }

  function UpdatedLevels(name: string, levels: seq<Value>, g: Value, rule: Rule): (r: seq<Value>)
    ensures |r| == |levels|
  {
    seq(|levels|, k requires 0 <= k < |levels| => UpdatedLevel(name, levels, g, rule, k))
  }

  // ---------------------------------------------------------------------------------------
  // All parameters
  // ---------------------------------------------------------------------------------------

  function LevelsOf(t: Trained, name: string): seq<Value>
    requires name in t.param
  {
    [t.param[name]] + if name in t.slots then t.slots[name] else []
  }

  /** The parameters and slots after the update of those that have gradients. */
  function Updated(t: Trained, grad: TensorMap, rule: Rule): Trained {
    Trained(
      map name | name in t.param ::
        if name in grad then UpdatedLevels(name, LevelsOf(t, name), grad[name], rule)[0] else t.param[name],
      map name | name in t.slots ::
        if name in t.param && name in grad then UpdatedLevels(name, LevelsOf(t, name), grad[name], rule)[1..]
        else t.slots[name])
  }

  /** A slot has the form of its parameter. */
  predicate SlotFits(w: Value, v: Value) {
    && SameKind(w, v)
    && (w.Tsr? ==> v.shape == w.shape && |v.data| == |w.data|)
    && (w.Srm? ==> v.col == w.col)
  }

  ghost predicate Slotted(t: Trained) {
    && ConsistentTsr(t.param)
    && t.slots.Keys == t.param.Keys
    && forall name, v :: name in t.slots && v in t.slots[name] ==> SlotFits(t.param[name], v)
  }

  ghost predicate LevelsFit(levels: seq<Value>) {
    levels != [] && forall k :: 0 <= k < |levels| ==> SlotFits(levels[0], levels[k])
  }

  lemma LevelsOfSlotted(t: Trained, name: string)
    requires Slotted(t) && name in t.param
    ensures LevelsFit(LevelsOf(t, name))
  {
    var levels := LevelsOf(t, name);
    forall k | 1 <= k < |levels|
      ensures SlotFits(levels[0], levels[k])
    {
      assert levels[k] == t.slots[name][k - 1];
    }
  }

  /** No update changes the form of a parameter or a slot. */
  lemma LevelKeepsForm(name: string, levels: seq<Value>, g: Value, rule: Rule, k: nat)
    requires InPlace(rule) && k < |levels|
    ensures SlotFits(levels[k], UpdatedLevel(name, levels, g, rule, k))
  {
    var chunks := AllData(levels);
    assert levels[k].Tsr? ==> chunks[k] == Some(levels[k].data);
  }

  lemma UpdateKeepsSlotted(t: Trained, grad: TensorMap, rule: Rule)
    requires Slotted(t) && InPlace(rule)
    ensures Slotted(Updated(t, grad, rule))
  {
    hide UpdatedLevel, InPlace;
    var t' := Updated(t, grad, rule);
    forall name | name in t.param && name in grad
      ensures SlotFits(t.param[name], t'.param[name])
      ensures forall v :: v in t'.slots[name] ==> SlotFits(t.param[name], v)
    {
      var levels := LevelsOf(t, name);
      LevelsOfSlotted(t, name);
      forall k: nat | k < |levels|
        ensures SlotFits(levels[k], UpdatedLevels(name, levels, grad[name], rule)[k])
      {
        LevelKeepsForm(name, levels, grad[name], rule, k);
      }
    }
  }

  /** A gradient without elements changes nothing. */
  lemma EmptyGradient(name: string, levels: seq<Value>, g: Value, rule: Rule)
    requires InPlace(rule) && LevelsFit(levels) && IsEmpty(g)
    requires levels[0].Tsr? && levels[0].shape == [] ==> levels[0].data == []
    ensures UpdatedLevels(name, levels, g, rule) == levels
  {
    forall k: nat | k < |levels|
      ensures UpdatedLevel(name, levels, g, rule, k) == levels[k]
    {
      assert SlotFits(levels[0], levels[k]);
      LevelKeepsForm(name, levels, g, rule, k);
    }
  }

  // ---------------------------------------------------------------------------------------
  // What an update owes: at every level the k-th result of the rule, given the old elements of
  // all levels, and nothing without a gradient
  // ---------------------------------------------------------------------------------------

  /** All levels have the form of the parameter, before and after. */
  ghost predicate AllFit(levels: seq<Value>, after: seq<Value>) {
    && LevelsFit(levels) && |after| == |levels|
    && forall k :: 0 <= k < |after| ==> SlotFits(levels[0], after[k])
  }

  ghost predicate WholeWritten(name: string, levels: seq<Value>, g: Row, rule: Rule, after: seq<Value>)
    requires InPlace(rule) && AllFit(levels, after) && levels[0].Tsr?
  {
    forall chunks: seq<Option<Row>> ::
      |chunks| == |levels| && (forall j :: 0 <= j < |levels| ==> chunks[j] == Some(levels[j].data)) ==>
        forall k :: 0 <= k < |levels| ==> after[k] == Tsr(levels[k].shape, rule.write(name, true, g, chunks)[k])
  }

  /** The n elements from a place on, a row, have a gradient. */
  ghost predicate SliceWritten(name: string, levels: seq<Value>, from: nat, n: nat, g: Row, rule: Rule,
                               after: seq<Value>)
    requires InPlace(rule) && AllFit(levels, after) && levels[0].Tsr?
    requires from + n <= |levels[0].data|
  {
    forall chunks: seq<Option<Row>> ::
      |chunks| == |levels| && (forall j :: 0 <= j < |levels| ==> chunks[j] == Some(levels[j].data[from..from + n])) ==>
        forall k :: 0 <= k < |levels| ==> after[k].data[from..from + n] == rule.write(name, true, g, chunks)[k]
  }

  ghost predicate SlicesWritten(name: string, levels: seq<Value>, n: nat, grads: map<nat, Row>, rule: Rule,
                                after: seq<Value>)
    requires InPlace(rule) && AllFit(levels, after) && levels[0].Tsr?
  {
    && (forall k, i {:trigger after[k].data[i]} :: 0 <= k < |levels| && 0 <= i < |levels[k].data|
                                                   && (n == 0 || i / n !in grads) ==>
          after[k].data[i] == levels[k].data[i])
    && (forall id :: id in grads && n > 0 && id * n + n <= |levels[0].data| ==>
          SliceWritten(name, levels, id * n, n, grads[id], rule, after))
  }

  /** Row id of a matrix has a gradient. */
  ghost predicate RowWritten(name: string, levels: seq<Value>, id: nat, g: Row, rule: Rule, after: seq<Value>)
    requires InPlace(rule) && AllFit(levels, after) && levels[0].Srm?
    requires forall k :: 0 <= k < |levels| ==> id in after[k].rows
  {
    forall chunks: seq<Option<Row>> ::
      |chunks| == |levels|
      && (forall j :: 0 <= j < |levels| ==>
            chunks[j] == if id in levels[j].rows then Some(levels[j].rows[id]) else None) ==>
        forall k :: 0 <= k < |levels| ==> after[k].rows[id] == rule.write(name, false, g, chunks)[k]
  }

  ghost predicate RowsWritten(name: string, levels: seq<Value>, grads: map<nat, Row>, rule: Rule,
                              after: seq<Value>)
    requires InPlace(rule) && AllFit(levels, after) && levels[0].Srm?
  {
    && (forall k :: 0 <= k < |levels| ==> after[k].rows.Keys == levels[k].rows.Keys + grads.Keys)
    && (forall k, id :: 0 <= k < |levels| && id in levels[k].rows && id !in grads ==>
          after[k].rows[id] == levels[k].rows[id])
    && (forall id :: id in grads ==> RowWritten(name, levels, id, grads[id], rule, after))
  }

  /** A gradient of another shape or width is passed over, and a dense one for a matrix. */
  ghost predicate LevelsWritten(name: string, levels: seq<Value>, g: Value, rule: Rule, after: seq<Value>)
    requires InPlace(rule) && LevelsFit(levels)
  {
    && AllFit(levels, after)
    && match (levels[0], g)
       case (Tsr(shape, _), Tsr(gshape, data)) =>
         if gshape == shape then WholeWritten(name, levels, data, rule, after) else after == levels
       case (Tsr(shape, _), Srm(col, rows)) =>
         if |shape| >= 2 && shape[1] == col then SlicesWritten(name, levels, col, rows, rule, after)
         else after == levels
       case (Srm(_, _), Tsr(_, _)) => after == levels
       case (Srm(col, _), Srm(gcol, rows)) =>
         if gcol == col then RowsWritten(name, levels, rows, rule, after) else after == levels
  }

  ghost predicate Wrote(t: Trained, grad: TensorMap, rule: Rule, after: Trained)
    requires InPlace(rule) && Slotted(t)
  {
    && after.param.Keys == t.param.Keys && after.slots.Keys == t.slots.Keys
    && forall name :: name in t.param ==>
         var levels, levels' := [t.param[name]] + t.slots[name], [after.param[name]] + after.slots[name];
         LevelsFit(levels)
         && if name in grad then LevelsWritten(name, levels, grad[name], rule, levels') else levels' == levels
  }

  lemma WholeIsWritten(name: string, levels: seq<Value>, g: Row, rule: Rule, after: seq<Value>)
    requires InPlace(rule) && AllFit(levels, after) && levels[0].Tsr?
    requires forall k: nat :: k < |levels| ==> after[k] == WholeUpdated(name, levels, g, rule, k)
    ensures WholeWritten(name, levels, g, rule, after)
  {
    forall chunks: seq<Option<Row>>
      | |chunks| == |levels| && (forall j :: 0 <= j < |levels| ==> chunks[j] == Some(levels[j].data))
      ensures forall k :: 0 <= k < |levels| ==>
                after[k] == Tsr(levels[k].shape, rule.write(name, true, g, chunks)[k])
    {
      forall j | 0 <= j < |levels|
        ensures levels[j].Tsr?
      {
        assert SlotFits(levels[0], levels[j]);
      }
      assert chunks == AllData(levels);
    }
  }

  lemma SlicesAreWritten(name: string, levels: seq<Value>, n: nat, grads: map<nat, Row>, rule: Rule,
                         after: seq<Value>)
    requires InPlace(rule) && AllFit(levels, after) && levels[0].Tsr?
    requires forall k: nat :: k < |levels| ==> after[k] == SlicesUpdated(name, levels, n, grads, rule, k)
    ensures SlicesWritten(name, levels, n, grads, rule, after)
  {
    hide ElementUpdated, Written, InPlace;
    forall id | id in grads && n > 0 && id * n + n <= |levels[0].data|
      ensures SliceWritten(name, levels, id * n, n, grads[id], rule, after)
    {
      SliceIsWritten(name, levels, n, grads, id, rule, after);
    }
    forall k: nat, i: nat | k < |levels| && i < |levels[k].data| && (n == 0 || i / n !in grads)
      ensures after[k].data[i] == levels[k].data[i]
    {
      assert SlotFits(levels[0], levels[k]);
      ElementKept(name, levels, n, grads, rule, k, i);
    }
  }

  lemma ElementKept(name: string, levels: seq<Value>, n: nat, grads: map<nat, Row>, rule: Rule, k: nat, i: nat)
    requires k < |levels| && levels[k].Tsr? && i < |levels[k].data| && (n == 0 || i / n !in grads)
    ensures ElementUpdated(name, levels, n, grads, rule, k, i) == levels[k].data[i]
  {
  }

  lemma SliceIsWritten(name: string, levels: seq<Value>, n: nat, grads: map<nat, Row>, id: nat, rule: Rule,
                       after: seq<Value>)
    requires InPlace(rule) && AllFit(levels, after) && levels[0].Tsr?
    requires forall k: nat :: k < |levels| ==> after[k] == SlicesUpdated(name, levels, n, grads, rule, k)
    requires id in grads && n > 0 && id * n + n <= |levels[0].data|
    ensures SliceWritten(name, levels, id * n, n, grads[id], rule, after)
  {
    hide SlicesUpdated, AllSlices, Written, InPlace, SliceWritten;
    var slices := AllSlices(levels, id, n);
    SlicesOfAll(levels, id, n);
    forall k: nat | k < |levels|
      ensures after[k].data[id * n..id * n + n] == Written(rule, name, true, grads[id], slices, k)
    {
      assert SlotFits(levels[0], levels[k]);
      WrittenInPlace(name, true, grads[id], slices, rule, k);
      SliceOfLevel(name, levels, n, grads, id, rule, k);
    }
    AllOfSlice(name, levels, id * n, n, grads[id], rule, after, slices);
  }

  lemma SlicesOfAll(levels: seq<Value>, id: nat, n: nat)
    requires LevelsFit(levels) && levels[0].Tsr? && id * n + n <= |levels[0].data|
    ensures var slices := AllSlices(levels, id, n);
            && |slices| == |levels|
            && forall j :: 0 <= j < |levels| ==>
                 && SlotFits(levels[0], levels[j])
                 && slices[j] == Some(levels[j].data[id * n..id * n + n])
  {
  }

  lemma AllOfSlice(name: string, levels: seq<Value>, from: nat, n: nat, g: Row, rule: Rule, after: seq<Value>,
                   slices: seq<Option<Row>>)
    requires InPlace(rule) && AllFit(levels, after) && levels[0].Tsr? && from + n <= |levels[0].data|
    requires |slices| == |levels|
    requires forall j :: 0 <= j < |levels| ==> slices[j] == Some(levels[j].data[from..from + n])
    requires forall k: nat :: k < |levels| ==>
               after[k].data[from..from + n] == Written(rule, name, true, g, slices, k)
    ensures SliceWritten(name, levels, from, n, g, rule, after)
  {
    forall chunks: seq<Option<Row>>
      | && |chunks| == |levels|
        && (forall j :: 0 <= j < |levels| ==> chunks[j] == Some(levels[j].data[from..from + n]))
      ensures forall k :: 0 <= k < |levels| ==>
                after[k].data[from..from + n] == rule.write(name, true, g, chunks)[k]
    {
      assert chunks == slices;
    }
  }

  lemma SliceOfLevel(name: string, levels: seq<Value>, n: nat, grads: map<nat, Row>, id: nat, rule: Rule, k: nat)
    requires k < |levels| && levels[k].Tsr? && id in grads && n > 0 && id * n + n <= |levels[k].data|
    requires |Written(rule, name, true, grads[id], AllSlices(levels, id, n), k)| == n
    ensures var after := SlicesUpdated(name, levels, n, grads, rule, k);
            && after.Tsr? && id * n + n <= |after.data|
            && after.data[id * n..id * n + n] == Written(rule, name, true, grads[id], AllSlices(levels, id, n), k)
  {
    hide ElementUpdated, Written, AllSlices;
    forall x: nat | x < n
      ensures ElementUpdated(name, levels, n, grads, rule, k, id * n + x)
           == Written(rule, name, true, grads[id], AllSlices(levels, id, n), k)[x]
    {
      ElementOfSlice(name, levels, n, grads, id, rule, k, x);
    }
  }

  lemma WrittenInPlace(name: string, dense: bool, g: Row, chunks: seq<Option<Row>>, rule: Rule, k: nat)
    requires InPlace(rule) && k < |chunks|
    ensures var r := rule.write(name, dense, g, chunks);
            k < |r| && Written(rule, name, dense, g, chunks, k) == r[k]
            && (chunks[k].Some? ==> |r[k]| == |chunks[k].value|)
  {
  }

  lemma ElementOfSlice(name: string, levels: seq<Value>, n: nat, grads: map<nat, Row>, id: nat, rule: Rule,
                       k: nat, x: nat)
    requires k < |levels| && levels[k].Tsr? && id in grads && x < n && id * n + x < |levels[k].data|
    requires x < |Written(rule, name, true, grads[id], AllSlices(levels, id, n), k)|
    ensures ElementUpdated(name, levels, n, grads, rule, k, id * n + x)
         == Written(rule, name, true, grads[id], AllSlices(levels, id, n), k)[x]
  {
    MultipleOf(id, n, x);
  }

  lemma RowsAreWritten(name: string, levels: seq<Value>, grads: map<nat, Row>, rule: Rule, after: seq<Value>)
    requires InPlace(rule) && AllFit(levels, after) && levels[0].Srm?
    requires forall k: nat :: k < |levels| ==> after[k] == RowsUpdated(name, levels, grads, rule, k)
    ensures RowsWritten(name, levels, grads, rule, after)
  {
    hide InPlace, RowWritten, Written, AllRows;
    forall k | 0 <= k < |levels|
      ensures levels[k].Srm? && after[k].rows.Keys == levels[k].rows.Keys + grads.Keys
      ensures forall id :: id in levels[k].rows && id !in grads ==> after[k].rows[id] == levels[k].rows[id]
    {
      assert SlotFits(levels[0], levels[k]);
      RowsOfLevel(name, levels, grads, rule, k);
    }
    forall id | id in grads
      ensures RowWritten(name, levels, id, grads[id], rule, after)
    {
      RowIsWritten(name, levels, grads, id, rule, after);
    }
  }

  lemma RowsOfLevel(name: string, levels: seq<Value>, grads: map<nat, Row>, rule: Rule, k: nat)
    requires k < |levels| && levels[k].Srm?
    ensures var after := RowsUpdated(name, levels, grads, rule, k);
            && after.Srm? && after.rows.Keys == levels[k].rows.Keys + grads.Keys
            && forall id :: id in levels[k].rows && id !in grads ==> after.rows[id] == levels[k].rows[id]
  {
    hide Written, AllRows;
  }

  lemma RowIsWritten(name: string, levels: seq<Value>, grads: map<nat, Row>, id: nat, rule: Rule,
                     after: seq<Value>)
    requires InPlace(rule) && AllFit(levels, after) && levels[0].Srm? && id in grads
    requires forall k: nat :: k < |levels| ==> levels[k].Srm? && after[k] == RowsUpdated(name, levels, grads, rule, k)
    requires forall k: nat :: k < |levels| ==> id in after[k].rows
    ensures RowWritten(name, levels, id, grads[id], rule, after)
  {
    forall chunks: seq<Option<Row>>
      | && |chunks| == |levels|
        && (forall j :: 0 <= j < |levels| ==>
              chunks[j] == if id in levels[j].rows then Some(levels[j].rows[id]) else None)
      ensures forall k :: 0 <= k < |levels| ==>
                after[k].rows[id] == rule.write(name, false, grads[id], chunks)[k]
    {
      assert chunks == AllRows(levels, id);
    }
  }

  lemma NoColumns(name: string, levels: seq<Value>, grads: map<nat, Row>, rule: Rule, after: seq<Value>)
    requires LevelsFit(levels) && levels[0].Tsr? && |after| == |levels|
    requires forall k: nat :: k < |levels| ==> after[k] == SlicesUpdated(name, levels, 0, grads, rule, k)
    ensures after == levels
  {
    forall k: nat | k < |levels|
      ensures after[k] == levels[k]
    {
      assert SlotFits(levels[0], levels[k]);
      assert after[k].data == levels[k].data;
    }
  }

  lemma LevelsAreWritten(name: string, levels: seq<Value>, g: Value, rule: Rule)
    requires InPlace(rule) && LevelsFit(levels)
    ensures LevelsWritten(name, levels, g, rule, UpdatedLevels(name, levels, g, rule))
  {
    hide InPlace, WholeWritten, SlicesWritten, RowsWritten, WholeUpdated, SlicesUpdated, RowsUpdated;
    var after := UpdatedLevels(name, levels, g, rule);
    forall k: nat | k < |levels|
      ensures SlotFits(levels[0], after[k])
    {
      assert SlotFits(levels[0], levels[k]);
      LevelKeepsForm(name, levels, g, rule, k);
    }
    if Applies(levels[0], g) {
      match (levels[0], g)
      case (Tsr(_, _), Tsr(_, data)) => WholeIsWritten(name, levels, data, rule, after);
      case (Tsr(shape, _), Srm(col, rows)) =>
        if |shape| >= 2 {
          SlicesAreWritten(name, levels, col, rows, rule, after);
        } else {
          NoColumns(name, levels, rows, rule, after);
        }
      case (Srm(_, _), _) => RowsAreWritten(name, levels, g.rows, rule, after);
    } else {
      assert after == levels;
    }
  }

  lemma UpdateWrites(t: Trained, grad: TensorMap, rule: Rule)
    requires InPlace(rule) && Slotted(t)
    ensures Wrote(t, grad, rule, Updated(t, grad, rule))
  {
    hide InPlace, LevelsFit, LevelsWritten, UpdatedLevels;
    var after := Updated(t, grad, rule);
    forall name | name in t.param
      ensures var levels := [t.param[name]] + t.slots[name];
              LevelsFit(levels)
              && if name in grad
                 then LevelsWritten(name, levels, grad[name], rule, [after.param[name]] + after.slots[name])
                 else [after.param[name]] + after.slots[name] == levels
    {
      LevelsOfSlotted(t, name);
      if name in grad {
        var levels' := UpdatedLevels(name, LevelsOf(t, name), grad[name], rule);
        LevelsAreWritten(name, LevelsOf(t, name), grad[name], rule);
        assert [levels'[0]] + levels'[1..] == levels';
      }
    }
  }

  /** The first batch of a parameter with one element and one slot: both are written. */
  lemma SlotIsWritten(rule: Rule, w: real, n: real)
    requires rule.write("W", true, [2.0], [Some([1.0]), Some([0.0])]) == [[w], [n]]
    ensures Updated(Trained(map["W" := Tsr([1], [1.0])], map["W" := [Tsr([1], [0.0])]]),
                    map["W" := Tsr([1], [2.0])], rule)
         == Trained(map["W" := Tsr([1], [w])], map["W" := [Tsr([1], [n])]])
  {
    var levels := [Tsr([1], [1.0]), Tsr([1], [0.0])];
    var t := Trained(map["W" := Tsr([1], [1.0])], map["W" := [Tsr([1], [0.0])]]);
    assert LevelsOf(t, "W") == levels;
    assert AllData(levels) == [Some([1.0]), Some([0.0])];
    assert UpdatedLevels("W", levels, Tsr([1], [2.0]), rule) == [Tsr([1], [w]), Tsr([1], [n])];
  }

  /** Nothing is left open by that. */
  lemma WrittenOnce(t: Trained, grad: TensorMap, rule: Rule, after: Trained)
    requires InPlace(rule) && Slotted(t) && Wrote(t, grad, rule, after)
    ensures after == Updated(t, grad, rule)
  {
    hide InPlace, LevelsFit, LevelsWritten, UpdatedLevels, ConsistentTsr;
    var same := Updated(t, grad, rule);
    UpdateWrites(t, grad, rule);
    forall name | name in t.param
      ensures after.param[name] == same.param[name] && after.slots[name] == same.slots[name]
    {
      var levels := [t.param[name]] + t.slots[name];
      var a, b := [after.param[name]] + after.slots[name], [same.param[name]] + same.slots[name];
      if name in grad {
        assert WholeRows(levels[0]) by { ProductOfColumns(t.param, name); }
        LevelsWrittenOnce(name, levels, grad[name], rule, a, b);
      }
      assert a == b && a[1..] == after.slots[name] && b[1..] == same.slots[name];
    }
  }

  /** A tensor with at least two dimensions consists of rows. */
  predicate WholeRows(v: Value) {
    v.Tsr? && |v.shape| >= 2 && v.shape[1] > 0 ==> |v.data| % v.shape[1] == 0
  }

  lemma ProductOfColumns(param: TensorMap, name: string)
    requires ConsistentTsr(param) && name in param
    ensures WholeRows(param[name])
  {
    var v := param[name];
    if v.Tsr? && |v.shape| >= 2 && v.shape[1] > 0 {
      var n, rest := v.shape[1], Product(v.shape[2..]);
      assert v.shape[1..][1..] == v.shape[2..];
      assert Product(v.shape) == v.shape[0] * (n * rest);
      assert v.shape[0] * (n * rest) == (v.shape[0] * rest) * n;
      MultipleOf(v.shape[0] * rest, n, 0);
    }
  }

  lemma WholeOnce(name: string, levels: seq<Value>, g: Row, rule: Rule, a: seq<Value>, b: seq<Value>)
    requires InPlace(rule) && levels != [] && levels[0].Tsr? && AllFit(levels, a) && AllFit(levels, b)
    requires WholeWritten(name, levels, g, rule, a) && WholeWritten(name, levels, g, rule, b)
    ensures a == b
  {
    forall j | 0 <= j < |levels|
      ensures levels[j].Tsr?
    {
      assert SlotFits(levels[0], levels[j]);
    }
    var chunks := AllData(levels);
    assert forall k :: 0 <= k < |levels| ==> a[k] == Tsr(levels[k].shape, rule.write(name, true, g, chunks)[k]);
  }

  lemma SlicesOnce(name: string, levels: seq<Value>, n: nat, grads: map<nat, Row>, rule: Rule, a: seq<Value>,
                   b: seq<Value>)
    requires InPlace(rule) && levels != [] && levels[0].Tsr? && AllFit(levels, a) && AllFit(levels, b)
    requires n > 0 ==> |levels[0].data| % n == 0
    requires SlicesWritten(name, levels, n, grads, rule, a) && SlicesWritten(name, levels, n, grads, rule, b)
    ensures a == b
  {
    hide InPlace, SliceWritten, SlicesWritten;
    forall k: nat | k < |levels|
      ensures a[k] == b[k]
    {
      assert SlotFits(levels[0], levels[k]);
      forall i: nat | i < |levels[0].data|
        ensures a[k].data[i] == b[k].data[i]
      {
        ElementOnce(name, levels, n, grads, rule, a, b, k, i);
      }
    }
  }

  lemma ElementOutside(name: string, levels: seq<Value>, n: nat, grads: map<nat, Row>, rule: Rule, a: seq<Value>,
                       k: nat, i: nat)
    requires InPlace(rule) && AllFit(levels, a) && levels[0].Tsr?
    requires SlicesWritten(name, levels, n, grads, rule, a)
    requires k < |levels| && i < |levels[0].data| && (n == 0 || i / n !in grads)
    ensures a[k].data[i] == levels[k].data[i]
  {
    hide InPlace, SliceWritten;
    assert SlotFits(levels[0], levels[k]) && SlotFits(levels[0], a[k]);
  }

  lemma ElementOnce(name: string, levels: seq<Value>, n: nat, grads: map<nat, Row>, rule: Rule, a: seq<Value>,
                    b: seq<Value>, k: nat, i: nat)
    requires InPlace(rule) && levels != [] && levels[0].Tsr? && AllFit(levels, a) && AllFit(levels, b)
    requires n > 0 ==> |levels[0].data| % n == 0
    requires SlicesWritten(name, levels, n, grads, rule, a) && SlicesWritten(name, levels, n, grads, rule, b)
    requires k < |levels| && i < |levels[0].data|
    ensures a[k].data[i] == b[k].data[i]
  {
    hide InPlace, SliceWritten;
    assert SlotFits(levels[0], levels[k]);
    if n > 0 && i / n in grads {
      RowInside(n, |levels[0].data|, i);
      SliceOnce(name, levels, i / n * n, n, grads[i / n], rule, a, b, k);
      InSlice(a[k].data, b[k].data, i / n * n, n, i);
    } else {
      ElementOutside(name, levels, n, grads, rule, a, k, i);
      ElementOutside(name, levels, n, grads, rule, b, k, i);
    }
  }

  lemma InSlice(a: Row, b: Row, from: nat, n: nat, i: nat)
    requires from <= i < from + n <= |a| && from + n <= |b| && a[from..from + n] == b[from..from + n]
    ensures a[i] == b[i]
  {
    assert a[from..from + n][i - from] == a[i] && b[from..from + n][i - from] == b[i];
  }

  lemma RowInside(n: nat, size: nat, i: nat)
    requires n > 0 && size % n == 0 && i < size
    ensures i / n * n + n <= size && i / n * n + i % n == i
  {
    var q, r := i / n, size / n;
    assert i == q * n + i % n && size == r * n;
    Distribute(r, q, n);
    NoLess(r - q - 1, n);
  }

  lemma Distribute(r: nat, q: nat, n: nat)
    ensures r * n - q * n - n == (r - q - 1) * n
  {
  }

  lemma NoLess(d: int, n: nat)
    requires n > 0 && d * n > 0 - n
    ensures d >= 0 && d * n >= 0
  {
    if d < 0 {
      AtLeast(d, n);
      AtLeast(-d, n);
    }
  }

  lemma SliceOnce(name: string, levels: seq<Value>, from: nat, n: nat, g: Row, rule: Rule, a: seq<Value>,
                  b: seq<Value>, k: nat)
    requires InPlace(rule) && levels != [] && levels[0].Tsr? && AllFit(levels, a) && AllFit(levels, b) && k < |levels|
    requires from + n <= |levels[0].data|
    requires SliceWritten(name, levels, from, n, g, rule, a) && SliceWritten(name, levels, from, n, g, rule, b)
    ensures a[k].Tsr? && b[k].Tsr? && from + n <= |a[k].data| && from + n <= |b[k].data|
    ensures a[k].data[from..from + n] == b[k].data[from..from + n]
  {
    forall j | 0 <= j < |levels|
      ensures levels[j].Tsr? && |levels[j].data| == |levels[0].data|
    {
      assert SlotFits(levels[0], levels[j]);
    }
    var chunks := seq(|levels|, j requires 0 <= j < |levels| => Some(levels[j].data[from..from + n]));
    assert a[k].data[from..from + n] == rule.write(name, true, g, chunks)[k];
  }

  lemma RowsOnce(name: string, levels: seq<Value>, grads: map<nat, Row>, rule: Rule, a: seq<Value>,
                 b: seq<Value>)
    requires InPlace(rule) && levels != [] && levels[0].Srm? && AllFit(levels, a) && AllFit(levels, b)
    requires RowsWritten(name, levels, grads, rule, a) && RowsWritten(name, levels, grads, rule, b)
    ensures a == b
  {
    hide InPlace, RowWritten;
    forall k: nat | k < |levels|
      ensures a[k] == b[k]
    {
      assert SlotFits(levels[0], levels[k]);
      forall id | id in a[k].rows
        ensures a[k].rows[id] == b[k].rows[id]
      {
        if id in grads {
          RowOnce(name, levels, id, grads[id], rule, a, b, k);
        }
      }
      assert a[k].rows == b[k].rows;
    }
  }

  lemma RowOnce(name: string, levels: seq<Value>, id: nat, g: Row, rule: Rule, a: seq<Value>, b: seq<Value>,
                k: nat)
    requires InPlace(rule) && levels != [] && levels[0].Srm? && AllFit(levels, a) && AllFit(levels, b) && k < |levels|
    requires forall k :: 0 <= k < |levels| ==> id in a[k].rows && id in b[k].rows
    requires RowWritten(name, levels, id, g, rule, a) && RowWritten(name, levels, id, g, rule, b)
    ensures a[k].rows[id] == b[k].rows[id]
  {
    forall j | 0 <= j < |levels|
      ensures levels[j].Srm?
    {
      assert SlotFits(levels[0], levels[j]);
    }
    var chunks := AllRows(levels, id);
    assert a[k].rows[id] == rule.write(name, false, g, chunks)[k];
  }

  lemma LevelsWrittenOnce(name: string, levels: seq<Value>, g: Value, rule: Rule, a: seq<Value>, b: seq<Value>)
    requires InPlace(rule) && LevelsFit(levels) && WholeRows(levels[0])
    requires LevelsWritten(name, levels, g, rule, a) && LevelsWritten(name, levels, g, rule, b)
    ensures a == b
  {
    hide InPlace, WholeWritten, SlicesWritten, RowsWritten;
    match (levels[0], g)
    case (Tsr(_, _), Tsr(_, data)) =>
      if a != levels || b != levels {
        WholeOnce(name, levels, data, rule, a, b);
      }
    case (Tsr(shape, _), Srm(col, rows)) =>
      if a != levels || b != levels {
        SlicesOnce(name, levels, col, rows, rule, a, b);
      }
    case (Srm(_, _), Tsr(_, _)) =>
    case (Srm(_, _), Srm(_, rows)) =>
      if a != levels || b != levels {
        RowsOnce(name, levels, rows, rule, a, b);
      }
  }

  // ---------------------------------------------------------------------------------------
  // The optimizer object
  // ---------------------------------------------------------------------------------------

  /** How many slots an optimizer keeps for a parameter of this form. */
  type SlotCount = Declared -> nat

  function FormOf(v: Value): Declared {
    match v
    case Tsr(shape, _) => DenseParam(shape)
    case Srm(col, _) => SparseParam(col)
  }

  /** A slot starts with zeros, or without rows. */
  function Zero(v: Value): Value {
    match v
    case Tsr(shape, data) => Tsr(shape, seq(|data|, j => 0.0))
    case Srm(col, _) => Srm(col, map[])
  }

  function Zeros(w: Value, count: SlotCount): seq<Value> {
    seq(count(FormOf(w)), k => Zero(w))
  }

  function InitialSlots(param: TensorMap, count: SlotCount): Slots {
    map name | name in param :: Zeros(param[name], count)
  }

  lemma InitialZeros(param: TensorMap, count: SlotCount)
    ensures var slots := InitialSlots(param, count);
            && slots.Keys == param.Keys
            && (forall name :: name in param ==> slots[name] == Zeros(param[name], count))
            && (ConsistentTsr(param) ==> Slotted(Trained(param, slots)))
  {
    if ConsistentTsr(param) {
      InitialSlotted(param, count);
    }
  }

  lemma InitialSlotted(param: TensorMap, count: SlotCount)
    requires ConsistentTsr(param)
    ensures Slotted(Trained(param, InitialSlots(param, count)))
  {
  }

  /** Merging takes over the shard's own dense slots, and its own rows as far as they are new. */
  function MergedLevels(local: seq<Value>, remote: seq<Value>, name: string, sh: Shard, i: nat): seq<Value> {
    if |local| != |remote| then local
    else seq(|local|, k requires 0 <= k < |local| => MergedValue(local[k], remote[k], name, sh, i))
  }

  function MergedSlots(slots: Slots, remote: Slots, sh: Shard, i: nat): Slots {
    map name | name in slots ::
      if name in remote then MergedLevels(slots[name], remote[name], name, sh, i) else slots[name]
  }

  class Optimizer {
    const model: Model
    var slots: Slots
    var batches: nat

    constructor (model: Model)
      ensures this.model == model && slots == map[] && batches == 0
    {
      this.model, slots, batches := model, map[], 0;
    }

    method InitParam(count: SlotCount)
      requires slots == map[]
      modifies this`slots
      ensures slots == InitialSlots(model.param, count)
      ensures ConsistentTsr(model.param) ==> Slotted(State())
    {
      hide Except, InitialSlots, Zeros, Slotted;
      ghost var all := InitialSlots(model.param, count);
      InitialZeros(model.param, count);
      ExceptAll(all);
      var left := model.param.Keys;
      while left != {}
        invariant left <= model.param.Keys && slots == Except(all, left)
        decreases |left|
      {
        var name :| name in left;
        ExceptLess(all, left, name);
        left := left - {name};
        slots := slots[name := Zeros(model.param[name], count)];
      }
      ExceptNone(all);
    }

    ghost function State(): Trained
      reads this, model
    {
      Trained(model.param, slots)
    }

    /** Counts the batch and updates every parameter that has a gradient. */
    method Update(grad: TensorMap, schedule: Schedule)
      requires slots.Keys == model.param.Keys
      modifies this, model
      ensures State() == Updated(old(State()), grad, schedule(old(batches)))
      ensures batches == old(batches) + 1
      ensures InPlace(schedule(old(batches))) && Slotted(old(State())) ==>
                Wrote(old(State()), grad, schedule(old(batches)), State())
    {
      hide InPlace, Slotted, Wrote;
      hide Updated, UpdatedLevels, LevelsOf;
      var rule := schedule(batches);
      batches := batches + 1;
      var names := model.param.Keys;
      ghost var before := State();
      UpdatedNone(before, grad, rule);
      while names != {}
        invariant names <= before.param.Keys
        invariant State() == UpdatedExcept(before, grad, rule, names)
        invariant batches == old(batches) + 1
        decreases |names|
      {
        var name :| name in names;
        UpdatedMore(before, grad, rule, names, name);
        if name in grad {
          UpdateParam(name, grad[name], rule);
        }
        names := names - {name};
      }
      UpdatedAll(before, grad, rule);
      if InPlace(rule) && Slotted(before) {
        UpdateWrites(before, grad, rule);
      }
    }

    method UpdateParam(name: string, g: Value, rule: Rule)
      requires name in model.param && name in slots
      modifies this`slots, model
      ensures var levels := UpdatedLevels(name, old(LevelsOf(State(), name)), g, rule);
              && model.param == old(model.param)[name := levels[0]]
              && slots == old(slots)[name := levels[1..]]
    {
      hide UpdatedLevels;
      var levels := UpdatedLevels(name, [model.param[name]] + slots[name], g, rule);
      model.param := model.param[name := levels[0]];
      slots := slots[name := levels[1..]];
    }

    method Merge(other: Optimizer, sh: Shard, i: nat)
      requires other != this
      modifies this`slots
      ensures slots == MergedSlots(old(slots), other.slots, sh, i)
    {
      hide MergedLevels;
      var names := other.slots.Keys;
      while names != {}
        invariant names <= other.slots.Keys && slots.Keys == old(slots).Keys
        invariant forall name :: name in slots ==>
                    slots[name] == if name in other.slots && name !in names
                                   then MergedLevels(old(slots)[name], other.slots[name], name, sh, i)
                                   else old(slots)[name]
        decreases |names|
      {
        var name :| name in names;
        names := names - {name};
        if name in slots {
          slots := slots[name := MergedLevels(slots[name], other.slots[name], name, sh, i)];
        }
      }
    }
  }

  /** The names still to come have their old values. */
  function UpdatedExcept(t: Trained, grad: TensorMap, rule: Rule, names: set<string>): Trained {
    Updated(t, Except(grad, names), rule)
  }

  lemma UpdatedNone(t: Trained, grad: TensorMap, rule: Rule)
    ensures UpdatedExcept(t, grad, rule, t.param.Keys) == t
  {
  }

  lemma UpdatedAll(t: Trained, grad: TensorMap, rule: Rule)
    ensures UpdatedExcept(t, grad, rule, {}) == Updated(t, grad, rule)
  {
    ExceptNone(grad);
  }

  lemma UpdatedMore(t: Trained, grad: TensorMap, rule: Rule, names: set<string>, name: string)
    requires name in names && name in t.param && name in t.slots
    ensures var now, next := UpdatedExcept(t, grad, rule, names), UpdatedExcept(t, grad, rule, names - {name});
            && name in now.param && name in now.slots
            && (name !in grad ==> next == now)
            && (name in grad ==>
                  var levels := UpdatedLevels(name, LevelsOf(now, name), grad[name], rule);
                  next == Trained(now.param[name := levels[0]], now.slots[name := levels[1..]]))
  {
    hide UpdatedLevels;
    var now, next := UpdatedExcept(t, grad, rule, names), UpdatedExcept(t, grad, rule, names - {name});
    assert LevelsOf(now, name) == LevelsOf(t, name);
    if name in grad {
      ExceptLess(grad, names, name);
    } else {
      assert Except(grad, names - {name}) == Except(grad, names);
    }
  }
}
