// Rules that count batches, on shards (src/graph/model_shard.cc, the optimizers' PreUpdate and
// PostUpdate): a shard counts a batch only if it gets some of its gradient, so its rule may be
// that of an earlier batch. When the shards agree with the model without shards all the same.
module BatchCounts {
  import opened Basics
  import opened TensorMaps
  import opened Models
  import opened ModelShards
  import opened Optimizers
  import opened Shardings

  // ---------------------------------------------------------------------------------------
  // Where the rule matters
  // ---------------------------------------------------------------------------------------

  /** The gradient has something for an element of the parameter. */
  predicate Touches(w: Value, g: Value) {
    && Applies(w, g)
    && match w
       case Tsr(_, data) => if g.Tsr? then data != [] else g.col > 0 && exists id :: id in g.rows && id * g.col < |data|
       case Srm(_, _) => g.rows != map[]
  }

  predicate TouchesAny(param: TensorMap, part: TensorMap) {
    exists name :: name in param && name in part && Touches(param[name], part[name])
  }

  /** What a shard gets of a gradient. */
  function PartOf(param: TensorMap, grad: TensorMap, sh: Shard, i: nat): TensorMap {
    RemoveEmptyValue(GradPlaced(param, grad, sh, i))
  }

  /** A gradient that touches nothing changes nothing, whatever the rule. */
  lemma UntouchedLevels(name: string, levels: seq<Value>, g: Value, rule: Rule)
    requires InPlace(rule) && LevelsFit(levels) && !Touches(levels[0], g)
    ensures UpdatedLevels(name, levels, g, rule) == levels
  {
    forall k: nat | k < |levels|
      ensures UpdatedLevel(name, levels, g, rule, k) == levels[k]
    {
      assert SlotFits(levels[0], levels[k]);
      LevelKeepsForm(name, levels, g, rule, k);
      if levels[0].Tsr? && g.Srm? && Applies(levels[0], g) {
        UntouchedElements(name, levels, g, rule, k);
      }
    }
  }

  lemma UntouchedElements(name: string, levels: seq<Value>, g: Value, rule: Rule, k: nat)
    requires k < |levels| && levels[0].Tsr? && g.Srm? && SlotFits(levels[0], levels[k])
    requires Applies(levels[0], g) && !Touches(levels[0], g)
    ensures SlicesUpdated(name, levels, g.col, g.rows, rule, k) == levels[k]
  {
    var data := levels[k].data;
    forall j: nat | j < |data|
      ensures ElementUpdated(name, levels, g.col, g.rows, rule, k, j) == data[j]
    {
      if g.col > 0 {
        assert j / g.col * g.col <= j;
      }
    }
  }

  lemma UntouchedSame(t: Trained, part: TensorMap, rule: Rule)
    requires InPlace(rule) && Slotted(t) && !TouchesAny(t.param, part)
    ensures Updated(t, part, rule) == t
  {
    hide InPlace, Updated, LevelsOf, UpdatedLevels, Slotted;
    var after := Updated(t, part, rule);
    SlottedKeys(t);
    UpdateKeepsSlotted(t, part, rule);
    SlottedKeys(after);
    UpdatedKeys(t, part, rule);
    forall name | name in t.param
      ensures LevelsOf(after, name) == LevelsOf(t, name)
    {
      LevelsUpdated(t, part, rule, name);
      LevelsOfSlotted(t, name);
      FirstIsParam(t, name);
      if name in part {
        UntouchedLevels(name, LevelsOf(t, name), part[name], rule);
      }
    }
    SameLevels(after, t);
  }

  lemma SlottedKeys(t: Trained)
    requires Slotted(t)
    ensures ConsistentTsr(t.param) && t.slots.Keys == t.param.Keys
  {
  }

  lemma FirstIsParam(t: Trained, name: string)
    requires name in t.param
    ensures LevelsOf(t, name) != [] && LevelsOf(t, name)[0] == t.param[name]
  {
  }

  // ---------------------------------------------------------------------------------------
  // A rule that writes the count everywhere
  // ---------------------------------------------------------------------------------------

  function Stamp(n: nat): Rule {
    Rule((name: string, dense: bool, g: Row, chunks: seq<Option<Row>>) =>
           seq(|chunks|, k requires 0 <= k < |chunks| =>
                 if chunks[k].None? then [n as real] else seq(|chunks[k].value|, j => n as real)))
  }

  lemma StampInPlace(n: nat)
    ensures InPlace(Stamp(n))
  {
  }

  predicate NoEmptyRows(m: TensorMap) {
    forall name :: name in m && m[name].Srm? ==> forall id :: id in m[name].rows ==> m[name].rows[id] != []
  }

  lemma StampedWhole(name: string, levels: seq<Value>, g: Value, n: nat)
    requires levels != [] && levels[0].Tsr? && g.Tsr? && Touches(levels[0], g)
    ensures var after := UpdatedLevels(name, levels, g, Stamp(n))[0];
            after.Tsr? && after.data != [] && after.data[0] == n as real
  {
    assert AllData(levels)[0] == Some(levels[0].data);
  }

  lemma StampedSlice(name: string, levels: seq<Value>, g: Value, n: nat, id: nat)
    requires levels != [] && levels[0].Tsr? && g.Srm? && Applies(levels[0], g) && g.col > 0
    requires id in g.rows && id * g.col < |levels[0].data|
    ensures var after := UpdatedLevels(name, levels, g, Stamp(n))[0];
            after.Tsr? && id * g.col < |after.data| && after.data[id * g.col] == n as real
  {
    hide ElementUpdated;
    StampedElement(name, levels, g, n, id);
  }

  lemma StampedElement(name: string, levels: seq<Value>, g: Value, n: nat, id: nat)
    requires levels != [] && levels[0].Tsr? && g.Srm? && g.col > 0
    requires id in g.rows && id * g.col < |levels[0].data|
    ensures ElementUpdated(name, levels, g.col, g.rows, Stamp(n), 0, id * g.col) == n as real
  {
    MultipleOf(id, g.col, 0);
    assert AllSlices(levels, id, g.col)[0] == SliceOf(levels[0], id, g.col);
  }

  lemma StampedRow(name: string, levels: seq<Value>, g: Value, n: nat, id: nat)
    requires levels != [] && levels[0].Srm? && Touches(levels[0], g) && id in g.rows
    requires id in levels[0].rows ==> levels[0].rows[id] != []
    ensures var after := UpdatedLevels(name, levels, g, Stamp(n))[0];
            after.Srm? && id in after.rows && after.rows[id] != [] && after.rows[id][0] == n as real
  {
    assert AllRows(levels, id)[0] == RowOf(levels[0], id);
  }

  /** Different counts give different parameters. */
  lemma StampDiffers(t: Trained, part: TensorMap, m: nat, n: nat)
    requires TouchesAny(t.param, part) && NoEmptyRows(t.param) && m != n
    ensures Updated(t, part, Stamp(m)).param != Updated(t, part, Stamp(n)).param
  {
    hide UpdatedLevels, LevelsOf, Stamp;
    var name :| name in t.param && name in part && Touches(t.param[name], part[name]);
    var w, g, levels := t.param[name], part[name], LevelsOf(t, name);
    FirstIsParam(t, name);
    if g.Tsr? {
      StampedWhole(name, levels, g, m);
      StampedWhole(name, levels, g, n);
    } else if w.Tsr? {
      var id :| id in g.rows && id * g.col < |w.data|;
      StampedSlice(name, levels, g, m, id);
      StampedSlice(name, levels, g, n, id);
    } else {
      var id :| id in g.rows;
      StampedRow(name, levels, g, m, id);
      StampedRow(name, levels, g, n, id);
    }
    assert Updated(t, part, Stamp(m)).param[name] == UpdatedLevels(name, levels, g, Stamp(m))[0];
    assert Updated(t, part, Stamp(n)).param[name] == UpdatedLevels(name, levels, g, Stamp(n))[0];
  }

  lemma StampKeepsNoEmptyRows(t: Trained, part: TensorMap, n: nat)
    requires Slotted(t) && NoEmptyRows(t.param)
    ensures NoEmptyRows(Updated(t, part, Stamp(n)).param)
  {
    hide UpdatedLevels;
    var after := Updated(t, part, Stamp(n)).param;
    forall name | name in after && after[name].Srm?
      ensures forall id :: id in after[name].rows ==> after[name].rows[id] != []
    {
      if name in part {
        FirstIsParam(t, name);
        StampedRowsNotEmpty(name, LevelsOf(t, name), part[name], n);
      }
    }
  }

  lemma StampedRowsNotEmpty(name: string, levels: seq<Value>, g: Value, n: nat)
    requires levels != []
    requires levels[0].Srm? ==> forall id :: id in levels[0].rows ==> levels[0].rows[id] != []
    ensures var after := UpdatedLevels(name, levels, g, Stamp(n))[0];
            && SameKind(levels[0], after)
            && (after.Srm? ==> forall id :: id in after.rows ==> after.rows[id] != [])
  {
    forall id: nat
      ensures AllRows(levels, id)[0] == RowOf(levels[0], id)
    {
    }
  }

  // ---------------------------------------------------------------------------------------
  // Runs with and without shards
  // ---------------------------------------------------------------------------------------

  datatype Event = Pulling(req: PullRequest, init: RowInit) | Pushing(grad: TensorMap)

  /** A trained model and the number of batches that its optimizer has counted. */
  datatype Counted = Counted(t: Trained, n: nat)

  /** The parameters by which gradients are split, the shards, and whether the model without
      shards counts every batch, as a trainer that updates its own model does, or, as a single
      server, only those with a gradient. */
  datatype Setup = Setup(param: TensorMap, sh: Shard, eager: bool)

  ghost predicate Counts(setup: Setup, grad: TensorMap) {
    setup.eager || exists i: nat :: i < setup.sh.size && PartOf(setup.param, grad, setup.sh, i) != map[]
  }

  ghost function WholeStep(setup: Setup, schedule: Schedule, s: Counted, e: Event): Counted {
    match e
    case Pulling(req, init) => s.(t := Trained(PulledFrom(s.t.param, req, init), s.t.slots))
    case Pushing(grad) => Counted(Updated(s.t, grad, schedule(s.n)), if Counts(setup, grad) then s.n + 1 else s.n)
  }

  /** A shard pulls by its part of the request and pushes its part of the gradient, if any. */
  function ShardStep(setup: Setup, schedule: Schedule, i: nat, s: Counted, e: Event): Counted {
    match e
    case Pulling(req, init) =>
      s.(t := Trained(PulledFrom(s.t.param, RequestPart(req, setup.sh, i), init), s.t.slots))
    case Pushing(grad) =>
      var part := PartOf(setup.param, grad, setup.sh, i);
      if part == map[] then s else Counted(Updated(s.t, part, schedule(s.n)), s.n + 1)
  }

  ghost function WholeAfter(setup: Setup, schedule: Schedule, s: Counted, events: seq<Event>): Counted {
    if events == [] then s
    else
      var last := |events| - 1;
      WholeStep(setup, schedule, WholeAfter(setup, schedule, s, events[..last]), events[last])
  }

  function ShardAfter(setup: Setup, schedule: Schedule, i: nat, s: Counted, events: seq<Event>): Counted {
    if events == [] then s
    else
      var last := |events| - 1;
      ShardStep(setup, schedule, i, ShardAfter(setup, schedule, i, s, events[..last]), events[last])
  }

  function StartPlaced(setup: Setup, s: Counted, i: nat): Counted {
    Counted(TrainedPlaced(s.t, setup.sh, i), s.n)
  }

  /** The shard holds its part of the model without shards. */
  ghost predicate AgreesAfter(setup: Setup, schedule: Schedule, s: Counted, events: seq<Event>, i: nat) {
    ShardAfter(setup, schedule, i, StartPlaced(setup, s, i), events).t
    == TrainedPlaced(WholeAfter(setup, schedule, s, events).t, setup.sh, i)
  }

  ghost predicate Agrees(setup: Setup, schedule: Schedule, s: Counted, events: seq<Event>) {
    forall k: nat, i: nat :: k <= |events| && i < setup.sh.size ==> AgreesAfter(setup, schedule, s, events[..k], i)
  }

  /** The batch counts, but not on the shard. */
  ghost predicate Missed(setup: Setup, e: Event, i: nat) {
    e.Pushing? && Counts(setup, e.grad) && PartOf(setup.param, e.grad, setup.sh, i) == map[]
  }

  /** The batch matters to the shard. */
  ghost predicate Matters(setup: Setup, param: TensorMap, e: Event, i: nat) {
    e.Pushing? && TouchesAny(param, PartOf(setup.param, e.grad, setup.sh, i))
  }

  /** No shard misses a batch before one that matters to it. */
  ghost predicate Fed(setup: Setup, param: TensorMap, events: seq<Event>) {
    forall i: nat, b: nat, j: nat :: i < setup.sh.size && b < j < |events| && Matters(setup, param, events[j], i) ==>
      !Missed(setup, events[b], i)
  }

  ghost predicate Startable(setup: Setup, s: Counted) {
    ValidShard(setup.sh) && Slotted(s.t) && Knows(setup.param, s.t.param)
  }

  ghost predicate AllServable(param: TensorMap, events: seq<Event>) {
    forall k :: 0 <= k < |events| && events[k].Pulling? ==> Servable(param, events[k].req)
  }

  ghost predicate RowsNotEmpty(events: seq<Event>) {
    forall k, name, id: nat :: 0 <= k < |events| && events[k].Pulling? ==> events[k].init(name, id) != []
  }

  // ---------------------------------------------------------------------------------------
  // What stays
  // ---------------------------------------------------------------------------------------

  predicate SameForm(m: TensorMap, m': TensorMap) {
    m.Keys == m'.Keys && forall name :: name in m ==> SlotFits(m[name], m'[name])
  }

  lemma FormsMean(m: TensorMap, m': TensorMap, param: TensorMap, part: TensorMap, req: PullRequest)
    requires SameForm(m, m')
    ensures TouchesAny(m, part) <==> TouchesAny(m', part)
    ensures Knows(param, m) <==> Knows(param, m')
    ensures Servable(m, req) <==> Servable(m', req)
  {
    forall name | name in m && name in part
      ensures Touches(m[name], part[name]) <==> Touches(m'[name], part[name])
    {
    }
  }

  lemma PullKeepsForm(t: Trained, req: PullRequest, init: RowInit)
    requires Slotted(t)
    ensures Slotted(Trained(PulledFrom(t.param, req, init), t.slots))
    ensures SameForm(t.param, PulledFrom(t.param, req, init))
  {
    hide RowsAfter;
  }

  lemma UpdateKeepsForm(t: Trained, grad: TensorMap, rule: Rule)
    requires InPlace(rule) && Slotted(t)
    ensures Slotted(Updated(t, grad, rule)) && SameForm(t.param, Updated(t, grad, rule).param)
  {
    hide InPlace, Updated;
    UpdateKeepsSlotted(t, grad, rule);
    UpdatedKeys(t, grad, rule);
    forall name | name in t.param
      ensures SlotFits(t.param[name], Updated(t, grad, rule).param[name])
    {
      FormStays(t, grad, rule, name);
    }
  }

  lemma FormChain(a: TensorMap, b: TensorMap, c: TensorMap)
    requires SameForm(a, b) && SameForm(b, c)
    ensures SameForm(a, c)
  {
  }

  lemma {:induction false} WholeKeepsForm(setup: Setup, schedule: Schedule, s: Counted, events: seq<Event>)
    requires AllInPlace(schedule) && Slotted(s.t)
    ensures var after := WholeAfter(setup, schedule, s, events).t;
            Slotted(after) && SameForm(s.t.param, after.param)
    decreases |events|
  {
    hide Slotted, SameForm, PulledFrom, Updated, Counts, InPlace;
    if events == [] {
      SameFormSelf(s.t);
    } else {
      var last := |events| - 1;
      WholeKeepsForm(setup, schedule, s, events[..last]);
      var before := WholeAfter(setup, schedule, s, events[..last]);
      match events[last]
      case Pulling(req, init) =>
        PullKeepsForm(before.t, req, init);
        FormChain(s.t.param, before.t.param, PulledFrom(before.t.param, req, init));
      case Pushing(grad) =>
        UpdateKeepsForm(before.t, grad, schedule(before.n));
        FormChain(s.t.param, before.t.param, Updated(before.t, grad, schedule(before.n)).param);
    }
  }

  lemma SameFormSelf(t: Trained)
    requires Slotted(t)
    ensures SameForm(t.param, t.param)
  {
  }

  /** A shard never counts more than the whole, and as many exactly if it has missed nothing. */
  lemma {:induction false} CountsCompare(setup: Setup, schedule: Schedule, s: Counted, events: seq<Event>, i: nat)
    requires i < setup.sh.size
    ensures var here, whole := ShardAfter(setup, schedule, i, StartPlaced(setup, s, i), events).n,
                               WholeAfter(setup, schedule, s, events).n;
            && here <= whole
            && (here == whole <==> forall b: nat :: b < |events| ==> !Missed(setup, events[b], i))
    decreases |events|
  {
    hide PartOf, TrainedPlaced, Updated, PulledFrom, RequestPart;
    if events != [] {
      var last: nat := |events| - 1;
      CountsCompare(setup, schedule, s, events[..last], i);
      assert forall b: nat :: b < last ==> events[..last][b] == events[b];
    }
  }

  // ---------------------------------------------------------------------------------------
  // One step
  // ---------------------------------------------------------------------------------------

  lemma TouchesPlaced(param: TensorMap, m: TensorMap, grad: TensorMap, sh: Shard, i: nat, part: TensorMap)
    requires Knows(param, m) && part.Keys <= PartOf(param, grad, sh, i).Keys
    ensures TouchesAny(m, part) <==> TouchesAny(Placed(m, sh, i), part)
  {
    hide OwnRows;
    forall name | name in m && name in part
      ensures name in Placed(m, sh, i)
      ensures Touches(m[name], part[name]) <==> Touches(Placed(m, sh, i)[name], part[name])
    {
    }
  }

  lemma PullAgrees(setup: Setup, t: Trained, req: PullRequest, init: RowInit, i: nat)
    requires Servable(t.param, req)
    ensures var here := TrainedPlaced(t, setup.sh, i);
            Trained(PulledFrom(here.param, RequestPart(req, setup.sh, i), init), here.slots)
            == TrainedPlaced(Trained(PulledFrom(t.param, req, init), t.slots), setup.sh, i)
  {
    hide Placed, RequestPart, PulledFrom, SlotsPlaced;
    ShardPull(t.param, setup.sh, req, init, i);
    PulledKinds(t.param, req, init);
    KindsPlace(t.param, PulledFrom(t.param, req, init), t.slots, setup.sh, i);
  }

  lemma PulledKinds(m: TensorMap, req: PullRequest, init: RowInit)
    ensures PulledFrom(m, req, init).Keys == m.Keys
    ensures forall name :: name in m ==> SameKind(m[name], PulledFrom(m, req, init)[name])
  {
  }

  /** A shard's push agrees if its count is that of the whole, or if nothing is touched. */
  lemma PushAgrees(setup: Setup, schedule: Schedule, s: Counted, grad: TensorMap, i: nat, k: nat)
    requires Startable(setup, s) && AllInPlace(schedule)
    requires k == s.n || !TouchesAny(s.t.param, PartOf(setup.param, grad, setup.sh, i))
    ensures ShardStep(setup, schedule, i, Counted(TrainedPlaced(s.t, setup.sh, i), k), Pushing(grad)).t
         == TrainedPlaced(WholeStep(setup, schedule, s, Pushing(grad)).t, setup.sh, i)
  {
    hide Counts, InPlace, Updated, TrainedPlaced, GradPlaced, RemoveEmptyValue, Slotted, Knows, TouchesAny;
    var here, part := TrainedPlaced(s.t, setup.sh, i), PartOf(setup.param, grad, setup.sh, i);
    assert InPlace(schedule(k)) && InPlace(schedule(s.n));
    ShardUpdate(s.t, setup.sh, setup.param, grad, schedule(s.n), i);
    if part == map[] {
      NothingUpdated(here, schedule(s.n));
    } else if k != s.n {
      PlacedSlotted(s.t, setup.sh, i);
      TouchesPlaced(setup.param, s.t.param, grad, setup.sh, i, part);
      ParamPlaced(s.t, setup.sh, i);
      UntouchedSame(here, part, schedule(k));
      UntouchedSame(here, part, schedule(s.n));
    }
  }

  lemma NothingUpdated(t: Trained, rule: Rule)
    ensures Updated(t, map[], rule) == t
  {
  }

  lemma ParamPlaced(t: Trained, sh: Shard, i: nat)
    ensures TrainedPlaced(t, sh, i).param == Placed(t.param, sh, i)
  {
  }

  // ---------------------------------------------------------------------------------------
  // Whole runs
  // ---------------------------------------------------------------------------------------

  lemma FedPrefix(setup: Setup, param: TensorMap, events: seq<Event>, k: nat)
    requires Fed(setup, param, events) && k <= |events|
    ensures Fed(setup, param, events[..k])
  {
    hide Matters, Missed;
    forall i: nat, b: nat, j: nat | i < setup.sh.size && b < j < k && Matters(setup, param, events[..k][j], i)
      ensures !Missed(setup, events[..k][b], i)
    {
      assert events[..k][j] == events[j] && events[..k][b] == events[b];
    }
  }

  lemma {:induction false} FedAgrees(setup: Setup, schedule: Schedule, s: Counted, events: seq<Event>, i: nat)
    requires Startable(setup, s) && AllInPlace(schedule) && i < setup.sh.size
    requires AllServable(s.t.param, events) && Fed(setup, s.t.param, events)
    ensures AgreesAfter(setup, schedule, s, events, i)
    decreases |events|
  {
    hide Fed, AllServable, Slotted, Knows, AllInPlace, PartOf, TrainedPlaced, SameForm, TouchesAny, Servable, Missed,
         ShardStep, WholeStep, ValidShard;
    if events != [] {
      var last, e := |events| - 1, events[|events| - 1];
      var rest := events[..last];
      FedPrefix(setup, s.t.param, events, last);
      ServablePrefix(s.t.param, events, last);
      FedAgrees(setup, schedule, s, rest, i);
      var here := ShardAfter(setup, schedule, i, StartPlaced(setup, s, i), rest);
      var whole := WholeAfter(setup, schedule, s, rest);
      WholeKeepsForm(setup, schedule, s, rest);
      if e.Pulling? {
        FormsMean(s.t.param, whole.t.param, setup.param, map[], e.req);
        ServableLast(s.t.param, events);
        PullAgrees(setup, whole.t, e.req, e.init, i);
        PullSteps(setup, schedule, i, here, whole, e);
      } else {
        var part := PartOf(setup.param, e.grad, setup.sh, i);
        FormsMean(s.t.param, whole.t.param, setup.param, part, EMPTY_REQUEST);
        CountsCompare(setup, schedule, s, rest, i);
        if Matters(setup, s.t.param, e, i) {
          FedLast(setup, s.t.param, events, i);
        }
        PushAgrees(setup, schedule, whole, e.grad, i, here.n);
        assert here == Counted(TrainedPlaced(whole.t, setup.sh, i), here.n);
      }
    }
  }

  const EMPTY_REQUEST := PullRequest(false, {}, map[], map[])

  lemma PullSteps(setup: Setup, schedule: Schedule, i: nat, here: Counted, whole: Counted, e: Event)
    requires e.Pulling?
    ensures ShardStep(setup, schedule, i, here, e).t
         == Trained(PulledFrom(here.t.param, RequestPart(e.req, setup.sh, i), e.init), here.t.slots)
    ensures WholeStep(setup, schedule, whole, e).t
         == Trained(PulledFrom(whole.t.param, e.req, e.init), whole.t.slots)
  {
  }

  lemma ServablePrefix(param: TensorMap, events: seq<Event>, k: nat)
    requires AllServable(param, events) && k <= |events|
    ensures AllServable(param, events[..k])
  {
  }

  lemma ServableLast(param: TensorMap, events: seq<Event>)
    requires AllServable(param, events) && events != [] && events[|events| - 1].Pulling?
    ensures Servable(param, events[|events| - 1].req)
  {
  }

  lemma FedLast(setup: Setup, param: TensorMap, events: seq<Event>, i: nat)
    requires Fed(setup, param, events) && events != [] && i < setup.sh.size
    requires Matters(setup, param, events[|events| - 1], i)
    ensures var rest := events[..|events| - 1]; forall b: nat :: b < |rest| ==> !Missed(setup, rest[b], i)
  {
  }

  lemma {:induction false} StampedNoEmptyRows(setup: Setup, schedule: Schedule, s: Counted, events: seq<Event>)
    requires AllInPlace(schedule) && (forall n: nat :: schedule(n) == Stamp(n))
    requires Slotted(s.t) && NoEmptyRows(s.t.param) && RowsNotEmpty(events)
    ensures NoEmptyRows(WholeAfter(setup, schedule, s, events).t.param)
    decreases |events|
  {
    hide Slotted, NoEmptyRows, PulledFrom, Updated, Counts, InPlace, AllInPlace, RowsNotEmpty, SameForm, Stamp;
    if events != [] {
      var last := |events| - 1;
      var rest := events[..last];
      NotEmptyPrefix(events, last);
      StampedNoEmptyRows(setup, schedule, s, rest);
      WholeKeepsForm(setup, schedule, s, rest);
      var before := WholeAfter(setup, schedule, s, rest);
      match events[last]
      case Pulling(req, init) =>
        NotEmptyAt(events, last);
        PulledNotEmpty(before.t.param, req, init);
      case Pushing(grad) =>
        StampKeepsNoEmptyRows(before.t, grad, before.n);
    }
  }

  lemma NotEmptyPrefix(events: seq<Event>, k: nat)
    requires RowsNotEmpty(events) && k <= |events|
    ensures RowsNotEmpty(events[..k])
  {
  }

  lemma NotEmptyAt(events: seq<Event>, k: nat)
    requires RowsNotEmpty(events) && k < |events| && events[k].Pulling?
    ensures forall name, id: nat :: events[k].init(name, id) != []
  {
  }

  lemma PulledNotEmpty(m: TensorMap, req: PullRequest, init: RowInit)
    requires NoEmptyRows(m) && forall name, id: nat :: init(name, id) != []
    ensures NoEmptyRows(PulledFrom(m, req, init))
  {
  }

  lemma PlacedNoEmptyRows(m: TensorMap, sh: Shard, i: nat)
    requires NoEmptyRows(m)
    ensures NoEmptyRows(Placed(m, sh, i))
  {
  }

  /** A shard that has missed a batch disagrees at the first batch that matters to it, if not
      before, under the rule that writes the count. */
  lemma MissedDisagrees(setup: Setup, schedule: Schedule, s: Counted, events: seq<Event>, i: nat, b: nat, j: nat)
    requires Startable(setup, s) && NoEmptyRows(s.t.param) && AllServable(s.t.param, events) && RowsNotEmpty(events)
    requires AllInPlace(schedule) && (forall n: nat :: schedule(n) == Stamp(n))
    requires i < setup.sh.size && b < j < |events| && Missed(setup, events[b], i)
    requires Matters(setup, s.t.param, events[j], i)
    ensures !AgreesAfter(setup, schedule, s, events[..j], i) || !AgreesAfter(setup, schedule, s, events[..j + 1], i)
  {
    hide Slotted, Knows, GradPlaced, RemoveEmptyValue, TrainedPlaced, SameForm, TouchesAny, Servable, Missed,
         ValidShard, NoEmptyRows, Stamp, AllServable, RowsNotEmpty, InPlace, Updated, Counts;
    if AgreesAfter(setup, schedule, s, events[..j], i) {
      var before, grad := events[..j], events[j].grad;
      assert events[..j + 1][..j] == before && events[..j + 1][j] == events[j] && before[b] == events[b];
      var here := ShardAfter(setup, schedule, i, StartPlaced(setup, s, i), before);
      var whole := WholeAfter(setup, schedule, s, before);
      var part := PartOf(setup.param, grad, setup.sh, i);
      CountsCompare(setup, schedule, s, before, i);
      assert here.n < whole.n;
      WholeKeepsForm(setup, schedule, s, before);
      FormsMean(s.t.param, whole.t.param, setup.param, part, EMPTY_REQUEST);
      NotEmptyPrefix(events, j);
      StampedNoEmptyRows(setup, schedule, s, before);
      PlacedNoEmptyRows(whole.t.param, setup.sh, i);
      ParamPlaced(whole.t, setup.sh, i);
      TouchesPlaced(setup.param, whole.t.param, grad, setup.sh, i, part);
      TouchedPart(whole.t.param, part);
      ShardUpdate(whole.t, setup.sh, setup.param, grad, schedule(whole.n), i);
      StampDiffers(here.t, part, here.n, whole.n);
    }
  }

  lemma TouchedPart(param: TensorMap, part: TensorMap)
    requires TouchesAny(param, part)
    ensures part != map[]
  {
  }

  /** For a fixed list of pulls and gradients: whatever a rule that writes in place does with the
      count of batches, every shard holds its part of the model without shards after every
      event, if and only if no shard misses a batch before one that matters to it. */
  lemma AgreeExactlyIfFed(setup: Setup, s: Counted, events: seq<Event>)
    requires Startable(setup, s) && NoEmptyRows(s.t.param) && AllServable(s.t.param, events) && RowsNotEmpty(events)
    ensures (forall schedule: Schedule :: AllInPlace(schedule) ==> Agrees(setup, schedule, s, events))
            <==> Fed(setup, s.t.param, events)
  {
    hide Startable, NoEmptyRows, AllServable, RowsNotEmpty, AllInPlace, AgreesAfter, Missed, Matters, Stamp;
    if Fed(setup, s.t.param, events) {
      forall schedule: Schedule | AllInPlace(schedule)
        ensures Agrees(setup, schedule, s, events)
      {
        FedAgreesAlways(setup, schedule, s, events);
      }
    } else {
      var i: nat, b: nat, j: nat :| i < setup.sh.size && b < j < |events|
        && Matters(setup, s.t.param, events[j], i) && Missed(setup, events[b], i);
      var schedule: Schedule := (n: nat) => Stamp(n);
      AllStampsInPlace(schedule);
      MissedDisagrees(setup, schedule, s, events, i, b, j);
    }
  }

  lemma AllStampsInPlace(schedule: Schedule)
    requires forall n: nat :: schedule(n) == Stamp(n)
    ensures AllInPlace(schedule)
  {
    forall n: nat
      ensures InPlace(schedule(n))
    {
      StampInPlace(n);
    }
  }

  lemma FedAgreesAlways(setup: Setup, schedule: Schedule, s: Counted, events: seq<Event>)
    requires Startable(setup, s) && AllInPlace(schedule)
    requires AllServable(s.t.param, events) && Fed(setup, s.t.param, events)
    ensures Agrees(setup, schedule, s, events)
  {
    hide Startable, AllInPlace, AllServable, Fed, AgreesAfter;
    forall k: nat, i: nat | k <= |events| && i < setup.sh.size
      ensures AgreesAfter(setup, schedule, s, events[..k], i)
    {
      FedPrefix(setup, s.t.param, events, k);
      ServablePrefix(s.t.param, events, k);
      FedAgrees(setup, schedule, s, events[..k], i);
    }
  }

  // ---------------------------------------------------------------------------------------
  // An example
  // ---------------------------------------------------------------------------------------

  const ODD_EVEN: Shard := Shard(2, (name: string) => 0, (id: nat) => id % 2)

  /** A matrix w of width one with row 0. */
  const ROW_ZERO: Trained := Trained(map["w" := Srm(1, map[0 := [0.0]])], map["w" := []])

  function RowGradient(id: nat): TensorMap {
    map["w" := Srm(1, map[id := [1.0]])]
  }

  /** First a gradient for row 0 only, then one for row 1. */
  const ZERO_THEN_ONE: seq<Event> := [Pushing(RowGradient(0)), Pushing(RowGradient(1))]

  lemma RowParts(id: nat, i: nat)
    ensures PartOf(ROW_ZERO.param, RowGradient(id), ODD_EVEN, i) == if id % 2 == i then RowGradient(id) else map[]
  {
    var rows: map<nat, Row> := map[id := [1.0]];
    var own := OwnRows(rows, ODD_EVEN, i);
    assert own == if id % 2 == i then rows else map[];
    var placed := GradPlaced(ROW_ZERO.param, RowGradient(id), ODD_EVEN, i);
    assert placed == map["w" := Srm(1, own)];
    if id % 2 == i {
      assert id in own && RemoveEmptyValue(placed) == placed;
    } else {
      assert RemoveEmptyValue(placed) == map[];
    }
  }

  lemma IdleStart(eager: bool)
    ensures Startable(Setup(ROW_ZERO.param, ODD_EVEN, eager), Counted(ROW_ZERO, 0))
    ensures NoEmptyRows(ROW_ZERO.param) && AllServable(ROW_ZERO.param, ZERO_THEN_ONE) && RowsNotEmpty(ZERO_THEN_ONE)
  {
  }

  lemma IdleMissed(eager: bool)
    ensures var setup := Setup(ROW_ZERO.param, ODD_EVEN, eager);
            && Counts(setup, RowGradient(0)) && Counts(setup, RowGradient(1))
            && PartOf(setup.param, RowGradient(0), setup.sh, 1) == map[]
            && PartOf(setup.param, RowGradient(1), setup.sh, 1) == RowGradient(1)
            && Missed(setup, ZERO_THEN_ONE[0], 1) && Matters(setup, setup.param, ZERO_THEN_ONE[1], 1)
  {
    hide PartOf;
    RowParts(0, 0);
    RowParts(0, 1);
    RowParts(1, 1);
    assert "w" in RowGradient(0) && "w" in RowGradient(1) && 1 in RowGradient(1)["w"].rows;
    assert Touches(ROW_ZERO.param["w"], RowGradient(1)["w"]);
  }

  lemma IdleCounts(eager: bool, schedule: Schedule)
    ensures var setup, s := Setup(ROW_ZERO.param, ODD_EVEN, eager), Counted(ROW_ZERO, 0);
            && ShardAfter(setup, schedule, 1, StartPlaced(setup, s, 1), ZERO_THEN_ONE).n == 1
            && WholeAfter(setup, schedule, s, ZERO_THEN_ONE).n == 2
  {
    hide PartOf, Updated, TrainedPlaced, Counts;
    IdleMissed(eager);
    var setup, s := Setup(ROW_ZERO.param, ODD_EVEN, eager), Counted(ROW_ZERO, 0);
    var events, here := ZERO_THEN_ONE, StartPlaced(setup, s, 1);
    assert events[..1] == [events[0]] && [events[0]][..0] == [];
    assert ShardAfter(setup, schedule, 1, here, [events[0]]).n == 0;
    assert WholeAfter(setup, schedule, s, [events[0]]).n == 1;
  }

  /** Shard 1 gets nothing of the first batch, so it treats its row as of the first batch where
      without shards it is of the second. */
  lemma IdleShardDisagrees(eager: bool, schedule: Schedule)
    requires forall n: nat :: schedule(n) == Stamp(n)
    ensures AllInPlace(schedule)
    ensures var setup, s := Setup(ROW_ZERO.param, ODD_EVEN, eager), Counted(ROW_ZERO, 0);
            && ShardAfter(setup, schedule, 1, StartPlaced(setup, s, 1), ZERO_THEN_ONE).n == 1
            && WholeAfter(setup, schedule, s, ZERO_THEN_ONE).n == 2
            && AgreesAfter(setup, schedule, s, ZERO_THEN_ONE[..1], 1)
            && !AgreesAfter(setup, schedule, s, ZERO_THEN_ONE, 1)
            && !Fed(setup, s.t.param, ZERO_THEN_ONE)
  {
    hide Stamp, PartOf, AgreesAfter, Startable, NoEmptyRows, AllServable, RowsNotEmpty, AllInPlace, Missed, Matters;
    var setup, s := Setup(ROW_ZERO.param, ODD_EVEN, eager), Counted(ROW_ZERO, 0);
    var events := ZERO_THEN_ONE;
    AllStampsInPlace(schedule);
    IdleStart(eager);
    IdleMissed(eager);
    IdleCounts(eager, schedule);
    ServablePrefix(s.t.param, events, 1);
    FedAgrees(setup, schedule, s, events[..1], 1);
    MissedDisagrees(setup, schedule, s, events, 1, 0, 1);
    assert events[..2] == events;
  }
}
