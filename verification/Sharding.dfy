// The sharded model behaves as one unsharded model: pulling, pushing and loading.
module Shardings {
  import opened TensorMaps
  import opened Models
  import opened ModelShards
  import opened Optimizers

  // ---------------------------------------------------------------------------------------
  // Pulling
  // ---------------------------------------------------------------------------------------

  /** What a shard answers to its part of a request is its part of the whole answer, and the
      rows that it creates are its part of the rows created. */
  lemma ShardPull(m: TensorMap, sh: Shard, req: PullRequest, init: RowInit, i: nat)
    requires Servable(m, req)
    ensures Servable(Placed(m, sh, i), RequestPart(req, sh, i))
    ensures PulledFrom(Placed(m, sh, i), RequestPart(req, sh, i), init)
         == Placed(PulledFrom(m, req, init), sh, i)
    ensures Pulled(Placed(m, sh, i), RequestPart(req, sh, i), init)
         == RemoveEmptyValue(Placed(Answers(m, req, init), sh, i))
  {
    ShardPullsFrom(m, sh, req, init, i);
    ShardAnswers(m, sh, req, init, i);
  }

  lemma OwnCreated(name: string, rows: map<nat, Row>, ids: set<nat>, init: RowInit, isTrain: bool,
                   sh: Shard, i: nat)
    ensures RowsAfter(name, isTrain, OwnRows(rows, sh, i), OwnIds(ids, sh, i), init)
         == OwnRows(RowsAfter(name, isTrain, rows, ids, init), sh, i)
    ensures AskedRows(OwnRows(rows, sh, i), OwnIds(ids, sh, i)) == OwnRows(AskedRows(rows, ids), sh, i)
  {
  }

  lemma ShardPullsFrom(m: TensorMap, sh: Shard, req: PullRequest, init: RowInit, i: nat)
    requires Servable(m, req)
    ensures PulledFrom(Placed(m, sh, i), RequestPart(req, sh, i), init)
         == Placed(PulledFrom(m, req, init), sh, i)
  {
    hide RowsAfter, OwnRows, OwnIds;
    var part := RequestPart(req, sh, i);
    var a, b := PulledFrom(Placed(m, sh, i), part, init), Placed(PulledFrom(m, req, init), sh, i);
    assert a.Keys == b.Keys;
    forall name | name in a
      ensures a[name] == b[name]
    {
      if name in req.srmMap {
        OwnCreated(name, m[name].rows, req.srmMap[name], init, req.isTrain, sh, i);
      }
    }
  }

  lemma ShardAnswers(m: TensorMap, sh: Shard, req: PullRequest, init: RowInit, i: nat)
    requires Servable(m, req)
    ensures Servable(Placed(m, sh, i), RequestPart(req, sh, i))
    ensures Answers(Placed(m, sh, i), RequestPart(req, sh, i), init) == Placed(Answers(m, req, init), sh, i)
  {
    hide RowsAfter, OwnRows, OwnIds, AskedRows, PulledFrom;
    var part := RequestPart(req, sh, i);
    assert Servable(Placed(m, sh, i), part);
    var a, b := Answers(Placed(m, sh, i), part, init), Placed(Answers(m, req, init), sh, i);
    forall name | name in req.srmMap
      ensures name in a && name in b && a[name] == b[name]
    {
      SparseAnswer(m, sh, req, init, i, name);
    }
    assert a.Keys == b.Keys;
  }

  lemma SparseAnswer(m: TensorMap, sh: Shard, req: PullRequest, init: RowInit, i: nat, name: string)
    requires Servable(m, req) && Servable(Placed(m, sh, i), RequestPart(req, sh, i)) && name in req.srmMap
    ensures var a := Answers(Placed(m, sh, i), RequestPart(req, sh, i), init);
            var b := Placed(Answers(m, req, init), sh, i);
            name in a && name in b && a[name] == b[name]
  {
    hide RowsAfter, OwnRows, OwnIds, AskedRows, PulledFrom, Answer;
    var part := RequestPart(req, sh, i);
    AnswerSparse(m, req, init, name);
    AnswerSparse(Placed(m, sh, i), part, init, name);
    var after := RowsAfter(name, req.isTrain, m[name].rows, req.srmMap[name], init);
    OwnCreated(name, m[name].rows, req.srmMap[name], init, req.isTrain, sh, i);
    OwnCreated(name, after, req.srmMap[name], init, req.isTrain, sh, i);
  }

  /** The parameters after taking over the parts of the first k shards. */
  function TakenUpto(param: TensorMap, full: TensorMap, sh: Shard, k: nat): TensorMap
    requires TakesAll(param, full)
  {
    map name | name in param ::
      if name !in full then param[name] else TakenUptoValue(param[name], full[name], name, sh, k)
  }

  function TakenUptoValue(w: Value, v: Value, name: string, sh: Shard, k: nat): Value
    requires Takes(w, v)
  {
    match w
    case Tsr(shape, data) => if sh.tsr(name) < k then Tsr(shape, v.data) else w
    case Srm(col, rows) => Srm(col, (map id | id in v.rows && sh.srm(id) < k :: v.rows[id]) + rows)
  }

  ghost predicate ArePartsOf(parts: seq<TensorMap>, full: TensorMap, sh: Shard) {
    forall i :: 0 <= i < |parts| ==> parts[i] == RemoveEmptyValue(Placed(full, sh, i))
  }

  lemma {:induction false} TakenParts(param: TensorMap, full: TensorMap, sh: Shard, parts: seq<TensorMap>)
    requires TakesAll(param, full) && ArePartsOf(parts, full, sh) && ConsistentTsr(full)
    requires forall name :: name in param && param[name].Srm? ==> param[name].rows == map[]
    ensures TakesEvery(param, parts)
    ensures TakenFrom(param, parts) == TakenUpto(param, full, sh, |parts|)
    decreases |parts|
  {
    PartsTaken(param, full, sh, parts);
    if parts == [] {
      assert TakenFrom(param, parts) == TakenUpto(param, full, sh, 0);
    } else {
      var last := |parts| - 1;
      TakenParts(param, full, sh, parts[..last]);
      TakenStep(param, full, sh, last);
    }
  }

  lemma PartsTaken(param: TensorMap, full: TensorMap, sh: Shard, parts: seq<TensorMap>)
    requires TakesAll(param, full) && ArePartsOf(parts, full, sh)
    ensures TakesEvery(param, parts)
  {
    forall r | r in parts
      ensures TakesAll(param, r)
    {
      var i :| 0 <= i < |parts| && parts[i] == r;
    }
  }

  lemma TakenStep(param: TensorMap, full: TensorMap, sh: Shard, k: nat)
    requires TakesAll(param, full) && ConsistentTsr(full)
    requires forall name :: name in param && param[name].Srm? ==> param[name].rows == map[]
    ensures var before, part := TakenUpto(param, full, sh, k), RemoveEmptyValue(Placed(full, sh, k));
            && TakesAll(before, part)
            && TakenAll(before, part) == TakenUpto(param, full, sh, k + 1)
  {
    hide TakenUptoValue, Takes, Taken;
    var before, part := TakenUpto(param, full, sh, k), RemoveEmptyValue(Placed(full, sh, k));
    forall name | name in param && name in full
      ensures name in part ==> Takes(before[name], part[name])
      ensures TakenUptoValue(param[name], full[name], name, sh, k + 1)
           == if name in part then Taken(before[name], part[name]) else before[name]
    {
      TakenStepValue(param[name], full, name, sh, k);
    }
    var a, b := TakenAll(before, part), TakenUpto(param, full, sh, k + 1);
    assert a.Keys == b.Keys;
  }

  lemma TakenStepValue(w: Value, full: TensorMap, name: string, sh: Shard, k: nat)
    requires name in full && Takes(w, full[name]) && ConsistentTsr(full)
    requires w.Srm? ==> w.rows == map[]
    ensures var before := TakenUptoValue(w, full[name], name, sh, k);
            var after := TakenUptoValue(w, full[name], name, sh, k + 1);
            var part := RemoveEmptyValue(Placed(full, sh, k));
            && (name in part ==> Takes(before, part[name]))
            && after == if name in part then Taken(before, part[name]) else before
  {
    if w.Srm? {
      var own := OwnRows(full[name].rows, sh, k);
      RowsOfOneMore(full[name].rows, sh, k);
      assert Placed(full, sh, k)[name] == Srm(w.col, own);
    }
  }

  lemma RowsOfOneMore(rows: map<nat, Row>, sh: Shard, k: nat)
    ensures (map id | id in rows && sh.srm(id) < k + 1 :: rows[id])
         == OwnRows(rows, sh, k) + (map id | id in rows && sh.srm(id) < k :: rows[id])
  {
  }

  lemma TakenInAll(param: TensorMap, full: TensorMap, sh: Shard)
    requires ValidShard(sh) && TakesAll(param, full) && ConsistentTsr(full)
    requires forall name :: name in param && param[name].Srm? ==> param[name].rows == map[]
    ensures TakesAll(param, RemoveEmptyValue(full))
    ensures TakenUpto(param, full, sh, sh.size) == TakenAll(param, RemoveEmptyValue(full))
  {
    var a, b := TakenUpto(param, full, sh, sh.size), TakenAll(param, RemoveEmptyValue(full));
    assert a.Keys == b.Keys;
    forall name | name in param && name in full && param[name].Srm?
      ensures a[name] == b[name]
    {
      var rows := full[name].rows;
      assert (map id | id in rows && sh.srm(id) < sh.size :: rows[id]) == rows;
    }
  }

  /** The local model's parameters can take over those of the sharded model. */
  predicate SameLayout(local: TensorMap, m: TensorMap) {
    forall name :: name in m ==> name in local && Takes(local[name], m[name])
  }

  lemma LayoutOfItself(m: TensorMap)
    ensures SameLayout(m, m)
  {
  }

  lemma AnswersTaken(local: TensorMap, m: TensorMap, req: PullRequest, init: RowInit)
    requires Servable(m, req) && SameLayout(local, m)
    ensures TakesAll(ClearSRMValue(local), Answers(m, req, init))
    ensures ConsistentTsr(m) ==> ConsistentTsr(Answers(m, req, init))
  {
    forall name | name in req.srmMap
      ensures Takes(ClearSRMValue(local)[name], Answers(m, req, init)[name])
    {
      AnswerSparse(m, req, init, name);
      assert Takes(local[name], m[name]);
    }
  }

  /** Splitting a request, pulling from all shards and merging the answers gives what one pull
      from the whole model gives; the shards stay the parts of the whole model. */
  lemma ShardedPullAgrees(m: TensorMap, sh: Shard, req: PullRequest, init: RowInit, local: TensorMap,
                          parts: seq<TensorMap>)
    requires ValidShard(sh) && Servable(m, req) && SameLayout(local, m) && ConsistentTsr(m)
    requires |parts| == sh.size
    requires forall i: nat :: i < sh.size ==> Servable(Placed(m, sh, i), RequestPart(req, sh, i))
    requires forall i: nat :: i < sh.size ==>
               parts[i] == Pulled(Placed(m, sh, i), RequestPart(req, sh, i), init)
    ensures TakesEvery(ClearSRMValue(local), parts)
    ensures TakesAll(ClearSRMValue(local), Pulled(m, req, init))
    ensures TakenFrom(ClearSRMValue(local), parts) == TakenAll(ClearSRMValue(local), Pulled(m, req, init))
    ensures forall i: nat :: i < sh.size ==>
              PulledFrom(Placed(m, sh, i), RequestPart(req, sh, i), init)
              == Placed(PulledFrom(m, req, init), sh, i)
  {
    hide Answers, Placed, RequestPart, PulledFrom, TakesAll, TakenAll;
    var cleared, full := ClearSRMValue(local), Answers(m, req, init);
    forall i: nat | i < sh.size
      ensures parts[i] == RemoveEmptyValue(Placed(full, sh, i))
      ensures PulledFrom(Placed(m, sh, i), RequestPart(req, sh, i), init)
           == Placed(PulledFrom(m, req, init), sh, i)
    {
      ShardPull(m, sh, req, init, i);
    }
    AnswersTaken(local, m, req, init);
    TakenParts(cleared, full, sh, parts);
    TakenInAll(cleared, full, sh);
  }

  // ---------------------------------------------------------------------------------------
  // Pushing
  // ---------------------------------------------------------------------------------------

  /** A batch's gradients are applied, then the new values are set. */
  function Pushed(t: Trained, grad: TensorMap, given: TensorMap, rule: Rule): Trained {
    var updated := Updated(t, grad, rule);
    Trained(Overwritten(updated.param, given), updated.slots)
  }

  function OwnValue(v: Value, sh: Shard, i: nat): Value {
    match v
    case Tsr(_, _) => v
    case Srm(col, rows) => Srm(col, OwnRows(rows, sh, i))
  }

  function OwnLevels(levels: seq<Value>, sh: Shard, i: nat): (r: seq<Value>)
    ensures |r| == |levels|
  {
    seq(|levels|, k requires 0 <= k < |levels| => OwnValue(levels[k], sh, i))
  }

  /** The slots of what shard i holds of a model. */
  function SlotsPlaced(param: TensorMap, slots: Slots, sh: Shard, i: nat): Slots {
    map name | name in slots && name in param && (param[name].Tsr? ==> sh.tsr(name) == i) ::
      OwnLevels(slots[name], sh, i)
  }

  function TrainedPlaced(t: Trained, sh: Shard, i: nat): Trained {
    Trained(Placed(t.param, sh, i), SlotsPlaced(t.param, t.slots, sh, i))
  }

  lemma PlacedSlotted(t: Trained, sh: Shard, i: nat)
    requires Slotted(t)
    ensures Slotted(TrainedPlaced(t, sh, i))
  {
    var part := TrainedPlaced(t, sh, i);
    assert part.slots.Keys == part.param.Keys;
    forall name, v | name in part.slots && v in part.slots[name]
      ensures SlotFits(part.param[name], v)
    {
      var k :| 0 <= k < |part.slots[name]| && part.slots[name][k] == v;
      assert t.slots[name][k] in t.slots[name];
    }
  }

  /** The local model, by which gradients are split, knows all parameters of the sharded model. */
  predicate Knows(param: TensorMap, m: TensorMap) {
    forall name :: name in m ==> name in param && SameKind(param[name], m[name])
  }

  lemma OwnAdded(rows: map<nat, Row>, more: map<nat, Row>, sh: Shard, i: nat)
    ensures OwnRows(rows + more, sh, i) == OwnRows(rows, sh, i) + OwnRows(more, sh, i)
  {
  }

  lemma OwnRowsOf(levels: seq<Value>, sh: Shard, i: nat, id: nat)
    requires sh.srm(id) == i
    ensures AllRows(OwnLevels(levels, sh, i), id) == AllRows(levels, id)
  {
  }

  lemma OwnRowsUpdated(name: string, levels: seq<Value>, grads: map<nat, Row>, rule: Rule, sh: Shard, i: nat,
                       k: nat)
    requires k < |levels|
    ensures RowsUpdated(name, OwnLevels(levels, sh, i), OwnRows(grads, sh, i), rule, k)
         == OwnValue(RowsUpdated(name, levels, grads, rule, k), sh, i)
  {
    hide AllRows, Written;
    forall id | id in OwnRows(grads, sh, i)
      ensures AllRows(OwnLevels(levels, sh, i), id) == AllRows(levels, id)
    {
      OwnRowsOf(levels, sh, i, id);
    }
  }

  /** Of a matrix, a shard updates its own rows and theirs in the slots. */
  lemma OwnLevelsUpdated(name: string, levels: seq<Value>, g: Value, rule: Rule, sh: Shard, i: nat)
    requires levels != [] && levels[0].Srm?
    ensures UpdatedLevels(name, OwnLevels(levels, sh, i), OwnValue(g, sh, i), rule)
         == OwnLevels(UpdatedLevels(name, levels, g, rule), sh, i)
  {
    hide RowsUpdated, OwnRows;
    forall k: nat | k < |levels|
      ensures UpdatedLevel(name, OwnLevels(levels, sh, i), OwnValue(g, sh, i), rule, k)
           == OwnValue(UpdatedLevel(name, levels, g, rule, k), sh, i)
    {
      if g.Srm? {
        OwnRowsUpdated(name, levels, g.rows, rule, sh, i, k);
      }
    }
  }

  lemma OwnDense(levels: seq<Value>, sh: Shard, i: nat)
    requires LevelsFit(levels) && levels[0].Tsr?
    ensures OwnLevels(levels, sh, i) == levels
  {
    forall k: nat | k < |levels|
      ensures levels[k].Tsr?
    {
      assert SlotFits(levels[0], levels[k]);
    }
  }

  lemma OwnLevelsFit(levels: seq<Value>, sh: Shard, i: nat)
    requires LevelsFit(levels)
    ensures LevelsFit(OwnLevels(levels, sh, i))
  {
    var own := OwnLevels(levels, sh, i);
    forall k: nat | k < |own|
      ensures SlotFits(own[0], own[k])
    {
      assert SlotFits(levels[0], levels[k]);
    }
  }

  /** One parameter and its slots on the shard that holds it or its rows. */
  lemma OwnUpdated(name: string, levels: seq<Value>, param: TensorMap, grad: TensorMap, rule: Rule, sh: Shard,
                   i: nat)
    requires InPlace(rule) && LevelsFit(levels) && name in grad
    requires levels[0].Tsr? && levels[0].shape == [] ==> levels[0].data == []
    requires levels[0].Tsr? ==> sh.tsr(name) == i
    requires name in param && SameKind(param[name], levels[0])
    ensures var part := RemoveEmptyValue(GradPlaced(param, grad, sh, i));
            var own := OwnLevels(levels, sh, i);
            OwnLevels(UpdatedLevels(name, levels, grad[name], rule), sh, i)
            == if name in part then UpdatedLevels(name, own, part[name], rule) else own
  {
    hide InPlace, OwnRows, UpdatedLevels, OwnLevels;
    var g, own := grad[name], OwnLevels(levels, sh, i);
    OwnLevelsFit(levels, sh, i);
    LevelsFirst(levels, sh, i);
    if levels[0].Tsr? {
      OwnDense(levels, sh, i);
      UpdatedDense(name, levels, g, rule, sh, i);
      if IsEmpty(g) {
        EmptyGradient(name, levels, g, rule);
      }
    } else {
      OwnLevelsUpdated(name, levels, g, rule, sh, i);
      if g.Tsr? {
        NotApplied(name, own, g, rule);
      } else if IsEmpty(OwnValue(g, sh, i)) {
        EmptyGradient(name, own, OwnValue(g, sh, i), rule);
      }
    }
  }

  lemma LevelsFirst(levels: seq<Value>, sh: Shard, i: nat)
    requires levels != []
    ensures OwnLevels(levels, sh, i)[0] == OwnValue(levels[0], sh, i)
  {
  }

  lemma UpdatedDense(name: string, levels: seq<Value>, g: Value, rule: Rule, sh: Shard, i: nat)
    requires InPlace(rule) && LevelsFit(levels) && levels[0].Tsr?
    ensures OwnLevels(UpdatedLevels(name, levels, g, rule), sh, i) == UpdatedLevels(name, levels, g, rule)
  {
    forall k: nat | k < |levels|
      ensures UpdatedLevels(name, levels, g, rule)[k].Tsr?
    {
      assert SlotFits(levels[0], levels[k]);
      LevelKeepsForm(name, levels, g, rule, k);
    }
  }

  lemma NotApplied(name: string, levels: seq<Value>, g: Value, rule: Rule)
    requires levels != [] && !Applies(levels[0], g)
    ensures UpdatedLevels(name, levels, g, rule) == levels
  {
  }

  lemma LevelsPlaced(t: Trained, sh: Shard, i: nat, name: string)
    requires Slotted(t) && name in Placed(t.param, sh, i)
    ensures name in t.param && name in t.slots && (t.param[name].Tsr? ==> sh.tsr(name) == i)
    ensures var part := TrainedPlaced(t, sh, i);
            && name in part.param && name in part.slots
            && LevelsOf(part, name) == OwnLevels(LevelsOf(t, name), sh, i)
  {
  }

  lemma LevelsUpdated(t: Trained, grad: TensorMap, rule: Rule, name: string)
    requires name in t.param && name in t.slots
    ensures var after := Updated(t, grad, rule);
            && name in after.param && name in after.slots
            && LevelsOf(after, name)
               == if name in grad then UpdatedLevels(name, LevelsOf(t, name), grad[name], rule)
                  else LevelsOf(t, name)
  {
    hide UpdatedLevels;
  }

  lemma KeysStay(t: Trained, sh: Shard, grad: TensorMap, part: TensorMap, rule: Rule, i: nat)
    requires Slotted(t) && InPlace(rule)
    ensures Slotted(Updated(t, grad, rule))
    ensures var a, b := Updated(TrainedPlaced(t, sh, i), part, rule), TrainedPlaced(Updated(t, grad, rule), sh, i);
            a.param.Keys == b.param.Keys == a.slots.Keys == b.slots.Keys == Placed(t.param, sh, i).Keys
  {
    hide UpdatedLevels, InPlace;
    UpdateKeepsSlotted(t, grad, rule);
    PlacedSlotted(t, sh, i);
    PlacedSlotted(Updated(t, grad, rule), sh, i);
    forall name | name in t.param
      ensures SameKind(t.param[name], Updated(t, grad, rule).param[name])
    {
      FormStays(t, grad, rule, name);
    }
  }

  lemma FormStays(t: Trained, grad: TensorMap, rule: Rule, name: string)
    requires InPlace(rule) && name in t.param
    ensures SlotFits(t.param[name], Updated(t, grad, rule).param[name])
  {
    hide UpdatedLevel, InPlace;
    if name in grad {
      LevelKeepsForm(name, LevelsOf(t, name), grad[name], rule, 0);
    }
  }

  lemma SameLevels(a: Trained, b: Trained)
    requires a.param.Keys == b.param.Keys == a.slots.Keys == b.slots.Keys
    requires forall name :: name in a.param ==> LevelsOf(a, name) == LevelsOf(b, name)
    ensures a == b
  {
    forall name | name in a.param
      ensures a.param[name] == b.param[name] && a.slots[name] == b.slots[name]
    {
      assert LevelsOf(a, name)[0] == LevelsOf(b, name)[0] && LevelsOf(a, name)[1..] == LevelsOf(b, name)[1..];
      assert LevelsOf(a, name)[1..] == a.slots[name] && LevelsOf(b, name)[1..] == b.slots[name];
    }
  }

  /** Updating the parts of a model by the parts of a gradient updates the model. */
  lemma ShardUpdate(t: Trained, sh: Shard, param: TensorMap, grad: TensorMap, rule: Rule, i: nat)
    requires Knows(param, t.param) && InPlace(rule) && Slotted(t)
    ensures Updated(TrainedPlaced(t, sh, i), RemoveEmptyValue(GradPlaced(param, grad, sh, i)), rule)
         == TrainedPlaced(Updated(t, grad, rule), sh, i)
  {
    hide *;
    var part := RemoveEmptyValue(GradPlaced(param, grad, sh, i));
    var a, b := Updated(TrainedPlaced(t, sh, i), part, rule), TrainedPlaced(Updated(t, grad, rule), sh, i);
    KeysStay(t, sh, grad, part, rule, i);
    forall name | name in a.param
      ensures LevelsOf(a, name) == LevelsOf(b, name)
    {
      UpdatedAt(t, sh, param, grad, rule, i, name);
    }
    SameLevels(a, b);
  }

  lemma PartWithin(param: TensorMap, grad: TensorMap, sh: Shard, i: nat)
    ensures RemoveEmptyValue(GradPlaced(param, grad, sh, i)).Keys <= grad.Keys
  {
  }

  lemma UpdatedAt(t: Trained, sh: Shard, param: TensorMap, grad: TensorMap, rule: Rule, i: nat, name: string)
    requires Knows(param, t.param) && InPlace(rule) && Slotted(t) && name in Placed(t.param, sh, i)
    ensures var a := Updated(TrainedPlaced(t, sh, i), RemoveEmptyValue(GradPlaced(param, grad, sh, i)), rule);
            var b := TrainedPlaced(Updated(t, grad, rule), sh, i);
            name in a.param && name in b.param && LevelsOf(a, name) == LevelsOf(b, name)
  {
    hide InPlace, UpdatedLevels, GradPlaced, RemoveEmptyValue, Updated, Placed, LevelsOf, OwnLevels, Slotted, Knows;
    var part := RemoveEmptyValue(GradPlaced(param, grad, sh, i));
    LevelsPlaced(t, sh, i, name);
    LevelsUpdated(TrainedPlaced(t, sh, i), part, rule, name);
    LevelsUpdated(t, grad, rule, name);
    KeysStay(t, sh, grad, part, rule, i);
    LevelsPlaced(Updated(t, grad, rule), sh, i, name);
    PartWithin(param, grad, sh, i);
    if name in grad {
      FirstLevel(t, param, name);
      OwnUpdated(name, LevelsOf(t, name), param, grad, rule, sh, i);
    }
  }

  lemma FirstLevel(t: Trained, param: TensorMap, name: string)
    requires Knows(param, t.param) && Slotted(t) && name in t.param
    ensures var levels := LevelsOf(t, name);
            && LevelsFit(levels) && name in param && SameKind(param[name], levels[0]) && levels[0] == t.param[name]
            && (levels[0].Tsr? && levels[0].shape == [] ==> levels[0].data == [])
  {
    LevelsOfSlotted(t, name);
  }

  lemma ShardOverwrite(m: TensorMap, sh: Shard, given: TensorMap, i: nat)
    requires ConsistentTsr(m) && ConsistentTsr(given)
    ensures Overwritten(Placed(m, sh, i), RemoveEmptyValue(Placed(given, sh, i)))
         == Placed(Overwritten(m, given), sh, i)
  {
    hide OwnRows;
    var part := RemoveEmptyValue(Placed(given, sh, i));
    var a, b := Overwritten(Placed(m, sh, i), part), Placed(Overwritten(m, given), sh, i);
    assert a.Keys == b.Keys;
    forall name | name in a
      ensures a[name] == b[name]
    {
      if name in given && m[name].Srm? && given[name].Srm? {
        OwnAdded(m[name].rows, given[name].rows, sh, i);
      }
    }
  }

  /** Pushing to the parts of a trained model the parts of a gradient and of new values updates
      the model and its optimizer's slots as one. */
  lemma ShardPush(t: Trained, sh: Shard, param: TensorMap, grad: TensorMap, given: TensorMap, rule: Rule, i: nat)
    requires Knows(param, t.param) && InPlace(rule) && Slotted(t) && ConsistentTsr(given)
    ensures Pushed(TrainedPlaced(t, sh, i), RemoveEmptyValue(GradPlaced(param, grad, sh, i)),
                   RemoveEmptyValue(Placed(given, sh, i)), rule)
         == TrainedPlaced(Pushed(t, grad, given, rule), sh, i)
  {
    hide InPlace, Placed, RemoveEmptyValue, GradPlaced, Updated;
    ShardUpdate(t, sh, param, grad, rule, i);
    UpdateKeepsSlotted(t, grad, rule);
    var updated := Updated(t, grad, rule);
    ShardOverwrite(updated.param, sh, given, i);
    KindsPlace(updated.param, Overwritten(updated.param, given), updated.slots, sh, i);
  }

  /** Where slots lie depends on the names and kinds of the parameters alone. */
  lemma KindsPlace(param: TensorMap, param': TensorMap, slots: Slots, sh: Shard, i: nat)
    requires param.Keys == param'.Keys && forall name :: name in param ==> SameKind(param[name], param'[name])
    ensures SlotsPlaced(param, slots, sh, i) == SlotsPlaced(param', slots, sh, i)
  {
  }

  /** A push keeps the form of all parameters and slots. */
  lemma PushKeepsSlotted(t: Trained, grad: TensorMap, given: TensorMap, rule: Rule)
    requires InPlace(rule) && Slotted(t) && ConsistentTsr(given)
    ensures Slotted(Pushed(t, grad, given, rule))
    ensures Pushed(t, grad, given, rule).param.Keys == t.param.Keys
    ensures forall name :: name in t.param ==> SlotFits(t.param[name], Pushed(t, grad, given, rule).param[name])
  {
    hide InPlace, Updated;
    UpdateKeepsSlotted(t, grad, rule);
    UpdatedKeys(t, grad, rule);
    var updated := Updated(t, grad, rule);
    forall name | name in t.param
      ensures SlotFits(t.param[name], Pushed(t, grad, given, rule).param[name])
    {
      FormStays(t, grad, rule, name);
      OverwrittenForm(updated.param, given, name);
    }
  }

  lemma UpdatedKeys(t: Trained, grad: TensorMap, rule: Rule)
    ensures Updated(t, grad, rule).param.Keys == t.param.Keys
  {
  }

  lemma OverwrittenForm(param: TensorMap, given: TensorMap, name: string)
    requires name in param && ConsistentTsr(param) && ConsistentTsr(given)
    ensures SlotFits(param[name], Overwritten(param, given)[name])
  {
  }

  /** The batch asked for all parameters that it has gradients or new values for. */
  predicate AskedFor(req: PullRequest, param: TensorMap, grad: TensorMap, given: TensorMap) {
    && (forall name :: name in grad && name in param ==>
          if param[name].Tsr? then name in req.tsrSet else name in req.srmMap)
    && (forall name :: name in given ==>
          if given[name].Tsr? then name in req.tsrSet else name in req.srmMap)
  }

  /** A request for everything allows every push; without the name of a parameter, dense or sparse,
      nothing may be pushed to it. */
  lemma WhatMayBePushed(req: PullRequest, param: TensorMap, grad: TensorMap, name: string)
    requires name in param
    ensures (forall n :: n in param ==> if param[n].Tsr? then n in req.tsrSet else n in req.srmMap) ==>
              AskedFor(req, param, grad, param)
    ensures (if param[name].Tsr? then name !in req.tsrSet else name !in req.srmMap) && name in grad ==>
              !AskedFor(req, param, grad, map[])
    ensures AskedFor(req, param, map[], map[])
  {
  }

  /** A shard that was asked for nothing has nothing to be pushed. */
  lemma MaskWithholdsNothing(sh: Shard, req: PullRequest, param: TensorMap, grad: TensorMap,
                             given: TensorMap, i: nat)
    requires AskedFor(req, param, grad, given) && EmptyRequest(RequestPart(req, sh, i))
    ensures RemoveEmptyValue(GradPlaced(param, grad, sh, i)) == map[]
    ensures RemoveEmptyValue(Placed(given, sh, i)) == map[]
  {
    var part := RequestPart(req, sh, i);
    assert req.srmMap == map[] by {
      assert part.srmMap.Keys == req.srmMap.Keys;
    }
    forall name | name in req.tsrSet
      ensures sh.tsr(name) != i
    {
      assert name !in part.tsrSet;
    }
    assert GradPlaced(param, grad, sh, i) == map[];
    assert Placed(given, sh, i) == map[];
  }

  lemma PushedNothing(t: Trained, rule: Rule)
    ensures Pushed(t, map[], map[], rule) == t
  {
  }

  // ---------------------------------------------------------------------------------------
  // Loading with another number of shards
  // ---------------------------------------------------------------------------------------

  /** A model of the graph: all parameters, as declared. */
  predicate Fits(m: TensorMap, graph: map<string, Declared>) {
    && m.Keys == graph.Keys
    && forall name :: name in m ==>
         match graph[name]
         case DenseParam(shape) => m[name].Tsr? && m[name].shape == shape
         case SparseParam(col) => m[name].Srm? && m[name].col == col
  }

  /** A model that was initialised as one shard is one of its graph. */
  lemma InitialFits(graph: map<string, Declared>, random: TsrInit, sh: Shard)
    requires ValidShard(sh) && sh.size == 1
    ensures Fits(Initial(graph, random, sh, 0), graph)
  {
    forall name | name in graph
      ensures sh.tsr(name) == 0
    {
      assert sh.tsr(name) < 1;
    }
    assert Initial(graph, random, sh, 0).Keys == graph.Keys;
  }

  /** The parameters of new shard j after merging the first k files of the old shards. */
  function LoadedUpto(m: TensorMap, graph: map<string, Declared>, random: TsrInit, old': Shard,
                      new': Shard, j: nat, k: nat): TensorMap
    requires Fits(m, graph)
  {
    map name | name in m && (m[name].Tsr? ==> new'.tsr(name) == j) ::
      match m[name]
      case Tsr(_, _) => if old'.tsr(name) < k then m[name] else Fresh(graph[name], name, random)
      case Srm(col, rows) => Srm(col, map id | id in rows && new'.srm(id) == j && old'.srm(id) < k :: rows[id])
  }

  /** The files of a model that was saved by the old shards. */
  ghost predicate AreFilesOf(files: seq<TensorMap>, m: TensorMap, sh: Shard) {
    forall i :: 0 <= i < |files| ==> files[i] == Placed(m, sh, i)
  }

  lemma {:induction false} LoadedFrom(m: TensorMap, graph: map<string, Declared>, random: TsrInit,
                                      old': Shard, new': Shard, j: nat, files: seq<TensorMap>)
    requires Fits(m, graph) && AreFilesOf(files, m, old')
    ensures MergedFrom(Initial(graph, random, new', j), files, new', j)
         == LoadedUpto(m, graph, random, old', new', j, |files|)
    decreases |files|
  {
    if files == [] {
      assert Initial(graph, random, new', j) == LoadedUpto(m, graph, random, old', new', j, 0);
    } else {
      var last := |files| - 1;
      LoadedFrom(m, graph, random, old', new', j, files[..last]);
      LoadedStep(m, graph, random, old', new', j, last);
    }
  }

  lemma LoadedStep(m: TensorMap, graph: map<string, Declared>, random: TsrInit, old': Shard, new': Shard,
                   j: nat, k: nat)
    requires Fits(m, graph)
    ensures Merged(LoadedUpto(m, graph, random, old', new', j, k), Placed(m, old', k), new', j)
         == LoadedUpto(m, graph, random, old', new', j, k + 1)
  {
    hide OwnRows;
    var a := Merged(LoadedUpto(m, graph, random, old', new', j, k), Placed(m, old', k), new', j);
    var b := LoadedUpto(m, graph, random, old', new', j, k + 1);
    assert a.Keys == b.Keys;
    forall name | name in a
      ensures a[name] == b[name]
    {
      if m[name].Srm? {
        RowsLoaded(m[name].rows, old', new', j, k);
      }
    }
  }

  lemma RowsLoaded(rows: map<nat, Row>, old': Shard, new': Shard, j: nat, k: nat)
    ensures OwnRows(OwnRows(rows, old', k), new', j)
            + (map id | id in rows && new'.srm(id) == j && old'.srm(id) < k :: rows[id])
         == (map id | id in rows && new'.srm(id) == j && old'.srm(id) < k + 1 :: rows[id])
  {
  }

  /** Loading all files of the old shards gives every new shard its part of the same model; no
      random value survives. */
  lemma ReshardingConserves(m: TensorMap, graph: map<string, Declared>, random: TsrInit, old': Shard,
                            new': Shard, j: nat, files: seq<TensorMap>)
    requires ValidShard(old') && Fits(m, graph)
    requires |files| == old'.size && AreFilesOf(files, m, old')
    ensures MergedFrom(Initial(graph, random, new', j), files, new', j) == Placed(m, new', j)
  {
    LoadedFrom(m, graph, random, old', new', j, files);
    var a, b := LoadedUpto(m, graph, random, old', new', j, old'.size), Placed(m, new', j);
    assert a.Keys == b.Keys;
    forall name | name in a
      ensures a[name] == b[name]
    {
      if m[name].Srm? {
        AllRowsLoaded(m[name].rows, old', new', j);
      }
    }
  }

  lemma AllRowsLoaded(rows: map<nat, Row>, old': Shard, new': Shard, j: nat)
    requires ValidShard(old')
    ensures (map id | id in rows && new'.srm(id) == j && old'.srm(id) < old'.size :: rows[id])
         == OwnRows(rows, new', j)
  {
  }

  /** From m shards to n shards and back: every shard has what it had. */
  lemma ReshardingThereAndBack(m: TensorMap, graph: map<string, Declared>, random: TsrInit, here: Shard,
                               there: Shard, files: seq<TensorMap>, moved: seq<TensorMap>,
                               back: seq<TensorMap>)
    requires ValidShard(here) && ValidShard(there) && Fits(m, graph)
    requires |files| == here.size && AreFilesOf(files, m, here)
    requires |moved| == there.size && forall j :: 0 <= j < |moved| ==>
               moved[j] == MergedFrom(Initial(graph, random, there, j), files, there, j)
    requires |back| == here.size && forall i :: 0 <= i < |back| ==>
               back[i] == MergedFrom(Initial(graph, random, here, i), moved, here, i)
    ensures back == files
  {
    forall j | 0 <= j < |moved|
      ensures moved[j] == Placed(m, there, j)
    {
      ReshardingConserves(m, graph, random, here, there, j, files);
    }
    forall i | 0 <= i < |back|
      ensures back[i] == files[i]
    {
      ReshardingConserves(m, graph, random, there, here, i, moved);
    }
  }

  // ---------------------------------------------------------------------------------------
  // Loading the optimizer's slots
  // ---------------------------------------------------------------------------------------

  /** The k-th slots of all parameters that have so many. */
  function SlotLevel(slots: Slots, k: nat): TensorMap {
    map name | name in slots && k < |slots[name]| :: slots[name][k]
  }

  function SlotLevels(files: seq<Slots>, k: nat): (r: seq<TensorMap>)
    ensures |r| == |files|
  {
    seq(|files|, i requires 0 <= i < |files| => SlotLevel(files[i], k))
  }

  /** One remote optimizer after the other. */
  function MergedSlotsFrom(slots: Slots, remotes: seq<Slots>, sh: Shard, i: nat): Slots {
    if remotes == [] then slots
    else
      var last := |remotes| - 1;
      MergedSlots(MergedSlotsFrom(slots, remotes[..last], sh, i), remotes[last], sh, i)
  }

  /** Every parameter has the number of slots that the optimizer keeps for its form. */
  predicate Counted(slots: Slots, graph: map<string, Declared>, count: SlotCount) {
    forall name :: name in slots ==> name in graph && |slots[name]| == count(graph[name])
  }

  lemma LevelMerged(slots: Slots, remote: Slots, graph: map<string, Declared>, count: SlotCount, sh: Shard,
                    i: nat, k: nat)
    requires Counted(slots, graph, count) && Counted(remote, graph, count)
    ensures Counted(MergedSlots(slots, remote, sh, i), graph, count)
    ensures SlotLevel(MergedSlots(slots, remote, sh, i), k)
         == Merged(SlotLevel(slots, k), SlotLevel(remote, k), sh, i)
  {
    hide MergedValue;
    var a := SlotLevel(MergedSlots(slots, remote, sh, i), k);
    var b := Merged(SlotLevel(slots, k), SlotLevel(remote, k), sh, i);
    assert a.Keys == b.Keys;
  }

  lemma {:induction false} LevelsMerged(slots: Slots, remotes: seq<Slots>, graph: map<string, Declared>,
                                        count: SlotCount, sh: Shard, i: nat, k: nat)
    requires Counted(slots, graph, count) && forall r :: r in remotes ==> Counted(r, graph, count)
    ensures Counted(MergedSlotsFrom(slots, remotes, sh, i), graph, count)
    ensures MergedSlotsFrom(slots, remotes, sh, i).Keys == slots.Keys
    ensures SlotLevel(MergedSlotsFrom(slots, remotes, sh, i), k)
         == MergedFrom(SlotLevel(slots, k), SlotLevels(remotes, k), sh, i)
    decreases |remotes|
  {
    hide Counted, SlotLevel, MergedSlots;
    if remotes != [] {
      var last := |remotes| - 1;
      var before := MergedSlotsFrom(slots, remotes[..last], sh, i);
      LevelsMerged(slots, remotes[..last], graph, count, sh, i, k);
      LevelMerged(before, remotes[last], graph, count, sh, i, k);
      assert SlotLevels(remotes, k)[..last] == SlotLevels(remotes[..last], k);
      MergedSlotsKeys(before, remotes[last], sh, i);
    }
  }

  lemma MergedSlotsKeys(slots: Slots, remote: Slots, sh: Shard, i: nat)
    ensures MergedSlots(slots, remote, sh, i).Keys == slots.Keys
  {
  }

  function GraphLevel(graph: map<string, Declared>, count: SlotCount, k: nat): map<string, Declared> {
    map name | name in graph && k < count(graph[name]) :: graph[name]
  }

  function AllZero(shape: seq<nat>): seq<real> {
    seq(if shape == [] then 0 else Product(shape), j => 0.0)
  }

  lemma InitialLevel(param: TensorMap, graph: map<string, Declared>, count: SlotCount, sh: Shard, i: nat, k: nat)
    requires Fits(param, graph) && ConsistentTsr(param)
    ensures Counted(InitialSlots(Placed(param, sh, i), count), graph, count)
    ensures SlotLevel(InitialSlots(Placed(param, sh, i), count), k)
         == Initial(GraphLevel(graph, count, k), (name, shape) => AllZero(shape), sh, i)
  {
    hide OwnRows, Product;
    var part := Placed(param, sh, i);
    assert part.Keys <= graph.Keys && forall name :: name in part ==> FormOf(part[name]) == graph[name];
    hide Placed;
    var a := SlotLevel(InitialSlots(part, count), k);
    var b := Initial(GraphLevel(graph, count, k), (name, shape) => AllZero(shape), sh, i);
    InitialKeys(param, graph, count, sh, i, k);
    forall name | name in a
      ensures a[name] == b[name]
    {
      ZeroIsFresh(param, graph, sh, i, name);
    }
  }

  lemma InitialKeys(param: TensorMap, graph: map<string, Declared>, count: SlotCount, sh: Shard, i: nat, k: nat)
    requires Fits(param, graph)
    ensures SlotLevel(InitialSlots(Placed(param, sh, i), count), k).Keys
         == Initial(GraphLevel(graph, count, k), (name, shape) => AllZero(shape), sh, i).Keys
  {
  }

  lemma ZeroIsFresh(param: TensorMap, graph: map<string, Declared>, sh: Shard, i: nat, name: string)
    requires Fits(param, graph) && ConsistentTsr(param) && name in Placed(param, sh, i)
    ensures name in graph
    ensures Zero(Placed(param, sh, i)[name]) == Fresh(graph[name], name, (n, shape) => AllZero(shape))
  {
  }

  lemma PlacedLevel(t: Trained, graph: map<string, Declared>, count: SlotCount, sh: Shard, i: nat, k: nat)
    requires Slotted(t) && Counted(t.slots, graph, count)
    ensures Counted(SlotsPlaced(t.param, t.slots, sh, i), graph, count)
    ensures SlotLevel(SlotsPlaced(t.param, t.slots, sh, i), k) == Placed(SlotLevel(t.slots, k), sh, i)
  {
    hide OwnRows;
    forall name | name in t.slots && k < |t.slots[name]|
      ensures SameKind(t.param[name], t.slots[name][k])
    {
      assert t.slots[name][k] in t.slots[name];
    }
    var a, b := SlotLevel(SlotsPlaced(t.param, t.slots, sh, i), k), Placed(SlotLevel(t.slots, k), sh, i);
    assert a.Keys == b.Keys;
  }

  lemma LevelFits(t: Trained, graph: map<string, Declared>, count: SlotCount, k: nat)
    requires Slotted(t) && Fits(t.param, graph) && Counted(t.slots, graph, count)
    ensures Fits(SlotLevel(t.slots, k), GraphLevel(graph, count, k))
  {
    forall name | name in SlotLevel(t.slots, k)
      ensures SlotFits(t.param[name], t.slots[name][k])
    {
      assert t.slots[name][k] in t.slots[name];
    }
    assert SlotLevel(t.slots, k).Keys == GraphLevel(graph, count, k).Keys;
  }

  lemma SameSlots(a: Slots, b: Slots, graph: map<string, Declared>, count: SlotCount)
    requires a.Keys == b.Keys && Counted(a, graph, count) && Counted(b, graph, count)
    requires forall k: nat :: SlotLevel(a, k) == SlotLevel(b, k)
    ensures a == b
  {
    forall name | name in a
      ensures a[name] == b[name]
    {
      forall k: nat | k < |a[name]|
        ensures a[name][k] == b[name][k]
      {
        assert name in SlotLevel(a, k) && SlotLevel(a, k)[name] == SlotLevel(b, k)[name];
      }
    }
  }

  /** Merging the old shards' optimizers gives every new shard the slots of its part of the
      model, as they were. */
  lemma ReshardingConservesSlots(t: Trained, graph: map<string, Declared>, count: SlotCount, old': Shard,
                                 new': Shard, j: nat, files: seq<Slots>)
    requires ValidShard(old') && Slotted(t) && Fits(t.param, graph) && Counted(t.slots, graph, count)
    requires |files| == old'.size && forall i :: 0 <= i < |files| ==> files[i] == SlotsPlaced(t.param, t.slots, old', i)
    ensures MergedSlotsFrom(InitialSlots(Placed(t.param, new', j), count), files, new', j)
         == SlotsPlaced(t.param, t.slots, new', j)
  {
    hide *;
    var start := InitialSlots(Placed(t.param, new', j), count);
    var a, b := MergedSlotsFrom(start, files, new', j), SlotsPlaced(t.param, t.slots, new', j);
    forall k: nat
      ensures Counted(a, graph, count) && Counted(b, graph, count) && a.Keys == start.Keys
      ensures SlotLevel(a, k) == SlotLevel(b, k)
    {
      LevelConserved(t, graph, count, old', new', j, files, k);
    }
    assert Counted(a, graph, count) && Counted(b, graph, count) && a.Keys == start.Keys by {
      LevelConserved(t, graph, count, old', new', j, files, 0);
    }
    StartKeys(t, count, new', j);
    SameSlots(a, b, graph, count);
  }

  lemma StartKeys(t: Trained, count: SlotCount, sh: Shard, i: nat)
    requires Slotted(t)
    ensures InitialSlots(Placed(t.param, sh, i), count).Keys == SlotsPlaced(t.param, t.slots, sh, i).Keys
  {
  }

  lemma LevelConserved(t: Trained, graph: map<string, Declared>, count: SlotCount, old': Shard, new': Shard,
                       j: nat, files: seq<Slots>, k: nat)
    requires ValidShard(old') && Slotted(t) && Fits(t.param, graph) && Counted(t.slots, graph, count)
    requires |files| == old'.size && forall i :: 0 <= i < |files| ==> files[i] == SlotsPlaced(t.param, t.slots, old', i)
    ensures var start := InitialSlots(Placed(t.param, new', j), count);
            var a, b := MergedSlotsFrom(start, files, new', j), SlotsPlaced(t.param, t.slots, new', j);
            && Counted(a, graph, count) && Counted(b, graph, count) && a.Keys == start.Keys
            && SlotLevel(a, k) == SlotLevel(b, k)
  {
    hide Placed, SlotsPlaced, Slotted, SlotLevel, GraphLevel, Counted, Fits, InitialSlots, ValidShard, Initial,
         MergedFrom, MergedSlotsFrom;
    var start := InitialSlots(Placed(t.param, new', j), count);
    var m := SlotLevel(t.slots, k);
    Consistent(t);
    InitialLevel(t.param, graph, count, new', j, k);
    PlacedLevel(t, graph, count, new', j, k);
    LevelFits(t, graph, count, k);
    forall i: nat | i < |files|
      ensures Counted(files[i], graph, count) && SlotLevels(files, k)[i] == Placed(m, old', i)
    {
      PlacedLevel(t, graph, count, old', i, k);
    }
    LevelsMerged(start, files, graph, count, new', j, k);
    ReshardingConserves(m, GraphLevel(graph, count, k), (name, shape) => AllZero(shape), old', new', j,
                        SlotLevels(files, k));
  }

  lemma Consistent(t: Trained)
    requires Slotted(t)
    ensures ConsistentTsr(t.param)
  {
  }

  // ---------------------------------------------------------------------------------------
  // The stores keyed by id alone (frequencies, timestamps)
  // ---------------------------------------------------------------------------------------

  function OwnEntries(entries: map<nat, nat>, sh: Shard, i: nat): map<nat, nat> {
    map id | id in entries && sh.srm(id) == i :: entries[id]
  }

  /** Merging takes over the shard's own entries as far as they are new. */
  function MergedEntries(local: map<nat, nat>, remotes: seq<map<nat, nat>>, sh: Shard, i: nat): map<nat, nat> {
    if remotes == [] then local
    else
      var last := |remotes| - 1;
      OwnEntries(remotes[last], sh, i) + MergedEntries(local, remotes[..last], sh, i)
  }

  lemma {:induction false} EntriesUpto(entries: map<nat, nat>, old': Shard, new': Shard, j: nat,
                                       files: seq<map<nat, nat>>)
    requires forall i :: 0 <= i < |files| ==> files[i] == OwnEntries(entries, old', i)
    ensures MergedEntries(map[], files, new', j)
         == map id | id in entries && new'.srm(id) == j && old'.srm(id) < |files| :: entries[id]
    decreases |files|
  {
    if files != [] {
      EntriesUpto(entries, old', new', j, files[..|files| - 1]);
    }
  }

  lemma ReshardingConservesEntries(entries: map<nat, nat>, old': Shard, new': Shard, j: nat,
                                   files: seq<map<nat, nat>>)
    requires ValidShard(old') && |files| == old'.size
    requires forall i :: 0 <= i < |files| ==> files[i] == OwnEntries(entries, old', i)
    ensures MergedEntries(map[], files, new', j) == OwnEntries(entries, new', j)
  {
    EntriesUpto(entries, old', new', j, files);
  }
}
