// The sharded model (src/graph/model_shard.cc): splitting requests, gradients and parameters
// by key, and loading a model that was saved with another number of shards.
module ModelShards {
  import opened Maps
  import opened TensorMaps
  import opened Models

  // ---------------------------------------------------------------------------------------
  // Splitting a pull request
  // ---------------------------------------------------------------------------------------

  /** The part of a request that goes to shard i: every matrix is named on every shard. */
  function RequestPart(full: PullRequest, sh: Shard, i: nat): PullRequest {
    PullRequest(
      full.isTrain,
      set name | name in full.tsrSet && sh.tsr(name) == i,
      map name | name in full.srmMap :: OwnIds(full.srmMap[name], sh, i),
      map id | id in full.idFreqMap && sh.srm(id) == i :: full.idFreqMap[id])
  }

  ghost predicate IsSplit(parts: seq<PullRequest>, full: PullRequest, sh: Shard) {
    |parts| == sh.size && forall i :: 0 <= i < |parts| ==> parts[i] == RequestPart(full, sh, i)
  }

  lemma SplitTsr(parts: seq<PullRequest>, done: PullRequest, sh: Shard, name: string)
    requires ValidShard(sh) && IsSplit(parts, done, sh)
    ensures var k := sh.tsr(name);
            IsSplit(parts[k := parts[k].(tsrSet := parts[k].tsrSet + {name})],
                    done.(tsrSet := done.tsrSet + {name}), sh)
  {
  }

  lemma SplitFreq(parts: seq<PullRequest>, done: PullRequest, sh: Shard, id: nat, freq: nat)
    requires ValidShard(sh) && IsSplit(parts, done, sh)
    ensures var k := sh.srm(id);
            IsSplit(parts[k := parts[k].(idFreqMap := parts[k].idFreqMap[id := freq])],
                    done.(idFreqMap := done.idFreqMap[id := freq]), sh)
  {
  }

  lemma SplitId(parts: seq<PullRequest>, done: PullRequest, sh: Shard, name: string, id: nat)
    requires ValidShard(sh) && IsSplit(parts, done, sh) && name in done.srmMap
    ensures var k := sh.srm(id);
            && name in parts[k].srmMap
            && IsSplit(parts[k := parts[k].(srmMap := parts[k].srmMap[name := parts[k].srmMap[name] + {id}])],
                       done.(srmMap := done.srmMap[name := done.srmMap[name] + {id}]), sh)
  {
    var k := sh.srm(id);
    var part := parts[k].(srmMap := parts[k].srmMap[name := parts[k].srmMap[name] + {id}]);
    var all := done.(srmMap := done.srmMap[name := done.srmMap[name] + {id}]);
    forall i | 0 <= i < |parts|
      ensures parts[k := part][i].srmMap == RequestPart(all, sh, i).srmMap
    {
      var own := OwnIds(done.srmMap[name], sh, i);
      assert parts[i] == RequestPart(done, sh, i);
      assert OwnIds(done.srmMap[name] + {id}, sh, i) == if i == k then own + {id} else own;
    }
  }

  // ---------------------------------------------------------------------------------------
  // Splitting gradients and parameters
  // ---------------------------------------------------------------------------------------

  /** A gradient is kept if its parameter is known and takes gradients of that kind. */
  predicate Kept(param: TensorMap, grad: TensorMap, name: string)
    requires name in grad
  {
    name in param && (param[name].Srm? ==> grad[name].Srm?)
  }

  /** The gradients that go to shard i: whole ones where the dense parameter is, rows where the
      rows are. */
  function GradPlaced(param: TensorMap, grad: TensorMap, sh: Shard, i: nat): TensorMap {
    map name | name in grad && Kept(param, grad, name) && (param[name].Tsr? ==> sh.tsr(name) == i) ::
      match param[name]
      case Tsr(_, _) => grad[name]
      case Srm(_, _) => Srm(grad[name].col, OwnRows(grad[name].rows, sh, i))
  }

  /** Splitting parameters is splitting them as their own gradients. */
  lemma PlacedIsGradPlaced(m: TensorMap, sh: Shard, i: nat)
    ensures GradPlaced(m, m, sh, i) == Placed(m, sh, i)
  {
  }

  /** The part holds the values placed on its shard; all else in it is empty. */
  ghost predicate Holds(part: TensorMap, placed: TensorMap) {
    && (forall name :: name in placed ==> name in part && part[name] == placed[name])
    && (forall name :: name in part && name !in placed ==> IsEmpty(part[name]))
  }

  ghost predicate AllHold(parts: seq<TensorMap>, param: TensorMap, grad: TensorMap, sh: Shard) {
    |parts| == sh.size && forall i :: 0 <= i < |parts| ==> Holds(parts[i], GradPlaced(param, grad, sh, i))
  }

  /** The share of one value that goes to shard i. */
  function Share(param: TensorMap, name: string, v: Value, sh: Shard, i: nat): Value
    requires name in param
  {
    if param[name].Srm? && v.Srm? then Srm(v.col, OwnRows(v.rows, sh, i)) else v
  }

  lemma GradPlacedMore(param: TensorMap, done: TensorMap, sh: Shard, i: nat, name: string, v: Value)
    requires name !in done
    ensures var before, after := GradPlaced(param, done, sh, i), GradPlaced(param, done[name := v], sh, i);
            after == if Kept(param, done[name := v], name) && (param[name].Tsr? ==> sh.tsr(name) == i)
                     then before[name := Share(param, name, v, sh, i)] else before
  {
  }

  lemma HoldsMore(part: TensorMap, placed: TensorMap, name: string, v: Value)
    requires Holds(part, placed)
    ensures Holds(part[name := v], placed[name := v])
  {
  }

  lemma HoldsAt(part: TensorMap, placed: TensorMap, name: string)
    requires Holds(part, placed) && name in placed
    ensures name in part && part[name] == placed[name]
  {
  }

  lemma PlaceNothing(parts: seq<TensorMap>, param: TensorMap, done: TensorMap, sh: Shard, name: string,
                     v: Value)
    requires AllHold(parts, param, done, sh) && name !in done
    requires !Kept(param, done[name := v], name)
    ensures AllHold(parts, param, done[name := v], sh)
  {
    hide Holds, GradPlaced;
    forall i: nat | i < |parts|
      ensures Holds(parts[i], GradPlaced(param, done[name := v], sh, i))
    {
      GradPlacedMore(param, done, sh, i, name, v);
    }
  }

  lemma PlaceWhole(parts: seq<TensorMap>, param: TensorMap, done: TensorMap, sh: Shard, name: string,
                   v: Value)
    requires ValidShard(sh) && AllHold(parts, param, done, sh) && name !in done
    requires name in param && param[name].Tsr?
    ensures var k := sh.tsr(name);
            AllHold(parts[k := parts[k][name := v]], param, done[name := v], sh)
  {
    hide Holds, GradPlaced;
    var k := sh.tsr(name);
    var after := parts[k := parts[k][name := v]];
    forall i: nat | i < |parts|
      ensures Holds(after[i], GradPlaced(param, done[name := v], sh, i))
    {
      GradPlacedMore(param, done, sh, i, name, v);
      HoldsMore(parts[i], GradPlaced(param, done, sh, i), name, v);
    }
  }

  lemma PlaceNoRows(before: seq<TensorMap>, after: seq<TensorMap>, param: TensorMap, done: TensorMap,
                    sh: Shard, name: string, col: nat)
    requires AllHold(before, param, done, sh) && name !in done
    requires name in param && param[name].Srm? && |after| == |before|
    requires forall i :: 0 <= i < |before| ==> after[i] == before[i][name := Srm(col, map[])]
    ensures AllHold(after, param, done[name := Srm(col, map[])], sh)
  {
    hide Holds, GradPlaced;
    forall i: nat | i < |after|
      ensures Holds(after[i], GradPlaced(param, done[name := Srm(col, map[])], sh, i))
    {
      assert OwnRows(map[], sh, i) == map[];
      GradPlacedMore(param, done, sh, i, name, Srm(col, map[]));
      HoldsMore(before[i], GradPlaced(param, done, sh, i), name, Srm(col, map[]));
    }
  }

  lemma HoldsRow(part: TensorMap, param: TensorMap, done: TensorMap, sh: Shard, i: nat, name: string,
                 col: nat, rows: map<nat, Row>, id: nat, row: Row)
    requires name in param && param[name].Srm? && name !in done && id !in rows
    requires Holds(part, GradPlaced(param, done[name := Srm(col, rows)], sh, i))
    ensures name in part && part[name].Srm?
    ensures Holds(if sh.srm(id) == i then part[name := Srm(col, part[name].rows[id := row])] else part,
                  GradPlaced(param, done[name := Srm(col, rows[id := row])], sh, i))
  {
    hide Holds, GradPlaced;
    GradPlacedMore(param, done, sh, i, name, Srm(col, rows));
    GradPlacedMore(param, done, sh, i, name, Srm(col, rows[id := row]));
    var own, own' := OwnRows(rows, sh, i), OwnRows(rows[id := row], sh, i);
    assert own' == if sh.srm(id) == i then own[id := row] else own;
    var placed := GradPlaced(param, done, sh, i);
    HoldsAt(part, placed[name := Srm(col, own)], name);
    HoldsMore(part, placed[name := Srm(col, own)], name, Srm(col, own'));
    assert placed[name := Srm(col, own)][name := Srm(col, own')] == placed[name := Srm(col, own')];
  }

  lemma PlaceRow(parts: seq<TensorMap>, param: TensorMap, done: TensorMap, sh: Shard, name: string,
                 col: nat, rows: map<nat, Row>, id: nat, row: Row)
    requires ValidShard(sh) && name in param && param[name].Srm? && name !in done && id !in rows
    requires AllHold(parts, param, done[name := Srm(col, rows)], sh)
    ensures var k := sh.srm(id);
            && k < |parts| && name in parts[k] && parts[k][name].Srm?
            && AllHold(parts[k := parts[k][name := Srm(col, parts[k][name].rows[id := row])]],
                       param, done[name := Srm(col, rows[id := row])], sh)
  {
    hide Holds, GradPlaced;
    var k := sh.srm(id);
    HoldsRow(parts[k], param, done, sh, k, name, col, rows, id, row);
    var after := parts[k := parts[k][name := Srm(col, parts[k][name].rows[id := row])]];
    forall i: nat | i < |parts|
      ensures Holds(after[i], GradPlaced(param, done[name := Srm(col, rows[id := row])], sh, i))
    {
      HoldsRow(parts[i], param, done, sh, i, name, col, rows, id, row);
    }
  }

  lemma AllHoldSize(parts: seq<TensorMap>, param: TensorMap, grad: TensorMap, sh: Shard)
    requires AllHold(parts, param, grad, sh)
    ensures |parts| == sh.size
  {
  }

  class ModelShard {
    const sh: Shard
    const shardId: nat
    var model: Model

    constructor (sh: Shard, shardId: nat)
      ensures this.sh == sh && this.shardId == shardId && fresh(model) && model.param == map[]
    {
      this.sh, this.shardId := sh, shardId;
      model := new Model();
    }

    /** Files of equally placed shards are taken as they are; otherwise all files are merged
        into freshly initialised parameters. */
    method LoadModel(graph: map<string, Declared>, random: TsrInit, files: seq<TensorMap>, samePlacement: bool)
      requires samePlacement ==> shardId < |files|
      modifies this`model
      ensures fresh(model)
      ensures model.param == if samePlacement then files[shardId]
                             else MergedFrom(Initial(graph, random, sh, shardId), files, sh, shardId)
    {
      model := new Model();
      if samePlacement {
        model.param := files[shardId];
        return;
      }
      model.InitParam(graph, random, sh, shardId);
      for i := 0 to |files|
        invariant fresh(model)
        invariant model.param == MergedFrom(Initial(graph, random, sh, shardId), files[..i], sh, shardId)
      {
        var remoteModel := new Model();
        remoteModel.param := files[i];
        assert files[..i + 1][..i] == files[..i];
        model.Merge(remoteModel, sh, shardId);
      }
      assert files[..|files|] == files;
    }

    method SplitPullRequest(full: PullRequest, parts: array<PullRequest>)
      requires ValidShard(sh) && parts.Length == sh.size
      modifies parts
      ensures IsSplit(parts[..], full, sh)
    {
      hide IsSplit;
      ClearRequests(full.isTrain, parts);
      SplitTsrSet(full.tsrSet, PullRequest(full.isTrain, {}, map[], map[]), parts);
      SplitSrmMap(full.srmMap, PullRequest(full.isTrain, full.tsrSet, map[], map[]), parts);
      SplitFreqMap(full.idFreqMap, PullRequest(full.isTrain, full.tsrSet, full.srmMap, map[]), parts);
    }

    method ClearRequests(isTrain: bool, parts: array<PullRequest>)
      requires ValidShard(sh) && parts.Length == sh.size
      modifies parts
      ensures IsSplit(parts[..], PullRequest(isTrain, {}, map[], map[]), sh)
    {
      for i := 0 to parts.Length
        invariant forall k :: 0 <= k < i ==> parts[k] == PullRequest(isTrain, {}, map[], map[])
      {
        parts[i] := PullRequest(isTrain, {}, map[], map[]);
      }
    }

    method SplitTsrSet(tsrSet: set<string>, ghost first: PullRequest, parts: array<PullRequest>)
      requires ValidShard(sh) && first.tsrSet == {} && IsSplit(parts[..], first, sh)
      modifies parts
      ensures IsSplit(parts[..], first.(tsrSet := tsrSet), sh)
    {
      var names := tsrSet;
      ghost var done: set<string> := {};
      while names != {}
        invariant names + done == tsrSet
        invariant IsSplit(parts[..], first.(tsrSet := done), sh)
        decreases |names|
      {
        var name :| name in names;
        SplitTsr(parts[..], first.(tsrSet := done), sh, name);
        var k := sh.tsr(name);
        ghost var before := parts[..];
        parts[k] := parts[k].(tsrSet := parts[k].tsrSet + {name});
        assert parts[..] == before[k := before[k].(tsrSet := before[k].tsrSet + {name})];
        names, done := names - {name}, done + {name};
      }
      assert done == tsrSet;
    }

    method SplitSrmMap(srmMap: map<string, set<nat>>, ghost first: PullRequest, parts: array<PullRequest>)
      requires ValidShard(sh) && first.srmMap == map[] && IsSplit(parts[..], first, sh)
      modifies parts
      ensures IsSplit(parts[..], first.(srmMap := srmMap), sh)
    {
      hide *;
      var names := srmMap.Keys;
      ExceptAll(srmMap);
      assert first.(srmMap := map[]) == first;
      while names != {}
        invariant names <= srmMap.Keys
        invariant IsSplit(parts[..], first.(srmMap := Except(srmMap, names)), sh)
        decreases |names|
      {
        var name :| name in names;
        ExceptLess(srmMap, names, name);
        SplitIds(name, srmMap[name], first.(srmMap := Except(srmMap, names)), parts);
        names := names - {name};
      }
      ExceptNone(srmMap);
    }

    method SplitIds(name: string, ids: set<nat>, ghost first: PullRequest, parts: array<PullRequest>)
      requires ValidShard(sh) && IsSplit(parts[..], first, sh) && name !in first.srmMap
      modifies parts
      ensures IsSplit(parts[..], first.(srmMap := first.srmMap[name := ids]), sh)
    {
      hide *;
      NamePart(name, first, parts);
      var left := ids;
      ghost var done: set<nat> := {};
      while left != {}
        invariant left + done == ids
        invariant IsSplit(parts[..], first.(srmMap := first.srmMap[name := done]), sh)
        decreases |left|
      {
        var id :| id in left;
        SplitOneId(name, id, first.(srmMap := first.srmMap[name := done]), parts);
        assert first.srmMap[name := done][name := done + {id}] == first.srmMap[name := done + {id}];
        left, done := left - {id}, done + {id};
      }
      assert done == ids;
    }

    method SplitOneId(name: string, id: nat, ghost done: PullRequest, parts: array<PullRequest>)
      requires ValidShard(sh) && IsSplit(parts[..], done, sh) && name in done.srmMap
      modifies parts
      ensures IsSplit(parts[..], done.(srmMap := done.srmMap[name := done.srmMap[name] + {id}]), sh)
    {
      hide IsSplit, RequestPart;
      SplitId(parts[..], done, sh, name, id);
      SplitSize(parts[..], done, sh);
      var k := sh.srm(id);
      ghost var before := parts[..];
      parts[k] := parts[k].(srmMap := parts[k].srmMap[name := parts[k].srmMap[name] + {id}]);
      assert parts[..] == before[k := parts[k]];
    }

    /** Every shard is asked for the matrix, even if for none of its rows. */
    method NamePart(name: string, ghost first: PullRequest, parts: array<PullRequest>)
      requires ValidShard(sh) && IsSplit(parts[..], first, sh) && name !in first.srmMap
      modifies parts
      ensures IsSplit(parts[..], first.(srmMap := first.srmMap[name := {}]), sh)
    {
      ghost var before := parts[..];
      for i := 0 to parts.Length
        invariant forall k :: 0 <= k < i ==>
                    parts[k] == before[k].(srmMap := before[k].srmMap[name := {}])
        invariant forall k :: i <= k < parts.Length ==> parts[k] == before[k]
      {
        parts[i] := parts[i].(srmMap := parts[i].srmMap[name := {}]);
      }
      SplitName(before, parts[..], first, sh, name);
    }

    method SplitFreqMap(idFreqMap: map<nat, nat>, ghost first: PullRequest, parts: array<PullRequest>)
      requires ValidShard(sh) && first.idFreqMap == map[] && IsSplit(parts[..], first, sh)
      modifies parts
      ensures IsSplit(parts[..], first.(idFreqMap := idFreqMap), sh)
    {
      hide *;
      var left := idFreqMap.Keys;
      ExceptAll(idFreqMap);
      assert first.(idFreqMap := map[]) == first;
      while left != {}
        invariant left <= idFreqMap.Keys
        invariant IsSplit(parts[..], first.(idFreqMap := Except(idFreqMap, left)), sh)
        decreases |left|
      {
        var id :| id in left;
        ExceptLess(idFreqMap, left, id);
        SplitOneFreq(id, idFreqMap[id], first.(idFreqMap := Except(idFreqMap, left)), parts);
        left := left - {id};
      }
      ExceptNone(idFreqMap);
    }

    method SplitOneFreq(id: nat, freq: nat, ghost done: PullRequest, parts: array<PullRequest>)
      requires ValidShard(sh) && IsSplit(parts[..], done, sh)
      modifies parts
      ensures IsSplit(parts[..], done.(idFreqMap := done.idFreqMap[id := freq]), sh)
    {
      hide IsSplit, RequestPart;
      SplitFreq(parts[..], done, sh, id, freq);
      SplitSize(parts[..], done, sh);
      var k := sh.srm(id);
      ghost var before := parts[..];
      parts[k] := parts[k].(idFreqMap := parts[k].idFreqMap[id := freq]);
      assert parts[..] == before[k := parts[k]];
    }

    /** Clears the parts of the batch before. */
    method ClearParts(parts: array<TensorMap>, ghost param: TensorMap)
      requires parts.Length == sh.size
      modifies parts
      ensures AllHold(parts[..], param, map[], sh)
    {
      for i := 0 to parts.Length
        invariant forall k :: 0 <= k < i ==> Holds(parts[k], map[])
      {
        parts[i] := ClearValue(parts[i]);
      }
      forall i | 0 <= i < parts.Length
        ensures Holds(parts[i], GradPlaced(param, map[], sh, i))
      {
        assert GradPlaced(param, map[], sh, i) == map[];
      }
    }

    method RemoveEmptyParts(parts: array<TensorMap>, ghost param: TensorMap, ghost grad: TensorMap)
      requires AllHold(parts[..], param, grad, sh)
      modifies parts
      ensures parts.Length == sh.size
      ensures forall i :: 0 <= i < parts.Length ==>
                parts[i] == RemoveEmptyValue(GradPlaced(param, grad, sh, i))
    {
      ghost var before := parts[..];
      for i := 0 to parts.Length
        invariant forall k :: 0 <= k < i ==> parts[k] == RemoveEmptyValue(GradPlaced(param, grad, sh, k))
        invariant forall k :: i <= k < parts.Length ==> parts[k] == before[k]
      {
        assert Holds(before[i], GradPlaced(param, grad, sh, i));
        RemoveEmptyAgrees(parts[i], GradPlaced(param, grad, sh, i));
        parts[i] := RemoveEmptyValue(parts[i]);
      }
    }

    /** The rows of one matrix, each to its shard. */
    method SplitRows(name: string, col: nat, rows: map<nat, Row>, parts: array<TensorMap>,
                     ghost param: TensorMap, ghost done: TensorMap)
      requires ValidShard(sh) && AllHold(parts[..], param, done, sh) && name !in done
      requires name in param && param[name].Srm?
      modifies parts
      ensures AllHold(parts[..], param, done[name := Srm(col, rows)], sh)
    {
      hide AllHold, Except;
      AllHoldSize(parts[..], param, done, sh);
      NameParts(name, col, parts, param, done);
      var left := rows.Keys;
      ExceptAll(rows);
      while left != {}
        invariant left <= rows.Keys
        invariant AllHold(parts[..], param, done[name := Srm(col, Except(rows, left))], sh)
        decreases |left|
      {
        var id :| id in left;
        ExceptLess(rows, left, id);
        PlaceRow(parts[..], param, done, sh, name, col, Except(rows, left), id, rows[id]);
        AddRow(parts, sh.srm(id), name, col, id, rows[id]);
        left := left - {id};
      }
      ExceptNone(rows);
    }

    method AddRow(parts: array<TensorMap>, k: nat, name: string, col: nat, id: nat, row: Row)
      requires k < parts.Length && name in parts[k] && parts[k][name].Srm?
      modifies parts
      ensures parts[..] == old(parts[..][k := parts[k][name := Srm(col, parts[k][name].rows[id := row])]])
    {
      parts[k] := parts[k][name := Srm(col, parts[k][name].rows[id := row])];
    }

    method NameParts(name: string, col: nat, parts: array<TensorMap>, ghost param: TensorMap,
                     ghost done: TensorMap)
      requires AllHold(parts[..], param, done, sh) && name !in done
      requires name in param && param[name].Srm?
      modifies parts
      ensures AllHold(parts[..], param, done[name := Srm(col, map[])], sh)
    {
      ghost var before := parts[..];
      for i := 0 to parts.Length
        invariant forall k :: 0 <= k < i ==> parts[k] == before[k][name := Srm(col, map[])]
        invariant forall k :: i <= k < parts.Length ==> parts[k] == before[k]
      {
        parts[i] := parts[i][name := Srm(col, map[])];
      }
      PlaceNoRows(before, parts[..], param, done, sh, name, col);
    }

    /** Also empties the sparse gradients of dense parameters, which are moved, not viewed. */
    method SplitGrad(param: TensorMap, fullGrad: TensorMap, grads: array<TensorMap>)
      returns (fullGrad': TensorMap)
      requires ValidShard(sh) && grads.Length == sh.size
      requires forall i :: 0 <= i < grads.Length ==> SameKinds(grads[i], fullGrad)
      modifies grads
      ensures forall i :: 0 <= i < grads.Length ==>
                grads[i] == RemoveEmptyValue(GradPlaced(param, fullGrad, sh, i))
      ensures fullGrad' == MovedFrom(param, fullGrad)
      ensures fullGrad'.Keys == fullGrad.Keys
      ensures forall name :: name in fullGrad ==>
                fullGrad'[name] == if name in param && param[name].Tsr? && fullGrad[name].Srm?
                                   then Srm(fullGrad[name].col, map[]) else fullGrad[name]
    {
      hide *;
      MovedMeans(param, fullGrad);
      ClearParts(grads, param);
      fullGrad' := fullGrad;
      var names := fullGrad.Keys;
      ExceptAll(fullGrad);
      MovedNothing(param, fullGrad);
      while names != {}
        invariant names <= fullGrad.Keys
        invariant AllHold(grads[..], param, Except(fullGrad, names), sh)
        invariant fullGrad' == MovedExcept(param, fullGrad, names)
        decreases |names|
      {
        var name :| name in names;
        ExceptLess(fullGrad, names, name);
        MovedMore(param, fullGrad, names, name);
        SplitOne(name, fullGrad[name], param, grads, Except(fullGrad, names));
        fullGrad' := fullGrad'[name := Moved(param, name, fullGrad[name])];
        names := names - {name};
      }
      ExceptNone(fullGrad);
      MovedAll(param, fullGrad);
      RemoveEmptyParts(grads, param, fullGrad);
    }

    method SplitOne(name: string, v: Value, param: TensorMap, grads: array<TensorMap>, ghost done: TensorMap)
      requires ValidShard(sh) && AllHold(grads[..], param, done, sh) && name !in done
      modifies grads
      ensures AllHold(grads[..], param, done[name := v], sh)
    {
      hide AllHold, GradPlaced;
      AllHoldSize(grads[..], param, done, sh);
      if name in param && param[name].Tsr? {
        var k := sh.tsr(name);
        ghost var before := grads[..];
        PlaceWhole(grads[..], param, done, sh, name, v);
        grads[k] := grads[k][name := v];
        assert grads[..] == before[k := grads[k]];
      } else if name in param && v.Srm? {
        SplitRows(name, v.col, v.rows, grads, param, done);
      } else {
        PlaceNothing(grads[..], param, done, sh, name, v);
      }
    }

    method SplitParam(fullParam: TensorMap, params: array<TensorMap>)
      requires ValidShard(sh) && params.Length == sh.size
      requires forall i :: 0 <= i < params.Length ==> SameKinds(params[i], fullParam)
      modifies params
      ensures forall i :: 0 <= i < params.Length ==>
                params[i] == RemoveEmptyValue(Placed(fullParam, sh, i))
    {
      hide *;
      ClearParts(params, fullParam);
      var names := fullParam.Keys;
      ExceptAll(fullParam);
      while names != {}
        invariant names <= fullParam.Keys
        invariant AllHold(params[..], fullParam, Except(fullParam, names), sh)
        decreases |names|
      {
        var name :| name in names;
        ExceptLess(fullParam, names, name);
        SplitOne(name, fullParam[name], fullParam, params, Except(fullParam, names));
        names := names - {name};
      }
      ExceptNone(fullParam);
      RemoveEmptyParts(params, fullParam, fullParam);
      forall i | 0 <= i < params.Length
        ensures params[i] == RemoveEmptyValue(Placed(fullParam, sh, i))
      {
        PlacedIsGradPlaced(fullParam, sh, i);
      }
    }
  }

  function Moved(param: TensorMap, name: string, v: Value): Value {
    if name in param && param[name].Tsr? && v.Srm? then Cleared(v) else v
  }

  function MovedFrom(param: TensorMap, grad: TensorMap): TensorMap {
    map name | name in grad :: Moved(param, name, grad[name])
  }

  function MovedExcept(param: TensorMap, grad: TensorMap, names: set<string>): TensorMap {
    map name | name in grad :: if name in names then grad[name] else Moved(param, name, grad[name])
  }

  lemma MovedMeans(param: TensorMap, grad: TensorMap)
    ensures MovedFrom(param, grad).Keys == grad.Keys
    ensures forall name :: name in grad ==>
              MovedFrom(param, grad)[name] == if name in param && param[name].Tsr? && grad[name].Srm?
                                              then Srm(grad[name].col, map[]) else grad[name]
  {
  }

  lemma MovedNothing(param: TensorMap, grad: TensorMap)
    ensures MovedExcept(param, grad, grad.Keys) == grad
  {
  }

  lemma MovedMore(param: TensorMap, grad: TensorMap, names: set<string>, name: string)
    requires name in grad && name in names
    ensures MovedExcept(param, grad, names - {name})
         == MovedExcept(param, grad, names)[name := Moved(param, name, grad[name])]
  {
  }

  lemma MovedAll(param: TensorMap, grad: TensorMap)
    ensures MovedExcept(param, grad, {}) == MovedFrom(param, grad)
  {
  }

  lemma SplitSize(parts: seq<PullRequest>, full: PullRequest, sh: Shard)
    requires IsSplit(parts, full, sh)
    ensures |parts| == sh.size
  {
  }

  lemma SplitName(before: seq<PullRequest>, after: seq<PullRequest>, done: PullRequest, sh: Shard, name: string)
    requires IsSplit(before, done, sh) && |after| == |before|
    requires forall i :: 0 <= i < |before| ==>
               after[i] == before[i].(srmMap := before[i].srmMap[name := {}])
    ensures IsSplit(after, done.(srmMap := done.srmMap[name := {}]), sh)
  {
    forall i | 0 <= i < |after|
      ensures after[i].srmMap == RequestPart(done.(srmMap := done.srmMap[name := {}]), sh, i).srmMap
    {
      assert OwnIds({}, sh, i) == {};
    }
  }
}
