// A model (src/graph/model.cc): its parameters, pulling from it, merging into it.
module Models {
  import opened TensorMaps

  /** What the graph declares of a parameter: the shape of a dense tensor or the width of a matrix. */
  datatype Declared = DenseParam(shape: seq<nat>) | SparseParam(col: nat)

  /** isTrain tells whether missing rows are created; idFreqMap counts the ids of a batch. */
  datatype PullRequest = PullRequest(
    isTrain: bool,
    tsrSet: set<string>,
    srmMap: map<string, set<nat>>,
    idFreqMap: map<nat, nat>)

  predicate EmptyRequest(r: PullRequest) {
    r.tsrSet == {} && r.srmMap == map[] && r.idFreqMap == map[]
  }

  /** The random value that the initializer of a matrix gives to a row. */
  type RowInit = (string, nat) -> Row

  predicate Servable(param: TensorMap, req: PullRequest) {
    && (forall name :: name in req.tsrSet ==> name in param && param[name].Tsr?)
    && (forall name :: name in req.srmMap ==> name in param && param[name].Srm?)
  }

  // ---------------------------------------------------------------------------------------
  // Pulling
  // ---------------------------------------------------------------------------------------

  /** Training creates the rows that are asked for and missing. */
  function CreatedRows(name: string, rows: map<nat, Row>, ids: set<nat>, init: RowInit): map<nat, Row> {
    rows + (map id | id in ids && id !in rows :: init(name, id))
  }

  function RowsAfter(name: string, isTrain: bool, rows: map<nat, Row>, ids: set<nat>, init: RowInit): map<nat, Row> {
    if isTrain then CreatedRows(name, rows, ids, init) else rows
  }

  function AskedRows(rows: map<nat, Row>, ids: set<nat>): map<nat, Row> {
    map id | id in ids && id in rows :: rows[id]
  }

  /** The parameters after a pull. */
  function PulledFrom(param: TensorMap, req: PullRequest, init: RowInit): TensorMap {
    map name | name in param ::
      if name in req.srmMap && param[name].Srm? then
        Srm(param[name].col, RowsAfter(name, req.isTrain, param[name].rows, req.srmMap[name], init))
      else param[name]
  }

  /** What a pull answers for a name: the dense tensor, or the rows asked for. */
  function Answer(param: TensorMap, req: PullRequest, init: RowInit, name: string): Value
    requires Servable(param, req) && (name in req.tsrSet || name in req.srmMap)
  {
    if name in req.tsrSet then param[name]
    else
      var after := PulledFrom(param, req, init);
      Srm(param[name].col, AskedRows(after[name].rows, req.srmMap[name]))
  }

  function Answers(param: TensorMap, req: PullRequest, init: RowInit): TensorMap
    requires Servable(param, req)
  {
    map name | name in req.tsrSet + req.srmMap.Keys :: Answer(param, req, init, name)
  }

  function Pulled(param: TensorMap, req: PullRequest, init: RowInit): TensorMap
    requires Servable(param, req)
  {
    RemoveEmptyValue(Answers(param, req, init))
  }

  // ---------------------------------------------------------------------------------------
  // Taking parameters over
  // ---------------------------------------------------------------------------------------

  /** set_data needs as many elements, merging as many columns. */
  predicate Takes(local: Value, remote: Value) {
    && SameKind(local, remote)
    && (local.Tsr? ==> |local.data| == |remote.data|)
    && (local.Srm? ==> local.col == remote.col)
  }

  /** Rows that are there already stay as they are. */
  function Taken(local: Value, remote: Value): Value
    requires Takes(local, remote)
  {
    if local.Tsr? then local.(data := remote.data)
    else local.(rows := remote.rows + local.rows)
  }

  predicate TakesAll(param: TensorMap, remote: TensorMap) {
    forall name :: name in remote ==> name in param && Takes(param[name], remote[name])
  }

  function TakenAll(param: TensorMap, remote: TensorMap): TensorMap
    requires TakesAll(param, remote)
  {
    map name | name in param :: if name in remote then Taken(param[name], remote[name]) else param[name]
  }

  ghost predicate TakesEvery(param: TensorMap, remotes: seq<TensorMap>) {
    forall r :: r in remotes ==> TakesAll(param, r)
  }

  /** One remote after the other. */
  function TakenFrom(param: TensorMap, remotes: seq<TensorMap>): (r: TensorMap)
    requires TakesEvery(param, remotes)
    ensures forall other :: TakesAll(param, other) ==> TakesAll(r, other)
  {
    if remotes == [] then param
    else
      var last := |remotes| - 1;
      var before := TakenFrom(param, remotes[..last]);
      TakenAll(before, remotes[last])
  }

  // ---------------------------------------------------------------------------------------
  // Initialising, merging and overwriting
  // ---------------------------------------------------------------------------------------

  type TsrInit = (string, seq<nat>) -> seq<real>

  function Fresh(d: Declared, name: string, random: TsrInit): Value {
    match d
    case DenseParam(shape) => Tsr(shape, random(name, shape))
    case SparseParam(col) => Srm(col, map[])
  }

  /** A shard starts with its own dense tensors, random, and all matrices, without rows. */
  function Initial(graph: map<string, Declared>, random: TsrInit, sh: Shard, i: nat): TensorMap {
    map name | name in graph && (graph[name].DenseParam? ==> sh.tsr(name) == i) ::
      Fresh(graph[name], name, random)
  }

  /** Merging takes over the shard's own dense tensors, and its own rows as far as they are new. */
  function MergedValue(local: Value, remote: Value, name: string, sh: Shard, i: nat): Value {
    if local.Tsr? && remote.Tsr? && sh.tsr(name) == i && local.shape == remote.shape then remote
    else if local.Srm? && remote.Srm? && local.col == remote.col then
      local.(rows := OwnRows(remote.rows, sh, i) + local.rows)
    else local
  }

  function Merged(param: TensorMap, remote: TensorMap, sh: Shard, i: nat): TensorMap {
    map name | name in param ::
      if name in remote then MergedValue(param[name], remote[name], name, sh, i) else param[name]
  }

  function MergedFrom(param: TensorMap, remotes: seq<TensorMap>, sh: Shard, i: nat): TensorMap {
    if remotes == [] then param
    else
      var last := |remotes| - 1;
      Merged(MergedFrom(param, remotes[..last], sh, i), remotes[last], sh, i)
  }

  /** Overwriting replaces dense tensors of the same shape and all rows that are given. */
  function OverwrittenValue(local: Value, given: Value): Value {
    if local.Tsr? && given.Tsr? && local.shape == given.shape then local.(data := given.data)
    else if local.Srm? && given.Srm? && local.col == given.col then
      local.(rows := local.rows + given.rows)
    else local
  }

  function Overwritten(param: TensorMap, given: TensorMap): TensorMap {
    map name | name in param ::
      if name in given then OverwrittenValue(param[name], given[name]) else param[name]
  }

  /** Who wins: new values replace what is there, pulled and merged rows only add to it. */
  lemma WhoWins(local: Value, other: Value, name: string, sh: Shard, i: nat, id: nat)
    requires SameKind(local, other)
    ensures local.Tsr? ==>
              && OverwrittenValue(local, other) == (if other.shape == local.shape then Tsr(local.shape, other.data)
                                                    else local)
              && MergedValue(local, other, name, sh, i)
                 == (if sh.tsr(name) == i && other.shape == local.shape then other else local)
    ensures local.Tsr? && |local.data| == |other.data| ==> Taken(local, other) == Tsr(local.shape, other.data)
    ensures local.Srm? && local.col != other.col ==>
              OverwrittenValue(local, other) == MergedValue(local, other, name, sh, i) == local
    ensures local.Srm? && local.col == other.col ==>
              var over, taken, merged
                := OverwrittenValue(local, other), Taken(local, other), MergedValue(local, other, name, sh, i);
              && over.Srm? && taken.Srm? && merged.Srm? && over.col == taken.col == merged.col == local.col
              && (id in over.rows <==> id in local.rows || id in other.rows)
              && (id in over.rows ==> over.rows[id] == if id in other.rows then other.rows[id] else local.rows[id])
              && (id in taken.rows <==> id in local.rows || id in other.rows)
              && (id in taken.rows ==> taken.rows[id] == if id in local.rows then local.rows[id] else other.rows[id])
              && (id in merged.rows <==> id in local.rows || (id in other.rows && sh.srm(id) == i))
              && (id in merged.rows ==> merged.rows[id] == if id in local.rows then local.rows[id] else other.rows[id])
  {
  }

  // ---------------------------------------------------------------------------------------
  // The model object
  // ---------------------------------------------------------------------------------------

  predicate SameKinds(m: TensorMap, param: TensorMap) {
    forall name :: name in m && name in param ==> SameKind(m[name], param[name])
  }

  class Model {
    var param: TensorMap

    constructor ()
      ensures param == map[]
    {
      param := map[];
    }

    method InitParam(graph: map<string, Declared>, random: TsrInit, sh: Shard, i: nat)
      requires param == map[]
      modifies this
      ensures param == Initial(graph, random, sh, i)
    {
      var left := graph.Keys;
      while left != {}
        invariant left <= graph.Keys
        invariant param == map name | name in Initial(graph, random, sh, i) && name !in left ::
                             Initial(graph, random, sh, i)[name]
        decreases |left|
      {
        var name :| name in left;
        left := left - {name};
        match graph[name]
        case DenseParam(shape) =>
          if sh.tsr(name) == i {
            param := param[name := Tsr(shape, random(name, shape))];
          }
        case SparseParam(col) =>
          param := param[name := Srm(col, map[])];
      }
    }

    /** Answers into a map that may hold the answers of an earlier pull. */
    method Pull(req: PullRequest, init: RowInit, stale: TensorMap) returns (remote: TensorMap)
      requires Servable(param, req) && SameKinds(stale, param)
      modifies this
      ensures param == PulledFrom(old(param), req, init)
      ensures remote == Pulled(old(param), req, init)
    {
      hide Answers, Collected, PulledFrom, Pulled;
      remote := ClearValue(stale);
      NothingCollected(stale, Answers(param, req, init));
      remote := PullTsr(req, init, remote);
      remote := PullSrm(req, init, remote);
      CollectedAll(remote, param, old(param), req, init);
      remote := RemoveEmptyValue(remote);
    }

    /** The dense tensors asked for. */
    method PullTsr(req: PullRequest, init: RowInit, before: TensorMap) returns (remote: TensorMap)
      requires Servable(param, req) && Collected(before, Answers(param, req, init), {})
      ensures Collected(remote, Answers(param, req, init), req.tsrSet)
    {
      hide Answers, Collected;
      remote := before;
      var names := req.tsrSet;
      ghost var done: set<string> := {};
      while names != {}
        invariant names + done == req.tsrSet
        invariant Collected(remote, Answers(param, req, init), done)
        decreases |names|
      {
        var name :| name in names;
        AnswerDense(param, req, init, name);
        CollectedMore(remote, Answers(param, req, init), done, name);
        remote := remote[name := param[name]];
        names, done := names - {name}, done + {name};
      }
      assert done == req.tsrSet;
    }

    /** The rows asked for of every matrix. */
    method PullSrm(req: PullRequest, init: RowInit, before: TensorMap) returns (remote: TensorMap)
      requires Servable(param, req) && Collected(before, Answers(param, req, init), req.tsrSet)
      modifies this
      ensures Collected(remote, Answers(old(param), req, init), req.tsrSet + req.srmMap.Keys)
      ensures param == PulledFrom(old(param), req, init)
    {
      hide *;
      remote := before;
      var all := req.srmMap.Keys;
      var names := all;
      PulledNothing(param, req, init);
      assert all - all == {} && req.tsrSet + {} == req.tsrSet;
      while names != {}
        invariant names <= all
        invariant param == OfNames(old(param), PulledFrom(old(param), req, init), all - names)
        invariant Collected(remote, Answers(old(param), req, init), req.tsrSet + (all - names))
        decreases |names|
      {
        var name :| name in names;
        remote := PullOneSrm(name, req, init, remote, old(param), all - names);
        assert all - names + {name} == all - (names - {name});
        names := names - {name};
      }
      assert all - {} == all;
      PulledAll(old(param), req, init);
    }

    method PullOneSrm(name: string, req: PullRequest, init: RowInit, before: TensorMap,
                      ghost first: TensorMap, ghost done: set<string>) returns (remote: TensorMap)
      requires Servable(first, req) && name in req.srmMap && name !in done
      requires param == OfNames(first, PulledFrom(first, req, init), done)
      requires Collected(before, Answers(first, req, init), req.tsrSet + done)
      modifies this
      ensures param == OfNames(first, PulledFrom(first, req, init), done + {name})
      ensures Collected(remote, Answers(first, req, init), req.tsrSet + (done + {name}))
    {
      hide *;
      PulledSome(first, req, init, done, name);
      var asked := PullRows(name, req.isTrain, req.srmMap[name], init);
      AnswerSparse(first, req, init, name);
      PulledMore(first, req, init, done, name);
      CollectedMore(before, Answers(first, req, init), req.tsrSet + done, name);
      assert req.tsrSet + done + {name} == req.tsrSet + (done + {name});
      remote := before[name := Srm(param[name].col, asked)];
    }

    /** The rows asked for of one matrix; training creates those that are missing. */
    method PullRows(name: string, isTrain: bool, ids: set<nat>, init: RowInit)
      returns (asked: map<nat, Row>)
      requires name in param && param[name].Srm?
      modifies this
      ensures var before := old(param)[name];
              var after := RowsAfter(name, isTrain, before.rows, ids, init);
              param == old(param)[name := Srm(before.col, after)] && asked == AskedRows(after, ids)
    {
      hide RowsAfter, AskedRows;
      var rows := param[name].rows;
      ghost var before := rows;
      asked := map[];
      NoRows(name, isTrain, before, init);
      var left := ids;
      ghost var done: set<nat> := {};
      while left != {}
        invariant left + done == ids && left !! done && param == old(param)
        invariant rows == RowsAfter(name, isTrain, before, done, init)
        invariant asked == AskedRows(rows, done)
        decreases |left|
      {
        var id :| id in left;
        OneMoreRow(name, isTrain, before, done, init, id);
        if isTrain {
          if id !in rows {
            rows := rows[id := init(name, id)];
          }
          asked := asked[id := rows[id]];
        } else if id in rows {
          asked := asked[id := rows[id]];
        }
        left, done := left - {id}, done + {id};
      }
      assert done == ids;
      param := param[name := Srm(param[name].col, rows)];
    }

    /** Takes the pulled parameters of all shards over; rows of earlier batches are dropped. */
    method SetParam(remotes: seq<TensorMap>)
      requires TakesEvery(ClearSRMValue(param), remotes)
      modifies this
      ensures param == TakenFrom(ClearSRMValue(old(param)), remotes)
    {
      hide TakesAll, TakenAll, ClearSRMValue;
      param := ClearSRMValue(param);
      for i := 0 to |remotes|
        invariant TakesEvery(ClearSRMValue(old(param)), remotes[..i])
        invariant param == TakenFrom(ClearSRMValue(old(param)), remotes[..i])
      {
        assert remotes[..i + 1][..i] == remotes[..i] && remotes[i] in remotes;
        SetParamFrom(remotes[i]);
      }
      assert remotes[..|remotes|] == remotes;
    }

    method SetParamFrom(remote: TensorMap)
      requires TakesAll(param, remote)
      modifies this
      ensures param == TakenAll(old(param), remote)
    {
      var names := remote.Keys;
      while names != {}
        invariant names <= remote.Keys && param.Keys == old(param).Keys
        invariant forall name :: name in param ==>
                    param[name] == if name in remote && name !in names
                                   then Taken(old(param)[name], remote[name]) else old(param)[name]
        decreases |names|
      {
        var name :| name in names;
        names := names - {name};
        match remote[name]
        case Tsr(_, data) => param := param[name := param[name].(data := data)];
        case Srm(_, rows) => param := param[name := param[name].(rows := rows + param[name].rows)];
      }
    }

    /** Combines the parameters that both maps have, in one and the same form. */
    method Reduce(remote: TensorMap, tsr: (Value, Value) -> Value, srm: (Value, Value) -> Value,
                  own: string -> bool)
      modifies this
      ensures param == Reduced(old(param), remote, tsr, srm, own)
    {
      var names := remote.Keys;
      while names != {}
        invariant names <= remote.Keys && param.Keys == old(param).Keys
        invariant forall name :: name in param ==>
                    param[name] == if name in remote && name !in names
                                   then ReducedValue(name, old(param)[name], remote[name], tsr, srm, own)
                                   else old(param)[name]
        decreases |names|
      {
        var name :| name in names;
        names := names - {name};
        if name !in param {
          continue;
        }
        var localW, remoteW := param[name], remote[name];
        if localW.Tsr? && remoteW.Tsr? && own(name) {
          if localW.shape == remoteW.shape {
            param := param[name := tsr(localW, remoteW)];
          }
        } else if localW.Srm? && remoteW.Srm? {
          if localW.col == remoteW.col {
            param := param[name := srm(localW, remoteW)];
          }
        }
      }
    }

    method Merge(other: Model, sh: Shard, i: nat)
      requires other != this
      modifies this
      ensures param == Merged(old(param), other.param, sh, i)
    {
      Reduce(other.param,
             (localW: Value, remoteW: Value) => remoteW,
             (localW: Value, remoteW: Value) =>
               if localW.Srm? && remoteW.Srm? then
                 localW.(rows := OwnRows(remoteW.rows, sh, i) + localW.rows)
               else localW,
             name => sh.tsr(name) == i);
    }

    method Update(given: TensorMap)
      modifies this
      ensures param == Overwritten(old(param), given)
    {
      Reduce(given,
             (localW: Value, remoteW: Value) =>
               if localW.Tsr? && remoteW.Tsr? then localW.(data := remoteW.data) else localW,
             (localW: Value, remoteW: Value) =>
               if localW.Srm? && remoteW.Srm? then localW.(rows := localW.rows + remoteW.rows) else localW,
             name => true);
    }
  }

  function ReducedValue(name: string, localW: Value, remoteW: Value, tsr: (Value, Value) -> Value,
                        srm: (Value, Value) -> Value, own: string -> bool): Value
  {
    if localW.Tsr? && remoteW.Tsr? && own(name) && localW.shape == remoteW.shape then tsr(localW, remoteW)
    else if localW.Srm? && remoteW.Srm? && localW.col == remoteW.col then srm(localW, remoteW)
    else localW
  }

  function Reduced(param: TensorMap, remote: TensorMap, tsr: (Value, Value) -> Value,
                   srm: (Value, Value) -> Value, own: string -> bool): TensorMap
  {
    map name | name in param ::
      if name in remote then ReducedValue(name, param[name], remote[name], tsr, srm, own) else param[name]
  }

  lemma NoRows(name: string, isTrain: bool, rows: map<nat, Row>, init: RowInit)
    ensures RowsAfter(name, isTrain, rows, {}, init) == rows && AskedRows(rows, {}) == map[]
  {
  }

  lemma OneMoreRow(name: string, isTrain: bool, rows: map<nat, Row>, ids: set<nat>, init: RowInit, id: nat)
    requires id !in ids
    ensures var before := RowsAfter(name, isTrain, rows, ids, init);
            var after := RowsAfter(name, isTrain, rows, ids + {id}, init);
            && after == (if isTrain && id !in before then before[id := init(name, id)] else before)
            && AskedRows(after, ids + {id})
               == if id in after then AskedRows(before, ids)[id := after[id]] else AskedRows(before, ids)
  {
  }

  /** The new parameters of the names given, the old ones of the others. */
  function OfNames(before: TensorMap, after: TensorMap, names: set<string>): TensorMap {
    map name | name in before :: if name in names && name in after then after[name] else before[name]
  }

  lemma PulledNothing(param: TensorMap, req: PullRequest, init: RowInit)
    ensures OfNames(param, PulledFrom(param, req, init), {}) == param
  {
  }

  lemma PulledSome(param: TensorMap, req: PullRequest, init: RowInit, done: set<string>, name: string)
    requires Servable(param, req) && name in req.srmMap && name !in done
    ensures var some := OfNames(param, PulledFrom(param, req, init), done);
            name in param && name in some && some[name] == param[name] && param[name].Srm?
  {
  }

  lemma PulledMore(param: TensorMap, req: PullRequest, init: RowInit, done: set<string>, name: string)
    requires Servable(param, req) && name in req.srmMap && name in param && param[name].Srm?
    ensures var after := PulledFrom(param, req, init);
            OfNames(param, after, done + {name})
            == OfNames(param, after, done)[
                 name := Srm(param[name].col, RowsAfter(name, req.isTrain, param[name].rows, req.srmMap[name], init))]
  {
  }

  lemma PulledAll(param: TensorMap, req: PullRequest, init: RowInit)
    ensures OfNames(param, PulledFrom(param, req, init), req.srmMap.Keys) == PulledFrom(param, req, init)
  {
  }

  /** The names done have their answers; all others are empty. */
  ghost predicate Collected(remote: TensorMap, answers: TensorMap, done: set<string>) {
    && (forall name :: name in done ==> name in remote && name in answers && remote[name] == answers[name])
    && (forall name :: name in remote && name !in done ==> IsEmpty(remote[name]))
  }

  lemma NothingCollected(stale: TensorMap, answers: TensorMap)
    ensures Collected(ClearValue(stale), answers, {})
  {
  }

  lemma CollectedMore(remote: TensorMap, answers: TensorMap, done: set<string>, name: string)
    requires Collected(remote, answers, done) && name in answers
    ensures Collected(remote[name := answers[name]], answers, done + {name})
  {
  }

  lemma CollectedAll(remote: TensorMap, after: TensorMap, param: TensorMap, req: PullRequest, init: RowInit)
    requires Servable(param, req)
    requires Collected(remote, Answers(param, req, init), req.tsrSet + req.srmMap.Keys)
    ensures RemoveEmptyValue(remote) == Pulled(param, req, init)
  {
    RemoveEmptyAgrees(remote, Answers(param, req, init));
  }

  lemma AnswerDense(param: TensorMap, req: PullRequest, init: RowInit, name: string)
    requires Servable(param, req) && name in req.tsrSet
    ensures name in Answers(param, req, init) && name in param
    ensures Answers(param, req, init)[name] == param[name]
  {
  }

  lemma AnswerSparse(param: TensorMap, req: PullRequest, init: RowInit, name: string)
    requires Servable(param, req) && name in req.srmMap
    ensures name in Answers(param, req, init) && name in param && param[name].Srm?
    ensures var after := RowsAfter(name, req.isTrain, param[name].rows, req.srmMap[name], init);
            Answers(param, req, init)[name] == Srm(param[name].col, AskedRows(after, req.srmMap[name]))
  {
    assert name !in req.tsrSet;
  }
}