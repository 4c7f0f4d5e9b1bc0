// One trainer in front of the shards (example/rank/trainer_context.cc): a batch pulls its
// parameters from the shards, computes, and pushes its gradients to them. A shard filters both
// by the frequencies it has counted (src/graph/model_shard.cc).
module TrainerContexts {
  import opened BatchCounts
  import opened FreqStores
  import opened ModelShards
  import opened Models
  import opened Optimizers
  import opened Shardings
  import opened TensorMaps

  // ---------------------------------------------------------------------------------------
  // The same batches without shards
  // ---------------------------------------------------------------------------------------

  /** What a batch asks for, how missing rows are made up, and the gradients and new values that
      it computes from the local parameters; a batch that only predicts pushes nothing. */
  datatype Batch = Batch(req: PullRequest, init: RowInit, compute: TensorMap -> (TensorMap, TensorMap))

  /** The setting that all batches of a run share: the shards, the threshold of the frequency
      filter (0 for none), the optimizer, whether the model without shards counts batches that
      have no gradient, and of what kind gradients and new values are. */
  datatype Setting = Setting(
    sh: Shard,
    threshold: nat,
    schedule: Schedule,
    eager: bool,
    gradKinds: TensorMap,
    givenKinds: TensorMap)

  /** The whole model, the frequencies of all ids, the number of batches counted, and the shards
      that have missed one of them. */
  datatype Progress = Progress(t: Trained, freqs: Freqs, n: nat, behind: set<nat>)

  /** Training filters the request, which counts itself first. */
  function Wanted(freqs: Freqs, threshold: nat, req: PullRequest): PullRequest {
    if req.isTrain then FilteredRequest(freqs, threshold, req) else req
  }

  function FreqsAfter(freqs: Freqs, threshold: nat, req: PullRequest): Freqs {
    if req.isTrain then Seen(freqs, threshold, req) else freqs
  }

  lemma WantedServable(m: TensorMap, freqs: Freqs, threshold: nat, req: PullRequest)
    requires Servable(m, req)
    ensures Servable(m, Wanted(freqs, threshold, req))
  {
  }

  lemma PulledTaken(local: TensorMap, m: TensorMap, req: PullRequest, init: RowInit)
    requires Servable(m, req) && SameLayout(local, m)
    ensures TakesAll(ClearSRMValue(local), Pulled(m, req, init))
  {
    AnswersTaken(local, m, req, init);
  }

  /** The local parameters after a pull from the whole model. */
  function LocalAfter(local: TensorMap, m: TensorMap, req: PullRequest, init: RowInit): TensorMap
    requires Servable(m, req) && SameLayout(local, m)
  {
    PulledTaken(local, m, req, init);
    TakenAll(ClearSRMValue(local), Pulled(m, req, init))
  }

  /** The local parameters by which the batch computes. */
  function LocalOf(setting: Setting, local: TensorMap, p: Progress, b: Batch): TensorMap
    requires Servable(p.t.param, b.req) && SameLayout(local, p.t.param)
  {
    WantedServable(p.t.param, p.freqs, setting.threshold, b.req);
    LocalAfter(local, p.t.param, Wanted(p.freqs, setting.threshold, b.req), b.init)
  }

  function PullProgress(setting: Setting, p: Progress, b: Batch): Progress {
    p.(t := Trained(PulledFrom(p.t.param, Wanted(p.freqs, setting.threshold, b.req), b.init), p.t.slots),
       freqs := FreqsAfter(p.freqs, setting.threshold, b.req))
  }

  /** The shards that get nothing of a gradient. */
  function Unfed(param: TensorMap, grad: TensorMap, sh: Shard): set<nat> {
    set i: nat | i < sh.size && PartOf(param, grad, sh, i) == map[]
  }

  ghost function PushProgress(setting: Setting, param: TensorMap, p: Progress, grad: TensorMap, given: TensorMap)
    : Progress
  {
    var t := Pushed(p.t, FilteredGrad(p.freqs, setting.threshold, grad), given, setting.schedule(p.n));
    if Counts(Setup(param, setting.sh, setting.eager), grad)
    then Progress(t, p.freqs, p.n + 1, p.behind + Unfed(param, grad, setting.sh))
    else Progress(t, p.freqs, p.n, p.behind)
  }

  /** What shard i filters out of its part of a gradient, it filters by its own frequencies. */
  function FilteredPart(setting: Setting, param: TensorMap, p: Progress, grad: TensorMap, i: nat): TensorMap {
    FilteredGrad(OwnEntries(p.freqs, setting.sh, i), setting.threshold, PartOf(param, grad, setting.sh, i))
  }

  /** What the code asks of a push, and what makes it agree: ids of sparse gradients of dense
      parameters are counted where the parameter is, and no shard gets anything for an element
      after it has missed a batch, unless the rule does not count. */
  ghost predicate Pushable(setting: Setting, param: TensorMap, p: Progress, req: PullRequest, grad: TensorMap,
                           given: TensorMap)
  {
    && AskedFor(req, param, grad, given) && ConsistentTsr(given)
    && OfKinds(grad, setting.gradKinds) && OfKinds(given, setting.givenKinds)
    && (setting.threshold == 0 || forall i: nat :: i < setting.sh.size ==>
          CountedThere(p.freqs, setting.threshold, param, grad, setting.sh, i))
    && (Steady(setting.schedule) || forall i: nat :: i < setting.sh.size && i in p.behind ==>
          !TouchesAny(p.t.param, FilteredPart(setting, param, p, grad, i)))
  }

  ghost predicate Runnable(setting: Setting, local: TensorMap, p: Progress, b: Batch)
    requires SameLayout(local, p.t.param)
  {
    && Servable(p.t.param, b.req)
    && (b.req.isTrain ==>
          var after := LocalOf(setting, local, p, b);
          var (grad, given) := b.compute(after);
          Pushable(setting, after, PullProgress(setting, p, b), b.req, grad, given))
  }

  ghost function ProgressAfter(setting: Setting, local: TensorMap, p: Progress, b: Batch): Progress
    requires SameLayout(local, p.t.param) && Servable(p.t.param, b.req)
  {
    if !b.req.isTrain then PullProgress(setting, p, b)
    else
      var after := LocalOf(setting, local, p, b);
      var (grad, given) := b.compute(after);
      PushProgress(setting, after, PullProgress(setting, p, b), grad, given)
  }

  /** Every name has the kind that it has there. */
  predicate OfKinds(m: TensorMap, kinds: TensorMap) {
    forall name :: name in m ==> name in kinds && SameKind(m[name], kinds[name])
  }

  lemma LocalKeepsLayout(local: TensorMap, m: TensorMap, req: PullRequest, init: RowInit)
    requires Servable(m, req) && SameLayout(local, m)
    ensures SameLayout(LocalAfter(local, m, req, init), m)
  {
    PulledTaken(local, m, req, init);
    hide Pulled;
  }

  lemma LayoutStays(local: TensorMap, m: TensorMap, m': TensorMap)
    requires SameLayout(local, m) && SameForm(m, m')
    ensures SameLayout(local, m')
  {
  }

  lemma KindsStay(m: TensorMap, m': TensorMap, kinds: TensorMap)
    requires OfKinds(m, kinds) && SameForm(m, m')
    ensures OfKinds(m', kinds)
  {
  }

  lemma PushKeepsForm(t: Trained, grad: TensorMap, given: TensorMap, rule: Rule)
    requires InPlace(rule) && Slotted(t) && ConsistentTsr(given)
    ensures Slotted(Pushed(t, grad, given, rule)) && SameForm(t.param, Pushed(t, grad, given, rule).param)
  {
    hide InPlace, Slotted, ConsistentTsr, Pushed, SlotFits;
    PushKeepsSlotted(t, grad, given, rule);
  }

  /** The model is well-formed and the local parameters can take it over. */
  ghost predicate Fitting(local: TensorMap, p: Progress) {
    Slotted(p.t) && SameLayout(local, p.t.param)
  }

  lemma PullKeepsFitting(setting: Setting, local: TensorMap, p: Progress, b: Batch, kinds: TensorMap)
    requires Fitting(local, p) && Servable(p.t.param, b.req)
    ensures Fitting(LocalOf(setting, local, p, b), PullProgress(setting, p, b))
    ensures OfKinds(p.t.param, kinds) ==> OfKinds(PullProgress(setting, p, b).t.param, kinds)
  {
    hide Slotted, SameLayout, LocalAfter, OfKinds, SameForm, PulledFrom, Servable, Wanted;
    var wanted := Wanted(p.freqs, setting.threshold, b.req);
    WantedServable(p.t.param, p.freqs, setting.threshold, b.req);
    PullKeepsForm(p.t, wanted, b.init);
    LocalKeepsLayout(local, p.t.param, wanted, b.init);
    LayoutStays(LocalOf(setting, local, p, b), p.t.param, PulledFrom(p.t.param, wanted, b.init));
    if OfKinds(p.t.param, kinds) {
      KindsStay(p.t.param, PulledFrom(p.t.param, wanted, b.init), kinds);
    }
  }

  lemma PushKeepsFitting(setting: Setting, local: TensorMap, p: Progress, grad: TensorMap, given: TensorMap,
                         kinds: TensorMap)
    requires AllInPlace(setting.schedule) && Fitting(local, p) && ConsistentTsr(given)
    ensures Fitting(local, PushProgress(setting, local, p, grad, given))
    ensures OfKinds(p.t.param, kinds) ==> OfKinds(PushProgress(setting, local, p, grad, given).t.param, kinds)
  {
    hide InPlace, Slotted, SameLayout, OfKinds, SameForm, Pushed, ConsistentTsr, FilteredGrad, Counts;
    var kept, rule := FilteredGrad(p.freqs, setting.threshold, grad), setting.schedule(p.n);
    InPlaceAt(setting.schedule, p.n);
    PushKeepsForm(p.t, kept, given, rule);
    LayoutStays(local, p.t.param, Pushed(p.t, kept, given, rule).param);
    if OfKinds(p.t.param, kinds) {
      KindsStay(p.t.param, Pushed(p.t, kept, given, rule).param, kinds);
    }
  }

  lemma InPlaceAt(schedule: Schedule, n: nat)
    requires AllInPlace(schedule)
    ensures InPlace(schedule(n))
  {
  }

  /** No batch changes the form of the model, so the local parameters keep fitting. */
  lemma BatchKeepsFitting(setting: Setting, local: TensorMap, p: Progress, b: Batch, kinds: TensorMap)
    requires AllInPlace(setting.schedule) && Fitting(local, p) && Runnable(setting, local, p, b)
    ensures Fitting(LocalOf(setting, local, p, b), ProgressAfter(setting, local, p, b))
    ensures OfKinds(p.t.param, kinds) ==> OfKinds(ProgressAfter(setting, local, p, b).t.param, kinds)
  {
    hide AllInPlace, LocalOf, OfKinds, PullProgress, PushProgress, Servable, ConsistentTsr, Steady, AskedFor;
    PullKeepsFitting(setting, local, p, b, kinds);
    if b.req.isTrain {
      var after := LocalOf(setting, local, p, b);
      var (grad, given) := b.compute(after);
      PushKeepsFitting(setting, after, PullProgress(setting, p, b), grad, given, kinds);
    }
  }

  /** Every batch can run after those before it. */
  ghost predicate AllRunnable(setting: Setting, local: TensorMap, p: Progress, batches: seq<Batch>)
    requires AllInPlace(setting.schedule) && Fitting(local, p)
    decreases |batches|
  {
    batches == [] ||
    (&& Runnable(setting, local, p, batches[0])
     && (BatchKeepsFitting(setting, local, p, batches[0], p.t.param);
         AllRunnable(setting, LocalOf(setting, local, p, batches[0]), ProgressAfter(setting, local, p, batches[0]),
                     batches[1..])))
  }

  /** The local parameters and the whole model after the batches. */
  ghost function AfterAll(setting: Setting, local: TensorMap, p: Progress, batches: seq<Batch>)
    : (TensorMap, Progress)
    requires AllInPlace(setting.schedule) && Fitting(local, p) && AllRunnable(setting, local, p, batches)
    decreases |batches|
  {
    if batches == [] then (local, p)
    else
      BatchKeepsFitting(setting, local, p, batches[0], p.t.param);
      AfterAll(setting, LocalOf(setting, local, p, batches[0]), ProgressAfter(setting, local, p, batches[0]),
               batches[1..])
  }

  // ---------------------------------------------------------------------------------------
  // What these come to
  // ---------------------------------------------------------------------------------------

  /** A push counts as a batch if some shard gets a part of its gradient, or always if the model
      without shards counts like that; the shards that get none have then missed it. */
  lemma PushCounts(setting: Setting, param: TensorMap, p: Progress, grad: TensorMap, given: TensorMap)
    ensures var p' := PushProgress(setting, param, p, grad, given);
            var counted := setting.eager
                           || exists i: nat :: i < setting.sh.size && PartOf(param, grad, setting.sh, i) != map[];
            && p'.freqs == p.freqs && p'.n == (if counted then p.n + 1 else p.n)
            && forall i: nat :: i in p'.behind <==>
                 i in p.behind || (counted && i < setting.sh.size && PartOf(param, grad, setting.sh, i) == map[])
  {
    hide Pushed;
  }

  /** Without a frequency filter, and with a rule that does not count or with no shard behind, a
      training batch can run whenever it pushes to what it has asked for. */
  lemma CanTrain(setting: Setting, local: TensorMap, p: Progress, b: Batch)
    requires SameLayout(local, p.t.param) && Servable(p.t.param, b.req)
    requires setting.threshold == 0 && (Steady(setting.schedule) || p.behind == {})
    requires var after := LocalOf(setting, local, p, b);
             var (grad, given) := b.compute(after);
             && AskedFor(b.req, after, grad, given) && ConsistentTsr(given)
             && OfKinds(grad, setting.gradKinds) && OfKinds(given, setting.givenKinds)
    ensures Runnable(setting, local, p, b)
  {
    hide LocalOf, AskedFor, ConsistentTsr, OfKinds, SameLayout, Servable;
  }

  /** With a filter the same holds of gradients that are sparse for matrices only. */
  lemma CanTrainFiltered(setting: Setting, local: TensorMap, p: Progress, b: Batch)
    requires SameLayout(local, p.t.param) && Servable(p.t.param, b.req)
    requires Steady(setting.schedule) || p.behind == {}
    requires var after := LocalOf(setting, local, p, b);
             var (grad, given) := b.compute(after);
             && AskedFor(b.req, after, grad, given) && ConsistentTsr(given)
             && OfKinds(grad, setting.gradKinds) && OfKinds(given, setting.givenKinds)
             && forall name :: name in grad && name in after ==> SameKind(grad[name], after[name])
    ensures Runnable(setting, local, p, b)
  {
    hide LocalOf, AskedFor, ConsistentTsr, OfKinds, SameLayout, Servable;
  }

  /** Any number of batches that only predict can run, and leave model, frequencies and counts as
      they are. */
  lemma {:induction false} PredictionsChangeNothing(setting: Setting, local: TensorMap, p: Progress,
                                                    batches: seq<Batch>)
    requires AllInPlace(setting.schedule) && Slotted(p.t) && SameLayout(local, p.t.param)
    requires forall b :: b in batches ==> !b.req.isTrain && Servable(p.t.param, b.req)
    ensures Fitting(local, p) && AllRunnable(setting, local, p, batches)
    ensures AfterAll(setting, local, p, batches).1 == p
    decreases |batches|
  {
    hide AllInPlace, Slotted, SameLayout, Servable, LocalOf, PulledFrom;
    if batches != [] {
      var b := batches[0];
      PredictionReads(setting, p, b);
      BatchKeepsFitting(setting, local, p, b, p.t.param);
      PredictionsChangeNothing(setting, LocalOf(setting, local, p, b), p, batches[1..]);
    }
  }

  lemma PredictionReads(setting: Setting, p: Progress, b: Batch)
    requires !b.req.isTrain
    ensures PullProgress(setting, p, b) == p
  {
    assert PulledFrom(p.t.param, b.req, b.init) == p.t.param;
  }

  // ---------------------------------------------------------------------------------------
  // One shard
  // ---------------------------------------------------------------------------------------

  lemma WantedPart(freqs: Freqs, threshold: nat, req: PullRequest, sh: Shard, i: nat)
    ensures Wanted(OwnEntries(freqs, sh, i), threshold, RequestPart(req, sh, i))
         == RequestPart(Wanted(freqs, threshold, req), sh, i)
    ensures FreqsAfter(OwnEntries(freqs, sh, i), threshold, RequestPart(req, sh, i))
         == OwnEntries(FreqsAfter(freqs, threshold, req), sh, i)
  {
    hide Seen, FilteredRequest, OwnEntries;
    ShardFiltersRequest(freqs, threshold, req, sh, i);
  }

  lemma NothingWanted(freqs: Freqs, threshold: nat, req: PullRequest)
    requires EmptyRequest(req)
    ensures EmptyRequest(Wanted(freqs, threshold, req)) && FreqsAfter(freqs, threshold, req) == freqs
  {
  }

  lemma FilteredWithin(setting: Setting, param: TensorMap, p: Progress, grad: TensorMap, i: nat)
    ensures FilteredPart(setting, param, p, grad, i).Keys <= PartOf(param, grad, setting.sh, i).Keys
    ensures PartOf(param, grad, setting.sh, i) == map[] ==> FilteredPart(setting, param, p, grad, i) == map[]
  {
    hide PartOf;
  }

  /** What a push makes of a shard that holds its part: its part of what the push makes of the
      whole, if the rules agree or no element is touched. */
  lemma PushPartAgrees(setting: Setting, param: TensorMap, p: Progress, grad: TensorMap, given: TensorMap, i: nat,
                       k: nat)
    requires AllInPlace(setting.schedule) && Slotted(p.t) && Knows(param, p.t.param) && ConsistentTsr(given)
    requires setting.threshold == 0 || CountedThere(p.freqs, setting.threshold, param, grad, setting.sh, i)
    requires setting.schedule(k) == setting.schedule(p.n)
             || !TouchesAny(p.t.param, FilteredPart(setting, param, p, grad, i))
    ensures Pushed(TrainedPlaced(p.t, setting.sh, i), FilteredPart(setting, param, p, grad, i),
                   RemoveEmptyValue(Placed(given, setting.sh, i)), setting.schedule(k))
         == TrainedPlaced(PushProgress(setting, param, p, grad, given).t, setting.sh, i)
  {
    hide InPlace, AllInPlace, Placed, RemoveEmptyValue, Updated, FilteredGrad, FilteredPart, CountedThere, Knows,
         Slotted, ConsistentTsr, TouchesAny, Overwritten, SlotsPlaced, Counts, SameForm;
    var kept, rule := FilteredGrad(p.freqs, setting.threshold, grad), setting.schedule(p.n);
    UpdatedPartAgrees(setting, param, p, grad, i, k);
    InPlaceAt(setting.schedule, p.n);
    UpdateKeepsForm(p.t, kept, rule);
    var updated := Updated(p.t, kept, rule);
    SlottedKeys(updated);
    ShardOverwrite(updated.param, setting.sh, given, i);
    OverwrittenKinds(updated.param, given);
    KindsPlace(updated.param, Overwritten(updated.param, given), updated.slots, setting.sh, i);
  }

  lemma UpdatedPartAgrees(setting: Setting, param: TensorMap, p: Progress, grad: TensorMap, i: nat, k: nat)
    requires AllInPlace(setting.schedule) && Slotted(p.t) && Knows(param, p.t.param)
    requires setting.threshold == 0 || CountedThere(p.freqs, setting.threshold, param, grad, setting.sh, i)
    requires setting.schedule(k) == setting.schedule(p.n)
             || !TouchesAny(p.t.param, FilteredPart(setting, param, p, grad, i))
    ensures var kept := FilteredGrad(p.freqs, setting.threshold, grad);
            Updated(TrainedPlaced(p.t, setting.sh, i), FilteredPart(setting, param, p, grad, i), setting.schedule(k))
            == TrainedPlaced(Updated(p.t, kept, setting.schedule(p.n)), setting.sh, i)
  {
    hide InPlace, AllInPlace, RemoveEmptyValue, GradPlaced, Updated, FilteredGrad, OwnEntries, CountedThere, Knows,
         Slotted, TouchesAny, TrainedPlaced;
    var here, part := TrainedPlaced(p.t, setting.sh, i), FilteredPart(setting, param, p, grad, i);
    var rule := setting.schedule(p.n);
    InPlaceAt(setting.schedule, p.n);
    InPlaceAt(setting.schedule, k);
    ShardFilteredUpdate(p.t, p.freqs, setting.threshold, setting.sh, param, grad, rule, i);
    if setting.schedule(k) != rule {
      PlacedSlotted(p.t, setting.sh, i);
      FilteredWithin(setting, param, p, grad, i);
      TouchesPlaced(param, p.t.param, grad, setting.sh, i, part);
      ParamPlaced(p.t, setting.sh, i);
      UntouchedSame(here, part, setting.schedule(k));
      UntouchedSame(here, part, rule);
    }
  }

  lemma OverwrittenKinds(m: TensorMap, given: TensorMap)
    ensures Overwritten(m, given).Keys == m.Keys
    ensures forall name :: name in m ==> SameKind(m[name], Overwritten(m, given)[name])
  {
  }

  /** ModelShard::Pull. */
  method PullFrom(model: Model, store: FreqStore, req: PullRequest, init: RowInit, stale: TensorMap)
    returns (answer: TensorMap)
    requires Servable(model.param, req) && SameKinds(stale, model.param)
    modifies model, store
    ensures var wanted := Wanted(old(store.idFreqMap), store.threshold, req);
            && Servable(old(model.param), wanted)
            && answer == Pulled(old(model.param), wanted, init)
            && model.param == PulledFrom(old(model.param), wanted, init)
    ensures store.idFreqMap == FreqsAfter(old(store.idFreqMap), store.threshold, req)
  {
    hide Pulled, PulledFrom, FilteredRequest, Seen;
    WantedServable(model.param, store.idFreqMap, store.threshold, req);
    var wanted := req;
    if req.isTrain {
      wanted := store.FilterRequest(req);
    }
    answer := model.Pull(wanted, init, stale);
  }

  /** ModelShard::Push: without a gradient the batch is not counted. */
  method PushTo(optimizer: Optimizer, store: FreqStore, grad: TensorMap, given: TensorMap, schedule: Schedule)
    requires optimizer.slots.Keys == optimizer.model.param.Keys
    modifies optimizer, optimizer.model
    ensures optimizer.State()
         == Pushed(old(optimizer.State()), FilteredGrad(store.idFreqMap, store.threshold, grad), given,
                   schedule(old(optimizer.batches)))
    ensures optimizer.batches == if grad == map[] then old(optimizer.batches) else old(optimizer.batches) + 1
  {
    hide Updated, Overwritten;
    var rule := schedule(optimizer.batches);
    PushedNothing(optimizer.State(), rule);
    NothingUpdated(optimizer.State(), rule);
    if grad != map[] {
      var kept := store.FilterGrad(grad);
      optimizer.Update(kept, schedule);
    }
    NothingGiven(optimizer.model.param);
    if given != map[] {
      optimizer.model.Update(given);
    }
  }

  // ---------------------------------------------------------------------------------------
  // The trainer
  // ---------------------------------------------------------------------------------------

  class TrainerContextShard {
    const sh: Shard
    const threshold: nat
    const localShard: ModelShard
    const local: Model
    const models: seq<Model>
    const optimizers: seq<Optimizer>
    const stores: seq<FreqStore>
    const pullRequests: array<PullRequest>
    const masks: array<bool>
    const params: array<TensorMap>
    const grads: array<TensorMap>
    const overwritten: array<TensorMap>

    constructor (sh: Shard, threshold: nat, local: Model, models: seq<Model>, optimizers: seq<Optimizer>,
                 stores: seq<FreqStore>)
      requires ValidShard(sh) && |models| == |optimizers| == |stores| == sh.size && local !in models
      requires forall i, j :: 0 <= i < j < |models| ==> models[i] != models[j] && stores[i] != stores[j]
      requires forall i :: 0 <= i < |models| ==> optimizers[i].model == models[i] && stores[i].threshold == threshold
      ensures Valid() && this.sh == sh && this.threshold == threshold && this.local == local
      ensures this.models == models && this.optimizers == optimizers && this.stores == stores
      ensures forall i :: 0 <= i < sh.size ==> params[i] == map[] && grads[i] == map[] && overwritten[i] == map[]
      ensures forall kinds, setting: Setting :: Buffered(kinds, setting)
    {
      this.sh, this.threshold, this.local := sh, threshold, local;
      this.models, this.optimizers, this.stores := models, optimizers, stores;
      localShard := new ModelShard(sh, 0);
      pullRequests := new PullRequest[sh.size](_ => PullRequest(false, {}, map[], map[]));
      masks := new bool[sh.size](_ => false);
      params := new TensorMap[sh.size](_ => map[]);
      grads := new TensorMap[sh.size](_ => map[]);
      overwritten := new TensorMap[sh.size](_ => map[]);
    }

    ghost predicate Valid() {
      && ValidShard(sh) && localShard.sh == sh
      && |models| == |optimizers| == |stores| == pullRequests.Length == masks.Length == params.Length
         == grads.Length == overwritten.Length == sh.size
      && local !in models
      && (forall i, j :: 0 <= i < j < |models| ==> models[i] != models[j] && stores[i] != stores[j])
      && (forall i :: 0 <= i < |models| ==> optimizers[i].model == models[i] && stores[i].threshold == threshold)
      && params != grads && params != overwritten && grads != overwritten
    }

    lemma ValidSizes()
      requires Valid()
      ensures |models| == |optimizers| == |stores| == pullRequests.Length == masks.Length == params.Length
              == grads.Length == overwritten.Length == sh.size
      ensures grads != params && overwritten != params && grads != overwritten && local !in models
    {
    }

    ghost function StateOf(i: nat): Trained
      requires Valid() && i < sh.size
      reads models[i], optimizers[i]
    {
      Trained(models[i].param, optimizers[i].slots)
    }

    /** The shards hold the parts of the model; those that have missed no batch have counted as
        many as it, if the rule counts. */
    ghost predicate Holding(setting: Setting, p: Progress)
      requires Valid()
      reads models, optimizers, stores
    {
      forall i: nat :: i < sh.size ==>
        && StateOf(i) == TrainedPlaced(p.t, sh, i)
        && stores[i].idFreqMap == OwnEntries(p.freqs, sh, i)
        && (Steady(setting.schedule) || i in p.behind || optimizers[i].batches == p.n)
    }

    ghost predicate Set(setting: Setting) {
      setting.sh == sh && setting.threshold == threshold && AllInPlace(setting.schedule)
    }

    /** The buffers hold nothing of another kind than the batches deal with. */
    ghost predicate Buffered(kinds: TensorMap, setting: Setting)
      requires Valid()
      reads params, grads, overwritten
    {
      forall i :: 0 <= i < sh.size ==>
        && OfKinds(params[i], kinds)
        && OfKinds(grads[i], setting.gradKinds) && OfKinds(overwritten[i], setting.givenKinds)
    }

    ghost predicate Masked(req: PullRequest)
      requires Valid()
      reads masks
    {
      forall i :: 0 <= i < sh.size ==> (masks[i] <==> !EmptyRequest(RequestPart(req, sh, i)))
    }

    /** The local parameters become what one pull from the whole model, filtered by the
        frequencies of all ids, answers. */
    method Pull(b: Batch, ghost setting: Setting, ghost p: Progress)
      requires Valid() && Set(setting) && Holding(setting, p)
      requires Servable(p.t.param, b.req) && Fitting(local.param, p)
      requires forall i :: 0 <= i < sh.size ==> SameKinds(params[i], p.t.param)
      modifies local, models, stores, pullRequests, masks, params
      ensures Holding(setting, PullProgress(setting, p, b))
      ensures local.param == LocalOf(setting, old(local.param), p, b)
      ensures Masked(b.req)
      ensures forall i :: 0 <= i < sh.size ==> OfKinds(params[i], p.t.param)
    {
      hide SlotsPlaced, OfKinds, Pulled, PulledFrom, Placed, RequestPart, SameKinds, Servable, OwnEntries, Wanted,
           FreqsAfter, EmptyRequest, Slotted, SameLayout, LocalAfter, TakesAll, TakenAll, IsSplit, Steady, AllInPlace,
           PullProgress;
      localShard.SplitPullRequest(b.req, pullRequests);
      MarkActive(b.req);
      PullActive(b.req, b.init, p.t.param, p.freqs);
      ghost var wanted := Wanted(p.freqs, threshold, b.req);
      WantedServable(p.t.param, p.freqs, threshold, b.req);
      SlottedKeys(p.t);
      ShardsServable(p.t.param, wanted, b.init);
      ShardedPullAgrees(p.t.param, sh, wanted, b.init, local.param, params[..]);
      PulledHolding(b, setting, p);
      LocalIs(local.param, p.t.param, wanted, b.init);
      local.SetParam(params[..]);
    }

    lemma PulledHolding(b: Batch, setting: Setting, p: Progress)
      requires Valid() && Set(setting)
      requires var wanted := Wanted(p.freqs, threshold, b.req);
               forall i: nat :: i < sh.size ==>
                 && models[i].param == Placed(PulledFrom(p.t.param, wanted, b.init), sh, i)
                 && stores[i].idFreqMap == OwnEntries(FreqsAfter(p.freqs, threshold, b.req), sh, i)
                 && optimizers[i].slots == SlotsPlaced(p.t.param, p.t.slots, sh, i)
                 && (Steady(setting.schedule) || i in p.behind || optimizers[i].batches == p.n)
      ensures Holding(setting, PullProgress(setting, p, b))
    {
      hide SlotsPlaced, PulledFrom, Placed, OwnEntries, Wanted, FreqsAfter, AllInPlace, Steady;
      SlotsStay(p.t, Wanted(p.freqs, threshold, b.req), b.init);
    }

    lemma LocalIs(local: TensorMap, m: TensorMap, req: PullRequest, init: RowInit)
      requires Servable(m, req) && SameLayout(local, m)
      ensures TakesAll(ClearSRMValue(local), Pulled(m, req, init))
      ensures LocalAfter(local, m, req, init) == TakenAll(ClearSRMValue(local), Pulled(m, req, init))
    {
      PulledTaken(local, m, req, init);
    }

    lemma SlotsStay(t: Trained, req: PullRequest, init: RowInit)
      ensures forall i: nat :: i < sh.size ==>
                SlotsPlaced(PulledFrom(t.param, req, init), t.slots, sh, i) == SlotsPlaced(t.param, t.slots, sh, i)
    {
      hide PulledFrom, SlotsPlaced;
      BatchCounts.PulledKinds(t.param, req, init);
      forall i: nat | i < sh.size
        ensures SlotsPlaced(PulledFrom(t.param, req, init), t.slots, sh, i) == SlotsPlaced(t.param, t.slots, sh, i)
      {
        KindsPlace(t.param, PulledFrom(t.param, req, init), t.slots, sh, i);
      }
    }

    /** A shard whose part of the request is empty is left out of the batch. */
    method MarkActive(ghost req: PullRequest)
      requires Valid() && IsSplit(pullRequests[..], req, sh)
      modifies masks
      ensures Masked(req)
    {
      for i := 0 to sh.size
        invariant forall k :: 0 <= k < i ==> (masks[k] <==> !EmptyRequest(RequestPart(req, sh, k)))
      {
        assert pullRequests[..][i] == RequestPart(req, sh, i);
        masks[i] := !EmptyRequest(pullRequests[i]);
      }
    }

    lemma ShardsServable(m: TensorMap, req: PullRequest, init: RowInit)
      requires Servable(m, req)
      ensures forall i: nat :: i < sh.size ==> Servable(Placed(m, sh, i), RequestPart(req, sh, i))
    {
      forall i: nat | i < sh.size
        ensures Servable(Placed(m, sh, i), RequestPart(req, sh, i))
      {
        ShardPull(m, sh, req, init, i);
      }
    }

    method PullActive(req: PullRequest, init: RowInit, ghost m: TensorMap, ghost freqs: Freqs)
      requires Valid() && Servable(m, req) && IsSplit(pullRequests[..], req, sh) && Masked(req)
      requires forall i: nat :: i < sh.size ==>
                 models[i].param == Placed(m, sh, i) && stores[i].idFreqMap == OwnEntries(freqs, sh, i)
      requires forall i :: 0 <= i < sh.size ==> SameKinds(params[i], m)
      modifies models, stores, params
      ensures var wanted, after := Wanted(freqs, threshold, req), FreqsAfter(freqs, threshold, req);
              forall i: nat :: i < sh.size ==>
                && Servable(Placed(m, sh, i), RequestPart(wanted, sh, i))
                && models[i].param == Placed(PulledFrom(m, wanted, init), sh, i)
                && stores[i].idFreqMap == OwnEntries(after, sh, i)
                && params[i] == Pulled(Placed(m, sh, i), RequestPart(wanted, sh, i), init) && OfKinds(params[i], m)
    {
      hide ValidShard, Servable, Placed, RequestPart, EmptyRequest, Pulled, PulledFrom, SameKinds, IsSplit, OfKinds,
           OwnEntries, Wanted, FreqsAfter;
      ghost var stale := params[..];
      ghost var wanted, after := Wanted(freqs, threshold, req), FreqsAfter(freqs, threshold, req);
      WantedServable(m, freqs, threshold, req);
      ShardsServable(m, wanted, init);
      for i := 0 to sh.size
        invariant forall k: nat :: k < i ==>
                    models[k].param == Placed(PulledFrom(m, wanted, init), sh, k)
                    && stores[k].idFreqMap == OwnEntries(after, sh, k)
        invariant forall k: nat :: i <= k < sh.size ==>
                    models[k].param == Placed(m, sh, k) && stores[k].idFreqMap == OwnEntries(freqs, sh, k)
        invariant forall k: nat :: k < i ==>
                    params[k] == Pulled(Placed(m, sh, k), RequestPart(wanted, sh, k), init) && OfKinds(params[k], m)
        invariant forall k: nat :: i <= k < sh.size ==> params[k] == stale[k]
      {
        PartAt(pullRequests[..], req, i);
        PullShard(i, req, init, m, freqs);
      }
    }

    method PullShard(i: nat, ghost req: PullRequest, init: RowInit, ghost m: TensorMap, ghost freqs: Freqs)
      requires Valid() && i < sh.size && Servable(m, req)
      requires pullRequests[i] == RequestPart(req, sh, i) && (masks[i] <==> !EmptyRequest(RequestPart(req, sh, i)))
      requires models[i].param == Placed(m, sh, i) && stores[i].idFreqMap == OwnEntries(freqs, sh, i)
      requires SameKinds(params[i], m) && Servable(m, Wanted(freqs, threshold, req))
      requires Servable(Placed(m, sh, i), RequestPart(Wanted(freqs, threshold, req), sh, i))
      modifies models[i], stores[i], params
      ensures var wanted := Wanted(freqs, threshold, req);
              && models[i].param == Placed(PulledFrom(m, wanted, init), sh, i)
              && stores[i].idFreqMap == OwnEntries(FreqsAfter(freqs, threshold, req), sh, i)
              && params[i] == Pulled(Placed(m, sh, i), RequestPart(wanted, sh, i), init) && OfKinds(params[i], m)
      ensures forall k :: 0 <= k < params.Length && k != i ==> params[k] == old(params[k])
    {
      hide ValidShard, Servable, Placed, RequestPart, EmptyRequest, Pulled, PulledFrom, SameKinds, OfKinds,
           OwnEntries, Wanted, FreqsAfter;
      ghost var wanted := Wanted(freqs, threshold, req);
      WantedPart(freqs, threshold, req, sh, i);
      ShardPull(m, sh, req, init, i);
      ShardPull(m, sh, wanted, init, i);
      PulledKinds(m, wanted, init, i);
      if masks[i] {
        PlacedKinds(params[i], m, i);
        var answer := PullFrom(models[i], stores[i], pullRequests[i], init, params[i]);
        params[i] := answer;
      } else {
        NothingWanted(stores[i].idFreqMap, threshold, pullRequests[i]);
        NothingPulled(Placed(m, sh, i), RequestPart(wanted, sh, i), init);
        params[i] := map[];
      }
    }

    lemma PartAt(parts: seq<PullRequest>, req: PullRequest, i: nat)
      requires IsSplit(parts, req, sh) && i < sh.size
      ensures i < |parts| && parts[i] == RequestPart(req, sh, i)
    {
    }

    lemma PlacedKinds(stale: TensorMap, m: TensorMap, i: nat)
      requires SameKinds(stale, m)
      ensures SameKinds(stale, Placed(m, sh, i))
    {
    }

    lemma PulledKinds(m: TensorMap, req: PullRequest, init: RowInit, i: nat)
      requires Servable(m, req) && Servable(Placed(m, sh, i), RequestPart(req, sh, i))
      ensures OfKinds(Pulled(Placed(m, sh, i), RequestPart(req, sh, i), init), m)
    {
      hide OwnRows, AskedRows, PulledFrom;
    }

    /** Splits the gradients and the new values by key and pushes them to the active shards: every
        shard, whatever it holds and has counted, is pushed its filtered part by the rule for its
        own count, and counts the batch if its part is not empty. */
    method Push(req: PullRequest, grad: TensorMap, given: TensorMap, schedule: Schedule)
      requires Valid() && Masked(req) && AskedFor(req, local.param, grad, given)
      requires forall i :: 0 <= i < sh.size ==> optimizers[i].slots.Keys == models[i].param.Keys
      requires forall i :: 0 <= i < sh.size ==> SameKinds(grads[i], grad) && SameKinds(overwritten[i], given)
      modifies models, optimizers, grads, overwritten
      ensures forall i: nat :: i < sh.size ==>
                StateOf(i) == Pushed(old(StateOf(i)),
                                     FilteredGrad(stores[i].idFreqMap, threshold, PartOf(local.param, grad, sh, i)),
                                     RemoveEmptyValue(Placed(given, sh, i)), schedule(old(optimizers[i].batches)))
      ensures forall i: nat :: i < sh.size ==>
                optimizers[i].batches == old(optimizers[i].batches)
                                         + if PartOf(local.param, grad, sh, i) == map[] then 0 else 1
      ensures forall i :: 0 <= i < sh.size ==> OfKinds(grads[i], grad) && OfKinds(overwritten[i], given)
    {
      hide GradPlaced, Placed, Pushed, RemoveEmptyValue, AskedFor, ValidShard, RequestPart, EmptyRequest, Updated,
           Overwritten, SameKinds, OfKinds, FilteredGrad;
      var moved := localShard.SplitGrad(local.param, grad, grads);
      localShard.SplitParam(given, overwritten);
      PartKinds(local.param, grad, given);
      ghost var targets := Targets(grads[..], overwritten[..], schedule);
      PushAll(req, grad, given, schedule, targets);
    }

    method PushAll(ghost req: PullRequest, ghost grad: TensorMap, ghost given: TensorMap, schedule: Schedule,
                   ghost targets: seq<Trained>)
      requires Valid() && Masked(req) && AskedFor(req, local.param, grad, given) && |targets| == sh.size
      requires forall i :: 0 <= i < sh.size ==> optimizers[i].slots.Keys == models[i].param.Keys
      requires forall k: nat :: k < sh.size ==>
                 && grads[k] == PartOf(local.param, grad, sh, k)
                 && overwritten[k] == RemoveEmptyValue(Placed(given, sh, k))
                 && targets[k] == Pushed(StateOf(k), FilteredGrad(stores[k].idFreqMap, threshold, grads[k]),
                                         overwritten[k], schedule(optimizers[k].batches))
      modifies models, optimizers
      ensures forall k: nat :: k < sh.size ==> StateOf(k) == targets[k]
      ensures forall k: nat :: k < sh.size ==>
                optimizers[k].batches == old(optimizers[k].batches) + if grads[k] == map[] then 0 else 1
    {
      hide PartOf, Placed, Pushed, RemoveEmptyValue, AskedFor, ValidShard, RequestPart, EmptyRequest, FilteredGrad;
      for i := 0 to sh.size
        invariant forall k: nat :: k < i ==> StateOf(k) == targets[k]
        invariant forall k: nat :: k < i ==>
                    optimizers[k].batches == old(optimizers[k].batches) + if grads[k] == map[] then 0 else 1
        invariant forall k: nat :: i <= k < sh.size ==>
                    models[k].param == old(models[k].param) && optimizers[k].slots == old(optimizers[k].slots)
                    && optimizers[k].batches == old(optimizers[k].batches)
      {
        PushShard(i, req, grad, given, schedule);
      }
    }

    /** What the push is to make of every shard. */
    lemma Targets(parts: seq<TensorMap>, given: seq<TensorMap>, schedule: Schedule) returns (targets: seq<Trained>)
      requires Valid() && |parts| == |given| == sh.size
      ensures |targets| == sh.size
      ensures forall k: nat :: k < sh.size ==>
                targets[k] == Pushed(StateOf(k), FilteredGrad(stores[k].idFreqMap, threshold, parts[k]), given[k],
                                     schedule(optimizers[k].batches))
    {
      hide Pushed, FilteredGrad, ValidShard;
      targets := [];
      for i := 0 to sh.size
        invariant |targets| == i
        invariant forall k: nat :: k < i ==>
                    targets[k] == Pushed(StateOf(k), FilteredGrad(stores[k].idFreqMap, threshold, parts[k]), given[k],
                                         schedule(optimizers[k].batches))
      {
        targets := targets + [Pushed(StateOf(i), FilteredGrad(stores[i].idFreqMap, threshold, parts[i]), given[i],
                                     schedule(optimizers[i].batches))];
      }
    }

    /** One shard, if the batch asked for anything of it. */
    method PushShard(i: nat, ghost req: PullRequest, ghost grad: TensorMap, ghost given: TensorMap,
                     schedule: Schedule)
      requires Valid() && i < sh.size && AskedFor(req, local.param, grad, given)
      requires masks[i] <==> !EmptyRequest(RequestPart(req, sh, i))
      requires grads[i] == PartOf(local.param, grad, sh, i)
      requires overwritten[i] == RemoveEmptyValue(Placed(given, sh, i))
      requires optimizers[i].slots.Keys == models[i].param.Keys
      modifies models[i], optimizers[i]
      ensures StateOf(i) == Pushed(old(StateOf(i)), FilteredGrad(stores[i].idFreqMap, threshold, grads[i]),
                                   overwritten[i], schedule(old(optimizers[i].batches)))
      ensures optimizers[i].batches == old(optimizers[i].batches) + if grads[i] == map[] then 0 else 1
    {
      hide GradPlaced, Placed, Pushed, RemoveEmptyValue, AskedFor, RequestPart, EmptyRequest;
      if masks[i] {
        PushTo(optimizers[i], stores[i], grads[i], overwritten[i], schedule);
      } else {
        MaskWithholdsNothing(sh, req, local.param, grad, given, i);
        PushedNothing(StateOf(i), schedule(optimizers[i].batches));
        NothingFiltered(stores[i].idFreqMap, threshold);
      }
    }

    lemma PartKinds(param: TensorMap, grad: TensorMap, given: TensorMap)
      ensures forall i: nat :: i < sh.size ==>
                && OfKinds(PartOf(param, grad, sh, i), grad)
                && OfKinds(RemoveEmptyValue(Placed(given, sh, i)), given)
    {
      hide OwnRows;
    }

    /** The push of a batch to shards that hold the parts of the model. */
    method PushBatch(req: PullRequest, grad: TensorMap, given: TensorMap, setting: Setting, ghost p: Progress)
      requires Valid() && Set(setting) && Holding(setting, p) && Fitting(local.param, p) && Masked(req)
      requires Pushable(setting, local.param, p, req, grad, given)
      requires forall i :: 0 <= i < sh.size ==>
                 OfKinds(grads[i], setting.gradKinds) && OfKinds(overwritten[i], setting.givenKinds)
      modifies models, optimizers, grads, overwritten
      ensures Holding(setting, PushProgress(setting, local.param, p, grad, given))
      ensures forall i :: 0 <= i < sh.size ==>
                OfKinds(grads[i], setting.gradKinds) && OfKinds(overwritten[i], setting.givenKinds)
    {
      hide OfKinds, SameKinds, Slotted, SameLayout, Pushed, TrainedPlaced, AskedFor, ConsistentTsr, PartOf,
           FilteredGrad, CountedThere, TouchesAny, Steady, AllInPlace, Counts, OwnEntries, Placed, RemoveEmptyValue;
      ValidSizes();
      AllSame(grads[..], grad, setting.gradKinds);
      AllSame(overwritten[..], given, setting.givenKinds);
      LayoutKnows(local.param, p.t.param);
      ghost var param := local.param;
      KeysPlaced(setting, p);
      Push(req, grad, given, setting.schedule);
      AllThen(grads[..], grad, setting.gradKinds);
      AllThen(overwritten[..], given, setting.givenKinds);
      forall i: nat | i < sh.size
        ensures StateOf(i) == TrainedPlaced(PushProgress(setting, param, p, grad, given).t, sh, i)
        ensures var after := PushProgress(setting, param, p, grad, given);
                Steady(setting.schedule) || i in after.behind || optimizers[i].batches == after.n
      {
        PushedAt(setting, param, p, req, grad, given, i, old(optimizers[i].batches));
      }
    }

    lemma KeysPlaced(setting: Setting, p: Progress)
      requires Valid() && Holding(setting, p) && Slotted(p.t)
      ensures forall i :: 0 <= i < sh.size ==> optimizers[i].slots.Keys == models[i].param.Keys
    {
      hide SlotsPlaced, Placed, Slotted, OwnEntries;
      forall i: nat | i < sh.size
        ensures optimizers[i].slots.Keys == models[i].param.Keys
      {
        PlacedSlotted(p.t, sh, i);
        SlottedKeys(StateOf(i));
      }
    }

    /** One batch; one that only predicts pulls and pushes nothing. */
    method RunBatch(b: Batch, setting: Setting, ghost p: Progress, ghost kinds: TensorMap)
      requires Valid() && Set(setting) && Holding(setting, p) && Fitting(local.param, p)
      requires Runnable(setting, local.param, p, b) && Buffered(kinds, setting) && OfKinds(p.t.param, kinds)
      modifies local, models, optimizers, stores, pullRequests, masks, params, grads, overwritten
      ensures local.param == LocalOf(setting, old(local.param), p, b)
      ensures Holding(setting, ProgressAfter(setting, old(local.param), p, b)) && Buffered(kinds, setting)
    {
      hide OfKinds, SameKinds, Fitting, Holding, Valid, Masked, PullProgress, PushProgress, Servable, Pushable, LocalOf;
      ValidSizes();
      PullKeepsFitting(setting, local.param, p, b, kinds);
      AllSame(params[..], p.t.param, kinds);
      Pull(b, setting, p);
      AllThen(params[..], p.t.param, kinds);
      if b.req.isTrain {
        var (grad, given) := b.compute(local.param);
        PushBatch(b.req, grad, given, setting, PullProgress(setting, p, b));
      }
    }

    /** Over any batches the shards hold the parts of the model that the same batches give
        without shards, and the local parameters are the same. */
    method RunBatches(batches: seq<Batch>, setting: Setting, ghost p: Progress)
      requires Valid() && Set(setting) && Holding(setting, p) && Fitting(local.param, p)
      requires AllRunnable(setting, local.param, p, batches) && Buffered(p.t.param, setting)
      modifies local, models, optimizers, stores, pullRequests, masks, params, grads, overwritten
      ensures var (local', p') := AfterAll(setting, old(local.param), p, batches);
              local.param == local' && Holding(setting, p')
      ensures Buffered(p.t.param, setting)
    {
      hide OfKinds, Fitting, Holding, LocalOf, ProgressAfter, Runnable, AllInPlace, AllRunnable, AfterAll, Buffered;
      ghost var now := p;
      OwnKinds(p.t.param);
      for i := 0 to |batches|
        invariant Holding(setting, now) && Fitting(local.param, now) && OfKinds(now.t.param, p.t.param)
        invariant Buffered(p.t.param, setting) && AllRunnable(setting, local.param, now, batches[i..])
        invariant AfterAll(setting, local.param, now, batches[i..]) == AfterAll(setting, old(local.param), p, batches)
      {
        ghost var before := local.param;
        FirstBatch(setting, before, now, batches[i..]);
        assert batches[i..][0] == batches[i] && batches[i..][1..] == batches[i + 1..];
        BatchKeepsFitting(setting, before, now, batches[i], p.t.param);
        RunBatch(batches[i], setting, now, p.t.param);
        now := ProgressAfter(setting, before, now, batches[i]);
      }
      NoMoreBatches(setting, local.param, now);
    }
  }

  lemma FirstBatch(setting: Setting, local: TensorMap, p: Progress, batches: seq<Batch>)
    requires AllInPlace(setting.schedule) && Fitting(local, p) && batches != []
    requires AllRunnable(setting, local, p, batches)
    ensures SameLayout(local, p.t.param) && Servable(p.t.param, batches[0].req)
    ensures Runnable(setting, local, p, batches[0])
    ensures var local', p' := LocalOf(setting, local, p, batches[0]), ProgressAfter(setting, local, p, batches[0]);
            && Fitting(local', p') && AllRunnable(setting, local', p', batches[1..])
            && AfterAll(setting, local', p', batches[1..]) == AfterAll(setting, local, p, batches)
  {
    hide Slotted, SameLayout, AllInPlace, Servable, Pushable, LocalOf, ProgressAfter;
    BatchKeepsFitting(setting, local, p, batches[0], p.t.param);
  }

  lemma NoMoreBatches(setting: Setting, local: TensorMap, p: Progress)
    requires AllInPlace(setting.schedule) && Fitting(local, p) && AllRunnable(setting, local, p, [])
    ensures AfterAll(setting, local, p, []) == (local, p)
  {
  }

  lemma OwnKinds(m: TensorMap)
    ensures OfKinds(m, m)
  {
  }

  lemma AllSame(ms: seq<TensorMap>, n: TensorMap, kinds: TensorMap)
    requires OfKinds(n, kinds) && forall i :: 0 <= i < |ms| ==> OfKinds(ms[i], kinds)
    ensures forall i :: 0 <= i < |ms| ==> SameKinds(ms[i], n)
  {
  }

  lemma AllThen(ms: seq<TensorMap>, n: TensorMap, kinds: TensorMap)
    requires OfKinds(n, kinds) && forall i :: 0 <= i < |ms| ==> OfKinds(ms[i], n)
    ensures forall i :: 0 <= i < |ms| ==> OfKinds(ms[i], kinds)
  {
  }

  lemma LayoutKnows(local: TensorMap, m: TensorMap)
    requires SameLayout(local, m)
    ensures Knows(local, m)
  {
  }

  lemma NothingGiven(m: TensorMap)
    ensures Overwritten(m, map[]) == m
  {
  }

  lemma NothingFiltered(freqs: Freqs, threshold: nat)
    ensures FilteredGrad(freqs, threshold, map[]) == map[]
  {
  }

  lemma NothingPulled(m: TensorMap, req: PullRequest, init: RowInit)
    requires Servable(m, req) && EmptyRequest(req)
    ensures PulledFrom(m, req, init) == m && Pulled(m, req, init) == map[]
  {
  }

  /** A shard that holds its part, and has counted k batches, after a push. */
  lemma PushedAt(setting: Setting, param: TensorMap, p: Progress, req: PullRequest, grad: TensorMap,
                 given: TensorMap, i: nat, k: nat)
    requires AllInPlace(setting.schedule) && Slotted(p.t) && Knows(param, p.t.param) && i < setting.sh.size
    requires Pushable(setting, param, p, req, grad, given)
    requires Steady(setting.schedule) || i in p.behind || k == p.n
    ensures var after := PushProgress(setting, param, p, grad, given);
            && Pushed(TrainedPlaced(p.t, setting.sh, i), FilteredPart(setting, param, p, grad, i),
                      RemoveEmptyValue(Placed(given, setting.sh, i)), setting.schedule(k))
               == TrainedPlaced(after.t, setting.sh, i)
            && after.freqs == p.freqs
            && (Steady(setting.schedule) || i in after.behind
                || k + (if PartOf(param, grad, setting.sh, i) == map[] then 0 else 1) == after.n)
  {
    hide AllInPlace, Slotted, Knows, AskedFor, ConsistentTsr, OfKinds, CountedThere, TouchesAny, FilteredPart, Pushed,
         TrainedPlaced, Placed, RemoveEmptyValue, FilteredGrad, PartOf;
    PushPartAgrees(setting, param, p, grad, given, i, k);
  }
}
