// Frequency filtering (src/graph/freq_store.cc): ids are counted by the pull requests of
// training; rows of ids seen too rarely are neither pulled nor updated.
module FreqStores {
  import opened Basics
  import opened Maps
  import opened Sequences
  import opened TensorMaps
  import opened Models
  import opened Optimizers
  import opened ModelShards
  import opened Shardings

  const MAX_FREQ: nat := 0xFFFF_FFFF

  type Freqs = map<nat, nat>

  ghost predicate InRange(freqs: Freqs) {
    forall id :: id in freqs ==> freqs[id] <= MAX_FREQ
  }

  function CountOf(freqs: Freqs, id: nat): nat {
    if id in freqs then freqs[id] else 0
  }

  /** Adding two counts stops at the largest 32-bit number. */
  function Bump(freq: nat, count: nat): nat {
    if freq > MAX_FREQ - count then MAX_FREQ else freq + count
  }

  function Bumped(freqs: Freqs, counts: Freqs): Freqs {
    map id | id in freqs.Keys + counts.Keys ::
      if id in counts then Bump(CountOf(freqs, id), counts[id]) else freqs[id]
  }

  /** An id is dropped unless it is known and has reached the threshold. */
  predicate Drops(freqs: Freqs, threshold: nat, id: nat) {
    id in freqs ==> freqs[id] < threshold
  }

  function KeptIds(freqs: Freqs, threshold: nat, ids: set<nat>): set<nat> {
    set id | id in ids && !Drops(freqs, threshold, id)
  }

  function KeptRows(freqs: Freqs, threshold: nat, rows: map<nat, Row>): map<nat, Row> {
    map id | id in rows && !Drops(freqs, threshold, id) :: rows[id]
  }

  /** The counts after the filter has seen a request. */
  function Seen(freqs: Freqs, threshold: nat, req: PullRequest): Freqs {
    if threshold == 0 then freqs else Bumped(freqs, req.idFreqMap)
  }

  /** The request counts itself first, then loses the ids that are still too rare. */
  function FilteredRequest(freqs: Freqs, threshold: nat, req: PullRequest): PullRequest {
    if threshold == 0 then req
    else
      var after := Bumped(freqs, req.idFreqMap);
      req.(srmMap := map name | name in req.srmMap :: KeptIds(after, threshold, req.srmMap[name]))
  }

  function FilteredGrad(freqs: Freqs, threshold: nat, grad: TensorMap): TensorMap {
    if threshold == 0 then grad
    else
      map name | name in grad ::
        match grad[name]
        case Tsr(_, _) => grad[name]
        case Srm(col, rows) => Srm(col, KeptRows(freqs, threshold, rows))
  }

  /** An id stays asked for exactly if its count, with the request's own, has reached the
      threshold. */
  lemma RequestKeeps(freqs: Freqs, threshold: nat, req: PullRequest)
    requires InRange(freqs)
    ensures var left := FilteredRequest(freqs, threshold, req);
            && left.isTrain == req.isTrain && left.tsrSet == req.tsrSet && left.idFreqMap == req.idFreqMap
            && left.srmMap.Keys == req.srmMap.Keys
            && (threshold == 0 ==> left == req)
            && (threshold > 0 ==> forall name, id :: name in req.srmMap ==>
                  (id in left.srmMap[name]
                   <==> id in req.srmMap[name]
                        && Min(0xFFFF_FFFF, CountOf(freqs, id) + CountOf(req.idFreqMap, id)) >= threshold))
  {
  }

  /** A row stays in a gradient exactly if its id is counted and has reached the threshold. */
  lemma GradKeeps(freqs: Freqs, threshold: nat, grad: TensorMap)
    ensures var left := FilteredGrad(freqs, threshold, grad);
            && left.Keys == grad.Keys
            && (threshold == 0 ==> left == grad)
            && (forall name :: name in grad && grad[name].Tsr? ==> left[name] == grad[name])
            && (forall name :: name in grad && grad[name].Srm? ==>
                  && left[name].Srm? && left[name].col == grad[name].col
                  && (forall id :: id in left[name].rows ==>
                        id in grad[name].rows && left[name].rows[id] == grad[name].rows[id])
                  && (threshold > 0 ==> forall id :: id in grad[name].rows ==>
                        (id in left[name].rows <==> id in freqs && freqs[id] >= threshold)))
  {
  }

  /** Two are not enough for a threshold of three, but three are. */
  lemma ThirdTimePasses()
    ensures var req := PullRequest(true, {}, map["w" := {7}], map[7 := 1]);
            && FilteredRequest(map[7 := 2], 3, req) == req
            && FilteredRequest(map[7 := 1], 3, req) == req.(srmMap := map["w" := {}])
  {
    var req := PullRequest(true, {}, map["w" := {7}], map[7 := 1]);
    assert KeptIds(Bumped(map[7 := 2], req.idFreqMap), 3, {7}) == {7};
    assert KeptIds(Bumped(map[7 := 1], req.idFreqMap), 3, {7}) == {};
    assert FilteredRequest(map[7 := 2], 3, req).srmMap == map["w" := {7}];
    assert FilteredRequest(map[7 := 1], 3, req).srmMap == map["w" := {}];
  }

  // ---------------------------------------------------------------------------------------
  // Counts over a run
  // ---------------------------------------------------------------------------------------

  /** One locked addition. */
  datatype Entry = Entry(id: nat, count: nat)

  function AfterEntry(freqs: Freqs, e: Entry): Freqs {
    freqs[e.id := Bump(CountOf(freqs, e.id), e.count)]
  }

  function AfterEntries(freqs: Freqs, entries: seq<Entry>): Freqs {
    if entries == [] then freqs
    else AfterEntry(AfterEntries(freqs, entries[..|entries| - 1]), entries[|entries| - 1])
  }

  function Total(entries: seq<Entry>, id: nat): nat {
    if entries == [] then 0
    else
      var e := entries[|entries| - 1];
      Total(entries[..|entries| - 1], id) + if e.id == id then e.count else 0
  }

  ghost predicate Mentioned(entries: seq<Entry>, id: nat) {
    exists e :: e in entries && e.id == id
  }

  /** However the additions of all requests are interleaved, an id's count is its first count
      plus all that was added, or the largest number if that is too much. */
  lemma {:induction false} CountsSaturate(freqs: Freqs, entries: seq<Entry>, id: nat)
    requires InRange(freqs) && forall e :: e in entries ==> e.count <= MAX_FREQ
    ensures InRange(AfterEntries(freqs, entries))
    ensures CountOf(AfterEntries(freqs, entries), id) == Min(MAX_FREQ, CountOf(freqs, id) + Total(entries, id))
    ensures id in AfterEntries(freqs, entries) <==> id in freqs || Mentioned(entries, id)
    decreases |entries|
  {
    if entries != [] {
      var e, rest := entries[|entries| - 1], entries[..|entries| - 1];
      assert entries == rest + [e];
      CountsSaturate(freqs, rest, id);
      assert Mentioned(entries, id) <==> Mentioned(rest, id) || e.id == id;
    }
  }

  /** The sum does not depend on the order of the additions. */
  lemma {:induction false} TotalOfBag(entries: seq<Entry>, others: seq<Entry>, id: nat)
    requires multiset(entries) == multiset(others)
    ensures Total(entries, id) == Total(others, id)
    decreases |entries|
  {
    if entries == [] {
      assert |multiset(entries)| == |entries| && |multiset(others)| == |others|;
    } else {
      var e, rest := entries[|entries| - 1], entries[..|entries| - 1];
      var k := Elsewhere(entries, others);
      TotalOfBag(rest, others[..k] + others[k + 1..], id);
      TotalWithout(others, k, id);
    }
  }

  lemma {:induction false} TotalWithout(entries: seq<Entry>, k: nat, id: nat)
    requires k < |entries|
    ensures Total(entries, id)
         == Total(entries[..k] + entries[k + 1..], id) + if entries[k].id == id then entries[k].count else 0
    decreases |entries|
  {
    var last := |entries| - 1;
    var without := entries[..k] + entries[k + 1..];
    if k == last {
      assert without == entries[..last];
    } else {
      TotalWithout(entries[..last], k, id);
      assert without[..|without| - 1] == entries[..last][..k] + entries[..last][k + 1..];
      assert without[|without| - 1] == entries[last];
    }
  }

  /** Two interleavings of the same additions leave the same counts. */
  lemma InterleavingsAgree(freqs: Freqs, entries: seq<Entry>, others: seq<Entry>)
    requires InRange(freqs) && multiset(entries) == multiset(others)
    requires forall e :: e in entries ==> e.count <= MAX_FREQ
    ensures AfterEntries(freqs, entries) == AfterEntries(freqs, others)
  {
    assert forall e :: e in others ==> e in multiset(entries);
    var a, b := AfterEntries(freqs, entries), AfterEntries(freqs, others);
    forall id: nat
      ensures (id in a <==> id in b) && CountOf(a, id) == CountOf(b, id)
    {
      CountsSaturate(freqs, entries, id);
      CountsSaturate(freqs, others, id);
      TotalOfBag(entries, others, id);
      forall e | e in entries || e in others
        ensures e in entries && e in others
      {
        assert e in multiset(entries) && e in multiset(others);
      }
    }
    assert a.Keys == b.Keys;
    forall id | id in a
      ensures a[id] == b[id]
    {
      assert CountOf(a, id) == CountOf(b, id);
    }
  }

  /** An id that has passed the threshold stays past it whatever is added. */
  lemma {:induction false} PassingIsPermanent(freqs: Freqs, entries: seq<Entry>, threshold: nat, id: nat)
    requires InRange(freqs) && forall e :: e in entries ==> e.count <= MAX_FREQ
    requires !Drops(freqs, threshold, id)
    ensures !Drops(AfterEntries(freqs, entries), threshold, id)
  {
    CountsSaturate(freqs, entries, id);
  }

  /** One request after the other. */
  function AfterRequests(freqs: Freqs, threshold: nat, reqs: seq<PullRequest>): Freqs {
    if reqs == [] then freqs
    else Seen(AfterRequests(freqs, threshold, reqs[..|reqs| - 1]), threshold, reqs[|reqs| - 1])
  }

  lemma {:induction false} CountsGrow(freqs: Freqs, threshold: nat, reqs: seq<PullRequest>, id: nat)
    requires InRange(freqs)
    requires forall r :: r in reqs ==> InRange(r.idFreqMap)
    ensures InRange(AfterRequests(freqs, threshold, reqs))
    ensures id in freqs ==>
              id in AfterRequests(freqs, threshold, reqs)
              && freqs[id] <= AfterRequests(freqs, threshold, reqs)[id]
    decreases |reqs|
  {
    if reqs != [] {
      assert reqs[|reqs| - 1] in reqs;
      CountsGrow(freqs, threshold, reqs[..|reqs| - 1], id);
    }
  }

  /** The gradient row of an id that a pull let through is let through at any later push. */
  lemma PulledIsPushed(freqs: Freqs, threshold: nat, req: PullRequest, later: seq<PullRequest>,
                       grad: TensorMap, name: string, gradName: string, id: nat)
    requires InRange(freqs) && InRange(req.idFreqMap) && forall r :: r in later ==> InRange(r.idFreqMap)
    requires name in req.srmMap && id in FilteredRequest(freqs, threshold, req).srmMap[name]
    requires gradName in grad && grad[gradName].Srm? && id in grad[gradName].rows
    ensures var now := AfterRequests(Seen(freqs, threshold, req), threshold, later);
            var left := FilteredGrad(now, threshold, grad);
            && gradName in left && left[gradName].Srm? && id in left[gradName].rows
            && left[gradName].rows[id] == grad[gradName].rows[id]
  {
    var seen := Seen(freqs, threshold, req);
    assert InRange(seen);
    CountsGrow(seen, threshold, later, id);
  }

  function Asked(reqs: seq<PullRequest>, id: nat): nat {
    if reqs == [] then 0
    else Asked(reqs[..|reqs| - 1], id) + CountOf(reqs[|reqs| - 1].idFreqMap, id)
  }

  /** The same over whole requests. */
  lemma {:induction false} RequestsSaturate(freqs: Freqs, threshold: nat, reqs: seq<PullRequest>, id: nat)
    requires InRange(freqs) && threshold > 0
    requires forall r :: r in reqs ==> InRange(r.idFreqMap)
    ensures InRange(AfterRequests(freqs, threshold, reqs))
    ensures CountOf(AfterRequests(freqs, threshold, reqs), id)
         == Min(MAX_FREQ, CountOf(freqs, id) + Asked(reqs, id))
    decreases |reqs|
  {
    if reqs != [] {
      assert reqs[|reqs| - 1] in reqs;
      RequestsSaturate(freqs, threshold, reqs[..|reqs| - 1], id);
    }
  }

  // ---------------------------------------------------------------------------------------
  // Filtering on shards
  // ---------------------------------------------------------------------------------------

  /** Counting and filtering the parts of a request, each with its shard's counts, is counting
      and filtering the request and then splitting it. */
  lemma ShardFiltersRequest(freqs: Freqs, threshold: nat, req: PullRequest, sh: Shard, i: nat)
    ensures Seen(OwnEntries(freqs, sh, i), threshold, RequestPart(req, sh, i))
         == OwnEntries(Seen(freqs, threshold, req), sh, i)
    ensures FilteredRequest(OwnEntries(freqs, sh, i), threshold, RequestPart(req, sh, i))
         == RequestPart(FilteredRequest(freqs, threshold, req), sh, i)
  {
    hide Bumped, OwnEntries, KeptIds, OwnIds;
    var part := RequestPart(req, sh, i);
    var all := Bumped(freqs, req.idFreqMap);
    OwnBumped(freqs, req, sh, i);
    if threshold > 0 {
      var a := FilteredRequest(OwnEntries(freqs, sh, i), threshold, part);
      var b := RequestPart(FilteredRequest(freqs, threshold, req), sh, i);
      assert a.srmMap.Keys == b.srmMap.Keys;
      forall name | name in req.srmMap
        ensures a.srmMap[name] == b.srmMap[name]
      {
        OwnKept(all, threshold, req.srmMap[name], sh, i);
      }
      assert a.srmMap == b.srmMap;
    }
  }

  lemma OwnBumped(freqs: Freqs, req: PullRequest, sh: Shard, i: nat)
    ensures Bumped(OwnEntries(freqs, sh, i), RequestPart(req, sh, i).idFreqMap)
         == OwnEntries(Bumped(freqs, req.idFreqMap), sh, i)
  {
  }

  lemma OwnKept(freqs: Freqs, threshold: nat, ids: set<nat>, sh: Shard, i: nat)
    ensures KeptIds(OwnEntries(freqs, sh, i), threshold, OwnIds(ids, sh, i))
         == OwnIds(KeptIds(freqs, threshold, ids), sh, i)
  {
  }

  lemma OwnKeptRows(freqs: Freqs, threshold: nat, rows: map<nat, Row>, sh: Shard, i: nat)
    ensures KeptRows(OwnEntries(freqs, sh, i), threshold, OwnRows(rows, sh, i))
         == OwnRows(KeptRows(freqs, threshold, rows), sh, i)
  {
  }

  /** The rows that reach the threshold, of a sparse gradient that goes to shard i as a whole
      because its parameter is dense, are counted on shard i. */
  ghost predicate CountedThere(freqs: Freqs, threshold: nat, param: TensorMap, grad: TensorMap, sh: Shard,
                               i: nat)
  {
    forall name :: name in grad && name in param && param[name].Tsr? && grad[name].Srm? && sh.tsr(name) == i ==>
      KeptThere(freqs, threshold, grad[name].rows, sh, i)
  }

  ghost predicate KeptThere(freqs: Freqs, threshold: nat, rows: map<nat, Row>, sh: Shard, i: nat) {
    forall id :: id in rows && !Drops(freqs, threshold, id) ==> sh.srm(id) == i
  }

  /** Filtering the parts of a gradient agrees with filtering it before the split exactly if
      the sparse gradients of dense parameters have their kept ids on the parameter's shard. */
  lemma ShardFiltersGrad(freqs: Freqs, threshold: nat, param: TensorMap, grad: TensorMap, sh: Shard, i: nat)
    ensures FilteredGrad(OwnEntries(freqs, sh, i), threshold, GradPlaced(param, grad, sh, i))
         == GradPlaced(param, FilteredGrad(freqs, threshold, grad), sh, i)
         <==> threshold == 0 || CountedThere(freqs, threshold, param, grad, sh, i)
  {
    hide KeptRows, OwnRows, OwnEntries, Drops, KeptThere;
    if threshold > 0 {
      hide FilteredGrad, GradPlaced;
      var a := FilteredGrad(OwnEntries(freqs, sh, i), threshold, GradPlaced(param, grad, sh, i));
      var b := GradPlaced(param, FilteredGrad(freqs, threshold, grad), sh, i);
      FilteredKeys(freqs, threshold, param, grad, sh, i);
      forall name | name in a
        ensures a[name] == b[name]
                <==> (param[name].Tsr? && grad[name].Srm? ==> KeptThere(freqs, threshold, grad[name].rows, sh, i))
      {
        FilteredValue(freqs, threshold, param, grad, sh, i, name);
      }
    }
  }

  lemma FilteredKeys(freqs: Freqs, threshold: nat, param: TensorMap, grad: TensorMap, sh: Shard, i: nat)
    ensures var a := FilteredGrad(OwnEntries(freqs, sh, i), threshold, GradPlaced(param, grad, sh, i));
            && a.Keys == GradPlaced(param, FilteredGrad(freqs, threshold, grad), sh, i).Keys
            && (forall name :: name in a ==>
                  name in grad && name in param && (param[name].Tsr? ==> sh.tsr(name) == i))
            && (forall name :: name in grad && name in param && param[name].Tsr? && sh.tsr(name) == i ==> name in a)
  {
    hide KeptRows, OwnRows, OwnEntries;
  }

  lemma FilteredValue(freqs: Freqs, threshold: nat, param: TensorMap, grad: TensorMap, sh: Shard, i: nat,
                      name: string)
    requires threshold > 0 && name in grad && name in param
    requires name in GradPlaced(param, FilteredGrad(freqs, threshold, grad), sh, i)
    ensures var a := FilteredGrad(OwnEntries(freqs, sh, i), threshold, GradPlaced(param, grad, sh, i));
            var b := GradPlaced(param, FilteredGrad(freqs, threshold, grad), sh, i);
            && name in a
            && (a[name] == b[name]
                <==> (param[name].Tsr? && grad[name].Srm? ==> KeptThere(freqs, threshold, grad[name].rows, sh, i)))
  {
    hide KeptRows, OwnRows, OwnEntries, KeptThere;
    if grad[name].Srm? {
      OwnKeptRows(freqs, threshold, grad[name].rows, sh, i);
      WholeKeptRows(freqs, threshold, grad[name].rows, sh, i);
    }
  }

  lemma WholeKeptRows(freqs: Freqs, threshold: nat, rows: map<nat, Row>, sh: Shard, i: nat)
    requires threshold > 0
    ensures KeptRows(OwnEntries(freqs, sh, i), threshold, rows) == KeptRows(freqs, threshold, rows)
            <==> KeptThere(freqs, threshold, rows, sh, i)
  {
    var a, b := KeptRows(OwnEntries(freqs, sh, i), threshold, rows), KeptRows(freqs, threshold, rows);
    if forall id :: id in rows && !Drops(freqs, threshold, id) ==> sh.srm(id) == i {
      assert a == b;
    } else {
      var id :| id in rows && !Drops(freqs, threshold, id) && sh.srm(id) != i;
      assert id in b && id !in a;
    }
  }

  /** An id counted on shard 1 whose gradient row belongs to a dense tensor of two rows on shard
      0: the unsharded store keeps the row, the shard drops it. */
  lemma DenseRowLost(row: Row)
    requires |row| == 1
    ensures var sh := Shard(2, name => 0, id => id % 2);
            var freqs, threshold := map[1 := 5], 3;
            var param, grad := map["W" := Tsr([2, 1], [0.0, 0.0])], map["W" := Srm(1, map[1 := row])];
            && FilteredGrad(OwnEntries(freqs, sh, 0), threshold, GradPlaced(param, grad, sh, 0))
               == map["W" := Srm(1, map[])]
            && GradPlaced(param, FilteredGrad(freqs, threshold, grad), sh, 0) == grad
  {
    var freqs: Freqs := map[1 := 5];
    var rows: map<nat, Row> := map[1 := row];
    var sh := Shard(2, name => 0, id => id % 2);
    assert KeptRows(OwnEntries(freqs, sh, 0), 3, rows) == map[];
    assert KeptRows(freqs, 3, rows) == rows;
  }

  lemma UpdatedIgnoresEmpty(t: Trained, grad: TensorMap, rule: Rule)
    requires InPlace(rule) && Slotted(t)
    ensures Updated(t, RemoveEmptyValue(grad), rule) == Updated(t, grad, rule)
  {
    hide InPlace, Updated, LevelsOf, UpdatedLevels;
    var part := RemoveEmptyValue(grad);
    var a, b := Updated(t, part, rule), Updated(t, grad, rule);
    UpdateKeepsSlotted(t, grad, rule);
    UpdateKeepsSlotted(t, part, rule);
    UpdatedKeys(t, grad, rule);
    UpdatedKeys(t, part, rule);
    forall name | name in t.param
      ensures LevelsOf(a, name) == LevelsOf(b, name)
    {
      LevelsUpdated(t, grad, rule, name);
      LevelsUpdated(t, part, rule, name);
      FirstLevel(t, t.param, name);
      if name in grad && IsEmpty(grad[name]) {
        EmptyGradient(name, LevelsOf(t, name), grad[name], rule);
      }
    }
    SameLevels(a, b);
  }

  lemma RemoveFilterRemove(freqs: Freqs, threshold: nat, grad: TensorMap)
    ensures RemoveEmptyValue(FilteredGrad(freqs, threshold, RemoveEmptyValue(grad)))
         == RemoveEmptyValue(FilteredGrad(freqs, threshold, grad))
  {
    assert KeptRows(freqs, threshold, map[]) == map[];
  }

  /** A pull with filtering on shards gives the shards' parts of a pull with filtering on the
      whole model. */
  lemma ShardFilteredPull(m: TensorMap, freqs: Freqs, threshold: nat, sh: Shard, req: PullRequest,
                          init: RowInit, i: nat)
    requires Servable(m, req)
    ensures Servable(m, FilteredRequest(freqs, threshold, req))
    ensures var part := FilteredRequest(OwnEntries(freqs, sh, i), threshold, RequestPart(req, sh, i));
            && Servable(Placed(m, sh, i), part)
            && Pulled(Placed(m, sh, i), part, init)
               == RemoveEmptyValue(Placed(Answers(m, FilteredRequest(freqs, threshold, req), init), sh, i))
            && PulledFrom(Placed(m, sh, i), part, init)
               == Placed(PulledFrom(m, FilteredRequest(freqs, threshold, req), init), sh, i)
  {
    ShardFiltersRequest(freqs, threshold, req, sh, i);
    hide Placed, RequestPart, Pulled, PulledFrom, Answers, OwnEntries;
    ShardPull(m, sh, FilteredRequest(freqs, threshold, req), init, i);
  }

  /** A push with filtering on shards is a push with filtering on the whole model. */
  lemma ShardFilteredUpdate(t: Trained, freqs: Freqs, threshold: nat, sh: Shard, param: TensorMap,
                            grad: TensorMap, rule: Rule, i: nat)
    requires Knows(param, t.param) && InPlace(rule) && Slotted(t)
    requires threshold == 0 || CountedThere(freqs, threshold, param, grad, sh, i)
    ensures var part := RemoveEmptyValue(GradPlaced(param, grad, sh, i));
            Updated(TrainedPlaced(t, sh, i), FilteredGrad(OwnEntries(freqs, sh, i), threshold, part), rule)
            == TrainedPlaced(Updated(t, FilteredGrad(freqs, threshold, grad), rule), sh, i)
  {
    hide *;
    var own, whole := OwnEntries(freqs, sh, i), GradPlaced(param, grad, sh, i);
    var part := RemoveEmptyValue(whole);
    PlacedSlotted(t, sh, i);
    UpdatedIgnoresEmpty(TrainedPlaced(t, sh, i), FilteredGrad(own, threshold, part), rule);
    UpdatedIgnoresEmpty(TrainedPlaced(t, sh, i), FilteredGrad(own, threshold, whole), rule);
    RemoveFilterRemove(own, threshold, whole);
    ShardFiltersGrad(freqs, threshold, param, grad, sh, i);
    ShardUpdate(t, sh, param, FilteredGrad(freqs, threshold, grad), rule, i);
  }

  // ---------------------------------------------------------------------------------------
  // The store
  // ---------------------------------------------------------------------------------------

  function BumpedExcept(freqs: Freqs, counts: Freqs, left: set<nat>): Freqs {
    Bumped(freqs, map id | id in counts && id !in left :: counts[id])
  }

  lemma BumpedStart(freqs: Freqs, counts: Freqs)
    ensures BumpedExcept(freqs, counts, counts.Keys) == freqs
    ensures BumpedExcept(freqs, counts, {}) == Bumped(freqs, counts)
  {
    assert (map id | id in counts && id !in {} :: counts[id]) == counts;
  }

  lemma BumpedMore(freqs: Freqs, counts: Freqs, left: set<nat>, id: nat)
    requires id in left && id in counts
    ensures BumpedExcept(freqs, counts, left - {id})
         == AfterEntry(BumpedExcept(freqs, counts, left), Entry(id, counts[id]))
  {
  }

  class FreqStore {
    var idFreqMap: Freqs
    const threshold: nat

    constructor (threshold: nat)
      ensures idFreqMap == map[] && this.threshold == threshold
    {
      idFreqMap, this.threshold := map[], threshold;
    }

    /** Counts the request's ids, then takes the rare ones out of it. */
    method FilterRequest(req: PullRequest) returns (left: PullRequest)
      modifies this
      ensures idFreqMap == Seen(old(idFreqMap), threshold, req)
      ensures left == FilteredRequest(old(idFreqMap), threshold, req)
      ensures left.srmMap.Keys == req.srmMap.Keys && (threshold == 0 ==> left == req)
      ensures threshold > 0 && InRange(old(idFreqMap)) ==>
                forall name, id :: name in req.srmMap ==>
                  (id in left.srmMap[name]
                   <==> id in req.srmMap[name]
                        && Min(0xFFFF_FFFF, CountOf(old(idFreqMap), id) + CountOf(req.idFreqMap, id)) >= threshold)
    {
      hide FilteredRequest, Bumped;
      FilterAlone(idFreqMap, threshold, req);
      if InRange(idFreqMap) {
        RequestKeeps(idFreqMap, threshold, req);
      }
      if threshold == 0 {
        return req;
      }
      CountIds(req.idFreqMap);
      var srmMap := KeepAllIds(req.srmMap);
      return req.(srmMap := srmMap);
    }

    method KeepAllIds(srmMap: map<string, set<nat>>) returns (kept: map<string, set<nat>>)
      ensures kept == map name | name in srmMap :: KeptIds(idFreqMap, threshold, srmMap[name])
    {
      hide KeptIds;
      kept := srmMap;
      var names := srmMap.Keys;
      while names != {}
        invariant names <= srmMap.Keys && kept.Keys == srmMap.Keys
        invariant forall name :: name in srmMap ==>
                    kept[name] == if name in names then srmMap[name]
                                  else KeptIds(idFreqMap, threshold, srmMap[name])
        decreases |names|
      {
        var name :| name in names;
        var ids := KeepIds(srmMap[name]);
        kept := kept[name := ids];
        names := names - {name};
      }
    }

    method CountIds(counts: Freqs)
      modifies this
      ensures idFreqMap == Bumped(old(idFreqMap), counts)
    {
      hide *;
      var left := counts.Keys;
      BumpedStart(idFreqMap, counts);
      while left != {}
        invariant left <= counts.Keys && idFreqMap == BumpedExcept(old(idFreqMap), counts, left)
        decreases |left|
      {
        var id :| id in left;
        BumpedMore(old(idFreqMap), counts, left, id);
        Increase(id, counts[id]);
        left := left - {id};
      }
    }

    method Increase(id: nat, count: nat)
      modifies this
      ensures idFreqMap == AfterEntry(old(idFreqMap), Entry(id, count))
    {
      var freq := if id in idFreqMap then idFreqMap[id] else 0;
      if freq > MAX_FREQ - count {
        idFreqMap := idFreqMap[id := MAX_FREQ];
      } else {
        idFreqMap := idFreqMap[id := freq + count];
      }
    }

    method KeepIds(ids: set<nat>) returns (kept: set<nat>)
      ensures kept == KeptIds(idFreqMap, threshold, ids)
    {
      hide KeptIds, Drops;
      kept := ids;
      var left := ids;
      KeptAll(idFreqMap, threshold, ids);
      while left != {}
        invariant left <= ids
        invariant kept == left + KeptIds(idFreqMap, threshold, ids - left)
        decreases |left|
      {
        var id :| id in left;
        KeptOneMore(idFreqMap, threshold, ids, left, id);
        if Drops(idFreqMap, threshold, id) {
          kept := kept - {id};
        }
        left := left - {id};
      }
    }

    /** Takes the rows of rare ids out of the sparse gradients. */
    method FilterGrad(grad: TensorMap) returns (left: TensorMap)
      ensures left == FilteredGrad(idFreqMap, threshold, grad)
      ensures left.Keys == grad.Keys && (threshold == 0 ==> left == grad)
      ensures threshold > 0 ==>
                forall name, id :: name in grad && grad[name].Srm? && id in grad[name].rows ==>
                  && left[name].Srm?
                  && (id in left[name].rows <==> id in idFreqMap && idFreqMap[id] >= threshold)
    {
      GradKeeps(idFreqMap, threshold, grad);
      if threshold == 0 {
        return grad;
      }
      left := grad;
      var names := grad.Keys;
      while names != {}
        invariant names <= grad.Keys && left.Keys == grad.Keys
        invariant forall name :: name in grad ==>
                    left[name] == if name in names then grad[name]
                                  else FilteredGrad(idFreqMap, threshold, grad)[name]
        decreases |names|
      {
        var name :| name in names;
        if grad[name].Srm? {
          left := left[name := Srm(grad[name].col, KeptRows(idFreqMap, threshold, grad[name].rows))];
        }
        names := names - {name};
      }
    }

    method Merge(other: Freqs, sh: Shard, i: nat)
      modifies this
      ensures idFreqMap == OwnEntries(other, sh, i) + old(idFreqMap)
    {
      hide OwnEntries, Except;
      var left := other.Keys;
      OwnNone(other, old(idFreqMap), sh, i);
      while left != {}
        invariant left <= other.Keys
        invariant idFreqMap == OwnEntries(Except(other, left), sh, i) + old(idFreqMap)
        decreases |left|
      {
        var id :| id in left;
        OwnOneMore(other, old(idFreqMap), left, id, sh, i);
        if sh.srm(id) == i && id !in idFreqMap {
          idFreqMap := idFreqMap[id := other[id]];
        }
        left := left - {id};
      }
      ExceptNone(other);
    }
  }

  lemma FilterAlone(freqs: Freqs, threshold: nat, req: PullRequest)
    ensures FilteredRequest(freqs, threshold, req).srmMap.Keys == req.srmMap.Keys
    ensures threshold == 0 ==> FilteredRequest(freqs, threshold, req) == req
    ensures threshold > 0 ==>
              FilteredRequest(freqs, threshold, req)
              == req.(srmMap := map name | name in req.srmMap ::
                                  KeptIds(Bumped(freqs, req.idFreqMap), threshold, req.srmMap[name]))
  {
  }

  lemma KeptAll(freqs: Freqs, threshold: nat, ids: set<nat>)
    ensures ids + KeptIds(freqs, threshold, ids - ids) == ids
    ensures {} + KeptIds(freqs, threshold, ids - {}) == KeptIds(freqs, threshold, ids)
  {
    assert ids - {} == ids;
  }

  lemma KeptOneMore(freqs: Freqs, threshold: nat, ids: set<nat>, left: set<nat>, id: nat)
    requires id in left && left <= ids
    ensures var kept := left + KeptIds(freqs, threshold, ids - left);
            left - {id} + KeptIds(freqs, threshold, ids - (left - {id}))
            == if Drops(freqs, threshold, id) then kept - {id} else kept
  {
  }

  lemma OwnNone(other: Freqs, local: Freqs, sh: Shard, i: nat)
    ensures OwnEntries(Except(other, other.Keys), sh, i) + local == local
  {
  }

  lemma OwnOneMore(other: Freqs, local: Freqs, left: set<nat>, id: nat, sh: Shard, i: nat)
    requires id in left && id in other
    ensures var now := OwnEntries(Except(other, left), sh, i) + local;
            OwnEntries(Except(other, left - {id}), sh, i) + local
            == if sh.srm(id) == i && id !in now then now[id := other[id]] else now
  {
  }

  /** How often each id occurs in an instance, counted without an overflow check. */
  method GetIdFreqMap(ids: seq<nat>) returns (counts: Freqs)
    ensures forall id :: id in counts <==> id in ids
    ensures forall id :: id in counts ==> counts[id] == multiset(ids)[id] % (MAX_FREQ + 1)
  {
    counts := map[];
    for k := 0 to |ids|
      invariant forall id :: id in counts <==> id in ids[..k]
      invariant forall id :: id in counts ==> counts[id] == multiset(ids[..k])[id] % (MAX_FREQ + 1)
    {
      var id := ids[k];
      OneMoreId(ids[..k], id);
      assert ids[..k + 1] == ids[..k] + [id];
      counts := counts[id := (CountOf(counts, id) + 1) % (MAX_FREQ + 1)];
    }
    assert ids[..|ids|] == ids;
  }

  lemma OneMoreId(ids: seq<nat>, id: nat)
    ensures multiset(ids + [id]) == multiset(ids) + multiset{id}
    ensures id !in ids ==> multiset(ids)[id] == 0
    ensures (multiset(ids)[id] % (MAX_FREQ + 1) + 1) % (MAX_FREQ + 1) == (multiset(ids)[id] + 1) % (MAX_FREQ + 1)
  {
  }
}
