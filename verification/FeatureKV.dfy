// The feature-KV form of sparse parameters, protocol version 2 (src/graph/feature_kv_util.cc):
// one item per id, holding the rows that all matrices have for it.
module FeatureKV {
  import opened Basics
  import opened Bytes
  import opened Maps
  import opened Sequences

  /** A matrix by its node id; a row is the memory of its col floats of four bytes. */
  datatype Matrix = Matrix(col: nat, rows: map<nat, seq<Byte>>)

  type Sparse = map<nat, Matrix>

  /** One row of one matrix. */
  datatype SparseValue = SparseValue(node: nat, col: nat, embedding: seq<Byte>)

  datatype IdValues = IdValues(id: nat, values: seq<SparseValue>)

  const FLOAT_SIZE: nat := 4
  const HEAD_SIZE: nat := 7
  const MAGIC: Byte := 0xb2

  predicate ValueFits(v: SparseValue) {
    v.node < TWO16 && v.col < TWO16 && |v.embedding| == FLOAT_SIZE * v.col
  }

  // ---------------------------------------------------------------------------------------
  // Items
  // ---------------------------------------------------------------------------------------

  function EncodeValue(v: SparseValue): seq<Byte>
    requires ValueFits(v)
  {
    U16(v.node) + U16(v.col) + v.embedding
  }

  predicate ValuesFit(values: seq<SparseValue>) {
    forall i :: 0 <= i < |values| ==> ValueFits(values[i])
  }

  function EncodeValues(values: seq<SparseValue>): (b: seq<Byte>)
    requires ValuesFit(values)
    ensures |b| >= 4 * |values|
  {
    if values == [] then [] else EncodeValues(values[..|values| - 1]) + EncodeValue(values[|values| - 1])
  }

  function EncodeItem(key: seq<Byte>, value: seq<Byte>): seq<Byte>
    requires |key| < 256 && |value| < TWO32
  {
    [MAGIC, 0, |key|] + U32(|value|) + key + value
  }

  /** What GetItem asserts of an id and its rows. */
  predicate ItemFits(e: IdValues) {
    && e.id < TWO64 && ValuesFit(e.values)
    && 0 < |EncodeValues(e.values)| < TWO32
  }

  predicate ItemsFit(lists: seq<IdValues>) {
    forall i :: 0 <= i < |lists| ==> ItemFits(lists[i])
  }

  function EncodeItems(lists: seq<IdValues>): seq<Byte>
    requires ItemsFit(lists)
  {
    if lists == [] then []
    else
      var e := lists[0];
      EncodeItem(U64(e.id), EncodeValues(e.values)) + EncodeItems(lists[1..])
  }

  datatype Pair = Pair(key: seq<Byte>, value: seq<Byte>)

  datatype Split = Split(ok: bool, pairs: seq<Pair>)

  /** The first item and what follows it. */
  function SplitItem(buf: seq<Byte>): (r: Option<(Pair, seq<Byte>)>)
    ensures r.Some? ==> |r.value.1| < |buf|
  {
    if |buf| < HEAD_SIZE then None
    else
      var keySize, valueSize := buf[2] as int, FromU32(buf[3..7]);
      var rest := buf[HEAD_SIZE..];
      if |rest| < keySize + valueSize then None
      else Some((Pair(rest[..keySize], rest[keySize..keySize + valueSize]), rest[keySize + valueSize..]))
  }

  /** The items up to the first that is not complete. */
  function SplitItems(buf: seq<Byte>): Split
    decreases |buf|
  {
    if buf == [] then Split(true, [])
    else
      var first := SplitItem(buf);
      if first.None? then Split(false, [])
      else
        var rest := SplitItems(first.value.1);
        rest.(pairs := [first.value.0] + rest.pairs)
  }

  lemma SplitItemEncoded(key: seq<Byte>, value: seq<Byte>, rest: seq<Byte>)
    requires |key| < 256 && |value| < TWO32
    ensures SplitItem(EncodeItem(key, value) + rest) == Some((Pair(key, value), rest))
  {
    var buf := EncodeItem(key, value) + rest;
    assert buf[3..7] == U32(|value|);
    U32RoundTrip(|value|);
    assert buf[HEAD_SIZE..] == key + value + rest;
    assert (key + value + rest)[..|key|] == key;
    assert (key + value + rest)[|key|..|key| + |value|] == value;
    assert (key + value + rest)[|key| + |value|..] == rest;
  }

  function PairsOf(lists: seq<IdValues>): seq<Pair>
    requires ItemsFit(lists)
  {
    if lists == [] then []
    else [Pair(U64(lists[0].id), EncodeValues(lists[0].values))] + PairsOf(lists[1..])
  }

  /** Concatenated items split into what they were made of. */
  lemma {:induction false} SplitItemsEncoded(lists: seq<IdValues>)
    requires ItemsFit(lists)
    ensures SplitItems(EncodeItems(lists)) == Split(true, PairsOf(lists))
    decreases |lists|
  {
    if lists != [] {
      var e := lists[0];
      SplitItemEncoded(U64(e.id), EncodeValues(e.values), EncodeItems(lists[1..]));
      SplitItemsEncoded(lists[1..]);
    }
  }

  // ---------------------------------------------------------------------------------------
  // Parsing a value
  // ---------------------------------------------------------------------------------------

  /** The parser's test for a row that need not be stored reads the row's first byte. */
  predicate Skipped(col: nat, embedding: seq<Byte>)
    requires |embedding| == FLOAT_SIZE * col
  {
    col == 1 && embedding[0] == 0
  }

  function Store(w: Sparse, id: nat, node: nat, embedding: seq<Byte>): Sparse
    requires node in w && |embedding| == FLOAT_SIZE * w[node].col
  {
    if Skipped(w[node].col, embedding) then w
    else w[node := w[node].(rows := w[node].rows[id := embedding])]
  }

  /** The matrices after parsing, and whether the value was bad. */
  datatype Parsed = Parsed(w: Sparse, bad: bool)

  function ParseValue(w: Sparse, id: nat, buf: seq<Byte>): Parsed
    decreases |buf|
  {
    if buf == [] then Parsed(w, false)
    else if |buf| < 4 then Parsed(w, true)
    else
      var node, col := FromU16(buf[..2]), FromU16(buf[2..4]);
      if node !in w || col != w[node].col || |buf| - 4 < FLOAT_SIZE * col then Parsed(w, true)
      else
        ParseValue(Store(w, id, node, buf[4..4 + FLOAT_SIZE * col]), id, buf[4 + FLOAT_SIZE * col..])
  }

  /** The target has the matrix of the value. */
  predicate Takes(w: Sparse, v: SparseValue) {
    ValueFits(v) && v.node in w && w[v.node].col == v.col
  }

  predicate TakesAll(w: Sparse, values: seq<SparseValue>) {
    forall i :: 0 <= i < |values| ==> Takes(w, values[i])
  }

  function StoreAll(w: Sparse, id: nat, values: seq<SparseValue>): (r: Sparse)
    requires TakesAll(w, values)
    ensures SameLayout(w, r)
    decreases |values|
  {
    if values == [] then w
    else StoreAll(Store(w, id, values[0].node, values[0].embedding), id, values[1..])
  }

  predicate SameLayout(w: Sparse, r: Sparse) {
    w.Keys == r.Keys && forall node :: node in w ==> w[node].col == r[node].col
  }

  lemma {:induction false} EncodeFirst(values: seq<SparseValue>)
    requires ValuesFit(values) && values != []
    ensures EncodeValues(values) == EncodeValue(values[0]) + EncodeValues(values[1..])
    decreases |values|
  {
    hide EncodeValue;
    var last := |values| - 1;
    if last == 0 {
      assert values[..0] == [] && values[1..] == [];
    } else {
      EncodeFirst(values[..last]);
      var middle := values[1..][..last - 1];
      assert values[..last][1..] == middle && values[1..][last - 1] == values[last];
      Associate(EncodeValue(values[0]), EncodeValues(middle), EncodeValue(values[last]));
    }
  }

  /** Parsing the encoded rows of an id stores them, all of them. */
  lemma {:induction false} ParseEncoded(w: Sparse, id: nat, values: seq<SparseValue>)
    requires TakesAll(w, values)
    ensures ParseValue(w, id, EncodeValues(values)) == Parsed(StoreAll(w, id, values), false)
    decreases |values|
  {
    if values != [] {
      var v := values[0];
      EncodeFirst(values);
      var buf := EncodeValues(values);
      U16RoundTrip(v.node);
      U16RoundTrip(v.col);
      assert buf[..2] == U16(v.node) && buf[2..4] == U16(v.col);
      assert buf[4..4 + FLOAT_SIZE * v.col] == v.embedding;
      assert buf[4 + FLOAT_SIZE * v.col..] == EncodeValues(values[1..]);
      ParseEncoded(Store(w, id, v.node, v.embedding), id, values[1..]);
    }
  }

  // ---------------------------------------------------------------------------------------
  // Which rows come back
  // ---------------------------------------------------------------------------------------

  function RowOf(w: Sparse, node: nat, id: nat): Option<seq<Byte>> {
    if node in w && id in w[node].rows then Some(w[node].rows[id]) else None
  }

  /** What is written of a row: the width is cut to 16 bits. */
  function ValueOf(w: Sparse, node: nat, id: nat): SparseValue
    requires node in w && id in w[node].rows && |w[node].rows[id]| == FLOAT_SIZE * w[node].col
  {
    var col := w[node].col % TWO16;
    SparseValue(node, col, w[node].rows[id][..FLOAT_SIZE * col])
  }

  predicate Sound(w: Sparse) {
    forall node :: node in w ==>
      node < TWO16 && forall id :: id in w[node].rows ==> id < TWO64 && |w[node].rows[id]| == FLOAT_SIZE * w[node].col
  }

  ghost predicate HasId(w: Sparse, id: nat) {
    exists node :: node in w && id in w[node].rows
  }

  /** The list of an id: one value for every matrix that has a row for it, in any order. */
  ghost predicate ListOf(values: seq<SparseValue>, w: Sparse, id: nat)
    requires Sound(w)
  {
    && (forall i, j :: 0 <= i < j < |values| ==> values[i].node != values[j].node)
    && (forall i :: 0 <= i < |values| ==>
          && values[i].node in w && id in w[values[i].node].rows
          && values[i] == ValueOf(w, values[i].node, id))
    && (forall node :: node in w && id in w[node].rows ==> exists i :: 0 <= i < |values| && values[i].node == node)
  }

  ghost predicate Collected(lists: map<nat, seq<SparseValue>>, w: Sparse)
    requires Sound(w)
  {
    forall id: nat :: (id in lists <==> HasId(w, id)) && (id in lists ==> ListOf(lists[id], w, id))
  }

  /** The lists of all ids, in any order. */
  ghost predicate Enumerates(order: seq<IdValues>, lists: map<nat, seq<SparseValue>>) {
    && (forall i, j :: 0 <= i < j < |order| ==> order[i].id != order[j].id)
    && (forall i :: 0 <= i < |order| ==> order[i].id in lists && lists[order[i].id] == order[i].values)
    && (forall id :: id in lists ==> exists i :: 0 <= i < |order| && order[i].id == id)
  }

  function Emptied(w: Sparse): Sparse {
    map node | node in w :: Matrix(w[node].col, map[])
  }

  /** All rows but those of width one whose first byte is zero. */
  function Kept(w: Sparse): Sparse
    requires Sound(w)
  {
    map node | node in w ::
      Matrix(w[node].col, map id | id in w[node].rows && !Skipped(w[node].col, w[node].rows[id]) :: w[node].rows[id])
  }

  lemma {:induction false} StoreAllOther(w: Sparse, id: nat, values: seq<SparseValue>, node: nat, other: nat)
    requires TakesAll(w, values)
    requires other != id || forall i :: 0 <= i < |values| ==> values[i].node != node
    ensures RowOf(StoreAll(w, id, values), node, other) == RowOf(w, node, other)
    decreases |values|
  {
    if values != [] {
      StoreAllOther(Store(w, id, values[0].node, values[0].embedding), id, values[1..], node, other);
    }
  }

  lemma {:induction false} StoreAllRow(w: Sparse, id: nat, values: seq<SparseValue>, i: nat)
    requires TakesAll(w, values) && i < |values|
    requires forall a, b :: 0 <= a < b < |values| ==> values[a].node != values[b].node
    ensures var v := values[i];
            RowOf(StoreAll(w, id, values), v.node, id)
            == if Skipped(v.col, v.embedding) then RowOf(w, v.node, id) else Some(v.embedding)
    decreases |values|
  {
    var v := values[0];
    var next := Store(w, id, v.node, v.embedding);
    if i == 0 {
      StoreAllOther(next, id, values[1..], v.node, id);
    } else {
      StoreAllRow(next, id, values[1..], i - 1);
    }
  }

  predicate AllTaken(w: Sparse, order: seq<IdValues>) {
    forall k :: 0 <= k < |order| ==> TakesAll(w, order[k].values)
  }

  function LoadAll(w: Sparse, order: seq<IdValues>): (r: Sparse)
    requires AllTaken(w, order)
    ensures SameLayout(w, r)
    decreases |order|
  {
    if order == [] then w else LoadAll(StoreAll(w, order[0].id, order[0].values), order[1..])
  }

  lemma {:induction false} LoadedOther(w: Sparse, order: seq<IdValues>, node: nat, id: nat)
    requires AllTaken(w, order) && forall k :: 0 <= k < |order| ==> order[k].id != id
    ensures RowOf(LoadAll(w, order), node, id) == RowOf(w, node, id)
    decreases |order|
  {
    if order != [] {
      StoreAllOther(w, order[0].id, order[0].values, node, id);
      LoadedOther(StoreAll(w, order[0].id, order[0].values), order[1..], node, id);
    }
  }

  lemma {:induction false} LoadedRow(w: Sparse, order: seq<IdValues>, k: nat, node: nat)
    requires AllTaken(w, order) && k < |order|
    requires forall a, b :: 0 <= a < b < |order| ==> order[a].id != order[b].id
    requires RowOf(w, node, order[k].id) == None
    ensures RowOf(LoadAll(w, order), node, order[k].id)
         == RowOf(StoreAll(w, order[k].id, order[k].values), node, order[k].id)
    decreases |order|
  {
    var next := StoreAll(w, order[0].id, order[0].values);
    if k == 0 {
      LoadedOther(next, order[1..], node, order[0].id);
    } else {
      StoreAllOther(w, order[0].id, order[0].values, node, order[k].id);
      LoadedRow(next, order[1..], k - 1, node);
      StoreAllSame(w, next, order[k].id, order[k].values, node);
    }
  }

  /** What storing makes of a row depends on that row alone. */
  lemma {:induction false} StoreAllSame(w: Sparse, w': Sparse, id: nat, values: seq<SparseValue>, node: nat)
    requires TakesAll(w, values) && TakesAll(w', values) && SameLayout(w, w')
    requires RowOf(w, node, id) == RowOf(w', node, id)
    ensures RowOf(StoreAll(w, id, values), node, id) == RowOf(StoreAll(w', id, values), node, id)
    decreases |values|
  {
    if values != [] {
      var v := values[0];
      StoreAllSame(Store(w, id, v.node, v.embedding), Store(w', id, v.node, v.embedding), id, values[1..], node);
    }
  }

  /** Widths that the 16-bit field can hold. */
  predicate Narrow(w: Sparse) {
    forall node :: node in w ==> w[node].col < TWO16
  }

  lemma ListTaken(w: Sparse, values: seq<SparseValue>, id: nat)
    requires Sound(w) && Narrow(w) && ListOf(values, w, id)
    ensures TakesAll(Emptied(w), values)
    ensures forall i :: 0 <= i < |values| ==> values[i].embedding == w[values[i].node].rows[id]
  {
    forall i | 0 <= i < |values|
      ensures Takes(Emptied(w), values[i]) && values[i].embedding == w[values[i].node].rows[id]
    {
      var node := values[i].node;
      assert values[i] == ValueOf(w, node, id) && w[node].col % TWO16 == w[node].col;
    }
  }

  lemma ListsTaken(w: Sparse, lists: map<nat, seq<SparseValue>>, order: seq<IdValues>)
    requires Sound(w) && Narrow(w) && Collected(lists, w) && Enumerates(order, lists)
    ensures AllTaken(Emptied(w), order)
  {
    forall k | 0 <= k < |order|
      ensures TakesAll(Emptied(w), order[k].values)
    {
      ListTaken(w, order[k].values, order[k].id);
    }
  }

  lemma LoadedAt(w: Sparse, lists: map<nat, seq<SparseValue>>, order: seq<IdValues>, node: nat, id: nat)
    requires Sound(w) && Narrow(w) && Collected(lists, w) && Enumerates(order, lists)
    requires AllTaken(Emptied(w), order)
    ensures RowOf(LoadAll(Emptied(w), order), node, id) == RowOf(Kept(w), node, id)
  {
    hide LoadAll, StoreAll, ListOf, Kept, Emptied, HasId;
    EmptiedAt(w, node, id);
    if k :| 0 <= k < |order| && order[k].id == id {
      LoadedRow(Emptied(w), order, k, node);
      StoredIsKept(w, order[k].values, node, id);
    } else {
      LoadedOther(Emptied(w), order, node, id);
      KeptNeedsId(w, node, id);
      assert id !in lists && !HasId(w, id);
    }
  }

  lemma EmptiedAt(w: Sparse, node: nat, id: nat)
    ensures RowOf(Emptied(w), node, id) == None
  {
  }

  lemma KeptNeedsId(w: Sparse, node: nat, id: nat)
    requires Sound(w)
    ensures !HasId(w, id) ==> RowOf(Kept(w), node, id) == None
  {
  }

  lemma StoredIsKept(w: Sparse, values: seq<SparseValue>, node: nat, id: nat)
    requires Sound(w) && Narrow(w) && ListOf(values, w, id) && TakesAll(Emptied(w), values)
    ensures RowOf(StoreAll(Emptied(w), id, values), node, id) == RowOf(Kept(w), node, id)
  {
    hide StoreAll;
    EmptiedAt(w, node, id);
    ListTaken(w, values, id);
    if i :| 0 <= i < |values| && values[i].node == node {
      StoreAllRow(Emptied(w), id, values, i);
      assert values[i] == ValueOf(w, node, id);
    } else {
      StoreAllOther(Emptied(w), id, values, node, id);
    }
  }

  /** Loading what was written gives back every row, bit for bit, but those that are skipped. */
  lemma LoadedIsKept(w: Sparse, lists: map<nat, seq<SparseValue>>, order: seq<IdValues>)
    requires Sound(w) && Narrow(w) && Collected(lists, w) && Enumerates(order, lists)
    ensures AllTaken(Emptied(w), order) && LoadAll(Emptied(w), order) == Kept(w)
  {
    hide LoadAll, Collected, Enumerates;
    ListsTaken(w, lists, order);
    var loaded := LoadAll(Emptied(w), order);
    assert loaded.Keys == Kept(w).Keys;
    forall node | node in loaded
      ensures loaded[node] == Kept(w)[node]
    {
      var a, b := loaded[node].rows, Kept(w)[node].rows;
      forall id: nat
        ensures id in a <==> id in b
        ensures id in a ==> a[id] == b[id]
      {
        LoadedAt(w, lists, order, node, id);
        assert RowOf(loaded, node, id) == RowOf(Kept(w), node, id);
      }
      assert a.Keys == b.Keys;
      assert a == b;
    }
  }

  // ---------------------------------------------------------------------------------------
  // Parsing answers
  // ---------------------------------------------------------------------------------------

  datatype Stat = Stat(keyExist: nat, keyNotExist: nat, clientError: nat, keyBad: nat, valueBad: nat)

  datatype Result = Result(w: Sparse, stat: Stat)

  const NOTHING := Stat(0, 0, 0, 0, 0)

  /** One answer of the store: its pair counts if the code is 0. */
  function ParseAnswer(r: Result, pair: Pair, code: int): Result {
    if code == 0 then
      var counted := r.stat.(keyExist := r.stat.keyExist + 1);
      if |pair.key| != 8 then Result(r.w, counted.(keyBad := counted.keyBad + 1))
      else
        var parsed := ParseValue(r.w, FromU64(pair.key), pair.value);
        Result(parsed.w, if parsed.bad then counted.(valueBad := counted.valueBad + 1) else counted)
    else if code == 1 then r.(stat := r.stat.(keyNotExist := r.stat.keyNotExist + 1))
    else r.(stat := r.stat.(clientError := r.stat.clientError + 1))
  }

  function ParseAnswers(r: Result, pairs: seq<Pair>, codes: seq<int>): Result
    requires |pairs| == |codes|
    decreases |pairs|
  {
    if pairs == [] then r else ParseAnswers(ParseAnswer(r, pairs[0], codes[0]), pairs[1..], codes[1..])
  }

  lemma {:induction false} ParseAllEncoded(r: Result, order: seq<IdValues>, codes: seq<int>)
    requires ItemsFit(order) && AllTaken(r.w, order)
    requires |codes| == |order| && forall k :: 0 <= k < |codes| ==> codes[k] == 0
    ensures |PairsOf(order)| == |order|
    ensures ParseAnswers(r, PairsOf(order), codes)
         == Result(LoadAll(r.w, order), r.stat.(keyExist := r.stat.keyExist + |order|))
    decreases |order|
  {
    if order != [] {
      var e := order[0];
      assert ItemFits(e);
      U64RoundTrip(e.id);
      ParseEncoded(r.w, e.id, e.values);
      var next := ParseAnswer(r, PairsOf(order)[0], codes[0]);
      assert next == Result(StoreAll(r.w, e.id, e.values), r.stat.(keyExist := r.stat.keyExist + 1));
      ParseAllEncoded(next, order[1..], codes[1..]);
    }
  }

  /** Writing the matrices, splitting the bytes into items and parsing these into cleared
      matrices of the same widths: nothing is bad, and the rows are those of Kept. */
  lemma RoundTrip(w: Sparse, lists: map<nat, seq<SparseValue>>, order: seq<IdValues>, codes: seq<int>)
    requires Sound(w) && Narrow(w) && Collected(lists, w) && Enumerates(order, lists)
    requires ItemsFit(order) && |codes| == |order| && forall k :: 0 <= k < |codes| ==> codes[k] == 0
    ensures var split := SplitItems(EncodeItems(order));
            && split.ok && |split.pairs| == |codes|
            && ParseAnswers(Result(Emptied(w), NOTHING), split.pairs, codes)
               == Result(Kept(w), NOTHING.(keyExist := |order|))
  {
    SplitItemsEncoded(order);
    LoadedIsKept(w, lists, order);
    ParseAllEncoded(Result(Emptied(w), NOTHING), order, codes);
  }

  /** A value of encoded rows is bad exactly if the target lacks the matrix of one of them. */
  lemma {:induction false} ParseBad(w: Sparse, id: nat, values: seq<SparseValue>)
    requires ValuesFit(values)
    ensures ParseValue(w, id, EncodeValues(values)).bad <==> !TakesAll(w, values)
    ensures SameLayout(w, ParseValue(w, id, EncodeValues(values)).w)
    decreases |values|
  {
    if values != [] {
      var v := values[0];
      EncodeFirst(values);
      var buf := EncodeValues(values);
      U16RoundTrip(v.node);
      U16RoundTrip(v.col);
      assert buf[..2] == U16(v.node) && buf[2..4] == U16(v.col);
      assert TakesAll(w, values) <==> Takes(w, v) && TakesAll(w, values[1..]) by {
        assert forall i :: 0 < i < |values| ==> values[i] == values[1..][i - 1];
      }
      if Takes(w, v) {
        assert buf[4..4 + FLOAT_SIZE * v.col] == v.embedding;
        assert buf[4 + FLOAT_SIZE * v.col..] == EncodeValues(values[1..]);
        var next := Store(w, id, v.node, v.embedding);
        ParseBad(next, id, values[1..]);
        assert TakesAll(next, values[1..]) <==> TakesAll(w, values[1..]);
      }
    }
  }

  lemma {:induction false} ParseAllBad(r: Result, order: seq<IdValues>, codes: seq<int>)
    requires ItemsFit(order) && |codes| == |order| && forall k :: 0 <= k < |codes| ==> codes[k] == 0
    ensures |PairsOf(order)| == |order|
    ensures var stat := ParseAnswers(r, PairsOf(order), codes).stat;
            && stat.valueBad >= r.stat.valueBad && stat.keyBad == r.stat.keyBad
            && (stat.valueBad == r.stat.valueBad <==> AllTaken(r.w, order))
    decreases |order|
  {
    if order != [] {
      var e := order[0];
      assert ItemFits(e);
      U64RoundTrip(e.id);
      ParseBad(r.w, e.id, e.values);
      var next := ParseAnswer(r, PairsOf(order)[0], codes[0]);
      ParseAllBad(next, order[1..], codes[1..]);
      AllTakenStep(r.w, next.w, order);
    }
  }

  lemma AllTakenStep(w: Sparse, w': Sparse, order: seq<IdValues>)
    requires order != [] && SameLayout(w, w')
    ensures AllTaken(w, order) <==> TakesAll(w, order[0].values) && AllTaken(w', order[1..])
  {
    assert forall k :: 0 < k < |order| ==> order[k] == order[1..][k - 1];
    if TakesAll(w, order[0].values) && AllTaken(w', order[1..]) {
      forall k | 0 <= k < |order|
        ensures TakesAll(w, order[k].values)
      {
        if k > 0 {
          assert TakesAll(w', order[1..][k - 1].values);
        }
      }
    }
  }

  /** No value is bad exactly if every matrix with a row has a width of at most 16 bits. */
  lemma BadExactlyIfWide(w: Sparse, lists: map<nat, seq<SparseValue>>, order: seq<IdValues>, codes: seq<int>)
    requires Sound(w) && Collected(lists, w) && Enumerates(order, lists)
    requires ItemsFit(order) && |codes| == |order| && forall k :: 0 <= k < |codes| ==> codes[k] == 0
    ensures var split := SplitItems(EncodeItems(order));
            && split.ok && |split.pairs| == |codes|
            && var stat := ParseAnswers(Result(Emptied(w), NOTHING), split.pairs, codes).stat;
            && stat.keyBad == 0
            && (stat.valueBad == 0 <==> forall node :: node in w && w[node].rows != map[] ==> w[node].col < TWO16)
  {
    SplitItemsEncoded(order);
    ParseAllBad(Result(Emptied(w), NOTHING), order, codes);
    if AllTaken(Emptied(w), order) {
      forall node | node in w && w[node].rows != map[]
        ensures w[node].col < TWO16
      {
        var id :| id in w[node].rows;
        TakenIsNarrow(w, lists, order, node, id);
      }
    }
    if forall node :: node in w && w[node].rows != map[] ==> w[node].col < TWO16 {
      forall k | 0 <= k < |order|
        ensures TakesAll(Emptied(w), order[k].values)
      {
        NarrowIsTaken(w, order[k].values, order[k].id);
      }
    }
  }

  lemma TakenIsNarrow(w: Sparse, lists: map<nat, seq<SparseValue>>, order: seq<IdValues>, node: nat, id: nat)
    requires Sound(w) && Collected(lists, w) && Enumerates(order, lists) && AllTaken(Emptied(w), order)
    requires node in w && id in w[node].rows
    ensures w[node].col < TWO16
  {
    assert HasId(w, id) && id in lists;
    var k :| 0 <= k < |order| && order[k].id == id;
    var values := order[k].values;
    assert ListOf(values, w, id);
    var i :| 0 <= i < |values| && values[i].node == node;
    assert Takes(Emptied(w), values[i]) && values[i] == ValueOf(w, node, id);
  }

  lemma NarrowIsTaken(w: Sparse, values: seq<SparseValue>, id: nat)
    requires Sound(w) && ListOf(values, w, id)
    requires forall node :: node in w && w[node].rows != map[] ==> w[node].col < TWO16
    ensures TakesAll(Emptied(w), values)
  {
    forall i | 0 <= i < |values|
      ensures Takes(Emptied(w), values[i])
    {
      var node := values[i].node;
      assert values[i] == ValueOf(w, node, id) && w[node].rows != map[];
      assert w[node].col % TWO16 == w[node].col;
    }
  }

  /** Of what was written, a row does not come back exactly if it has width one and its first
      byte is zero. */
  lemma LostRows(w: Sparse, lists: map<nat, seq<SparseValue>>, order: seq<IdValues>, codes: seq<int>, node: nat,
                 id: nat)
    requires Sound(w) && Narrow(w) && Collected(lists, w) && Enumerates(order, lists)
    requires ItemsFit(order) && |codes| == |order| && forall k :: 0 <= k < |codes| ==> codes[k] == 0
    requires node in w && id in w[node].rows
    ensures var split := SplitItems(EncodeItems(order));
            && split.ok && |split.pairs| == |codes|
            && (RowOf(ParseAnswers(Result(Emptied(w), NOTHING), split.pairs, codes).w, node, id) == None
                <==> w[node].col == 1 && w[node].rows[id][0] == 0)
  {
    hide SplitItems, EncodeItems, ParseAnswers, Collected, Enumerates, ItemsFit;
    RoundTrip(w, lists, order, codes);
  }

  // ---------------------------------------------------------------------------------------
  // Writing
  // ---------------------------------------------------------------------------------------

  function ListAt(lists: map<nat, seq<SparseValue>>, id: nat): seq<SparseValue> {
    if id in lists then lists[id] else []
  }

  /** The matrices with one more row. */
  function WithRow(w: Sparse, node: nat, id: nat, row: seq<Byte>): Sparse
    requires node in w
  {
    w[node := w[node].(rows := w[node].rows[id := row])]
  }

  lemma CollectedMore(lists: map<nat, seq<SparseValue>>, w: Sparse, node: nat, id: nat, row: seq<Byte>)
    requires Sound(w) && Collected(lists, w) && node in w && id !in w[node].rows
    requires id < TWO64 && |row| == FLOAT_SIZE * w[node].col
    ensures var w' := WithRow(w, node, id, row);
            && Sound(w')
            && Collected(lists[id := ListAt(lists, id) + [ValueOf(w', node, id)]], w')
  {
    var w' := WithRow(w, node, id, row);
    var v := ValueOf(w', node, id);
    var lists' := lists[id := ListAt(lists, id) + [v]];
    forall other: nat
      ensures other in lists' <==> HasId(w', other)
      ensures other in lists' ==> ListOf(lists'[other], w', other)
    {
      HasIdMore(w, node, id, row, other);
      if other != id {
        if other in lists {
          ListOfOther(lists[other], w, node, id, row, other);
        }
      } else {
        ListOfMore(ListAt(lists, id), w, node, id, row);
      }
    }
  }

  lemma HasIdMore(w: Sparse, node: nat, id: nat, row: seq<Byte>, other: nat)
    requires node in w
    ensures HasId(WithRow(w, node, id, row), other) <==> HasId(w, other) || other == id
  {
    var w' := WithRow(w, node, id, row);
    if HasId(w, other) {
      var n :| n in w && other in w[n].rows;
      assert n in w' && other in w'[n].rows;
    }
    if other == id {
      assert node in w' && id in w'[node].rows;
    }
    if HasId(w', other) && other != id {
      var n :| n in w' && other in w'[n].rows;
      assert n in w && other in w[n].rows;
    }
  }

  lemma ListOfOther(values: seq<SparseValue>, w: Sparse, node: nat, id: nat, row: seq<Byte>, other: nat)
    requires Sound(w) && node in w && other != id && ListOf(values, w, other)
    requires id < TWO64 && |row| == FLOAT_SIZE * w[node].col
    ensures Sound(WithRow(w, node, id, row)) && ListOf(values, WithRow(w, node, id, row), other)
  {
  }

  lemma ListOfMore(values: seq<SparseValue>, w: Sparse, node: nat, id: nat, row: seq<Byte>)
    requires Sound(w) && node in w && id !in w[node].rows
    requires id < TWO64 && |row| == FLOAT_SIZE * w[node].col
    requires (values == [] && !HasId(w, id)) || ListOf(values, w, id)
    ensures var w' := WithRow(w, node, id, row);
            Sound(w') && ListOf(values + [ValueOf(w', node, id)], w', id)
  {
    var w' := WithRow(w, node, id, row);
    var all := values + [ValueOf(w', node, id)];
    assert values == [] ==> forall n :: n in w ==> id !in w[n].rows;
    forall n | n in w' && id in w'[n].rows
      ensures exists i :: 0 <= i < |all| && all[i].node == n
    {
      if n == node {
        assert all[|values|].node == n;
      } else {
        assert n in w && id in w[n].rows;
        var i :| 0 <= i < |values| && values[i].node == n;
        assert all[i].node == n;
      }
    }
  }

  /** Collects the rows of all matrices by id. */
  method CollectSparseParam(param: Sparse) returns (lists: map<nat, seq<SparseValue>>)
    requires Sound(param)
    ensures Collected(lists, param)
  {
    hide Collected, Sound, Except;
    lists := map[];
    NothingCollected();
    var nodes := param.Keys;
    ExceptAll(param);
    while nodes != {}
      invariant nodes <= param.Keys
      invariant Sound(Except(param, nodes)) && Collected(lists, Except(param, nodes))
      decreases |nodes|
    {
      var node :| node in nodes;
      SoundAt(param, node);
      ExceptLess(param, nodes, node);
      lists := CollectMatrix(lists, node, param[node], Except(param, nodes));
      nodes := nodes - {node};
    }
    ExceptNone(param);
  }

  predicate SoundMatrix(node: nat, m: Matrix) {
    node < TWO16 && forall id :: id in m.rows ==> id < TWO64 && |m.rows[id]| == FLOAT_SIZE * m.col
  }

  lemma SoundAt(w: Sparse, node: nat)
    requires Sound(w) && node in w
    ensures SoundMatrix(node, w[node])
  {
  }

  lemma NothingCollected()
    ensures Sound(map[]) && Collected(map[], map[])
  {
  }

  method CollectMatrix(before: map<nat, seq<SparseValue>>, node: nat, m: Matrix, ghost done: Sparse)
    returns (lists: map<nat, seq<SparseValue>>)
    requires Sound(done) && Collected(before, done) && node !in done && SoundMatrix(node, m)
    ensures Sound(done[node := m]) && Collected(lists, done[node := m])
  {
    hide Collected, Sound, SoundMatrix, RowsBut, WithRow, ValueOf;
    lists := before;
    var ids := m.rows.Keys;
    RowsButAll(done, node, m);
    CollectedNoRows(before, done, node, m);
    while ids != {}
      invariant ids <= m.rows.Keys
      invariant Sound(done[node := RowsBut(m, ids)]) && Collected(lists, done[node := RowsBut(m, ids)])
      decreases |ids|
    {
      var id :| id in ids;
      RowsButOne(done, node, m, ids, id);
      CollectedMore(lists, done[node := RowsBut(m, ids)], node, id, m.rows[id]);
      var col := m.col % TWO16;
      var embedding := m.rows[id][..FLOAT_SIZE * col];
      lists := lists[id := ListAt(lists, id) + [SparseValue(node, col, embedding)]];
      ids := ids - {id};
    }
  }

  function RowsBut(m: Matrix, ids: set<nat>): Matrix {
    Matrix(m.col, map id | id in m.rows && id !in ids :: m.rows[id])
  }

  lemma RowsButAll(done: Sparse, node: nat, m: Matrix)
    ensures RowsBut(m, m.rows.Keys) == Matrix(m.col, map[]) && RowsBut(m, {}) == m
  {
    assert (map id | id in m.rows && id !in {} :: m.rows[id]) == m.rows;
  }

  lemma RowsButOne(done: Sparse, node: nat, m: Matrix, ids: set<nat>, id: nat)
    requires id in ids && id in m.rows && SoundMatrix(node, m)
    ensures id < TWO64 && |m.rows[id]| == FLOAT_SIZE * m.col && FLOAT_SIZE * (m.col % TWO16) <= |m.rows[id]|
    ensures var w := done[node := RowsBut(m, ids)];
            var w' := WithRow(w, node, id, m.rows[id]);
            && w[node].col == m.col && id !in w[node].rows
            && w' == done[node := RowsBut(m, ids - {id})]
            && ValueOf(w', node, id) == SparseValue(node, m.col % TWO16, m.rows[id][..FLOAT_SIZE * (m.col % TWO16)])
  {
    assert RowsBut(m, ids - {id}).rows == RowsBut(m, ids).rows[id := m.rows[id]];
  }

  lemma CollectedNoRows(lists: map<nat, seq<SparseValue>>, w: Sparse, node: nat, m: Matrix)
    requires Sound(w) && Collected(lists, w) && node !in w && SoundMatrix(node, m)
    ensures var w' := w[node := Matrix(m.col, map[])];
            Sound(w') && Collected(lists, w')
  {
    hide ListOf;
    var w' := w[node := Matrix(m.col, map[])];
    assert Sound(w');
    forall id: nat
      ensures HasId(w', id) <==> HasId(w, id)
      ensures id in lists ==> ListOf(lists[id], w', id)
    {
      if HasId(w, id) {
        var n :| n in w && id in w[n].rows;
        assert n in w' && id in w'[n].rows;
      }
      if id in lists {
        ListOfSame(lists[id], w, node, m.col, id);
      }
    }
  }

  lemma ListOfSame(values: seq<SparseValue>, w: Sparse, node: nat, col: nat, id: nat)
    requires Sound(w) && Sound(w[node := Matrix(col, map[])]) && node !in w && ListOf(values, w, id)
    ensures ListOf(values, w[node := Matrix(col, map[])], id)
  {
    hide ValueOf;
    forall i | 0 <= i < |values|
      ensures ValueOf(w[node := Matrix(col, map[])], values[i].node, id) == ValueOf(w, values[i].node, id)
    {
      ValueOfSame(w, node, col, values[i].node, id);
    }
  }

  lemma ValueOfSame(w: Sparse, node: nat, col: nat, other: nat, id: nat)
    requires Sound(w) && Sound(w[node := Matrix(col, map[])]) && node !in w && other in w && id in w[other].rows
    ensures ValueOf(w[node := Matrix(col, map[])], other, id) == ValueOf(w, other, id)
  {
  }

  /** The item of an id, in memory of exactly its size. */
  method GetSparseParamItem(e: IdValues) returns (item: array<Byte>)
    requires ItemFits(e)
    ensures fresh(item) && item[..] == EncodeItem(U64(e.id), EncodeValues(e.values))
  {
    hide EncodeValue, EncodeValues;
    var valueSize := ValueSize(e.values);
    item := new Byte[HEAD_SIZE + 8 + valueSize](_ => 0);
    var at := Put(item, 0, [MAGIC, 0, 8] + U32(valueSize));
    at := Put(item, at, U64(e.id));
    at := PutValues(item, at, e.values);
    assert item[..at] == item[..] && |U64(e.id)| == 8;
  }

  method ValueSize(values: seq<SparseValue>) returns (size: nat)
    requires ValuesFit(values)
    ensures size == |EncodeValues(values)|
  {
    size := 0;
    for i := 0 to |values|
      invariant ValuesFit(values[..i]) && size == |EncodeValues(values[..i])|
    {
      assert values[..i + 1][..i] == values[..i];
      size := size + 2 + 2 + FLOAT_SIZE * values[i].col;
    }
    assert values[..|values|] == values;
  }

  method PutValues(item: array<Byte>, start: nat, values: seq<SparseValue>) returns (at: nat)
    requires ValuesFit(values) && start + |EncodeValues(values)| <= item.Length
    modifies item
    ensures at == start + |EncodeValues(values)|
    ensures item[..at] == old(item[..start]) + EncodeValues(values)
  {
    hide EncodeValue;
    at := start;
    for i := 0 to |values|
      invariant ValuesFit(values[..i]) && at == start + |EncodeValues(values[..i])| <= item.Length
      invariant item[..at] == old(item[..start]) + EncodeValues(values[..i])
    {
      assert values[..i + 1][..i] == values[..i];
      EncodedUpto(values, i + 1);
      at := PutValue(item, at, values[i]);
    }
    assert values[..|values|] == values;
  }

  method PutValue(item: array<Byte>, at: nat, v: SparseValue) returns (next: nat)
    requires ValueFits(v) && at + |EncodeValue(v)| <= item.Length
    modifies item
    ensures next == at + |EncodeValue(v)| && item[..next] == old(item[..at]) + EncodeValue(v)
  {
    next := Put(item, at, U16(v.node));
    next := Put(item, next, U16(v.col));
    next := Put(item, next, v.embedding);
  }

  lemma {:induction false} EncodedUpto(values: seq<SparseValue>, i: nat)
    requires ValuesFit(values) && i <= |values|
    ensures |EncodeValues(values[..i])| <= |EncodeValues(values)|
    decreases |values| - i
  {
    if i == |values| {
      assert values[..i] == values;
    } else {
      assert values[..i + 1][..i] == values[..i];
      EncodedUpto(values, i + 1);
    }
  }

  method Put(buf: array<Byte>, at: nat, bytes: seq<Byte>) returns (next: nat)
    requires at + |bytes| <= buf.Length
    modifies buf
    ensures next == at + |bytes| && buf[..next] == old(buf[..at]) + bytes
  {
    for i := 0 to |bytes|
      invariant buf[..at + i] == old(buf[..at]) + bytes[..i]
    {
      buf[at + i] := bytes[i];
      assert buf[..at + i + 1] == buf[..at + i] + [bytes[i]];
    }
    next := at + |bytes|;
  }

  lemma {:induction false} EncodeItemsAppend(order: seq<IdValues>, e: IdValues)
    requires ItemsFit(order) && ItemFits(e)
    ensures ItemsFit(order + [e])
    ensures EncodeItems(order + [e])
         == EncodeItems(order) + EncodeItem(U64(e.id), EncodeValues(e.values))
    decreases |order|
  {
    hide EncodeItem, EncodeValues;
    if order != [] {
      assert (order + [e])[1..] == order[1..] + [e];
      EncodeItemsAppend(order[1..], e);
    } else {
      assert order + [e] == [e] && [e][1..] == [];
    }
  }

  /** One item after the other, in the order in which the map gives its ids. */
  method WriteSparseParam(lists: map<nat, seq<SparseValue>>) returns (out: seq<Byte>)
    requires forall id :: id in lists ==> ItemFits(IdValues(id, lists[id]))
    ensures Written(out, lists)
  {
    hide ItemFits, EncodeItem, EncodeItems, Enumerates, Except;
    out := [];
    ghost var order: seq<IdValues> := [];
    NoItems(lists);
    var ids := lists.Keys;
    while ids != {}
      invariant ids <= lists.Keys
      invariant Enumerates(order, Except(lists, ids))
      invariant ItemsFit(order) && out == EncodeItems(order)
      decreases |ids|
    {
      var id :| id in ids;
      var e := IdValues(id, lists[id]);
      var item := GetSparseParamItem(e);
      EncodeItemsAppend(order, e);
      EnumeratesMore(order, lists, ids, id);
      out, order := out + item[..], order + [e];
      ids := ids - {id};
    }
  }

  /** The items of all ids, each once. */
  ghost predicate Written(out: seq<Byte>, lists: map<nat, seq<SparseValue>>) {
    exists order :: Enumerates(order, lists) && ItemsFit(order) && out == EncodeItems(order)
  }

  lemma NoItems(lists: map<nat, seq<SparseValue>>)
    ensures EncodeItems([]) == [] && Enumerates([], Except(lists, lists.Keys))
    ensures Except(lists, {}) == lists
  {
  }

  lemma EnumeratesMore(order: seq<IdValues>, lists: map<nat, seq<SparseValue>>, ids: set<nat>, id: nat)
    requires id in ids && id in lists
    requires Enumerates(order, Except(lists, ids))
    ensures Enumerates(order + [IdValues(id, lists[id])], Except(lists, ids - {id}))
  {
    var all := order + [IdValues(id, lists[id])];
    forall other | other in lists && other !in ids - {id}
      ensures exists i :: 0 <= i < |all| && all[i].id == other
    {
      if other == id {
        assert all[|order|].id == id;
      } else {
        assert other in Except(lists, ids);
        var i :| 0 <= i < |order| && order[i].id == other;
        assert all[i].id == other;
      }
    }
  }

  // ---------------------------------------------------------------------------------------
  // Reading
  // ---------------------------------------------------------------------------------------

  /** Reads one item at a position and moves behind it, if it is complete. */
  method GetKeyValue(buf: seq<Byte>, at: nat) returns (ok: bool, pair: Pair, next: nat)
    requires at <= |buf|
    ensures ok <==> SplitItem(buf[at..]).Some?
    ensures ok ==> at < next <= |buf| && SplitItem(buf[at..]) == Some((pair, buf[next..]))
  {
    var size := |buf| - at;
    pair, next := Pair([], []), at;
    if size < HEAD_SIZE {
      return false, pair, next;
    }
    var keySize, valueSize := buf[at + 2] as int, FromU32(buf[at + 3..at + 7]);
    assert buf[at + 3..at + 7] == buf[at..][3..7] && buf[at..][HEAD_SIZE..] == buf[at + HEAD_SIZE..];
    if size - HEAD_SIZE < keySize + valueSize {
      return false, pair, next;
    }
    var keyAt := at + HEAD_SIZE;
    var valueAt := keyAt + keySize;
    next := valueAt + valueSize;
    ghost var rest := buf[at..][HEAD_SIZE..];
    assert rest[..keySize] == buf[keyAt..valueAt] && rest[keySize..keySize + valueSize] == buf[valueAt..next];
    assert rest[keySize + valueSize..] == buf[next..];
    return true, Pair(buf[keyAt..valueAt], buf[valueAt..next]), next;
  }

  /** Splits a buffer into items; stops at the first that is not complete. */
  method GetKeyValues(buf: seq<Byte>) returns (ok: bool, pairs: seq<Pair>)
    ensures Split(ok, pairs) == SplitItems(buf)
  {
    hide SplitItem;
    pairs := [];
    var at := 0;
    while at != |buf|
      invariant at <= |buf|
      invariant SplitItems(buf).ok == SplitItems(buf[at..]).ok
      invariant SplitItems(buf).pairs == pairs + SplitItems(buf[at..]).pairs
      decreases |buf| - at
    {
      var complete, pair, next := GetKeyValue(buf, at);
      if !complete {
        return false, pairs;
      }
      ghost var rest := SplitItems(buf[next..]).pairs;
      assert pairs + ([pair] + rest) == pairs + [pair] + rest;
      at := next;
      pairs := pairs + [pair];
    }
    return true, pairs;
  }

  class SparseParamParser {
    var w: Sparse
    var stat: Stat

    /** Clears the rows of the matrices that it is to fill. */
    constructor (param: Sparse)
      ensures w == Emptied(param) && stat == NOTHING
    {
      w, stat := Emptied(param), NOTHING;
    }

    method ParseAll(pairs: seq<Pair>, codes: seq<int>)
      requires |pairs| == |codes|
      modifies this
      ensures Result(w, stat) == ParseAnswers(Result(old(w), NOTHING), pairs, codes)
    {
      stat := NOTHING;
      for i := 0 to |pairs|
        invariant ParseAnswers(Result(old(w), NOTHING), pairs, codes)
               == ParseAnswers(Result(w, stat), pairs[i..], codes[i..])
      {
        assert pairs[i..][1..] == pairs[i + 1..] && codes[i..][1..] == codes[i + 1..];
        if codes[i] == 0 {
          stat := stat.(keyExist := stat.keyExist + 1);
          Parse(pairs[i]);
        } else if codes[i] == 1 {
          stat := stat.(keyNotExist := stat.keyNotExist + 1);
        } else {
          stat := stat.(clientError := stat.clientError + 1);
        }
      }
    }

    method Parse(pair: Pair)
      modifies this
      ensures Result(w, stat) ==
                if |pair.key| != 8 then Result(old(w), old(stat).(keyBad := old(stat).keyBad + 1))
                else
                  var parsed := ParseValue(old(w), FromU64(pair.key), pair.value);
                  Result(parsed.w, if parsed.bad then old(stat).(valueBad := old(stat).valueBad + 1) else old(stat))
    {
      if |pair.key| != 8 {
        stat := stat.(keyBad := stat.keyBad + 1);
        return;
      }
      var id := FromU64(pair.key);
      var buf := pair.value;
      while buf != []
        invariant stat == old(stat)
        invariant ParseValue(old(w), id, pair.value) == ParseValue(w, id, buf)
        decreases |buf|
      {
        if |buf| < 4 {
          stat := stat.(valueBad := stat.valueBad + 1);
          return;
        }
        var node, col := FromU16(buf[..2]), FromU16(buf[2..4]);
        if node !in w || col != w[node].col || |buf| - 4 < FLOAT_SIZE * col {
          stat := stat.(valueBad := stat.valueBad + 1);
          return;
        }
        var embedding := buf[4..4 + FLOAT_SIZE * col];
        if !(w[node].col == 1 && embedding[0] == 0) {
          w := w[node := w[node].(rows := w[node].rows[id := embedding])];
        }
        buf := buf[4 + FLOAT_SIZE * col..];
      }
    }
  }

  // ---------------------------------------------------------------------------------------
  // Writing and reading back
  // ---------------------------------------------------------------------------------------

  /** The values of every id fit into an item. */
  ghost predicate Writable(w: Sparse)
    requires Sound(w)
  {
    forall values, id: nat :: HasId(w, id) && ListOf(values, w, id) ==> ItemFits(IdValues(id, values))
  }

  /** Writes the matrices, splits what was written and parses it, all ids being found: exactly
      the rows of Kept come back, and nothing is bad. */
  method WriteThenRead(w: Sparse) returns (read: Sparse, stat: Stat)
    requires Sound(w) && Narrow(w) && Writable(w)
    ensures read == Kept(w) && stat.keyBad == 0 && stat.valueBad == 0
  {
    hide Kept, Collected, Narrow, Enumerates, ItemsFit, SplitItems, EncodeItems, ParseAnswers;
    var lists := CollectSparseParam(w);
    AllItemsFit(w, lists);
    var out := WriteSparseParam(lists);
    ghost var order :| Enumerates(order, lists) && ItemsFit(order) && out == EncodeItems(order);
    var ok, pairs := GetKeyValues(out);
    RoundTrip(w, lists, order, seq(|order|, k => 0));
    var parser := new SparseParamParser(w);
    parser.ParseAll(pairs, seq(|pairs|, k => 0));
    return parser.w, parser.stat;
  }

  lemma AllItemsFit(w: Sparse, lists: map<nat, seq<SparseValue>>)
    requires Sound(w) && Writable(w) && Collected(lists, w)
    ensures forall id :: id in lists ==> ItemFits(IdValues(id, lists[id]))
  {
  }

  /** The float 2.0 has the bytes 0, 0, 0, 64: as the row of a matrix of width one it is lost. */
  method TwoIsLost() returns (read: Sparse)
    ensures read == map[0 := Matrix(1, map[])]
  {
    var w: Sparse := map[0 := Matrix(1, map[7 := [0, 0, 0, 64]])];
    assert Writable(w) by {
      forall values, id: nat | HasId(w, id) && ListOf(values, w, id)
        ensures ItemFits(IdValues(id, values))
      {
        OneValue(w, values, id);
      }
    }
    var stat;
    read, stat := WriteThenRead(w);
  }

  lemma SameNode(values: seq<SparseValue>, i: nat, j: nat)
    requires i < |values| && j < |values| && values[i].node == values[j].node
    requires forall a, b :: 0 <= a < b < |values| ==> values[a].node != values[b].node
    ensures i == j
  {
  }

  lemma OneValue(w: Sparse, values: seq<SparseValue>, id: nat)
    requires w == map[0 := Matrix(1, map[7 := [0, 0, 0, 64]])]
    requires Sound(w) && HasId(w, id) && ListOf(values, w, id)
    ensures ItemFits(IdValues(id, values))
  {
    var row: seq<Byte> := [0, 0, 0, 64];
    assert id == 7 && w[0].rows[7] == row;
    var i :| 0 <= i < |values| && values[i].node == 0;
    SameNode(values, i, 0);
    SameNode(values, i, |values| - 1);
    assert ValueOf(w, 0, 7) == SparseValue(0, 1, row);
    assert values == [SparseValue(0, 1, row)];
    assert values[..0] == [];
    assert |EncodeValues(values)| == 8;
  }
}
