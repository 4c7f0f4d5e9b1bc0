// Named tensors (src/graph/tensor_map.cc, include/deepx_core/tensor/sparse_row_matrix.h), and
// the placement of their contents on shards (include/deepx_core/graph/shard.h).
module TensorMaps {
  type Row = seq<real>

  /** A dense tensor, or a sparse row matrix whose rows all have col elements. */
  datatype Value =
    | Tsr(shape: seq<nat>, data: seq<real>)
    | Srm(col: nat, rows: map<nat, Row>)

  type TensorMap = map<string, Value>

  predicate SameKind(v: Value, w: Value) {
    v.Tsr? == w.Tsr?
  }

  /** A dense tensor is empty if it has no dimensions, whatever its number of elements. */
  predicate IsEmpty(v: Value) {
    match v
    case Tsr(shape, _) => shape == []
    case Srm(_, rows) => rows == map[]
  }

  function Product(shape: seq<nat>): nat {
    if shape == [] then 1 else shape[0] * Product(shape[1..])
  }

  lemma {:induction false} ProductMeans(a: seq<nat>, b: seq<nat>, n: nat)
    ensures Product([n]) == n && Product(a + b) == Product(a) * Product(b)
  {
    assert [n][1..] == [];
    if a == [] {
      assert a + b == b;
    } else {
      assert (a + b)[1..] == a[1..] + b;
      ProductMeans(a[1..], b, n);
    }
  }

  /** A dense tensor has as many elements as its shape says; a cleared one has none. */
  predicate ConsistentTsr(m: TensorMap) {
    forall name :: name in m && m[name].Tsr? ==>
      |m[name].data| == if m[name].shape == [] then 0 else Product(m[name].shape)
  }

  /** A matrix keeps its width when it is cleared, a dense tensor keeps nothing. */
  function Cleared(v: Value): Value {
    match v
    case Tsr(_, _) => Tsr([], [])
    case Srm(col, _) => Srm(col, map[])
  }

  function ClearValue(m: TensorMap): TensorMap {
    map name | name in m :: Cleared(m[name])
  }

  function ClearSRMValue(m: TensorMap): TensorMap {
    map name | name in m :: if m[name].Srm? then Cleared(m[name]) else m[name]
  }

  function RemoveEmptyValue(m: TensorMap): TensorMap {
    map name | name in m && !IsEmpty(m[name]) :: m[name]
  }

  /** Two maps that agree on their non-empty values look the same after the removal. */
  lemma RemoveEmptyAgrees(m: TensorMap, n: TensorMap)
    requires forall name :: name in m && !IsEmpty(m[name]) ==> name in n && n[name] == m[name]
    requires forall name :: name in n && !IsEmpty(n[name]) ==> name in m && m[name] == n[name]
    ensures RemoveEmptyValue(m) == RemoveEmptyValue(n)
  {
  }

  // ---------------------------------------------------------------------------------------
  // Shards
  // ---------------------------------------------------------------------------------------

  /** The number of shards and the two functions that place dense tensors and rows on them. */
  datatype Shard = Shard(size: nat, tsr: string -> nat, srm: nat -> nat)

  ghost predicate ValidShard(sh: Shard) {
    && sh.size >= 1
    && (forall name :: sh.tsr(name) < sh.size)
    && (forall id :: sh.srm(id) < sh.size)
  }

  /** The two registered placements: by hashed name and low bits of the id, and all dense
      tensors on shard 0 with rows by bits 24 to 47 of the id. */
  function DefaultShard(size: nat, hash: string -> nat): (sh: Shard)
    requires size >= 1
    ensures ValidShard(sh) && sh.size == size
  {
    Shard(size, name => hash(name) % 0x1_0000_0000 % size, id => id % 0x1_0000_0000 % size)
  }

  function ModuloShard(size: nat): (sh: Shard)
    requires size >= 1
    ensures ValidShard(sh) && sh.size == size
  {
    Shard(size, name => 0, id => id / 0x100_0000 % 0x100_0000 % size)
  }

  /** Over the low 32 bits of the ids the shards take turns, and a dense tensor is where its hash
      would be. */
  lemma DefaultPlaces(size: nat, hash: string -> nat, id: nat, name: string)
    requires size >= 1
    ensures DefaultShard(size, hash).srm(0) == 0
    ensures id + 1 < 0x1_0000_0000 ==>
              DefaultShard(size, hash).srm(id + 1)
              == if DefaultShard(size, hash).srm(id) + 1 == size then 0 else DefaultShard(size, hash).srm(id) + 1
    ensures DefaultShard(size, hash).srm(id + 0x1_0000_0000) == DefaultShard(size, hash).srm(id)
    ensures DefaultShard(size, hash).tsr(name) == DefaultShard(size, hash).srm(hash(name))
  {
    LowBits(id);
    LowBits(id + 1);
    LowBits(0);
    FirstTurn(size);
    NextTurn(id, size);
  }

  lemma LowBits(id: nat)
    ensures (id + 0x1_0000_0000) % 0x1_0000_0000 == id % 0x1_0000_0000
    ensures id < 0x1_0000_0000 ==> id % 0x1_0000_0000 == id
  {
  }

  lemma FirstTurn(size: nat)
    requires size >= 1
    ensures 0 % size == 0
  {
  }

  lemma NextTurn(n: nat, size: nat)
    requires size >= 1
    ensures (n + 1) % size == if n % size + 1 == size then 0 else n % size + 1
  {
    TurnAfter(n / size, n % size, size);
  }

  lemma TurnAfter(q: nat, r: nat, size: nat)
    requires r < size
    ensures (q * size + r + 1) % size == if r + 1 == size then 0 else r + 1
  {
    OneMoreTime(q, size);
    if r + 1 == size {
      MultipleOf(q + 1, size, 0);
    } else {
      MultipleOf(q, size, r + 1);
    }
  }

  lemma OneMoreTime(q: nat, size: nat)
    ensures (q + 1) * size == q * size + size
  {
  }

  lemma MultipleOf(q: nat, n: nat, r: nat)
    requires r < n
    ensures (q * n + r) / n == q && (q * n + r) % n == r
  {
    var q', r' := (q * n + r) / n, (q * n + r) % n;
    assert (q - q') * n == r' - r;
    if q != q' {
      AtLeast(q - q', n);
    }
  }

  lemma AtLeast(d: int, n: nat)
    requires d != 0 && n > 0
    ensures d * n >= n || d * n <= 0 - n
  {
  }

  /** Only the middle of an id counts, the number of its slot: the slots take turns, and all dense
      tensors are on the first shard. */
  lemma ModuloPlaces(size: nat, high: nat, slot: nat, low: nat, name: string)
    requires size >= 1 && slot < 0x100_0000 && low < 0x100_0000
    ensures var sh := ModuloShard(size);
            sh.tsr(name) == 0 && sh.srm(high * 0x1_0000_0000_0000 + slot * 0x100_0000 + low) == slot % size
  {
    var id := high * 0x1_0000_0000_0000 + slot * 0x100_0000 + low;
    assert id / 0x100_0000 == high * 0x100_0000 + slot;
    assert id / 0x100_0000 % 0x100_0000 == slot;
  }

  function OwnIds(ids: set<nat>, sh: Shard, i: nat): set<nat> {
    set id | id in ids && sh.srm(id) == i
  }

  function OwnRows(rows: map<nat, Row>, sh: Shard, i: nat): map<nat, Row> {
    map id | id in rows && sh.srm(id) == i :: rows[id]
  }

  /** What shard i holds of a model: its own dense tensors, and its own rows of every matrix. */
  function Placed(m: TensorMap, sh: Shard, i: nat): TensorMap {
    map name | name in m && (m[name].Tsr? ==> sh.tsr(name) == i) ::
      match m[name]
      case Tsr(_, _) => m[name]
      case Srm(col, rows) => Srm(col, OwnRows(rows, sh, i))
  }

  /** Models that are placed alike on all shards are the same. */
  lemma PlacedDetermines(m: TensorMap, n: TensorMap, sh: Shard)
    requires ValidShard(sh)
    requires forall i: nat :: i < sh.size ==> Placed(m, sh, i) == Placed(n, sh, i)
    ensures m == n
  {
    PlacedWithin(m, n, sh);
    PlacedWithin(n, m, sh);
    assert m.Keys == n.Keys;
  }

  lemma PlacedWithin(m: TensorMap, n: TensorMap, sh: Shard)
    requires ValidShard(sh)
    requires forall i: nat :: i < sh.size ==> Placed(m, sh, i) == Placed(n, sh, i)
    ensures forall name :: name in m ==> name in n && m[name] == n[name]
  {
    forall name | name in m
      ensures name in n && m[name] == n[name]
    {
      if m[name].Tsr? {
        assert name in Placed(m, sh, sh.tsr(name));
      } else {
        assert name in Placed(m, sh, 0) && name in Placed(n, sh, 0);
        assert m[name].col == n[name].col;
        RowsWithin(m, n, sh, name);
        RowsWithin(n, m, sh, name);
        assert m[name].rows.Keys == n[name].rows.Keys;
      }
    }
  }

  lemma RowsWithin(m: TensorMap, n: TensorMap, sh: Shard, name: string)
    requires ValidShard(sh) && name in m && name in n && m[name].Srm? && n[name].Srm?
    requires forall i: nat :: i < sh.size ==> Placed(m, sh, i) == Placed(n, sh, i)
    ensures forall id :: id in m[name].rows ==> id in n[name].rows && m[name].rows[id] == n[name].rows[id]
  {
    forall id | id in m[name].rows
      ensures id in n[name].rows && m[name].rows[id] == n[name].rows[id]
    {
      var i := sh.srm(id);
      assert Placed(m, sh, i)[name] == Placed(n, sh, i)[name];
      assert id in OwnRows(m[name].rows, sh, i);
      assert id in OwnRows(n[name].rows, sh, i);
    }
  }
}
