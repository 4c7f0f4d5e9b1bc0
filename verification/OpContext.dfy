// The flat op chains built from compiled targets (src/graph/op_context.cc): the forward chain
// computes what evaluating the graph recursively computes, the reversed backward chain what
// differentiating it does.
module OpContexts {
  import opened Basics
  import opened Sequences
  import opened Graphs

  type Naming = map<GraphNode, string>

  predicate Named(s: seq<GraphNode>, names: Naming) {
    forall n :: n in s ==> n in names
  }

  function NamesOf(s: seq<GraphNode>, names: Naming): set<string>
    requires Named(s, names)
  {
    set n | n in s :: names[n]
  }

  // ---------------------------------------------------------------------------------------
  // Building the chains
  // ---------------------------------------------------------------------------------------

  /** Appends the nodes whose names are not in the chain yet. */
  function Extend(chain: seq<GraphNode>, list: seq<GraphNode>, names: Naming): (r: seq<GraphNode>)
    requires Named(chain, names) && Named(list, names)
    ensures chain <= r
    ensures (forall n :: n in r ==> n in chain || n in list) && Named(r, names)
    decreases |list|
  {
    if list == [] then chain
    else if names[list[0]] in NamesOf(chain, names) then Extend(chain, list[1..], names)
    else Extend(chain + [list[0]], list[1..], names)
  }

  predicate AllNamed(targets: seq<GraphTarget>, names: Naming) {
    forall t :: t in targets ==> Named(t.forward, names)
  }

  function Chain(targets: seq<GraphTarget>, names: Naming): (r: seq<GraphNode>)
    requires AllNamed(targets, names)
    ensures Named(r, names)
  {
    if targets == [] then []
    else
      var last := |targets| - 1;
      Extend(Chain(targets[..last], names), targets[last].forward, names)
  }

  /** What the loss target adds to the chain of the targets before it. */
  function LossPart(targets: seq<GraphTarget>, names: Naming, lossIndex: int): seq<GraphNode>
    requires AllNamed(targets, names)
  {
    if 0 <= lossIndex < |targets| then
      var before := Chain(targets[..lossIndex], names);
      Extend(before, targets[lossIndex].forward, names)[|before|..]
    else []
  }

  lemma LossPartFits(targets: seq<GraphTarget>, names: Naming, i: nat)
    requires AllNamed(targets, names) && i < |targets|
    ensures Chain(targets[..i + 1], names)
            == Extend(Chain(targets[..i], names), targets[i].forward, names)
    ensures Chain(targets[..i], names) <= Chain(targets[..i + 1], names)
    ensures LossPart(targets, names, i) == Chain(targets[..i + 1], names)[|Chain(targets[..i], names)|..]
    ensures targets[..i + 1] == targets[..i] + [targets[i]]
  {
    assert targets[..i + 1][..i] == targets[..i];
  }

  lemma {:induction false} ChainGrows(targets: seq<GraphTarget>, names: Naming, i: nat)
    requires AllNamed(targets, names) && i <= |targets|
    ensures Chain(targets[..i], names) <= Chain(targets, names)
    decreases |targets| - i
  {
    if i == |targets| {
      assert targets[..i] == targets;
    } else {
      LossPartFits(targets, names, i);
      ChainGrows(targets, names, i + 1);
    }
  }

  lemma {:induction false} ExtendStep(chain: seq<GraphNode>, list: seq<GraphNode>, names: Naming, j: nat)
    requires Named(chain, names) && Named(list, names)
    requires j < |list|
    ensures Extend(chain, list[..j + 1], names)
            == var sofar := Extend(chain, list[..j], names);
               if names[list[j]] in NamesOf(sofar, names) then sofar else sofar + [list[j]]
    decreases |list|
  {
    if j == 0 {
      assert list[..1] == [list[0]] && list[..1][1..] == [] && list[..0] == [];
    } else {
      assert list[..j + 1][1..] == list[1..][..j] && list[..j][1..] == list[1..][..j - 1];
      var next := if names[list[0]] in NamesOf(chain, names) then chain else chain + [list[0]];
      ExtendStep(next, list[1..], names, j - 1);
    }
  }

  // ---------------------------------------------------------------------------------------
  // What the chain contains
  // ---------------------------------------------------------------------------------------

  /** Extending an ordered chain by an ordered list gives an ordered chain of both. */
  lemma {:induction false} ExtendOrdered(all: set<GraphNode>, names: Naming, chain: seq<GraphNode>,
                                         list: seq<GraphNode>, j: nat)
    requires all <= names.Keys && DistinctNames(all, names)
    requires Elems(chain) + Elems(list) <= all && j <= |list|
    requires NoDup(chain) && InputsFirst(chain) && InputsFirst(list)
    ensures var r := Extend(chain, list[..j], names);
            NoDup(r) && InputsFirst(r) && Elems(r) == Elems(chain) + Elems(list[..j])
  {
    hide Extend, NamesOf, InputsFirst, DistinctNames, NoDup;
    if j == 0 {
      assert list[..0] == [];
      ExtendByNone(chain, names);
    } else {
      var n, before := list[j - 1], list[..j - 1];
      ExtendOrdered(all, names, chain, list, j - 1);
      ExtendStep(chain, list, names, j - 1);
      AddOrdered(all, names, Extend(chain, before, names), list, j - 1);
      assert list[..j] == before + [n];
      assert Elems(list[..j]) == Elems(before) + {n};
    }
  }

  /** Adding the next node of the list unless its name is there. */
  lemma AddOrdered(all: set<GraphNode>, names: Naming, sofar: seq<GraphNode>, list: seq<GraphNode>, j: nat)
    requires all <= names.Keys && DistinctNames(all, names) && j < |list|
    requires Elems(sofar) <= all && Elems(list) <= all && Elems(list[..j]) <= Elems(sofar)
    requires NoDup(sofar) && InputsFirst(sofar) && InputsFirst(list)
    ensures Named(sofar, names) && list[j] in names
    ensures var r := if names[list[j]] in NamesOf(sofar, names) then sofar else sofar + [list[j]];
            NoDup(r) && InputsFirst(r) && Elems(r) == Elems(sofar) + {list[j]}
  {
    hide NamesOf, InputsFirst, DistinctNames;
    var n := list[j];
    assert n in Elems(list);
    NameInChain(all, names, sofar, n);
    if n !in sofar {
      InputsBefore(list, j);
      AppendOrdered(sofar, n, list[..j]);
    }
  }

  lemma NameInChain(all: set<GraphNode>, names: Naming, chain: seq<GraphNode>, n: GraphNode)
    requires all <= names.Keys && DistinctNames(all, names) && Elems(chain) <= all && n in all
    ensures Named(chain, names) && (names[n] in NamesOf(chain, names) <==> n in chain)
  {
    if names[n] in NamesOf(chain, names) {
      var m :| m in chain && names[m] == names[n];
      assert m in Elems(chain);
    }
  }

  lemma InputsBefore(list: seq<GraphNode>, k: nat)
    requires InputsFirst(list) && k < |list|
    ensures InputsIn(list[k], list[..k])
  {
  }

  lemma AppendOrdered(chain: seq<GraphNode>, n: GraphNode, before: seq<GraphNode>)
    requires InputsFirst(chain) && InputsIn(n, before)
    requires Elems(before) <= Elems(chain)
    ensures InputsFirst(chain + [n]) && Elems(chain + [n]) == Elems(chain) + {n}
  {
    var r := chain + [n];
    forall k | 0 <= k < |r|
      ensures forall x :: x in r[k].input ==> x in r[..k]
    {
      assert r[..k] == chain[..k];
      assert chain[..|chain|] == chain;
      if k == |chain| {
        forall x | x in n.input
          ensures x in chain
        {
          assert x in Elems(before);
        }
      }
    }
  }

  ghost predicate Compiled(nodes: set<GraphNode>, names: Naming, targets: seq<GraphTarget>)
    requires Dag(nodes)
  {
    forall t :: t in targets ==> TargetOk(nodes, names, t)
  }

  ghost function Nodes(targets: seq<GraphTarget>): set<GraphNode> {
    set t, n | t in targets && n in t.forward :: n
  }

  lemma NothingOrdered()
    ensures NoDup<GraphNode>([]) && InputsFirst([]) && Elems<GraphNode>([]) == {}
  {
  }

  lemma NodesMore(targets: seq<GraphTarget>)
    requires targets != []
    ensures var last := |targets| - 1;
            Nodes(targets) == Nodes(targets[..last]) + Elems(targets[last].forward)
  {
    var last := |targets| - 1;
    assert targets == targets[..last] + [targets[last]];
  }

  /** The chain holds the nodes of all targets once each, inputs before users. */
  lemma {:induction false} ChainOrdered(nodes: set<GraphNode>, names: Naming, targets: seq<GraphTarget>)
    requires Dag(nodes) && nodes <= names.Keys && Compiled(nodes, names, targets)
    requires DistinctNames(Nodes(targets), names)
    ensures AllNamed(targets, names)
    ensures var c := Chain(targets, names);
            NoDup(c) && InputsFirst(c) && Elems(c) == Nodes(targets)
  {
    hide InputsFirst, NoDup, DistinctNames, Extend, NamesOf, Reach;
    if targets == [] {
      NothingOrdered();
    } else {
      var last := |targets| - 1;
      var t, rest := targets[last], targets[..last];
      assert t in targets && TargetOk(nodes, names, t);
      NodesMore(targets);
      NodesNamed(nodes, names, targets);
      DistinctWithin(Nodes(targets), Nodes(rest), names);
      ChainOrdered(nodes, names, rest);
      ExtendOrdered(Nodes(targets), names, Chain(rest, names), t.forward, |t.forward|);
      assert t.forward[..|t.forward|] == t.forward;
    }
  }

  // ---------------------------------------------------------------------------------------
  // The forward pass
  // ---------------------------------------------------------------------------------------

  type Kernel<!V> = (GraphNode, seq<V>) -> V

  /** Evaluating the graph recursively. */
  ghost function Eval<V>(nodes: set<GraphNode>, kernel: Kernel<V>, n: GraphNode): V
    requires Dag(nodes) && n in nodes
    decreases n.rank
  {
    kernel(n, seq(|n.input|, i requires 0 <= i < |n.input| =>
                    assert n.input[i] in n.input; Eval(nodes, kernel, n.input[i])))
  }

  predicate Ready<V>(n: GraphNode, names: Naming, hidden: map<string, V>) {
    && n in names
    && forall x :: x in n.input ==> x in names && names[x] in hidden
  }

  function Apply<V>(n: GraphNode, names: Naming, kernel: Kernel<V>, hidden: map<string, V>): map<string, V>
    requires Ready(n, names, hidden)
  {
    hidden[names[n] := kernel(n, seq(|n.input|, i requires 0 <= i < |n.input| => hidden[names[n.input[i]]]))]
  }

  /** One op after the other; an op whose input has no value fails. */
  function RunForward<V>(chain: seq<GraphNode>, names: Naming, kernel: Kernel<V>,
                         hidden: map<string, V>): Option<map<string, V>>
  {
    if chain == [] then Some(hidden)
    else
      var last := |chain| - 1;
      var before := RunForward(chain[..last], names, kernel, hidden);
      if before.None? || !Ready(chain[last], names, before.value) then None
      else Some(Apply(chain[last], names, kernel, before.value))
  }

  /** Running an ordered chain over any earlier values gives every node its recursive value. */
  lemma {:induction false} ForwardIsEval<V>(nodes: set<GraphNode>, names: Naming, kernel: Kernel<V>,
                                            chain: seq<GraphNode>, hidden: map<string, V>)
    requires Dag(nodes) && nodes <= names.Keys && Elems(chain) <= nodes
    requires NoDup(chain) && InputsFirst(chain) && DistinctNames(Elems(chain), names)
    ensures var r := RunForward(chain, names, kernel, hidden);
            && r.Some?
            && (forall n :: n in chain ==> n in nodes && names[n] in r.value)
            && (forall n :: n in chain ==> r.value[names[n]] == Eval(nodes, kernel, n))
    decreases |chain|
  {
    if chain == [] {
    } else {
      var last := |chain| - 1;
      var n, rest := chain[last], chain[..last];
      assert chain == rest + [n];
      assert Elems(chain) == Elems(rest) + {n};
      RestOrdered(chain);
      ForwardIsEval(nodes, names, kernel, rest, hidden);
      var before := RunForward(rest, names, kernel, hidden).value;
      ApplyIsEval(nodes, names, kernel, n, rest, before);
      forall m | m in rest
        ensures names[m] != names[n]
      {
        assert m in Elems(chain) && n in Elems(chain) && m != n;
      }
    }
  }

  lemma ApplyIsEval<V>(nodes: set<GraphNode>, names: Naming, kernel: Kernel<V>, n: GraphNode,
                       rest: seq<GraphNode>, hidden: map<string, V>)
    requires Dag(nodes) && nodes <= names.Keys && n in nodes && InputsIn(n, rest)
    requires forall m :: m in rest ==> m in nodes && names[m] in hidden
    requires forall m :: m in rest ==> hidden[names[m]] == Eval(nodes, kernel, m)
    ensures Ready(n, names, hidden)
    ensures Apply(n, names, kernel, hidden) == hidden[names[n] := Eval(nodes, kernel, n)]
  {
    assert seq(|n.input|, i requires 0 <= i < |n.input| => hidden[names[n.input[i]]])
        == seq(|n.input|, i requires 0 <= i < |n.input| =>
                 assert n.input[i] in n.input; Eval(nodes, kernel, n.input[i]));
  }

  ghost predicate InputsIn(n: GraphNode, s: seq<GraphNode>) {
    forall x :: x in n.input ==> x in s
  }

  lemma RestOrdered(chain: seq<GraphNode>)
    requires chain != [] && NoDup(chain) && InputsFirst(chain)
    ensures NoDup(chain[..|chain| - 1]) && InputsFirst(chain[..|chain| - 1])
    ensures chain[|chain| - 1] !in chain[..|chain| - 1]
    ensures InputsIn(chain[|chain| - 1], chain[..|chain| - 1])
  {
    var rest := chain[..|chain| - 1];
    forall k | 0 <= k < |rest|
      ensures forall x :: x in rest[k].input ==> x in rest[..k]
    {
      assert rest[..k] == chain[..k];
    }
  }

  // ---------------------------------------------------------------------------------------
  // The backward pass
  // ---------------------------------------------------------------------------------------

  /** The partial derivative of a node's value by its input at the slot, at the current values. */
  type Partial = (GraphNode, nat) -> real

  /** What the targets before the loss target have in common with it is missing from its part:
      the part is the loss target's whole forward list exactly if nothing is in common. */
  lemma {:induction false} LossPartComplete(targets: seq<GraphTarget>, names: Naming, lossIndex: nat)
    requires AllNamed(targets, names) && lossIndex < |targets|
    requires NamesDiffer(targets[lossIndex].forward, names)
    ensures LossPart(targets, names, lossIndex) == targets[lossIndex].forward
            <==> NamesOf(Chain(targets[..lossIndex], names), names)
                 !! NamesOf(targets[lossIndex].forward, names)
    ensures lossIndex == 0 ==> LossPart(targets, names, lossIndex) == targets[lossIndex].forward
  {
    var before, list := Chain(targets[..lossIndex], names), targets[lossIndex].forward;
    ExtendAll(before, list, names);
  }

  predicate NamesDiffer(list: seq<GraphNode>, names: Naming)
    requires Named(list, names)
  {
    forall i, j :: 0 <= i < j < |list| ==> names[list[i]] != names[list[j]]
  }

  lemma {:induction false} ExtendAll(chain: seq<GraphNode>, list: seq<GraphNode>, names: Naming)
    requires Named(chain, names) && Named(list, names) && NamesDiffer(list, names)
    ensures |Extend(chain, list, names)| <= |chain| + |list|
    ensures |Extend(chain, list, names)| == |chain| + |list|
            <==> NamesOf(chain, names) !! NamesOf(list, names)
    ensures NamesOf(chain, names) !! NamesOf(list, names)
            ==> Extend(chain, list, names) == chain + list
    decreases |list|
  {
    hide NamesOf, NamesDiffer;
    if list == [] {
      NamesOfNone(chain, names);
      assert chain + list == chain;
    } else {
      var n, rest := list[0], list[1..];
      NamesOfFirst(list, names);
      if names[n] in NamesOf(chain, names) {
        ExtendAll(chain, rest, names);
      } else {
        ExtendAll(chain + [n], rest, names);
        NamesOfMore(chain, n, names);
        assert chain + list == chain + [n] + rest;
      }
    }
  }

  lemma NamesOfNone(chain: seq<GraphNode>, names: Naming)
    requires Named(chain, names)
    ensures NamesOf(chain, names) !! NamesOf([], names)
  {
  }

  lemma NamesOfMore(chain: seq<GraphNode>, n: GraphNode, names: Naming)
    requires Named(chain, names) && n in names
    ensures NamesOf(chain + [n], names) == NamesOf(chain, names) + {names[n]}
  {
  }

  lemma NamesOfFirst(list: seq<GraphNode>, names: Naming)
    requires list != [] && Named(list, names) && NamesDiffer(list, names)
    ensures NamesOf(list, names) == {names[list[0]]} + NamesOf(list[1..], names)
    ensures names[list[0]] !in NamesOf(list[1..], names) && NamesDiffer(list[1..], names)
  {
    assert list == [list[0]] + list[1..];
  }

  /** Listing a target a second time and taking the second as the loss: nothing is left to
      differentiate. */
  lemma LossListedAgain(t: GraphTarget, names: Naming)
    requires Named(t.forward, names) && NamesDiffer(t.forward, names) && t.forward != []
    ensures AllNamed([t, t], names) && LossPart([t, t], names, 1) == []
  {
    assert [t, t][..1] == [t] && [t][..0] == [];
    var chain := Chain([t], names);
    assert chain == t.forward by {
      assert Chain([], names) == [] && [] + t.forward == t.forward;
      ExtendAll([], t.forward, names);
    }
    ExtendNothing(chain, t.forward, names);
  }

  lemma {:induction false} ExtendNothing(chain: seq<GraphNode>, list: seq<GraphNode>, names: Naming)
    requires Named(chain, names) && Named(list, names)
    requires forall n :: n in list ==> n in chain
    ensures Extend(chain, list, names) == chain
    decreases |list|
  {
    if list != [] {
      assert list[0] in list;
      ExtendNothing(chain, list[1..], names);
    }
  }

  /** The gradient of a node grows by one contribution for every input that needs a gradient. */
  function AddInputs(n: GraphNode, i: nat, names: Naming, needs: set<GraphNode>, partial: Partial,
                     g: real, grad: map<string, real>): map<string, real>
    requires i <= |n.input| && Named(n.input, names)
  {
    if i == 0 then grad
    else
      var before := AddInputs(n, i - 1, names, needs, partial, g, grad);
      var x := n.input[i - 1];
      if x !in needs then before
      else before[names[x] := GradOf(x, names, before) + g * partial(n, i - 1)]
  }

  function GradOf(x: GraphNode, names: Naming, grad: map<string, real>): real
    requires x in names
  {
    if names[x] in grad then grad[names[x]] else 0.0
  }

  /** The ops in reverse; the op of a node that needs a gradient fails if there is none yet. */
  function RunBackward(chain: seq<GraphNode>, names: Naming, needs: set<GraphNode>, partial: Partial,
                       grad: map<string, real>): Option<map<string, real>>
    requires Named(chain, names) && forall n :: n in chain ==> Named(n.input, names)
  {
    if chain == [] then Some(grad)
    else
      var n := chain[|chain| - 1];
      if n in needs && names[n] !in grad then None
      else
        RunBackward(chain[..|chain| - 1], names, needs, partial,
                    if n in needs then
                      AddInputs(n, |n.input|, names, needs, partial, grad[names[n]], grad)
                    else grad)
  }

  /** The derivative of node n by node x: the chain rule over the inputs of n, recursively. */
  ghost function Derivative(nodes: set<GraphNode>, partial: Partial, n: GraphNode, x: GraphNode): real
    requires Dag(nodes) && n in nodes
    decreases n.rank, |n.input| + 1
  {
    if n == x then 1.0 else InputDerivatives(nodes, partial, n, |n.input|, x)
  }

  ghost function InputDerivatives(nodes: set<GraphNode>, partial: Partial, n: GraphNode, i: nat,
                                  x: GraphNode): real
    requires Dag(nodes) && n in nodes && i <= |n.input|
    decreases n.rank, i
  {
    if i == 0 then 0.0
    else
      assert n.input[i - 1] in n.input;
      InputDerivatives(nodes, partial, n, i - 1, x)
      + partial(n, i - 1) * Derivative(nodes, partial, n.input[i - 1], x)
  }

  /** The derivative of the loss by x, collected from the gradients of the nodes in the chain. */
  ghost function Weighted(nodes: set<GraphNode>, names: Naming, partial: Partial, chain: seq<GraphNode>,
                          grad: map<string, real>, x: GraphNode): real
    requires Dag(nodes) && Elems(chain) <= nodes <= names.Keys
  {
    if chain == [] then 0.0
    else
      var n, rest := chain[|chain| - 1], chain[..|chain| - 1];
      assert n in Elems(chain) && Elems(rest) <= Elems(chain);
      Weighted(nodes, names, partial, rest, grad, x)
      + GradOf(n, names, grad) * Derivative(nodes, partial, n, x)
  }

  ghost predicate InputClosed(done: set<GraphNode>) {
    forall n, x :: n in done && x in n.input ==> x in done
  }

  lemma {:induction false} NoDerivative(nodes: set<GraphNode>, partial: Partial, done: set<GraphNode>,
                                        n: GraphNode, i: nat, x: GraphNode)
    requires Dag(nodes) && n in nodes && i <= |n.input|
    requires InputClosed(done) && n in done && x !in done
    ensures InputDerivatives(nodes, partial, n, i, x) == 0.0
    ensures Derivative(nodes, partial, n, x) == InputDerivatives(nodes, partial, n, |n.input|, x)
    ensures i == |n.input| ==> Derivative(nodes, partial, n, x) == 0.0
    decreases n.rank, i
  {
    if i > 0 {
      var y := n.input[i - 1];
      assert y in n.input;
      NoDerivative(nodes, partial, done, n, i - 1, x);
      NoDerivative(nodes, partial, done, y, |y.input|, x);
    }
  }

  lemma {:induction false} NothingWeighted(nodes: set<GraphNode>, names: Naming, partial: Partial,
                                           done: set<GraphNode>, chain: seq<GraphNode>,
                                           grad: map<string, real>, x: GraphNode)
    requires Dag(nodes) && Elems(chain) <= done <= nodes <= names.Keys
    requires InputClosed(done) && x !in done
    ensures Weighted(nodes, names, partial, chain, grad, x) == 0.0
    decreases |chain|
  {
    if chain != [] {
      var n, rest := chain[|chain| - 1], chain[..|chain| - 1];
      assert n in Elems(chain) && Elems(rest) <= Elems(chain);
      NothingWeighted(nodes, names, partial, done, rest, grad, x);
      NoDerivative(nodes, partial, done, n, |n.input|, x);
    }
  }

  lemma {:induction false} WeightUnchanged(nodes: set<GraphNode>, names: Naming, partial: Partial,
                                           chain: seq<GraphNode>, grad: map<string, real>,
                                           grad': map<string, real>, x: GraphNode)
    requires Dag(nodes) && Elems(chain) <= nodes <= names.Keys
    requires forall n :: n in chain ==> GradOf(n, names, grad) == GradOf(n, names, grad')
    ensures Weighted(nodes, names, partial, chain, grad, x)
         == Weighted(nodes, names, partial, chain, grad', x)
    decreases |chain|
  {
    if chain != [] {
      var n, rest := chain[|chain| - 1], chain[..|chain| - 1];
      assert n in Elems(chain) && Elems(rest) <= Elems(chain);
      WeightUnchanged(nodes, names, partial, rest, grad, grad', x);
    }
  }

  /** Adding c to the gradient of y adds c times the derivative of y. */
  lemma {:induction false} WeightAdded(nodes: set<GraphNode>, names: Naming, partial: Partial,
                                       chain: seq<GraphNode>, grad: map<string, real>, y: GraphNode,
                                       c: real, x: GraphNode)
    requires Dag(nodes) && Elems(chain) <= nodes <= names.Keys && NoDup(chain) && y in chain
    requires DistinctNames(Elems(chain), names)
    ensures y in nodes && y in names
    ensures Weighted(nodes, names, partial, chain, grad[names[y] := GradOf(y, names, grad) + c], x)
         == Weighted(nodes, names, partial, chain, grad, x) + c * Derivative(nodes, partial, y, x)
    decreases |chain|
  {
    hide Derivative, InputDerivatives, Weighted;
    var n, rest := chain[|chain| - 1], chain[..|chain| - 1];
    assert chain == rest + [n];
    assert y in Elems(chain) && n in Elems(chain) && Elems(chain) == Elems(rest) + {n};
    var grad' := grad[names[y] := GradOf(y, names, grad) + c];
    WeightedStep(nodes, names, partial, chain, grad, x);
    WeightedStep(nodes, names, partial, chain, grad', x);
    if n == y {
      forall m | m in rest
        ensures GradOf(m, names, grad) == GradOf(m, names, grad')
      {
        assert m in Elems(chain) && m != y;
      }
      WeightUnchanged(nodes, names, partial, rest, grad, grad', x);
      Distribute(GradOf(y, names, grad), c, Derivative(nodes, partial, y, x));
    } else {
      WeightAdded(nodes, names, partial, rest, grad, y, c, x);
      assert names[n] != names[y];
    }
  }

  lemma Distribute(a: real, c: real, d: real)
    ensures (a + c) * d == a * d + c * d
  {
  }

  lemma WeightedStep(nodes: set<GraphNode>, names: Naming, partial: Partial, chain: seq<GraphNode>,
                     grad: map<string, real>, x: GraphNode)
    requires Dag(nodes) && Elems(chain) <= nodes <= names.Keys && chain != []
    ensures var n, rest := chain[|chain| - 1], chain[..|chain| - 1];
            && n in nodes && Elems(rest) <= nodes
            && Weighted(nodes, names, partial, chain, grad, x)
               == Weighted(nodes, names, partial, rest, grad, x)
                  + GradOf(n, names, grad) * Derivative(nodes, partial, n, x)
  {
    hide Derivative;
    var n, rest := chain[|chain| - 1], chain[..|chain| - 1];
    assert n in Elems(chain) && Elems(rest) <= Elems(chain);
  }

  /** Where a gradient is needed for an input, it is needed for the user. */
  ghost predicate NeedsSpread(done: set<GraphNode>, needs: set<GraphNode>) {
    forall n, x :: n in done && x in n.input && x in needs ==> n in needs
  }

  /** What a node hands to its inputs is its gradient times its derivative. */
  lemma {:induction false} HandedDown(nodes: set<GraphNode>, names: Naming, needs: set<GraphNode>,
                                      partial: Partial, chain: seq<GraphNode>, grad: map<string, real>,
                                      n: GraphNode, i: nat, g: real, x: GraphNode)
    requires Dag(nodes) && Elems(chain) <= nodes <= names.Keys && NoDup(chain)
    requires DistinctNames(Elems(chain), names) && n in nodes && InputsIn(n, chain) && i <= |n.input|
    requires InputClosed(Elems(chain)) && NeedsSpread(Elems(chain), needs) && x in needs
    ensures Named(n.input, names)
    ensures Weighted(nodes, names, partial, chain, AddInputs(n, i, names, needs, partial, g, grad), x)
         == Weighted(nodes, names, partial, chain, grad, x)
            + g * InputDerivatives(nodes, partial, n, i, x)
  {
    hide AddInputs, Weighted, Derivative, InputDerivatives;
    NamedInputs(nodes, names, n);
    FirstHanded(nodes, names, needs, partial, grad, n, g, x);
    if i > 0 {
      var k: nat := i - 1;
      var before := AddInputs(n, k, names, needs, partial, g, grad);
      var y := n.input[k];
      assert y in n.input && y in Elems(chain);
      HandedDown(nodes, names, needs, partial, chain, grad, n, k, g, x);
      AddInputsStep(n, k, names, needs, partial, g, grad);
      NextDerivative(nodes, partial, n, k, g, x);
      if y in needs {
        WeightAdded(nodes, names, partial, chain, before, y, g * partial(n, k), x);
      } else {
        assert InputClosed(Elems(chain) - needs);
        NoDerivative(nodes, partial, Elems(chain) - needs, y, |y.input|, x);
      }
    }
  }

  lemma FirstHanded(nodes: set<GraphNode>, names: Naming, needs: set<GraphNode>, partial: Partial,
                    grad: map<string, real>, n: GraphNode, g: real, x: GraphNode)
    requires Dag(nodes) && n in nodes && Named(n.input, names)
    ensures AddInputs(n, 0, names, needs, partial, g, grad) == grad
    ensures g * InputDerivatives(nodes, partial, n, 0, x) == 0.0
  {
  }

  lemma NextDerivative(nodes: set<GraphNode>, partial: Partial, n: GraphNode, i: nat, g: real, x: GraphNode)
    requires Dag(nodes) && n in nodes && i < |n.input|
    ensures n.input[i] in nodes
    ensures g * InputDerivatives(nodes, partial, n, i + 1, x)
         == g * InputDerivatives(nodes, partial, n, i, x)
            + g * partial(n, i) * Derivative(nodes, partial, n.input[i], x)
    ensures Derivative(nodes, partial, n.input[i], x) == 0.0 ==>
              g * InputDerivatives(nodes, partial, n, i + 1, x) == g * InputDerivatives(nodes, partial, n, i, x)
  {
    hide Derivative;
    assert n.input[i] in n.input;
    var ds := InputDerivatives(nodes, partial, n, i, x);
    var p, d := partial(n, i), Derivative(nodes, partial, n.input[i], x);
    assert InputDerivatives(nodes, partial, n, i + 1, x) == ds + p * d;
    assert g * (ds + p * d) == g * ds + g * p * d;
  }

  lemma AddInputsStep(n: GraphNode, i: nat, names: Naming, needs: set<GraphNode>, partial: Partial,
                      g: real, grad: map<string, real>)
    requires i < |n.input| && Named(n.input, names)
    ensures var before := AddInputs(n, i, names, needs, partial, g, grad);
            var x := n.input[i];
            AddInputs(n, i + 1, names, needs, partial, g, grad)
            == if x in needs then before[names[x] := GradOf(x, names, before) + g * partial(n, i)]
               else before
  {
  }

  lemma NamedInputs(nodes: set<GraphNode>, names: Naming, n: GraphNode)
    requires Dag(nodes) && nodes <= names.Keys && n in nodes
    ensures Named(n.input, names)
  {
  }

  lemma {:induction false} AddInputsKeys(names: Naming, needs: set<GraphNode>, partial: Partial,
                                         grad: map<string, real>, n: GraphNode, i: nat, g: real)
    requires i <= |n.input| && Named(n.input, names)
    ensures var r := AddInputs(n, i, names, needs, partial, g, grad);
            && (forall name :: name in grad ==> name in r)
            && (forall x :: x in n.input[..i] && x in needs ==> names[x] in r)
            && (forall name :: name in grad && r[name] != grad[name]
                  ==> exists x :: x in n.input && names[x] == name)
  {
    if i > 0 {
      AddInputsKeys(names, needs, partial, grad, n, i - 1, g);
      assert n.input[..i] == n.input[..i - 1] + [n.input[i - 1]];
      assert n.input[i - 1] in n.input;
    }
  }

  ghost predicate Used(x: GraphNode, chain: seq<GraphNode>) {
    exists z :: z in chain && x in z.input
  }

  /** The state of the backward pass with the nodes of the chain still to be visited. */
  ghost predicate Accumulated(nodes: set<GraphNode>, names: Naming, needs: set<GraphNode>, partial: Partial,
                              chain: seq<GraphNode>, grad: map<string, real>, loss: GraphNode)
    requires Dag(nodes) && Elems(chain) <= nodes <= names.Keys && loss in nodes
  {
    forall x :: x in chain && x in needs ==>
      && Weighted(nodes, names, partial, chain, grad, x) == Derivative(nodes, partial, loss, x)
      && (names[x] in grad || Used(x, chain))
  }

  ghost predicate Ordered(nodes: set<GraphNode>, names: Naming, needs: set<GraphNode>, chain: seq<GraphNode>)
    requires Dag(nodes)
  {
    && Elems(chain) <= nodes <= names.Keys
    && NoDup(chain) && InputsFirst(chain)
    && DistinctNames(Elems(chain), names) && NeedsSpread(Elems(chain), needs)
  }

  lemma OrderedRest(nodes: set<GraphNode>, names: Naming, needs: set<GraphNode>, chain: seq<GraphNode>)
    requires Dag(nodes) && Ordered(nodes, names, needs, chain)
    ensures InputClosed(Elems(chain)) && Named(chain, names)
    ensures forall n :: n in chain ==> Named(n.input, names)
    ensures chain != [] ==>
              var n, rest := chain[|chain| - 1], chain[..|chain| - 1];
              && Ordered(nodes, names, needs, rest) && InputsIn(n, rest) && n in nodes && n !in rest
              && Elems(chain) == Elems(rest) + {n}
              && !Used(n, chain) && names[n] !in NamesOf(rest, names)
  {
    if chain != [] {
      RestOrdered(chain);
      var n, rest := chain[|chain| - 1], chain[..|chain| - 1];
      assert chain == rest + [n];
      assert Elems(chain) == Elems(rest) + {n};
      forall z | z in chain
        ensures n !in z.input
      {
        var k :| 0 <= k < |chain| && chain[k] == z;
        assert chain[..k] == rest[..k];
        assert n !in chain[..k];
      }
      forall m | m in rest
        ensures names[m] != names[n]
      {
        assert m in Elems(chain) && n in Elems(chain) && m != n;
      }
    }
    assert InputClosed(Elems(chain)) by {
      forall n, x | n in Elems(chain) && x in n.input
        ensures x in Elems(chain)
      {
        var k :| 0 <= k < |chain| && chain[k] == n;
        assert x in chain[..k];
      }
    }
  }

  /** At its visit a node has the gradient that its users have collected. */
  lemma GradientFinal(nodes: set<GraphNode>, names: Naming, needs: set<GraphNode>, partial: Partial,
                      chain: seq<GraphNode>, grad: map<string, real>, loss: GraphNode)
    requires Dag(nodes) && loss in nodes && Ordered(nodes, names, needs, chain) && chain != []
    requires Accumulated(nodes, names, needs, partial, chain, grad, loss)
    requires chain[|chain| - 1] in needs
    ensures var n := chain[|chain| - 1];
            n in names && names[n] in grad && grad[names[n]] == Derivative(nodes, partial, loss, n)
  {
    hide Ordered, Derivative, InputDerivatives, Weighted;
    var n, rest := chain[|chain| - 1], chain[..|chain| - 1];
    OrderedRest(nodes, names, needs, chain);
    OrderedRest(nodes, names, needs, rest);
    OrderedMeans(nodes, names, needs, rest);
    assert n in chain;
    WeightedStep(nodes, names, partial, chain, grad, n);
    NothingWeighted(nodes, names, partial, Elems(rest), rest, grad, n);
    SelfDerivative(nodes, partial, n);
  }

  /** Visiting a node that needs a gradient keeps the rest accumulated. */
  lemma VisitNeeded(nodes: set<GraphNode>, names: Naming, needs: set<GraphNode>, partial: Partial,
                    chain: seq<GraphNode>, grad: map<string, real>, loss: GraphNode)
    requires Dag(nodes) && loss in nodes && Ordered(nodes, names, needs, chain) && chain != []
    requires Accumulated(nodes, names, needs, partial, chain, grad, loss)
    requires chain[|chain| - 1] in needs
    ensures var n, rest := chain[|chain| - 1], chain[..|chain| - 1];
            && n in names && names[n] in grad && Named(n.input, names) && Elems(rest) <= nodes
            && Accumulated(nodes, names, needs, partial, rest,
                 AddInputs(n, |n.input|, names, needs, partial, grad[names[n]], grad), loss)
  {
    hide Ordered, AddInputs, Derivative, InputDerivatives, Weighted;
    var n, rest := chain[|chain| - 1], chain[..|chain| - 1];
    GradientFinal(nodes, names, needs, partial, chain, grad, loss);
    OrderedRest(nodes, names, needs, chain);
    OrderedMeans(nodes, names, needs, rest);
    assert n in chain && chain == rest + [n];
    var g := grad[names[n]];
    var grad' := AddInputs(n, |n.input|, names, needs, partial, g, grad);
    AddInputsKeys(names, needs, partial, grad, n, |n.input|, g);
    assert n.input[..|n.input|] == n.input;
    forall x | x in rest && x in needs
      ensures Weighted(nodes, names, partial, rest, grad', x) == Derivative(nodes, partial, loss, x)
    {
      RestWeighted(nodes, names, needs, partial, chain, grad, x);
    }
  }

  lemma RestWeighted(nodes: set<GraphNode>, names: Naming, needs: set<GraphNode>, partial: Partial,
                     chain: seq<GraphNode>, grad: map<string, real>, x: GraphNode)
    requires Dag(nodes) && Ordered(nodes, names, needs, chain) && chain != []
    requires x in chain[..|chain| - 1] && x in needs
    requires var n := chain[|chain| - 1]; n in names && names[n] in grad && Named(n.input, names)
    requires Elems(chain) <= nodes && Elems(chain[..|chain| - 1]) <= nodes
    ensures var n, rest := chain[|chain| - 1], chain[..|chain| - 1];
            Weighted(nodes, names, partial, rest,
              AddInputs(n, |n.input|, names, needs, partial, grad[names[n]], grad), x)
            == Weighted(nodes, names, partial, chain, grad, x)
  {
    hide Ordered, AddInputs, Derivative, InputDerivatives, Weighted;
    var n, rest := chain[|chain| - 1], chain[..|chain| - 1];
    OrderedRest(nodes, names, needs, chain);
    OrderedRest(nodes, names, needs, rest);
    OrderedMeans(nodes, names, needs, rest);
    assert x in chain && x != n;
    HandedDown(nodes, names, needs, partial, rest, grad, n, |n.input|, grad[names[n]], x);
    OtherDerivative(nodes, partial, n, x);
    WeightedStep(nodes, names, partial, chain, grad, x);
  }

  /** A node that needs no gradient has none to hand down. */
  lemma VisitIdle(nodes: set<GraphNode>, names: Naming, needs: set<GraphNode>, partial: Partial,
                  chain: seq<GraphNode>, grad: map<string, real>, loss: GraphNode)
    requires Dag(nodes) && loss in nodes && Ordered(nodes, names, needs, chain) && chain != []
    requires Accumulated(nodes, names, needs, partial, chain, grad, loss)
    requires chain[|chain| - 1] !in needs
    ensures Elems(chain[..|chain| - 1]) <= nodes
    ensures Accumulated(nodes, names, needs, partial, chain[..|chain| - 1], grad, loss)
  {
    hide Ordered, Derivative, InputDerivatives, Weighted;
    var n, rest := chain[|chain| - 1], chain[..|chain| - 1];
    OrderedRest(nodes, names, needs, chain);
    OrderedMeans(nodes, names, needs, chain);
    assert n in chain && chain == rest + [n];
    assert InputClosed(Elems(chain) - needs);
    forall x | x in rest && x in needs
      ensures Weighted(nodes, names, partial, rest, grad, x) == Derivative(nodes, partial, loss, x)
      ensures names[x] in grad || Used(x, rest)
    {
      assert x in chain;
      WeightedStep(nodes, names, partial, chain, grad, x);
      NoDerivative(nodes, partial, Elems(chain) - needs, n, |n.input|, x);
      assert x !in n.input;
    }
  }

  lemma OrderedMeans(nodes: set<GraphNode>, names: Naming, needs: set<GraphNode>, chain: seq<GraphNode>)
    requires Dag(nodes) && Ordered(nodes, names, needs, chain)
    ensures Elems(chain) <= nodes <= names.Keys && NoDup(chain) && InputsFirst(chain)
    ensures DistinctNames(Elems(chain), names) && NeedsSpread(Elems(chain), needs)
  {
  }

  lemma SelfDerivative(nodes: set<GraphNode>, partial: Partial, n: GraphNode)
    requires Dag(nodes) && n in nodes
    ensures Derivative(nodes, partial, n, n) == 1.0
  {
  }

  lemma OtherDerivative(nodes: set<GraphNode>, partial: Partial, n: GraphNode, x: GraphNode)
    requires Dag(nodes) && n in nodes && n != x
    ensures Derivative(nodes, partial, n, x) == InputDerivatives(nodes, partial, n, |n.input|, x)
  {
  }

  lemma {:induction false} BackwardFrom(nodes: set<GraphNode>, names: Naming, needs: set<GraphNode>,
                                        partial: Partial, chain: seq<GraphNode>, grad: map<string, real>,
                                        loss: GraphNode)
    requires Dag(nodes) && loss in nodes && Ordered(nodes, names, needs, chain)
    requires Accumulated(nodes, names, needs, partial, chain, grad, loss)
    ensures Named(chain, names) && forall n :: n in chain ==> Named(n.input, names)
    ensures var r := RunBackward(chain, names, needs, partial, grad);
            && r.Some?
            && (forall x :: x in chain && x in needs ==> names[x] in r.value)
            && (forall x :: x in chain && x in needs ==>
                  r.value[names[x]] == Derivative(nodes, partial, loss, x))
            && (forall name :: name in grad ==> name in r.value)
            && (forall name :: name in grad && r.value[name] != grad[name] ==>
                  name in NamesOf(chain, names))
    decreases |chain|
  {
    hide Ordered, AddInputs, Derivative, InputDerivatives, Accumulated;
    OrderedRest(nodes, names, needs, chain);
    if chain != [] {
      var n, rest := chain[|chain| - 1], chain[..|chain| - 1];
      assert chain == rest + [n];
      if n in needs {
        GradientFinal(nodes, names, needs, partial, chain, grad, loss);
        VisitNeeded(nodes, names, needs, partial, chain, grad, loss);
        var grad' := AddInputs(n, |n.input|, names, needs, partial, grad[names[n]], grad);
        AddInputsKeys(names, needs, partial, grad, n, |n.input|, grad[names[n]]);
        BackwardFrom(nodes, names, needs, partial, rest, grad', loss);
        assert grad'[names[n]] == grad[names[n]] by { NotOwnInput(nodes, names, n, rest); }
      } else {
        VisitIdle(nodes, names, needs, partial, chain, grad, loss);
        BackwardFrom(nodes, names, needs, partial, rest, grad, loss);
      }
    }
  }

  lemma NotOwnInput(nodes: set<GraphNode>, names: Naming, n: GraphNode, rest: seq<GraphNode>)
    requires Dag(nodes) && n in nodes && nodes <= names.Keys && Named(rest, names)
    requires InputsIn(n, rest) && names[n] !in NamesOf(rest, names)
    ensures forall x :: x in n.input ==> names[x] != names[n]
  {
  }

  /** All nodes of a target but the target itself have a user among them. */
  lemma {:induction false} UsedInTarget(nodes: set<GraphNode>, root: GraphNode, x: GraphNode)
    requires Dag(nodes) && root in nodes && x in Reach(nodes, root) && x != root
    ensures exists z :: z in Reach(nodes, root) && x in z.input
    decreases root.rank
  {
    var y :| y in root.input && x in Reach(nodes, y);
    if x == y {
      assert root in Reach(nodes, root);
    } else {
      UsedInTarget(nodes, y, x);
      var z :| z in Reach(nodes, y) && x in z.input;
      assert z in Reach(nodes, root);
    }
  }

  lemma {:induction false} LossWeight(nodes: set<GraphNode>, names: Naming, partial: Partial,
                                      chain: seq<GraphNode>, loss: GraphNode, x: GraphNode)
    requires Dag(nodes) && Elems(chain) <= nodes <= names.Keys && NoDup(chain)
    requires loss in nodes && DistinctNames(Elems(chain) + {loss}, names)
    ensures Weighted(nodes, names, partial, chain, map[names[loss] := 1.0], x)
         == if loss in chain then Derivative(nodes, partial, loss, x) else 0.0
    decreases |chain|
  {
    hide Derivative;
    if chain != [] {
      var n, rest := chain[|chain| - 1], chain[..|chain| - 1];
      assert chain == rest + [n];
      assert n in Elems(chain) && Elems(chain) == Elems(rest) + {n};
      LossWeight(nodes, names, partial, rest, loss, x);
    }
  }

  /** The nodes of the target that need a gradient have the derivative of the loss by them. */
  ghost predicate RightGradients(nodes: set<GraphNode>, names: Naming, needs: set<GraphNode>,
                                 partial: Partial, chain: seq<GraphNode>, t: GraphTarget)
    requires Dag(nodes) && Elems(chain) <= Elems(t.forward) <= nodes <= names.Keys && t.node in nodes
  {
    ChainNamed(nodes, names, chain);
    ChainNamed(nodes, names, t.forward);
    var r := RunBackward(chain, names, needs, partial, map[t.name := 1.0]);
    && r.Some?
    && forall x :: x in t.forward && x in needs ==>
         names[x] in r.value && r.value[names[x]] == Derivative(nodes, partial, t.node, x)
  }

  lemma ChainNamed(nodes: set<GraphNode>, names: Naming, chain: seq<GraphNode>)
    requires Dag(nodes) && Elems(chain) <= nodes <= names.Keys
    ensures Named(chain, names) && forall n :: n in chain ==> Named(n.input, names)
  {
    forall n | n in chain
      ensures n in names && Named(n.input, names)
    {
      assert n in Elems(chain);
      NamedInputs(nodes, names, n);
    }
  }

  /** Reverse accumulation over all nodes of the loss target, in any order that puts inputs
      first, gives every node that needs a gradient the derivative of the loss by it. */
  lemma BackwardOver(nodes: set<GraphNode>, names: Naming, needs: set<GraphNode>, partial: Partial,
                     chain: seq<GraphNode>, t: GraphTarget)
    requires Dag(nodes) && nodes <= names.Keys && TargetOk(nodes, names, t)
    requires DistinctNames(Elems(t.forward), names) && NeedsSpread(Elems(t.forward), needs)
    requires NoDup(chain) && InputsFirst(chain) && Elems(chain) == Elems(t.forward)
    ensures RightGradients(nodes, names, needs, partial, chain, t)
  {
    hide Derivative, InputDerivatives, RunBackward, Weighted;
    var loss := t.node;
    var grad := map[t.name := 1.0];
    assert loss in Elems(chain) && Elems(chain) + {loss} == Elems(chain);
    forall x | x in chain && x in needs
      ensures Weighted(nodes, names, partial, chain, grad, x) == Derivative(nodes, partial, loss, x)
      ensures names[x] in grad || Used(x, chain)
    {
      LossWeight(nodes, names, partial, chain, loss, x);
      if x != loss {
        assert x in Elems(chain);
        UsedInTarget(nodes, loss, x);
        var z :| z in Reach(nodes, loss) && x in z.input;
        assert z in Elems(chain) && z in chain;
      }
    }
    assert Ordered(nodes, names, needs, chain);
    BackwardFrom(nodes, names, needs, partial, chain, grad, loss);
    assert forall x :: x in t.forward ==> x in Elems(chain);
  }

  /** So does reverse accumulation over the loss target's whole list. */
  lemma BackwardIsDerivative(nodes: set<GraphNode>, names: Naming, needs: set<GraphNode>,
                             partial: Partial, t: GraphTarget)
    requires Dag(nodes) && nodes <= names.Keys && TargetOk(nodes, names, t)
    requires DistinctNames(Elems(t.forward), names) && NeedsSpread(Elems(t.forward), needs)
    ensures RightGradients(nodes, names, needs, partial, t.forward, t)
  {
    hide RightGradients;
    BackwardOver(nodes, names, needs, partial, t.forward, t);
  }

  // ---------------------------------------------------------------------------------------
  // The backward pass when the loss target shares nodes with earlier targets
  // ---------------------------------------------------------------------------------------

  /** The nodes of the list that are among those done, or those that are not. */
  ghost function Part(list: seq<GraphNode>, done: set<GraphNode>, inside: bool): (r: seq<GraphNode>)
    ensures Elems(r) == if inside then Elems(list) * done else Elems(list) - done
    ensures NoDup(list) ==> NoDup(r)
  {
    if list == [] then []
    else
      var n, rest := list[|list| - 1], list[..|list| - 1];
      assert list == rest + [n] && (NoDup(list) ==> n !in rest && NoDup(rest));
      assert n in Elems(Part(rest, done, inside)) ==> n in Elems(rest);
      if n in done <==> inside then Part(rest, done, inside) + [n] else Part(rest, done, inside)
  }

  lemma {:induction false} InsideOrdered(list: seq<GraphNode>, done: set<GraphNode>)
    requires InputsFirst(list) && NoDup(list) && InputClosed(done)
    ensures InputsFirst(Part(list, done, true))
    decreases |list|
  {
    if list != [] {
      var n, rest := list[|list| - 1], list[..|list| - 1];
      RestOrdered(list);
      InsideOrdered(rest, done);
      if n in done {
        var inside := Part(rest, done, true);
        AppendOrdered(inside, n, inside);
      }
    }
  }

  /** Putting the nodes that are done first keeps inputs first. */
  lemma {:induction false} PartsOrdered(first: seq<GraphNode>, list: seq<GraphNode>, done: set<GraphNode>)
    requires InputsFirst(first) && InputsFirst(list) && NoDup(list)
    requires forall n :: n in list && n in done ==> n in first
    ensures InputsFirst(first + Part(list, done, false))
    decreases |list|
  {
    hide InputsFirst;
    if list == [] {
      assert first + [] == first;
    } else {
      var n, rest := list[|list| - 1], list[..|list| - 1];
      assert list == rest + [n];
      RestOrdered(list);
      PartsOrdered(first, rest, done);
      if n !in done {
        var before := first + Part(rest, done, false);
        AppendOrdered(before, n, rest);
        assert first + Part(list, done, false) == before + [n];
      }
    }
  }

  /** What extending a chain adds are the nodes of the list that are not in it. */
  lemma {:induction false} ExtendAdds(all: set<GraphNode>, names: Naming, chain: seq<GraphNode>,
                                      list: seq<GraphNode>, j: nat)
    requires all <= names.Keys && DistinctNames(all, names) && j <= |list|
    requires Elems(chain) + Elems(list) <= all && NoDup(list)
    ensures Named(chain, names) && Named(list[..j], names)
    ensures Extend(chain, list[..j], names) == chain + Part(list[..j], Elems(chain), false)
  {
    hide Extend, NamesOf, DistinctNames, Part;
    assert forall n :: n in chain ==> n in Elems(chain);
    assert forall n :: n in list ==> n in Elems(list);
    if j == 0 {
      ExtendByNone(chain, names);
      PartOfNone(Elems(chain), false);
      assert list[..0] == [] && chain + [] == chain;
    } else {
      var n, rest := list[j - 1], list[..j - 1];
      ExtendAdds(all, names, chain, list, j - 1);
      ExtendStep(chain, list, names, j - 1);
      PartStep(list, Elems(chain), false, j - 1);
      var part := Part(rest, Elems(chain), false);
      ElemsTogether(chain, part);
      NameInChain(all, names, chain + part, n);
      assert n in chain + part <==> n in Elems(chain);
    }
  }

  lemma PartOfNone(done: set<GraphNode>, inside: bool)
    ensures Part([], done, inside) == []
  {
  }

  lemma PartStep(list: seq<GraphNode>, done: set<GraphNode>, inside: bool, j: nat)
    requires NoDup(list) && j < |list|
    ensures list[..j + 1] == list[..j] + [list[j]] && list[j] !in list[..j]
    ensures Elems(list[..j]) <= Elems(list) && list[j] in list && list[j] in Elems(list)
    ensures Part(list[..j + 1], done, inside)
         == Part(list[..j], done, inside) + if list[j] in done <==> inside then [list[j]] else []
  {
    assert list[..j + 1][..j] == list[..j];
  }

  lemma {:induction false} BackwardSplit(a: seq<GraphNode>, b: seq<GraphNode>, names: Naming,
                                         needs: set<GraphNode>, partial: Partial, grad: map<string, real>)
    requires Named(a + b, names) && forall n :: n in a + b ==> Named(n.input, names)
    ensures Named(a, names) && (forall n :: n in a ==> Named(n.input, names))
    ensures Named(b, names) && (forall n :: n in b ==> Named(n.input, names))
    ensures var r := RunBackward(b, names, needs, partial, grad);
            RunBackward(a + b, names, needs, partial, grad)
            == if r.None? then None else RunBackward(a, names, needs, partial, r.value)
    decreases |b|
  {
    hide AddInputs;
    assert forall n :: n in a || n in b ==> n in a + b;
    if b == [] {
      assert a + b == a;
    } else {
      var n, rest := b[|b| - 1], b[..|b| - 1];
      assert (a + b)[..|a + b| - 1] == a + rest && (a + b)[|a + b| - 1] == n;
      if n !in needs {
        BackwardSplit(a, rest, names, needs, partial, grad);
      } else if names[n] in grad {
        BackwardSplit(a, rest, names, needs, partial,
          AddInputs(n, |n.input|, names, needs, partial, grad[names[n]], grad));
      }
    }
  }

  /** No gradient passes from the nodes to their inputs. */
  ghost predicate NothingHandedOn(chain: seq<GraphNode>, needs: set<GraphNode>) {
    forall z, x :: z in chain && x in z.input ==> x !in needs
  }

  lemma {:induction false} NothingAdded(names: Naming, needs: set<GraphNode>, partial: Partial,
                                        grad: map<string, real>, n: GraphNode, i: nat, g: real)
    requires i <= |n.input| && Named(n.input, names) && forall x :: x in n.input ==> x !in needs
    ensures AddInputs(n, i, names, needs, partial, g, grad) == grad
  {
    if i > 0 {
      assert n.input[i - 1] in n.input;
      NothingAdded(names, needs, partial, grad, n, i - 1, g);
    }
  }

  lemma {:induction false} BackwardIdle(chain: seq<GraphNode>, names: Naming, needs: set<GraphNode>,
                                        partial: Partial, grad: map<string, real>)
    requires Named(chain, names) && (forall n :: n in chain ==> Named(n.input, names))
    requires NothingHandedOn(chain, needs)
    ensures var r := RunBackward(chain, names, needs, partial, grad); r.None? || r.value == grad
    decreases |chain|
  {
    if chain != [] {
      var n, rest := chain[|chain| - 1], chain[..|chain| - 1];
      assert n in chain && forall m :: m in rest ==> m in chain;
      if n in needs && names[n] in grad {
        NothingAdded(names, needs, partial, grad, n, |n.input|, grad[names[n]]);
      }
      BackwardIdle(rest, names, needs, partial, grad);
    }
  }

  ghost predicate Positive(grad: map<string, real>) {
    forall name :: name in grad ==> grad[name] > 0.0
  }

  /** With all partial derivatives one, handing a positive gradient on lets those of the inputs
      grow. */
  lemma {:induction false} AddingGrows(names: Naming, needs: set<GraphNode>, grad: map<string, real>,
                                       n: GraphNode, i: nat, g: real)
    requires i <= |n.input| && Named(n.input, names) && Positive(grad) && g > 0.0
    ensures var r := AddInputs(n, i, names, needs, (m, k) => 1.0, g, grad);
            && Positive(r)
            && (forall name :: name in grad ==> name in r && r[name] >= grad[name])
            && (forall x :: x in n.input[..i] && x in needs ==> GradOf(x, names, r) > GradOf(x, names, grad))
  {
    if i > 0 {
      AddingGrows(names, needs, grad, n, i - 1, g);
      assert n.input[..i] == n.input[..i - 1] + [n.input[i - 1]];
    }
  }

  lemma {:induction false} BackwardGrows(chain: seq<GraphNode>, names: Naming, needs: set<GraphNode>,
                                         grad: map<string, real>)
    requires Named(chain, names) && (forall n :: n in chain ==> Named(n.input, names)) && Positive(grad)
    ensures var r := RunBackward(chain, names, needs, (m, k) => 1.0, grad);
            r.Some? ==>
              && Positive(r.value)
              && (forall name :: name in grad ==> name in r.value && r.value[name] >= grad[name])
              && (forall z, x :: z in chain && z in needs && x in z.input && x in needs ==>
                    GradOf(x, names, r.value) > GradOf(x, names, grad))
    decreases |chain|
  {
    hide AddInputs;
    if chain != [] {
      var n, rest := chain[|chain| - 1], chain[..|chain| - 1];
      assert chain == rest + [n];
      if n !in needs {
        BackwardGrows(rest, names, needs, grad);
      } else if names[n] in grad {
        AddingGrows(names, needs, grad, n, |n.input|, grad[names[n]]);
        assert n.input[..|n.input|] == n.input;
        BackwardGrows(rest, names, needs, AddInputs(n, |n.input|, names, needs, (m, k) => 1.0, grad[names[n]], grad));
      }
    }
  }

  lemma ElemsTogether(a: seq<GraphNode>, b: seq<GraphNode>)
    ensures Elems(a + b) == Elems(a) + Elems(b)
  {
  }

  /** The run without the left-out nodes and the run over them that would follow. */
  lemma LeftOutRuns(nodes: set<GraphNode>, names: Naming, needs: set<GraphNode>, partial: Partial,
                    first: seq<GraphNode>, chain: seq<GraphNode>, t: GraphTarget)
    requires Dag(nodes) && nodes <= names.Keys && TargetOk(nodes, names, t)
    requires DistinctNames(Elems(t.forward), names) && NeedsSpread(Elems(t.forward), needs)
    requires NoDup(first + chain) && InputsFirst(first + chain)
    requires Elems(first + chain) == Elems(t.forward)
    ensures Elems(first + chain) <= Elems(t.forward) <= nodes
    ensures RightGradients(nodes, names, needs, partial, first + chain, t)
    ensures forall s :: s == first || s == chain || s == first + chain ==>
              Named(s, names) && forall n :: n in s ==> Named(n.input, names)
    ensures var r := RunBackward(chain, names, needs, partial, map[t.name := 1.0]);
            && r.Some?
            && RunBackward(first + chain, names, needs, partial, map[t.name := 1.0])
               == RunBackward(first, names, needs, partial, r.value)
  {
    hide RunBackward, Derivative, NoDup, InputsFirst, DistinctNames, NeedsSpread;
    BackwardOver(nodes, names, needs, partial, first + chain, t);
    ChainNamed(nodes, names, first + chain);
    BackwardSplit(first, chain, names, needs, partial, map[t.name := 1.0]);
  }

  lemma LeftOutSuffices(nodes: set<GraphNode>, names: Naming, needs: set<GraphNode>, partial: Partial,
                        first: seq<GraphNode>, chain: seq<GraphNode>, t: GraphTarget)
    requires Dag(nodes) && nodes <= names.Keys && TargetOk(nodes, names, t)
    requires DistinctNames(Elems(t.forward), names) && NeedsSpread(Elems(t.forward), needs)
    requires NoDup(first + chain) && InputsFirst(first + chain)
    requires Elems(first + chain) == Elems(t.forward) && NothingHandedOn(first, needs)
    ensures Elems(chain) <= Elems(t.forward)
    ensures RightGradients(nodes, names, needs, partial, chain, t)
  {
    hide RunBackward, Derivative, NoDup, InputsFirst, DistinctNames, NeedsSpread, NothingHandedOn;
    ElemsTogether(first, chain);
    LeftOutRuns(nodes, names, needs, partial, first, chain, t);
    var r := RunBackward(chain, names, needs, partial, map[t.name := 1.0]);
    BackwardIdle(first, names, needs, partial, r.value);
  }

  lemma LeftOutMatters(nodes: set<GraphNode>, names: Naming, needs: set<GraphNode>,
                       first: seq<GraphNode>, chain: seq<GraphNode>, t: GraphTarget)
    requires Dag(nodes) && nodes <= names.Keys && TargetOk(nodes, names, t)
    requires DistinctNames(Elems(t.forward), names) && NeedsSpread(Elems(t.forward), needs)
    requires NoDup(first + chain) && InputsFirst(first + chain)
    requires Elems(first + chain) == Elems(t.forward) && !NothingHandedOn(first, needs)
    ensures Elems(chain) <= Elems(t.forward)
    ensures !RightGradients(nodes, names, needs, (m, k) => 1.0, chain, t)
  {
    hide RunBackward, Derivative, NoDup, DistinctNames, InputsFirst, TargetOk, Reach;
    ElemsTogether(first, chain);
    var ones: Partial := (m, k) => 1.0;
    LeftOutRuns(nodes, names, needs, ones, first, chain, t);
    var z, x :| z in first && x in z.input && x in needs;
    assert z in Elems(first + chain);
    OrderedInputs(first + chain, z, x);
    BackwardGrows(chain, names, needs, map[t.name := 1.0]);
    var r := RunBackward(chain, names, needs, ones, map[t.name := 1.0]);
    BackwardGrows(first, names, needs, r.value);
  }

  lemma OrderedInputs(chain: seq<GraphNode>, z: GraphNode, x: GraphNode)
    requires InputsFirst(chain) && z in chain && x in z.input
    ensures x in chain && x in Elems(chain)
  {
    var k :| 0 <= k < |chain| && chain[k] == z;
    assert x in chain[..k];
  }

  /** Leaving out the first nodes of the loss target gives the right gradients, whatever the
      partial derivatives are, exactly if no gradient would pass from them to their inputs. */
  lemma LeftOutRight(nodes: set<GraphNode>, names: Naming, needs: set<GraphNode>,
                     first: seq<GraphNode>, chain: seq<GraphNode>, t: GraphTarget)
    requires Dag(nodes) && nodes <= names.Keys && TargetOk(nodes, names, t)
    requires DistinctNames(Elems(t.forward), names) && NeedsSpread(Elems(t.forward), needs)
    requires NoDup(first + chain) && InputsFirst(first + chain)
    requires Elems(first + chain) == Elems(t.forward)
    ensures Elems(chain) <= Elems(t.forward) <= nodes && t.node in nodes
    ensures NothingHandedOn(first, needs)
            <==> forall partial: Partial :: RightGradients(nodes, names, needs, partial, chain, t)
  {
    hide DistinctNames, NeedsSpread, NoDup, InputsFirst, NothingHandedOn, RightGradients;
    ElemsTogether(first, chain);
    if NothingHandedOn(first, needs) {
      forall partial: Partial
        ensures RightGradients(nodes, names, needs, partial, chain, t)
      {
        LeftOutSuffices(nodes, names, needs, partial, first, chain, t);
      }
    } else {
      LeftOutMatters(nodes, names, needs, first, chain, t);
    }
  }

  /** Wherever the loss target is listed, its part of the chain gives the right gradients,
      whatever the partial derivatives are, exactly if no node it shares with the targets
      before it has an input that needs a gradient. */
  lemma LossAnywhere(nodes: set<GraphNode>, names: Naming, needs: set<GraphNode>,
                     targets: seq<GraphTarget>, lossIndex: nat)
    requires Dag(nodes) && nodes <= names.Keys && Compiled(nodes, names, targets)
    requires DistinctNames(Nodes(targets), names) && NeedsSpread(Nodes(targets), needs)
    requires lossIndex < |targets|
    ensures AllNamed(targets, names)
    ensures var chain, t := LossPart(targets, names, lossIndex), targets[lossIndex];
            && Elems(chain) <= Elems(t.forward) <= nodes && t.node in nodes
            && ((forall partial: Partial :: RightGradients(nodes, names, needs, partial, chain, t))
                <==> NothingHandedOn(Part(t.forward, Nodes(targets[..lossIndex]), true), needs))
  {
    hide DistinctNames, NeedsSpread, NoDup, InputsFirst, NothingHandedOn, RightGradients, Part, Extend, Nodes, Chain;
    var t, earlier := targets[lossIndex], targets[..lossIndex];
    var done := Nodes(earlier);
    NodesWithin(targets, lossIndex);
    NodesNamed(nodes, names, targets);
    DistinctWithin(Nodes(targets), done, names);
    DistinctWithin(Nodes(targets), Elems(t.forward), names);
    SpreadWithin(Nodes(targets), Elems(t.forward), needs);
    assert t in targets && TargetOk(nodes, names, t);
    assert Compiled(nodes, names, earlier);
    ChainOrdered(nodes, names, targets);
    ChainOrdered(nodes, names, earlier);
    var before := Chain(earlier, names);
    ChainClosed(before);
    ExtendAdds(Nodes(targets), names, before, t.forward, |t.forward|);
    assert t.forward[..|t.forward|] == t.forward;
    assert LossPart(targets, names, lossIndex) == Part(t.forward, done, false);
    InsideOrdered(t.forward, done);
    PartsOrdered(Part(t.forward, done, true), t.forward, done);
    PartsTogether(t.forward, done);
    LeftOutRight(nodes, names, needs, Part(t.forward, done, true), Part(t.forward, done, false), t);
  }

  lemma NodesNamed(nodes: set<GraphNode>, names: Naming, targets: seq<GraphTarget>)
    requires Dag(nodes) && nodes <= names.Keys && Compiled(nodes, names, targets)
    ensures Nodes(targets) <= nodes
  {
    forall t, n | t in targets && n in t.forward
      ensures n in nodes
    {
      assert TargetOk(nodes, names, t) && n in Elems(t.forward);
    }
  }

  lemma NodesWithin(targets: seq<GraphTarget>, i: nat)
    requires i < |targets|
    ensures Nodes(targets[..i]) <= Nodes(targets) && Elems(targets[i].forward) <= Nodes(targets)
  {
    assert targets[i] in targets;
  }

  lemma DistinctWithin(all: set<GraphNode>, some: set<GraphNode>, names: Naming)
    requires some <= all <= names.Keys && DistinctNames(all, names)
    ensures DistinctNames(some, names)
  {
  }

  lemma SpreadWithin(all: set<GraphNode>, some: set<GraphNode>, needs: set<GraphNode>)
    requires some <= all && NeedsSpread(all, needs)
    ensures NeedsSpread(some, needs)
  {
  }

  lemma ChainClosed(chain: seq<GraphNode>)
    requires InputsFirst(chain)
    ensures InputClosed(Elems(chain))
  {
    forall n, x | n in Elems(chain) && x in n.input
      ensures x in Elems(chain)
    {
      OrderedInputs(chain, n, x);
    }
  }

  lemma PartsTogether(list: seq<GraphNode>, done: set<GraphNode>)
    requires NoDup(list)
    ensures var r := Part(list, done, true) + Part(list, done, false);
            NoDup(r) && Elems(r) == Elems(list)
  {
    hide Part;
    var a, b := Part(list, done, true), Part(list, done, false);
    forall n | n in a
      ensures n !in b
    {
      assert n in Elems(a) && n !in Elems(b);
    }
    forall i, j | 0 <= i < j < |a + b|
      ensures (a + b)[i] != (a + b)[j]
    {
      if i < |a| <= j {
        assert a[i] in a && b[j - |a|] in b;
      }
    }
    ElemsTogether(a, b);
    assert Elems(a) + Elems(b) == Elems(list);
  }

  // ---------------------------------------------------------------------------------------
  // The context
  // ---------------------------------------------------------------------------------------

  lemma {:induction false} ExtendGrows(chain: seq<GraphNode>, list: seq<GraphNode>, names: Naming, j: nat)
    requires Named(chain, names) && Named(list, names) && j <= |list|
    ensures Extend(chain, list[..j], names) <= Extend(chain, list, names)
    decreases |list| - j
  {
    if j == |list| {
      assert list[..j] == list;
    } else {
      ExtendStep(chain, list, names, j);
      ExtendGrows(chain, list, names, j + 1);
    }
  }

  lemma {:induction false} RunForwardFails<V>(chain: seq<GraphNode>, names: Naming, kernel: Kernel<V>,
                                              hidden: map<string, V>, k: nat)
    requires k <= |chain| && RunForward(chain[..k], names, kernel, hidden).None?
    ensures RunForward(chain, names, kernel, hidden).None?
    decreases |chain| - k
  {
    if k == |chain| {
      assert chain[..k] == chain;
    } else {
      assert chain[..k + 1][..k] == chain[..k];
      RunForwardFails(chain, names, kernel, hidden, k + 1);
    }
  }

  class OpContext<V> {
    const names: Naming
    const needs: set<GraphNode>
    const registered: set<string>
    var forwardChain: seq<GraphNode>
    var backwardChain: seq<GraphNode>
    var hasLoss: bool
    var lossName: string
    var hidden: map<string, V>
    var grad: map<string, real>

    constructor (names: Naming, needs: set<GraphNode>, registered: set<string>)
      ensures this.names == names && this.needs == needs && this.registered == registered
      ensures forwardChain == [] && backwardChain == [] && !hasLoss && hidden == map[] && grad == map[]
    {
      this.names, this.needs, this.registered := names, needs, registered;
      forwardChain, backwardChain, hasLoss, lossName, hidden, grad := [], [], false, "", map[], map[];
    }

    /** One op for every node of the target whose name is new; fails on a class without an op. */
    method AddTarget(target: GraphTarget, isLossIndex: bool, dedup: set<string>)
      returns (ok: bool, dedup': set<string>)
      requires Named(target.forward, names) && Named(forwardChain, names)
      requires dedup == NamesOf(forwardChain, names)
      requires forall n :: n in forwardChain ==> n.className in registered
      modifies this`forwardChain, this`backwardChain
      ensures ok <==> forall n :: n in Extend(old(forwardChain), target.forward, names) ==>
                        n.className in registered
      ensures ok ==>
                && forwardChain == Extend(old(forwardChain), target.forward, names)
                && dedup' == NamesOf(forwardChain, names)
                && backwardChain == old(backwardChain)
                     + if isLossIndex then forwardChain[|old(forwardChain)|..] else []
    {
      hide Extend, NamesOf;
      dedup' := dedup;
      ExtendByNone(forwardChain, names);
      for j := 0 to |target.forward|
        invariant Named(target.forward[..j], names)
        invariant forwardChain == Extend(old(forwardChain), target.forward[..j], names)
        invariant dedup' == NamesOf(forwardChain, names)
        invariant forall n :: n in forwardChain ==> n.className in registered
        invariant backwardChain == old(backwardChain)
                    + if isLossIndex then forwardChain[|old(forwardChain)|..] else []
      {
        var node := target.forward[j];
        assert target.forward[..j + 1] == target.forward[..j] + [node];
        ExtendStep(old(forwardChain), target.forward, names, j);
        if names[node] in dedup' {
          continue;
        }
        if node.className !in registered {
          ExtendGrows(old(forwardChain), target.forward, names, j + 1);
          assert (forwardChain + [node])[|forwardChain|] == node;
          return false, dedup';
        }
        MoreNames(forwardChain, node, names);
        forwardChain := forwardChain + [node];
        if isLossIndex {
          backwardChain := backwardChain + [node];
        }
        dedup' := dedup' + {names[node]};
      }
      assert target.forward[..|target.forward|] == target.forward;
      return true, dedup';
    }

    /** The chains of all targets; only what the loss target adds is run backward. */
    method InitOp(targets: seq<GraphTarget>, lossIndex: int) returns (ok: bool)
      requires AllNamed(targets, names)
      modifies this
      ensures ok <==> forall n :: n in Chain(targets, names) ==> n.className in registered
      ensures ok ==> forwardChain == Chain(targets, names)
      ensures ok ==> backwardChain == LossPart(targets, names, lossIndex)
      ensures ok ==> hasLoss == (0 <= lossIndex < |targets|)
      ensures ok && hasLoss ==> lossName == targets[lossIndex].name
      ensures hidden == map[] && grad == map[]
    {
      hide Extend, NamesOf, Chain, LossPart;
      forwardChain, backwardChain, hasLoss, lossName, hidden, grad := [], [], false, "", map[], map[];
      var dedup: set<string> := {};
      NoNames(names);
      assert targets[..0] == [];
      for i := 0 to |targets|
        invariant hidden == map[] && grad == map[]
        invariant AllNamed(targets[..i], names) && forwardChain == Chain(targets[..i], names)
        invariant dedup == NamesOf(forwardChain, names)
        invariant forall n :: n in forwardChain ==> n.className in registered
        invariant hasLoss == (0 <= lossIndex < i)
        invariant hasLoss ==> lossName == targets[lossIndex].name
        invariant backwardChain == if hasLoss then LossPart(targets, names, lossIndex) else []
      {
        ghost var before := forwardChain;
        LossPartFits(targets, names, i);
        ChainGrows(targets, names, i + 1);
        ok, dedup := AddTarget(targets[i], i == lossIndex, dedup);
        if !ok {
          assert before <= Chain(targets[..i + 1], names) <= Chain(targets, names);
          return false;
        }
        if i == lossIndex {
          hasLoss, lossName := true, targets[i].name;
        }
      }
      assert targets[..|targets|] == targets;
      NoLossPart(targets, names, lossIndex);
      return true;
    }

    /** Runs the ops in order over whatever values there are. */
    method Forward(kernel: Kernel<V>) returns (ok: bool)
      requires Named(forwardChain, names)
      modifies this`hidden
      ensures ok <==> RunForward(forwardChain, names, kernel, old(hidden)).Some?
      ensures ok ==> hidden == RunForward(forwardChain, names, kernel, old(hidden)).value
    {
      for i := 0 to |forwardChain|
        invariant RunForward(forwardChain[..i], names, kernel, old(hidden)) == Some(hidden)
      {
        var node := forwardChain[i];
        assert forwardChain[..i + 1][..i] == forwardChain[..i];
        if !Ready(node, names, hidden) {
          RunForwardFails(forwardChain, names, kernel, old(hidden), i + 1);
          return false;
        }
        hidden := Apply(node, names, kernel, hidden);
      }
      assert forwardChain[..|forwardChain|] == forwardChain;
      return true;
    }

    /** Sets the gradient of the loss to one and runs the ops of the backward chain in reverse. */
    method Backward(partial: Partial) returns (ok: bool)
      requires Named(backwardChain, names) && forall n :: n in backwardChain ==> Named(n.input, names)
      modifies this`grad
      ensures hasLoss ==>
                (ok <==> RunBackward(backwardChain, names, needs, partial, map[lossName := 1.0]).Some?)
      ensures !hasLoss ==> !ok
      ensures ok ==> RunBackward(backwardChain, names, needs, partial, map[lossName := 1.0]) == Some(grad)
    {
      if !hasLoss {
        return false;
      }
      grad := map[lossName := 1.0];
      var i := |backwardChain|;
      assert backwardChain[..i] == backwardChain;
      while i > 0
        invariant 0 <= i <= |backwardChain|
        invariant RunBackward(backwardChain[..i], names, needs, partial, grad)
               == RunBackward(backwardChain, names, needs, partial, map[lossName := 1.0])
      {
        var node := backwardChain[i - 1];
        assert backwardChain[..i][..i - 1] == backwardChain[..i - 1];
        if node in needs {
          if names[node] !in grad {
            return false;
          }
          var g := grad[names[node]];
          ghost var before := grad;
          for k := 0 to |node.input|
            invariant grad == AddInputs(node, k, names, needs, partial, g, before)
          {
            var x := node.input[k];
            AddInputsStep(node, k, names, needs, partial, g, before);
            if x in needs {
              grad := grad[names[x] := GradOf(x, names, grad) + g * partial(node, k)];
            }
          }
        }
        i := i - 1;
      }
      return true;
    }
  }

  lemma NoLossPart(targets: seq<GraphTarget>, names: Naming, lossIndex: int)
    requires AllNamed(targets, names)
    ensures !(0 <= lossIndex < |targets|) ==> LossPart(targets, names, lossIndex) == []
  {
  }

  lemma NoNames(names: Naming)
    ensures NamesOf([], names) == {} && Chain([], names) == []
  {
  }

  lemma MoreNames(chain: seq<GraphNode>, n: GraphNode, names: Naming)
    requires Named(chain, names) && n in names
    ensures NamesOf(chain + [n], names) == NamesOf(chain, names) + {names[n]}
  {
  }

  lemma ExtendByNone(chain: seq<GraphNode>, names: Naming)
    requires Named(chain, names)
    ensures forall list :: list == [] ==> Extend(chain, list, names) == chain
  {
  }

  /** For compiled targets the chain of InitOp evaluates the graph, and with the loss target
      first its backward chain differentiates the loss. */
  lemma TrainingStep<V>(nodes: set<GraphNode>, names: Naming, needs: set<GraphNode>,
                        targets: seq<GraphTarget>, kernel: Kernel<V>, partial: Partial,
                        stale: map<string, V>)
    requires Dag(nodes) && nodes <= names.Keys && targets != [] && Compiled(nodes, names, targets)
    requires DistinctNames(Nodes(targets), names) && NeedsSpread(Nodes(targets), needs)
    ensures AllNamed(targets, names)
    ensures var r := RunForward(Chain(targets, names), names, kernel, stale);
            && r.Some?
            && (forall t, n :: t in targets && n in t.forward ==> n in nodes && names[n] in r.value)
            && (forall t, n :: t in targets && n in t.forward ==>
                  r.value[names[n]] == Eval(nodes, kernel, n))
    ensures var chain, loss := LossPart(targets, names, 0), targets[0];
            && chain == loss.forward && loss.node in nodes && Elems(chain) <= nodes
            && RightGradients(nodes, names, needs, partial, chain, loss)
  {
    hide Eval, RightGradients, RunForward, Chain, LossPart, InputsFirst, NoDup, NeedsSpread, Reach, NamesDiffer,
         NamesOf;
    NodesNamed(nodes, names, targets);
    assert targets[0] in targets && TargetOk(nodes, names, targets[0]);
    ChainOrdered(nodes, names, targets);
    var chain := Chain(targets, names);
    assert forall n :: n in chain ==> n in Elems(chain);
    assert Elems(chain) <= nodes;
    ForwardIsEval(nodes, names, kernel, chain, stale);
    assert forall t, n :: t in targets && n in t.forward ==> n in Nodes(targets);
    var t := targets[0];
    NodesWithin(targets, 0);
    DistinctWithin(Nodes(targets), Elems(t.forward), names);
    SpreadWithin(Nodes(targets), Elems(t.forward), needs);
    TargetNamesDiffer(nodes, names, t);
    LossPartComplete(targets, names, 0);
    BackwardIsDerivative(nodes, names, needs, partial, t);
  }

  lemma TargetNamesDiffer(nodes: set<GraphNode>, names: Naming, t: GraphTarget)
    requires Dag(nodes) && nodes <= names.Keys && TargetOk(nodes, names, t)
    requires DistinctNames(Elems(t.forward), names)
    ensures Named(t.forward, names) && NamesDiffer(t.forward, names)
  {
    ChainNamed(nodes, names, t.forward);
    forall i, j | 0 <= i < j < |t.forward|
      ensures names[t.forward[i]] != names[t.forward[j]]
    {
      assert t.forward[i] in Elems(t.forward) && t.forward[j] in Elems(t.forward);
    }
  }

  /** What compiling a graph successfully establishes is what a training step relies on. */
  lemma CompiledTrains(nodes: set<GraphNode>, names: Naming, grads: set<GraphNode>,
                       targetNodes: seq<GraphNode>, targets: seq<GraphTarget>)
    requires Dag(nodes) && nodes == names.Keys && forall t :: t in targetNodes ==> t in nodes
    requires |targets| == |targetNodes|
    requires forall k :: 0 <= k < |targets| ==>
               targets[k].node == targetNodes[k] && TargetOk(nodes, names, targets[k])
    requires var all := ReachOfAll(nodes, targetNodes);
             && all <= nodes && DistinctNames(all, names)
             && forall n :: n in all ==> (n in grads <==> Tainted(nodes, Seeds(nodes), n))
    ensures Compiled(nodes, names, targets) && Nodes(targets) == ReachOfAll(nodes, targetNodes)
    ensures DistinctNames(Nodes(targets), names) && NeedsSpread(Nodes(targets), grads)
  {
    hide Tainted, Seeds, Reach, DistinctNames, TargetOk, ReachOfAll, Nodes;
    TargetsCover(nodes, names, targetNodes, targets);
    forall n, x | n in Nodes(targets) && x in n.input && x in grads
      ensures n in grads
    {
      InputCovered(nodes, names, targets, n, x);
      TaintedByInput(nodes, Seeds(nodes), n);
    }
  }

  lemma TargetsCover(nodes: set<GraphNode>, names: Naming, targetNodes: seq<GraphNode>,
                     targets: seq<GraphTarget>)
    requires Dag(nodes) && |targets| == |targetNodes|
    requires forall k :: 0 <= k < |targets| ==>
               targets[k].node == targetNodes[k] && TargetOk(nodes, names, targets[k])
    ensures Compiled(nodes, names, targets) && Nodes(targets) == ReachOfAll(nodes, targetNodes)
  {
    hide Reach;
    var all := ReachOfAll(nodes, targetNodes);
    forall n | n in Nodes(targets)
      ensures n in all
    {
      var t :| t in targets && n in t.forward;
      var k :| 0 <= k < |targets| && targets[k] == t;
      assert n in Elems(t.forward) && targetNodes[k] in targetNodes;
    }
    forall n | n in all
      ensures n in Nodes(targets)
    {
      var m :| m in targetNodes && m in nodes && n in Reach(nodes, m);
      var k :| 0 <= k < |targetNodes| && targetNodes[k] == m;
      assert targets[k] in targets && n in Elems(targets[k].forward);
    }
  }

  lemma InputCovered(nodes: set<GraphNode>, names: Naming, targets: seq<GraphTarget>, n: GraphNode,
                     x: GraphNode)
    requires Dag(nodes) && Compiled(nodes, names, targets) && n in Nodes(targets) && x in n.input
    ensures x in Nodes(targets)
  {
    hide Reach;
    var t :| t in targets && n in t.forward;
    assert TargetOk(nodes, names, t);
    var i :| 0 <= i < |t.forward| && t.forward[i] == n;
    assert x in t.forward[..i];
    assert x in t.forward && t in targets;
  }
}
