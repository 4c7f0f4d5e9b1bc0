// Compiling a computational graph (src/graph/graph.cc): a depth-first walk from every target
// gives each target its forward list, names the nodes that have no valid name and spreads the
// gradient flags; then all nodes get the ids 0, 1, ... in descending order of their names.
module Graphs {
  import opened Sequences
  import opened Names

  /** A node as constructed. The fields that compiling changes (name, gradient flag, id) are
      kept in maps and sets of the compilation, keyed by the node. */
  class GraphNode {
    const input: seq<GraphNode>
    const className: string
    const givenName: string
    const initialGrad: bool
    ghost const rank: nat

    constructor (className: string, name: string, input: seq<GraphNode>, grad: bool, ghost rank: nat)
      requires forall x :: x in input ==> x.rank < rank
      ensures this.className == className && givenName == name && this.input == input
      ensures initialGrad == grad && this.rank == rank
    {
      this.className, givenName, this.input, initialGrad := className, name, input, grad;
      this.rank := rank;
    }
  }

  // ---------------------------------------------------------------------------------------
  // The structure of a graph, which compiling does not change
  // ---------------------------------------------------------------------------------------

  /** A set of nodes closed under taking inputs, without cycles, of classes with valid names. */
  ghost predicate Dag(nodes: set<GraphNode>) {
    forall n :: n in nodes ==>
      && ValidName(n.className)
      && forall x :: x in n.input ==> x in nodes && x.rank < n.rank
  }

  ghost function Reach(nodes: set<GraphNode>, n: GraphNode): (r: set<GraphNode>)
    requires Dag(nodes) && n in nodes
    ensures n in r && r <= nodes
    decreases n.rank
  {
    {n} + set x, y | x in n.input && y in Reach(nodes, x) :: y
  }

  /** Every node comes after all of its inputs. */
  ghost predicate InputsFirst(forward: seq<GraphNode>) {
    forall k :: 0 <= k < |forward| ==>
      forall x :: x in forward[k].input ==> x in forward[..k]
  }

  ghost predicate Tainted(nodes: set<GraphNode>, seeds: set<GraphNode>, n: GraphNode)
    requires Dag(nodes) && n in nodes
  {
    exists m :: m in Reach(nodes, n) && m in seeds
  }

  lemma TaintedByInput(nodes: set<GraphNode>, seeds: set<GraphNode>, n: GraphNode)
    requires Dag(nodes) && n in nodes
    ensures Tainted(nodes, seeds, n)
            <==> n in seeds || exists x :: x in n.input && Tainted(nodes, seeds, x)
  {
    if Tainted(nodes, seeds, n) {
      var m :| m in Reach(nodes, n) && m in seeds;
      if m != n {
        var x :| x in n.input && m in Reach(nodes, x);
        assert Tainted(nodes, seeds, x);
      }
    }
    if x :| x in n.input && Tainted(nodes, seeds, x) {
      var m :| m in Reach(nodes, x) && m in seeds;
      assert m in Reach(nodes, n);
    }
  }

  /** A forward list that contains a node contains all that the node is computed from. */
  lemma {:induction false} ClosedReach(nodes: set<GraphNode>, done: set<GraphNode>, n: GraphNode)
    requires Dag(nodes) && n in done && done <= nodes
    requires forall d, x :: d in done && x in d.input ==> x in done
    ensures Reach(nodes, n) <= done
    decreases n.rank
  {
    forall y | y in Reach(nodes, n)
      ensures y in done
    {
      if y != n {
        var x :| x in n.input && y in Reach(nodes, x);
        ClosedReach(nodes, done, x);
      }
    }
  }

  // ---------------------------------------------------------------------------------------
  // The walk
  // ---------------------------------------------------------------------------------------

  /** The class name followed by the least number that makes it unused. */
  ghost predicate IsFirstUnused(className: string, used: set<string>, name: string) {
    && name !in used
    && exists i: nat :: i >= 1 && name == className + Decimal(i) && AllUsed(className, used, i)
  }

  ghost predicate AllUsed(className: string, used: set<string>, i: nat) {
    forall j: nat :: 1 <= j < i ==> className + Decimal(j) in used
  }

  method GeneratedName(className: string, used: set<string>) returns (name: string)
    ensures IsFirstUnused(className, used, name)
    ensures ValidName(className) ==> ValidName(name)
  {
    hide Decimal, ValidName;
    var i: nat := 1;
    ghost var tried: set<string> := {};
    name := className + Decimal(i);
    while name in used
      invariant i >= 1 && name == className + Decimal(i)
      invariant tried <= used && AllUsed(className, used, i)
      invariant forall t :: t in tried ==> exists j: nat :: 1 <= j < i && t == className + Decimal(j)
      decreases |used - tried|
    {
      NumberedApart(className, i, tried);
      assert used - (tried + {name}) == (used - tried) - {name};
      tried := tried + {name};
      i := i + 1;
      name := className + Decimal(i);
    }
    NumberedIsValid(className, i);
  }

  /** The list of the nodes walked so far is complete, ordered and correctly labelled. */
  ghost predicate Listed(nodes: set<GraphNode>, done: set<GraphNode>, names: map<GraphNode, string>,
                         forward: seq<GraphNode>, forwardName: seq<string>) {
    && Elems(forward) == done
    && done <= nodes
    && NoDup(forward)
    && InputsFirst(forward)
    && |forwardName| == |forward|
    && (forall k :: 0 <= k < |forward| ==>
          forward[k] in names && forwardName[k] == names[forward[k]] && ValidName(forwardName[k]))
  }

  /** The flags of the nodes walked are final; no flag is set without a reason. */
  ghost predicate Flagged(nodes: set<GraphNode>, seeds: set<GraphNode>, done: set<GraphNode>,
                          grads: set<GraphNode>)
    requires Dag(nodes)
  {
    forall n :: n in nodes ==>
      && (n in seeds ==> n in grads)
      && (n in grads ==> Tainted(nodes, seeds, n))
      && (n in done && Tainted(nodes, seeds, n) ==> n in grads)
  }

  /** Valid names are never changed. */
  ghost predicate Renamed(before: map<GraphNode, string>, after: map<GraphNode, string>) {
    && before.Keys == after.Keys
    && forall n :: n in before && ValidName(before[n]) ==> after[n] == before[n]
  }

  lemma ListedAppend(nodes: set<GraphNode>, done: set<GraphNode>, names: map<GraphNode, string>,
                     forward: seq<GraphNode>, forwardName: seq<string>, n: GraphNode)
    requires Listed(nodes, done, names, forward, forwardName)
    requires n in nodes && n !in done && n in names && ValidName(names[n])
    requires forall x :: x in n.input ==> x in done
    ensures Listed(nodes, done + {n}, names, forward + [n], forwardName + [names[n]])
  {
    hide ValidName;
    var all := forward + [n];
    assert Elems(all) == Elems(forward) + {n};
    forall k | 0 <= k < |all|
      ensures forall x :: x in all[k].input ==> x in all[..k]
    {
      assert all[..k] == forward[..k];
      assert forward[..|forward|] == forward;
    }
  }

  lemma ListedRenamed(nodes: set<GraphNode>, done: set<GraphNode>, names: map<GraphNode, string>,
                      names': map<GraphNode, string>, forward: seq<GraphNode>, forwardName: seq<string>)
    requires Listed(nodes, done, names, forward, forwardName) && Renamed(names, names')
    ensures Listed(nodes, done, names', forward, forwardName)
  {
    hide ValidName;
  }

  datatype GraphTarget = GraphTarget(
    node: GraphNode,
    name: string,
    forward: seq<GraphNode>,
    forwardName: seq<string>)

  /** The forward list of a target: the nodes it is computed from, once each, inputs first. */
  ghost predicate TargetOk(nodes: set<GraphNode>, names: map<GraphNode, string>, t: GraphTarget)
    requires Dag(nodes)
  {
    && t.node in nodes && t.node in names && t.name == names[t.node] && ValidName(t.name)
    && Listed(nodes, Reach(nodes, t.node), names, t.forward, t.forwardName)
  }

  // ---------------------------------------------------------------------------------------
  // The order in which nodes get their names
  // ---------------------------------------------------------------------------------------

  /** The nodes in the order of their first visits: a node before its inputs, these from the
      first to the last, none twice. */
  ghost function Visit(nodes: set<GraphNode>, seen: seq<GraphNode>, n: GraphNode): (r: seq<GraphNode>)
    requires Dag(nodes) && n in nodes
    ensures seen <= r && n in r
    decreases n.rank, |n.input| + 1
  {
    if n in seen then seen
    else
      assert (seen + [n])[|seen|] == n;
      VisitInputs(nodes, seen + [n], n, |n.input|)
  }

  ghost function VisitInputs(nodes: set<GraphNode>, seen: seq<GraphNode>, n: GraphNode, i: nat)
    : (r: seq<GraphNode>)
    requires Dag(nodes) && n in nodes && i <= |n.input|
    ensures seen <= r
    decreases n.rank, i
  {
    if i == 0 then seen
    else
      assert n.input[i - 1] in n.input;
      Visit(nodes, VisitInputs(nodes, seen, n, i - 1), n.input[i - 1])
  }

  ghost function VisitAll(nodes: set<GraphNode>, ns: seq<GraphNode>): seq<GraphNode>
    requires Dag(nodes) && forall n :: n in ns ==> n in nodes
  {
    if ns == [] then []
    else
      var last := |ns| - 1;
      Visit(nodes, VisitAll(nodes, ns[..last]), ns[last])
  }

  /** All inputs of the nodes seen are seen, except for those of the nodes being walked. */
  ghost predicate ClosedBut(seen: seq<GraphNode>, open: set<GraphNode>) {
    forall n, x :: n in seen && n !in open && x in n.input ==> x in seen
  }

  ghost predicate Seen(done: set<GraphNode>, seen: seq<GraphNode>) {
    forall n :: n in done ==> n in seen
  }

  lemma SeenMore(done: set<GraphNode>, seen: seq<GraphNode>, more: seq<GraphNode>)
    requires Seen(done, seen) && seen <= more
    ensures Seen(done, more)
  {
  }

  lemma SeenTogether(a: set<GraphNode>, b: set<GraphNode>, seen: seq<GraphNode>, more: seq<GraphNode>)
    requires Seen(a, seen) && seen <= more && Seen(b, more)
    ensures Seen(a + b, more)
  {
  }

  /** Checking the name of a node and walking its inputs. */
  ghost function Walked(nodes: set<GraphNode>, seen: seq<GraphNode>, n: GraphNode): seq<GraphNode>
    requires Dag(nodes) && n in nodes
  {
    VisitInputs(nodes, if n in seen then seen else seen + [n], n, |n.input|)
  }

  lemma VisitStart(nodes: set<GraphNode>, seen: seq<GraphNode>, open: set<GraphNode>, n: GraphNode)
    requires Dag(nodes) && n in nodes && ClosedBut(seen, open + {n})
    ensures var visited := if n in seen then seen else seen + [n];
            && seen <= visited && ClosedBut(visited, open + {n})
            && VisitInputs(nodes, visited, n, 0) == visited
            && VisitInputs(nodes, visited, n, |n.input|) == Walked(nodes, seen, n)
  {
    assert n !in seen ==> forall m :: m in seen + [n] ==> m in seen || m == n;
  }

  /** A node that is not being walked is walked as it is visited. */
  lemma WalkedIsVisit(nodes: set<GraphNode>, seen: seq<GraphNode>, open: set<GraphNode>, n: GraphNode)
    requires Dag(nodes) && n in nodes && ClosedBut(seen, open) && n !in open
    ensures Walked(nodes, seen, n) == Visit(nodes, seen, n)
    ensures ClosedBut(seen, open + {n})
  {
    if n in seen {
      VisitSeenInputs(nodes, seen, n, |n.input|);
    }
  }

  lemma WalkedAgain(nodes: set<GraphNode>, seen: seq<GraphNode>, open: set<GraphNode>, n: GraphNode)
    requires Dag(nodes) && n in nodes && ClosedBut(seen, open) && n !in open
    ensures Walked(nodes, if n in seen then seen else seen + [n], n) == Visit(nodes, seen, n)
    ensures ClosedBut(if n in seen then seen else seen + [n], open + {n})
  {
    WalkedIsVisit(nodes, seen, open, n);
    VisitStart(nodes, seen, open, n);
  }

  lemma WalkedDone(nodes: set<GraphNode>, done: set<GraphNode>, seen: seq<GraphNode>, open: set<GraphNode>,
                   n: GraphNode)
    requires Dag(nodes) && n in nodes && n in done && Reach(nodes, n) <= done
    requires Seen(done, seen) && ClosedBut(seen, open + {n})
    ensures Walked(nodes, seen, n) == seen && ClosedBut(seen, open)
  {
    forall x | x in n.input
      ensures x in seen
    {
      assert x in Reach(nodes, x) && x in Reach(nodes, n);
    }
    VisitSeenInputs(nodes, seen, n, |n.input|);
  }

  lemma VisitNone(nodes: set<GraphNode>, visited: seq<GraphNode>, n: GraphNode)
    requires Dag(nodes) && n in nodes
    ensures VisitInputs(nodes, visited, n, 0) == visited
  {
  }

  lemma VisitNext(nodes: set<GraphNode>, visited: seq<GraphNode>, n: GraphNode, i: nat)
    requires Dag(nodes) && n in nodes && i < |n.input|
    ensures n.input[i] in nodes && n.input[..i + 1] == n.input[..i] + [n.input[i]]
    ensures VisitInputs(nodes, visited, n, i + 1)
         == Visit(nodes, VisitInputs(nodes, visited, n, i), n.input[i])
  {
    assert n.input[i] in n.input;
  }

  lemma {:induction false} VisitedInputs(nodes: set<GraphNode>, visited: seq<GraphNode>, n: GraphNode, i: nat)
    requires Dag(nodes) && n in nodes && i <= |n.input|
    ensures forall k :: 0 <= k < i ==> n.input[k] in VisitInputs(nodes, visited, n, i)
    decreases i
  {
    if i > 0 {
      assert n.input[i - 1] in n.input;
      VisitedInputs(nodes, visited, n, i - 1);
    }
  }

  /** After its inputs a node is closed. */
  lemma VisitEnd(nodes: set<GraphNode>, done: set<GraphNode>, seen: seq<GraphNode>, open: set<GraphNode>, n: GraphNode)
    requires Dag(nodes) && n in nodes && ClosedBut(Walked(nodes, seen, n), open + {n})
    requires Seen(done, Walked(nodes, seen, n))
    ensures ClosedBut(Walked(nodes, seen, n), open) && Seen(done + {n}, Walked(nodes, seen, n))
  {
    var visited := if n in seen then seen else seen + [n];
    assert n in visited && visited <= Walked(nodes, seen, n);
    VisitedInputs(nodes, visited, n, |n.input|);
  }

  lemma {:induction false} VisitSeenInputs(nodes: set<GraphNode>, seen: seq<GraphNode>, n: GraphNode, i: nat)
    requires Dag(nodes) && n in nodes && i <= |n.input|
    requires forall x :: x in n.input ==> x in seen
    ensures VisitInputs(nodes, seen, n, i) == seen
    decreases i
  {
    if i > 0 {
      assert n.input[i - 1] in n.input;
      VisitSeenInputs(nodes, seen, n, i - 1);
    }
  }

  lemma {:induction false} VisitReaches(nodes: set<GraphNode>, seen: seq<GraphNode>, n: GraphNode)
    requires Dag(nodes) && n in nodes
    ensures forall y :: y in Visit(nodes, seen, n) ==> y in seen || y in Reach(nodes, n)
    decreases n.rank, |n.input| + 1
  {
    if n !in seen {
      VisitInputsReach(nodes, seen + [n], n, |n.input|);
    }
  }

  lemma {:induction false} VisitInputsReach(nodes: set<GraphNode>, seen: seq<GraphNode>, n: GraphNode, i: nat)
    requires Dag(nodes) && n in nodes && i <= |n.input|
    ensures forall y :: y in VisitInputs(nodes, seen, n, i) ==> y in seen || y in Reach(nodes, n)
    decreases n.rank, i
  {
    if i > 0 {
      var x := n.input[i - 1];
      assert x in n.input;
      VisitInputsReach(nodes, seen, n, i - 1);
      VisitReaches(nodes, VisitInputs(nodes, seen, n, i - 1), x);
    }
  }

  ghost function UsedBefore(names: map<GraphNode, string>, order: seq<GraphNode>, k: nat): set<string>
    requires k <= |order| && forall n :: n in order ==> n in names
  {
    set i | 0 <= i < k :: names[order[i]]
  }

  /** Valid given names stay; the others become, one after the other, the first unused. */
  ghost predicate NamedInOrder(given: map<GraphNode, string>, names: map<GraphNode, string>,
                               order: seq<GraphNode>) {
    && NoDup(order)
    && given.Keys == names.Keys
    && (forall n :: n in order ==> n in names)
    && (forall n :: n in names && n !in order ==> names[n] == given[n])
    && forall k :: 0 <= k < |order| ==>
         && ValidName(names[order[k]])
         && if ValidName(given[order[k]]) then names[order[k]] == given[order[k]]
            else IsFirstUnused(order[k].className, UsedBefore(names, order, k), names[order[k]])
  }

  /** The set of names in use is that of the nodes named so far. */
  ghost predicate NamingOk(given: map<GraphNode, string>, names: map<GraphNode, string>,
                           used: set<string>, order: seq<GraphNode>) {
    NamedInOrder(given, names, order) && used == UsedBefore(names, order, |order|)
  }

  lemma NamingStart(given: map<GraphNode, string>)
    ensures NamingOk(given, given, {}, [])
  {
  }

  lemma NamingKnown(given: map<GraphNode, string>, names: map<GraphNode, string>, used: set<string>,
                    order: seq<GraphNode>, n: GraphNode)
    requires NamingOk(given, names, used, order) && n in order
    ensures n in names && ValidName(names[n]) && used + {names[n]} == used
  {
    hide ValidName, IsFirstUnused;
    var k :| 0 <= k < |order| && order[k] == n;
    assert names[order[k]] in used;
  }

  lemma NamingUnknown(given: map<GraphNode, string>, names: map<GraphNode, string>, used: set<string>,
                      order: seq<GraphNode>, n: GraphNode)
    requires NamingOk(given, names, used, order) && n in names && n !in order
    ensures n in given && names[n] == given[n]
  {
  }

  lemma UsedSame(names: map<GraphNode, string>, names': map<GraphNode, string>, order: seq<GraphNode>,
                 order': seq<GraphNode>, k: nat)
    requires k <= |order| && k <= |order'|
    requires (forall n :: n in order ==> n in names) && (forall n :: n in order' ==> n in names')
    requires forall i :: 0 <= i < k ==> names[order[i]] == names'[order'[i]]
    ensures UsedBefore(names', order', k) == UsedBefore(names, order, k)
  {
  }

  lemma UsedMore(names: map<GraphNode, string>, order: seq<GraphNode>, k: nat)
    requires k < |order| && forall n :: n in order ==> n in names
    ensures UsedBefore(names, order, k + 1) == UsedBefore(names, order, k) + {names[order[k]]}
  {
  }

  lemma NamingMore(given: map<GraphNode, string>, names: map<GraphNode, string>, used: set<string>,
                   order: seq<GraphNode>, n: GraphNode, name: string)
    requires NamingOk(given, names, used, order) && n in names && n !in order && n in given
    requires ValidName(name)
    requires if ValidName(given[n]) then name == given[n] else IsFirstUnused(n.className, used, name)
    ensures NamingOk(given, names[n := name], used + {name}, order + [n])
  {
    hide ValidName, IsFirstUnused;
    var names', order' := names[n := name], order + [n];
    forall k: nat | k <= |order|
      ensures UsedBefore(names', order', k) == UsedBefore(names, order, k)
    {
      UsedSame(names, names', order, order', k);
    }
    UsedMore(names', order', |order|);
  }

  /** Names of nodes that had no valid one differ from all names given before. */
  lemma GeneratedIsNew(given: map<GraphNode, string>, names: map<GraphNode, string>, order: seq<GraphNode>,
                       i: nat, j: nat)
    requires NamedInOrder(given, names, order) && i < j < |order| && !ValidName(given[order[j]])
    ensures names[order[i]] != names[order[j]]
  {
    hide ValidName;
    assert names[order[i]] in UsedBefore(names, order, j);
  }

  /** Two nodes without a valid name never get the same. */
  lemma GeneratedApart(given: map<GraphNode, string>, names: map<GraphNode, string>, order: seq<GraphNode>,
                       m: GraphNode, n: GraphNode)
    requires NamedInOrder(given, names, order) && m in order && n in order && m != n
    requires !ValidName(given[m]) && !ValidName(given[n])
    ensures names[m] != names[n]
  {
    hide ValidName, IsFirstUnused, UsedBefore;
    var i :| 0 <= i < |order| && order[i] == m;
    var j :| 0 <= j < |order| && order[j] == n;
    if i < j {
      GeneratedIsNew(given, names, order, i, j);
    } else {
      GeneratedIsNew(given, names, order, j, i);
    }
  }

  ghost predicate NamesApart(s: seq<GraphNode>, names: map<GraphNode, string>)
    requires forall n :: n in s ==> n in names
  {
    forall m, n :: m in s && n in s && m != n ==> names[m] != names[n]
  }

  // What the names are, from the given ones and the order of the visits alone

  /** The least number from i on that completes the class name to an unused one; a name tried
      is not tried again. */
  function FirstIndex(className: string, used: set<string>, i: nat): nat
    decreases |used|
  {
    var name := className + Decimal(i);
    if name in used then FirstIndex(className, used - {name}, i + 1) else i
  }

  function FirstUnused(className: string, used: set<string>): string {
    className + Decimal(FirstIndex(className, used, 1))
  }

  lemma {:induction false} FirstIndexIsLeast(className: string, used: set<string>, i: nat)
    ensures var j := FirstIndex(className, used, i);
            && i <= j && className + Decimal(j) !in used
            && forall k: nat :: i <= k < j ==> className + Decimal(k) in used
    decreases |used|
  {
    hide Decimal;
    var name := className + Decimal(i);
    if name in used {
      FirstIndexIsLeast(className, used - {name}, i + 1);
      var j := FirstIndex(className, used - {name}, i + 1);
      CompletionsDiffer(className, i, j);
    }
  }

  lemma CompletionsDiffer(className: string, i: nat, j: nat)
    requires i != j
    ensures className + Decimal(i) != className + Decimal(j)
  {
    hide Decimal;
    var a, b := className + Decimal(i), className + Decimal(j);
    if a == b {
      assert a[|className|..] == Decimal(i) && b[|className|..] == Decimal(j);
      DecimalInjective(i, j);
    }
  }

  /** There is exactly one first unused name. */
  lemma FirstUnusedIsIt(className: string, used: set<string>, name: string)
    requires IsFirstUnused(className, used, name)
    ensures name == FirstUnused(className, used)
  {
    hide Decimal;
    var i: nat :| i >= 1 && name == className + Decimal(i) && AllUsed(className, used, i);
    FirstIndexIsLeast(className, used, 1);
    var j := FirstIndex(className, used, 1);
    assert i < j ==> className + Decimal(i) in used;
  }

  /** The names of the nodes in the order of their first visits. */
  function NamesFrom(given: map<GraphNode, string>, order: seq<GraphNode>): (r: seq<string>)
    requires Known(given, order)
    ensures |r| == |order|
  {
    if order == [] then []
    else
      var n := order[|order| - 1];
      var before := NamesFrom(given, order[..|order| - 1]);
      before + [if ValidName(given[n]) then given[n] else FirstUnused(n.className, set name | name in before)]
  }

  predicate Known(given: map<GraphNode, string>, order: seq<GraphNode>) {
    forall k :: 0 <= k < |order| ==> order[k] in given
  }

  lemma {:induction false} NamesFromPrefix(given: map<GraphNode, string>, names: map<GraphNode, string>,
                                           order: seq<GraphNode>, k: nat)
    requires NamedInOrder(given, names, order) && k <= |order|
    ensures Known(given, order[..k])
    ensures forall i :: 0 <= i < k ==> NamesFrom(given, order[..k])[i] == names[order[i]]
    decreases k
  {
    hide ValidName, IsFirstUnused, FirstUnused;
    if k > 0 {
      var n, last: nat := order[k - 1], k - 1;
      NamesFromPrefix(given, names, order, last);
      assert order[..k][..last] == order[..last] && order[..k][last] == n;
      var before := NamesFrom(given, order[..last]);
      var used := set name | name in before;
      SameUsed(names, order, last, before, used);
      if !ValidName(given[n]) {
        FirstUnusedIsIt(n.className, used, names[n]);
      }
    }
  }

  lemma SameUsed(names: map<GraphNode, string>, order: seq<GraphNode>, k: nat, before: seq<string>, used: set<string>)
    requires k <= |order| && (forall n :: n in order ==> n in names) && |before| == k
    requires (forall i :: 0 <= i < k ==> before[i] == names[order[i]]) && used == set name | name in before
    ensures used == UsedBefore(names, order, k)
  {
    forall name | name in used
      ensures name in UsedBefore(names, order, k)
    {
      var i :| 0 <= i < |before| && before[i] == name;
    }
    forall name | name in UsedBefore(names, order, k)
      ensures name in used
    {
      var i :| 0 <= i < k && names[order[i]] == name;
      assert before[i] == name;
    }
  }

  /** The given names and the order of the visits determine all names. */
  lemma NamesDetermined(given: map<GraphNode, string>, names: map<GraphNode, string>, order: seq<GraphNode>)
    requires NamedInOrder(given, names, order)
    ensures Known(given, order)
    ensures forall k :: 0 <= k < |order| ==> names[order[k]] == NamesFrom(given, order)[k]
    ensures forall n :: n in names && n !in order ==> names[n] == given[n]
  {
    NamesFromPrefix(given, names, order, |order|);
    assert order[..|order|] == order;
  }

  /** A later node was given the name that an earlier one gets, by its constructor or generated. */
  ghost predicate TakenBefore(given: map<GraphNode, string>, order: seq<GraphNode>, i: nat, j: nat)
    requires Known(given, order)
  {
    i < j < |order| && ValidName(given[order[j]]) && given[order[j]] == NamesFrom(given, order)[i]
  }

  ghost predicate NothingTaken(given: map<GraphNode, string>, order: seq<GraphNode>)
    requires Known(given, order)
  {
    !exists i: nat, j: nat :: TakenBefore(given, order, i, j)
  }

  /** Names clash exactly if a later node was given the name that an earlier one gets. */
  lemma ClashExactly(given: map<GraphNode, string>, names: map<GraphNode, string>, order: seq<GraphNode>)
    requires NamedInOrder(given, names, order)
    ensures Known(given, order)
    ensures NamesApart(order, names) <==> NothingTaken(given, order)
  {
    hide ValidName, IsFirstUnused, UsedBefore, NamesFrom;
    NamesDetermined(given, names, order);
    if i: nat, j: nat :| TakenBefore(given, order, i, j) {
      assert order[i] in order && order[j] in order;
    } else {
      forall m, n | m in order && n in order && m != n
        ensures names[m] != names[n]
      {
        ApartOf(given, names, order, m, n);
      }
    }
  }

  lemma ApartOf(given: map<GraphNode, string>, names: map<GraphNode, string>, order: seq<GraphNode>,
                m: GraphNode, n: GraphNode)
    requires NamedInOrder(given, names, order) && Known(given, order) && NothingTaken(given, order)
    requires m in order && n in order && m != n
    ensures names[m] != names[n]
  {
    hide ValidName, IsFirstUnused, UsedBefore, TakenBefore;
    var i :| 0 <= i < |order| && order[i] == m;
    var j :| 0 <= j < |order| && order[j] == n;
    if i < j {
      ApartAt(given, names, order, i, j);
    } else {
      ApartAt(given, names, order, j, i);
    }
  }

  lemma ApartAt(given: map<GraphNode, string>, names: map<GraphNode, string>, order: seq<GraphNode>,
                i: nat, j: nat)
    requires NamedInOrder(given, names, order) && Known(given, order) && i < j < |order|
    requires !TakenBefore(given, order, i, j)
    ensures names[order[i]] != names[order[j]]
  {
    hide IsFirstUnused, NamesFrom;
    NamesDetermined(given, names, order);
    if !ValidName(given[order[j]]) {
      GeneratedIsNew(given, names, order, i, j);
    }
  }

  /** The given names that are valid differ from each other and from all that can be generated. */
  ghost predicate GivenApart(given: map<GraphNode, string>, order: seq<GraphNode>)
    requires forall n :: n in order ==> n in given
  {
    && (forall m, n :: m in order && n in order && m != n && ValidName(given[m]) ==> given[m] != given[n])
    && (forall m, n, i: nat :: m in order && n in order && ValidName(given[m]) && !ValidName(given[n]) && i >= 1 ==>
          given[m] != n.className + Decimal(i))
  }

  /** Then no names clash. */
  lemma GivenApartSuffices(given: map<GraphNode, string>, names: map<GraphNode, string>,
                           order: seq<GraphNode>)
    requires NamedInOrder(given, names, order) && GivenApart(given, order)
    ensures NamesApart(order, names)
  {
    hide ValidName, Decimal, NamesFrom;
    ClashExactly(given, names, order);
    NamesDetermined(given, names, order);
    forall i, j | 0 <= i < j < |order|
      ensures !TakenBefore(given, order, i, j)
    {
      var m, n := order[i], order[j];
      assert m in order && n in order && m != n;
      if !ValidName(given[m]) {
        var k: nat :| k >= 1 && names[m] == m.className + Decimal(k);
      }
    }
  }

  /** The two deduplication sets, the forward list of the target being compiled, and the
      names and gradient flags of all nodes. */
  class Walk {
    var dedupNode: set<GraphNode>
    var dedupName: set<string>
    var forward: seq<GraphNode>
    var forwardName: seq<string>
    var names: map<GraphNode, string>
    var grads: set<GraphNode>
    ghost var order: seq<GraphNode>

    constructor (names: map<GraphNode, string>, grads: set<GraphNode>)
      ensures dedupNode == {} && dedupName == {} && forward == [] && forwardName == []
      ensures this.names == names && this.grads == grads && order == []
    {
      dedupNode, dedupName, forward, forwardName := {}, {}, [], [];
      this.names, this.grads, order := names, grads, [];
    }

    ghost predicate Valid(nodes: set<GraphNode>, seeds: set<GraphNode>)
      requires Dag(nodes)
      reads this
    {
      && names.Keys == nodes
      && Listed(nodes, dedupNode, names, forward, forwardName)
      && Flagged(nodes, seeds, dedupNode, grads)
      && Seen(dedupNode, order)
    }

    /** The names are those that checking the nodes in the order of their first visits gives. */
    ghost predicate Naming(given: map<GraphNode, string>)
      reads this
    {
      NamingOk(given, names, dedupName, order)
    }

    /** A node without a valid name gets its class name and the least number not yet in use. */
    method CheckName(node: GraphNode, ghost given: map<GraphNode, string>)
      requires node in names && Naming(given) && ValidName(node.className)
      modifies this`dedupName, this`names, this`order
      ensures Naming(given)
      ensures order == if node in old(order) then old(order) else old(order) + [node]
      ensures Renamed(old(names), names)
      ensures names == old(names)[node := names[node]]
      ensures ValidName(node.className) ==> ValidName(names[node])
      ensures !ValidName(old(names)[node]) ==>
                IsFirstUnused(node.className, old(dedupName), names[node])
      ensures dedupName == old(dedupName) + {names[node]}
    {
      hide Decimal, ValidName, IsFirstUnused, NamingOk;
      if node in order {
        NamingKnown(given, names, dedupName, order, node);
      } else {
        NamingUnknown(given, names, dedupName, order, node);
      }
      var name;
      if ValidName(names[node]) {
        name := names[node];
      } else {
        name := GeneratedName(node.className, dedupName);
      }
      if node !in order {
        NamingMore(given, names, dedupName, order, node, name);
        order := order + [node];
      }
      assert names[node] == name ==> names[node := name] == names;
      names := names[node := name];
      dedupName := dedupName + {name};
    }

    /** `open` holds the nodes whose inputs are being walked. */
    method CompileTarget(node: GraphNode, ghost nodes: set<GraphNode>, ghost seeds: set<GraphNode>,
                         ghost given: map<GraphNode, string>, ghost open: set<GraphNode>)
      requires Dag(nodes) && node in nodes && Valid(nodes, seeds)
      requires Naming(given) && ClosedBut(order, open + {node}) && Above(open, node)
      modifies this
      ensures Valid(nodes, seeds)
      ensures Naming(given) && ClosedBut(order, open)
      ensures order == Walked(nodes, old(order), node)
      ensures dedupNode == old(dedupNode) + Reach(nodes, node)
      ensures old(forward) <= forward && old(grads) <= grads
      ensures Renamed(old(names), names) && ValidName(names[node])
      decreases node.rank, 1
    {
      hide ValidName, Listed, Flagged, Tainted, Reach, ReachOfAll, Spread, Dag, Renamed, NamingOk, ClosedBut, Visit,
           VisitInputs, Above, Walked, Seen;
      InDag(nodes, node);
      VisitStart(nodes, order, open, node);
      CheckName(node, given);
      SeenMore(dedupNode, old(order), order);
      ListedRenamed(nodes, dedupNode, old(names), names, forward, forwardName);

      if node in dedupNode {
        ListedClosed(nodes, dedupNode, names, forward, forwardName, node);
        WalkedDone(nodes, dedupNode, old(order), open, node);
        return;
      }

      ghost var checked, visited := names, order;
      WalkInputs(node, nodes, seeds, given, open);
      RenamedTwice(old(names), checked, names, node);
      ReachIsInputs(nodes, node);
      Append(node, nodes, seeds, given, open, old(order));
    }

    /** The inputs of a node, one after the other. */
    method WalkInputs(node: GraphNode, ghost nodes: set<GraphNode>, ghost seeds: set<GraphNode>,
                      ghost given: map<GraphNode, string>, ghost open: set<GraphNode>)
      requires Dag(nodes) && node in nodes && Valid(nodes, seeds) && Naming(given)
      requires ClosedBut(order, open + {node}) && Above(open, node)
      requires node !in dedupNode && ValidName(names[node])
      modifies this
      ensures Valid(nodes, seeds) && Naming(given) && ClosedBut(order, open + {node})
      ensures order == VisitInputs(nodes, old(order), node, |node.input|)
      ensures dedupNode == old(dedupNode) + ReachOfAll(nodes, node.input) && node !in dedupNode
      ensures old(forward) <= forward && old(grads) <= grads
      ensures Renamed(old(names), names) && ValidName(names[node])
      ensures Spread(nodes, seeds, node.input, grads, node)
      decreases node.rank, 0
    {
      hide ValidName, Listed, Flagged, Tainted, Reach, ReachOfAll, Spread, Dag, Renamed, NamingOk, ClosedBut, Visit,
           VisitInputs, Above, Walked, Seen;
      VisitNone(nodes, order, node);
      RenamedNot(names);
      NothingSpread(nodes, seeds, grads, node);
      ghost var visited := order;
      for i := 0 to |node.input|
        invariant Valid(nodes, seeds)
        invariant Naming(given) && ClosedBut(order, open + {node})
        invariant order == VisitInputs(nodes, visited, node, i) && visited <= order
        invariant dedupNode == old(dedupNode) + ReachOfAll(nodes, node.input[..i])
        invariant old(forward) <= forward && old(grads) <= grads
        invariant Renamed(old(names), names) && ValidName(names[node])
        invariant Spread(nodes, seeds, node.input[..i], grads, node)
      {
        var x := node.input[i];
        InputInDag(nodes, node, x);
        ghost var before := names;
        ghost var flags := grads;
        VisitNext(nodes, visited, node, i);
        AboveInput(nodes, open, node, x);
        WalkedIsVisit(nodes, order, open + {node}, x);
        ghost var listed, walked := forward, order;
        CompileTarget(x, nodes, seeds, given, open + {node});
        PrefixChain(old(forward), listed, forward);
        PrefixChain(visited, walked, order);
        RenamedTwice(old(names), before, names, node);
        SpreadGrows(nodes, seeds, node.input[..i], flags, grads, node);
        ReachJoined(nodes, old(dedupNode), node.input[..i], x);
        NotAmongInputs(nodes, node, i + 1);
        SpreadFlag(x, node, nodes, seeds, node.input[..i]);
      }
      assert node.input[..|node.input|] == node.input;
      NotAmongInputs(nodes, node, |node.input|);
    }

    /** A node needs a gradient if one of its inputs does. */
    method SpreadFlag(x: GraphNode, node: GraphNode, ghost nodes: set<GraphNode>, ghost seeds: set<GraphNode>,
                      ghost ns: seq<GraphNode>)
      requires Dag(nodes) && Valid(nodes, seeds) && node in nodes && x in node.input
      requires x in dedupNode && node !in dedupNode && Spread(nodes, seeds, ns, grads, node)
      modifies this`grads
      ensures Valid(nodes, seeds) && Spread(nodes, seeds, ns + [x], grads, node)
      ensures grads == old(grads) + if x in old(grads) then {node} else {}
    {
      hide Dag, Listed, Flagged, Spread, Seen;
      FlagSpread(nodes, seeds, dedupNode, grads, ns, x, node);
      if x in grads {
        grads := grads + {node};
      }
    }

    /** A node whose inputs have been walked joins the forward list. */
    method Append(node: GraphNode, ghost nodes: set<GraphNode>, ghost seeds: set<GraphNode>,
                  ghost given: map<GraphNode, string>, ghost open: set<GraphNode>, ghost seen: seq<GraphNode>)
      requires Dag(nodes) && node in nodes && Valid(nodes, seeds) && Spread(nodes, seeds, node.input, grads, node)
      requires node !in dedupNode && ValidName(names[node]) && forall x :: x in node.input ==> x in dedupNode
      requires Naming(given) && ClosedBut(order, open + {node}) && order == Walked(nodes, seen, node)
      modifies this`dedupNode, this`forward, this`forwardName
      ensures Valid(nodes, seeds) && Naming(given) && ClosedBut(order, open)
      ensures dedupNode == old(dedupNode) + {node} && forward == old(forward) + [node]
    {
      hide ValidName, Listed, Flagged, Tainted, Reach, Spread, Dag, NamingOk, ClosedBut, Walked, Seen;
      VisitEnd(nodes, dedupNode, seen, open, node);
      FlagsFinal(nodes, seeds, dedupNode, grads, node);
      ListedAppend(nodes, dedupNode, names, forward, forwardName, node);
      dedupNode := dedupNode + {node};
      forward := forward + [node];
      forwardName := forwardName + [names[node]];
    }

    /** One target: a fresh forward list; names are kept apart from those of earlier targets. */
    method CompileRoot(node: GraphNode, ghost nodes: set<GraphNode>, ghost seeds: set<GraphNode>,
                       ghost given: map<GraphNode, string>)
      returns (t: GraphTarget)
      requires Dag(nodes) && node in nodes && names.Keys == nodes && Flagged(nodes, seeds, {}, grads)
      requires Naming(given) && ClosedBut(order, {})
      modifies this
      ensures Naming(given) && ClosedBut(order, {})
      ensures order == Visit(nodes, old(order), node)
      ensures Seen(dedupNode, order)
      ensures t.node == node && names.Keys == nodes && TargetOk(nodes, names, t)
      ensures dedupNode == Reach(nodes, node)
      ensures Flagged(nodes, seeds, dedupNode, grads)
      ensures old(grads) <= grads && Renamed(old(names), names)
    {
      hide ValidName, Listed, Flagged, Tainted, Reach, Dag, Renamed, TargetOk, NamingOk, ClosedBut, Visit;
      dedupNode, forward, forwardName := {}, [], [];
      NothingListed(nodes, names);
      InDag(nodes, node);
      WalkedAgain(nodes, order, {}, node);
      CheckName(node, given);
      ListedRenamed(nodes, {}, old(names), names, [], []);
      RenamedKeys(old(names), names);
      ghost var checked := names;
      CompileTarget(node, nodes, seeds, given, {});
      RenamedTwice(old(names), checked, names, node);
      RenamedKeys(checked, names);
      t := GraphTarget(node, names[node], forward, forwardName);
      TargetListed(nodes, names, t);
    }
  }

  /** The nodes being walked are not among the inputs. */
  ghost predicate Above(open: set<GraphNode>, n: GraphNode) {
    forall o :: o in open ==> o.rank > n.rank
  }

  lemma AboveInput(nodes: set<GraphNode>, open: set<GraphNode>, n: GraphNode, x: GraphNode)
    requires Dag(nodes) && n in nodes && Above(open, n) && x in n.input
    ensures Above(open + {n}, x) && x !in open + {n}
  {
  }

  lemma InDag(nodes: set<GraphNode>, n: GraphNode)
    requires Dag(nodes) && n in nodes
    ensures ValidName(n.className)
  {
  }

  lemma InputInDag(nodes: set<GraphNode>, n: GraphNode, x: GraphNode)
    requires Dag(nodes) && n in nodes && x in n.input
    ensures x in nodes && x.rank < n.rank
  {
  }

  lemma RenamedTwice(a: map<GraphNode, string>, b: map<GraphNode, string>, c: map<GraphNode, string>,
                     n: GraphNode)
    requires Renamed(a, b) && Renamed(b, c) && n in b && ValidName(b[n])
    ensures Renamed(a, c) && n in c && ValidName(c[n])
  {
    hide ValidName;
  }

  lemma ListedClosed(nodes: set<GraphNode>, done: set<GraphNode>, names: map<GraphNode, string>,
                     forward: seq<GraphNode>, forwardName: seq<string>, n: GraphNode)
    requires Dag(nodes) && Listed(nodes, done, names, forward, forwardName) && n in done
    ensures Reach(nodes, n) <= done && ValidName(names[n])
  {
    hide ValidName;
    forall d, x | d in done && x in d.input
      ensures x in done
    {
      var k :| 0 <= k < |forward| && forward[k] == d;
      assert x in forward[..k];
    }
    ClosedReach(nodes, done, n);
    var k :| 0 <= k < |forward| && forward[k] == n;
  }

  ghost function ReachOfAll(nodes: set<GraphNode>, ns: seq<GraphNode>): set<GraphNode>
    requires Dag(nodes)
  {
    set x, y | x in ns && x in nodes && y in Reach(nodes, x) :: y
  }

  lemma ReachOfOneMore(nodes: set<GraphNode>, ns: seq<GraphNode>, x: GraphNode)
    requires Dag(nodes) && x in nodes
    ensures ReachOfAll(nodes, ns + [x]) == ReachOfAll(nodes, ns) + Reach(nodes, x)
  {
  }

  lemma ReachJoined(nodes: set<GraphNode>, done: set<GraphNode>, ns: seq<GraphNode>, x: GraphNode)
    requires Dag(nodes) && x in nodes
    ensures done + ReachOfAll(nodes, ns + [x]) == done + ReachOfAll(nodes, ns) + Reach(nodes, x)
    ensures x in Reach(nodes, x)
  {
    hide Reach;
    ReachOfOneMore(nodes, ns, x);
  }

  lemma PrefixChain(a: seq<GraphNode>, b: seq<GraphNode>, c: seq<GraphNode>)
    ensures a <= b && b <= c ==> a <= c
  {
  }

  lemma ReachIsInputs(nodes: set<GraphNode>, n: GraphNode)
    requires Dag(nodes) && n in nodes
    ensures forall x :: x in n.input ==> x in nodes && x in ReachOfAll(nodes, n.input)
    ensures ReachOfAll(nodes, n.input) + {n} == Reach(nodes, n)
  {
    forall x | x in n.input
      ensures x in nodes && x in ReachOfAll(nodes, n.input)
    {
      assert x in Reach(nodes, x);
    }
  }

  lemma NotAmongInputs(nodes: set<GraphNode>, n: GraphNode, i: nat)
    requires Dag(nodes) && n in nodes && i <= |n.input|
    ensures n !in ReachOfAll(nodes, n.input[..i])
  {
    forall x | x in n.input
      ensures n !in Reach(nodes, x)
    {
      RankedApart(nodes, x, n);
    }
  }

  /** The flag has spread from the inputs walked so far. */
  ghost predicate Spread(nodes: set<GraphNode>, seeds: set<GraphNode>, ns: seq<GraphNode>,
                         grads: set<GraphNode>, n: GraphNode)
    requires Dag(nodes)
  {
    forall x :: x in ns && x in nodes && Tainted(nodes, seeds, x) ==> n in grads
  }

  lemma NothingSpread(nodes: set<GraphNode>, seeds: set<GraphNode>, grads: set<GraphNode>, n: GraphNode)
    requires Dag(nodes)
    ensures Spread(nodes, seeds, n.input[..0], grads, n)
    ensures ReachOfAll(nodes, n.input[..0]) == {}
  {
  }

  lemma SpreadGrows(nodes: set<GraphNode>, seeds: set<GraphNode>, ns: seq<GraphNode>,
                    grads: set<GraphNode>, grads': set<GraphNode>, n: GraphNode)
    requires Dag(nodes) && Spread(nodes, seeds, ns, grads, n) && grads <= grads'
    ensures Spread(nodes, seeds, ns, grads', n)
  {
  }

  lemma FlagSpread(nodes: set<GraphNode>, seeds: set<GraphNode>, done: set<GraphNode>,
                   grads: set<GraphNode>, ns: seq<GraphNode>, x: GraphNode, n: GraphNode)
    requires Dag(nodes) && n in nodes && x in n.input && x in done && n !in done
    requires Flagged(nodes, seeds, done, grads) && Spread(nodes, seeds, ns, grads, n)
    ensures x in grads ==> Flagged(nodes, seeds, done, grads + {n})
    ensures Spread(nodes, seeds, ns + [x], if x in grads then grads + {n} else grads, n)
  {
    hide Tainted, Reach;
    InputInDag(nodes, n, x);
    assert Tainted(nodes, seeds, x) <==> x in grads;
    if x in grads {
      TaintedByInput(nodes, seeds, n);
    }
  }

  lemma FlagsFinal(nodes: set<GraphNode>, seeds: set<GraphNode>, done: set<GraphNode>,
                   grads: set<GraphNode>, n: GraphNode)
    requires Dag(nodes) && n in nodes && Flagged(nodes, seeds, done, grads)
    requires Spread(nodes, seeds, n.input, grads, n)
    ensures Flagged(nodes, seeds, done + {n}, grads)
  {
    hide Tainted, Reach;
    TaintedByInput(nodes, seeds, n);
  }

  /** A node is not among what its inputs are computed from. */
  lemma {:induction false} RankedApart(nodes: set<GraphNode>, x: GraphNode, n: GraphNode)
    requires Dag(nodes) && x in nodes && x.rank < n.rank
    ensures n !in Reach(nodes, x)
    decreases x.rank
  {
    forall z | z in x.input
      ensures n !in Reach(nodes, z)
    {
      RankedApart(nodes, z, n);
    }
  }

  // ---------------------------------------------------------------------------------------
  // Compiling
  // ---------------------------------------------------------------------------------------

  lemma TargetRenamed(nodes: set<GraphNode>, names: map<GraphNode, string>,
                      names': map<GraphNode, string>, t: GraphTarget)
    requires Dag(nodes) && TargetOk(nodes, names, t) && Renamed(names, names')
    ensures TargetOk(nodes, names', t)
  {
    hide ValidName;
    ListedRenamed(nodes, Reach(nodes, t.node), names, names', t.forward, t.forwardName);
  }

  /** The targets compiled so far. */
  ghost predicate TargetsOk(nodes: set<GraphNode>, names: map<GraphNode, string>, targets: seq<GraphTarget>,
                            targetNodes: seq<GraphNode>)
    requires Dag(nodes)
  {
    && |targets| <= |targetNodes|
    && forall k :: 0 <= k < |targets| ==> targets[k].node == targetNodes[k] && TargetOk(nodes, names, targets[k])
  }

  lemma NoTargets(nodes: set<GraphNode>, names: map<GraphNode, string>, targetNodes: seq<GraphNode>)
    requires Dag(nodes)
    ensures TargetsOk(nodes, names, [], targetNodes)
  {
  }

  lemma TargetsMore(nodes: set<GraphNode>, names: map<GraphNode, string>, names': map<GraphNode, string>,
                    targets: seq<GraphTarget>, targetNodes: seq<GraphNode>, t: GraphTarget)
    requires Dag(nodes) && TargetsOk(nodes, names, targets, targetNodes) && Renamed(names, names')
    requires |targets| < |targetNodes| && t.node == targetNodes[|targets|] && TargetOk(nodes, names', t)
    ensures TargetsOk(nodes, names', targets + [t], targetNodes)
  {
    hide TargetOk, Renamed;
    forall k | 0 <= k < |targets|
      ensures TargetOk(nodes, names', targets[k])
    {
      TargetRenamed(nodes, names, names', targets[k]);
    }
  }

  lemma TargetsMean(nodes: set<GraphNode>, names: map<GraphNode, string>, targets: seq<GraphTarget>,
                    targetNodes: seq<GraphNode>)
    requires Dag(nodes) && TargetsOk(nodes, names, targets, targetNodes)
    ensures |targets| <= |targetNodes|
    ensures forall k :: 0 <= k < |targets| ==> targets[k].node == targetNodes[k] && TargetOk(nodes, names, targets[k])
  {
  }

  lemma FlagsJoined(nodes: set<GraphNode>, seeds: set<GraphNode>, a: set<GraphNode>, b: set<GraphNode>,
                    grads: set<GraphNode>, grads': set<GraphNode>)
    requires Dag(nodes) && grads <= grads'
    requires Flagged(nodes, seeds, a, grads) && Flagged(nodes, seeds, b, grads')
    ensures Flagged(nodes, seeds, a + b, grads')
  {
    hide Tainted, Reach;
  }

  lemma NothingListed(nodes: set<GraphNode>, names: map<GraphNode, string>)
    ensures Listed(nodes, {}, names, [], [])
  {
    assert Elems<GraphNode>([]) == {};
  }

  /** The names of the nodes, from the last to the first in the order of strings. */
  ghost predicate Descending(s: seq<GraphNode>, names: map<GraphNode, string>)
    requires forall n :: n in s ==> n in names
  {
    forall i, j :: 0 <= i < j < |s| ==> !Less(names[s[i]], names[s[j]])
  }

  /** Inserts a node behind all nodes whose names are not less. */
  method Insert(s: seq<GraphNode>, x: GraphNode, names: map<GraphNode, string>)
    returns (r: seq<GraphNode>)
    requires x in names && x !in s && NoDup(s) && forall n :: n in s ==> n in names
    requires Descending(s, names)
    ensures forall n :: n in r <==> n in s || n == x
    ensures NoDup(r) && |r| == |s| + 1 && Descending(r, names)
  {
    hide NoDup, Descending, Less;
    var p := 0;
    while p < |s| && !Less(names[s[p]], names[x])
      invariant 0 <= p <= |s|
      invariant forall i :: 0 <= i < p ==> !Less(names[s[i]], names[x])
    {
      p := p + 1;
    }
    InsertedOnce(s, x, p);
    InsertedDescending(s, x, p, names);
    r := s[..p] + [x] + s[p..];
  }

  lemma InsertedOnce(s: seq<GraphNode>, x: GraphNode, p: nat)
    requires p <= |s| && x !in s && NoDup(s)
    ensures var r := s[..p] + [x] + s[p..];
            NoDup(r) && |r| == |s| + 1 && forall n :: n in r <==> n in s || n == x
  {
    assert s == s[..p] + s[p..];
  }

  lemma InsertedDescending(s: seq<GraphNode>, x: GraphNode, p: nat, names: map<GraphNode, string>)
    requires x in names && (forall n :: n in s ==> n in names) && Descending(s, names)
    requires p <= |s| && forall i :: 0 <= i < p ==> !Less(names[s[i]], names[x])
    requires p < |s| ==> Less(names[s[p]], names[x])
    ensures var r := s[..p] + [x] + s[p..];
            (forall n :: n in r ==> n in names) && Descending(r, names)
  {
    hide Less;
    forall j | p <= j < |s|
      ensures !Less(names[x], names[s[j]])
    {
      LessTotal(names[s[p]], names[s[p]]);
      NotLessAfter(names[s[p]], names[x], names[s[j]]);
    }
  }

  /** Stands for the library's sort of the collected nodes by descending name. */
  method SortByName(all: set<GraphNode>, names: map<GraphNode, string>) returns (r: seq<GraphNode>)
    requires all <= names.Keys
    ensures NoDup(r) && |r| == |all| && forall n :: n in r <==> n in all
    ensures Descending(r, names)
  {
    r := [];
    var left := all;
    while left != {}
      invariant left <= all && NoDup(r) && |r| + |left| == |all|
      invariant forall n :: n in r <==> n in all && n !in left
      invariant Descending(r, names)
      decreases |left|
    {
      var x :| x in left;
      r := Insert(r, x, names);
      left := left - {x};
    }
  }

  ghost predicate DistinctNames(all: set<GraphNode>, names: map<GraphNode, string>)
    requires all <= names.Keys
  {
    forall m, n :: m in all && n in all && m != n ==> names[m] != names[n]
  }

  function Given(nodes: set<GraphNode>): map<GraphNode, string> {
    map n | n in nodes :: n.givenName
  }

  function Seeds(nodes: set<GraphNode>): set<GraphNode> {
    set n | n in nodes && n.initialGrad
  }

  const MAX_UINT16: nat := 65535

  /** The ids are the positions in the descending order of the names: as many nodes have smaller
      ids as have names that come later. */
  ghost predicate Numbered(all: set<GraphNode>, names: map<GraphNode, string>,
                           ids: map<GraphNode, int>)
    requires all <= names.Keys
  {
    && ids.Keys == all
    && (forall n :: n in all ==> 0 <= ids[n] < |all|)
    && (forall m, n :: m in all && n in all ==>
          (ids[m] < ids[n] <==> Precedes(names[n], names[m])))
    && (forall m, n :: m in all && n in all && m != n ==> ids[m] != ids[n])
    && (forall n :: n in all ==> ids[n] == |set m | m in all && Precedes(names[n], names[m])|)
  }

  class Graph {
    var compiled: bool
    var target: seq<GraphTarget>
    var name2node: map<string, GraphNode>
    var names: map<GraphNode, string>
    var grads: set<GraphNode>
    var ids: map<GraphNode, int>

    constructor ()
      ensures !compiled && target == [] && name2node == map[] && names == map[] && grads == {} && ids == map[]
    {
      compiled := false;
      target, name2node, names, grads, ids := [], map[], map[], {}, map[];
    }

    /** The targets one after the other; node names are kept apart over all of them. */
    method CompileTargets(targetNodes: seq<GraphNode>, nodes: set<GraphNode>, ghost seeds: set<GraphNode>)
      returns (all: set<GraphNode>)
      requires Dag(nodes) && forall t :: t in targetNodes ==> t in nodes
      requires names.Keys == nodes && Flagged(nodes, seeds, {}, grads)
      modifies this`target, this`names, this`grads
      ensures all == ReachOfAll(nodes, targetNodes) && all <= nodes
      ensures |target| == |targetNodes|
      ensures forall k :: 0 <= k < |target| ==>
                target[k].node == targetNodes[k] && TargetOk(nodes, names, target[k])
      ensures Renamed(old(names), names)
      ensures Flagged(nodes, seeds, all, grads)
      ensures NamedInOrder(old(names), names, VisitAll(nodes, targetNodes))
      ensures Elems(VisitAll(nodes, targetNodes)) == all
    {
      hide ValidName, Listed, Flagged, Tainted, Reach, ReachOfAll, Dag, TargetOk, Renamed, NamingOk, ClosedBut, Visit,
           NamedInOrder, Seen, Elems, TargetsOk;
      var walk := new Walk(names, grads);
      target := [];
      all := {};
      ReachOfNone(nodes);
      RenamedNot(names);
      NamingStart(names);
      NothingOpen(nodes);
      NoTargets(nodes, names, targetNodes);
      for i := 0 to |targetNodes|
        invariant fresh(walk) && walk.names == names && walk.grads == grads && names.Keys == nodes
        invariant all == ReachOfAll(nodes, targetNodes[..i]) && all <= nodes
        invariant |target| == i
        invariant TargetsOk(nodes, names, target, targetNodes)
        invariant Renamed(old(names), names)
        invariant Flagged(nodes, seeds, all, grads)
        invariant walk.Naming(old(names)) && ClosedBut(walk.order, {})
        invariant forall t :: t in targetNodes[..i] ==> t in nodes
        invariant walk.order == VisitAll(nodes, targetNodes[..i])
        invariant Seen(all, walk.order)
      {
        var node := targetNodes[i];
        FlagsOfNone(nodes, seeds, all, grads);
        ghost var seen := walk.order;
        var t := walk.CompileRoot(node, nodes, seeds, old(names));
        TargetsMore(nodes, names, walk.names, target, targetNodes, t);
        RenamedChain(old(names), names, walk.names);
        FlagsJoined(nodes, seeds, all, walk.dedupNode, grads, walk.grads);
        ReachOfOneMore(nodes, targetNodes[..i], node);
        VisitAllMore(nodes, targetNodes, i);
        SeenTogether(all, walk.dedupNode, seen, walk.order);
        target := target + [t];
        names, grads := walk.names, walk.grads;
        all := all + walk.dedupNode;
      }
      assert targetNodes[..|targetNodes|] == targetNodes;
      TargetsMean(nodes, names, target, targetNodes);
      NamingInOrder(old(names), walk.names, walk.dedupName, walk.order);
      VisitAllReaches(nodes, targetNodes, all);
    }

    /** Fails on the first name met twice. */
    method MapNames(sorted: seq<GraphNode>) returns (ok: bool)
      requires NoDup(sorted) && forall n :: n in sorted ==> n in names
      modifies this`name2node
      ensures ok <==> NamesApart(sorted, names)
      ensures ok ==> forall n :: n in sorted ==> names[n] in name2node && name2node[names[n]] == n
      ensures forall name :: name in name2node ==> name2node[name] in sorted
    {
      name2node := map[];
      for i := 0 to |sorted|
        invariant NamesApart(sorted[..i], names)
        invariant forall n :: n in sorted[..i] ==> names[n] in name2node && name2node[names[n]] == n
        invariant forall name :: name in name2node ==>
                    name2node[name] in sorted[..i] && name2node[name] in names
                    && names[name2node[name]] == name
      {
        var node := sorted[i];
        assert sorted[..i + 1] == sorted[..i] + [node];
        if names[node] in name2node {
          assert name2node[names[node]] in sorted[..i] && node !in sorted[..i];
          return false;
        }
        name2node := name2node[names[node] := node];
      }
      assert sorted[..|sorted|] == sorted;
      return true;
    }

    /** Fails when the next id would no longer fit into 16 bits. */
    method AssignIds(sorted: seq<GraphNode>) returns (ok: bool)
      requires NoDup(sorted)
      modifies this`ids
      ensures ok <==> |sorted| <= 65535
      ensures ok ==> (forall n :: n in ids <==> n in sorted)
      ensures ok ==> forall k :: 0 <= k < |sorted| ==> ids[sorted[k]] == k
    {
      ids := map[];
      var nodeId := 0;
      for i := 0 to |sorted|
        invariant nodeId == i && i <= MAX_UINT16
        invariant forall n :: n in ids <==> n in sorted[..i]
        invariant forall k :: 0 <= k < i ==> ids[sorted[k]] == k
      {
        assert sorted[..i + 1] == sorted[..i] + [sorted[i]];
        ids := ids[sorted[i] := nodeId % 65536];
        nodeId := nodeId + 1;
        if nodeId > MAX_UINT16 {
          return false;
        }
      }
      assert sorted[..|sorted|] == sorted;
      return true;
    }

    /** Succeeds exactly when the nodes' names are distinct and there are at most 65535 of them. */
    method Compile(targetNodes: seq<GraphNode>, nodes: set<GraphNode>) returns (ok: bool)
      requires Dag(nodes) && forall t :: t in targetNodes ==> t in nodes
      modifies this
      ensures names.Keys == nodes && Renamed(Given(nodes), names)
      ensures NamedInOrder(Given(nodes), names, VisitAll(nodes, targetNodes))
      ensures |target| == |targetNodes|
      ensures forall k :: 0 <= k < |target| ==>
                target[k].node == targetNodes[k] && TargetOk(nodes, names, target[k])
      ensures var all := ReachOfAll(nodes, targetNodes);
              && all <= nodes && Elems(VisitAll(nodes, targetNodes)) == all
              && (forall n :: n in all ==> (n in grads <==> Tainted(nodes, Seeds(nodes), n)))
              && ok == compiled
              && (forall n :: n in all ==> (n in grads <==> exists m :: m in Reach(nodes, n) && m.initialGrad))
              && (ok <==> DistinctNames(all, names) && |all| <= 65535)
              && (ok ==> Numbered(all, names, ids))
              && (ok ==> forall n :: n in all ==> names[n] in name2node && name2node[names[n]] == n)
              && (ok ==> forall name :: name in name2node ==> name2node[name] in all)
      ensures Known(Given(nodes), VisitAll(nodes, targetNodes))
      ensures ok <==> |ReachOfAll(nodes, targetNodes)| <= 65535
                      && NothingTaken(Given(nodes), VisitAll(nodes, targetNodes))
      ensures (&& GivenApart(Given(nodes), VisitAll(nodes, targetNodes))
               && |ReachOfAll(nodes, targetNodes)| <= 65535) ==> ok
    {
      hide ValidName, Listed, Flagged, Tainted, Reach, ReachOfAll, Dag, TargetOk, Renamed;
      hide NoDup, Numbered, NamedInOrder, VisitAll, Elems, GivenApart, NothingTaken, Known, DistinctNames;
      compiled := false;
      names := Given(nodes);
      grads := Seeds(nodes);
      SeedsFlagged(nodes, grads);
      var all := CompileTargets(targetNodes, nodes, grads);
      RenamedKeys(Given(nodes), names);
      FlagsMean(nodes, Seeds(nodes), all, grads);
      SeedsMean(nodes);
      DistinctExactly(Given(nodes), names, VisitAll(nodes, targetNodes), all);
      ok := NumberNodes(all);
    }

    /** The second half of compiling, from the nodes collected. */
    method NumberNodes(all: set<GraphNode>) returns (ok: bool)
      requires !compiled && all <= names.Keys
      modifies this`name2node, this`ids, this`compiled
      ensures ok == compiled && (ok <==> DistinctNames(all, names) && |all| <= 65535)
      ensures ok ==> Numbered(all, names, ids)
      ensures ok ==> forall n :: n in all ==> names[n] in name2node && name2node[names[n]] == n
      ensures ok ==> forall name :: name in name2node ==> name2node[name] in all
    {
      hide NoDup, Descending, Numbered, Less, Precedes;
      var sorted := SortByName(all, names);
      var distinct := MapNames(sorted);
      if !distinct {
        return false;
      }
      var numbered := AssignIds(sorted);
      if !numbered {
        return false;
      }
      SortedIsNumbered(all, names, ids, sorted);
      compiled := true;
      return true;
    }
  }

  /** The names are distinct exactly if no node was given the name of a node visited before, and
      they are if the given names differ from each other and from all that can be generated. */
  lemma DistinctExactly(given: map<GraphNode, string>, names: map<GraphNode, string>, order: seq<GraphNode>,
                        all: set<GraphNode>)
    requires NamedInOrder(given, names, order) && Elems(order) == all
    ensures all <= names.Keys
    ensures Known(given, order)
    ensures DistinctNames(all, names) <==> NothingTaken(given, order)
    ensures GivenApart(given, order) ==> DistinctNames(all, names)
  {
    hide ValidName, IsFirstUnused, NothingTaken, GivenApart, Known;
    ClashExactly(given, names, order);
    assert NamesApart(order, names) <==> DistinctNames(all, names);
    if GivenApart(given, order) {
      GivenApartSuffices(given, names, order);
    }
  }

  /** A node without a name, visited first, takes the name that a later node was given: root r
      with the unnamed input a of class C and the input b named C1. */
  lemma LaterNameClashes(nodes: set<GraphNode>, names: map<GraphNode, string>,
                         r: GraphNode, a: GraphNode, b: GraphNode)
    requires nodes == {r, a, b} && a != b && r != a && r != b
    requires r.input == [a, b] && a.input == [] && b.input == [] && a.rank < r.rank && b.rank < r.rank
    requires r.className == "R" && a.className == "C" && b.className == "C"
    requires r.givenName == "R" && a.givenName == "" && b.givenName == "C1"
    requires Dag(nodes) && NamedInOrder(Given(nodes), names, VisitAll(nodes, [r]))
    ensures VisitAll(nodes, [r]) == [r, a, b]
    ensures names[a] == "C1" == names[b]
  {
    VisitedOrder(nodes, r, a, b);
    var order := [r, a, b];
    assert order[0] == r && order[1] == a && order[2] == b;
    assert Given(nodes)[b] == "C1" && ValidName("C1") && ValidName("R");
    assert names[r] == "R";
    assert UsedBefore(names, order, 1) == {"R"};
    var i: nat :| i >= 1 && names[a] == "C" + Decimal(i) && AllUsed("C", {"R"}, i);
    assert ("C" + Decimal(1))[0] == 'C' && "R"[0] == 'R';
    assert i == 1 && Decimal(1) == "1";
  }

  lemma VisitedOrder(nodes: set<GraphNode>, r: GraphNode, a: GraphNode, b: GraphNode)
    requires Dag(nodes) && nodes == {r, a, b} && a != b && r != a && r != b
    requires r.input == [a, b] && a.input == [] && b.input == []
    ensures VisitAll(nodes, [r]) == [r, a, b]
  {
    assert VisitInputs(nodes, [r], r, 0) == [r];
    assert VisitInputs(nodes, [r], r, 1) == Visit(nodes, [r], a) == [r, a];
    assert VisitInputs(nodes, [r], r, 2) == Visit(nodes, [r, a], b) == [r, a, b];
    assert [r][..0] == [];
    assert VisitAll(nodes, []) == [] && VisitAll(nodes, [r]) == Visit(nodes, [], r);
    assert [] + [r] == [r];
  }

  lemma NothingOpen(nodes: set<GraphNode>)
    requires Dag(nodes)
    ensures ClosedBut([], {}) && Seen({}, []) && VisitAll(nodes, []) == []
  {
  }

  lemma NamingInOrder(given: map<GraphNode, string>, names: map<GraphNode, string>, used: set<string>,
                      order: seq<GraphNode>)
    requires NamingOk(given, names, used, order)
    ensures NamedInOrder(given, names, order)
  {
  }

  lemma VisitAllMore(nodes: set<GraphNode>, ns: seq<GraphNode>, i: nat)
    requires Dag(nodes) && i < |ns| && forall n :: n in ns ==> n in nodes
    ensures forall n :: n in ns[..i + 1] ==> n in nodes
    ensures VisitAll(nodes, ns[..i + 1]) == Visit(nodes, VisitAll(nodes, ns[..i]), ns[i])
    ensures VisitAll(nodes, ns[..i]) <= VisitAll(nodes, ns[..i + 1])
    ensures ns[..i + 1] == ns[..i] + [ns[i]]
  {
    assert ns[..i + 1][..i] == ns[..i];
  }

  lemma {:induction false} VisitAllReach(nodes: set<GraphNode>, ns: seq<GraphNode>)
    requires Dag(nodes) && forall n :: n in ns ==> n in nodes
    ensures forall y :: y in VisitAll(nodes, ns) ==> y in ReachOfAll(nodes, ns)
    decreases |ns|
  {
    hide Reach, Visit, ReachOfAll;
    if ns != [] {
      var last := |ns| - 1;
      var rest := ns[..last];
      assert ns == rest + [ns[last]];
      VisitAllReach(nodes, rest);
      VisitReaches(nodes, VisitAll(nodes, rest), ns[last]);
      ReachOfOneMore(nodes, rest, ns[last]);
    }
  }

  lemma VisitAllReaches(nodes: set<GraphNode>, ns: seq<GraphNode>, all: set<GraphNode>)
    requires Dag(nodes) && forall n :: n in ns ==> n in nodes
    requires all == ReachOfAll(nodes, ns) && Seen(all, VisitAll(nodes, ns))
    ensures Elems(VisitAll(nodes, ns)) == all
  {
    VisitAllReach(nodes, ns);
  }

  lemma ReachOfNone(nodes: set<GraphNode>)
    requires Dag(nodes)
    ensures ReachOfAll(nodes, []) == {}
  {
  }

  lemma FlagsOfNone(nodes: set<GraphNode>, seeds: set<GraphNode>, done: set<GraphNode>,
                    grads: set<GraphNode>)
    requires Dag(nodes) && Flagged(nodes, seeds, done, grads)
    ensures Flagged(nodes, seeds, {}, grads)
  {
    hide Tainted, Reach;
  }

  lemma SeedsFlagged(nodes: set<GraphNode>, seeds: set<GraphNode>)
    requires Dag(nodes)
    ensures Flagged(nodes, seeds, {}, seeds * nodes)
    ensures seeds <= nodes ==> Flagged(nodes, seeds, {}, seeds)
  {
    forall n | n in nodes && n in seeds
      ensures Tainted(nodes, seeds, n)
    {
      assert n in Reach(nodes, n);
    }
    assert seeds <= nodes ==> seeds * nodes == seeds;
  }

  lemma FlagsMean(nodes: set<GraphNode>, seeds: set<GraphNode>, done: set<GraphNode>,
                  grads: set<GraphNode>)
    requires Dag(nodes) && Flagged(nodes, seeds, done, grads) && done <= nodes
    ensures forall n :: n in done ==> (n in grads <==> Tainted(nodes, seeds, n))
  {
  }

  lemma SeedsMean(nodes: set<GraphNode>)
    requires Dag(nodes)
    ensures forall n :: n in nodes ==>
              (Tainted(nodes, Seeds(nodes), n) <==> exists m :: m in Reach(nodes, n) && m.initialGrad)
  {
    hide Reach;
  }

  lemma TargetListed(nodes: set<GraphNode>, names: map<GraphNode, string>, t: GraphTarget)
    requires Dag(nodes) && t.node in nodes && t.node in names && t.name == names[t.node]
    requires ValidName(t.name)
    requires Listed(nodes, {} + Reach(nodes, t.node), names, t.forward, t.forwardName)
    ensures TargetOk(nodes, names, t)
  {
    assert {} + Reach(nodes, t.node) == Reach(nodes, t.node);
  }

  lemma RenamedKeys(a: map<GraphNode, string>, b: map<GraphNode, string>)
    requires Renamed(a, b)
    ensures a.Keys == b.Keys
  {
  }

  lemma RenamedNot(a: map<GraphNode, string>)
    ensures Renamed(a, a)
  {
  }

  lemma RenamedChain(a: map<GraphNode, string>, b: map<GraphNode, string>, c: map<GraphNode, string>)
    requires Renamed(a, b) && Renamed(b, c)
    ensures Renamed(a, c)
  {
    hide ValidName;
  }

  /** That determines the ids. */
  lemma NumberedOnce(all: set<GraphNode>, names: map<GraphNode, string>, ids: map<GraphNode, int>,
                     ids': map<GraphNode, int>)
    requires all <= names.Keys && Numbered(all, names, ids) && Numbered(all, names, ids')
    ensures ids == ids'
  {
    hide Precedes;
  }

  /** A graph grows by nodes over nodes that are there. */
  lemma DagGrows(nodes: set<GraphNode>, n: GraphNode)
    ensures Dag({})
    ensures Dag(nodes) && ValidName(n.className) && (forall x :: x in n.input ==> x in nodes && x.rank < n.rank) ==>
              Dag(nodes + {n})
  {
  }

  lemma SortedIsNumbered(all: set<GraphNode>, names: map<GraphNode, string>,
                         ids: map<GraphNode, int>, sorted: seq<GraphNode>)
    requires all <= names.Keys && DistinctNames(all, names)
    requires NoDup(sorted) && |sorted| == |all| && forall n :: n in sorted <==> n in all
    requires Descending(sorted, names)
    requires forall n :: n in ids <==> n in sorted
    requires forall k :: 0 <= k < |sorted| ==> ids[sorted[k]] == k
    ensures Numbered(all, names, ids)
  {
    hide Less, Precedes, Descending, NoDup, DistinctNames;
    assert ids.Keys == all;
    forall m, n | m in all && n in all
      ensures ids[m] < ids[n] <==> Precedes(names[n], names[m])
      ensures m != n ==> ids[m] != ids[n]
    {
      OrderOfIds(all, names, ids, sorted, m, n);
    }
    forall n | n in all
      ensures 0 <= ids[n] < |all|
      ensures ids[n] == |set m | m in all && Precedes(names[n], names[m])|
    {
      SmallerIds(all, ids, sorted, n);
      assert (set m | m in all && ids[m] < ids[n]) == set m | m in all && Precedes(names[n], names[m]);
    }
  }

  lemma OrderOfIds(all: set<GraphNode>, names: map<GraphNode, string>, ids: map<GraphNode, int>,
                   sorted: seq<GraphNode>, m: GraphNode, n: GraphNode)
    requires all <= names.Keys && DistinctNames(all, names)
    requires ids.Keys == all && forall n :: n in sorted <==> n in all
    requires Descending(sorted, names)
    requires forall k :: 0 <= k < |sorted| ==> ids[sorted[k]] == k
    requires m in all && n in all
    ensures ids[m] < ids[n] <==> Precedes(names[n], names[m])
    ensures m != n ==> ids[m] != ids[n]
  {
    hide Less, Precedes;
    var i :| 0 <= i < |sorted| && sorted[i] == m;
    var j :| 0 <= j < |sorted| && sorted[j] == n;
    LessTotal(names[m], names[n]);
    LessExactly(names[n], names[m]);
  }

  lemma SmallerIds(all: set<GraphNode>, ids: map<GraphNode, int>, sorted: seq<GraphNode>, n: GraphNode)
    requires NoDup(sorted) && ids.Keys == all && forall m :: m in sorted <==> m in all
    requires forall k :: 0 <= k < |sorted| ==> ids[sorted[k]] == k
    requires n in all
    ensures 0 <= ids[n] < |sorted| && ids[n] == |set m | m in all && ids[m] < ids[n]|
  {
    var i :| 0 <= i < |sorted| && sorted[i] == n;
    ElemsOfNoDup(sorted[..i]);
    assert (set m | m in all && ids[m] < i) == Elems(sorted[..i]);
  }
}
