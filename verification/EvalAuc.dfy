// The area under the ROC curve (src/tools/eval_auc_main.cc): one sweep over items in descending
// order of probability, against the count over all pairs. Sums are exact.
module EvalAuc {
  import opened Basics
  import opened Sequences

  datatype Item = Item(outcome: real, prob: real)

  predicate Positive(item: Item) {
    item.outcome > 0.0
  }

  predicate Descending(items: seq<Item>) {
    forall i, j :: 0 <= i < j < |items| ==> items[i].prob >= items[j].prob
  }

  // ---------------------------------------------------------------------------------------
  // The definition by pairs
  // ---------------------------------------------------------------------------------------

  /** A positive item above a negative one counts one, beside it one half. */
  function Score(positive: real, negative: real): real {
    if positive > negative then 1.0 else if positive == negative then 0.5 else 0.0
  }

  function WinsOf(item: Item, prob: real): real {
    if Positive(item) then Score(item.prob, prob) else 0.0
  }

  /** What all positive items score against a negative one of the given probability. */
  function Wins(items: seq<Item>, prob: real): real {
    if items == [] then 0.0
    else Wins(items[..|items| - 1], prob) + WinsOf(items[|items| - 1], prob)
  }

  function AreaOf(items: seq<Item>, item: Item): real {
    if Positive(item) then 0.0 else Wins(items, item.prob)
  }

  /** The scores of all positive among items against all negative among rivals. */
  function Area(items: seq<Item>, rivals: seq<Item>): real {
    if rivals == [] then 0.0
    else Area(items, rivals[..|rivals| - 1]) + AreaOf(items, rivals[|rivals| - 1])
  }

  function Positives(items: seq<Item>): nat {
    if items == [] then 0
    else Positives(items[..|items| - 1]) + if Positive(items[|items| - 1]) then 1 else 0
  }

  function Negatives(items: seq<Item>): nat {
    if items == [] then 0
    else Negatives(items[..|items| - 1]) + if Positive(items[|items| - 1]) then 0 else 1
  }

  lemma {:induction false} WinsJoin(a: seq<Item>, b: seq<Item>, prob: real)
    ensures Wins(a + b, prob) == Wins(a, prob) + Wins(b, prob)
    decreases |b|
  {
    if b == [] {
      assert a + b == a;
    } else {
      assert (a + b)[..|a + b| - 1] == a + b[..|b| - 1];
      WinsJoin(a, b[..|b| - 1], prob);
    }
  }

  lemma {:induction false} AreaJoin(items: seq<Item>, a: seq<Item>, b: seq<Item>)
    ensures Area(items, a + b) == Area(items, a) + Area(items, b)
    decreases |b|
  {
    if b == [] {
      assert a + b == a;
    } else {
      assert (a + b)[..|a + b| - 1] == a + b[..|b| - 1];
      AreaJoin(items, a, b[..|b| - 1]);
    }
  }

  lemma {:induction false} CountsJoin(a: seq<Item>, b: seq<Item>)
    ensures Positives(a + b) == Positives(a) + Positives(b)
    ensures Negatives(a + b) == Negatives(a) + Negatives(b)
    decreases |b|
  {
    if b == [] {
      assert a + b == a;
    } else {
      assert (a + b)[..|a + b| - 1] == a + b[..|b| - 1];
      CountsJoin(a, b[..|b| - 1]);
    }
  }

  /** Where all items are alike compared with the probability, they all score the same. */
  lemma {:induction false} WinsAlike(items: seq<Item>, prob: real, score: real)
    requires forall i :: 0 <= i < |items| ==> Score(items[i].prob, prob) == score
    ensures Wins(items, prob) == Positives(items) as real * score
    decreases |items|
  {
    if items != [] {
      WinsAlike(items[..|items| - 1], prob, score);
      var p := Positives(items[..|items| - 1]);
      assert (p + 1) as real * score == p as real * score + score;
    }
  }

  /** Items below all rivals do not change the rivals' area. */
  lemma {:induction false} AreaIgnoresLower(items: seq<Item>, lower: seq<Item>, rivals: seq<Item>)
    requires forall i, j :: 0 <= i < |lower| && 0 <= j < |rivals| ==> lower[i].prob < rivals[j].prob
    ensures Area(items + lower, rivals) == Area(items, rivals)
    decreases |rivals|
  {
    if rivals != [] {
      var last := |rivals| - 1;
      AreaIgnoresLower(items, lower, rivals[..last]);
      WinsJoin(items, lower, rivals[last].prob);
      WinsAlike(lower, rivals[last].prob, 0.0);
    }
  }

  /** The area of rivals of one probability: each negative one scores the same. */
  lemma {:induction false} AreaAlike(items: seq<Item>, rivals: seq<Item>, prob: real)
    requires forall j :: 0 <= j < |rivals| ==> rivals[j].prob == prob
    ensures Area(items, rivals) == Negatives(rivals) as real * Wins(items, prob)
    decreases |rivals|
  {
    if rivals != [] {
      AreaAlike(items, rivals[..|rivals| - 1], prob);
      var n, w := Negatives(rivals[..|rivals| - 1]), Wins(items, prob);
      assert (n + 1) as real * w == n as real * w + w;
    }
  }

  /** Closing a group of ties below all earlier items. */
  lemma CloseGroup(before: seq<Item>, group: seq<Item>, prob: real)
    requires forall i :: 0 <= i < |before| ==> before[i].prob > prob
    requires forall j :: 0 <= j < |group| ==> group[j].prob == prob
    ensures Area(before + group, before + group)
         == Area(before, before)
            + Negatives(group) as real * (Positives(before) as real + Positives(group) as real * 0.5)
  {
    hide Area, Wins, Positives, Negatives;
    AreaJoin(before + group, before, group);
    AreaIgnoresLower(before, group, before);
    AreaAlike(before + group, group, prob);
    WinsJoin(before, group, prob);
    WinsAlike(before, prob, 1.0);
    WinsAlike(group, prob, 0.5);
    assert Positives(before) as real * 1.0 == Positives(before) as real;
  }

  // ---------------------------------------------------------------------------------------
  // The sweep
  // ---------------------------------------------------------------------------------------

  /** None stands for the division by zero when one of the classes is missing. */
  function Quotient(area: real, positives: nat, negatives: nat): Option<real> {
    if positives * negatives == 0 then None else Some(area / (positives * negatives) as real)
  }

  function Auc(items: seq<Item>): Option<real> {
    Quotient(Area(items, items), Positives(items), Negatives(items))
  }

  /** What a group of ties adds. */
  function GroupArea(positivesBefore: nat, positives: nat, negatives: nat): real {
    negatives as real * (positivesBefore as real + positives as real * 0.5)
  }

  method Sweep(items: seq<Item>) returns (auc: Option<real>)
    requires Descending(items)
    ensures auc == Auc(items)
  {
    hide Positives, Negatives, Area, GroupArea, Quotient, Descending, IsGroup;
    var area := 0.0;
    var positivesBefore, negativesBefore, positives, negatives: nat := 0, 0, 0, 0;
    ghost var start := 0;
    var last: Option<Item> := None;
    NothingYet();
    NoGroup(items);
    for k := 0 to |items|
      invariant start <= k && (last.None? <==> k == 0) && (k > 0 ==> start < k && last.value == items[k - 1])
      invariant IsGroup(items, start, k)
      invariant positivesBefore == Positives(items[..start]) && negativesBefore == Negatives(items[..start])
      invariant positives == Positives(items[start..k]) && negatives == Negatives(items[start..k])
      invariant area == Area(items[..start], items[..start])
    {
      var item := items[k];
      if last.Some? && item.prob != last.value.prob {
        GroupAt(items, start, k);
        area := area + GroupArea(positivesBefore, positives, negatives);
        positivesBefore, negativesBefore := positivesBefore + positives, negativesBefore + negatives;
        positives, negatives := 0, 0;
        NewGroup(items, start, k);
        start := k;
      } else {
        SameGroup(items, start, k);
      }
      last := Some(item);
      OneMore(items[start..k], item);
      assert items[start..k + 1] == items[start..k] + [item];
      if Positive(item) {
        positives := positives + 1;
      } else {
        negatives := negatives + 1;
      }
    }
    GroupAt(items, start, |items|);
    assert items[..|items|] == items;
    area := area + GroupArea(positivesBefore, positives, negatives);
    positives, negatives := positives + positivesBefore, negatives + negativesBefore;
    auc := Quotient(area, positives, negatives);
  }

  /** The items from start to k are the ties that the sweep is in. */
  ghost predicate IsGroup(items: seq<Item>, start: nat, k: nat)
    requires start <= k <= |items|
  {
    && (forall i :: start <= i < k ==> items[i].prob == items[k - 1].prob)
    && (forall i :: 0 <= i < start < k ==> items[i].prob > items[k - 1].prob)
  }

  lemma NewGroup(items: seq<Item>, start: nat, k: nat)
    requires start < k < |items| && IsGroup(items, start, k) && Descending(items)
    requires items[k].prob != items[k - 1].prob
    ensures IsGroup(items, k, k + 1)
    ensures items[k..k] == [] && Positives([]) == 0 && Negatives([]) == 0
  {
    forall i | 0 <= i < k
      ensures items[i].prob > items[k].prob
    {
      assert items[i].prob >= items[k - 1].prob >= items[k].prob;
    }
  }

  lemma SameGroup(items: seq<Item>, start: nat, k: nat)
    requires start <= k < |items| && IsGroup(items, start, k)
    requires if k == 0 then start == 0 else start < k && items[k].prob == items[k - 1].prob
    ensures IsGroup(items, start, k + 1)
  {
  }

  lemma OneMore(items: seq<Item>, item: Item)
    ensures Positives(items + [item]) == Positives(items) + if Positive(item) then 1 else 0
    ensures Negatives(items + [item]) == Negatives(items) + if Positive(item) then 0 else 1
  {
    assert (items + [item])[..|items + [item]| - 1] == items;
  }

  lemma NoGroup(items: seq<Item>)
    ensures IsGroup(items, 0, 0) && items[..0] == [] && items[0..0] == []
  {
  }

  lemma NothingYet()
    ensures Positives([]) == 0 && Negatives([]) == 0 && Area([], []) == 0.0
  {
  }

  lemma GroupAt(items: seq<Item>, start: nat, k: nat)
    requires start <= k <= |items| && IsGroup(items, start, k) && (k > 0 ==> start < k)
    ensures Positives(items[..k]) == Positives(items[..start]) + Positives(items[start..k])
    ensures Negatives(items[..k]) == Negatives(items[..start]) + Negatives(items[start..k])
    ensures Area(items[..k], items[..k])
         == Area(items[..start], items[..start])
            + GroupArea(Positives(items[..start]), Positives(items[start..k]), Negatives(items[start..k]))
  {
    hide Positives, Negatives, Area;
    assert items[..k] == items[..start] + items[start..k];
    CountsJoin(items[..start], items[start..k]);
    if start < k {
      CloseGroup(items[..start], items[start..k], items[k - 1].prob);
    } else {
      NothingYet();
      assert items[start..k] == [] && items[..k] == [];
    }
  }

  // ---------------------------------------------------------------------------------------
  // What the area means
  // ---------------------------------------------------------------------------------------

  lemma {:induction false} WinsInRange(items: seq<Item>, prob: real)
    ensures 0.0 <= Wins(items, prob) <= Positives(items) as real
  {
    if items != [] {
      WinsInRange(items[..|items| - 1], prob);
    }
  }

  lemma {:induction false} AreaInRange(items: seq<Item>, rivals: seq<Item>)
    ensures 0.0 <= Area(items, rivals) <= Positives(items) as real * Negatives(rivals) as real
    decreases |rivals|
  {
    if rivals != [] {
      var rest := rivals[..|rivals| - 1];
      AreaInRange(items, rest);
      WinsInRange(items, rivals[|rivals| - 1].prob);
      var p, n := Positives(items) as real, Negatives(rest) as real;
      assert p * (n + 1.0) == p * n + p;
    }
  }

  /** The result is a fraction. */
  lemma AucInRange(items: seq<Item>)
    ensures Auc(items).Some? ==> 0.0 <= Auc(items).value <= 1.0
  {
    var p, n := Positives(items), Negatives(items);
    if p * n != 0 {
      AreaInRange(items, items);
      var pairs, area := (p * n) as real, Area(items, items);
      assert p as real * n as real == pairs;
      Fraction(area, pairs);
    }
  }

  lemma Fraction(a: real, b: real)
    requires 0.0 <= a <= b && b > 0.0
    ensures 0.0 <= a / b <= 1.0
  {
    var q := a / b;
    assert q * b == a;
    assert (q - 1.0) * b == a - b;
  }

  /** Taking an item out, wherever it is. */
  lemma {:induction false} TakenOut(items: seq<Item>, k: nat, all: seq<Item>, prob: real)
    requires k < |items|
    ensures var rest, item := items[..k] + items[k + 1..], items[k];
            && Positives(items) == Positives(rest) + (if Positive(item) then 1 else 0)
            && Negatives(items) == Negatives(rest) + (if Positive(item) then 0 else 1)
            && Wins(items, prob) == Wins(rest, prob) + WinsOf(item, prob)
            && Area(all, items) == Area(all, rest) + AreaOf(all, item)
  {
    var a, b, one := items[..k], items[k + 1..], [items[k]];
    assert items == a + (one + b);
    assert one[..0] == [];
    CountsJoin(a, one + b);
    CountsJoin(one, b);
    CountsJoin(a, b);
    WinsJoin(a, one + b, prob);
    WinsJoin(one, b, prob);
    WinsJoin(a, b, prob);
    AreaJoin(all, a, one + b);
    AreaJoin(all, one, b);
    AreaJoin(all, a, b);
  }

  lemma {:induction false} SameBagSameCounts(items: seq<Item>, others: seq<Item>, all: seq<Item>, prob: real)
    requires multiset(items) == multiset(others)
    ensures Positives(items) == Positives(others) && Negatives(items) == Negatives(others)
    ensures Wins(items, prob) == Wins(others, prob)
    ensures Area(all, items) == Area(all, others)
    decreases |items|
  {
    assert |multiset(items)| == |items| && |multiset(others)| == |others|;
    if items != [] {
      var last := |items| - 1;
      var k := Elsewhere(items, others);
      assert items[..last] + items[last + 1..] == items[..last];
      TakenOut(items, last, all, prob);
      TakenOut(others, k, all, prob);
      SameBagSameCounts(items[..last], others[..k] + others[k + 1..], all, prob);
    }
  }

  lemma {:induction false} SameWinsSameArea(items: seq<Item>, others: seq<Item>, rivals: seq<Item>)
    requires multiset(items) == multiset(others)
    ensures Area(items, rivals) == Area(others, rivals)
    decreases |rivals|
  {
    if rivals != [] {
      SameBagSameCounts(items, others, [], rivals[|rivals| - 1].prob);
      SameWinsSameArea(items, others, rivals[..|rivals| - 1]);
    }
  }

  /** Neither the order of the input nor the order inside ties matters. */
  lemma OrderDoesNotMatter(items: seq<Item>, others: seq<Item>)
    requires multiset(items) == multiset(others)
    ensures Auc(items) == Auc(others)
  {
    SameWinsSameArea(items, others, items);
    SameBagSameCounts(items, others, others, 0.0);
  }

  // ---------------------------------------------------------------------------------------
  // The same by counting
  // ---------------------------------------------------------------------------------------

  ghost function At(items: seq<Item>, pick: Item -> bool): set<nat> {
    set i: nat | i < |items| && pick(items[i])
  }

  ghost function Pairs(items: seq<Item>, rivals: seq<Item>, beats: (Item, Item) -> bool): set<(nat, nat)> {
    set i: nat, j: nat | i < |items| && j < |rivals| && beats(items[i], rivals[j]) :: (i, j)
  }

  ghost function PairsWith(s: set<nat>, j: nat): set<(nat, nat)> {
    set i | i in s :: (i, j)
  }

  lemma {:induction false} AsManyPairs(s: set<nat>, j: nat)
    ensures |PairsWith(s, j)| == |s|
    decreases |s|
  {
    if s == {} {
      assert PairsWith(s, j) == {};
    } else {
      var i :| i in s;
      AsManyPairs(s - {i}, j);
      assert PairsWith(s, j) == PairsWith(s - {i}, j) + {(i, j)};
    }
  }

  lemma OneMoreItem(items: seq<Item>, pick: Item -> bool)
    requires items != []
    ensures var last := |items| - 1;
            |At(items, pick)| == |At(items[..last], pick)| + if pick(items[last]) then 1 else 0
  {
    var last := |items| - 1;
    if pick(items[last]) {
      assert At(items, pick) == At(items[..last], pick) + {last};
    } else {
      assert At(items, pick) == At(items[..last], pick);
    }
  }

  lemma OneMoreRival(items: seq<Item>, rivals: seq<Item>, beats: (Item, Item) -> bool, wins: set<nat>)
    requires rivals != [] && forall i: nat :: i in wins <==> i < |items| && beats(items[i], rivals[|rivals| - 1])
    ensures |Pairs(items, rivals, beats)| == |Pairs(items, rivals[..|rivals| - 1], beats)| + |wins|
  {
    var last := |rivals| - 1;
    var rest, more := Pairs(items, rivals[..last], beats), PairsWith(wins, last);
    AsManyPairs(wins, last);
    assert Pairs(items, rivals, beats) == rest + more && rest !! more;
  }

  predicate Above(a: Item, b: Item) {
    a.outcome > 0.0 && b.outcome <= 0.0 && a.prob > b.prob
  }

  predicate Beside(a: Item, b: Item) {
    a.outcome > 0.0 && b.outcome <= 0.0 && a.prob == b.prob
  }

  lemma {:induction false} ClassesCounted(items: seq<Item>)
    ensures Positives(items) == |At(items, (item: Item) => item.outcome > 0.0)|
    ensures Negatives(items) == |At(items, (item: Item) => item.outcome <= 0.0)|
    decreases |items|
  {
    hide At;
    if items == [] {
      NothingAt((item: Item) => item.outcome > 0.0);
      NothingAt((item: Item) => item.outcome <= 0.0);
    } else {
      ClassesCounted(items[..|items| - 1]);
      OneMoreItem(items, (item: Item) => item.outcome > 0.0);
      OneMoreItem(items, (item: Item) => item.outcome <= 0.0);
    }
  }

  lemma NothingAt(pick: Item -> bool)
    ensures At([], pick) == {}
  {
  }

  lemma {:induction false} WinsCounted(items: seq<Item>, rival: Item)
    ensures AreaOf(items, rival) == |At(items, (item: Item) => Above(item, rival))| as real
                                    + |At(items, (item: Item) => Beside(item, rival))| as real * 0.5
    decreases |items|
  {
    hide At;
    if items == [] {
      NothingAt((item: Item) => Above(item, rival));
      NothingAt((item: Item) => Beside(item, rival));
    } else {
      WinsCounted(items[..|items| - 1], rival);
      OneMoreItem(items, (item: Item) => Above(item, rival));
      OneMoreItem(items, (item: Item) => Beside(item, rival));
    }
  }

  lemma {:induction false} AreaCounted(items: seq<Item>, rivals: seq<Item>)
    ensures Area(items, rivals)
         == |Pairs(items, rivals, Above)| as real + |Pairs(items, rivals, Beside)| as real * 0.5
    decreases |rivals|
  {
    hide Pairs, AreaOf, Above, Beside;
    if rivals == [] {
      NoPairs(items, Above);
      NoPairs(items, Beside);
    } else {
      var rival := rivals[|rivals| - 1];
      AreaCounted(items, rivals[..|rivals| - 1]);
      OneMoreRival(items, rivals, Above, At(items, (item: Item) => Above(item, rival)));
      OneMoreRival(items, rivals, Beside, At(items, (item: Item) => Beside(item, rival)));
      WinsCounted(items, rival);
    }
  }

  lemma NoPairs(items: seq<Item>, beats: (Item, Item) -> bool)
    ensures Pairs(items, [], beats) == {}
  {
  }

  /** The result is the share of the pairs of a positive and a negative item in which the positive
      one has the higher probability, ties counting one half; there is one if there is a pair. */
  lemma AucByCounting(items: seq<Item>)
    ensures var positives := At(items, (item: Item) => item.outcome > 0.0);
            var negatives := At(items, (item: Item) => item.outcome <= 0.0);
            && (Auc(items).Some? <==> positives != {} && negatives != {})
            && (Auc(items).Some? ==>
                  Auc(items).value
                  == (|Pairs(items, items, Above)| as real + |Pairs(items, items, Beside)| as real * 0.5)
                     / (|positives| * |negatives|) as real)
  {
    hide At, Pairs, Area, Positives, Negatives;
    ClassesCounted(items);
    AreaCounted(items, items);
    var p, n := Positives(items), Negatives(items);
    assert p * n == 0 <==> p == 0 || n == 0;
  }
}
