// Node names (src/graph/graph_node.cc): which are valid, how a number is written in decimal,
// and the order of strings by which nodes are numbered.
module Names {

  predicate ValidChar(c: char) {
    'a' <= c <= 'z' || 'A' <= c <= 'Z' || '0' <= c <= '9' || c == '_' || c == '/' || c == ':'
  }

  lemma ValidCharsAre(c: char)
    ensures ValidChar(c) <==> c in {
      'a', 'b', 'c', 'd', 'e', 'f', 'g', 'h', 'i', 'j', 'k', 'l', 'm', 'n', 'o', 'p', 'q', 'r', 's', 't',
      'u', 'v', 'w', 'x', 'y', 'z', 'A', 'B', 'C', 'D', 'E', 'F', 'G', 'H', 'I', 'J', 'K', 'L', 'M', 'N',
      'O', 'P', 'Q', 'R', 'S', 'T', 'U', 'V', 'W', 'X', 'Y', 'Z', '0', '1', '2', '3', '4', '5', '6', '7',
      '8', '9', '_', '/', ':'}
  {
  }

  predicate ValidName(s: string) {
    s != "" && forall i :: 0 <= i < |s| ==> ValidChar(s[i])
  }

  const DIGITS: string := "0123456789"

  function Decimal(n: nat): (s: string)
    ensures ValidName(s)
  {
    if n < 10 then [DIGITS[n]] else Decimal(n / 10) + [DIGITS[n % 10]]
  }

  lemma {:induction false} DecimalInjective(m: nat, n: nat)
    requires Decimal(m) == Decimal(n)
    ensures m == n
    decreases m
  {
    var s := Decimal(m);
    assert m % 10 == n % 10 by {
      assert s[|s| - 1] == DIGITS[m % 10] == DIGITS[n % 10];
    }
    assert |s| > 1 <==> m >= 10;
    assert |s| > 1 <==> n >= 10;
    if m >= 10 {
      assert s[..|s| - 1] == Decimal(m / 10) == Decimal(n / 10);
      DecimalInjective(m / 10, n / 10);
    }
  }

  /** Different numbers give a class name different completions. */
  lemma NumberedApart(className: string, i: nat, tried: set<string>)
    requires forall t :: t in tried ==> exists j: nat :: 1 <= j < i && t == className + Decimal(j)
    ensures className + Decimal(i) !in tried
  {
    var name := className + Decimal(i);
    if name in tried {
      var j: nat :| 1 <= j < i && name == className + Decimal(j);
      assert name[|className|..] == Decimal(i) && name[|className|..] == Decimal(j);
      DecimalInjective(i, j);
      assert false;
    }
  }

  lemma NumberedIsValid(className: string, i: nat)
    ensures ValidName(className) ==> ValidName(className + Decimal(i))
  {
  }

  /** The strict lexicographic order. */
  predicate Less(a: string, b: string) {
    if b == "" then false
    else if a == "" then true
    else if a[0] != b[0] then a[0] < b[0]
    else Less(a[1..], b[1..])
  }

  /** The same in so many words: a proper prefix comes first, and otherwise the smaller character
      at the first place where the strings differ. */
  ghost predicate Precedes(a: string, b: string) {
    || a < b
    || exists k: nat :: k < |a| && k < |b| && a[..k] == b[..k] && a[k] < b[k]
  }

  lemma {:induction false} LessExactly(a: string, b: string)
    ensures Less(a, b) <==> Precedes(a, b)
  {
    if a != "" && b != "" && a[0] == b[0] {
      LessExactly(a[1..], b[1..]);
      PrecedesBehind(a, b);
    } else if a != "" && b != "" {
      assert a[..0] == b[..0];
    }
  }

  /** An equal first character does not matter. */
  lemma PrecedesBehind(a: string, b: string)
    requires a != "" && b != "" && a[0] == b[0]
    ensures Precedes(a, b) <==> Precedes(a[1..], b[1..])
  {
    if k: nat :| k < |a| && k < |b| && a[..k] == b[..k] && a[k] < b[k] {
      Shorter(a, b, k);
    }
    if k: nat :| k < |a[1..]| && k < |b[1..]| && a[1..][..k] == b[1..][..k] && a[1..][k] < b[1..][k] {
      Shorter(a, b, k + 1);
    }
    PrefixBehind(a, b);
  }

  lemma Shorter(a: string, b: string, k: nat)
    requires a != "" && b != "" && a[0] == b[0] && 0 < k < |a| && k < |b|
    ensures a[..k] == b[..k] <==> a[1..][..k - 1] == b[1..][..k - 1]
    ensures a[k] == a[1..][k - 1] && b[k] == b[1..][k - 1]
  {
    assert a[..k] == [a[0]] + a[1..][..k - 1] && b[..k] == [b[0]] + b[1..][..k - 1];
  }

  lemma PrefixBehind(a: string, b: string)
    requires a != "" && b != "" && a[0] == b[0]
    ensures a < b <==> a[1..] < b[1..]
  {
    assert a == [a[0]] + a[1..] && b == [b[0]] + b[1..];
  }

  lemma AlphabetOrder()
    ensures Less("a", "b") && Less("a", "aa") && Less("ab", "b") && Less("A", "a")
    ensures !Less("b", "a") && !Less("a", "a") && !Less("aa", "a")
  {
  }

  lemma {:induction false} LessTotal(a: string, b: string)
    ensures Less(a, b) || Less(b, a) || a == b
    ensures !(Less(a, b) && Less(b, a))
    ensures !Less(a, a)
  {
    if a != "" && b != "" && a[0] == b[0] {
      LessTotal(a[1..], b[1..]);
      assert a == [a[0]] + a[1..] && b == [b[0]] + b[1..];
    }
    if a != "" && b != a {
      LessTotal(a[1..], a[1..]);
    } else if a != "" {
      LessTotal(a[1..], b[1..]);
    }
  }

  lemma {:induction false} LessTransitive(a: string, b: string, c: string)
    requires Less(a, b) && Less(b, c)
    ensures Less(a, c)
  {
    if a != "" && b != "" && c != "" && a[0] == b[0] == c[0] {
      LessTransitive(a[1..], b[1..], c[1..]);
    }
  }

  lemma NotLessAfter(a: string, b: string, c: string)
    requires Less(a, b) && !Less(a, c)
    ensures !Less(b, c)
  {
    if Less(b, c) {
      LessTransitive(a, b, c);
    }
  }
}
