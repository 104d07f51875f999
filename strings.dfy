/**
 * String helpers the rules are built on: Go's string order, the sorted set
 * of strings the rules collect offending values in (sets.String), the sort
 * of a string slice (sort.Strings), and the formatting helpers pluralize,
 * joinQuote, strings.Join and strconv.Itoa.
 */
module Strings {

  // ---------------------------------------------------------------------------
  // Order

  /** Go compares strings byte by byte; on code points this is the same order
      as on their UTF-8 bytes. A proper prefix comes first. */
  predicate Less(a: string, b: string)
  {
    if |a| == 0 then |b| > 0
    else if |b| == 0 then false
    else if a[0] != b[0] then a[0] < b[0]
    else Less(a[1..], b[1..])
  }

  predicate LessEq(a: string, b: string)
  {
    a == b || Less(a, b)
  }

  lemma {:induction false} LessIrreflexive(a: string)
    ensures !Less(a, a)
  {
    if |a| > 0 {
      LessIrreflexive(a[1..]);
    }
  }

  lemma {:induction false} LessTransitive(a: string, b: string, c: string)
    requires Less(a, b) && Less(b, c)
    ensures Less(a, c)
  {
    if |a| > 0 && a[0] == b[0] && b[0] == c[0] {
      LessTransitive(a[1..], b[1..], c[1..]);
    }
  }

  lemma {:induction false} LessTotal(a: string, b: string)
    requires a != b
    ensures Less(a, b) || Less(b, a)
  {
    if |a| > 0 && |b| > 0 && a[0] == b[0] {
      assert a == [a[0]] + a[1..] && b == [b[0]] + b[1..];
      LessTotal(a[1..], b[1..]);
    }
  }

  lemma LessAsymmetric(a: string, b: string)
    requires Less(a, b)
    ensures !Less(b, a)
  {
    if Less(b, a) {
      LessTransitive(a, b, a);
      LessIrreflexive(a);
    }
  }

  // ---------------------------------------------------------------------------
  // Sorted sequences

  ghost predicate StrictlySorted(s: seq<string>)
  {
    forall i, j :: 0 <= i < j < |s| ==> Less(s[i], s[j])
  }

  ghost predicate Sorted(s: seq<string>)
  {
    forall i, j :: 0 <= i < j < |s| ==> LessEq(s[i], s[j])
  }

  ghost function Elems(s: seq<string>): set<string>
  {
    set x | x in s
  }

  // ---------------------------------------------------------------------------
  // sets.String: kept as the strictly sorted list that its List() returns

  /** sets.String.Insert: add x unless it is already there. */
  function Insert(s: seq<string>, x: string): seq<string>
  {
    if s == [] then [x]
    else if x == s[0] then s
    else if Less(x, s[0]) then [x] + s
    else [s[0]] + Insert(s[1..], x)
  }

  /** Insert keeps the list strictly sorted and adds exactly x to its elements. */
  lemma {:induction false} InsertIsSetInsert(s: seq<string>, x: string)
    requires StrictlySorted(s)
    ensures StrictlySorted(Insert(s, x))
    ensures Elems(Insert(s, x)) == Elems(s) + {x}
  {
    if s != [] && x != s[0] {
      if Less(x, s[0]) {
        InsertFront(s, x);
      } else {
        InsertIsSetInsert(s[1..], x);
        InsertBehind(s, x, Insert(s[1..], x));
      }
    }
  }

  lemma ConsElems(h: string, t: seq<string>)
    ensures Elems([h] + t) == {h} + Elems(t)
  {
  }

  lemma ConsStrictlySorted(h: string, t: seq<string>)
    requires StrictlySorted(t)
    requires forall y :: y in t ==> Less(h, y)
    ensures StrictlySorted([h] + t)
  {
    forall i, j | 0 <= i < j < |[h] + t| ensures Less(([h] + t)[i], ([h] + t)[j]) {
      assert ([h] + t)[j] == t[j - 1];
      if i > 0 {
        assert ([h] + t)[i] == t[i - 1];
      }
    }
  }

  lemma HeadBelowTail(s: seq<string>)
    requires StrictlySorted(s) && s != []
    ensures forall y :: y in s[1..] ==> Less(s[0], y)
  {
    forall y | y in s[1..] ensures Less(s[0], y) {
      var j :| 0 <= j < |s[1..]| && s[1..][j] == y;
      assert s[j + 1] == y;
    }
  }

  lemma InsertFront(s: seq<string>, x: string)
    requires StrictlySorted(s) && s != [] && Less(x, s[0])
    ensures StrictlySorted([x] + s)
    ensures Elems([x] + s) == Elems(s) + {x}
  {
    forall y | y in s ensures Less(x, y) {
      if y != s[0] {
        var j :| 0 <= j < |s| && s[j] == y;
        LessTransitive(x, s[0], s[j]);
      }
    }
    ConsStrictlySorted(x, s);
    ConsElems(x, s);
  }

  lemma InsertBehind(s: seq<string>, x: string, t: seq<string>)
    requires StrictlySorted(s) && s != [] && x != s[0] && !Less(x, s[0])
    requires StrictlySorted(t) && Elems(t) == Elems(s[1..]) + {x}
    ensures StrictlySorted([s[0]] + t)
    ensures Elems([s[0]] + t) == Elems(s) + {x}
  {
    LessTotal(x, s[0]);
    HeadBelowTail(s);
    forall y | y in t ensures Less(s[0], y) {
      assert y in Elems(t);
    }
    ConsStrictlySorted(s[0], t);
    ConsElems(s[0], t);
    assert s == [s[0]] + s[1..];
    ConsElems(s[0], s[1..]);
  }

  /** The set built by inserting the strings of xs one by one, as its sorted list. */
  function SortedDistinct(xs: seq<string>): seq<string>
  {
    if xs == [] then [] else Insert(SortedDistinct(xs[..|xs| - 1]), xs[|xs| - 1])
  }

  /** The list is strictly sorted and holds exactly the strings of xs. */
  lemma {:induction false} SortedDistinctIsSet(xs: seq<string>)
    ensures StrictlySorted(SortedDistinct(xs))
    ensures Elems(SortedDistinct(xs)) == Elems(xs)
  {
    if xs != [] {
      var n := |xs| - 1;
      SortedDistinctIsSet(xs[..n]);
      InsertIsSetInsert(SortedDistinct(xs[..n]), xs[n]);
      assert xs == xs[..n] + [xs[n]];
    }
  }

  /** Inserting the strings of xs one by one into the set s. */
  function InsertAll(s: seq<string>, xs: seq<string>): seq<string>
  {
    if xs == [] then s else Insert(InsertAll(s, xs[..|xs| - 1]), xs[|xs| - 1])
  }

  /** Inserting ys into the set built from xs builds the set of xs + ys. */
  lemma {:induction false} SortedDistinctAppend(xs: seq<string>, ys: seq<string>)
    ensures SortedDistinct(xs + ys) == InsertAll(SortedDistinct(xs), ys)
  {
    if ys == [] {
      assert xs + ys == xs;
    } else {
      var n := |ys| - 1;
      SortedDistinctAppend(xs, ys[..n]);
      assert (xs + ys)[..|xs + ys| - 1] == xs + ys[..n];
    }
  }

  /** Inserting one more string into the set built so far. */
  lemma SortedDistinctSnoc(xs: seq<string>, x: string)
    ensures SortedDistinct(xs + [x]) == Insert(SortedDistinct(xs), x)
  {
    assert (xs + [x])[..|xs|] == xs;
  }

  lemma StrictlySortedIsSorted(s: seq<string>)
    requires StrictlySorted(s)
    ensures Sorted(s)
  {
  }

  // ---------------------------------------------------------------------------
  // sort.Strings

  function InsertSorted(s: seq<string>, x: string): (r: seq<string>)
    requires Sorted(s)
    ensures Sorted(r)
    ensures multiset(r) == multiset(s) + multiset{x}
  {
    if s == [] then [x]
    else if LessEq(x, s[0]) then
      InsertSortedFront(s, x);
      [x] + s
    else
      var t := InsertSorted(s[1..], x);
      InsertSortedBehind(s, x, t);
      [s[0]] + t
  }

  lemma ConsSorted(h: string, t: seq<string>)
    requires Sorted(t)
    requires forall y :: y in t ==> LessEq(h, y)
    ensures Sorted([h] + t)
  {
    forall i, j | 0 <= i < j < |[h] + t| ensures LessEq(([h] + t)[i], ([h] + t)[j]) {
      assert ([h] + t)[j] == t[j - 1];
      if i > 0 {
        assert ([h] + t)[i] == t[i - 1];
      }
    }
  }

  lemma InsertSortedFront(s: seq<string>, x: string)
    requires Sorted(s) && s != [] && LessEq(x, s[0])
    ensures Sorted([x] + s)
  {
    forall y | y in s ensures LessEq(x, y) {
      var j :| 0 <= j < |s| && s[j] == y;
      if x != s[0] && s[0] != s[j] {
        LessTransitive(x, s[0], s[j]);
      }
    }
    ConsSorted(x, s);
  }

  lemma InsertSortedBehind(s: seq<string>, x: string, t: seq<string>)
    requires Sorted(s) && s != [] && !LessEq(x, s[0])
    requires Sorted(t) && multiset(t) == multiset(s[1..]) + multiset{x}
    ensures Sorted([s[0]] + t)
    ensures multiset([s[0]] + t) == multiset(s) + multiset{x}
  {
    LessTotal(x, s[0]);
    forall y | y in t ensures LessEq(s[0], y) {
      assert y in multiset(t);
      if y != x {
        assert y in multiset(s[1..]);
        var j :| 0 <= j < |s[1..]| && s[1..][j] == y;
        assert s[j + 1] == y;
      }
    }
    ConsSorted(s[0], t);
    assert s == [s[0]] + s[1..];
  }

  /** sort.Strings: the same strings in ascending order. */
  function SortStrings(s: seq<string>): (r: seq<string>)
    ensures Sorted(r)
    ensures multiset(r) == multiset(s)
  {
    if s == [] then []
    else
      var n := |s| - 1;
      assert s == s[..n] + [s[n]];
      InsertSorted(SortStrings(s[..n]), s[n])
  }

  lemma SortedHeadIsLeast(a: seq<string>, x: string)
    requires Sorted(a) && x in multiset(a)
    ensures LessEq(a[0], x)
  {
    var i :| 0 <= i < |a| && a[i] == x;
    if i > 0 {
      assert LessEq(a[0], a[i]);
    }
  }

  /** A sorted sequence is fixed by its multiset: any two orders of the same
      strings sort to the same sequence. */
  lemma {:induction false} SortedUnique(a: seq<string>, b: seq<string>)
    requires Sorted(a) && Sorted(b)
    requires multiset(a) == multiset(b)
    ensures a == b
  {
    if a == [] {
      assert |multiset(b)| == 0;
    } else {
      assert a[0] in multiset(a);
      assert b != [];
      assert b[0] in multiset(b);
      SortedHeadIsLeast(b, a[0]);
      SortedHeadIsLeast(a, b[0]);
      if a[0] != b[0] {
        LessAsymmetric(a[0], b[0]);
      }
      TailMultiset(a);
      TailMultiset(b);
      SortedUnique(a[1..], b[1..]);
    }
  }

  lemma TailMultiset(a: seq<string>)
    requires a != []
    ensures multiset(a[1..]) == multiset(a) - multiset{a[0]}
  {
    assert a == [a[0]] + a[1..];
  }

  // ---------------------------------------------------------------------------
  // Formatting

  /** The singular form for exactly one item, the plural form otherwise. */
  function Pluralize(singular: string, plural: string, count: int): string
  {
    if count == 1 then singular else plural
  }

  /** strings.Join */
  function Join(items: seq<string>, sep: string): (r: string)
  {
    if |items| == 0 then ""
    else if |items| == 1 then items[0]
    else Join(items[..|items| - 1], sep) + sep + items[|items| - 1]
  }

  /** Plain quote wrapping: Go's %q escaping is not modelled. */
  function Quote(s: string): string
  {
    "\"" + s + "\""
  }

  function QuoteEach(items: seq<string>): (r: seq<string>)
    ensures |r| == |items|
    ensures forall i :: 0 <= i < |items| ==> r[i] == Quote(items[i])
  {
    seq(|items|, i requires 0 <= i < |items| => Quote(items[i]))
  }

  /** joinQuote: empty for no items, otherwise the items quoted and separated by ", ". */
  function JoinQuote(items: seq<string>): string
  {
    if |items| == 0 then "" else "\"" + Join(items, "\", \"") + "\""
  }

  /** joinQuote of two items: each quoted, separated by ", ". */
  lemma JoinQuoteTwo(a: string, b: string)
    ensures JoinQuote([a, b]) == "\"" + a + "\", \"" + b + "\""
  {
    assert [a, b][..1] == [a];
    assert Join([a, b], "\", \"") == a + "\", \"" + b;
  }

  /** joinQuote quotes each item and joins the quoted items with ", ". */
  lemma {:induction false} JoinQuoteQuotesEach(items: seq<string>)
    ensures JoinQuote(items) == Join(QuoteEach(items), ", ")
  {
    if |items| > 1 {
      var n := |items| - 1;
      JoinQuoteQuotesEach(items[..n]);
      assert QuoteEach(items)[..n] == QuoteEach(items[..n]);
    }
  }

  /** The decimal digit character for 0 <= d < 10. */
  function DigitChar(d: int): char
    requires 0 <= d < 10
  {
    ('0' as int + d) as char
  }

  /** strconv.Itoa: the decimal rendering, with a leading '-' for negatives. */
  function Itoa(n: int): (r: string)
    decreases if n < 0 then 1 - n else n
  {
    if n < 0 then "-" + Itoa(-n)
    else if n < 10 then [DigitChar(n)]
    else Itoa(n / 10) + [DigitChar(n % 10)]
  }

  lemma {:induction false} NaturalItoaShape(n: nat)
    ensures |Itoa(n)| > 0 && Itoa(n)[0] != '-'
    ensures Itoa(n)[|Itoa(n)| - 1] == DigitChar(n % 10)
  {
    if n >= 10 {
      NaturalItoaShape(n / 10);
    }
  }

  lemma {:induction false} NaturalItoaInjective(a: nat, b: nat)
    requires Itoa(a) == Itoa(b)
    ensures a == b
    decreases a
  {
    NaturalItoaShape(a);
    NaturalItoaShape(b);
    assert a % 10 == b % 10;
    if a < 10 && b >= 10 {
      NaturalItoaShape(b / 10);
    } else if a >= 10 && b < 10 {
      NaturalItoaShape(a / 10);
    } else if a >= 10 && b >= 10 {
      var s := Itoa(a);
      assert Itoa(a / 10) == s[..|s| - 1] == Itoa(b / 10);
      NaturalItoaInjective(a / 10, b / 10);
    }
  }

  /** Distinct integers have distinct decimal renderings, so the number of
      distinct rendered ports is the number of distinct ports. */
  lemma ItoaInjective(a: int, b: int)
    requires Itoa(a) == Itoa(b)
    ensures a == b
  {
    if a < 0 && b < 0 {
      NegativeItoa(a);
      NegativeItoa(b);
      assert Itoa(-a) == Itoa(a)[1..] == Itoa(b)[1..] == Itoa(-b);
      NaturalItoaInjective(-a, -b);
    } else if a < 0 {
      NegativeItoa(a);
      NaturalItoaShape(b);
    } else if b < 0 {
      NegativeItoa(b);
      NaturalItoaShape(a);
    } else {
      NaturalItoaInjective(a, b);
    }
  }

  lemma NegativeItoa(n: int)
    requires n < 0
    ensures |Itoa(n)| > 0 && Itoa(n)[0] == '-' && Itoa(n)[1..] == Itoa(-n)
  {
  }

  /** strings.HasPrefix */
  predicate HasPrefix(s: string, prefix: string)
  {
    |prefix| <= |s| && s[..|prefix|] == prefix
  }
}
