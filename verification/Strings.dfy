/** Strings as the program compares and prints them. */
module Strings {

  // ---------------------------------------------------------------- order

  /** Byte order, as `<` on Go strings, `sort.Strings` and `Array.sort` use it. */
  predicate Leq(a: string, b: string) {
    a == "" || (b != "" && (a[0] < b[0] || (a[0] == b[0] && Leq(a[1..], b[1..]))))
  }

  predicate Less(a: string, b: string) {
    Leq(a, b) && a != b
  }

  /** The order is that of the first byte that differs, and a prefix comes before what it begins. */
  lemma {:induction false} LeqMeans(a: string, b: string)
    ensures Leq(a, b) <==> a <= b || exists k :: FirstSmaller(a, b, k)
  {
    if a != "" && b != "" && a[0] == b[0] {
      LeqMeans(a[1..], b[1..]);
      if a[1..] <= b[1..] {
        assert a <= b;
      }
      if k :| FirstSmaller(a[1..], b[1..], k) {
        assert FirstSmaller(a, b, k + 1);
      }
      if k :| FirstSmaller(a, b, k) {
        assert FirstSmaller(a[1..], b[1..], k - 1);
      }
    } else if a != "" && b != "" && a[0] < b[0] {
      assert FirstSmaller(a, b, 0);
    }
  }

  predicate FirstSmaller(a: string, b: string, k: int) {
    0 <= k < |a| && k < |b| && a[k] < b[k] && forall i | 0 <= i < k :: a[i] == b[i]
  }

  lemma {:induction false} LeqTotal(a: string, b: string)
    ensures Leq(a, b) || Leq(b, a)
    ensures Leq(a, a)
  {
    if a != "" {
      LeqTotal(a[1..], a[1..]);
      if b != "" {
        LeqTotal(a[1..], b[1..]);
      }
    }
  }

  lemma {:induction false} LeqAntisymmetric(a: string, b: string)
    requires Leq(a, b) && Leq(b, a)
    ensures a == b
  {
    if a != "" && b != "" {
      LeqAntisymmetric(a[1..], b[1..]);
      assert a == [a[0]] + a[1..] && b == [b[0]] + b[1..];
    }
  }

  lemma {:induction false} LeqTransitive(a: string, b: string, c: string)
    requires Leq(a, b) && Leq(b, c)
    ensures Leq(a, c)
  {
    if a != "" && a[0] == b[0] && b[0] == c[0] {
      LeqTransitive(a[1..], b[1..], c[1..]);
    }
  }

  lemma LessTransitive(a: string, b: string, c: string)
    requires Less(a, b) && Less(b, c)
    ensures Less(a, c)
  {
    LeqTransitive(a, b, c);
    if a == c {
      LeqAntisymmetric(a, b);
    }
  }

  // ---------------------------------------------------------------- sorted lists of distinct strings

  ghost predicate Ascending(xs: seq<string>) {
    forall i, j | 0 <= i < j < |xs| :: Less(xs[i], xs[j])
  }

  /** Where x goes in an ascending list. */
  function Insert(x: string, xs: seq<string>): seq<string> {
    if xs == [] then [x]
    else if x == xs[0] then xs
    else if Leq(x, xs[0]) then [x] + xs
    else [xs[0]] + Insert(x, xs[1..])
  }

  lemma {:induction false} InsertHas(x: string, xs: seq<string>, y: string)
    ensures y in Insert(x, xs) <==> y == x || y in xs
  {
    if xs != [] {
      InsertHas(x, xs[1..], y);
      assert xs == [xs[0]] + xs[1..];
    }
  }

  lemma {:induction false} InsertAscending(x: string, xs: seq<string>)
    requires Ascending(xs)
    ensures Ascending(Insert(x, xs))
  {
    if xs != [] && x != xs[0] {
      LeqTotal(x, xs[0]);
      if Leq(x, xs[0]) {
        forall i | 0 < i < |xs| ensures Less(x, xs[i]) {
          LessTransitive(x, xs[0], xs[i]);
        }
      } else {
        RestHas(xs);
        InsertAscending(x, xs[1..]);
        var ys := Insert(x, xs[1..]);
        forall i | 0 <= i < |ys| ensures Less(xs[0], ys[i]) {
          InsertHas(x, xs[1..], ys[i]);
          assert ys[i] in ys;
          if ys[i] != x {
            FirstBelow(xs, ys[i]);
          }
        }
      }
    }
  }

  lemma FirstBelow(xs: seq<string>, y: string)
    requires Ascending(xs) && xs != [] && y in xs[1..]
    ensures Less(xs[0], y)
  {
    var k :| 0 <= k < |xs[1..]| && xs[1..][k] == y;
    assert xs[k + 1] == y;
  }

  /** A set of strings has only one ascending listing. */
  lemma {:induction false} AscendingUnique(xs: seq<string>, ys: seq<string>)
    requires Ascending(xs) && Ascending(ys) && forall x :: x in xs <==> x in ys
    ensures xs == ys
  {
    EmptyTogether(xs, ys);
    EmptyTogether(ys, xs);
    if xs != [] {
      FirstIsLeast(xs, ys);
      RestHas(xs);
      RestHas(ys);
      AscendingUnique(xs[1..], ys[1..]);
      assert xs == [xs[0]] + xs[1..] && ys == [ys[0]] + ys[1..];
    }
  }

  lemma EmptyTogether(xs: seq<string>, ys: seq<string>)
    requires forall x :: x in xs <==> x in ys
    ensures ys == [] ==> xs == []
  {
    if xs != [] {
      assert xs[0] in ys;
    }
  }

  lemma FirstIsLeast(xs: seq<string>, ys: seq<string>)
    requires Ascending(xs) && Ascending(ys) && xs != [] && ys != [] && forall x :: x in xs <==> x in ys
    ensures xs[0] == ys[0]
  {
    assert xs[0] in ys && ys[0] in xs;
    var i :| 0 <= i < |ys| && ys[i] == xs[0];
    var j :| 0 <= j < |xs| && xs[j] == ys[0];
    if i > 0 && j > 0 {
      LeqAntisymmetric(xs[0], ys[0]);
    }
  }

  lemma RestHas(xs: seq<string>)
    requires Ascending(xs) && xs != []
    ensures Ascending(xs[1..])
    ensures forall x :: x in xs[1..] <==> x in xs && x != xs[0]
  {
    var rest := xs[1..];
    assert forall i | 0 <= i < |rest| :: rest[i] == xs[i + 1];
    assert xs == [xs[0]] + rest;
  }

  ghost predicate Lists(xs: seq<string>, ids: set<string>) {
    Ascending(xs) && forall x :: x in xs <==> x in ids
  }

  ghost function Sorted(ids: set<string>): (xs: seq<string>)
    ensures Lists(xs, ids)
  {
    if ids == {} then []
    else
      var x :| x in ids;
      var rest := Sorted(ids - {x});
      InsertAscending(x, rest);
      assert forall y {:trigger y in Insert(x, rest)} :: y in Insert(x, rest) <==> y in ids by {
        forall y ensures y in Insert(x, rest) <==> y in ids {
          InsertHas(x, rest, y);
        }
      }
      Insert(x, rest)
  }

  lemma ListsUnique(xs: seq<string>, ids: set<string>)
    requires Lists(xs, ids)
    ensures xs == Sorted(ids)
  {
    AscendingUnique(xs, Sorted(ids));
  }

  method Sort(ids: set<string>) returns (sorted: seq<string>)
    ensures sorted == Sorted(ids)
  {
    sorted := [];
    var left := ids;
    while left != {}
      invariant left <= ids
      invariant Ascending(sorted)
      invariant forall x :: x in sorted <==> x in ids && x !in left
    {
      var x :| x in left;
      InsertAscending(x, sorted);
      forall y ensures y in Insert(x, sorted) <==> y == x || y in sorted {
        InsertHas(x, sorted, y);
      }
      sorted := Insert(x, sorted);
      left := left - {x};
    }
    ListsUnique(sorted, ids);
  }

  // ---------------------------------------------------------------- joining

  predicate Free(s: string, sep: char) {
    sep !in s
  }

  function Join(xs: seq<string>, sep: char): string {
    if xs == [] then "" else if |xs| == 1 then xs[0] else xs[0] + [sep] + Join(xs[1..], sep)
  }

  /** Every element followed by a terminator. */
  function Lines(xs: seq<string>, end: char): string {
    if xs == [] then "" else xs[0] + [end] + Lines(xs[1..], end)
  }

  /** Up to the first separator, and after it. */
  lemma {:induction false} CutUnique(a: string, s: string, b: string, t: string, sep: char)
    requires Free(a, sep) && Free(b, sep) && a + [sep] + s == b + [sep] + t
    ensures a == b && s == t
  {
    var u, v := a + [sep] + s, b + [sep] + t;
    FirstIsSeparator(a, s, sep);
    FirstIsSeparator(b, t, sep);
    if a == "" {
      assert u[1..] == s && v[1..] == t;
    } else {
      assert u[0] == a[0] && v[0] == b[0];
      assert u[1..] == a[1..] + [sep] + s && v[1..] == b[1..] + [sep] + t;
      CutUnique(a[1..], s, b[1..], t, sep);
      assert a == [a[0]] + a[1..] && b == [b[0]] + b[1..];
    }
  }

  lemma FirstIsSeparator(a: string, s: string, sep: char)
    requires Free(a, sep)
    ensures (a + [sep] + s)[0] == sep <==> a == ""
  {
    if a != "" {
      assert (a + [sep] + s)[0] == a[0] && a[0] in a;
    }
  }

  ghost predicate AllFree(xs: seq<string>, sep: char) {
    forall i | 0 <= i < |xs| :: Free(xs[i], sep)
  }

  ghost predicate AllNonEmpty(xs: seq<string>) {
    forall i | 0 <= i < |xs| :: xs[i] != ""
  }

  lemma {:induction false} LinesInjective(xs: seq<string>, ys: seq<string>, end: char)
    requires AllFree(xs, end) && AllFree(ys, end) && Lines(xs, end) == Lines(ys, end)
    ensures xs == ys
  {
    if xs != [] && ys != [] {
      CutUnique(xs[0], Lines(xs[1..], end), ys[0], Lines(ys[1..], end), end);
      LinesInjective(xs[1..], ys[1..], end);
      assert xs == [xs[0]] + xs[1..] && ys == [ys[0]] + ys[1..];
    }
  }

  /** For non-empty, separator-free elements the joined key determines the list. */
  lemma {:induction false} JoinInjective(xs: seq<string>, ys: seq<string>, sep: char)
    requires AllFree(xs, sep) && AllFree(ys, sep) && AllNonEmpty(xs) && AllNonEmpty(ys)
    requires Join(xs, sep) == Join(ys, sep)
    ensures xs == ys
  {
    if |xs| >= 2 { JoinHasSeparator(xs, sep); }
    if |ys| >= 2 { JoinHasSeparator(ys, sep); }
    if |xs| >= 2 && |ys| >= 2 {
      CutUnique(xs[0], Join(xs[1..], sep), ys[0], Join(ys[1..], sep), sep);
      JoinInjective(xs[1..], ys[1..], sep);
      assert xs == [xs[0]] + xs[1..] && ys == [ys[0]] + ys[1..];
    }
  }

  lemma JoinHasSeparator(xs: seq<string>, sep: char)
    requires |xs| >= 2
    ensures sep in Join(xs, sep)
  {
    assert Join(xs, sep)[|xs[0]|] == sep;
  }

  /** The length of the elements, each with one separator. */
  function Size(xs: seq<string>): nat {
    if xs == [] then 0 else |xs[0]| + 1 + Size(xs[1..])
  }

  lemma {:induction false} JoinLength(xs: seq<string>, sep: char)
    ensures |Join(xs, sep)| == if xs == [] then 0 else Size(xs) - 1
  {
    if |xs| == 1 {
      assert Size(xs[1..]) == 0;
    } else if |xs| > 1 {
      JoinLength(xs[1..], sep);
    }
  }

  lemma {:induction false} InsertSize(x: string, xs: seq<string>)
    requires x !in xs
    ensures Size(Insert(x, xs)) == Size(xs) + |x| + 1
  {
    if xs == [] {
      assert Size([x][1..]) == 0;
    } else if Leq(x, xs[0]) {
      assert ([x] + xs)[1..] == xs;
    } else {
      InsertSize(x, xs[1..]);
      assert ([xs[0]] + Insert(x, xs[1..]))[1..] == Insert(x, xs[1..]);
    }
  }

  // ---------------------------------------------------------------- splitting

  function SplitFrom(s: string, sep: char, name: string): (xs: seq<string>)
    ensures |xs| > 0
  {
    if s == "" then [name]
    else if s[0] == sep then [name] + SplitFrom(s[1..], sep, "")
    else SplitFrom(s[1..], sep, name + [s[0]])
  }

  /** The pieces between separators, empty ones included. */
  function Split(s: string, sep: char): (xs: seq<string>)
    ensures |xs| > 0
  {
    SplitFrom(s, sep, "")
  }

  lemma {:induction false} JoinSplitFrom(s: string, sep: char, name: string)
    ensures SplitFrom(s, sep, name) != [] && Join(SplitFrom(s, sep, name), sep) == name + s
  {
    if s == "" {
      assert name + s == name;
    } else if s[0] == sep {
      JoinSplitFrom(s[1..], sep, "");
      var rest := SplitFrom(s[1..], sep, "");
      assert ([name] + rest)[1..] == rest;
      assert s == [sep] + s[1..];
    } else {
      JoinSplitFrom(s[1..], sep, name + [s[0]]);
      assert name + s == name + [s[0]] + s[1..];
    }
  }

  lemma JoinSplit(s: string, sep: char)
    ensures Join(Split(s, sep), sep) == s
  {
    JoinSplitFrom(s, sep, "");
  }

  lemma {:induction false} SplitFromJoined(a: string, b: string, sep: char, name: string)
    ensures SplitFrom(a + [sep] + b, sep, name) == SplitFrom(a, sep, name) + Split(b, sep)
  {
    var s := a + [sep] + b;
    if a == "" {
      assert s[0] == sep && s[1..] == b;
    } else {
      assert s[0] == a[0] && s[1..] == a[1..] + [sep] + b;
      SplitFromJoined(a[1..], b, sep, if a[0] == sep then "" else name + [a[0]]);
    }
  }

  lemma {:induction false} JoinAppend(xs: seq<string>, ys: seq<string>, sep: char)
    requires xs != [] && ys != []
    ensures Join(xs + ys, sep) == Join(xs, sep) + [sep] + Join(ys, sep)
  {
    if |xs| == 1 {
      assert (xs + ys)[1..] == ys;
    } else {
      assert (xs + ys)[1..] == xs[1..] + ys;
      JoinAppend(xs[1..], ys, sep);
    }
  }

  // ---------------------------------------------------------------- ids

  /** The ids the server admits as project ids. */
  predicate ValidId(id: string) {
    && (forall i | 0 <= i < |id| :: 'a' <= id[i] <= 'z' || '0' <= id[i] <= '9' || id[i] == '-')
    && |id| > 0 && id[0] != '-' && id[|id| - 1] != '-'
  }

  // ---------------------------------------------------------------- numbers

  function Digit(d: int): char
    requires 0 <= d < 10
  {
    "0123456789"[d]
  }

  /** %d of a non-negative integer. */
  function Decimal(n: int): string
    requires n >= 0
  {
    if n < 10 then [Digit(n)] else Decimal(n / 10) + [Digit(n % 10)]
  }

  /** The number a string of digits stands for. */
  function Value(s: string): int {
    if s == "" then 0 else Value(s[..|s| - 1]) * 10 + (s[|s| - 1] as int - '0' as int)
  }

  /** What is printed is decimal digits only, stands for the number, and has no leading zero. */
  lemma {:induction false} DecimalMeans(n: int)
    requires n >= 0
    ensures Value(Decimal(n)) == n && Decimal(n) != ""
    ensures forall i | 0 <= i < |Decimal(n)| :: '0' <= Decimal(n)[i] <= '9'
    ensures n > 0 ==> Decimal(n)[0] != '0'
  {
    DigitValue(n % 10);
    if n >= 10 {
      DecimalMeans(n / 10);
      assert Decimal(n)[..|Decimal(n)| - 1] == Decimal(n / 10);
    } else {
      assert [Digit(n)][..0] == "";
    }
  }

  lemma DigitValue(d: int)
    requires 0 <= d < 10
    ensures '0' <= Digit(d) <= '9' && Digit(d) as int - '0' as int == d
    ensures d > 0 ==> Digit(d) != '0'
  {
  }

  lemma DigitInjective(a: int, b: int)
    requires 0 <= a < 10 && 0 <= b < 10 && Digit(a) == Digit(b)
    ensures a == b
  {
  }

  lemma {:induction false} DecimalInjective(m: int, n: int)
    requires m >= 0 && n >= 0 && Decimal(m) == Decimal(n)
    ensures m == n
  {
    DecimalShape(m);
    DecimalShape(n);
    var s, t := Decimal(m), Decimal(n);
    DigitInjective(m % 10, n % 10);
    if m >= 10 && n >= 10 {
      assert Decimal(m / 10) == s[..|s| - 1] && Decimal(n / 10) == t[..|t| - 1];
      DecimalInjective(m / 10, n / 10);
    }
  }

  lemma DecimalShape(n: int)
    requires n >= 0
    ensures Decimal(n) != "" && Decimal(n)[|Decimal(n)| - 1] == Digit(n % 10)
    ensures n < 10 <==> |Decimal(n)| == 1
  {
    if n >= 10 {
      DecimalShape(n / 10);
    }
  }

  lemma {:induction false} DecimalFree(n: int, c: char)
    requires n >= 0 && c !in "0123456789"
    ensures Free(Decimal(n), c)
  {
    if n >= 10 {
      DecimalFree(n / 10, c);
    }
  }
}
