/** String operations the bots rely on: prefixes, `str.split(sep)[0]`,
    ASCII `str.lower`, `str.join`, Python's code-point string order, `sorted`
    and the digit parsing done by `int()` on property ids. */
module Text {
  import opened Wrappers

  /** `s.startswith(p)`. */
  predicate StartsWith(s: string, p: string) {
    |p| <= |s| && s[..|p|] == p
  }

  /** Python's `str.lower()` restricted to ASCII letters. */
  function LowerChar(c: char): char {
    if 'A' <= c <= 'Z' then (c as int + 32) as char else c
  }

  function Lower(s: string): (r: string)
    ensures |r| == |s|
    ensures forall i :: 0 <= i < |s| ==> r[i] == LowerChar(s[i])
  {
    if s == [] then [] else [LowerChar(s[0])] + Lower(s[1..])
  }

  /** `s.split(sep)[0]`: everything before the first occurrence of `sep`,
      or all of `s` when `sep` does not occur. */
  function BeforeFirst(s: string, sep: string): (r: string)
    requires sep != []
    ensures StartsWith(s, r)
    ensures forall i :: 0 <= i < |r| ==> !StartsWith(s[i..], sep)
    ensures |r| < |s| ==> StartsWith(s[|r|..], sep)
    decreases |s|
  {
    if |s| < |sep| then s
    else if StartsWith(s, sep) then []
    else
      var rest := BeforeFirst(s[1..], sep);
      assert forall i :: 1 <= i <= |s| ==> s[1..][i - 1..] == s[i..];
      [s[0]] + rest
  }

  /** `sep.join(xs)`. */
  function Join(sep: string, xs: seq<string>): string {
    if xs == [] then ""
    else if |xs| == 1 then xs[0]
    else xs[0] + sep + Join(sep, xs[1..])
  }

  lemma AppendAssoc<T>(a: seq<T>, b: seq<T>, c: seq<T>)
    ensures (a + b) + c == a + (b + c)
  {
  }

  /** `''.join(parts)`. */
  function Concat(parts: seq<string>): string {
    if parts == [] then "" else Concat(parts[..|parts| - 1]) + parts[|parts| - 1]
  }

  /** `[f(x) for x in xs]`. */
  function Lines<A>(xs: seq<A>, f: A -> string): (r: seq<string>)
    ensures |r| == |xs| && forall i :: 0 <= i < |xs| ==> r[i] == f(xs[i])
  {
    if xs == [] then [] else Lines(xs[..|xs| - 1], f) + [f(xs[|xs| - 1])]
  }

  lemma ConcatSnoc(parts: seq<string>, s: string)
    ensures Concat(parts + [s]) == Concat(parts) + s
  {
    assert (parts + [s])[..|parts|] == parts;
  }

  // ---------------------------------------------------------------------
  // Python's string order (lexicographic by code point) and `sorted`.

  predicate LexLe(a: string, b: string)
    decreases |a|
  {
    a == [] || (b != [] && (a[0] < b[0] || (a[0] == b[0] && LexLe(a[1..], b[1..]))))
  }

  lemma {:induction false} LexLeTotal(a: string, b: string)
    ensures LexLe(a, b) || LexLe(b, a)
    decreases |a|
  {
    if a != [] && b != [] && a[0] == b[0] {
      LexLeTotal(a[1..], b[1..]);
    }
  }

  lemma {:induction false} LexLeTransitive(a: string, b: string, c: string)
    requires LexLe(a, b) && LexLe(b, c)
    ensures LexLe(a, c)
    decreases |a|
  {
    if a != [] && a[0] == b[0] && b[0] == c[0] {
      LexLeTransitive(a[1..], b[1..], c[1..]);
    }
  }

  lemma {:induction false} LexLeAntisymmetric(a: string, b: string)
    requires LexLe(a, b) && LexLe(b, a)
    ensures a == b
    decreases |a|
  {
    if a != [] {
      LexLeAntisymmetric(a[1..], b[1..]);
      assert a == [a[0]] + a[1..] && b == [b[0]] + b[1..];
    }
  }

  /** The keys of `xs` (under `key`) are in ascending string order. */
  ghost predicate SortedBy<T>(xs: seq<T>, key: T -> string) {
    forall i, j :: 0 <= i < j < |xs| ==> LexLe(key(xs[i]), key(xs[j]))
  }

  function InsertBy<T>(x: T, xs: seq<T>, key: T -> string): seq<T> {
    if xs == [] then [x]
    else if LexLe(key(x), key(xs[0])) then [x] + xs
    else [xs[0]] + InsertBy(x, xs[1..], key)
  }

  /** `sorted(xs, key=key)`: a stable insertion sort. */
  function SortBy<T>(xs: seq<T>, key: T -> string): (r: seq<T>)
    ensures multiset(r) == multiset(xs)
    ensures SortedBy(r, key)
  {
    if xs == [] then []
    else
      var tail := SortBy(xs[1..], key);
      InsertHeadSortedBy(xs, tail, key);
      InsertBy(xs[0], tail, key)
  }

  /** Inserting the head into the sorted tail sorts the whole. */
  lemma InsertHeadSortedBy<T>(xs: seq<T>, tail: seq<T>, key: T -> string)
    requires xs != [] && multiset(tail) == multiset(xs[1..]) && SortedBy(tail, key)
    ensures multiset(InsertBy(xs[0], tail, key)) == multiset(xs)
    ensures SortedBy(InsertBy(xs[0], tail, key), key)
  {
    InsertBySorted(xs[0], tail, key);
    assert xs == [xs[0]] + xs[1..];
  }

  lemma {:induction false} InsertBySorted<T>(x: T, xs: seq<T>, key: T -> string)
    requires SortedBy(xs, key)
    ensures multiset(InsertBy(x, xs, key)) == multiset(xs) + multiset{x}
    ensures SortedBy(InsertBy(x, xs, key), key)
  {
    if xs == [] {
    } else if LexLe(key(x), key(xs[0])) {
      forall j | 0 <= j < |xs| ensures LexLe(key(x), key(xs[j])) {
        if j > 0 { LexLeTransitive(key(x), key(xs[0]), key(xs[j])); }
      }
    } else {
      LexLeTotal(key(x), key(xs[0]));
      InsertBySorted(x, xs[1..], key);
      var r := InsertBy(x, xs[1..], key);
      assert xs == [xs[0]] + xs[1..];
      forall j | 0 <= j < |r| ensures LexLe(key(xs[0]), key(r[j])) {
        assert r[j] in multiset(r);
        if r[j] != x {
          assert r[j] in multiset(xs[1..]);
          var k :| 0 <= k < |xs[1..]| && xs[1..][k] == r[j];
          assert xs[k + 1] == r[j];
        }
      }
    }
  }

  function Identity(s: string): string { s }

  /** `sorted(xs)` for strings. */
  function Sorted(xs: seq<string>): (r: seq<string>)
    ensures multiset(r) == multiset(xs)
    ensures SortedBy(r, Identity)
  {
    SortBy(xs, Identity)
  }

  // ---------------------------------------------------------------------
  // Sorting on a numeric key, as `sorted(..., key=lambda t: int(...))` does.

  ghost predicate SortedByInt<T>(xs: seq<T>, key: T -> int) {
    forall i, j :: 0 <= i < j < |xs| ==> key(xs[i]) <= key(xs[j])
  }

  function InsertByInt<T>(x: T, xs: seq<T>, key: T -> int): seq<T> {
    if xs == [] then [x]
    else if key(x) <= key(xs[0]) then [x] + xs
    else [xs[0]] + InsertByInt(x, xs[1..], key)
  }

  function SortByInt<T>(xs: seq<T>, key: T -> int): (r: seq<T>)
    ensures multiset(r) == multiset(xs)
    ensures SortedByInt(r, key)
  {
    if xs == [] then []
    else
      var tail := SortByInt(xs[1..], key);
      InsertHeadSorted(xs, tail, key);
      InsertByInt(xs[0], tail, key)
  }

  /** Inserting the head into the sorted tail sorts the whole. */
  lemma InsertHeadSorted<T>(xs: seq<T>, tail: seq<T>, key: T -> int)
    requires xs != [] && multiset(tail) == multiset(xs[1..]) && SortedByInt(tail, key)
    ensures multiset(InsertByInt(xs[0], tail, key)) == multiset(xs)
    ensures SortedByInt(InsertByInt(xs[0], tail, key), key)
  {
    InsertByIntSorted(xs[0], tail, key);
    assert xs == [xs[0]] + xs[1..];
  }

  lemma {:induction false} InsertByIntPerm<T>(x: T, xs: seq<T>, key: T -> int)
    ensures multiset(InsertByInt(x, xs, key)) == multiset(xs) + multiset{x}
  {
    if xs != [] && key(x) > key(xs[0]) {
      InsertByIntPerm(x, xs[1..], key);
      assert xs == [xs[0]] + xs[1..];
    }
  }

  lemma {:induction false} InsertByIntSorted<T>(x: T, xs: seq<T>, key: T -> int)
    requires SortedByInt(xs, key)
    ensures multiset(InsertByInt(x, xs, key)) == multiset(xs) + multiset{x}
    ensures SortedByInt(InsertByInt(x, xs, key), key)
  {
    InsertByIntPerm(x, xs, key);
    if xs != [] && key(x) > key(xs[0]) {
      var h, rest := xs[0], xs[1..];
      InsertByIntSorted(x, rest, key);
      var r := InsertByInt(x, rest, key);
      forall j | 0 <= j < |r| ensures key(h) <= key(r[j]) {
        AboveHead(h, x, rest, r[j], key);
      }
      SortedCons(h, r, key);
      assert InsertByInt(x, xs, key) == [h] + r;
    }
  }

  /** What `InsertByInt` puts after a head `h` it passed over lies at or above `h`'s key. */
  lemma AboveHead<T>(h: T, x: T, rest: seq<T>, y: T, key: T -> int)
    requires SortedByInt([h] + rest, key) && key(h) < key(x)
    requires y in multiset(rest) + multiset{x}
    ensures key(h) <= key(y)
  {
    if y != x {
      assert y in rest;
      var k :| 0 <= k < |rest| && rest[k] == y;
      assert ([h] + rest)[0] == h && ([h] + rest)[k + 1] == y;
    }
  }

  lemma SortedCons<T>(h: T, r: seq<T>, key: T -> int)
    requires SortedByInt(r, key)
    requires forall j :: 0 <= j < |r| ==> key(h) <= key(r[j])
    ensures SortedByInt([h] + r, key)
  {
  }

  // ---------------------------------------------------------------------
  // Sequences without repeats, and `set(xs)` taken in first-occurrence order.

  predicate Distinct<T(==)>(xs: seq<T>) {
    forall i, j :: 0 <= i < j < |xs| ==> xs[i] != xs[j]
  }

  /** A sequence is without repeats exactly when no member occurs twice in
      its multiset; so a permutation of one is one too. */
  lemma {:induction false} DistinctMultiplicity<T>(xs: seq<T>)
    ensures Distinct(xs) <==> forall x :: multiset(xs)[x] <= 1
  {
    if xs != [] {
      var t := xs[1..];
      assert xs == [xs[0]] + t;
      assert multiset(xs) == multiset{xs[0]} + multiset(t);
      DistinctMultiplicity(t);
      if Distinct(xs) {
        assert xs[0] !in t;
        assert Distinct(t) by {
          forall i, j | 0 <= i < j < |t| ensures t[i] != t[j] {
            assert t[i] == xs[i + 1] && t[j] == xs[j + 1];
          }
        }
      }
      if forall x :: multiset(xs)[x] <= 1 {
        assert multiset(t)[xs[0]] == 0;
        assert forall x :: multiset(t)[x] <= multiset(xs)[x];
        forall i, j | 0 <= i < j < |xs| ensures xs[i] != xs[j] {
          if i == 0 {
            assert xs[j] in t;
          } else {
            assert xs[i] == t[i - 1] && xs[j] == t[j - 1];
          }
        }
      }
    }
  }

  /** The first two positions of a sequence hold members of it. */
  lemma LeadingMembers<T>(xs: seq<T>)
    ensures xs == [] || xs[0] in xs
    ensures |xs| <= 1 || xs[1] in xs
  {
  }

  lemma DistinctPermutation<T>(xs: seq<T>, ys: seq<T>)
    requires multiset(xs) == multiset(ys) && Distinct(xs)
    ensures Distinct(ys)
  {
    DistinctMultiplicity(xs);
    DistinctMultiplicity(ys);
  }

  /** The members of `xs`, each once, in the order of first occurrence. */
  function Dedup<T(==,!new)>(xs: seq<T>): (r: seq<T>)
    ensures Distinct(r)
    ensures forall x :: x in r <==> x in xs
    decreases |xs|
  {
    if xs == [] then []
    else
      var init := Dedup(xs[..|xs| - 1]);
      var last := xs[|xs| - 1];
      assert xs == xs[..|xs| - 1] + [last];
      if last in init then init else init + [last]
  }

  // ---------------------------------------------------------------------
  // `str.strip()` and `int(s)`.

  /** The whitespace `str.strip()` removes, restricted to ASCII. */
  predicate IsSpace(c: char) {
    c == ' ' || c == '\t' || c == '\n' || c == '\r' || c as int == 11 || c as int == 12
  }

  /** How many spaces `s` starts with. */
  function LeadingSpaces(s: string): (n: nat)
    ensures n <= |s|
    ensures forall k :: 0 <= k < n ==> IsSpace(s[k])
    ensures n < |s| ==> !IsSpace(s[n])
  {
    if s == [] || !IsSpace(s[0]) then 0 else 1 + LeadingSpaces(s[1..])
  }

  /** How many spaces `s` ends with. */
  function TrailingSpaces(s: string): (n: nat)
    ensures n <= |s|
    ensures forall k :: |s| - n <= k < |s| ==> IsSpace(s[k])
    ensures n < |s| ==> !IsSpace(s[|s| - n - 1])
  {
    if s == [] || !IsSpace(s[|s| - 1]) then 0 else 1 + TrailingSpaces(s[..|s| - 1])
  }

  /** `s.strip()`: the part of `s` left once every space is removed from
      both ends, so that what remains neither starts nor ends with one. */
  function Strip(s: string): (r: string)
    ensures exists i, j :: 0 <= i <= j <= |s| && r == s[i..j] &&
              (forall k :: 0 <= k < i ==> IsSpace(s[k])) &&
              (forall k :: j <= k < |s| ==> IsSpace(s[k]))
    ensures r == [] || (!IsSpace(r[0]) && !IsSpace(r[|r| - 1]))
  {
    var lead := LeadingSpaces(s);
    if lead == |s| then
      assert s[|s|..|s|] == [];
      []
    else
      var trail := TrailingSpaces(s);
      assert !IsSpace(s[lead]);
      s[lead..|s| - trail]
  }

  /** A string that neither starts nor ends with a space is its own strip. */
  lemma StripTrimmed(s: string)
    requires s != [] && !IsSpace(s[0]) && !IsSpace(s[|s| - 1])
    ensures Strip(s) == s
  {
    assert LeadingSpaces(s) == 0 && TrailingSpaces(s) == 0;
  }

  predicate IsDigit(c: char) { '0' <= c <= '9' }

  /** A non-empty run of decimal digits. */
  predicate AllDigits(s: string) {
    s != [] && forall i :: 0 <= i < |s| ==> IsDigit(s[i])
  }

  function DigitValue(c: char): nat
    requires IsDigit(c)
  {
    c as int - '0' as int
  }

  /** The number a run of decimal digits spells, most significant first. */
  function DigitsValue(s: string): nat
    requires forall i :: 0 <= i < |s| ==> IsDigit(s[i])
  {
    if s == [] then 0
    else
      assert IsDigit(s[|s| - 1]);
      DigitsValue(s[..|s| - 1]) * 10 + DigitValue(s[|s| - 1])
  }

  /** Appending a digit shifts the value one decimal place and adds the digit. */
  lemma DigitsValueSnoc(s: string, d: char)
    requires forall i :: 0 <= i < |s| ==> IsDigit(s[i])
    requires IsDigit(d)
    ensures DigitsValue(s + [d]) == 10 * DigitsValue(s) + DigitValue(d)
  {
    assert (s + [d])[..|s|] == s;
  }

  /** `str(n)` for a natural number: its decimal digits, without leading zeros. */
  function DecimalText(n: nat): (r: string)
    ensures r != [] && AllDigits(r)
    ensures |r| > 1 ==> r[0] != '0'
    decreases n
  {
    var last := ['0' + (n % 10) as char];
    if n < 10 then last else DecimalText(n / 10) + last
  }

  /** Reading back the decimal text of a number gives the number. */
  lemma {:induction false} DecimalTextValue(n: nat)
    ensures DigitsValue(DecimalText(n)) == n
    decreases n
  {
    var last := '0' + (n % 10) as char;
    if n >= 10 {
      DecimalTextValue(n / 10);
      DigitsValueSnoc(DecimalText(n / 10), last);
    } else {
      assert DecimalText(n) == [] + [last];
      DigitsValueSnoc([], last);
    }
  }

  /** `int(s)` in base 10: spaces around the text are ignored, then an
      optional sign and a non-empty run of decimal digits give the value;
      anything else is an error. */
  function ParseInt(s: string): (r: Option<int>)
    ensures var t := Strip(s);
            r.Some? <==> AllDigits(t) || (|t| > 1 && (t[0] == '+' || t[0] == '-') && AllDigits(t[1..]))
    ensures var t := Strip(s); AllDigits(t) ==> r == Some(DigitsValue(t))
    ensures var t := Strip(s);
            |t| > 1 && t[0] == '+' && AllDigits(t[1..]) ==> r == Some(DigitsValue(t[1..]))
    ensures var t := Strip(s);
            |t| > 1 && t[0] == '-' && AllDigits(t[1..]) ==> r == Some(0 - DigitsValue(t[1..]))
  {
    var t := Strip(s);
    if AllDigits(t) then Some(DigitsValue(t))
    else if |t| > 1 && t[0] == '+' && AllDigits(t[1..]) then Some(DigitsValue(t[1..]))
    else if |t| > 1 && t[0] == '-' && AllDigits(t[1..]) then Some(0 - DigitsValue(t[1..]))
    else None
  }

  /** `int(str(n)) == n`, whatever spaces surround the text. */
  lemma ParseDecimalText(n: nat, pre: string, post: string)
    requires forall k :: 0 <= k < |pre| ==> IsSpace(pre[k])
    requires forall k :: 0 <= k < |post| ==> IsSpace(post[k])
    ensures ParseInt(pre + DecimalText(n) + post) == Some(n)
  {
    var d := DecimalText(n);
    var s := pre + d + post;
    assert Strip(s) == d by {
      assert IsDigit(d[0]) && IsDigit(d[|d| - 1]);
      SpacedStrip(pre, d, post);
    }
    DecimalTextValue(n);
    ParseIntOfDigits(s, d);
  }

  lemma ParseIntOfDigits(s: string, d: string)
    requires Strip(s) == d && AllDigits(d)
    ensures ParseInt(s) == Some(DigitsValue(d))
  {
  }

  lemma ParseIntOfNegatedDigits(s: string, d: string)
    requires Strip(s) == "-" + d && d != [] && AllDigits(d)
    ensures ParseInt(s) == Some(0 - DigitsValue(d))
  {
    var t := "-" + d;
    assert t[1..] == d;
    assert !IsDigit(t[0]);
  }

  /** `int('-' + digits) == -value(digits)` for any non-empty run of decimal
      digits, whatever spaces surround the text. */
  lemma ParseNegatedDigits(pre: string, d: string, post: string)
    requires forall k :: 0 <= k < |pre| ==> IsSpace(pre[k])
    requires forall k :: 0 <= k < |post| ==> IsSpace(post[k])
    requires d != [] && AllDigits(d)
    ensures ParseInt(pre + "-" + d + post) == Some(0 - DigitsValue(d))
  {
    var t := "-" + d;
    var s := pre + "-" + d + post;
    assert Strip(s) == t by {
      assert s == pre + t + post;
      assert !IsSpace(t[0]) && t[|t| - 1] == d[|d| - 1] && IsDigit(d[|d| - 1]);
      SpacedStrip(pre, t, post);
    }
    ParseIntOfNegatedDigits(s, d);
  }

  /** Spaces around a trimmed string are what `strip` takes away. */
  lemma SpacedStrip(pre: string, t: string, post: string)
    requires forall k :: 0 <= k < |pre| ==> IsSpace(pre[k])
    requires forall k :: 0 <= k < |post| ==> IsSpace(post[k])
    requires t != [] && !IsSpace(t[0]) && !IsSpace(t[|t| - 1])
    ensures Strip(pre + t + post) == t
  {
    var s := pre + t + post;
    SpacesCount(pre, t + post);
    assert s == pre + (t + post);
    SpacesCountBack(pre + t, post);
    assert s[|pre|..|s| - |post|] == t;
  }

  lemma {:induction false} SpacesCount(pre: string, rest: string)
    requires forall k :: 0 <= k < |pre| ==> IsSpace(pre[k])
    requires rest != [] && !IsSpace(rest[0])
    ensures LeadingSpaces(pre + rest) == |pre|
    decreases |pre|
  {
    if pre != [] {
      SpacesCount(pre[1..], rest);
      assert (pre + rest)[1..] == pre[1..] + rest;
    }
  }

  lemma {:induction false} SpacesCountBack(init: string, post: string)
    requires forall k :: 0 <= k < |post| ==> IsSpace(post[k])
    requires init != [] && !IsSpace(init[|init| - 1])
    ensures TrailingSpaces(init + post) == |post|
    decreases |post|
  {
    if post != [] {
      var p := post[..|post| - 1];
      SpacesCountBack(init, p);
      assert (init + post)[..|init + post| - 1] == init + p;
    }
  }
}
