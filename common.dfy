/** Values and string helpers shared by every screen of the restaurant app.

    The screens work on JavaScript strings; here a string is a `seq<char>`
    of Unicode scalar values. `trim` removes the same white space as
    JavaScript, case mapping covers the ASCII and Latin-1 letters, a
    string's `length` counts UTF-16 code units, and `Number(text)` is
    modelled for optionally signed decimal integers. */
module Common {

  datatype Option<T> = None | Some(value: T) {
    function GetOr(default: T): T {
      if Some? then value else default
    }
  }

  // ---------------------------------------------------------------------------
  // Characters

  predicate IsDigit(c: char) {
    '0' <= c <= '9'
  }

  predicate AllDigits(s: string) {
    forall i :: 0 <= i < |s| ==> IsDigit(s[i])
  }

  /** The white space and line terminators `String.prototype.trim` removes:
      tab, line feed, vertical tab, form feed, carriage return, space,
      no-break space, the other space separators of Unicode, the line and
      paragraph separators and the byte order mark. */
  predicate IsSpace(c: char) {
    c as int in Blancos
  }

  const Blancos: set<int> := {
    9, 10, 11, 12, 13, 0x20, 0xA0, 0x1680,
    0x2000, 0x2001, 0x2002, 0x2003, 0x2004, 0x2005, 0x2006, 0x2007, 0x2008, 0x2009, 0x200A,
    0x2028, 0x2029, 0x202F, 0x205F, 0x3000, 0xFEFF}

  predicate AllSpace(s: string) {
    forall i :: 0 <= i < |s| ==> IsSpace(s[i])
  }

  /** `toLowerCase` of one character: the capitals of ASCII and of
      Latin-1 (`À` to `Þ`, but not `×`) become small letters. */
  function LowerChar(c: char): char {
    if 'A' <= c <= 'Z' || ('\U{00C0}' <= c <= '\U{00DE}' && c != '\U{00D7}') then (c as int + 32) as char else c
  }

  /** `toUpperCase` of one character, for the small letters of ASCII and
      of Latin-1 (`à` to `þ`, but not `÷`; `ÿ` and `µ` have capitals
      outside Latin-1). `ß`, whose capital is two letters, is kept. */
  function UpperChar(c: char): char {
    if 'a' <= c <= 'z' || ('\U{00E0}' <= c <= '\U{00FE}' && c != '\U{00F7}') then (c as int - 32) as char
    else if c == '\U{00FF}' then '\U{0178}'
    else if c == '\U{00B5}' then '\U{039C}'
    else c
  }

  /** The JavaScript `length` of a string: its UTF-16 code units, so a
      character outside the Basic Multilingual Plane counts twice. */
  function Utf16Length(s: string): (r: nat)
    ensures |s| <= r <= 2 * |s|
    ensures r == 0 <==> s == []
  {
    if s == [] then 0 else Utf16Length(s[..|s| - 1]) + (if s[|s| - 1] as int >= 0x10000 then 2 else 1)
  }

  // ---------------------------------------------------------------------------
  // Trimming

  function TrimStart(s: string): (r: string)
    ensures |r| <= |s| && r == s[|s| - |r|..]
    ensures r == [] || !IsSpace(r[0])
    ensures AllSpace(s[..|s| - |r|])
  {
    if s != [] && IsSpace(s[0]) then
      var r := TrimStart(s[1..]);
      assert s[1..][|s[1..]| - |r|..] == s[|s| - |r|..];
      assert forall k :: 1 <= k < |s| - |r| ==> s[k] == s[1..][k - 1];
      r
    else s
  }

  function TrimEnd(s: string): (r: string)
    ensures |r| <= |s| && r == s[..|r|]
    ensures r == [] || !IsSpace(r[|r| - 1])
    ensures AllSpace(s[|r|..])
  {
    if s != [] && IsSpace(s[|s| - 1]) then
      var r := TrimEnd(s[..|s| - 1]);
      assert s[..|s| - 1][..|r|] == s[..|r|];
      assert forall k :: |r| <= k < |s| - 1 ==> s[k] == s[..|s| - 1][k];
      r
    else s
  }

  /** `r` is `s` with some white space cut from its start and its end. */
  predicate EsRecorte(s: string, r: string) {
    exists k :: 0 <= k <= |s| - |r| && r == s[k..k + |r|] && AllSpace(s[..k]) && AllSpace(s[k + |r|..])
  }

  /** `String.prototype.trim`: the result is the input with the white
      space at both ends cut off, that is, a slice of the input with only
      white space before and after it and none at either of its own ends;
      it is empty exactly when the input is all white space. */
  function Trim(s: string): (r: string)
    ensures |r| <= |s|
    ensures EsRecorte(s, r)
    ensures r == [] || (!IsSpace(r[0]) && !IsSpace(r[|r| - 1]))
    ensures r == [] <==> AllSpace(s)
  {
    var a := TrimStart(s);
    var r := TrimEnd(a);
    TrimHechos(s, |s| - |a|, a, r);
    r
  }

  /** What `Trim` promises, from what its two halves promise: `a` is what
      is left after the white space at the start, `r` what is left of `a`
      after the white space at the end. */
  lemma TrimHechos(s: string, k: nat, a: string, r: string)
    requires k <= |s| && a == s[k..] && |r| <= |a| && r == a[..|r|]
    requires AllSpace(s[..k]) && AllSpace(a[|r|..])
    requires a == [] || !IsSpace(a[0])
    requires r == [] || !IsSpace(r[|r| - 1])
    ensures |r| <= |s|
    ensures EsRecorte(s, r)
    ensures r == [] || (!IsSpace(r[0]) && !IsSpace(r[|r| - 1]))
    ensures r == [] <==> AllSpace(s)
  {
    assert r != [] ==> r[0] == a[0];
    TrimEsTajada(s, k, a, r);
    TrimVacio(s, k, a, r);
  }

  lemma TrimVacio(s: string, k: nat, a: string, r: string)
    requires k <= |s| && a == s[k..] && |r| <= |a| && r == a[..|r|]
    requires AllSpace(s[..k]) && AllSpace(a[|r|..])
    requires a == [] || !IsSpace(a[0])
    ensures r == [] <==> AllSpace(s)
  {
    if r == [] {
      assert a[|r|..] == a;
      assert k == |s|;
      assert s[..k] == s;
    } else {
      assert s[k] == a[0];
    }
  }

  lemma TrimEsTajada(s: string, k: nat, a: string, r: string)
    requires k <= |s| && a == s[k..] && |r| <= |a| && r == a[..|r|]
    requires AllSpace(s[..k]) && AllSpace(a[|r|..])
    ensures EsRecorte(s, r)
  {
    assert r == s[k..k + |r|];
    assert s[k + |r|..] == a[|r|..];
  }

  /** Trimming text that is white space, then a word with no white space
      at its ends, then white space again, gives back the word. */
  lemma TrimRodeado(a: string, x: string, b: string)
    requires AllSpace(a) && AllSpace(b)
    requires x != [] && !IsSpace(x[0]) && !IsSpace(x[|x| - 1])
    ensures Trim(a + x + b) == x
  {
    var y := x + b;
    assert a + x + b == a + y;
    assert y[0] == x[0];
    TrimStartRodeado(a, y);
    TrimEndRodeado(x, b);
    assert Trim(a + y) == TrimEnd(TrimStart(a + y));
  }

  lemma {:induction false} TrimStartRodeado(a: string, y: string)
    requires AllSpace(a)
    requires y != [] && !IsSpace(y[0])
    ensures TrimStart(a + y) == y
  {
    if a != [] {
      assert (a + y)[1..] == a[1..] + y;
      TrimStartRodeado(a[1..], y);
    }
  }

  lemma {:induction false} TrimEndRodeado(x: string, b: string)
    requires AllSpace(b)
    requires x != [] && !IsSpace(x[|x| - 1])
    ensures TrimEnd(x + b) == x
  {
    if b != [] {
      assert (x + b)[..|x + b| - 1] == x + b[..|b| - 1];
      TrimEndRodeado(x, b[..|b| - 1]);
    }
  }

  // ---------------------------------------------------------------------------
  // Case mapping and search

  /** `toLowerCase`, character by character (`LowerChar`). */
  function Lower(s: string): (r: string)
    ensures |r| == |s|
    ensures forall i :: 0 <= i < |s| ==> r[i] == LowerChar(s[i])
  {
    seq(|s|, i requires 0 <= i < |s| => LowerChar(s[i]))
  }

  /** `toUpperCase`, character by character (`UpperChar`). */
  function Upper(s: string): (r: string)
    ensures |r| == |s|
    ensures forall i :: 0 <= i < |s| ==> r[i] == UpperChar(s[i])
  {
    seq(|s|, i requires 0 <= i < |s| => UpperChar(s[i]))
  }

  /** `hay.includes(needle)`. */
  predicate Contains(hay: string, needle: string) {
    exists i :: 0 <= i <= |hay| && needle <= hay[i..]
  }

  /** `parts.join(sep)`. */
  function Join(parts: seq<string>, sep: string): string {
    if parts == [] then ""
    else if |parts| == 1 then parts[0]
    else parts[0] + sep + Join(parts[1..], sep)
  }

  // ---------------------------------------------------------------------------
  // Decimal numbers

  function DigitChar(d: nat): (c: char)
    requires d < 10
    ensures IsDigit(c)
  {
    ('0' as int + d) as char
  }

  function DigitValue(c: char): (d: nat)
    requires IsDigit(c)
    ensures d < 10 && DigitChar(d) == c
  {
    c as int - '0' as int
  }

  /** The value of a string of decimal digits, most significant first. */
  function DigitsValue(s: string): nat
    requires AllDigits(s)
  {
    if s == [] then 0 else DigitsValue(s[..|s| - 1]) * 10 + DigitValue(s[|s| - 1])
  }

  /** Template-literal rendering of a natural number. */
  function NatToString(n: nat): (r: string)
    ensures r != [] && AllDigits(r)
  {
    if n < 10 then [DigitChar(n)] else NatToString(n / 10) + [DigitChar(n % 10)]
  }

  /** Template-literal rendering of an integer. */
  function IntToString(n: int): (r: string)
    ensures r != []
  {
    if n < 0 then "-" + NatToString(-n) else NatToString(n)
  }

  lemma {:induction false} DigitsValueOfNatToString(n: nat)
    ensures DigitsValue(NatToString(n)) == n
  {
    var s := NatToString(n);
    if n >= 10 {
      DigitsValueOfNatToString(n / 10);
      assert s[..|s| - 1] == NatToString(n / 10);
    }
  }

  /** Text `Number` reads as an integer: decimal digits, optionally after
      a sign. */
  predicate EsEntero(t: string) {
    (t != [] && AllDigits(t)) || (|t| > 1 && (t[0] == '-' || t[0] == '+') && AllDigits(t[1..]))
  }

  /** The value of such text: the digits' decimal value, negated after a
      minus sign. */
  function ValorEntero(t: string): (v: int)
    requires EsEntero(t)
    ensures AllDigits(t) ==> v == DigitsValue(t)
    ensures !AllDigits(t) ==> t[0] in "+-" && v == (if t[0] == '-' then -(DigitsValue(t[1..]) as int) else DigitsValue(t[1..]))
  {
    if AllDigits(t) then DigitsValue(t)
    else if t[0] == '-' then -(DigitsValue(t[1..]) as int)
    else DigitsValue(t[1..])
  }

  /** `Number(text)` for the integer forms: surrounding white space is
      ignored, blank text is 0, an optional sign may precede the digits, and
      anything else is `NaN` (here `None`). */
  function ParseNumber(text: string): (r: Option<int>)
    ensures AllSpace(text) ==> r == Some(0)
    ensures EsEntero(Trim(text)) ==> r == Some(ValorEntero(Trim(text)))
    ensures r == None <==> !AllSpace(text) && !EsEntero(Trim(text))
  {
    var t := Trim(text);
    if t == [] then Some(0)
    else if EsEntero(t) then Some(ValorEntero(t))
    else None
  }

  /** `Number` reads back any integer written in decimal, with white space
      around it or not. */
  lemma ParseNumberOfIntToString(a: string, n: int, b: string)
    requires AllSpace(a) && AllSpace(b)
    ensures ParseNumber(a + IntToString(n) + b) == Some(n)
  {
    var s := IntToString(n);
    var d := NatToString(if n < 0 then -n else n);
    assert s[|s| - 1] == d[|d| - 1];
    TrimRodeado(a, s, b);
    DigitsValueOfNatToString(if n < 0 then -n else n);
    if n < 0 {
      assert s[1..] == d;
      assert !IsDigit(s[0]);
    }
  }

  // ---------------------------------------------------------------------------
  // Array.prototype.filter and reduce

  /** `a` is `b` with some elements left out and the rest in their order. */
  predicate IsSublist<T(==)>(a: seq<T>, b: seq<T>)
    decreases |b|
  {
    a == [] || (b != [] && if a[0] == b[0] then IsSublist(a[1..], b[1..]) else IsSublist(a, b[1..]))
  }

  /** `s.filter(keep)`: the elements that pass, in their order. Which
      elements those are is stated by `FilterSii` and `FilterSublist`, one
      element at a time, so that the fact is brought in only where needed. */
  function Filter<T>(s: seq<T>, keep: T -> bool): (r: seq<T>)
    ensures |r| <= |s|
  {
    if s == [] then []
    else if keep(s[0]) then [s[0]] + Filter(s[1..], keep)
    else Filter(s[1..], keep)
  }

  /** An element is kept exactly when it is in the input and passes. */
  lemma {:induction false} FilterSii<T>(s: seq<T>, keep: T -> bool, x: T)
    ensures x in Filter(s, keep) <==> x in s && keep(x)
  {
    if s != [] {
      FilterSii(s[1..], keep, x);
      assert s == [s[0]] + s[1..];
    }
  }

  /** Each value is kept as many times as it occurs, or not at all. */
  lemma {:induction false} FilterCuenta<T>(s: seq<T>, keep: T -> bool, x: T)
    ensures multiset(Filter(s, keep))[x] == if keep(x) then multiset(s)[x] else 0
  {
    if s != [] {
      FilterCuenta(s[1..], keep, x);
      assert s == [s[0]] + s[1..];
    }
  }

  /** Every element of the result is an element of the input that passes. */
  lemma FilterPasan<T>(s: seq<T>, keep: T -> bool)
    ensures forall i :: 0 <= i < |Filter(s, keep)| ==> Filter(s, keep)[i] in s && keep(Filter(s, keep)[i])
  {
    var r := Filter(s, keep);
    forall i | 0 <= i < |r| ensures r[i] in s && keep(r[i]) {
      FilterSii(s, keep, r[i]);
    }
  }

  lemma FilterMiembros<T(!new)>(s: seq<T>, keep: T -> bool)
    ensures forall x :: x in Filter(s, keep) <==> x in s && keep(x)
  {
    forall x {
      FilterSii(s, keep, x);
    }
  }

  /** The kept elements keep their order. */
  lemma {:induction false} FilterSublist<T>(s: seq<T>, keep: T -> bool)
    ensures IsSublist(Filter(s, keep), s)
  {
    if s != [] {
      FilterSublist(s[1..], keep);
      var r := Filter(s[1..], keep);
      if !keep(s[0]) && r != [] {
        FilterSii(s[1..], keep, r[0]);
      }
    }
  }

  lemma {:induction false} FilterAll<T(!new)>(s: seq<T>, keep: T -> bool)
    requires forall x :: x in s ==> keep(x)
    ensures Filter(s, keep) == s
  {
    if s != [] {
      FilterAll(s[1..], keep);
    }
  }

  /** Two tests that agree on every element keep the same elements. */
  lemma {:induction false} FilterSame<T>(s: seq<T>, a: T -> bool, b: T -> bool)
    requires forall x :: x in s ==> a(x) == b(x)
    ensures Filter(s, a) == Filter(s, b)
  {
    if s != [] {
      FilterSame(s[1..], a, b);
    }
  }

  /** Filtering twice is filtering once by both tests. */
  lemma {:induction false} FilterFilter<T>(s: seq<T>, a: T -> bool, b: T -> bool)
    ensures Filter(Filter(s, a), b) == Filter(s, x => a(x) && b(x))
  {
    if s != [] {
      FilterFilter(s[1..], a, b);
    }
  }

  /** Filtering keeps a list that is ordered by a descending key ordered. */
  predicate Descending<T>(s: seq<T>, key: T -> int) {
    forall i, j :: 0 <= i < j < |s| ==> key(s[i]) >= key(s[j])
  }

  lemma {:induction false} FilterKeepsDescending<T>(s: seq<T>, keep: T -> bool, key: T -> int)
    requires Descending(s, key)
    ensures Descending(Filter(s, keep), key)
  {
    if s != [] {
      FilterKeepsDescending(s[1..], keep, key);
      var t := Filter(s[1..], keep);
      forall i | 0 <= i < |t| ensures key(s[0]) >= key(t[i]) {
        FilterSii(s[1..], keep, t[i]);
        var k :| 0 <= k < |s[1..]| && s[1..][k] == t[i];
        assert s[k + 1] == t[i];
      }
      if keep(s[0]) {
        var r := [s[0]] + t;
        forall i, j | 0 <= i < j < |r| ensures key(r[i]) >= key(r[j]) {
          assert r[j] == t[j - 1];
          if i > 0 {
            assert r[i] == t[i - 1];
            assert key(t[i - 1]) >= key(t[j - 1]);
          }
        }
      }
    }
  }

  /** `s.reduce((acc, x) => acc + f(x), 0)`, a left fold. */
  function Sum<T>(s: seq<T>, f: T -> int): int {
    if s == [] then 0 else Sum(s[..|s| - 1], f) + f(s[|s| - 1])
  }

  lemma {:induction false} SumAppend<T>(a: seq<T>, b: seq<T>, f: T -> int)
    ensures Sum(a + b, f) == Sum(a, f) + Sum(b, f)
  {
    if b == [] {
      assert a + b == a;
    } else {
      SumAppend(a, b[..|b| - 1], f);
      assert (a + b)[..|a + b| - 1] == a + b[..|b| - 1];
    }
  }

  /** The sum of no elements is 0, and of one element its value. */
  lemma SumCorto<T>(s: seq<T>, f: T -> int)
    ensures s == [] ==> Sum(s, f) == 0
    ensures |s| == 1 ==> Sum(s, f) == f(s[0])
  {
    if |s| == 1 {
      assert s[..0] == [];
    }
  }

  lemma {:induction false} SumCons<T>(x: T, s: seq<T>, f: T -> int)
    ensures Sum([x] + s, f) == f(x) + Sum(s, f)
  {
    SumAppend([x], s, f);
    assert [x][..0] == [];
  }

  lemma {:induction false} SumNonNegative<T>(s: seq<T>, f: T -> int)
    requires forall x :: x in s ==> f(x) >= 0
    ensures Sum(s, f) >= 0
  {
    if s != [] {
      assert forall x :: x in s[..|s| - 1] ==> x in s;
      SumNonNegative(s[..|s| - 1], f);
    }
  }

  /** Two element-wise equal measures have equal sums. */
  lemma {:induction false} SumSame<T, U>(s: seq<T>, f: T -> int, t: seq<U>, g: U -> int)
    requires |s| == |t|
    requires forall i :: 0 <= i < |s| ==> f(s[i]) == g(t[i])
    ensures Sum(s, f) == Sum(t, g)
  {
    if s != [] {
      SumSame(s[..|s| - 1], f, t[..|t| - 1], g);
    }
  }

  /** No two elements share a key. */
  predicate Distinct<T>(s: seq<T>, key: T -> int) {
    forall i, j :: 0 <= i < j < |s| ==> key(s[i]) != key(s[j])
  }

  lemma {:induction false} FilterKeepsDistinct<T>(s: seq<T>, keep: T -> bool, key: T -> int)
    requires Distinct(s, key)
    ensures Distinct(Filter(s, keep), key)
  {
    if s != [] {
      FilterKeepsDistinct(s[1..], keep, key);
      var t := Filter(s[1..], keep);
      forall i | 0 <= i < |t| ensures key(s[0]) != key(t[i]) {
        FilterSii(s[1..], keep, t[i]);
        var k :| 0 <= k < |s[1..]| && s[1..][k] == t[i];
        assert s[k + 1] == t[i];
      }
      if keep(s[0]) {
        var r := [s[0]] + t;
        forall i, j | 0 <= i < j < |r| ensures key(r[i]) != key(r[j]) {
          assert r[j] == t[j - 1];
          if i > 0 {
            assert r[i] == t[i - 1];
            assert key(t[i - 1]) != key(t[j - 1]);
          }
        }
      }
    }
  }

  lemma {:induction false} FilterAppend<T>(a: seq<T>, b: seq<T>, keep: T -> bool)
    ensures Filter(a + b, keep) == Filter(a, keep) + Filter(b, keep)
  {
    if a == [] {
      assert a + b == b;
    } else {
      var ab := a + b;
      assert ab != [] && ab[0] == a[0] && ab[1..] == a[1..] + b;
      FilterAppend(a[1..], b, keep);
      if keep(a[0]) {
        assert Filter(ab, keep) == [a[0]] + Filter(ab[1..], keep);
        assert Filter(a, keep) == [a[0]] + Filter(a[1..], keep);
      } else {
        assert Filter(ab, keep) == Filter(ab[1..], keep);
        assert Filter(a, keep) == Filter(a[1..], keep);
      }
    }
  }

  /** Replacing one element changes the sum by the difference of its measure. */
  lemma {:induction false} SumUpdate<T>(s: seq<T>, k: int, x: T, f: T -> int)
    requires 0 <= k < |s|
    ensures Sum(s[k := x], f) == Sum(s, f) - f(s[k]) + f(x)
  {
    var t := s[k := x];
    if k == |s| - 1 {
      assert t[..|t| - 1] == s[..|s| - 1];
    } else {
      SumUpdate(s[..|s| - 1], k, x, f);
      assert t[..|t| - 1] == s[..|s| - 1][k := x];
    }
  }
}
