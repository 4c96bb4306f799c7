/** String helpers with the behaviour of the JavaScript built-ins the dashboard uses:
    decimal rendering of counters and its inverse `parseInt`, `charAt(0).toUpperCase() + slice(1)`,
    `Array.prototype.join`, `String.prototype.split` on one character, and
    `String.prototype.replace` with a one-character pattern (first occurrence only). */
module Text {

  function DigitChar(d: nat): (c: char)
    requires d < 10
    ensures '0' <= c <= '9'
  {
    ('0' as int + d) as char
  }

  predicate IsDigits(s: string)
  {
    forall i :: 0 <= i < |s| ==> '0' <= s[i] <= '9'
  }

  /** The decimal text of a natural number, as template literals print it. */
  function NatToString(n: nat): (r: string)
    ensures |r| >= 1 && IsDigits(r)
    decreases n
  {
    if n < 10 then [DigitChar(n)] else NatToString(n / 10) + [DigitChar(n % 10)]
  }

  /** `parseInt` of a string of decimal digits. */
  function DigitsValue(s: string): nat
    requires IsDigits(s)
    decreases |s|
  {
    if s == [] then 0 else DigitsValue(s[..|s| - 1]) * 10 + (s[|s| - 1] as int - '0' as int)
  }

  /** Parsing the printed number gives the number back. */
  lemma {:induction false} DigitsValueOfNatToString(n: nat)
    ensures DigitsValue(NatToString(n)) == n
    decreases n
  {
    if n >= 10 {
      DigitsValueOfNatToString(n / 10);
      var s := NatToString(n);
      assert s[..|s| - 1] == NatToString(n / 10);
    }
  }

  lemma {:induction false} MulAtLeast(d: int, k: int)
    requires d > 0 && k >= 1
    ensures d * k >= d
    decreases k
  {
    if k > 1 {
      MulAtLeast(d, k - 1);
      assert d * k == d * (k - 1) + d;
    }
  }

  /** Quotient and remainder are the only ones of their kind. */
  lemma DivModUnique(n: int, d: int, a: int, c: int)
    requires d > 0 && n == d * a + c && 0 <= c < d
    ensures n / d == a && n % d == c
  {
    var a', c' := n / d, n % d;
    assert d * a' + c' == n;
    assert d * (a - a') == c' - c by {
      assert d * (a - a') == d * a - d * a';
    }
    if a > a' {
      MulAtLeast(d, a - a');
    } else if a < a' {
      MulAtLeast(d, a' - a);
    }
  }

  lemma DivModStep(n: nat, m: nat)
    requires m >= 1
    ensures (n / 10) % m * 10 + n % 10 == n % (10 * m)
  {
    var q, r := n / 10, n % 10;
    var a, b := q / m, q % m;
    assert n == 10 * q + r;
    assert q == m * a + b;
    assert n == (10 * m) * a + (10 * b + r);
    DivModUnique(n, 10 * m, a, 10 * b + r);
  }

  lemma DivModSplit(n: int, p: int)
    requires p >= 1
    ensures (n / p) * p + n % p == n
  {
  }

  /** Dividing a natural number by a positive one gives a natural number. */
  lemma DivNonNegative(n: int, d: int)
    requires n >= 0 && d > 0
    ensures n / d >= 0
  {
    var q := n / d;
    if q < 0 {
      MulAtLeast(d, -q);
    }
  }

  function Pow10(f: nat): (p: nat)
    ensures p >= 1
  {
    if f == 0 then 1 else 10 * Pow10(f - 1)
  }

  /** The last `w` decimal digits of `n`, with leading zeros. */
  function PadDigits(n: nat, w: nat): (r: string)
    ensures |r| == w && IsDigits(r)
  {
    if w == 0 then "" else PadDigits(n / 10, w - 1) + [DigitChar(n % 10)]
  }

  /** The padded digits read back as the number, for a number that fits. */
  lemma {:induction false} PadDigitsValue(n: nat, w: nat)
    ensures DigitsValue(PadDigits(n, w)) == n % Pow10(w)
    decreases w
  {
    if w > 0 {
      PadDigitsValue(n / 10, w - 1);
      var r := PadDigits(n, w);
      assert r[..|r| - 1] == PadDigits(n / 10, w - 1);
      DivModStep(n, Pow10(w - 1));
    }
  }

  /** The whole number of units of `10^-f` that `toFixed(f)` rounds a non-negative value to:
      the nearest one, the larger on a tie. */
  function Rounded(x: real, f: nat): (n: nat)
    requires x >= 0.0
    ensures Scaled(x, f) - 0.5 < n as real <= Scaled(x, f) + 0.5
  {
    (Scaled(x, f) + 0.5).Floor
  }

  /** `x` in units of `10^-f`. */
  function Scaled(x: real, f: nat): (y: real)
    requires x >= 0.0
    ensures y >= 0.0
  {
    var p := Pow10(f) as real;
    assert x * p >= 0.0 by {
      assert p >= 1.0;
    }
    x * p
  }

  /** The fixed-point text of `n` units of `10^-f`: the whole part, and for `f > 0` a point
      and `f` decimals. */
  function FixedText(n: nat, f: nat): string
  {
    var p := Pow10(f);
    DivNonNegative(n, p);
    if f == 0 then NatToString(n) else NatToString(n / p) + "." + PadDigits(n % p, f)
  }

  /** `x.toFixed(f)` for a non-negative value, computed on the exact value; JavaScript's
      exponent form from 10^21 on is not modelled. */
  function Fixed(x: real, f: nat): string
    requires x >= 0.0
  {
    FixedText(Rounded(x, f), f)
  }

  /** Only digits and points. */
  predicate IsDecimal(s: string)
  {
    forall k :: 0 <= k < |s| ==> '0' <= s[k] <= '9' || s[k] == '.'
  }

  /** The fixed-point text is the whole part, a point and the padded decimals. */
  lemma FixedTextParts(n: nat, f: nat)
    requires f > 0
    ensures Pow10(f) >= 1 && n / Pow10(f) >= 0
    ensures FixedText(n, f) == NatToString(n / Pow10(f)) + ['.'] + PadDigits(n % Pow10(f), f)
  {
    DivNonNegative(n, Pow10(f));
  }

  /** A text of digits, a point and digits holds only digits and points. */
  lemma DecimalParts(w: string, d: string)
    requires IsDigits(w) && IsDigits(d)
    ensures IsDecimal(w + ['.'] + d)
  {
    var t := w + ['.'] + d;
    forall k | 0 <= k < |t|
      ensures '0' <= t[k] <= '9' || t[k] == '.'
    {
      if k < |w| {
        assert t[k] == w[k];
      } else if k > |w| {
        assert t[k] == d[k - |w| - 1];
      }
    }
  }

  /** The fixed-point text holds only digits and at most one point, and reads back as the
      number of units: split at the point, the whole part and the `f` decimals give it. */
  lemma FixedTextReadsBack(n: nat, f: nat)
    ensures IsDecimal(FixedText(n, f))
    ensures f == 0 ==> IsDigits(FixedText(n, f)) && DigitsValue(FixedText(n, f)) == n
    ensures f > 0 ==> var parts := Split(FixedText(n, f), '.');
      && |parts| == 2 && |parts[1]| == f
      && IsDigits(parts[0]) && IsDigits(parts[1])
      && DigitsValue(parts[0]) * Pow10(f) + DigitsValue(parts[1]) == n
  {
    if f == 0 {
      DigitsValueOfNatToString(n);
    } else {
      var p := Pow10(f);
      FixedTextParts(n, f);
      var w := NatToString(n / p);
      var d := PadDigits(n % p, f);
      DecimalParts(w, d);
      assert '.' !in w;
      assert '.' !in d;
      SplitAt(w, d, '.');
      SplitWithout(d, '.');
      DigitsValueOfNatToString(n / p);
      PadDigitsValue(n % p, f);
      DivModUnique(n % p, p, 0, n % p);
      DivModSplit(n, p);
      assert DigitsValue(w) * p + DigitsValue(d) == n;
    }
  }

  /** `toFixed` reads back as the rounded value. */
  lemma FixedReadsBack(x: real, f: nat)
    requires x >= 0.0
    ensures IsDecimal(Fixed(x, f))
    ensures f == 0 ==> IsDigits(Fixed(x, f)) && DigitsValue(Fixed(x, f)) == Rounded(x, f)
    ensures f > 0 ==> var parts := Split(Fixed(x, f), '.');
      && |parts| == 2 && |parts[1]| == f
      && IsDigits(parts[0]) && IsDigits(parts[1])
      && DigitsValue(parts[0]) * Pow10(f) + DigitsValue(parts[1]) == Rounded(x, f)
  {
    FixedTextReadsBack(Rounded(x, f), f);
  }

  /** Upper-case of an ASCII letter; other characters are unchanged. */
  function UpperChar(c: char): (u: char)
    ensures 'a' <= c <= 'z' ==> 'A' <= u <= 'Z' && u as int == c as int - 32
    ensures !('a' <= c <= 'z') ==> u == c
  {
    if 'a' <= c <= 'z' then (c as int - 32) as char else c
  }

  /** `s.charAt(0).toUpperCase() + s.slice(1)`; the empty string stays empty. */
  function Capitalize(s: string): (r: string)
    ensures |r| == |s|
    ensures s != [] ==> r[0] == UpperChar(s[0]) && r[1..] == s[1..]
  {
    if s == [] then [] else [UpperChar(s[0])] + s[1..]
  }

  /** `parts.join(sep)`. */
  function Join(parts: seq<string>, sep: string): string
    decreases |parts|
  {
    if |parts| == 0 then "" else if |parts| == 1 then parts[0] else parts[0] + sep + Join(parts[1..], sep)
  }

  lemma {:induction false} JoinAppend(parts: seq<string>, x: string, sep: string)
    requires |parts| >= 1
    ensures Join(parts + [x], sep) == Join(parts, sep) + sep + x
    decreases |parts|
  {
    if |parts| == 1 {
      assert parts + [x] == [parts[0], x];
    } else {
      assert (parts + [x])[1..] == parts[1..] + [x];
      JoinAppend(parts[1..], x, sep);
    }
  }

  /** `s.split(c)`: one more part than there are occurrences of `c`. */
  function Split(s: string, c: char): (r: seq<string>)
    ensures |r| >= 1
    decreases |s|
  {
    if |s| == 0 then [""]
    else
      var rest := Split(s[1..], c);
      if s[0] == c then [""] + rest else [[s[0]] + rest[0]] + rest[1..]
  }

  lemma {:induction false} SplitWithout(a: string, c: char)
    requires c !in a
    ensures Split(a, c) == [a]
    decreases |a|
  {
    if |a| > 0 {
      SplitWithout(a[1..], c);
      assert [a[0]] + a[1..] == a;
    }
  }

  lemma {:induction false} SplitAt(a: string, b: string, c: char)
    requires c !in a
    ensures Split(a + [c] + b, c) == [a] + Split(b, c)
    decreases |a|
  {
    var s := a + [c] + b;
    if |a| == 0 {
      assert s[0] == c && s[1..] == b;
    } else {
      assert s[0] == a[0] && s[1..] == a[1..] + [c] + b;
      SplitAt(a[1..], b, c);
      assert [a[0]] + a[1..] == a;
    }
  }

  /** Splitting a joined text on the separator gives back the parts, provided no part
      contains the separator: the number of lines of a joined text is the number of parts. */
  lemma {:induction false} SplitJoin(parts: seq<string>, c: char)
    requires |parts| >= 1
    requires forall i :: 0 <= i < |parts| ==> c !in parts[i]
    ensures Split(Join(parts, [c]), c) == parts
    decreases |parts|
  {
    if |parts| == 1 {
      SplitWithout(parts[0], c);
    } else {
      SplitJoin(parts[1..], c);
      SplitAt(parts[0], Join(parts[1..], [c]), c);
      assert parts == [parts[0]] + parts[1..];
    }
  }

  /** The position of the first `c` at or after `i`, or `|s|` when there is none. */
  function FirstIndexFrom(s: string, c: char, i: nat): nat
    decreases |s| - i
  {
    if i >= |s| then |s| else if s[i] == c then i else FirstIndexFrom(s, c, i + 1)
  }

  lemma {:induction false} FirstIndexFromIsFirst(s: string, c: char, i: nat)
    requires i <= |s|
    requires forall j :: 0 <= j < i ==> s[j] != c
    ensures var k := FirstIndexFrom(s, c, i);
      && k <= |s|
      && (k < |s| ==> s[k] == c)
      && forall j :: 0 <= j < k ==> s[j] != c
    decreases |s| - i
  {
    if i < |s| && s[i] != c {
      FirstIndexFromIsFirst(s, c, i + 1);
    }
  }

  /** `s.replace(c, "")` with a one-character string pattern, as the runtime computes it: find
      the first `c` and cut it out. */
  function RemoveFirst(s: string, c: char): string
  {
    var k := FirstIndexFrom(s, c, 0);
    if k >= |s| then s else s[..k] + s[k + 1..]
  }

  /** `i` is the position of the first `c` in `s`. */
  ghost predicate FirstAt(s: string, c: char, i: int)
  {
    0 <= i < |s| && s[i] == c && c !in s[..i]
  }

  lemma FirstAtUnique(s: string, c: char, i: int, j: int)
    requires FirstAt(s, c, i) && FirstAt(s, c, j)
    ensures i == j
  {
  }

  /** What `s.replace(c, "")` means: the text with its first `c` cut out, or the text itself
      when there is no `c`. */
  ghost function WithoutFirst(s: string, c: char): string
  {
    if c in s then
      FirstIndexFromIsFirst(s, c, 0);
      assert FirstAt(s, c, FirstIndexFrom(s, c, 0));
      var i :| FirstAt(s, c, i);
      s[..i] + s[i + 1..]
    else s
  }

  /** The runtime's scan computes the declarative meaning, for every text. */
  lemma RemoveFirstIsWithoutFirst(s: string, c: char)
    ensures RemoveFirst(s, c) == WithoutFirst(s, c)
  {
    FirstIndexFromIsFirst(s, c, 0);
    var k := FirstIndexFrom(s, c, 0);
    if c in s {
      var j :| 0 <= j < |s| && s[j] == c;
      assert k < |s|;
      assert s[..k] == s[..k];
      assert FirstAt(s, c, k);
      var i :| FirstAt(s, c, i) && WithoutFirst(s, c) == s[..i] + s[i + 1..];
      FirstAtUnique(s, c, i, k);
    }
  }

  /** `s.replace(c, "")` as a call: the caller sees only what the result means. */
  method Replace(s: string, c: char) returns (r: string)
    ensures r == WithoutFirst(s, c)
  {
    r := RemoveFirst(s, c);
    RemoveFirstIsWithoutFirst(s, c);
  }

  /** Cutting the first `c` out of `a + [c] + b`, where `a` has none, gives `a + b`: later
      occurrences stay. */
  lemma WithoutFirstAt(a: string, b: string, c: char)
    requires c !in a
    ensures WithoutFirst(a + [c] + b, c) == a + b
  {
    var s := a + [c] + b;
    assert s[..|a|] == a && s[|a| + 1..] == b;
    assert FirstAt(s, c, |a|);
    var i :| FirstAt(s, c, i) && WithoutFirst(s, c) == s[..i] + s[i + 1..];
    FirstAtUnique(s, c, i, |a|);
  }
}
