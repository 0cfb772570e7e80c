/** The handful of Python `str` operations the advisors rely on, over `seq<char>`. */
module Text {
  import opened Common

  /** Python's `str.isspace()`, which also decides where `split()`, `strip()`
      and the regular-expression class `\s` cut. */
  predicate IsSpace(c: char) {
    var n := c as int;
    n in {0x09, 0x0A, 0x0B, 0x0C, 0x0D, 0x1C, 0x1D, 0x1E, 0x1F, 0x20, 0x85, 0xA0,
          0x1680, 0x2028, 0x2029, 0x202F, 0x205F, 0x3000}
    || 0x2000 <= n <= 0x200A
  }

  predicate AllSpace(w: string) {
    forall i :: 0 <= i < |w| ==> IsSpace(w[i])
  }

  predicate IsDigit(c: char) { '0' <= c <= '9' }

  function UpperChar(c: char): (u: char)
    ensures IsSpace(u) == IsSpace(c)
    ensures !('a' <= u <= 'z')
  {
    if 'a' <= c <= 'z' then (c as int - 32) as char else c
  }

  function LowerChar(c: char): (l: char)
    ensures IsSpace(l) == IsSpace(c)
    ensures !('A' <= l <= 'Z')
  {
    if 'A' <= c <= 'Z' then (c as int + 32) as char else c
  }

  /** `str.upper()` on the ASCII letters. */
  function Upper(s: string): (u: string)
    ensures |u| == |s|
  {
    seq(|s|, i requires 0 <= i < |s| => UpperChar(s[i]))
  }

  /** `str.lower()` on the ASCII letters. */
  function Lower(s: string): (l: string)
    ensures |l| == |s|
  {
    seq(|s|, i requires 0 <= i < |s| => LowerChar(s[i]))
  }

  /** Case folding forgets the case of the input: both spellings upper-case alike. */
  lemma UpperOfLower(s: string)
    ensures Upper(Lower(s)) == Upper(s)
  {
  }

  lemma UpperAppend(a: string, b: string)
    ensures Upper(a + b) == Upper(a) + Upper(b)
  {
  }

  lemma UpperOfSpaces(w: string)
    requires AllSpace(w)
    ensures Upper(w) == w
  {
  }

  /** `s.startswith(p)` */
  predicate StartsWith(s: string, p: string) {
    |p| <= |s| && s[..|p|] == p
  }

  /** `s.endswith(p)` */
  predicate EndsWith(s: string, p: string) {
    |p| <= |s| && s[|s| - |p|..] == p
  }

  /** `p` occurs in `s` starting at index `i`. */
  predicate OccursAt(s: string, p: string, i: int) {
    0 <= i && i + |p| <= |s| && s[i..i + |p|] == p
  }

  /** `p in s`, substring containment. */
  predicate Contains(s: string, p: string) {
    exists i | 0 <= i <= |s| - |p| :: OccursAt(s, p, i)
  }

  /** `s.lstrip()` */
  function TrimLeft(s: string): (r: string)
    ensures r == [] || !IsSpace(r[0])
    ensures |r| <= |s|
  {
    if s != [] && IsSpace(s[0]) then TrimLeft(s[1..]) else s
  }

  /** `s.rstrip()` */
  function TrimRight(s: string): (r: string)
    ensures r == [] || !IsSpace(r[|r| - 1])
    ensures |r| <= |s| && r == s[..|r|]
  {
    if s != [] && IsSpace(s[|s| - 1]) then TrimRight(s[..|s| - 1]) else s
  }

  /** `lstrip` removes a run of whitespace from the front and nothing else. */
  lemma {:induction false} TrimLeftDropsSpaces(s: string)
    ensures var r := TrimLeft(s); r == s[|s| - |r|..] && AllSpace(s[..|s| - |r|])
  {
    if s != [] && IsSpace(s[0]) {
      TrimLeftDropsSpaces(s[1..]);
      var r := TrimLeft(s);
      assert s[1..][..|s| - 1 - |r|] == s[1..|s| - |r|];
    }
  }

  /** `rstrip` removes a run of whitespace from the end and nothing else. */
  lemma {:induction false} TrimRightDropsSpaces(s: string)
    ensures AllSpace(s[|TrimRight(s)|..])
  {
    if s != [] && IsSpace(s[|s| - 1]) {
      TrimRightDropsSpaces(s[..|s| - 1]);
      var r := TrimRight(s);
      assert s[..|s| - 1][|r|..] == s[|r|..|s| - 1];
    }
  }

  /** `s.strip()` */
  function Strip(s: string): (r: string)
    ensures r == [] || (!IsSpace(r[0]) && !IsSpace(r[|r| - 1]))
  {
    TrimRight(TrimLeft(s))
  }

  /** Length of the run of non-whitespace characters that starts `s`. */
  function WordLen(s: string): (n: nat)
    ensures n <= |s|
    ensures forall i :: 0 <= i < n ==> !IsSpace(s[i])
    ensures n < |s| ==> IsSpace(s[n])
  {
    if s == [] || IsSpace(s[0]) then 0 else 1 + WordLen(s[1..])
  }

  /** `s.split()` with no separator: the maximal runs of non-whitespace characters. */
  function Words(s: string): (ws: seq<string>)
    decreases |s|
  {
    if s == [] then []
    else if IsSpace(s[0]) then Words(s[1..])
    else var n := WordLen(s); [s[..n]] + Words(s[n..])
  }

  /** Every word of `s.split()` is non-empty and free of whitespace. */
  lemma {:induction false} WordsAreWords(s: string)
    ensures forall w | w in Words(s) :: w != [] && forall i | 0 <= i < |w| :: !IsSpace(w[i])
    decreases |s|
  {
    if s != [] {
      if IsSpace(s[0]) {
        WordsAreWords(s[1..]);
      } else {
        WordsAreWords(s[WordLen(s)..]);
      }
    }
  }

  /** `sep.join(ws)` */
  function Join(ws: seq<string>, sep: string): string {
    if ws == [] then ""
    else if |ws| == 1 then ws[0]
    else ws[0] + sep + Join(ws[1..], sep)
  }

  lemma {:induction false} WordLenBeforeSpace(a: string, t: string)
    requires t != [] && IsSpace(t[0])
    ensures WordLen(a + t) == WordLen(a)
  {
    if a != [] && !IsSpace(a[0]) {
      assert (a + t)[1..] == a[1..] + t;
      WordLenBeforeSpace(a[1..], t);
    }
  }

  lemma {:induction false} WordsSkipSpaces(w: string, b: string)
    requires AllSpace(w)
    ensures Words(w + b) == Words(b)
  {
    if w != [] {
      var s := w + b;
      assert IsSpace(w[0]) && s[0] == w[0];
      assert s[1..] == w[1..] + b;
      WordsSkipSpaces(w[1..], b);
    } else {
      assert w + b == b;
    }
  }

  /** A non-empty run of whitespace separates words however long it is:
      `split()` yields the words on either side of it and nothing for it. */
  lemma {:induction false} WordsAroundSpace(a: string, w: string, b: string)
    requires |w| > 0 && AllSpace(w)
    ensures Words(a + w + b) == Words(a) + Words(b)
    decreases |a|
  {
    if a == [] {
      assert a + w + b == w + b;
      WordsSkipSpaces(w, b);
    } else if IsSpace(a[0]) {
      assert (a + w + b)[1..] == a[1..] + w + b;
      WordsAroundSpace(a[1..], w, b);
    } else {
      var n := WordLen(a);
      var s := a + w + b;
      WordLenBeforeSpace(a, w + b);
      assert s == a + (w + b);
      assert s[..n] == a[..n];
      assert s[n..] == a[n..] + w + b;
      WordsAroundSpace(a[n..], w, b);
      assert Words(s) == [a[..n]] + Words(a[n..] + w + b);
      AppendAssoc([a[..n]], Words(a[n..]), Words(b));
    }
  }

  /** Whitespace around a string adds no words. */
  lemma WordsOfPadded(w1: string, s: string, w2: string)
    requires AllSpace(w1) && AllSpace(w2)
    ensures Words(w1 + s + w2) == Words(s)
  {
    assert w1 + s + w2 == w1 + (s + w2);
    WordsSkipSpaces(w1, s + w2);
    if w2 != [] {
      WordsAroundSpace(s, w2, []);
      assert s + w2 + [] == s + w2;
    } else {
      assert s + w2 == s;
    }
  }

  /** Upper-casing a string with whitespace around it leaves the whitespace alone. */
  lemma UpperAround(a: string, w: string, b: string)
    requires AllSpace(w)
    ensures Upper(a + w + b) == Upper(a) + w + Upper(b)
  {
    UpperAppend(a + w, b);
    UpperAppend(a, w);
    UpperOfSpaces(w);
  }

  /** Upper-casing leaves surrounding whitespace alone. */
  lemma UpperPadded(w1: string, s: string, w2: string)
    requires AllSpace(w1) && AllSpace(w2)
    ensures Upper(w1 + s + w2) == w1 + Upper(s) + w2
  {
    UpperAppend(w1 + s, w2);
    UpperAppend(w1, s);
    UpperOfSpaces(w1);
    UpperOfSpaces(w2);
  }

  /** A string that starts with `p` does not start with anything whose first
      character differs from that of `p`. */
  lemma StartsWithFirstChar(s: string, p: string, r: string)
    requires StartsWith(s, p) && p != [] && r != [] && p[0] != r[0]
    ensures !StartsWith(s, r)
  {
    assert s[0] == s[..|p|][0];
  }

  /** A string that starts with `p` has the first two characters of `p`. */
  lemma PrefixChars(s: string, p: string)
    requires |p| >= 2
    ensures StartsWith(s, p) ==> s[0] == p[0] && s[1] == p[1]
  {
    if StartsWith(s, p) {
      assert s[0] == s[..|p|][0] && s[1] == s[..|p|][1];
    }
  }

  lemma {:induction false} WordsOfTrimLeft(s: string)
    ensures Words(TrimLeft(s)) == Words(s)
  {
    if s != [] && IsSpace(s[0]) {
      WordsOfTrimLeft(s[1..]);
    }
  }

  lemma {:induction false} WordsOfTrimRight(s: string)
    ensures Words(TrimRight(s)) == Words(s)
  {
    if s != [] && IsSpace(s[|s| - 1]) {
      var s' := s[..|s| - 1];
      WordsOfTrimRight(s');
      WordsAroundSpace(s', [s[|s| - 1]], []);
      assert s' + [s[|s| - 1]] + [] == s;
    }
  }

  /** `s.strip().split()` is `s.split()`. */
  lemma WordsOfStrip(s: string)
    ensures Words(Strip(s)) == Words(s)
  {
    WordsOfTrimRight(TrimLeft(s));
    WordsOfTrimLeft(s);
  }

  lemma {:induction false} TrimLeftUpper(s: string)
    ensures TrimLeft(Upper(s)) == Upper(TrimLeft(s))
  {
    if s != [] && IsSpace(s[0]) {
      assert Upper(s)[1..] == Upper(s[1..]);
      TrimLeftUpper(s[1..]);
    }
  }

  lemma {:induction false} TrimRightUpper(s: string)
    ensures TrimRight(Upper(s)) == Upper(TrimRight(s))
  {
    if s != [] && IsSpace(s[|s| - 1]) {
      assert Upper(s)[..|s| - 1] == Upper(s[..|s| - 1]);
      TrimRightUpper(s[..|s| - 1]);
    }
  }

  /** Stripping and upper-casing commute, as neither changes what the other looks at. */
  lemma StripUpper(s: string)
    ensures Strip(Upper(s)) == Upper(Strip(s))
  {
    TrimLeftUpper(s);
    TrimRightUpper(TrimLeft(s));
  }

  predicate AllDigits(ds: string) {
    forall i :: 0 <= i < |ds| ==> IsDigit(ds[i])
  }

  /** Value of a string of decimal digits. */
  function DigitsValue(ds: string): nat
    requires AllDigits(ds)
  {
    if ds == [] then 0
    else
      assert IsDigit(ds[|ds| - 1]);
      DigitsValue(ds[..|ds| - 1]) * 10 + (ds[|ds| - 1] as int - '0' as int)
  }

  /** A non-empty run of decimal digits, read as a number. */
  function ParseUnsigned(ds: string): Option<nat> {
    if ds != [] && AllDigits(ds) then Some(DigitsValue(ds)) else None
  }

  /** Python's `int(s)` on a decimal string: surrounding whitespace is ignored,
      one optional sign, then at least one digit; anything else raises `ValueError`,
      modelled as `None`. */
  function ParseInt(s: string): Option<int> {
    var t := Strip(s);
    if t != [] && t[0] == '-' then
      match ParseUnsigned(t[1..])
      case Some(v) => Some(-(v as int))
      case None => None
    else if t != [] && t[0] == '+' then ParseUnsigned(t[1..])
    else ParseUnsigned(t)
  }

  function DigitChar(d: nat): (c: char)
    requires d < 10
    ensures IsDigit(c) && c as int - '0' as int == d
  {
    ('0' as int + d) as char
  }

  /** `str(n)` for a natural number. */
  function DecimalString(n: nat): (s: string)
    ensures |s| > 0 && AllDigits(s)
  {
    if n < 10 then [DigitChar(n)] else DecimalString(n / 10) + [DigitChar(n % 10)]
  }

  /** `str(i)` for any integer. */
  function IntString(i: int): (s: string) {
    if i < 0 then "-" + DecimalString(-i) else DecimalString(i)
  }

  lemma {:induction false} DigitsValueOfDecimal(n: nat)
    ensures DigitsValue(DecimalString(n)) == n
  {
    if n >= 10 {
      var s := DecimalString(n / 10);
      DigitsValueOfDecimal(n / 10);
      assert (s + [DigitChar(n % 10)])[..|s|] == s;
    }
  }

  lemma StripUnpadded(s: string)
    requires s != [] && !IsSpace(s[0]) && !IsSpace(s[|s| - 1])
    ensures Strip(s) == s
  {
  }

  lemma DigitIsNotSpace(c: char)
    requires IsDigit(c)
    ensures !IsSpace(c)
  {
  }

  /** A string of digits with no sign reads as its value. */
  lemma ParseDigits(d: string)
    requires d != [] && AllDigits(d)
    ensures ParseInt(d) == Some(DigitsValue(d))
  {
    DigitIsNotSpace(d[0]);
    DigitIsNotSpace(d[|d| - 1]);
    StripUnpadded(d);
    assert d[0] !in "+-";
  }

  /** A minus sign followed by digits reads as the negated value. */
  lemma ParseNegatedDigits(d: string)
    requires d != [] && AllDigits(d)
    ensures ParseInt("-" + d) == Some(-(DigitsValue(d) as int))
  {
    var s := "-" + d;
    DigitIsNotSpace(d[|d| - 1]);
    assert !IsSpace(s[0]);
    assert s[1..] == d && s[|s| - 1] == d[|d| - 1];
    StripUnpadded(s);
  }

  /** `int(str(i)) == i`: the settings table prints integers the way `int()` reads them. */
  lemma ParseIntString(i: int)
    ensures ParseInt(IntString(i)) == Some(i)
  {
    var n: nat := if i < 0 then -i else i;
    var d := DecimalString(n);
    DigitsValueOfDecimal(n);
    if i < 0 {
      ParseNegatedDigits(d);
      assert ParseInt("-" + d) == Some(i);
    } else {
      ParseDigits(d);
    }
  }
}
