/**
 The string operations the control plane relies on: Python's ``str.split`` on a single
 separator character, ``int()`` on a decimal literal and ``%u``/``%d`` formatting of an
 integer.  Strings are sequences of characters.
 */
module Text {
  import opened Common

  /** Python ``s.split(sep)``: the pieces between separators, always at least one. */
  function Split(s: string, sep: char): (r: seq<string>)
    ensures |r| >= 1
    ensures forall i :: 0 <= i < |r| ==> sep !in r[i]
    decreases |s|
  {
    if |s| == 0 then [""]
    else
      var rest := Split(s[1..], sep);
      if s[0] == sep then [""] + rest
      else [[s[0]] + rest[0]] + rest[1..]
  }

  /** Python ``sep.join(parts)``, the inverse of Split. */
  function Join(parts: seq<string>, sep: char): string
    requires |parts| >= 1
  {
    if |parts| == 1 then parts[0] else parts[0] + [sep] + Join(parts[1..], sep)
  }

  /** A string without the separator splits into itself alone. */
  lemma {:induction false} SplitNoSeparator(s: string, sep: char)
    requires sep !in s
    ensures Split(s, sep) == [s]
    decreases |s|
  {
    if |s| > 0 {
      assert s[0] != sep && sep !in s[1..];
      SplitNoSeparator(s[1..], sep);
      assert [s[0]] + s[1..] == s;
    }
  }

  /** Splitting stops at the first separator. */
  lemma {:induction false} SplitAtSeparator(a: string, b: string, sep: char)
    requires sep !in a
    ensures Split(a + [sep] + b, sep) == [a] + Split(b, sep)
    decreases |a|
  {
    if |a| == 0 {
      assert a + [sep] + b == [sep] + b;
      assert ([sep] + b)[1..] == b;
    } else {
      assert (a + [sep] + b)[1..] == a[1..] + [sep] + b;
      assert sep !in a[1..];
      SplitAtSeparator(a[1..], b, sep);
      assert [a[0]] + a[1..] == a;
    }
  }

  /** Splitting a join of separator-free parts gives the parts back. */
  lemma {:induction false} SplitJoin(parts: seq<string>, sep: char)
    requires |parts| >= 1
    requires forall i :: 0 <= i < |parts| ==> sep !in parts[i]
    ensures Split(Join(parts, sep), sep) == parts
    decreases |parts|
  {
    if |parts| == 1 {
      SplitNoSeparator(parts[0], sep);
    } else {
      SplitAtSeparator(parts[0], Join(parts[1..], sep), sep);
      SplitJoin(parts[1..], sep);
      assert [parts[0]] + parts[1..] == parts;
    }
  }

  predicate IsDigit(c: char) { '0' <= c <= '9' }

  function DigitValue(c: char): (d: nat)
    requires IsDigit(c)
    ensures d < 10
  {
    (c - '0') as nat
  }

  function DigitChar(d: nat): (c: char)
    requires d < 10
    ensures IsDigit(c) && DigitValue(c) == d
  {
    ('0' as int + d) as char
  }

  predicate AllDigits(s: string) { forall i :: 0 <= i < |s| ==> IsDigit(s[i]) }

  /** The value of a non-empty run of decimal digits, most significant first. */
  function DigitsValue(s: string): (n: nat)
    requires AllDigits(s)
    decreases |s|
  {
    if |s| == 0 then 0 else 10 * DigitsValue(s[..|s| - 1]) + DigitValue(s[|s| - 1])
  }

  /** Decimal digits of a natural number, no leading zeros ("0" for zero). */
  function ShowNat(n: nat): (s: string)
    ensures |s| >= 1 && AllDigits(s)
    decreases n
  {
    if n < 10 then [DigitChar(n)] else ShowNat(n / 10) + [DigitChar(n % 10)]
  }

  /** The characters Python's ``str.strip()``, ``int()`` and ``float()`` skip as white
      space: blank, tab, line feed, carriage return, vertical tab and form feed. */
  predicate IsSpace(c: char)
  {
    c == ' ' || c == '\t' || c == '\n' || c == '\r' || c as int == 11 || c as int == 12
  }

  /** ``s.lstrip()``: a suffix of ``s`` that does not start with white space. */
  function StripFront(s: string): (r: string)
    ensures |r| <= |s| && r == s[|s| - |r|..]
    ensures |r| > 0 ==> !IsSpace(r[0])
    ensures |s| > 0 && !IsSpace(s[0]) ==> r == s
    decreases |s|
  {
    if |s| > 0 && IsSpace(s[0]) then StripFront(s[1..]) else s
  }

  /** ``s.rstrip()``: a prefix of ``s`` that does not end with white space. */
  function StripBack(s: string): (r: string)
    ensures |r| <= |s| && r == s[..|r|]
    ensures |r| > 0 ==> !IsSpace(r[|r| - 1])
    ensures |s| > 0 && !IsSpace(s[|s| - 1]) ==> r == s
    decreases |s|
  {
    if |s| > 0 && IsSpace(s[|s| - 1]) then StripBack(s[..|s| - 1]) else s
  }

  /** ``s.strip()``: white space removed at both ends, and only there. */
  function Strip(s: string): (r: string)
    ensures |r| <= |s|
    ensures |r| > 0 ==> !IsSpace(r[0]) && !IsSpace(r[|r| - 1])
    ensures |s| == 0 || (!IsSpace(s[0]) && !IsSpace(s[|s| - 1])) ==> r == s
  {
    var t := StripFront(s);
    var r := StripBack(t);
    assert |r| > 0 ==> r[0] == t[0];
    r
  }

  /** An integer literal: an optional sign followed by at least one decimal digit. */
  function ParseIntLiteral(t: string): (r: Option<int>)
    ensures r.Some? ==> |t| >= 1
  {
    if |t| >= 2 && t[0] == '-' && AllDigits(t[1..]) then Some(0 - DigitsValue(t[1..]) as int)
    else if |t| >= 2 && t[0] == '+' && AllDigits(t[1..]) then Some(DigitsValue(t[1..]))
    else if |t| >= 1 && AllDigits(t) then Some(DigitsValue(t))
    else None
  }

  /** Python ``int(text)`` for the literals the model supports: an integer literal with
      white space around it. */
  function ParseInt(text: string): (r: Option<int>)
    ensures r.Some? ==> |text| >= 1
  {
    ParseIntLiteral(Strip(text))
  }

  function Pow10(n: nat): (p: nat)
    ensures p >= 1
  {
    if n == 0 then 1 else 10 * Pow10(n - 1)
  }

  /** A run of n digits is worth less than ten to the n. */
  lemma {:induction false} DigitsBelowPow10(f: string)
    requires AllDigits(f)
    ensures DigitsValue(f) < Pow10(|f|)
    decreases |f|
  {
    if |f| > 0 {
      DigitsBelowPow10(f[..|f| - 1]);
    }
  }

  /** The value of the digits after a decimal point: their integer value over ten to
      the number of places, a fraction in [0, 1). */
  function FractionValue(f: string): (r: real)
    requires AllDigits(f)
    ensures 0.0 <= r < 1.0
  {
    DigitsBelowPow10(f);
    RatioBelowOne(DigitsValue(f) as real, Pow10(|f|) as real);
    DigitsValue(f) as real / Pow10(|f|) as real
  }

  lemma RatioBelowOne(x: real, p: real)
    requires 0.0 <= x < p
    ensures 0.0 <= x / p < 1.0
  {
    var q := x / p;
    assert q * p == x;
    assert (1.0 - q) * p == p - x;
  }

  /** An unsigned decimal: digits, or digits with one decimal point, at least one digit
      in all. */
  function ParseUnsigned(s: string): (r: Option<real>)
    ensures r.Some? ==> r.value >= 0.0
  {
    var parts := Split(s, '.');
    if |parts| == 1 && |s| >= 1 && AllDigits(s) then Some(DigitsValue(s) as real)
    else if |parts| == 2 && |parts[0]| + |parts[1]| >= 1 && AllDigits(parts[0]) && AllDigits(parts[1]) then
      Some(DigitsValue(parts[0]) as real + FractionValue(parts[1]))
    else None
  }

  /** A decimal literal: an optional sign and an unsigned decimal. */
  function ParseDecimalLiteral(t: string): (r: Option<real>)
  {
    var signed := |t| >= 1 && (t[0] == '-' || t[0] == '+');
    match ParseUnsigned(if signed then t[1..] else t)
    case Some(x) => Some(if signed && t[0] == '-' then -x else x)
    case None => None
  }

  /** Python ``float(text)`` for plain decimal literals: a decimal literal with white
      space around it. */
  function ParseDecimal(text: string): (r: Option<real>)
  {
    ParseDecimalLiteral(Strip(text))
  }

  /** ``"%d" % n``. */
  function ShowInt(n: int): (s: string)
    ensures |s| >= 1
  {
    if n < 0 then "-" + ShowNat(-n) else ShowNat(n)
  }

  lemma {:induction false} DigitsOfShowNat(n: nat)
    ensures DigitsValue(ShowNat(n)) == n
    decreases n
  {
    if n >= 10 {
      var s := ShowNat(n / 10) + [DigitChar(n % 10)];
      assert s[..|s| - 1] == ShowNat(n / 10);
      DigitsOfShowNat(n / 10);
    }
  }

  /** A numeral, which starts with a sign or a digit and ends with a digit, has no white
      space at its ends. */
  lemma NumeralUnstripped(s: string)
    requires |s| >= 1 && (s[0] == '-' || IsDigit(s[0])) && IsDigit(s[|s| - 1])
    ensures Strip(s) == s
  {
    assert !IsSpace(s[0]) && !IsSpace(s[|s| - 1]);
  }

  /** The ``%d`` text of an integer has no white space at its ends. */
  lemma ShowIntUnstripped(n: int)
    ensures Strip(ShowInt(n)) == ShowInt(n)
  {
    var s := ShowInt(n);
    var d := ShowNat(if n < 0 then -n else n);
    assert s[|s| - 1] == d[|d| - 1];
    assert s[0] == '-' || s[0] == d[0];
    NumeralUnstripped(s);
  }

  lemma IntLiteralOfShowInt(n: int)
    ensures ParseIntLiteral(ShowInt(n)) == Some(n)
  {
    if n < 0 {
      var d := ShowNat(-n);
      DigitsOfShowNat(-n);
      assert ShowInt(n) == "-" + d;
      assert ("-" + d)[1..] == d;
    } else {
      var d := ShowNat(n);
      DigitsOfShowNat(n);
      assert ShowInt(n) == d;
      assert d[0] != '-' && d[0] != '+';
    }
  }

  /** Formatting an integer and reading it back with ``int()`` is the identity. */
  lemma ParseShowInt(n: int)
    ensures ParseInt(ShowInt(n)) == Some(n)
  {
    IntLiteralOfShowInt(n);
    ShowIntUnstripped(n);
  }

  lemma DecimalLiteralOfShowInt(n: int)
    ensures ParseDecimalLiteral(ShowInt(n)) == Some(n as real)
  {
    if n < 0 {
      var d := ShowNat(-n);
      DigitsOfShowNat(-n);
      SplitNoSeparator(d, '.');
      assert ShowInt(n) == "-" + d;
      assert ("-" + d)[1..] == d;
    } else {
      var d := ShowNat(n);
      DigitsOfShowNat(n);
      SplitNoSeparator(d, '.');
      assert ShowInt(n) == d;
      assert d[0] != '-' && d[0] != '+';
    }
  }

  /** ``float()`` reads back the ``%d`` text of every integer. */
  lemma ParseDecimalOfInt(n: int)
    ensures ParseDecimal(ShowInt(n)) == Some(n as real)
  {
    DecimalLiteralOfShowInt(n);
    ShowIntUnstripped(n);
  }

  lemma UnsignedFraction(s: string, d: string, f: string)
    requires |d| >= 1 && AllDigits(d) && AllDigits(f) && Split(s, '.') == [d, f]
    ensures ParseUnsigned(s) == Some(DigitsValue(d) as real + FractionValue(f))
  {
  }

  lemma SplitPair(d: string, f: string)
    requires '.' !in d && '.' !in f
    ensures Split(d + "." + f, '.') == [d, f]
  {
    SplitAtSeparator(d, f, '.');
    SplitNoSeparator(f, '.');
    assert d + "." + f == d + ['.'] + f;
  }

  lemma DecimalLiteralFraction(a: nat, f: string)
    requires AllDigits(f)
    ensures ParseDecimalLiteral(ShowNat(a) + "." + f) ==
              Some(a as real + FractionValue(f))
  {
    var d := ShowNat(a);
    DigitsOfShowNat(a);
    assert '.' !in d && '.' !in f;
    SplitPair(d, f);
    UnsignedFraction(d + "." + f, d, f);
    var s := d + "." + f;
    assert s[0] == d[0];
  }

  /** ``float()`` of digits, a decimal point and a fraction is the whole part plus the
      fraction's digits scaled by their number of places. */
  lemma ParseDecimalFraction(a: nat, f: string)
    requires AllDigits(f)
    ensures ParseDecimal(ShowNat(a) + "." + f) ==
              Some(a as real + FractionValue(f))
  {
    DecimalLiteralFraction(a, f);
    var d := ShowNat(a);
    var s := d + "." + f;
    assert IsDigit(d[0]) && s[0] == d[0];
    assert s[|s| - 1] == if |f| > 0 then f[|f| - 1] else '.';
    assert !IsSpace(s[0]) && !IsSpace(s[|s| - 1]);
  }

  /** A formatted integer contains neither of the separators used in address lists. */
  lemma ShowIntHasNoPunctuation(n: int, sep: char)
    requires sep != '-' && !IsDigit(sep)
    ensures sep !in ShowInt(n)
  {
    var d := ShowNat(if n < 0 then -n else n);
    assert forall i :: 0 <= i < |d| ==> d[i] != sep;
  }
}
