/** String operations with the meaning of the ECMAScript built-ins that the
    application calls: `trim`, the `\s` class, `String(n)` on integers,
    `parseInt` and `split` on a one-character separator. */
module JsText {
  import opened Wrappers

  /** WhiteSpace or LineTerminator (sections 7.2 and 7.3 of ECMA-262): the
      code points `String.prototype.trim` removes and `\s` matches. */
  predicate IsJsSpace(c: char) {
    || c == '\t' || c == '\n' || c == '\U{000B}' || c == '\U{000C}' || c == '\r' || c == ' '
    || c == '\U{00A0}' || c == '\U{1680}' || ('\U{2000}' <= c <= '\U{200A}')
    || c == '\U{2028}' || c == '\U{2029}' || c == '\U{202F}' || c == '\U{205F}'
    || c == '\U{3000}' || c == '\U{FEFF}'
  }

  predicate IsDigit(c: char) {
    '0' <= c <= '9'
  }

  // ---------------------------------------------------------------------
  // trim
  // ---------------------------------------------------------------------

  /** `s` without its leading white space: a suffix of `s` whose dropped
      prefix is all white space and which does not itself start with one. */
  function TrimStart(s: string): (r: string)
    ensures |r| <= |s| && r == s[|s| - |r|..]
    ensures r == [] || !IsJsSpace(r[0])
    ensures forall i :: 0 <= i < |s| - |r| ==> IsJsSpace(s[i])
  {
    if |s| > 0 && IsJsSpace(s[0]) then TrimStart(s[1..]) else s
  }

  /** `s` without its trailing white space. */
  function TrimEnd(s: string): (r: string)
    ensures |r| <= |s| && r == s[..|r|]
    ensures r == [] || !IsJsSpace(r[|r| - 1])
    ensures forall i :: |r| <= i < |s| ==> IsJsSpace(s[i])
  {
    if |s| > 0 && IsJsSpace(s[|s| - 1]) then TrimEnd(s[..|s| - 1]) else s
  }

  /** `String.prototype.trim`. */
  function Trim(s: string): (r: string)
    ensures |r| <= |s|
    ensures r == [] || (!IsJsSpace(r[0]) && !IsJsSpace(r[|r| - 1]))
  {
    var a := TrimStart(s);
    var e := TrimEnd(a);
    assert e == [] || e[0] == a[0];
    e
  }

  /** `!s.trim()`: the string is empty or all white space. */
  predicate IsBlank(s: string) {
    Trim(s) == ""
  }

  /** Nothing is trimmed from a string that starts with a non-space. */
  lemma TrimStartNoSpace(s: string)
    requires |s| > 0 && !IsJsSpace(s[0])
    ensures TrimStart(s) == s
  {
  }

  /** A prefix of a suffix is a slice. */
  lemma SliceOfSuffix<T>(s: seq<T>, i: nat, e: seq<T>)
    requires i <= |s| && |e| <= |s| - i && e == s[i..][..|e|]
    ensures e == s[i..i + |e|]
  {
  }

  /** White space at the end of a suffix is white space at the end of the
      whole string. */
  lemma TailOfSuffix(s: string, i: nat, n: nat)
    requires i + n <= |s|
    requires forall k :: n <= k < |s| - i ==> IsJsSpace(s[i..][k])
    ensures forall k :: i + n <= k < |s| ==> IsJsSpace(s[k])
  {
    forall k | i + n <= k < |s|
      ensures IsJsSpace(s[k])
    {
      assert s[k] == s[i..][k - i];
    }
  }

  /** Where `trim` cuts: the kept slice `s[i..j]` and the white space
      dropped on either side of it. */
  lemma TrimBounds(s: string) returns (i: nat, j: nat)
    ensures i <= j <= |s| && Trim(s) == s[i..j]
    ensures forall k :: 0 <= k < i ==> IsJsSpace(s[k])
    ensures forall k :: j <= k < |s| ==> IsJsSpace(s[k])
  {
    var a := TrimStart(s);
    var e := TrimEnd(a);
    i := |s| - |a|;
    j := i + |e|;
    SliceOfSuffix(s, i, e);
    TailOfSuffix(s, i, |e|);
  }

  /** Trimming leaves a slice of the input with white space only around it,
      and nothing to trim at either end. */
  lemma TrimIsSlice(s: string)
    ensures exists i, j ::
              && 0 <= i <= j <= |s| && Trim(s) == s[i..j]
              && (forall k :: 0 <= k < i ==> IsJsSpace(s[k]))
              && (forall k :: j <= k < |s| ==> IsJsSpace(s[k]))
    ensures Trim(s) == [] || (!IsJsSpace(Trim(s)[0]) && !IsJsSpace(Trim(s)[|Trim(s)| - 1]))
  {
    var i, j := TrimBounds(s);
    var a := TrimStart(s);
    var e := TrimEnd(a);
    if e != [] {
      assert e[0] == a[0];
    }
  }

  /** A string is blank exactly when every character of it is white space. */
  lemma {:induction false} BlankIffAllSpace(s: string)
    ensures IsBlank(s) <==> forall k :: 0 <= k < |s| ==> IsJsSpace(s[k])
  {
    if forall k :: 0 <= k < |s| ==> IsJsSpace(s[k]) {
      assert TrimStart(s) == [];
    }
  }

  /** Trimming twice is trimming once. */
  lemma TrimIdempotent(s: string)
    ensures Trim(Trim(s)) == Trim(s)
  {
    var t := Trim(s);
    TrimIsSlice(s);
    assert TrimStart(t) == t;
    assert TrimEnd(t) == t;
  }

  // ---------------------------------------------------------------------
  // String(n) for integers
  // ---------------------------------------------------------------------

  function DigitChar(d: int): (c: char)
    requires 0 <= d < 10
    ensures IsDigit(c) && c as int - '0' as int == d
  {
    ('0' as int + d) as char
  }

  /** Decimal digits of `n`, without leading zeros. */
  function NatToString(n: nat): (s: string)
    ensures |s| > 0 && forall i :: 0 <= i < |s| ==> IsDigit(s[i])
    ensures (|s| > 1 ==> s[0] != '0')
  {
    if n < 10 then [DigitChar(n)] else NatToString(n / 10) + [DigitChar(n % 10)]
  }

  /** `String(n)` for an integer below 10^21 in absolute value. */
  function IntToString(n: int): (s: string)
    ensures |s| > 0 && (s[0] == '-' <==> n < 0)
    ensures forall i :: 0 < i < |s| ==> IsDigit(s[i])
  {
    if n < 0 then "-" + NatToString(-n) else NatToString(n)
  }

  // ---------------------------------------------------------------------
  // parseInt
  // ---------------------------------------------------------------------

  /** The radix argument: `parseInt(s, 10)` or `parseInt(s)`. */
  datatype Radix = Decimal | Unspecified

  /** The value of `c` as a digit in base 10 or 16, if it is one. */
  function DigitValue(c: char, base: int): Option<nat> {
    if '0' <= c <= '9' then Some(c as int - '0' as int)
    else if base == 16 && 'a' <= c <= 'f' then Some(c as int - 'a' as int + 10)
    else if base == 16 && 'A' <= c <= 'F' then Some(c as int - 'A' as int + 10)
    else None
  }

  /** Length of the longest prefix of `s` made of digits in `base`. */
  function DigitRun(s: string, base: int): (k: nat)
    ensures k <= |s|
    ensures forall i :: 0 <= i < k ==> DigitValue(s[i], base).Some?
    ensures k < |s| ==> DigitValue(s[k], base).None?
  {
    if |s| > 0 && DigitValue(s[0], base).Some? then 1 + DigitRun(s[1..], base) else 0
  }

  /** `x * base` for the two bases `parseInt` is called with here. */
  function Shift(x: nat, base: nat): nat {
    if base == 16 then x * 16 else x * 10
  }

  /** The number that the digits `ds` denote in `base` (10 or 16). */
  function DigitsValue(ds: string, base: nat): nat
    requires forall i :: 0 <= i < |ds| ==> DigitValue(ds[i], base).Some?
  {
    if ds == [] then 0
    else Shift(DigitsValue(ds[..|ds| - 1], base), base) + DigitValue(ds[|ds| - 1], base).value
  }

  /** `parseInt(s, 10)` and `parseInt(s)` (section 15.1.2.2 of ECMA-262):
      leading white space and one sign are skipped; without a radix, a `0x`
      or `0X` prefix selects base 16; the longest run of digits is read and
      the rest ignored; no digit at all gives NaN (None). */
  function ParseInt(s: string, radix: Radix): (r: Option<int>)
    ensures s == "" ==> r.None?
    ensures r.Some? && r.value < 0 ==> |TrimStart(s)| > 0 && TrimStart(s)[0] == '-'
  {
    var t := TrimStart(s);
    var negative := |t| > 0 && t[0] == '-';
    var u := if |t| > 0 && (t[0] == '-' || t[0] == '+') then t[1..] else t;
    match ParseUnsigned(u, radix)
    case None => None
    case Some(v) => Some(if negative then -(v as int) else v)
  }

  /** The unsigned part of `parseInt`: the base is 16 after a `0x` prefix
      when no radix is given, otherwise 10. */
  function ParseUnsigned(u: string, radix: Radix): Option<nat> {
    var hex := radix == Unspecified && |u| >= 2 && u[0] == '0' && (u[1] == 'x' || u[1] == 'X');
    if hex then ParseDigits(u[2..], 16) else ParseDigits(u, 10)
  }

  /** The value of the longest digit prefix of `body`, or None if it is empty. */
  function ParseDigits(body: string, base: nat): Option<nat> {
    var k := DigitRun(body, base);
    if k == 0 then None else Some(DigitsValue(body[..k], base))
  }

  lemma {:induction false} DigitsOfNat(n: nat)
    ensures var s := NatToString(n);
            (forall i :: 0 <= i < |s| ==> DigitValue(s[i], 10).Some?)
            && DigitRun(s, 10) == |s| && DigitsValue(s, 10) == n
  {
    var s := NatToString(n);
    DigitRunAll(s);
    if n >= 10 {
      DigitsOfNat(n / 10);
      assert s[..|s| - 1] == NatToString(n / 10);
    }
  }

  lemma {:induction false} DigitRunAll(s: string)
    requires forall i :: 0 <= i < |s| ==> IsDigit(s[i])
    ensures DigitRun(s, 10) == |s|
  {
    if |s| > 0 {
      DigitRunAll(s[1..]);
    }
  }

  /** Reading an unsigned run of decimal digits without a leading zero. */
  lemma ParseUnsignedOfNat(m: nat, radix: Radix)
    ensures ParseUnsigned(NatToString(m), radix) == Some(m)
  {
    var s := NatToString(m);
    DigitsOfNat(m);
    assert s[..|s|] == s;
    assert ParseDigits(s, 10) == Some(m);
  }

  /** Reading a minus sign followed by digits without a leading zero. */
  lemma ParseIntOfNegative(m: nat, radix: Radix)
    ensures ParseInt("-" + NatToString(m), radix) == Some(-(m as int))
  {
    var digits := NatToString(m);
    var s := "-" + digits;
    ParseUnsignedOfNat(m, radix);
    TrimStartNoSpace(s);
    assert s[0] == '-' && s[1..] == digits;
  }

  /** Reading digits without a sign and without a leading zero. */
  lemma ParseIntOfNat(m: nat, radix: Radix)
    ensures ParseInt(NatToString(m), radix) == Some(m)
  {
    var s := NatToString(m);
    TrimStartNoSpace(s);
    ParseUnsignedOfNat(m, radix);
    assert s[0] != '-' && s[0] != '+';
  }

  /** `parseInt` reads back what `String` writes, with or without a radix. */
  lemma ParseIntOfIntToString(n: int, radix: Radix)
    ensures ParseInt(IntToString(n), radix) == Some(n)
  {
    var s := IntToString(n);
    if n < 0 {
      var m: nat := -n;
      assert s == "-" + NatToString(m);
      ParseIntOfNegative(m, radix);
      assert ParseInt(s, radix) == Some(-(m as int));
    } else {
      var m: nat := n;
      assert s == NatToString(m);
      ParseIntOfNat(m, radix);
      assert ParseInt(s, radix) == Some(m as int);
    }
  }

  /** What `String` writes for an integer is never blank. */
  lemma IntToStringNotBlank(n: int)
    ensures !IsBlank(IntToString(n))
  {
    var s := IntToString(n);
    assert s[0] == '-' || IsDigit(s[0]);
    TrimStartNoSpace(s);
  }

  // ---------------------------------------------------------------------
  // split on a one-character separator
  // ---------------------------------------------------------------------

  /** Index of the first `d` in `s`. */
  function FirstIndex(s: string, d: char): (i: nat)
    requires d in s
    ensures i < |s| && s[i] == d
    ensures forall j :: 0 <= j < i ==> s[j] != d
  {
    if s[0] == d then 0
    else
      assert d in s[1..] by {
        var k :| 0 <= k < |s| && s[k] == d;
        assert s[1..][k - 1] == d;
      }
      1 + FirstIndex(s[1..], d)
  }

  /** `s.split(d)`: the pieces between occurrences of `d`, in order. */
  function Split(s: string, d: char): (parts: seq<string>)
    ensures |parts| >= 1
    ensures forall i :: 0 <= i < |parts| ==> d !in parts[i]
    decreases |s|
  {
    if d !in s then [s]
    else
      var i := FirstIndex(s, d);
      [s[..i]] + Split(s[i + 1..], d)
  }

  /** `split` yields one more piece than there are separators. */
  lemma {:induction false} SplitCount(s: string, d: char)
    ensures |Split(s, d)| == multiset(s)[d] + 1
    decreases |s|
  {
    if d in s {
      var i := FirstIndex(s, d);
      var a, b := s[..i], s[i + 1..];
      SplitCount(b, d);
      assert multiset(s)[d] == multiset(b)[d] + 1 by {
        assert s == a + [d] + b;
        assert multiset(s) == multiset(a) + multiset{d} + multiset(b);
        assert d !in a;
        assert multiset(a)[d] == 0;
      }
    } else {
      assert multiset(s)[d] == 0;
    }
  }

  /** A string without the separator is one piece. */
  lemma SplitWithout(s: string, d: char)
    requires d !in s
    ensures Split(s, d) == [s]
  {
  }

  /** A first piece without the separator comes off whole. */
  lemma SplitAt(a: string, b: string, d: char)
    requires d !in a
    ensures Split(a + [d] + b, d) == [a] + Split(b, d)
  {
    var s := a + [d] + b;
    assert s[|a|] == d;
    var i := FirstIndex(s, d);
    assert i == |a|;
    assert s[..i] == a;
    assert s[i + 1..] == b;
  }
}
