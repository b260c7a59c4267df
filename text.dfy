/**
 * The parts of Go's `strings` and `strconv` packages that the client uses,
 * on strings whose characters each stand for one byte.
 */
module Text {
  import opened Wrappers

  /** Go's uint64. */
  type Uint64 = x: int | 0 <= x < 0x1_0000_0000_0000_0000

  /** Go's int and int64 (64 bits on the platforms the client targets). */
  type Int64 = x: int | -0x8000_0000_0000_0000 <= x < 0x8000_0000_0000_0000

  predicate IsDigit(c: char) { '0' <= c <= '9' }

  predicate IsHexDigit(c: char) { IsDigit(c) || 'a' <= c <= 'f' || 'A' <= c <= 'F' }

  /** `\w` of Go's regexp package: ASCII letters, digits and underscore. */
  predicate IsWordChar(c: char) { IsDigit(c) || 'a' <= c <= 'z' || 'A' <= c <= 'Z' || c == '_' }

  /** The ASCII white space that `strings.TrimSpace` removes. */
  predicate IsSpace(c: char) {
    c == ' ' || c == '\t' || c == '\n' || c == '\r' || c == '\U{B}' || c == '\U{C}'
  }

  predicate AllDigits(s: string) { forall i :: 0 <= i < |s| ==> IsDigit(s[i]) }

  predicate HasPrefix(s: string, p: string) { |p| <= |s| && s[..|p|] == p }

  predicate HasSuffix(s: string, p: string) { |p| <= |s| && s[|s| - |p|..] == p }

  /** strings.TrimPrefix: drops one leading copy of `p`, if there is one. */
  function TrimPrefix(s: string, p: string): (r: string)
    ensures HasPrefix(s, p) ==> p + r == s
    ensures !HasPrefix(s, p) ==> r == s
  {
    if HasPrefix(s, p) then s[|p|..] else s
  }

  /** strings.TrimSuffix: drops one trailing copy of `p`, if there is one. */
  function TrimSuffix(s: string, p: string): (r: string)
    ensures HasSuffix(s, p) ==> r + p == s
    ensures !HasSuffix(s, p) ==> r == s
  {
    if HasSuffix(s, p) then s[..|s| - |p|] else s
  }

  /** The first index at or after `i` that holds no blank, or |s| when there is none. */
  function SkipSpace(s: string, i: nat): (k: nat)
    requires i <= |s|
    ensures i <= k <= |s| && (k < |s| ==> !IsSpace(s[k]))
    ensures forall m :: i <= m < k ==> IsSpace(s[m])
    decreases |s| - i
  {
    if i < |s| && IsSpace(s[i]) then SkipSpace(s, i + 1) else i
  }

  /** The end `k` of the text before `j` once the blanks before `j` are cut, going no lower than `lo`. */
  function SkipSpaceBack(s: string, lo: nat, j: nat): (k: nat)
    requires lo <= j <= |s|
    ensures lo <= k <= j && (k > lo ==> !IsSpace(s[k - 1]))
    ensures forall m :: k <= m < j ==> IsSpace(s[m])
  {
    if j > lo && IsSpace(s[j - 1]) then SkipSpaceBack(s, lo, j - 1) else j
  }

  /**
   * strings.TrimSpace restricted to ASCII white space: the result is the
   * middle part of `s` once every leading and trailing blank is gone.
   */
  function TrimSpace(s: string): (r: string)
    ensures var i := SkipSpace(s, 0);
      && i + |r| <= |s| && r == s[i..i + |r|]
      && (forall m :: 0 <= m < i ==> IsSpace(s[m]))
      && (forall m :: i + |r| <= m < |s| ==> IsSpace(s[m]))
    ensures r == [] || (!IsSpace(r[0]) && !IsSpace(r[|r| - 1]))
  {
    var i := SkipSpace(s, 0);
    s[i..SkipSpaceBack(s, i, |s|)]
  }

  /** strings.TrimRight(s, cutset) for the one-character cutset `c`. */
  function TrimRight(s: string, c: char): (r: string)
    ensures |r| <= |s| && r == s[..|r|]
    ensures forall k :: |r| <= k < |s| ==> s[k] == c
    ensures r == [] || r[|r| - 1] != c
  {
    if s != [] && s[|s| - 1] == c then TrimRight(s[..|s| - 1], c) else s
  }

  /** strings.LastIndexByte: the index of the last `c` in `s`, or -1. */
  function LastIndexOf(s: string, c: char): (k: int)
    ensures -1 <= k < |s|
    ensures k >= 0 ==> s[k] == c
    ensures forall j :: k < j < |s| ==> s[j] != c
  {
    if s == [] then -1
    else if s[|s| - 1] == c then |s| - 1
    else LastIndexOf(s[..|s| - 1], c)
  }

  function DigitValue(c: char): (v: nat)
    requires IsDigit(c)
    ensures v < 10
  {
    c as int - '0' as int
  }

  function DigitChar(v: nat): (c: char)
    requires v < 10
    ensures IsDigit(c) && DigitValue(c) == v
  {
    (v + '0' as int) as char
  }

  /** The number a run of decimal digits spells, most significant first. */
  function DecimalValue(s: string): nat
    requires AllDigits(s)
  {
    if s == [] then 0 else 10 * DecimalValue(s[..|s| - 1]) + DigitValue(s[|s| - 1])
  }

  /** strconv.FormatUint(n, 10): the shortest decimal spelling of `n`. */
  function DecimalString(n: nat): (s: string)
    ensures |s| >= 1 && AllDigits(s)
    ensures s[0] == '0' ==> n == 0 && |s| == 1
  {
    if n < 10 then [DigitChar(n)] else DecimalString(n / 10) + [DigitChar(n % 10)]
  }

  /** strconv.Itoa: FormatUint with a minus sign for a negative number. */
  function FormatInt(n: int): (s: string)
    ensures n >= 0 ==> s == DecimalString(n)
    ensures n < 0 ==> s == "-" + DecimalString(-n)
  {
    if n < 0 then "-" + DecimalString(-n) else DecimalString(n)
  }

  /** Reading back what DecimalString writes gives the number again. */
  lemma {:induction false} DecimalRoundTrip(n: nat)
    ensures DecimalValue(DecimalString(n)) == n
  {
    if n >= 10 {
      var s := DecimalString(n);
      DecimalRoundTrip(n / 10);
      assert s[..|s| - 1] == DecimalString(n / 10);
    }
  }

  /** A digit string with no leading zero is the DecimalString of its value. */
  lemma {:induction false} DecimalStringOfValue(s: string)
    requires |s| >= 1 && AllDigits(s) && (s[0] == '0' ==> |s| == 1)
    ensures DecimalString(DecimalValue(s)) == s
  {
    if |s| > 1 {
      var p := s[..|s| - 1];
      DecimalStringOfValue(p);
      LeadingDigitBound(p);
    }
  }

  lemma {:induction false} LeadingDigitBound(s: string)
    requires |s| >= 1 && AllDigits(s) && s[0] != '0'
    ensures DecimalValue(s) >= 1
  {
    if |s| > 1 {
      LeadingDigitBound(s[..|s| - 1]);
    }
  }

  function Zeros(n: nat): (s: string)
    ensures |s| == n && AllDigits(s)
  {
    if n == 0 then [] else ['0'] + Zeros(n - 1)
  }

  /** DecimalString padded on the left with zeros to at least `width` digits. */
  function PadDecimal(n: nat, width: nat): (s: string)
    ensures AllDigits(s)
  {
    var d := DecimalString(n);
    (if |d| < width then Zeros(width - |d|) else []) + d
  }

  /** A leading zero does not change the number a digit string spells. */
  lemma {:induction false} LeadingZero(s: string)
    requires AllDigits(s)
    ensures DecimalValue(['0'] + s) == DecimalValue(s)
  {
    if s != [] {
      var t := ['0'] + s;
      assert t[..|t| - 1] == ['0'] + s[..|s| - 1];
      LeadingZero(s[..|s| - 1]);
    }
  }

  lemma {:induction false} ZerosValue(k: nat, s: string)
    requires AllDigits(s)
    ensures DecimalValue(Zeros(k) + s) == DecimalValue(s)
  {
    if k == 0 {
      assert Zeros(k) + s == s;
    } else {
      ZerosValue(k - 1, s);
      assert Zeros(k) + s == ['0'] + (Zeros(k - 1) + s);
      LeadingZero(Zeros(k - 1) + s);
    }
  }

  /** Padding keeps the value: reading a padded number gives it back. */
  lemma PadDecimalValue(n: nat, width: nat)
    ensures DecimalValue(PadDecimal(n, width)) == n
  {
    var d := DecimalString(n);
    DecimalRoundTrip(n);
    ZerosValue(if |d| < width then width - |d| else 0, d);
  }

  /** A number whose decimal text is already as wide as asked is not padded. */
  lemma PadDecimalWide(n: nat, width: nat)
    requires |DecimalString(n)| >= width
    ensures PadDecimal(n, width) == DecimalString(n)
  {
    assert [] + DecimalString(n) == DecimalString(n);
  }

  /** One more digit of width is one more leading zero. */
  lemma PadDecimalOneMore(n: nat, width: nat)
    requires |DecimalString(n)| <= width
    ensures PadDecimal(n, width + 1) == ['0'] + PadDecimal(n, width)
  {
    var d := DecimalString(n);
    var k := width - |d|;
    assert PadDecimal(n, width) == Zeros(k) + d by {
      if |d| == width {
        assert Zeros(k) == [];
      }
    }
    ZerosOneMore(k, d);
  }

  lemma ZerosOneMore(k: nat, d: string)
    ensures Zeros(k + 1) + d == ['0'] + (Zeros(k) + d)
  {
    assert Zeros(k + 1) == ['0'] + Zeros(k);
  }

  /** Every digit string is the padded spelling of its own value at its own width. */
  lemma {:induction false} PadDecimalOfDigits(t: string)
    requires |t| >= 1 && AllDigits(t)
    ensures |DecimalString(DecimalValue(t))| <= |t|
    ensures PadDecimal(DecimalValue(t), |t|) == t
  {
    if t[0] != '0' {
      DecimalStringOfValue(t);
      PadDecimalWide(DecimalValue(t), |t|);
    } else if |t| == 1 {
      assert t == "0";
      PadDecimalWide(DecimalValue(t), |t|);
    } else {
      var u := t[1..];
      assert t == ['0'] + u;
      LeadingZero(u);
      PadDecimalOfDigits(u);
      PadDecimalOneMore(DecimalValue(u), |u|);
    }
  }

  function Pow10(k: nat): (p: nat)
    ensures p >= 1
  {
    if k == 0 then 1 else 10 * Pow10(k - 1)
  }

  /** A number below 10^k takes at most k digits. */
  lemma {:induction false} DecimalStringLength(n: nat, k: nat)
    requires 1 <= k && n < Pow10(k)
    ensures |DecimalString(n)| <= k
  {
    if n >= 10 {
      DecimalStringLength(n / 10, k - 1);
    }
  }

  /** A run of k digits spells a number below 10^k. */
  lemma {:induction false} DecimalValueBound(s: string)
    requires AllDigits(s)
    ensures DecimalValue(s) < Pow10(|s|)
  {
    if s != [] {
      DecimalValueBound(s[..|s| - 1]);
    }
  }

  /** strconv.ParseUint(s, 10, 64) on a run of decimal digits: fails exactly when the value does not fit. */
  function ParseUint64(s: string): (r: Option<Uint64>)
    requires |s| >= 1 && AllDigits(s)
    ensures r.Some? <==> DecimalValue(s) < 0x1_0000_0000_0000_0000
    ensures r.Some? ==> r.value == DecimalValue(s)
  {
    var v := DecimalValue(s);
    if v < 0x1_0000_0000_0000_0000 then Some(v) else None
  }

  /** Two's-complement wrap-around of a 64-bit signed addition. */
  function Wrap64(x: int): (r: Int64)
    ensures (r - x) % 0x1_0000_0000_0000_0000 == 0
  {
    (x + 0x8000_0000_0000_0000) % 0x1_0000_0000_0000_0000 - 0x8000_0000_0000_0000
  }

  /** Wrapping after every addition is the same as wrapping once at the end. */
  lemma WrapAdd(a: int, b: int)
    ensures Wrap64(Wrap64(a) + b) == Wrap64(a + b)
  {
    var m := 0x1_0000_0000_0000_0000;
    var x := a + 0x8000_0000_0000_0000;
    var q := x / m;
    assert x == q * m + x % m;
    assert Wrap64(a) + b + 0x8000_0000_0000_0000 == (x + b) - q * m;
  }

  /** A value that already fits is left alone. */
  lemma WrapSmall(x: Int64)
    ensures Wrap64(x) == x
  {
  }
}
