/**
 * Decimal numbers as the C library reads and writes them: the integer literal that
 * sscanf("%d") accepts, the floating-point literal that sscanf("%f") accepts, the text
 * printf("%d") produces, truncation of a float to an int, and the settings' ClampInt.
 */
module Numbers {
  import opened Text

  function DigitValue(ch: char): nat
    requires IsDigit(ch)
  {
    ch as int - '0' as int
  }

  function DigitChar(d: nat): (ch: char)
    requires d < 10
    ensures IsDigit(ch) && DigitValue(ch) == d
  {
    ('0' as int + d) as char
  }

  predicate AllDigits(ds: string)
  {
    forall k | 0 <= k < |ds| :: IsDigit(ds[k])
  }

  /** The index just past the maximal run of digits at index i of the buffer s. */
  function DigitRun(s: string, i: nat): (j: nat)
    requires i <= |s|
    ensures i <= j <= |s| && AllDigits(s[i..j])
    ensures !IsDigit(Peek(s, j))
    decreases |s| - i
  {
    if i < |s| && IsDigit(s[i]) then DigitRun(s, i + 1) else i
  }

  /** The maximal run is unique: digits up to j and none at j mean DigitRun stops at j. */
  lemma {:induction false} DigitRunIs(s: string, i: nat, j: nat)
    requires i <= j <= |s|
    requires forall k | i <= k < j :: IsDigit(s[k])
    requires !IsDigit(Peek(s, j))
    ensures DigitRun(s, i) == j
    decreases j - i
  {
    if i < j {
      assert IsDigit(s[i]);
      DigitRunIs(s, i + 1, j);
    }
  }

  /** The digits from index i to index j of s. */
  function DigitsBetween(s: string, i: nat, j: nat): (ds: string)
    requires i <= j <= |s| && AllDigits(s[i..j])
    ensures ds == s[i..j] && AllDigits(ds)
  {
    s[i..j]
  }

  /** The value of a digit string, most significant digit first. */
  function DigitsValue(ds: string): nat
    requires AllDigits(ds)
  {
    if |ds| == 0 then 0 else 10 * DigitsValue(ds[..|ds| - 1]) + DigitValue(ds[|ds| - 1])
  }

  /** The digits printf("%d") writes for a non-negative value: no leading zero. */
  function NatDigits(n: nat): (ds: string)
    ensures |ds| > 0 && IsDigit(ds[0])
    ensures |ds| > 1 ==> ds[0] != '0'
  {
    if n < 10 then [DigitChar(n)] else NatDigits(n / 10) + [DigitChar(n % 10)]
  }

  /** printf("%d") of a non-negative value writes only digits. */
  lemma {:induction false} NatDigitsAreDigits(n: nat)
    ensures AllDigits(NatDigits(n))
  {
    if n >= 10 {
      NatDigitsAreDigits(n / 10);
      assert NatDigits(n) == NatDigits(n / 10) + [DigitChar(n % 10)];
    }
  }

  /** The digits printf("%d") writes for a non-negative value read back as that value. */
  lemma {:induction false} NatDigitsValue(n: nat)
    ensures AllDigits(NatDigits(n)) && DigitsValue(NatDigits(n)) == n
  {
    NatDigitsAreDigits(n);
    if n >= 10 {
      NatDigitsValue(n / 10);
      var ds := NatDigits(n);
      assert ds[..|ds| - 1] == NatDigits(n / 10);
    }
  }

  /** printf("%d", n). */
  function FormatInt(n: int): string
  {
    if n < 0 then "-" + NatDigits(-n) else NatDigits(n)
  }

  /** A literal read from a buffer: the index just past it, and its value. */
  datatype Lexeme<T> = Lexeme(end: nat, value: T)

  /** The length of an optional sign at index i. */
  function SignLen(s: string, i: nat): (n: nat)
    requires i <= |s|
    ensures i + n <= |s|
  {
    if Peek(s, i) == '+' || Peek(s, i) == '-' then 1 else 0
  }

  /**
   * Where sscanf("%d") stops at index i once the leading white space is skipped: after
   * the longest literal [+-]?[0-9]+ there; None when no digit follows the optional sign.
   */
  function IntEnd(s: string, i: nat): (r: Option<nat>)
    requires i <= |s|
    ensures r.Some? <==> IsDigit(Peek(s, i + SignLen(s, i)))
    ensures r.Some? ==> i + SignLen(s, i) < r.value <= |s| && !IsDigit(Peek(s, r.value))
  {
    var d := i + SignLen(s, i);
    var e := DigitRun(s, d);
    if e == d then None else Some(e)
  }

  /** sscanf("%d") at index i: the index after the literal and its value. */
  function LexInt(s: string, i: nat): (r: Option<Lexeme<int>>)
    requires i <= |s|
    ensures r.Some? <==> IntEnd(s, i).Some?
    ensures r.Some? ==> r.value.end == IntEnd(s, i).value
  {
    match IntEnd(s, i)
    case None => None
    case Some(e) =>
      var mag: int := DigitsValue(DigitsBetween(s, i + SignLen(s, i), e));
      Some(Lexeme(e, if Peek(s, i) == '-' then -mag else mag))
  }

  /** A character that cannot continue a number literal. */
  predicate EndsNumber(ch: char)
  {
    !IsDigit(ch) && ch != '.' && ch != 'e' && ch != 'E'
  }

  /**
   * Where the buffer holds the text printf("%d", n) writes at index i, and no digit
   * follows it, sscanf("%d") reads exactly n and stops right after the text.
   */
  lemma LexIntFormatted(s: string, i: nat, n: int)
    requires StartsWith(s, i, FormatInt(n)) && !IsDigit(Peek(s, i + |FormatInt(n)|))
    ensures LexInt(s, i) == Some(Lexeme(i + |FormatInt(n)|, n))
  {
    var v := FormatInt(n);
    var m := if n < 0 then -n else n;
    var ds := NatDigits(m);
    var sg := if n < 0 then 1 else 0;
    NatDigitsAreDigits(m);
    assert v[sg..] == ds;
    PeekInside(s, i, v, 0);
    assert SignLen(s, i) == sg;
    forall k | i + sg <= k < i + |v|
      ensures IsDigit(s[k])
    {
      PeekInside(s, i, v, k - i);
      assert v[k - i] == ds[k - i - sg];
    }
    DigitRunIs(s, i + sg, i + |v|);
    assert s[i + sg..i + |v|] == ds;
    NatDigitsValue(m);
  }

  /** A decimal point at index p. */
  predicate PointAt(s: string, p: nat)
  {
    Peek(s, p) == '.'
  }

  /** An exponent mark at index p. */
  predicate ExponentAt(s: string, p: nat)
  {
    Peek(s, p) == 'e' || Peek(s, p) == 'E'
  }

  /** The index after the fraction digits that follow a point at index w, or w when there is no point. */
  function FractionEnd(s: string, w: nat): (f: nat)
    requires w <= |s|
    ensures w <= f <= |s|
    ensures PointAt(s, w) ==> w < f
  {
    if PointAt(s, w) then DigitRun(s, w + 1) else w
  }

  /** The index after the digits before the point: the whole part of the mantissa at index i. */
  function WholeEnd(s: string, i: nat): (w: nat)
    requires i <= |s|
    ensures i + SignLen(s, i) <= w <= |s|
  {
    DigitRun(s, i + SignLen(s, i))
  }

  /**
   * Where sscanf("%f") stops at index i once the leading white space is skipped: after
   * the longest literal [+-]? (digits ('.' digits*)? | '.' digits) ([eE] [+-]? digits)?.
   * None when the mantissa has no digit, and None when an exponent mark is not followed
   * by an exponent: the text read so far is then a prefix of a literal but not a
   * literal, which fails the conversion.
   */
  function FloatEnd(s: string, i: nat): (r: Option<nat>)
    requires i <= |s|
    ensures r.Some? ==> i < r.value <= |s|
  {
    var w := WholeEnd(s, i);
    var f := FractionEnd(s, w);
    if w == i + SignLen(s, i) && f <= w + 1 then None
    else if !ExponentAt(s, f) then Some(f)
    else IntEnd(s, f + 1)
  }

  /** The parts of a float literal: its sign, the digits before and after the point, and the exponent. */
  datatype FloatLiteral = FloatLiteral(negative: bool, whole: string, fraction: string, exponent: int)

  /** sscanf("%f") at index i: the literal it reads, split into its parts. */
  function LexFloat(s: string, i: nat): (r: Option<FloatLiteral>)
    requires i <= |s|
    ensures r.Some? <==> FloatEnd(s, i).Some?
  {
    if FloatEnd(s, i).None? then None
    else
      var sg := SignLen(s, i);
      var w := WholeEnd(s, i);
      var f := FractionEnd(s, w);
      var fraction := if PointAt(s, w) then DigitsBetween(s, w + 1, f) else "";
      var exponent := if ExponentAt(s, f) then LexInt(s, f + 1) else None;
      Some(FloatLiteral(Peek(s, i) == '-', DigitsBetween(s, i + sg, w), fraction,
                        if exponent.Some? then exponent.value.value else 0))
  }

  /** The whole of v is one literal that sscanf("%f") reads. */
  predicate IsFloatLiteral(v: string)
  {
    FloatEnd(v, 0) == Some(|v|)
  }

  /** A buffer holding v at index i, followed there by the character stop. */
  predicate Agrees(s: string, i: nat, v: string, stop: char)
  {
    StartsWith(s, i, v) && Peek(s, i + |v|) == stop
  }

  lemma PeekAgrees(s: string, i: nat, v: string, stop: char, k: nat)
    requires Agrees(s, i, v, stop) && k <= |v|
    ensures Peek(s, i + k) == (if k < |v| then v[k] else stop)
  {
    if k < |v| {
      PeekInside(s, i, v, k);
    }
  }

  /** A run of digits inside v ends at the same place in a buffer holding v, when no digit follows v there. */
  lemma DigitRunAgrees(s: string, i: nat, v: string, stop: char, a: nat)
    requires Agrees(s, i, v, stop) && !IsDigit(stop) && a <= |v|
    ensures DigitRun(s, i + a) == i + DigitRun(v, a)
  {
    var j := DigitRun(v, a);
    forall k | i + a <= k < i + j
      ensures IsDigit(s[k])
    {
      PeekAgrees(s, i, v, stop, k - i);
      assert v[k - i] == v[a..j][k - i - a];
    }
    PeekAgrees(s, i, v, stop, j);
    DigitRunIs(s, i + a, i + j);
  }

  lemma IntEndAgrees(s: string, i: nat, v: string, stop: char, a: nat)
    requires Agrees(s, i, v, stop) && !IsDigit(stop) && a < |v|
    requires IntEnd(v, a).Some?
    ensures IntEnd(s, i + a) == Some(i + IntEnd(v, a).value)
  {
    PeekAgrees(s, i, v, stop, a);
    var sg := SignLen(v, a);
    assert SignLen(s, i + a) == sg;
    DigitRunAgrees(s, i, v, stop, a + sg);
  }

  /** The mantissa of a literal inside v ends at the same place in a buffer holding v. */
  lemma MantissaAgrees(s: string, i: nat, v: string, stop: char)
    requires Agrees(s, i, v, stop) && EndsNumber(stop) && 0 < |v|
    ensures SignLen(s, i) == SignLen(v, 0)
    ensures WholeEnd(s, i) == i + WholeEnd(v, 0)
    ensures FractionEnd(s, i + WholeEnd(v, 0)) == i + FractionEnd(v, WholeEnd(v, 0))
  {
    PeekAgrees(s, i, v, stop, 0);
    var sg := SignLen(v, 0);
    DigitRunAgrees(s, i, v, stop, sg);
    var w := WholeEnd(v, 0);
    PeekAgrees(s, i, v, stop, w);
    if PointAt(v, w) {
      DigitRunAgrees(s, i, v, stop, w + 1);
    }
  }

  /**
   * What follows a complete float literal, if it cannot continue one, does not change
   * how far sscanf("%f") reads.
   */
  lemma FloatEndAgrees(s: string, i: nat, v: string, stop: char)
    requires Agrees(s, i, v, stop) && EndsNumber(stop) && IsFloatLiteral(v)
    ensures FloatEnd(s, i) == Some(i + |v|)
  {
    MantissaAgrees(s, i, v, stop);
    var w := WholeEnd(v, 0);
    var f := FractionEnd(v, w);
    assert WholeEnd(s, i) == i + w && FractionEnd(s, i + w) == i + f;
    PeekAgrees(s, i, v, stop, f);
    assert ExponentAt(s, i + f) == ExponentAt(v, f);
    if ExponentAt(v, f) {
      IntEndAgrees(s, i, v, stop, f + 1);
    }
  }

  /** sscanf("%f") reads what printf("%d", n) wrote as a whole number with n's digits. */
  lemma LexFloatFormatted(n: int)
    ensures IsFloatLiteral(FormatInt(n))
    ensures LexFloat(FormatInt(n), 0) == Some(FloatLiteral(n < 0, NatDigits(if n < 0 then -n else n), "", 0))
  {
    var v := FormatInt(n);
    var ds := NatDigits(if n < 0 then -n else n);
    var sg := if n < 0 then 1 else 0;
    NatDigitsAreDigits(if n < 0 then -n else n);
    assert v[sg..] == ds;
    assert SignLen(v, 0) == sg;
    forall k | sg <= k < |v|
      ensures IsDigit(v[k])
    {
      assert v[k] == ds[k - sg];
    }
    DigitRunIs(v, sg, |v|);
    assert v[sg..|v|] == ds;
  }

  /**
   * A single-precision value, identified by the decimal literal it was read from or
   * written as. Binary rounding is not modelled: two literals are two values.
   */
  datatype Float32 = Float32(literal: string)

  function Pow10(n: nat): (p: nat)
    ensures p > 0
  {
    if n == 0 then 1 else 10 * Pow10(n - 1)
  }

  /** (int)f: the value of the literal truncated toward zero. */
  function Truncate(f: Float32): int
  {
    match LexFloat(f.literal, 0)
    case None => 0
    case Some(p) =>
      var n := DigitsValue(p.whole + p.fraction);
      var scale := |p.fraction| - p.exponent;
      var magnitude := if scale <= 0 then n * Pow10(-scale) else n / Pow10(scale);
      if p.negative then -magnitude else magnitude
  }

  /** Truncation gives back an integer written as a float literal. */
  lemma TruncateFormatInt(n: int)
    ensures IsFloatLiteral(FormatInt(n))
    ensures Truncate(Float32(FormatInt(n))) == n
  {
    LexFloatFormatted(n);
    var ds := NatDigits(if n < 0 then -n else n);
    NatDigitsValue(if n < 0 then -n else n);
    assert ds + "" == ds;
  }

  /** ClampInt(x, lo, hi): raise x to lo, then lower it to hi, in that order. */
  function ClampInt(x: int, lo: int, hi: int): (r: int)
    ensures r <= hi
    ensures lo <= hi ==> lo <= r
    ensures lo <= x <= hi ==> r == x
    ensures x > hi ==> r == hi
    ensures x < lo && lo <= hi ==> r == lo
    ensures lo > hi ==> r == hi
  {
    var raised := if x < lo then lo else x;
    if raised > hi then hi else raised
  }
}
