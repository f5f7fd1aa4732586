/**
 * What each primitive parser of the settings reader does to a cursor into the
 * NUL-terminated buffer s: whether it succeeds, the index the cursor is left at (also
 * on failure) and the value left in its out parameter, which keeps its old value
 * wherever the C code does not write it.
 */
module Scan {
  import opened Text
  import opened Numbers
  import Camera
  import Model

  /** A parser without a value: success and the cursor after it. */
  datatype Scanned = Scanned(ok: bool, next: nat)

  /** A parser with an out parameter: success, the cursor after it, and the out parameter after it. */
  datatype Parsed<T> = Parsed(ok: bool, next: nat, value: T)

  /** What a value parser reads: the cursor it leaves and the value, if it read one. */
  datatype Read<T> = Read(next: nat, value: Option<T>)

  /** The out parameter is written only when a value was read; the parser succeeds exactly then. */
  function Store<T>(r: Read<T>, x: T): (p: Parsed<T>)
    ensures p.ok <==> r.value.Some?
    ensures p.next == r.next && p.value == (if r.value.Some? then r.value.value else x)
  {
    Parsed(r.value.Some?, r.next, if r.value.Some? then r.value.value else x)
  }

  /** The characters ParseBlank skips. */
  predicate IsBlank(ch: char)
  {
    ch == ' ' || ch == '\n' || ch == '\r' || ch == '\t'
  }

  /** The characters sscanf skips before a number (isspace in the C locale). */
  predicate IsSpace(ch: char)
  {
    IsBlank(ch) || ch == 11 as char || ch == 12 as char
  }

  predicate AllBlank(w: string)
  {
    forall k | 0 <= k < |w| :: IsBlank(w[k])
  }

  /** ParseBlank: the index after the maximal run of blanks at index i. */
  function Blank(s: string, i: nat): (j: nat)
    requires i <= |s|
    ensures i <= j <= |s| && AllBlank(s[i..j])
    ensures !IsBlank(Peek(s, j))
    decreases |s| - i
  {
    if i < |s| && IsBlank(s[i]) then Blank(s, i + 1) else i
  }

  /** The index after the maximal run of white space sscanf skips at index i. */
  function Space(s: string, i: nat): (j: nat)
    requires i <= |s|
    ensures i <= j <= |s|
    ensures !IsSpace(Peek(s, j))
    decreases |s| - i
  {
    if i < |s| && IsSpace(s[i]) then Space(s, i + 1) else i
  }

  /** ParseString: skip blanks, then match m exactly; on a mismatch the cursor stays after the blanks. */
  function Literal(s: string, i: nat, m: string): (r: Scanned)
    requires i <= |s|
    ensures i <= r.next <= |s|
  {
    var b := Blank(s, i);
    if StartsWith(s, b, m) then Scanned(true, b + |m|) else Scanned(false, b)
  }

  /** ParseKey: blanks, the literal m, blanks, and '='. */
  function Key(s: string, i: nat, m: string): (r: Scanned)
    requires i <= |s|
    ensures i <= r.next <= |s|
  {
    var l := Literal(s, Blank(s, i), m);
    if !l.ok then l
    else
      var v := Blank(s, l.next);
      if Peek(s, v) == '=' then Scanned(true, v + 1) else Scanned(false, v)
  }

  /** What ParseInt reads: an integer, clamped to [lo, hi] unless lo == hi. */
  function IntRead(s: string, i: nat, lo: int, hi: int): (r: Read<int>)
    requires i <= |s|
    ensures i <= r.next <= |s|
  {
    var b := Blank(s, i);
    match LexInt(s, Space(s, b))
    case None => Read(b, None)
    case Some(l) => Read(l.end, Some(if lo != hi then ClampInt(l.value, lo, hi) else l.value))
  }

  /** ParseInt into the out parameter x. */
  function Int(s: string, i: nat, x: int, lo: int, hi: int): (r: Parsed<int>)
    requires i <= |s|
    ensures i <= r.next <= |s|
  {
    Store(IntRead(s, i, lo, hi), x)
  }

  /** What ParseFloat reads: a float literal. */
  function FloatRead(s: string, i: nat): (r: Read<Float32>)
    requires i <= |s|
    ensures i <= r.next <= |s|
  {
    var b := Blank(s, i);
    var d := Space(s, b);
    match FloatEnd(s, d)
    case None => Read(b, None)
    case Some(e) => Read(e, Some(Float32(s[d..e])))
  }

  /** ParseFloat into the out parameter x. */
  function Float(s: string, i: nat, x: Float32): (r: Parsed<Float32>)
    requires i <= |s|
    ensures i <= r.next <= |s|
  {
    Store(FloatRead(s, i), x)
  }

  /** What ParseFloatToInt reads: a float literal, truncated toward zero and always clamped to [lo, hi]. */
  function FloatToIntRead(s: string, i: nat, lo: int, hi: int): (r: Read<int>)
    requires i <= |s|
    ensures i <= r.next <= |s|
  {
    var f := FloatRead(s, i);
    match f.value
    case None => Read(f.next, None)
    case Some(v) => Read(f.next, Some(ClampInt(Truncate(v), lo, hi)))
  }

  /** ParseFloatToInt into the out parameter x. */
  function FloatToInt(s: string, i: nat, x: int, lo: int, hi: int): (r: Parsed<int>)
    requires i <= |s|
    ensures i <= r.next <= |s|
  {
    Store(FloatToIntRead(s, i, lo, hi), x)
  }

  /** ParseComma. */
  function Comma(s: string, i: nat): (r: Scanned)
    requires i <= |s|
    ensures i <= r.next <= |s|
  {
    var b := Blank(s, i);
    if Peek(s, b) == ',' then Scanned(true, b + 1) else Scanned(false, b)
  }

  /** The first of names[k..] that ParseString matches at index i, or |names| if none does. */
  function FirstLiteral(s: string, i: nat, names: seq<string>, k: nat): (j: nat)
    requires i <= |s| && k <= |names|
    ensures k <= j <= |names|
    ensures j < |names| ==> Literal(s, i, names[j]).ok
    ensures forall l | k <= l < j :: !Literal(s, i, names[l]).ok
    decreases |names| - k, |s| - i
  {
    if k == |names| then k
    else if Literal(s, i, names[k]).ok then k
    else FirstLiteral(s, i, names, k + 1)
  }

  /** The words ParseBool tries, in order, after the digits '0' and '1'. */
  const BoolWords: seq<string> := ["False", "True", "false", "true"]

  /** What ParseBool reads: '0' or '1' (one character), else the first of BoolWords; odd entries mean true. */
  function BoolRead(s: string, i: nat): (r: Read<bool>)
    requires i <= |s|
    ensures i <= r.next <= |s|
  {
    var b := Blank(s, i);
    if Peek(s, b) == '0' then Read(b + 1, Some(false))
    else if Peek(s, b) == '1' then Read(b + 1, Some(true))
    else
      var k := FirstLiteral(s, b, BoolWords, 0);
      if k < |BoolWords| then Read(Literal(s, b, BoolWords[k]).next, Some(k % 2 == 1))
      else Read(b, None)
  }

  /** ParseBool into the out parameter x. */
  function Bool(s: string, i: nat, x: bool): (r: Parsed<bool>)
    requires i <= |s|
    ensures i <= r.next <= |s|
  {
    Store(BoolRead(s, i), x)
  }

  /** What ParseCameraType and ParseCameraUp read: the index of the first of the names matched. */
  function NameRead(s: string, i: nat, names: seq<string>): (r: Read<int>)
    requires i <= |s|
    ensures i <= r.next <= |s|
  {
    var b := Blank(s, i);
    var k := FirstLiteral(s, b, names, 0);
    if k < |names| then Read(Literal(s, b, names[k]).next, Some(k))
    else Read(b, None)
  }

  /** ParseCameraType: the first camera type name matched gives the type. */
  function CameraType(s: string, i: nat, x: int): (r: Parsed<int>)
    requires i <= |s|
    ensures i <= r.next <= |s|
  {
    Store(NameRead(s, i, Camera.CameraTypeNames), x)
  }

  /** ParseCameraUp: the first up-axis name matched gives the convention. */
  function CameraUp(s: string, i: nat, x: int): (r: Parsed<int>)
    requires i <= |s|
    ensures i <= r.next <= |s|
  {
    Store(NameRead(s, i, Camera.CameraUpNames), x)
  }

  /** ParseInt2: integer, comma, integer; the first integer is stored even when the rest fails. */
  function Int2(s: string, i: nat, x: int, y: int): (r: Parsed<(int, int)>)
    requires i <= |s|
    ensures i <= r.next <= |s|
  {
    var first := Int(s, Blank(s, i), x, 0, 0);
    if !first.ok then Parsed(false, first.next, (x, y))
    else
      var comma := Comma(s, first.next);
      if !comma.ok then Parsed(false, comma.next, (first.value, y))
      else
        var second := Int(s, comma.next, y, 0, 0);
        Parsed(second.ok, second.next, (first.value, second.value))
  }

  /** Elements k.. of ParseMat4 and ParseVec4: a comma before each element after the first. */
  function MatrixFrom(s: string, i: nat, m: seq<Float32>, k: nat): (r: Parsed<seq<Float32>>)
    requires i <= |s| && k <= |m|
    ensures i <= r.next <= |s| && |r.value| == |m|
    decreases |m| - k
  {
    if k == |m| then Parsed(true, i, m)
    else
      var e := Element(s, i, m[k], k > 0);
      if !e.ok then Parsed(false, e.next, m)
      else MatrixFrom(s, e.next, m[k := e.value], k + 1)
  }

  /** One element of ParseMat4 and ParseVec4: a comma unless it is the first, then a float. */
  function Element(s: string, i: nat, x: Float32, comma: bool): (r: Parsed<Float32>)
    requires i <= |s|
    ensures i <= r.next <= |s|
  {
    var c := if comma then Comma(s, i) else Scanned(true, i);
    if !c.ok then Parsed(false, c.next, x) else Float(s, c.next, x)
  }

  /** ParseMat4: sixteen comma-separated floats; elements read before a failure stay stored. */
  function Mat4(s: string, i: nat, x: Model.Mat4): (r: Parsed<Model.Mat4>)
    requires i <= |s| && |x.data| == 16
    ensures i <= r.next <= |s| && |r.value.data| == 16
  {
    var r := MatrixFrom(s, Blank(s, i), x.data, 0);
    Parsed(r.ok, r.next, Model.Mat4(r.value))
  }

  /** ParseVec4: x, y, z and w separated by commas; components read before a failure stay stored. */
  function Vec4(s: string, i: nat, v: Model.Vec4): (r: Parsed<Model.Vec4>)
    requires i <= |s|
    ensures i <= r.next <= |s|
  {
    var px := Element(s, Blank(s, i), v.x, false);
    if !px.ok then Parsed(false, px.next, v)
    else
      var v := v.(x := px.value);
      var py := Element(s, px.next, v.y, true);
      if !py.ok then Parsed(false, py.next, v)
      else
        var v := v.(y := py.value);
        var pz := Element(s, py.next, v.z, true);
        if !pz.ok then Parsed(false, pz.next, v)
        else
          var v := v.(z := pz.value);
          var pw := Element(s, pz.next, v.w, true);
          Parsed(pw.ok, pw.next, v.(w := pw.value))
  }

  // ---------------------------------------------------------------------------
  // Facts about the parsers, used by the loader and by the save/load round trip.

  /** The run of blanks is unique: blanks up to j and none at j mean ParseBlank stops at j. */
  lemma {:induction false} BlankIs(s: string, i: nat, j: nat)
    requires i <= j <= |s|
    requires forall k | i <= k < j :: IsBlank(s[k])
    requires !IsBlank(Peek(s, j))
    ensures Blank(s, i) == j
    decreases j - i
  {
    if i < j {
      assert IsBlank(s[i]);
      BlankIs(s, i + 1, j);
    }
  }

  /** ParseBlank skips exactly the blanks w that the buffer holds at i. */
  lemma BlankOver(s: string, i: nat, w: string)
    requires StartsWith(s, i, w) && AllBlank(w) && !IsBlank(Peek(s, i + |w|))
    ensures Blank(s, i) == i + |w|
  {
    forall k | i <= k < i + |w|
      ensures IsBlank(s[k])
    {
      PeekInside(s, i, w, k - i);
    }
    BlankIs(s, i, i + |w|);
  }

  /** A second ParseBlank has nothing left to skip. */
  lemma BlankTwice(s: string, i: nat)
    requires i <= |s|
    ensures Blank(s, Blank(s, i)) == Blank(s, i)
  {
    BlankIs(s, Blank(s, i), Blank(s, i));
  }

  /** ParseKey on blanks w, the key m and '=': it succeeds just past the '='. */
  lemma KeyMatches(s: string, i: nat, w: string, m: string)
    requires AllBlank(w) && StartsWith(s, i, w) && StartsWith(s, i + |w|, m)
    requires 0 < |m| && !IsBlank(m[0]) && Peek(s, i + |w| + |m|) == '='
    ensures Key(s, i, m) == Scanned(true, i + |w| + |m| + 1)
  {
    PeekInside(s, i + |w|, m, 0);
    BlankOver(s, i, w);
    BlankTwice(s, i);
    assert Blank(s, i + |w| + |m|) == i + |w| + |m|;
  }

  /** ParseKey where the key does not follow the blanks: it fails having skipped those blanks. */
  lemma KeyMisses(s: string, i: nat, m: string)
    requires i <= |s| && !StartsWith(s, Blank(s, i), m)
    ensures Key(s, i, m) == Scanned(false, Blank(s, i))
  {
    BlankTwice(s, i);
  }

  /** A number printf wrote at i starts there: nothing for ParseBlank or sscanf to skip. */
  lemma SolidStart(s: string, i: nat, v: string)
    requires StartsWith(s, i, v) && 0 < |v| && (IsDigit(v[0]) || v[0] == '-' || v[0] == '+' || v[0] == '.')
    ensures Blank(s, i) == i && Space(s, i) == i
  {
    PeekInside(s, i, v, 0);
  }

  /** ParseInt reads back what printf("%d") wrote, clamped as requested. */
  lemma IntRoundTrip(s: string, i: nat, n: int, x: int, lo: int, hi: int)
    requires StartsWith(s, i, FormatInt(n)) && !IsDigit(Peek(s, i + |FormatInt(n)|))
    ensures Int(s, i, x, lo, hi) == Parsed(true, i + |FormatInt(n)|, if lo != hi then ClampInt(n, lo, hi) else n)
  {
    SolidStart(s, i, FormatInt(n));
    LexIntFormatted(s, i, n);
  }

  /** ParseFloat reads a complete float literal as the value that literal denotes. */
  lemma FloatRoundTrip(s: string, i: nat, v: string, x: Float32)
    requires IsFloatLiteral(v) && StartsWith(s, i, v) && EndsNumber(Peek(s, i + |v|))
    ensures Float(s, i, x) == Parsed(true, i + |v|, Float32(v))
  {
    FloatEndAgrees(s, i, v, Peek(s, i + |v|));
    PeekInside(s, i, v, 0);
    SolidStart(s, i, v);
  }

  /** ParseFloatToInt reads a complete float literal as its value truncated and clamped. */
  lemma FloatToIntReads(s: string, i: nat, v: string, x: int, lo: int, hi: int)
    requires IsFloatLiteral(v) && StartsWith(s, i, v) && EndsNumber(Peek(s, i + |v|))
    ensures FloatToInt(s, i, x, lo, hi) == Parsed(true, i + |v|, ClampInt(Truncate(Float32(v)), lo, hi))
  {
    FloatReadIs(s, i, v);
  }

  /** What ParseFloat and ParseFloatToInt read from a complete float literal: the literal, and the index after it. */
  lemma FloatReadIs(s: string, i: nat, v: string)
    requires IsFloatLiteral(v) && StartsWith(s, i, v) && EndsNumber(Peek(s, i + |v|))
    ensures FloatRead(s, i) == Read(i + |v|, Some(Float32(v)))
  {
    FloatEndAgrees(s, i, v, Peek(s, i + |v|));
    FloatLiteralStart(v);
    SolidStart(s, i, v);
  }

  /** ParseFloatToInt reads back what printf("%d") wrote, always clamped. */
  lemma FloatToIntRoundTrip(s: string, i: nat, v: string, n: int, x: int, lo: int, hi: int)
    requires v == FormatInt(n) && StartsWith(s, i, v) && EndsNumber(Peek(s, i + |v|))
    ensures FloatToInt(s, i, x, lo, hi) == Parsed(true, i + |v|, ClampInt(n, lo, hi))
  {
    TruncateFormatInt(n);
    FloatToIntReads(s, i, v, x, lo, hi);
  }

  /** FirstLiteral picks entry k when the buffer holds it after the blanks and every entry from j up to it clashes with it. */
  lemma {:induction false} FirstLiteralSelects(s: string, i: nat, names: seq<string>, j: nat, k: nat)
    requires i <= |s| && j <= k < |names| && StartsWith(s, Blank(s, i), names[k])
    requires forall l | j <= l < k :: Clash(names[l], names[k], 0)
    ensures FirstLiteral(s, i, names, j) == k
    decreases k - j
  {
    if j < k {
      ClashMisses(names[j], names[k], s, Blank(s, i));
      FirstLiteralSelects(s, i, names, j + 1, k);
    }
  }

  /** Each word of BoolWords clashes with every word before it. */
  lemma BoolWordsClash(k: nat)
    requires k < |BoolWords|
    ensures forall j | 0 <= j < k :: Clash(BoolWords[j], BoolWords[k], 0)
  {
    assert ClashesBelow(BoolWords, BoolWords[k], k);
    ClashesBelowAll(BoolWords, BoolWords[k], k);
  }

  /** ParseBool on '0' or '1' after blanks w: one character is read. */
  lemma BoolDigit(s: string, i: nat, w: string, x: bool)
    requires AllBlank(w) && StartsWith(s, i, w) && (Peek(s, i + |w|) == '0' || Peek(s, i + |w|) == '1')
    ensures Bool(s, i, x) == Parsed(true, i + |w| + 1, Peek(s, i + |w|) == '1')
  {
    BlankOver(s, i, w);
  }

  /** ParseBool on one of its words after blanks w: the whole word is read. */
  lemma BoolWord(s: string, i: nat, w: string, k: nat, x: bool)
    requires AllBlank(w) && StartsWith(s, i, w) && k < |BoolWords| && StartsWith(s, i + |w|, BoolWords[k])
    ensures Bool(s, i, x) == Parsed(true, i + |w| + |BoolWords[k]|, k % 2 == 1)
  {
    var b := i + |w|;
    var word := BoolWords[k];
    PeekInside(s, b, word, 0);
    assert word[0] != '0' && word[0] != '1' && !IsBlank(word[0]);
    BlankOver(s, i, w);
    BlankTwice(s, i);
    BoolWordsClash(k);
    FirstLiteralSelects(s, b, BoolWords, 0, k);
    assert Literal(s, b, word) == Scanned(true, b + |word|);
  }

  /** Each camera type name clashes with every name before it. */
  lemma CameraTypeNamesClash(k: nat)
    requires k < |Camera.CameraTypeNames|
    ensures forall j | 0 <= j < k :: Clash(Camera.CameraTypeNames[j], Camera.CameraTypeNames[k], 0)
  {
    assert ClashesBelow(Camera.CameraTypeNames, Camera.CameraTypeNames[k], k);
    ClashesBelowAll(Camera.CameraTypeNames, Camera.CameraTypeNames[k], k);
  }

  /** Each up-axis name clashes with every name before it. */
  lemma CameraUpNamesClash(k: nat)
    requires k < |Camera.CameraUpNames|
    ensures forall j | 0 <= j < k :: Clash(Camera.CameraUpNames[j], Camera.CameraUpNames[k], 0)
  {
    assert ClashesBelow(Camera.CameraUpNames, Camera.CameraUpNames[k], k);
    ClashesBelowAll(Camera.CameraUpNames, Camera.CameraUpNames[k], k);
  }

  /**
   * ParseCameraType reads back the name CameraTypeToStr writes: the same type for
   * every valid type, Disabled for any other value, consuming exactly the name.
   */
  lemma CameraTypeRoundTrip(s: string, i: nat, t: int, x: int)
    requires StartsWith(s, i, Camera.CameraTypeToStr(t))
    ensures CameraType(s, i, x)
         == Parsed(true, i + |Camera.CameraTypeToStr(t)|, if Camera.IsCameraType(t) then t else Camera.Disabled)
  {
    var k := if Camera.IsCameraType(t) then t else Camera.Disabled;
    PeekInside(s, i, Camera.CameraTypeNames[k], 0);
    BlankTwice(s, i);
    CameraTypeNamesClash(k);
    FirstLiteralSelects(s, i, Camera.CameraTypeNames, 0, k);
  }

  /**
   * ParseCameraUp reads back the name CameraUpToStr writes: the same convention for
   * every valid one, ZUp for any other value, consuming exactly the name.
   */
  lemma CameraUpRoundTrip(s: string, i: nat, u: int, x: int)
    requires StartsWith(s, i, Camera.CameraUpToStr(u))
    ensures CameraUp(s, i, x)
         == Parsed(true, i + |Camera.CameraUpToStr(u)|, if Camera.IsCameraUp(u) then u else Camera.ZUp)
  {
    var k := if Camera.IsCameraUp(u) then u else Camera.ZUp;
    PeekInside(s, i, Camera.CameraUpNames[k], 0);
    BlankTwice(s, i);
    CameraUpNamesClash(k);
    FirstLiteralSelects(s, i, Camera.CameraUpNames, 0, k);
  }

  /** ParseInt2 reads back printf("%d,%d", a, b). */
  lemma Int2RoundTrip(s: string, i: nat, a: int, b: int, x: int, y: int)
    requires StartsWith(s, i, FormatInt(a)) && Peek(s, i + |FormatInt(a)|) == ','
    requires StartsWith(s, i + |FormatInt(a)| + 1, FormatInt(b))
    requires !IsDigit(Peek(s, i + |FormatInt(a)| + 1 + |FormatInt(b)|))
    ensures Int2(s, i, x, y) == Parsed(true, i + |FormatInt(a)| + 1 + |FormatInt(b)|, (a, b))
  {
    var c := i + |FormatInt(a)|;
    SolidStart(s, i, FormatInt(a));
    IntRoundTrip(s, i, a, x, 0, 0);
    IntRoundTrip(s, c + 1, b, y, 0, 0);
    Int2Reads(s, i, c, c + 1 + |FormatInt(b)|, a, b, x, y);
  }

  /** ParseInt2 where each of its three steps succeeds: both integers read. */
  lemma Int2Reads(s: string, i: nat, c: nat, e: nat, a: int, b: int, x: int, y: int)
    requires i <= c < |s| && Blank(s, i) == i && Peek(s, c) == ','
    requires Int(s, i, x, 0, 0) == Parsed(true, c, a) && Int(s, c + 1, y, 0, 0) == Parsed(true, e, b)
    ensures Int2(s, i, x, y) == Parsed(true, e, (a, b))
  {
    assert Comma(s, c) == Scanned(true, c + 1);
  }

  /** ParseInt2 stores the first integer even when no comma follows it. */
  lemma Int2KeepsFirst(s: string, i: nat, a: int, x: int, y: int)
    requires StartsWith(s, i, FormatInt(a)) && !IsDigit(Peek(s, i + |FormatInt(a)|))
    requires !Comma(s, i + |FormatInt(a)|).ok
    ensures Int2(s, i, x, y) == Parsed(false, Comma(s, i + |FormatInt(a)|).next, (a, y))
  {
    SolidStart(s, i, FormatInt(a));
    IntRoundTrip(s, i, a, x, 0, 0);
  }

  /** Nor when the comma reads but the second integer fails: x is overwritten, y is kept. */
  lemma Int2KeepsFirstOnSecond(s: string, i: nat, a: int, x: int, y: int)
    requires StartsWith(s, i, FormatInt(a)) && !IsDigit(Peek(s, i + |FormatInt(a)|))
    requires Comma(s, i + |FormatInt(a)|).ok
    requires !Int(s, Comma(s, i + |FormatInt(a)|).next, y, 0, 0).ok
    ensures Int2(s, i, x, y) == Parsed(false, Int(s, Comma(s, i + |FormatInt(a)|).next, y, 0, 0).next, (a, y))
  {
    var e := i + |FormatInt(a)|;
    SolidStart(s, i, FormatInt(a));
    IntRoundTrip(s, i, a, x, 0, 0);
    assert Int(s, Blank(s, i), x, 0, 0) == Parsed(true, e, a);
    var second := Int(s, Comma(s, e).next, y, 0, 0);
    IntOutcome(s, Comma(s, e).next, y, 0, 0);
    assert second.value == y;
  }

  /** A float literal begins with a digit, a sign or a point. */
  lemma FloatLiteralStart(v: string)
    requires IsFloatLiteral(v)
    ensures 0 < |v| && (IsDigit(v[0]) || v[0] == '-' || v[0] == '+' || v[0] == '.')
  {
    if SignLen(v, 0) == 0 && WholeEnd(v, 0) == 0 {
      assert PointAt(v, 0);
    }
  }

  /** The text of lits[k..] joined by commas, as ParseMat4 and ParseVec4 expect it. */
  function CommaList(lits: seq<string>, k: nat): string
    requires k <= |lits|
    decreases |lits| - k
  {
    if k == |lits| then "" else (if k > 0 then "," else "") + lits[k] + CommaList(lits, k + 1)
  }

  /** The values of lits[k..]. */
  function FloatsFrom(lits: seq<string>, k: nat): (fs: seq<Float32>)
    requires k <= |lits|
    ensures |fs| == |lits| - k
    decreases |lits| - k
  {
    if k == |lits| then [] else [Float32(lits[k])] + FloatsFrom(lits, k + 1)
  }

  predicate AllFloatLiterals(lits: seq<string>)
  {
    forall k | 0 <= k < |lits| :: IsFloatLiteral(lits[k])
  }

  /** lits[k..] are all float literals, one entry at a time. */
  predicate FloatLiteralsFrom(lits: seq<string>, k: nat)
    requires k <= |lits|
    decreases |lits| - k
  {
    k == |lits| || (IsFloatLiteral(lits[k]) && FloatLiteralsFrom(lits, k + 1))
  }

  lemma {:induction false} FloatLiteralsFromAll(lits: seq<string>, k: nat)
    requires k <= |lits| && AllFloatLiterals(lits)
    ensures FloatLiteralsFrom(lits, k)
    decreases |lits| - k
  {
    if k < |lits| {
      FloatLiteralsFromAll(lits, k + 1);
    }
  }

  /** One element of ParseMat4: the comma before it, if any, and a float literal. */
  lemma ElementReads(s: string, i: nat, lit: string, x: Float32, comma: bool)
    requires IsFloatLiteral(lit)
    requires StartsWith(s, i, if comma then "," else "")
    requires StartsWith(s, i + (if comma then 1 else 0), lit)
    requires EndsNumber(Peek(s, i + (if comma then 1 else 0) + |lit|))
    ensures Element(s, i, x, comma) == Parsed(true, i + (if comma then 1 else 0) + |lit|, Float32(lit))
  {
    var c := i + (if comma then 1 else 0);
    if comma {
      PeekInside(s, i, ",", 0);
      assert Comma(s, i) == Scanned(true, c);
    }
    FloatRoundTrip(s, c, lit, x);
  }

  /** Element k of a comma-separated list, with the separator before it and the rest of the list after it. */
  lemma CommaListAt(s: string, i: nat, lits: seq<string>, k: nat)
    requires k < |lits| && StartsWith(s, i, CommaList(lits, k))
    ensures var sep := if k > 0 then "," else "";
      var c := i + |sep| + |lits[k]|;
      StartsWith(s, i, sep) && StartsWith(s, i + |sep|, lits[k])
      && StartsWith(s, c, CommaList(lits, k + 1))
      && c + |CommaList(lits, k + 1)| == i + |CommaList(lits, k)|
      && (k + 1 < |lits| ==> Peek(s, c) == ',')
  {
    var sep := if k > 0 then "," else "";
    var rest := CommaList(lits, k + 1);
    var c := i + |sep| + |lits[k]|;
    assert CommaList(lits, k) == sep + lits[k] + rest;
    StartsWithSplit(s, i, sep + lits[k], rest);
    StartsWithSplit(s, i, sep, lits[k]);
    if k + 1 < |lits| {
      PeekInside(s, c, rest, 0);
    }
  }

  /** Once element k is read, ParseMat4's loop goes on from element k + 1 with the value stored. */
  lemma MatrixStep(s: string, i: nat, m: seq<Float32>, k: nat, c: nat, v: Float32)
    requires i <= |s| && k < |m|
    requires Element(s, i, m[k], k > 0) == Parsed(true, c, v)
    ensures MatrixFrom(s, i, m, k) == MatrixFrom(s, c, m[k := v], k + 1)
  {
  }

  /** ParseMat4's loop reads element k of a comma-separated list of float literals, ending at c. */
  lemma MatrixHead(s: string, i: nat, lits: seq<string>, m: seq<Float32>, k: nat, c: nat)
    requires k < |lits| == |m| && IsFloatLiteral(lits[k])
    requires StartsWith(s, i, CommaList(lits, k)) && EndsNumber(Peek(s, i + |CommaList(lits, k)|))
    requires c == i + (if k > 0 then 1 else 0) + |lits[k]|
    ensures Element(s, i, m[k], k > 0) == Parsed(true, c, Float32(lits[k]))
  {
    CommaListAt(s, i, lits, k);
    ElementReads(s, i, lits[k], m[k], k > 0);
  }

  /** ParseMat4's loop reads a comma-separated list of float literals from element k on, storing each value. */
  lemma {:induction false} MatrixReadsList(s: string, i: nat, lits: seq<string>, m: seq<Float32>, k: nat)
    requires k <= |lits| == |m| && FloatLiteralsFrom(lits, k)
    requires StartsWith(s, i, CommaList(lits, k)) && EndsNumber(Peek(s, i + |CommaList(lits, k)|))
    ensures MatrixFrom(s, i, m, k) == Parsed(true, i + |CommaList(lits, k)|, m[..k] + FloatsFrom(lits, k))
    decreases |lits| - k
  {
    if k == |lits| {
      assert m[..k] + FloatsFrom(lits, k) == m;
    } else {
      var c := i + (if k > 0 then 1 else 0) + |lits[k]|;
      var m' := m[k := Float32(lits[k])];
      CommaListAt(s, i, lits, k);
      MatrixReadsList(s, c, lits, m', k + 1);
      MatrixHead(s, i, lits, m, k, c);
      MatrixStep(s, i, m, k, c, Float32(lits[k]));
      Overlay(m, lits, k);
    }
  }

  /** Storing element k's value and reading on gives the same matrix as reading from element k. */
  lemma Overlay(m: seq<Float32>, lits: seq<string>, k: nat)
    requires k < |lits| == |m|
    ensures m[k := Float32(lits[k])][..k + 1] + FloatsFrom(lits, k + 1) == m[..k] + FloatsFrom(lits, k)
  {
    assert m[k := Float32(lits[k])][..k + 1] == m[..k] + [Float32(lits[k])];
  }

  /** Entry j of the values of lits[k..] is the value of lits[j]. */
  lemma {:induction false} FloatsFromAt(lits: seq<string>, k: nat, j: nat)
    requires k <= j < |lits|
    ensures FloatsFrom(lits, k)[j - k] == Float32(lits[j])
    decreases j - k
  {
    if k < j {
      FloatsFromAt(lits, k + 1, j);
    }
  }

  /** A list of float literals starts with no blank to skip. */
  lemma ListStart(s: string, i: nat, lits: seq<string>)
    requires 0 < |lits| && IsFloatLiteral(lits[0]) && StartsWith(s, i, CommaList(lits, 0))
    ensures Blank(s, i) == i
  {
    CommaListAt(s, i, lits, 0);
    FloatLiteralStart(lits[0]);
    SolidStart(s, i, lits[0]);
  }

  /** ParseMat4's and ParseVec4's loop reads a whole comma-separated list of float literals. */
  lemma ListRoundTrip(s: string, i: nat, lits: seq<string>, m: seq<Float32>)
    requires 0 < |lits| == |m| && AllFloatLiterals(lits)
    requires StartsWith(s, i, CommaList(lits, 0)) && EndsNumber(Peek(s, i + |CommaList(lits, 0)|))
    ensures MatrixFrom(s, Blank(s, i), m, 0) == Parsed(true, i + |CommaList(lits, 0)|, FloatsFrom(lits, 0))
  {
    ListStart(s, i, lits);
    FloatLiteralsFromAll(lits, 0);
    MatrixReadsList(s, i, lits, m, 0);
    assert m[..0] + FloatsFrom(lits, 0) == FloatsFrom(lits, 0);
  }

  /** ParseMat4 reads sixteen comma-separated float literals as the matrix of their values, in order. */
  lemma Mat4RoundTrip(s: string, i: nat, lits: seq<string>, x: Model.Mat4)
    requires |lits| == 16 && |x.data| == 16 && AllFloatLiterals(lits)
    requires StartsWith(s, i, CommaList(lits, 0)) && EndsNumber(Peek(s, i + |CommaList(lits, 0)|))
    ensures Mat4(s, i, x) == Parsed(true, i + |CommaList(lits, 0)|, Model.Mat4(FloatsFrom(lits, 0)))
    ensures forall j | 0 <= j < 16 :: Mat4(s, i, x).value.data[j] == Float32(lits[j])
  {
    ListRoundTrip(s, i, lits, x.data);
    forall j | 0 <= j < 16
      ensures FloatsFrom(lits, 0)[j] == Float32(lits[j])
    {
      FloatsFromAt(lits, 0, j);
    }
  }

  /** ParseVec4 reads four comma-separated float literals as the vector of their values, x to w. */
  lemma Vec4Reads(s: string, i: nat, lits: seq<string>, v: Model.Vec4)
    requires |lits| == 4 && AllFloatLiterals(lits)
    requires StartsWith(s, i, CommaList(lits, 0)) && EndsNumber(Peek(s, i + |CommaList(lits, 0)|))
    ensures Vec4(s, i, v) == Parsed(true, i + |CommaList(lits, 0)|,
      Model.Vec4(Float32(lits[0]), Float32(lits[1]), Float32(lits[2]), Float32(lits[3])))
  {
    var e := i + |CommaList(lits, 0)|;
    ListStart(s, i, lits);
    var c1, c2 := TwoElements(s, i, lits, 0, v.x, v.y, e);
    var c3, c4 := TwoElements(s, c2, lits, 2, v.z, v.w, e);
    Vec4Steps(s, i, v, c1, c2, c3, c4, Float32(lits[0]), Float32(lits[1]), Float32(lits[2]), Float32(lits[3]));
  }

  /** Elements k and k + 1 of a list that ends at e read their literals in turn. */
  lemma TwoElements(s: string, i: nat, lits: seq<string>, k: nat, x: Float32, y: Float32, e: nat) returns (c: nat, d: nat)
    requires k + 1 < |lits| && IsFloatLiteral(lits[k]) && IsFloatLiteral(lits[k + 1])
    requires StartsWith(s, i, CommaList(lits, k)) && e == i + |CommaList(lits, k)| && EndsNumber(Peek(s, e))
    ensures c <= |s| && Element(s, i, x, k > 0) == Parsed(true, c, Float32(lits[k]))
    ensures d <= |s| && Element(s, c, y, true) == Parsed(true, d, Float32(lits[k + 1]))
    ensures StartsWith(s, d, CommaList(lits, k + 2)) && e == d + |CommaList(lits, k + 2)|
  {
    c := ElementAt(s, i, lits, k, x, e);
    d := ElementAt(s, c, lits, k + 1, y, e);
  }

  /** Element k of a list that ends at e reads its literal, and the rest of the list follows at c. */
  lemma ElementAt(s: string, i: nat, lits: seq<string>, k: nat, x: Float32, e: nat) returns (c: nat)
    requires k < |lits| && IsFloatLiteral(lits[k])
    requires StartsWith(s, i, CommaList(lits, k)) && e == i + |CommaList(lits, k)| && EndsNumber(Peek(s, e))
    ensures c <= |s| && Element(s, i, x, k > 0) == Parsed(true, c, Float32(lits[k]))
    ensures StartsWith(s, c, CommaList(lits, k + 1)) && e == c + |CommaList(lits, k + 1)|
  {
    c := ListNext(s, i, lits, k, e);
    ElementReads(s, i, lits[k], x, k > 0);
  }

  /** Where element k of a list that ends at e lies: its separator, its literal, and the rest of the list after it at c. */
  lemma ListNext(s: string, i: nat, lits: seq<string>, k: nat, e: nat) returns (c: nat)
    requires k < |lits|
    requires StartsWith(s, i, CommaList(lits, k)) && e == i + |CommaList(lits, k)| && EndsNumber(Peek(s, e))
    ensures c == i + (if k > 0 then 1 else 0) + |lits[k]| && c <= |s|
    ensures StartsWith(s, i, if k > 0 then "," else "") && StartsWith(s, i + (if k > 0 then 1 else 0), lits[k])
    ensures EndsNumber(Peek(s, c))
    ensures StartsWith(s, c, CommaList(lits, k + 1)) && e == c + |CommaList(lits, k + 1)|
  {
    c := i + (if k > 0 then 1 else 0) + |lits[k]|;
    CommaListAt(s, i, lits, k);
    if k + 1 < |lits| {
      assert Peek(s, c) == ',';
    } else {
      assert c == e;
    }
  }

  /** ParseVec4 succeeds with the four values when its four elements read in turn. */
  lemma Vec4Steps(s: string, i: nat, v: Model.Vec4, c1: nat, c2: nat, c3: nat, c4: nat, x: Float32, y: Float32, z: Float32, w: Float32)
    requires i <= |s| && Blank(s, i) == i && c1 <= |s| && c2 <= |s| && c3 <= |s|
    requires Element(s, i, v.x, false) == Parsed(true, c1, x)
    requires Element(s, c1, v.y, true) == Parsed(true, c2, y)
    requires Element(s, c2, v.z, true) == Parsed(true, c3, z)
    requires Element(s, c3, v.w, true) == Parsed(true, c4, w)
    ensures Vec4(s, i, v) == Parsed(true, c4, Model.Vec4(x, y, z, w))
  {
  }

  /** ParseInt clamps what it reads when lo < hi; on failure it leaves the cursor after the blanks and x unchanged. */
  lemma IntOutcome(s: string, i: nat, x: int, lo: int, hi: int)
    requires i <= |s|
    ensures var r := Int(s, i, x, lo, hi);
      (r.ok && lo < hi ==> lo <= r.value <= hi) && (!r.ok ==> r.next == Blank(s, i) && r.value == x)
  {
  }

  /** ParseFloat on failure leaves the cursor after the blanks and x unchanged. */
  lemma FloatOutcome(s: string, i: nat, x: Float32)
    requires i <= |s|
    ensures var r := Float(s, i, x); !r.ok ==> r.next == Blank(s, i) && r.value == x
  {
  }

  /** ParseFloatToInt always clamps what it reads; on failure it leaves the cursor after the blanks and x unchanged. */
  lemma FloatToIntOutcome(s: string, i: nat, x: int, lo: int, hi: int)
    requires i <= |s|
    ensures var r := FloatToInt(s, i, x, lo, hi);
      (r.ok ==> r.value <= hi && (lo <= hi ==> lo <= r.value)) && (!r.ok ==> r.next == Blank(s, i) && r.value == x)
  {
  }

  /** ParseBool consumes at least one character when it succeeds; on failure it leaves the cursor after the blanks and x unchanged. */
  lemma BoolOutcome(s: string, i: nat, x: bool)
    requires i <= |s|
    ensures var r := Bool(s, i, x);
      (r.ok ==> Blank(s, i) < r.next) && (!r.ok ==> r.next == Blank(s, i) && r.value == x)
  {
  }

  /** ParseCameraType stores a valid camera type when it succeeds; on failure it leaves the cursor after the blanks and x unchanged. */
  lemma CameraTypeOutcome(s: string, i: nat, x: int)
    requires i <= |s|
    ensures var r := CameraType(s, i, x);
      (r.ok ==> Camera.IsCameraType(r.value)) && (!r.ok ==> r.next == Blank(s, i) && r.value == x)
  {
  }

  /** ParseCameraUp stores a valid up axis when it succeeds; on failure it leaves the cursor after the blanks and x unchanged. */
  lemma CameraUpOutcome(s: string, i: nat, x: int)
    requires i <= |s|
    ensures var r := CameraUp(s, i, x);
      (r.ok ==> Camera.IsCameraUp(r.value)) && (!r.ok ==> r.next == Blank(s, i) && r.value == x)
  {
  }

  /** Whenever ParseInt2 fails, y keeps its old value. */
  lemma Int2KeepsY(s: string, i: nat, x: int, y: int)
    requires i <= |s|
    ensures !Int2(s, i, x, y).ok ==> Int2(s, i, x, y).value.1 == y
  {
  }

  /** ParseVec4 is not atomic: when x reads but no comma follows, x is stored and y, z, w are not touched. */
  lemma Vec4KeepsFirst(s: string, i: nat, lit: string, v: Model.Vec4)
    requires IsFloatLiteral(lit) && StartsWith(s, i, lit) && EndsNumber(Peek(s, i + |lit|))
    requires !Comma(s, i + |lit|).ok
    ensures Vec4(s, i, v) == Parsed(false, Comma(s, i + |lit|).next, v.(x := Float32(lit)))
  {
    FloatLiteralStart(lit);
    SolidStart(s, i, lit);
    ElementReads(s, i, lit, v.x, false);
    ElementMissesComma(s, i + |lit|, v.y);
  }

  /** An element after the first fails, leaving its value alone, where no comma follows the blanks. */
  lemma ElementMissesComma(s: string, i: nat, x: Float32)
    requires i <= |s| && !Comma(s, i).ok
    ensures Element(s, i, x, true) == Parsed(false, Comma(s, i).next, x)
  {
  }

  /**
   * ParseKey succeeds exactly when blanks, the literal m, blanks and '=' follow in that
   * order, and then leaves the cursor just past the '='.
   */
  lemma KeyIff(s: string, i: nat, m: string)
    requires i <= |s|
    ensures Key(s, i, m).ok <==> StartsWith(s, Blank(s, i), m) && Peek(s, Blank(s, Blank(s, i) + |m|)) == '='
    ensures Key(s, i, m).ok ==> Key(s, i, m).next == Blank(s, Blank(s, i) + |m|) + 1
  {
    BlankTwice(s, i);
  }

  /** ParseBool on anything but '0', '1' and the four words fails, leaves the cursor after the blanks and x unchanged. */
  lemma BoolRejects(s: string, i: nat, x: bool)
    requires i <= |s| && Peek(s, Blank(s, i)) != '0' && Peek(s, Blank(s, i)) != '1'
    requires forall k | 0 <= k < |BoolWords| :: !StartsWith(s, Blank(s, i), BoolWords[k])
    ensures Bool(s, i, x) == Parsed(false, Blank(s, i), x)
  {
    BlankTwice(s, i);
  }
}
