/**
 * The primitive parsers of the settings reader as the C code runs them: each advances
 * a cursor c into the NUL-terminated buffer s step by step and hands back the cursor
 * it leaves, whether it succeeded, and its out parameter. Each is proved to do what
 * the matching function of module Scan says.
 */
module Parser {
  import opened Text
  import opened Numbers
  import opened Scan
  import Camera
  import Model

  /** A C string: no terminator inside it. */
  predicate IsCString(m: string)
  {
    forall k | 0 <= k < |m| :: m[k] != NUL
  }

  /** ParseBlank: the cursor after the maximal run of blanks at c. */
  method ParseBlank(s: string, c: nat) returns (c': nat)
    requires c <= |s|
    ensures c' == Blank(s, c)
    ensures c <= c' <= |s| && AllBlank(s[c..c']) && !IsBlank(Peek(s, c'))
  {
    c' := c;
    while c' < |s| && IsBlank(s[c'])
      invariant c <= c' <= |s| && Blank(s, c) == Blank(s, c')
      decreases |s| - c'
    {
      c' := c' + 1;
    }
  }

  /**
   * ParseString: after the blanks, compare the buffer with m one character at a time
   * until either ends; succeed, just past the match, when m is used up.
   */
  method ParseString(s: string, c: nat, m: string) returns (ok: bool, c': nat)
    requires c <= |s| && IsCString(m)
    ensures (ok, c') == (Literal(s, c, m).ok, Literal(s, c, m).next)
    ensures ok <==> StartsWith(s, Blank(s, c), m)
    ensures c' == if ok then Blank(s, c) + |m| else Blank(s, c)
  {
    var start := ParseBlank(s, c);
    var a := start;
    var b := 0;
    while Peek(s, a) != NUL && b < |m|
      invariant start <= a <= |s| && a == start + b && b <= |m|
      invariant s[start..a] == m[..b]
      decreases |m| - b
    {
      if s[a] != m[b] {
        MismatchMisses(s, start, m, b);
        return false, start;
      }
      assert s[start..a + 1] == s[start..a] + [s[a]];
      assert m[..b + 1] == m[..b] + [m[b]];
      a := a + 1;
      b := b + 1;
    }
    if b < |m| {
      MismatchMisses(s, start, m, b);
      return false, start;
    }
    assert m[..b] == m;
    ok, c' := true, a;
  }

  /** ParseKey: blanks, the key m, blanks and '='; the cursor moves even when it fails. */
  method ParseKey(s: string, c: nat, m: string) returns (ok: bool, c': nat)
    requires c <= |s| && IsCString(m)
    ensures (ok, c') == (Key(s, c, m).ok, Key(s, c, m).next)
    ensures ok <==> StartsWith(s, Blank(s, c), m) && Peek(s, Blank(s, Blank(s, c) + |m|)) == '='
    ensures StartsWith(s, Blank(s, c), m) ==> c' == Blank(s, Blank(s, c) + |m|) + (if ok then 1 else 0)
  {
    BlankTwice(s, c);
    c' := ParseBlank(s, c);
    ok, c' := ParseString(s, c', m);
    if !ok {
      return;
    }
    c' := ParseBlank(s, c');
    if Peek(s, c') != '=' {
      return false, c';
    }
    c' := c' + 1;
  }

  /** ParseInt: sscanf("%d") after the blanks, clamped to [lo, hi] unless lo == hi. */
  method ParseInt(s: string, c: nat, x: int, lo: int, hi: int) returns (ok: bool, c': nat, x': int)
    requires c <= |s|
    ensures (ok, c', x') == (Int(s, c, x, lo, hi).ok, Int(s, c, x, lo, hi).next, Int(s, c, x, lo, hi).value)
  {
    c' := ParseBlank(s, c);
    x' := x;
    ok := false;
    match LexInt(s, Space(s, c'))
    case None =>
    case Some(l) =>
      x' := l.value;
      if lo != hi {
        x' := ClampInt(x', lo, hi);
      }
      ok, c' := true, l.end;
  }

  /** ParseFloat: sscanf("%f") after the blanks. */
  method ParseFloat(s: string, c: nat, x: Float32) returns (ok: bool, c': nat, x': Float32)
    requires c <= |s|
    ensures (ok, c', x') == (Float(s, c, x).ok, Float(s, c, x).next, Float(s, c, x).value)
  {
    c' := ParseBlank(s, c);
    x' := x;
    ok := false;
    var d := Space(s, c');
    match FloatEnd(s, d)
    case None =>
    case Some(e) =>
      x' := Float32(s[d..e]);
      ok, c' := true, e;
  }

  /** ParseFloatToInt: sscanf("%f") after the blanks, truncated and clamped to [lo, hi]. */
  method ParseFloatToInt(s: string, c: nat, x: int, lo: int, hi: int) returns (ok: bool, c': nat, x': int)
    requires c <= |s|
    ensures (ok, c', x') == (FloatToInt(s, c, x, lo, hi).ok, FloatToInt(s, c, x, lo, hi).next, FloatToInt(s, c, x, lo, hi).value)
  {
    c' := ParseBlank(s, c);
    x' := x;
    ok := false;
    var d := Space(s, c');
    match FloatEnd(s, d)
    case None =>
    case Some(e) =>
      x' := Truncate(Float32(s[d..e]));
      x' := ClampInt(x', lo, hi);
      ok, c' := true, e;
  }

  /** ParseComma: blanks, then one ','. */
  method ParseComma(s: string, c: nat) returns (ok: bool, c': nat)
    requires c <= |s|
    ensures (ok, c') == (Comma(s, c).ok, Comma(s, c).next)
  {
    c' := ParseBlank(s, c);
    if Peek(s, c') == ',' {
      return true, c' + 1;
    }
    ok := false;
  }

  /** ParseBool: '0' or '1', else the words False, True, false, true in that order. */
  method ParseBool(s: string, c: nat, x: bool) returns (ok: bool, c': nat, x': bool)
    requires c <= |s|
    ensures (ok, c', x') == (Bool(s, c, x).ok, Bool(s, c, x).next, Bool(s, c, x).value)
  {
    c' := ParseBlank(s, c);
    BlankTwice(s, c);
    ghost var b := c';
    x' := x;
    if Peek(s, c') == '0' {
      return true, c' + 1, false;
    } else if Peek(s, c') == '1' {
      return true, c' + 1, true;
    }
    ok, c' := ParseString(s, c', "False");
    if ok {
      return ok, c', false;
    }
    ok, c' := ParseString(s, c', "True");
    if ok {
      assert FirstLiteral(s, b, BoolWords, 1) == 1;
      return ok, c', true;
    }
    ok, c' := ParseString(s, c', "false");
    if ok {
      assert FirstLiteral(s, b, BoolWords, 2) == 2;
      return ok, c', false;
    }
    ok, c' := ParseString(s, c', "true");
    if ok {
      assert FirstLiteral(s, b, BoolWords, 3) == 3;
      return ok, c', true;
    }
    assert FirstLiteral(s, b, BoolWords, 0) == |BoolWords|;
  }

  /** ParseCameraType: the names disabled, planar, trackball, turntable in that order. */
  method ParseCameraType(s: string, c: nat, x: int) returns (ok: bool, c': nat, x': int)
    requires c <= |s|
    ensures (ok, c', x') == (CameraType(s, c, x).ok, CameraType(s, c, x).next, CameraType(s, c, x).value)
  {
    c' := ParseBlank(s, c);
    BlankTwice(s, c);
    ghost var b := c';
    x' := x;
    ok, c' := ParseString(s, c', "disabled");
    if ok {
      return ok, c', Camera.Disabled;
    }
    ok, c' := ParseString(s, c', "planar");
    if ok {
      assert FirstLiteral(s, b, Camera.CameraTypeNames, 1) == 1;
      return ok, c', Camera.Planar;
    }
    ok, c' := ParseString(s, c', "trackball");
    if ok {
      assert FirstLiteral(s, b, Camera.CameraTypeNames, 2) == 2;
      return ok, c', Camera.Trackball;
    }
    ok, c' := ParseString(s, c', "turntable");
    if ok {
      assert FirstLiteral(s, b, Camera.CameraTypeNames, 3) == 3;
      return ok, c', Camera.Turntable;
    }
    assert FirstLiteral(s, b, Camera.CameraTypeNames, 0) == |Camera.CameraTypeNames|;
  }

  /** ParseCameraUp: the names z_up, y_up, x_up, z_down, y_down, x_down in that order. */
  method ParseCameraUp(s: string, c: nat, x: int) returns (ok: bool, c': nat, x': int)
    requires c <= |s|
    ensures (ok, c', x') == (CameraUp(s, c, x).ok, CameraUp(s, c, x).next, CameraUp(s, c, x).value)
  {
    c' := ParseBlank(s, c);
    BlankTwice(s, c);
    ghost var b := c';
    x' := x;
    ok, c' := ParseString(s, c', "z_up");
    if ok {
      return ok, c', Camera.ZUp;
    }
    ok, c' := ParseString(s, c', "y_up");
    if ok {
      assert FirstLiteral(s, b, Camera.CameraUpNames, 1) == 1;
      return ok, c', Camera.YUp;
    }
    ok, c' := ParseString(s, c', "x_up");
    if ok {
      assert FirstLiteral(s, b, Camera.CameraUpNames, 2) == 2;
      return ok, c', Camera.XUp;
    }
    ok, c' := ParseString(s, c', "z_down");
    if ok {
      assert FirstLiteral(s, b, Camera.CameraUpNames, 3) == 3;
      return ok, c', Camera.ZDown;
    }
    ok, c' := ParseString(s, c', "y_down");
    if ok {
      assert FirstLiteral(s, b, Camera.CameraUpNames, 4) == 4;
      return ok, c', Camera.YDown;
    }
    ok, c' := ParseString(s, c', "x_down");
    if ok {
      assert FirstLiteral(s, b, Camera.CameraUpNames, 5) == 5;
      return ok, c', Camera.XDown;
    }
    assert FirstLiteral(s, b, Camera.CameraUpNames, 0) == |Camera.CameraUpNames|;
  }

  /** ParseInt2: integer, comma, integer; x is overwritten even when the rest fails. */
  method ParseInt2(s: string, c: nat, x: int, y: int) returns (ok: bool, c': nat, x': int, y': int)
    requires c <= |s|
    ensures (ok, c', (x', y')) == (Int2(s, c, x, y).ok, Int2(s, c, x, y).next, Int2(s, c, x, y).value)
  {
    c' := ParseBlank(s, c);
    y' := y;
    ok, c', x' := ParseInt(s, c', x, 0, 0);
    if !ok {
      return;
    }
    ok, c' := ParseComma(s, c');
    if !ok {
      return;
    }
    ok, c', y' := ParseInt(s, c', y, 0, 0);
  }

  /** ParseMat4: sixteen floats with a comma before each after the first; stops at the first failure. */
  method ParseMat4(s: string, c: nat, x: Model.Mat4) returns (ok: bool, c': nat, x': Model.Mat4)
    requires c <= |s| && |x.data| == 16
    ensures (ok, c', x') == (Mat4(s, c, x).ok, Mat4(s, c, x).next, Mat4(s, c, x).value)
  {
    c' := ParseBlank(s, c);
    var data := x.data;
    for i := 0 to 16
      invariant |data| == 16 && c' <= |s|
      invariant MatrixFrom(s, Blank(s, c), x.data, 0) == MatrixFrom(s, c', data, i)
    {
      if i > 0 {
        ok, c' := ParseComma(s, c');
        if !ok {
          return false, c', Model.Mat4(data);
        }
      }
      var v;
      ok, c', v := ParseFloat(s, c', data[i]);
      if !ok {
        return false, c', Model.Mat4(data);
      }
      data := data[i := v];
    }
    ok, x' := true, Model.Mat4(data);
  }

  /** ParseVec4: four floats separated by commas; stops at the first failure. */
  method ParseVec4(s: string, c: nat, x: Model.Vec4) returns (ok: bool, c': nat, x': Model.Vec4)
    requires c <= |s|
    ensures (ok, c', x') == (Vec4(s, c, x).ok, Vec4(s, c, x).next, Vec4(s, c, x).value)
  {
    c' := ParseBlank(s, c);
    x' := x;
    var v;
    ok, c', v := ParseFloat(s, c', x'.x);
    if !ok {
      return;
    }
    x' := x'.(x := v);
    ok, c' := ParseComma(s, c');
    if !ok {
      return;
    }
    ok, c', v := ParseFloat(s, c', x'.y);
    if !ok {
      return;
    }
    x' := x'.(y := v);
    ok, c' := ParseComma(s, c');
    if !ok {
      return;
    }
    ok, c', v := ParseFloat(s, c', x'.z);
    if !ok {
      return;
    }
    x' := x'.(z := v);
    ok, c' := ParseComma(s, c');
    if !ok {
      return;
    }
    ok, c', v := ParseFloat(s, c', x'.w);
    x' := x'.(w := v);
  }
}
