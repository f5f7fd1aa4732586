/**
 * Saving the settings and loading the file back. The document LoadOrDefault reads
 * from what Save wrote is stated in closed form (Persisted): every global setting
 * comes back, the font size and DPI scale clamped, and every frame with its name and
 * the fields Save writes for its camera type, the rest at their defaults.
 */
module RoundTrip {
  import opened Text
  import opened Numbers
  import opened Scan
  import Camera
  import opened Model
  import opened Loader
  import opened Saver
  import opened KeyTables

  /** The text g gives for the float x. */
  function Printed(g: Float32 -> string, x: Float32): string
  {
    g(x)
  }

  /**
   * The text printf's "%g" gives for a float is always a literal sscanf("%f") reads whole.
   * The fact is used only where a float is read back, so it is instantiated through Printed.
   */
  ghost predicate PrintsFloats(g: Float32 -> string)
  {
    forall x {:trigger Printed(g, x)} :: IsFloatLiteral(Printed(g, x))
  }

  /** A name Save can write on the header line and the loader reads back whole. */
  predicate ValidName(name: string)
  {
    NoNameEnd(name)
  }

  // ---------------------------------------------------------------------------
  // What comes back.

  /**
   * The frame the loader reads back from the lines Save writes for f: the camera type
   * if it is a valid one (the name "disabled" otherwise), the depth range for a camera
   * that is neither disabled nor planar, the grid, up axis and cube for any camera that
   * is not disabled, and the render scales clamped; the turntable, the trackball and
   * everything a disabled camera does not write is at its default.
   */
  function PersistedFrame(f: FrameSettings, g: Float32 -> string): (r: FrameSettings)
    ensures r.name == f.name && FrameBounded(r)
    ensures Camera.IsCameraType(f.cameraType) ==> r.cameraType == f.cameraType
  {
    var base := DefaultFrameSettings(f.name);
    var enabled := f.cameraType != Camera.Disabled;
    var depth := enabled && f.cameraType != Camera.Planar;
    base.(
      cameraType := if Camera.IsCameraType(f.cameraType) then f.cameraType else Camera.Disabled,
      yFov := if depth then Float32(g(f.yFov)) else base.yFov,
      minDepth := if depth then Float32(g(f.minDepth)) else base.minDepth,
      maxDepth := if depth then Float32(g(f.maxDepth)) else base.maxDepth,
      gridVisible := if enabled then f.gridVisible else base.gridVisible,
      gridScale := if enabled then Float32(g(f.gridScale)) else base.gridScale,
      cameraUp := if !enabled then base.cameraUp else if Camera.IsCameraUp(f.cameraUp) then f.cameraUp else Camera.ZUp,
      cubeVisible := if enabled then f.cubeVisible else base.cubeVisible,
      renderScaleDown := ClampInt(f.renderScaleDown, 0, MaxRenderScaleDown),
      renderScaleUp := ClampInt(f.renderScaleUp, 0, MaxRenderScaleUp))
  }

  function PersistedFrames(fs: seq<FrameSettings>, g: Float32 -> string): (r: seq<FrameSettings>)
    ensures |r| == |fs|
    ensures forall j | 0 <= j < |fs| :: r[j] == PersistedFrame(fs[j], g)
  {
    if fs == [] then [] else [PersistedFrame(fs[0], g)] + PersistedFrames(fs[1..], g)
  }

  /**
   * The settings the loader reads back from the file Save writes for d: every global
   * setting, the floats as "%g" prints them, the font size clamped to 6..96 and the DPI
   * scale to 100..200, and the frames as PersistedFrame says.
   */
  function Persisted(d: Document, g: Float32 -> string): (r: Document)
    ensures MinFontSize <= r.fontSize <= MaxFontSize && MinDpiScale <= r.dpiScale <= MaxDpiScale
    ensures |r.frames| == |d.frames|
  {
    Document(
      GlobalCameraSettings(
        Float32(g(d.camera.mouseSensitivity)), Float32(g(d.camera.scrollSensitivity)),
        Float32(g(d.camera.moveSpeedNormal)), Float32(g(d.camera.moveSpeedSlow)),
        Float32(g(d.camera.kpZoom)), Float32(g(d.camera.kpTranslate)), Float32(g(d.camera.kpRotate))),
      d.window,
      PersistedFrames(d.frames, g),
      d.neverAskOnExit,
      d.showMainMenu,
      ClampInt(d.fontSize, MinFontSize, MaxFontSize),
      d.canIdle,
      d.autoStepDelayMs,
      ClampInt(d.dpiScale, MinDpiScale, MaxDpiScale))
  }

  // ---------------------------------------------------------------------------
  // The document part by part, as the lines are read.

  /**
   * The value the loader reads back from the text Save prints for v: floats as "%g"
   * prints them, integers clamped as the parser clamps them, and enumeration values
   * outside their enumeration as the value whose name is printed for them.
   */
  function ReadBack(kind: Kind, g: Float32 -> string, v: Value): (r: Value)
    requires Fits(kind, v)
    ensures Fits(kind, r)
  {
    match kind
    case RealKind => Real(Float32(g(v.f)))
    case TruncKind(lo, hi) => Whole(ClampInt(v.n, lo, hi))
    case WholeKind(lo, hi) => Whole(if lo != hi then ClampInt(v.n, lo, hi) else v.n)
    case TypeKind => Whole(if Camera.IsCameraType(v.n) then v.n else Camera.Disabled)
    case UpKind => Whole(if Camera.IsCameraUp(v.n) then v.n else Camera.ZUp)
    case _ => v
  }

  /** Each global setting of the persisted document is what the loader reads back for that key. */
  lemma PersistedGlobal(d: Document, g: Float32 -> string, k: nat)
    requires k < |GlobalKeys|
    ensures GetGlobal(Persisted(d, g), k) == ReadBack(GlobalKind(k), g, GetGlobal(d, k))
  {
  }

  /** Each field Save writes for f is, in the persisted frame, what the loader reads back for that key. */
  lemma PersistedField(f: FrameSettings, g: Float32 -> string, k: nat)
    requires k < |FrameKeys| && Writes(f, k)
    ensures GetField(PersistedFrame(f, g), k) == ReadBack(FrameKind(k), g, GetField(f, k))
  {
  }

  /** x with the settings of the global keys before k taken from p: the document after k lines of Save's output. */
  function OverlayGlobals(x: Document, p: Document, k: nat): Document
  {
    Document(
      GlobalCameraSettings(
        if k > 4 then p.camera.mouseSensitivity else x.camera.mouseSensitivity,
        if k > 5 then p.camera.scrollSensitivity else x.camera.scrollSensitivity,
        if k > 6 then p.camera.moveSpeedNormal else x.camera.moveSpeedNormal,
        if k > 7 then p.camera.moveSpeedSlow else x.camera.moveSpeedSlow,
        if k > 8 then p.camera.kpZoom else x.camera.kpZoom,
        if k > 9 then p.camera.kpTranslate else x.camera.kpTranslate,
        if k > 10 then p.camera.kpRotate else x.camera.kpRotate),
      WindowSettings(
        if k > 0 then p.window.x else x.window.x,
        if k > 0 then p.window.y else x.window.y,
        if k > 1 then p.window.width else x.window.width,
        if k > 1 then p.window.height else x.window.height),
      x.frames,
      if k > 2 then p.neverAskOnExit else x.neverAskOnExit,
      if k > 3 then p.showMainMenu else x.showMainMenu,
      if k > 11 then p.fontSize else x.fontSize,
      if k > 13 then p.canIdle else x.canIdle,
      if k > 14 then p.autoStepDelayMs else x.autoStepDelayMs,
      if k > 12 then p.dpiScale else x.dpiScale)
  }

  /** Reading global key k after the keys before it takes one more setting from p. */
  lemma OverlayGlobalsStep(x: Document, p: Document, k: nat)
    requires k < |GlobalKeys|
    ensures PutGlobal(OverlayGlobals(x, p, k), k, GetGlobal(p, k)) == OverlayGlobals(x, p, k + 1)
  {
    if k < 4 {
    } else if k < 11 {
    } else {
    }
  }

  /** No setting taken is x itself; all of them taken is p with the frames of x. */
  lemma OverlayGlobalsEnds(x: Document, p: Document)
    ensures OverlayGlobals(x, p, 0) == x
    ensures OverlayGlobals(x, p, |GlobalKeys|) == p.(frames := x.frames)
  {
  }

  /** x with the fields of the frame keys before k taken from p. */
  function OverlayFrame(x: FrameSettings, p: FrameSettings, k: nat): FrameSettings
  {
    FrameSettings(
      x.name,
      if k > 0 then p.cameraType else x.cameraType,
      x.trackball,
      TurntableSettings(
        if k > 1 then p.turntable.angleX else x.turntable.angleX,
        if k > 2 then p.turntable.angleY else x.turntable.angleY,
        if k > 3 then p.turntable.radius else x.turntable.radius),
      if k > 4 then p.yFov else x.yFov,
      if k > 5 then p.minDepth else x.minDepth,
      if k > 6 then p.maxDepth else x.maxDepth,
      if k > 9 then p.cameraUp else x.cameraUp,
      if k > 7 then p.gridVisible else x.gridVisible,
      if k > 8 then p.gridScale else x.gridScale,
      if k > 10 then p.cubeVisible else x.cubeVisible,
      if k > 11 then p.renderScaleDown else x.renderScaleDown,
      if k > 12 then p.renderScaleUp else x.renderScaleUp)
  }

  /** Reading frame key k after the keys before it takes one more field from p. */
  lemma OverlayFrameStep(x: FrameSettings, p: FrameSettings, k: nat)
    requires k < |FrameKeys|
    ensures PutField(OverlayFrame(x, p, k), k, GetField(p, k)) == OverlayFrame(x, p, k + 1)
  {
  }

  /** Whether Save writes frame key k for the frame f. */
  predicate Writes(f: FrameSettings, k: nat)
  {
    var enabled := f.cameraType != Camera.Disabled;
    if k == 0 then enabled
    else if k < 4 then false
    else if k < 7 then enabled && f.cameraType != Camera.Planar
    else if k < 11 then enabled
    else k < |FrameKeys|
  }

  /** A key Save does not write is at its default in the persisted frame, so skipping it changes nothing. */
  lemma OverlayFrameSkips(f: FrameSettings, g: Float32 -> string, k: nat)
    requires k < |FrameKeys| && !Writes(f, k)
    ensures var x := DefaultFrameSettings(f.name);
      OverlayFrame(x, PersistedFrame(f, g), k) == OverlayFrame(x, PersistedFrame(f, g), k + 1)
  {
  }

  /** A fresh frame of f's name, and the persisted frame once every key is read. */
  lemma OverlayFrameEnds(f: FrameSettings, g: Float32 -> string)
    ensures var x := DefaultFrameSettings(f.name);
      OverlayFrame(x, PersistedFrame(f, g), 0) == x
      && OverlayFrame(x, PersistedFrame(f, g), |FrameKeys|) == PersistedFrame(f, g)
  {
  }

  /** The keys k.. that Save writes for f, in order. */
  function WritesFrom(f: FrameSettings, k: nat): (ks: seq<nat>)
    requires k <= |FrameKeys|
    ensures forall j | 0 <= j < |ks| :: Written(ks[j])
    decreases |FrameKeys| - k
  {
    if k == |FrameKeys| then [] else (if Writes(f, k) then [k] else []) + WritesFrom(f, k + 1)
  }

  /** The keys Save's nested conditions pick are those Writes names. */
  lemma FieldKeysWrites(f: FrameSettings)
    ensures FieldKeys(f) == WritesFrom(f, 0)
  {
    assert WritesFrom(f, 11) == [11, 12];
    assert WritesFrom(f, 7) == (if f.cameraType != Camera.Disabled then [7, 8, 9, 10] else []) + [11, 12];
    assert WritesFrom(f, 1) == WritesFrom(f, 4);
  }

  // ---------------------------------------------------------------------------
  // Reading back the value on one line.

  /** "%d,%d" followed by a line feed reads back as the pair. */
  lemma Int2Text(s: string, q: nat, a: int, b: int, x: int, y: int)
    requires StartsWith(s, q, FormatInt(a) + "," + FormatInt(b))
    requires Peek(s, q + |FormatInt(a) + "," + FormatInt(b)|) == '\n'
    ensures Int2(s, q, x, y) == Parsed(true, q + |FormatInt(a) + "," + FormatInt(b)|, (a, b))
  {
    StartsWithSplit(s, q, FormatInt(a) + ",", FormatInt(b));
    StartsWithSplit(s, q, FormatInt(a), ",");
    PeekInside(s, q + |FormatInt(a)|, ",", 0);
    Int2RoundTrip(s, q, a, b, x, y);
  }

  /** The digit Save writes for a flag reads back as the flag. */
  lemma BoolText(s: string, q: nat, b: bool, x: bool)
    requires StartsWith(s, q, FormatBool(b))
    ensures Bool(s, q, x) == Parsed(true, q + 1, b)
  {
    PeekInside(s, q, FormatBool(b), 0);
    BoolDigit(s, q, "", x);
  }

  /**
   * The text Save prints for v, followed by a line feed, read by the parser of the
   * same kind: it succeeds, stops at the line feed and leaves ReadBack's value.
   */
  lemma ValueRoundTrip(s: string, q: nat, kind: Kind, g: Float32 -> string, v: Value, x: Value)
    requires Fits(kind, v) && Fits(kind, x) && (kind.RealKind? ==> IsFloatLiteral(g(v.f)))
    requires StartsWith(s, q, Print(kind, g, v)) && Peek(s, q + |Print(kind, g, v)|) == '\n'
    ensures ParseValue(s, q, kind, x) == Parsed(true, q + |Print(kind, g, v)|, ReadBack(kind, g, v))
  {
    match kind
    case PairKind => PairRoundTrip(s, q, g, v, x);
    case FlagKind => FlagRoundTrip(s, q, g, v, x);
    case RealKind => RealRoundTrip(s, q, g, v, x);
    case TruncKind(lo, hi) => TruncRoundTrip(s, q, lo, hi, g, v, x);
    case WholeKind(lo, hi) => WholeRoundTrip(s, q, lo, hi, g, v, x);
    case TypeKind => TypeRoundTrip(s, q, g, v, x);
    case UpKind => UpRoundTrip(s, q, g, v, x);
  }

  /** A pair, as ValueRoundTrip says. */
  lemma PairRoundTrip(s: string, q: nat, g: Float32 -> string, v: Value, x: Value)
    requires Fits(PairKind, v) && Fits(PairKind, x)
    requires StartsWith(s, q, Print(PairKind, g, v)) && Peek(s, q + |Print(PairKind, g, v)|) == '\n'
    ensures ParseValue(s, q, PairKind, x) == Parsed(true, q + |Print(PairKind, g, v)|, ReadBack(PairKind, g, v))
  {
    Int2Text(s, q, v.a, v.b, x.a, x.b);
  }

  /** A flag, as ValueRoundTrip says. */
  lemma FlagRoundTrip(s: string, q: nat, g: Float32 -> string, v: Value, x: Value)
    requires Fits(FlagKind, v) && Fits(FlagKind, x)
    requires StartsWith(s, q, Print(FlagKind, g, v)) && Peek(s, q + |Print(FlagKind, g, v)|) == '\n'
    ensures ParseValue(s, q, FlagKind, x) == Parsed(true, q + |Print(FlagKind, g, v)|, ReadBack(FlagKind, g, v))
  {
    BoolText(s, q, v.on, x.on);
  }

  /** A float, as ValueRoundTrip says. */
  lemma RealRoundTrip(s: string, q: nat, g: Float32 -> string, v: Value, x: Value)
    requires Fits(RealKind, v) && Fits(RealKind, x) && IsFloatLiteral(g(v.f))
    requires StartsWith(s, q, Print(RealKind, g, v)) && Peek(s, q + |Print(RealKind, g, v)|) == '\n'
    ensures ParseValue(s, q, RealKind, x) == Parsed(true, q + |Print(RealKind, g, v)|, ReadBack(RealKind, g, v))
  {
    FloatRoundTrip(s, q, g(v.f), x.f);
  }

  /** An integer read as a float, as ValueRoundTrip says. */
  lemma TruncRoundTrip(s: string, q: nat, lo: int, hi: int, g: Float32 -> string, v: Value, x: Value)
    requires Fits(TruncKind(lo, hi), v) && Fits(TruncKind(lo, hi), x)
    requires StartsWith(s, q, Print(TruncKind(lo, hi), g, v)) && Peek(s, q + |Print(TruncKind(lo, hi), g, v)|) == '\n'
    ensures ParseValue(s, q, TruncKind(lo, hi), x) == Parsed(true, q + |Print(TruncKind(lo, hi), g, v)|, ReadBack(TruncKind(lo, hi), g, v))
  {
    FloatToIntRoundTrip(s, q, FormatInt(v.n), v.n, x.n, lo, hi);
  }

  /** An integer, as ValueRoundTrip says. */
  lemma WholeRoundTrip(s: string, q: nat, lo: int, hi: int, g: Float32 -> string, v: Value, x: Value)
    requires Fits(WholeKind(lo, hi), v) && Fits(WholeKind(lo, hi), x)
    requires StartsWith(s, q, Print(WholeKind(lo, hi), g, v)) && Peek(s, q + |Print(WholeKind(lo, hi), g, v)|) == '\n'
    ensures ParseValue(s, q, WholeKind(lo, hi), x) == Parsed(true, q + |Print(WholeKind(lo, hi), g, v)|, ReadBack(WholeKind(lo, hi), g, v))
  {
    IntRoundTrip(s, q, v.n, x.n, lo, hi);
  }

  /** A camera type, as ValueRoundTrip says. */
  lemma TypeRoundTrip(s: string, q: nat, g: Float32 -> string, v: Value, x: Value)
    requires Fits(TypeKind, v) && Fits(TypeKind, x)
    requires StartsWith(s, q, Print(TypeKind, g, v)) && Peek(s, q + |Print(TypeKind, g, v)|) == '\n'
    ensures ParseValue(s, q, TypeKind, x) == Parsed(true, q + |Print(TypeKind, g, v)|, ReadBack(TypeKind, g, v))
  {
    CameraTypeRoundTrip(s, q, v.n, x.n);
  }

  /** An up axis, as ValueRoundTrip says. */
  lemma UpRoundTrip(s: string, q: nat, g: Float32 -> string, v: Value, x: Value)
    requires Fits(UpKind, v) && Fits(UpKind, x)
    requires StartsWith(s, q, Print(UpKind, g, v)) && Peek(s, q + |Print(UpKind, g, v)|) == '\n'
    ensures ParseValue(s, q, UpKind, x) == Parsed(true, q + |Print(UpKind, g, v)|, ReadBack(UpKind, g, v))
  {
    CameraUpRoundTrip(s, q, v.n, x.n);
  }

  /** The value Save writes for global key k, read back into x, sets that key's setting(s) as Persisted does. */
  lemma GlobalValueRead(s: string, q: nat, d: Document, g: Float32 -> string, k: nat, x: Document)
    requires PrintsFloats(g)
    requires k < |GlobalKeys| && StartsWith(s, q, GlobalValue(d, g, k)) && Peek(s, q + |GlobalValue(d, g, k)|) == '\n'
    ensures ApplyGlobal(s, q, x, k) == Applied(PutGlobal(x, k, GetGlobal(Persisted(d, g), k)), q + |GlobalValue(d, g, k)|)
  {
    var v := GetGlobal(d, k);
    if v.Real? {
      assert IsFloatLiteral(Printed(g, v.f));
    }
    ValueRoundTrip(s, q, GlobalKind(k), g, v, GetGlobal(x, k));
    PersistedGlobal(d, g, k);
  }

  /** The value Save writes for frame key k of f, read back into x, sets that field as PersistedFrame does. */
  lemma FieldValueRead(s: string, q: nat, f: FrameSettings, g: Float32 -> string, k: nat, x: FrameSettings)
    requires PrintsFloats(g)
    requires k < |FrameKeys| && Writes(f, k) && StartsWith(s, q, FieldValue(f, g, k)) && Peek(s, q + |FieldValue(f, g, k)|) == '\n'
    ensures ApplyFrame(s, q, x, k) == AppliedFrame(PutField(x, k, GetField(PersistedFrame(f, g), k)), q + |FieldValue(f, g, k)|)
  {
    var v := GetField(f, k);
    if v.Real? {
      assert IsFloatLiteral(Printed(g, v.f));
    }
    ValueRoundTrip(s, q, FrameKind(k), g, v, GetField(x, k));
    PersistedField(f, g, k);
  }

  /** What every frame keeps across a save and a load, whatever "%g" prints. */
  predicate FrameKept(f: FrameSettings, p: FrameSettings)
  {
    var enabled := f.cameraType != Camera.Disabled;
    p.name == f.name
    && (Camera.IsCameraType(f.cameraType) ==> p.cameraType == f.cameraType)
    && (0 <= f.renderScaleDown <= MaxRenderScaleDown ==> p.renderScaleDown == f.renderScaleDown)
    && (0 <= f.renderScaleUp <= MaxRenderScaleUp ==> p.renderScaleUp == f.renderScaleUp)
    && (enabled ==> p.gridVisible == f.gridVisible && p.cubeVisible == f.cubeVisible)
    && (enabled && Camera.IsCameraUp(f.cameraUp) ==> p.cameraUp == f.cameraUp)
    && (!enabled ==> p.cameraUp == Camera.ZUp && !p.gridVisible && !p.cubeVisible)
    && p.turntable == DefaultFrameSettings(f.name).turntable
    && p.trackball == DefaultFrameSettings(f.name).trackball
  }

  /**
   * The settings that are not floats come back from a save and a load: the window, the
   * three flags, the step delay, the font size and DPI scale when within their bounds,
   * and the frames in number and order with what FrameKept says of each.
   */
  lemma PersistedKeeps(d: Document, g: Float32 -> string)
    ensures var p := Persisted(d, g);
      p.window == d.window && p.neverAskOnExit == d.neverAskOnExit && p.showMainMenu == d.showMainMenu
      && p.canIdle == d.canIdle && p.autoStepDelayMs == d.autoStepDelayMs
      && (MinFontSize <= d.fontSize <= MaxFontSize ==> p.fontSize == d.fontSize)
      && (MinDpiScale <= d.dpiScale <= MaxDpiScale ==> p.dpiScale == d.dpiScale)
      && |p.frames| == |d.frames|
      && forall j | 0 <= j < |d.frames| :: FrameKept(d.frames[j], p.frames[j])
  {
  }
}
