/**
 * LoadOrDefault's main loop over the file contents. Each iteration tries the global
 * keys in order, then the frame header, then, inside a frame, the frame keys; a key
 * that matches hands its value to the parser of that key. When nothing matches, the
 * code as written moves the cursor one character on, but only outside a frame.
 *
 * The loop is described twice, by one flag: `corrected == false` is the code as
 * written, and `corrected == true` moves on by one character inside a frame too, but
 * never past the terminator.
 */
module Loader {
  import opened Text
  import opened Numbers
  import opened Scan
  import Camera
  import opened Model

  /** The global keys, in the order the else-if chain tries them. */
  const GlobalKeys: seq<string> := [
    "window_pos", "window_size", "never_ask_on_exit", "show_main_menu",
    "mouse_sensitivity", "scroll_sensitivity", "move_speed_normal", "move_speed_slow",
    "Kp_zoom", "Kp_translate", "Kp_rotate", "font_size", "dpi_scale", "can_idle",
    "auto_step_delay_ms"]

  /** The key that opens a frame; the frame's name is the rest of its line. */
  const HeaderKey: string := "[frame]"

  /** The per-frame keys, in the order the else-if chain tries them. */
  const FrameKeys: seq<string> := [
    "camera_type", "camera_angle_x", "camera_angle_y", "camera_radius", "y_fov",
    "min_depth", "max_depth", "grid_visible", "grid_scale", "camera_up", "cube_visible",
    "render_scale_down", "render_scale_up"]

  /** The bounds ParseFloatToInt clamps font_size and dpi_scale to. */
  const MinFontSize: int := 6
  const MaxFontSize: int := 96
  const MinDpiScale: int := 100
  const MaxDpiScale: int := 200

  /** The index of the key that matched (|keys| when none did) and the cursor after the chain. */
  datatype KeyMatch = KeyMatch(index: nat, next: nat)

  /**
   * An else-if chain of ParseKey calls over keys[k..]: the first call that succeeds,
   * each failing call leaving the cursor where it stopped for the next one.
   */
  function FirstKey(s: string, i: nat, keys: seq<string>, k: nat): (r: KeyMatch)
    requires i <= |s| && k <= |keys|
    ensures k <= r.index <= |keys| && i <= r.next <= |s|
    ensures r.index < |keys| ==> i < r.next
    decreases |keys| - k, |s| - i
  {
    if k == |keys| then KeyMatch(k, i)
    else
      var key := Key(s, i, keys[k]);
      if key.ok then KeyMatch(k, key.next) else FirstKey(s, key.next, keys, k + 1)
  }

  // ---------------------------------------------------------------------------
  // What each branch of the chain does: key k's value parser, run on key k's setting.

  /** A setting as one of the value parsers sees it. */
  datatype Value = Pair(a: int, b: int) | Flag(on: bool) | Real(f: Float32) | Whole(n: int)

  /**
   * The value parsers the branches call: ParseInt2, ParseBool, ParseFloat,
   * ParseFloatToInt and ParseInt with their clamping bounds, ParseCameraType and
   * ParseCameraUp.
   */
  datatype Kind =
    | PairKind
    | FlagKind
    | RealKind
    | TruncKind(lo: int, hi: int)
    | WholeKind(lo: int, hi: int)
    | TypeKind
    | UpKind

  /** The shape of value the parser of that kind writes. */
  predicate Fits(kind: Kind, v: Value)
  {
    match kind
    case PairKind => v.Pair?
    case FlagKind => v.Flag?
    case RealKind => v.Real?
    case _ => v.Whole?
  }

  /** What the clamps and the name tables of a parser guarantee of the value it leaves, which was x before. */
  predicate Within(kind: Kind, x: Value, v: Value)
  {
    match kind
    case TruncKind(lo, hi) => lo <= hi ==> v == x || (v.Whole? && lo <= v.n <= hi)
    case WholeKind(lo, hi) => lo < hi ==> v == x || (v.Whole? && lo <= v.n <= hi)
    case TypeKind => v == x || (v.Whole? && Camera.IsCameraType(v.n))
    case UpKind => v == x || (v.Whole? && Camera.IsCameraUp(v.n))
    case _ => true
  }

  /** The value parser of the given kind at i, with x as the old value of its out parameter(s). */
  function ParseValue(s: string, i: nat, kind: Kind, x: Value): (r: Parsed<Value>)
    requires i <= |s| && Fits(kind, x)
    ensures i <= r.next <= |s| && Fits(kind, r.value)
  {
    match kind
    case PairKind =>
      var p := Int2(s, i, x.a, x.b);
      Parsed(p.ok, p.next, Pair(p.value.0, p.value.1))
    case FlagKind =>
      var p := Bool(s, i, x.on);
      Parsed(p.ok, p.next, Flag(p.value))
    case RealKind =>
      var p := Float(s, i, x.f);
      Parsed(p.ok, p.next, Real(p.value))
    case TruncKind(lo, hi) =>
      var p := FloatToInt(s, i, x.n, lo, hi);
      Parsed(p.ok, p.next, Whole(p.value))
    case WholeKind(lo, hi) =>
      var p := Int(s, i, x.n, lo, hi);
      Parsed(p.ok, p.next, Whole(p.value))
    case TypeKind =>
      var p := CameraType(s, i, x.n);
      Parsed(p.ok, p.next, Whole(p.value))
    case UpKind =>
      var p := CameraUp(s, i, x.n);
      Parsed(p.ok, p.next, Whole(p.value))
  }

  /** The parser the branch of global key k calls. */
  function GlobalKind(k: nat): Kind
  {
    if k < 2 then PairKind
    else if k < 4 then FlagKind
    else if k < 11 then RealKind
    else if k == 11 then TruncKind(MinFontSize, MaxFontSize)
    else if k == 12 then TruncKind(MinDpiScale, MaxDpiScale)
    else if k == 13 then FlagKind
    else WholeKind(0, 0)
  }

  /** The setting(s) the branch of global key k passes to its parser. */
  function GetGlobal(d: Document, k: nat): (v: Value)
    ensures Fits(GlobalKind(k), v)
  {
    if k == 0 then Pair(d.window.x, d.window.y)
    else if k == 1 then Pair(d.window.width, d.window.height)
    else if k == 2 then Flag(d.neverAskOnExit)
    else if k == 3 then Flag(d.showMainMenu)
    else if k == 4 then Real(d.camera.mouseSensitivity)
    else if k == 5 then Real(d.camera.scrollSensitivity)
    else if k == 6 then Real(d.camera.moveSpeedNormal)
    else if k == 7 then Real(d.camera.moveSpeedSlow)
    else if k == 8 then Real(d.camera.kpZoom)
    else if k == 9 then Real(d.camera.kpTranslate)
    else if k == 10 then Real(d.camera.kpRotate)
    else if k == 11 then Whole(d.fontSize)
    else if k == 12 then Whole(d.dpiScale)
    else if k == 13 then Flag(d.canIdle)
    else Whole(d.autoStepDelayMs)
  }

  /** d with the setting(s) of global key k set to v. */
  function PutGlobal(d: Document, k: nat, v: Value): (r: Document)
    requires Fits(GlobalKind(k), v)
    ensures r.frames == d.frames
  {
    if k == 0 then d.(window := d.window.(x := v.a, y := v.b))
    else if k == 1 then d.(window := d.window.(width := v.a, height := v.b))
    else if k == 2 then d.(neverAskOnExit := v.on)
    else if k == 3 then d.(showMainMenu := v.on)
    else if k == 4 then d.(camera := d.camera.(mouseSensitivity := v.f))
    else if k == 5 then d.(camera := d.camera.(scrollSensitivity := v.f))
    else if k == 6 then d.(camera := d.camera.(moveSpeedNormal := v.f))
    else if k == 7 then d.(camera := d.camera.(moveSpeedSlow := v.f))
    else if k == 8 then d.(camera := d.camera.(kpZoom := v.f))
    else if k == 9 then d.(camera := d.camera.(kpTranslate := v.f))
    else if k == 10 then d.(camera := d.camera.(kpRotate := v.f))
    else if k == 11 then d.(fontSize := v.n)
    else if k == 12 then d.(dpiScale := v.n)
    else if k == 13 then d.(canIdle := v.on)
    else d.(autoStepDelayMs := v.n)
  }

  /** A document after an assignment of the loop, and the parser's cursor after it. */
  datatype Applied = Applied(doc: Document, next: nat)

  /** The branch of global key k at i: its parser, run on its setting(s) of d. */
  function ApplyGlobal(s: string, i: nat, d: Document, k: nat): (r: Applied)
    requires i <= |s| && k < |GlobalKeys|
    ensures i <= r.next <= |s| && r.doc.frames == d.frames
  {
    var p := ParseValue(s, i, GlobalKind(k), GetGlobal(d, k));
    Applied(PutGlobal(d, k, p.value), p.next)
  }

  /** The parser the branch of frame key k calls. */
  function FrameKind(k: nat): Kind
  {
    if k == 0 then TypeKind
    else if k < 7 then RealKind
    else if k == 7 then FlagKind
    else if k == 8 then RealKind
    else if k == 9 then UpKind
    else if k == 10 then FlagKind
    else if k == 11 then WholeKind(0, MaxRenderScaleDown)
    else WholeKind(0, MaxRenderScaleUp)
  }

  /** The field of a frame the branch of frame key k passes to its parser. */
  function GetField(f: FrameSettings, k: nat): (v: Value)
    ensures Fits(FrameKind(k), v)
  {
    if k == 0 then Whole(f.cameraType)
    else if k == 1 then Real(f.turntable.angleX)
    else if k == 2 then Real(f.turntable.angleY)
    else if k == 3 then Real(f.turntable.radius)
    else if k == 4 then Real(f.yFov)
    else if k == 5 then Real(f.minDepth)
    else if k == 6 then Real(f.maxDepth)
    else if k == 7 then Flag(f.gridVisible)
    else if k == 8 then Real(f.gridScale)
    else if k == 9 then Whole(f.cameraUp)
    else if k == 10 then Flag(f.cubeVisible)
    else if k == 11 then Whole(f.renderScaleDown)
    else Whole(f.renderScaleUp)
  }

  /** The frame f with the field of frame key k set to v. */
  function PutField(f: FrameSettings, k: nat, v: Value): (r: FrameSettings)
    requires Fits(FrameKind(k), v)
    ensures r.name == f.name
  {
    if k == 0 then f.(cameraType := v.n)
    else if k == 1 then f.(turntable := f.turntable.(angleX := v.f))
    else if k == 2 then f.(turntable := f.turntable.(angleY := v.f))
    else if k == 3 then f.(turntable := f.turntable.(radius := v.f))
    else if k == 4 then f.(yFov := v.f)
    else if k == 5 then f.(minDepth := v.f)
    else if k == 6 then f.(maxDepth := v.f)
    else if k == 7 then f.(gridVisible := v.on)
    else if k == 8 then f.(gridScale := v.f)
    else if k == 9 then f.(cameraUp := v.n)
    else if k == 10 then f.(cubeVisible := v.on)
    else if k == 11 then f.(renderScaleDown := v.n)
    else f.(renderScaleUp := v.n)
  }

  /** A frame after an assignment of the loop, and the parser's cursor after it. */
  datatype AppliedFrame = AppliedFrame(frame: FrameSettings, next: nat)

  /** The branch of frame key k at i: its parser, run on its field of the frame f. */
  function ApplyFrame(s: string, i: nat, f: FrameSettings, k: nat): (r: AppliedFrame)
    requires i <= |s| && k < |FrameKeys|
    ensures i <= r.next <= |s| && r.frame.name == f.name
  {
    var p := ParseValue(s, i, FrameKind(k), GetField(f, k));
    AppliedFrame(PutField(f, k, p.value), p.next)
  }

  /** The characters that end a frame's name. */
  predicate EndsName(ch: char)
  {
    ch == NUL || ch == '\n' || ch == '\r'
  }

  predicate NoNameEnd(w: string)
  {
    forall k | 0 <= k < |w| :: !EndsName(w[k])
  }

  /** The end of the frame name that starts at i: the first NUL, line feed or carriage return. */
  function NameEnd(s: string, i: nat): (j: nat)
    requires i <= |s|
    ensures i <= j <= |s| && NoNameEnd(s[i..j]) && EndsName(Peek(s, j))
    decreases |s| - i
  {
    if EndsName(Peek(s, i)) then i else NameEnd(s, i + 1)
  }

  /** The loop's state: the document read so far and whether a frame is open (`frame != NULL`). */
  datatype Loading = Loading(doc: Document, inFrame: bool)

  /** What the loop keeps true: the frame array is not overfull, and an open frame exists. */
  predicate Consistent(st: Loading)
  {
    |st.doc.frames| <= MaxFrameSettings && (st.inFrame ==> |st.doc.frames| > 0)
  }

  /** What one iteration's else-if chain does: a branch ran, or none did and the cursor is left at `next`. */
  datatype Dispatched = Matched(state: Loading, next: nat) | Unmatched(next: nat)

  /** One pass through the else-if chain at the cursor c: the global keys first. */
  function Dispatch(s: string, c: nat, st: Loading): (r: Dispatched)
    requires c <= |s| && Consistent(st)
    ensures r.Matched? ==> c < r.next <= |s| && Consistent(r.state)
    ensures r.Unmatched? ==> c <= r.next <= |s|
  {
    var g := FirstKey(s, c, GlobalKeys, 0);
    if g.index < |GlobalKeys| then
      var a := ApplyGlobal(s, g.next, st.doc, g.index);
      Matched(st.(doc := a.doc), a.next)
    else
      HeaderChain(s, g.next, st)
  }

  /**
   * The chain once no global key matched at i: the frame header, which opens a frame
   * named by the rest of its line (or, at capacity, closes the current one), and then,
   * inside a frame, the frame keys.
   */
  function HeaderChain(s: string, i: nat, st: Loading): (r: Dispatched)
    requires i <= |s| && Consistent(st)
    ensures r.Matched? ==> i < r.next <= |s| && Consistent(r.state)
    ensures r.Unmatched? ==> i <= r.next <= |s|
  {
    var h := Key(s, i, HeaderKey);
    if h.ok then
      if |st.doc.frames| == MaxFrameSettings then
        Matched(st.(inFrame := false), h.next)
      else
        var e := NameEnd(s, h.next);
        var frame := DefaultFrameSettings(s[h.next..e]);
        Matched(Loading(st.doc.(frames := st.doc.frames + [frame]), true), e)
    else if st.inFrame then
      FrameChain(s, h.next, st)
    else
      Unmatched(h.next)
  }

  /** The frame last opened, which the frame keys set (`frame` in the C code). */
  function Last(d: Document): FrameSettings
    requires 0 < |d.frames|
  {
    d.frames[|d.frames| - 1]
  }

  /** The document with its last frame replaced by f. */
  function SetLast(d: Document, f: FrameSettings): (r: Document)
    requires 0 < |d.frames|
    ensures |r.frames| == |d.frames| && Last(r) == f
  {
    d.(frames := d.frames[|d.frames| - 1 := f])
  }

  /** The frame keys' chain at i, inside a frame: the key matched sets its field of the frame last opened. */
  function FrameChain(s: string, i: nat, st: Loading): (r: Dispatched)
    requires i <= |s| && Consistent(st) && st.inFrame
    ensures r.Matched? ==> i < r.next <= |s| && Consistent(r.state)
    ensures r.Unmatched? ==> i <= r.next <= |s|
  {
    var f := FirstKey(s, i, FrameKeys, 0);
    if f.index < |FrameKeys| then
      var a := ApplyFrame(s, f.next, Last(st.doc), f.index);
      Matched(st.(doc := SetLast(st.doc, a.frame)), a.next)
    else
      Unmatched(f.next)
  }

  /** Where the cursor goes when no branch ran: the C code steps over one character only outside a frame. */
  function Skip(s: string, n: nat, inFrame: bool, corrected: bool): (r: nat)
    requires n <= |s|
    ensures n <= r <= n + 1
    ensures !corrected ==> (r == n <==> inFrame)
    ensures corrected ==> r <= |s| && (r == n <==> Peek(s, n) == NUL)
  {
    if corrected then (if Peek(s, n) == NUL then n else n + 1)
    else if inFrame then n else n + 1
  }

  /** The state and the cursor after one iteration of the loop. */
  datatype Stepped = Stepped(state: Loading, next: nat)

  /**
   * One iteration of the loop at the cursor c. An iteration that leaves the cursor
   * where it was has changed nothing, so the loop would repeat it forever; the
   * corrected loop always moves on and never past the terminator.
   */
  function Step(s: string, c: nat, st: Loading, corrected: bool): (r: Stepped)
    requires c <= |s| && Consistent(st)
    ensures Consistent(r.state) && c <= r.next <= |s| + 1
    ensures r.next == c ==> r.state == st
    ensures corrected && Peek(s, c) != NUL ==> c < r.next <= |s|
  {
    match Dispatch(s, c, st)
    case Matched(st', n) => Stepped(st', n)
    case Unmatched(n) => Stepped(st, Skip(s, n, st.inFrame, corrected))
  }

  /**
   * How the loop ends: at the terminator with a document; repeating an iteration that
   * makes no progress, at the cursor `at`; or by moving the cursor past the terminator,
   * after which the C code reads outside the buffer.
   */
  datatype Outcome = Finished(doc: Document) | Hangs(at: nat) | Overruns

  /** The loop `while (**c)` from the cursor c in the state st. */
  function Run(s: string, c: nat, st: Loading, corrected: bool): (r: Outcome)
    requires c <= |s| && Consistent(st)
    ensures corrected ==> r.Finished?
    ensures r.Finished? ==> |r.doc.frames| <= MaxFrameSettings
    decreases |s| - c, 1
  {
    if Peek(s, c) == NUL then Finished(st.doc) else Iterate(s, c, st, corrected)
  }

  /** The loop once its test has let an iteration start at c: the iteration, then the loop from where it left the cursor. */
  function Iterate(s: string, c: nat, st: Loading, corrected: bool): (r: Outcome)
    requires c <= |s| && Consistent(st)
    ensures corrected && Peek(s, c) != NUL ==> r.Finished?
    ensures r.Finished? ==> |r.doc.frames| <= MaxFrameSettings
    decreases |s| - c, 0
  {
    var r := Step(s, c, st, corrected);
    if r.next > |s| then Overruns
    else if r.next == c then Hangs(c)
    else Run(s, r.next, r.state, corrected)
  }

  /** One turn of the loop: the test, then one iteration. */
  lemma RunOnce(s: string, c: nat, st: Loading, corrected: bool)
    requires c <= |s| && Consistent(st)
    ensures Run(s, c, st, corrected)
         == if Peek(s, c) == NUL then Finished(st.doc)
            else var r := Step(s, c, st, corrected);
              if r.next > |s| then Overruns
              else if r.next == c then Hangs(c)
              else Run(s, r.next, r.state, corrected)
  {
  }

  /** The state LoadOrDefault starts the loop in: every setting at its default, no frame open. */
  function Initial(defaultFontSize: int): (st: Loading)
    ensures Consistent(st) && st.doc.frames == [] && !st.inFrame
  {
    Loading(DefaultDocument(defaultFontSize), false)
  }

  /**
   * LoadOrDefault: the defaults when the file cannot be opened or read (None), else
   * the loop over its contents. The default font size is a build-time constant of the
   * program, passed in.
   */
  function Load(file: Option<string>, defaultFontSize: int, corrected: bool): (r: Outcome)
    ensures file.None? ==> r == Finished(DefaultDocument(defaultFontSize))
    ensures file == Some("") ==> r == Finished(DefaultDocument(defaultFontSize))
    ensures corrected ==> r.Finished?
  {
    match file
    case None => Finished(DefaultDocument(defaultFontSize))
    case Some(data) => Run(data, 0, Initial(defaultFontSize), corrected)
  }

  // ---------------------------------------------------------------------------
  // The key chain.

  /** When no key of keys[k..] follows the blanks at i, the chain fails having skipped those blanks. */
  lemma {:induction false} FirstKeyMisses(s: string, i: nat, keys: seq<string>, k: nat)
    requires i <= |s| && k <= |keys|
    requires forall l | k <= l < |keys| :: !StartsWith(s, Blank(s, i), keys[l])
    ensures FirstKey(s, i, keys, k) == KeyMatch(|keys|, if k == |keys| then i else Blank(s, i))
    decreases |keys| - k
  {
    if k < |keys| {
      KeyMisses(s, i, keys[k]);
      BlankTwice(s, i);
      FirstKeyMisses(s, Blank(s, i), keys, k + 1);
    }
  }

  /**
   * The chain selects key j when the buffer holds keys[j] and its '=' after the blanks
   * at i and no key before it (from k on) follows those blanks.
   */
  lemma {:induction false} FirstKeySelects(s: string, i: nat, keys: seq<string>, k: nat, j: nat)
    requires i <= |s| && k <= j < |keys| && Key(s, i, keys[j]).ok
    requires forall l | k <= l < j :: !StartsWith(s, Blank(s, i), keys[l])
    ensures FirstKey(s, i, keys, k) == KeyMatch(j, Key(s, i, keys[j]).next)
    decreases j - k
  {
    if k < j {
      KeyMisses(s, i, keys[k]);
      BlankTwice(s, i);
      FirstKeySelects(s, Blank(s, i), keys, k + 1, j);
    }
  }

  // ---------------------------------------------------------------------------
  // Bounds the loaded settings always satisfy.

  /** A frame whose enumerations hold valid values and whose render scales are within their limits. */
  predicate FrameBounded(f: FrameSettings)
  {
    Camera.IsCameraType(f.cameraType) && Camera.IsCameraUp(f.cameraUp)
    && 0 <= f.renderScaleDown <= MaxRenderScaleDown && 0 <= f.renderScaleUp <= MaxRenderScaleUp
  }

  /**
   * What the clamps of the loader guarantee: the font size is the default or within
   * 6..96, the DPI scale within 100..200, and every frame bounded.
   */
  predicate Bounded(d: Document, defaultFontSize: int)
  {
    (d.fontSize == defaultFontSize || MinFontSize <= d.fontSize <= MaxFontSize)
    && MinDpiScale <= d.dpiScale <= MaxDpiScale
    && |d.frames| <= MaxFrameSettings
    && forall j | 0 <= j < |d.frames| :: FrameBounded(d.frames[j])
  }

  lemma DefaultsBounded(defaultFontSize: int)
    ensures Bounded(DefaultDocument(defaultFontSize), defaultFontSize)
    ensures forall name :: FrameBounded(DefaultFrameSettings(name))
  {
  }

  /** Storing into a bounded frame a value its key's parser can leave keeps it bounded. */
  lemma PutFieldBounded(f: FrameSettings, k: nat, v: Value)
    requires k < |FrameKeys| && FrameBounded(f) && Fits(FrameKind(k), v) && Within(FrameKind(k), GetField(f, k), v)
    ensures FrameBounded(PutField(f, k, v))
  {
  }

  /** The value a parser leaves is its old value or one its clamps and name tables allow. */
  lemma ParseValueWithin(s: string, i: nat, kind: Kind, x: Value)
    requires i <= |s| && Fits(kind, x)
    ensures Within(kind, x, ParseValue(s, i, kind, x).value)
  {
  }

  /** A frame key's parser keeps a bounded frame bounded. */
  lemma ApplyFrameBounded(s: string, i: nat, f: FrameSettings, k: nat)
    requires i <= |s| && k < |FrameKeys| && FrameBounded(f)
    ensures FrameBounded(ApplyFrame(s, i, f, k).frame)
  {
    var p := ParseValue(s, i, FrameKind(k), GetField(f, k));
    ParseValueWithin(s, i, FrameKind(k), GetField(f, k));
    PutFieldBounded(f, k, p.value);
  }

  /** Storing into a bounded document a value its key's parser can leave keeps it bounded. */
  lemma PutGlobalBounded(d: Document, k: nat, v: Value, defaultFontSize: int)
    requires k < |GlobalKeys| && Bounded(d, defaultFontSize) && Fits(GlobalKind(k), v) && Within(GlobalKind(k), GetGlobal(d, k), v)
    ensures Bounded(PutGlobal(d, k, v), defaultFontSize)
  {
  }

  /** A global key's parser keeps a bounded document bounded. */
  lemma ApplyGlobalBounded(s: string, i: nat, d: Document, k: nat, defaultFontSize: int)
    requires i <= |s| && k < |GlobalKeys| && Bounded(d, defaultFontSize)
    ensures Bounded(ApplyGlobal(s, i, d, k).doc, defaultFontSize)
  {
    var p := ParseValue(s, i, GlobalKind(k), GetGlobal(d, k));
    ParseValueWithin(s, i, GlobalKind(k), GetGlobal(d, k));
    PutGlobalBounded(d, k, p.value, defaultFontSize);
  }

  /** Replacing the last frame by a bounded one, or appending a bounded one below capacity, keeps a document bounded. */
  lemma FramesBounded(d: Document, defaultFontSize: int, f: FrameSettings)
    requires Bounded(d, defaultFontSize) && FrameBounded(f)
    ensures 0 < |d.frames| ==> Bounded(d.(frames := d.frames[|d.frames| - 1 := f]), defaultFontSize)
    ensures |d.frames| < MaxFrameSettings ==> Bounded(d.(frames := d.frames + [f]), defaultFontSize)
  {
  }

  /** The frame keys' chain keeps a bounded document bounded. */
  lemma FrameChainBounded(s: string, i: nat, st: Loading, defaultFontSize: int)
    requires i <= |s| && Consistent(st) && st.inFrame && Bounded(st.doc, defaultFontSize)
    ensures FrameChain(s, i, st).Matched? ==> Bounded(FrameChain(s, i, st).state.doc, defaultFontSize)
  {
    var f := FirstKey(s, i, FrameKeys, 0);
    if f.index < |FrameKeys| {
      var a := ApplyFrame(s, f.next, Last(st.doc), f.index);
      ApplyFrameBounded(s, f.next, Last(st.doc), f.index);
      FramesBounded(st.doc, defaultFontSize, a.frame);
    }
  }

  /** The chain after the global keys keeps a bounded document bounded. */
  lemma HeaderChainBounded(s: string, i: nat, st: Loading, defaultFontSize: int)
    requires i <= |s| && Consistent(st) && Bounded(st.doc, defaultFontSize)
    ensures HeaderChain(s, i, st).Matched? ==> Bounded(HeaderChain(s, i, st).state.doc, defaultFontSize)
  {
    var h := Key(s, i, HeaderKey);
    if h.ok {
      if |st.doc.frames| < MaxFrameSettings {
        var e := NameEnd(s, h.next);
        FramesBounded(st.doc, defaultFontSize, DefaultFrameSettings(s[h.next..e]));
      }
    } else if st.inFrame {
      FrameChainBounded(s, h.next, st, defaultFontSize);
    }
  }

  /** One iteration keeps a bounded document bounded. */
  lemma StepBounded(s: string, c: nat, st: Loading, corrected: bool, defaultFontSize: int)
    requires c <= |s| && Consistent(st) && Bounded(st.doc, defaultFontSize)
    ensures Bounded(Step(s, c, st, corrected).state.doc, defaultFontSize)
  {
    var g := FirstKey(s, c, GlobalKeys, 0);
    if g.index < |GlobalKeys| {
      ApplyGlobalBounded(s, g.next, st.doc, g.index, defaultFontSize);
    } else {
      HeaderChainBounded(s, g.next, st, defaultFontSize);
    }
  }

  /** The loop keeps a bounded document bounded. */
  lemma {:induction false} RunBounded(s: string, c: nat, st: Loading, corrected: bool, defaultFontSize: int)
    requires c <= |s| && Consistent(st) && Bounded(st.doc, defaultFontSize)
    ensures Run(s, c, st, corrected).Finished? ==> Bounded(Run(s, c, st, corrected).doc, defaultFontSize)
    decreases |s| - c
  {
    if Peek(s, c) != NUL {
      var r := Step(s, c, st, corrected);
      StepBounded(s, c, st, corrected, defaultFontSize);
      if c < r.next <= |s| {
        RunBounded(s, r.next, r.state, corrected, defaultFontSize);
      }
    }
  }

  /**
   * Whatever the file holds, the settings loaded respect the loader's clamps: font
   * size, DPI scale, the frame capacity, and each frame's camera type, up axis and
   * render scales.
   */
  lemma LoadBounded(file: Option<string>, defaultFontSize: int, corrected: bool)
    ensures Load(file, defaultFontSize, corrected).Finished?
        ==> Bounded(Load(file, defaultFontSize, corrected).doc, defaultFontSize)
  {
    DefaultsBounded(defaultFontSize);
    if file.Some? {
      RunBounded(file.value, 0, Initial(defaultFontSize), corrected, defaultFontSize);
    }
  }

  // ---------------------------------------------------------------------------
  // A full frame array.

  /** At capacity outside a frame, an iteration neither adds a frame nor opens one. */
  lemma StepAtCapacity(s: string, c: nat, st: Loading, corrected: bool)
    requires c <= |s| && Consistent(st) && |st.doc.frames| == MaxFrameSettings && !st.inFrame
    ensures var r := Step(s, c, st, corrected); r.state.doc.frames == st.doc.frames && !r.state.inFrame
  {
  }

  /**
   * Once the frame array is full, the loop never changes a frame again: every further
   * "[frame]" header is dropped, and so are the frame keys that follow it.
   */
  lemma {:induction false} RunAtCapacity(s: string, c: nat, st: Loading, corrected: bool)
    requires c <= |s| && Consistent(st) && |st.doc.frames| == MaxFrameSettings && !st.inFrame
    ensures Run(s, c, st, corrected).Finished? ==> Run(s, c, st, corrected).doc.frames == st.doc.frames
    decreases |s| - c
  {
    if Peek(s, c) != NUL {
      var r := Step(s, c, st, corrected);
      StepAtCapacity(s, c, st, corrected);
      if c < r.next <= |s| {
        RunAtCapacity(s, r.next, r.state, corrected);
      }
    }
  }

  /**
   * A "[frame]" header seen while the frame array is full, with or without a frame
   * open: no frame is added and the current one is closed (`frame = NULL`), with the
   * cursor just past the header's '='.
   */
  lemma HeaderAtCapacity(s: string, c: nat, st: Loading, corrected: bool)
    requires c <= |s| && Consistent(st) && |st.doc.frames| == MaxFrameSettings
    requires FirstKey(s, c, GlobalKeys, 0).index == |GlobalKeys|
    requires Key(s, FirstKey(s, c, GlobalKeys, 0).next, HeaderKey).ok
    ensures Step(s, c, st, corrected)
         == Stepped(st.(inFrame := false), Key(s, FirstKey(s, c, GlobalKeys, 0).next, HeaderKey).next)
  {
  }

  /** At capacity, open frame or not, an iteration keeps the frame count and every frame but the last. */
  lemma StepAtCapacityOpen(s: string, c: nat, st: Loading, corrected: bool)
    requires c <= |s| && Consistent(st) && |st.doc.frames| == MaxFrameSettings
    ensures var fs := Step(s, c, st, corrected).state.doc.frames;
      |fs| == MaxFrameSettings && fs[..MaxFrameSettings - 1] == st.doc.frames[..MaxFrameSettings - 1]
  {
    var g := FirstKey(s, c, GlobalKeys, 0);
    if g.index >= |GlobalKeys| {
      var h := Key(s, g.next, HeaderKey);
      if !h.ok && st.inFrame {
        var f := FirstKey(s, h.next, FrameKeys, 0);
        if f.index < |FrameKeys| {
          var a := ApplyFrame(s, f.next, Last(st.doc), f.index);
          var fs := st.doc.frames;
          assert SetLast(st.doc, a.frame).frames[..MaxFrameSettings - 1] == fs[..MaxFrameSettings - 1];
        }
      }
    }
  }

  /**
   * Once 1024 frames exist, whatever follows: a load that finishes has exactly 1024
   * frames, and only the last of them (the one still open) can have changed. A 1025th
   * section therefore adds nothing.
   */
  lemma {:induction false} RunFull(s: string, c: nat, st: Loading, corrected: bool)
    requires c <= |s| && Consistent(st) && |st.doc.frames| == MaxFrameSettings
    ensures var r := Run(s, c, st, corrected);
      r.Finished? ==>
        |r.doc.frames| == MaxFrameSettings && r.doc.frames[..MaxFrameSettings - 1] == st.doc.frames[..MaxFrameSettings - 1]
    decreases |s| - c
  {
    RunOnce(s, c, st, corrected);
    if Peek(s, c) != NUL {
      var r := Step(s, c, st, corrected);
      StepAtCapacityOpen(s, c, st, corrected);
      if c < r.next <= |s| {
        RunFull(s, r.next, r.state, corrected);
      }
    }
  }

  /**
   * A "[frame]" header at capacity closes the open frame, so from there on a load that
   * finishes keeps all 1024 frames as they were: the frame keys of a 1025th section are
   * not applied.
   */
  lemma RunAfterHeaderAtCapacity(s: string, c: nat, st: Loading, corrected: bool)
    requires c <= |s| && Consistent(st) && |st.doc.frames| == MaxFrameSettings
    requires FirstKey(s, c, GlobalKeys, 0).index == |GlobalKeys|
    requires Key(s, FirstKey(s, c, GlobalKeys, 0).next, HeaderKey).ok
    ensures Run(s, c, st, corrected).Finished? ==> Run(s, c, st, corrected).doc.frames == st.doc.frames
  {
    RunOnce(s, c, st, corrected);
    if Peek(s, c) != NUL {
      HeaderAtCapacity(s, c, st, corrected);
      var r := Step(s, c, st, corrected);
      if c < r.next <= |s| {
        RunAtCapacity(s, r.next, r.state, corrected);
      }
    }
  }

  // ---------------------------------------------------------------------------
  // Text no key matches.

  /** Text that no key of the loader is a prefix of. */
  predicate MatchesNoKey(w: string)
  {
    (forall l | 0 <= l < |GlobalKeys| :: Clash(GlobalKeys[l], w, 0))
    && Clash(HeaderKey, w, 0)
    && (forall l | 0 <= l < |FrameKeys| :: Clash(FrameKeys[l], w, 0))
  }

  /** No global key starts with '#'. */
  lemma GlobalKeysAvoidHash()
    ensures ClashesBelow(GlobalKeys, "#", |GlobalKeys|)
  {
    assert Clash(GlobalKeys[0], "#", 0);
    assert ClashesBelow(GlobalKeys, "#", 1);
    assert Clash(GlobalKeys[1], "#", 0);
    assert ClashesBelow(GlobalKeys, "#", 2);
    assert Clash(GlobalKeys[2], "#", 0);
    assert ClashesBelow(GlobalKeys, "#", 3);
    assert Clash(GlobalKeys[3], "#", 0);
    assert ClashesBelow(GlobalKeys, "#", 4);
    assert Clash(GlobalKeys[4], "#", 0);
    assert ClashesBelow(GlobalKeys, "#", 5);
    assert Clash(GlobalKeys[5], "#", 0);
    assert ClashesBelow(GlobalKeys, "#", 6);
    assert Clash(GlobalKeys[6], "#", 0);
    assert ClashesBelow(GlobalKeys, "#", 7);
    assert Clash(GlobalKeys[7], "#", 0);
    assert ClashesBelow(GlobalKeys, "#", 8);
    assert Clash(GlobalKeys[8], "#", 0);
    assert ClashesBelow(GlobalKeys, "#", 9);
    assert Clash(GlobalKeys[9], "#", 0);
    assert ClashesBelow(GlobalKeys, "#", 10);
    assert Clash(GlobalKeys[10], "#", 0);
    assert ClashesBelow(GlobalKeys, "#", 11);
    assert Clash(GlobalKeys[11], "#", 0);
    assert ClashesBelow(GlobalKeys, "#", 12);
    assert Clash(GlobalKeys[12], "#", 0);
    assert ClashesBelow(GlobalKeys, "#", 13);
    assert Clash(GlobalKeys[13], "#", 0);
    assert ClashesBelow(GlobalKeys, "#", 14);
    assert Clash(GlobalKeys[14], "#", 0);
    assert ClashesBelow(GlobalKeys, "#", 15);
  }

  /** No frame key starts with '#'. */
  lemma FrameKeysAvoidHash()
    ensures ClashesBelow(FrameKeys, "#", |FrameKeys|)
  {
    assert Clash(FrameKeys[0], "#", 0);
    assert ClashesBelow(FrameKeys, "#", 1);
    assert Clash(FrameKeys[1], "#", 0);
    assert ClashesBelow(FrameKeys, "#", 2);
    assert Clash(FrameKeys[2], "#", 0);
    assert ClashesBelow(FrameKeys, "#", 3);
    assert Clash(FrameKeys[3], "#", 0);
    assert ClashesBelow(FrameKeys, "#", 4);
    assert Clash(FrameKeys[4], "#", 0);
    assert ClashesBelow(FrameKeys, "#", 5);
    assert Clash(FrameKeys[5], "#", 0);
    assert ClashesBelow(FrameKeys, "#", 6);
    assert Clash(FrameKeys[6], "#", 0);
    assert ClashesBelow(FrameKeys, "#", 7);
    assert Clash(FrameKeys[7], "#", 0);
    assert ClashesBelow(FrameKeys, "#", 8);
    assert Clash(FrameKeys[8], "#", 0);
    assert ClashesBelow(FrameKeys, "#", 9);
    assert Clash(FrameKeys[9], "#", 0);
    assert ClashesBelow(FrameKeys, "#", 10);
    assert Clash(FrameKeys[10], "#", 0);
    assert ClashesBelow(FrameKeys, "#", 11);
    assert Clash(FrameKeys[11], "#", 0);
    assert ClashesBelow(FrameKeys, "#", 12);
    assert Clash(FrameKeys[12], "#", 0);
    assert ClashesBelow(FrameKeys, "#", 13);
  }

  /** No key of the loader starts with '#'. */
  lemma KeysAvoidHash()
    ensures MatchesNoKey("#")
  {
    GlobalKeysAvoidHash();
    ClashesBelowAll(GlobalKeys, "#", |GlobalKeys|);
    FrameKeysAvoidHash();
    ClashesBelowAll(FrameKeys, "#", |FrameKeys|);
  }

  /** A key that clashes with some text is not empty, so it never matches at the end of the buffer. */
  lemma NoKeyAtEnd(s: string, key: string, other: string)
    requires Clash(key, other, 0)
    ensures !StartsWith(s, |s|, key)
  {
  }

  /** After blanks that run to the end of the buffer, no branch of the chain runs. */
  lemma DispatchAtEnd(s: string, c: nat, st: Loading)
    requires c <= |s| && Consistent(st) && Blank(s, c) == |s|
    ensures Dispatch(s, c, st) == Unmatched(|s|)
  {
    KeysAvoidHash();
    forall l | 0 <= l < |GlobalKeys|
      ensures !StartsWith(s, |s|, GlobalKeys[l])
    {
      NoKeyAtEnd(s, GlobalKeys[l], "#");
    }
    forall l | 0 <= l < |FrameKeys|
      ensures !StartsWith(s, |s|, FrameKeys[l])
    {
      NoKeyAtEnd(s, FrameKeys[l], "#");
    }
    FirstKeyMisses(s, c, GlobalKeys, 0);
    KeyMisses(s, |s|, HeaderKey);
    FirstKeyMisses(s, |s|, FrameKeys, 0);
  }

  /** A buffer whose rest from c is all blanks: ParseBlank runs to its end. */
  lemma BlankToEnd(s: string, c: nat)
    requires c <= |s| && AllBlank(s[c..])
    ensures Blank(s, c) == |s|
  {
  }

  /**
   * Blanks at the end of the buffer outside a frame: the code as written steps over
   * the terminator (and goes on reading past the buffer); the corrected loop stops.
   */
  lemma BlankTail(s: string, c: nat, st: Loading)
    requires c < |s| && AllBlank(s[c..]) && Consistent(st) && !st.inFrame
    ensures Run(s, c, st, false) == Overruns
    ensures Run(s, c, st, true) == Finished(st.doc)
  {
    assert s[c..][0] == s[c];
    BlankToEnd(s, c);
    DispatchAtEnd(s, c, st);
    RunOnce(s, |s|, st, true);
  }

  /**
   * Inside a frame the same blanks are harmless: the cursor ends on the terminator
   * and the loop ends.
   */
  lemma BlankTailInFrame(s: string, c: nat, st: Loading, corrected: bool)
    requires c < |s| && AllBlank(s[c..]) && Consistent(st) && st.inFrame
    ensures Run(s, c, st, corrected) == Finished(st.doc)
  {
    assert s[c..][0] == s[c];
    BlankToEnd(s, c);
    DispatchAtEnd(s, c, st);
    RunOnce(s, |s|, st, corrected);
  }

  /**
   * A file of blanks only: the corrected loader yields the defaults; the code as
   * written does too for an empty file but reads past the buffer for any other.
   */
  lemma BlankFileLoad(s: string, defaultFontSize: int)
    requires AllBlank(s)
    ensures Load(Some(s), defaultFontSize, true) == Finished(DefaultDocument(defaultFontSize))
    ensures Load(Some(s), defaultFontSize, false)
         == if |s| == 0 then Finished(DefaultDocument(defaultFontSize)) else Overruns
  {
    if |s| > 0 {
      assert s[0..] == s;
      BlankTail(s, 0, Initial(defaultFontSize));
    }
  }

  /** Text no key is a prefix of after the blanks at c: no branch of the chain runs, and the cursor stops after the blanks. */
  lemma DispatchMisses(s: string, c: nat, st: Loading, w: string)
    requires c <= |s| && Consistent(st) && StartsWith(s, Blank(s, c), w) && MatchesNoKey(w)
    ensures Dispatch(s, c, st) == Unmatched(Blank(s, c))
  {
    var b := Blank(s, c);
    forall l | 0 <= l < |GlobalKeys|
      ensures !StartsWith(s, b, GlobalKeys[l])
    {
      ClashMisses(GlobalKeys[l], w, s, b);
    }
    forall l | 0 <= l < |FrameKeys|
      ensures !StartsWith(s, b, FrameKeys[l])
    {
      ClashMisses(FrameKeys[l], w, s, b);
    }
    ClashMisses(HeaderKey, w, s, b);
    FirstKeyMisses(s, c, GlobalKeys, 0);
    BlankTwice(s, c);
    KeyMisses(s, b, HeaderKey);
    FirstKeyMisses(s, b, FrameKeys, 0);
  }

  /** Such text after the blanks at c: the iteration only moves the cursor, by Skip from the end of the blanks. */
  lemma StepMisses(s: string, c: nat, st: Loading, corrected: bool, w: string)
    requires c <= |s| && Consistent(st) && StartsWith(s, Blank(s, c), w) && MatchesNoKey(w)
    ensures Step(s, c, st, corrected) == Stepped(st, Skip(s, Blank(s, c), st.inFrame, corrected))
  {
    DispatchMisses(s, c, st, w);
  }

  /** A '#' after the blanks at c: the iteration only moves the cursor, by Skip from the '#'. */
  lemma StepOnHash(s: string, c: nat, st: Loading, corrected: bool)
    requires c <= |s| && Consistent(st) && Peek(s, Blank(s, c)) == '#'
    ensures Step(s, c, st, corrected) == Stepped(st, Skip(s, Blank(s, c), st.inFrame, corrected))
  {
    var b := Blank(s, c);
    assert StartsWith(s, b, "#") by {
      assert s[b..b + 1][0] == s[b];
    }
    KeysAvoidHash();
    StepMisses(s, c, st, corrected, "#");
  }

  /**
   * A '#' comment inside a frame: the code as written stops on the '#' and repeats the
   * same iteration forever; the corrected loop steps over it.
   */
  lemma CommentInFrame(s: string, c: nat, st: Loading)
    requires c <= |s| && Consistent(st) && st.inFrame && Peek(s, Blank(s, c)) == '#'
    ensures Run(s, c, st, false) == Hangs(Blank(s, c))
    ensures Run(s, c, st, true) == Run(s, Blank(s, c) + 1, st, true)
  {
    var b := Blank(s, c);
    StepOnHash(s, c, st, false);
    StepOnHash(s, c, st, true);
    BlankTwice(s, c);
    StepOnHash(s, b, st, false);
    RunOnce(s, b, st, false);
  }

  /** The same comment outside a frame is stepped over one character at a time, as intended. */
  lemma CommentOutsideFrame(s: string, c: nat, st: Loading, corrected: bool)
    requires c <= |s| && Consistent(st) && !st.inFrame && Peek(s, Blank(s, c)) == '#'
    ensures Run(s, c, st, corrected) == Run(s, Blank(s, c) + 1, st, corrected)
  {
    StepOnHash(s, c, st, corrected);
  }

  /**
   * A "[frame]" key that the chain reaches below capacity appends one frame and opens
   * it: the frames before are kept, and the new one is the default frame named by the
   * rest of the line, untrimmed, up to the first line end or the terminator.
   */
  lemma HeaderAppends(s: string, i: nat, st: Loading)
    requires i <= |s| && Consistent(st) && |st.doc.frames| < MaxFrameSettings && Key(s, i, HeaderKey).ok
    ensures var n := Key(s, i, HeaderKey).next;
      var r := HeaderChain(s, i, st);
      var fs := st.doc.frames;
      r.Matched? && r.state.inFrame && n <= r.next && |r.state.doc.frames| == |fs| + 1
      && r.state.doc.frames[..|fs|] == fs
      && r.state.doc.frames[|fs|] == DefaultFrameSettings(s[n..r.next])
      && NoNameEnd(s[n..r.next]) && EndsName(Peek(s, r.next))
      && r.state.doc.(frames := fs) == st.doc
  {
    var n := Key(s, i, HeaderKey).next;
    var fs' := HeaderChain(s, i, st).state.doc.frames;
    assert fs'[..|st.doc.frames|] == st.doc.frames;
  }
}
