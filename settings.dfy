/**
 * The settings record itself, as the program holds it: a fixed-size frame array of
 * which the first numFrames entries are in use, and the global settings beside it.
 * LoadOrDefault fills it in place from a file's contents, one loop iteration at a
 * time; Save writes it out. Both are proved against the functions of the Loader and
 * Saver modules, whose properties (among them the round trip) are proved there.
 */
module Settings {
  import opened Text
  import opened Numbers
  import opened Model
  import opened Loader
  import opened Saver
  import opened Scan

  /** A frame as a zero-initialised static record holds it before anything is written to it. */
  function ZeroFrame(): (f: FrameSettings)
    ensures f.name == "" && f.cameraType == 0 && f.renderScaleDown == 0 && f.renderScaleUp == 0
  {
    FrameSettings("", 0, TrackballSettings(Mat4(seq(16, _ => Zero)), Vec4(Zero, Zero, Zero, Zero), Zero),
      TurntableSettings(Zero, Zero, Zero), Zero, Zero, Zero, 0, false, Zero, false, 0, 0)
  }

  /**
   * How the frames in use change in one iteration of the loader's loop: a frame is
   * appended, or only the last one changes, or none does.
   */
  predicate OneFrameChanged(fs: seq<FrameSettings>, fs': seq<FrameSettings>)
  {
    |fs| <= |fs'| <= |fs| + 1 && forall i | 0 <= i < |fs'| - 1 :: fs'[i] == fs[i]
  }

  /** A global key leaves the frames alone, the header appends one and a frame key sets the last. */
  lemma StepChangesOneFrame(s: string, c: nat, st: Loading, corrected: bool)
    requires c <= |s| && Consistent(st)
    ensures OneFrameChanged(st.doc.frames, Step(s, c, st, corrected).state.doc.frames)
  {
    var fs := st.doc.frames;
    var fs' := Step(s, c, st, corrected).state.doc.frames;
    var g := FirstKey(s, c, GlobalKeys, 0);
    if g.index >= |GlobalKeys| {
      var h := Key(s, g.next, HeaderKey);
      if h.ok && |fs| < MaxFrameSettings {
      } else if !h.ok && st.inFrame {
        var f := FirstKey(s, h.next, FrameKeys, 0);
      }
    }
  }

  /** The file Save writes: the globals' part, then the frames' part. */
  lemma SaveTextSplit(d: Document, g: Float32 -> string)
    ensures SaveText(d, g) == "[vdb]\n" + Terminated(GlobalLines(d, g)) + Terminated(AllFrameLines(d.frames[0..], g))
  {
    assert d.frames[0..] == d.frames;
    TerminatedAppend(GlobalLines(d, g), AllFrameLines(d.frames, g));
    Assoc("[vdb]\n", Terminated(GlobalLines(d, g)), Terminated(AllFrameLines(d.frames, g)));
  }

  /** The frames' part of the file from frame i on: frame i's lines, then those of the frames after it. */
  lemma FramesTextStep(fs: seq<FrameSettings>, i: nat, g: Float32 -> string)
    requires i < |fs|
    ensures Terminated(AllFrameLines(fs[i..], g)) == Terminated(FrameLines(fs[i], g)) + Terminated(AllFrameLines(fs[i + 1..], g))
  {
    assert fs[i..][1..] == fs[i + 1..];
    TerminatedAppend(FrameLines(fs[i], g), AllFrameLines(fs[i + 1..], g));
  }

  lemma Assoc(a: string, b: string, c: string)
    ensures a + b + c == a + (b + c)
  {
  }

  class Settings {
    var camera: GlobalCameraSettings
    var window: WindowSettings
    const frames: array<FrameSettings>
    var numFrames: nat
    var neverAskOnExit: bool
    var showMainMenu: bool
    var fontSize: int
    var canIdle: bool
    var autoStepDelayMs: int
    var dpiScale: int

    /** The frame array has its fixed size and the frames in use fit in it. */
    ghost predicate Valid()
      reads this
    {
      frames.Length == MaxFrameSettings && numFrames <= MaxFrameSettings
    }

    /** The record as a value: the global settings and the frames in use. */
    function Doc(): (d: Document)
      reads this, frames
      requires Valid()
      ensures |d.frames| == numFrames
    {
      Document(camera, window, frames[..numFrames], neverAskOnExit, showMainMenu,
        fontSize, canIdle, autoStepDelayMs, dpiScale)
    }

    /** The static record before LoadOrDefault runs: every field zero. */
    constructor ()
      ensures Valid() && numFrames == 0
      ensures fontSize == 0 && dpiScale == 0 && autoStepDelayMs == 0
      ensures !neverAskOnExit && !showMainMenu && !canIdle
      ensures window == WindowSettings(0, 0, 0, 0)
      ensures camera == GlobalCameraSettings(Zero, Zero, Zero, Zero, Zero, Zero, Zero)
      ensures forall i | 0 <= i < frames.Length :: frames[i] == ZeroFrame()
    {
      camera := GlobalCameraSettings(Zero, Zero, Zero, Zero, Zero, Zero, Zero);
      window := WindowSettings(0, 0, 0, 0);
      frames := new FrameSettings[MaxFrameSettings](_ => ZeroFrame());
      numFrames := 0;
      neverAskOnExit := false;
      showMainMenu := false;
      fontSize := 0;
      canIdle := false;
      autoStepDelayMs := 0;
      dpiScale := 0;
    }

    /** Writes back the global settings of d. */
    method SetGlobals(d: Document)
      modifies this`camera, this`window, this`neverAskOnExit, this`showMainMenu, this`fontSize,
        this`canIdle, this`autoStepDelayMs, this`dpiScale
      ensures camera == d.camera && window == d.window && neverAskOnExit == d.neverAskOnExit
      ensures showMainMenu == d.showMainMenu && fontSize == d.fontSize && canIdle == d.canIdle
      ensures autoStepDelayMs == d.autoStepDelayMs && dpiScale == d.dpiScale
    {
      camera := d.camera;
      window := d.window;
      neverAskOnExit := d.neverAskOnExit;
      showMainMenu := d.showMainMenu;
      fontSize := d.fontSize;
      canIdle := d.canIdle;
      autoStepDelayMs := d.autoStepDelayMs;
      dpiScale := d.dpiScale;
    }

    /** Writes back the frames fs: the one appended in its new slot, or the last one in its slot. */
    method SetFrames(fs: seq<FrameSettings>)
      modifies this`numFrames, frames
      requires Valid() && |fs| <= MaxFrameSettings && OneFrameChanged(frames[..numFrames], fs)
      ensures Valid() && frames[..numFrames] == fs
    {
      var n := numFrames;
      if |fs| == n + 1 {
        frames[n] := fs[n];
        numFrames := n + 1;
      } else if 0 < n {
        frames[n - 1] := fs[n - 1];
      }
      assert frames[..numFrames] == fs;
    }

    /** Writes back what one iteration of the loop changed. */
    method Commit(d: Document)
      modifies this, frames
      requires Valid() && |d.frames| <= MaxFrameSettings && OneFrameChanged(Doc().frames, d.frames)
      ensures Valid() && Doc() == d
    {
      SetFrames(d.frames);
      SetGlobals(d);
    }

    /**
     * LoadOrDefault: the defaults, then, when there is a file whose contents are
     * `file`, the loop over them. The outcome is what the Loader's model of the loop
     * says, and a loop that reaches the terminator leaves that document in the record.
     */
    method LoadOrDefault(file: Option<string>, defaultFontSize: int, corrected: bool) returns (outcome: Outcome)
      modifies this, frames
      requires Valid()
      ensures Valid()
      ensures outcome == Load(file, defaultFontSize, corrected)
      ensures outcome.Finished? ==> Doc() == outcome.doc
    {
      camera := GlobalCameraSettings(Float32("50"), Float32("5"), One, Float32("0.5"),
        Float32("5"), Float32("5"), Float32("10"));
      window := WindowSettings(-1, -1, 1000, 600);
      dpiScale := 100;
      neverAskOnExit := false;
      showMainMenu := true;
      canIdle := false;
      numFrames := 0;
      autoStepDelayMs := 250;
      fontSize := defaultFontSize;
      assert Doc() == DefaultDocument(defaultFontSize);
      if file.None? {
        return Finished(Doc());
      }
      var s := file.value;
      var c := 0;
      var inFrame := false;
      while Peek(s, c) != NUL
        invariant Valid() && c <= |s| && Consistent(Loading(Doc(), inFrame))
        invariant Run(s, c, Loading(Doc(), inFrame), corrected) == Load(file, defaultFontSize, corrected)
        decreases |s| - c
      {
        var st := Loading(Doc(), inFrame);
        RunOnce(s, c, st, corrected);
        var r := Step(s, c, st, corrected);
        if r.next > |s| {
          return Overruns;
        }
        if r.next == c {
          return Hangs(c);
        }
        StepChangesOneFrame(s, c, st, corrected);
        Commit(r.state.doc);
        inFrame := r.state.inFrame;
        c := r.next;
      }
      RunOnce(s, c, Loading(Doc(), inFrame), corrected);
      return Finished(Doc());
    }

    /** Save: the "[vdb]" line and the globals, then the lines of each frame in use, in order. */
    method Save(g: Float32 -> string) returns (text: string)
      requires Valid()
      ensures text == SaveText(Doc(), g)
    {
      var d := Doc();
      text := "[vdb]\n" + Terminated(GlobalLines(d, g));
      SaveTextSplit(d, g);
      var i := 0;
      while i < numFrames
        invariant i <= numFrames && d == Doc()
        invariant SaveText(d, g) == text + Terminated(AllFrameLines(d.frames[i..], g))
      {
        FramesTextStep(d.frames, i, g);
        Assoc(text, Terminated(FrameLines(frames[i], g)), Terminated(AllFrameLines(d.frames[i + 1..], g)));
        text := text + Terminated(FrameLines(frames[i], g));
        i := i + 1;
      }
    }
  }
}
