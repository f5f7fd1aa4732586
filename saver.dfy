/**
 * The text settings_t::Save writes: a "[vdb]" line, one line per global setting, and
 * per frame a blank line, its "[frame]=" header and the keys its camera type uses.
 * Each line is `key=value` with the keys the loader reads; printf's "%g" for floats
 * is a parameter g.
 */
module Saver {
  import opened Text
  import opened Numbers
  import Camera
  import opened Model
  import opened Loader

  /** printf("%d") of a C bool, and of the `? 1 : 0` the code writes for the grid and cube flags. */
  function FormatBool(b: bool): (r: string)
    ensures |r| == 1 && (r[0] == '1' <==> b) && (r[0] == '0' <==> !b)
  {
    if b then "1" else "0"
  }

  /**
   * The text Save writes for a value of the given kind: "%d,%d" for a pair, "%d" for a
   * flag and for an integer, "%g" (the parameter g) for a float, and the names of the
   * camera enumerations.
   */
  function Print(kind: Kind, g: Float32 -> string, v: Value): string
    requires Fits(kind, v)
  {
    match kind
    case PairKind => FormatInt(v.a) + "," + FormatInt(v.b)
    case FlagKind => FormatBool(v.on)
    case RealKind => g(v.f)
    case TruncKind(_, _) => FormatInt(v.n)
    case WholeKind(_, _) => FormatInt(v.n)
    case TypeKind => Camera.CameraTypeToStr(v.n)
    case UpKind => Camera.CameraUpToStr(v.n)
  }

  /** The value Save writes for global key k: the setting(s) the loader reads for that key, printed. */
  function GlobalValue(d: Document, g: Float32 -> string, k: nat): string
  {
    Print(GlobalKind(k), g, GetGlobal(d, k))
  }

  /** The line Save writes for global key k, without its line feed. */
  function GlobalLine(d: Document, g: Float32 -> string, k: nat): string
    requires k < |GlobalKeys|
  {
    GlobalKeys[k] + "=" + GlobalValue(d, g, k)
  }

  /** The lines of the global keys in the order Save writes them. */
  function GlobalLines(d: Document, g: Float32 -> string): (ls: seq<string>)
    ensures |ls| == |GlobalKeys|
    ensures forall k | 0 <= k < |ls| :: ls[k] == GlobalLine(d, g, k)
  {
    seq(|GlobalKeys|, k requires 0 <= k < |GlobalKeys| => GlobalLine(d, g, k))
  }

  /** The frame keys Save writes: the turntable angles and radius are never among them. */
  predicate Written(k: nat)
  {
    k == 0 || 4 <= k < |FrameKeys|
  }

  /**
   * The frame keys Save writes for f, in order: the camera fields only for an enabled
   * camera, the depth range only for a camera that is not planar, and the render
   * scales always.
   */
  function FieldKeys(f: FrameSettings): (ks: seq<nat>)
    ensures forall j | 0 <= j < |ks| :: Written(ks[j])
  {
    var t := f.cameraType;
    (if t != Camera.Disabled then
       [0] + (if t != Camera.Planar then [4, 5, 6] else []) + [7, 8, 9, 10]
     else [])
    + [11, 12]
  }

  /** The keys Save writes for f, spelled out per camera type. */
  lemma FieldKeysAre(f: FrameSettings)
    ensures FieldKeys(f) == if f.cameraType == Camera.Disabled then [11, 12]
      else if f.cameraType == Camera.Planar then [0, 7, 8, 9, 10, 11, 12]
      else [0, 4, 5, 6, 7, 8, 9, 10, 11, 12]
  {
  }

  /**
   * The keys Save writes for f end with the render scales; the camera type is written
   * exactly when the camera is enabled, the depth range exactly when it is neither
   * disabled nor planar.
   */
  lemma FieldKeysChoice(f: FrameSettings)
    ensures var ks := FieldKeys(f); 2 <= |ks| && ks[|ks| - 2..] == [11, 12]
    ensures (0 in FieldKeys(f)) <==> f.cameraType != Camera.Disabled
    ensures (4 in FieldKeys(f)) <==> f.cameraType != Camera.Disabled && f.cameraType != Camera.Planar
  {
    FieldKeysAre(f);
    var ks := FieldKeys(f);
    if f.cameraType == Camera.Disabled {
      assert ks[|ks| - 2..] == [11, 12];
    } else if f.cameraType == Camera.Planar {
      assert ks[0] == 0 && ks[|ks| - 2..] == [11, 12];
    } else {
      assert ks[0] == 0 && ks[1] == 4 && ks[|ks| - 2..] == [11, 12];
    }
  }

  /** The value Save writes for frame key k of the frame f: the field the loader reads for that key, printed. */
  function FieldValue(f: FrameSettings, g: Float32 -> string, k: nat): string
  {
    Print(FrameKind(k), g, GetField(f, k))
  }

  /** The line Save writes for frame key k of the frame f, without its line feed. */
  function FieldLine(f: FrameSettings, g: Float32 -> string, k: nat): string
    requires Written(k)
  {
    FrameKeys[k] + "=" + FieldValue(f, g, k)
  }

  /** The lines of the frame keys ks of the frame f. */
  function FieldLines(f: FrameSettings, g: Float32 -> string, ks: seq<nat>): (ls: seq<string>)
    requires forall j | 0 <= j < |ks| :: Written(ks[j])
    ensures |ls| == |ks|
  {
    if ks == [] then [] else [FieldLine(f, g, ks[0])] + FieldLines(f, g, ks[1..])
  }

  /** A frame's header: an empty line, then "[frame]=" and the frame's name. */
  function HeaderLine(f: FrameSettings): string
  {
    "\n" + HeaderKey + "=" + f.name
  }

  /** The lines Save writes for one frame. */
  function FrameLines(f: FrameSettings, g: Float32 -> string): seq<string>
  {
    [HeaderLine(f)] + FieldLines(f, g, FieldKeys(f))
  }

  /** The lines Save writes for the frames, in order. */
  function AllFrameLines(frames: seq<FrameSettings>, g: Float32 -> string): seq<string>
  {
    if frames == [] then [] else FrameLines(frames[0], g) + AllFrameLines(frames[1..], g)
  }

  /** Lines each followed by a line feed. */
  function Terminated(ls: seq<string>): string
  {
    if ls == [] then "" else ls[0] + "\n" + Terminated(ls[1..])
  }

  /** Lines each preceded by a line feed: the view of the file the loader's proofs walk through. */
  function Leading(ls: seq<string>): string
  {
    if ls == [] then "" else "\n" + ls[0] + Leading(ls[1..])
  }

  /** The file Save writes for the settings d. */
  function SaveText(d: Document, g: Float32 -> string): string
  {
    "[vdb]\n" + Terminated(GlobalLines(d, g) + AllFrameLines(d.frames, g))
  }

  // ---------------------------------------------------------------------------
  // How the file splits into lines.

  lemma {:induction false} TerminatedAppend(a: seq<string>, b: seq<string>)
    ensures Terminated(a + b) == Terminated(a) + Terminated(b)
    decreases |a|
  {
    if a == [] {
      assert a + b == b;
    } else {
      assert (a + b)[1..] == a[1..] + b;
      TerminatedAppend(a[1..], b);
    }
  }

  lemma {:induction false} LeadingAppend(a: seq<string>, b: seq<string>)
    ensures Leading(a + b) == Leading(a) + Leading(b)
    decreases |a|
  {
    if a == [] {
      assert a + b == b;
    } else {
      assert (a + b)[1..] == a[1..] + b;
      LeadingAppend(a[1..], b);
    }
  }

  /** Moving each line feed from after its line to before it: the text is the same but for the first and the last. */
  lemma {:induction false} TerminatedIsLeading(ls: seq<string>)
    ensures "\n" + Terminated(ls) == Leading(ls) + "\n"
    decreases |ls|
  {
    if ls != [] {
      TerminatedIsLeading(ls[1..]);
      calc {
        "\n" + Terminated(ls);
        "\n" + ls[0] + ("\n" + Terminated(ls[1..]));
        "\n" + ls[0] + (Leading(ls[1..]) + "\n");
        Leading(ls) + "\n";
      }
    }
  }

  /** The file Save writes, as the loader's proofs walk through it. */
  lemma SaveTextLeading(d: Document, g: Float32 -> string)
    ensures SaveText(d, g) == "[vdb]" + Leading(GlobalLines(d, g)) + Leading(AllFrameLines(d.frames, g)) + "\n"
  {
    var a, b := GlobalLines(d, g), AllFrameLines(d.frames, g);
    TerminatedIsLeading(a + b);
    LeadingAppend(a, b);
    Regroup(Terminated(a + b), Leading(a), Leading(b));
  }

  lemma Regroup(t: string, a: string, b: string)
    requires "\n" + t == a + b + "\n"
    ensures "[vdb]\n" + t == "[vdb]" + a + b + "\n"
  {
    calc {
      "[vdb]\n" + t;
      "[vdb]" + ("\n" + t);
      "[vdb]" + (a + b + "\n");
      "[vdb]" + a + b + "\n";
    }
  }

  /** The file Save writes starts with the "[vdb]" line and ends with a line feed. */
  lemma SaveTextShape(d: Document, g: Float32 -> string)
    ensures var t := SaveText(d, g); 6 < |t| && t[..6] == "[vdb]\n" && t[|t| - 1] == '\n'
  {
    SaveTextLeading(d, g);
  }
}
