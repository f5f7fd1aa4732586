/**
 * The round trip: the loader, run over the file Save writes, reads back the settings
 * Save was given, as RoundTrip.Persisted says they come back.
 */
module SaveLoad {
  import opened Text
  import opened Numbers
  import opened Scan
  import opened Model
  import opened Loader
  import opened Saver
  import opened KeyTables
  import opened RoundTrip
  import opened Reload
  import opened Trace

  /** Outside a frame, each character of the "[vdb]" line is an iteration that only moves the cursor on by one. */
  lemma VdbCharSkipped(s: string, j: nat, st: Loading, corrected: bool)
    requires StartsWith(s, 0, "[vdb]") && j < 5 && Consistent(st) && !st.inFrame
    ensures Run(s, j, st, corrected) == Run(s, j + 1, st, corrected)
  {
    PeekInside(s, 0, "[vdb]", j);
    assert !IsBlank(s[j]);
    assert Blank(s, j) == j;
    assert StartsWith(s, j, "[vdb]"[j..]) by {
      assert s[j..j + |"[vdb]"[j..]|] == s[0..5][j..];
    }
    VdbMatchesNoKey(j);
    StepMisses(s, j, st, corrected, "[vdb]"[j..]);
    RunOnce(s, j, st, corrected);
  }

  /** Outside a frame, the loop passes over the rest of the "[vdb]" line from j on as though it started after it. */
  lemma {:induction false} VdbSkipped(s: string, j: nat, st: Loading, corrected: bool)
    requires StartsWith(s, 0, "[vdb]") && j <= 5 && Consistent(st) && !st.inFrame
    ensures RunEnd(s, j, st, corrected) == RunEnd(s, 5, st, corrected)
    decreases 5 - j
  {
    if j < 5 {
      VdbCharSkipped(s, j, st, corrected);
      VdbSkipped(s, j + 1, st, corrected);
    }
  }

  /** The text "[vdb]" + lg + lf + "\n" as laid out in lines: the header, then lg and lf each followed by a line feed. */
  lemma LaidOut(s: string, lg: string, lf: string)
    requires s == "[vdb]" + lg + lf + "\n"
    requires lf == "" || lf[0] == '\n'
    ensures StartsWith(s, 0, "[vdb]") && Laid(s, 5, lg) && Laid(s, 5 + |lg|, lf)
    ensures 5 + |lg| + |lf| < |s| && AllBlank(s[5 + |lg| + |lf|..])
  {
    assert s[0..5] == "[vdb]";
    HoldsIs(s, 5, lg + lf + "\n");
    assert s[5..5 + |lg + lf + "\n"|] == lg + lf + "\n";
    assert Laid(s, 5, lg + lf);
    LaidSplit(s, 5, lg, lf);
    assert s[5 + |lg| + |lf|..] == "\n";
  }

  /**
   * The loop over a text laid out as Save writes it, when the globals lines take it from
   * 5 to the line feed after them in st1 and the frame lines on to the final line feed
   * in st2: it ends as that final line feed makes it end.
   */
  lemma LoadLaidOut(s: string, lg: string, lf: string, st0: Loading, st1: Loading, st2: Loading, corrected: bool)
    requires StartsWith(s, 0, "[vdb]") && 5 + |lg| + |lf| < |s| && AllBlank(s[5 + |lg| + |lf|..])
    requires Consistent(st0) && !st0.inFrame && Consistent(st1)
    requires Reaches(s, 5, st0, Point(5 + |lg|, st1)) && Reaches(s, 5 + |lg|, st1, Point(5 + |lg| + |lf|, st2))
    ensures Consistent(st2)
    ensures RunEnd(s, 0, st0, corrected) == if corrected || st2.inFrame then Finished(st2.doc) else Overruns
  {
    VdbSkipped(s, 0, st0, corrected);
    ReachesRun(s, 5, st0, 5 + |lg|, st1, corrected);
    ReachesRun(s, 5 + |lg|, st1, 5 + |lg| + |lf|, st2, corrected);
    var c := 5 + |lg| + |lf|;
    if st2.inFrame {
      BlankTailInFrame(s, c, st2, corrected);
    } else {
      BlankTail(s, c, st2);
    }
  }

  /**
   * The loop over a text laid out as Save lays out the settings d: the "[vdb]" line, the
   * globals lines lg, which the loop walks over taking every global from d, the frame
   * lines and a final line feed.
   */
  lemma LoadSaved(s: string, lg: string, d: Document, g: Float32 -> string, defaultFontSize: int, corrected: bool)
    requires PrintsFloats(g) && |d.frames| <= MaxFrameSettings && ValidNames(d.frames)
    requires s == "[vdb]" + lg + FramesText(d.frames, g) + "\n"
    requires Reaches(s, 5, Initial(defaultFontSize), Point(5 + |lg|, AfterGlobals(Initial(defaultFontSize), d, g)))
    ensures Load(Some(s), defaultFontSize, corrected)
         == if corrected || d.frames != [] then Finished(Persisted(d, g)) else Overruns
  {
    var lf := FramesText(d.frames, g);
    FramesLeadingStart(d.frames, g);
    LaidOut(s, lg, lf);
    var st0 := Initial(defaultFontSize);
    var st1 := AfterGlobals(st0, d, g);
    FramesWalk(s, 5 + |lg|, st1, d.frames, g);
    var st2 := AfterFrames(st1, d.frames, g);
    LoadLaidOut(s, lg, lf, st0, st1, st2, corrected);
    assert st2.doc == Persisted(d, g);
  }

  /** The file Save writes, in lines: the "[vdb]" line, the globals lines, the frame lines and a final line feed. */
  lemma SaveLaidOut(d: Document, g: Float32 -> string)
    ensures SaveText(d, g) == "[vdb]" + Leading(GlobalLines(d, g)) + FramesText(d.frames, g) + "\n"
    ensures GlobalsLaid(SaveText(d, g), 5, d, g)
  {
    SaveTextLeading(d, g);
    AllFramesLeading(d.frames, g);
    var lg, lf := Leading(GlobalLines(d, g)), FramesText(d.frames, g);
    FramesLeadingStart(d.frames, g);
    LaidOut(SaveText(d, g), lg, lf);
    LaidIs(SaveText(d, g), 5, lg);
  }

  /**
   * Loading the file Save writes for d, where every frame has a name the header line can
   * carry and there are no more frames than the loader keeps: the settings persisted, as
   * "%g" prints the floats. The loader as written reads past the buffer on the final
   * line feed when no frame is open, that is when there are no frames.
   */
  lemma SaveThenLoad(d: Document, g: Float32 -> string, defaultFontSize: int, corrected: bool)
    requires PrintsFloats(g) && |d.frames| <= MaxFrameSettings && ValidNames(d.frames)
    ensures Load(Some(SaveText(d, g)), defaultFontSize, corrected)
         == if corrected || d.frames != [] then Finished(Persisted(d, g)) else Overruns
  {
    SaveLaidOut(d, g);
    GlobalsReach(SaveText(d, g), 5, Initial(defaultFontSize), d, g);
    LoadSaved(SaveText(d, g), Leading(GlobalLines(d, g)), d, g, defaultFontSize, corrected);
  }
}
