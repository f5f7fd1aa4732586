/**
 * The loader's loop over the file Save writes. After the "[vdb]" line, each line of
 * Save's output is one iteration of the loop, from the line feed before it to the line
 * feed after it; the states the loop passes through are stated per line, so that each
 * iteration is proved on its own and the loop is then run through all of them.
 */
module Trace {
  import opened Text
  import opened Numbers
  import opened Scan
  import opened Model
  import opened Loader
  import opened Saver
  import opened KeyTables
  import opened RoundTrip
  import opened Reload

  // ---------------------------------------------------------------------------
  // Iterations in a row.

  /** The point a walk from c in the state st ends at. */
  function EndOf(c: nat, st: Loading, ps: seq<Point>): Point
  {
    if ps == [] then Point(c, st) else ps[|ps| - 1]
  }

  /** A walk, then a walk from where it ends. */
  lemma {:induction false} WalkAppend(s: string, c: nat, st: Loading, a: seq<Point>, b: seq<Point>)
    requires Walk(s, c, st, a) && Walk(s, EndOf(c, st, a).at, EndOf(c, st, a).state, b)
    ensures Walk(s, c, st, a + b) && EndOf(c, st, a + b) == EndOf(EndOf(c, st, a).at, EndOf(c, st, a).state, b)
    decreases |a|
  {
    if a == [] {
      assert a + b == b;
    } else {
      assert StepsTo(s, c, st, a);
      var ab := a + b;
      assert ab[0] == a[0] && ab[1..] == a[1..] + b;
      WalkAppend(s, a[0].at, a[0].state, a[1..], b);
      assert StepsTo(s, c, st, ab);
      if b != [] {
        assert ab[|ab| - 1] == b[|b| - 1];
      } else {
        assert ab == a;
      }
    }
  }

  /** A walk is the loop's own run: the loop from its start goes on as from its end. */
  lemma {:induction false} WalkRun(s: string, c: nat, st: Loading, ps: seq<Point>, corrected: bool)
    requires c <= |s| && Consistent(st) && Walk(s, c, st, ps)
    ensures EndOf(c, st, ps).at <= |s| && Consistent(EndOf(c, st, ps).state)
    ensures Run(s, c, st, corrected) == Run(s, EndOf(c, st, ps).at, EndOf(c, st, ps).state, corrected)
    decreases |ps|
  {
    if ps != [] {
      assert StepsTo(s, c, st, ps);
      RunMatched(s, c, st, corrected, ps[0].state, ps[0].at);
      WalkRun(s, ps[0].at, ps[0].state, ps[1..], corrected);
      if |ps| > 1 {
        assert ps[1..][|ps| - 2] == ps[|ps| - 1];
      }
    }
  }

  /**
   * How the loop started at c in st ends: Run itself, named apart so that lemmas that
   * chain outcomes state them without unfolding the loop.
   */
  function RunEnd(s: string, c: nat, st: Loading, corrected: bool): Outcome
    requires c <= |s| && Consistent(st)
  {
    Run(s, c, st, corrected)
  }

  /** From c in the state st, some walk ends at e. */
  ghost predicate Reaches(s: string, c: nat, st: Loading, e: Point)
  {
    exists ps :: Walk(s, c, st, ps) && EndOf(c, st, ps) == e
  }

  /** A walk reaches where it ends. */
  lemma WalkReaches(s: string, c: nat, st: Loading, ps: seq<Point>)
    requires Walk(s, c, st, ps)
    ensures Reaches(s, c, st, EndOf(c, st, ps))
  {
  }

  /** Reaching a point, then another from there, reaches the second. */
  lemma ReachesJoin(s: string, c: nat, st: Loading, m: Point, e: Point)
    requires Reaches(s, c, st, m) && Reaches(s, m.at, m.state, e)
    ensures Reaches(s, c, st, e)
  {
    var ps :| Walk(s, c, st, ps) && EndOf(c, st, ps) == m;
    var qs :| Walk(s, m.at, m.state, qs) && EndOf(m.at, m.state, qs) == e;
    WalkAppend(s, c, st, ps, qs);
    assert Walk(s, c, st, ps + qs);
  }

  /** The loop from c goes on as from any point it reaches. */
  lemma ReachesRun(s: string, c: nat, st: Loading, n: nat, st': Loading, corrected: bool)
    requires c <= |s| && Consistent(st) && Reaches(s, c, st, Point(n, st'))
    ensures n <= |s| && Consistent(st')
    ensures RunEnd(s, c, st, corrected) == RunEnd(s, n, st', corrected)
  {
    var ps :| Walk(s, c, st, ps) && EndOf(c, st, ps) == Point(n, st');
    WalkRun(s, c, st, ps, corrected);
  }

  // ---------------------------------------------------------------------------
  // Lines in a row.

  /** Where the line feed before line j of ls is, when the lines are laid out from c, each after a line feed. */
  function At(c: nat, ls: seq<string>, j: nat): nat
    requires j <= |ls|
  {
    c + |Leading(ls[..j])|
  }

  /** The lines up to j, and then line j. */
  lemma {:induction false} LeadingSnoc(ls: seq<string>, j: nat)
    requires j < |ls|
    ensures Leading(ls[..j + 1]) == Leading(ls[..j]) + ("\n" + ls[j])
  {
    assert ls[..j + 1] == ls[..j] + [ls[j]];
    LeadingAppend(ls[..j], [ls[j]]);
    assert Leading([ls[j]]) == "\n" + ls[j] + Leading([]);
  }

  /** Lines laid out from c and followed by a line feed: line j lies between two line feeds. */
  lemma {:induction false} LineAt(s: string, c: nat, ls: seq<string>, j: nat)
    requires j < |ls| && StartsWith(s, c, Leading(ls)) && Peek(s, c + |Leading(ls)|) == '\n'
    ensures At(c, ls, j + 1) == At(c, ls, j) + 1 + |ls[j]|
    ensures StartsWith(s, At(c, ls, j), "\n" + ls[j]) && Peek(s, At(c, ls, j + 1)) == '\n'
  {
    var before, rest := ls[..j], ls[j + 1..];
    LeadingSnoc(ls, j);
    assert ls[..j + 1] + rest == ls;
    LeadingAppend(ls[..j + 1], rest);
    StartsWithSplit(s, c, Leading(ls[..j + 1]), Leading(rest));
    StartsWithSplit(s, c, Leading(before), "\n" + ls[j]);
    if rest != [] {
      PeekInside(s, At(c, ls, j + 1), Leading(rest), 0);
    } else {
      assert ls[..j + 1] == ls;
    }
  }

  /** The points the loop passes through, one per line, when line j leaves it in the state sts[j + 1]. */
  function LinePoints(c: nat, ls: seq<string>, sts: seq<Loading>): (ps: seq<Point>)
    requires |sts| == |ls| + 1
    ensures |ps| == |ls|
    ensures forall j | 0 <= j < |ls| :: ps[j] == Point(At(c, ls, j + 1), sts[j + 1])
  {
    seq(|ls|, j requires 0 <= j < |ls| => Point(At(c, ls, j + 1), sts[j + 1]))
  }

  /**
   * The loop through lines: when the iteration at the line feed before each line j
   * runs a branch that leaves the cursor at the next line feed in the state sts[j + 1],
   * the loop walks from the line feed before line m through the points of the lines
   * from m on.
   */
  lemma {:induction false} LinesWalk(s: string, c: nat, ls: seq<string>, sts: seq<Loading>, m: nat)
    requires |sts| == |ls| + 1 && m <= |ls|
    requires forall j | 0 <= j < |ls| :: Walk(s, At(c, ls, j), sts[j], [Point(At(c, ls, j + 1), sts[j + 1])])
    ensures Walk(s, At(c, ls, m), sts[m], LinePoints(c, ls, sts)[m..])
    decreases |ls| - m
  {
    var ps := LinePoints(c, ls, sts)[m..];
    if m == |ls| {
      assert ps == [];
    } else {
      LinesWalk(s, c, ls, sts, m + 1);
      assert ps[0] == Point(At(c, ls, m + 1), sts[m + 1]) && ps[1..] == LinePoints(c, ls, sts)[m + 1..];
      OneStepMoves(s, At(c, ls, m), sts[m], At(c, ls, m + 1), sts[m + 1]);
      assert StepsTo(s, At(c, ls, m), sts[m], ps);
    }
  }

  /** The walk through lines laid out from c ends after them, in the last state. */
  lemma {:induction false} LinesEnd(c: nat, ls: seq<string>, sts: seq<Loading>)
    requires |sts| == |ls| + 1
    ensures EndOf(c, sts[0], LinePoints(c, ls, sts)) == Point(c + |Leading(ls)|, sts[|ls|])
  {
    assert ls[..|ls|] == ls;
    if ls == [] {
      assert LinePoints(c, ls, sts) == [];
    }
  }

  // ---------------------------------------------------------------------------
  // The global lines.

  /** The states after each number of global lines: the settings of the keys read so far taken from p. */
  function GlobalStates(st: Loading, p: Document): (sts: seq<Loading>)
    ensures |sts| == |GlobalKeys| + 1
    ensures forall j | 0 <= j < |sts| :: sts[j] == st.(doc := OverlayGlobals(st.doc, p, j))
  {
    seq(|GlobalKeys| + 1, j requires 0 <= j => st.(doc := OverlayGlobals(st.doc, p, j)))
  }

  /** A line "key=v" between two line feeds: where its key, its value (at q) and the next line feed are. */
  lemma {:induction false} LineLaid(s: string, a: nat, n: nat, q: nat, key: string, v: string)
    requires StartsWith(s, a, "\n" + (key + "=" + v)) && n == a + 1 + |key + "=" + v| && Peek(s, n) == '\n'
    requires q == a + 2 + |key|
    ensures StartsWith(s, a, "\n" + key + "=") && StartsWith(s, q, v)
    ensures n == q + |v| && Peek(s, q + |v|) == '\n'
  {
    LineSplit(s, a, key, v);
  }

  /** A line feed, global key k and '=' at a: the iteration at a selects key k, its value at q, just past the '='. */
  lemma GlobalKeyAt(s: string, a: nat, k: nat, q: nat)
    requires k < |GlobalKeys| && q == a + 2 + |GlobalKeys[k]| && StartsWith(s, a, "\n" + GlobalKeys[k] + "=")
    ensures a <= |s| && Peek(s, a) == '\n' && FirstKey(s, a, GlobalKeys, 0) == KeyMatch(k, q)
  {
    GlobalKeySelected(s, a, k);
    LineFeedFirst(s, a, GlobalKeys[k]);
  }

  /** The line of global key k, its value at q and followed by a line feed, is one iteration that stores its setting(s) as Persisted has them. */
  lemma {:induction false} GlobalLineStep(s: string, a: nat, st: Loading, d: Document, g: Float32 -> string, k: nat, q: nat)
    requires PrintsFloats(g) && Consistent(st) && k < |GlobalKeys| && q == a + 2 + |GlobalKeys[k]|
    requires StartsWith(s, a, "\n" + GlobalKeys[k] + "=") && StartsWith(s, q, GlobalValue(d, g, k))
    requires Peek(s, q + |GlobalValue(d, g, k)|) == '\n'
    ensures Walk(s, a, st, [Point(q + |GlobalValue(d, g, k)|, Apply(st, SetGlobal(k, Persisted(d, g))))])
  {
    GlobalKeyAt(s, a, k, q);
    GlobalValueStep(s, a, st, d, g, k, q);
  }

  /** The line of global key k between two line feeds is one iteration that stores its setting(s) as Persisted has them. */
  lemma {:induction false} GlobalLineMoves(s: string, a: nat, n: nat, st: Loading, st': Loading, d: Document, g: Float32 -> string, k: nat, l: string)
    requires PrintsFloats(g) && Consistent(st) && k < |GlobalKeys| && l == GlobalLine(d, g, k)
    requires StartsWith(s, a, "\n" + l) && n == a + 1 + |l| && Peek(s, n) == '\n'
    requires st' == Apply(st, SetGlobal(k, Persisted(d, g)))
    ensures Walk(s, a, st, [Point(n, st')])
  {
    var q := a + 2 + |GlobalKeys[k]|;
    LineLaid(s, a, n, q, GlobalKeys[k], GlobalValue(d, g, k));
    GlobalLineStep(s, a, st, d, g, k, q);
  }

  /** Global line j takes one more setting from p. */
  lemma {:induction false} GlobalStatesStep(st: Loading, p: Document, j: nat)
    requires Consistent(st) && j < |GlobalKeys|
    ensures Consistent(GlobalStates(st, p)[j])
    ensures GlobalStates(st, p)[j + 1] == Apply(GlobalStates(st, p)[j], SetGlobal(j, p))
  {
    OverlayGlobalsStep(st.doc, p, j);
  }

  /** Global line j of the text Save writes is one iteration of the loop. */
  lemma {:induction false} GlobalStepAt(s: string, c: nat, st: Loading, d: Document, g: Float32 -> string, j: nat)
    requires PrintsFloats(g) && Consistent(st) && j < |GlobalKeys|
    requires StartsWith(s, c, Leading(GlobalLines(d, g))) && Peek(s, c + |Leading(GlobalLines(d, g))|) == '\n'
    ensures Walk(s, At(c, GlobalLines(d, g), j), GlobalStates(st, Persisted(d, g))[j],
                 [Point(At(c, GlobalLines(d, g), j + 1), GlobalStates(st, Persisted(d, g))[j + 1])])
  {
    var ls, sts := GlobalLines(d, g), GlobalStates(st, Persisted(d, g));
    LineAt(s, c, ls, j);
    GlobalStatesStep(st, Persisted(d, g), j);
    GlobalLineMoves(s, At(c, ls, j), At(c, ls, j + 1), sts[j], sts[j + 1], d, g, j, ls[j]);
  }

  /** Every global line of the text Save writes is one iteration of the loop. */
  lemma {:induction false} GlobalSteps(s: string, c: nat, st: Loading, d: Document, g: Float32 -> string)
    requires PrintsFloats(g) && Consistent(st)
    requires StartsWith(s, c, Leading(GlobalLines(d, g))) && Peek(s, c + |Leading(GlobalLines(d, g))|) == '\n'
    ensures forall j | 0 <= j < |GlobalKeys| ::
      Walk(s, At(c, GlobalLines(d, g), j), GlobalStates(st, Persisted(d, g))[j],
           [Point(At(c, GlobalLines(d, g), j + 1), GlobalStates(st, Persisted(d, g))[j + 1])])
  {
    forall j | 0 <= j < |GlobalKeys|
      ensures Walk(s, At(c, GlobalLines(d, g), j), GlobalStates(st, Persisted(d, g))[j],
                   [Point(At(c, GlobalLines(d, g), j + 1), GlobalStates(st, Persisted(d, g))[j + 1])])
    {
      GlobalStepAt(s, c, st, d, g, j);
    }
  }

  /** Before the global lines the loop is in st; after them it holds every global setting of p. */
  lemma {:induction false} GlobalStatesEnds(st: Loading, p: Document)
    ensures GlobalStates(st, p)[0] == st
    ensures GlobalStates(st, p)[|GlobalKeys|] == st.(doc := p.(frames := st.doc.frames))
  {
    OverlayGlobalsEnds(st.doc, p);
  }

  /** The state after the globals lines: each global as Save wrote it, the frames untouched. */
  function AfterGlobals(st: Loading, d: Document, g: Float32 -> string): Loading
  {
    st.(doc := Persisted(d, g).(frames := st.doc.frames))
  }

  /**
   * The loop through the global lines Save writes, from the line feed at c: one
   * iteration per line, ending after them with every global setting as Persisted has it.
   */
  lemma {:induction false} GlobalsWalk(s: string, c: nat, st: Loading, d: Document, g: Float32 -> string)
    requires PrintsFloats(g) && Consistent(st)
    requires StartsWith(s, c, Leading(GlobalLines(d, g))) && Peek(s, c + |Leading(GlobalLines(d, g))|) == '\n'
    ensures Walk(s, c, st, LinePoints(c, GlobalLines(d, g), GlobalStates(st, Persisted(d, g))))
    ensures EndOf(c, st, LinePoints(c, GlobalLines(d, g), GlobalStates(st, Persisted(d, g))))
         == Point(c + |Leading(GlobalLines(d, g))|, AfterGlobals(st, d, g))
  {
    var ls, sts := GlobalLines(d, g), GlobalStates(st, Persisted(d, g));
    GlobalSteps(s, c, st, d, g);
    GlobalStatesEnds(st, Persisted(d, g));
    LinesWalk(s, c, ls, sts, 0);
    assert ls[..0] == [];
    assert LinePoints(c, ls, sts)[0..] == LinePoints(c, ls, sts);
    LinesEnd(c, ls, sts);
  }

  // ---------------------------------------------------------------------------
  // The lines of one frame.

  /** Inside a frame, the line of frame key k, followed by a line feed, is one iteration that sets that field as the persisted frame has it. */
  lemma {:induction false} FieldLineStep(s: string, a: nat, st: Loading, f: FrameSettings, g: Float32 -> string, k: nat)
    requires PrintsFloats(g) && Consistent(st) && st.inFrame && k < |FrameKeys| && Writes(f, k)
    requires StartsWith(s, a, "\n" + FrameKeys[k] + "=") && StartsWith(s, a + 2 + |FrameKeys[k]|, FieldValue(f, g, k))
    requires Peek(s, a + 2 + |FrameKeys[k]| + |FieldValue(f, g, k)|) == '\n'
    ensures Walk(s, a, st, [Point(a + 2 + |FrameKeys[k]| + |FieldValue(f, g, k)|, Apply(st, SetField(k, PersistedFrame(f, g))))])
  {
    FrameKeySelected(s, a, k);
    LineFeedFirst(s, a, FrameKeys[k]);
    FieldValueStep(s, a, st, f, g, k, a + 2 + |FrameKeys[k]|);
  }

  /** Inside a frame, the line of frame key k between two line feeds is one iteration that sets that field as the persisted frame has it. */
  lemma {:induction false} FieldLineMoves(s: string, a: nat, n: nat, st: Loading, st': Loading, f: FrameSettings, g: Float32 -> string, k: nat)
    requires PrintsFloats(g) && Consistent(st) && st.inFrame && k < |FrameKeys| && Writes(f, k)
    requires StartsWith(s, a, "\n" + FieldLine(f, g, k)) && n == a + 1 + |FieldLine(f, g, k)| && Peek(s, n) == '\n'
    requires st' == Apply(st, SetField(k, PersistedFrame(f, g)))
    ensures Walk(s, a, st, [Point(n, st')])
  {
    LineLaid(s, a, n, a + 2 + |FrameKeys[k]|, FrameKeys[k], FieldValue(f, g, k));
    FieldLineStep(s, a, st, f, g, k);
  }

  /** Below capacity, a frame's header line between two line feeds is one iteration that opens a fresh frame of that name. */
  lemma {:induction false} HeaderStep(s: string, a: nat, n: nat, st: Loading, st': Loading, f: FrameSettings)
    requires Consistent(st) && |st.doc.frames| < MaxFrameSettings && ValidName(f.name)
    requires StartsWith(s, a, "\n" + HeaderLine(f)) && n == a + 1 + |HeaderLine(f)| && Peek(s, n) == '\n'
    requires st' == Apply(st, OpenFrame(f.name))
    ensures Walk(s, a, st, [Point(n, st')])
  {
    assert "\n" + HeaderLine(f) == ("\n\n" + HeaderKey + "=") + f.name;
    StartsWithSplit(s, a, "\n\n" + HeaderKey + "=", f.name);
    HeaderLineMoves(s, a, st, f.name);
    OneStep(s, a, st, a + 3 + |HeaderKey| + |f.name|, Apply(st, OpenFrame(f.name)));
  }

  /** x with the fields of the keys ks taken from p, one key after the other. */
  function Fill(x: FrameSettings, p: FrameSettings, ks: seq<nat>): FrameSettings
    decreases |ks|
  {
    if ks == [] then x else Fill(PutField(x, ks[0], GetField(p, ks[0])), p, ks[1..])
  }

  /** Taking one more key's field from p. */
  lemma {:induction false} FillSnoc(x: FrameSettings, p: FrameSettings, ks: seq<nat>, k: nat)
    ensures Fill(x, p, ks + [k]) == PutField(Fill(x, p, ks), k, GetField(p, k))
    decreases |ks|
  {
    if ks == [] {
      assert [] + [k] == [k];
      assert [k][1..] == [];
    } else {
      assert (ks + [k])[0] == ks[0] && (ks + [k])[1..] == ks[1..] + [k];
      FillSnoc(PutField(x, ks[0], GetField(p, ks[0])), p, ks[1..], k);
    }
  }

  /** Every key in WritesFrom(f, k) is one Save writes for f. */
  lemma {:induction false} WritesFromWrites(f: FrameSettings, k: nat)
    requires k <= |FrameKeys|
    ensures forall i | 0 <= i < |WritesFrom(f, k)| :: Writes(f, WritesFrom(f, k)[i])
    decreases |FrameKeys| - k
  {
    if k < |FrameKeys| {
      WritesFromWrites(f, k + 1);
      var ks, rest := WritesFrom(f, k), WritesFrom(f, k + 1);
      if Writes(f, k) {
        assert ks == [k] + rest;
        forall i | 0 < i < |ks|
          ensures Writes(f, ks[i])
        {
          assert ks[i] == rest[i - 1];
        }
      } else {
        assert ks == rest;
      }
    }
  }

  /** Taking, from the frame with the keys before k taken, the keys from k on that Save writes gives the persisted frame. */
  lemma {:induction false} FillOverlay(f: FrameSettings, g: Float32 -> string, k: nat)
    requires k <= |FrameKeys|
    ensures var x, p := DefaultFrameSettings(f.name), PersistedFrame(f, g);
      Fill(OverlayFrame(x, p, k), p, WritesFrom(f, k)) == p
    decreases |FrameKeys| - k
  {
    var x, p := DefaultFrameSettings(f.name), PersistedFrame(f, g);
    if k == |FrameKeys| {
      OverlayFrameEnds(f, g);
    } else {
      FillOverlay(f, g, k + 1);
      var ks, rest := WritesFrom(f, k), WritesFrom(f, k + 1);
      if Writes(f, k) {
        assert ks == [k] + rest;
        assert ks[0] == k && ks[1..] == rest;
        OverlayFrameStep(x, p, k);
      } else {
        assert ks == rest;
        OverlayFrameSkips(f, g, k);
      }
    }
  }

  /** Line i of the field lines is the line of key ks[i]. */
  lemma {:induction false} FieldLinesAt(f: FrameSettings, g: Float32 -> string, ks: seq<nat>, i: nat)
    requires (forall j | 0 <= j < |ks| :: Written(ks[j])) && i < |ks|
    ensures FieldLines(f, g, ks)[i] == FieldLine(f, g, ks[i])
    decreases i
  {
    if i > 0 {
      assert ks[1..][i - 1] == ks[i];
      FieldLinesAt(f, g, ks[1..], i - 1);
    }
  }

  /** The keys Save writes for f, as the recursive WritesFrom lists them. */
  function Keys(f: FrameSettings): (ks: seq<nat>)
    ensures forall j | 0 <= j < |ks| :: Written(ks[j])
  {
    WritesFrom(f, 0)
  }

  /** The lines Save writes for the frame f, with its keys as Keys lists them. */
  function LinesOf(f: FrameSettings, g: Float32 -> string): (ls: seq<string>)
    ensures |ls| == |Keys(f)| + 1
  {
    [HeaderLine(f)] + FieldLines(f, g, Keys(f))
  }

  /** LinesOf(f, g) are the lines Save writes for f. */
  lemma {:induction false} FrameLinesOf(f: FrameSettings, g: Float32 -> string)
    ensures FrameLines(f, g) == LinesOf(f, g)
  {
    FieldKeysWrites(f);
  }

  /**
   * The states after each number of a frame's lines: after the header a fresh frame x
   * is open, and after i field lines it has the fields of the first i keys of ks taken
   * from p.
   */
  function FrameStates(st: Loading, x: FrameSettings, p: FrameSettings, ks: seq<nat>): (sts: seq<Loading>)
    ensures |sts| == |ks| + 2 && sts[0] == st
    ensures forall i | 0 <= i <= |ks| :: sts[i + 1] == Loading(st.doc.(frames := st.doc.frames + [Fill(x, p, ks[..i])]), true)
  {
    [st] + seq(|ks| + 1, i requires 0 <= i <= |ks| => Loading(st.doc.(frames := st.doc.frames + [Fill(x, p, ks[..i])]), true))
  }

  /** Replacing the last of the frames fs + [x] by y. */
  lemma {:induction false} SetLastAppend(d: Document, fs: seq<FrameSettings>, x: FrameSettings, y: FrameSettings)
    ensures SetLast(d.(frames := fs + [x]), y) == d.(frames := fs + [y])
  {
    assert (fs + [x])[|fs| := y] == fs + [y];
  }

  /** The header line opens the frame FrameStates holds after it. */
  lemma {:induction false} FrameStatesHead(st: Loading, name: string, p: FrameSettings, ks: seq<nat>)
    requires |st.doc.frames| < MaxFrameSettings
    ensures FrameStates(st, DefaultFrameSettings(name), p, ks)[1] == Apply(st, OpenFrame(name))
  {
    assert ks[..0] == [];
  }

  /** Field line i sets the field FrameStates holds after it. */
  lemma {:induction false} FrameStatesField(st: Loading, x: FrameSettings, p: FrameSettings, ks: seq<nat>, j: nat)
    requires Consistent(st) && |st.doc.frames| < MaxFrameSettings && 0 < j <= |ks|
    ensures Consistent(FrameStates(st, x, p, ks)[j]) && FrameStates(st, x, p, ks)[j].inFrame
    ensures FrameStates(st, x, p, ks)[j + 1] == Apply(FrameStates(st, x, p, ks)[j], SetField(ks[j - 1], p))
  {
    assert ks[..j] == ks[..j - 1] + [ks[j - 1]];
    FillSnoc(x, p, ks[..j - 1], ks[j - 1]);
    ApplyField(st.doc, st.doc.frames, Fill(x, p, ks[..j - 1]), ks[j - 1], p);
  }

  /** Setting field k of the last frame y from p. */
  lemma {:induction false} ApplyField(d: Document, fs: seq<FrameSettings>, y: FrameSettings, k: nat, p: FrameSettings)
    ensures Apply(Loading(d.(frames := fs + [y]), true), SetField(k, p)) == Loading(d.(frames := fs + [PutField(y, k, GetField(p, k))]), true)
  {
    SetLastAppend(d, fs, y, PutField(y, k, GetField(p, k)));
  }

  /** Once every line of f is read, its frame is the persisted frame. */
  lemma {:induction false} FrameStatesEnd(st: Loading, f: FrameSettings, g: Float32 -> string)
    ensures FrameStates(st, DefaultFrameSettings(f.name), PersistedFrame(f, g), Keys(f))[|Keys(f)| + 1]
      == Loading(st.doc.(frames := st.doc.frames + [PersistedFrame(f, g)]), true)
  {
    var ks := Keys(f);
    assert ks[..|ks|] == ks;
    FillOverlay(f, g, 0);
    OverlayFrameEnds(f, g);
  }

  /** Save writes every key Keys(f) lists for f. */
  lemma {:induction false} KeysWrite(f: FrameSettings, i: nat)
    requires i < |Keys(f)|
    ensures Writes(f, Keys(f)[i])
  {
    WritesFromWrites(f, 0);
  }

  /** The lines of a frame: its header, then the line of each key Save writes for it. */
  lemma {:induction false} LinesOfAt(f: FrameSettings, g: Float32 -> string, j: nat)
    requires 0 < j <= |Keys(f)|
    ensures LinesOf(f, g)[0] == HeaderLine(f) && LinesOf(f, g)[j] == FieldLine(f, g, Keys(f)[j - 1])
  {
    FieldLinesAt(f, g, Keys(f), j - 1);
  }

  /** The states through the lines of the frame f, from st. */
  function StatesOf(st: Loading, f: FrameSettings, g: Float32 -> string): (sts: seq<Loading>)
    ensures |sts| == |LinesOf(f, g)| + 1
  {
    FrameStates(st, DefaultFrameSettings(f.name), PersistedFrame(f, g), Keys(f))
  }

  /** The header line of the text Save writes for f is one iteration of the loop. */
  lemma {:induction false} HeaderAt(s: string, c: nat, st: Loading, f: FrameSettings, g: Float32 -> string)
    requires Consistent(st) && |st.doc.frames| < MaxFrameSettings && ValidName(f.name)
    requires StartsWith(s, c, Leading(LinesOf(f, g))) && Peek(s, c + |Leading(LinesOf(f, g))|) == '\n'
    ensures Walk(s, At(c, LinesOf(f, g), 0), StatesOf(st, f, g)[0], [Point(At(c, LinesOf(f, g), 1), StatesOf(st, f, g)[1])])
  {
    var ls, sts := LinesOf(f, g), StatesOf(st, f, g);
    LineAt(s, c, ls, 0);
    assert ls[0] == HeaderLine(f);
    FrameStatesHead(st, f.name, PersistedFrame(f, g), Keys(f));
    HeaderStep(s, At(c, ls, 0), At(c, ls, 1), st, sts[1], f);
  }

  /** Line j > 0 of the text Save writes for f, a field line, is one iteration of the loop. */
  lemma {:induction false} FieldAt(s: string, c: nat, st: Loading, f: FrameSettings, g: Float32 -> string, j: nat)
    requires PrintsFloats(g) && Consistent(st) && |st.doc.frames| < MaxFrameSettings && 0 < j < |LinesOf(f, g)|
    requires StartsWith(s, c, Leading(LinesOf(f, g))) && Peek(s, c + |Leading(LinesOf(f, g))|) == '\n'
    ensures Walk(s, At(c, LinesOf(f, g), j), StatesOf(st, f, g)[j], [Point(At(c, LinesOf(f, g), j + 1), StatesOf(st, f, g)[j + 1])])
  {
    var ls, sts, ks := LinesOf(f, g), StatesOf(st, f, g), Keys(f);
    LineAt(s, c, ls, j);
    LinesOfAt(f, g, j);
    KeysWrite(f, j - 1);
    FrameStatesField(st, DefaultFrameSettings(f.name), PersistedFrame(f, g), ks, j);
    FieldLineMoves(s, At(c, ls, j), At(c, ls, j + 1), sts[j], sts[j + 1], f, g, ks[j - 1]);
  }

  /** Every line of the text Save writes for f is one iteration of the loop. */
  lemma {:induction false} FrameSteps(s: string, c: nat, st: Loading, f: FrameSettings, g: Float32 -> string)
    requires PrintsFloats(g) && Consistent(st) && |st.doc.frames| < MaxFrameSettings && ValidName(f.name)
    requires StartsWith(s, c, Leading(LinesOf(f, g))) && Peek(s, c + |Leading(LinesOf(f, g))|) == '\n'
    ensures forall j | 0 <= j < |LinesOf(f, g)| ::
      Walk(s, At(c, LinesOf(f, g), j), StatesOf(st, f, g)[j], [Point(At(c, LinesOf(f, g), j + 1), StatesOf(st, f, g)[j + 1])])
  {
    forall j | 0 <= j < |LinesOf(f, g)|
      ensures Walk(s, At(c, LinesOf(f, g), j), StatesOf(st, f, g)[j], [Point(At(c, LinesOf(f, g), j + 1), StatesOf(st, f, g)[j + 1])])
    {
      if j == 0 {
        HeaderAt(s, c, st, f, g);
      } else {
        FieldAt(s, c, st, f, g, j);
      }
    }
  }

  /** The state after the lines of the frame f. */
  function AfterFrame(st: Loading, f: FrameSettings, g: Float32 -> string): Loading
  {
    Loading(st.doc.(frames := st.doc.frames + [PersistedFrame(f, g)]), true)
  }

  /**
   * The loop through the lines Save writes for the frame f, from the line feed at c: one
   * iteration per line, ending after them with the persisted frame appended and open.
   */
  lemma {:induction false} FrameWalk(s: string, c: nat, st: Loading, f: FrameSettings, g: Float32 -> string)
    requires PrintsFloats(g) && Consistent(st) && |st.doc.frames| < MaxFrameSettings && ValidName(f.name)
    requires StartsWith(s, c, Leading(LinesOf(f, g))) && Peek(s, c + |Leading(LinesOf(f, g))|) == '\n'
    ensures Walk(s, c, st, LinePoints(c, LinesOf(f, g), StatesOf(st, f, g)))
    ensures EndOf(c, st, LinePoints(c, LinesOf(f, g), StatesOf(st, f, g)))
         == Point(c + |Leading(LinesOf(f, g))|, AfterFrame(st, f, g))
  {
    var ls, sts := LinesOf(f, g), StatesOf(st, f, g);
    FrameSteps(s, c, st, f, g);
    FrameStatesEnd(st, f, g);
    LinesWalk(s, c, ls, sts, 0);
    assert ls[..0] == [];
    assert LinePoints(c, ls, sts)[0..] == LinePoints(c, ls, sts);
    LinesEnd(c, ls, sts);
  }

  /** The loop walks from c over the lines of f to the line feed after them. */
  lemma FrameReach(s: string, c: nat, st: Loading, f: FrameSettings, g: Float32 -> string)
    requires PrintsFloats(g) && Consistent(st) && |st.doc.frames| < MaxFrameSettings && ValidName(f.name)
    requires StartsWith(s, c, Leading(LinesOf(f, g))) && Peek(s, c + |Leading(LinesOf(f, g))|) == '\n'
    ensures Reaches(s, c, st, Point(c + |Leading(LinesOf(f, g))|, AfterFrame(st, f, g)))
  {
    FrameWalk(s, c, st, f, g);
    WalkReaches(s, c, st, LinePoints(c, LinesOf(f, g), StatesOf(st, f, g)));
  }

  // ---------------------------------------------------------------------------
  // The lines of all frames.

  /** Every frame has a name Save can write on its header line. */
  predicate ValidNames(frames: seq<FrameSettings>)
  {
    forall j | 0 <= j < |frames| :: ValidName(frames[j].name)
  }

  /** The text Save writes for the frames, frame by frame. */
  function FramesLeading(frames: seq<FrameSettings>, g: Float32 -> string): string
    decreases |frames|, 1
  {
    if frames == [] then "" else FramesLeadingFrom(frames, g)
  }

  /** The text of a first frame, then that of the rest. */
  function FramesLeadingFrom(frames: seq<FrameSettings>, g: Float32 -> string): string
    requires frames != []
    decreases |frames|, 0
  {
    Leading(LinesOf(frames[0], g)) + FramesLeading(frames[1..], g)
  }

  /** The text of some frames is the text of the first one, then that of the rest. */
  lemma FramesLeadingCons(frames: seq<FrameSettings>, g: Float32 -> string)
    requires frames != []
    ensures FramesLeading(frames, g) == Leading(LinesOf(frames[0], g)) + FramesLeading(frames[1..], g)
  {
    assert FramesLeading(frames, g) == FramesLeadingFrom(frames, g);
  }

  /** The text of no frames is empty; the text of some frames starts with a line feed. */
  lemma {:induction false} FramesLeadingStart(frames: seq<FrameSettings>, g: Float32 -> string)
    ensures FramesLeading(frames, g) != "" ==> FramesLeading(frames, g)[0] == '\n'
  {
    if frames != [] {
      var ls := LinesOf(frames[0], g);
      FramesLeadingCons(frames, g);
      assert Leading(ls) == "\n" + ls[0] + Leading(ls[1..]);
    }
  }

  /** FramesLeading is the text of the frame lines Save writes. */
  lemma {:induction false} AllFramesLeading(frames: seq<FrameSettings>, g: Float32 -> string)
    ensures Leading(AllFrameLines(frames, g)) == FramesLeading(frames, g)
    decreases |frames|
  {
    if frames != [] {
      LeadingAppend(FrameLines(frames[0], g), AllFrameLines(frames[1..], g));
      FrameLinesOf(frames[0], g);
      AllFramesLeading(frames[1..], g);
      FramesLeadingCons(frames, g);
    }
  }


  /** Two texts with the same tail are the same. */
  lemma SameHead<T>(x: seq<T>, y: seq<T>, z: seq<T>)
    requires x + z == y + z
    ensures x == y
  {
    assert |x| == |y|;
    assert x == (x + z)[..|x|] && y == (y + z)[..|y|];
  }

  /** t is the text of the first of the frames: the text of the rest follows it. */
  predicate HeadText(frames: seq<FrameSettings>, g: Float32 -> string, t: string)
  {
    frames != [] && FramesLeading(frames, g) == t + FramesLeading(frames[1..], g)
  }

  /** The text of some frames is some text, then the text of the rest. */
  lemma FramesLeadingHead(frames: seq<FrameSettings>, g: Float32 -> string)
    requires frames != []
    ensures exists t :: HeadText(frames, g, t)
  {
    FramesLeadingCons(frames, g);
    assert HeadText(frames, g, Leading(LinesOf(frames[0], g)));
  }

  /** The text that heads the text of some frames is the first frame's lines. */
  lemma HeadIsFirst(frames: seq<FrameSettings>, g: Float32 -> string, t: string)
    requires HeadText(frames, g, t)
    ensures t == Leading(LinesOf(frames[0], g))
  {
    FramesLeadingCons(frames, g);
    SameHead(t, Leading(LinesOf(frames[0], g)), FramesLeading(frames[1..], g));
  }

  /**
   * Whatever text t heads the text of some frames, followed by a line feed, is the first
   * frame's lines, and the loop runs through them to the point after that frame.
   */
  lemma {:induction false} FrameHead(s: string, c: nat, st: Loading, frames: seq<FrameSettings>, g: Float32 -> string, t: string)
    requires PrintsFloats(g) && Consistent(st) && |st.doc.frames| < MaxFrameSettings && HeadText(frames, g, t)
    requires ValidName(frames[0].name) && Laid(s, c, t)
    ensures Reaches(s, c, st, Point(c + |t|, AfterFrame(st, frames[0], g)))
  {
    HeadIsFirst(frames, g, t);
    LaidIs(s, c, t);
    FrameReach(s, c, st, frames[0], g);
  }

  /** s holds t at c, one character after another: StartsWith, as a recursion on t. */
  predicate Holds(s: string, c: nat, t: string)
    decreases |t|
  {
    c <= |s| && (t == [] || (c < |s| && s[c] == t[0] && Holds(s, c + 1, t[1..])))
  }

  lemma {:induction false} HoldsIs(s: string, c: nat, t: string)
    ensures Holds(s, c, t) <==> StartsWith(s, c, t)
    decreases |t|
  {
    if t != [] {
      HoldsIs(s, c + 1, t[1..]);
      if Holds(s, c, t) {
        assert s[c..c + |t|] == [s[c]] + s[c + 1..c + 1 + |t[1..]|];
        assert t == [t[0]] + t[1..];
      }
      if StartsWith(s, c, t) {
        assert s[c] == s[c..c + |t|][0];
        assert s[c + 1..c + 1 + |t[1..]|] == s[c..c + |t|][1..];
      }
    }
  }

  lemma {:induction false} HoldsSplit(s: string, c: nat, a: string, b: string)
    ensures Holds(s, c, a + b) <==> Holds(s, c, a) && Holds(s, c + |a|, b)
    decreases |a|
  {
    if a == [] {
      assert a + b == b;
    } else {
      assert (a + b)[0] == a[0] && (a + b)[1..] == a[1..] + b;
      HoldsSplit(s, c + 1, a[1..], b);
    }
  }

  /** s holds t at c, followed by a line feed. */
  predicate Laid(s: string, c: nat, t: string)
  {
    Holds(s, c, t + "\n")
  }

  lemma LaidIs(s: string, c: nat, t: string)
    ensures Laid(s, c, t) <==> StartsWith(s, c, t) && Peek(s, c + |t|) == '\n'
  {
    HoldsSplit(s, c, t, "\n");
    HoldsIs(s, c, t);
    assert "\n"[1..] == [];
  }

  /** Text a + b followed by a line feed, where b is empty or starts with one: a is followed by a line feed too. */
  lemma LaidSplit(s: string, c: nat, a: string, b: string)
    requires b == "" || b[0] == '\n'
    requires Laid(s, c, a + b)
    ensures Laid(s, c, a) && Laid(s, c + |a|, b)
  {
    assert (a + b) + "\n" == a + (b + "\n");
    HoldsSplit(s, c, a, b + "\n");
    assert (b + "\n")[0] == '\n';
    HoldsSplit(s, c, a, "\n");
    assert "\n"[1..] == [];
  }

  /** The state after the first frame's lines, then the rest's, is the state after all of them. */
  lemma {:induction false} FramesEnd(st: Loading, frames: seq<FrameSettings>, g: Float32 -> string)
    requires frames != []
    ensures var st' := AfterFrame(st, frames[0], g);
      Loading(st'.doc.(frames := st'.doc.frames + PersistedFrames(frames[1..], g)), true)
      == Loading(st.doc.(frames := st.doc.frames + PersistedFrames(frames, g)), true)
  {
    assert st.doc.frames + [PersistedFrame(frames[0], g)] + PersistedFrames(frames[1..], g)
        == st.doc.frames + PersistedFrames(frames, g);
  }

  /**
   * The text of the frames, and the state after their lines: FramesLeading and the
   * persisted frames appended, named apart so that lemmas about whole files state them
   * without unfolding them frame by frame.
   */
  function FramesText(frames: seq<FrameSettings>, g: Float32 -> string): string
  {
    FramesLeading(frames, g)
  }

  function AfterFrames(st: Loading, frames: seq<FrameSettings>, g: Float32 -> string): Loading
  {
    Loading(st.doc.(frames := st.doc.frames + PersistedFrames(frames, g)), st.inFrame || frames != [])
  }

  /** s holds the text of the frames at c, followed by a line feed. */
  predicate FramesLaid(s: string, c: nat, frames: seq<FrameSettings>, g: Float32 -> string)
  {
    Laid(s, c, FramesText(frames, g))
  }

  lemma ValidNamesTail(frames: seq<FrameSettings>)
    requires frames != [] && ValidNames(frames)
    ensures ValidNames(frames[1..])
  {
    forall j | 0 <= j < |frames[1..]|
      ensures ValidName(frames[1..][j].name)
    {
      assert frames[1..][j] == frames[j + 1];
    }
  }

  /** From c in the state st, the loop reaches the end of the text of the frames, with them appended persisted. */
  ghost predicate FramesReached(s: string, c: nat, st: Loading, frames: seq<FrameSettings>, g: Float32 -> string)
  {
    Reaches(s, c, st, Point(c + |FramesText(frames, g)|, AfterFrames(st, frames, g)))
  }

  /**
   * The loop through the lines Save writes for the frames, from the line feed at c: one
   * iteration per line, ending with the persisted frames appended, the last one open.
   */
  lemma {:induction false} FramesWalk(s: string, c: nat, st: Loading, frames: seq<FrameSettings>, g: Float32 -> string)
    requires PrintsFloats(g) && Consistent(st) && |st.doc.frames| + |frames| <= MaxFrameSettings && ValidNames(frames)
    requires FramesLaid(s, c, frames, g)
    ensures FramesReached(s, c, st, frames, g)
    decreases |frames|
  {
    if frames == [] {
      assert st.doc.frames + PersistedFrames(frames, g) == st.doc.frames;
      assert Walk(s, c, st, []);
    } else {
      var t := FramesWalkHead(s, c, st, frames, g);
      ValidNamesTail(frames);
      FramesWalk(s, c + |t|, AfterFrame(st, frames[0], g), frames[1..], g);
      FramesWalkJoin(s, c, st, frames, g, t);
    }
  }

  /** The loop over the first frame's lines, as laid out ahead of the other frames' lines. */
  lemma FramesWalkHead(s: string, c: nat, st: Loading, frames: seq<FrameSettings>, g: Float32 -> string) returns (t: string)
    requires PrintsFloats(g) && Consistent(st) && |st.doc.frames| < MaxFrameSettings && frames != []
    requires ValidName(frames[0].name) && FramesLaid(s, c, frames, g)
    ensures Reaches(s, c, st, Point(c + |t|, AfterFrame(st, frames[0], g)))
    ensures FramesLaid(s, c + |t|, frames[1..], g)
    ensures |t| + |FramesText(frames[1..], g)| == |FramesText(frames, g)|
  {
    FramesLeadingHead(frames, g);
    t :| HeadText(frames, g, t);
    FramesLeadingStart(frames[1..], g);
    LaidSplit(s, c, t, FramesLeading(frames[1..], g));
    FrameHead(s, c, st, frames, g, t);
  }

  /** The walk over the first frame's lines, then the walk over the rest's, is the walk over all of them. */
  lemma FramesWalkJoin(s: string, c: nat, st: Loading, frames: seq<FrameSettings>, g: Float32 -> string, t: string)
    requires frames != [] && |t| + |FramesText(frames[1..], g)| == |FramesText(frames, g)|
    requires Reaches(s, c, st, Point(c + |t|, AfterFrame(st, frames[0], g)))
    requires FramesReached(s, c + |t|, AfterFrame(st, frames[0], g), frames[1..], g)
    ensures FramesReached(s, c, st, frames, g)
  {
    FramesEnd(st, frames, g);
    ReachesJoin(s, c, st, Point(c + |t|, AfterFrame(st, frames[0], g)),
                Point(c + |FramesText(frames, g)|, AfterFrames(st, frames, g)));
  }

  /** The globals lines of d, followed by a line feed, sit at c. */
  predicate GlobalsLaid(s: string, c: nat, d: Document, g: Float32 -> string)
  {
    StartsWith(s, c, Leading(GlobalLines(d, g))) && Peek(s, c + |Leading(GlobalLines(d, g))|) == '\n'
  }

  /** The loop walks from c over the globals lines of d to the line feed after them. */
  ghost predicate GlobalsReached(s: string, c: nat, st: Loading, d: Document, g: Float32 -> string)
  {
    Reaches(s, c, st, Point(c + |Leading(GlobalLines(d, g))|, AfterGlobals(st, d, g)))
  }

  /** Wherever the globals lines of d sit, the loop walks over them, taking every global from d. */
  lemma GlobalsReach(s: string, c: nat, st: Loading, d: Document, g: Float32 -> string)
    requires PrintsFloats(g) && Consistent(st) && GlobalsLaid(s, c, d, g)
    ensures GlobalsReached(s, c, st, d, g)
  {
    GlobalsWalk(s, c, st, d, g);
    WalkReaches(s, c, st, LinePoints(c, GlobalLines(d, g), GlobalStates(st, Persisted(d, g))));
  }
}
