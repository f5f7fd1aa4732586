/**
 * Loading the file Save writes, line by line: each global line sets its setting, each
 * header opens a fresh frame and each frame line sets its field, so that the loop
 * ends with the persisted settings (RoundTrip.Persisted).
 */
module Reload {
  import opened Text
  import opened Numbers
  import opened Scan
  import opened Model
  import opened Loader
  import opened Saver
  import opened KeyTables
  import opened RoundTrip

  // ---------------------------------------------------------------------------
  // Which branch of the chain a line selects.

  /** A line feed, global key k and '=': the chain selects key k, the cursor just past the '='. */
  lemma GlobalKeySelected(s: string, c: nat, k: nat)
    requires k < |GlobalKeys| && StartsWith(s, c, "\n" + GlobalKeys[k] + "=")
    ensures FirstKey(s, c, GlobalKeys, 0) == KeyMatch(k, c + 2 + |GlobalKeys[k]|)
  {
    var key := GlobalKeys[k];
    GlobalKeyClashes(k);
    StartsWithSplit(s, c, "\n" + key, "=");
    StartsWithSplit(s, c, "\n", key);
    PeekInside(s, c + 1, key, 0);
    PeekInside(s, c + 1 + |key|, "=", 0);
    BlankOver(s, c, "\n");
    forall l | 0 <= l < k
      ensures !StartsWith(s, Blank(s, c), GlobalKeys[l])
    {
      ClashMisses(GlobalKeys[l], key, s, c + 1);
    }
    KeyMatches(s, c, "\n", key);
    FirstKeySelects(s, c, GlobalKeys, 0, k);
  }

  /** An empty line, then "[frame]=": no global key matches, and the header does, the cursor just past the '='. */
  lemma HeaderSelected(s: string, c: nat)
    requires StartsWith(s, c, "\n\n" + HeaderKey + "=")
    ensures FirstKey(s, c, GlobalKeys, 0) == KeyMatch(|GlobalKeys|, c + 2)
    ensures Key(s, c + 2, HeaderKey) == Scanned(true, c + 3 + |HeaderKey|)
  {
    HeaderClashes();
    StartsWithSplit(s, c, "\n\n" + HeaderKey, "=");
    StartsWithSplit(s, c, "\n\n", HeaderKey);
    PeekInside(s, c + 2, HeaderKey, 0);
    PeekInside(s, c + 2 + |HeaderKey|, "=", 0);
    BlankOver(s, c, "\n\n");
    KeyMissesGlobals(s, c, c + 2, HeaderKey);
    assert StartsWith(s, c + 2, "");
    KeyMatches(s, c + 2, "", HeaderKey);
  }

  /**
   * A line feed, frame key k and '=': no global key and not the header match, and the
   * frame chain selects key k, the cursor just past the '='.
   */
  lemma FrameKeySelected(s: string, c: nat, k: nat)
    requires k < |FrameKeys| && StartsWith(s, c, "\n" + FrameKeys[k] + "=")
    ensures FirstKey(s, c, GlobalKeys, 0) == KeyMatch(|GlobalKeys|, c + 1)
    ensures Key(s, c + 1, HeaderKey) == Scanned(false, c + 1)
    ensures FirstKey(s, c + 1, FrameKeys, 0) == KeyMatch(k, c + 2 + |FrameKeys[k]|)
  {
    FrameKeyLaid(s, c, k);
    FrameKeyClashes(k);
    KeyMissesGlobals(s, c, c + 1, FrameKeys[k]);
    ClashMisses(HeaderKey, FrameKeys[k], s, c + 1);
    KeyMisses(s, c + 1, HeaderKey);
    FrameKeyMatches(s, c + 1, k);
  }

  /** A line feed, frame key k and '=': where the key and the '=' are, past the line feed the blanks skip. */
  lemma FrameKeyLaid(s: string, c: nat, k: nat)
    requires k < |FrameKeys| && StartsWith(s, c, "\n" + FrameKeys[k] + "=")
    ensures StartsWith(s, c + 1, FrameKeys[k]) && Peek(s, c + 1 + |FrameKeys[k]|) == '='
    ensures Blank(s, c) == c + 1 && Blank(s, c + 1) == c + 1
  {
    var key := FrameKeys[k];
    FrameKeyClashes(k);
    StartsWithSplit(s, c, "\n" + key, "=");
    StartsWithSplit(s, c, "\n", key);
    PeekInside(s, c + 1, key, 0);
    PeekInside(s, c + 1 + |key|, "=", 0);
    BlankOver(s, c, "\n");
    BlankTwice(s, c);
  }

  /** A key that clashes with every global key: past the blanks at c, no global key matches. */
  lemma KeyMissesGlobals(s: string, c: nat, b: nat, key: string)
    requires c <= |s| && StartsWith(s, b, key) && Blank(s, c) == b
    requires forall l | 0 <= l < |GlobalKeys| :: Clash(GlobalKeys[l], key, 0)
    ensures FirstKey(s, c, GlobalKeys, 0) == KeyMatch(|GlobalKeys|, b)
  {
    forall l | 0 <= l < |GlobalKeys|
      ensures !StartsWith(s, Blank(s, c), GlobalKeys[l])
    {
      ClashMisses(GlobalKeys[l], key, s, b);
    }
    FirstKeyMisses(s, c, GlobalKeys, 0);
  }

  /** Frame key k and '=' at i, where no blank is: the frame chain selects key k, the cursor just past the '='. */
  lemma FrameKeyMatches(s: string, i: nat, k: nat)
    requires k < |FrameKeys| && StartsWith(s, i, FrameKeys[k]) && Peek(s, i + |FrameKeys[k]|) == '=' && Blank(s, i) == i
    ensures FirstKey(s, i, FrameKeys, 0) == KeyMatch(k, i + 1 + |FrameKeys[k]|)
  {
    var key := FrameKeys[k];
    FrameKeyClashes(k);
    forall l | 0 <= l < k
      ensures !StartsWith(s, Blank(s, i), FrameKeys[l])
    {
      ClashMisses(FrameKeys[l], key, s, i);
    }
    assert StartsWith(s, i, "");
    KeyMatches(s, i, "", key);
    FirstKeySelects(s, i, FrameKeys, 0, k);
  }

  // ---------------------------------------------------------------------------
  // What the selected branch does.

  /** The chain selected global key k: its parser runs from q, just past the '='. */
  lemma DispatchGlobal(s: string, c: nat, st: Loading, k: nat, q: nat)
    requires c <= |s| && Consistent(st) && k < |GlobalKeys| && FirstKey(s, c, GlobalKeys, 0) == KeyMatch(k, q)
    ensures q <= |s| && Dispatch(s, c, st) == Matched(st.(doc := ApplyGlobal(s, q, st.doc, k).doc), ApplyGlobal(s, q, st.doc, k).next)
  {
  }

  /** No global key matched: the chain goes on with the header at q. */
  lemma DispatchPastGlobals(s: string, c: nat, st: Loading, q: nat)
    requires c <= |s| && Consistent(st) && FirstKey(s, c, GlobalKeys, 0) == KeyMatch(|GlobalKeys|, q)
    ensures q <= |s| && Dispatch(s, c, st) == HeaderChain(s, q, st)
  {
  }

  /** The state after a header line whose name starts at n: a frame of that name appended and open. */
  function OpenedFrame(s: string, n: nat, st: Loading): Loading
    requires n <= |s|
  {
    Loading(st.doc.(frames := st.doc.frames + [DefaultFrameSettings(s[n..NameEnd(s, n)])]), true)
  }

  /** The header matched below capacity: a frame named by the rest of the line is appended and opened. */
  lemma HeaderOpens(s: string, q: nat, st: Loading, n: nat)
    requires q <= |s| && Consistent(st) && |st.doc.frames| < MaxFrameSettings && Key(s, q, HeaderKey) == Scanned(true, n)
    ensures n <= |s| && HeaderChain(s, q, st) == Matched(OpenedFrame(s, n, st), NameEnd(s, n))
  {
  }

  /** Inside a frame, the header missing at q: the chain goes on with the frame keys at q. */
  lemma HeaderMisses(s: string, q: nat, st: Loading)
    requires q <= |s| && Consistent(st) && st.inFrame && Key(s, q, HeaderKey) == Scanned(false, q)
    ensures HeaderChain(s, q, st) == FrameChain(s, q, st)
  {
  }

  /** Frame key k selected: its parser runs from n on the frame last opened. */
  lemma FrameKeyApplies(s: string, q: nat, st: Loading, k: nat, n: nat)
    requires q <= |s| && Consistent(st) && st.inFrame && k < |FrameKeys| && FirstKey(s, q, FrameKeys, 0) == KeyMatch(k, n)
    ensures n <= |s|
    ensures FrameChain(s, q, st) == Matched(st.(doc := SetLast(st.doc, ApplyFrame(s, n, Last(st.doc), k).frame)), ApplyFrame(s, n, Last(st.doc), k).next)
  {
  }

  /** An iteration in which a branch ran: the loop goes on from where that branch left the cursor. */
  lemma RunMatched(s: string, c: nat, st: Loading, corrected: bool, st': Loading, n: nat)
    requires c <= |s| && Consistent(st) && Peek(s, c) != NUL && Dispatch(s, c, st) == Matched(st', n)
    ensures n <= |s| && Consistent(st') && Run(s, c, st, corrected) == Run(s, n, st', corrected)
  {
  }

  // ---------------------------------------------------------------------------
  // One line of Save's output at a time.

  /** What a line of Save's output tells the loader: take global key k from p, open a frame, take frame key k from p. */
  datatype Entry = SetGlobal(k: nat, p: Document) | OpenFrame(name: string) | SetField(k: nat, f: FrameSettings)

  /** The state after the branch a line selects has run. */
  function Apply(st: Loading, e: Entry): (r: Loading)
    ensures Consistent(st) ==> Consistent(r)
  {
    match e
    case SetGlobal(k, p) => st.(doc := PutGlobal(st.doc, k, GetGlobal(p, k)))
    case OpenFrame(name) =>
      if |st.doc.frames| < MaxFrameSettings then Loading(st.doc.(frames := st.doc.frames + [DefaultFrameSettings(name)]), true)
      else st.(inFrame := false)
    case SetField(k, f) =>
      if |st.doc.frames| > 0 then st.(doc := SetLast(st.doc, PutField(Last(st.doc), k, GetField(f, k)))) else st
  }

  /** One iteration from the cursor c in the state st in which a branch runs, leaving the cursor at n in the state st'. */
  predicate Moves(s: string, c: nat, st: Loading, n: nat, st': Loading)
  {
    c <= |s| && Consistent(st) && Peek(s, c) != NUL && Dispatch(s, c, st) == Matched(st', n)
  }

  /** Where the cursor is and what the loop holds after an iteration. */
  datatype Point = Point(at: nat, state: Loading)

  /** From c in the state st, the loop passes through the points ps, one iteration each. */
  predicate Walk(s: string, c: nat, st: Loading, ps: seq<Point>)
    decreases |ps|, 1
  {
    ps == [] || StepsTo(s, c, st, ps)
  }

  /** The iteration from c in the state st runs a branch that ends at ps[0], and the loop walks on from there. */
  predicate StepsTo(s: string, c: nat, st: Loading, ps: seq<Point>)
    requires ps != []
    decreases |ps|, 0
  {
    Moves(s, c, st, ps[0].at, ps[0].state) && Walk(s, ps[0].at, ps[0].state, ps[1..])
  }

  /** An iteration that runs a branch is a walk of one point. */
  lemma {:induction false} OneStep(s: string, c: nat, st: Loading, n: nat, st': Loading)
    requires Moves(s, c, st, n, st')
    ensures Walk(s, c, st, [Point(n, st')])
  {
    var ps := [Point(n, st')];
    assert ps[1..] == [];
    assert StepsTo(s, c, st, ps);
  }

  /** A walk of one point is an iteration that runs a branch. */
  lemma {:induction false} OneStepMoves(s: string, c: nat, st: Loading, n: nat, st': Loading)
    requires Walk(s, c, st, [Point(n, st')])
    ensures Moves(s, c, st, n, st')
  {
    assert StepsTo(s, c, st, [Point(n, st')]);
  }

  /** A line that starts with a line feed, a key and '=' starts with the line feed. */
  lemma LineFeedFirst(s: string, c: nat, key: string)
    requires StartsWith(s, c, "\n" + key + "=")
    ensures c < |s| && Peek(s, c) == '\n'
  {
    PeekInside(s, c, "\n" + key + "=", 0);
  }

  /** The chain selected global key k and the value Save writes for it follows: the iteration stores it. */
  lemma GlobalValueStep(s: string, c: nat, st: Loading, d: Document, g: Float32 -> string, k: nat, q: nat)
    requires PrintsFloats(g) && Consistent(st) && k < |GlobalKeys|
    requires c <= |s| && Peek(s, c) == '\n' && FirstKey(s, c, GlobalKeys, 0) == KeyMatch(k, q)
    requires StartsWith(s, q, GlobalValue(d, g, k)) && Peek(s, q + |GlobalValue(d, g, k)|) == '\n'
    ensures Walk(s, c, st, [Point(q + |GlobalValue(d, g, k)|, Apply(st, SetGlobal(k, Persisted(d, g))))])
  {
    GlobalValueRead(s, q, d, g, k, st.doc);
    DispatchGlobal(s, c, st, k, q);
    OneStep(s, c, st, q + |GlobalValue(d, g, k)|, Apply(st, SetGlobal(k, Persisted(d, g))));
  }

  /** A name without a line end, followed by one: the header's name runs to its end. */
  lemma {:induction false} NameRead(s: string, q: nat, name: string)
    requires StartsWith(s, q, name) && NoNameEnd(name) && EndsName(Peek(s, q + |name|))
    ensures NameEnd(s, q) == q + |name| && s[q..q + |name|] == name
    decreases |name|
  {
    if name != [] {
      PeekInside(s, q, name, 0);
      StartsWithSplit(s, q, [name[0]], name[1..]);
      assert [name[0]] + name[1..] == name;
      NameRead(s, q + 1, name[1..]);
    }
  }

  /** A frame's header below capacity, after a line feed: the iteration appends a fresh frame of that name and opens it. */
  lemma HeaderLineMoves(s: string, c: nat, st: Loading, name: string)
    requires Consistent(st) && |st.doc.frames| < MaxFrameSettings && ValidName(name)
    requires StartsWith(s, c, "\n\n" + HeaderKey + "=") && StartsWith(s, c + 3 + |HeaderKey|, name)
    requires Peek(s, c + 3 + |HeaderKey| + |name|) == '\n'
    ensures Moves(s, c, st, c + 3 + |HeaderKey| + |name|, Apply(st, OpenFrame(name)))
  {
    HeaderDispatch(s, c, st);
    PeekInside(s, c, "\n\n" + HeaderKey + "=", 0);
    NameRead(s, c + 3 + |HeaderKey|, name);
    OpenedFrameIs(s, c + 3 + |HeaderKey|, st, name);
  }

  /** A name read in full below capacity: the frame opened is the one OpenFrame opens. */
  lemma OpenedFrameIs(s: string, n: nat, st: Loading, name: string)
    requires n + |name| <= |s| && |st.doc.frames| < MaxFrameSettings && s[n..NameEnd(s, n)] == name
    ensures OpenedFrame(s, n, st) == Apply(st, OpenFrame(name))
  {
  }

  /** An empty line, then "[frame]=", below capacity: the iteration opens a frame named by the rest of the line. */
  lemma HeaderDispatch(s: string, c: nat, st: Loading)
    requires Consistent(st) && |st.doc.frames| < MaxFrameSettings && StartsWith(s, c, "\n\n" + HeaderKey + "=")
    ensures c + 3 + |HeaderKey| <= |s|
    ensures Dispatch(s, c, st) == Matched(OpenedFrame(s, c + 3 + |HeaderKey|, st), NameEnd(s, c + 3 + |HeaderKey|))
  {
    HeaderSelected(s, c);
    DispatchPastGlobals(s, c, st, c + 2);
    HeaderOpens(s, c + 2, st, c + 3 + |HeaderKey|);
  }

  /** Inside a frame, the chain selected frame key k and the value Save writes for it follows: the iteration sets that field. */
  lemma FieldValueStep(s: string, c: nat, st: Loading, f: FrameSettings, g: Float32 -> string, k: nat, q: nat)
    requires PrintsFloats(g) && Consistent(st) && st.inFrame && k < |FrameKeys| && Writes(f, k)
    requires c < |s| && Peek(s, c) == '\n' && FirstKey(s, c, GlobalKeys, 0) == KeyMatch(|GlobalKeys|, c + 1)
    requires Key(s, c + 1, HeaderKey) == Scanned(false, c + 1) && FirstKey(s, c + 1, FrameKeys, 0) == KeyMatch(k, q)
    requires StartsWith(s, q, FieldValue(f, g, k)) && Peek(s, q + |FieldValue(f, g, k)|) == '\n'
    ensures Walk(s, c, st, [Point(q + |FieldValue(f, g, k)|, Apply(st, SetField(k, PersistedFrame(f, g))))])
  {
    FieldValueRead(s, q, f, g, k, Last(st.doc));
    DispatchPastGlobals(s, c, st, c + 1);
    HeaderMisses(s, c + 1, st);
    FrameKeyApplies(s, c + 1, st, k, q);
    OneStep(s, c, st, q + |FieldValue(f, g, k)|, Apply(st, SetField(k, PersistedFrame(f, g))));
  }
}
