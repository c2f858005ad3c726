/** Printing tool calls and scanning them undo each other: objects, with or without tags, between prose and
    skipped regions come back exactly, whatever tags, brackets or escaped quotes sit inside their strings. */
module ToolCallRoundTrip {
  import opened TextSearch
  import opened BracketText
  import opened ToolCallScanner

  /** An object between tags, with layout around it; an object without tags; a region in the other call syntax,
      which is skipped. */
  datatype Item = Tagged(before: string, body: string, after: string) | Bare(body: string) | Region(inner: string)

  /** Prose, then one item. */
  datatype Part = Part(prose: string, item: Item)

  /** What comes after the last part: prose, or prose and a region that is never closed. */
  datatype Tail = End(prose: string) | Unclosed(prose: string, inner: string)

  function ItemText(item: Item): string {
    match item
    case Tagged(before, body, after) => "<tool_call>" + before + body + after + "</tool_call>"
    case Bare(body) => body
    case Region(inner) => "<invoke" + inner + "</invoke>"
  }

  function TailText(tail: Tail): string {
    match tail
    case End(prose) => prose
    case Unclosed(prose, inner) => prose + "<invoke" + inner
  }

  function Response(parts: seq<Part>, tail: Tail): string {
    if parts == [] then TailText(tail)
    else parts[0].prose + ItemText(parts[0].item) + Response(parts[1..], tail)
  }

  /** The objects of the parts, in order; a region has none. */
  function Bodies(parts: seq<Part>): seq<string> {
    if parts == [] then []
    else (if parts[0].item.Region? then [] else [parts[0].item.body]) + Bodies(parts[1..])
  }

  predicate HasOpening(s: string) {
    exists k | 0 <= k < |s| :: Opens(s[k])
  }

  /** Prose that cannot start a call of its own: neither tag occurs in it, and either it opens no bracket,
      or it neither quotes nor closes. */
  ghost predicate GoodProse(p: string) {
    && (forall k | 0 <= k < |p| :: !At(p, OPEN_TAG, k) && !At(p, INVOKE, k))
    && (!HasOpening(p) || forall k | 0 <= k < |p| :: p[k] != '"' && !Closes(p[k]))
  }

  predicate Layout(s: string) {
    forall k | 0 <= k < |s| :: IsBlank(s[k])
  }

  /** A tag in the text is inside a string. */
  ghost predicate TagsAreQuoted(s: string) {
    forall k | 0 <= k < |s| && At(s, OPEN_TAG, k) :: Fold(OUTSIDE, s[..k]).inStr
  }

  /** Between its two tags a region holds no other end, and the word `invoke` ends at its first tag. */
  ghost predicate GoodRegion(inner: string, word: char -> bool) {
    && (forall k | 0 <= k < |inner| :: !At(inner, INVOKE_END, k))
    && (if inner == "" then !word('<') else !word(inner[0]))
  }

  /** A region that never ends. */
  ghost predicate GoodRest(inner: string, word: char -> bool) {
    && (forall k | 0 <= k < |inner| :: !At(inner, INVOKE_END, k))
    && (inner != "" ==> !word(inner[0]))
  }

  ghost predicate GoodPart(p: Part, word: char -> bool) {
    && GoodProse(p.prose)
    && match p.item
       case Tagged(before, body, after) => Layout(before) && Layout(after) && IsObject(body)
       case Bare(body) => !HasOpening(p.prose) && IsObject(body) && TagsAreQuoted(body)
       case Region(inner) => !HasOpening(p.prose) && GoodRegion(inner, word)
  }

  ghost predicate GoodTail(tail: Tail, word: char -> bool) {
    && GoodProse(tail.prose)
    && (tail.Unclosed? ==> !HasOpening(tail.prose) && GoodRest(tail.inner, word))
  }

  /** Some prose opens a bracket: it stands before a tagged object or at the end. */
  predicate SomeOpening(parts: seq<Part>, tail: Tail) {
    if parts == [] then HasOpening(tail.prose) else HasOpening(parts[0].prose) || SomeOpening(parts[1..], tail)
  }

  // ----------------------------------------------------------------------------------------
  // Stretches of text that change little
  // ----------------------------------------------------------------------------------------

  /** The scanner between calls. */
  predicate Between(s: State, i: nat) {
    !s.inStr && !s.esc && !s.inTool && s.xmlEnd <= i && (s.depth == 0 ==> s.start == -1)
  }

  lemma {:induction false} RunAppend(t: string, i: nat, j: nat, k: nat, s: State, word: char -> bool)
    requires i <= j <= k <= |t|
    ensures Run(t, i, k, s, word) == Run(t, j, k, Run(t, i, j, s, word), word)
    decreases j - i
  {
    if i < j {
      RunAppend(t, i + 1, j, k, Step(t, i, s, word), word);
    }
  }

  /** Outside strings, characters that are no quote, bracket or `<` change nothing. */
  lemma {:induction false} QuietRun(t: string, i: nat, j: nat, s: State, word: char -> bool)
    requires i <= j <= |t| && !s.inStr && s.xmlEnd <= i
    requires forall k | i <= k < j :: Plain(t[k]) && t[k] != '<'
    ensures Run(t, i, j, s, word) == s
    decreases j - i
  {
    if i < j {
      QuietRun(t, i + 1, j, s, word);
    }
  }

  /** The character begins an item: the tags have none such but in front. */
  predicate Begins(c: char) {
    c == '<' || Opens(c)
  }

  /** A tag that does not occur inside a stretch does not start in it either, when an item follows it. */
  lemma NoTagStarts(t: string, i: nat, j: nat, k: nat, pat: string)
    requires i <= k < j <= |t| && pat != "" && forall o | 0 < o < |pat| :: !Begins(pat[o])
    requires j == |t| || Begins(t[j])
    requires !At(t[i..j], pat, k - i)
    ensures !At(t, pat, k)
  {
    assert k < j < k + |pat| <= |t| ==> pat[j - k] != t[k + (j - k)];
    AtInside(t, i, j, k, pat);
  }

  lemma AtInside(t: string, i: nat, j: nat, k: nat, pat: string)
    requires i <= k <= j <= |t|
    ensures At(t, pat, k) && k + |pat| <= j ==> At(t[i..j], pat, k - i)
  {
  }

  lemma ProseStep(t: string, i: nat, j: nat, k: nat, s: State, word: char -> bool)
    requires i <= k < j <= |t| && (j == |t| || Begins(t[j]))
    requires GoodProse(t[i..j]) && Between(s, k)
    requires s.depth > 0 ==> HasOpening(t[i..j])
    ensures var s' := Step(t, k, s, word);
            Between(s', k + 1) && s'.marks == s.marks && s'.incomplete == s.incomplete
            && (s'.depth > 0 <==> s.depth > 0 || Opens(t[k]))
  {
    hide At;
    var p := t[i..j];
    assert p[k - i] == t[k];
    assert forall o | 0 < o < |OPEN_TAG| :: !Begins(OPEN_TAG[o]);
    assert forall o | 0 < o < |INVOKE| :: !Begins(INVOKE[o]);
    NoTagStarts(t, i, j, k, OPEN_TAG);
    NoTagStarts(t, i, j, k, INVOKE);
  }

  lemma {:induction false} ProseRun(t: string, i: nat, j: nat, k: nat, s: State, word: char -> bool)
    requires i <= k <= j <= |t| && (j == |t| || Begins(t[j]))
    requires GoodProse(t[i..j]) && Between(s, k)
    requires s.depth > 0 <==> exists l | i <= l < k :: Opens(t[l])
    ensures var s' := Run(t, k, j, s, word);
            Between(s', j) && s'.marks == s.marks && s'.incomplete == s.incomplete
            && (s'.depth > 0 <==> exists l | i <= l < j :: Opens(t[l]))
    decreases j - k
  {
    hide GoodProse, Step, Between;
    if k < j {
      OpeningInside(t, i, j, k);
      ProseStep(t, i, j, k, s, word);
      ProseRun(t, i, j, k + 1, Step(t, k, s, word), word);
    }
  }

  lemma OpeningInside(t: string, i: nat, j: nat, k: nat)
    requires i <= k <= j <= |t|
    ensures (exists l | i <= l < k :: Opens(t[l])) ==> HasOpening(t[i..j])
    ensures HasOpening(t[i..j]) <==> exists l | i <= l < j :: Opens(t[l])
  {
    if l :| i <= l < j && Opens(t[l]) {
      assert Opens(t[i..j][l - i]);
    }
    if HasOpening(t[i..j]) {
      var m :| 0 <= m < j - i && Opens(t[i..j][m]);
      assert Opens(t[i + m]);
    }
  }

  /** An opening tag between calls starts afresh; a bracket left open by the prose is dropped and reported. */
  lemma TagRun(t: string, i: nat, s: State, word: char -> bool)
    requires At(t, OPEN_TAG, i) && Between(s, i)
    ensures Run(t, i, i + |OPEN_TAG|, s, word) ==
            s.(incomplete := s.incomplete || s.depth > 0, depth := 0, start := -1, inTool := true)
  {
    assert t[i + 0] == OPEN_TAG[0] && t[i + 1] == OPEN_TAG[1] != INVOKE[1];
    forall k | i + 1 <= k < i + |OPEN_TAG|
      ensures Plain(t[k]) && t[k] != '<'
    {
      assert t[i + (k - i)] == OPEN_TAG[k - i];
    }
    QuietRun(t, i + 1, i + |OPEN_TAG|, Step(t, i, s, word), word);
  }

  lemma CloseTagRun(t: string, i: nat, s: State, word: char -> bool)
    requires At(t, CLOSE_TAG, i) && Between(s, i) && s.depth == 0
    ensures Run(t, i, i + |CLOSE_TAG|, s, word) == s
  {
    assert t[i + 0] == CLOSE_TAG[0] && t[i + 1] == CLOSE_TAG[1] && CLOSE_TAG[1] != INVOKE[1]
           && CLOSE_TAG[1] != OPEN_TAG[1];
    forall k | i + 1 <= k < i + |CLOSE_TAG|
      ensures Plain(t[k]) && t[k] != '<'
    {
      assert t[i + (k - i)] == CLOSE_TAG[k - i];
    }
    QuietRun(t, i + 1, i + |CLOSE_TAG|, s, word);
  }

  // ----------------------------------------------------------------------------------------
  // One object
  // ----------------------------------------------------------------------------------------

  lemma OpeningStep(t: string, a: nat, s: State, word: char -> bool)
    requires a < |t| && Opens(t[a]) && !s.inStr && s.xmlEnd <= a && s.depth == 0
    ensures Run(t, a, a + 1, s, word) == s.(start := a, depth := 1)
  {
    hide At, InvokeAt;
    assert Run(t, a + 1, a + 1, Step(t, a, s, word), word) == Step(t, a, s, word);
  }

  /** A character that does not close the object moves the scanner as it moves the count. */
  lemma InnerStep(t: string, a: nat, k: nat, f: Balance, s: State, word: char -> bool)
    requires a < k < |t| && f.depth > 0 && BracketText.Next(f, t[k]).depth > 0 && s.xmlEnd <= a
    requires s.inTool || f.inStr || !At(t, OPEN_TAG, k)
    ensures var g := BracketText.Next(f, t[k]);
            Step(t, k, s.(start := a, depth := f.depth, inStr := f.inStr, esc := f.esc), word) ==
            s.(start := a, depth := g.depth, inStr := g.inStr, esc := g.esc)
  {
    hide At, InvokeAt;
  }

  /** The scanner is about to read the object that lies at `a..b`, tagged, or with its tags in strings. */
  ghost predicate Reads(t: string, a: nat, b: nat, s: State) {
    && a < b <= |t| && IsObject(t[a..b])
    && !s.inStr && !s.esc && s.xmlEnd <= a && s.depth == 0 && s.start == -1
    && (s.inTool || forall k | a <= k < b && At(t, OPEN_TAG, k) :: Fold(OUTSIDE, t[a..k]).inStr)
  }

  /** Inside an object the scanner's count is the object's own. */
  lemma {:induction false} InsideRun(t: string, a: nat, b: nat, j: nat, s: State, word: char -> bool)
    requires Reads(t, a, b, s) && a < j < b
    ensures var f := Fold(OUTSIDE, t[a..j]);
            f.depth > 0 && Run(t, a, j, s, word) == s.(start := a, depth := f.depth, inStr := f.inStr, esc := f.esc)
    decreases j
  {
    hide Run, Step, Fold;
    assert t[a..b][0] == t[a];
    assert t[a..b][..j - a] == t[a..j];
    if j == a + 1 {
      assert t[a..a] == "";
      NothingFolded(OUTSIDE);
      SliceGrows(t, a, a);
      OpeningStep(t, a, s, word);
    } else {
      InsideRun(t, a, b, j - 1, s, word);
      RunSnoc(t, a, j - 1, s, word);
      SliceGrows(t, a, j - 1);
      InnerStep(t, a, j - 1, Fold(OUTSIDE, t[a..j - 1]), s, word);
    }
  }

  lemma NothingFolded(b: Balance)
    ensures Fold(b, "") == b
  {
  }

  lemma ObjectRun(t: string, a: nat, b: nat, s: State, word: char -> bool)
    requires Reads(t, a, b, s)
    ensures Run(t, a, b, s, word) == s.(marks := s.marks + [Object(a, b)], inTool := false)
  {
    hide IsObject, Run, Fold, Step;
    LongerThanOne(t, a, b);
    InsideRun(t, a, b, b - 1, s, word);
    RunSnoc(t, a, b - 1, s, word);
    SliceGrows(t, a, b - 1);
    ClosingStep(t, a, b, Fold(OUTSIDE, t[a..b - 1]), s, word);
  }

  /** The character that closes the object ends the slice. */
  lemma ClosingStep(t: string, a: nat, b: nat, f: Balance, s: State, word: char -> bool)
    requires a + 1 < b <= |t| && f.depth > 0 && BracketText.Next(f, t[b - 1]) == OUTSIDE && s.xmlEnd <= a
    ensures Step(t, b - 1, s.(start := a, depth := f.depth, inStr := f.inStr, esc := f.esc), word) ==
            s.(marks := s.marks + [Object(a, b)], depth := 0, start := -1, inTool := false, inStr := false,
               esc := false)
  {
    hide At, InvokeAt;
  }

  lemma LongerThanOne(t: string, a: nat, b: nat)
    requires a < b <= |t| && IsObject(t[a..b])
    ensures a + 1 < b && Fold(OUTSIDE, t[a..b]) == OUTSIDE
  {
    assert t[a..b][0] == t[a] && t[a..a] == "";
    SliceGrows(t, a, a);
  }

  // ----------------------------------------------------------------------------------------
  // One part
  // ----------------------------------------------------------------------------------------

  lemma AtSplit(t: string, x: string, y: string, i: nat)
    requires At(t, x + y, i)
    ensures At(t, x, i) && At(t, y, i + |x|)
  {
    assert forall o | 0 <= o < |x| :: (x + y)[o] == x[o];
    assert forall o | 0 <= o < |y| :: t[i + (|x| + o)] == (x + y)[|x| + o] == y[o];
  }

  lemma AtSlice(t: string, x: string, i: nat)
    requires At(t, x, i)
    ensures t[i..i + |x|] == x
  {
  }

  /** Where the pieces of a tagged object lie. */
  lemma Pieces(t: string, i: nat, before: string, body: string, after: string)
    requires At(t, ItemText(Tagged(before, body, after)), i)
    ensures
      var p := i + |OPEN_TAG|;
      var a := p + |before|;
      var b := a + |body|;
      var q := b + |after|;
      && q + |CLOSE_TAG| == i + |ItemText(Tagged(before, body, after))| <= |t|
      && At(t, OPEN_TAG, i) && At(t, before, p) && At(t, body, a) && At(t, after, b) && At(t, CLOSE_TAG, q)
  {
    hide At;
    AtSplit(t, OPEN_TAG + before + body + after, CLOSE_TAG, i);
    AtSplit(t, OPEN_TAG + before + body, after, i);
    AtSplit(t, OPEN_TAG + before, body, i);
    AtSplit(t, OPEN_TAG, before, i);
    AtBound(t, ItemText(Tagged(before, body, after)), i);
  }

  lemma AtBound(t: string, x: string, i: nat)
    requires At(t, x, i)
    ensures i + |x| <= |t|
  {
  }

  /** Layout inside the tags changes nothing. */
  lemma LayoutRun(t: string, i: nat, x: string, s: State, word: char -> bool)
    requires At(t, x, i) && Layout(x) && !s.inStr && s.xmlEnd <= i
    ensures Run(t, i, i + |x|, s, word) == s
  {
    forall k | i <= k < i + |x|
      ensures Plain(t[k]) && t[k] != '<'
    {
      assert t[i + (k - i)] == x[k - i] && IsBlank(x[k - i]);
    }
    QuietRun(t, i, i + |x|, s, word);
  }

  /** Prose and the opening tag. */
  lemma IntroRun(t: string, i: nat, prose: string, s: State, word: char -> bool)
    requires At(t, prose, i) && At(t, OPEN_TAG, i + |prose|) && GoodProse(prose)
    requires Between(s, i) && s.depth == 0 && s.start == -1
    ensures
      var n := i + |prose| + |OPEN_TAG|;
      var s' := Run(t, i, n, s, word);
      && s'.marks == s.marks && s'.incomplete == (s.incomplete || HasOpening(prose))
      && s'.depth == 0 && s'.start == -1 && s'.inTool && !s'.inStr && !s'.esc && s'.xmlEnd <= n
  {
    hide GoodProse;
    var p := i + |prose|;
    AtSlice(t, prose, i);
    assert t[p + 0] == OPEN_TAG[0];
    ProseRun(t, i, p, i, s, word);
    OpeningInside(t, i, p, i);
    TagRun(t, p, Run(t, i, p, s, word), word);
    RunAppend(t, i, p, p + |OPEN_TAG|, s, word);
  }

  /** The object, its layout and the closing tag. */
  lemma BodyRun(t: string, i: nat, a: nat, b: nat, n: nat, before: string, body: string, after: string, s: State,
                word: char -> bool)
    requires a == i + |before| && b == a + |body| && n == b + |after| + |CLOSE_TAG|
    requires At(t, before, i) && At(t, body, a) && At(t, after, b) && At(t, CLOSE_TAG, b + |after|)
    requires Layout(before) && Layout(after) && IsObject(body)
    requires !s.inStr && !s.esc && s.inTool && s.xmlEnd <= i && s.depth == 0 && s.start == -1
    ensures n <= |t| && Run(t, i, n, s, word) == s.(marks := s.marks + [Object(a, b)], inTool := false)
  {
    hide IsObject, Layout, At, Run;
    var s' := s.(marks := s.marks + [Object(a, b)], inTool := false);
    EndRun(t, b, after, s', word);
    LayoutRun(t, i, before, s, word);
    TaggedObjectRun(t, a, body, s, word);
    RunsInTurn(t, i, a, b, n, s, s', word);
  }

  lemma RunsInTurn(t: string, i: nat, a: nat, b: nat, n: nat, s: State, s': State, word: char -> bool)
    requires i <= a <= b <= n <= |t|
    requires Run(t, i, a, s, word) == s && Run(t, a, b, s, word) == s' && Run(t, b, n, s', word) == s'
    ensures Run(t, i, n, s, word) == s'
  {
    hide Run;
    RunAppend(t, i, a, n, s, word);
    RunAppend(t, a, b, n, s, word);
  }

  lemma TaggedObjectRun(t: string, a: nat, body: string, s: State, word: char -> bool)
    requires At(t, body, a) && IsObject(body)
    requires !s.inStr && !s.esc && s.inTool && s.xmlEnd <= a && s.depth == 0 && s.start == -1
    ensures a + |body| <= |t|
    ensures Run(t, a, a + |body|, s, word) == s.(marks := s.marks + [Object(a, a + |body|)], inTool := false)
  {
    hide IsObject, At, Run, Reads;
    AtBound(t, body, a);
    ReadsTagged(t, a, body, s);
    ObjectRun(t, a, a + |body|, s, word);
  }

  lemma EndRun(t: string, i: nat, after: string, s: State, word: char -> bool)
    requires At(t, after, i) && At(t, CLOSE_TAG, i + |after|) && Layout(after)
    requires Between(s, i) && s.depth == 0
    ensures i + |after| + |CLOSE_TAG| <= |t| && Run(t, i, i + |after| + |CLOSE_TAG|, s, word) == s
  {
    hide Layout, At, Run;
    var p := i + |after|;
    AtBound(t, CLOSE_TAG, p);
    LayoutRun(t, i, after, s, word);
    CloseTagRun(t, p, s, word);
    RunAppend(t, i, p, p + |CLOSE_TAG|, s, word);
  }

  lemma ReadsTagged(t: string, a: nat, body: string, s: State)
    requires At(t, body, a) && IsObject(body)
    requires !s.inStr && !s.esc && s.inTool && s.xmlEnd <= a && s.depth == 0 && s.start == -1
    ensures Reads(t, a, a + |body|, s)
  {
    hide IsObject;
    AtSlice(t, body, a);
    AtBound(t, body, a);
    NonEmpty(body);
  }

  lemma LastCloses(s: string)
    requires IsObject(s)
    ensures |s| > 1 && Closes(s[|s| - 1])
  {
    assert s[..0] == "" && s[..|s|] == s;
    FoldSnoc(OUTSIDE, s, |s| - 1);
    FoldSnoc(OUTSIDE, s, 0);
  }

  /** An object without tags. */
  lemma BareRun(t: string, i: nat, body: string, s: State, word: char -> bool)
    requires At(t, body, i) && IsObject(body) && TagsAreQuoted(body) && Between(s, i) && s.depth == 0
    ensures i + |body| <= |t|
    ensures Run(t, i, i + |body|, s, word) == s.(marks := s.marks + [Object(i, i + |body|)], inTool := false)
  {
    hide IsObject, Run, Reads, TagsAreQuoted;
    AtBound(t, body, i);
    ReadsBare(t, i, body, s);
    ObjectRun(t, i, i + |body|, s, word);
  }

  lemma ReadsBare(t: string, i: nat, body: string, s: State)
    requires At(t, body, i) && IsObject(body) && TagsAreQuoted(body) && Between(s, i) && s.depth == 0
    ensures Reads(t, i, i + |body|, s)
  {
    hide IsObject, Fold, At, TagsAreQuoted;
    var b := i + |body|;
    LastCloses(body);
    AtSlice(t, body, i);
    AtBound(t, body, i);
    assert t[i..b][|body| - 1] == t[b - 1];
    forall k | i <= k < b && At(t, OPEN_TAG, k) ensures Fold(OUTSIDE, t[i..k]).inStr {
      QuotedTag(t, i, body, k);
    }
  }

  lemma QuotedTag(t: string, i: nat, body: string, k: nat)
    requires At(t, body, i) && |body| > 1 && Closes(t[i + |body| - 1]) && TagsAreQuoted(body)
    requires i <= k < i + |body| && At(t, OPEN_TAG, k)
    ensures Fold(OUTSIDE, t[i..k]).inStr
  {
    hide Fold;
    var b := i + |body|;
    AtSlice(t, body, i);
    if b < k + |OPEN_TAG| {
      assert t[k + (b - 1 - k)] == OPEN_TAG[b - 1 - k];
      assert forall o | 0 <= o < |OPEN_TAG| :: !Closes(OPEN_TAG[o]);
    } else {
      forall o | 0 <= o < |OPEN_TAG| ensures body[k - i + o] == OPEN_TAG[o] {
        assert t[k + o] == OPEN_TAG[o] && t[i + (k - i + o)] == body[k - i + o];
      }
      assert At(body, OPEN_TAG, k - i);
      assert t[i..k] == body[..k - i];
    }
  }

  // ----------------------------------------------------------------------------------------
  // Skipped regions
  // ----------------------------------------------------------------------------------------

  /** No end of a region begins in the text from `i` to `e`, when its inner text holds none. */
  lemma NoEndBefore(t: string, i: nat, inner: string, k: nat)
    requires At(t, INVOKE, i) && At(t, inner, i + |INVOKE|) && i <= k < i + |INVOKE| + |inner|
    requires forall j | 0 <= j < |inner| :: !At(inner, INVOKE_END, j)
    requires var e := i + |INVOKE| + |inner|; e == |t| || t[e] == '<'
    ensures !At(t, INVOKE_END, k)
  {
    var n := i + |INVOKE|;
    var e := n + |inner|;
    assert forall o | 0 < o < |INVOKE_END| :: INVOKE_END[o] != '<';
    assert At(t, INVOKE_END, k) ==> t[k + 0] == INVOKE_END[0] && t[k + 1] == INVOKE_END[1];
    if k < n {
      assert t[i + (k - i)] == INVOKE[k - i] && t[i + 1] == INVOKE[1];
    } else if k + |INVOKE_END| <= e {
      InnerHolds(t, n, inner, k);
    } else {
      MismatchInside(t, INVOKE_END, k, e);
    }
  }

  lemma MismatchInside(t: string, pat: string, k: nat, e: nat)
    requires k < e < k + |pat| && (e == |t| || (e < |t| && t[e] != pat[e - k]))
    ensures !At(t, pat, k)
  {
    assert e < |t| ==> t[k + (e - k)] == t[e];
  }

  lemma InnerHolds(t: string, n: nat, inner: string, k: nat)
    requires At(t, inner, n) && n <= k && k + |INVOKE_END| <= n + |inner|
    ensures At(t, INVOKE_END, k) ==> At(inner, INVOKE_END, k - n)
  {
    forall o | 0 <= o < |INVOKE_END| && t[k + o] == INVOKE_END[o] ensures inner[k - n + o] == INVOKE_END[o] {
      assert t[n + (k - n + o)] == inner[k - n + o];
    }
  }

  lemma {:induction false} SkipRun(t: string, i: nat, j: nat, s: State, word: char -> bool)
    requires i <= j <= |t| && j <= s.xmlEnd
    ensures Run(t, i, j, s, word) == s
    decreases j - i
  {
    if i < j {
      SkipRun(t, i + 1, j, s, word);
    }
  }

  /** A region is skipped to its end, wherever that is. */
  lemma SkippedRun(t: string, i: nat, e: nat, s: State, word: char -> bool)
    requires At(t, INVOKE, i) && InvokeAt(t, i, word) && Between(s, i) && s.depth == 0 && SkipEnd(t, i) == e
    ensures i < e <= |t| && Run(t, i, e, s, word) == s.(xmlEnd := e, marks := s.marks + [Skipped(i, e)])
  {
    assert t[i + 0] == INVOKE[0];
    SkipRun(t, i + 1, e, Step(t, i, s, word), word);
  }

  lemma RegionRun(t: string, i: nat, inner: string, s: State, word: char -> bool)
    requires At(t, ItemText(Region(inner)), i) && GoodRegion(inner, word) && Between(s, i) && s.depth == 0
    ensures var e := i + |ItemText(Region(inner))|;
            e <= |t| && Run(t, i, e, s, word) == s.(xmlEnd := e, marks := s.marks + [Skipped(i, e)])
  {
    hide Find, Run;
    var n := i + |INVOKE|;
    var m := n + |inner|;
    AtSplit(t, INVOKE + inner, INVOKE_END, i);
    AtSplit(t, INVOKE, inner, i);
    assert t[m + 0] == INVOKE_END[0];
    assert inner != "" ==> t[n + 0] == inner[0];
    forall k | i <= k < m ensures !At(t, INVOKE_END, k) {
      NoEndBefore(t, i, inner, k);
    }
    EndIsFound(t, i, m);
    SkippedRun(t, i, m + |INVOKE_END|, s, word);
  }

  lemma EndIsFound(t: string, i: nat, m: nat)
    requires i <= m && At(t, INVOKE_END, m) && forall k | i <= k < m :: !At(t, INVOKE_END, k)
    ensures i < |t| && SkipEnd(t, i) == m + |INVOKE_END|
  {
    hide Find, At;
    AtBound(t, INVOKE_END, m);
  }

  /** A region without end is skipped to the end of the text. */
  lemma UnclosedRun(t: string, i: nat, inner: string, s: State, word: char -> bool)
    requires At(t, INVOKE + inner, i) && i + |INVOKE + inner| == |t| && GoodRest(inner, word)
    requires Between(s, i) && s.depth == 0
    ensures Run(t, i, |t|, s, word) == s.(xmlEnd := |t|, marks := s.marks + [Skipped(i, |t|)])
  {
    hide Find, Run;
    AtSplit(t, INVOKE, inner, i);
    assert inner != "" ==> t[i + |INVOKE| + 0] == inner[0];
    forall k | i <= k < |t| ensures !At(t, INVOKE_END, k) {
      NoEndBefore(t, i, inner, k);
    }
    NoEndIsFound(t, i);
    SkippedRun(t, i, |t|, s, word);
  }

  lemma NoEndIsFound(t: string, i: nat)
    requires i < |t| && forall k | i <= k < |t| :: !At(t, INVOKE_END, k)
    ensures SkipEnd(t, i) == |t|
  {
    assert !At(t, INVOKE_END, |t|);
  }

  lemma NonEmpty(s: string)
    requires IsObject(s)
    ensures |s| > 0
  {
  }

  /** Prose that opens nothing, before an item without tags. */
  lemma ProseOnly(t: string, i: nat, prose: string, s: State, word: char -> bool)
    requires At(t, prose, i) && GoodProse(prose) && !HasOpening(prose) && Between(s, i) && s.depth == 0
    requires var j := i + |prose|; j <= |t| && (j == |t| || Begins(t[j]))
    ensures var s' := Run(t, i, i + |prose|, s, word);
            Between(s', i + |prose|) && s'.marks == s.marks && s'.incomplete == s.incomplete && s'.depth == 0
  {
    hide GoodProse, Run;
    var j := i + |prose|;
    AtSlice(t, prose, i);
    OpeningInside(t, i, j, i);
    ProseRun(t, i, j, i, s, word);
  }

  function PartText(p: Part): string {
    p.prose + ItemText(p.item)
  }

  /** The mark the scanner sets for a part that begins at `i`. */
  function MarkOf(i: nat, p: Part): Mark {
    var n := i + |p.prose|;
    match p.item
    case Tagged(before, body, _) => Object(n + |OPEN_TAG| + |before|, n + |OPEN_TAG| + |before| + |body|)
    case Bare(body) => Object(n, n + |body|)
    case Region(_) => Skipped(n, n + |ItemText(p.item)|)
  }

  /** What a part does to the scanner between parts. */
  ghost predicate Passed(t: string, i: nat, p: Part, s: State, s': State) {
    var n := i + |PartText(p)|;
    && n <= |t|
    && s'.marks == s.marks + [MarkOf(i, p)] && s'.incomplete == (s.incomplete || HasOpening(p.prose))
    && Between(s', n) && s'.depth == 0
  }

  lemma TaggedRun(t: string, i: nat, p: Part, s: State, word: char -> bool)
    requires At(t, PartText(p), i) && GoodPart(p, word) && p.item.Tagged? && Between(s, i) && s.depth == 0
    ensures i + |PartText(p)| <= |t| && Passed(t, i, p, s, Run(t, i, i + |PartText(p)|, s, word))
  {
    hide GoodProse, IsObject, At, Layout, HasOpening, Run;
    var Tagged(before, body, after) := p.item;
    var n := i + |p.prose|;
    var q := n + |OPEN_TAG|;
    AtBound(t, PartText(p), i);
    AtSplit(t, p.prose, ItemText(p.item), i);
    Pieces(t, n, before, body, after);
    IntroRun(t, i, p.prose, s, word);
    var a := q + |before|;
    BodyRun(t, q, a, a + |body|, i + |PartText(p)|, before, body, after, Run(t, i, q, s, word), word);
    RunAppend(t, i, q, i + |PartText(p)|, s, word);
  }

  lemma BarePartRun(t: string, i: nat, p: Part, s: State, word: char -> bool)
    requires At(t, PartText(p), i) && GoodPart(p, word) && p.item.Bare? && Between(s, i) && s.depth == 0
    ensures i + |PartText(p)| <= |t| && Passed(t, i, p, s, Run(t, i, i + |PartText(p)|, s, word))
  {
    hide GoodProse, At, HasOpening, Run, IsObject, TagsAreQuoted;
    var n := i + |p.prose|;
    AtBound(t, PartText(p), i);
    AtSplit(t, p.prose, ItemText(p.item), i);
    FirstOpens(p.item.body);
    AtFirst(t, p.item.body, n);
    ProseOnly(t, i, p.prose, s, word);
    BareRun(t, n, p.item.body, Run(t, i, n, s, word), word);
    RunAppend(t, i, n, i + |PartText(p)|, s, word);
  }

  lemma RegionPartRun(t: string, i: nat, p: Part, s: State, word: char -> bool)
    requires At(t, PartText(p), i) && GoodPart(p, word) && p.item.Region? && Between(s, i) && s.depth == 0
    ensures i + |PartText(p)| <= |t| && Passed(t, i, p, s, Run(t, i, i + |PartText(p)|, s, word))
  {
    hide GoodProse, At, HasOpening, Run, GoodRegion;
    var n := i + |p.prose|;
    AtBound(t, PartText(p), i);
    AtSplit(t, p.prose, ItemText(p.item), i);
    AtFirst(t, ItemText(p.item), n);
    ProseOnly(t, i, p.prose, s, word);
    RegionRun(t, n, p.item.inner, Run(t, i, n, s, word), word);
    RunAppend(t, i, n, i + |PartText(p)|, s, word);
  }

  lemma FirstOpens(s: string)
    requires IsObject(s)
    ensures s != "" && Opens(s[0])
  {
  }

  lemma AtFirst(t: string, x: string, i: nat)
    requires At(t, x, i) && x != ""
    ensures i < |t| && t[i] == x[0]
  {
    assert t[i + 0] == x[0];
  }

  lemma PartRun(t: string, i: nat, p: Part, s: State, word: char -> bool)
    requires At(t, PartText(p), i) && GoodPart(p, word) && Between(s, i) && s.depth == 0
    ensures i + |PartText(p)| <= |t| && Passed(t, i, p, s, Run(t, i, i + |PartText(p)|, s, word))
    ensures var m := MarkOf(i, p);
            m.from <= m.to <= |t| && if p.item.Region? then m.Skipped? else m.Object? && t[m.from..m.to] == p.item.body
  {
    hide GoodPart, Passed, Run;
    match p.item {
      case Tagged(_, _, _) => TaggedRun(t, i, p, s, word);
      case Bare(_) => BarePartRun(t, i, p, s, word);
      case Region(_) => RegionPartRun(t, i, p, s, word);
    }
    MarkHolds(t, i, p);
  }

  lemma MarkHolds(t: string, i: nat, p: Part)
    requires At(t, PartText(p), i)
    ensures var m := MarkOf(i, p);
            m.from <= m.to <= |t| && if p.item.Region? then m.Skipped? else m.Object? && t[m.from..m.to] == p.item.body
  {
    hide At;
    var n := i + |p.prose|;
    AtBound(t, PartText(p), i);
    AtSplit(t, p.prose, ItemText(p.item), i);
    match p.item {
      case Tagged(before, body, after) =>
        Pieces(t, n, before, body, after);
        AtSlice(t, body, n + |OPEN_TAG| + |before|);
      case Bare(body) => AtSlice(t, body, n);
      case Region(_) =>
    }
  }

  // ----------------------------------------------------------------------------------------
  // A whole response
  // ----------------------------------------------------------------------------------------

  lemma StartsHere(t: string, i: nat, x: string, rest: string)
    requires i <= |t| && t[i..] == x + rest
    ensures At(t, x, i) && i + |x| <= |t| && t[i + |x|..] == rest
  {
    assert forall o | 0 <= o < |x| :: t[i + o] == t[i..][o];
    assert t[i + |x|..] == t[i..][|x|..];
  }

  lemma TailRun(t: string, i: nat, tail: Tail, s: State, word: char -> bool)
    requires i <= |t| && t[i..] == TailText(tail) && GoodTail(tail, word) && Between(s, i) && s.depth == 0
    ensures var s' := Run(t, i, |t|, s, word);
            && (s'.marks == s.marks || (tail.Unclosed? && s'.marks == s.marks + [Skipped(i + |tail.prose|, |t|)]))
            && i + |tail.prose| <= |t|
            && (s'.incomplete || s'.depth > 0) == (s.incomplete || HasOpening(tail.prose))
  {
    hide GoodProse, GoodRest, HasOpening, Run;
    match tail {
      case End(prose) =>
        assert t[i..|t|] == prose;
        ProseRun(t, i, |t|, i, s, word);
        OpeningInside(t, i, |t|, i);
      case Unclosed(prose, inner) =>
        var n := i + |prose|;
        assert t[i..] == prose + (INVOKE + inner);
        StartsHere(t, i, prose, INVOKE + inner);
        assert t[n..] == INVOKE + inner + "";
        StartsHere(t, n, INVOKE + inner, "");
        AtFirst(t, INVOKE + inner, n);
        ProseOnly(t, i, prose, s, word);
        UnclosedRun(t, n, inner, Run(t, i, n, s, word), word);
        RunAppend(t, i, n, |t|, s, word);
    }
  }

  lemma Associates(a: seq<string>, b: seq<string>, c: seq<string>)
    ensures a + b + c == a + (b + c)
  {
  }

  lemma {:induction false} ResponseRun(t: string, i: nat, parts: seq<Part>, tail: Tail, s: State, word: char -> bool)
    requires i <= |t| && t[i..] == Response(parts, tail)
    requires (forall p | p in parts :: GoodPart(p, word)) && GoodTail(tail, word)
    requires Between(s, i) && s.depth == 0
    requires forall m | m in s.marks :: m.from <= m.to <= |t|
    ensures
      var s' := Run(t, i, |t|, s, word);
      && (forall m | m in s'.marks :: m.from <= m.to <= |t|)
      && Texts(t, s'.marks) == Texts(t, s.marks) + Bodies(parts)
      && (s'.incomplete || s'.depth > 0) == (s.incomplete || SomeOpening(parts, tail))
    decreases |parts|
  {
    hide GoodTail, HasOpening, GoodPart, At, Run, ItemText, TailText, Texts, MarkOf, Between;
    if parts == [] {
      TailRun(t, i, tail, s, word);
      var s' := Run(t, i, |t|, s, word);
      if s'.marks != s.marks {
        TextsSnoc(t, s.marks, Skipped(i + |tail.prose|, |t|));
      }
      assert Texts(t, s.marks) + [] == Texts(t, s.marks);
    } else {
      var p, rest := parts[0], Response(parts[1..], tail);
      var n := i + |PartText(p)|;
      assert t[i..] == PartText(p) + rest;
      StartsHere(t, i, PartText(p), rest);
      PartRun(t, i, p, s, word);
      var s1 := Run(t, i, n, s, word);
      TextsSnoc(t, s.marks, MarkOf(i, p));
      ResponseRun(t, n, parts[1..], tail, s1, word);
      RunAppend(t, i, n, |t|, s, word);
      var here := if p.item.Region? then [] else [p.item.body];
      Associates(Texts(t, s.marks), here, Bodies(parts[1..]));
    }
  }

  /** Scanning a response of objects, tagged or not, and skipped regions, between prose, yields exactly those
      objects, in order, and nothing from inside a region; a region without end hides exactly the rest. The
      response counts as incomplete exactly when some stretch of prose opens a bracket. */
  lemma ScanUndoesPrinting(parts: seq<Part>, tail: Tail, word: char -> bool)
    requires (forall p | p in parts :: GoodPart(p, word)) && GoodTail(tail, word)
    ensures
      var t := Response(parts, tail);
      var s := Scan(t, word);
      && (forall m | m in s.marks :: m.from <= m.to <= |t|)
      && Texts(t, s.marks) == Bodies(parts)
      && (s.incomplete || s.depth > 0) == SomeOpening(parts, tail)
  {
    var t := Response(parts, tail);
    assert t[0..] == t;
    ResponseRun(t, 0, parts, tail, START, word);
  }

  // ----------------------------------------------------------------------------------------
  // JSON
  // ----------------------------------------------------------------------------------------

  /** A JSON value to be called with, tagged or not, in its own layout; or a skipped region. */
  datatype JsonItem =
    | JsonTagged(before: string, json: Json, style: Style, after: string)
    | JsonBare(json: Json, style: Style)
    | JsonRegion(inner: string)

  datatype JsonPart = JsonPart(prose: string, item: JsonItem)

  ghost predicate GoodJson(json: Json, style: Style) {
    GoodStyle(style) && WellFormed(json) && (json.JObject? || json.JArray?)
  }

  ghost predicate GoodJsonPart(j: JsonPart, word: char -> bool) {
    && GoodProse(j.prose)
    && match j.item
       case JsonTagged(before, json, style, after) => Layout(before) && Layout(after) && GoodJson(json, style)
       case JsonBare(json, style) => !HasOpening(j.prose) && GoodJson(json, style)
       case JsonRegion(inner) => !HasOpening(j.prose) && GoodRegion(inner, word)
  }

  function PrintPart(j: JsonPart): Part {
    Part(j.prose, match j.item
                  case JsonTagged(before, json, style, after) => Tagged(before, Print(json, style, 0), after)
                  case JsonBare(json, style) => Bare(Print(json, style, 0))
                  case JsonRegion(inner) => Region(inner))
  }

  function PrintParts(js: seq<JsonPart>): seq<Part> {
    seq(|js|, i requires 0 <= i < |js| => PrintPart(js[i]))
  }

  /** The printed values, in order. */
  function Values(js: seq<JsonPart>): seq<string> {
    if js == [] then []
    else (if js[0].item.JsonRegion? then [] else [Print(js[0].item.json, js[0].item.style, 0)]) + Values(js[1..])
  }

  lemma PrintedPartIsGood(j: JsonPart, word: char -> bool)
    requires GoodJsonPart(j, word)
    ensures GoodPart(PrintPart(j), word)
  {
    hide GoodProse, GoodStyle, IsObject, Print, HasOpening, GoodRegion, Layout, WellNested;
    if !j.item.JsonRegion? {
      PrintIsNested(j.item.json, j.item.style, 0);
      TagFreeIsQuoted(Print(j.item.json, j.item.style, 0));
    }
  }

  lemma TagFreeIsQuoted(s: string)
    requires TagFree(s)
    ensures TagsAreQuoted(s)
  {
    hide Fold;
    forall k | 0 <= k < |s| && At(s, OPEN_TAG, k) ensures Fold(OUTSIDE, s[..k]).inStr {
      assert s[k + 0] == OPEN_TAG[0];
    }
  }

  /** In particular for JSON: any objects or arrays, tagged or not, each in its own layout after its own prose,
      whatever their strings hold, come back exactly and in order, past every region that is skipped. */
  lemma JsonSurvivesScanning(js: seq<JsonPart>, tail: Tail, word: char -> bool)
    requires (forall j | j in js :: GoodJsonPart(j, word)) && GoodTail(tail, word)
    ensures
      var t := Response(PrintParts(js), tail);
      var s := Scan(t, word);
      && (forall m | m in s.marks :: m.from <= m.to <= |t|)
      && Texts(t, s.marks) == Values(js)
      && ((s.incomplete || s.depth > 0) <==> HasOpening(tail.prose) || exists j :: j in js && HasOpening(j.prose))
  {
    hide GoodPart, GoodTail, GoodJsonPart, PrintPart, HasOpening;
    var parts := PrintParts(js);
    forall p | p in parts
      ensures GoodPart(p, word)
    {
      var i :| 0 <= i < |js| && p == parts[i];
      PrintedPartIsGood(js[i], word);
    }
    ScanUndoesPrinting(parts, tail, word);
    BodiesOfPrinted(js);
    SomeProseOpens(js, tail);
  }

  lemma {:induction false} SomeProseOpens(js: seq<JsonPart>, tail: Tail)
    ensures SomeOpening(PrintParts(js), tail)
       <==> HasOpening(tail.prose) || exists j :: j in js && HasOpening(j.prose)
    decreases |js|
  {
    hide HasOpening, Print;
    if js != [] {
      SomeProseOpens(js[1..], tail);
      assert PrintParts(js)[1..] == PrintParts(js[1..]);
      assert js == [js[0]] + js[1..];
    }
  }

  lemma {:induction false} BodiesOfPrinted(js: seq<JsonPart>)
    ensures Bodies(PrintParts(js)) == Values(js)
    decreases |js|
  {
    hide Print;
    if js != [] {
      BodiesOfPrinted(js[1..]);
      assert PrintParts(js)[1..] == PrintParts(js[1..]);
    }
  }
}
