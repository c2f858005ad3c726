/** The tool-call scanner of the agent loop (src/core/agent_loop.py:796-852). */
module ToolCallScanner {
  import opened TextSearch
  import opened BracketText

  const OPEN_TAG := "<tool_call>"
  const CLOSE_TAG := "</tool_call>"
  const INVOKE := "<invoke"
  const INVOKE_END := "</invoke>"

  /** A stretch of the response the scanner has set aside. */
  datatype Mark = Object(from: nat, to: nat) | Skipped(from: nat, to: nat)

  /** The scanner's state before reading position `i`. `start` is -1 while no slice is open. */
  datatype State = State(
    marks: seq<Mark>, incomplete: bool, depth: nat, start: int, inTool: bool, inStr: bool, esc: bool, xmlEnd: int)

  const START := State([], false, 0, -1, false, false, false, -1)

  /** `re.match(r"<invoke\b", text[i:])`; `word` is the platform's `\w` on one character. */
  predicate InvokeAt(text: string, i: nat, word: char -> bool) {
    At(text, INVOKE, i) && (i + |INVOKE| == |text| || !word(text[i + |INVOKE|]))
  }

  /** Where the skipped region that begins with `<invoke` at `i` ends. */
  function SkipEnd(text: string, i: nat): (r: nat)
    requires i < |text|
    ensures i < r <= |text|
  {
    var e := Find(text, INVOKE_END, i);
    if e <= |text| then e + |INVOKE_END| else |text|
  }

  function Step(text: string, i: nat, s: State, word: char -> bool): State
    requires i < |text|
  {
    var ch := text[i];
    if i < s.xmlEnd then s
    else if s.inStr then
      if s.esc then s.(esc := false)
      else if ch == '\\' then s.(esc := true)
      else if ch == '"' then s.(inStr := false)
      else s
    else if s.depth == 0 && ch == '<' && InvokeAt(text, i, word) then
      s.(xmlEnd := SkipEnd(text, i), marks := s.marks + [Skipped(i, SkipEnd(text, i))])
    else if ch == '<' && At(text, OPEN_TAG, i) then
      if s.depth == 0 || !s.inTool then
        s.(incomplete := s.incomplete || s.depth > 0, depth := 0, start := -1, inTool := true)
      else s
    else if ch == '"' && s.depth > 0 then s.(inStr := true)
    else if Opens(ch) then s.(start := if s.depth == 0 then i else s.start, depth := s.depth + 1)
    else if Closes(ch) && s.depth > 0 then
      if s.depth == 1 && s.start >= 0 then
        s.(depth := 0, marks := s.marks + [Object(s.start, i + 1)], start := -1, inTool := false)
      else s.(depth := s.depth - 1)
    else s
  }

  function Run(text: string, i: nat, j: nat, s: State, word: char -> bool): State
    requires i <= j <= |text|
    decreases j - i
  {
    if i == j then s else Run(text, i + 1, j, Step(text, i, s, word), word)
  }

  function Scan(text: string, word: char -> bool): State {
    Run(text, 0, |text|, START, word)
  }

  function Texts(text: string, marks: seq<Mark>): seq<string>
    requires forall m | m in marks :: m.from <= m.to <= |text|
  {
    if marks == [] then []
    else (if marks[0].Object? then [text[marks[0].from..marks[0].to]] else []) + Texts(text, marks[1..])
  }

  // ----------------------------------------------------------------------------------------
  // Soundness on every input
  // ----------------------------------------------------------------------------------------

  function EndOf(marks: seq<Mark>): nat {
    if marks == [] then 0 else marks[|marks| - 1].to
  }

  /** The marks are nonempty, in order and disjoint, and every extracted slice is exactly one object. */
  ghost predicate Ordered(text: string, marks: seq<Mark>) {
    && (forall k | 0 <= k < |marks| :: marks[k].from < marks[k].to <= |text|)
    && (forall k | 0 <= k < |marks| - 1 :: marks[k].to <= marks[k + 1].from)
    && (forall k | 0 <= k < |marks| && marks[k].Object? :: IsObject(text[marks[k].from..marks[k].to]))
    && (forall k | 0 <= k < |marks| && marks[k].Skipped? :: At(text, INVOKE, marks[k].from))
  }

  /** The open slice so far: its count is the scanner's depth and it has not been closed. */
  ghost predicate OpenSlice(text: string, i: nat, s: State) {
    && 0 <= s.start < i <= |text|
    && EndOf(s.marks) <= s.start && s.xmlEnd <= s.start
    && Opens(text[s.start])
    && Fold(OUTSIDE, text[s.start..i]) == Balance(s.depth, s.inStr, s.esc)
    && (forall j | s.start < j <= i :: Fold(OUTSIDE, text[s.start..j]).depth > 0)
  }

  ghost predicate Good(text: string, i: nat, s: State) {
    && i <= |text|
    && Ordered(text, s.marks)
    && s.xmlEnd <= |text|
    && EndOf(s.marks) <= (if i < s.xmlEnd then s.xmlEnd else i)
    && (s.depth == 0 <==> s.start == -1)
    && (s.depth == 0 ==> !s.inStr) && (s.esc ==> s.inStr)
    && (s.depth > 0 ==> OpenSlice(text, i, s))
  }

  /** One more character of the open slice. */
  lemma SliceGrows(text: string, a: nat, i: nat)
    requires a <= i < |text|
    ensures Fold(OUTSIDE, text[a..i + 1]) == BracketText.Next(Fold(OUTSIDE, text[a..i]), text[i])
  {
    FoldSnoc(OUTSIDE, text[a..], i - a);
    assert text[a..][..i - a] == text[a..i] && text[a..][..i + 1 - a] == text[a..i + 1];
  }

  lemma SliceIsObject(text: string, a: nat, b: nat)
    requires a < b <= |text| && Opens(text[a]) && Fold(OUTSIDE, text[a..b]) == OUTSIDE
    requires forall j | a < j < b :: Fold(OUTSIDE, text[a..j]).depth > 0
    ensures IsObject(text[a..b])
  {
    forall j | 0 < j < b - a
      ensures Fold(OUTSIDE, text[a..b][..j]).depth > 0
    {
      assert text[a..b][..j] == text[a..a + j];
    }
  }

  /** Appending a mark that begins where the last one ended, or later. */
  lemma MarkAppended(text: string, marks: seq<Mark>, m: Mark)
    requires Ordered(text, marks) && EndOf(marks) <= m.from < m.to <= |text|
    requires m.Object? ==> IsObject(text[m.from..m.to])
    requires m.Skipped? ==> At(text, INVOKE, m.from)
    ensures Ordered(text, marks + [m]) && EndOf(marks + [m]) == m.to
  {
    hide IsObject, At;
  }

  lemma OpenStepKeepsGood(text: string, i: nat, s: State, word: char -> bool)
    requires i < |text| && Good(text, i, s) && s.depth > 0
    ensures Good(text, i + 1, Step(text, i, s, word))
  {
    hide IsObject, Ordered, InvokeAt, Fold;
    var s' := Step(text, i, s, word);
    SliceGrows(text, s.start, i);
    if s'.marks != s.marks {
      SliceIsObject(text, s.start, i + 1);
      MarkAppended(text, s.marks, Object(s.start, i + 1));
    }
  }

  lemma ClosedStepKeepsGood(text: string, i: nat, s: State, word: char -> bool)
    requires i < |text| && Good(text, i, s) && s.depth == 0
    ensures Good(text, i + 1, Step(text, i, s, word))
  {
    hide IsObject, Ordered;
    var s' := Step(text, i, s, word);
    if Opens(text[i]) {
      assert text[i..i] == "";
      SliceGrows(text, i, i);
    }
    if s'.marks != s.marks {
      MarkAppended(text, s.marks, Skipped(i, SkipEnd(text, i)));
    }
  }

  lemma {:induction false} RunKeepsGood(text: string, i: nat, j: nat, s: State, word: char -> bool)
    requires i <= j <= |text| && Good(text, i, s)
    ensures Good(text, j, Run(text, i, j, s, word))
    decreases j - i
  {
    hide Good, Step;
    if i < j {
      if s.depth > 0 {
        OpenStepKeepsGood(text, i, s, word);
      } else {
        ClosedStepKeepsGood(text, i, s, word);
      }
      RunKeepsGood(text, i + 1, j, Step(text, i, s, word), word);
    }
  }

  /** Every response: what is extracted and what is skipped are ordered, disjoint slices; each extracted
      one opens with a bracket that is closed exactly at its end; and the count is zero exactly when no
      slice is open. */
  lemma ScanIsSound(text: string, word: char -> bool)
    ensures Ordered(text, Scan(text, word).marks)
    ensures forall k | 0 <= k < |Scan(text, word).marks| ::
              forall l | k < l < |Scan(text, word).marks| ::
                Scan(text, word).marks[k].to <= Scan(text, word).marks[l].from
    ensures Scan(text, word).depth == 0 <==> Scan(text, word).start == -1
    ensures Scan(text, word).depth > 0 ==> OpenSlice(text, |text|, Scan(text, word))
  {
    hide IsObject, Run;
    RunKeepsGood(text, 0, |text|, START, word);
    OrderedApart(text, Scan(text, word).marks);
  }

  lemma OrderedApart(text: string, marks: seq<Mark>)
    requires Ordered(text, marks)
    ensures forall k, l | 0 <= k < l < |marks| :: marks[k].to <= marks[l].from
  {
    hide IsObject, At;
    forall k, l | 0 <= k < l < |marks|
      ensures marks[k].to <= marks[l].from
    {
      MarkBefore(text, marks, k, l);
    }
  }

  lemma {:induction false} MarkBefore(text: string, marks: seq<Mark>, k: nat, l: nat)
    requires Ordered(text, marks) && k < l < |marks|
    ensures marks[k].to <= marks[l].from
    decreases l - k
  {
    hide IsObject, At;
    if k + 1 < l {
      MarkBefore(text, marks, k, l - 1);
    }
  }

  // ----------------------------------------------------------------------------------------
  // The loop
  // ----------------------------------------------------------------------------------------

  lemma {:induction false} RunSnoc(text: string, i: nat, j: nat, s: State, word: char -> bool)
    requires i <= j < |text|
    ensures Run(text, i, j + 1, s, word) == Step(text, j, Run(text, i, j, s, word), word)
    decreases j - i
  {
    if i < j {
      RunSnoc(text, i + 1, j, Step(text, i, s, word), word);
    }
  }

  lemma {:induction false} TextsSnoc(text: string, marks: seq<Mark>, m: Mark)
    requires forall k | k in marks + [m] :: k.from <= k.to <= |text|
    ensures Texts(text, marks + [m]) == Texts(text, marks) + if m.Object? then [text[m.from..m.to]] else []
  {
    if marks != [] {
      assert forall k | k in marks[1..] + [m] :: k in marks + [m];
      TextsSnoc(text, marks[1..], m);
      assert (marks + [m])[1..] == marks[1..] + [m] && (marks + [m])[0] == marks[0];
    } else {
      assert marks + [m] == [m] && [m][1..] == [];
    }
  }

  lemma MarksInText(text: string, marks: seq<Mark>)
    requires Ordered(text, marks)
    ensures forall m | m in marks :: m.from <= m.to <= |text|
  {
    hide IsObject, At;
  }

  /** `_scan_json_objects`: one pass over the response. */
  method ScanJsonObjects(text: string, word: char -> bool) returns (objs: seq<string>, incomplete: bool)
    ensures Ordered(text, Scan(text, word).marks)
    ensures (forall m | m in Scan(text, word).marks :: m.from <= m.to <= |text|)
            && objs == Texts(text, Scan(text, word).marks)
    ensures incomplete == (Scan(text, word).incomplete || Scan(text, word).depth > 0)
  {
    hide IsObject, At, InvokeAt, Fold, Good, OpenSlice, Ordered, Texts, Run;
    objs, incomplete := [], false;
    var depth: nat, start, inToolBlock, inStr, esc, xmlEnd := 0, -1, false, false, false, -1;
    ghost var s := START;
    NothingScanned(text, word);
    var i := 0;
    while i < |text|
      invariant 0 <= i <= |text| && Good(text, i, s)
      invariant s == Run(text, 0, i, START, word)
      invariant incomplete == s.incomplete && depth == s.depth && start == s.start && inToolBlock == s.inTool
      invariant inStr == s.inStr && esc == s.esc && xmlEnd == s.xmlEnd
      invariant (forall m | m in s.marks :: m.from <= m.to <= |text|) && objs == Texts(text, s.marks)
      decreases |text| - i
    {
      ghost var before := s;
      s := Step(text, i, s, word);
      StepFacts(text, i, before, word);
      var ch := text[i];
      if i < xmlEnd {
      } else if inStr {
        if esc {
          esc := false;
        } else if ch == '\\' {
          esc := true;
        } else if ch == '"' {
          inStr := false;
        }
      } else if depth == 0 && ch == '<' && InvokeAt(text, i, word) {
        var end := Find(text, INVOKE_END, i);
        xmlEnd := if end > |text| then |text| else end + |INVOKE_END|;
      } else if ch == '<' && At(text, OPEN_TAG, i) {
        if depth == 0 || !inToolBlock {
          incomplete := incomplete || depth > 0;
          depth, start := 0, -1;
          inToolBlock := true;
        }
      } else if ch == '"' && depth > 0 {
        inStr := true;
      } else if Opens(ch) {
        if depth == 0 {
          start := i;
        }
        depth := depth + 1;
      } else if Closes(ch) {
        if depth > 0 {
          depth := depth - 1;
          if depth == 0 && start >= 0 {
            objs := objs + [text[start..i + 1]];
            start := -1;
            inToolBlock := false;
          }
        }
      }
      i := i + 1;
    }
    ScanIsSound(text, word);
    incomplete := incomplete || depth > 0;
  }

  lemma NothingScanned(text: string, word: char -> bool)
    ensures Run(text, 0, 0, START, word) == START && Good(text, 0, START) && Texts(text, []) == []
  {
  }

  /** The text a step extracts, if any. */
  function NewTexts(text: string, s: State, s': State): seq<string>
    requires forall m | m in s'.marks :: m.from <= m.to <= |text|
  {
    if s'.marks == s.marks || s'.marks == [] then []
    else
      var m := s'.marks[|s'.marks| - 1];
      if m.Object? then [text[m.from..m.to]] else []
  }

  lemma StepKeepsGood(text: string, i: nat, s: State, word: char -> bool)
    requires i < |text| && Good(text, i, s)
    ensures Good(text, i + 1, Step(text, i, s, word))
  {
    hide Good, Step;
    if s.depth > 0 {
      OpenStepKeepsGood(text, i, s, word);
    } else {
      ClosedStepKeepsGood(text, i, s, word);
    }
  }

  /** A step adds at most one mark. */
  lemma StepMarks(text: string, i: nat, s: State, word: char -> bool)
    requires i < |text|
    ensures var s' := Step(text, i, s, word);
            s'.marks == s.marks || (|s'.marks| == |s.marks| + 1 && s'.marks == s.marks + [s'.marks[|s.marks|]])
  {
    hide At, InvokeAt, SkipEnd;
  }

  lemma GoodFacts(text: string, i: nat, s: State)
    requires Good(text, i, s)
    ensures Ordered(text, s.marks) && s.start <= i && (s.depth > 0 ==> s.start >= 0)
  {
    hide Ordered, IsObject, Fold;
  }

  /** What one step gives the loop: the invariant, the next state of the run, and the extracted texts. */
  lemma StepFacts(text: string, i: nat, s: State, word: char -> bool)
    requires i < |text| && Good(text, i, s) && s == Run(text, 0, i, START, word)
    ensures Good(text, i + 1, Step(text, i, s, word)) && Step(text, i, s, word) == Run(text, 0, i + 1, START, word)
    ensures forall m | m in Step(text, i, s, word).marks :: m.from <= m.to <= |text|
    ensures s.start <= i && (s.depth > 0 ==> s.start >= 0)
    ensures forall m | m in s.marks :: m.from <= m.to <= |text|
    ensures Texts(text, Step(text, i, s, word).marks)
            == Texts(text, s.marks) + NewTexts(text, s, Step(text, i, s, word))
  {
    hide Good, Ordered, Step, Run, Texts;
    StepKeepsGood(text, i, s, word);
    RunSnoc(text, 0, i, START, word);
    var s' := Step(text, i, s, word);
    GoodFacts(text, i, s);
    GoodFacts(text, i + 1, s');
    StepMarks(text, i, s, word);
    MarksInText(text, s.marks);
    MarksInText(text, s'.marks);
    if s'.marks != s.marks {
      TextsSnoc(text, s.marks, s'.marks[|s.marks|]);
    }
  }
}
