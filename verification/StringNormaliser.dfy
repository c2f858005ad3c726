/** The repair of literal newlines and tabs inside JSON strings (src/core/agent_loop.py:854-891). */
module StringNormaliser {
  import opened BracketText
  import opened ToolCallScanner
  import opened ToolCallRoundTrip

  /** The normaliser's own reading of the text: a backslash escapes the next character inside a string
      and outside it alike. */
  datatype Mode = Mode(inString: bool, escapeNext: bool)

  const PLAINLY := Mode(false, false)

  function After(m: Mode, c: char): Mode {
    if m.escapeNext then m.(escapeNext := false)
    else if c == '\\' then m.(escapeNext := true)
    else if c == '"' then m.(inString := !m.inString)
    else m
  }

  predicate IsRaw(m: Mode, c: char) {
    m.inString && !m.escapeNext && (c == '\n' || c == '\t')
  }

  function Replacement(m: Mode, c: char): string {
    if !IsRaw(m, c) then [c] else if c == '\n' then "\\n" else "\\t"
  }

  function Normalise(m: Mode, s: string): string
    decreases |s|
  {
    if s == "" then "" else Replacement(m, s[0]) + Normalise(After(m, s[0]), s[1..])
  }

  /** `_normalize_json_strings`: one pass with two flags. */
  method NormalizeJsonStrings(raw: string) returns (result: string)
    ensures result == Normalise(PLAINLY, raw)
  {
    result := "";
    var inString, escapeNext := false, false;
    var i := 0;
    while i < |raw|
      invariant 0 <= i <= |raw|
      invariant result + Normalise(Mode(inString, escapeNext), raw[i..]) == Normalise(PLAINLY, raw)
    {
      var c := raw[i];
      ghost var m := Mode(inString, escapeNext);
      ghost var done := result;
      assert raw[i..][1..] == raw[i + 1..];
      assert done + Normalise(m, raw[i..]) == (done + Replacement(m, c)) + Normalise(After(m, c), raw[i + 1..]);
      if escapeNext {
        result := result + [c];
        escapeNext := false;
      } else if c == '\\' {
        escapeNext := true;
        result := result + [c];
      } else if c == '"' {
        inString := !inString;
        result := result + [c];
      } else if inString && c == '\n' {
        result := result + "\\n";
      } else if inString && c == '\t' {
        result := result + "\\t";
      } else {
        result := result + [c];
      }
      i := i + 1;
    }
    assert raw[i..] == "";
  }

  // ----------------------------------------------------------------------------------------
  // Fixed points
  // ----------------------------------------------------------------------------------------

  /** No unescaped literal newline or tab inside a string. */
  predicate NoRaw(m: Mode, s: string)
    decreases |s|
  {
    s == "" || (!IsRaw(m, s[0]) && NoRaw(After(m, s[0]), s[1..]))
  }

  lemma {:induction false} NormaliseGrows(m: Mode, s: string)
    ensures |Normalise(m, s)| >= |s|
    ensures !NoRaw(m, s) ==> |Normalise(m, s)| > |s|
    decreases |s|
  {
    if s != "" {
      NormaliseGrows(After(m, s[0]), s[1..]);
    }
  }

  lemma {:induction false} CleanTextUnchanged(m: Mode, s: string)
    requires NoRaw(m, s)
    ensures Normalise(m, s) == s
    decreases |s|
  {
    if s != "" {
      CleanTextUnchanged(After(m, s[0]), s[1..]);
    }
  }

  /** The normaliser leaves a text alone exactly when no string in it holds a literal newline or tab. */
  lemma UnchangedExactlyWhenClean(s: string)
    ensures Normalise(PLAINLY, s) == s <==> NoRaw(PLAINLY, s)
  {
    NormaliseGrows(PLAINLY, s);
    if NoRaw(PLAINLY, s) {
      CleanTextUnchanged(PLAINLY, s);
    }
  }

  lemma {:induction false} NormalisedIsClean(m: Mode, s: string)
    ensures NoRaw(m, Normalise(m, s))
    decreases |s|
  {
    if s != "" {
      var rest := Normalise(After(m, s[0]), s[1..]);
      NormalisedIsClean(After(m, s[0]), s[1..]);
      if IsRaw(m, s[0]) {
        var n := Normalise(m, s);
        assert n[0] == '\\' && n[1..][1..] == rest && n[1..][0] == Replacement(m, s[0])[1];
        assert After(After(m, n[0]), n[1..][0]) == m == After(m, s[0]);
      } else {
        assert Normalise(m, s) == [s[0]] + rest;
      }
    }
  }

  lemma NormaliseTwice(s: string)
    ensures Normalise(PLAINLY, Normalise(PLAINLY, s)) == Normalise(PLAINLY, s)
  {
    NormalisedIsClean(PLAINLY, s);
    CleanTextUnchanged(PLAINLY, Normalise(PLAINLY, s));
  }

  // ----------------------------------------------------------------------------------------
  // Inverse of relaxing
  // ----------------------------------------------------------------------------------------

  /** Writing the `\n` and `\t` escapes of strings as literal characters. */
  function Relax(s: string, inString: bool): string
    decreases |s|
  {
    if s == "" then ""
    else if inString && s[0] == '\\' && |s| >= 2 then
      (if s[1] == 'n' then "\n" else if s[1] == 't' then "\t" else s[..2]) + Relax(s[2..], inString)
    else [s[0]] + Relax(s[1..], if s[0] == '"' then !inString else inString)
  }

  /** No backslash outside strings. */
  predicate NoOutsideBackslash(m: Mode, s: string)
    decreases |s|
  {
    s == "" || ((s[0] == '\\' ==> m.inString) && NoOutsideBackslash(After(m, s[0]), s[1..]))
  }

  /** For text with no backslash outside strings and no raw newline or tab inside one -- JSON text in
      particular -- normalising the relaxed text gives the text back. */
  lemma {:induction false} NormaliseUndoesRelax(s: string, inString: bool)
    requires NoOutsideBackslash(Mode(inString, false), s) && NoRaw(Mode(inString, false), s)
    ensures Normalise(Mode(inString, false), Relax(s, inString)) == s
    decreases |s|
  {
    var m := Mode(inString, false);
    if s == "" {
    } else if inString && s[0] == '\\' && |s| >= 2 {
      assert s[1..][0] == s[1] && s[1..][1..] == s[2..];
      NormaliseUndoesRelax(s[2..], inString);
      EscapeUndone(s);
    } else {
      var next := if s[0] == '"' then !inString else inString;
      var r := Relax(s, inString);
      if s[0] == '\\' {
        assert |s| == 1 && r == s;
        assert r[1..] == "";
      } else {
        NormaliseUndoesRelax(s[1..], next);
        assert r == [s[0]] + Relax(s[1..], next) && r[1..] == Relax(s[1..], next);
      }
    }
  }

  lemma EscapeUndone(s: string)
    requires |s| >= 2 && s[0] == '\\'
    requires Normalise(Mode(true, false), Relax(s[2..], true)) == s[2..]
    ensures Normalise(Mode(true, false), Relax(s, true)) == s
  {
    hide Normalise;
    var m, rest, r := Mode(true, false), Relax(s[2..], true), Relax(s, true);
    assert s == [s[0]] + [s[1]] + s[2..];
    if s[1] == 'n' || s[1] == 't' {
      var c := if s[1] == 'n' then '\n' else '\t';
      assert r == [c] + rest;
      NormaliseCons(m, c, rest);
    } else {
      assert r == [s[0]] + ([s[1]] + rest);
      NormaliseCons(m, s[0], [s[1]] + rest);
      NormaliseCons(After(m, s[0]), s[1], rest);
    }
  }

  lemma NormaliseCons(m: Mode, c: char, rest: string)
    ensures Normalise(m, [c] + rest) == Replacement(m, c) + Normalise(After(m, c), rest)
  {
    assert ([c] + rest)[1..] == rest;
  }

  // ----------------------------------------------------------------------------------------
  // Extraction survives
  // ----------------------------------------------------------------------------------------

  /** How the normaliser's reading follows the scanner's: inside the scanner's strings the escapes agree. */
  predicate Follows(b: Balance, m: Mode) {
    (b.inStr ==> b.esc == m.escapeNext) && (!b.inStr ==> !b.esc)
  }

  lemma ReplacementFolds(b: Balance, m: Mode, c: char)
    requires Follows(b, m)
    ensures Fold(b, Replacement(m, c)) == Next(b, c) && Follows(Next(b, c), After(m, c))
    ensures forall j | 0 < j <= |Replacement(m, c)| :: Fold(b, Replacement(m, c)[..j]).depth == Next(b, c).depth
  {
    var r := Replacement(m, c);
    assert r[..1] == [r[0]];
    FoldSnoc(b, r, 0);
    assert r[..0] == "";
    if |r| == 2 {
      FoldSnoc(b, r, 1);
      assert r[..2] == r;
    }
  }

  /** Normalising never changes the bracket count of a text, whether or not the two readings agree on
      where strings are; every prefix of the result has the count of some prefix of the original. */
  lemma {:induction false} NormaliseFolds(b: Balance, m: Mode, s: string)
    requires Follows(b, m)
    ensures Fold(b, Normalise(m, s)) == Fold(b, s)
    decreases |s|
  {
    if s != "" {
      ReplacementFolds(b, m, s[0]);
      NormaliseFolds(Next(b, s[0]), After(m, s[0]), s[1..]);
      FoldAppend(b, Replacement(m, s[0]), Normalise(After(m, s[0]), s[1..]));
    }
  }

  lemma {:induction false} NormalisedPrefix(b: Balance, m: Mode, s: string, j: nat) returns (k: nat)
    requires Follows(b, m) && j <= |Normalise(m, s)|
    ensures k <= |s| && Fold(b, Normalise(m, s)[..j]).depth == Fold(b, s[..k]).depth
    ensures 0 < j ==> 0 < k
    decreases |s|
  {
    k := 0;
    if j == 0 {
      assert Normalise(m, s)[..0] == "" && s[..0] == "";
    } else {
      var r, rest := Replacement(m, s[0]), Normalise(After(m, s[0]), s[1..]);
      ReplacementFolds(b, m, s[0]);
      if j <= |r| {
        k := 1;
        assert Normalise(m, s)[..j] == r[..j];
        FoldSnoc(b, s, 0);
        assert s[..0] == "";
      } else {
        var l := NormalisedPrefix(Next(b, s[0]), After(m, s[0]), s[1..], j - |r|);
        k := l + 1;
        assert Normalise(m, s)[..j] == r + rest[..j - |r|];
        FoldAppend(b, r, rest[..j - |r|]);
        assert s[..k] == [s[0]] + s[1..][..l];
        FoldAppend(b, [s[0]], s[1..][..l]);
      }
    }
  }

  lemma {:induction false} NormaliseSnoc(m: Mode, s: string, c: char)
    requires c != '\n' && c != '\t'
    ensures Normalise(m, s + [c]) == Normalise(m, s) + [c]
    decreases |s|
  {
    if s == "" {
      assert s + [c] == [c] && [c][1..] == "";
    } else {
      NormaliseSnoc(After(m, s[0]), s[1..], c);
      assert (s + [c])[1..] == s[1..] + [c];
    }
  }

  /** An extracted object is closed by a bracket. */
  lemma LastCloses(s: string)
    requires IsObject(s)
    ensures |s| >= 2 && Closes(s[|s| - 1])
  {
    FoldSnoc(OUTSIDE, s, |s| - 1);
    assert s[..|s|] == s && s[..0] == "";
  }

  /** Normalising keeps an extractable object an extractable object. */
  lemma NormaliseKeepsObject(s: string)
    requires IsObject(s)
    ensures IsObject(Normalise(PLAINLY, s))
  {
    LastCloses(s);
    var u, c := s[..|s| - 1], s[|s| - 1];
    var n := Normalise(PLAINLY, s);
    assert s == u + [c];
    NormaliseSnoc(PLAINLY, u, c);
    NormaliseFolds(OUTSIDE, PLAINLY, s);
    forall j | 0 < j < |n|
      ensures Fold(OUTSIDE, n[..j]).depth > 0
    {
      assert n[..j] == Normalise(PLAINLY, u)[..j];
      var k := NormalisedPrefix(OUTSIDE, PLAINLY, u, j);
      assert s[..k] == u[..k];
    }
    assert n[0] == s[0];
  }

  /** ... so a repaired call, tagged again, is scanned as exactly one call, and completely. */
  lemma RepairedCallIsOneCall(s: string, word: char -> bool)
    requires IsObject(s)
    ensures
      var n := Normalise(PLAINLY, s);
      var t := Response([Part("", Tagged("", n, ""))], End(""));
      var scan := Scan(t, word);
      && (forall m | m in scan.marks :: m.from <= m.to <= |t|)
      && Texts(t, scan.marks) == [n] && !scan.incomplete && scan.depth == 0
  {
    NormaliseKeepsObject(s);
    var n := Normalise(PLAINLY, s);
    var parts := [Part("", Tagged("", n, ""))];
    assert GoodPart(parts[0], word);
    ScanUndoesPrinting(parts, End(""), word);
    assert parts[1..] == [];
    assert Bodies(parts) == [n];
  }

  // ----------------------------------------------------------------------------------------
  // JSON text is in the domain of the inverse law
  // ----------------------------------------------------------------------------------------

  function AfterAll(m: Mode, s: string): Mode
    decreases |s|
  {
    if s == "" then m else AfterAll(After(m, s[0]), s[1..])
  }

  /** Text the inverse law applies to, that also ends outside strings. */
  predicate Tidy(s: string) {
    NoOutsideBackslash(PLAINLY, s) && NoRaw(PLAINLY, s) && AfterAll(PLAINLY, s) == PLAINLY
  }

  lemma {:induction false} SplitText(m: Mode, x: string, y: string)
    ensures NoOutsideBackslash(m, x + y) == (NoOutsideBackslash(m, x) && NoOutsideBackslash(AfterAll(m, x), y))
    ensures NoRaw(m, x + y) == (NoRaw(m, x) && NoRaw(AfterAll(m, x), y))
    ensures AfterAll(m, x + y) == AfterAll(AfterAll(m, x), y)
    decreases |x|
  {
    if x == "" {
      assert x + y == y;
    } else {
      SplitText(After(m, x[0]), x[1..], y);
      assert (x + y)[1..] == x[1..] + y;
    }
  }

  lemma TidyAppend(x: string, y: string)
    requires Tidy(x) && Tidy(y)
    ensures Tidy(x + y)
  {
    SplitText(PLAINLY, x, y);
  }

  lemma {:induction false} PlainIsTidy(s: string)
    requires forall c | c in s :: c != '"' && c != '\\'
    ensures Tidy(s)
    decreases |s|
  {
    if s != "" {
      assert forall c | c in s[1..] :: c in s;
      assert s[0] in s;
      PlainIsTidy(s[1..]);
    }
  }

  lemma EscapeIsTidy(c: char)
    ensures var m := Mode(true, false);
            NoOutsideBackslash(m, Escape(c)) && NoRaw(m, Escape(c)) && AfterAll(m, Escape(c)) == m
  {
    var m, e := Mode(true, false), Escape(c);
    if |e| == 2 {
      assert e == [e[0]] + [e[1]];
      SplitText(m, [e[0]], [e[1]]);
    } else if |e| == 6 {
      assert e == "\\u" + "00" + [e[4]] + [e[5]];
      SplitText(m, "\\u" + "00" + [e[4]], [e[5]]);
      SplitText(m, "\\u" + "00", [e[4]]);
      SplitText(m, "\\u", "00");
    }
  }

  lemma {:induction false} EscapedIsTidy(s: string)
    ensures var m := Mode(true, false);
            NoOutsideBackslash(m, EscapeAll(s)) && NoRaw(m, EscapeAll(s)) && AfterAll(m, EscapeAll(s)) == m
    decreases |s|
  {
    if s != "" {
      EscapeIsTidy(s[0]);
      EscapedIsTidy(s[1..]);
      SplitText(Mode(true, false), Escape(s[0]), EscapeAll(s[1..]));
    }
  }

  lemma QuoteIsTidy(s: string)
    ensures Tidy(Quote(s))
  {
    EscapedIsTidy(s);
    SplitText(PLAINLY, "\"", EscapeAll(s));
    SplitText(PLAINLY, "\"" + EscapeAll(s), "\"");
  }

  lemma LayoutIsTidy(style: Style, d: nat)
    requires GoodStyle(style)
    ensures Tidy(style.pad(d)) && Tidy(":" + style.colon)
  {
    PlainIsTidy(style.pad(d));
    PlainIsTidy(":" + style.colon);
  }

  lemma {:induction false} PrintIsTidy(j: Json, style: Style, d: nat)
    requires WellFormed(j) && GoodStyle(style)
    ensures Tidy(Print(j, style, d))
    decreases j, 0
  {
    hide Tidy, GoodStyle;
    match j
    case JString(chars) => QuoteIsTidy(chars);
    case JArray(items) =>
      ItemsAreTidy(items, style, d);
      LayoutIsTidy(style, d);
      PlainIsTidy("[");
      PlainIsTidy("]");
      TidyAppend("[", PrintItems(items, style, d));
      TidyAppend("[" + PrintItems(items, style, d), style.pad(d));
      TidyAppend("[" + PrintItems(items, style, d) + style.pad(d), "]");
    case JObject(members) =>
      MembersAreTidy(members, style, d);
      LayoutIsTidy(style, d);
      PlainIsTidy("{");
      PlainIsTidy("}");
      TidyAppend("{", PrintMembers(members, style, d));
      TidyAppend("{" + PrintMembers(members, style, d), style.pad(d));
      TidyAppend("{" + PrintMembers(members, style, d) + style.pad(d), "}");
    case _ => PlainIsTidy(Print(j, style, d));
  }

  lemma {:induction false} ItemsAreTidy(items: seq<Json>, style: Style, d: nat)
    requires (forall i | 0 <= i < |items| :: WellFormed(items[i])) && GoodStyle(style)
    ensures Tidy(PrintItems(items, style, d))
    decreases items, 1
  {
    hide Tidy, GoodStyle;
    if items == [] {
      PlainIsTidy("");
    } else {
      var pad, item, comma := style.pad(d + 1), Print(items[0], style, d + 1), if |items| > 1 then "," else "";
      LayoutIsTidy(style, d + 1);
      PrintIsTidy(items[0], style, d + 1);
      PlainIsTidy(comma);
      ItemsAreTidy(items[1..], style, d);
      TidyAppend(pad, item);
      TidyAppend(pad + item, comma);
      TidyAppend(pad + item + comma, PrintItems(items[1..], style, d));
    }
  }

  lemma {:induction false} MembersAreTidy(members: seq<Member>, style: Style, d: nat)
    requires (forall i | 0 <= i < |members| :: WellFormed(members[i].value)) && GoodStyle(style)
    ensures Tidy(PrintMembers(members, style, d))
    decreases members, 1
  {
    hide Tidy, GoodStyle;
    if members == [] {
      PlainIsTidy("");
    } else {
      var pad, key, colon := style.pad(d + 1), Quote(members[0].key), ":" + style.colon;
      var value, comma := Print(members[0].value, style, d + 1), if |members| > 1 then "," else "";
      LayoutIsTidy(style, d + 1);
      QuoteIsTidy(members[0].key);
      PrintIsTidy(members[0].value, style, d + 1);
      PlainIsTidy(comma);
      MembersAreTidy(members[1..], style, d);
      TidyAppend(pad, key);
      TidyAppend(pad + key, colon);
      TidyAppend(pad + key + colon, value);
      TidyAppend(pad + key + colon + value, comma);
      TidyAppend(pad + key + colon + value + comma, PrintMembers(members[1..], style, d));
    }
  }

  /** Any JSON text, with the newlines and tabs of its strings written out literally, is repaired to
      exactly the text it came from. */
  lemma RelaxedJsonIsRepaired(j: Json, style: Style, d: nat)
    requires WellFormed(j) && GoodStyle(style)
    ensures Normalise(PLAINLY, Relax(Print(j, style, d), false)) == Print(j, style, d)
  {
    PrintIsTidy(j, style, d);
    NormaliseUndoesRelax(Print(j, style, d), false);
  }
}
