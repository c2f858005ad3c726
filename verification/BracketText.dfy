/** Bracket balance of text with opaque quoted strings: the reference the tool-call scanner is
    compared with, and the JSON printer that produces such text (strings as in section 7 of RFC 8259). */
module BracketText {
  import ByteStrings

  /** Bracket count, and whether the end of the text is inside a quoted string or after its backslash. */
  datatype Balance = Balance(depth: int, inStr: bool, esc: bool)

  const OUTSIDE := Balance(0, false, false)

  predicate Opens(c: char) { c == '{' || c == '[' }

  predicate Closes(c: char) { c == '}' || c == ']' }

  function Next(b: Balance, c: char): Balance {
    if b.inStr then
      if b.esc then b.(esc := false)
      else if c == '\\' then b.(esc := true)
      else if c == '"' then b.(inStr := false)
      else b
    else if c == '"' then b.(inStr := true)
    else if Opens(c) then b.(depth := b.depth + 1)
    else if Closes(c) then b.(depth := b.depth - 1)
    else b
  }

  function Fold(b: Balance, s: string): Balance
    decreases |s|
  {
    if s == "" then b else Fold(Next(b, s[0]), s[1..])
  }

  /** The text of one object or array: a bracket that is closed exactly at the end. Bracket kinds are
      not matched. */
  ghost predicate IsObject(s: string) {
    && s != "" && Opens(s[0])
    && Fold(OUTSIDE, s) == OUTSIDE
    && forall j | 0 < j < |s| :: Fold(OUTSIDE, s[..j]).depth > 0
  }

  /** Text that leaves the count as it found it and never goes below. */
  ghost predicate WellNested(s: string) {
    && Fold(OUTSIDE, s) == OUTSIDE
    && forall j | 0 <= j <= |s| :: Fold(OUTSIDE, s[..j]).depth >= 0
  }

  /** A tag could only begin inside a string. */
  ghost predicate TagFree(s: string) {
    forall k | 0 <= k < |s| && s[k] == '<' :: Fold(OUTSIDE, s[..k]).inStr
  }

  // ----------------------------------------------------------------------------------------
  // Folding
  // ----------------------------------------------------------------------------------------

  lemma {:induction false} FoldAppend(b: Balance, x: string, y: string)
    ensures Fold(b, x + y) == Fold(Fold(b, x), y)
    decreases |x|
  {
    if x == "" {
      assert x + y == y;
    } else {
      FoldAppend(Next(b, x[0]), x[1..], y);
      assert (x + y)[1..] == x[1..] + y;
    }
  }

  lemma FoldSnoc(b: Balance, s: string, j: nat)
    requires j < |s|
    ensures Fold(b, s[..j + 1]) == Next(Fold(b, s[..j]), s[j])
  {
    FoldAppend(b, s[..j], [s[j]]);
    assert s[..j + 1] == s[..j] + [s[j]];
  }

  lemma {:induction false} FoldShift(b: Balance, s: string, k: int)
    ensures Fold(b.(depth := b.depth + k), s) == Fold(b, s).(depth := Fold(b, s).depth + k)
    decreases |s|
  {
    if s != "" {
      FoldShift(Next(b, s[0]), s[1..], k);
    }
  }

  // ----------------------------------------------------------------------------------------
  // Well-nested text
  // ----------------------------------------------------------------------------------------

  lemma NestAppend(x: string, y: string)
    requires WellNested(x) && WellNested(y)
    ensures WellNested(x + y)
  {
    FoldAppend(OUTSIDE, x, y);
    forall j | 0 <= j <= |x + y|
      ensures Fold(OUTSIDE, (x + y)[..j]).depth >= 0
    {
      if j <= |x| {
        assert (x + y)[..j] == x[..j];
      } else {
        assert (x + y)[..j] == x + y[..j - |x|];
        FoldAppend(OUTSIDE, x, y[..j - |x|]);
      }
    }
  }

  /** Behind an opening bracket everything is one level deeper. */
  lemma DeeperInside(open: char, x: string)
    requires Opens(open)
    ensures Fold(OUTSIDE, [open] + x) == Fold(OUTSIDE, x).(depth := Fold(OUTSIDE, x).depth + 1)
  {
    FoldAppend(OUTSIDE, [open], x);
    FoldShift(OUTSIDE, x, 1);
    assert Fold(OUTSIDE, [open]) == OUTSIDE.(depth := 1);
  }

  lemma BracketsMakeObject(open: char, x: string, close: char)
    requires Opens(open) && Closes(close) && WellNested(x)
    ensures IsObject([open] + x + [close]) && WellNested([open] + x + [close])
  {
    var s := [open] + x + [close];
    forall j | 0 < j < |s|
      ensures Fold(OUTSIDE, s[..j]).depth > 0
    {
      assert s[..j] == [open] + x[..j - 1];
      DeeperInside(open, x[..j - 1]);
    }
    DeeperInside(open, x);
    FoldAppend(OUTSIDE, [open] + x, [close]);
    assert Fold(OUTSIDE.(depth := 1), [close]) == OUTSIDE;
    ObjectIsNested(s);
  }

  lemma ObjectIsNested(s: string)
    requires IsObject(s)
    ensures WellNested(s)
  {
    assert s[..0] == "" && s[..|s|] == s;
  }

  /** A character that is neither a quote nor a bracket. */
  predicate Plain(c: char) { c != '"' && !Opens(c) && !Closes(c) }

  lemma {:induction false} PlainFold(b: Balance, s: string)
    requires !b.inStr && forall c | c in s :: Plain(c)
    ensures Fold(b, s) == b
  {
    if s != "" {
      assert s[0] in s && forall c | c in s[1..] :: c in s;
      PlainFold(b, s[1..]);
    }
  }

  lemma PlainIsNested(s: string)
    requires forall c | c in s :: Plain(c)
    ensures WellNested(s)
  {
    PlainFold(OUTSIDE, s);
    forall j | 0 <= j <= |s|
      ensures Fold(OUTSIDE, s[..j]).depth >= 0
    {
      assert forall c | c in s[..j] :: c in s;
      PlainFold(OUTSIDE, s[..j]);
    }
  }

  // ----------------------------------------------------------------------------------------
  // Text without tags
  // ----------------------------------------------------------------------------------------

  /** Well-nested text in which no tag can begin. */
  ghost predicate Clean(s: string) {
    WellNested(s) && TagFree(s)
  }

  lemma CleanAppend(x: string, y: string)
    requires Clean(x) && Clean(y)
    ensures Clean(x + y)
  {
    NestAppend(x, y);
    forall k | 0 <= k < |x + y| && (x + y)[k] == '<' ensures Fold(OUTSIDE, (x + y)[..k]).inStr {
      if k < |x| {
        assert (x + y)[..k] == x[..k];
      } else {
        assert (x + y)[..k] == x + y[..k - |x|];
        FoldAppend(OUTSIDE, x, y[..k - |x|]);
      }
    }
  }

  lemma BracketsMakeClean(open: char, x: string, close: char)
    requires Opens(open) && Closes(close) && Clean(x)
    ensures IsObject([open] + x + [close]) && Clean([open] + x + [close])
  {
    var s := [open] + x + [close];
    BracketsMakeObject(open, x, close);
    forall k | 0 <= k < |s| && s[k] == '<' ensures Fold(OUTSIDE, s[..k]).inStr {
      assert 1 <= k < |s| - 1 && x[k - 1] == '<';
      assert s[..k] == [open] + x[..k - 1];
      DeeperInside(open, x[..k - 1]);
    }
  }

  lemma PlainIsClean(s: string)
    requires forall c | c in s :: Plain(c) && c != '<'
    ensures Clean(s)
  {
    PlainIsNested(s);
    forall k | 0 <= k < |s| ensures s[k] != '<' {
      assert s[k] in s;
    }
  }

  // ----------------------------------------------------------------------------------------
  // JSON text
  // ----------------------------------------------------------------------------------------

  datatype Json =
    | JNull | JBool(b: bool)
    | JNumber(text: string)
    | JString(chars: string)
    | JArray(items: seq<Json>)
    | JObject(members: seq<Member>)

  datatype Member = Member(key: string, value: Json)

  /** Layout: whitespace at each nesting depth, and after a colon. */
  datatype Style = Style(pad: nat -> string, colon: string)

  predicate IsBlank(c: char) { c == ' ' || c == '\n' || c == '\t' || c == '\r' }

  predicate IsNumberChar(c: char) { '0' <= c <= '9' || c == '-' || c == '+' || c == '.' || c == 'e' || c == 'E' }

  ghost predicate GoodStyle(style: Style) {
    && (forall d :: forall c | c in style.pad(d) :: IsBlank(c))
    && forall c | c in style.colon :: IsBlank(c)
  }

  ghost predicate WellFormed(j: Json) {
    match j
    case JNumber(text) => forall c | c in text :: IsNumberChar(c)
    case JArray(items) => forall i | 0 <= i < |items| :: WellFormed(items[i])
    case JObject(members) => forall i | 0 <= i < |members| :: WellFormed(members[i].value)
    case _ => true
  }

  /** One character of a string, escaped where it must be. */
  function Escape(c: char): string {
    if c == '"' then "\\\"" else if c == '\\' then "\\\\"
    else if c == '\n' then "\\n" else if c == '\t' then "\\t" else if c == '\r' then "\\r"
    else if c < ' ' then "\\u00" + [ByteStrings.HexDigit(c as int / 16), ByteStrings.HexDigit(c as int % 16)]
    else [c]
  }

  function EscapeAll(s: string): string {
    if s == "" then "" else Escape(s[0]) + EscapeAll(s[1..])
  }

  function Quote(s: string): string {
    "\"" + EscapeAll(s) + "\""
  }

  function Print(j: Json, style: Style, d: nat): string
    decreases j, 0
  {
    match j
    case JNull => "null"
    case JBool(b) => if b then "true" else "false"
    case JNumber(text) => text
    case JString(chars) => Quote(chars)
    case JArray(items) => "[" + PrintItems(items, style, d) + style.pad(d) + "]"
    case JObject(members) => "{" + PrintMembers(members, style, d) + style.pad(d) + "}"
  }

  function PrintItems(items: seq<Json>, style: Style, d: nat): string
    decreases items, 1
  {
    if items == [] then ""
    else style.pad(d + 1) + Print(items[0], style, d + 1) + (if |items| > 1 then "," else "")
         + PrintItems(items[1..], style, d)
  }

  function PrintMembers(members: seq<Member>, style: Style, d: nat): string
    decreases members, 1
  {
    if members == [] then ""
    else
      style.pad(d + 1) + Quote(members[0].key) + (":" + style.colon) + Print(members[0].value, style, d + 1)
        + (if |members| > 1 then "," else "") + PrintMembers(members[1..], style, d)
  }

  /** After `k` characters of an escaped character the text is still inside the string. */
  lemma {:induction false} EscapePrefix(b: Balance, c: char, k: nat)
    requires b.inStr && !b.esc && k <= |Escape(c)|
    ensures Fold(b, Escape(c)[..k]) == if k == 1 < |Escape(c)| then b.(esc := true) else b
    decreases k
  {
    if k == 0 {
      assert Escape(c)[..0] == "";
    } else {
      EscapePrefix(b, c, k - 1);
      FoldSnoc(b, Escape(c), k - 1);
    }
  }

  /** So it is after any prefix of an escaped string. */
  lemma {:induction false} InsideString(b: Balance, s: string, j: nat)
    requires b.inStr && !b.esc && j <= |EscapeAll(s)|
    ensures Fold(b, EscapeAll(s)[..j]).inStr && Fold(b, EscapeAll(s)[..j]).depth == b.depth
    ensures j == |EscapeAll(s)| ==> Fold(b, EscapeAll(s)[..j]) == b
    decreases |s|
  {
    if s == "" {
      assert EscapeAll(s)[..j] == "";
    } else {
      var e, rest := Escape(s[0]), EscapeAll(s[1..]);
      if j <= |e| {
        EscapePrefix(b, s[0], j);
        assert EscapeAll(s)[..j] == e[..j];
        if j == |EscapeAll(s)| {
          assert rest == "" && j == |e|;
        }
      } else {
        EscapePrefix(b, s[0], |e|);
        assert e[..|e|] == e;
        InsideString(b, s[1..], j - |e|);
        assert EscapeAll(s)[..j] == e + rest[..j - |e|];
        FoldAppend(b, e, rest[..j - |e|]);
      }
    }
  }

  lemma QuoteIsTagFree(s: string)
    ensures TagFree(Quote(s))
  {
    var body, inside := EscapeAll(s), OUTSIDE.(inStr := true);
    var q := Quote(s);
    assert Fold(OUTSIDE, "\"") == inside;
    forall k | 0 <= k < |q| && q[k] == '<' ensures Fold(OUTSIDE, q[..k]).inStr {
      assert 1 <= k <= |body| && q[..k] == "\"" + body[..k - 1];
      FoldAppend(OUTSIDE, "\"", body[..k - 1]);
      InsideString(inside, s, k - 1);
    }
  }

  lemma QuoteIsClean(s: string)
    ensures Clean(Quote(s))
  {
    QuoteIsNested(s);
    QuoteIsTagFree(s);
  }

  lemma QuoteIsNested(s: string)
    ensures WellNested(Quote(s))
  {
    var body, inside := EscapeAll(s), OUTSIDE.(inStr := true);
    var q := Quote(s);
    assert Fold(OUTSIDE, "\"") == inside;
    forall j | 0 <= j <= |q|
      ensures Fold(OUTSIDE, q[..j]).depth >= 0 && (j == |q| ==> Fold(OUTSIDE, q[..j]) == OUTSIDE)
    {
      if j == 0 {
        assert q[..j] == "";
      } else if j < |q| {
        assert q[..j] == "\"" + body[..j - 1];
        FoldAppend(OUTSIDE, "\"", body[..j - 1]);
        InsideString(inside, s, j - 1);
      } else {
        InsideString(inside, s, |body|);
        assert body[..|body|] == body && q[..j] == "\"" + body + "\"";
        FoldAppend(OUTSIDE, "\"", body);
        FoldAppend(OUTSIDE, "\"" + body, "\"");
      }
    }
    assert q[..|q|] == q;
  }

  // ----------------------------------------------------------------------------------------
  // Printed JSON is well nested and free of tags
  // ----------------------------------------------------------------------------------------

  lemma {:induction false} PrintIsNested(j: Json, style: Style, d: nat)
    requires WellFormed(j) && GoodStyle(style)
    ensures Clean(Print(j, style, d))
    ensures j.JArray? || j.JObject? ==> IsObject(Print(j, style, d))
    decreases j, 0
  {
    hide Clean, IsObject, GoodStyle;
    match j
    case JString(chars) => QuoteIsClean(chars);
    case JArray(items) =>
      ItemsAreNested(items, style, d);
      PrintedArrayIsNested(items, style, d);
    case JObject(members) =>
      MembersAreNested(members, style, d);
      PrintedObjectIsNested(members, style, d);
    case _ => PlainIsClean(Print(j, style, d));
  }

  lemma PrintedArrayIsNested(items: seq<Json>, style: Style, d: nat)
    requires GoodStyle(style) && Clean(PrintItems(items, style, d))
    ensures Clean(Print(JArray(items), style, d)) && IsObject(Print(JArray(items), style, d))
  {
    hide Clean, IsObject, GoodStyle, PrintItems;
    BlankIsNested(style, d);
    CleanAppend(PrintItems(items, style, d), style.pad(d));
    BracketsMakeClean('[', PrintItems(items, style, d) + style.pad(d), ']');
    assert Print(JArray(items), style, d) == ['['] + (PrintItems(items, style, d) + style.pad(d)) + [']'];
  }

  lemma PrintedObjectIsNested(members: seq<Member>, style: Style, d: nat)
    requires GoodStyle(style) && Clean(PrintMembers(members, style, d))
    ensures Clean(Print(JObject(members), style, d)) && IsObject(Print(JObject(members), style, d))
  {
    hide Clean, IsObject, GoodStyle, PrintMembers;
    BlankIsNested(style, d);
    CleanAppend(PrintMembers(members, style, d), style.pad(d));
    BracketsMakeClean('{', PrintMembers(members, style, d) + style.pad(d), '}');
    assert Print(JObject(members), style, d) == ['{'] + (PrintMembers(members, style, d) + style.pad(d)) + ['}'];
  }

  lemma BlankIsNested(style: Style, d: nat)
    requires GoodStyle(style)
    ensures Clean(style.pad(d)) && Clean(":" + style.colon)
  {
    PlainIsClean(style.pad(d));
    PlainIsClean(":" + style.colon);
  }

  lemma {:induction false} ItemsAreNested(items: seq<Json>, style: Style, d: nat)
    requires (forall i | 0 <= i < |items| :: WellFormed(items[i])) && GoodStyle(style)
    ensures Clean(PrintItems(items, style, d))
    decreases items, 1
  {
    if items == [] {
      PlainIsClean("");
    } else {
      var pad, item, comma := style.pad(d + 1), Print(items[0], style, d + 1), if |items| > 1 then "," else "";
      BlankIsNested(style, d + 1);
      PrintIsNested(items[0], style, d + 1);
      PlainIsClean(comma);
      ItemsAreNested(items[1..], style, d);
      CleanAppend(pad, item);
      CleanAppend(pad + item, comma);
      CleanAppend(pad + item + comma, PrintItems(items[1..], style, d));
    }
  }

  lemma {:induction false} MembersAreNested(members: seq<Member>, style: Style, d: nat)
    requires (forall i | 0 <= i < |members| :: WellFormed(members[i].value)) && GoodStyle(style)
    ensures Clean(PrintMembers(members, style, d))
    decreases members, 1
  {
    if members == [] {
      PlainIsClean("");
    } else {
      var pad, key, colon := style.pad(d + 1), Quote(members[0].key), ":" + style.colon;
      var value, comma := Print(members[0].value, style, d + 1), if |members| > 1 then "," else "";
      BlankIsNested(style, d + 1);
      QuoteIsClean(members[0].key);
      PrintIsNested(members[0].value, style, d + 1);
      PlainIsClean(comma);
      MembersAreNested(members[1..], style, d);
      CleanAppend(pad, key);
      CleanAppend(pad + key, colon);
      CleanAppend(pad + key + colon, value);
      CleanAppend(pad + key + colon + value, comma);
      CleanAppend(pad + key + colon + value + comma, PrintMembers(members[1..], style, d));
    }
  }
}
