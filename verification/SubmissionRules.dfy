/** Which submissions the QEMU backend takes (src/core/qemu_backend.py:163-304), stated over the sample's bytes and
    the entries of the request. */
module SubmissionRules {
  import opened Wrappers
  import opened ByteStrings
  import opened SpecPolicy
  import opened Submission
  import Pcap

  // ----------------------------------------------------------------------------------------
  // Option text
  // ----------------------------------------------------------------------------------------

  /** The pieces, with commas between them. */
  function Commas(pieces: seq<string>): string
    requires pieces != []
  {
    if |pieces| == 1 then pieces[0] else pieces[0] + "," + Commas(pieces[1..])
  }

  lemma {:induction false} SplitOfPieceAndRest(piece: string, rest: string)
    requires ',' !in piece
    ensures Split(piece + "," + rest) == [piece] + Split(rest)
    decreases |piece|
  {
    var text := piece + "," + rest;
    if piece == "" {
      assert text[0] == ',' && text[1..] == rest;
    } else {
      assert text[0] == piece[0] && text[1..] == piece[1..] + "," + rest;
      SplitOfPieceAndRest(piece[1..], rest);
      assert [piece[0]] + piece[1..] == piece;
    }
  }

  /** Cutting at the commas undoes joining with commas. */
  lemma {:induction false} SplitUndoesCommas(pieces: seq<string>)
    requires pieces != [] && forall i | 0 <= i < |pieces| :: ',' !in pieces[i]
    ensures Split(Commas(pieces)) == pieces
    decreases |pieces|
  {
    if |pieces| == 1 {
      SplitPlain(pieces[0]);
    } else {
      SplitOfPieceAndRest(pieces[0], Commas(pieces[1..]));
      SplitUndoesCommas(pieces[1..]);
    }
  }

  ghost predicate AllSpace(space: char -> bool, text: string) {
    forall i | 0 <= i < |text| :: space(text[i])
  }

  lemma {:induction false} StripTrims(space: char -> bool, before: string, text: string, after: string)
    requires AllSpace(space, before) && AllSpace(space, after)
    requires text != "" ==> !space(text[0]) && !space(text[|text| - 1])
    ensures Strip(space, before + text + after) == text
    decreases |before| + |after|
  {
    var whole := before + text + after;
    if before != "" {
      assert whole[0] == before[0] && whole[1..] == before[1..] + text + after;
      StripTrims(space, before[1..], text, after);
    } else if after != "" {
      if text == "" {
        assert whole[0] == after[0] && whole[1..] == before + text + after[1..];
        StripTrims(space, before, text, after[1..]);
      } else {
        var n := |after| - 1;
        assert whole[|whole| - 1] == after[n] && whole[..|whole| - 1] == before + text + after[..n];
        assert whole[0] == text[0];
        StripTrims(space, before, text, after[..n]);
      }
    } else {
      assert whole == text;
    }
  }

  /** The piece asks for something. */
  predicate Asks(h: Host, piece: string) {
    Strip(h.space, piece) != ""
  }

  function Asked(h: Host, piece: string): Token {
    Partition(Strip(h.space, piece))
  }

  /** No two pieces that ask for something have the same key. */
  predicate KeysDiffer(h: Host, pieces: seq<string>) {
    forall i, j | 0 <= i < j < |pieces| && Asks(h, pieces[i]) && Asks(h, pieces[j]) ::
      Asked(h, pieces[i]).key != Asked(h, pieces[j]).key
  }

  predicate Requests(h: Host, pieces: seq<string>, t: Token) {
    exists i | 0 <= i < |pieces| :: Asks(h, pieces[i]) && Asked(h, pieces[i]) == t
  }

  lemma {:induction false} TokensAreTheAsked(h: Host, pieces: seq<string>)
    ensures var ts := Tokens(h.space, pieces);
            && (ts.Some? <==> KeysDiffer(h, pieces))
            && (ts.Some? ==> forall t :: t in ts.value <==> Requests(h, pieces, t))
    decreases |pieces|
  {
    hide Strip, Partition;
    if pieces != [] {
      var n := |pieces| - 1;
      var front, last := pieces[..n], pieces[n];
      TokensAreTheAsked(h, front);
      var before := Tokens(h.space, front);
      FrontKeys(h, pieces);
      if before.Some? {
        forall t ensures Requests(h, pieces, t) <==> Requests(h, front, t) || (Asks(h, last) && Asked(h, last) == t) {
          RequestsGrow(h, pieces, t);
        }
        if Asks(h, last) {
          RepeatedMeansRequested(h, front, before.value, Asked(h, last).key);
        }
      }
    }
  }

  lemma RequestsGrow(h: Host, pieces: seq<string>, t: Token)
    requires pieces != []
    ensures var n := |pieces| - 1;
            Requests(h, pieces, t) <==> Requests(h, pieces[..n], t) || (Asks(h, pieces[n]) && Asked(h, pieces[n]) == t)
  {
    hide Asks, Asked;
    var n := |pieces| - 1;
    if Requests(h, pieces, t) {
      var i :| 0 <= i < |pieces| && Asks(h, pieces[i]) && Asked(h, pieces[i]) == t;
      assert i < n ==> pieces[..n][i] == pieces[i];
    }
    if Requests(h, pieces[..n], t) {
      var i :| 0 <= i < n && Asks(h, pieces[..n][i]) && Asked(h, pieces[..n][i]) == t;
      assert pieces[..n][i] == pieces[i];
    }
  }

  /** The keys differ if and only if those before the last do, and the last asks for nothing or for a new key. */
  lemma FrontKeys(h: Host, pieces: seq<string>)
    requires pieces != []
    ensures var n := |pieces| - 1;
            KeysDiffer(h, pieces) <==>
              && KeysDiffer(h, pieces[..n])
              && (Asks(h, pieces[n]) ==> !exists t :: Requests(h, pieces[..n], t) && t.key == Asked(h, pieces[n]).key)
  {
    hide Asks, Asked;
    var n := |pieces| - 1;
    var front := pieces[..n];
    assert forall i | 0 <= i < n :: front[i] == pieces[i];
    if KeysDiffer(h, front) && !KeysDiffer(h, pieces) {
      var i, j :| 0 <= i < j < |pieces| && Asks(h, pieces[i]) && Asks(h, pieces[j])
                  && Asked(h, pieces[i]).key == Asked(h, pieces[j]).key;
      assert j == n;
      assert Asks(h, front[i]) && Requests(h, front, Asked(h, front[i]));
    }
    if KeysDiffer(h, pieces) && Asks(h, pieces[n]) {
      forall t | Requests(h, front, t) ensures t.key != Asked(h, pieces[n]).key {
        var i :| 0 <= i < |front| && Asks(h, front[i]) && Asked(h, front[i]) == t;
        assert front[i] == pieces[i];
      }
    }
  }

  lemma RepeatedMeansRequested(h: Host, pieces: seq<string>, ts: seq<Token>, key: string)
    requires forall t :: t in ts <==> Requests(h, pieces, t)
    ensures HasKey(ts, key) <==> exists t :: Requests(h, pieces, t) && t.key == key
  {
    hide Requests;
    if HasKey(ts, key) {
      var i :| 0 <= i < |ts| && ts[i].key == key;
      assert Requests(h, pieces, ts[i]);
    }
    if t :| Requests(h, pieces, t) && t.key == key {
      assert t in ts;
    }
  }

  // ----------------------------------------------------------------------------------------
  // Export names
  // ----------------------------------------------------------------------------------------

  predicate Letter(c: char) {
    'A' <= c <= 'Z' || 'a' <= c <= 'z' || c in "_?@$"
  }

  /** A name, or `#` and a number from 1 to 65535 in decimal. */
  ghost predicate Exported(f: string) {
    || (f != "" && Letter(f[0]) && forall i | 1 <= i < |f| :: Letter(f[i]) || '0' <= f[i] <= '9')
    || exists n: nat :: 1 <= n <= 65535 && f == "#" + Pcap.Digits(n)
  }

  function Figure(d: nat): char
    requires d < 10
  {
    ('0' as int + d) as char
  }

  lemma PrintStep(n: nat)
    ensures Pcap.Digits(n) == (if n < 10 then "" else Pcap.Digits(n / 10)) + [Figure(n % 10)]
  {
  }

  lemma NumberStep(text: string, d: nat)
    requires d < 10 && forall c | c in text :: Digit(c)
    ensures Digit(Figure(d)) && Number(text + [Figure(d)]) == 10 * Number(text) + d
  {
    assert (text + [Figure(d)])[..|text|] == text;
  }

  lemma {:induction false} PrintedNumber(n: nat)
    ensures var text := Pcap.Digits(n);
            && text != "" && (forall c | c in text :: Digit(c)) && Number(text) == n
            && (n >= 1 ==> text[0] != '0')
  {
    hide Pcap.Digits, Number;
    PrintStep(n);
    if n < 10 {
      NumberStep("", n);
      assert "" + [Figure(n)] == [Figure(n)];
      NumberOfNothing();
    } else {
      PrintedNumber(n / 10);
      NumberStep(Pcap.Digits(n / 10), n % 10);
      assert n == 10 * (n / 10) + n % 10;
    }
  }

  lemma NumberOfNothing()
    ensures Number("") == 0
  {
  }

  lemma {:induction false} PrintedLength(n: nat)
    ensures n < 10 ==> |Pcap.Digits(n)| == 1
    ensures n < 100 ==> |Pcap.Digits(n)| <= 2
    ensures n < 1000 ==> |Pcap.Digits(n)| <= 3
    ensures n < 10000 ==> |Pcap.Digits(n)| <= 4
    ensures n < 100000 ==> |Pcap.Digits(n)| <= 5
  {
    hide Pcap.Digits;
    PrintStep(n);
    if n >= 10 {
      PrintedLength(n / 10);
    }
  }

  lemma {:induction false} NumberPrints(text: string)
    requires text != "" && text[0] != '0' && forall c | c in text :: Digit(c)
    ensures Number(text) >= 1 && Pcap.Digits(Number(text)) == text
  {
    hide Pcap.Digits, Number;
    var front, last := text[..|text| - 1], text[|text| - 1];
    assert last in text && Digit(last);
    var d := last as int - '0' as int;
    assert Figure(d) == last && text == front + [last];
    NumberStep(front, d);
    PrintStep(Number(text));
    NumberOfNothing();
    if front != "" {
      NumberPrints(front);
    }
  }

  lemma ExportsAreThese(f: string)
    ensures IsExport(f) <==> Exported(f)
  {
    hide Number, Pcap.Digits, Digit;
    if f != "" && f[0] == '#' {
      if IsExport(f) {
        NumberPrints(f[1..]);
        assert f == "#" + f[1..];
      }
      if Exported(f) {
        var n: nat :| 1 <= n <= 65535 && f == "#" + Pcap.Digits(n);
        PrintedNumber(n);
        PrintedLength(n);
        assert f[1..] == Pcap.Digits(n);
      }
    } else {
      NamesAreThese(f);
    }
  }

  lemma NamesAreThese(f: string)
    requires f == "" || f[0] != '#'
    ensures IsExport(f) <==> Exported(f)
  {
    hide Number, Pcap.Digits;
    assert forall c :: Letter(c) <==> NameStart(c);
    assert forall n: nat :: f != "#" + Pcap.Digits(n);
  }

  // ----------------------------------------------------------------------------------------
  // What is accepted
  // ----------------------------------------------------------------------------------------

  /** Nothing was asked for, or this. */
  predicate NothingOr(v: Option<Value>, expected: string) {
    v in [None, Some(Null), Some(Str("")), Some(Str(expected))]
  }

  predicate BeginsAsElf(file: Bytes) {
    |file| >= 4 && file[0] == 0x7f && file[1] == 'E' as int && file[2] == 'L' as int && file[3] == 'F' as int
  }

  /** A little-endian i386 or x86-64 file that is an executable or a shared object. */
  predicate RunnableElf(file: Bytes) {
    && |file| >= 52 && file[5] == 1 && file[6] == 1
    && ((file[4] == 1 && file[18] == 3) || (file[4] == 2 && file[18] == 62 && |file| >= 64)) && file[19] == 0
    && (file[16] == 2 || file[16] == 3) && file[17] == 0
  }

  predicate BeginsAsPe(file: Bytes) {
    |file| >= 2 && file[0] == 'M' as int && file[1] == 'Z' as int
  }

  /** Where the file says its second header is. */
  function HeaderAt(file: Bytes): nat
    requires |file| >= 64
  {
    file[60] as int + 256 * file[61] as int + 65536 * file[62] as int + 16777216 * file[63] as int
  }

  predicate HasHeader(file: Bytes) {
    && |file| >= 64 && BeginsAsPe(file) && 64 <= HeaderAt(file) <= 1048576
    && var at := HeaderAt(file);
       && |file| >= at + 24 && file[at] == 'P' as int && file[at + 1] == 'E' as int
       && file[at + 2] == 0 && file[at + 3] == 0
  }

  /** The second header's machine is x86 or x86-64. */
  predicate KnownMachine(file: Bytes)
    requires HasHeader(file)
  {
    var at := HeaderAt(file);
    (file[at + 4] == 0x4c && file[at + 5] == 0x01) || (file[at + 4] == 0x64 && file[at + 5] == 0x86)
  }

  predicate SaysLibrary(file: Bytes)
    requires HasHeader(file)
  {
    file[HeaderAt(file) + 23] / 32 % 2 == 1
  }

  /** What is read as the option text. */
  predicate SaysText(v: Option<Value>, text: string) {
    (!Truthy(v) && text == "") || v == Some(Str(text))
  }

  /** The entry point asked for fits the file: an export other than DllMain for a library, none for a program. */
  ghost predicate EntryFits(h: Host, pieces: seq<string>, library: bool) {
    if library then exists f :: Requests(h, pieces, Token("function", f)) && Exported(f) && h.lower(f) != "dllmain"
    else forall f :: !Requests(h, pieces, Token("function", f))
  }

  /** The name under which a Windows sample travels. */
  function TransportName(s: Sample, o: Options): string {
    var suffix := if o.package == Some(Str("dll")) then ".dll" else ".exe";
    if s.suffix == suffix then s.name else s.name + suffix
  }

  ghost predicate LaunchesOnWindows(h: Host, s: Sample, o: Options) {
    && h.windows && !h.unsafeName(TransportName(s, o)) && HasHeader(s.file) && KnownMachine(s.file)
    && (!Truthy(o.package) || o.package == Some(Str("exe")) || o.package == Some(Str("dll")))
    && (o.package == Some(Str("dll")) <==> SaysLibrary(s.file))
    && exists text ::
         SaysText(o.text, text) && KeysDiffer(h, Split(text)) && EntryFits(h, Split(text), SaysLibrary(s.file))
  }

  ghost predicate OptionsReadable(h: Host, o: Options) {
    exists text :: SaysText(o.text, text) && KeysDiffer(h, Split(text))
  }

  ghost predicate RunsOnLinux(h: Host, s: Sample, o: Options, package: string) {
    NothingOr(o.package, package) && OptionsReadable(h, o)
  }

  predicate TimeoutFits(h: Host, o: Options) {
    if o.timeout == None || o.timeout == Some(Null) then 1 <= h.timeout <= 1800
    else o.timeout.value.Int? && 1 <= o.timeout.value.i <= 1800
  }

  predicate PlacedOn(o: Options, platform: string) {
    NothingOr(o.platform, platform) && NothingOr(o.machine, "qemu-" + platform)
  }

  /** The sample is of a kind some guest runs, and the request fits that guest. */
  ghost predicate Accepts(h: Host, s: Sample, o: Options) {
    && o.route in [None, Some(Str("drop")), Some(Str("none"))] && TimeoutFits(h, o)
    && if BeginsAsElf(s.file) then RunnableElf(s.file) && PlacedOn(o, "linux") && RunsOnLinux(h, s, o, "elf")
       else if BeginsAsPe(s.file) || s.suffix in [".exe", ".dll"] then
         PlacedOn(o, "windows") && LaunchesOnWindows(h, s, o)
       else
         && s.suffix in [".sh", ".py", ".pl"] && PlacedOn(o, "linux")
         && RunsOnLinux(h, s, o, if s.python then "python" else "generic")
  }

  lemma SameOptionText(h: Host, o: Options)
    ensures OptionText(o.text).Some? <==> exists text :: SaysText(o.text, text)
    ensures forall text :: SaysText(o.text, text) <==> OptionText(o.text) == Some(text)
  {
    assert OptionText(o.text).Some? ==> SaysText(o.text, OptionText(o.text).value);
  }

  lemma ReadableMeansTokens(h: Host, o: Options)
    ensures OptionsReadable(h, o)
       <==> OptionText(o.text).Some? && Tokens(h.space, Split(OptionText(o.text).value)).Some?
  {
    hide Tokens, Split, KeysDiffer, SaysText, OptionText;
    SameOptionText(h, o);
    if OptionText(o.text).Some? {
      TokensAreTheAsked(h, Split(OptionText(o.text).value));
    }
  }

  lemma TwoBytes(b: Bytes, i: nat)
    requires i + 2 <= |b|
    ensures b[i..i + 2] == [b[i], b[i + 1]] && U16(Little, b[i..i + 2]) == b[i] as int + 256 * b[i + 1] as int
  {
  }

  lemma ElfByBytes(head: Bytes)
    ensures SupportedElf(head) <==> RunnableElf(head)
  {
    hide U16;
    if |head| >= 52 {
      TwoBytes(head, 16);
      TwoBytes(head, 18);
      assert head[4..7] == [head[4], head[5], head[6]];
    }
  }

  lemma HeadOfElf(s: Sample)
    ensures var head := Slice(s.file, 0, 64);
            && (ELF <= head <==> BeginsAsElf(s.file))
            && (SupportedElf(head) <==> RunnableElf(s.file))
            && (MZ <= head <==> BeginsAsPe(s.file))
  {
    hide SupportedElf;
    var head := Slice(s.file, 0, 64);
    ElfByBytes(head);
    assert |head| == if |s.file| < 64 then |s.file| else 64;
    assert forall i | 0 <= i < |head| :: head[i] == s.file[i];
  }

  lemma HeaderByBytes(file: Bytes)
    ensures PeHeader(file).Some? <==> HasHeader(file)
    ensures PeHeader(file).Some? ==>
              && (Architecture(U16(Little, PeHeader(file).value[4..6])).Some? <==> KnownMachine(file))
              && (IsLibrary(PeHeader(file).value) <==> SaysLibrary(file))
  {
    hide U16, U32;
    if |file| >= 64 {
      HeaderPlace(file);
      TwoBytes(file, 0);
      var at := HeaderAt(file);
      if |file| >= at + 24 {
        var pe := Slice(file, at, 24);
        assert pe == file[at..at + 24];
        assert forall i | 0 <= i < 24 :: pe[i] == file[at + i];
        TwoBytes(pe, 4);
        TwoBytes(pe, 22);
        assert pe[..4] == [pe[0], pe[1], pe[2], pe[3]];
        LibraryBit(pe[22], pe[23]);
      }
    }
  }

  lemma HeaderPlace(file: Bytes)
    requires |file| >= 64
    ensures HeaderOffset(file) == HeaderAt(file)
  {
    var b := file[60..64];
    assert b[0] == file[60] && b[1] == file[61] && b[2] == file[62] && b[3] == file[63];
  }

  lemma LibraryBit(low: Byte, high: Byte)
    ensures (low as int + 256 * high as int) / 0x2000 == high / 32
  {
  }

  lemma {:induction false} FunctionIsListed(ts: seq<Token>)
    ensures FunctionOf(ts).Some? ==> Token("function", FunctionOf(ts).value) in ts
    ensures forall f :: Token("function", f) in ts ==> FunctionOf(ts).Some?
  {
    if ts != [] {
      FunctionIsListed(ts[1..]);
    }
  }

  lemma OneFunction(h: Host, pieces: seq<string>, f: string, g: string)
    requires KeysDiffer(h, pieces)
    requires Requests(h, pieces, Token("function", f)) && Requests(h, pieces, Token("function", g))
    ensures f == g
  {
    hide Asks, Asked;
    var i :| 0 <= i < |pieces| && Asks(h, pieces[i]) && Asked(h, pieces[i]) == Token("function", f);
    var j :| 0 <= j < |pieces| && Asks(h, pieces[j]) && Asked(h, pieces[j]) == Token("function", g);
  }

  lemma EntryByTokens(h: Host, pieces: seq<string>, library: bool)
    requires Tokens(h.space, pieces).Some?
    ensures var f := FunctionOf(Tokens(h.space, pieces).value);
            EntryFits(h, pieces, library) <==>
              if library then f.Some? && IsExport(f.value) && h.lower(f.value) != "dllmain" else f.None?
  {
    hide Tokens, KeysDiffer, Requests, IsExport, Exported;
    TokensAreTheAsked(h, pieces);
    var ts := Tokens(h.space, pieces).value;
    FunctionIsListed(ts);
    var f := FunctionOf(ts);
    if f.Some? {
      ExportsAreThese(f.value);
      forall g | Requests(h, pieces, Token("function", g)) ensures g == f.value {
        OneFunction(h, pieces, f.value, g);
      }
    }
  }

  lemma WindowsRule(h: Host, s: Sample, o: Options)
    requires h.windows
    ensures WindowsLaunch(h, s, TransportName(s, o), o).Some? <==> LaunchesOnWindows(h, s, o)
    ensures var l := WindowsLaunch(h, s, TransportName(s, o), o);
            l.Some? ==> HasHeader(s.file) && l.value.package == if SaysLibrary(s.file) then "dll" else "exe"
  {
    hide Tokens, Split, KeysDiffer, SaysText, OptionText, EntryFits, IsExport, FunctionOf, PeHeader, HasHeader,
         KnownMachine, SaysLibrary, IsLibrary, Architecture, TransportName, Notices, SettingNotices, WithoutFunction;
    HeaderByBytes(s.file);
    SameOptionText(h, o);
    if OptionText(o.text).Some? {
      var pieces := Split(OptionText(o.text).value);
      TokensAreTheAsked(h, pieces);
      if Tokens(h.space, pieces).Some? && HasHeader(s.file) {
        EntryByTokens(h, pieces, SaysLibrary(s.file));
      }
    }
  }

  /** The guest a sample goes to. */
  function GuestOf(s: Sample): Guest {
    if !BeginsAsElf(s.file) && (BeginsAsPe(s.file) || s.suffix in [".exe", ".dll"]) then Windows else Linux
  }

  function PackageOf(s: Sample): string {
    if GuestOf(s).Windows? then (if HasHeader(s.file) && SaysLibrary(s.file) then "dll" else "exe")
    else if BeginsAsElf(s.file) then "elf"
    else if s.python then "python"
    else "generic"
  }

  lemma DetectRule(h: Host, s: Sample, o: Options)
    ensures var d := Detect(h, s, o.package);
            && (d.Some? <==> if BeginsAsElf(s.file) then RunnableElf(s.file)
                             else if GuestOf(s).Windows? then h.windows
                             else s.suffix in [".sh", ".py", ".pl"])
            && (d.Some? ==>
                  && d.value.guest == GuestOf(s)
                  && d.value.name == (if GuestOf(s).Windows? then TransportName(s, o) else s.name)
                  && (GuestOf(s).Linux? ==> LinuxPackage(s, d.value.interpreter) == PackageOf(s)))
  {
    hide SupportedElf, RunnableElf, HasHeader, SaysLibrary, Slice, BeginsAsElf, BeginsAsPe;
    HeadOfElf(s);
  }

  lemma ScalarsByValue(h: Host, o: Options, platform: string)
    ensures TimeoutOf(h, o.timeout).Some? <==> TimeoutFits(h, o)
    ensures RouteOffered(o.route) <==> o.route in [None, Some(Str("drop")), Some(Str("none"))]
    ensures Unset(o.platform, platform) <==> NothingOr(o.platform, platform)
    ensures forall v, expected :: Unset(v, expected) <==> NothingOr(v, expected)
  {
  }

  /** A request is accepted if and only if the sample is of a kind some guest runs and every entry fits that guest; it
      then runs there, under the package of its kind and for the time asked for. */
  lemma AcceptedRequests(h: Host, s: Sample, o: Options)
    ensures Validate(h, s, o).Some? <==> Accepts(h, s, o)
    ensures Validate(h, s, o).Some? ==>
              var p := Validate(h, s, o).value;
              && p.guest == GuestOf(s) && p.effective.package == PackageOf(s)
              && p.name == (if GuestOf(s).Windows? then TransportName(s, o) else s.name)
              && (if o.timeout in [None, Some(Null)] then p.effective.timeout == h.timeout
                  else o.timeout == Some(Int(p.effective.timeout)))
  {
    hide Detect, WindowsLaunch, Tokens, Split, OptionText, LaunchesOnWindows, OptionsReadable, RunnableElf, BeginsAsElf,
         BeginsAsPe, Unset, NothingOr, RouteOffered, TransportName, SettingNotices, Notices, LinuxPackage, HasHeader,
         SaysLibrary;
    DetectRule(h, s, o);
    ScalarsByValue(h, o, PlatformOf(GuestOf(s)));
    ReadableMeansTokens(h, o);
    assert MachineOf(GuestOf(s)) == "qemu-" + PlatformOf(GuestOf(s));
    if GuestOf(s).Windows? {
      if h.windows {
        WindowsRule(h, s, o);
      } else {
        NoWindowsNoLaunch(h, s, o);
      }
    }
  }

  /** The fixed settings of each guest, which no request changes. */
  lemma GuestSettings(h: Host, s: Sample, o: Options)
    requires Validate(h, s, o).Some?
    ensures var e := Validate(h, s, o).value.effective;
            && e.platform == (if GuestOf(s).Windows? then "windows" else "linux") && e.machine == "qemu-" + e.platform
            && e.route == "drop" && e.isolation == "qemu-tcg" && e.arch == "x86_64" && !e.memoryDump && !e.provisioning
            && if GuestOf(s).Windows? then
                 && e.ramMb == 4096 && e.cpus == h.winSmp && e.enforceTimeout && e.monitors == ["sysmon", "tcpdump"]
                 && e.interpreter == None
               else
                 && e.ramMb == h.memMb && e.cpus == h.smp && !e.enforceTimeout && e.monitors == ["strace", "tcpdump"]
                 && e.interpreter == if BeginsAsElf(s.file) then None
                                     else if s.suffix == ".sh" then Some("/bin/sh")
                                     else if s.suffix == ".py" then Some("/usr/bin/python3")
                                     else Some("/usr/bin/perl")
  {
    hide WindowsLaunch, Tokens, Split, OptionText, SupportedElf, RunnableElf, BeginsAsElf, BeginsAsPe, SettingNotices,
         Notices;
    HeadOfElf(s);
  }

  lemma NoWindowsNoLaunch(h: Host, s: Sample, o: Options)
    ensures LaunchesOnWindows(h, s, o) ==> h.windows
  {
  }
}
