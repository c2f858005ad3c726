/** Accepting a sample for detonation (src/core/qemu_backend.py): which guest runs it, which
    options are honoured, and the plan that is recorded with the task. */
module Submission {
  import opened Wrappers
  import opened ByteStrings
  import opened SpecPolicy

  // ----------------------------------------------------------------------------------------
  // Option text
  // ----------------------------------------------------------------------------------------

  datatype Token = Token(key: string, value: string)

  /** `text.split(",")`. */
  function Split(text: string): (ps: seq<string>)
    ensures ps != []
  {
    if text == "" then [""]
    else
      var rest := Split(text[1..]);
      if text[0] == ',' then [""] + rest else [[text[0]] + rest[0]] + rest[1..]
  }

  /** `text.strip()`. */
  function Strip(space: char -> bool, text: string): string
    decreases |text|
  {
    if text != "" && space(text[0]) then Strip(space, text[1..])
    else if text != "" && space(text[|text| - 1]) then Strip(space, text[..|text| - 1])
    else text
  }

  /** `text.partition("=")`, without the separator. */
  function Partition(text: string): Token {
    if text == "" then Token("", "")
    else if text[0] == '=' then Token("", text[1..])
    else
      var rest := Partition(text[1..]);
      Token([text[0]] + rest.key, rest.value)
  }

  predicate HasKey(ts: seq<Token>, key: string) {
    exists i | 0 <= i < |ts| :: ts[i].key == key
  }

  /** The tokens of the pieces, or nothing when a key is repeated. */
  function Tokens(space: char -> bool, pieces: seq<string>): Option<seq<Token>>
    decreases |pieces|
  {
    if pieces == [] then Some([])
    else
      var before := Tokens(space, pieces[..|pieces| - 1]);
      var text := Strip(space, pieces[|pieces| - 1]);
      if before.None? || text == "" then before
      else if HasKey(before.value, Partition(text).key) then None
      else Some(before.value + [Partition(text)])
  }

  method ParseTokens(space: char -> bool, text: string) returns (tokens: Option<seq<Token>>)
    ensures tokens == Tokens(space, Split(text))
  {
    var pieces := Split(text);
    var found: seq<Token> := [];
    for i := 0 to |pieces|
      invariant Some(found) == Tokens(space, pieces[..i])
    {
      assert pieces[..i + 1][..i] == pieces[..i];
      var piece := Strip(space, pieces[i]);
      if piece == "" {
        continue;
      }
      var token := Partition(piece);
      if HasKey(found, token.key) {
        RepeatedKeyRefuses(space, pieces, i + 1, |pieces|);
        assert pieces[..|pieces|] == pieces;
        return None;
      }
      found := found + [token];
    }
    assert pieces[..|pieces|] == pieces;
    tokens := Some(found);
  }

  lemma {:induction false} RepeatedKeyRefuses(space: char -> bool, pieces: seq<string>, i: nat, n: nat)
    requires i <= n <= |pieces| && Tokens(space, pieces[..i]) == None
    ensures Tokens(space, pieces[..n]) == None
    decreases n
  {
    if i < n {
      assert pieces[..n][..n - 1] == pieces[..n - 1];
      RepeatedKeyRefuses(space, pieces, i, n - 1);
    }
  }

  // ----------------------------------------------------------------------------------------
  // Requests and plans
  // ----------------------------------------------------------------------------------------

  /** The backend's configuration, and the text tests it uses. */
  datatype Host = Host(windows: bool, timeout: int, memMb: int, smp: int, winSmp: int,
                       lower: string -> string, space: char -> bool, unsafeName: string -> bool)

  /** A sample file: its name, its lower-cased suffix, whether the lower-cased name ends in
      `.py`, and its bytes. */
  datatype Sample = Sample(name: string, suffix: string, python: bool, file: Bytes)

  /** The entries of a request that the backend reads, as the caller supplied them. */
  datatype Options = Options(platform: Option<Value>, machine: Option<Value>, package: Option<Value>,
                             route: Option<Value>, timeout: Option<Value>, text: Option<Value>,
                             memory: Option<Value>, tags: Option<Value>, priority: Option<Value>,
                             enforceTimeout: Option<Value>)

  datatype Guest = Linux | Windows

  datatype Detected = Detected(guest: Guest, name: string, interpreter: Option<string>)

  datatype Launch = Launch(package: string, architecture: string, entry: Option<string>, unsupported: seq<Notice>)

  /** Something asked for that the backend does not apply. */
  datatype Notice = Ignored(token: Token) | Setting(key: string, value: Value) | NotEnforced | AlwaysEnforced

  datatype Effective = Effective(platform: string, machine: string, package: string, route: string, timeout: int,
                                 interpreter: Option<string>, isolation: string, arch: string, ramMb: int, cpus: int,
                                 enforceTimeout: bool, memoryDump: bool, monitors: seq<string>, provisioning: bool)

  datatype Plan = Plan(guest: Guest, name: string, interpreter: Option<string>, launch: Option<Launch>,
                       effective: Effective, warnings: seq<Notice>)

  const ROUTE := "drop"

  // ----------------------------------------------------------------------------------------
  // Which guest
  // ----------------------------------------------------------------------------------------

  function Interpreter(suffix: string): Option<string> {
    if suffix == ".sh" then Some("/bin/sh")
    else if suffix == ".py" then Some("/usr/bin/python3")
    else if suffix == ".pl" then Some("/usr/bin/perl")
    else None
  }

  const ELF: Bytes := [0x7f, 0x45, 0x4c, 0x46]
  const MZ: Bytes := [0x4d, 0x5a]

  predicate SupportedElf(head: Bytes) {
    && |head| >= 52
    && (head[4..7] == [1, 1, 1] || head[4..7] == [2, 1, 1])
    && (if head[4] == 1 then U16(Little, head[18..20]) == 3 else U16(Little, head[18..20]) == 62)
    && (head[4] == 2 ==> |head| >= 64)
    && (U16(Little, head[16..18]) == 2 || U16(Little, head[16..18]) == 3)
  }

  /** `_detect`. */
  function Detect(h: Host, s: Sample, package: Option<Value>): Option<Detected> {
    var head := Slice(s.file, 0, 64);
    if ELF <= head then (if SupportedElf(head) then Some(Detected(Linux, s.name, None)) else None)
    else if MZ <= head || s.suffix == ".exe" || s.suffix == ".dll" then
      if !h.windows then None
      else
        var suffix := if package == Some(Str("dll")) then ".dll" else ".exe";
        Some(Detected(Windows, if s.suffix == suffix then s.name else s.name + suffix, None))
    else if Interpreter(s.suffix).Some? then Some(Detected(Linux, s.name, Interpreter(s.suffix)))
    else None
  }

  // ----------------------------------------------------------------------------------------
  // Windows launches
  // ----------------------------------------------------------------------------------------

  predicate NameStart(c: char) {
    'A' <= c <= 'Z' || 'a' <= c <= 'z' || c == '_' || c == '?' || c == '@' || c == '$'
  }

  predicate Digit(c: char) {
    '0' <= c <= '9'
  }

  function Number(text: string): nat
    requires forall c | c in text :: Digit(c)
  {
    if text == "" then 0
    else
      var last := text[|text| - 1];
      assert last in text && Digit(last);
      10 * Number(text[..|text| - 1]) + (last as int - '0' as int)
  }

  /** An export's name, or an ordinal of at most five digits without leading zero, up to 65535. */
  predicate IsExport(f: string) {
    f != "" &&
    if f[0] == '#' then
      && 2 <= |f| <= 6 && f[1] != '0' && (forall c | c in f[1..] :: Digit(c)) && Number(f[1..]) <= 65535
    else NameStart(f[0]) && forall i | 1 <= i < |f| :: NameStart(f[i]) || Digit(f[i])
  }

  function HeaderOffset(file: Bytes): nat
    requires |file| >= 64
  {
    U32(Little, file[60..64])
  }

  /** The 24 bytes of the executable's header, when they are where the file says. */
  function PeHeader(file: Bytes): Option<Bytes> {
    if |file| < 64 || file[..2] != MZ then None
    else if !(64 <= HeaderOffset(file) <= 1024 * 1024) then None
    else
      var pe := Slice(file, HeaderOffset(file), 24);
      if |pe| == 24 && pe[..4] == [0x50, 0x45, 0, 0] then Some(pe) else None
  }

  function Architecture(machine: nat): Option<string> {
    if machine == 0x14c then Some("x86") else if machine == 0x8664 then Some("x64") else None
  }

  predicate IsLibrary(pe: Bytes)
    requires |pe| == 24
  {
    U16(Little, pe[22..24]) / 0x2000 % 2 == 1
  }

  /** `options.get("options") or ""`, when it is text. */
  function OptionText(v: Option<Value>): Option<string> {
    if !Truthy(v) then Some("") else if v.value.Str? then Some(v.value.s) else None
  }

  function FunctionOf(ts: seq<Token>): Option<string> {
    if ts == [] then None else if ts[0].key == "function" then Some(ts[0].value) else FunctionOf(ts[1..])
  }

  function WithoutFunction(ts: seq<Token>): seq<Token> {
    if ts == [] then []
    else (if ts[0].key == "function" then [] else [ts[0]]) + WithoutFunction(ts[1..])
  }

  function Notices(ts: seq<Token>): seq<Notice> {
    seq(|ts|, i requires 0 <= i < |ts| => Ignored(ts[i]))
  }

  function SettingNotice(key: string, v: Option<Value>): seq<Notice> {
    if Truthy(v) then [Setting(key, v.value)] else []
  }

  function SettingNotices(o: Options): seq<Notice> {
    SettingNotice("memory", o.memory) + SettingNotice("tags", o.tags) + SettingNotice("priority", o.priority)
  }

  /** `None`, an empty string or the expected one. */
  predicate Unset(v: Option<Value>, expected: string) {
    v == None || v == Some(Null) || v == Some(Str("")) || v == Some(Str(expected))
  }

  /** `_windows_launch`. */
  function WindowsLaunch(h: Host, s: Sample, name: string, o: Options): Option<Launch> {
    var pe := PeHeader(s.file);
    if h.unsafeName(name) || pe.None? then None
    else
      var arch := Architecture(U16(Little, pe.value[4..6]));
      var package := if Truthy(o.package) then o.package.value else Str("exe");
      if arch.None? || (package != Str("exe") && package != Str("dll")) then None
      else if (package == Str("dll")) != IsLibrary(pe.value) || OptionText(o.text).None? then None
      else
        var tokens := Tokens(h.space, Split(OptionText(o.text).value));
        if tokens.None? then None
        else
          var f := FunctionOf(tokens.value);
          if package == Str("dll") && (f.None? || !IsExport(f.value) || h.lower(f.value) == "dllmain") then None
          else if package == Str("exe") && f.Some? then None
          else
            Some(Launch(package.s, arch.value, f,
                        Notices(WithoutFunction(tokens.value)) + SettingNotices(o)
                        + if o.enforceTimeout == Some(Bool(false)) then [AlwaysEnforced] else []))
  }

  // ----------------------------------------------------------------------------------------
  // The plan
  // ----------------------------------------------------------------------------------------

  function PlatformOf(g: Guest): string {
    if g.Linux? then "linux" else "windows"
  }

  function MachineOf(g: Guest): string {
    if g.Linux? then "qemu-linux" else "qemu-windows"
  }

  function LinuxPackage(s: Sample, interpreter: Option<string>): string {
    if interpreter.None? then "elf" else if s.python then "python" else "generic"
  }

  function TimeoutOf(h: Host, v: Option<Value>): Option<int> {
    var asked := if v == None || v == Some(Null) then Int(h.timeout) else v.value;
    if asked.Int? && 1 <= asked.i <= 1800 then Some(asked.i) else None
  }

  predicate RouteOffered(v: Option<Value>) {
    v == None || v == Some(Str("drop")) || v == Some(Str("none"))
  }

  function EffectiveFor(h: Host, d: Detected, package: string, timeout: int): Effective {
    var windows := d.guest.Windows?;
    Effective(PlatformOf(d.guest), MachineOf(d.guest), package, ROUTE, timeout, d.interpreter, "qemu-tcg", "x86_64",
              if windows then 4096 else h.memMb, if windows then h.winSmp else h.smp, windows, false,
              if windows then ["sysmon", "tcpdump"] else ["strace", "tcpdump"], false)
  }

  /** `validate_submission`; `None` is the error that refuses the request. */
  function Validate(h: Host, s: Sample, o: Options): Option<Plan> {
    var found := Detect(h, s, o.package);
    if found.None? then None
    else
      var d, timeout := found.value, TimeoutOf(h, o.timeout);
      if !Unset(o.platform, PlatformOf(d.guest)) || !Unset(o.machine, MachineOf(d.guest))
         || !RouteOffered(o.route) || timeout.None? then None
      else if d.guest.Windows? then
        var launch := WindowsLaunch(h, s, d.name, o);
        if launch.None? then None
        else
          var package := launch.value.package;
          Some(Plan(d.guest, d.name, d.interpreter, launch, EffectiveFor(h, d, package, timeout.value),
                    launch.value.unsupported))
      else
        var package := LinuxPackage(s, d.interpreter);
        if !Unset(o.package, package) || OptionText(o.text).None? then None
        else
          var tokens := Tokens(h.space, Split(OptionText(o.text).value));
          if tokens.None? then None
          else
            Some(Plan(d.guest, d.name, d.interpreter, None, EffectiveFor(h, d, package, timeout.value),
                      Notices(tokens.value) + SettingNotices(o)
                      + if o.enforceTimeout == Some(Bool(true)) then [NotEnforced] else []))
  }

  // ----------------------------------------------------------------------------------------
  // What the backend advertises
  // ----------------------------------------------------------------------------------------

  datatype Machine = Machine(name: string, platform: string, arch: string)

  function ListMachines(h: Host): seq<Machine> {
    [Machine("qemu-linux", "linux", "x86_64")]
    + if h.windows then [Machine("qemu-windows", "windows", "x86_64")] else []
  }

  const SUPPORTED_ROUTES := {"drop", "none"}

  /** `capabilities()`: the packages offered for a platform. */
  function Packages(h: Host, platform: string): set<string> {
    if platform == "linux" then {"elf", "python", "generic"}
    else if platform == "windows" && h.windows then {"exe", "dll"}
    else {}
  }

  // ----------------------------------------------------------------------------------------
  // Properties of an accepted plan
  // ----------------------------------------------------------------------------------------

  /** Any accepted plan names a listed machine of its platform, an offered package, a supported
      route and a timeout within bounds; whatever the caller asked for of these is what is in
      effect, but for the route, where both offered names mean the same isolation. */
  lemma AcceptedPlanIsOffered(h: Host, s: Sample, o: Options)
    requires Validate(h, s, o).Some?
    ensures var e := Validate(h, s, o).value.effective;
            && Machine(e.machine, e.platform, e.arch) in ListMachines(h)
            && e.package in Packages(h, e.platform)
            && e.route == ROUTE && e.route in SUPPORTED_ROUTES
            && 1 <= e.timeout <= 1800
            && Unset(o.platform, e.platform) && Unset(o.machine, e.machine)
            && (Truthy(o.package) ==> o.package == Some(Str(e.package)))
            && (o.timeout != None && o.timeout != Some(Null) ==> o.timeout == Some(Int(e.timeout)))
  {
    hide Tokens, Split, PeHeader, SupportedElf, IsExport, IsLibrary, SettingNotices, Architecture, Notices, OptionText,
         WithoutFunction;
    assert Machine("qemu-linux", "linux", "x86_64") == ListMachines(h)[0];
    assert h.windows ==> Machine("qemu-windows", "windows", "x86_64") == ListMachines(h)[1];
  }

  predicate Applied(p: Plan, t: Token) {
    t.key == "function" && p.launch.Some?
  }

  lemma {:induction false} WithoutFunctionKeepsRest(ts: seq<Token>, t: Token)
    ensures t in WithoutFunction(ts) <==> t in ts && t.key != "function"
  {
    if ts != [] {
      WithoutFunctionKeepsRest(ts[1..], t);
    }
  }

  lemma NoticesList(ts: seq<Token>, t: Token)
    ensures Ignored(t) in Notices(ts) <==> t in ts
  {
    if t in ts {
      var i :| 0 <= i < |ts| && ts[i] == t;
      assert Notices(ts)[i] == Ignored(t);
    }
  }

  lemma SettingNoticesList(o: Options, key: string, v: Value)
    ensures Setting(key, v) in SettingNotices(o) <==>
              || (key == "memory" && Truthy(o.memory) && o.memory == Some(v))
              || (key == "tags" && Truthy(o.tags) && o.tags == Some(v))
              || (key == "priority" && Truthy(o.priority) && o.priority == Some(v))
    ensures forall t :: Ignored(t) !in SettingNotices(o)
  {
    hide SettingNotice;
    var n := Setting(key, v);
    OneSetting("memory", o.memory, key, v);
    OneSetting("tags", o.tags, key, v);
    OneSetting("priority", o.priority, key, v);
    assert n in SettingNotices(o) <==>
      n in SettingNotice("memory", o.memory) || n in SettingNotice("tags", o.tags)
        || n in SettingNotice("priority", o.priority);
  }

  lemma OneSetting(name: string, asked: Option<Value>, key: string, v: Value)
    ensures Setting(key, v) in SettingNotice(name, asked) <==> key == name && Truthy(asked) && asked == Some(v)
    ensures forall t :: Ignored(t) !in SettingNotice(name, asked)
  {
  }

  /** The warnings of an accepted plan are exactly these: each token but the function that is applied,
      each setting that is set, and the request for the enforcement the guest does not have. */
  lemma NoticesOfAnAcceptedPlan(h: Host, s: Sample, o: Options, t: Token, key: string, v: Value)
    requires Validate(h, s, o).Some?
    ensures var p := Validate(h, s, o).value;
            var asked := Tokens(h.space, Split(OptionText(o.text).GetOr("")));
            && asked.Some?
            && (Ignored(t) in p.warnings <==> t in asked.value && !Applied(p, t))
            && (Setting(key, v) in p.warnings <==>
                  || (key == "memory" && Truthy(o.memory) && o.memory == Some(v))
                  || (key == "tags" && Truthy(o.tags) && o.tags == Some(v))
                  || (key == "priority" && Truthy(o.priority) && o.priority == Some(v)))
            && (NotEnforced in p.warnings <==> p.guest.Linux? && o.enforceTimeout == Some(Bool(true)))
            && (AlwaysEnforced in p.warnings <==> p.guest.Windows? && o.enforceTimeout == Some(Bool(false)))
  {
    hide Tokens, Split, Truthy, PeHeader, SupportedElf, IsExport, IsLibrary, Notices, SettingNotices, Unset,
         RouteOffered, TimeoutOf;
    var asked := Tokens(h.space, Split(OptionText(o.text).GetOr(""))).value;
    WithoutFunctionKeepsRest(asked, t);
    NoticesList(asked, t);
    NoticesList(WithoutFunction(asked), t);
    SettingNoticesList(o, key, v);
    NoEnforcementNotices(asked, o);
    NoEnforcementNotices(WithoutFunction(asked), o);
    NoSettingsAmongTokens(asked, key, v);
    NoSettingsAmongTokens(WithoutFunction(asked), key, v);
  }

  lemma NoEnforcementNotices(ts: seq<Token>, o: Options)
    ensures NotEnforced !in Notices(ts) && AlwaysEnforced !in Notices(ts)
    ensures NotEnforced !in SettingNotices(o) && AlwaysEnforced !in SettingNotices(o)
  {
  }

  lemma NoSettingsAmongTokens(ts: seq<Token>, key: string, v: Value)
    ensures Setting(key, v) !in Notices(ts)
  {
  }

  /** A request for the route `none` is treated as one without a route: accepted or refused alike, with
      the same plan, which records `drop`, and so without any notice about the route. */
  lemma RouteNoneIsReplacedSilently(h: Host, s: Sample, o: Options)
    ensures Validate(h, s, o.(route := Some(Str("none")))) == Validate(h, s, o.(route := None))
    ensures Validate(h, s, o.(route := Some(Str("none")))).Some? ==>
              Validate(h, s, o.(route := Some(Str("none")))).value.effective.route == "drop"
  {
    hide Tokens, Split, Truthy, PeHeader, SupportedElf, IsExport, IsLibrary, Notices, SettingNotices, Unset, TimeoutOf;
    var none, absent := o.(route := Some(Str("none"))), o.(route := None);
    SameSettings(none, absent);
    SameLaunchWithoutRoute(h, s, none, absent);
  }

  lemma SameSettings(o: Options, p: Options)
    requires o.memory == p.memory && o.tags == p.tags && o.priority == p.priority
    ensures SettingNotices(o) == SettingNotices(p)
  {
  }

  lemma SameLaunchWithoutRoute(h: Host, s: Sample, o: Options, p: Options)
    requires p == o.(route := p.route)
    ensures forall name :: WindowsLaunch(h, s, name, o) == WindowsLaunch(h, s, name, p)
  {
    hide Tokens, Split, Truthy, PeHeader, SupportedElf, IsExport, IsLibrary, Notices, SettingNotices, Unset, TimeoutOf;
    SameSettings(o, p);
  }

  /** The route an accepted request asks for, if it asks for one, is in effect exactly when it is not `none`. */
  lemma RouteInEffectUnlessNone(h: Host, s: Sample, o: Options)
    requires Validate(h, s, o).Some?
    ensures var e := Validate(h, s, o).value.effective;
            (o.route == None || o.route == Some(Str(e.route))) <==> o.route != Some(Str("none"))
  {
    hide Tokens, Split, Truthy, PeHeader, SupportedElf, WindowsLaunch, Notices, SettingNotices, Unset, TimeoutOf;
  }

  /** What an accepted Windows launch says about the file: a header where the file points, the
      architecture of its machine, the package of its library flag, and an entry point exactly
      for a library, which the caller named. */
  lemma AcceptedLaunchFitsTheFile(h: Host, s: Sample, o: Options)
    requires Validate(h, s, o).Some? && Validate(h, s, o).value.guest.Windows?
    ensures var p := Validate(h, s, o).value;
            var pe := PeHeader(s.file);
            && p.launch.Some? && pe.Some? && h.windows
            && Architecture(U16(Little, pe.value[4..6])) == Some(p.launch.value.architecture)
            && (p.effective.package == "dll" <==> IsLibrary(pe.value))
            && (p.launch.value.entry.Some? <==> IsLibrary(pe.value))
            && (p.launch.value.entry.Some? ==> IsExport(p.launch.value.entry.value)
                                               && h.lower(p.launch.value.entry.value) != "dllmain")
            && !h.unsafeName(p.name)
  {
    hide Tokens, Split, SupportedElf, IsExport, IsLibrary, Notices, SettingNotices, Unset, Architecture;
  }

  /** The request that asks for exactly what a plan put into effect, with the same function. */
  function Resubmitted(p: Plan): Options {
    var e := p.effective;
    var f := if p.launch.Some? then p.launch.value.entry else None;
    Options(Some(Str(e.platform)), Some(Str(e.machine)), Some(Str(e.package)), Some(Str(e.route)), Some(Int(e.timeout)),
            if f.Some? then Some(Str("function=" + f.value)) else None, None, None, None, Some(Bool(e.enforceTimeout)))
  }

  /** No character of an export name, of `=` or of the word function is white space. */
  ghost predicate SaneSpaces(space: char -> bool) {
    forall c | NameStart(c) || Digit(c) || c == '#' || c == '=' :: !space(c)
  }

  lemma {:induction false} SplitPlain(text: string)
    requires forall i | 0 <= i < |text| :: text[i] != ','
    ensures Split(text) == [text]
  {
    if text != "" {
      SplitPlain(text[1..]);
      assert [text[0]] + text[1..] == text;
    }
  }

  lemma {:induction false} PartitionPlain(key: string, value: string)
    requires forall i | 0 <= i < |key| :: key[i] != '='
    ensures Partition(key + "=" + value) == Token(key, value)
  {
    var text := key + "=" + value;
    if key == "" {
      assert text[0] == '=' && text[1..] == value;
    } else {
      assert text[0] == key[0] && text[1..] == key[1..] + "=" + value;
      PartitionPlain(key[1..], value);
    }
  }

  lemma ExportCharacter(f: string, i: nat)
    requires IsExport(f) && i < |f|
    ensures NameStart(f[i]) || Digit(f[i]) || f[i] == '#'
  {
    hide Number;
    if f[0] == '#' && i > 0 {
      assert f[i] in f[1..] by {
        assert f[1..][i - 1] == f[i];
      }
    }
  }

  lemma FunctionCharacter(i: nat)
    requires i < 9
    ensures |"function="| == 9 && (NameStart("function="[i]) || "function="[i] == '=')
  {
  }

  /** No character of the text that asks for an export is a comma or white space. */
  lemma FunctionTextIsPlain(h: Host, f: string, i: nat)
    requires SaneSpaces(h.space) && IsExport(f) && i < |"function=" + f|
    ensures ("function=" + f)[i] != ',' && !h.space(("function=" + f)[i])
  {
    hide IsExport;
    if i < 9 {
      FunctionCharacter(i);
    } else {
      ExportCharacter(f, i - 9);
    }
  }

  lemma FunctionTokenReadsBack(h: Host, f: string)
    requires SaneSpaces(h.space) && IsExport(f)
    ensures Tokens(h.space, Split("function=" + f)) == Some([Token("function", f)])
    ensures OptionText(Some(Str("function=" + f))) == Some("function=" + f)
  {
    hide IsExport, SaneSpaces, Tokens, Split, Partition;
    var text := "function=" + f;
    forall i | 0 <= i < |text| ensures text[i] != ',' && !h.space(text[i]) {
      FunctionTextIsPlain(h, f, i);
    }
    SplitPlain(text);
    FunctionKeyIsPlain();
    PartitionPlain("function", f);
    assert text == "function" + "=" + f;
    OneToken(h.space, text);
  }

  lemma FunctionKeyIsPlain()
    ensures forall i | 0 <= i < |"function"| :: "function"[i] != '='
  {
  }

  lemma OneToken(space: char -> bool, text: string)
    requires text != "" && !space(text[0]) && !space(text[|text| - 1])
    ensures Tokens(space, [text]) == Some([Partition(text)])
  {
    hide Partition;
    assert [text][..0] == [];
    assert Strip(space, text) == text;
    assert !HasKey([], Partition(text).key);
    assert [] + [Partition(text)] == [Partition(text)];
  }

  lemma NothingUnapplied(o: Options)
    requires o.memory == o.tags == o.priority == None
    ensures Notices([]) + SettingNotices(o) + [] == []
  {
  }

  lemma NoTokensInNothing(h: Host)
    ensures Tokens(h.space, Split("")) == Some([])
  {
    assert [""][..0] == [];
  }

  lemma LinuxPlanResubmits(h: Host, s: Sample, o: Options)
    requires Validate(h, s, o).Some? && Validate(h, s, o).value.guest.Linux?
    ensures var p := Validate(h, s, o).value;
            Validate(h, s, Resubmitted(p)) == Some(p.(warnings := []))
  {
    hide Tokens, Split, SupportedElf, WindowsLaunch, PeHeader, Notices, SettingNotices;
    NoTokensInNothing(h);
    NothingUnapplied(Resubmitted(Validate(h, s, o).value));
  }

  lemma WindowsPlanResubmits(h: Host, s: Sample, o: Options)
    requires SaneSpaces(h.space)
    requires Validate(h, s, o).Some? && Validate(h, s, o).value.guest.Windows?
    ensures var p := Validate(h, s, o).value;
            var clean := p.(warnings := [], launch := Some(p.launch.value.(unsupported := [])));
            Validate(h, s, Resubmitted(p)) == Some(clean)
  {
    hide WindowsLaunch, SupportedElf, SaneSpaces;
    var p := Validate(h, s, o).value;
    SameLaunch(h, s, p.name, o, Resubmitted(p));
  }

  lemma SameLaunch(h: Host, s: Sample, name: string, o: Options, again: Options)
    requires SaneSpaces(h.space)
    requires WindowsLaunch(h, s, name, o).Some?
    requires var l := WindowsLaunch(h, s, name, o).value;
             && again.package == Some(Str(l.package))
             && again.text == (if l.entry.Some? then Some(Str("function=" + l.entry.value)) else None)
             && again.memory == again.tags == again.priority == None && again.enforceTimeout == Some(Bool(true))
    ensures WindowsLaunch(h, s, name, again) == Some(WindowsLaunch(h, s, name, o).value.(unsupported := []))
    ensures var l := WindowsLaunch(h, s, name, o).value;
            l.package in {"exe", "dll"} && (o.package == Some(Str("dll")) <==> l.package == "dll")
  {
    hide Tokens, Split, PeHeader, IsExport, Architecture, IsLibrary, SaneSpaces, Notices, SettingNotices;
    var l := WindowsLaunch(h, s, name, o).value;
    NoTokensInNothing(h);
    NothingUnapplied(again);
    if l.entry.Some? {
      var f := l.entry.value;
      FunctionTokenReadsBack(h, f);
      assert WithoutFunction([Token("function", f)]) == [];
    }
  }

  /** An accepted plan is a fixed point: asking for its effective settings, with the same function,
      is accepted with the same effective plan and leaves nothing unapplied. */
  lemma AcceptedPlanIsAFixedPoint(h: Host, s: Sample, o: Options)
    requires SaneSpaces(h.space) && Validate(h, s, o).Some?
    ensures var p, again := Validate(h, s, o).value, Validate(h, s, Resubmitted(Validate(h, s, o).value));
            && again.Some? && again.value.effective == p.effective && again.value.name == p.name
            && again.value.warnings == []
            && (p.launch.Some? <==> again.value.launch.Some?)
            && (p.launch.Some? ==> again.value.launch.value == p.launch.value.(unsupported := []))
            && Resubmitted(again.value) == Resubmitted(p)
  {
    hide Validate, SaneSpaces;
    if Validate(h, s, o).value.guest.Linux? {
      LinuxPlanResubmits(h, s, o);
      LinuxHasNoLaunch(h, s, o);
    } else {
      WindowsPlanResubmits(h, s, o);
      WindowsHasLaunch(h, s, o);
    }
  }

  lemma LinuxHasNoLaunch(h: Host, s: Sample, o: Options)
    requires Validate(h, s, o).Some? && Validate(h, s, o).value.guest.Linux?
    ensures Validate(h, s, o).value.launch == None
  {
    hide Tokens, Split, SupportedElf, WindowsLaunch;
  }

  lemma WindowsHasLaunch(h: Host, s: Sample, o: Options)
    requires Validate(h, s, o).Some? && Validate(h, s, o).value.guest.Windows?
    ensures Validate(h, s, o).value.launch.Some?
  {
    hide Tokens, Split, SupportedElf, WindowsLaunch;
  }

  // ----------------------------------------------------------------------------------------
  // The task table
  // ----------------------------------------------------------------------------------------

  /** How an accepted submission ends: staging the sample raises before the task is recorded, or the
      detonation ends with a report naming the route it ran under, without one, or raises. */
  datatype Outcome = NotStaged | Reported(route: Option<string>) | NoReport | Raised

  datatype Status = Pending | Done | FailedAnalysis

  /** The route is read back from the task's report, so it is missing until there is one. */
  datatype Task = Task(status: Status, requested: Options, effective: Effective, warnings: seq<Notice>,
                       route: Option<string>)

  function TaskAfter(outcome: Outcome, o: Options, plan: Plan): Task {
    match outcome
    case Reported(route) => Task(Done, o, plan.effective, plan.warnings, Some(route.GetOr(ROUTE)))
    case NoReport => Task(FailedAnalysis, o, plan.effective, plan.warnings, Some(ROUTE))
    case _ => Task(Pending, o, plan.effective, plan.warnings, None)
  }

  /** A recorded task says how it ended: done exactly with a report, failed exactly without one, and pending with no
      route when the detonation raised. */
  lemma TasksSayHowTheyEnded(outcome: Outcome, o: Options, plan: Plan)
    ensures var t := TaskAfter(outcome, o, plan);
            && t.requested == o && t.effective == plan.effective && t.warnings == plan.warnings
            && (t.status.Done? <==> outcome.Reported?) && (t.status.FailedAnalysis? <==> outcome.NoReport?)
            && (t.route.Some? <==> outcome.Reported? || outcome.NoReport?)
            && (t.route.Some? ==>
                  t.route.value == if outcome.Reported? && outcome.route.Some? then outcome.route.value else "drop")
  {
  }

  class QemuCapeClient {
    const host: Host
    var next: int
    var tasks: map<int, Task>

    ghost predicate Valid()
      reads this
    {
      next >= 1000 && forall id | id in tasks :: 1000 < id <= next
    }

    constructor (host: Host)
      ensures Valid() && this.host == host && tasks == map[]
    {
      this.host, next, tasks := host, 1000, map[];
    }

    /** A refused request changes nothing. An accepted one takes an identifier no task had; unless staging
        raises it is recorded with the plan that was put into effect, also when the detonation raises;
        and every other task is left alone. */
    method SubmitFile(s: Sample, o: Options, outcome: Outcome) returns (id: Option<int>)
      requires Valid()
      modifies this
      ensures Valid()
      ensures var plan := Validate(host, s, o);
              if plan.None? then id == None && tasks == old(tasks) && next == old(next)
              else
                && next == old(next) + 1 && next !in old(tasks)
                && id == (if outcome.Raised? || outcome.NotStaged? then None else Some(next))
                && tasks == if outcome.NotStaged? then old(tasks)
                            else old(tasks)[next := TaskAfter(outcome, o, plan.value)]
    {
      hide Validate;
      var plan := Validate(host, s, o);
      if plan.None? {
        return None;
      }
      next := next + 1;
      if outcome.NotStaged? {
        return None;
      }
      var task := Task(Pending, o, plan.value.effective, plan.value.warnings, None);
      tasks := tasks[next := task];
      match outcome {
        case Reported(route) =>
          task := task.(status := Done, route := Some(route.GetOr(ROUTE)));
        case NoReport =>
          task := task.(status := FailedAnalysis, route := Some(ROUTE));
        case _ =>
          return None;
      }
      tasks := tasks[next := task];
      id := Some(next);
    }
  }
}
