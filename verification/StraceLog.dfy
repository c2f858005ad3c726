/** Reading a system-call log of several interleaved processes
    (src/sandbox_infra/qemu/detonate.py, `_parse_strace`): lines, calls cut into an
    unfinished and a resumed half, and the record built from the completed calls. */
module StraceLog {
  import opened Wrappers
  import opened TextSearch

  // ----------------------------------------------------------------------------------------
  // Completed calls
  // ----------------------------------------------------------------------------------------

  datatype Protocol = Tcp | Udp | Unknown

  /** The file a numbered descriptor is annotated with, its device suffix taken off. */
  datatype FdFile = FdFile(path: string, device: Option<string>)

  /** One complete call as the log's patterns read it: `rest` is the text between the
      parentheses, `result` is absent for `?`, and the other fields are what the patterns for
      quoted strings, an annotated file, a leading descriptor, the comma-separated parts, an
      address and a port find in `rest`. */
  datatype Syscall = Syscall(name: string, rest: string, result: Option<int>, errno: Option<string>,
                             quoted: seq<string>, file: Option<FdFile>, fd: Option<nat>,
                             parts: seq<string>, addr: Option<string>, port: Option<string>)

  datatype Call = Call(pid: string, at: string, sys: Syscall)

  datatype Kind = Open | Write | Read | Exec | Socket | Close | Dup | CloseRange | Connect | Other

  function KindOf(name: string): Kind {
    if name in ["open", "openat", "openat2"] then Open
    else if name in ["write", "writev", "pwrite64", "pwritev"] then Write
    else if name in ["read", "readv", "pread64", "preadv"] then Read
    else if name in ["execve", "execveat"] then Exec
    else if name == "socket" then Socket
    else if name == "close" then Close
    else if name in ["dup", "dup2", "dup3"] then Dup
    else if name == "close_range" then CloseRange
    else if name == "connect" then Connect
    else Other
  }

  function Success(s: Syscall): Option<bool> {
    if s.result.None? then None else Some(s.result.value >= 0)
  }

  predicate Succeeded(s: Syscall) {
    s.result.Some? && s.result.value >= 0
  }

  predicate ForWriting(s: Syscall) {
    Contains(s.rest, "O_WRONLY") || Contains(s.rest, "O_RDWR") || Contains(s.rest, "O_CREAT")
  }

  /** The transport a `socket` call asks for. */
  function Transport(parts: seq<string>): Protocol {
    if |parts| != 3 || parts[0] !in ["AF_INET", "AF_INET6"] then Unknown
    else if Contains(parts[1], "SOCK_STREAM") && parts[2] in ["0", "IPPROTO_IP", "IPPROTO_TCP"] then Tcp
    else if Contains(parts[1], "SOCK_DGRAM") && parts[2] in ["0", "IPPROTO_IP", "IPPROTO_UDP"] then Udp
    else Unknown
  }

  // ----------------------------------------------------------------------------------------
  // The record of a log
  // ----------------------------------------------------------------------------------------

  datatype Process = Process(pid: string, syscalls: nat, image: Option<string>)

  datatype Event = Event(pid: string, at: string, name: string, result: Option<int>, success: Option<bool>,
                         errno: Option<string>, path: Option<string>, device: Option<string>,
                         image: Option<string>, arguments: seq<string>, dst: Option<string>,
                         protocol: Option<Protocol>, established: Option<bool>)

  type Sockets = map<(string, int), Protocol>

  datatype Trace = Trace(procs: seq<Process>, calls: nat, sockets: Sockets,
                         written: set<string>, read: set<string>,
                         openedForWrite: set<string>, openedForRead: set<string>,
                         writeAttempts: set<string>, execs: seq<string>, execAttempts: seq<string>,
                         events: seq<Event>, execEvents: seq<Event>, connections: seq<Event>,
                         truncated: nat)

  const EMPTY := Trace([], 0, map[], {}, {}, {}, {}, {}, [], [], [], [], [], 0)
  const MAX_EVENTS := 2000

  function Lookup(s: Sockets, pid: string, fd: int): Protocol {
    if (pid, fd) in s then s[(pid, fd)] else Unknown
  }

  predicate IsOpen(c: Call) {
    KindOf(c.sys.name).Open? && c.sys.quoted != []
  }

  predicate IsTransfer(c: Call) {
    (KindOf(c.sys.name).Write? || KindOf(c.sys.name).Read?) && c.sys.file.Some?
  }

  predicate IsExec(c: Call) {
    KindOf(c.sys.name).Exec? && c.sys.quoted != []
  }

  predicate IsConnection(c: Call) {
    KindOf(c.sys.name).Connect? && c.sys.addr.Some?
  }

  predicate IsTracked(c: Call) {
    var k := KindOf(c.sys.name);
    k.Open? || k.Write? || k.Exec? || k.Connect?
  }

  /** The call moved at least one byte. */
  predicate Moved(s: Syscall) {
    s.result.Some? && s.result.value > 0
  }

  function ConnectProtocol(s: Sockets, c: Call): Protocol {
    if Contains(c.sys.rest, "<TCP") then Tcp
    else if Contains(c.sys.rest, "<UDP") then Udp
    else if c.sys.fd.Some? then Lookup(s, c.pid, c.sys.fd.value)
    else Unknown
  }

  function PlainEvent(c: Call): Event {
    Event(c.pid, c.at, c.sys.name, c.sys.result, Success(c.sys), c.sys.errno,
          None, None, None, [], None, None, None)
  }

  /** The event one call leaves behind, given the socket labels before it. */
  function EventOf(s: Sockets, c: Call): Event {
    var e := PlainEvent(c);
    if IsOpen(c) then e.(path := Some(c.sys.quoted[0]))
    else if IsTransfer(c) then e.(path := Some(c.sys.file.value.path), device := c.sys.file.value.device)
    else if IsExec(c) then e.(image := Some(c.sys.quoted[0]), arguments := c.sys.quoted)
    else if IsConnection(c) then
      var protocol := ConnectProtocol(s, c);
      e.(dst := Some(c.sys.addr.value + ":" + c.sys.port.GetOr("?")), protocol := Some(protocol),
         established := if protocol.Tcp? then Success(c.sys) else None)
    else e
  }

  /** `procs.setdefault(pid, ...)["syscalls"] += 1`. */
  function Bump(procs: seq<Process>, pid: string): seq<Process>
    decreases |procs|
  {
    if procs == [] then [Process(pid, 1, None)]
    else if procs[0].pid == pid then [procs[0].(syscalls := procs[0].syscalls + 1)] + procs[1..]
    else [procs[0]] + Bump(procs[1..], pid)
  }

  function SetImage(procs: seq<Process>, pid: string, image: string): seq<Process>
    decreases |procs|
  {
    if procs == [] then []
    else if procs[0].pid == pid then [procs[0].(image := Some(image))] + procs[1..]
    else [procs[0]] + SetImage(procs[1..], pid, image)
  }

  function ProcsAfter(procs: seq<Process>, c: Call): seq<Process> {
    var bumped := Bump(procs, c.pid);
    if IsExec(c) && Succeeded(c.sys) then SetImage(bumped, c.pid, c.sys.quoted[0]) else bumped
  }

  function SocketsAfter(s: Sockets, c: Call): Sockets {
    if !Succeeded(c.sys) then s
    else
      var made := (c.pid, c.sys.result.value);
      match KindOf(c.sys.name)
      case Open => if c.sys.quoted != [] then s - {made} else s
      case Socket => s[made := Transport(c.sys.parts)]
      case Close => if c.sys.fd.Some? then s - {(c.pid, c.sys.fd.value)} else s
      case Dup => s[made := if c.sys.fd.Some? then Lookup(s, c.pid, c.sys.fd.value) else Unknown]
      case CloseRange => map k | k in s && k.0 != c.pid :: s[k]
      case _ => s
  }

  function With(s: set<string>, x: string, cond: bool): set<string> {
    if cond then s + {x} else s
  }

  function WrittenAfter(s: set<string>, c: Call): set<string> {
    if KindOf(c.sys.name).Write? && IsTransfer(c) then With(s, c.sys.file.value.path, Moved(c.sys)) else s
  }

  function ReadAfter(s: set<string>, c: Call): set<string> {
    if KindOf(c.sys.name).Read? && IsTransfer(c) then With(s, c.sys.file.value.path, Moved(c.sys)) else s
  }

  function OpenedAfter(s: set<string>, c: Call, forWriting: bool): set<string> {
    if IsOpen(c) then With(s, c.sys.quoted[0], Succeeded(c.sys) && ForWriting(c.sys) == forWriting) else s
  }

  function AttemptsAfter(s: set<string>, c: Call): set<string> {
    if IsOpen(c) then With(s, c.sys.quoted[0], ForWriting(c.sys))
    else if IsTransfer(c) then With(s, c.sys.file.value.path, KindOf(c.sys.name).Write?)
    else s
  }

  /** What one completed call adds to the record, field by field. */
  function Record(t: Trace, c: Call): Trace {
    var event := EventOf(t.sockets, c);
    Trace(ProcsAfter(t.procs, c),
          t.calls + 1,
          SocketsAfter(t.sockets, c),
          WrittenAfter(t.written, c),
          ReadAfter(t.read, c),
          OpenedAfter(t.openedForWrite, c, true),
          OpenedAfter(t.openedForRead, c, false),
          AttemptsAfter(t.writeAttempts, c),
          if IsExec(c) && Succeeded(c.sys) then t.execs + [c.sys.quoted[0]] else t.execs,
          if IsExec(c) then t.execAttempts + [c.sys.quoted[0]] else t.execAttempts,
          if IsTracked(c) && |t.events| < MAX_EVENTS then t.events + [event] else t.events,
          if IsExec(c) then t.execEvents + [event] else t.execEvents,
          if IsConnection(c) then t.connections + [event] else t.connections,
          if IsTracked(c) && |t.events| >= MAX_EVENTS then t.truncated + 1 else t.truncated)
  }

  /** The record of a list of calls. */
  function Replay(t: Trace, cs: seq<Call>): Trace
    decreases |cs|
  {
    if cs == [] then t else Record(Replay(t, cs[..|cs| - 1]), cs[|cs| - 1])
  }

  lemma ReplayStep(t: Trace, cs: seq<Call>, k: nat)
    requires k < |cs|
    ensures Replay(t, cs[..k + 1]) == Record(Replay(t, cs[..k]), cs[k])
  {
    assert cs[..k + 1][..k] == cs[..k];
  }

  /** The branches of the loop body, in the order the program takes them. */
  method Observe(before: Trace, c: Call) returns (t: Trace)
    ensures t == Record(before, c)
  {
    hide KindOf, ForWriting, Transport, Contains, Bump, SetImage, ConnectProtocol;
    var s, pid := c.sys, c.pid;
    var success := Succeeded(s);
    t := before.(procs := Bump(before.procs, pid), calls := before.calls + 1);
    var event := PlainEvent(c);
    match KindOf(s.name) {
      case Open =>
        if s.quoted != [] {
          var path, writable := s.quoted[0], ForWriting(s);
          event := event.(path := Some(path));
          if writable {
            t := t.(writeAttempts := t.writeAttempts + {path});
          }
          if success {
            t := t.(sockets := t.sockets - {(pid, s.result.value)});
            if writable {
              t := t.(openedForWrite := t.openedForWrite + {path});
            } else {
              t := t.(openedForRead := t.openedForRead + {path});
            }
          }
        }
      case Write =>
        if s.file.Some? {
          var path := s.file.value.path;
          event := event.(path := Some(path), device := s.file.value.device);
          t := t.(writeAttempts := t.writeAttempts + {path});
          if s.result.Some? && s.result.value > 0 {
            t := t.(written := t.written + {path});
          }
        }
      case Read =>
        if s.file.Some? {
          var path := s.file.value.path;
          event := event.(path := Some(path), device := s.file.value.device);
          if s.result.Some? && s.result.value > 0 {
            t := t.(read := t.read + {path});
          }
        }
      case Exec =>
        if s.quoted != [] {
          event := event.(image := Some(s.quoted[0]), arguments := s.quoted);
          t := t.(execAttempts := t.execAttempts + [s.quoted[0]], execEvents := t.execEvents + [event]);
          if success {
            t := t.(execs := t.execs + [s.quoted[0]], procs := SetImage(t.procs, pid, s.quoted[0]));
          }
        }
      case Socket =>
        if success {
          t := t.(sockets := t.sockets[(pid, s.result.value) := Transport(s.parts)]);
        }
      case Close =>
        if success && s.fd.Some? {
          t := t.(sockets := t.sockets - {(pid, s.fd.value)});
        }
      case Dup =>
        if success {
          var copied := if s.fd.Some? then Lookup(t.sockets, pid, s.fd.value) else Unknown;
          t := t.(sockets := t.sockets[(pid, s.result.value) := copied]);
        }
      case CloseRange =>
        if success {
          t := t.(sockets := map k | k in t.sockets && k.0 != pid :: t.sockets[k]);
        }
      case Connect =>
        var protocol := ConnectProtocol(t.sockets, c);
        if s.addr.Some? {
          event := event.(dst := Some(s.addr.value + ":" + s.port.GetOr("?")), protocol := Some(protocol),
                          established := if protocol.Tcp? then Success(s) else None);
          t := t.(connections := t.connections + [event]);
        }
      case Other =>
    }
    if IsTracked(c) {
      if |t.events| < MAX_EVENTS {
        t := t.(events := t.events + [event]);
      } else {
        t := t.(truncated := t.truncated + 1);
      }
    }
  }

  // ----------------------------------------------------------------------------------------
  // Lines
  // ----------------------------------------------------------------------------------------

  /** A line with a process id, a time stamp and a body, or one without. */
  datatype Line = Noise | Line(pid: string, at: string, body: string)

  /** The character class `\w` and the pattern for a complete call. */
  datatype Grammar = Grammar(word: char -> bool, decode: string -> Option<Syscall>) {
    predicate Sane() {
      !word(' ') && !word('<')
    }
  }

  const UNFINISHED := "<unfinished ...>"
  const RESUMED_HEAD := "<... "
  const RESUMED_TAIL := " resumed>"

  datatype Shape = Unfinished(head: string) | Resumed(name: string, tail: string) | Whole

  function WordEnd(word: char -> bool, s: string, i: nat): (e: nat)
    requires i <= |s|
    ensures i <= e <= |s| && forall k | i <= k < e :: word(s[k])
    ensures e < |s| ==> !word(s[e])
    decreases |s| - i
  {
    if i < |s| && word(s[i]) then WordEnd(word, s, i + 1) else i
  }

  function ShapeOf(word: char -> bool, body: string): Shape {
    var u := Find(body, UNFINISHED, 0);
    if u <= |body| then Unfinished(body[..u])
    else if !At(body, RESUMED_HEAD, 0) then Whole
    else
      var e := WordEnd(word, body, |RESUMED_HEAD|);
      if e > |RESUMED_HEAD| && At(body, RESUMED_TAIL, e)
      then Resumed(body[|RESUMED_HEAD|..e], body[e + |RESUMED_TAIL|..])
      else Whole
  }

  datatype Parser = Parser(pending: map<string, string>, trace: Trace)

  const START := Parser(map[], EMPTY)

  function Held(pending: map<string, string>, pid: string): string {
    if pid in pending then pending[pid] else ""
  }

  function PendingAfter(g: Grammar, pending: map<string, string>, line: Line): map<string, string> {
    if line.Noise? then pending
    else
      match ShapeOf(g.word, line.body)
      case Unfinished(head) => pending[line.pid := head]
      case Resumed(_, _) => pending - {line.pid}
      case Whole => pending
  }

  /** The call a line completes, if it completes one. */
  function Completed(g: Grammar, pending: map<string, string>, line: Line): Option<Call> {
    if line.Noise? then None
    else
      var text := match ShapeOf(g.word, line.body)
                  case Unfinished(_) => None
                  case Resumed(name, tail) =>
                    if name + "(" <= Held(pending, line.pid) then Some(Held(pending, line.pid) + tail) else None
                  case Whole => Some(line.body);
      if text.None? then None
      else
        match g.decode(text.value)
        case None => None
        case Some(sys) => Some(Call(line.pid, line.at, sys))
  }

  function Step(g: Grammar, p: Parser, line: Line): Parser {
    var c := Completed(g, p.pending, line);
    Parser(PendingAfter(g, p.pending, line), if c.Some? then Record(p.trace, c.value) else p.trace)
  }

  function Run(g: Grammar, p: Parser, log: seq<Line>): Parser
    decreases |log|
  {
    if log == [] then p else Step(g, Run(g, p, log[..|log| - 1]), log[|log| - 1])
  }

  method ParseStrace(g: Grammar, log: seq<Line>) returns (trace: Trace)
    ensures trace == Run(g, START, log).trace
  {
    hide Record, ShapeOf;
    var pending: map<string, string> := map[];
    trace := EMPTY;
    for i := 0 to |log|
      invariant Parser(pending, trace) == Run(g, START, log[..i])
    {
      assert log[..i + 1][..i] == log[..i];
      if log[i].Noise? {
        continue;
      }
      var pid, body := log[i].pid, log[i].body;
      var shape := ShapeOf(g.word, body);
      if shape.Unfinished? {
        pending := pending[pid := shape.head];
        continue;
      }
      if shape.Resumed? {
        var start := Held(pending, pid);
        pending := pending - {pid};
        if !(shape.name + "(" <= start) {
          continue;
        }
        body := start + shape.tail;
      }
      var sys := g.decode(body);
      if sys.None? {
        continue;
      }
      trace := Observe(trace, Call(pid, log[i].at, sys.value));
    }
    assert log[..|log|] == log;
  }

  lemma {:induction false} RunAppend(g: Grammar, p: Parser, a: seq<Line>, b: seq<Line>)
    ensures Run(g, p, a + b) == Run(g, Run(g, p, a), b)
    decreases |b|
  {
    hide Step;
    if b == [] {
      assert a + b == a;
    } else {
      RunAppend(g, p, a, b[..|b| - 1]);
      assert (a + b)[..|a + b| - 1] == a + b[..|b| - 1];
    }
  }

  lemma RunOne(g: Grammar, p: Parser, line: Line)
    ensures Run(g, p, [line]) == Step(g, p, line)
  {
    hide Step;
    assert Run(g, p, [line][..0]) == p;
  }

  // ----------------------------------------------------------------------------------------
  // Completed calls of a whole log
  // ----------------------------------------------------------------------------------------

  /** The calls a log completes, in the order their last line appears. */
  function Calls(g: Grammar, p: Parser, log: seq<Line>): seq<Call>
    decreases |log|
  {
    if log == [] then []
    else
      var before := log[..|log| - 1];
      var c := Completed(g, Run(g, p, before).pending, log[|log| - 1]);
      Calls(g, p, before) + if c.Some? then [c.value] else []
  }

  /** Whatever the interleaving, the record is that of the completed calls in order. */
  lemma {:induction false} RunIsReplayOfCalls(g: Grammar, p: Parser, log: seq<Line>)
    ensures Run(g, p, log).trace == Replay(p.trace, Calls(g, p, log))
    decreases |log|
  {
    hide Record, Completed, PendingAfter;
    if log != [] {
      var before := log[..|log| - 1];
      RunIsReplayOfCalls(g, p, before);
      var c := Completed(g, Run(g, p, before).pending, log[|log| - 1]);
      if c.Some? {
        var cs := Calls(g, p, before) + [c.value];
        assert cs[..|cs| - 1] == Calls(g, p, before);
      } else {
        assert Calls(g, p, before) + [] == Calls(g, p, before);
      }
    }
  }

  /** A line that is neither half of a cut call. */
  predicate IsPlain(line: Line) {
    line.Line? ==> !Contains(line.body, UNFINISHED) && !(RESUMED_HEAD <= line.body)
  }

  /** The calls of plain lines: what the pattern reads in each, with the line's process and time. */
  function Decoded(g: Grammar, log: seq<Line>): seq<Call>
    decreases |log|
  {
    if log == [] then []
    else
      var last := log[|log| - 1];
      Decoded(g, log[..|log| - 1])
      + if last.Line? && g.decode(last.body).Some? then [Call(last.pid, last.at, g.decode(last.body).value)] else []
  }

  lemma PlainShape(g: Grammar, body: string)
    requires !Contains(body, UNFINISHED) && !(RESUMED_HEAD <= body)
    ensures ShapeOf(g.word, body) == Whole
  {
    assert At(body, RESUMED_HEAD, 0) ==> RESUMED_HEAD <= body;
  }

  /** In a log of plain lines every line the pattern reads is one call, in order. */
  lemma {:induction false} PlainLinesAreCalls(g: Grammar, p: Parser, log: seq<Line>)
    requires forall i | 0 <= i < |log| :: IsPlain(log[i])
    ensures Calls(g, p, log) == Decoded(g, log) && Run(g, p, log).pending == p.pending
    decreases |log|
  {
    hide ShapeOf, Record, Contains;
    if log != [] {
      var last := log[|log| - 1];
      PlainLinesAreCalls(g, p, log[..|log| - 1]);
      if last.Line? {
        PlainShape(g, last.body);
      }
    }
  }

  // ----------------------------------------------------------------------------------------
  // Cutting a call in two
  // ----------------------------------------------------------------------------------------

  lemma MarkerIsFoundAtCut(head: string, junk: string)
    requires !Contains(head, UNFINISHED)
    ensures Find(head + UNFINISHED + junk, UNFINISHED, 0) == |head|
  {
    var s := head + UNFINISHED + junk;
    assert At(s, UNFINISHED, |head|);
    forall k | 0 <= k < |head| ensures !At(s, UNFINISHED, k) {
      var o := |head| - k;
      if o < |UNFINISHED| {
        assert s[k + o] != UNFINISHED[o];
      } else {
        assert At(s, UNFINISHED, k) ==> At(head, UNFINISHED, k);
      }
    }
  }

  function ResumedText(name: string, tail: string): string {
    RESUMED_HEAD + name + RESUMED_TAIL + tail
  }

  predicate IsWord(word: char -> bool, name: string) {
    name != "" && forall k | 0 <= k < |name| :: word(name[k])
  }

  lemma ResumedHasNoMarker(g: Grammar, name: string, tail: string)
    requires g.Sane() && IsWord(g.word, name)
    requires !Contains(tail, UNFINISHED)
    ensures !Contains(ResumedText(name, tail), UNFINISHED)
  {
    var s := ResumedText(name, tail);
    var n := |RESUMED_HEAD| + |name| + |RESUMED_TAIL|;
    forall k | 0 <= k <= |s| ensures !At(s, UNFINISHED, k) {
      if k >= n {
        assert s[n..] == tail;
        assert At(s, UNFINISHED, k) ==> At(s[n..], UNFINISHED, k - n);
      } else if k == 0 {
        assert s[k + 1] != UNFINISHED[1];
      } else {
        assert k < |RESUMED_HEAD| ==> s[k] == RESUMED_HEAD[k];
        assert |RESUMED_HEAD| <= k < |RESUMED_HEAD| + |name| ==> s[k] == name[k - |RESUMED_HEAD|];
        assert s[k + 0] != UNFINISHED[0];
      }
    }
  }

  lemma ResumedShape(g: Grammar, name: string, tail: string)
    requires g.Sane() && IsWord(g.word, name)
    requires !Contains(tail, UNFINISHED)
    ensures ShapeOf(g.word, ResumedText(name, tail)) == Resumed(name, tail)
  {
    var s := ResumedText(name, tail);
    ResumedHasNoMarker(g, name, tail);
    assert At(s, RESUMED_HEAD, 0);
    var e := WordEnd(g.word, s, |RESUMED_HEAD|);
    var stop := |RESUMED_HEAD| + |name|;
    assert s[stop] == ' ';
    forall k | |RESUMED_HEAD| <= k < stop ensures g.word(s[k]) {
      assert s[k] == name[k - |RESUMED_HEAD|];
    }
    assert e == stop && At(s, RESUMED_TAIL, e);
    assert s[|RESUMED_HEAD|..e] == name && s[e + |RESUMED_TAIL|..] == tail;
  }

  lemma WholeShape(g: Grammar, name: string, text: string)
    requires g.Sane() && IsWord(g.word, name) && name <= text
    requires !Contains(text, UNFINISHED)
    ensures ShapeOf(g.word, text) == Whole
  {
    assert text[0] == name[0] && RESUMED_HEAD[0] == '<';
    assert text[0 + 0] != RESUMED_HEAD[0];
  }

  lemma AtShifted(head: string, tail: string, pat: string, k: nat)
    ensures At(tail, pat, k) ==> At(head + tail, pat, |head| + k)
    ensures At(head, pat, k) ==> At(head + tail, pat, k)
  {
    assert (head + tail)[|head|..] == tail;
    assert At((head + tail)[|head|..], pat, k) ==> At(head + tail, pat, |head| + k);
  }

  lemma PartsHaveNoMarker(head: string, tail: string)
    requires !Contains(head + tail, UNFINISHED)
    ensures !Contains(head, UNFINISHED) && !Contains(tail, UNFINISHED)
  {
    hide At;
    forall k: nat {
      AtShifted(head, tail, UNFINISHED, k);
    }
  }

  /** Lines of other processes neither read nor touch what is held for `pid`. */
  lemma {:induction false} OthersLeaveHeldCall(g: Grammar, p: Parser, pid: string, head: string, mid: seq<Line>)
    requires forall i | 0 <= i < |mid| :: mid[i].Line? ==> mid[i].pid != pid
    ensures var q := Run(g, p, mid);
            Run(g, p.(pending := p.pending[pid := head]), mid) == q.(pending := q.pending[pid := head])
    ensures pid in Run(g, p, mid).pending <==> pid in p.pending
    decreases |mid|
  {
    hide Record, ShapeOf;
    if mid != [] {
      var rest, last := mid[..|mid| - 1], mid[|mid| - 1];
      OthersLeaveHeldCall(g, p, pid, head, rest);
      var q := Run(g, p, rest);
      var held := q.pending[pid := head];
      assert last.Line? ==> Held(held, last.pid) == Held(q.pending, last.pid) && last.pid != pid;
      assert Completed(g, held, last) == Completed(g, q.pending, last);
      assert PendingAfter(g, held, last) == PendingAfter(g, q.pending, last)[pid := head];
    }
  }

  /** Cutting a call: its first half with the marker, lines of other processes, then its second
      half. The record equals that of the joined line at the resume point, and the whole parser
      state does exactly when no earlier half of the same process was being held. */
  lemma CutCallIsJoined(g: Grammar, p: Parser, pid: string, t0: string, t1: string, name: string,
                        head: string, tail: string, junk: string, mid: seq<Line>)
    requires g.Sane() && IsWord(g.word, name) && name + "(" <= head
    requires !Contains(head + tail, UNFINISHED)
    requires forall i | 0 <= i < |mid| :: mid[i].Line? ==> mid[i].pid != pid
    ensures var cut := Run(g, p, CutLines(pid, t0, t1, name, head, tail, junk, mid));
            var joined := Run(g, p, mid + [Line(pid, t1, head + tail)]);
            && cut.trace == joined.trace
            && (cut == joined <==> pid !in p.pending)
  {
    hide Record, ShapeOf, Contains, Find, Run;
    PartsHaveNoMarker(head, tail);
    var first := Line(pid, t0, head + UNFINISHED + junk);
    var last := Line(pid, t1, ResumedText(name, tail));
    var p1 := p.(pending := p.pending[pid := head]);
    FirstHalf(g, p, pid, t0, head, junk);
    RunOne(g, p, first);
    OthersLeaveHeldCall(g, p, pid, head, mid);
    var q := Run(g, p, mid);
    RunAppend(g, p, [first], mid);
    RunAppend(g, p, [first] + mid, [last]);
    RunOne(g, Run(g, p1, mid), last);
    RunAppend(g, p, mid, [Line(pid, t1, head + tail)]);
    RunOne(g, q, Line(pid, t1, head + tail));
    ResumedShape(g, name, tail);
    WholeShape(g, name, head + tail);
    assert Completed(g, q.pending[pid := head], last) == Completed(g, q.pending, Line(pid, t1, head + tail));
    assert q.pending[pid := head] - {pid} == q.pending - {pid};
    assert pid !in q.pending ==> q.pending - {pid} == q.pending;
  }

  function CutLines(pid: string, t0: string, t1: string, name: string, head: string, tail: string,
                    junk: string, mid: seq<Line>): seq<Line> {
    [Line(pid, t0, head + UNFINISHED + junk)] + mid + [Line(pid, t1, ResumedText(name, tail))]
  }

  lemma FirstHalf(g: Grammar, p: Parser, pid: string, t0: string, head: string, junk: string)
    requires !Contains(head, UNFINISHED)
    ensures Step(g, p, Line(pid, t0, head + UNFINISHED + junk)) == p.(pending := p.pending[pid := head])
  {
    hide Record, Contains, Find;
    MarkerIsFoundAtCut(head, junk);
    var s := head + UNFINISHED + junk;
    assert s[..|head|] == head;
  }

  /** Anywhere in a log: if no half of that process is held when the call starts, the record of
      the whole log is the same cut or joined. */
  lemma CutAnywhereInALog(g: Grammar, before: seq<Line>, after: seq<Line>, pid: string, t0: string, t1: string,
                          name: string, head: string, tail: string, junk: string, mid: seq<Line>)
    requires g.Sane() && IsWord(g.word, name) && name + "(" <= head
    requires !Contains(head + tail, UNFINISHED)
    requires forall i | 0 <= i < |mid| :: mid[i].Line? ==> mid[i].pid != pid
    requires pid !in Run(g, START, before).pending
    ensures Run(g, START, before + CutLines(pid, t0, t1, name, head, tail, junk, mid) + after)
         == Run(g, START, before + (mid + [Line(pid, t1, head + tail)]) + after)
  {
    hide Run, Contains, CutLines;
    var cut := CutLines(pid, t0, t1, name, head, tail, junk, mid);
    var joined := mid + [Line(pid, t1, head + tail)];
    CutCallIsJoined(g, Run(g, START, before), pid, t0, t1, name, head, tail, junk, mid);
    RunAppend(g, START, before, cut);
    RunAppend(g, START, before + cut, after);
    RunAppend(g, START, before, joined);
    RunAppend(g, START, before + joined, after);
  }

  /** The condition is needed: when a half was held that some resumed line completes to a
      call, that line counts a call after the joined log and none after the cut one. */
  lemma HeldHalfTellsThemApart(g: Grammar, p: Parser, pid: string, t0: string, t1: string, name: string,
                               head: string, tail: string, junk: string, mid: seq<Line>,
                               held: string, t2: string, other: string, end: string)
    requires g.Sane() && IsWord(g.word, name) && name + "(" <= head
    requires !Contains(head + tail, UNFINISHED)
    requires forall i | 0 <= i < |mid| :: mid[i].Line? ==> mid[i].pid != pid
    requires pid in p.pending && p.pending[pid] == held
    requires IsWord(g.word, other) && other + "(" <= held && !Contains(end, UNFINISHED)
    requires g.decode(held + end).Some?
    ensures var resume := [Line(pid, t2, ResumedText(other, end))];
            var cut := CutLines(pid, t0, t1, name, head, tail, junk, mid) + resume;
            var joined := mid + [Line(pid, t1, head + tail)] + resume;
            Run(g, p, joined).trace.calls == Run(g, p, cut).trace.calls + 1
  {
    hide Run, Contains, CutLines, ShapeOf, Find;
    var resume := Line(pid, t2, ResumedText(other, end));
    var cutLog, joinedLog := CutLines(pid, t0, t1, name, head, tail, junk, mid), mid + [Line(pid, t1, head + tail)];
    CutCallIsJoined(g, p, pid, t0, t1, name, head, tail, junk, mid);
    HeldAfterBoth(g, p, pid, t0, t1, name, head, tail, junk, mid);
    ResumedShape(g, other, end);
    RunAppend(g, p, cutLog, [resume]);
    RunAppend(g, p, joinedLog, [resume]);
    RunOne(g, Run(g, p, cutLog), resume);
    RunOne(g, Run(g, p, joinedLog), resume);
  }

  lemma HeldAfterBoth(g: Grammar, p: Parser, pid: string, t0: string, t1: string, name: string,
                      head: string, tail: string, junk: string, mid: seq<Line>)
    requires g.Sane() && IsWord(g.word, name) && name + "(" <= head
    requires !Contains(head + tail, UNFINISHED)
    requires forall i | 0 <= i < |mid| :: mid[i].Line? ==> mid[i].pid != pid
    ensures pid !in Run(g, p, CutLines(pid, t0, t1, name, head, tail, junk, mid)).pending
    ensures Held(Run(g, p, mid + [Line(pid, t1, head + tail)]).pending, pid) == Held(p.pending, pid)
  {
    hide Record, ShapeOf, Contains, Find, Run;
    PartsHaveNoMarker(head, tail);
    var last := Line(pid, t1, ResumedText(name, tail));
    var first := [Line(pid, t0, head + UNFINISHED + junk)];
    RunAppend(g, p, first + mid, [last]);
    RunOne(g, Run(g, p, first + mid), last);
    ResumedShape(g, name, tail);
    WholeShape(g, name, head + tail);
    RunAppend(g, p, mid, [Line(pid, t1, head + tail)]);
    RunOne(g, Run(g, p, mid), Line(pid, t1, head + tail));
    OthersLeaveHeldCall(g, p, pid, Held(p.pending, pid), mid);
    if pid in p.pending {
      assert p.pending[pid := Held(p.pending, pid)] == p.pending;
    }
  }
}
