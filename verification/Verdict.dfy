/** Whether a run executed the sample: the collectors' own verdicts (`_execution_health` of
    src/sandbox_infra/qemu/detonate.py and src/sandbox_infra/qemu/win_detonate.py) and the one the
    backend recomputes from their reports (src/core/qemu_backend.py, `report_has_signal`). */
module Verdict {
  import opened Wrappers
  import opened TextSearch
  import opened StraceLog
  import StraceFacts
  import opened SampleTree

  /** What the guest reported about its run: the error entries that are set, the launcher's
      version and the seconds waited when they are numbers. */
  datatype GuestRun = GuestRun(present: bool, errors: set<string>, launcherVersion: Option<int>,
                               waited: Option<real>, timedOut: bool)

  /** The entries of a report's `sandboxgen` block that the backend reads. */
  datatype Health = Health(schema: Option<int>, valid: Option<bool>, rootFound: Option<bool>, errors: set<string>)

  /** What else the backend reads. */
  datatype Evidence = Evidence(signatures: nat, network: nat, malscore: real)

  datatype Report =
    | LinuxReport(processes: nat, evidence: Evidence, health: Health)
    | WindowsReport(records: seq<Proc>, name: string, package: string, evidence: Evidence, health: Health)

  const LINUX_ERRORS := {"error", "launch_error", "wait_error", "export_error"}
  const WINDOWS_ERRORS := {"launch_error", "wait_error", "export_error"}

  // ----------------------------------------------------------------------------------------
  // The collectors
  // ----------------------------------------------------------------------------------------

  /** A successful exec of the sample, or of its interpreter with the sample as the argument. */
  predicate IsRootExec(e: Event, path: string, interpreter: Option<string>) {
    && e.success == Some(true)
    && (e.image == Some(path)
        || (interpreter.Some? && interpreter.value != "" && e.image == interpreter
            && |e.arguments| > 2 && e.arguments[2] == path))
  }

  predicate HasRootExec(execs: seq<Event>, path: string, interpreter: Option<string>) {
    exists i | 0 <= i < |execs| :: IsRootExec(execs[i], path, interpreter)
  }

  function LinuxHealth(execs: seq<Event>, run: GuestRun, path: string, interpreter: Option<string>): Health {
    var found := HasRootExec(execs, path, interpreter);
    var errors := run.errors * LINUX_ERRORS != {} || !run.present || !found;
    Health(Some(2), Some(!errors), Some(found), {})
  }

  /** The Linux collector's loop over the exec events. */
  method LinuxRoots(execs: seq<Event>, path: string, interpreter: Option<string>) returns (roots: seq<string>)
    ensures roots != [] <==> HasRootExec(execs, path, interpreter)
    ensures forall pid :: pid in roots <==>
              exists i | 0 <= i < |execs| :: IsRootExec(execs[i], path, interpreter) && execs[i].pid == pid
  {
    roots := [];
    for i := 0 to |execs|
      invariant forall pid :: pid in roots <==>
                  exists k | 0 <= k < i :: IsRootExec(execs[k], path, interpreter) && execs[k].pid == pid
      invariant roots != [] <==> exists k | 0 <= k < i :: IsRootExec(execs[k], path, interpreter)
    {
      if IsRootExec(execs[i], path, interpreter) {
        roots := roots + [execs[i].pid];
      }
    }
  }

  /** The shaped report replaces the whole block, so it holds no error entry of its own. */
  function LinuxShaped(t: Trace, run: GuestRun, path: string, interpreter: Option<string>, evidence: Evidence): Report {
    LinuxReport(|t.procs|, evidence, LinuxHealth(t.execEvents, run, path, interpreter))
  }

  /** The report of a guest that never became ready or returned nothing. */
  function LinuxUnshaped(): Report {
    LinuxReport(0, Evidence(0, 0, 0.0), Health(Some(2), Some(false), Some(false), {"error"}))
  }

  predicate WaitedEnough(run: GuestRun, timeout: nat) {
    run.waited.Some? && run.waited.value >= 0.8 * timeout as real
  }

  /** The Windows collector's verdict, for the process tree it attributes to the sample. */
  predicate WindowsValid(run: GuestRun, tree: set<string>, timeout: nat) {
    run.errors * WINDOWS_ERRORS == {} && run.launcherVersion == Some(1) && tree != {} && WaitedEnough(run, timeout)
  }

  function InTree(ps: seq<Proc>, tree: set<string>): seq<Proc> {
    if ps == [] then [] else (if ps[0].pid in tree then [ps[0]] else []) + InTree(ps[1..], tree)
  }

  function WindowsShaped(ps: seq<Proc>, tree: set<string>, run: GuestRun, timeout: nat, name: string,
                         package: string, evidence: Evidence): Report
  {
    var early := if run.timedOut && run.waited.Some? && run.waited.value < 0.8 * timeout as real then {"error"} else {};
    WindowsReport(InTree(ps, tree), name, package, evidence,
                  Health(None, Some(WindowsValid(run, tree, timeout)), Some(tree != {}),
                         early + run.errors * WINDOWS_ERRORS))
  }

  function WindowsUnshaped(name: string, package: string, verdict: Option<bool>): Report {
    WindowsReport([], name, package, Evidence(0, 0, 0.0), Health(None, verdict, None, {"error"}))
  }

  // ----------------------------------------------------------------------------------------
  // The backend
  // ----------------------------------------------------------------------------------------

  datatype Signal = Signal(executionValid: bool, hasSignal: bool)

  /** The backend's own reading of one Windows process record. */
  predicate IsRealSample(p: Proc, name: string, package: string, lower: string -> string) {
    var expected := lower("c:\\task\\" + name);
    if package == "dll" then
      && lower(p.image) in {LOADER_32, LOADER_64}
      && name != "" && exists i | 0 <= i < |p.loaded| :: lower(p.loaded[i]) == expected
    else name != "" && lower(p.image) == expected
  }

  predicate HasRealSample(ps: seq<Proc>, name: string, package: string, lower: string -> string) {
    exists i | 0 <= i < |ps| :: IsRealSample(ps[i], name, package, lower)
  }

  predicate RecomputedValid(r: Report, lower: string -> string) {
    match r
    case LinuxReport(_, _, h) =>
      h.schema == Some(2) && h.rootFound == Some(true) && h.valid == Some(true) && h.errors * LINUX_ERRORS == {}
    case WindowsReport(records, name, package, _, h) =>
      && HasRealSample(records, name, package, lower) && h.rootFound == Some(true)
      && h.errors * LINUX_ERRORS == {} && h.valid != Some(false)
  }

  function ReportHasSignal(r: Report, lower: string -> string): Signal {
    var valid := RecomputedValid(r, lower);
    var processes := if r.LinuxReport? then r.processes else |r.records|;
    Signal(valid, valid && (processes > 0 || r.evidence.signatures > 0 || r.evidence.malscore > 0.0
                            || r.evidence.network > 0))
  }

  // ----------------------------------------------------------------------------------------
  // The two verdicts agree
  // ----------------------------------------------------------------------------------------

  lemma LinuxVerdictsAgree(t: Trace, run: GuestRun, path: string, interpreter: Option<string>, evidence: Evidence,
                           lower: string -> string)
    ensures var r := LinuxShaped(t, run, path, interpreter, evidence);
            && r.health.valid == Some(ReportHasSignal(r, lower).executionValid)
            && (ReportHasSignal(r, lower).executionValid <==>
                  HasRootExec(t.execEvents, path, interpreter) && run.present && run.errors * LINUX_ERRORS == {})
  {
    hide HasRootExec;
  }

  /** What lower-casing does to the texts the two verdicts compare: it is idempotent, keeps lower-case
      directories, and so ignores the case of the drive letter. */
  ghost predicate LowersPaths(lower: string -> string) {
    && (forall x :: lower(lower(x)) == lower(x))
    && (forall rest :: lower("C:\\task\\" + rest) == lower("c:\\task\\" + rest))
    && (forall rest :: TASK_DIRECTORY <= lower("c:\\task\\" + rest))
    && lower(LOADER_32) == LOADER_32 && lower(LOADER_64) == LOADER_64
  }

  const TASK_DIRECTORY := "c:\\task\\"
  const LOADER_32 := "c:\\windows\\syswow64\\rundll32.exe"
  const LOADER_64 := "c:\\windows\\system32\\rundll32.exe"

  /** The two classes of package both verdicts distinguish. */
  predicate SameClass(package: string, other: string) {
    (package == "dll") == (other == "dll")
  }

  /** The collector's roots are the backend's real samples, and for a library only those that the loader of its
      architecture started with the launch's command line. */
  lemma RootsAreRealSamples(l: Launch, p: Proc, package: string)
    requires l.name != "" && LowersPaths(l.lower) && SameClass(l.package, package)
    ensures IsRoot(l, p) <==>
              && IsRealSample(p, l.name, package, l.lower)
              && (package == "dll" ==>
                    && l.launches(p.cmdline)
                    && l.lower(p.image) == if l.architecture == "x86" then LOADER_32 else LOADER_64)
  {
    assert l.Path() == l.lower("c:\\task\\" + l.name);
  }

  lemma {:induction false} InTreeKeeps(ps: seq<Proc>, tree: set<string>, i: nat)
    requires i < |ps| && ps[i].pid in tree
    ensures ps[i] in InTree(ps, tree)
    decreases |ps|
  {
    if i > 0 {
      InTreeKeeps(ps[1..], tree, i - 1);
    }
  }

  lemma TreeHasRealSample(l: Launch, ps: seq<Proc>, tree: set<string>, package: string)
    requires l.name != "" && LowersPaths(l.lower) && SameClass(l.package, package)
    requires tree != {} && forall pid :: pid in tree <==> Reached(l, ps, pid)
    ensures HasRealSample(InTree(ps, tree), l.name, package, l.lower)
  {
    hide IsRoot, IsRealSample, Reached, LowersPaths;
    var pid :| pid in tree;
    NoRootNoTree(l, ps);
    var i :| 0 <= i < |ps| && IsRoot(l, ps[i]);
    RootIsReached(l, ps, ps[i].pid);
    InTreeKeeps(ps, tree, i);
    RootsAreRealSamples(l, ps[i], package);
    var k :| 0 <= k < |InTree(ps, tree)| && InTree(ps, tree)[k] == ps[i];
  }

  /** The backend's verdict on a shaped report is the collector's, and some record it attributes to the
      sample passes the backend's own test under the report's package. */
  lemma RecomputedVerdict(l: Launch, ps: seq<Proc>, tree: set<string>, run: GuestRun, timeout: nat, package: string,
                          evidence: Evidence)
    ensures var r := WindowsShaped(ps, tree, run, timeout, l.name, package, evidence);
            ReportHasSignal(r, l.lower).executionValid
            <==> WindowsValid(run, tree, timeout) && HasRealSample(InTree(ps, tree), l.name, package, l.lower)
  {
    hide HasRealSample, InTree;
    var r := WindowsShaped(ps, tree, run, timeout, l.name, package, evidence);
    if WindowsValid(run, tree, timeout) {
      assert r.health.errors == {};
    }
  }

  /** For every set of process records and every guest run: with the name of the launch and a package
      of its class, the verdict recomputed from the shaped report is the collector's. */
  lemma WindowsVerdictsAgree(l: Launch, ps: seq<Proc>, tree: set<string>, run: GuestRun, timeout: nat, package: string,
                             evidence: Evidence)
    requires l.name != "" && LowersPaths(l.lower) && SameClass(l.package, package)
    requires forall pid :: pid in tree <==> Reached(l, ps, pid)
    ensures var r := WindowsShaped(ps, tree, run, timeout, l.name, package, evidence);
            ReportHasSignal(r, l.lower).executionValid <==> WindowsValid(run, tree, timeout)
  {
    hide Reached, HasRealSample, LowersPaths, InTree, SameClass;
    RecomputedVerdict(l, ps, tree, run, timeout, package, evidence);
    if tree != {} {
      TreeHasRealSample(l, ps, tree, package);
    }
  }

  /** What both verdicts on a Windows run come to: some record is a root of the launch, the launcher is of the known
      version and reported no failed launch, wait or export, and at least four fifths of the time were waited. */
  lemma ValidWindowsRun(l: Launch, ps: seq<Proc>, tree: set<string>, run: GuestRun, timeout: nat, package: string,
                        evidence: Evidence)
    requires l.name != "" && LowersPaths(l.lower) && SameClass(l.package, package)
    requires forall pid :: pid in tree <==> Reached(l, ps, pid)
    ensures var r := WindowsShaped(ps, tree, run, timeout, l.name, package, evidence);
            ReportHasSignal(r, l.lower).executionValid <==>
              && (exists i :: 0 <= i < |ps| && IsRoot(l, ps[i]))
              && run.launcherVersion == Some(1)
              && "launch_error" !in run.errors && "wait_error" !in run.errors && "export_error" !in run.errors
              && run.waited.Some? && 5.0 * run.waited.value >= 4.0 * timeout as real
  {
    hide Reached, IsRoot, ReportHasSignal, WindowsShaped, LowersPaths, SameClass;
    WindowsVerdictsAgree(l, ps, tree, run, timeout, package, evidence);
    NoRootNoTree(l, ps);
    assert run.errors * WINDOWS_ERRORS == {} <==>
      "launch_error" !in run.errors && "wait_error" !in run.errors && "export_error" !in run.errors by {
      assert forall e :: e in run.errors * WINDOWS_ERRORS <==> e in run.errors && e in WINDOWS_ERRORS;
    }
    if tree != {} {
      var pid :| pid in tree;
    }
  }

  /** One process that is a root, in a run its collector accepts. */
  function RootRecord(l: Launch, cmdline: string): Proc {
    if l.package == "dll" then Proc("1", None, Loader(l), cmdline, [l.Path()])
    else Proc("1", None, l.Path(), cmdline, [])
  }

  const ACCEPTED_RUN := GuestRun(true, {}, Some(1), Some(60.0), false)

  lemma RootRecordIsRoot(l: Launch, cmdline: string)
    requires LowersPaths(l.lower) && l.launches(cmdline)
    ensures IsRoot(l, RootRecord(l, cmdline))
  {
    var p := RootRecord(l, cmdline);
    if l.package == "dll" {
      assert l.lower(p.loaded[0]) == l.Path();
    }
  }

  lemma RootRecordIsNotRealInTheOtherClass(l: Launch, cmdline: string, package: string)
    requires LowersPaths(l.lower) && !SameClass(l.package, package)
    ensures !IsRealSample(RootRecord(l, cmdline), l.name, package, l.lower)
  {
    if l.package == "dll" {
      assert TASK_DIRECTORY <= l.lower("c:\\task\\" + l.name);
      assert TASK_DIRECTORY[3] != LOADER_32[3] && TASK_DIRECTORY[3] != LOADER_64[3];
    }
  }

  lemma OtherClassDisagrees(l: Launch, cmdline: string, package: string, evidence: Evidence)
    requires LowersPaths(l.lower) && l.launches(cmdline) && !SameClass(l.package, package)
    ensures forall pid :: pid in {"1"} <==> Reached(l, [RootRecord(l, cmdline)], pid)
    ensures WindowsValid(ACCEPTED_RUN, {"1"}, 60)
    ensures var r := WindowsShaped([RootRecord(l, cmdline)], {"1"}, ACCEPTED_RUN, 60, l.name, package, evidence);
            !ReportHasSignal(r, l.lower).executionValid
  {
    hide IsRoot, IsRealSample, LowersPaths;
    var p := RootRecord(l, cmdline);
    RootRecordIsRoot(l, cmdline);
    assert [p][0] == p;
    RootIsReached(l, [p], "1");
    forall pid | Reached(l, [p], pid) ensures pid == "1" {
      OnlyRecordIsReached(l, p, pid);
    }
    assert InTree([p], {"1"}) == [p];
    RootRecordIsNotRealInTheOtherClass(l, cmdline, package);
    RecomputedVerdict(l, [p], {"1"}, ACCEPTED_RUN, 60, package, evidence);
  }

  lemma OnlyRecordIsReached(l: Launch, p: Proc, pid: string)
    requires Reached(l, [p], pid)
    ensures pid == p.pid
  {
    hide IsRoot;
    var path :| IsPath(l, [p], path, pid);
  }

  /** The verdicts agree for all records and runs, with a report that names the package `package`, if and
      only if that package is of the launch's class: a library in both, or in neither. */
  lemma VerdictsAgreeExactlyForTheClass(l: Launch, package: string, cmdline: string)
    requires l.name != "" && LowersPaths(l.lower) && l.launches(cmdline)
    ensures (forall ps, tree, run, timeout: nat, evidence | forall pid :: pid in tree <==> Reached(l, ps, pid) ::
               ReportHasSignal(WindowsShaped(ps, tree, run, timeout, l.name, package, evidence), l.lower).executionValid
               == WindowsValid(run, tree, timeout))
            <==> SameClass(l.package, package)
  {
    hide Reached, ReportHasSignal, WindowsShaped, WindowsValid, LowersPaths, SameClass, RootRecord;
    if SameClass(l.package, package) {
      forall ps, tree, run, timeout: nat, evidence | forall pid :: pid in tree <==> Reached(l, ps, pid)
        ensures ReportHasSignal(WindowsShaped(ps, tree, run, timeout, l.name, package, evidence),
                                l.lower).executionValid
             == WindowsValid(run, tree, timeout)
      {
        WindowsVerdictsAgree(l, ps, tree, run, timeout, package, evidence);
      }
    } else {
      OtherClassDisagrees(l, cmdline, package, Evidence(0, 0, 0.0));
    }
  }

  /** A run its collector calls invalid never has signal, nor does a report without a run. */
  lemma InvalidRunHasNoSignal(r: Report, lower: string -> string)
    requires r.health.valid == Some(false) || (r.WindowsReport? && r.records == [])
    ensures !ReportHasSignal(r, lower).hasSignal && !ReportHasSignal(r, lower).executionValid
  {
    hide IsRealSample;
  }

  lemma UnshapedReportsHaveNoSignal(name: string, package: string, verdict: Option<bool>, lower: string -> string)
    ensures !ReportHasSignal(LinuxUnshaped(), lower).hasSignal
    ensures !ReportHasSignal(WindowsUnshaped(name, package, verdict), lower).hasSignal
  {
    InvalidRunHasNoSignal(LinuxUnshaped(), lower);
    InvalidRunHasNoSignal(WindowsUnshaped(name, package, verdict), lower);
  }

  // ----------------------------------------------------------------------------------------
  // Back to the log
  // ----------------------------------------------------------------------------------------

  lemma {:induction false} ExecEventHasCall(cs: seq<Call>, i: nat) returns (k: nat)
    requires i < |Replay(EMPTY, cs).execEvents|
    ensures k < |cs| && IsExec(cs[k]) && Replay(EMPTY, cs).execEvents[i] == EventOf(StraceFacts.Table(cs[..k]), cs[k])
    decreases |cs|
  {
    hide EventOf, ProcsAfter, SocketsAfter, WrittenAfter, ReadAfter, OpenedAfter, AttemptsAfter, IsConnection, IsExec,
         IsTracked, Succeeded;
    var n := |cs| - 1;
    if i < |Replay(EMPTY, cs[..n]).execEvents| {
      k := ExecEventHasCall(cs[..n], i);
      assert cs[..n][..k] == cs[..k];
    } else {
      k := n;
    }
  }

  /** A Linux run that the collector reports on has signal exactly when it is valid: the process whose exec
      made it valid is in the report. */
  lemma ValidRunHasSignal(cs: seq<Call>, run: GuestRun, path: string, interpreter: Option<string>, evidence: Evidence,
                          lower: string -> string)
    ensures var t := Replay(EMPTY, cs);
            ReportHasSignal(LinuxShaped(t, run, path, interpreter, evidence), lower).hasSignal <==>
              HasRootExec(t.execEvents, path, interpreter) && run.present && run.errors * LINUX_ERRORS == {}
  {
    hide Replay, IsRootExec, StraceFacts.Has;
    var t := Replay(EMPTY, cs);
    if i :| 0 <= i < |t.execEvents| && IsRootExec(t.execEvents[i], path, interpreter) {
      var k := ExecEventHasCall(cs, i);
      StraceFacts.NothingIsLost(cs, cs[k].pid);
      SomeProcess(t.procs, cs[k].pid);
    }
  }

  lemma SomeProcess(procs: seq<Process>, pid: string)
    requires StraceFacts.Has(procs, pid)
    ensures |procs| > 0
  {
  }

  /** So has every Windows report, old ones included; a Linux report without processes, which only another
      producer can write, needs a signature, a positive score or network traffic. */
  lemma ValidReportHasSignal(r: Report, lower: string -> string)
    requires ReportHasSignal(r, lower).executionValid
    ensures r.WindowsReport? ==> ReportHasSignal(r, lower).hasSignal
    ensures r.LinuxReport? ==>
              (!ReportHasSignal(r, lower).hasSignal <==>
                 && r.processes == 0 && r.evidence.signatures == 0 && r.evidence.network == 0
                 && r.evidence.malscore <= 0.0)
  {
    hide IsRealSample;
  }

  /** A successful exec call of the sample, or of its interpreter with the sample as the third string. */
  predicate StartsSample(c: Call, path: string, interpreter: Option<string>) {
    StraceFacts.Executes(c) &&
    (|| c.sys.quoted[0] == path
     || (interpreter == Some(c.sys.quoted[0]) && c.sys.quoted[0] != "" && |c.sys.quoted| > 2
         && c.sys.quoted[2] == path))
  }

  lemma RootEventIsStart(e: Event, c: Call, path: string, interpreter: Option<string>)
    requires StraceFacts.Describes(e, c) && StraceFacts.RunsImage(c)
    ensures IsRootExec(e, path, interpreter) <==> StartsSample(c, path, interpreter)
  {
    hide Contains;
  }

  lemma RootEventHasStart(cs: seq<Call>, i: nat, path: string, interpreter: Option<string>)
    requires i < |Replay(EMPTY, cs).execEvents| && IsRootExec(Replay(EMPTY, cs).execEvents[i], path, interpreter)
    ensures exists k :: 0 <= k < |cs| && StartsSample(cs[k], path, interpreter)
  {
    hide Replay, StraceFacts.Table, EventOf, IsExec, IsRootExec, StartsSample, StraceFacts.Describes;
    hide StraceFacts.RunsImage;
    var k := ExecEventHasCall(cs, i);
    StraceFacts.ByName(cs[k]);
    StraceFacts.EventDescribes(StraceFacts.Table(cs[..k]), cs[k]);
    RootEventIsStart(Replay(EMPTY, cs).execEvents[i], cs[k], path, interpreter);
  }

  lemma StartHasRootEvent(cs: seq<Call>, k: nat, path: string, interpreter: Option<string>)
    requires k < |cs| && StartsSample(cs[k], path, interpreter)
    ensures HasRootExec(Replay(EMPTY, cs).execEvents, path, interpreter)
  {
    hide Replay, StraceFacts.Count, IsRootExec, StartsSample, StraceFacts.Describes, StraceFacts.RunsImage;
    StartRunsImage(cs[k], path, interpreter);
    StraceFacts.ExecEventOfCall(cs, k);
    var i := StraceFacts.Count(cs[..k], StraceFacts.RunsImage);
    RootEventIsStart(Replay(EMPTY, cs).execEvents[i], cs[k], path, interpreter);
  }

  /** A run is called valid exactly when the guest reported without error and the log completes a successful
      exec of the sample. */
  lemma ValidRunExecutedTheSample(cs: seq<Call>, run: GuestRun, path: string, interpreter: Option<string>)
    ensures LinuxHealth(Replay(EMPTY, cs).execEvents, run, path, interpreter).valid == Some(true) <==>
              && run.present && run.errors * LINUX_ERRORS == {}
              && exists k :: 0 <= k < |cs| && StartsSample(cs[k], path, interpreter)
  {
    hide Replay, IsRootExec, StartsSample;
    var execs := Replay(EMPTY, cs).execEvents;
    if i :| 0 <= i < |execs| && IsRootExec(execs[i], path, interpreter) {
      RootEventHasStart(cs, i, path, interpreter);
    }
    if k :| 0 <= k < |cs| && StartsSample(cs[k], path, interpreter) {
      StartHasRootEvent(cs, k, path, interpreter);
    }
  }

  lemma StartRunsImage(c: Call, path: string, interpreter: Option<string>)
    requires StartsSample(c, path, interpreter)
    ensures StraceFacts.RunsImage(c)
  {
  }
}
