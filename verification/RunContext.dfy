/** The controller's run ledger (src/core/run_context.py): what it admits, and that its journal
    can be replayed into the state it journals. */
module RunContext {
  import opened Wrappers
  import opened SpecPolicy

  // ----------------------------------------------------------------------------------------
  // Value objects
  // ----------------------------------------------------------------------------------------

  datatype SampleIdentity = SampleIdentity(path: string, sha256: string, sizeBytes: nat, device: int, inode: int)

  datatype TaskReceipt = TaskReceipt(
    taskId: int, passNumber: int, sampleSha256: string, submittedAt: real, route: string, machine: Option<string>)

  datatype RouteConfirmation = RouteConfirmation(requested: string, effective: Option<string>, verified: bool)

  datatype ReportDigest = ReportDigest(taskId: int, sha256: string, path: string, targetMatches: bool, fetchedAt: real)

  datatype VMLease = VMLease(vmName: string, acquiredAt: real, expiresAt: real)

  datatype Event =
    | RunStarted(runId: string)
    | SampleBound(sha256: string, sizeBytes: nat, path: string)
    | RoutePolicySet(route: string)
    | TaskRecorded(taskId: int, passNumber: int, route: string)
    | TaskRouteChecked(taskId: int, confirmation: RouteConfirmation)
    | ReportRecorded(taskId: int, sha256: string, targetMatches: bool)
    | VmLeaseAcquired(vm: string)
    | VmLeaseReleased(vm: string)

  datatype JournalEntry = JournalEntry(at: real, event: Event)

  /** Why an operation was refused. */
  datatype Refusal = Sealed | Rejected | NotBound | IoError

  datatype Outcome<+T> = Ok(value: T) | Refused(why: Refusal)

  /** What opening the sample path shows. */
  datatype OpenedFile = Unopenable | NotRegular | Regular(identity: SampleIdentity)

  const VALID_ROUTES: set<string> := {"drop", "none", "internet", "inetsim", "tor", "vpn"}
  const MAX_TASKS_PER_RUN := 8
  const MAX_TASK_ID := 0x7fff_ffff

  // ----------------------------------------------------------------------------------------
  // Ledger state and the effect of each operation
  // ----------------------------------------------------------------------------------------

  /** `reports` lists the digests in the order their tasks first got one. */
  datatype Ledger = Ledger(
    sample: Option<SampleIdentity>,
    tasks: seq<TaskReceipt>,
    reports: seq<ReportDigest>,
    confirmations: map<int, RouteConfirmation>,
    routePolicy: string,
    lease: Option<VMLease>,
    journal: seq<JournalEntry>)

  function NewLedger(runId: string, now: real): Ledger {
    Ledger(None, [], [], map[], "drop", None, [JournalEntry(now, RunStarted(runId))])
  }

  function Journalled(l: Ledger, now: real, event: Event): Ledger {
    l.(journal := l.journal + [JournalEntry(now, event)])
  }

  function FindTask(tasks: seq<TaskReceipt>, taskId: int): (r: Option<TaskReceipt>)
    ensures r.None? <==> forall t | t in tasks :: t.taskId != taskId
    ensures r.Some? ==> r.value in tasks && r.value.taskId == taskId
  {
    if tasks == [] then None
    else if tasks[0].taskId == taskId then Some(tasks[0])
    else FindTask(tasks[1..], taskId)
  }

  predicate OwnsTask(l: Ledger, taskId: int) {
    FindTask(l.tasks, taskId).Some?
  }

  function BindSample(l: Ledger, file: OpenedFile, now: real): (Ledger, Outcome<SampleIdentity>) {
    if l.sample.Some? then (l, Refused(Sealed))
    else
      match file
      case Unopenable => (l, Refused(IoError))
      case NotRegular => (l, Refused(Rejected))
      case Regular(id) =>
        (Journalled(l.(sample := Some(id)), now, SampleBound(id.sha256, id.sizeBytes, id.path)), Ok(id))
  }

  function SetRoutePolicy(l: Ledger, route: string, now: real): (Ledger, Outcome<()>) {
    if route !in VALID_ROUTES then (l, Refused(Rejected))
    else (Journalled(l.(routePolicy := route), now, RoutePolicySet(route)), Ok(()))
  }

  /** `taskId` is whatever the backend returned. */
  function RecordTask(l: Ledger, taskId: Value, passNumber: int, route: string, machine: Option<string>, now: real)
    : (Ledger, Outcome<TaskReceipt>)
  {
    if !taskId.Int? then (l, Refused(Rejected))
    else if !(0 < taskId.i <= MAX_TASK_ID) then (l, Refused(Rejected))
    else if |l.tasks| >= MAX_TASKS_PER_RUN then (l, Refused(Rejected))
    else if OwnsTask(l, taskId.i) then (l, Refused(Rejected))
    else if route !in VALID_ROUTES then (l, Refused(Rejected))
    else if l.sample.None? then (l, Refused(NotBound))
    else
      var receipt := TaskReceipt(taskId.i, passNumber, l.sample.value.sha256, now, route, machine);
      (Journalled(l.(tasks := l.tasks + [receipt]), now, TaskRecorded(taskId.i, passNumber, route)), Ok(receipt))
  }

  function ConfirmTaskRoute(l: Ledger, taskId: int, effective: Option<string>, now: real): (Ledger, Outcome<bool>) {
    match FindTask(l.tasks, taskId)
    case None => (l, Refused(Rejected))
    case Some(receipt) =>
      var ok := effective == Some(receipt.route);
      var c := RouteConfirmation(receipt.route, effective, ok);
      (Journalled(l.(confirmations := l.confirmations[taskId := c]), now, TaskRouteChecked(taskId, c)), Ok(ok))
  }

  predicate RouteVerified(l: Ledger, taskId: int) {
    taskId in l.confirmations && l.confirmations[taskId].verified
  }

  /** `d[key] = digest` on an insertion-ordered dictionary. */
  function PutReport(reports: seq<ReportDigest>, digest: ReportDigest): seq<ReportDigest> {
    if reports == [] then [digest]
    else if reports[0].taskId == digest.taskId then [digest] + reports[1..]
    else [reports[0]] + PutReport(reports[1..], digest)
  }

  /** `file` is the digest of the report's bytes, or None when it cannot be read. */
  function RecordReport(l: Ledger, taskId: int, path: string, file: Option<string>, targetMatches: bool, now: real)
    : (Ledger, Outcome<ReportDigest>)
  {
    if !OwnsTask(l, taskId) then (l, Refused(Rejected))
    else
      match file
      case None => (l, Refused(IoError))
      case Some(sha) =>
        var digest := ReportDigest(taskId, sha, path, targetMatches, now);
        (Journalled(l.(reports := PutReport(l.reports, digest)), now, ReportRecorded(taskId, sha, targetMatches)),
         Ok(digest))
  }

  /** The first of the newest digests whose target matched. */
  function Newest(reports: seq<ReportDigest>): Option<ReportDigest> {
    if reports == [] then None
    else
      var best, d := Newest(reports[..|reports| - 1]), reports[|reports| - 1];
      if d.targetMatches && (best.None? || d.fetchedAt > best.value.fetchedAt) then Some(d) else best
  }

  function VerifiedReport(l: Ledger): Option<ReportDigest> {
    Newest(l.reports)
  }

  function AcquireVmLease(l: Ledger, vm: string, ttl: real, now: real): (Ledger, Outcome<VMLease>) {
    if l.lease.Some? && now < l.lease.value.expiresAt then (l, Refused(Sealed))
    else
      var lease := VMLease(vm, now, now + ttl);
      (Journalled(l.(lease := Some(lease)), now, VmLeaseAcquired(vm)), Ok(lease))
  }

  function RequireVmLease(l: Ledger, vm: string, now: real): Outcome<VMLease> {
    if l.lease.Some? && l.lease.value.vmName == vm && now < l.lease.value.expiresAt then Ok(l.lease.value)
    else Refused(Rejected)
  }

  function ReleaseVmLease(l: Ledger, now: real): Ledger {
    if l.lease.Some? then Journalled(l, now, VmLeaseReleased(l.lease.value.vmName)).(lease := None) else l
  }

  // ----------------------------------------------------------------------------------------
  // The ledger object
  // ----------------------------------------------------------------------------------------

  class RunContext {
    var sample: Option<SampleIdentity>
    var tasks: seq<TaskReceipt>
    var reports: seq<ReportDigest>
    var confirmations: map<int, RouteConfirmation>
    var routePolicy: string
    var lease: Option<VMLease>
    var journal: seq<JournalEntry>

    function State(): Ledger
      reads this
    {
      Ledger(sample, tasks, reports, confirmations, routePolicy, lease, journal)
    }

    constructor (runId: string, now: real)
      ensures State() == NewLedger(runId, now)
    {
      sample, tasks, reports, confirmations := None, [], [], map[];
      routePolicy, lease, journal := "drop", None, [JournalEntry(now, RunStarted(runId))];
    }

    method Record(now: real, event: Event)
      modifies this`journal
      ensures State() == Journalled(old(State()), now, event)
    {
      journal := journal + [JournalEntry(now, event)];
    }

    method RequireTask(taskId: int) returns (r: Outcome<TaskReceipt>)
      ensures match FindTask(tasks, taskId) case None => r == Refused(Rejected) case Some(t) => r == Ok(t)
    {
      var i := 0;
      while i < |tasks|
        invariant 0 <= i <= |tasks|
        invariant FindTask(tasks, taskId) == FindTask(tasks[i..], taskId)
      {
        if tasks[i].taskId == taskId {
          return Ok(tasks[i]);
        }
        i := i + 1;
      }
      r := Refused(Rejected);
    }

    method Bind(file: OpenedFile, now: real) returns (r: Outcome<SampleIdentity>)
      modifies this
      ensures (State(), r) == BindSample(old(State()), file, now)
    {
      if sample.Some? {
        return Refused(Sealed);
      }
      match file
      case Unopenable => return Refused(IoError);
      case NotRegular => return Refused(Rejected);
      case Regular(id) =>
        sample := Some(id);
        Record(now, SampleBound(id.sha256, id.sizeBytes, id.path));
        return Ok(id);
    }

    method SetRoute(route: string, now: real) returns (r: Outcome<()>)
      modifies this
      ensures (State(), r) == SetRoutePolicy(old(State()), route, now)
    {
      if route !in VALID_ROUTES {
        return Refused(Rejected);
      }
      routePolicy := route;
      Record(now, RoutePolicySet(route));
      r := Ok(());
    }

    method AddTask(taskId: Value, passNumber: int, route: string, machine: Option<string>, now: real)
      returns (r: Outcome<TaskReceipt>)
      modifies this
      ensures (State(), r) == RecordTask(old(State()), taskId, passNumber, route, machine, now)
    {
      if !taskId.Int? || !(0 < taskId.i <= MAX_TASK_ID) || |tasks| >= MAX_TASKS_PER_RUN {
        return Refused(Rejected);
      }
      var held := RequireTask(taskId.i);
      if held.Ok? || route !in VALID_ROUTES {
        return Refused(Rejected);
      }
      if sample.None? {
        return Refused(NotBound);
      }
      var receipt := TaskReceipt(taskId.i, passNumber, sample.value.sha256, now, route, machine);
      tasks := tasks + [receipt];
      Record(now, TaskRecorded(taskId.i, passNumber, route));
      r := Ok(receipt);
    }

    method ConfirmRoute(taskId: int, effective: Option<string>, now: real) returns (r: Outcome<bool>)
      modifies this
      ensures (State(), r) == ConfirmTaskRoute(old(State()), taskId, effective, now)
    {
      var found := RequireTask(taskId);
      if found.Refused? {
        return Refused(Rejected);
      }
      var ok := effective.Some? && effective.value == found.value.route;
      var c := RouteConfirmation(found.value.route, effective, ok);
      confirmations := confirmations[taskId := c];
      Record(now, TaskRouteChecked(taskId, c));
      r := Ok(ok);
    }

    method AddReport(taskId: int, path: string, file: Option<string>, targetMatches: bool, now: real)
      returns (r: Outcome<ReportDigest>)
      modifies this
      ensures (State(), r) == RecordReport(old(State()), taskId, path, file, targetMatches, now)
    {
      var found := RequireTask(taskId);
      if found.Refused? {
        return Refused(Rejected);
      }
      if file.None? {
        return Refused(IoError);
      }
      var digest := ReportDigest(taskId, file.value, path, targetMatches, now);
      reports := PutReport(reports, digest);
      Record(now, ReportRecorded(taskId, file.value, targetMatches));
      r := Ok(digest);
    }

    method AcquireLease(vm: string, ttl: real, now: real) returns (r: Outcome<VMLease>)
      modifies this
      ensures (State(), r) == AcquireVmLease(old(State()), vm, ttl, now)
    {
      if lease.Some? && now < lease.value.expiresAt {
        return Refused(Sealed);
      }
      lease := Some(VMLease(vm, now, now + ttl));
      Record(now, VmLeaseAcquired(vm));
      r := Ok(lease.value);
    }

    method ReleaseLease(now: real)
      modifies this
      ensures State() == ReleaseVmLease(old(State()), now)
    {
      if lease.Some? {
        Record(now, VmLeaseReleased(lease.value.vmName));
        lease := None;
      }
    }
  }

  // ----------------------------------------------------------------------------------------
  // Runs of operations
  // ----------------------------------------------------------------------------------------

  datatype Op =
    | DoBind(file: OpenedFile)
    | DoSetRoute(route: string)
    | DoRecordTask(taskId: Value, passNumber: int, route: string, machine: Option<string>)
    | DoConfirm(id: int, effective: Option<string>)
    | DoRecordReport(id: int, path: string, content: Option<string>, targetMatches: bool)
    | DoAcquire(vm: string, ttl: real)
    | DoRelease

  function Apply(l: Ledger, op: Op, now: real): Ledger {
    match op
    case DoBind(file) => BindSample(l, file, now).0
    case DoSetRoute(route) => SetRoutePolicy(l, route, now).0
    case DoRecordTask(id, pass, route, machine) => RecordTask(l, id, pass, route, machine, now).0
    case DoConfirm(id, effective) => ConfirmTaskRoute(l, id, effective, now).0
    case DoRecordReport(id, path, content, matches) => RecordReport(l, id, path, content, matches, now).0
    case DoAcquire(vm, ttl) => AcquireVmLease(l, vm, ttl, now).0
    case DoRelease => ReleaseVmLease(l, now)
  }

  function RunOps(l: Ledger, ops: seq<(Op, real)>): Ledger
    decreases |ops|
  {
    if ops == [] then l else RunOps(Apply(l, ops[0].0, ops[0].1), ops[1..])
  }

  /** At most eight tasks, all for the bound sample, with distinct identifiers in range. */
  ghost predicate TasksSound(sample: Option<SampleIdentity>, tasks: seq<TaskReceipt>) {
    && |tasks| <= MAX_TASKS_PER_RUN
    && (forall t | t in tasks :: 0 < t.taskId <= MAX_TASK_ID && t.route in VALID_ROUTES)
    && (tasks != [] ==> sample.Some? && forall t | t in tasks :: t.sampleSha256 == sample.value.sha256)
    && (forall i, j | 0 <= i < j < |tasks| :: tasks[i].taskId != tasks[j].taskId)
  }

  /** Every confirmation is about an owned task, and says whether its own route came back. */
  ghost predicate ConfirmationsSound(tasks: seq<TaskReceipt>, confirmations: map<int, RouteConfirmation>) {
    forall id | id in confirmations ::
      && FindTask(tasks, id).Some?
      && confirmations[id].requested == FindTask(tasks, id).value.route
      && (confirmations[id].verified <==> confirmations[id].effective == Some(confirmations[id].requested))
  }

  /** Every report belongs to an owned task, one per task. */
  ghost predicate ReportsSound(tasks: seq<TaskReceipt>, reports: seq<ReportDigest>) {
    && (forall d | d in reports :: FindTask(tasks, d.taskId).Some?)
    && (forall i, j | 0 <= i < j < |reports| :: reports[i].taskId != reports[j].taskId)
  }

  /** What every run keeps. */
  ghost predicate Sound(l: Ledger) {
    && TasksSound(l.sample, l.tasks)
    && ConfirmationsSound(l.tasks, l.confirmations)
    && ReportsSound(l.tasks, l.reports)
    && l.routePolicy in VALID_ROUTES
    && BindCount(l.journal) == if l.sample.Some? then 1 else 0
  }

  function BindCount(journal: seq<JournalEntry>): nat {
    if journal == [] then 0
    else BindCount(journal[..|journal| - 1]) + if journal[|journal| - 1].event.SampleBound? then 1 else 0
  }

  /** The part of the state an auditor can rebuild from the journal. */
  datatype Audit = Audit(
    sample: Option<(string, nat, string)>,
    routePolicy: string,
    tasks: seq<(int, int, string)>,
    confirmations: map<int, RouteConfirmation>,
    reports: map<int, (string, bool)>,
    vm: Option<string>)

  function Replay(journal: seq<JournalEntry>): Audit {
    if journal == [] then Audit(None, "drop", [], map[], map[], None)
    else ReplayEvent(Replay(journal[..|journal| - 1]), journal[|journal| - 1].event)
  }

  function ReplayEvent(a: Audit, e: Event): Audit {
    match e
    case RunStarted(_) => a
    case SampleBound(sha, size, path) => a.(sample := Some((sha, size, path)))
    case RoutePolicySet(route) => a.(routePolicy := route)
    case TaskRecorded(id, pass, route) => a.(tasks := a.tasks + [(id, pass, route)])
    case TaskRouteChecked(id, c) => a.(confirmations := a.confirmations[id := c])
    case ReportRecorded(id, sha, matches) => a.(reports := a.reports[id := (sha, matches)])
    case VmLeaseAcquired(vm) => a.(vm := Some(vm))
    case VmLeaseReleased(_) => a.(vm := None)
  }

  function TaskRows(tasks: seq<TaskReceipt>): seq<(int, int, string)> {
    seq(|tasks|, i requires 0 <= i < |tasks| => (tasks[i].taskId, tasks[i].passNumber, tasks[i].route))
  }

  function ReportRows(reports: seq<ReportDigest>): map<int, (string, bool)> {
    if reports == [] then map[]
    else ReportRows(reports[1..])[reports[0].taskId := (reports[0].sha256, reports[0].targetMatches)]
  }

  function AuditOf(l: Ledger): Audit {
    Audit(if l.sample.Some? then Some((l.sample.value.sha256, l.sample.value.sizeBytes, l.sample.value.path)) else None,
          l.routePolicy, TaskRows(l.tasks), l.confirmations, ReportRows(l.reports),
          if l.lease.Some? then Some(l.lease.value.vmName) else None)
  }

  ghost predicate Replayable(l: Ledger) {
    Replay(l.journal) == AuditOf(l)
  }

  lemma {:induction false} PutReportRows(reports: seq<ReportDigest>, d: ReportDigest)
    ensures ReportRows(PutReport(reports, d)) == ReportRows(reports)[d.taskId := (d.sha256, d.targetMatches)]
  {
    if reports != [] {
      if reports[0].taskId == d.taskId {
        assert ([d] + reports[1..])[1..] == reports[1..];
      } else {
        PutReportRows(reports[1..], d);
        assert ([reports[0]] + PutReport(reports[1..], d))[1..] == PutReport(reports[1..], d);
      }
    }
  }

  lemma {:induction false} PutReportContents(reports: seq<ReportDigest>, d: ReportDigest)
    requires forall i, j | 0 <= i < j < |reports| :: reports[i].taskId != reports[j].taskId
    ensures forall e :: e in PutReport(reports, d) <==> e == d || (e in reports && e.taskId != d.taskId)
    ensures forall i, j | 0 <= i < j < |PutReport(reports, d)| ::
            PutReport(reports, d)[i].taskId != PutReport(reports, d)[j].taskId
  {
    if reports != [] {
      var rest := reports[1..];
      assert reports == [reports[0]] + rest;
      if reports[0].taskId == d.taskId {
        assert forall e :: e in [d] + rest <==> e == d || e in rest;
        assert forall e | e in rest :: e.taskId != d.taskId;
      } else {
        PutReportContents(rest, d);
        assert forall e :: e in [reports[0]] + PutReport(rest, d) <==> e == reports[0] || e in PutReport(rest, d);
      }
    }
  }

  lemma {:induction false} FindTaskAppend(tasks: seq<TaskReceipt>, t: TaskReceipt, id: int)
    ensures FindTask(tasks + [t], id) ==
            if FindTask(tasks, id).Some? then FindTask(tasks, id) else if t.taskId == id then Some(t) else None
  {
    if tasks != [] {
      FindTaskAppend(tasks[1..], t, id);
      assert (tasks + [t])[1..] == tasks[1..] + [t];
    }
  }

  lemma JournalStep(l: Ledger, l': Ledger, now: real, e: Event)
    requires l'.journal == l.journal + [JournalEntry(now, e)]
    ensures Replay(l'.journal) == ReplayEvent(Replay(l.journal), e)
    ensures BindCount(l'.journal) == BindCount(l.journal) + if e.SampleBound? then 1 else 0
  {
    assert l'.journal[..|l'.journal| - 1] == l.journal;
  }

  lemma AppendTaskKeepsLookups(
    tasks: seq<TaskReceipt>, t: TaskReceipt, confirmations: map<int, RouteConfirmation>, reports: seq<ReportDigest>)
    requires ConfirmationsSound(tasks, confirmations) && ReportsSound(tasks, reports)
    ensures ConfirmationsSound(tasks + [t], confirmations) && ReportsSound(tasks + [t], reports)
  {
    hide FindTask;
    forall id {
      FindTaskAppend(tasks, t, id);
    }
  }

  lemma AppendTaskKeepsTasksSound(sample: Option<SampleIdentity>, tasks: seq<TaskReceipt>, t: TaskReceipt)
    requires TasksSound(sample, tasks) && sample.Some? && |tasks| < MAX_TASKS_PER_RUN && FindTask(tasks, t.taskId).None?
    requires 0 < t.taskId <= MAX_TASK_ID && t.route in VALID_ROUTES && t.sampleSha256 == sample.value.sha256
    ensures TasksSound(sample, tasks + [t])
  {
    hide FindTask, VALID_ROUTES;
    var all := tasks + [t];
    assert forall i | 0 <= i < |all| :: all[i] == if i < |tasks| then tasks[i] else t;
    assert forall u | u in all :: u in tasks || u == t;
  }

  lemma RecordTaskKeepsSound(l: Ledger, id: Value, pass: int, route: string, machine: Option<string>, now: real)
    requires Sound(l)
    ensures Sound(RecordTask(l, id, pass, route, machine, now).0)
  {
    hide BindCount, TasksSound, ConfirmationsSound, ReportsSound, FindTask, VALID_ROUTES;
    var l' := RecordTask(l, id, pass, route, machine, now).0;
    if l' != l {
      AppendTaskKeepsTasksSound(l.sample, l.tasks, l'.tasks[|l.tasks|]);
      JournalStep(l, l', now, TaskRecorded(id.i, pass, route));
      AppendTaskKeepsLookups(l.tasks, l'.tasks[|l.tasks|], l.confirmations, l.reports);
    }
  }

  lemma PutReportKeepsSound(tasks: seq<TaskReceipt>, reports: seq<ReportDigest>, d: ReportDigest)
    requires ReportsSound(tasks, reports) && FindTask(tasks, d.taskId).Some?
    ensures ReportsSound(tasks, PutReport(reports, d))
  {
    hide FindTask, PutReport;
    PutReportContents(reports, d);
  }

  lemma RecordReportKeepsSound(l: Ledger, id: int, path: string, file: Option<string>, matches: bool, now: real)
    requires Sound(l)
    ensures Sound(RecordReport(l, id, path, file, matches, now).0)
  {
    hide BindCount, PutReport, TasksSound, ConfirmationsSound, ReportsSound, FindTask;
    var l' := RecordReport(l, id, path, file, matches, now).0;
    if l' != l {
      JournalStep(l, l', now, ReportRecorded(id, file.value, matches));
      PutReportKeepsSound(l.tasks, l.reports, ReportDigest(id, file.value, path, matches, now));
    }
  }

  lemma StepKeepsSound(l: Ledger, op: Op, now: real)
    requires Sound(l)
    ensures Sound(Apply(l, op, now))
  {
    hide BindCount, ReportsSound;
    var l' := Apply(l, op, now);
    match op
    case DoRecordTask(id, pass, route, machine) => RecordTaskKeepsSound(l, id, pass, route, machine, now);
    case DoRecordReport(id, path, content, matches) => RecordReportKeepsSound(l, id, path, content, matches, now);
    case _ =>
      if l' != l {
        JournalStep(l, l', now, l'.journal[|l'.journal| - 1].event);
      }
  }

  lemma TaskKeepsReplay(l: Ledger, id: Value, pass: int, route: string, machine: Option<string>, now: real)
    requires Replayable(l)
    ensures Replayable(RecordTask(l, id, pass, route, machine, now).0)
  {
    hide BindCount, Replay, FindTask, VALID_ROUTES;
    var l' := RecordTask(l, id, pass, route, machine, now).0;
    if l' != l {
      JournalStep(l, l', now, l'.journal[|l.journal|].event);
      assert TaskRows(l'.tasks) == TaskRows(l.tasks) + [TaskRows(l'.tasks)[|l.tasks|]];
    }
  }

  lemma ReportKeepsReplay(l: Ledger, id: int, path: string, file: Option<string>, matches: bool, now: real)
    requires Replayable(l)
    ensures Replayable(RecordReport(l, id, path, file, matches, now).0)
  {
    hide BindCount, Replay, FindTask, PutReport;
    var l' := RecordReport(l, id, path, file, matches, now).0;
    if l' != l {
      JournalStep(l, l', now, l'.journal[|l.journal|].event);
      PutReportRows(l.reports, ReportDigest(id, file.value, path, matches, now));
    }
  }

  lemma StepKeepsReplay(l: Ledger, op: Op, now: real)
    requires Replayable(l)
    ensures Replayable(Apply(l, op, now))
  {
    hide BindCount, Replay, FindTask, VALID_ROUTES, RecordTask, RecordReport;
    match op
    case DoRecordTask(id, pass, route, machine) => TaskKeepsReplay(l, id, pass, route, machine, now);
    case DoRecordReport(id, path, content, matches) => ReportKeepsReplay(l, id, path, content, matches, now);
    case _ =>
      var l' := Apply(l, op, now);
      if l' != l {
        JournalStep(l, l', now, l'.journal[|l.journal|].event);
      }
  }

  /** After any sequence of accepted and refused operations the ledger is sound, and folding its
      journal rebuilds the sample, route policy, tasks, confirmations, report digests and held VM. */
  lemma {:induction false} JournalRebuildsLedger(l: Ledger, ops: seq<(Op, real)>)
    requires Sound(l) && Replayable(l)
    ensures Sound(RunOps(l, ops)) && Replay(RunOps(l, ops).journal) == AuditOf(RunOps(l, ops))
    decreases |ops|
  {
    if ops != [] {
      StepKeepsSound(l, ops[0].0, ops[0].1);
      StepKeepsReplay(l, ops[0].0, ops[0].1);
      JournalRebuildsLedger(Apply(l, ops[0].0, ops[0].1), ops[1..]);
    }
  }

  lemma FreshLedgerIsSound(runId: string, now: real, ops: seq<(Op, real)>)
    ensures Sound(RunOps(NewLedger(runId, now), ops)) && Replayable(RunOps(NewLedger(runId, now), ops))
  {
    var l := NewLedger(runId, now);
    assert l.journal == [] + l.journal;
    JournalStep(l.(journal := []), l, now, RunStarted(runId));
    JournalRebuildsLedger(l, ops);
  }

  // ----------------------------------------------------------------------------------------
  // Which tasks are accepted
  // ----------------------------------------------------------------------------------------

  function Ids(tasks: seq<TaskReceipt>): seq<int> {
    seq(|tasks|, i requires 0 <= i < |tasks| => tasks[i].taskId)
  }

  /** A task may still be recorded beside the ones with the identifiers `ids`. */
  predicate Admits(ids: seq<int>, id: Value) {
    id.Int? && 0 < id.i <= 2147483647 && id.i !in ids && |ids| < 8
  }

  predicate IsRoute(route: string) {
    route in ["drop", "none", "internet", "inetsim", "tor", "vpn"]
  }

  lemma PolicyIsRoute(l: Ledger)
    requires Sound(l)
    ensures IsRoute(l.routePolicy)
  {
    hide TasksSound, ConfirmationsSound, ReportsSound, BindCount;
  }

  lemma {:induction false} OwnedMeansListed(tasks: seq<TaskReceipt>, id: int)
    ensures FindTask(tasks, id).Some? <==> id in Ids(tasks)
    decreases |tasks|
  {
    if id in Ids(tasks) {
      var i :| 0 <= i < |tasks| && Ids(tasks)[i] == id;
      assert tasks[i] in tasks;
    }
    if FindTask(tasks, id).Some? {
      var i :| 0 <= i < |tasks| && tasks[i] == FindTask(tasks, id).value;
      assert Ids(tasks)[i] == id;
    }
  }

  /** A task is recorded if and only if its identifier is new and in range, fewer than eight are recorded, the
      route is one of the six and a sample is bound; it then comes last, and nothing else of the ledger but the
      journal changes. */
  lemma AdmissibleTaskIsRecorded(l: Ledger, id: Value, pass: int, route: string, machine: Option<string>, now: real)
    ensures var (l', r) := RecordTask(l, id, pass, route, machine, now);
            var fits := l.sample.Some? && Admits(Ids(l.tasks), id) && IsRoute(route);
            && (r.Ok? <==> fits)
            && (fits ==> id.Int?)
            && (!fits ==> l' == l)
            && (fits ==>
                  && r.value == TaskReceipt(id.i, pass, l.sample.value.sha256, now, route, machine)
                  && l' == l.(tasks := l.tasks + [r.value], journal := l'.journal))
  {
    hide FindTask;
    if id.Int? {
      OwnedMeansListed(l.tasks, id.i);
    }
  }

  /** The identifiers accepted from a run of operations, in order: each admissible one as it comes. */
  function Admitted(ids: seq<int>, ops: seq<(Op, real)>): seq<int>
    decreases |ops|
  {
    if ops == [] then []
    else
      match ops[0].0
      case DoRecordTask(id, _, route, _) =>
        if Admits(ids, id) && IsRoute(route) then [id.i] + Admitted(ids + [id.i], ops[1..])
        else Admitted(ids, ops[1..])
      case _ => Admitted(ids, ops[1..])
  }

  lemma {:induction false} TasksAreTheAdmitted(l: Ledger, ops: seq<(Op, real)>)
    requires l.sample.Some?
    ensures Ids(RunOps(l, ops).tasks) == Ids(l.tasks) + Admitted(Ids(l.tasks), ops)
    decreases |ops|
  {
    hide Apply, Ids, IsRoute;
    if ops != [] {
      var l1 := Apply(l, ops[0].0, ops[0].1);
      StepAdmits(l, ops[0].0, ops[0].1);
      TasksAreTheAdmitted(l1, ops[1..]);
      var ids, op := Ids(l.tasks), ops[0].0;
      assert ids + [] == ids;
      if op.DoRecordTask? && Admits(ids, op.taskId) && IsRoute(op.route) {
        var rest := Admitted(ids + [op.taskId.i], ops[1..]);
        assert ids + ([op.taskId.i] + rest) == ids + [op.taskId.i] + rest;
      }
    }
  }

  lemma StepAdmits(l: Ledger, op: Op, now: real)
    requires l.sample.Some?
    ensures var l' := Apply(l, op, now);
            && l'.sample.Some?
            && Ids(l'.tasks) == Ids(l.tasks)
               + if op.DoRecordTask? && Admits(Ids(l.tasks), op.taskId) && IsRoute(op.route) then [op.taskId.i] else []
  {
    hide FindTask, PutReport;
    if op.DoRecordTask? {
      AdmissibleTaskIsRecorded(l, op.taskId, op.passNumber, op.route, op.machine, now);
    }
  }

  /** A refused operation leaves no trace: neither state nor journal changes. An accepted one journals
      exactly one event (releasing a lease nobody holds changes nothing). */
  lemma OneEventPerAcceptedOperation(l: Ledger, op: Op, now: real)
    ensures var l' := Apply(l, op, now);
            l' == l || (|l'.journal| == |l.journal| + 1 && l'.journal[..|l.journal|] == l.journal
                        && l'.journal[|l.journal|].at == now)
  {
  }

  /** A held lease is exclusive: until it is released or expires, whatever is asked of the ledger, the
      lease stays, only its own machine passes the check, and every further acquisition is refused. */
  lemma {:induction false} LeaseIsExclusive(l: Ledger, ops: seq<(Op, real)>, vm: string, ttl: real, now: real)
    requires l.lease.Some? && now < l.lease.value.expiresAt
    requires forall i | 0 <= i < |ops| :: !ops[i].0.DoRelease? && ops[i].1 < l.lease.value.expiresAt
    ensures var after := RunOps(l, ops);
            && after.lease == l.lease
            && AcquireVmLease(after, vm, ttl, now) == (after, Refused(Sealed))
            && (RequireVmLease(after, vm, now).Ok? <==> vm == l.lease.value.vmName)
    decreases |ops|
  {
    hide BindSample, SetRoutePolicy, RecordTask, ConfirmTaskRoute, RecordReport;
    if ops != [] {
      LeaseStays(l, ops[0].0, ops[0].1);
      LeaseIsExclusive(Apply(l, ops[0].0, ops[0].1), ops[1..], vm, ttl, now);
    }
  }

  lemma LeaseStays(l: Ledger, op: Op, at: real)
    requires l.lease.Some? && at < l.lease.value.expiresAt && !op.DoRelease?
    ensures Apply(l, op, at).lease == l.lease
  {
    hide FindTask, PutReport;
  }

  // ----------------------------------------------------------------------------------------
  // The verified report
  // ----------------------------------------------------------------------------------------

  /** `verified_report` finds a digest exactly when some report's target matched, and then a newest one. */
  lemma {:induction false} NewestIsNewest(reports: seq<ReportDigest>)
    ensures Newest(reports).None? <==> forall d | d in reports :: !d.targetMatches
    ensures Newest(reports).Some? ==>
              && Newest(reports).value in reports && Newest(reports).value.targetMatches
              && forall d | d in reports && d.targetMatches :: d.fetchedAt <= Newest(reports).value.fetchedAt
  {
    if reports != [] {
      var init, d := reports[..|reports| - 1], reports[|reports| - 1];
      NewestIsNewest(init);
      assert reports == init + [d];
    }
  }

  /** A matching report fetched after every other becomes the verified one; a report that does not
      match never does, and only displaces the verified report of its own task. */
  lemma RecordedReportIsVerified(l: Ledger, taskId: int, path: string, sha: string, matches: bool, now: real)
    requires Sound(l) && OwnsTask(l, taskId)
    requires forall d | d in l.reports :: d.fetchedAt < now
    ensures
      var v, v' := VerifiedReport(l), VerifiedReport(RecordReport(l, taskId, path, Some(sha), matches, now).0);
      && (matches ==> v' == Some(ReportDigest(taskId, sha, path, true, now)))
      && (!matches && v'.Some? ==> v'.value.taskId != taskId)
      && (!matches && v.Some? && v.value.taskId != taskId ==> v'.Some? && v'.value.fetchedAt == v.value.fetchedAt)
  {
    var d := ReportDigest(taskId, sha, path, matches, now);
    PutReportContents(l.reports, d);
    NewestIsNewest(l.reports);
    NewestIsNewest(PutReport(l.reports, d));
    if matches {
      assert d in PutReport(l.reports, d);
    }
  }
}
