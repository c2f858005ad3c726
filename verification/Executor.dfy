/** The Executor stage (src/agents/executor.py): bounded correction rounds, authoritative retrieval of
    the report, one retry, and the hard failures. */
module Executor {
  import opened Wrappers
  import opened SpecPolicy
  import opened SpecDocument
  import opened RunContext
  import opened Attempt

  const MAX_CORRECTIONS_PER_TYPE := 3
  const MAX_CORRECTION_ROUNDS := 5
  const VM_LEASE_TTL_SECONDS := 21600.0

  datatype Failure =
    | VmDown | CapeServiceDown | AgentUnreachable | WrongPackage | TimeoutNoData | SubmissionError | ReportMissing
    | Unknown

  /** `report_has_signal`'s answer, before the caller adds `verified`. */
  type Quality = map<string, Value>

  /** What fetching a report yields. `seen` is the target hash inside it; `stored` is the digest of the
      copy written to the workspace, or None when writing or hashing it failed. */
  datatype FetchReply = FetchFailed(error: string) | Fetched(seen: string, quality: Quality, stored: Option<string>)

  /** One self-correction round: the diagnosis, what the Architect and the fix do, and what the Executor
      agent does afterwards. `problems` is what the configuration gate reports, `works` the fix's own check. */
  datatype Round = Round(
    failure: Failure, architect: seq<AgentAction>, options: string, problems: seq<Value>, works: bool,
    newTimeout: int, actions: seq<AgentAction>)

  /** The fix of a round does its work; a new configuration has to pass the gate, and to change the package when the
      package was wrong. */
  predicate Mends(r: Round) {
    match r.failure
    case Unknown => false
    case TimeoutNoData => true
    case WrongPackage => r.problems == [] && r.works
    case SubmissionError => r.problems == []
    case _ => r.works
  }

  /** Everything the agents and the world contribute to one Executor stage. */
  datatype Script = Script(
    runDir: string, path: int -> string,
    first: seq<AgentAction>, adjustment: Round, second: seq<AgentAction>,
    rounds: nat -> Round,
    fetch: FetchReply, relaxed: Round, retry: seq<AgentAction>, retryFetch: FetchReply)

  /** `quality.get(key, False)` used as a condition. */
  predicate Says(q: Quality, key: string) {
    key in q && Truthy(Some(q[key]))
  }

  /** `quality.get("execution_valid") is False`. */
  predicate Invalid(q: Quality) {
    "execution_valid" in q && q["execution_valid"] == Bool(false)
  }

  /** What a fetched report says: that it is the sample's, that it has signal, that the sample was not executed. */
  predicate Matching(f: FetchReply, sha: string) {
    f.Fetched? && HashMatches(sha, f.seen)
  }

  predicate HasSignal(f: FetchReply) {
    f.Fetched? && Says(f.quality, "has_signal")
  }

  predicate NotExecuted(f: FetchReply) {
    f.Fetched? && Invalid(f.quality)
  }

  /** The record kept of a report. */
  function QualityOf(f: FetchReply, sha: string): Quality {
    match f
    case FetchFailed(error) => map["has_signal" := Bool(false), "verified" := Bool(false), "error" := Str(error)]
    case Fetched(seen, quality, _) => quality["verified" := Bool(HashMatches(sha, seen))]
  }

  lemma QualitySays(f: FetchReply, sha: string)
    ensures Says(QualityOf(f, sha), "verified") <==> Matching(f, sha)
    ensures Says(QualityOf(f, sha), "has_signal") <==> HasSignal(f)
    ensures Invalid(QualityOf(f, sha)) <==> NotExecuted(f)
  {
    hide HashMatches;
  }

  function SeenNotes(f: FetchReply, sha: string): seq<(string, Value)> {
    match f
    case FetchFailed(error) =>
      [("executor.report_sha256_verified", Bool(false)), ("executor.report_fetch_error", Str(error))]
    case Fetched(seen, _, _) =>
      [("executor.report_sha256_verified", Bool(HashMatches(sha, seen))), ("executor.report_sha256_seen", Str(seen))]
  }

  function CopyNotes(task: int, path: string, verified: bool): seq<(string, Value)> {
    if verified then [("pass2.artefacts.cape_report", Str(path)), (ARTEFACT, Int(task))]
    else [("pass2.artefacts.quarantined_report", Str(path)), ("pass2.artefacts.quarantined_report_task_id", Int(task))]
  }

  /** What the controller writes about the report of `task`; a report that could not be fetched is only noted. */
  function ReportNotes(task: int, path: string, f: FetchReply, sha: string): seq<(string, Value)> {
    SeenNotes(f, sha)
    + if f.FetchFailed? then [] else CopyNotes(task, path, Matching(f, sha)) + [(QUALITY, Obj(QualityOf(f, sha)))]
  }

  lemma AcceptedTogether(a: seq<(string, Value)>, b: seq<(string, Value)>, alnum: char -> bool)
    ensures AllAccepted(a + b, alnum) <==> AllAccepted(a, alnum) && AllAccepted(b, alnum)
  {
    hide CheckWrite;
    forall n ensures n in a + b <==> n in a || n in b {
    }
  }

  lemma AcceptedOne(key: string, value: Value, alnum: char -> bool)
    ensures AllAccepted([(key, value)], alnum) <==> CheckWrite(key, value, CONTROLLER, alnum) == Accepted
  {
    hide CheckWrite;
    assert (key, value) in [(key, value)];
  }

  /** One run of the Executor's agent: the specification it starts from and its calls. */
  datatype Turn = Turn(doc: Fields, actions: seq<AgentAction>)

  const FINAL_TASK := "executor.final_task_id"

  function StartNotes(runDir: string): seq<(string, Value)> {
    [("executor.run_dir", Str(runDir)), ("executor.corrections", List([]))]
  }

  /** A first stage that needs neither correction nor retry: its agent submits a task and asks for no adjustment,
      the report is fetched, stored, the sample's, of a valid execution and with signal, and nothing the controller
      notes is refused by the schema. */
  predicate Promising(s: Script, sha: string, alnum: char -> bool) {
    var receipts := Receipts([], s.first);
    && receipts != [] && AllSpare(s.first, ADJUSTMENT)
    && AllAccepted(StartNotes(s.runDir), alnum)
    && Acceptable(s, sha, receipts[|receipts| - 1].id, alnum) && s.fetch.Fetched? && s.fetch.stored.Some?
  }

  predicate GoodReport(f: FetchReply, sha: string) {
    Matching(f, sha) && HasSignal(f) && !NotExecuted(f)
  }

  /** A first report that calls for another run: of a valid execution, but without signal or not the sample's. */
  predicate NeedsRetry(f: FetchReply, sha: string) {
    !NotExecuted(f) && !(Matching(f, sha) && HasSignal(f))
  }

  /** The agent is asked to run again: the first report calls for it, and the flag is not set. */
  predicate RunsAgain(first: FetchReply, sha: string, flag: Option<Value>) {
    NeedsRetry(first, sha) && !Truthy(flag)
  }

  /** The report that decides is that of a new task when the second run made one, and else the first report. */
  predicate DecidedBy(s: Script, sha: string, again: bool, before: seq<TaskReceipt>, after: seq<TaskReceipt>,
                      task: int, finished: bool)
  {
    var deciding := if again && |after| > |before| then s.retryFetch else s.fetch;
    && (finished <==> Matching(deciding, sha) && !NotExecuted(deciding))
    && task == LastId(after) && (!again ==> after == before)
  }

  /** A good report of `task`, of which everything may be noted. */
  predicate Acceptable(s: Script, sha: string, task: int, alnum: char -> bool) {
    && GoodReport(s.fetch, sha)
    && AllAccepted(ReportNotes(task, s.path(task), s.fetch, sha) + [(FINAL_TASK, Int(task))], alnum)
  }

  lemma AcceptableMeans(s: Script, sha: string, task: int, alnum: char -> bool)
    requires Acceptable(s, sha, task, alnum)
    ensures s.fetch.Fetched? && Matching(s.fetch, sha) && HasSignal(s.fetch) && !NotExecuted(s.fetch)
    ensures AllAccepted(ReportNotes(task, s.path(task), s.fetch, sha), alnum)
    ensures AllAccepted([(FINAL_TASK, Int(task))], alnum)
  {
    AcceptedTogether(ReportNotes(task, s.path(task), s.fetch, sha), [(FINAL_TASK, Int(task))], alnum);
  }

  function LastId(tasks: seq<TaskReceipt>): int {
    if tasks == [] then 0 else tasks[|tasks| - 1].taskId
  }

  /** The last receipt is the last task's. */
  lemma LastReceipt(tasks: seq<TaskReceipt>, confirmations: map<int, RouteConfirmation>, receipts: seq<Receipt>)
    requires Recorded(tasks, confirmations, 0) == receipts && receipts != []
    ensures tasks != []
    ensures receipts[|receipts| - 1] == Receipt(LastId(tasks), EffectiveOf(confirmations, LastId(tasks)))
  {
  }

  function EffectiveOf(confirmations: map<int, RouteConfirmation>, task: int): Option<string> {
    if task in confirmations then confirmations[task].effective else None
  }

  function RelaxNotes(r: Round): seq<(string, Value)> {
    [("cape_submission.timeout", Int(r.newTimeout)), ("cape_submission.options", Str(r.options)),
     ("cape_submission.memory", Bool(false))]
  }

  /** The specification asks for the longer observation, the supported options and no memory dump. */
  predicate Relaxed(doc: Fields, r: Round) {
    && Read(doc, "cape_submission.timeout") == Some(Int(r.newTimeout))
    && Read(doc, "cape_submission.options") == Some(Str(r.options))
    && Read(doc, "cape_submission.memory") == Some(Bool(false))
  }

  lemma RelaxKeysApart()
    ensures SplitAt("cape_submission.options", "cape_submission.timeout", 16)
    ensures SplitAt("cape_submission.memory", "cape_submission.timeout", 16)
    ensures SplitAt("cape_submission.memory", "cape_submission.options", 16)
    ensures SplitAt("executor.corrections", "cape_submission.timeout", 0)
    ensures SplitAt("executor.corrections", "cape_submission.options", 0)
    ensures SplitAt("executor.corrections", "cape_submission.memory", 0)
  {
  }

  lemma Elsewhere(d: Fields, key: string, value: Value, other: string)
    requires exists i: nat :: SplitAt(key, other, i)
    ensures Read(Write(d, key, value), other) == Read(d, other)
  {
    hide SplitAt, Read, Write, Related;
    SplitAnywhereIsUnrelated(key, other);
    WriteLaws(d, key, value, other);
  }

  lemma RelaxedAfter(d: Fields, r: Round)
    ensures Relaxed(WriteAll(d, RelaxNotes(r)), r)
  {
    hide SplitAt, Read, Write;
    RelaxKeysApart();
    var t, o, m := "cape_submission.timeout", "cape_submission.options", "cape_submission.memory";
    var d1 := Write(d, t, Int(r.newTimeout));
    var d2 := Write(d1, o, Str(r.options));
    var d3 := Write(d2, m, Bool(false));
    ThreeWrites(d, r);
    WriteLaws(d, t, Int(r.newTimeout), t);
    WriteLaws(d1, o, Str(r.options), o);
    WriteLaws(d2, m, Bool(false), m);
    Elsewhere(d1, o, Str(r.options), t);
    Elsewhere(d2, m, Bool(false), t);
    Elsewhere(d2, m, Bool(false), o);
  }

  lemma ThreeWrites(d: Fields, r: Round)
    ensures WriteAll(d, RelaxNotes(r)) ==
            Write(Write(Write(d, "cape_submission.timeout", Int(r.newTimeout)), "cape_submission.options",
                        Str(r.options)), "cape_submission.memory", Bool(false))
  {
    hide Write;
    var n := RelaxNotes(r);
    assert n[1..][0] == n[1] && n[1..][1..] == n[2..] && n[2..][0] == n[2] && n[2..][1..] == [];
    var d1 := Write(d, n[0].0, n[0].1);
    var d2 := Write(d1, n[1].0, n[1].1);
    assert WriteAll(d, n) == WriteAll(d1, n[1..]);
    assert WriteAll(d1, n[1..]) == WriteAll(d2, n[2..]);
    assert WriteAll(d2, n[2..]) == WriteAll(Write(d2, n[2].0, n[2].1), []);
  }

  /** Recording a correction leaves that as it is. */
  lemma RelaxedStays(d: Fields, d': Fields, r: Round)
    requires Relaxed(d, r) && exists list :: d' == Write(d, "executor.corrections", list)
    ensures Relaxed(d', r)
  {
    hide SplitAt, Read, Write;
    RelaxKeysApart();
    var list :| d' == Write(d, "executor.corrections", list);
    Elsewhere(d, "executor.corrections", list, "cape_submission.timeout");
    Elsewhere(d, "executor.corrections", list, "cape_submission.options");
    Elsewhere(d, "executor.corrections", list, "cape_submission.memory");
  }

  /** The agent ran once more, from a specification with the flag set and relaxed timing, or not at all. */
  ghost predicate RunsAre(before: seq<Turn>, after: seq<Turn>, again: bool, actions: seq<AgentAction>, relaxed: Round) {
    if again then
      && |after| == |before| + 1 && after[..|before|] == before
      && after[|before|].actions == actions && Read(after[|before|].doc, RETRY_DONE) == Some(Bool(true))
      && Relaxed(after[|before|].doc, relaxed)
    else after == before
  }

  lemma PromisingNeeds(s: Script, sha: string, alnum: char -> bool)
    requires Promising(s, sha, alnum)
    ensures AllSpare(s.first, ADJUSTMENT) && AllAccepted(StartNotes(s.runDir), alnum) && Receipts([], s.first) != []
    ensures Acceptable(s, sha, Receipts([], s.first)[|Receipts([], s.first)| - 1].id, alnum)
    ensures s.fetch.Fetched? && s.fetch.stored.Some?
  {
    hide Acceptable, AllSpare, Receipts, AllAccepted;
  }

  /** The ledger's verified report is that of `task`, with the digest of the stored copy. */
  predicate VerifiedAs(l: Ledger, task: int, stored: Option<string>) {
    VerifiedReport(l).Some? && VerifiedReport(l).value.taskId == task && Some(VerifiedReport(l).value.sha256) == stored
  }

  /** The quality record and the artefact entry are about `task`, whose report matched the sample. */
  ghost predicate Certified(a: AttemptState, task: int, q: Quality)
    reads a, a.ctx
  {
    && OwnsTask(a.ctx.State(), task)
    && Read(a.doc, ARTEFACT) == Some(Int(task))
    && Read(a.doc, QUALITY) == Some(Obj(q))
    && a.qualityFor == Some(task)
  }

  class ExecutorAgent {
    const a: AttemptState
    var correctionCounts: map<Failure, nat>
    ghost var runs: seq<Turn>

    ghost predicate Valid()
      reads this, a, a.ctx
    {
      && a.Valid()
      && forall f | f in correctionCounts :: 1 <= correctionCounts[f] <= MAX_CORRECTIONS_PER_TYPE
    }

    constructor (a: AttemptState)
      requires a.Valid()
      ensures Valid() && this.a == a && correctionCounts == map[]
    {
      this.a := a;
      correctionCounts := map[];
      runs := [];
    }

    /** The Executor's agent runs once more. */
    method RunAgent(actions: seq<AgentAction>)
      requires Valid()
      modifies this`runs, a`doc, a`refusals, a`clock, a`delivery, a.ctx
      ensures Valid() && a.clock >= old(a.clock) && runs == old(runs) + [Turn(old(a.doc), actions)]
      ensures SameFacts(old(a.doc), a.doc)
      ensures AllSpare(actions, RETRY_DONE) ==> Read(a.doc, RETRY_DONE) == old(Read(a.doc, RETRY_DONE))
      ensures AllSpare(actions, ADJUSTMENT) ==> Read(a.doc, ADJUSTMENT) == old(Read(a.doc, ADJUSTMENT))
      ensures a.ctx.sample == old(a.ctx.sample) && a.ctx.reports == old(a.ctx.reports)
              && a.ctx.routePolicy == old(a.ctx.routePolicy)
      ensures old(a.ctx.tasks) <= a.ctx.tasks
      ensures a.ctx.sample.Some? ==>
                Recorded(a.ctx.tasks, a.ctx.confirmations, |old(a.ctx.tasks)|)
                == Receipts(Ids(old(a.ctx.tasks)), actions)
      ensures a.refusals >= old(a.refusals)
    {
      hide SameFacts, Sound, Read, Receipts, Recorded, AllSpare;
      ExecutorSubmits();
      runs := runs + [Turn(a.doc, actions)];
      a.AgentStage("Executor", actions);
    }

    // --------------------------------------------------------------------------------------
    // Report retrieval
    // --------------------------------------------------------------------------------------

    /** The ledger keeps the digest of the stored copy and whether its target was the sample; a copy that
        could not be stored or hashed is not recorded. */
    method StoreReport(task: int, path: string, stored: Option<string>, seen: string)
      requires Valid() && a.ctx.sample.Some? && OwnsTask(a.ctx.State(), task)
      modifies a`clock, a`seenHash, a.ctx
      ensures Valid() && a.clock >= old(a.clock)
      ensures a.ctx.sample == old(a.ctx.sample) && a.ctx.tasks == old(a.ctx.tasks)
      ensures a.ctx.routePolicy == old(a.ctx.routePolicy) && a.ctx.confirmations == old(a.ctx.confirmations)
      ensures stored.Some? && HashMatches(a.ctx.sample.value.sha256, seen) ==> VerifiedAs(a.ctx.State(), task, stored)
    {
      hide TasksSound, ConfirmationsSound, ReportsSound, BindCount, HashMatches, FindTask, Newest;
      if stored.Some? {
        var verified := HashMatches(a.ctx.sample.value.sha256, seen);
        var now := a.Tick();
        ghost var before := a.ctx.State();
        var recorded := a.ctx.AddReport(task, path, stored, verified, now);
        RecordReportKeepsSound(before, task, path, stored, verified, now);
        RecordedReportIsVerified(before, task, path, stored.value, verified, now);
        ReportsAfterRecording(before, ReportDigest(task, stored.value, path, verified, now));
        a.seenHash := a.seenHash[task := seen];
      }
    }

    /** Where the copy is entered: as the artefact of `task`, or among the quarantined ones. */
    method EnterCopy(task: int, path: string, verified: bool) returns (ok: bool)
      modifies a`doc, a`refusals
      ensures Read(a.doc, FAILED) == old(Read(a.doc, FAILED))
      ensures SameSignals(old(a.doc), a.doc)
      ensures ok && verified ==> Read(a.doc, ARTEFACT) == Some(Int(task))
      ensures !verified ==> Read(a.doc, ARTEFACT) == old(Read(a.doc, ARTEFACT))
      ensures Read(a.doc, QUALITY) == old(Read(a.doc, QUALITY))
      ensures ok <==> AllAccepted(CopyNotes(task, path, verified), a.alnum)
      ensures a.refusals == old(a.refusals) + if ok then 0 else 1
    {
      hide SameFacts, SameSignals, Read, Write, CheckWrite;
      KeysDiffer();
      if !verified {
        ok := a.SetAll([("pass2.artefacts.quarantined_report", Str(path)),
                        ("pass2.artefacts.quarantined_report_task_id", Int(task))]);
        FactsApply(old(a.doc), a.doc);
        return;
      }
      ok := a.SetAll([("pass2.artefacts.cape_report", Str(path))]);
      FactsApply(old(a.doc), a.doc);
      ghost var d := a.doc;
      AcceptedTogether([("pass2.artefacts.cape_report", Str(path))], [(ARTEFACT, Int(task))], a.alnum);
      AcceptedOne(ARTEFACT, Int(task), a.alnum);
      if ok {
        ok := a.SetFact(ARTEFACT, Int(task));
        SignalsChain(old(a.doc), d, a.doc);
      }
    }

    /** `_persist_report_authoritatively`. `raised` is an exception leaving the method. */
    method Persist(task: int, path: string, reply: FetchReply) returns (raised: bool, quality: Quality)
      requires Valid() && a.ctx.sample.Some? && OwnsTask(a.ctx.State(), task)
      modifies a`doc, a`refusals, a`clock, a`qualityFor, a`seenHash, a.ctx
      ensures Valid() && a.clock >= old(a.clock)
      ensures a.ctx.sample == old(a.ctx.sample) && a.ctx.tasks == old(a.ctx.tasks)
      ensures a.ctx.routePolicy == old(a.ctx.routePolicy) && a.ctx.confirmations == old(a.ctx.confirmations)
      ensures Read(a.doc, FAILED) == old(Read(a.doc, FAILED))
      ensures !raised && Says(quality, "verified") ==>
                Certified(a, task, quality) && reply.Fetched? && HashMatches(a.ctx.sample.value.sha256, reply.seen)
      ensures var sha := a.ctx.sample.value.sha256;
              && (raised <==> !AllAccepted(ReportNotes(task, path, reply, sha), a.alnum))
              && (!raised ==> quality == QualityOf(reply, sha))
              && (Matching(reply, sha) && reply.stored.Some? ==> VerifiedAs(a.ctx.State(), task, reply.stored))
      // A report that is not the sample's never becomes the artefact, and one that was not fetched is not recorded.
      ensures !Matching(reply, a.ctx.sample.value.sha256) ==> Read(a.doc, ARTEFACT) == old(Read(a.doc, ARTEFACT))
      ensures reply.FetchFailed? ==> Read(a.doc, QUALITY) == old(Read(a.doc, QUALITY))
      ensures SameSignals(old(a.doc), a.doc)
      ensures a.refusals == old(a.refusals) + if raised then 1 else 0
    {
      hide SameFacts, SameSignals, Sound, HashMatches, FindTask, Write, Read, CheckWrite, Says, VerifiedAs, AllAccepted;
      KeysDiffer();
      ghost var sha := a.ctx.sample.value.sha256;
      QualitySays(reply, sha);
      if reply.FetchFailed? {
        var noted := a.SetAll([("executor.report_sha256_verified", Bool(false)),
                               ("executor.report_fetch_error", Str(reply.error))]);
        FactsApply(old(a.doc), a.doc);
        quality := map["has_signal" := Bool(false), "verified" := Bool(false), "error" := Str(reply.error)];
        assert SeenNotes(reply, sha) + [] == SeenNotes(reply, sha);
        return !noted, quality;
      }
      var verified := HashMatches(a.ctx.sample.value.sha256, reply.seen);
      quality := reply.quality["verified" := Bool(verified)];
      StoreReport(task, path, reply.stored, reply.seen);
      AcceptedTogether(SeenNotes(reply, sha), CopyNotes(task, path, verified) + [(QUALITY, Obj(quality))], a.alnum);
      AcceptedTogether(CopyNotes(task, path, verified), [(QUALITY, Obj(quality))], a.alnum);
      AcceptedOne(QUALITY, Obj(quality), a.alnum);
      var ok := a.SetAll([("executor.report_sha256_verified", Bool(verified)),
                          ("executor.report_sha256_seen", Str(reply.seen))]);
      FactsApply(old(a.doc), a.doc);
      if !ok {
        return true, quality;
      }
      ghost var d := a.doc;
      ok := EnterCopy(task, path, verified);
      SignalsChain(old(a.doc), d, a.doc);
      d := a.doc;
      if ok {
        ok := a.SetQuality(task, quality);
        SignalsChain(old(a.doc), d, a.doc);
      }
      raised := !ok;
    }

    // --------------------------------------------------------------------------------------
    // Corrections
    // --------------------------------------------------------------------------------------

    method RecordCorrection(action: string) returns (ok: bool)
      modifies a`doc, a`refusals
      ensures SameFacts(old(a.doc), a.doc) && SameSignals(old(a.doc), a.doc)
      ensures ok ==> exists list :: a.doc == Write(old(a.doc), "executor.corrections", list)
      ensures a.refusals == old(a.refusals) + if ok then 0 else 1
    {
      hide SameFacts, SameSignals;
      FactsStay(a.doc);
      SignalsStay(a.doc);
      match Extended(Read(a.doc, "executor.corrections"), Obj(map["action" := Str(action)]))
      case None =>
        ok := false;
        a.refusals := a.refusals + 1;
      case Some(list) => ok := a.SetBookkeeping("executor.corrections", list);
    }

    /** `_adjust_submission`: the Architect runs again, its options are rewritten by policy, and the
        configuration gate decides. */
    method Adjust(r: Round) returns (raised: bool, ok: bool)
      requires Valid()
      modifies a`doc, a`refusals, a`clock, a`delivery, a.ctx
      ensures Valid() && a.clock >= old(a.clock) && a.ctx.State() == old(a.ctx.State())
      ensures SameFacts(old(a.doc), a.doc)
      ensures a.refusals >= old(a.refusals) + if raised then 1 else 0
      ensures ok <==> r.problems == []
    {
      hide SameFacts, SameSignals, Sound, AllAccepted, WriteAll, SpecAfter, Receipts, Recorded, AllSpare, ToolAllowed;
      OnlyExecutorSubmits("Architect");
      a.AgentStage("Architect", r.architect);
      ghost var d := a.doc;
      var noted := a.SetAll([("cape_submission.options", Str(r.options)),
                             ("cape_submission.network_mode_enforced", Str("none")),
                             ("cape_submission.validation_errors", List(r.problems))]);
      FactsChain(old(a.doc), d, a.doc);
      return !noted, r.problems == [];
    }

    /** `_fix_timeout_no_data`: a longer observation and only supported options. */
    method RelaxTimeout(r: Round) returns (raised: bool)
      modifies a`doc, a`refusals
      ensures SameFacts(old(a.doc), a.doc) && SameSignals(old(a.doc), a.doc)
      ensures !raised ==> Relaxed(a.doc, r)
      ensures a.refusals == old(a.refusals) + if raised then 1 else 0
    {
      hide SameFacts, SameSignals, AllAccepted, WriteAll, Write, Read, CheckWrite, Relaxed;
      RelaxedAfter(a.doc, r);
      var ok := a.SetAll([("cape_submission.timeout", Int(r.newTimeout)), ("cape_submission.options", Str(r.options)),
                          ("cape_submission.memory", Bool(false))]);
      ghost var d := a.doc;
      if ok {
        ok := RecordCorrection("timeout");
        if ok {
          RelaxedStays(d, a.doc, r);
        }
        FactsChain(old(a.doc), d, a.doc);
        SignalsChain(old(a.doc), d, a.doc);
      }
      raised := !ok;
    }

    method ApplyFix(r: Round) returns (raised: bool, fixed: bool)
      requires Valid()
      modifies a`doc, a`refusals, a`clock, a`delivery, a.ctx
      ensures Valid() && a.clock >= old(a.clock) && a.ctx.State() == old(a.ctx.State())
      ensures SameFacts(old(a.doc), a.doc)
      ensures !raised ==> (fixed <==> Mends(r))
      ensures a.refusals >= old(a.refusals) + if raised then 1 else 0
    {
      hide SameFacts, Sound, SameSignals, AllAccepted, WriteAll, CheckWrite, Relaxed, Write, Read, TasksSound;
      FactsStay(a.doc);
      if r.failure == Unknown {
        return false, false;
      }
      if r.failure == TimeoutNoData {
        raised := RelaxTimeout(r);
        return raised, true;
      }
      fixed := r.works;
      if r.failure == WrongPackage || r.failure == SubmissionError {
        raised, fixed := Adjust(r);
        fixed := fixed && (r.failure == WrongPackage ==> r.works);
        if raised {
          return;
        }
      }
      ghost var d := a.doc;
      var ok := RecordCorrection("fix");
      FactsChain(old(a.doc), d, a.doc);
      raised := !ok;
    }

    /** `_attempt_correction`: each failure type is tried at most three times. */
    method AttemptCorrection(r: Round) returns (raised: bool, fixed: bool)
      requires Valid()
      modifies this`correctionCounts, a`doc, a`refusals, a`clock, a`delivery, a.ctx
      ensures Valid() && a.clock >= old(a.clock) && a.ctx.State() == old(a.ctx.State())
      ensures SameFacts(old(a.doc), a.doc)
      ensures var n := if r.failure in old(correctionCounts) then old(correctionCounts)[r.failure] else 0;
              if n >= MAX_CORRECTIONS_PER_TYPE then !fixed && !raised && correctionCounts == old(correctionCounts)
              else correctionCounts == old(correctionCounts)[r.failure := n + 1] && (!raised ==> (fixed <==> Mends(r)))
      ensures a.refusals >= old(a.refusals) + if raised then 1 else 0
    {
      hide SameFacts, Sound;
      FactsStay(a.doc);
      var n := if r.failure in correctionCounts then correctionCounts[r.failure] else 0;
      if n >= MAX_CORRECTIONS_PER_TYPE {
        return false, false;
      }
      correctionCounts := correctionCounts[r.failure := n + 1];
      raised, fixed := ApplyFix(r);
    }

    // --------------------------------------------------------------------------------------
    // The stage
    // --------------------------------------------------------------------------------------

    method Fail(reason: string) returns (raised: bool)
      modifies a`doc, a`refusals
      ensures !raised ==> Read(a.doc, FAILED) == Some(Bool(true))
      ensures a.refusals == old(a.refusals) + if raised then 1 else 0
    {
      hide SameFacts, Read;
      var ok := a.SetFact(FAILED, Bool(true));
      ghost var d := a.doc;
      if ok {
        ok := a.SetAll([("executor.validation_error", Str(reason))]);
        FactsApply(d, a.doc);
      }
      raised := !ok;
    }

    ghost predicate Spent(r: Round)
      reads this
    {
      r.failure in correctionCounts && correctionCounts[r.failure] == MAX_CORRECTIONS_PER_TYPE
    }

    /** The self-correction loop: at most five rounds, and none once a task exists. */
    method CorrectionLoop(rounds: nat -> Round) returns (raised: bool)
      requires Valid()
      modifies this`correctionCounts, this`runs, a`doc, a`refusals, a`clock, a`delivery, a.ctx
      ensures Valid() && a.clock >= old(a.clock)
      ensures SameFacts(old(a.doc), a.doc)
      ensures a.ctx.sample == old(a.ctx.sample) && a.ctx.reports == old(a.ctx.reports)
              && a.ctx.routePolicy == old(a.ctx.routePolicy)
      ensures old(a.ctx.tasks) <= a.ctx.tasks
      // Each run of the agent follows a fix that did its work; without a task the loop stops early only when a fix
      // does not, or its kind of failure was tried three times.
      ensures Corrected(old(runs), runs, rounds) && |runs| <= |old(runs)| + MAX_CORRECTION_ROUNDS
      ensures var n := |runs| - |old(runs)|;
              !raised && a.ctx.tasks == [] && 0 <= n < MAX_CORRECTION_ROUNDS ==> !Mends(rounds(n)) || Spent(rounds(n))
      ensures old(a.ctx.tasks) != [] ==>
                !raised && a.ctx.State() == old(a.ctx.State()) && a.doc == old(a.doc) && runs == old(runs)
      ensures a.refusals >= old(a.refusals) + if raised then 1 else 0
    {
      hide SameFacts, Sound, Mends, Corrected, Receipts, Recorded, Read, AllSpare;
      FactsStay(a.doc);
      CorrectedNot(runs, rounds);
      var round := 0;
      raised := false;
      while a.ctx.tasks == [] && round < MAX_CORRECTION_ROUNDS
        invariant Valid() && a.clock >= old(a.clock) && a.refusals >= old(a.refusals) + if raised then 1 else 0
        invariant SameFacts(old(a.doc), a.doc)
        invariant a.ctx.sample == old(a.ctx.sample) && a.ctx.reports == old(a.ctx.reports)
                  && a.ctx.routePolicy == old(a.ctx.routePolicy)
        invariant old(a.ctx.tasks) <= a.ctx.tasks
        invariant 0 <= round <= MAX_CORRECTION_ROUNDS && |runs| == |old(runs)| + round
        invariant Corrected(old(runs), runs, rounds)
        invariant old(a.ctx.tasks) != [] ==>
                    !raised && a.ctx.State() == old(a.ctx.State()) && a.doc == old(a.doc) && runs == old(runs)
        decreases MAX_CORRECTION_ROUNDS - round
      {
        ghost var d := a.doc;
        var r := rounds(round);
        var fixed: bool;
        raised, fixed := AttemptCorrection(r);
        ghost var e := a.doc;
        FactsChain(old(a.doc), d, e);
        if raised || !fixed {
          return;
        }
        ghost var turns := runs;
        RunAgent(r.actions);
        CorrectedOnce(old(runs), turns, rounds, runs[|turns|]);
        round := round + 1;
        FactsChain(old(a.doc), e, a.doc);
      }
    }

    /** The outcome after any retry: an execution that is not valid, or a report that is not the sample's,
        is a hard failure. */
    method Conclude(task: int, quality: Quality) returns (raised: bool, finished: bool)
      requires Says(quality, "verified") ==> Certified(a, task, quality)
      modifies a`doc, a`refusals
      ensures !raised && !finished ==> Read(a.doc, FAILED) == Some(Bool(true))
      ensures !raised && finished ==>
                Certified(a, task, quality) && Says(quality, "verified") && !Invalid(quality)
                  && Read(a.doc, FAILED) == old(Read(a.doc, FAILED))
      ensures !raised ==> (finished <==> Says(quality, "verified") && !Invalid(quality))
      ensures Says(quality, "verified") && !Invalid(quality) ==>
                (raised <==> !AllAccepted([(FINAL_TASK, Int(task))], a.alnum))
      ensures a.refusals == old(a.refusals) + if raised then 1 else 0
    {
      hide SameFacts, SameSignals, Read, Truthy, FindTask, AllAccepted, WriteAll;
      if Invalid(quality) {
        raised := Fail("Retry did not verify sample execution");
        return raised, false;
      }
      if !Says(quality, "verified") {
        raised := Fail("CAPE report sha256 did not match submitted sample after retry");
        return raised, false;
      }
      var ok := a.SetAll([(FINAL_TASK, Int(task))]);
      FactsApply(old(a.doc), a.doc);
      return !ok, true;
    }

    /** Fetch the last task's report, retry once when it shows no signal or is not the sample's, and end
        either certified for one task or failed. */
    method Certify(s: Script) returns (raised: bool, finished: bool, task: int, quality: Quality)
      requires Valid() && a.ctx.sample.Some? && a.ctx.tasks != []
      modifies this`runs, a`doc, a`refusals, a`clock, a`delivery, a`qualityFor, a`seenHash, a.ctx
      ensures Valid()
      ensures a.ctx.sample == old(a.ctx.sample) && a.ctx.routePolicy == old(a.ctx.routePolicy)
      ensures !raised && !finished ==> Read(a.doc, FAILED) == Some(Bool(true))
      ensures !raised && finished ==> Certified(a, task, quality) && Says(quality, "verified") && !Invalid(quality)
      // The agent runs again, with the flag set, exactly when the first report calls for it and the flag was not set.
      ensures var again := RunsAgain(s.fetch, a.ctx.sample.value.sha256, old(Read(a.doc, RETRY_DONE)));
              !raised ==>
                && RunsAre(old(runs), runs, again, s.retry, s.relaxed)
                && DecidedBy(s, a.ctx.sample.value.sha256, again, old(a.ctx.tasks), a.ctx.tasks, task, finished)
      // A good first report is enough.
      ensures Acceptable(s, a.ctx.sample.value.sha256, LastId(old(a.ctx.tasks)), a.alnum) ==>
                && !raised && finished && task == LastId(old(a.ctx.tasks))
                && quality == QualityOf(s.fetch, a.ctx.sample.value.sha256)
                && a.ctx.tasks == old(a.ctx.tasks) && a.ctx.confirmations == old(a.ctx.confirmations)
                && runs == old(runs) && Read(a.doc, FAILED) == old(Read(a.doc, FAILED))
                && (s.fetch.stored.Some? ==> VerifiedAs(a.ctx.State(), task, s.fetch.stored))
      ensures a.refusals >= old(a.refusals) + if raised then 1 else 0
    {
      hide Sound, Read, Truthy, FindTask, HashMatches, Says, Invalid, QualityOf, ReportNotes, AllAccepted, VerifiedAs,
           Certified, SameSignals, Matching, HasSignal, NotExecuted, Acceptable, CheckWrite, Write;
      task := LastId(a.ctx.tasks);
      ghost var sha := a.ctx.sample.value.sha256;
      LastTaskIsOwned(a.ctx.State());
      QualitySays(s.fetch, sha);
      if Acceptable(s, sha, task, a.alnum) {
        AcceptableMeans(s, sha, task, a.alnum);
      }
      raised, quality := Persist(task, s.path(task), s.fetch);
      SignalsApply(old(a.doc), a.doc);
      finished := false;
      if raised {
        return;
      }
      if Invalid(quality) {
        raised := Fail("Sample execution was not verified");
        return;
      }
      raised, finished, task, quality := Settle(s, task, quality);
    }

    /** The part after a first report of a valid execution: the retry when it is called for, and the verdict. */
    method Settle(s: Script, first: int, seen: Quality)
      returns (raised: bool, finished: bool, task: int, quality: Quality)
      requires Valid() && a.ctx.sample.Some? && a.ctx.tasks != [] && first == LastId(a.ctx.tasks)
      requires seen == QualityOf(s.fetch, a.ctx.sample.value.sha256) && !NotExecuted(s.fetch)
      requires Says(seen, "verified") ==> Certified(a, first, seen)
      modifies this`runs, a`doc, a`refusals, a`clock, a`delivery, a`qualityFor, a`seenHash, a.ctx
      ensures Valid()
      ensures a.ctx.sample == old(a.ctx.sample) && a.ctx.routePolicy == old(a.ctx.routePolicy)
      ensures !raised && !finished ==> Read(a.doc, FAILED) == Some(Bool(true))
      ensures !raised && finished ==> Certified(a, task, quality) && Says(quality, "verified") && !Invalid(quality)
      ensures var again := RunsAgain(s.fetch, a.ctx.sample.value.sha256, old(Read(a.doc, RETRY_DONE)));
              !raised ==>
                && RunsAre(old(runs), runs, again, s.retry, s.relaxed)
                && DecidedBy(s, a.ctx.sample.value.sha256, again, old(a.ctx.tasks), a.ctx.tasks, task, finished)
      ensures GoodReport(s.fetch, a.ctx.sample.value.sha256) && AllAccepted([(FINAL_TASK, Int(first))], a.alnum) ==>
                && !raised && finished && task == first && quality == seen
                && a.ctx.State() == old(a.ctx.State()) && runs == old(runs)
                && Read(a.doc, FAILED) == old(Read(a.doc, FAILED))
      ensures a.refusals >= old(a.refusals) + if raised then 1 else 0
    {
      hide Sound, Read, Truthy, FindTask, HashMatches, Says, Invalid, QualityOf, AllAccepted, Certified, Matching,
           HasSignal, NotExecuted;
      task, quality := first, seen;
      LastTaskIsOwned(a.ctx.State());
      QualitySays(s.fetch, a.ctx.sample.value.sha256);
      QualitySays(s.retryFetch, a.ctx.sample.value.sha256);
      if (!Says(quality, "has_signal") || !Says(quality, "verified")) && !Truthy(Read(a.doc, RETRY_DONE)) {
        raised, task, quality := Retry(s, task, quality);
        if raised {
          finished := false;
          return;
        }
      }
      raised, finished := Conclude(task, quality);
    }

    /** One retry with relaxed timing; only a new task replaces the first one's outcome. */
    method Retry(s: Script, task: int, quality: Quality) returns (raised: bool, task': int, quality': Quality)
      requires Valid() && a.ctx.sample.Some? && a.ctx.tasks != [] && OwnsTask(a.ctx.State(), task)
      requires Says(quality, "verified") ==> Certified(a, task, quality)
      modifies this`runs, a`doc, a`refusals, a`clock, a`delivery, a`qualityFor, a`seenHash, a.ctx
      ensures Valid()
      ensures a.ctx.sample == old(a.ctx.sample) && a.ctx.routePolicy == old(a.ctx.routePolicy)
              && old(a.ctx.tasks) <= a.ctx.tasks
      ensures Read(a.doc, FAILED) == old(Read(a.doc, FAILED))
      ensures !raised && Says(quality', "verified") ==> Certified(a, task', quality')
      ensures !raised ==> RunsAre(old(runs), runs, true, s.retry, s.relaxed)
      ensures !raised ==>
                if |a.ctx.tasks| > |old(a.ctx.tasks)| then
                  && task' == a.ctx.tasks[|a.ctx.tasks| - 1].taskId
                  && quality' == QualityOf(s.retryFetch, a.ctx.sample.value.sha256)
                else task' == task && quality' == quality
      ensures a.refusals >= old(a.refusals) + if raised then 1 else 0
    {
      hide SameFacts, SameSignals, Sound, Read, HashMatches, Truthy, FindTask, Says, QualityOf, ReportNotes,
           AllAccepted, VerifiedAs, Write, CheckWrite, Receipts, Recorded, AllSpare, Matching, Relaxed;
      task', quality' := task, quality;
      var ok := MarkRetried();
      if !ok {
        return true, task, quality;
      }
      ghost var d := a.doc;
      raised := RelaxTimeout(s.relaxed);
      FactsApply(d, a.doc);
      SignalsApply(d, a.doc);
      if raised {
        return;
      }
      var before := |a.ctx.tasks|;
      ghost var held := a.ctx.State();
      d := a.doc;
      RunAgent(s.retry);
      FactsApply(d, a.doc);
      OwnedStays(held.tasks, a.ctx.tasks, task);
      if |a.ctx.tasks| > before {
        task' := a.ctx.tasks[|a.ctx.tasks| - 1].taskId;
        LastTaskIsOwned(a.ctx.State());
        QualitySays(s.retryFetch, a.ctx.sample.value.sha256);
        raised, quality' := Persist(task', s.path(task'), s.retryFetch);
      }
    }

    /** The flag that a retry was made. */
    method MarkRetried() returns (ok: bool)
      modifies a`doc, a`refusals
      ensures Read(a.doc, FAILED) == old(Read(a.doc, FAILED)) && Read(a.doc, ARTEFACT) == old(Read(a.doc, ARTEFACT))
      ensures Read(a.doc, QUALITY) == old(Read(a.doc, QUALITY))
      ensures ok ==> Read(a.doc, RETRY_DONE) == Some(Bool(true))
      ensures a.refusals == old(a.refusals) + if ok then 0 else 1
    {
      hide SameFacts, Read, Write, CheckWrite;
      ok := a.SetBookkeeping(RETRY_DONE, Bool(true));
      FactsApply(old(a.doc), a.doc);
      WriteLaws(old(a.doc), RETRY_DONE, Bool(true), RETRY_DONE);
    }

    /** The first agent run, and a second one when Pass 1 asks for an adjustment the gate accepts. */
    method FirstRuns(s: Script) returns (raised: bool, adjusted: bool)
      requires Valid()
      modifies this`runs, a`doc, a`refusals, a`clock, a`delivery, a.ctx
      ensures Valid()
      ensures a.ctx.sample == old(a.ctx.sample) && a.ctx.routePolicy == old(a.ctx.routePolicy)
      ensures SameFacts(old(a.doc), a.doc)
      ensures AllSpare(s.first, ADJUSTMENT) && !Truthy(old(Read(a.doc, ADJUSTMENT))) && a.ctx.sample.Some? ==>
                && !raised && adjusted && runs == old(runs) + [Turn(old(a.doc), s.first)]
                && |old(a.ctx.tasks)| <= |a.ctx.tasks|
                && Recorded(a.ctx.tasks, a.ctx.confirmations, |old(a.ctx.tasks)|)
                == Receipts(Ids(old(a.ctx.tasks)), s.first)
      ensures a.refusals >= old(a.refusals) + if raised then 1 else 0
    {
      hide SameFacts, SameSignals, Sound, Read, Truthy, FindTask, HashMatches, Receipts, Recorded, AllSpare;
      raised, adjusted := false, true;
      RunAgent(s.first);
      if Truthy(Read(a.doc, ADJUSTMENT)) {
        ghost var d := a.doc;
        raised, adjusted := Adjust(s.adjustment);
        FactsChain(old(a.doc), d, a.doc);
        if !raised && adjusted {
          ghost var e := a.doc;
          RunAgent(s.second);
          FactsChain(old(a.doc), e, a.doc);
        }
      }
    }

    /** The corrections while there is no task, and the report of the last one. */
    method CorrectAndCertify(s: Script) returns (raised: bool, finished: bool, task: int, quality: Quality)
      requires Valid() && a.ctx.sample.Some?
      modifies this`correctionCounts, this`runs, a`doc, a`refusals, a`clock, a`delivery, a`qualityFor, a`seenHash, a.ctx
      ensures Valid()
      ensures a.ctx.sample == old(a.ctx.sample) && a.ctx.routePolicy == old(a.ctx.routePolicy)
      ensures !raised && !finished ==> Read(a.doc, FAILED) == Some(Bool(true))
      ensures !raised && finished ==> Certified(a, task, quality) && Says(quality, "verified") && !Invalid(quality)
      ensures old(a.ctx.tasks) != [] && Acceptable(s, a.ctx.sample.value.sha256, LastId(old(a.ctx.tasks)), a.alnum) ==>
                && !raised && finished && task == LastId(old(a.ctx.tasks))
                && quality == QualityOf(s.fetch, a.ctx.sample.value.sha256)
                && a.ctx.confirmations == old(a.ctx.confirmations)
                && Read(a.doc, FAILED) == old(Read(a.doc, FAILED))
                && (s.fetch.stored.Some? ==> VerifiedAs(a.ctx.State(), task, s.fetch.stored))
      ensures a.refusals >= old(a.refusals) + if raised then 1 else 0
    {
      hide SameFacts, SameSignals, Sound, Read, Truthy, FindTask, HashMatches, Says, Invalid, Certified, QualityOf,
           VerifiedAs, RunsAgain, RunsAre, DecidedBy, CheckWrite, Write, Matching, HasSignal, NotExecuted, AllAccepted;
      finished, task, quality := false, 0, map[];
      raised := CorrectionLoop(s.rounds);
      FactsApply(old(a.doc), a.doc);
      if raised {
        return;
      }
      if a.ctx.tasks == [] {
        raised := Fail("No confirmed CAPE task ID after self-correction");
        return;
      }
      raised, finished, task, quality := Certify(s);
    }

    /** A sample is bound, nothing was submitted, and no adjustment is asked for. */
    ghost predicate Starts(ctx: RunContext, doc: Fields)
      reads ctx
    {
      ctx.sample.Some? && ctx.tasks == [] && !Truthy(Read(doc, ADJUSTMENT))
    }

    /** What a promising first stage ends with: its last receipt's task, certified, with that task's report verified
        and the failure flag as it was. */
    ghost predicate Fulfilled(s: Script, sha: string, task: int, quality: Quality)
      reads a, a.ctx
    {
      var receipts := Receipts([], s.first);
      && receipts != [] && receipts[|receipts| - 1] == Receipt(task, EffectiveOf(a.ctx.confirmations, task))
      && quality == QualityOf(s.fetch, sha) && s.fetch.Fetched? && VerifiedAs(a.ctx.State(), task, s.fetch.stored)
    }

    /** `_run`: submit, let the agent work, correct, and certify the report. */
    method Run(s: Script) returns (raised: bool, finished: bool, task: int, quality: Quality)
      requires Valid()
      modifies this`correctionCounts, this`runs, a`doc, a`refusals, a`clock, a`delivery, a`qualityFor, a`seenHash, a.ctx
      ensures Valid()
      ensures a.ctx.sample == old(a.ctx.sample) && a.ctx.routePolicy == old(a.ctx.routePolicy)
      ensures !raised && !finished ==> Read(a.doc, FAILED) == Some(Bool(true))
      ensures !raised && finished ==>
                Certified(a, task, quality) && Says(quality, "verified") && !Invalid(quality) && a.ctx.sample.Some?
      ensures old(Starts(a.ctx, a.doc)) && Promising(s, old(a.ctx.sample).value.sha256, a.alnum) ==>
                && !raised && finished && Fulfilled(s, old(a.ctx.sample).value.sha256, task, quality)
                && Read(a.doc, FAILED) == old(Read(a.doc, FAILED))
      ensures a.refusals >= old(a.refusals) + if raised then 1 else 0
    {
      hide SameFacts, SameSignals, Sound, Read, Truthy, FindTask, HashMatches, Says, Invalid, Certified, AllAccepted,
           WriteAll, AllSpare, Receipts, Recorded, Promising, GoodReport, QualityOf, ReportNotes, VerifiedAs,
           Acceptable, RunsAgain, RunsAre, DecidedBy, CheckWrite, Write;
      finished, task, quality := false, 0, map[];
      var ok := a.SetAll([("executor.run_dir", Str(s.runDir)), ("executor.corrections", List([]))]);
      SignalsApply(old(a.doc), a.doc);
      FactsApply(old(a.doc), a.doc);
      ghost var promising := Starts(a.ctx, old(a.doc)) && Promising(s, a.ctx.sample.value.sha256, a.alnum);
      if promising {
        PromisingNeeds(s, a.ctx.sample.value.sha256, a.alnum);
      }
      if !ok {
        return true, false, 0, map[];
      }
      if a.ctx.sample.None? {
        raised := Fail("No sample bound to this run");
        return;
      }
      var adjusted: bool;
      ghost var d := a.doc;
      raised, adjusted := FirstRuns(s);
      FactsApply(d, a.doc);
      if raised {
        return;
      }
      if !adjusted {
        raised := Fail("Architect adjustment is invalid");
        return;
      }
      if promising {
        assert Ids([]) == [];
        LastReceipt(a.ctx.tasks, a.ctx.confirmations, Receipts([], s.first));
      }
      raised, finished, task, quality := CorrectAndCertify(s);
    }

    method TakeLease(vm: string) returns (held: bool)
      requires Valid()
      modifies a`clock, a.ctx
      ensures Valid() && a.clock > old(a.clock)
      ensures a.ctx.sample == old(a.ctx.sample) && a.ctx.routePolicy == old(a.ctx.routePolicy)
      ensures old(a.ctx.lease).Some? && !held ==>
                a.ctx.lease == old(a.ctx.lease) && a.clock < a.ctx.lease.value.expiresAt
      ensures !held ==> a.ctx.State() == old(a.ctx.State())
      ensures held ==> a.ctx.lease.Some?
      ensures old(a.ctx.lease).None? ==> held
      ensures a.ctx.tasks == old(a.ctx.tasks)
    {
      hide HashMatches, FindTask, TasksSound, ConfirmationsSound, ReportsSound, BindCount;
      var now := a.Tick();
      ghost var before := a.ctx.State();
      var leased := a.ctx.AcquireLease(vm, VM_LEASE_TTL_SECONDS, now);
      StepKeepsSound(before, DoAcquire(vm, VM_LEASE_TTL_SECONDS), now);
      held := leased.Ok?;
    }

    method DropLease()
      requires Valid()
      modifies a`clock, a.ctx
      ensures Valid() && a.ctx.lease.None?
      ensures a.ctx.sample == old(a.ctx.sample) && a.ctx.routePolicy == old(a.ctx.routePolicy)
      ensures a.ctx.tasks == old(a.ctx.tasks) && a.ctx.confirmations == old(a.ctx.confirmations)
              && a.ctx.reports == old(a.ctx.reports)
    {
      hide HashMatches, FindTask, TasksSound, ConfirmationsSound, ReportsSound, BindCount;
      var now := a.Tick();
      ghost var held := a.ctx.State();
      a.ctx.ReleaseLease(now);
      StepKeepsSound(held, DoRelease, now);
    }

    /** `run`: a legacy backend is driven under a lease on its VM, released on every way out; a QEMU guest
        belongs to its task and needs none. `vm` is None when no supported platform was selected. */
    method RunStage(qemu: bool, vm: Option<string>, s: Script)
      returns (raised: bool, finished: bool, task: int, quality: Quality)
      requires Valid()
      modifies this`correctionCounts, this`runs, a`doc, a`refusals, a`clock, a`delivery, a`qualityFor, a`seenHash, a.ctx
      ensures Valid()
      ensures a.ctx.sample == old(a.ctx.sample) && a.ctx.routePolicy == old(a.ctx.routePolicy)
      ensures !raised && !finished ==> Read(a.doc, FAILED) == Some(Bool(true))
      ensures !raised && finished ==>
                Certified(a, task, quality) && Says(quality, "verified") && !Invalid(quality) && a.ctx.sample.Some?
      ensures old(Starts(a.ctx, a.doc)) && (qemu || (vm.Some? && old(a.ctx.lease).None?))
              && Promising(s, old(a.ctx.sample).value.sha256, a.alnum) ==>
                && !raised && finished && Fulfilled(s, old(a.ctx.sample).value.sha256, task, quality)
                && Read(a.doc, FAILED) == old(Read(a.doc, FAILED))
      ensures !qemu && vm.Some? && (old(a.ctx.lease).Some? ==> old(a.ctx.lease).value.expiresAt <= old(a.clock)) ==>
                a.ctx.lease.None?
      ensures a.refusals >= old(a.refusals)
    {
      hide SameFacts, Read, Truthy, FindTask, HashMatches, Says, Invalid, TasksSound, ConfirmationsSound, ReportsSound,
           BindCount, Promising, Newest, QualityOf, Receipts;
      raised, finished, task, quality := true, false, 0, map[];
      if qemu {
        raised, finished, task, quality := Run(s);
        return;
      }
      if vm.None? {
        return;
      }
      var held := TakeLease(vm.value);
      if !held {
        return;
      }
      raised, finished, task, quality := Run(s);
      DropLease();
    }
  }

  /** The agent ran once for each of the first rounds, each of them mended. */
  ghost predicate Corrected(before: seq<Turn>, after: seq<Turn>, rounds: nat -> Round) {
    && before <= after
    && forall k: nat | |before| + k < |after| :: Mends(rounds(k)) && after[|before| + k].actions == rounds(k).actions
  }

  lemma CorrectedNot(turns: seq<Turn>, rounds: nat -> Round)
    ensures Corrected(turns, turns, rounds)
  {
  }

  lemma CorrectedOnce(before: seq<Turn>, after: seq<Turn>, rounds: nat -> Round, turn: Turn)
    requires Corrected(before, after, rounds)
    requires Mends(rounds(|after| - |before|)) && turn.actions == rounds(|after| - |before|).actions
    ensures Corrected(before, after + [turn], rounds)
  {
    hide Mends;
  }

  lemma LastTaskIsOwned(l: Ledger)
    requires l.tasks != []
    ensures OwnsTask(l, l.tasks[|l.tasks| - 1].taskId)
  {
  }

  lemma OwnedStays(tasks: seq<TaskReceipt>, more: seq<TaskReceipt>, id: int)
    requires tasks <= more && FindTask(tasks, id).Some?
    ensures FindTask(more, id).Some?
  {
    assert FindTask(tasks, id).value in more;
  }

  /** What the ledger holds after a report is recorded. */
  lemma ReportsAfterRecording(l: Ledger, d: ReportDigest)
    requires Sound(l)
    ensures forall e | e in PutReport(l.reports, d) :: e == d || (e in l.reports && e.taskId != d.taskId)
  {
    PutReportContents(l.reports, d);
  }
}
