/** The pipeline driver (src/orchestrator.py): promotions, the fail-closed attempt, and the retry loop. */
module Orchestrator {
  import opened Wrappers
  import opened SpecPolicy
  import opened SpecDocument
  import opened RunContext
  import opened ReportValidation
  import opened Attempt
  import opened Executor
  import opened Analyst
  import LlmClient

  function ModeToRoute(mode: string): string {
    if mode == "fakenet" then "inetsim" else if mode == "nat" || mode == "internet" then "internet" else "drop"
  }

  /** success.json, as far as it identifies the evidence. */
  datatype SuccessRecord = SuccessRecord(sampleSha256: string, verifiedTask: int, reportSha256: string)

  /** What the agents and the world contribute to one attempt. `pinned` is the sample bound before any agent
      starts, `downloaded` what Scout's download resolves to when none was. */
  datatype AttemptScript = AttemptScript(
    pinned: Option<OpenedFile>,
    scout: seq<AgentAction>, scoutFinished: bool, downloaded: Option<OpenedFile>,
    supportedRoutes: set<string>,
    architect: seq<AgentAction>, options: string, architectFinished: bool, planErrors: seq<Value>,
    qemu: bool, vm: Option<string>, executor: Script,
    analyst: AnalystScript)

  /** Everything a success record stands for. */
  ghost predicate Evidence(a: AttemptState, r: SuccessRecord)
    reads a, a.ctx
  {
    var l := a.ctx.State();
    && l.sample.Some? && l.sample.value.sha256 == r.sampleSha256
    // The ledger's verified report is the recorded one, and its target hash matched the pinned sample.
    && VerifiedReport(l).Some? && VerifiedReport(l).value.taskId == r.verifiedTask
    && VerifiedReport(l).value.sha256 == r.reportSha256 && VerifiedReport(l).value.targetMatches
    && r.verifiedTask in a.seenHash && HashMatches(l.sample.value.sha256, a.seenHash[r.verifiedTask])
    // This attempt submitted the task, for that sample, and the route came back as the policy says.
    && FindTask(l.tasks, r.verifiedTask).Some?
    && FindTask(l.tasks, r.verifiedTask).value.sampleSha256 == r.sampleSha256
    && r.verifiedTask in l.confirmations && l.confirmations[r.verifiedTask].effective == Some(l.routePolicy)
    // The specification's artefact, the quality record and the promoted report are all about that task.
    && Read(a.doc, ARTEFACT) == Some(Int(r.verifiedTask))
    && a.qualityFor == Some(r.verifiedTask)
    && Read(a.doc, QUALITY).Some? && Read(a.doc, QUALITY).value.Obj?
    && Says(Read(a.doc, QUALITY).value.fields, "has_signal")
    && Says(Read(a.doc, QUALITY).value.fields, "verified") && !Invalid(Read(a.doc, QUALITY).value.fields)
    && Read(a.doc, REPORT).Some? && Read(a.doc, REPORT).value.Obj?
    && "cape_task_id" in Read(a.doc, REPORT).value.fields
    && Read(a.doc, REPORT).value.fields["cape_task_id"] == Int(r.verifiedTask)
  }

  // ----------------------------------------------------------------------------------------
  // Promotions
  // ----------------------------------------------------------------------------------------

  /** The controller's mode for a proposal; None when the proposal cannot even be looked up. */
  function DecidedMode(proposed: Option<Value>): Option<string> {
    match proposed
    case Some(Str(m)) => if m in FIELD_ENUMS["network.proposed_mode"] then Some(m) else Some("isolated")
    case Some(List(_)) => None
    case Some(Obj(_)) => None
    case _ => Some("isolated")
  }

  /** The decided route when the backend supports it, else `drop` when that is supported, else any it does. */
  predicate ClampedTo(route: string, wanted: string, supported: set<string>) {
    && route in supported
    && (wanted in supported ==> route == wanted)
    && (wanted !in supported && "drop" in supported ==> route == "drop")
  }

  /** The ledger takes the route while no task exists. */
  method FixRoute(a: AttemptState, route: string) returns (ok: bool)
    requires a.Valid() && a.ctx.tasks == []
    modifies a`clock, a.ctx
    ensures a.Valid() && a.ctx.tasks == [] && a.ctx.sample == old(a.ctx.sample) && a.ctx.reports == old(a.ctx.reports)
    ensures a.ctx.lease == old(a.ctx.lease)
    ensures ok ==> a.ctx.routePolicy == route
    ensures ok <==> route in VALID_ROUTES
  {
    hide TasksSound, ConfirmationsSound, ReportsSound, BindCount, HashMatches;
    var now := a.Tick();
    ghost var before := a.ctx.State();
    var fixed := a.ctx.SetRoute(route, now);
    StepKeepsSound(before, DoSetRoute(route), now);
    ok := fixed.Ok?;
  }

  const PROPOSED := "network.proposed_mode"

  function NetworkNotes(mode: string, wanted: string, route: string): seq<(string, Value)> {
    (if route == wanted then [] else [("network.route_downgraded_from", Str(wanted))])
    + [("network.mode", Str(mode)), ("network.route_enforced", Str(route))]
  }

  lemma ModesAreRoutes(mode: string)
    ensures ModeToRoute(mode) in VALID_ROUTES
  {
  }

  /** `_promote_network_policy`: Scout's proposal decides the mode, the backend clamps the route, and the
      route is fixed before any task exists. A backend that supports no route at all raises, and nothing else does
      but a route the ledger does not know or a refused write. */
  method PromoteNetworkPolicy(a: AttemptState, supported: set<string>) returns (raised: bool)
    requires a.Valid() && a.ctx.tasks == []
    modifies a`doc, a`refusals, a`clock, a.ctx
    ensures a.Valid() && a.ctx.tasks == [] && a.ctx.sample == old(a.ctx.sample) && a.ctx.reports == old(a.ctx.reports)
            && a.ctx.lease == old(a.ctx.lease)
    ensures SameFacts(old(a.doc), a.doc)
    ensures var mode := DecidedMode(old(Read(a.doc, PROPOSED)));
            !raised ==>
              && mode.Some?
              && ClampedTo(a.ctx.routePolicy, ModeToRoute(mode.value), supported)
              && a.doc == WriteAll(old(a.doc), NetworkNotes(mode.value, ModeToRoute(mode.value), a.ctx.routePolicy))
    ensures raised ==>
              || DecidedMode(old(Read(a.doc, PROPOSED))).None? || supported == {} || !(supported <= VALID_ROUTES)
              || a.refusals > old(a.refusals)
    ensures raised && DecidedMode(old(Read(a.doc, PROPOSED))).Some? ==>
              var wanted := ModeToRoute(DecidedMode(old(Read(a.doc, PROPOSED))).value);
              || wanted !in supported
              || !AllAccepted(NetworkNotes(DecidedMode(old(Read(a.doc, PROPOSED))).value, wanted, wanted), a.alnum)
  {
    hide Sound, HashMatches, SameFacts, SameSignals, Read, ModeToRoute, DecidedMode, VALID_ROUTES, AllAccepted,
         WriteAll;
    FactsStay(a.doc);
    var mode := DecidedMode(Read(a.doc, PROPOSED));
    if mode.None? {
      return true;
    }
    ModesAreRoutes(mode.value);
    var wanted := ModeToRoute(mode.value);
    var route := wanted;
    if wanted !in supported {
      if "drop" in supported {
        route := "drop";
      } else if supported == {} {
        return true;
      } else {
        route :| route in supported;
      }
      var noted := a.SetAll([("network.route_downgraded_from", Str(wanted))]);
      if !noted {
        return true;
      }
    }
    ghost var d := a.doc;
    var fixed := FixRoute(a, route);
    if !fixed {
      return true;
    }
    ghost var last := [("network.mode", Str(mode.value)), ("network.route_enforced", Str(route))];
    assert route == wanted ==> NetworkNotes(mode.value, wanted, route) == last;
    var ok := a.SetAll([("network.mode", Str(mode.value)), ("network.route_enforced", Str(route))]);
    FactsChain(old(a.doc), d, a.doc);
    WriteAllTogether(old(a.doc), [("network.route_downgraded_from", Str(wanted))], last);
    raised := !ok;
  }

  /** `_promote_report`: the Analyst's report reaches `report` only when it is complete for the ledger's
      verified task and the Analyst finished. */
  method PromoteReport(a: AttemptState, agentFinished: bool) returns (promoted: bool)
    modifies a`doc, a`refusals
    ensures promoted <==> agentFinished && Promotable(AnalysisReport(old(a.doc)), a.delivery,
                                                      VerifiedTask(a.ctx.State()), a.text, a.alnum)
    ensures promoted ==> Read(a.doc, REPORT) == Some(Normalize(AnalysisReport(old(a.doc))))
    ensures Read(a.doc, REPORT) == old(Read(a.doc, REPORT)) || Read(a.doc, REPORT) ==
                                                               Some(Normalize(AnalysisReport(old(a.doc))))
    ensures Read(a.doc, QUALITY) == old(Read(a.doc, QUALITY)) && Read(a.doc, ARTEFACT) == old(Read(a.doc, ARTEFACT))
    ensures Read(a.doc, FAILED) == old(Read(a.doc, FAILED))
  {
    hide SameFacts, SameSignals, Read, CompletionProblems, Normalize, CheckWrite, WriteAll, AllAccepted;
    KeysDiffer();
    AcceptedOne("provenance.report_task_verified", Bool(VerifiedTask(a.ctx.State()).Some?), a.alnum);
    AcceptedOne("provenance.report_promoted", Bool(true), a.alnum);
    var candidate := Normalize(AnalysisReport(a.doc));
    var expected := VerifiedTask(a.ctx.State());
    var problems := CompletionProblems(candidate, a.delivery, expected, a.text);
    CompletionOfNormalized(AnalysisReport(a.doc), a.delivery, expected, a.text);
    var ok := a.SetAll([("provenance.report_task_verified", Bool(expected.Some?))]);
    FactsApply(old(a.doc), a.doc);
    if !ok {
      return false;
    }
    ghost var d := a.doc;
    if problems != [] || !agentFinished {
      ok := a.SetAll([("provenance.report_promoted", Bool(false)), ("provenance.report_problems", List([]))]);
      FactsApply(d, a.doc);
      return false;
    }
    ok := a.SetFact(REPORT, candidate);
    ghost var e := a.doc;
    var noted := a.SetAll([("provenance.report_promoted", Bool(ok))]);
    FactsApply(e, a.doc);
    return ok && noted;
  }

  /** The report is complete for the verified task, and the schema takes it and what is noted about it. */
  predicate Promotable(report: Value, delivery: Option<Value>, task: Option<int>, text: TextTests,
                       alnum: char -> bool)
  {
    && CompletionProblems(report, delivery, task, text) == []
    && CheckWrite("provenance.report_task_verified", Bool(task.Some?), CONTROLLER, alnum) == Accepted
    && CheckWrite(REPORT, Normalize(report), CONTROLLER, alnum) == Accepted
    && CheckWrite("provenance.report_promoted", Bool(true), CONTROLLER, alnum) == Accepted
  }

  function VerifiedTask(l: Ledger): Option<int> {
    if VerifiedReport(l).Some? then Some(VerifiedReport(l).value.taskId) else None
  }

  // ----------------------------------------------------------------------------------------
  // One attempt
  // ----------------------------------------------------------------------------------------

  function SampleNotes(id: SampleIdentity): seq<(string, Value)> {
    [("sample.path", Str(id.path)), ("sample.sha256", Str(id.sha256)), ("sample.size_bytes", Int(id.sizeBytes))]
  }

  function PlanNotes(options: string, errors: seq<Value>): seq<(string, Value)> {
    [("cape_submission.options", Str(options)), ("cape_submission.network_mode_enforced", Str("none")),
     ("cape_submission.validation_errors", List(errors))]
  }

  method BindSampleFile(a: AttemptState, file: OpenedFile) returns (raised: bool)
    requires a.Valid() && a.ctx.tasks == []
    modifies a`doc, a`refusals, a`clock, a.ctx
    ensures a.Valid() && a.ctx.tasks == [] && a.ctx.reports == old(a.ctx.reports) && a.ctx.lease == old(a.ctx.lease)
    ensures SameFacts(old(a.doc), a.doc)
    ensures raised <==>
              old(a.ctx.sample).Some? || !file.Regular? || !AllAccepted(SampleNotes(file.identity), a.alnum)
    ensures !raised ==>
              a.ctx.sample == Some(file.identity) && a.doc == WriteAll(old(a.doc), SampleNotes(file.identity))
  {
    hide TasksSound, ConfirmationsSound, ReportsSound, BindCount, HashMatches, SameFacts, SameSignals, AllAccepted,
         WriteAll, CheckWrite, VALID_ROUTES;
    FactsStay(a.doc);
    var now := a.Tick();
    ghost var before := a.ctx.State();
    var bound := a.ctx.Bind(file, now);
    StepKeepsSound(before, DoBind(file), now);
    if bound.Refused? {
      return true;
    }
    var id := bound.value;
    var ok := a.SetAll([("sample.path", Str(id.path)), ("sample.sha256", Str(id.sha256)),
                        ("sample.size_bytes", Int(id.sizeBytes))]);
    raised := !ok;
  }

  /** The specification after Scout, and what its proposal is taken for. */
  function AfterScout(s: AttemptScript, id: SampleIdentity, doc: Fields, alnum: char -> bool): Fields {
    SpecAfter("Scout", s.scout, WriteAll(doc, SampleNotes(id)), alnum)
  }

  function DecidedRoute(doc: Fields): Option<string> {
    var mode := DecidedMode(Read(doc, PROPOSED));
    if mode.Some? then Some(ModeToRoute(mode.value)) else None
  }

  /** What each proposal leads to: only the three words that ask for a network get one, and a proposal that is a list or
      a dictionary cannot be looked up. */
  lemma OnlyNamedModesGetANetwork(doc: Fields)
    ensures var p, route := Read(doc, "network.proposed_mode"), DecidedRoute(doc);
            && (route.None? <==> p.Some? && (p.value.List? || p.value.Obj?))
            && (route == Some("inetsim") <==> p == Some(Str("fakenet")))
            && (route == Some("internet") <==> p == Some(Str("nat")) || p == Some(Str("internet")))
            && (route.Some? && route.value !in ["inetsim", "internet"] ==> route == Some("drop"))
  {
    hide Read;
    var p := Read(doc, PROPOSED);
    assert "inetsim" != "internet" && "drop" != "inetsim" && "drop" != "internet" by {
      assert |"inetsim"| == 7 && |"internet"| == 8 && |"drop"| == 4;
    }
    assert |"fakenet"| == 7 && |"nat"| == 3 && |"isolated"| == 8 && "isolated"[0] == 'i' && "isolated"[1] == 's';
    assert "internet"[1] == 'n';
  }

  /** The notes on the route Scout's proposal is taken for. */
  function RouteNotes(doc: Fields): seq<(string, Value)> {
    var mode := DecidedMode(Read(doc, PROPOSED));
    if mode.Some? then NetworkNotes(mode.value, ModeToRoute(mode.value), ModeToRoute(mode.value)) else []
  }

  /** The specification the Executor starts from. */
  function Planned(s: AttemptScript, id: SampleIdentity, doc: Fields, alnum: char -> bool): Fields {
    var scouted := AfterScout(s, id, doc, alnum);
    var routed := WriteAll(scouted, RouteNotes(scouted));
    WriteAll(SpecAfter("Architect", s.architect, routed, alnum), PlanNotes(s.options, s.planErrors))
  }

  /** A pinned sample, a Scout whose proposal the backend supports, and an Architect whose plan has no errors. */
  predicate Plannable(s: AttemptScript, id: SampleIdentity, doc: Fields, alnum: char -> bool) {
    var scouted := AfterScout(s, id, doc, alnum);
    && s.pinned == Some(Regular(id)) && AllAccepted(SampleNotes(id), alnum)
    && s.scoutFinished
    && DecidedRoute(scouted).Some? && DecidedRoute(scouted).value in s.supportedRoutes
    && AllAccepted(RouteNotes(scouted), alnum)
    && s.architectFinished && s.planErrors == [] && AllAccepted(PlanNotes(s.options, s.planErrors), alnum)
  }

  /** The pinned sample, if a usable one was given. */
  function Pinned(s: AttemptScript): Option<SampleIdentity> {
    if s.pinned.Some? && s.pinned.value.Regular? then Some(s.pinned.value.identity) else None
  }

  /** The pinned sample is bound before Scout runs, a downloaded one after it. */
  method Scouting(a: AttemptState, s: AttemptScript) returns (ok: bool)
    requires a.Valid() && a.ctx.tasks == [] && a.ctx.reports == []
    modifies a`doc, a`refusals, a`clock, a`delivery, a.ctx
    ensures a.Valid() && a.ctx.tasks == [] && a.ctx.reports == [] && a.ctx.lease == old(a.ctx.lease)
    ensures SameFacts(old(a.doc), a.doc)
    ensures ok ==> a.ctx.sample.Some? && s.scoutFinished
    ensures old(a.ctx.sample).None? && Pinned(s).Some? && AllAccepted(SampleNotes(Pinned(s).value), a.alnum)
            && s.scoutFinished ==>
              ok && a.ctx.sample == Pinned(s) && a.doc == AfterScout(s, Pinned(s).value, old(a.doc), a.alnum)
  {
    hide Sound, HashMatches, SameFacts, SameSignals, Read, AllAccepted, WriteAll, SpecAfter, ToolAllowed, Receipts,
         Recorded, AllSpare, SampleNotes;
    FactsStay(a.doc);
    if s.pinned.Some? {
      var raised := BindSampleFile(a, s.pinned.value);
      if raised {
        return false;
      }
    }
    OnlyExecutorSubmits("Scout");
    ghost var d := a.doc;
    a.AgentStage("Scout", s.scout);
    FactsChain(old(a.doc), d, a.doc);
    if a.ctx.sample.None? && s.downloaded.Some? {
      d := a.doc;
      var raised := BindSampleFile(a, s.downloaded.value);
      FactsChain(old(a.doc), d, a.doc);
      if raised {
        return false;
      }
    }
    ok := s.scoutFinished && a.ctx.sample.Some?;
  }

  /** Scout, the network policy and the Architect: everything before the first submission. */
  method Prepare(a: AttemptState, s: AttemptScript) returns (ok: bool)
    requires a.Valid() && a.ctx.tasks == [] && a.ctx.reports == []
    modifies a`doc, a`refusals, a`clock, a`delivery, a.ctx
    ensures a.Valid() && a.ctx.tasks == [] && a.ctx.reports == [] && a.ctx.lease == old(a.ctx.lease)
    ensures SameFacts(old(a.doc), a.doc)
    ensures ok ==> a.ctx.sample.Some? && s.scoutFinished && s.architectFinished && s.planErrors == []
    ensures old(a.ctx.sample).None? && Pinned(s).Some? && Plannable(s, Pinned(s).value, old(a.doc), a.alnum) ==>
              && ok && a.ctx.sample == Pinned(s)
              && a.doc == Planned(s, Pinned(s).value, old(a.doc), a.alnum)
              && DecidedRoute(AfterScout(s, Pinned(s).value, old(a.doc), a.alnum)) == Some(a.ctx.routePolicy)
  {
    hide Sound, HashMatches, SameFacts, SameSignals, Read, AllAccepted, WriteAll, SpecAfter, NetworkNotes, DecidedMode,
         ModeToRoute, ToolAllowed, Receipts, Recorded, AllSpare, AfterScout, SampleNotes;
    var ready := Scouting(a, s);
    if !ready {
      return false;
    }
    ghost var d := a.doc;
    var raised := PromoteNetworkPolicy(a, s.supportedRoutes);
    FactsChain(old(a.doc), d, a.doc);
    if raised {
      return false;
    }
    OnlyExecutorSubmits("Architect");
    d := a.doc;
    a.AgentStage("Architect", s.architect);
    FactsChain(old(a.doc), d, a.doc);
    d := a.doc;
    var noted := a.SetAll([("cape_submission.options", Str(s.options)),
                           ("cape_submission.network_mode_enforced", Str("none")),
                           ("cape_submission.validation_errors", List(s.planErrors))]);
    FactsChain(old(a.doc), d, a.doc);
    ok := noted && s.architectFinished && s.planErrors == [];
  }

  /** The gates between the Executor and the Analyst. */
  predicate GatesOpen(l: Ledger, doc: Fields) {
    && !Truthy(Read(doc, FAILED))
    && VerifiedReport(l).Some?
    && RouteVerified(l, VerifiedReport(l).value.taskId)
    && Read(doc, QUALITY).Some? && Read(doc, QUALITY).value.Obj? && Says(Read(doc, QUALITY).value.fields, "has_signal")
  }

  /** What the ledger's verified report brings with it. */
  lemma VerifiedReportEvidence(a: AttemptState)
    requires a.Valid() && VerifiedReport(a.ctx.State()).Some?
             && RouteVerified(a.ctx.State(), VerifiedReport(a.ctx.State()).value.taskId)
    ensures
      var l := a.ctx.State();
      var d := VerifiedReport(l).value;
      && d.targetMatches && l.sample.Some? && d.taskId in a.seenHash
      && HashMatches(l.sample.value.sha256, a.seenHash[d.taskId])
      && FindTask(l.tasks, d.taskId).Some? && FindTask(l.tasks, d.taskId).value.sampleSha256 == l.sample.value.sha256
      && l.confirmations[d.taskId].effective == Some(l.routePolicy)
  {
    hide HashMatches, Newest, BindCount;
    NewestIsNewest(a.ctx.reports);
  }

  lemma OwnedTaskIsPositive(l: Ledger, id: int)
    requires Sound(l) && OwnsTask(l, id)
    ensures id > 0
  {
    hide ConfirmationsSound, ReportsSound, BindCount;
  }

  /** From certification to evidence: the Analyst's report had to name the artefact's task to finish and
      the ledger's task to be promoted, so the two are one task. */
  lemma PromotedReportIsEvidence(a: AttemptState, task: int, report: Value, quality: Quality)
    requires a.Valid() && GatesOpen(a.ctx.State(), a.doc)
    requires Read(a.doc, QUALITY) == Some(Obj(quality)) && Says(quality, "verified") && !Invalid(quality)
    requires Read(a.doc, ARTEFACT) == Some(Int(task)) && a.qualityFor == Some(task)
    requires CompletionProblems(report, a.delivery, Some(task), a.text) == []
    requires CompletionProblems(report, a.delivery, VerifiedTask(a.ctx.State()), a.text) == []
    requires Read(a.doc, REPORT) == Some(Normalize(report))
    ensures Evidence(a, RecordOf(a.ctx.State()))
  {
    hide Read, Normalize, CompletionProblems, HashMatches, Newest, Sound, FindTask, Truthy;
    var v := VerifiedReport(a.ctx.State()).value;
    VerifiedReportEvidence(a);
    CompleteReportNamesTask(report, a.delivery, task, a.text);
    CompleteReportNamesTask(report, a.delivery, v.taskId, a.text);
  }

  /** `_finalise`: what success.json says. */
  function RecordOf(l: Ledger): SuccessRecord {
    SuccessRecord(if l.sample.Some? then l.sample.value.sha256 else "",
                  if VerifiedReport(l).Some? then VerifiedReport(l).value.taskId else 0,
                  if VerifiedReport(l).Some? then VerifiedReport(l).value.sha256 else "")
  }

  /** Wherever this Analyst starts with `task` expected, it finishes with a report that may be promoted. */
  ghost predicate Reports(s: AnalystScript, cfg: LlmClient.Config, task: int, alnum: char -> bool, text: TextTests)
    requires cfg.Valid()
  {
    forall start: Workspace, now: real, counts: LlmClient.Counters ::
      var (finished, end) := AnalystOutcome(s, cfg, Some(task), alnum, text, start, now, counts);
      finished && Promotable(AnalysisReport(end.doc), end.delivery, Some(task), text, alnum)
  }

  /** The task a favourable attempt certifies: that of its Executor's last receipt. */
  function LastReceiptOf(s: AttemptScript): Receipt {
    var receipts := Receipts([], s.executor.first);
    if receipts == [] then Receipt(0, None) else receipts[|receipts| - 1]
  }

  /** What makes an attempt succeed: a pinned sample and a plan without errors; a first Executor run whose last task
      came back on the decided route and whose report is good; and an Analyst that reports on that task. */
  ghost predicate Favourable(s: AttemptScript, doc: Fields, alnum: char -> bool, text: TextTests,
                             cfg: LlmClient.Config)
    requires cfg.Valid()
  {
    && Pinned(s).Some? && Plannable(s, Pinned(s).value, doc, alnum)
    && !Truthy(Read(doc, FAILED)) && !Truthy(Read(Planned(s, Pinned(s).value, doc, alnum), ADJUSTMENT))
    && (s.qemu || s.vm.Some?)
    && Promising(s.executor, Pinned(s).value.sha256, alnum)
    && LastReceiptOf(s).effective == DecidedRoute(AfterScout(s, Pinned(s).value, doc, alnum))
    && Reports(s.analyst, cfg, LastReceiptOf(s).id, alnum, text)
  }

  /** What success.json says then. */
  function FavourableRecord(s: AttemptScript): SuccessRecord {
    SuccessRecord(if Pinned(s).Some? then Pinned(s).value.sha256 else "", LastReceiptOf(s).id,
                  if s.executor.fetch.Fetched? then s.executor.fetch.stored.GetOr("") else "")
  }

  /** A route that came back as the policy says is confirmed. */
  lemma RouteComesBack(a: AttemptState, task: int)
    requires a.Valid() && EffectiveOf(a.ctx.confirmations, task) == Some(a.ctx.routePolicy)
    ensures RouteVerified(a.ctx.State(), task)
  {
    hide TasksSound, ReportsSound, BindCount, HashMatches;
  }

  /** After a good first stage every gate is open. */
  lemma GoodStageOpensGates(a: AttemptState, s: AttemptScript, sha: string, task: int, quality: Quality)
    requires a.Valid() && Certified(a, task, quality) && !Truthy(Read(a.doc, FAILED))
    requires task == LastReceiptOf(s).id && Promising(s.executor, sha, a.alnum)
    requires LastReceiptOf(s).effective == Some(a.ctx.routePolicy)
             && EffectiveOf(a.ctx.confirmations, task) == LastReceiptOf(s).effective
    requires quality == QualityOf(s.executor.fetch, sha) && s.executor.fetch.Fetched?
             && VerifiedAs(a.ctx.State(), task, s.executor.fetch.stored)
    ensures GatesOpen(a.ctx.State(), a.doc)
    ensures VerifiedTask(a.ctx.State()) == Some(task)
  {
    hide Sound, Read, Truthy, HashMatches, Newest, Receipts, AllSpare, AllAccepted, Says, FindTask;
    RouteComesBack(a, task);
    PromisingNeeds(s.executor, sha, a.alnum);
    AcceptableMeans(s.executor, sha, task, a.alnum);
    QualitySays(s.executor.fetch, sha);
  }

  /** The Analyst, and what it is promoted to: a success record when it finishes with a report that may be. */
  method Report(a: AttemptState, s: AttemptScript, client: LlmClient.LLMClient, ghost task: int,
                  ghost quality: Quality)
    returns (success: Option<SuccessRecord>)
    requires a.Valid() && GatesOpen(a.ctx.State(), a.doc) && client.cfg.Valid()
    requires Certified(a, task, quality) && Says(quality, "verified") && !Invalid(quality)
    modifies a`doc, a`refusals, a`delivery, client
    ensures success.Some? ==> Evidence(a, success.value)
    ensures VerifiedTask(a.ctx.State()) == Some(task) && Reports(s.analyst, client.cfg, task, a.alnum, a.text) ==>
              success == Some(RecordOf(a.ctx.State()))
  {
    hide Sound, HashMatches, SameFacts, Read, CompletionProblems, Normalize, Truthy, FindTask, Newest, Says, Invalid,
         Evidence, VerifiedReport, VerifiedTask, RouteVerified, AnalysisReport, ExpectedTask, RecordOf,
         AnalystOutcome, Promotable, GatesOpen, Certified, OwnsTask;
    ghost var d := a.doc;
    CertifiedApplies(a, task, quality);
    OwnedTaskIsPositive(a.ctx.State(), task);
    ArtefactIsExpected(a.doc, task);
    var stopped := AnalystStage(a, client, s.analyst);
    FactsApply(d, a.doc);
    ghost var report := AnalysisReport(a.doc);
    var promoted := PromoteReport(a, stopped);
    if !promoted {
      return None;
    }
    PromotableIsComplete(report, a.delivery, VerifiedTask(a.ctx.State()), a.text, a.alnum);
    GatesStayOpen(a.ctx.State(), d, a.doc);
    PromotedReportIsEvidence(a, task, report, quality);
    success := Some(RecordOf(a.ctx.State()));
  }

  lemma CertifiedApplies(a: AttemptState, task: int, quality: Quality)
    requires Certified(a, task, quality)
    ensures OwnsTask(a.ctx.State(), task) && Read(a.doc, ARTEFACT) == Some(Int(task))
    ensures Read(a.doc, QUALITY) == Some(Obj(quality)) && a.qualityFor == Some(task)
  {
  }

  lemma PromotableIsComplete(report: Value, delivery: Option<Value>, task: Option<int>, text: TextTests,
                             alnum: char -> bool)
    requires Promotable(report, delivery, task, text, alnum)
    ensures CompletionProblems(report, delivery, task, text) == []
  {
  }

  lemma GatesStayOpen(l: Ledger, d: Fields, d': Fields)
    requires GatesOpen(l, d) && Read(d', FAILED) == Read(d, FAILED) && Read(d', QUALITY) == Read(d, QUALITY)
    ensures GatesOpen(l, d')
  {
    hide Read, Newest, Truthy;
  }

  /** `_run_single_attempt` and the success rule of `_finalise`: whatever the agents and the backend do, a
      success record is written only with all its evidence; and a favourable attempt ends in one. */
  method RunAttempt(a: AttemptState, s: AttemptScript, client: LlmClient.LLMClient)
    returns (success: Option<SuccessRecord>)
    requires a.Valid() && a.ctx.tasks == [] && a.ctx.reports == [] && client.cfg.Valid()
    modifies a, a.ctx, client
    ensures success.Some? ==> Evidence(a, success.value)
    ensures old(a.ctx.sample).None? && old(a.ctx.lease).None? && Favourable(s, old(a.doc), a.alnum, a.text, client.cfg)
            ==> success == Some(FavourableRecord(s))
  {
    hide Sound, HashMatches, SameFacts, Read, Truthy, FindTask, Newest, Says, Invalid, Evidence, Plannable, Planned,
         AfterScout, DecidedRoute, Promising, Reports, GatesOpen, Receipts, QualityOf, LastReceiptOf, Certified,
         CheckWrite, AnalystOutcome, VerifiedReport;
    success := None;
    var prepared := Prepare(a, s);
    FactsApply(old(a.doc), a.doc);
    if !prepared {
      return;
    }
    var executor := new ExecutorAgent(a);
    var raised, finished, task, quality := executor.RunStage(s.qemu, s.vm, s.executor);
    ghost var favourable := old(a.ctx.sample.None? && a.ctx.lease.None?)
                            && Favourable(s, old(a.doc), a.alnum, a.text, client.cfg);
    if favourable {
      LastOfPromising(s, Pinned(s).value.sha256, a.alnum);
      GoodStageOpensGates(a, s, Pinned(s).value.sha256, task, quality);
    }
    if raised || !GatesOpen(a.ctx.State(), a.doc) {
      return;
    }
    GatesNeedNoFailure(a.ctx.State(), a.doc);
    assert finished;
    success := Report(a, s, client, task, quality);
  }

  lemma LastOfPromising(s: AttemptScript, sha: string, alnum: char -> bool)
    requires Promising(s.executor, sha, alnum)
    ensures Receipts([], s.executor.first) != []
    ensures LastReceiptOf(s) == Receipts([], s.executor.first)[|Receipts([], s.executor.first)| - 1]
  {
    PromisingNeeds(s.executor, sha, alnum);
  }

  lemma GatesNeedNoFailure(l: Ledger, doc: Fields)
    requires GatesOpen(l, doc)
    ensures Read(doc, FAILED) != Some(Bool(true))
  {
    hide Read;
  }

  lemma ArtefactIsExpected(doc: Fields, task: int)
    requires task > 0 && Read(doc, ARTEFACT) == Some(Int(task))
    ensures ExpectedTask(doc) == Some(task)
  {
    hide Read;
  }

  // ----------------------------------------------------------------------------------------
  // Attempts
  // ----------------------------------------------------------------------------------------

  ghost predicate FavourableAt(scripts: nat -> AttemptScript, initial: nat -> Fields, k: nat, alnum: char -> bool,
                               text: TextTests, cfg: LlmClient.Config)
    requires cfg.Valid()
  {
    Favourable(scripts(k), initial(k), alnum, text, cfg)
  }

  /** `run`: fresh state per attempt, stop at the first success; a favourable attempt is a success if it is reached. */
  method Run(maxAttempts: nat, scripts: nat -> AttemptScript, runIds: nat -> string, initial: nat -> Fields,
             alnum: char -> bool, text: TextTests, client: LlmClient.LLMClient)
    returns (ok: bool, attempts: seq<AttemptState>, success: Option<SuccessRecord>, failures: nat)
    requires maxAttempts >= 1 && client.cfg.Valid()
    modifies client
    ensures 1 <= |attempts| <= maxAttempts
    ensures ok <==> success.Some?
    ensures ok ==> Evidence(attempts[|attempts| - 1], success.value) && failures == |attempts| - 1
    ensures !ok ==> |attempts| == maxAttempts && failures == maxAttempts
    ensures forall k | 0 <= k < maxAttempts && FavourableAt(scripts, initial, k, alnum, text, client.cfg) ::
              ok && failures <= k
    ensures forall a | a in attempts :: fresh(a) && fresh(a.ctx)
  {
    hide Evidence, Favourable, Sound, HashMatches;
    attempts, success, failures, ok := [], None, 0, false;
    var attempt := 0;
    while attempt < maxAttempts && !ok
      invariant 0 <= attempt <= maxAttempts && |attempts| == attempt
      invariant attempt == 0 ==> !ok
      invariant ok <==> success.Some?
      invariant ok ==> attempt > 0 && Evidence(attempts[attempt - 1], success.value) && failures == attempt - 1
      invariant !ok ==> failures == attempt
      invariant forall k | 0 <= k < failures :: !FavourableAt(scripts, initial, k, alnum, text, client.cfg)
      invariant forall a | a in attempts :: fresh(a) && fresh(a.ctx)
      decreases maxAttempts - attempt, if ok then 0 else 1
    {
      var a := new AttemptState(runIds(attempt), initial(attempt), alnum, text);
      assert FavourableAt(scripts, initial, attempt, alnum, text, client.cfg)
        <==> Favourable(scripts(attempt), a.doc, a.alnum, a.text, client.cfg);
      success := RunAttempt(a, scripts(attempt), client);
      attempts := attempts + [a];
      attempt := attempt + 1;
      ok := success.Some?;
      if !ok {
        failures := failures + 1;
      }
    }
  }
}
