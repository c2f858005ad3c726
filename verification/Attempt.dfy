/** One attempt's shared state, and what an agent stage can do to it through its tools
    (src/core/agent_loop.py:1002-1183, 1537-1652). */
module Attempt {
  import opened Wrappers
  import opened SpecPolicy
  import opened SpecDocument
  import opened RunContext
  import opened ReportValidation

  // ----------------------------------------------------------------------------------------
  // The controller-owned facts the success decision rests on
  // ----------------------------------------------------------------------------------------

  const QUALITY := "executor.report_quality"
  const ARTEFACT := "pass2.artefacts.cape_report_task_id"
  const FAILED := "executor.validation_failed"
  const REPORT := "report"

  /** Every other key the controller writes during an attempt, but for the flag below. */
  const NOTES: set<string> := {
    "executor.report_sha256_verified", "executor.report_sha256_seen", "executor.report_fetch_error",
    "executor.validation_error", "executor.final_task_id", "executor.run_dir", "executor.corrections",
    "executor.passes_completed",
    "pass2.artefacts.cape_report", "pass2.artefacts.quarantined_report",
    "pass2.artefacts.quarantined_report_task_id",
    "cape_submission.pass1_task_id", "cape_submission.pass2_task_id", "cape_submission.actual",
    "cape_submission.validation_errors", "cape_submission.timeout", "cape_submission.options",
    "cape_submission.memory", "cape_submission.network_mode_enforced",
    "cape_submission.backend_capabilities", "cape_submission.available_machines",
    "sandbox.actual", "sample.path", "sample.sha256", "sample.size_bytes", "sample.source", "sample.repo_url",
    "network.mode", "network.route_enforced", "network.route_downgraded_from",
    "provenance.report_task_verified", "provenance.report_promoted", "provenance.report_problems"}

  const BOOKKEEPING := NOTES + {RETRY_DONE}

  /** Two further entries the controller acts on, which the Executor's agent may write itself. */
  const RETRY_DONE := "executor.empty_data_retry_done"
  const ADJUSTMENT := "pass1.adjustment_needed"

  predicate SameSignals(d: Fields, d': Fields) {
    Read(d', RETRY_DONE) == Read(d, RETRY_DONE) && Read(d', ADJUSTMENT) == Read(d, ADJUSTMENT)
  }

  /** The schema accepts every one of these controller writes. */
  predicate AllAccepted(notes: seq<(string, Value)>, alnum: char -> bool) {
    forall n | n in notes :: CheckWrite(n.0, n.1, CONTROLLER, alnum) == Accepted
  }

  function WriteAll(d: Fields, notes: seq<(string, Value)>): Fields
    decreases |notes|
  {
    if notes == [] then d else WriteAll(Write(d, notes[0].0, notes[0].1), notes[1..])
  }

  lemma {:induction false} WriteAllTogether(d: Fields, a: seq<(string, Value)>, b: seq<(string, Value)>)
    ensures WriteAll(d, a + b) == WriteAll(WriteAll(d, a), b)
    decreases |a|
  {
    hide Write;
    if a == [] {
      assert a + b == b;
    } else {
      assert (a + b)[0] == a[0] && (a + b)[1..] == a[1..] + b;
      WriteAllTogether(Write(d, a[0].0, a[0].1), a[1..], b);
    }
  }

  predicate SameFacts(d: Fields, d': Fields) {
    && Read(d', QUALITY) == Read(d, QUALITY)
    && Read(d', ARTEFACT) == Read(d, ARTEFACT)
    && Read(d', FAILED) == Read(d, FAILED)
    && Read(d', REPORT) == Read(d, REPORT)
  }

  /** The two keys, each closed by a dot, differ at position `i`. */
  predicate SplitAt(x: string, y: string, i: nat) {
    i <= |x| && i <= |y| && (if i < |x| then x[i] else '.') != (if i < |y| then y[i] else '.')
  }

  predicate Split(x: string, y: string) {
    SplitAt(x, y, 3) || SplitAt(x, y, 16) || SplitAt(x, y, 20) || SplitAt(x, y, 27)
  }

  lemma SplitIsUnrelated(x: string, y: string)
    requires Split(x, y)
    ensures !Related(x, y)
  {
    SplitAnywhereIsUnrelated(x, y);
  }

  lemma ApartFromQuality()
    ensures forall k | k in BOOKKEEPING :: Split(k, QUALITY)
  {
  }

  lemma ApartFromArtefact()
    ensures forall k | k in BOOKKEEPING :: Split(k, ARTEFACT)
  {
  }

  lemma ApartFromFailed()
    ensures forall k | k in BOOKKEEPING :: Split(k, FAILED)
  {
  }

  lemma ApartFromReport()
    ensures forall k | k in BOOKKEEPING :: Split(k, REPORT)
  {
  }

  /** A bookkeeping write leaves every tracked fact as it was. */
  lemma BookkeepingKeepsFacts(d: Fields, key: string, value: Value)
    requires key in BOOKKEEPING
    ensures SameFacts(d, Write(d, key, value))
  {
    hide Write, Read;
    ApartFromQuality();
    ApartFromArtefact();
    ApartFromFailed();
    ApartFromReport();
    SplitIsUnrelated(key, QUALITY);
    SplitIsUnrelated(key, ARTEFACT);
    SplitIsUnrelated(key, FAILED);
    SplitIsUnrelated(key, REPORT);
    WriteLaws(d, key, value, QUALITY);
    WriteLaws(d, key, value, ARTEFACT);
    WriteLaws(d, key, value, FAILED);
    WriteLaws(d, key, value, REPORT);
  }

  lemma NoteStarts(k: string)
    requires k in NOTES
    ensures k != "" && (k[0] != 'e' || (|k| > 9 && k[9] != 'e'))
  {
  }

  lemma RetryStarts()
    ensures |RETRY_DONE| == 30 && RETRY_DONE[0] == 'e' && RETRY_DONE[9] == 'e'
  {
  }

  lemma ApartFromRetry(k: string)
    requires k in NOTES
    ensures SplitAt(k, RETRY_DONE, 0) || SplitAt(k, RETRY_DONE, 9)
  {
    hide NOTES;
    NoteStarts(k);
    RetryStarts();
  }

  lemma ApartFromAdjustment()
    ensures forall k | k in BOOKKEEPING :: SplitAt(k, ADJUSTMENT, 4)
  {
  }

  /** Bookkeeping writes leave the two signals alone, but for the flag's own. */
  lemma BookkeepingKeepsSignals(d: Fields, key: string, value: Value)
    requires key in NOTES
    ensures SameSignals(d, Write(d, key, value))
  {
    hide Write, Read, SplitAt, NOTES;
    ApartFromRetry(key);
    ApartFromAdjustment();
    SplitAnywhereIsUnrelated(key, RETRY_DONE);
    SplitAnywhereIsUnrelated(key, ADJUSTMENT);
    WriteLaws(d, key, value, RETRY_DONE);
    WriteLaws(d, key, value, ADJUSTMENT);
  }

  lemma FactWriteKeepsSignals(d: Fields, key: string, value: Value)
    requires key in {QUALITY, ARTEFACT, FAILED, REPORT}
    ensures SameSignals(d, Write(d, key, value))
  {
    hide Write, Read;
    assert SplitAt(QUALITY, RETRY_DONE, 9) && SplitAt(FAILED, RETRY_DONE, 9);
    assert SplitAt(ARTEFACT, RETRY_DONE, 0) && SplitAt(REPORT, RETRY_DONE, 0);
    assert SplitAt(QUALITY, ADJUSTMENT, 0) && SplitAt(FAILED, ADJUSTMENT, 0);
    assert SplitAt(ARTEFACT, ADJUSTMENT, 4) && SplitAt(REPORT, ADJUSTMENT, 0);
    SplitAnywhereIsUnrelated(key, RETRY_DONE);
    SplitAnywhereIsUnrelated(key, ADJUSTMENT);
    WriteLaws(d, key, value, RETRY_DONE);
    WriteLaws(d, key, value, ADJUSTMENT);
  }

  lemma SignalsChain(a: Fields, b: Fields, c: Fields)
    requires SameSignals(a, b) && SameSignals(b, c)
    ensures SameSignals(a, c)
  {
  }

  lemma SignalsStay(d: Fields)
    ensures SameSignals(d, d)
  {
  }

  lemma SignalsApply(d: Fields, d': Fields)
    requires SameSignals(d, d')
    ensures Read(d', RETRY_DONE) == Read(d, RETRY_DONE) && Read(d', ADJUSTMENT) == Read(d, ADJUSTMENT)
  {
  }

  /** Writing one tracked fact leaves the other three as they were. */
  lemma FactsAreApart(d: Fields, key: string, value: Value)
    requires key in {QUALITY, ARTEFACT, FAILED, REPORT}
    ensures Read(Write(d, key, value), key) == Some(value)
    ensures forall k | k in {QUALITY, ARTEFACT, FAILED, REPORT} && k != key ::
            Read(Write(d, key, value), k) == Read(d, k)
  {
    hide Write, Read;
    assert SplitAt(QUALITY, FAILED, 9) && SplitAt(FAILED, QUALITY, 9);
    assert SplitAt(QUALITY, ARTEFACT, 0) && SplitAt(ARTEFACT, QUALITY, 0);
    assert SplitAt(QUALITY, REPORT, 0) && SplitAt(REPORT, QUALITY, 0);
    assert SplitAt(FAILED, ARTEFACT, 0) && SplitAt(ARTEFACT, FAILED, 0);
    assert SplitAt(FAILED, REPORT, 0) && SplitAt(REPORT, FAILED, 0);
    assert SplitAt(ARTEFACT, REPORT, 3) && SplitAt(REPORT, ARTEFACT, 3);
    forall k | k in {QUALITY, ARTEFACT, FAILED, REPORT} && k != key
      ensures Read(Write(d, key, value), k) == Read(d, k)
    {
      SplitAnywhereIsUnrelated(key, k);
      WriteLaws(d, key, value, k);
    }
    WriteLaws(d, key, value, key);
  }

  lemma KeysDiffer()
    ensures QUALITY != ARTEFACT && QUALITY != FAILED && QUALITY != REPORT
    ensures ARTEFACT != FAILED && ARTEFACT != REPORT && FAILED != REPORT
  {
    assert |QUALITY| == 23 && |ARTEFACT| == 35 && |FAILED| == 26 && |REPORT| == 6;
  }

  lemma SplitAnywhereIsUnrelated(x: string, y: string)
    requires exists i: nat :: SplitAt(x, y, i)
    ensures !Related(x, y)
  {
    var i: nat :| SplitAt(x, y, i);
    assert i < |x| ==> (x + ".")[i] == x[i];
    assert i < |y| ==> (y + ".")[i] == y[i];
  }

  lemma OwnedFact(j: nat, name: string, key: string)
    requires j < |CONTROLLER_OWNED|
    requires match CONTROLLER_OWNED[j]
             case Under(head, names) => name in names && key == head + "." + name
             case Root(head) => key == head
    ensures OwnedByController(key)
  {
    hide AnyLists, AnyListsPrefixOf;
    ListedByRow(CONTROLLER_OWNED, CONTROLLER_OWNED[j], key);
  }

  lemma QualityAndFailedAreOwned()
    ensures OwnedByController(QUALITY) && OwnedByController(FAILED)
  {
    hide OwnedByController;
    assert "executor" + "." + "report_quality" == QUALITY;
    assert "executor" + "." + "validation_failed" == FAILED;
    OwnedFact(8, "report_quality", QUALITY);
    OwnedFact(8, "validation_failed", FAILED);
  }

  lemma ArtefactIsOwned()
    ensures OwnedByController(ARTEFACT)
  {
    hide OwnedByController;
    assert "pass2" + "." + "artefacts.cape_report_task_id" == ARTEFACT;
    OwnedFact(9, "artefacts.cape_report_task_id", ARTEFACT);
  }

  lemma ReportIsOwned()
    ensures OwnedByController(REPORT)
  {
    hide OwnedByController;
    OwnedFact(2, "", REPORT);
  }

  /** No agent write changes a tracked fact. */
  lemma AgentKeepsFacts(d: Fields, op: AgentWrite, alnum: char -> bool)
    requires op.actor != CONTROLLER
    ensures SameFacts(d, AgentStep(d, op, alnum))
  {
    hide OwnedByController, AgentStep, Read;
    QualityAndFailedAreOwned();
    ArtefactIsOwned();
    ReportIsOwned();
    AgentStepKeepsOwned(d, op, alnum, QUALITY);
    AgentStepKeepsOwned(d, op, alnum, FAILED);
    AgentStepKeepsOwned(d, op, alnum, ARTEFACT);
    AgentStepKeepsOwned(d, op, alnum, REPORT);
  }

  // ----------------------------------------------------------------------------------------
  // Tools
  // ----------------------------------------------------------------------------------------

  const COMMON_TOOLS: set<string> := {
    "read_spec", "update_spec", "append_spec", "read_file", "write_file", "log_decision", "log_observation", "finish"}

  function RoleTools(role: string): set<string> {
    if role == "Scout" then COMMON_TOOLS + {"analyze_sample", "fetch_url", "clone_repo", "mb_lookup", "query_json"}
    else if role == "Architect" then COMMON_TOOLS + {"analyze_sample", "cape_service_check", "query_json"}
    else if role == "Executor" then
      COMMON_TOOLS + {"analyze_sample", "query_json", "cape_service_check", "cape_vm_start", "cape_submit",
                      "cape_status", "cape_fetch_report"}
    else if role == "Analyst" then COMMON_TOOLS + {"analyze_sample", "query_json"}
    else {}
  }

  predicate ToolAllowed(role: string, tool: string) {
    tool == "finish" || tool in RoleTools(role)
  }

  lemma OnlyExecutorSubmits(role: string)
    requires role != "Executor"
    ensures !ToolAllowed(role, "cape_submit")
  {
  }

  lemma ExecutorSubmits()
    ensures ToolAllowed("Executor", "cape_submit")
  {
  }

  /** What a backend answers to a submission: any value as the task identifier, any route read-back.
      `details` are the two mirrors of the effective configuration, when the backend reports one. */
  datatype SubmitReply =
    | SubmitFailed
    | Submitted(taskId: Value, machine: Option<string>, effective: Option<string>, details: Option<(Value, Value)>)

  /** One tool call of an agent, with what the world answers. Tools without an effect on the
      specification, the ledger or the delivered report are `Other`. */
  datatype AgentAction =
    | UpdateSpec(key: string, value: Value)
    | AppendSpec(key: string, value: Value)
    | CapeSubmit(reply: SubmitReply)
    | DeliverReport(content: Option<Value>)
    | Other(tool: string)

  /** An accepted submission, and the route that was read back for it. */
  datatype Receipt = Receipt(id: int, effective: Option<string>)

  /** The receipt a call adds beside the tasks `ids`, if it adds one. */
  function ReceiptOf(ids: seq<int>, action: AgentAction): seq<Receipt> {
    if action.CapeSubmit? && action.reply.Submitted? && Admits(ids, action.reply.taskId) then
      [Receipt(action.reply.taskId.i, action.reply.effective)]
    else []
  }

  function ReceiptIds(receipts: seq<Receipt>): seq<int> {
    seq(|receipts|, i requires 0 <= i < |receipts| => receipts[i].id)
  }

  /** The receipts of a list of calls: each submission with a new admissible identifier, as it comes. */
  function Receipts(ids: seq<int>, actions: seq<AgentAction>): seq<Receipt>
    decreases |actions|
  {
    if actions == [] then []
    else
      var here := ReceiptOf(ids, actions[0]);
      here + Receipts(ids + ReceiptIds(here), actions[1..])
  }

  /** What the ledger holds of the tasks from number `n` on. */
  function Recorded(tasks: seq<TaskReceipt>, confirmations: map<int, RouteConfirmation>, n: nat): seq<Receipt>
    requires n <= |tasks|
  {
    seq(|tasks| - n, i requires 0 <= i < |tasks| - n =>
      Receipt(tasks[n + i].taskId,
              if tasks[n + i].taskId in confirmations then confirmations[tasks[n + i].taskId].effective else None))
  }

  /** The confirmations of these tasks are the same. */
  predicate SameConfirmations(ids: seq<int>, c: map<int, RouteConfirmation>, c': map<int, RouteConfirmation>) {
    forall k | k in ids :: (k in c' <==> k in c) && (k in c ==> c'[k] == c[k])
  }

  /** The call writes no entry related to `key`. */
  predicate Spares(action: AgentAction, key: string) {
    match action
    case UpdateSpec(k, _) => !Related(k, key)
    case AppendSpec(k, _) => !Related(k, key)
    case _ => true
  }

  predicate AllSpare(actions: seq<AgentAction>, key: string) {
    forall a | a in actions :: Spares(a, key)
  }

  /** What a call of a role that cannot submit makes of the specification. */
  function SpecAfterCall(role: string, action: AgentAction, doc: Fields, alnum: char -> bool): Fields {
    match action
    case UpdateSpec(key, value) =>
      if ToolAllowed(role, "update_spec") then AgentStep(doc, SetOp(role, key, value), alnum) else doc
    case AppendSpec(key, value) =>
      if ToolAllowed(role, "append_spec") then AgentStep(doc, AppendOp(role, key, value), alnum) else doc
    case _ => doc
  }

  function SpecAfter(role: string, actions: seq<AgentAction>, doc: Fields, alnum: char -> bool): Fields
    decreases |actions|
  {
    if actions == [] then doc
    else SpecAfter(role, actions[1..], SpecAfterCall(role, actions[0], doc, alnum), alnum)
  }

  lemma CallSpares(role: string, action: AgentAction, doc: Fields, alnum: char -> bool, key: string)
    requires Spares(action, key)
    ensures Read(SpecAfterCall(role, action, doc, alnum), key) == Read(doc, key)
  {
    hide CheckWrite, Read, Write, Related;
    match action
    case UpdateSpec(k, value) => WriteLaws(doc, k, value, key);
    case AppendSpec(k, value) =>
      var list := Extended(Read(doc, k), value);
      if list.Some? {
        WriteLaws(doc, k, list.value, key);
      }
    case _ =>
  }

  /** The backend compares hashes after stripping blanks and lowering case. */
  function Lower(s: string): string {
    if s == "" then "" else [if 'A' <= s[0] <= 'Z' then (s[0] as int + 32) as char else s[0]] + Lower(s[1..])
  }

  predicate Blank(c: char) {
    c == ' ' || c == '\t' || c == '\n' || c == '\r' || c == '\U{0b}' || c == '\U{0c}'
  }

  function StripLeft(s: string): string {
    if s != "" && Blank(s[0]) then StripLeft(s[1..]) else s
  }

  function StripRight(s: string): string {
    if s != "" && Blank(s[|s| - 1]) then StripRight(s[..|s| - 1]) else s
  }

  predicate HashMatches(expected: string, seen: string) {
    expected != "" && Lower(StripRight(StripLeft(seen))) == Lower(StripRight(StripLeft(expected)))
  }

  ghost predicate AllBlank(s: string) {
    forall i | 0 <= i < |s| :: s[i] in " \t\n\r\U{0b}\U{0c}"
  }

  /** The text between the blanks around it. */
  ghost predicate IsCore(s: string, before: string, core: string, after: string) {
    && s == before + core + after && AllBlank(before) && AllBlank(after)
    && (core != "" ==> core[0] !in " \t\n\r\U{0b}\U{0c}" && core[|core| - 1] !in " \t\n\r\U{0b}\U{0c}")
  }

  /** One character is the other, or a letter in the other case. */
  predicate SameLetter(c: char, d: char) {
    || c == d || ('A' <= c <= 'Z' && d as int == c as int + 32) || ('A' <= d <= 'Z' && c as int == d as int + 32)
  }

  lemma {:induction false} LowersEach(s: string)
    ensures |Lower(s)| == |s|
    ensures forall i | 0 <= i < |s| ::
              Lower(s)[i] == if 'A' <= s[i] <= 'Z' then (s[i] as int + 32) as char else s[i]
  {
    if s != "" {
      LowersEach(s[1..]);
    }
  }

  lemma {:induction false} StripsRight(core: string, after: string)
    requires AllBlank(after) && (core != "" ==> !Blank(core[|core| - 1]))
    ensures StripRight(core + after) == core
    decreases |after|
  {
    if after == "" {
      assert core + after == core;
    } else {
      var n := |after| - 1;
      assert (core + after)[..|core + after| - 1] == core + after[..n];
      StripsRight(core, after[..n]);
    }
  }

  lemma {:induction false} StripsLeft(before: string, rest: string)
    requires AllBlank(before) && (rest != "" ==> !Blank(rest[0]))
    ensures StripLeft(before + rest) == rest
    decreases |before|
  {
    if before == "" {
      assert before + rest == rest;
    } else {
      assert (before + rest)[1..] == before[1..] + rest;
      StripsLeft(before[1..], rest);
    }
  }

  lemma {:induction false} StripsBlanks(s: string)
    requires AllBlank(s)
    ensures StripLeft(s) == ""
    decreases |s|
  {
    if s != "" {
      StripsBlanks(s[1..]);
    }
  }

  lemma StripsToCore(s: string, before: string, core: string, after: string)
    requires IsCore(s, before, core, after)
    ensures StripRight(StripLeft(s)) == core
  {
    if core == "" {
      StripsBlanks(s);
    } else {
      assert s == before + (core + after);
      StripsLeft(before, core + after);
      StripsRight(core, after);
    }
  }

  /** Two hashes match if and only if one is expected and, between the blanks around them, they are the same
      characters but for the case of letters. */
  lemma HashesMatch(expected: string, seen: string, b: string, x: string, a: string, d: string, y: string, c: string)
    requires IsCore(expected, b, x, a) && IsCore(seen, d, y, c)
    ensures HashMatches(expected, seen) <==>
              expected != "" && |x| == |y| && forall i | 0 <= i < |x| :: SameLetter(x[i], y[i])
  {
    StripsToCore(expected, b, x, a);
    StripsToCore(seen, d, y, c);
    LowersEach(x);
    LowersEach(y);
    if |x| == |y| && (forall i | 0 <= i < |x| :: SameLetter(x[i], y[i])) {
      assert Lower(x) == Lower(y);
    }
    if Lower(x) == Lower(y) {
      forall i | 0 <= i < |x| ensures SameLetter(x[i], y[i]) {
        assert Lower(x)[i] == Lower(y)[i];
      }
    }
  }

  /** The state of one attempt. Ghost fields remember which task the quality record was computed for, which target
      hash the report recorded for a task showed, and how many of the controller's own writes were refused. */
  class AttemptState {
    const ctx: RunContext
    const alnum: char -> bool
    const text: TextTests
    var doc: Fields
    var delivery: Option<Value>
    var clock: real
    ghost var qualityFor: Option<int>
    ghost var seenHash: map<int, string>
    ghost var refusals: nat

    ghost predicate Valid()
      reads this, ctx
    {
      && Sound(ctx.State())
      && (forall t | t in ctx.tasks :: t.route == ctx.routePolicy)
      && (forall d | d in ctx.reports :: d.fetchedAt <= clock)
      && (forall d | d in ctx.reports && d.targetMatches ::
            ctx.sample.Some? && d.taskId in seenHash && HashMatches(ctx.sample.value.sha256, seenHash[d.taskId]))
    }

    constructor (runId: string, doc: Fields, alnum: char -> bool, text: TextTests)
      ensures Valid() && fresh(ctx) && ctx.tasks == [] && ctx.reports == [] && ctx.confirmations == map[]
              && ctx.sample.None?
      ensures this.doc == doc && this.alnum == alnum && this.text == text && delivery == None
              && ctx.lease.None?
    {
      var c := new RunContext(runId, 0.0);
      ctx := c;
      this.doc, this.alnum, this.text, clock := doc, alnum, text, 0.0;
      delivery := None;
      qualityFor, seenHash, refusals := None, map[], 0;
      new;
      FreshLedgerIsSound(runId, 0.0, []);
    }

    /** Reading the clock: time moves on by an unknown amount. */
    method Tick() returns (now: real)
      modifies this`clock
      ensures now == clock > old(clock)
    {
      var elapsed: real := *;
      now := clock + if elapsed > 0.0 then elapsed else 1.0;
      clock := now;
    }

    /** `spec.set(..., actor="controller")`: the schema applies, the ACL does not. */
    method Set(key: string, value: Value) returns (ok: bool)
      modifies this`doc, this`refusals
      ensures ok <==> CheckWrite(key, value, CONTROLLER, alnum) == Accepted
      ensures doc == if ok then Write(old(doc), key, value) else old(doc)
      ensures refusals == old(refusals) + if ok then 0 else 1
    {
      var step := SetStep(doc, key, value, CONTROLLER, alnum);
      doc := step.0;
      ok := step.1 == Accepted;
      refusals := refusals + if ok then 0 else 1;
    }

    method SetBookkeeping(key: string, value: Value) returns (ok: bool)
      requires key in BOOKKEEPING
      modifies this`doc, this`refusals
      ensures refusals == old(refusals) + if ok then 0 else 1
      ensures SameFacts(old(doc), doc)
      ensures key in NOTES ==> SameSignals(old(doc), doc)
      ensures ok <==> CheckWrite(key, value, CONTROLLER, alnum) == Accepted
      ensures doc == if ok then Write(old(doc), key, value) else old(doc)
    {
      hide NOTES, SameFacts, SameSignals, CheckWrite;
      ok := Set(key, value);
      FactsStay(doc);
      SignalsStay(doc);
      if ok {
        BookkeepingKeepsFacts(old(doc), key, value);
        if key in NOTES {
          BookkeepingKeepsSignals(old(doc), key, value);
        }
      }
    }

    /** Controller writes in order; the first refused one raises and the rest are not made. */
    method SetAll(notes: seq<(string, Value)>) returns (ok: bool)
      requires forall n | n in notes :: n.0 in NOTES
      modifies this`doc, this`refusals
      ensures refusals == old(refusals) + if ok then 0 else 1
      ensures SameFacts(old(doc), doc) && SameSignals(old(doc), doc)
      ensures ok <==> AllAccepted(notes, alnum)
      ensures ok ==> doc == WriteAll(old(doc), notes)
    {
      hide SameFacts, SameSignals, NOTES, CheckWrite, Write;
      FactsStay(doc);
      SignalsStay(doc);
      var i := 0;
      while i < |notes|
        invariant 0 <= i <= |notes| && refusals == old(refusals)
        invariant SameFacts(old(doc), doc) && SameSignals(old(doc), doc)
        invariant AllAccepted(notes[..i], alnum)
        invariant WriteAll(doc, notes[i..]) == WriteAll(old(doc), notes)
      {
        ghost var d := doc;
        assert notes[i] in notes;
        ok := SetBookkeeping(notes[i].0, notes[i].1);
        FactsChain(old(doc), d, doc);
        SignalsChain(old(doc), d, doc);
        if !ok {
          return false;
        }
        assert notes[..i + 1] == notes[..i] + [notes[i]];
        assert notes[i..][1..] == notes[i + 1..];
        i := i + 1;
      }
      assert notes[..i] == notes;
      ok := true;
    }

    /** A controller write of one tracked fact. */
    method SetFact(key: string, value: Value) returns (ok: bool)
      requires key in {QUALITY, ARTEFACT, FAILED, REPORT}
      modifies this`doc, this`refusals
      ensures refusals == old(refusals) + if ok then 0 else 1
      ensures ok ==> Read(doc, key) == Some(value)
      ensures forall k | k in {QUALITY, ARTEFACT, FAILED, REPORT} && k != key :: Read(doc, k) == Read(old(doc), k)
      ensures ok <==> CheckWrite(key, value, CONTROLLER, alnum) == Accepted
      ensures !ok ==> doc == old(doc)
      ensures SameSignals(old(doc), doc)
    {
      hide CheckWrite, Read, Write, SameSignals;
      ok := Set(key, value);
      SignalsStay(doc);
      if ok {
        FactsAreApart(old(doc), key, value);
        FactWriteKeepsSignals(old(doc), key, value);
      }
    }

    /** `executor.report_quality`, for the report of `task`. */
    method SetQuality(task: int, quality: Fields) returns (ok: bool)
      modifies this`doc, this`refusals, this`qualityFor
      ensures refusals == old(refusals) + if ok then 0 else 1
      ensures ok ==> Read(doc, QUALITY) == Some(Obj(quality)) && qualityFor == Some(task)
      ensures Read(doc, ARTEFACT) == Read(old(doc), ARTEFACT) && Read(doc, FAILED) == Read(old(doc), FAILED)
      ensures Read(doc, REPORT) == Read(old(doc), REPORT) && SameSignals(old(doc), doc)
      ensures ok <==> CheckWrite(QUALITY, Obj(quality), CONTROLLER, alnum) == Accepted
    {
      hide Read, Write, SameSignals, CheckWrite;
      KeysDiffer();
      ok := SetFact(QUALITY, Obj(quality));
      if ok {
        qualityFor := Some(task);
      }
    }

    /** The ledger part of `cape_submit`: the pinned sample goes out under the controller's route, the
        receipt enters the ledger, and the route is read back. */
    method RecordReceipt(reply: SubmitReply) returns (id: Option<int>)
      requires Valid()
      modifies this`clock, ctx
      ensures Valid() && clock >= old(clock)
      ensures ctx.sample == old(ctx.sample) && ctx.reports == old(ctx.reports)
              && ctx.routePolicy == old(ctx.routePolicy)
      ensures id.None? ==> ctx.State() == old(ctx.State())
      ensures id.Some? <==> ctx.sample.Some? && reply.Submitted? && Admits(Ids(old(ctx.tasks)), reply.taskId)
      ensures forall k | Some(k) != id ::
                && (k in ctx.confirmations <==> k in old(ctx.confirmations))
                && (k in ctx.confirmations ==> ctx.confirmations[k] == old(ctx.confirmations)[k])
      ensures id.Some? ==>
                && reply.Submitted? && reply.taskId == Int(id.value) && ctx.sample.Some?
                && |ctx.tasks| == |old(ctx.tasks)| + 1
                && ctx.tasks[..|old(ctx.tasks)|] == old(ctx.tasks)
                && (var t := ctx.tasks[|old(ctx.tasks)|];
                    t.taskId == id.value && t.sampleSha256 == ctx.sample.value.sha256 && t.route == ctx.routePolicy)
                && id.value in ctx.confirmations && ctx.confirmations[id.value].effective == reply.effective
    {
      hide TasksSound, ConfirmationsSound, ReportsSound, BindCount, HashMatches, FindTask, VALID_ROUTES, Admits, Ids,
           RecordTask, IsRoute;
      PolicyIsRoute(ctx.State());
      if ctx.sample.None? || reply.SubmitFailed? {
        return None;
      }
      var pass := |ctx.tasks| + 1;
      var now := Tick();
      ghost var before := ctx.State();
      var recorded := ctx.AddTask(reply.taskId, pass, ctx.routePolicy, reply.machine, now);
      RecordTaskKeepsSound(before, reply.taskId, pass, ctx.routePolicy, reply.machine, now);
      AdmissibleTaskIsRecorded(before, reply.taskId, pass, before.routePolicy, reply.machine, now);
      if recorded.Refused? {
        return None;
      }
      now := Tick();
      ghost var held := ctx.State();
      assert FindTask(held.tasks, recorded.value.taskId).Some? by {
        assert held.tasks[|before.tasks|] in held.tasks;
      }
      var confirmed := ctx.ConfirmRoute(recorded.value.taskId, reply.effective, now);
      StepKeepsSound(held, DoConfirm(recorded.value.taskId, reply.effective), now);
      id := Some(recorded.value.taskId);
    }

    /** The specification shows the receipt; a refused mirror is only logged. */
    method MirrorReceipt(pass: nat, id: int)
      modifies this`doc, this`refusals
      ensures refusals >= old(refusals)
      ensures SameFacts(old(doc), doc) && SameSignals(old(doc), doc)
      ensures AllAccepted(ReceiptNotes(pass, id), alnum) ==> doc == WriteAll(old(doc), ReceiptNotes(pass, id))
    {
      hide SameFacts, SameSignals, CheckWrite;
      var ok := SetAll(ReceiptNotes(pass, id));
    }

    method MirrorDetails(details: (Value, Value))
      modifies this`doc, this`refusals
      ensures refusals >= old(refusals)
      ensures SameFacts(old(doc), doc) && SameSignals(old(doc), doc)
      ensures AllAccepted(DetailNotes(details), alnum) ==> doc == WriteAll(old(doc), DetailNotes(details))
    {
      hide SameFacts, SameSignals, CheckWrite;
      var ok := SetAll(DetailNotes(details));
    }

    /** `cape_submit`: the receipt in the ledger when the submission is admissible, and its mirrors. */
    method SubmitSample(reply: SubmitReply)
      requires Valid()
      modifies this`doc, this`refusals, this`clock, ctx
      ensures refusals >= old(refusals)
      ensures Valid() && clock >= old(clock)
      ensures SameFacts(old(doc), doc) && SameSignals(old(doc), doc)
      ensures ctx.sample == old(ctx.sample) && ctx.reports == old(ctx.reports)
              && ctx.routePolicy == old(ctx.routePolicy)
      ensures old(ctx.tasks) <= ctx.tasks
      ensures ctx.sample.Some? ==>
                Recorded(ctx.tasks, ctx.confirmations, |old(ctx.tasks)|)
                == ReceiptOf(Ids(old(ctx.tasks)), CapeSubmit(reply))
      ensures SameConfirmations(Ids(old(ctx.tasks)), old(ctx.confirmations), ctx.confirmations)
    {
      hide SameFacts, SameSignals, Sound, Admits, Ids, Recorded, ReceiptOf, SameConfirmations, HashMatches, AllAccepted;
      FactsStay(doc);
      SignalsStay(doc);
      var pass := |ctx.tasks| + 1;
      var id := RecordReceipt(reply);
      ReceiptIsRecorded(old(ctx.tasks), old(ctx.confirmations), ctx.tasks, ctx.confirmations, reply, id, ctx.sample);
      if id.Some? {
        MirrorReceipt(pass, id.value);
        ghost var d := doc;
        if reply.details.Some? {
          MirrorDetails(reply.details.value);
          FactsChain(old(doc), d, doc);
          SignalsChain(old(doc), d, doc);
        }
      }
    }

    /** One tool call. */
    method Act(role: string, action: AgentAction)
      requires Valid() && role != CONTROLLER
      modifies this`doc, this`refusals, this`clock, this`delivery, ctx
      ensures refusals >= old(refusals)
      ensures Valid() && clock >= old(clock)
      ensures SameFacts(old(doc), doc)
      ensures Spares(action, RETRY_DONE) ==> Read(doc, RETRY_DONE) == old(Read(doc, RETRY_DONE))
      ensures Spares(action, ADJUSTMENT) ==> Read(doc, ADJUSTMENT) == old(Read(doc, ADJUSTMENT))
      ensures ctx.sample == old(ctx.sample) && ctx.reports == old(ctx.reports)
              && ctx.routePolicy == old(ctx.routePolicy)
      ensures old(ctx.tasks) <= ctx.tasks
      ensures !ToolAllowed(role, "cape_submit") ==>
                && ctx.State() == old(ctx.State()) && clock == old(clock)
                && doc == SpecAfterCall(role, action, old(doc), alnum)
      ensures ToolAllowed(role, "cape_submit") && ctx.sample.Some? ==>
                Recorded(ctx.tasks, ctx.confirmations, |old(ctx.tasks)|) == ReceiptOf(Ids(old(ctx.tasks)), action)
      ensures SameConfirmations(Ids(old(ctx.tasks)), old(ctx.confirmations), ctx.confirmations)
      ensures delivery == if action.DeliverReport? && ToolAllowed(role, "write_file") then action.content
                          else old(delivery)
    {
      hide SameFacts, Sound, AgentStep, RoleTools, Read, Spares, Admits, SameSignals;
      FactsStay(doc);
      match action {
        case CapeSubmit(reply) =>
          if ToolAllowed(role, "cape_submit") {
            SubmitSample(reply);
            SignalsApply(old(doc), doc);
          }
        case DeliverReport(content) =>
          if ToolAllowed(role, "write_file") {
            delivery := content;
          }
        case _ =>
          if Spares(action, RETRY_DONE) {
            CallSpares(role, action, doc, alnum, RETRY_DONE);
          }
          if Spares(action, ADJUSTMENT) {
            CallSpares(role, action, doc, alnum, ADJUSTMENT);
          }
          CallKeepsFacts(role, action, doc, alnum);
          doc := SpecAfterCall(role, action, doc, alnum);
      }
    }

    /** A stage runs one agent: whatever tools it calls, in whatever order, as its role allows. */
    method AgentStage(role: string, actions: seq<AgentAction>)
      requires Valid() && role != CONTROLLER
      modifies this`doc, this`refusals, this`clock, this`delivery, ctx
      ensures refusals >= old(refusals)
      ensures Valid() && clock >= old(clock)
      ensures SameFacts(old(doc), doc)
      ensures AllSpare(actions, RETRY_DONE) ==> Read(doc, RETRY_DONE) == old(Read(doc, RETRY_DONE))
      ensures AllSpare(actions, ADJUSTMENT) ==> Read(doc, ADJUSTMENT) == old(Read(doc, ADJUSTMENT))
      ensures ctx.sample == old(ctx.sample) && ctx.reports == old(ctx.reports)
              && ctx.routePolicy == old(ctx.routePolicy)
      ensures old(ctx.tasks) <= ctx.tasks
      ensures !ToolAllowed(role, "cape_submit") ==>
                && ctx.State() == old(ctx.State()) && clock == old(clock)
                && doc == SpecAfter(role, actions, old(doc), alnum)
      ensures ToolAllowed(role, "cape_submit") && ctx.sample.Some? ==>
                Recorded(ctx.tasks, ctx.confirmations, |old(ctx.tasks)|) == Receipts(Ids(old(ctx.tasks)), actions)
    {
      hide SameFacts, Sound, ToolAllowed, Read, Spares, SpecAfterCall, ReceiptOf, Recorded, Ids;
      FactsStay(doc);
      ghost var n := |ctx.tasks|;
      NothingRecorded(ctx.tasks, ctx.confirmations);
      var i := 0;
      while i < |actions|
        invariant 0 <= i <= |actions| && refusals >= old(refusals)
        invariant Valid() && clock >= old(clock)
        invariant SameFacts(old(doc), doc)
        invariant AllSpare(actions[..i], RETRY_DONE) ==> Read(doc, RETRY_DONE) == old(Read(doc, RETRY_DONE))
        invariant AllSpare(actions[..i], ADJUSTMENT) ==> Read(doc, ADJUSTMENT) == old(Read(doc, ADJUSTMENT))
        invariant ctx.sample == old(ctx.sample) && ctx.reports == old(ctx.reports)
                  && ctx.routePolicy == old(ctx.routePolicy)
        invariant old(ctx.tasks) <= ctx.tasks
        invariant !ToolAllowed(role, "cape_submit") ==>
                    && ctx.State() == old(ctx.State()) && clock == old(clock)
                    && SpecAfter(role, actions[i..], doc, alnum) == SpecAfter(role, actions, old(doc), alnum)
        invariant ToolAllowed(role, "cape_submit") && ctx.sample.Some? ==>
                    Recorded(ctx.tasks, ctx.confirmations, n) + Receipts(Ids(ctx.tasks), actions[i..])
                    == Receipts(Ids(old(ctx.tasks)), actions)
        decreases |actions| - i
      {
        ghost var d, tasks, confirmations := doc, ctx.tasks, ctx.confirmations;
        Act(role, actions[i]);
        FactsChain(old(doc), d, doc);
        assert actions[..i + 1] == actions[..i] + [actions[i]];
        assert actions[i..][1..] == actions[i + 1..] && actions[i..][0] == actions[i];
        if ctx.sample.Some? && ToolAllowed(role, "cape_submit") {
          MoreRecorded(tasks, confirmations, ctx.tasks, ctx.confirmations, n, actions[i]);
          var here, rest := ReceiptOf(Ids(tasks), actions[i]), Receipts(Ids(ctx.tasks), actions[i + 1..]);
          assert Recorded(tasks, confirmations, n) + (here + rest) == Recorded(tasks, confirmations, n) + here + rest;
        }
        i := i + 1;
      }
      assert actions[..i] == actions;
      assert Recorded(ctx.tasks, ctx.confirmations, n) + [] == Recorded(ctx.tasks, ctx.confirmations, n);
    }
  }

  function ReceiptNotes(pass: nat, id: int): seq<(string, Value)> {
    [(if pass == 1 then "cape_submission.pass1_task_id" else "cape_submission.pass2_task_id", Int(id)),
     ("executor.passes_completed", Int(pass))]
  }

  function DetailNotes(details: (Value, Value)): seq<(string, Value)> {
    [("cape_submission.actual", details.0), ("sandbox.actual", details.1)]
  }

  lemma ReceiptIsRecorded(tasks: seq<TaskReceipt>, confirmations: map<int, RouteConfirmation>,
                          tasks': seq<TaskReceipt>, confirmations': map<int, RouteConfirmation>, reply: SubmitReply,
                          id: Option<int>, sample: Option<SampleIdentity>)
    requires tasks <= tasks' && |tasks'| == |tasks| + if id.Some? then 1 else 0
    requires id.Some? <==> sample.Some? && reply.Submitted? && Admits(Ids(tasks), reply.taskId)
    requires id.Some? ==>
               && reply.taskId == Int(id.value) && tasks'[|tasks|].taskId == id.value
               && id.value in confirmations' && confirmations'[id.value].effective == reply.effective
    requires forall k | Some(k) != id ::
               && (k in confirmations' <==> k in confirmations)
               && (k in confirmations' ==> confirmations'[k] == confirmations[k])
    ensures sample.Some? ==> Recorded(tasks', confirmations', |tasks|) == ReceiptOf(Ids(tasks), CapeSubmit(reply))
    ensures SameConfirmations(Ids(tasks), confirmations, confirmations')
  {
  }

  lemma NothingRecorded(tasks: seq<TaskReceipt>, confirmations: map<int, RouteConfirmation>)
    ensures Recorded(tasks, confirmations, |tasks|) == []
  {
  }

  /** What a submission adds to what is recorded. */
  lemma MoreRecorded(tasks: seq<TaskReceipt>, confirmations: map<int, RouteConfirmation>, tasks': seq<TaskReceipt>,
                     confirmations': map<int, RouteConfirmation>, n: nat, action: AgentAction)
    requires n <= |tasks| && tasks <= tasks'
    requires Recorded(tasks', confirmations', |tasks|) == ReceiptOf(Ids(tasks), action)
    requires SameConfirmations(Ids(tasks), confirmations, confirmations')
    ensures Recorded(tasks', confirmations', n)
         == Recorded(tasks, confirmations, n) + ReceiptOf(Ids(tasks), action)
    ensures Ids(tasks') == Ids(tasks) + ReceiptIds(ReceiptOf(Ids(tasks), action))
  {
    hide ReceiptOf;
    var m := |tasks|;
    var all, old_, new_ := Recorded(tasks', confirmations', n), Recorded(tasks, confirmations, n),
                           Recorded(tasks', confirmations', m);
    forall i | 0 <= i < m - n ensures all[i] == old_[i] {
      assert Ids(tasks)[n + i] == tasks[n + i].taskId;
    }
    forall i | m - n <= i < |all| ensures all[i] == new_[i - (m - n)] {
    }
    forall i | m <= i < |tasks'| ensures Ids(tasks')[i] == ReceiptIds(new_)[i - m] {
      assert new_[i - m].id == tasks'[i].taskId;
    }
  }

  lemma CallKeepsFacts(role: string, action: AgentAction, doc: Fields, alnum: char -> bool)
    requires role != CONTROLLER
    ensures SameFacts(doc, SpecAfterCall(role, action, doc, alnum))
  {
    hide SameFacts, AgentStep, ToolAllowed;
    FactsStay(doc);
    match action
    case UpdateSpec(key, value) => AgentKeepsFacts(doc, SetOp(role, key, value), alnum);
    case AppendSpec(key, value) => AgentKeepsFacts(doc, AppendOp(role, key, value), alnum);
    case _ =>
  }

  lemma FactsApply(d: Fields, d': Fields)
    requires SameFacts(d, d')
    ensures Read(d', QUALITY) == Read(d, QUALITY) && Read(d', ARTEFACT) == Read(d, ARTEFACT)
    ensures Read(d', FAILED) == Read(d, FAILED) && Read(d', REPORT) == Read(d, REPORT)
  {
  }

  lemma FactsStay(d: Fields)
    ensures SameFacts(d, d)
  {
  }

  lemma FactsChain(a: Fields, b: Fields, c: Fields)
    requires SameFacts(a, b) && SameFacts(b, c)
    ensures SameFacts(a, c)
  {
  }
}
