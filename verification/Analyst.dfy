/** The Analyst's stage (src/agents/analyst.py): the agent loop over the specification and the
    delivered report, with the completion check as its validator. */
module Analyst {
  import opened Wrappers
  import opened SpecPolicy
  import opened SpecDocument
  import opened ReportValidation
  import opened Attempt
  import AgentLoop
  import RunContext
  import LlmClient
  import StageFacts

  const ANALYSIS := "analysis.report"

  /** `spec.get("analysis.report")`. */
  function AnalysisReport(doc: Fields): Value {
    Read(doc, ANALYSIS).GetOr(Null)
  }

  /** What the Analyst's tools can change: the specification, and `analysis_report.json` as parsed. */
  datatype Workspace = Workspace(doc: Fields, delivery: Option<Value>)

  /** What a call says: key and value of a specification write, the delivered report when the call
      writes that file, and the text a tool answers with. */
  datatype Reading = Reading(key: AgentLoop.ToolCall -> string, value: AgentLoop.ToolCall -> Value,
                             delivers: AgentLoop.ToolCall -> Option<Option<Value>>,
                             answer: (Workspace, AgentLoop.ToolCall) -> string)

  function WorkspaceAfter(w: Workspace, c: AgentLoop.ToolCall, reading: Reading, alnum: char -> bool): Workspace {
    if c.tool == Some("update_spec") then
      w.(doc := AgentStep(w.doc, SetOp("Analyst", reading.key(c), reading.value(c)), alnum))
    else if c.tool == Some("append_spec") then
      w.(doc := AgentStep(w.doc, AppendOp("Analyst", reading.key(c), reading.value(c)), alnum))
    else if c.tool == Some("write_file") && reading.delivers(c).Some? then w.(delivery := reading.delivers(c).value)
    else w
  }

  /** One problem, as text. */
  function Texts(problems: seq<Problem>, say: Problem -> string): seq<string> {
    seq(|problems|, i requires 0 <= i < |problems| => say(problems[i]))
  }

  /** How an Analyst runs: `setup` holds the loop's texts, limits and call check. */
  datatype AnalystScript = AnalystScript(setup: AgentLoop.Role<Workspace>, reading: Reading, say: Problem -> string,
                                         outside: AgentLoop.Outside, prompt: string)

  function AnalystRole(s: AnalystScript, cfg: LlmClient.Config, expected: Option<int>, alnum: char -> bool,
                       text: TextTests)
    : AgentLoop.Role<Workspace>
  {
    s.setup.(tools := RoleTools("Analyst"), llm := cfg,
             act := (w: Workspace, c: AgentLoop.ToolCall) =>
               (WorkspaceAfter(w, c, s.reading, alnum), s.reading.answer(w, c)),
             problems := (w: Workspace) =>
               Texts(CompletionProblems(AnalysisReport(w.doc), w.delivery, expected, text), s.say))
  }

  lemma AnalystToolsKeepFacts(s: AnalystScript, cfg: LlmClient.Config, expected: Option<int>, alnum: char -> bool,
                              text: TextTests, doc: Fields)
    ensures StageFacts.ToolsKeep(AnalystRole(s, cfg, expected, alnum, text), (w: Workspace) => SameFacts(doc, w.doc))
  {
    hide SameFacts, AgentStep, RoleTools, CompletionProblems;
    forall w: Workspace, c: AgentLoop.ToolCall | SameFacts(doc, w.doc)
      ensures SameFacts(doc, WorkspaceAfter(w, c, s.reading, alnum).doc)
    {
      var put := SetOp("Analyst", s.reading.key(c), s.reading.value(c));
      var add := AppendOp("Analyst", s.reading.key(c), s.reading.value(c));
      AgentKeepsFacts(w.doc, put, alnum);
      AgentKeepsFacts(w.doc, add, alnum);
      FactsChain(doc, w.doc, AgentStep(w.doc, put, alnum));
      FactsChain(doc, w.doc, AgentStep(w.doc, add, alnum));
    }
  }

  /** The task the Analyst's completion check expects: the artefact's, else the second pass's. */
  function ExpectedTask(doc: Fields): Option<int> {
    var artefact := Read(doc, ARTEFACT);
    var chosen := if Truthy(artefact) then artefact else Read(doc, "cape_submission.pass2_task_id");
    if chosen.Some? && chosen.value.Int? then Some(chosen.value.i) else None
  }

  /** Where the Analyst's loop ends: the tracked facts are as before, and it is finished only over a complete
      report. */
  lemma AnalystRun(s: AnalystScript, cfg: LlmClient.Config, expected: Option<int>, alnum: char -> bool, text: TextTests,
                   start: Workspace, now: real, counts: LlmClient.Counters)
    requires cfg.Valid()
    ensures var end := AgentLoop.Run(AnalystRole(s, cfg, expected, alnum, text), s.outside, start, s.prompt, now,
                                     counts);
            && AnalystRole(s, cfg, expected, alnum, text).llm == cfg
            && SameFacts(start.doc, end.world.doc)
            && (end.finished ==>
                  CompletionProblems(AnalysisReport(end.world.doc), end.world.delivery, expected, text) == [])
  {
    hide SameFacts, CompletionProblems, AgentLoop.Run, WorkspaceAfter;
    var role := AnalystRole(s, cfg, expected, alnum, text);
    FactsStay(start.doc);
    AnalystToolsKeepFacts(s, cfg, expected, alnum, text, start.doc);
    StageFacts.StageKeepsWorld(role, (w: Workspace) => SameFacts(start.doc, w.doc), s.outside, start, s.prompt, now,
                               counts);
    StageFacts.FinishedMeansComplete(role, s.outside, start, s.prompt, now, counts);
  }

  /** Whether the Analyst's loop finishes, and what its tools leave, from this workspace on. */
  function AnalystOutcome(s: AnalystScript, cfg: LlmClient.Config, expected: Option<int>, alnum: char -> bool,
                          text: TextTests, start: Workspace, now: real, counts: LlmClient.Counters)
    : (bool, Workspace)
    requires cfg.Valid()
  {
    var end := AgentLoop.Run(AnalystRole(s, cfg, expected, alnum, text), s.outside, start, s.prompt, now, counts);
    (end.finished, end.world)
  }

  /** The Analyst runs its loop to the end. A stage that ends finished leaves a complete report, because
      finish was accepted last and only over one; the tracked facts and the ledger are as before. */
  method AnalystStage(a: AttemptState, client: LlmClient.LLMClient, s: AnalystScript) returns (finished: bool)
    requires a.Valid() && client.cfg.Valid()
    modifies a`doc, a`delivery, client
    ensures a.Valid() && a.ctx.State() == old(a.ctx.State())
    ensures SameFacts(old(a.doc), a.doc)
    ensures finished ==> CompletionProblems(AnalysisReport(a.doc), a.delivery, ExpectedTask(old(a.doc)), a.text) == []
    ensures (finished, Workspace(a.doc, a.delivery))
         == AnalystOutcome(s, client.cfg, ExpectedTask(old(a.doc)), a.alnum, a.text,
                           Workspace(old(a.doc), old(a.delivery)), old(a.clock), old(client.counts))
  {
    hide SameFacts, Read, CompletionProblems, RunContext.Sound, HashMatches, AgentLoop.Run, AnalystRole, ExpectedTask;
    var expected := ExpectedTask(a.doc);
    var role := AnalystRole(s, client.cfg, expected, a.alnum, a.text);
    var start := Workspace(a.doc, a.delivery);
    AnalystRun(s, client.cfg, expected, a.alnum, a.text, start, a.clock, client.counts);
    var loop := new AgentLoop.Loop(role, client, start, a.clock);
    finished := loop.RunStage(s.outside, s.prompt);
    a.doc, a.delivery := loop.world.doc, loop.world.delivery;
  }
}
