/** What every agent stage keeps, whatever the model replies and the tools do. */
module StageFacts {
  import opened Wrappers
  import opened LlmClient
  import RetryFacts
  import opened ContextWindow
  import opened AgentLoop

  // ----------------------------------------------------------------------------------------
  // The invariant
  // ----------------------------------------------------------------------------------------

  /** A finished stage ends with an accepted finish in a world where nothing required is missing;
      finish is accepted once, last, and in the normal phase not before the minimum iteration;
      only the role's tools run, and only finalisation tools in the final phase. */
  ghost predicate Gated<W>(r: Role<W>, s: Stage<W>) {
    && (s.finished ==> r.problems(s.world) == [] && s.log != [] && s.log[|s.log| - 1].Accepted?)
    && (forall i | 0 <= i < |s.log| && s.log[i].Accepted? ::
          i == |s.log| - 1 && s.finished && (s.log[i].final || s.log[i].iteration >= r.minIterations))
    && (forall i | 0 <= i < |s.log| && s.log[i].Ran? ::
          var tool := s.log[i].call.tool;
          && tool.Some? && r.check(s.log[i].call).None? && tool.value != "finish" && tool.value in r.tools
          && (s.log[i].final ==> tool.value in FINAL_TOOLS))
  }

  function Asked(log: seq<Entry>): nat
    decreases |log|
  {
    if log == [] then 0 else Asked(log[..|log| - 1]) + if log[|log| - 1].Requested? then 1 else 0
  }

  lemma AskedSnoc(log: seq<Entry>, e: Entry)
    ensures Asked(log + [e]) == Asked(log) + if e.Requested? then 1 else 0
  {
    assert (log + [e])[..|log|] == log;
  }

  /** Requested budgets never shrink and stay within the stage's cap; the log shows every logical
      request; the client made at most its attempt limit for each. */
  ghost predicate Budgeted<W>(r: Role<W>, c0: Counters, s: Stage<W>) {
    && s.retained <= MAX_AGENT_MAX_TOKENS
    && (forall i, j | 0 <= i < j < |s.log| && s.log[i].Requested? && s.log[j].Requested? ::
          s.log[i].tokens <= s.log[j].tokens)
    && (forall i | 0 <= i < |s.log| && s.log[i].Requested? ::
          s.log[i].tokens <= MAX_AGENT_MAX_TOKENS && (!s.crashed ==> s.log[i].tokens <= s.retained))
    && s.requests == Asked(s.log)
    && s.counts.requests <= c0.requests + s.requests * r.llm.maxAttempts
  }

  function CheckpointChars<W>(r: Role<W>, iteration: nat): nat {
    var remaining := r.maxIterations - iteration;
    if 0 < remaining <= CHECKPOINT_WINDOW then |r.checkpoint(remaining)| else 0
  }

  /** The most characters a request may carry: the context budget, and the checkpoint text that
      is added after trimming near the end of the normal phase. */
  function ContextLimit<W>(r: Role<W>, iteration: nat, final: bool): nat {
    MAX_CONTEXT_CHARS + if final then 0 else CheckpointChars(r, iteration)
  }

  ghost predicate Contained<W>(r: Role<W>, s: Stage<W>) {
    forall i | 0 <= i < |s.log| && s.log[i].Requested? ::
      s.log[i].chars <= ContextLimit(r, s.log[i].iteration, s.log[i].final)
  }

  /** How many unusable replies in a row the log ends with. */
  function Streak(log: seq<Entry>): nat
    decreases |log|
  {
    if log == [] then 0
    else
      match log[|log| - 1]
      case Parsed(_, usable) => if usable then 0 else Streak(log[..|log| - 1]) + 1
      case Forcing(_, _) => 0
      case _ => Streak(log[..|log| - 1])
  }

  lemma StreakSnoc(log: seq<Entry>, e: Entry)
    ensures Streak(log + [e]) == match e
                                 case Parsed(_, usable) => if usable then 0 else Streak(log) + 1
                                 case Forcing(_, _) => 0
                                 case _ => Streak(log)
  {
    assert (log + [e])[..|log|] == log;
  }

  /** The stage counts unusable replies in a row, and finalisation is forced for stalling exactly
      when their number has reached the limit. */
  ghost predicate Streaked<W>(r: Role<W>, s: Stage<W>) {
    && s.errors == Streak(s.log)
    && forall i | 0 <= i < |s.log| && s.log[i].Forcing? ::
         if s.log[i].why.Stalled? then Streak(s.log[..i]) == r.maxErrors else Streak(s.log[..i]) < r.maxErrors
  }

  ghost predicate Kept<W>(r: Role<W>, c0: Counters, s: Stage<W>) {
    r.llm.Valid() && Gated(r, s) && Budgeted(r, c0, s) && Contained(r, s) && Streaked(r, s)
  }

  /** One more entry that is no forcing, and the count that goes with it. */
  lemma StreakedSnoc<W>(r: Role<W>, s: Stage<W>, a: Stage<W>, e: Entry)
    requires Streaked(r, s) && a.log == s.log + [e] && !e.Forcing?
    requires a.errors == if e.Parsed? then (if e.usable then 0 else s.errors + 1) else s.errors
    ensures Streaked(r, a)
  {
    hide Streak;
    StreakSnoc(s.log, e);
    forall i | 0 <= i < |s.log| ensures a.log[..i] == s.log[..i] {
    }
  }

  // ----------------------------------------------------------------------------------------
  // Every step keeps it
  // ----------------------------------------------------------------------------------------

  lemma AnswerAttempts<W>(r: Role<W>, o: Outside, s: Stage<W>, tokens: Natural)
    requires r.llm.Valid()
    ensures Answer(r, o, s, tokens).counts.requests <= s.counts.requests + r.llm.maxAttempts
  {
    hide Attempts;
    var n := s.requests + 1;
    RetryFacts.RequestsAreAccountedFor(r.llm, r.llm.maxAttempts, tokens, s.now, o.lag(n), s.counts, o.rounds(n),
                                       r.llm.maxAttempts);
  }

  lemma HeardKeepsGate<W>(r: Role<W>, s: Stage<W>, tokens: Natural, exit: Option<Exit>, meta: Option<Metadata>,
                          now: real,
                       iteration: nat, final: bool)
    requires Gated(r, s) && !s.finished
    ensures Gated(r, Heard(s, tokens, exit, meta, now, iteration, final))
  {
    hide Capped, Greatest, Chars;
  }

  lemma HeardKeepsBudget<W>(r: Role<W>, c0: Counters, s: Stage<W>, c: Counters, tokens: Natural, exit: Option<Exit>,
                         meta: Option<Metadata>, now: real, iteration: nat, final: bool)
    requires r.llm.Valid() && Budgeted(r, c0, s) && !s.crashed
    requires s.retained <= tokens <= MAX_AGENT_MAX_TOKENS && c.requests <= s.counts.requests + r.llm.maxAttempts
    ensures Budgeted(r, c0, Heard(s.(counts := c), tokens, exit, meta, now, iteration, final))
  {
    hide Asked, Chars;
    AskedSnoc(s.log, Requested(tokens, final, iteration, Chars(s.messages), s.now));
    assert (s.requests + 1) * r.llm.maxAttempts == s.requests * r.llm.maxAttempts + r.llm.maxAttempts;
  }

  lemma AskKeeps<W>(r: Role<W>, o: Outside, c0: Counters, s: Stage<W>, iteration: nat, final: bool)
    requires Kept(r, c0, s) && !s.finished && !s.crashed
    requires Chars(s.messages) <= ContextLimit(r, iteration, final)
    ensures Kept(r, c0, Ask(r, o, s, iteration, final))
    ensures var a := Ask(r, o, s, iteration, final);
            a.requests == s.requests + 1 && !a.finished && a.reason == s.reason && a.errors == s.errors
  {
    hide Answer, Gated, Budgeted, ContextLimit, Chars, Streaked;
    var tokens := Capped(Greatest(s.current, s.retained));
    var end := Answer(r, o, s, tokens);
    AnswerAttempts(r, o, s, tokens);
    HeardGateKeptWithCounts(r, s, end.counts);
    HeardKeepsGate(r, s.(counts := end.counts), tokens, end.exit, end.meta, end.now, iteration, final);
    RetainedAtMostCap(r, c0, s);
    HeardKeepsBudget(r, c0, s, end.counts, tokens, end.exit, end.meta, end.now, iteration, final);
    StreakedSnoc(r, s, Ask(r, o, s, iteration, final), Requested(tokens, final, iteration, Chars(s.messages), s.now));
  }

  lemma HeardGateKeptWithCounts<W>(r: Role<W>, s: Stage<W>, c: Counters)
    requires Gated(r, s)
    ensures Gated(r, s.(counts := c))
  {
  }

  lemma RetainedAtMostCap<W>(r: Role<W>, c0: Counters, s: Stage<W>)
    requires Budgeted(r, c0, s)
    ensures s.retained <= MAX_AGENT_MAX_TOKENS
  {
  }

  lemma RecoverKeeps<W>(r: Role<W>, c0: Counters, s: Stage<W>)
    requires Kept(r, c0, s)
    ensures Kept(r, c0, Recover(r, s))
    ensures var a := Recover(r, s);
            && a.requests == s.requests && a.finished == s.finished && a.crashed == s.crashed && a.reason == s.reason
            && a.errors == s.errors
  {
    hide Asked, ContextLimit, Streak;
  }

  lemma OneKeepsGate<W>(r: Role<W>, s: Stage<W>, c: ToolCall, iteration: nat, final: bool)
    requires Gated(r, s) && !s.finished
    ensures Gated(r, One(r, s, c, iteration, final))
  {
  }

  /** The stage is the same but for its world, its results and at most one entry that is no request. */
  ghost predicate OnlyLogs<W>(s: Stage<W>, a: Stage<W>) {
    && a.retained == s.retained && a.requests == s.requests && a.counts == s.counts
    && a.crashed == s.crashed && a.reason == s.reason && a.errors == s.errors
    && (a.log == s.log || (|a.log| == |s.log| + 1 && a.log == s.log + [a.log[|s.log|]]
                           && (a.log[|s.log|].Ran? || a.log[|s.log|].Accepted?)))
  }

  lemma OneOnlyLogs<W>(r: Role<W>, s: Stage<W>, c: ToolCall, iteration: nat, final: bool)
    ensures OnlyLogs(s, One(r, s, c, iteration, final))
  {
  }

  lemma OnlyLogsKeeps<W>(r: Role<W>, c0: Counters, s: Stage<W>, a: Stage<W>)
    requires Budgeted(r, c0, s) && Contained(r, s) && Streaked(r, s) && OnlyLogs(s, a)
    ensures Budgeted(r, c0, a) && Contained(r, a) && Streaked(r, a)
  {
    hide Asked, ContextLimit, Streak;
    if a.log != s.log {
      AskedSnoc(s.log, a.log[|s.log|]);
      StreakedSnoc(r, s, a, a.log[|s.log|]);
    }
  }

  lemma OneKeeps<W>(r: Role<W>, c0: Counters, s: Stage<W>, c: ToolCall, iteration: nat, final: bool)
    requires Kept(r, c0, s) && !s.finished
    ensures Kept(r, c0, One(r, s, c, iteration, final))
    ensures var a := One(r, s, c, iteration, final);
            a.requests == s.requests && a.crashed == s.crashed && a.reason == s.reason && a.errors == s.errors
  {
    hide One, Gated, Budgeted, Contained, Streaked;
    OneKeepsGate(r, s, c, iteration, final);
    OneOnlyLogs(r, s, c, iteration, final);
    OnlyLogsKeeps(r, c0, s, One(r, s, c, iteration, final));
  }

  lemma {:induction false} RunCallsKeeps<W>(r: Role<W>, c0: Counters, s: Stage<W>, calls: seq<ToolCall>, n: nat,
                                            iteration: nat, final: bool)
    requires Kept(r, c0, s) && !s.finished && n <= |calls|
    ensures Kept(r, c0, RunCalls(r, s, calls, n, iteration, final))
    ensures var a := RunCalls(r, s, calls, n, iteration, final);
            a.requests == s.requests && a.crashed == s.crashed && a.reason == s.reason && a.errors == s.errors
  {
    hide One, Asked, ContextLimit, Streak;
    if n > 0 {
      RunCallsKeeps(r, c0, s, calls, n - 1, iteration, final);
      var before := RunCalls(r, s, calls, n - 1, iteration, final);
      if !before.finished {
        OneKeeps(r, c0, before, calls[n - 1], iteration, final);
      }
    }
  }

  /** A note about a reply, or about forcing, changes nothing else the invariant speaks of. */
  lemma NoteKeeps<W>(r: Role<W>, c0: Counters, s: Stage<W>, a: Stage<W>, e: Entry)
    requires Kept(r, c0, s) && !s.finished && Streaked(r, a) && a.log == s.log + [e] && (e.Parsed? || e.Forcing?)
    requires a.world == s.world && a.retained == s.retained && !a.finished
    requires a.crashed == s.crashed && a.requests == s.requests && a.counts == s.counts
    ensures Kept(r, c0, a)
  {
    hide Asked, ContextLimit, Streaked;
    AskedSnoc(s.log, e);
  }

  lemma NotedKeeps<W>(r: Role<W>, c0: Counters, s: Stage<W>, usable: bool)
    requires Kept(r, c0, s) && !s.finished
    ensures Kept(r, c0, Noted(s, usable)) && !Noted(s, usable).finished
  {
    hide Gated, Budgeted, Contained, Streaked;
    StreakedSnoc(r, s, Noted(s, usable), Parsed(s.reply, usable));
    NoteKeeps(r, c0, s, Noted(s, usable), Parsed(s.reply, usable));
  }

  lemma ForcedKeeps<W>(r: Role<W>, c0: Counters, s: Stage<W>, reason: Reason)
    requires Kept(r, c0, s) && !s.finished
    requires if reason.Stalled? then s.errors == r.maxErrors else s.errors < r.maxErrors
    ensures Kept(r, c0, Forced(r, s, reason))
  {
    hide Gated, Budgeted, Contained, Streak, Trim;
    var a := Forced(r, s, reason);
    StreakSnoc(s.log, Forcing(reason, s.now));
    forall i | 0 <= i < |s.log| ensures a.log[..i] == s.log[..i] {
    }
    assert a.log[..|s.log|] == s.log;
    NoteKeeps(r, c0, s, a, Forcing(reason, s.now));
  }

  /** The invariant does not speak of the conversation or the counters of the loop. */
  lemma KeptAnyway<W>(r: Role<W>, c0: Counters, s: Stage<W>, a: Stage<W>)
    requires Kept(r, c0, s)
    requires a.world == s.world && a.log == s.log && a.retained == s.retained && a.finished == s.finished
    requires a.crashed == s.crashed && a.requests == s.requests && a.counts == s.counts && a.errors == s.errors
    ensures Kept(r, c0, a)
  {
    hide Asked, ContextLimit, Streak;
  }

  lemma FinalTurnKeeps<W>(r: Role<W>, o: Outside, c0: Counters, s: Stage<W>, k: nat)
    requires Kept(r, c0, s) && !s.finished && !s.crashed
    ensures Kept(r, c0, FinalTurn(r, o, s, k))
    ensures FinalTurn(r, o, s, k).requests == s.requests + 1 && FinalTurn(r, o, s, k).reason == s.reason
  {
    hide Kept, Ask, Recover, RunCalls, Usable, Trim, Chars;
    TrimFits(s.messages);
    LlmValid(r, c0, s);
    var trimmed := s.(messages := Trim(s.messages));
    KeptAnyway(r, c0, s, trimmed);
    AskKeeps(r, o, c0, trimmed, k, true);
    var asked := Ask(r, o, trimmed, k, true);
    var calls := r.parse(asked.reply);
    if !asked.crashed {
      if !Usable(r, calls) {
        NotedKeeps(r, c0, asked, false);
        RecoverKeeps(r, c0, Noted(asked, false));
      } else {
        NotedKeeps(r, c0, asked, true);
        var ready := Noted(asked, true).(messages := asked.messages + [Message("assistant", asked.reply)]);
        KeptAnyway(r, c0, Noted(asked, true), ready);
        RunCallsKeeps(r, c0, ready, calls, |calls|, k, true);
        KeptAnyway(r, c0, RunCalls(r, ready, calls, |calls|, k, true), FinalTurn(r, o, s, k));
      }
    }
  }

  lemma LlmValid<W>(r: Role<W>, c0: Counters, s: Stage<W>)
    requires Kept(r, c0, s)
    ensures r.llm.Valid()
  {
  }

  lemma {:induction false} FinalTurnsKeep<W>(r: Role<W>, o: Outside, c0: Counters, s: Stage<W>, k: nat)
    requires r.llm.Valid() && Kept(r, c0, s) && !s.finished && !s.crashed
    ensures Kept(r, c0, FinalTurns(r, o, s, k))
    ensures FinalTurns(r, o, s, k).requests <= s.requests + k && FinalTurns(r, o, s, k).reason == s.reason
  {
    hide Kept, FinalTurn;
    if k > 0 {
      FinalTurnsKeep(r, o, c0, s, k - 1);
      var before := FinalTurns(r, o, s, k - 1);
      if !before.finished && !before.crashed {
        FinalTurnKeeps(r, o, c0, before, k);
      }
    }
  }

  lemma ForceFinalizeKeeps<W>(r: Role<W>, o: Outside, c0: Counters, s: Stage<W>, reason: Reason)
    requires r.llm.Valid() && Kept(r, c0, s) && !s.finished && !s.crashed
    requires if reason.Stalled? then s.errors == r.maxErrors else s.errors < r.maxErrors
    ensures Kept(r, c0, ForceFinalize(r, o, s, reason))
    ensures var a := ForceFinalize(r, o, s, reason);
            a.requests <= s.requests + FINALIZATION_ITERATIONS && a.reason == Some(reason)
  {
    hide Kept, FinalTurns, Trim;
    ForcedKeeps(r, c0, s, reason);
    FinalTurnsKeep(r, o, c0, Forced(r, s, reason), FINALIZATION_ITERATIONS);
  }

  lemma PromptFits<W>(r: Role<W>, messages: seq<Message>, iteration: nat)
    ensures Chars(Prompt(r, messages, iteration)) <= ContextLimit(r, iteration, false)
  {
    hide Chars, Trim;
    TrimFits(messages);
    var remaining := r.maxIterations - iteration;
    if 0 < remaining <= CHECKPOINT_WINDOW {
      CharsOne(Message("user", r.checkpoint(remaining)));
      CharsAppend(Trim(messages), [Message("user", r.checkpoint(remaining))]);
    } else {
      assert Trim(messages) + [] == Trim(messages);
    }
  }

  /** One request, and three more at most when the iteration ends in forced finalisation. */
  lemma TurnKeeps<W>(r: Role<W>, o: Outside, c0: Counters, s: Stage<W>, iteration: nat)
    requires r.llm.Valid() && Kept(r, c0, s) && !Over(s) && s.errors < r.maxErrors
    ensures Kept(r, c0, Turn(r, o, s, iteration))
    ensures var a := Turn(r, o, s, iteration);
            && a.requests <= s.requests + 1 + (if a.reason.Some? then FINALIZATION_ITERATIONS else 0)
            && (!Over(a) ==> a.errors < r.maxErrors)
  {
    hide Kept, Ask, Recover, RunCalls, Usable, Prompt, Chars, ForceFinalize;
    PromptFits(r, s.messages, iteration);
    var asking := s.(messages := Prompt(r, s.messages, iteration));
    KeptAnyway(r, c0, s, asking);
    AskKeeps(r, o, c0, asking, iteration, false);
    var asked := Ask(r, o, asking, iteration, false);
    var calls := r.parse(asked.reply);
    if !asked.crashed {
      if !Usable(r, calls) {
        var counted := Noted(asked, false);
        NotedKeeps(r, c0, asked, false);
        RecoverKeeps(r, c0, counted);
        if counted.errors >= r.maxErrors {
          ForceFinalizeKeeps(r, o, c0, Recover(r, counted), Stalled);
        }
      } else {
        var ready := Noted(asked, true);
        NotedKeeps(r, c0, asked, true);
        RunCallsKeeps(r, c0, ready, calls, |calls|, iteration, false);
        KeptAnyway(r, c0, RunCalls(r, ready, calls, |calls|, iteration, false), Turn(r, o, s, iteration));
      }
    }
  }

  lemma {:induction false} TurnsKeep<W>(r: Role<W>, o: Outside, c0: Counters, s: Stage<W>, deadline: real, n: nat)
    requires r.llm.Valid() && Kept(r, c0, s) && !Over(s) && s.errors < r.maxErrors
    ensures Kept(r, c0, Turns(r, o, s, deadline, n))
    ensures var a := Turns(r, o, s, deadline, n);
            && a.requests <= s.requests + n + (if a.reason.Some? then FINALIZATION_ITERATIONS else 0)
            && (!Over(a) ==> a.errors < r.maxErrors)
  {
    hide Kept, Turn, ForceFinalize;
    if n > 0 {
      TurnsKeep(r, o, c0, s, deadline, n - 1);
      var before := Turns(r, o, s, deadline, n - 1);
      if !Over(before) {
        var later := before.(now := before.now + o.pause(n));
        KeptAnyway(r, c0, before, later);
        if later.now >= deadline {
          ForceFinalizeKeeps(r, o, c0, later, WallTime);
        } else {
          TurnKeeps(r, o, c0, later, n);
        }
      }
    }
  }

  lemma BeginKeeps<W>(r: Role<W>, world: W, task: string, start: real, counts: Counters)
    requires r.llm.Valid()
    ensures Kept(r, counts, Begin(r, world, task, start, counts)) && !Over(Begin(r, world, task, start, counts))
  {
  }

  /** Every stage, whatever the model, the tools, the client and the clock do: the completion gate
      and the tool lists hold, token budgets never shrink and stay under the cap, there are at
      most the allowed iterations plus three logical requests, each with at most the client's
      attempts, no request carries more than the context limit, and the stage is called stalled
      exactly after the allowed number of unusable replies in a row. */
  lemma EveryStageIsKept<W>(r: Role<W>, o: Outside, world: W, task: string, start: real, counts: Counters)
    requires r.llm.Valid()
    ensures Kept(r, counts, Run(r, o, world, task, start, counts))
    ensures Run(r, o, world, task, start, counts).requests <= AgentLoop.Iterations(r) + FINALIZATION_ITERATIONS
  {
    hide Kept, Turns, ForceFinalize, Begin;
    var s0 := Begin(r, world, task, start, counts);
    BeginKeeps(r, world, task, start, counts);
    BeginAsksNothing(r, world, task, start, counts);
    TurnsKeep(r, o, counts, s0, start + r.wall, AgentLoop.Iterations(r));
    var s := Turns(r, o, s0, start + r.wall, AgentLoop.Iterations(r));
    if !Over(s) {
      ForceFinalizeKeeps(r, o, counts, s, OutOfIterations);
    }
  }

  lemma BeginAsksNothing<W>(r: Role<W>, world: W, task: string, start: real, counts: Counters)
    ensures Begin(r, world, task, start, counts).requests == 0 == Begin(r, world, task, start, counts).errors
  {
  }

  /** A stage that reports completion leaves a world its validator accepts. */
  lemma FinishedMeansComplete<W>(r: Role<W>, o: Outside, world: W, task: string, start: real, counts: Counters)
    requires r.llm.Valid()
    ensures var s := Run(r, o, world, task, start, counts);
            s.finished ==> r.problems(s.world) == []
  {
    hide Run;
    EveryStageIsKept(r, o, world, task, start, counts);
  }

  /** Over a stage the provider sees at most (iterations + 3) times the attempt limit. */
  lemma ProviderAttemptsAreBounded<W>(r: Role<W>, o: Outside, world: W, task: string, start: real, counts: Counters)
    requires r.llm.Valid()
    ensures var s := Run(r, o, world, task, start, counts);
            s.counts.requests <= counts.requests
              + (AgentLoop.Iterations(r) + FINALIZATION_ITERATIONS) * r.llm.maxAttempts
  {
    hide Run, Gated, Contained, Asked, Streaked;
    EveryStageIsKept(r, o, world, task, start, counts);
    var s := Run(r, o, world, task, start, counts);
    var most := AgentLoop.Iterations(r) + FINALIZATION_ITERATIONS;
    assert s.requests * r.llm.maxAttempts <= most * r.llm.maxAttempts by {
      assert (most - s.requests) * r.llm.maxAttempts >= 0;
    }
  }

  // ----------------------------------------------------------------------------------------
  // What the tools keep of the world
  // ----------------------------------------------------------------------------------------

  /** What every tool of the role keeps, whatever it is called with. */
  ghost predicate ToolsKeep<W(!new)>(r: Role<W>, inv: W -> bool) {
    forall w: W, c: ToolCall | inv(w) && c.tool.Some? && c.tool.value in r.tools && c.tool.value != "finish" ::
      inv(r.act(w, c).0)
  }

  lemma OneKeepsWorld<W(!new)>(r: Role<W>, inv: W -> bool, s: Stage<W>, c: ToolCall, iteration: nat, final: bool)
    requires ToolsKeep(r, inv) && inv(s.world)
    ensures inv(One(r, s, c, iteration, final).world)
  {
  }

  lemma {:induction false} RunCallsKeepWorld<W(!new)>(r: Role<W>, inv: W -> bool, s: Stage<W>, calls: seq<ToolCall>,
                                                      n: nat, iteration: nat, final: bool)
    requires ToolsKeep(r, inv) && inv(s.world) && n <= |calls|
    ensures inv(RunCalls(r, s, calls, n, iteration, final).world)
  {
    hide One, ToolsKeep;
    if n > 0 {
      RunCallsKeepWorld(r, inv, s, calls, n - 1, iteration, final);
      OneKeepsWorld(r, inv, RunCalls(r, s, calls, n - 1, iteration, final), calls[n - 1], iteration, final);
    }
  }

  lemma AskingKeepsWorld<W>(r: Role<W>, o: Outside, s: Stage<W>, iteration: nat, final: bool)
    requires r.llm.Valid()
    ensures Ask(r, o, s, iteration, final).world == s.world && Recover(r, s).world == s.world
  {
    hide Answer, Chars;
  }

  lemma {:induction false} FinalTurnsKeepWorld<W(!new)>(r: Role<W>, inv: W -> bool, o: Outside, s: Stage<W>, k: nat)
    requires r.llm.Valid() && ToolsKeep(r, inv) && inv(s.world)
    ensures inv(FinalTurns(r, o, s, k).world)
  {
    hide Ask, Recover, RunCalls, ToolsKeep, Usable, Trim;
    if k > 0 {
      FinalTurnsKeepWorld(r, inv, o, s, k - 1);
      var before := FinalTurns(r, o, s, k - 1);
      var trimmed := before.(messages := Trim(before.messages));
      AskingKeepsWorld(r, o, trimmed, k, true);
      var asked := Ask(r, o, trimmed, k, true);
      var calls := r.parse(asked.reply);
      AskingKeepsWorld(r, o, Noted(asked, false), k, true);
      RunCallsKeepWorld(r, inv, Noted(asked, true).(messages := asked.messages + [Message("assistant", asked.reply)]),
                        calls, |calls|, k, true);
    }
  }

  lemma TurnKeepsWorld<W(!new)>(r: Role<W>, inv: W -> bool, o: Outside, s: Stage<W>, iteration: nat)
    requires r.llm.Valid() && ToolsKeep(r, inv) && inv(s.world)
    ensures inv(Turn(r, o, s, iteration).world)
  {
    hide Ask, Recover, RunCalls, ToolsKeep, Usable, Prompt, FinalTurns, Trim;
    var asking := s.(messages := Prompt(r, s.messages, iteration));
    AskingKeepsWorld(r, o, asking, iteration, false);
    var asked := Ask(r, o, asking, iteration, false);
    var calls := r.parse(asked.reply);
    AskingKeepsWorld(r, o, Noted(asked, false), iteration, false);
    var repaired := Recover(r, Noted(asked, false));
    FinalTurnsKeepWorld(r, inv, o, Forced(r, repaired, Stalled), FINALIZATION_ITERATIONS);
    RunCallsKeepWorld(r, inv, Noted(asked, true), calls, |calls|, iteration, false);
  }

  lemma {:induction false} TurnsKeepWorld<W(!new)>(r: Role<W>, inv: W -> bool, o: Outside, s: Stage<W>, deadline: real,
                                                   n: nat)
    requires r.llm.Valid() && ToolsKeep(r, inv) && inv(s.world)
    ensures inv(Turns(r, o, s, deadline, n).world)
  {
    hide Turn, ToolsKeep, FinalTurns, Trim;
    if n > 0 {
      TurnsKeepWorld(r, inv, o, s, deadline, n - 1);
      var before := Turns(r, o, s, deadline, n - 1);
      var later := before.(now := before.now + o.pause(n));
      FinalTurnsKeepWorld(r, inv, o, Forced(r, later, WallTime), FINALIZATION_ITERATIONS);
      TurnKeepsWorld(r, inv, o, later, n);
    }
  }

  /** What every tool of a role keeps of the world, every stage of the role keeps. */
  lemma StageKeepsWorld<W(!new)>(r: Role<W>, inv: W -> bool, o: Outside, world: W, task: string, start: real,
                                 counts: Counters)
    requires r.llm.Valid() && ToolsKeep(r, inv) && inv(world)
    ensures inv(Run(r, o, world, task, start, counts).world)
  {
    hide Turns, ToolsKeep, FinalTurns, Trim;
    var s0 := Begin(r, world, task, start, counts);
    TurnsKeepWorld(r, inv, o, s0, start + r.wall, AgentLoop.Iterations(r));
    var s := Turns(r, o, s0, start + r.wall, AgentLoop.Iterations(r));
    FinalTurnsKeepWorld(r, inv, o, Forced(r, s, OutOfIterations), FINALIZATION_ITERATIONS);
  }
}
