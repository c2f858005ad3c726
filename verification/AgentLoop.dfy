/** The bounded loop of one agent stage (src/core/agent_loop.py, `run`): requests with
    a growing token budget, tool calls, repair of unusable replies and forced finalisation. */
module AgentLoop {
  import opened Wrappers
  import opened LlmClient
  import opened ContextWindow

  const CHECKPOINT_WINDOW := 5
  const FINALIZATION_ITERATIONS: nat := 3
  const DEFAULT_AGENT_MAX_TOKENS: nat := 8192
  const MAX_AGENT_MAX_TOKENS: nat := 16384
  const FINAL_TOOLS := {"update_spec", "append_spec", "write_file", "read_spec", "log_decision", "log_observation",
                        "finish"}

  /** A parsed call; its name is missing when it is not a string. */
  datatype ToolCall = ToolCall(tool: Option<string>, text: string)

  type Natural = n: nat | n >= 1 witness 1

  /** One stage's settings: the role's tools, the call check, what a tool does to the world and
      answers, what the completion validator finds missing (nothing when there is none), how
      calls are read from a reply, and the texts put to the model. */
  datatype Role<!W> = Role(
    tools: set<string>, check: ToolCall -> Option<string>, act: (W, ToolCall) -> (W, string),
    problems: W -> seq<string>,
    parse: string -> seq<ToolCall>, checkpoint: nat -> string, repair: (seq<ToolCall>, string) -> string,
    forced: Reason -> string, refusal: Option<string> -> string, feedback: seq<string> -> string,
    maxIterations: int, minIterations: int, maxTokens: Natural, maxErrors: Natural, wall: real, llm: Config)

  /** What the outside does: the rounds of each logical request, the time before its first
      attempt, and the time each iteration's tools take. */
  datatype Outside = Outside(rounds: nat -> nat -> Round, lag: nat -> Duration, pause: nat -> Duration)

  datatype Reason = OutOfIterations | WallTime | Stalled

  datatype Entry =
    | Requested(tokens: nat, final: bool, iteration: nat, chars: nat, at: real)
    | Ran(call: ToolCall, final: bool)
    | Accepted(final: bool, iteration: nat)
    | Parsed(reply: string, usable: bool)
    | Forcing(why: Reason, at: real)

  datatype Stage<W> = Stage(
    world: W, messages: seq<Message>, reply: string, results: seq<string>, retained: Natural, current: Natural,
    requests: nat, errors: nat, finished: bool, crashed: bool, reason: Option<Reason>, finish: string,
    now: real, counts: Counters, log: seq<Entry>)

  function Least(x: nat, y: nat): nat {
    if x <= y then x else y
  }

  function Greatest(x: nat, y: nat): (g: nat)
    ensures g >= x && g >= y
  {
    if x >= y then x else y
  }

  function Capped(x: nat): (c: nat)
    ensures x >= 1 ==> c >= 1
  {
    Least(x, MAX_AGENT_MAX_TOKENS)
  }

  predicate Over<W>(s: Stage<W>) {
    s.finished || s.crashed || s.reason.Some?
  }

  // ----------------------------------------------------------------------------------------
  // One request
  // ----------------------------------------------------------------------------------------

  /** The outcome of a logical request that asks for `tokens`. */
  function Answer<W>(r: Role<W>, o: Outside, s: Stage<W>, tokens: Natural): Session
    requires r.llm.Valid()
  {
    var n := s.requests + 1;
    Attempts(r.llm, Call(r.llm.maxAttempts, tokens, s.now + r.llm.retryBudget), o.rounds(n),
             Session(s.now + o.lag(n), tokens, s.counts, None, [], None), r.llm.maxAttempts)
  }

  /** `_chat`. */
  function Ask<W>(r: Role<W>, o: Outside, s: Stage<W>, iteration: nat, final: bool): Stage<W>
    requires r.llm.Valid()
  {
    var tokens := Capped(Greatest(s.current, s.retained));
    var end := Answer(r, o, s, tokens);
    Heard(s.(counts := end.counts), tokens, end.exit, end.meta, end.now, iteration, final)
  }

  /** What the stage keeps of a logical request that asked for `tokens`. */
  function Heard<W>(s: Stage<W>, tokens: Natural, exit: Option<Exit>, meta: Option<Metadata>, now: real,
                 iteration: nat, final: bool): Stage<W>
  {
    Answered(s.(requests := s.requests + 1, now := now,
            log := s.log + [Requested(tokens, final, iteration, Chars(s.messages), s.now)]),
         tokens, exit, meta)
  }

  function Answered<W>(s: Stage<W>, tokens: Natural, exit: Option<Exit>, meta: Option<Metadata>): Stage<W> {
    if exit.Some? && exit.value.Returned? then
      s.(reply := exit.value.text, finish := if meta.Some? then meta.value.finish else "",
         retained := Capped(Greatest(tokens, if meta.Some? then meta.value.maxTokens else tokens)))
    else s.(crashed := true)
  }

  /** `_recover_protocol_error`. */
  function Recover<W>(r: Role<W>, s: Stage<W>): Stage<W> {
    var previous := Capped(Greatest(s.current, s.retained));
    var next := if s.finish == "length" || s.finish == "max_tokens" then Capped(previous * 2) else previous;
    s.(retained := next, current := next,
       messages := s.messages + (if s.reply != "" then [Message("assistant", s.reply)] else [])
                              + [Message("user", r.repair(r.parse(s.reply), s.finish))])
  }

  // ----------------------------------------------------------------------------------------
  // Tool calls
  // ----------------------------------------------------------------------------------------

  predicate Allowed<W>(r: Role<W>, tool: string) {
    tool == "finish" || tool in r.tools
  }

  predicate Checked<W>(r: Role<W>, c: ToolCall) {
    c.tool.Some? && r.check(c).None?
  }

  /** A reply is usable when at least one of its calls passes the check and is the role's. */
  predicate Usable<W>(r: Role<W>, calls: seq<ToolCall>) {
    exists i | 0 <= i < |calls| :: Checked(r, calls[i]) && Allowed(r, calls[i].tool.value)
  }

  /** `_execute_tool`, `finish` included. */
  function Execute<W>(r: Role<W>, s: Stage<W>, c: ToolCall, iteration: nat, final: bool): Stage<W> {
    if !Checked(r, c) then s.(results := s.results + [r.check(c).GetOr(r.refusal(None))])
    else
      var tool := c.tool.value;
      if !Allowed(r, tool) then s.(results := s.results + [r.refusal(Some(tool))])
      else if tool == "finish" then
        if r.problems(s.world) != [] then s.(results := s.results + r.problems(s.world))
        else s.(results := s.results + [c.text], finished := true, log := s.log + [Accepted(final, iteration)])
      else
        var (world, text) := r.act(s.world, c);
        s.(world := world, results := s.results + [text], log := s.log + [Ran(c, final)])
  }

  /** One call: refused for finishing early or for not being a finalisation tool, else executed. */
  function One<W>(r: Role<W>, s: Stage<W>, c: ToolCall, iteration: nat, final: bool): Stage<W> {
    if final && (c.tool.None? || c.tool.value !in FINAL_TOOLS) then s.(results := s.results + [r.refusal(c.tool)])
    else if !final && c.tool == Some("finish") && iteration < r.minIterations then
      s.(results := s.results + [r.refusal(c.tool)])
    else Execute(r, s, c, iteration, final)
  }

  /** The first `n` calls, none of them after an accepted finish. */
  function RunCalls<W>(r: Role<W>, s: Stage<W>, calls: seq<ToolCall>, n: nat, iteration: nat, final: bool): Stage<W>
    requires n <= |calls|
  {
    if n == 0 then s.(results := [])
    else
      var before := RunCalls(r, s, calls, n - 1, iteration, final);
      if before.finished then before else One(r, before, calls[n - 1], iteration, final)
  }

  // ----------------------------------------------------------------------------------------
  // Forced finalisation
  // ----------------------------------------------------------------------------------------

  /** A reply without a usable call counts as one more error in a row; a usable one ends the row. */
  function Noted<W>(s: Stage<W>, usable: bool): Stage<W> {
    s.(errors := if usable then 0 else s.errors + 1, log := s.log + [Parsed(s.reply, usable)])
  }

  function FinalTurn<W>(r: Role<W>, o: Outside, s: Stage<W>, k: nat): Stage<W>
    requires r.llm.Valid()
  {
    var asked := Ask(r, o, s.(messages := Trim(s.messages)), k, true);
    var calls := r.parse(asked.reply);
    if asked.crashed then asked
    else if !Usable(r, calls) then Recover(r, Noted(asked, false))
    else
      var ready := Noted(asked, true).(messages := asked.messages + [Message("assistant", asked.reply)]);
      var ran := RunCalls(r, ready, calls, |calls|, k, true);
      ran.(messages := ran.messages + [Message("user", r.feedback(ran.results))])
  }

  function FinalTurns<W>(r: Role<W>, o: Outside, s: Stage<W>, k: nat): Stage<W>
    requires r.llm.Valid()
  {
    if k == 0 then s
    else
      var before := FinalTurns(r, o, s, k - 1);
      if before.finished || before.crashed then before else FinalTurn(r, o, before, k)
  }

  /** The stage as `_force_finalize` starts its turns. */
  function Forced<W>(r: Role<W>, s: Stage<W>, reason: Reason): Stage<W> {
    s.(messages := Trim(s.messages) + [Message("user", r.forced(reason))], errors := 0, reason := Some(reason),
       log := s.log + [Forcing(reason, s.now)], current := Capped(Greatest(s.current, DEFAULT_AGENT_MAX_TOKENS)))
  }

  function ForceFinalize<W>(r: Role<W>, o: Outside, s: Stage<W>, reason: Reason): Stage<W>
    requires r.llm.Valid()
  {
    FinalTurns(r, o, Forced(r, s, reason), FINALIZATION_ITERATIONS)
  }

  // ----------------------------------------------------------------------------------------
  // The whole stage
  // ----------------------------------------------------------------------------------------

  /** The conversation an iteration asks with: trimmed, and with a checkpoint near the end. */
  function Prompt<W>(r: Role<W>, messages: seq<Message>, iteration: nat): seq<Message> {
    var remaining := r.maxIterations - iteration;
    Trim(messages) + if 0 < remaining <= CHECKPOINT_WINDOW then [Message("user", r.checkpoint(remaining))] else []
  }

  function Turn<W>(r: Role<W>, o: Outside, s: Stage<W>, iteration: nat): Stage<W>
    requires r.llm.Valid()
  {
    var asked := Ask(r, o, s.(messages := Prompt(r, s.messages, iteration)), iteration, false);
    var calls := r.parse(asked.reply);
    if asked.crashed then asked
    else if !Usable(r, calls) then
      var repaired := Recover(r, Noted(asked, false));
      if repaired.errors >= r.maxErrors then ForceFinalize(r, o, repaired, Stalled) else repaired
    else
      var ran := RunCalls(r, Noted(asked, true), calls, |calls|, iteration, false);
      ran.(messages := ran.messages + [Message("assistant", ran.reply), Message("user", r.feedback(ran.results))])
  }

  function Iterate<W>(r: Role<W>, o: Outside, s: Stage<W>, deadline: real, iteration: nat): Stage<W>
    requires r.llm.Valid()
  {
    var later := s.(now := s.now + o.pause(iteration));
    if later.now >= deadline then ForceFinalize(r, o, later, WallTime) else Turn(r, o, later, iteration)
  }

  function Turns<W>(r: Role<W>, o: Outside, s: Stage<W>, deadline: real, n: nat): Stage<W>
    requires r.llm.Valid()
  {
    if n == 0 then s
    else
      var before := Turns(r, o, s, deadline, n - 1);
      if Over(before) then before else Iterate(r, o, before, deadline, n)
  }

  /** The stage before its first iteration. */
  function Begin<W>(r: Role<W>, world: W, task: string, start: real, counts: Counters): Stage<W> {
    Stage(world, [Message("user", task)], "", [], Capped(r.maxTokens), Capped(r.maxTokens), 0, 0, false, false,
          None, "", start, counts, [])
  }

  function Iterations<W>(r: Role<W>): nat {
    if r.maxIterations > 0 then r.maxIterations else 0
  }

  /** `run`. */
  function Run<W>(r: Role<W>, o: Outside, world: W, task: string, start: real, counts: Counters): Stage<W>
    requires r.llm.Valid()
  {
    var s := Turns(r, o, Begin(r, world, task, start, counts), start + r.wall, Iterations(r));
    if Over(s) then s else ForceFinalize(r, o, s, OutOfIterations)
  }

  class Loop<W> {
    const r: Role<W>
    const llm: LLMClient
    var world: W
    var messages: seq<Message>
    var reply: string
    var results: seq<string>
    var retained: Natural
    var current: Natural
    var requests: nat
    var errors: nat
    var finished: bool
    var crashed: bool
    var reason: Option<Reason>
    var finish: string
    var now: real
    var log: seq<Entry>

    ghost predicate Valid() {
      r.llm.Valid() && llm.cfg == r.llm
    }

    ghost function State(): Stage<W>
      reads this, llm
    {
      Stage(world, messages, reply, results, retained, current, requests, errors, finished, crashed, reason, finish,
            now, llm.counts, log)
    }

    constructor (r: Role<W>, llm: LLMClient, world: W, start: real)
      requires r.llm.Valid() && llm.cfg == r.llm
      ensures Valid() && this.r == r && this.llm == llm
      ensures State() == Begin(r, world, "", start, llm.counts).(messages := [])
    {
      this.r, this.llm, this.world, this.now := r, llm, world, start;
      messages, reply, results, log := [], "", [], [];
      retained, current := Capped(r.maxTokens), Capped(r.maxTokens);
      requests, errors, finished, crashed, reason, finish := 0, 0, false, false, None, "";
    }

    /** The call into the client. */
    method Send(o: Outside, tokens: Natural) returns (exit: Option<Exit>, end: real)
      requires Valid()
      modifies llm
      ensures var a := Answer(r, o, old(State()), tokens);
              exit == a.exit && end == a.now && llm.counts == a.counts && llm.meta == a.meta
    {
      hide Attempts;
      ghost var s := State();
      var trace;
      exit, trace, end := llm.Chat(tokens, None, o.rounds(requests + 1), now, o.lag(requests + 1));
    }

    /** `_chat`: one logical request; `crashed` when the client raised. */
    method Chat(o: Outside, iteration: nat, final: bool)
      requires Valid()
      modifies this, llm
      ensures State() == Ask(r, o, old(State()), iteration, final)
    {
      hide Answer, Heard, Capped, Greatest;
      var tokens := Capped(Greatest(current, retained));
      var exit, end := Send(o, tokens);
      Hear(tokens, exit, end, iteration, final);
    }

    /** The reply and what it says about the budget, or the client's exception. */
    method Keep(tokens: Natural, exit: Option<Exit>)
      modifies this
      ensures State() == Answered(old(State()), tokens, exit, llm.meta)
    {
      hide Capped, Greatest;
      var meta := llm.meta;
      if exit.Some? && exit.value.Returned? {
        var used := if meta.Some? then meta.value.maxTokens else tokens;
        reply, finish := exit.value.text, if meta.Some? then meta.value.finish else "";
        retained := Capped(Greatest(tokens, used));
      } else {
        crashed := true;
      }
    }

    method Hear(tokens: Natural, exit: Option<Exit>, end: real, iteration: nat, final: bool)
      modifies this
      ensures State() == Heard(old(State()), tokens, exit, llm.meta, end, iteration, final)
    {
      hide Answered, Chars;
      log := log + [Requested(tokens, final, iteration, Chars(messages), now)];
      requests, now := requests + 1, end;
      Keep(tokens, exit);
    }

    method RecoverProtocolError()
      modifies this
      ensures State() == Recover(r, old(State()))
    {
      hide Capped, Greatest;
      var previous := Capped(Greatest(current, retained));
      current := previous;
      if finish == "length" || finish == "max_tokens" {
        current := Capped(previous * 2);
      }
      retained := current;
      var calls := r.parse(reply);
      if reply != "" {
        messages := messages + [Message("assistant", reply)];
      }
      messages := messages + [Message("user", r.repair(calls, finish))];
    }

    /** `_execute_tool` and the branches of `_dispatch_tool` that the protocol depends on. */
    method ExecuteTool(c: ToolCall, iteration: nat, final: bool)
      modifies this
      ensures State() == Execute(r, old(State()), c, iteration, final)
    {
      if c.tool.None? || r.check(c).Some? {
        results := results + [r.check(c).GetOr(r.refusal(None))];
        return;
      }
      var tool := c.tool.value;
      if tool != "finish" && tool !in r.tools {
        results := results + [r.refusal(Some(tool))];
        return;
      }
      if tool == "finish" {
        var problems := r.problems(world);
        if problems != [] {
          results := results + problems;
          return;
        }
        finished := true;
        results := results + [c.text];
        log := log + [Accepted(final, iteration)];
        return;
      }
      var (after, text) := r.act(world, c);
      world := after;
      results := results + [text];
      log := log + [Ran(c, final)];
    }

    /** The inner loop over the calls of one reply, in either phase. */
    method RunTools(calls: seq<ToolCall>, iteration: nat, final: bool)
      requires !finished
      modifies this
      ensures State() == RunCalls(r, old(State()), calls, |calls|, iteration, final)
    {
      hide Execute;
      results := [];
      var i := 0;
      ghost var s := old(State());
      while i < |calls| && !finished
        invariant 0 <= i <= |calls|
        invariant State() == RunCalls(r, s, calls, i, iteration, final)
        decreases |calls| - i
      {
        var c := calls[i];
        if final && (c.tool.None? || c.tool.value !in FINAL_TOOLS) {
          results := results + [r.refusal(c.tool)];
        } else if !final && c.tool == Some("finish") && iteration < r.minIterations {
          results := results + [r.refusal(c.tool)];
        } else {
          ExecuteTool(c, iteration, final);
        }
        i := i + 1;
      }
      FinishedStays(r, s, calls, i, |calls|, iteration, final);
    }

    method UsableCalls(calls: seq<ToolCall>) returns (usable: bool)
      ensures usable == Usable(r, calls)
    {
      for i := 0 to |calls|
        invariant forall k | 0 <= k < i :: !(Checked(r, calls[k]) && Allowed(r, calls[k].tool.value))
      {
        if Checked(r, calls[i]) && Allowed(r, calls[i].tool.value) {
          return true;
        }
      }
      return false;
    }

    /** The count of unusable replies in a row, and the trace of the parse. */
    method Note(usable: bool)
      modifies this
      ensures State() == Noted(old(State()), usable) && finished == old(finished)
    {
      errors := if usable then 0 else errors + 1;
      log := log + [Parsed(reply, usable)];
    }

    method FinalIteration(o: Outside, k: nat)
      requires Valid() && !finished && !crashed
      modifies this, llm
      ensures State() == FinalTurn(r, o, old(State()), k)
    {
      hide Ask, Recover, RunCalls, Usable, Trim;
      messages := TrimMessages(messages);
      Chat(o, k, true);
      if crashed {
        return;
      }
      var calls := r.parse(reply);
      var usable := UsableCalls(calls);
      StillWorking(r, o, old(State()).(messages := Trim(old(messages))), k, true);
      if !usable {
        Note(false);
        RecoverProtocolError();
        return;
      }
      Note(true);
      messages := messages + [Message("assistant", reply)];
      RunTools(calls, k, true);
      messages := messages + [Message("user", r.feedback(results))];
    }

    method Shorten(note: Message)
      modifies this
      ensures State() == old(State()).(messages := Trim(old(messages)) + [note])
    {
      hide Trim;
      var trimmed := TrimMessages(messages);
      messages := trimmed + [note];
    }

    method StartFinal(why: Reason)
      modifies this
      ensures State() == Forced(r, old(State()), why)
    {
      hide Trim, Capped, Greatest;
      Shorten(Message("user", r.forced(why)));
      current := Capped(Greatest(current, DEFAULT_AGENT_MAX_TOKENS));
      errors, reason, log := 0, Some(why), log + [Forcing(why, now)];
    }

    /** `_force_finalize`. */
    method Finalize(o: Outside, why: Reason)
      requires Valid() && !finished && !crashed
      modifies this, llm
      ensures State() == ForceFinalize(r, o, old(State()), why)
    {
      hide FinalTurn, Forced;
      StartFinal(why);
      ghost var s := State();
      var k: nat := 0;
      while k < FINALIZATION_ITERATIONS && !finished && !crashed
        invariant k <= FINALIZATION_ITERATIONS
        invariant State() == FinalTurns(r, o, s, k)
        decreases FINALIZATION_ITERATIONS - k
      {
        k := k + 1;
        FinalIteration(o, k);
      }
      FinalStops(r, o, s, k, FINALIZATION_ITERATIONS);
    }

    method Iteration(o: Outside, iteration: nat)
      requires Valid() && !Over(State())
      modifies this, llm
      ensures State() == Turn(r, o, old(State()), iteration)
    {
      hide Ask, Recover, RunCalls, Usable, Trim, ForceFinalize, Noted;
      messages := TrimMessages(messages);
      var remaining := r.maxIterations - iteration;
      if 0 < remaining <= CHECKPOINT_WINDOW {
        messages := messages + [Message("user", r.checkpoint(remaining))];
      }
      assert messages == Prompt(r, old(messages), iteration);
      Chat(o, iteration, false);
      if crashed {
        return;
      }
      var calls := r.parse(reply);
      var usable := UsableCalls(calls);
      ghost var asking := old(State()).(messages := Prompt(r, old(messages), iteration));
      StillWorking(r, o, asking, iteration, false);
      if !usable {
        Note(false);
        RecoverProtocolError();
        if errors >= r.maxErrors {
          Finalize(o, Stalled);
        }
        return;
      }
      Note(true);
      RunTools(calls, iteration, false);
      messages := messages + [Message("assistant", reply), Message("user", r.feedback(results))];
    }

    method NextIteration(o: Outside, deadline: real, iteration: nat)
      requires Valid() && !Over(State())
      modifies this, llm
      ensures State() == Iterate(r, o, old(State()), deadline, iteration)
    {
      hide Turn, ForceFinalize;
      now := now + o.pause(iteration);
      if now >= deadline {
        Finalize(o, WallTime);
      } else {
        Iteration(o, iteration);
      }
    }

    /** The iterations, until the stage is over or none is left. */
    method RunIterations(o: Outside, deadline: real)
      requires Valid() && !Over(State())
      modifies this, llm
      ensures State() == Turns(r, o, old(State()), deadline, Iterations(r))
    {
      hide Iterate;
      ghost var s := State();
      var iteration: nat := 0;
      while iteration < r.maxIterations && !finished && !crashed && reason.None?
        invariant iteration <= Iterations(r)
        invariant State() == Turns(r, o, s, deadline, iteration)
        decreases r.maxIterations - iteration
      {
        iteration := iteration + 1;
        NextIteration(o, deadline, iteration);
      }
      TurnsStop(r, o, s, deadline, iteration, Iterations(r));
    }

    method RunStage(o: Outside, task: string) returns (completed: bool)
      requires Valid() && State() == Begin(r, world, "", now, llm.counts).(messages := [])
      modifies this, llm
      ensures State() == Run(r, o, old(world), task, old(now), old(llm.counts))
      ensures completed == finished
    {
      hide Turns, ForceFinalize;
      messages := [Message("user", task)];
      RunIterations(o, now + r.wall);
      if !(finished || crashed || reason.Some?) {
        Finalize(o, OutOfIterations);
      }
      completed := finished;
    }
  }

  lemma {:induction false} FinishedStays<W>(r: Role<W>, s: Stage<W>, calls: seq<ToolCall>, i: nat, n: nat,
                                            iteration: nat, final: bool)
    requires i <= n <= |calls|
    requires i < n ==> RunCalls(r, s, calls, i, iteration, final).finished
    ensures RunCalls(r, s, calls, n, iteration, final) == RunCalls(r, s, calls, i, iteration, final)
    decreases n
  {
    hide One;
    if i < n {
      FinishedStays(r, s, calls, i, n - 1, iteration, final);
    }
  }

  lemma {:induction false} FinalStops<W>(r: Role<W>, o: Outside, s: Stage<W>, k: nat, n: nat)
    requires r.llm.Valid() && k <= n
    requires k < n ==> FinalTurns(r, o, s, k).finished || FinalTurns(r, o, s, k).crashed
    ensures FinalTurns(r, o, s, n) == FinalTurns(r, o, s, k)
    decreases n
  {
    hide FinalTurn;
    if k < n {
      FinalStops(r, o, s, k, n - 1);
    }
  }

  lemma {:induction false} TurnsStop<W>(r: Role<W>, o: Outside, s: Stage<W>, deadline: real, k: nat, n: nat)
    requires r.llm.Valid() && k <= n
    requires k < n ==> Over(Turns(r, o, s, deadline, k))
    ensures Turns(r, o, s, deadline, n) == Turns(r, o, s, deadline, k)
    decreases n
  {
    hide Iterate;
    if k < n {
      TurnsStop(r, o, s, deadline, k, n - 1);
    }
  }

  /** Asking and repairing neither finish a stage nor end it for another reason. */
  lemma StillWorking<W>(r: Role<W>, o: Outside, s: Stage<W>, iteration: nat, final: bool)
    requires r.llm.Valid()
    ensures var a := Ask(r, o, s, iteration, final);
            && a.finished == s.finished && a.reason == s.reason && a.world == s.world
            && Recover(r, Noted(a, false)).finished == s.finished && Recover(r, Noted(a, false)).crashed == a.crashed
  {
    hide Attempts;
  }
}
