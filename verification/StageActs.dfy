/** What an agent stage does with the replies it gets: the world at its end is what the logged tool calls made
    of it, and every usable reply has exactly its runnable calls run, in order. */
module StageActs {
  import opened Wrappers
  import opened LlmClient
  import opened ContextWindow
  import opened AgentLoop
  import opened StageFacts

  // ----------------------------------------------------------------------------------------
  // What a reply should lead to
  // ----------------------------------------------------------------------------------------

  predicate Passes<W>(r: Role<W>, c: ToolCall) {
    c.tool.Some? && r.check(c).None?
  }

  /** The call is checked, one of the role's tools, in phase and not the finish. */
  predicate Runnable<W>(r: Role<W>, c: ToolCall, final: bool) {
    Passes(r, c) && c.tool.value != "finish" && c.tool.value in r.tools && (final ==> c.tool.value in FINAL_TOOLS)
  }

  /** A finish that is accepted in world `w`. */
  predicate Finishes<W>(r: Role<W>, w: W, c: ToolCall, iteration: nat, final: bool) {
    Passes(r, c) && c.tool.value == "finish" && (final || iteration >= r.minIterations) && r.problems(w) == []
  }

  /** The entries a reply should leave: each runnable call in order, until a finish is accepted. */
  function Expected<W>(r: Role<W>, w: W, calls: seq<ToolCall>, iteration: nat, final: bool): seq<Entry>
    decreases |calls|
  {
    if calls == [] then []
    else if Runnable(r, calls[0], final) then
      [Ran(calls[0], final)] + Expected(r, r.act(w, calls[0]).0, calls[1..], iteration, final)
    else if Finishes(r, w, calls[0], iteration, final) then [Accepted(final, iteration)]
    else Expected(r, w, calls[1..], iteration, final)
  }

  /** What the model is told about a call that neither runs nor finishes. */
  function Refused<W>(r: Role<W>, w: W, c: ToolCall, iteration: nat, final: bool): seq<string> {
    if final && !(c.tool.Some? && c.tool.value in FINAL_TOOLS) then [r.refusal(c.tool)]
    else if !final && c.tool == Some("finish") && iteration < r.minIterations then [r.refusal(c.tool)]
    else if !Passes(r, c) then [if r.check(c).Some? then r.check(c).value else r.refusal(None)]
    else if c.tool.value == "finish" then r.problems(w)
    else [r.refusal(c.tool)]
  }

  /** The results of a reply: the answer of each call that runs, and why another did not. */
  function Answers<W>(r: Role<W>, w: W, calls: seq<ToolCall>, iteration: nat, final: bool): seq<string>
    decreases |calls|
  {
    if calls == [] then []
    else if Runnable(r, calls[0], final) then
      [r.act(w, calls[0]).1] + Answers(r, r.act(w, calls[0]).0, calls[1..], iteration, final)
    else if Finishes(r, w, calls[0], iteration, final) then [calls[0].text]
    else Refused(r, w, calls[0], iteration, final) + Answers(r, w, calls[1..], iteration, final)
  }

  /** The world after the tool calls of a log. */
  function Acted<W>(r: Role<W>, w: W, log: seq<Entry>): W
    decreases |log|
  {
    if log == [] then w
    else
      var before := Acted(r, w, log[..|log| - 1]);
      if log[|log| - 1].Ran? then r.act(before, log[|log| - 1].call).0 else before
  }

  predicate EndsAccepted(log: seq<Entry>) {
    log != [] && log[|log| - 1].Accepted?
  }

  lemma ActedSnoc<W>(r: Role<W>, w: W, log: seq<Entry>, e: Entry)
    ensures Acted(r, w, log + [e]) == if e.Ran? then r.act(Acted(r, w, log), e.call).0 else Acted(r, w, log)
  {
    assert (log + [e])[..|log|] == log;
  }

  lemma {:induction false} ActedAppend<W>(r: Role<W>, w: W, a: seq<Entry>, b: seq<Entry>)
    ensures Acted(r, w, a + b) == Acted(r, Acted(r, w, a), b)
    decreases |b|
  {
    if b == [] {
      assert a + b == a;
    } else {
      ActedAppend(r, w, a, b[..|b| - 1]);
      assert (a + b)[..|a + b| - 1] == a + b[..|b| - 1];
    }
  }

  lemma ActedCons<W>(r: Role<W>, w: W, e: Entry, b: seq<Entry>)
    ensures Acted(r, w, [e] + b) == Acted(r, if e.Ran? then r.act(w, e.call).0 else w, b)
  {
    ActedAppend(r, w, [e], b);
    assert [e] == [] + [e];
    ActedSnoc(r, w, [], e);
  }

  // ----------------------------------------------------------------------------------------
  // One reply
  // ----------------------------------------------------------------------------------------

  lemma ExpectedCons<W>(r: Role<W>, w: W, c: ToolCall, rest: seq<ToolCall>, iteration: nat, final: bool)
    ensures Expected(r, w, [c] + rest, iteration, final)
         == if Runnable(r, c, final) then [Ran(c, final)] + Expected(r, r.act(w, c).0, rest, iteration, final)
            else if Finishes(r, w, c, iteration, final) then [Accepted(final, iteration)]
            else Expected(r, w, rest, iteration, final)
  {
    hide Runnable, Finishes;
    assert ([c] + rest)[1..] == rest;
  }

  lemma AnswersCons<W>(r: Role<W>, w: W, c: ToolCall, rest: seq<ToolCall>, iteration: nat, final: bool)
    ensures Answers(r, w, [c] + rest, iteration, final)
         == if Runnable(r, c, final) then [r.act(w, c).1] + Answers(r, r.act(w, c).0, rest, iteration, final)
            else if Finishes(r, w, c, iteration, final) then [c.text]
            else Refused(r, w, c, iteration, final) + Answers(r, w, rest, iteration, final)
  {
    hide Runnable, Finishes, Refused;
    assert ([c] + rest)[1..] == rest;
  }

  /** One more call after others. */
  lemma {:induction false} ExpectedSnoc<W>(r: Role<W>, w: W, calls: seq<ToolCall>, c: ToolCall, iteration: nat,
                                           final: bool)
    ensures var before := Expected(r, w, calls, iteration, final);
            Expected(r, w, calls + [c], iteration, final)
            == before + (if EndsAccepted(before) then [] else Expected(r, Acted(r, w, before), [c], iteration, final))
    decreases |calls|
  {
    hide Runnable, Finishes, Expected, Acted;
    NothingExpected(r, w, iteration, final);
    if calls == [] {
      assert [] + [c] == [c];
    } else {
      var k, rest := calls[0], calls[1..];
      assert calls == [k] + rest && calls + [c] == [k] + (rest + [c]);
      ExpectedCons(r, w, k, rest, iteration, final);
      ExpectedCons(r, w, k, rest + [c], iteration, final);
      if Runnable(r, k, final) {
        var after := r.act(w, k).0;
        ExpectedSnoc(r, after, rest, c, iteration, final);
        ActedCons(r, w, Ran(k, final), Expected(r, after, rest, iteration, final));
        AcceptedInside(Ran(k, final), Expected(r, after, rest, iteration, final));
      } else if !Finishes(r, w, k, iteration, final) {
        ExpectedSnoc(r, w, rest, c, iteration, final);
      }
    }
  }

  lemma Associates<T>(a: seq<T>, b: seq<T>, c: seq<T>)
    ensures a + (b + c) == a + b + c
  {
  }

  lemma AcceptedAlone(iteration: nat, final: bool)
    ensures EndsAccepted([Accepted(final, iteration)])
  {
  }

  lemma RunsOrFinishes<W>(r: Role<W>, w: W, c: ToolCall, iteration: nat, final: bool)
    ensures !(Runnable(r, c, final) && Finishes(r, w, c, iteration, final))
  {
  }

  lemma AcceptedInside(e: Entry, log: seq<Entry>)
    requires !e.Accepted?
    ensures EndsAccepted([e] + log) <==> EndsAccepted(log)
  {
    if log == [] {
      assert [e] + log == [e];
    }
  }

  lemma {:induction false} AnswersSnoc<W>(r: Role<W>, w: W, calls: seq<ToolCall>, c: ToolCall, iteration: nat,
                                          final: bool)
    ensures var before := Expected(r, w, calls, iteration, final);
            Answers(r, w, calls + [c], iteration, final)
            == Answers(r, w, calls, iteration, final)
               + (if EndsAccepted(before) then [] else Answers(r, Acted(r, w, before), [c], iteration, final))
    decreases |calls|
  {
    hide Runnable, Finishes, Expected, Acted, Answers, Refused, EndsAccepted;
    NothingExpected(r, w, iteration, final);
    if calls == [] {
      assert [] + [c] == [c];
    } else {
      var k, rest := calls[0], calls[1..];
      assert calls == [k] + rest && calls + [c] == [k] + (rest + [c]);
      AnswersCons(r, w, k, rest, iteration, final);
      AnswersCons(r, w, k, rest + [c], iteration, final);
      ExpectedCons(r, w, k, rest, iteration, final);
      if Runnable(r, k, final) {
        var after := r.act(w, k).0;
        var e := Expected(r, after, rest, iteration, final);
        AnswersSnoc(r, after, rest, c, iteration, final);
        ActedCons(r, w, Ran(k, final), e);
        AcceptedInside(Ran(k, final), e);
        Associates([r.act(w, k).1], Answers(r, after, rest, iteration, final),
                   if EndsAccepted(e) then [] else Answers(r, Acted(r, after, e), [c], iteration, final));
      } else if Finishes(r, w, k, iteration, final) {
        AcceptedAlone(iteration, final);
      } else {
        var e := Expected(r, w, rest, iteration, final);
        AnswersSnoc(r, w, rest, c, iteration, final);
        Associates(Refused(r, w, k, iteration, final), Answers(r, w, rest, iteration, final),
                   if EndsAccepted(e) then [] else Answers(r, Acted(r, w, e), [c], iteration, final));
      }
    }
  }

  lemma OneDoesAsExpected<W>(r: Role<W>, s: Stage<W>, c: ToolCall, iteration: nat, final: bool)
    requires !s.finished
    ensures var a := One(r, s, c, iteration, final);
            && a == s.(world := a.world, log := a.log, results := a.results, finished := a.finished)
            && a.log == s.log + Expected(r, s.world, [c], iteration, final)
            && a.results == s.results + Answers(r, s.world, [c], iteration, final)
            && a.world == (if Runnable(r, c, final) then r.act(s.world, c).0 else s.world)
            && (a.finished <==> Finishes(r, s.world, c, iteration, final))
  {
    hide Expected, Answers;
    ExpectedAlone(r, s.world, c, iteration, final);
  }

  lemma ExpectedAlone<W>(r: Role<W>, w: W, c: ToolCall, iteration: nat, final: bool)
    ensures Expected(r, w, [c], iteration, final)
         == if Runnable(r, c, final) then [Ran(c, final)]
            else if Finishes(r, w, c, iteration, final) then [Accepted(final, iteration)]
            else []
    ensures Answers(r, w, [c], iteration, final)
         == if Runnable(r, c, final) then [r.act(w, c).1]
            else if Finishes(r, w, c, iteration, final) then [c.text]
            else Refused(r, w, c, iteration, final)
  {
    hide Runnable, Finishes, Refused;
    assert [c][1..] == [];
  }

  lemma ExpectedOne<W>(r: Role<W>, w: W, c: ToolCall, iteration: nat, final: bool)
    ensures var e := Expected(r, w, [c], iteration, final);
            && Acted(r, w, e) == (if Runnable(r, c, final) then r.act(w, c).0 else w)
            && (EndsAccepted(e) <==> Finishes(r, w, c, iteration, final))
            && (e == [] || e == [Ran(c, final)] || e == [Accepted(final, iteration)])
  {
    hide Expected, Answers, Acted, Runnable, Finishes, Refused;
    ExpectedAlone(r, w, c, iteration, final);
    RunsOrFinishes(r, w, c, iteration, final);
    NothingExpected(r, w, iteration, final);
    NothingExpected(r, r.act(w, c).0, iteration, final);
    assert [Ran(c, final)] + [] == [Ran(c, final)] && [Accepted(final, iteration)] + [] == [Accepted(final, iteration)];
    ActedCons(r, w, Ran(c, final), []);
    ActedCons(r, w, Accepted(final, iteration), []);
  }

  lemma {:induction false} CallsDoAsExpected<W>(r: Role<W>, s: Stage<W>, calls: seq<ToolCall>, n: nat, iteration: nat,
                                                final: bool)
    requires n <= |calls| && !s.finished
    ensures var a, e := RunCalls(r, s, calls, n, iteration, final), Expected(r, s.world, calls[..n], iteration, final);
            && a == s.(world := a.world, log := a.log, results := a.results, finished := a.finished)
            && a.log == s.log + e
            && a.results == Answers(r, s.world, calls[..n], iteration, final)
            && a.world == Acted(r, s.world, e)
            && (a.finished <==> EndsAccepted(e))
  {
    hide One, Acted, Expected, Answers, EndsAccepted, Runnable, Finishes;
    if n == 0 {
      NothingExpected(r, s.world, iteration, final);
      assert calls[..0] == [];
    } else {
      var before, c := RunCalls(r, s, calls, n - 1, iteration, final), calls[n - 1];
      var e := Expected(r, s.world, calls[..n - 1], iteration, final);
      CallsDoAsExpected(r, s, calls, n - 1, iteration, final);
      ExpectedSnoc(r, s.world, calls[..n - 1], c, iteration, final);
      AnswersSnoc(r, s.world, calls[..n - 1], c, iteration, final);
      assert calls[..n] == calls[..n - 1] + [c];
      if !before.finished {
        OneDoesAsExpected(r, before, c, iteration, final);
        ExpectedOne(r, before.world, c, iteration, final);
        ActedAppend(r, s.world, e, Expected(r, before.world, [c], iteration, final));
        AcceptedLast(e, Expected(r, before.world, [c], iteration, final));
      } else {
        assert e + [] == e;
      }
    }
  }

  lemma AcceptedLast(a: seq<Entry>, b: seq<Entry>)
    requires !EndsAccepted(a)
    ensures EndsAccepted(a + b) <==> EndsAccepted(b)
  {
    if b == [] {
      assert a + b == a;
    }
  }

  lemma NothingExpected<W>(r: Role<W>, w: W, iteration: nat, final: bool)
    ensures Expected(r, w, [], iteration, final) == [] && Answers(r, w, [], iteration, final) == []
    ensures Acted(r, w, []) == w && !EndsAccepted([])
  {
  }

  /** The calls of a reply, in whatever state they are run: exactly the runnable ones up to an accepted finish are
      run, in order, each on the world the ones before left; the results are their answers, with the refusals
      between; and nothing else of the stage changes. */
  lemma ReplyIsActedOn<W>(r: Role<W>, s: Stage<W>, calls: seq<ToolCall>, iteration: nat, final: bool)
    requires !s.finished
    ensures var a, e := RunCalls(r, s, calls, |calls|, iteration, final), Expected(r, s.world, calls, iteration, final);
            && a == s.(world := a.world, log := a.log, results := a.results, finished := a.finished)
            && a.log == s.log + e
            && a.results == Answers(r, s.world, calls, iteration, final)
            && a.world == Acted(r, s.world, e)
            && (a.finished <==> EndsAccepted(e))
  {
    hide RunCalls, Expected, Acted, Answers, EndsAccepted;
    CallsDoAsExpected(r, s, calls, |calls|, iteration, final);
    assert calls[..|calls|] == calls;
  }

  // ----------------------------------------------------------------------------------------
  // The log of a stage
  // ----------------------------------------------------------------------------------------

  predicate Counts<W>(r: Role<W>, c: ToolCall) {
    Passes(r, c) && (c.tool.value == "finish" || c.tool.value in r.tools)
  }

  predicate SomeCounts<W>(r: Role<W>, calls: seq<ToolCall>) {
    exists i | 0 <= i < |calls| :: Counts(r, calls[i])
  }

  /** The provider gave this text in some attempt of request number `n`. */
  ghost predicate Said(o: Outside, n: nat, reply: string) {
    exists k: nat :: o.rounds(n)(k).reply.Replied? && o.rounds(n)(k).reply.text == reply
  }

  function AskedIn(log: seq<Entry>, final: bool): nat
    decreases |log|
  {
    if log == [] then 0
    else
      var last := log[|log| - 1];
      AskedIn(log[..|log| - 1], final) + if last.Requested? && last.final == final then 1 else 0
  }

  lemma AskedInSnoc(log: seq<Entry>, e: Entry, final: bool)
    ensures AskedIn(log + [e], final) == AskedIn(log, final) + if e.Requested? && e.final == final then 1 else 0
  {
    assert (log + [e])[..|log|] == log;
  }

  lemma {:induction false} AskedInAppend(log: seq<Entry>, more: seq<Entry>, final: bool)
    requires forall e | e in more :: !e.Requested?
    ensures AskedIn(log + more, final) == AskedIn(log, final) && Asked(log + more) == Asked(log)
    decreases |more|
  {
    if more == [] {
      assert log + more == log;
    } else {
      var init := more[..|more| - 1];
      AskedInAppend(log, init, final);
      assert log + more == log + init + [more[|more| - 1]];
      AskedInSnoc(log + init, more[|more| - 1], final);
      AskedSnoc(log + init, more[|more| - 1]);
    }
  }

  /** What entry `i` of a log says about the entries around it. Requests are numbered in their phase, and each is
      followed by its reply unless the client raised; the reply is one the provider gave, it is usable exactly when
      some call of it counts, and then right after it stand exactly the calls that should run. */
  ghost predicate EntryLaw<W>(r: Role<W>, o: Outside, w0: W, log: seq<Entry>, crashed: bool, i: nat)
    requires i < |log|
  {
    match log[i]
    case Requested(_, final, iteration, _, _) =>
      && iteration == AskedIn(log[..i], final) + 1
      && if i + 1 == |log| then crashed else log[i + 1].Parsed?
    case Parsed(reply, usable) =>
      && i > 0 && log[i - 1].Requested?
      && Said(o, Asked(log[..i]), reply)
      && (usable <==> SomeCounts(r, r.parse(reply)))
      && (var run := if usable then
                       Expected(r, Acted(r, w0, log[..i]), r.parse(reply), log[i - 1].iteration, log[i - 1].final)
                     else [];
          var end := i + 1 + |run|;
          && end <= |log| && log[i + 1..end] == run
          && (end == |log| || log[end].Requested? || log[end].Forcing?))
    case Forcing(_, _) => true
    case _ => i > 0 && !log[i - 1].Requested? && !log[i - 1].Forcing?
  }

  /** Normal requests start before the deadline, and the wall time is only called over when it is. */
  predicate Timed(log: seq<Entry>, deadline: real) {
    && (forall i | 0 <= i < |log| && log[i].Requested? && !log[i].final :: log[i].at < deadline)
    && (forall i | 0 <= i < |log| && log[i].Forcing? && log[i].why.WallTime? :: log[i].at >= deadline)
  }

  ghost predicate Faithful<W>(r: Role<W>, o: Outside, w0: W, deadline: real, s: Stage<W>) {
    && s.world == Acted(r, w0, s.log)
    && s.requests == Asked(s.log)
    && Timed(s.log, deadline)
    && forall i | 0 <= i < |s.log| :: EntryLaw(r, o, w0, s.log, s.crashed, i)
  }

  lemma EntryStays<W>(r: Role<W>, o: Outside, w0: W, log: seq<Entry>, more: seq<Entry>, crashed: bool, i: nat)
    requires i < |log| && EntryLaw(r, o, w0, log, false, i)
    requires more != [] && (more[0].Requested? || more[0].Forcing?)
    ensures EntryLaw(r, o, w0, log + more, crashed, i)
  {
    hide Said, SomeCounts, Expected, Acted, Asked, AskedIn;
    assert (log + more)[..i] == log[..i];
    if log[i].Parsed? {
      var run := if log[i].usable then
                   Expected(r, Acted(r, w0, log[..i]), r.parse(log[i].reply), log[i - 1].iteration, log[i - 1].final)
                 else [];
      assert (log + more)[i + 1..i + 1 + |run|] == log[i + 1..i + 1 + |run|];
    }
  }

  lemma {:induction false} ExpectedEntries<W>(r: Role<W>, w: W, calls: seq<ToolCall>, iteration: nat, final: bool)
    ensures forall e | e in Expected(r, w, calls, iteration, final) :: e.Ran? || e.Accepted?
    decreases |calls|
  {
    hide Runnable, Finishes;
    if calls != [] {
      ExpectedEntries(r, w, calls[1..], iteration, final);
      ExpectedEntries(r, r.act(w, calls[0]).0, calls[1..], iteration, final);
    }
  }

  lemma ForcingKeepsFaith<W>(r: Role<W>, o: Outside, w0: W, deadline: real, s: Stage<W>, why: Reason)
    requires Faithful(r, o, w0, deadline, s) && !s.crashed && (why.WallTime? ==> s.now >= deadline)
    ensures var a := Forced(r, s, why);
            && Faithful(r, o, w0, deadline, a) && a.finished == s.finished && !a.crashed
            && AskedIn(a.log, false) == AskedIn(s.log, false) && AskedIn(a.log, true) == AskedIn(s.log, true)
  {
    hide EntryLaw, Acted, Asked, AskedIn, Trim;
    var a := Forced(r, s, why);
    ActedSnoc(r, w0, s.log, Forcing(why, s.now));
    AskedSnoc(s.log, Forcing(why, s.now));
    AskedInSnoc(s.log, Forcing(why, s.now), false);
    AskedInSnoc(s.log, Forcing(why, s.now), true);
    forall i | 0 <= i < |s.log| ensures EntryLaw(r, o, w0, a.log, a.crashed, i) {
      EntryStays(r, o, w0, s.log, [Forcing(why, s.now)], a.crashed, i);
    }
    ForcingIsLawful(r, o, w0, a.log, a.crashed, |s.log|);
  }

  lemma ForcingIsLawful<W>(r: Role<W>, o: Outside, w0: W, log: seq<Entry>, crashed: bool, i: nat)
    requires i < |log| && log[i].Forcing?
    ensures EntryLaw(r, o, w0, log, crashed, i)
  {
  }

  // ----------------------------------------------------------------------------------------
  // Requests
  // ----------------------------------------------------------------------------------------

  lemma {:induction false} ReturnedWasSaid(cfg: Config, call: Call, world: nat -> Round, s: Session, n: nat)
    returns (k: nat)
    requires cfg.Valid() && s.maxTokens >= 1 && s.exit.None?
    requires Attempts(cfg, call, world, s, n).exit.Some? && Attempts(cfg, call, world, s, n).exit.value.Returned?
    ensures world(k).reply.Replied? && world(k).reply.text == Attempts(cfg, call, world, s, n).exit.value.text
    decreases n
  {
    hide ClassifyError, TimeoutsFor, Delay, IsRefusal, Doubled, GivesUp;
    if Attempts(cfg, call, world, s, n - 1).exit.Some? {
      k := ReturnedWasSaid(cfg, call, world, s, n - 1);
    } else {
      k := n;
    }
  }

  lemma AskShape<W>(r: Role<W>, o: Outside, s: Stage<W>, iteration: nat, final: bool)
    requires r.llm.Valid() && !s.crashed
    ensures var a := Ask(r, o, s, iteration, final);
            && a.world == s.world && a.finished == s.finished && a.reason == s.reason && a.requests == s.requests + 1
            && |a.log| == |s.log| + 1 && a.log == s.log + [a.log[|s.log|]]
            && a.log[|s.log|].Requested? && a.log[|s.log|].at == s.now
            && a.log[|s.log|].final == final && a.log[|s.log|].iteration == iteration
            && (!a.crashed ==> Said(o, s.requests + 1, a.reply))
  {
    hide Attempts, Capped, Greatest, Chars;
    var tokens := Capped(Greatest(s.current, s.retained));
    var end := Answer(r, o, s, tokens);
    if end.exit.Some? && end.exit.value.Returned? {
      var n := s.requests + 1;
      var k := ReturnedWasSaid(r.llm, Call(r.llm.maxAttempts, tokens, s.now + r.llm.retryBudget), o.rounds(n),
                               Session(s.now + o.lag(n), tokens, s.counts, None, [], None), r.llm.maxAttempts);
      assert o.rounds(n)(k).reply.Replied?;
    }
  }

  /** The entries one request adds: itself, and unless the client raised its reply and the calls run for it. */
  function Block<W>(r: Role<W>, w: W, request: Entry, crashed: bool, reply: string, usable: bool): seq<Entry>
    requires request.Requested?
  {
    if crashed then [request] else [request] + [Parsed(reply, usable)] + Runs(r, w, request, reply, usable)
  }

  function Runs<W>(r: Role<W>, w: W, request: Entry, reply: string, usable: bool): seq<Entry>
    requires request.Requested?
  {
    if usable then Expected(r, w, r.parse(reply), request.iteration, request.final) else []
  }

  lemma RequestIsLawful<W>(r: Role<W>, o: Outside, w0: W, log: seq<Entry>, request: Entry, more: seq<Entry>,
                           crashed: bool)
    requires request.Requested? && request.iteration == AskedIn(log, request.final) + 1
    requires if more == [] then crashed else more[0].Parsed?
    ensures EntryLaw(r, o, w0, log + [request] + more, crashed, |log|)
  {
    hide AskedIn;
    var all := log + [request] + more;
    assert all[..|log|] == log && all[|log|] == request;
    assert more != [] ==> all[|log| + 1] == more[0];
  }

  lemma ReplyIsLawful<W>(r: Role<W>, o: Outside, w0: W, log: seq<Entry>, request: Entry, reply: string, usable: bool,
                         run: seq<Entry>, crashed: bool)
    requires request.Requested? && run == Runs(r, Acted(r, w0, log), request, reply, usable)
    requires Said(o, Asked(log) + 1, reply) && (usable <==> SomeCounts(r, r.parse(reply)))
    ensures EntryLaw(r, o, w0, log + [request] + [Parsed(reply, usable)] + run, crashed, |log| + 1)
  {
    hide Said, SomeCounts, Acted, Asked, Expected;
    var all := log + [request] + [Parsed(reply, usable)] + run;
    var i := |log| + 1;
    assert all[..i] == log + [request] && all[i - 1] == request && all[i] == Parsed(reply, usable);
    AskedSnoc(log, request);
    ActedSnoc(r, w0, log, request);
    assert all[i + 1..i + 1 + |run|] == run;
  }

  lemma RunIsLawful<W>(r: Role<W>, o: Outside, w0: W, before: seq<Entry>, parsed: Entry, run: seq<Entry>, crashed: bool,
                       j: nat)
    requires parsed.Parsed? && j < |run| && forall e | e in run :: e.Ran? || e.Accepted?
    ensures EntryLaw(r, o, w0, before + [parsed] + run, crashed, |before| + 1 + j)
  {
    var all := before + [parsed] + run;
    assert all[|before| + 1 + j] == run[j] && run[j] in run;
    if j > 0 {
      assert all[|before| + j] == run[j - 1] && run[j - 1] in run;
    } else {
      assert all[|before| + j] == parsed;
    }
  }

  lemma NewEntriesAreLawful<W>(r: Role<W>, o: Outside, w0: W, log: seq<Entry>, w: W, request: Entry, crashed: bool,
                               reply: string, usable: bool, i: nat)
    requires request.Requested? && request.iteration == AskedIn(log, request.final) + 1 && w == Acted(r, w0, log)
    requires !crashed ==> Said(o, Asked(log) + 1, reply) && (usable <==> SomeCounts(r, r.parse(reply)))
    requires |log| <= i < |log| + |Block(r, w, request, crashed, reply, usable)|
    ensures EntryLaw(r, o, w0, log + Block(r, w, request, crashed, reply, usable), crashed, i)
  {
    hide EntryLaw, Said, SomeCounts, Acted, Asked, AskedIn, Expected, Runs;
    if crashed {
      assert log + [request] + [] == log + [request];
      RequestIsLawful(r, o, w0, log, request, [], crashed);
    } else {
      var parsed, run := Parsed(reply, usable), Runs(r, w, request, reply, usable);
      assert log + Block(r, w, request, crashed, reply, usable) == log + [request] + ([parsed] + run)
          == log + [request] + [parsed] + run;
      if i == |log| {
        RequestIsLawful(r, o, w0, log, request, [parsed] + run, crashed);
      } else if i == |log| + 1 {
        ReplyIsLawful(r, o, w0, log, request, reply, usable, run, crashed);
      } else {
        RunsRunOrAccept(r, w, request, reply, usable);
        RunIsLawful(r, o, w0, log + [request], parsed, run, crashed, i - |log| - 2);
      }
    }
  }

  lemma RunsRunOrAccept<W>(r: Role<W>, w: W, request: Entry, reply: string, usable: bool)
    requires request.Requested?
    ensures forall e | e in Runs(r, w, request, reply, usable) :: e.Ran? || e.Accepted?
  {
    ExpectedEntries(r, w, r.parse(reply), request.iteration, request.final);
  }

  /** A stage that went on by one request, and what it then did, stays faithful. */
  lemma BlockKeepsFaith<W>(r: Role<W>, o: Outside, w0: W, deadline: real, s: Stage<W>, a: Stage<W>, request: Entry,
                           reply: string, usable: bool)
    requires Faithful(r, o, w0, deadline, s) && !s.crashed
    requires request.Requested? && (request.final || request.at < deadline)
             && request.iteration == AskedIn(s.log, request.final) + 1
    requires a.log == s.log + Block(r, s.world, request, a.crashed, reply, usable) && a.requests == s.requests + 1
    requires a.world == if a.crashed then s.world else Acted(r, s.world, Runs(r, s.world, request, reply, usable))
    requires !a.crashed ==> Said(o, s.requests + 1, reply) && (usable <==> SomeCounts(r, r.parse(reply)))
    ensures Faithful(r, o, w0, deadline, a)
    ensures forall final :: AskedIn(a.log, final) == AskedIn(s.log, final) + if final == request.final then 1 else 0
  {
    hide EntryLaw, Said, SomeCounts, Acted, Asked, AskedIn, Expected;
    var block := Block(r, s.world, request, a.crashed, reply, usable);
    forall i | 0 <= i < |a.log| ensures EntryLaw(r, o, w0, a.log, a.crashed, i) {
      if i < |s.log| {
        EntryStays(r, o, w0, s.log, block, a.crashed, i);
      } else {
        NewEntriesAreLawful(r, o, w0, s.log, s.world, request, a.crashed, reply, usable, i);
      }
    }
    BlockIsTimed(r, s.log, s.world, request, a.crashed, reply, usable, deadline);
    BlockCounts(r, w0, s.log, s.world, request, a.crashed, reply, usable);
  }

  lemma BlockIsTimed<W>(r: Role<W>, log: seq<Entry>, w: W, request: Entry, crashed: bool, reply: string, usable: bool,
                        deadline: real)
    requires Timed(log, deadline) && request.Requested? && (request.final || request.at < deadline)
    ensures Timed(log + Block(r, w, request, crashed, reply, usable), deadline)
  {
    hide Runs;
    RunsRunOrAccept(r, w, request, reply, usable);
    var block := Block(r, w, request, crashed, reply, usable);
    forall e | e in block ensures e == request || e.Parsed? || e.Ran? || e.Accepted? {
    }
    forall i | |log| <= i < |log + block| ensures (log + block)[i] in block {
      assert (log + block)[i] == block[i - |log|];
    }
  }

  lemma BlockCounts<W>(r: Role<W>, w0: W, log: seq<Entry>, w: W, request: Entry, crashed: bool, reply: string,
                       usable: bool)
    requires request.Requested? && w == Acted(r, w0, log)
    ensures var all := log + Block(r, w, request, crashed, reply, usable);
            && Asked(all) == Asked(log) + 1
            && Acted(r, w0, all) == (if crashed then w else Acted(r, w, Runs(r, w, request, reply, usable)))
            && forall final :: AskedIn(all, final) == AskedIn(log, final) + if final == request.final then 1 else 0
  {
    hide Acted, Asked, AskedIn, Expected;
    var run := Runs(r, w, request, reply, usable);
    var parsed := Parsed(reply, usable);
    ExpectedEntries(r, w, r.parse(reply), request.iteration, request.final);
    AskedSnoc(log, request);
    ActedSnoc(r, w0, log, request);
    ActedSnoc(r, w0, log + [request], parsed);
    ActedAppend(r, w0, log + [request] + [parsed], run);
    assert log + Block(r, w, request, false, reply, usable) == log + [request] + [parsed] + run;
    forall final ensures AskedIn(log + Block(r, w, request, crashed, reply, usable), final)
                      == AskedIn(log, final) + if final == request.final then 1 else 0
    {
      AskedInSnoc(log, request, final);
      AskedInAppend(log + [request], [parsed] + run, final);
      assert log + [request] + ([parsed] + run) == log + [request] + [parsed] + run;
    }
    AskedInAppend(log + [request], [parsed] + run, true);
    assert log + [request] + ([parsed] + run) == log + [request] + [parsed] + run;
  }

  // ----------------------------------------------------------------------------------------
  // The stage
  // ----------------------------------------------------------------------------------------

  lemma UsableIsSomeCounts<W>(r: Role<W>, calls: seq<ToolCall>)
    ensures Usable(r, calls) <==> SomeCounts(r, calls)
  {
    if i :| 0 <= i < |calls| && Counts(r, calls[i]) {
      assert Checked(r, calls[i]) && Allowed(r, calls[i].tool.value);
    }
    if i :| 0 <= i < |calls| && Checked(r, calls[i]) && Allowed(r, calls[i].tool.value) {
      assert Counts(r, calls[i]);
    }
  }

  /** What is the same about a stage for the log of its requests. */
  ghost predicate SameFaith<W>(s: Stage<W>, a: Stage<W>) {
    a.world == s.world && a.log == s.log && a.requests == s.requests && a.crashed == s.crashed
  }

  lemma RecoverSameFaith<W>(r: Role<W>, s: Stage<W>)
    ensures SameFaith(s, Recover(r, s)) && Recover(r, s).finished == s.finished && Recover(r, s).reason == s.reason
  {
    hide Capped, Greatest;
  }

  lemma FinalTurnIsFaithful<W>(r: Role<W>, o: Outside, w0: W, deadline: real, s: Stage<W>, k: nat)
    requires r.llm.Valid() && Faithful(r, o, w0, deadline, s) && !s.finished && !s.crashed
    requires k == AskedIn(s.log, true) + 1
    ensures var a := FinalTurn(r, o, s, k);
            && Faithful(r, o, w0, deadline, a) && a.reason == s.reason
            && AskedIn(a.log, true) == k && AskedIn(a.log, false) == AskedIn(s.log, false)
  {
    hide Faithful, Ask, Recover, RunCalls, Usable, SomeCounts, Said, Trim, AskedIn, Acted, Expected, EndsAccepted,
         Answers;
    var trimmed := s.(messages := Trim(s.messages));
    SameIsFaithful(r, o, w0, deadline, s, trimmed);
    AskShape(r, o, trimmed, k, true);
    var asked := Ask(r, o, trimmed, k, true);
    var request, calls := asked.log[|s.log|], r.parse(asked.reply);
    NothingExpected(r, s.world, k, true);
    UsableIsSomeCounts(r, calls);
    var a := FinalTurn(r, o, s, k);
    if asked.crashed {
      BlockKeepsFaith(r, o, w0, deadline, trimmed, asked, request, "", false);
    } else if !Usable(r, calls) {
      RecoverSameFaith(r, Noted(asked, false));
      BlockKeepsFaith(r, o, w0, deadline, trimmed, a, request, asked.reply, false);
    } else {
      var ready := Noted(asked, true).(messages := asked.messages + [Message("assistant", asked.reply)]);
      ReplyIsActedOn(r, ready, calls, k, true);
      BlockKeepsFaith(r, o, w0, deadline, trimmed, a, request, asked.reply, true);
    }
  }

  lemma SameIsFaithful<W>(r: Role<W>, o: Outside, w0: W, deadline: real, s: Stage<W>, a: Stage<W>)
    requires Faithful(r, o, w0, deadline, s) && SameFaith(s, a)
    ensures Faithful(r, o, w0, deadline, a)
  {
    hide EntryLaw, Acted, Asked;
  }

  lemma {:induction false} FinalTurnsAreFaithful<W>(r: Role<W>, o: Outside, w0: W, deadline: real, s: Stage<W>, k: nat)
    requires r.llm.Valid() && Faithful(r, o, w0, deadline, s) && !s.finished && !s.crashed && AskedIn(s.log, true) == 0
    ensures var a := FinalTurns(r, o, s, k);
            && Faithful(r, o, w0, deadline, a) && a.reason == s.reason && AskedIn(a.log, false) == AskedIn(s.log, false)
            && (!a.finished && !a.crashed ==> AskedIn(a.log, true) == k)
  {
    hide Faithful, FinalTurn, AskedIn;
    if k > 0 {
      FinalTurnsAreFaithful(r, o, w0, deadline, s, k - 1);
      var before := FinalTurns(r, o, s, k - 1);
      if !before.finished && !before.crashed {
        FinalTurnIsFaithful(r, o, w0, deadline, before, k);
      }
    }
  }

  lemma ForceFinalizeIsFaithful<W>(r: Role<W>, o: Outside, w0: W, deadline: real, s: Stage<W>, why: Reason)
    requires r.llm.Valid() && Faithful(r, o, w0, deadline, s) && !s.finished && !s.crashed && AskedIn(s.log, true) == 0
    requires why.WallTime? ==> s.now >= deadline
    ensures var a := ForceFinalize(r, o, s, why);
            && Faithful(r, o, w0, deadline, a) && a.reason == Some(why)
            && AskedIn(a.log, false) == AskedIn(s.log, false)
            && (!a.finished && !a.crashed ==> AskedIn(a.log, true) == FINALIZATION_ITERATIONS)
  {
    hide Faithful, FinalTurns, AskedIn, Trim, Capped, Greatest;
    ForcingKeepsFaith(r, o, w0, deadline, s, why);
    FinalTurnsAreFaithful(r, o, w0, deadline, Forced(r, s, why), FINALIZATION_ITERATIONS);
  }

  /** How far a stage is after `n` iterations. */
  ghost predicate Arrived<W>(s: Stage<W>, n: nat) {
    && (!Over(s) ==> AskedIn(s.log, false) == n && AskedIn(s.log, true) == 0)
    && (!s.finished && !s.crashed && s.reason.Some? ==> AskedIn(s.log, true) == FINALIZATION_ITERATIONS)
    && s.reason != Some(OutOfIterations)
  }

  lemma TurnIsFaithful<W>(r: Role<W>, o: Outside, w0: W, deadline: real, s: Stage<W>, n: nat)
    requires r.llm.Valid() && Faithful(r, o, w0, deadline, s) && !Over(s) && n > 0 && Arrived(s, n - 1)
    requires s.now < deadline
    ensures Faithful(r, o, w0, deadline, Turn(r, o, s, n)) && Arrived(Turn(r, o, s, n), n)
  {
    hide Faithful, Ask, Recover, RunCalls, Usable, SomeCounts, Said, Prompt, AskedIn, Acted, Expected, EndsAccepted,
         Answers, ForceFinalize;
    var asking := s.(messages := Prompt(r, s.messages, n));
    SameIsFaithful(r, o, w0, deadline, s, asking);
    AskShape(r, o, asking, n, false);
    var asked := Ask(r, o, asking, n, false);
    var request, calls := asked.log[|s.log|], r.parse(asked.reply);
    NothingExpected(r, s.world, n, false);
    UsableIsSomeCounts(r, calls);
    if asked.crashed {
      BlockKeepsFaith(r, o, w0, deadline, asking, asked, request, "", false);
    } else if !Usable(r, calls) {
      var repaired := Recover(r, Noted(asked, false));
      RecoverSameFaith(r, Noted(asked, false));
      BlockKeepsFaith(r, o, w0, deadline, asking, repaired, request, asked.reply, false);
      if repaired.errors >= r.maxErrors {
        ForceFinalizeIsFaithful(r, o, w0, deadline, repaired, Stalled);
      }
    } else {
      ReplyIsActedOn(r, Noted(asked, true), calls, n, false);
      BlockKeepsFaith(r, o, w0, deadline, asking, Turn(r, o, s, n), request, asked.reply, true);
    }
  }

  lemma {:induction false} TurnsAreFaithful<W>(r: Role<W>, o: Outside, w0: W, s: Stage<W>, deadline: real, n: nat)
    requires r.llm.Valid() && Faithful(r, o, w0, deadline, s) && !Over(s) && Arrived(s, 0)
    ensures Faithful(r, o, w0, deadline, Turns(r, o, s, deadline, n)) && Arrived(Turns(r, o, s, deadline, n), n)
  {
    hide Faithful, Turn, ForceFinalize, AskedIn;
    if n > 0 {
      TurnsAreFaithful(r, o, w0, s, deadline, n - 1);
      var before := Turns(r, o, s, deadline, n - 1);
      if !Over(before) {
        var later := before.(now := before.now + o.pause(n));
        SameIsFaithful(r, o, w0, deadline, before, later);
        if later.now >= deadline {
          ForceFinalizeIsFaithful(r, o, w0, deadline, later, WallTime);
        } else {
          TurnIsFaithful(r, o, w0, deadline, later, n);
        }
      }
    }
  }

  /** Every stage, whatever the model replies: its world is what the logged calls made of the first one; every
      request is followed by a reply the provider gave; after a usable reply stand exactly the calls that should
      run on the world it found; and the stage ends before its time only by finishing or when the client raises. */
  lemma EveryReplyIsActedOn<W>(r: Role<W>, o: Outside, world: W, task: string, start: real, counts: Counters)
    requires r.llm.Valid()
    ensures var s := Run(r, o, world, task, start, counts);
            && s.world == Acted(r, world, s.log)
            && Timed(s.log, start + r.wall)
            && (forall i | 0 <= i < |s.log| :: EntryLaw(r, o, world, s.log, s.crashed, i))
            && (!s.finished && !s.crashed ==>
                  && s.reason.Some? && AskedIn(s.log, true) == FINALIZATION_ITERATIONS
                  && (s.reason == Some(OutOfIterations) ==> AskedIn(s.log, false) == AgentLoop.Iterations(r)))
  {
    hide EntryLaw, Acted, AskedIn, Asked, Turns, ForceFinalize;
    var s0 := Begin(r, world, task, start, counts);
    BeginIsFaithful(r, o, world, task, start, counts);
    TurnsAreFaithful(r, o, world, s0, start + r.wall, AgentLoop.Iterations(r));
    var s := Turns(r, o, s0, start + r.wall, AgentLoop.Iterations(r));
    if !Over(s) {
      ForceFinalizeIsFaithful(r, o, world, start + r.wall, s, OutOfIterations);
    }
  }

  lemma BeginIsFaithful<W>(r: Role<W>, o: Outside, world: W, task: string, start: real, counts: Counters)
    ensures var s := Begin(r, world, task, start, counts);
            Faithful(r, o, world, start + r.wall, s) && !Over(s) && Arrived(s, 0)
  {
    hide Capped;
  }

  /** What an iteration tells the model: after a usable reply, the reply and the results of its calls; after another
      one, the reply if there was a text and how to repair it, with a doubled budget, up to the cap, if and only if
      the provider cut the reply short. */
  lemma IterationTellsTheModel<W>(r: Role<W>, o: Outside, s: Stage<W>, n: nat)
    requires r.llm.Valid() && !Over(s)
    ensures var (a, asked) := (Turn(r, o, s, n), Ask(r, o, s.(messages := Prompt(r, s.messages, n)), n, false));
            var (prompt, calls) := (Prompt(r, s.messages, n), r.parse(asked.reply));
            var said := if asked.reply == "" then [] else [Message("assistant", asked.reply)];
            var budget := if asked.current >= asked.retained then asked.current else asked.retained;
            !asked.crashed ==>
              if SomeCounts(r, calls) then
                a.messages == prompt + [Message("assistant", asked.reply),
                                        Message("user", r.feedback(Answers(r, s.world, calls, n, false)))]
              else a.reason.None? ==>
                && a.messages == prompt + said + [Message("user", r.repair(calls, asked.finish))]
                && a.retained == a.current
                && a.current == Least(if asked.finish in ["length", "max_tokens"] then 2 * Least(budget, 16384)
                                      else budget, 16384)
  {
    hide Ask, RunCalls, Usable, SomeCounts, Prompt, Answers, Expected, ForceFinalize;
    var asking := s.(messages := Prompt(r, s.messages, n));
    AskShape(r, o, asking, n, false);
    AskKeepsMessages(r, o, asking, n, false);
    var asked := Ask(r, o, asking, n, false);
    UsableIsSomeCounts(r, r.parse(asked.reply));
    ReplyIsActedOn(r, Noted(asked, true), r.parse(asked.reply), n, false);
    if Noted(asked, false).errors >= r.maxErrors {
      ForcedHasReason(r, o, Recover(r, Noted(asked, false)), Stalled);
    }
  }

  /** An iteration asks with the trimmed conversation, and in the last five says how many are left. */
  lemma IterationsAreCounted<W>(r: Role<W>, messages: seq<Message>, n: nat)
    ensures var left := r.maxIterations - n;
            Prompt(r, messages, n)
            == Trim(messages) + if left in [1, 2, 3, 4, 5] then [Message("user", r.checkpoint(left))] else []
  {
    hide Trim;
  }

  /** Forced finalisation tells the model why, and each of its turns what an iteration tells, under the rules of the
      final phase. */
  lemma FinalTurnTellsTheModel<W>(r: Role<W>, o: Outside, s: Stage<W>, k: nat, why: Reason)
    requires r.llm.Valid() && !s.finished && !s.crashed
    ensures var f := Forced(r, s, why);
            && f.messages == Trim(s.messages) + [Message("user", r.forced(why))] && f.reason == Some(why)
            && f.errors == 0 && f.world == s.world && f.log == s.log + [Forcing(why, s.now)]
            && f.current == if s.current >= 16384 then 16384 else if s.current >= 8192 then s.current else 8192
    ensures var (a, asked) := (FinalTurn(r, o, s, k), Ask(r, o, s.(messages := Trim(s.messages)), k, true));
            var (prompt, calls) := (Trim(s.messages), r.parse(asked.reply));
            var said := if asked.reply == "" then [] else [Message("assistant", asked.reply)];
            !asked.crashed ==>
              a.messages == prompt
                + if SomeCounts(r, calls) then
                    [Message("assistant", asked.reply),
                     Message("user", r.feedback(Answers(r, s.world, calls, k, true)))]
                  else said + [Message("user", r.repair(calls, asked.finish))]
  {
    hide Ask, RunCalls, Usable, SomeCounts, Trim, Answers, Expected;
    var asking := s.(messages := Trim(s.messages));
    AskShape(r, o, asking, k, true);
    AskKeepsMessages(r, o, asking, k, true);
    var asked := Ask(r, o, asking, k, true);
    var calls := r.parse(asked.reply);
    UsableIsSomeCounts(r, calls);
    var ready := Noted(asked, true).(messages := asked.messages + [Message("assistant", asked.reply)]);
    if !asked.crashed && SomeCounts(r, calls) {
      ReplyIsActedOn(r, ready, calls, k, true);
    }
  }

  lemma AskKeepsMessages<W>(r: Role<W>, o: Outside, s: Stage<W>, iteration: nat, final: bool)
    requires r.llm.Valid()
    ensures Ask(r, o, s, iteration, final).messages == s.messages
  {
    hide Attempts, Capped, Greatest, Chars;
  }

  lemma {:induction false} FinalTurnsKeepReason<W>(r: Role<W>, o: Outside, s: Stage<W>, k: nat)
    requires r.llm.Valid()
    ensures FinalTurns(r, o, s, k).reason == s.reason
  {
    hide Ask, Recover, RunCalls, Usable, Trim;
    if k > 0 {
      FinalTurnsKeepReason(r, o, s, k - 1);
      var before := FinalTurns(r, o, s, k - 1);
      if !before.finished && !before.crashed {
        var trimmed := before.(messages := Trim(before.messages));
        AskShape(r, o, trimmed, k, true);
        var asked := Ask(r, o, trimmed, k, true);
        RecoverSameFaith(r, Noted(asked, false));
        ReplyIsActedOn(r, Noted(asked, true).(messages := asked.messages + [Message("assistant", asked.reply)]),
                       r.parse(asked.reply), k, true);
      }
    }
  }

  lemma ForcedHasReason<W>(r: Role<W>, o: Outside, s: Stage<W>, why: Reason)
    requires r.llm.Valid()
    ensures ForceFinalize(r, o, s, why).reason == Some(why)
  {
    hide FinalTurns, Trim, Capped, Greatest;
    FinalTurnsKeepReason(r, o, Forced(r, s, why), FINALIZATION_ITERATIONS);
  }
}
