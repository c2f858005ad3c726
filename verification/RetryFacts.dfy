/** What every logical model request keeps, whatever the provider and the clock do. */
module RetryFacts {
  import opened Wrappers
  import opened LlmClient

  /** The session a request starts in: `lag` passes between setting the deadline and the first attempt. */
  function Begin(m: nat, start: real, lag: Duration, counts: Counters): Session {
    Session(start + lag, m, counts, None, [], None)
  }

  function CallFor(cfg: Config, attempts: nat, m: nat, start: real): Call {
    Call(attempts, m, start + cfg.retryBudget)
  }

  // ----------------------------------------------------------------------------------------
  // What a trace adds up to
  // ----------------------------------------------------------------------------------------

  datatype Tally = Tally(requests: nat, errors: nat, empties: nat, accepted: nat, waited: real, refused: nat)

  /** The tally with one more event. */
  function Counted(t: Tally, e: Event): Tally {
    match e
    case Request(_, _, _, _) => t.(requests := t.requests + 1)
    case Failed(_, _) => t.(errors := t.errors + 1)
    case Response(_, text, _) => if text == "" then t.(empties := t.empties + 1) else t.(accepted := t.accepted + 1)
    case RetryWait(_, _, delay, _) => t.(waited := t.waited + delay)
    case Exhausted => t.(refused := t.refused + 1)
  }

  function TallyOf(trace: seq<Event>): Tally
    decreases |trace|
  {
    if trace == [] then Tally(0, 0, 0, 0, 0.0, 0)
    else Counted(TallyOf(trace[..|trace| - 1]), trace[|trace| - 1])
  }

  lemma TallySnoc(trace: seq<Event>, e: Event)
    ensures (trace + [e])[..|trace|] == trace
    ensures TallyOf(trace + [e]) == Counted(TallyOf(trace), e)
  {
    hide Counted;
    assert (trace + [e])[..|trace|] == trace;
  }

  // ----------------------------------------------------------------------------------------
  // Accounting
  // ----------------------------------------------------------------------------------------

  predicate Balanced(c0: Counters, s: Session, n: nat) {
    var c, t := s.counts, TallyOf(s.trace);
    && c.requests == c0.requests + t.requests
    && c.transportErrors == c0.transportErrors + t.errors
    && c.empties == c0.empties + t.empties
    && c.calls == c0.calls + t.accepted
    && t.requests == t.errors + t.empties + t.accepted
    && c.retries == c0.retries + (if t.requests == 0 then 0 else t.requests - 1)
    && (s.exit.None? ==> t.requests == n && t.accepted == 0)
    && (t.accepted == 1 <==> s.exit.Some? && s.exit.value.Returned?) && t.accepted <= 1
    && (t.refused == 1 <==> s.exit == Some(BudgetExceeded)) && t.refused <= 1
    && t.requests <= n
  }

  lemma BalancedError(cfg: Config, call: Call, k: nat, r: Round, c0: Counters, s: Session)
    requires cfg.Valid() && k >= 1 && s.maxTokens >= 1 && s.exit.None? && r.reply.Raised?
    requires Balanced(c0, s, k - 1) && s.now < call.deadline
    ensures Balanced(c0, Attempt(cfg, call, k, r, s), k)
  {
    hide ClassifyError, TimeoutsFor, Delay, TallyOf, GivesUp;
    var remaining := call.deadline - s.now;
    var request := Request(k, s.maxTokens, remaining, TimeoutsFor(cfg, s.maxTokens, remaining));
    var t1, e := s.trace + [request], Failed(k, r.reply.error);
    TallySnoc(s.trace, request);
    TallySnoc(t1, e);
    var after := Attempt(cfg, call, k, r, s);
    if after.trace != t1 + [e] {
      TallySnoc(t1 + [e], after.trace[|t1| + 1]);
    }
  }

  lemma BalancedReply(cfg: Config, call: Call, k: nat, r: Round, c0: Counters, s: Session)
    requires cfg.Valid() && k >= 1 && s.maxTokens >= 1 && s.exit.None? && r.reply.Replied?
    requires Balanced(c0, s, k - 1) && s.now < call.deadline
    ensures Balanced(c0, Attempt(cfg, call, k, r, s), k)
  {
    hide ClassifyError, TimeoutsFor, Delay, IsRefusal, Doubled, TallyOf;
    var remaining := call.deadline - s.now;
    var request := Request(k, s.maxTokens, remaining, TimeoutsFor(cfg, s.maxTokens, remaining));
    var t1, e := s.trace + [request], Response(k, r.reply.text, r.reply.finish);
    TallySnoc(s.trace, request);
    TallySnoc(t1, e);
    var after := Attempt(cfg, call, k, r, s);
    if after.trace != t1 + [e] {
      TallySnoc(t1 + [e], after.trace[|t1| + 1]);
    }
  }

  lemma BalancedStep(cfg: Config, call: Call, k: nat, r: Round, c0: Counters, s: Session)
    requires cfg.Valid() && k >= 1 && s.maxTokens >= 1 && s.exit.None?
    requires Balanced(c0, s, k - 1)
    ensures Balanced(c0, Attempt(cfg, call, k, r, s), k)
  {
    hide TallyOf;
    if s.now >= call.deadline {
      TallySnoc(s.trace, Exhausted);
    } else if r.reply.Raised? {
      BalancedError(cfg, call, k, r, c0, s);
    } else {
      BalancedReply(cfg, call, k, r, c0, s);
    }
  }

  /** On every exit the counters have grown by what the trace shows, every request is an accepted
      reply, a transport error or an empty reply, all but the first are retries, at most the
      allowed number is made, and exactly a returned text is an accepted reply. */
  lemma {:induction false} RequestsAreAccountedFor(cfg: Config, attempts: nat, m: nat, start: real, lag: Duration,
                                                  c0: Counters, world: nat -> Round, n: nat)
    requires cfg.Valid() && m >= 1
    ensures Balanced(c0, Attempts(cfg, CallFor(cfg, attempts, m, start), world, Begin(m, start, lag, c0), n), n)
    decreases n
  {
    hide Attempt;
    var call, s := CallFor(cfg, attempts, m, start), Begin(m, start, lag, c0);
    if n > 0 {
      RequestsAreAccountedFor(cfg, attempts, m, start, lag, c0, world, n - 1);
      var before := Attempts(cfg, call, world, s, n - 1);
      if before.exit.None? {
        BalancedStep(cfg, call, n, world(n), c0, before);
      }
    }
  }

  /** The provider's time in the first `n` attempts. */
  function Elapsed(world: nat -> Round, n: nat): real {
    if n == 0 then 0.0 else Elapsed(world, n - 1) + world(n).elapsed
  }

  /** How many of the first `n` attempts left the usage unknown: the failed ones, and replies without it. */
  function Unreported(world: nat -> Round, n: nat): nat {
    if n == 0 then 0
    else Unreported(world, n - 1) + if world(n).reply.Raised? || !world(n).reply.usageKnown then 1 else 0
  }

  /** Latency and unknown usage have grown by those of the attempts that were sent. */
  lemma {:induction false} UsageIsAccountedFor(cfg: Config, attempts: nat, m: nat, start: real, lag: Duration,
                                               c0: Counters, world: nat -> Round, n: nat)
    requires cfg.Valid() && m >= 1
    ensures var c := Attempts(cfg, CallFor(cfg, attempts, m, start), world, Begin(m, start, lag, c0), n).counts;
            && c0.requests <= c.requests <= c0.requests + n
            && c.latency == c0.latency + Elapsed(world, c.requests - c0.requests)
            && c.unknownUsage == c0.unknownUsage + Unreported(world, c.requests - c0.requests)
    ensures var s := Attempts(cfg, CallFor(cfg, attempts, m, start), world, Begin(m, start, lag, c0), n);
            s.exit.None? ==> s.counts.requests == c0.requests + n
    decreases n
  {
    hide Attempt;
    if n > 0 {
      UsageIsAccountedFor(cfg, attempts, m, start, lag, c0, world, n - 1);
      var call := CallFor(cfg, attempts, m, start);
      var before := Attempts(cfg, call, world, Begin(m, start, lag, c0), n - 1);
      if before.exit.None? {
        AttemptUsage(cfg, call, n, world(n), before);
      }
    }
  }

  lemma AttemptUsage(cfg: Config, call: Call, k: nat, r: Round, s: Session)
    requires cfg.Valid() && k >= 1 && s.maxTokens >= 1
    ensures var after := Attempt(cfg, call, k, r, s);
            if s.now >= call.deadline then after.counts == s.counts && after.exit.Some?
            else
              && after.counts.requests == s.counts.requests + 1
              && after.counts.latency == s.counts.latency + r.elapsed
              && after.counts.unknownUsage
              == s.counts.unknownUsage + if r.reply.Raised? || !r.reply.usageKnown then 1 else 0
  {
    hide ClassifyError, TimeoutsFor, Delay, IsRefusal, Doubled, GivesUp;
  }

  // ----------------------------------------------------------------------------------------
  // Deadlines and waits
  // ----------------------------------------------------------------------------------------

  /** A request starts before the deadline with no phase timeout longer than the time left. */
  predicate InTime(cfg: Config, e: Event) {
    match e
    case Request(_, _, remaining, t) =>
      && 0.0 < remaining <= cfg.retryBudget
      && 0.0 < t.read <= remaining && 0.0 < t.connect <= remaining
      && 0.0 < t.write <= remaining && 0.0 < t.pool <= remaining
    case RetryWait(_, _, delay, left) => 0.0 <= delay < left <= cfg.retryBudget
    case _ => true
  }

  /** Every event is in time; waits and provider time fit in the time that passed; the waits
      together stay under the budget. */
  ghost predicate Punctual(cfg: Config, start: real, c0: Counters, s: Session) {
    var waited := TallyOf(s.trace).waited;
    && (forall i | 0 <= i < |s.trace| :: InTime(cfg, s.trace[i]))
    && 0.0 <= waited < cfg.retryBudget
    && s.counts.latency >= c0.latency
    && start + waited + (s.counts.latency - c0.latency) <= s.now
  }

  lemma PunctualStep(cfg: Config, attempts: nat, m: nat, start: real, k: nat, r: Round, c0: Counters, s: Session)
    requires cfg.Valid() && k >= 1 && s.maxTokens >= 1
    requires Punctual(cfg, start, c0, s)
    ensures Punctual(cfg, start, c0, Attempt(cfg, CallFor(cfg, attempts, m, start), k, r, s))
  {
    hide ClassifyError, ReadTimeout, Delay, IsRefusal, Doubled, TallyOf, InTime;
    var call := CallFor(cfg, attempts, m, start);
    var after := Attempt(cfg, call, k, r, s);
    var remaining := call.deadline - s.now;
    if remaining <= 0.0 {
      TallySnoc(s.trace, Exhausted);
      NotTimed(cfg, Exhausted);
    } else {
      var request := Request(k, s.maxTokens, remaining, TimeoutsFor(cfg, s.maxTokens, remaining));
      var t1 := s.trace + [request];
      var e := if r.reply.Raised? then Failed(k, r.reply.error) else Response(k, r.reply.text, r.reply.finish);
      var t2 := t1 + [e];
      TallySnoc(s.trace, request);
      TallySnoc(t1, e);
      RequestInTime(cfg, k, s.maxTokens, remaining);
      NotTimed(cfg, e);
      if after.trace != t2 {
        var last := after.trace[|t2|];
        assert after.trace == t2 + [last];
        TallySnoc(t2, last);
        LastInTime(cfg, start, last);
      }
    }
  }

  lemma NotTimed(cfg: Config, e: Event)
    requires !e.Request? && !e.RetryWait?
    ensures InTime(cfg, e)
  {
  }

  lemma LastInTime(cfg: Config, start: real, e: Event)
    requires e.Exhausted? || (e.RetryWait? && 0.0 <= e.delay < e.left <= cfg.retryBudget)
    ensures InTime(cfg, e)
  {
  }

  lemma RequestInTime(cfg: Config, k: nat, maxTokens: nat, remaining: real)
    requires cfg.Valid() && maxTokens >= 1 && 0.0 < remaining <= cfg.retryBudget
    ensures InTime(cfg, Request(k, maxTokens, remaining, TimeoutsFor(cfg, maxTokens, remaining)))
  {
    hide ReadTimeout;
  }

  /** Every attempt of every request starts before the deadline with timeouts no longer than the
      time left, every wait is shorter than the time left when it was chosen, and all waits
      together are shorter than the budget. */
  lemma {:induction false} RequestsKeepTheDeadline(cfg: Config, attempts: nat, m: nat, start: real, lag: Duration,
                                                   c0: Counters, world: nat -> Round, n: nat)
    requires cfg.Valid() && m >= 1
    ensures Punctual(cfg, start, c0,
                     Attempts(cfg, CallFor(cfg, attempts, m, start), world, Begin(m, start, lag, c0), n))
    decreases n
  {
    hide Attempt;
    var call, s := CallFor(cfg, attempts, m, start), Begin(m, start, lag, c0);
    if n > 0 {
      RequestsKeepTheDeadline(cfg, attempts, m, start, lag, c0, world, n - 1);
      var before := Attempts(cfg, call, world, s, n - 1);
      if before.exit.None? {
        PunctualStep(cfg, attempts, m, start, n, world(n), c0, before);
      }
    }
  }

  // ----------------------------------------------------------------------------------------
  // Token budgets
  // ----------------------------------------------------------------------------------------

  lemma DoubledGrows(call: Call, empties: nat)
    requires call.maxTokens >= 1
    ensures Doubled(call, Grown(call.maxTokens, empties)) == Grown(call.maxTokens, empties + 1)
  {
    hide Pow2;
    var m := call.maxTokens;
    Pow2Doubles(empties);
    assert m * Pow2(empties + 1) == 2 * (m * Pow2(empties));
    assert m * Pow2(empties) >= m by {
      assert m * (Pow2(empties) - 1) >= 0;
    }
  }

  lemma Pow2Doubles(n: nat)
    ensures Pow2(n + 1) == 2 * Pow2(n)
  {
  }

  /** Request number i asks for the budget grown once for each empty reply before it, and
      attempts are numbered in order; every reply that ends a request is the last one. */
  ghost predicate Sized(cfg: Config, call: Call, s: Session) {
    && (forall i | 0 <= i < |s.trace| && s.trace[i].Request? ::
          var t := TallyOf(s.trace[..i]);
          s.trace[i].maxTokens == Grown(call.maxTokens, t.empties) && s.trace[i].attempt == t.requests + 1)
    && (s.exit.None? ==> s.maxTokens == Grown(call.maxTokens, TallyOf(s.trace).empties))
    && (forall i | 0 <= i < |s.trace| :: Ends(cfg, call, s.trace[i]) ==> i == |s.trace| - 1 && s.exit.Some?)
  }

  /** The event after which no further attempt is allowed. */
  predicate Ends(cfg: Config, call: Call, e: Event) {
    match e
    case Failed(k, error) => GivesUp(cfg, call, k, error)
    case Response(k, text, finish) => text != "" || IsRefusal(finish) || k == call.attempts
    case Exhausted => true
    case _ => false
  }

  lemma SizedSnoc(cfg: Config, call: Call, s: Session, e: Event, after: Session)
    requires Sized(cfg, call, s) && s.exit.None? && after.trace == s.trace + [e]
    requires e.Request? ==> e.maxTokens == s.maxTokens && e.attempt == TallyOf(s.trace).requests + 1
    requires Ends(cfg, call, e) ==> after.exit.Some?
    requires after.exit.None? ==> after.maxTokens == Grown(call.maxTokens, TallyOf(after.trace).empties)
    ensures Sized(cfg, call, after)
  {
    hide TallyOf, Grown, Ends;
    forall i | 0 <= i < |s.trace| ensures after.trace[..i] == s.trace[..i] {
    }
    assert after.trace[..|s.trace|] == s.trace;
  }

  lemma SizedStep(cfg: Config, call: Call, k: nat, r: Round, s: Session)
    requires cfg.Valid() && call.Valid() && k >= 1 && s.maxTokens >= 1 && s.exit.None?
    requires Sized(cfg, call, s) && TallyOf(s.trace).requests == k - 1
    ensures Sized(cfg, call, Attempt(cfg, call, k, r, s))
  {
    hide ClassifyError, TimeoutsFor, Delay, IsRefusal, Doubled, TallyOf, Grown, Sized;
    var after := Attempt(cfg, call, k, r, s);
    var remaining := call.deadline - s.now;
    if remaining <= 0.0 {
      SizedSnoc(cfg, call, s, Exhausted, after);
    } else {
      var request := Request(k, s.maxTokens, remaining, TimeoutsFor(cfg, s.maxTokens, remaining));
      var s1 := s.(trace := s.trace + [request]);
      TallySnoc(s.trace, request);
      TokensOf(cfg, call, s);
      SizedSnoc(cfg, call, s, request, s1);
      var e := if r.reply.Raised? then Failed(k, r.reply.error) else Response(k, r.reply.text, r.reply.finish);
      TallySnoc(s1.trace, e);
      DoubledGrows(call, TallyOf(s.trace).empties);
      if after.trace == s1.trace + [e] {
        SizedSnoc(cfg, call, s1, e, after);
      } else {
        var tokens := if r.reply.Raised? then s.maxTokens else Doubled(call, s.maxTokens);
        var s2 := s1.(trace := s1.trace + [e], maxTokens := tokens);
        SizedSnoc(cfg, call, s1, e, s2);
        var last := after.trace[|s2.trace|];
        assert after.trace == s2.trace + [last];
        TallySnoc(s2.trace, last);
        TokensOf(cfg, call, s2);
        SizedSnoc(cfg, call, s2, last, after);
      }
    }
  }

  lemma TokensOf(cfg: Config, call: Call, s: Session)
    requires Sized(cfg, call, s) && s.exit.None?
    ensures s.maxTokens == Grown(call.maxTokens, TallyOf(s.trace).empties)
  {
  }

  lemma SizedAtStart(cfg: Config, call: Call, s: Session)
    requires s.trace == [] && s.maxTokens == call.maxTokens >= 1
    ensures Sized(cfg, call, s)
  {
    assert call.maxTokens * Pow2(0) == call.maxTokens;
  }

  /** After k empty replies a request asks for min(m * 2^k, max(m, 16384)) tokens, and nothing
      follows an accepted reply, a refusal, a fatal error or an exhausted budget. */
  lemma {:induction false} BudgetGrowsWithEmptyReplies(cfg: Config, attempts: nat, m: nat, start: real, lag: Duration,
                                                       c0: Counters, world: nat -> Round, n: nat)
    requires cfg.Valid() && attempts >= 1 && m >= 1
    ensures var call := CallFor(cfg, attempts, m, start);
            Sized(cfg, call, Attempts(cfg, call, world, Begin(m, start, lag, c0), n))
    decreases n
  {
    hide Attempt, Sized;
    var call, s := CallFor(cfg, attempts, m, start), Begin(m, start, lag, c0);
    if n == 0 {
      SizedAtStart(cfg, call, s);
    } else {
      BudgetGrowsWithEmptyReplies(cfg, attempts, m, start, lag, c0, world, n - 1);
      RequestsAreAccountedFor(cfg, attempts, m, start, lag, c0, world, n - 1);
      var before := Attempts(cfg, call, world, s, n - 1);
      if before.exit.None? {
        SizedStep(cfg, call, n, world(n), before);
      }
    }
  }

  /** A request with a fatal status is never tried again, unless its text speaks of a quota. */
  lemma {:induction false} FatalStatusEndsTheRequest(cfg: Config, attempts: nat, m: nat, start: real, lag: Duration,
                                  c0: Counters, world: nat -> Round, n: nat, i: nat)
    requires cfg.Valid() && attempts >= 1 && m >= 1
    requires var s := Attempts(cfg, CallFor(cfg, attempts, m, start), world, Begin(m, start, lag, c0), n);
             && i < |s.trace| && s.trace[i].Failed? && !SaysQuotaCycle(s.trace[i].error.text)
             && s.trace[i].error.status in {Some(400), Some(401), Some(403), Some(404), Some(422)}
    ensures var s := Attempts(cfg, CallFor(cfg, attempts, m, start), world, Begin(m, start, lag, c0), n);
            i == |s.trace| - 1 && s.exit.Some?
  {
    hide Attempts, SaysQuotaCycle;
    BudgetGrowsWithEmptyReplies(cfg, attempts, m, start, lag, c0, world, n);
  }
}
