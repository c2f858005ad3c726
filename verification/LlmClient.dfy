/** One logical model request (src/core/llm_backend.py, `LLMClient.chat`): attempts under a
    deadline, waits between them, a token budget that grows after empty replies, and counters. */
module LlmClient {
  import opened Wrappers
  import opened TextSearch

  type Duration = r: real | r >= 0.0
  type Fraction = r: real | 0.0 <= r <= 1.0

  function Min(x: real, y: real): real {
    if x <= y then x else y
  }

  function Max(x: int, y: int): int {
    if x >= y then x else y
  }

  // ----------------------------------------------------------------------------------------
  // Errors
  // ----------------------------------------------------------------------------------------

  /** A provider exception: message and type name in lower case, status code and the wait the
      provider asks for, each when there is one. */
  datatype Failure = Failure(text: string, typeName: string, status: Option<int>, retryAfter: Option<Duration>)

  datatype Kind = RateLimit | QuotaCycle | Fatal | Retry | EmptyReply

  predicate SaysQuotaCycle(text: string) {
    && (Contains(text, "access_terminated_error") || Contains(text, "quota"))
    && (Contains(text, "terminated") || Contains(text, "refresh") || Contains(text, "exceeded"))
  }

  function ClassifyError(e: Failure): (k: Kind)
    ensures k != EmptyReply
    ensures SaysQuotaCycle(e.text) <==> k == QuotaCycle
    ensures e.status in {Some(400), Some(401), Some(403), Some(404), Some(422)} ==> k == QuotaCycle || k == Fatal
    ensures e.status == Some(429) ==> k == QuotaCycle || k == RateLimit
  {
    if SaysQuotaCycle(e.text) then QuotaCycle
    else if e.status == Some(429) then RateLimit
    else if e.status in {Some(400), Some(401), Some(403), Some(404), Some(422)} then Fatal
    else if e.status in {Some(408), Some(409), Some(425), Some(500), Some(502), Some(503), Some(504), Some(529)} then
      Retry
    else if Contains(e.typeName, "ratelimit") || Contains(e.text, "rate limit") || Contains(e.text, "rate_limit") then
      RateLimit
    else if Contains(e.typeName, "authentication") || Contains(e.typeName, "permission")
            || Contains(e.typeName, "notfound") || Contains(e.typeName, "badrequest") then Fatal
    else if Contains(e.text, "credit") || Contains(e.text, "billing") || Contains(e.text, "insufficient_quota") then
      Fatal
    else Retry
  }

  // ----------------------------------------------------------------------------------------
  // What one request is made of
  // ----------------------------------------------------------------------------------------

  datatype Config = Config(requestTimeout: real, requestTimeoutMax: real, connectTimeout: real, writeTimeout: real,
                           retryBudget: real, maxAttempts: int, referenceTokens: int, quotaWait: real) {
    predicate Valid() {
      && requestTimeout > 0.0 && connectTimeout > 0.0 && writeTimeout > 0.0 && retryBudget > 0.0
      && requestTimeoutMax >= requestTimeout && maxAttempts >= 1 && referenceTokens >= 1 && quotaWait >= 0.0
    }
  }

  /** The read timeout for a token budget: the configured one up to the reference budget, a
      quarter more than proportional above it, never over the configured cap. */
  function ReadTimeout(cfg: Config, maxTokens: int): (r: real)
    requires cfg.Valid() && maxTokens >= 1
    ensures cfg.requestTimeout <= r <= cfg.requestTimeoutMax
    ensures maxTokens <= cfg.referenceTokens ==> r == cfg.requestTimeout
    ensures var proportional := cfg.requestTimeout * (maxTokens as real / cfg.referenceTokens as real * 1.25);
            maxTokens > cfg.referenceTokens ==> r == Min(proportional, cfg.requestTimeoutMax)
  {
    var ratio := maxTokens as real / cfg.referenceTokens as real;
    ReadTimeoutGrows(cfg.requestTimeout, maxTokens, cfg.referenceTokens);
    Min(cfg.requestTimeout * (if ratio > 1.0 then ratio * 1.25 else 1.0), cfg.requestTimeoutMax)
  }

  lemma ReadTimeoutGrows(t: real, n: int, d: int)
    requires t > 0.0 && n >= 1 && d >= 1
    ensures var ratio := n as real / d as real;
            (ratio > 1.0 <==> n > d) && (ratio > 1.0 ==> t * (ratio * 1.25) >= t)
  {
    var ratio := n as real / d as real;
    assert (ratio - 1.0) * d as real == n as real - d as real;
    assert ratio > 1.0 ==> t * (ratio * 1.25) - t == t * (ratio * 1.25 - 1.0);
  }

  datatype Timeouts = Timeouts(read: real, connect: real, write: real, pool: real)

  function TimeoutsFor(cfg: Config, maxTokens: int, remaining: real): Timeouts
    requires cfg.Valid() && maxTokens >= 1
  {
    Timeouts(Min(ReadTimeout(cfg, maxTokens), remaining), Min(cfg.connectTimeout, remaining),
             Min(cfg.writeTimeout, remaining), Min(cfg.connectTimeout, remaining))
  }

  function Pow2(n: nat): (r: nat)
    ensures r >= 1
  {
    if n == 0 then 1 else 2 * Pow2(n - 1)
  }

  /** The wait before the next attempt; `jitter` is the drawn fraction of the allowed jitter. */
  function Delay(cfg: Config, kind: Kind, attempt: nat, jitter: Fraction, retryAfter: Option<Duration>): (d: Duration)
    requires cfg.Valid() && attempt >= 1
    ensures kind.QuotaCycle? ==> d == cfg.quotaWait
    ensures !kind.QuotaCycle? ==> d >= (if kind.RateLimit? then 15.0 else 5.0) && d >= retryAfter.GetOr(0.0)
    ensures !kind.QuotaCycle? && retryAfter.None? ==> d <= (if kind.RateLimit? then 125.0 else 65.0)
  {
    if kind.QuotaCycle? then cfg.quotaWait
    else
      var doubled := (if kind.RateLimit? then 15 else 5) * Pow2(if attempt - 1 <= 10 then attempt - 1 else 10);
      var base := Min(doubled as real, if kind.RateLimit? then 120.0 else 60.0);
      var spread := Min(5.0, base * 0.25);
      JitterWithin(jitter, spread);
      var delay := base + jitter * spread;
      if retryAfter.Some? && retryAfter.value > delay then retryAfter.value else delay
  }

  lemma JitterWithin(jitter: Fraction, spread: real)
    requires spread >= 0.0
    ensures 0.0 <= jitter * spread <= spread
  {
    assert (1.0 - jitter) * spread >= 0.0;
  }

  /** The token budget after `empties` empty replies to a request that asked for `m`. */
  function Grown(m: nat, empties: nat): nat {
    var doubled := m * Pow2(empties);
    if doubled <= Max(m, CEILING) then doubled else Max(m, CEILING)
  }

  const CEILING := 16384

  // ----------------------------------------------------------------------------------------
  // Attempts
  // ----------------------------------------------------------------------------------------

  datatype Reply = Raised(error: Failure) | Replied(text: string, finish: string, usageKnown: bool)

  /** What the outside does in one attempt: the reply, the time before, during and after it,
      the drawn jitter, and how much longer than asked the wait takes. */
  datatype Round = Round(reply: Reply, lead: Duration, elapsed: Duration, lag: Duration, jitter: Fraction,
                         over: Duration)

  datatype Event =
    | Request(attempt: nat, maxTokens: nat, remaining: real, timeouts: Timeouts)
    | Failed(attempt: nat, error: Failure)
    | Response(attempt: nat, text: string, finish: string)
    | RetryWait(attempt: nat, kind: Kind, delay: real, left: real)
    | Exhausted

  datatype Exit = Returned(text: string) | RaisedFailure(error: Failure) | RaisedEmpty | BudgetExceeded

  datatype Counters = Counters(requests: nat, retries: nat, calls: nat, transportErrors: nat, empties: nat,
                               unknownUsage: nat, latency: real)

  /** `last_response_metadata`: the budget and finish reason of the last reply received. */
  datatype Metadata = Metadata(maxTokens: nat, finish: string)

  datatype Session = Session(now: real, maxTokens: nat, counts: Counters, meta: Option<Metadata>,
                             trace: seq<Event>, exit: Option<Exit>)

  datatype Call = Call(attempts: nat, maxTokens: nat, deadline: real) {
    predicate Valid() {
      attempts >= 1 && maxTokens >= 1
    }
  }

  predicate IsRefusal(finish: string) {
    finish == "content_filter" || finish == "sensitive" || finish == "refusal"
  }

  function Doubled(call: Call, maxTokens: nat): nat {
    var ceiling := Max(call.maxTokens, CEILING);
    if maxTokens < ceiling then (if 2 * maxTokens <= ceiling then 2 * maxTokens else ceiling) else maxTokens
  }

  /** `wait_for_retry`. */
  function Wait(cfg: Config, call: Call, k: nat, kind: Kind, retryAfter: Option<Duration>, r: Round,
                s: Session): Session
    requires cfg.Valid() && k >= 1
  {
    var delay := Delay(cfg, kind, k, r.jitter, retryAfter);
    var left := call.deadline - s.now;
    if delay >= left then s.(trace := s.trace + [Exhausted], exit := Some(BudgetExceeded))
    else s.(trace := s.trace + [RetryWait(k, kind, delay, left)], now := s.now + delay + r.over)
  }

  /** The error kind ends the request at attempt `k`. */
  predicate GivesUp(cfg: Config, call: Call, k: nat, e: Failure) {
    var kind := ClassifyError(e);
    kind.Fatal? || k == call.attempts || (kind.QuotaCycle? && cfg.quotaWait == 0.0)
  }

  /** Attempt `k` of a request that has not ended yet. */
  function Attempt(cfg: Config, call: Call, k: nat, r: Round, s: Session): Session
    requires cfg.Valid() && k >= 1 && s.maxTokens >= 1
  {
    var remaining := call.deadline - s.now;
    if remaining <= 0.0 then s.(trace := s.trace + [Exhausted], exit := Some(BudgetExceeded))
    else
      var c := s.counts.(requests := s.counts.requests + 1, retries := s.counts.retries + (if k > 1 then 1 else 0),
                         latency := s.counts.latency + r.elapsed);
      var sent := s.(trace := s.trace + [Request(k, s.maxTokens, remaining, TimeoutsFor(cfg, s.maxTokens, remaining))],
                     now := s.now + r.lead + r.elapsed + r.lag, meta := None);
      match r.reply
      case Raised(e) =>
        var failed := sent.(counts := c.(transportErrors := c.transportErrors + 1, unknownUsage := c.unknownUsage + 1),
                            trace := sent.trace + [Failed(k, e)]);
        if GivesUp(cfg, call, k, e) then failed.(exit := Some(RaisedFailure(e)))
        else Wait(cfg, call, k, ClassifyError(e), e.retryAfter, r, failed)
      case Replied(text, finish, usageKnown) =>
        var known := c.(unknownUsage := c.unknownUsage + if usageKnown then 0 else 1);
        var heard := sent.(trace := sent.trace + [Response(k, text, finish)],
                           meta := Some(Metadata(s.maxTokens, finish)));
        if text != "" then heard.(counts := known.(calls := known.calls + 1), exit := Some(Returned(text)))
        else
          var empty := heard.(counts := known.(empties := known.empties + 1));
          if IsRefusal(finish) || k == call.attempts then empty.(exit := Some(RaisedEmpty))
          else Wait(cfg, call, k, EmptyReply, None, r, empty.(maxTokens := Doubled(call, s.maxTokens)))
  }

  /** The request after at most `n` attempts. */
  function Attempts(cfg: Config, call: Call, world: nat -> Round, s: Session, n: nat): (after: Session)
    requires cfg.Valid() && s.maxTokens >= 1
    ensures after.maxTokens >= 1
  {
    if n == 0 then s
    else
      var before := Attempts(cfg, call, world, s, n - 1);
      if before.exit.Some? then before else Attempt(cfg, call, n, world(n), before)
  }

  class LLMClient {
    const cfg: Config
    var counts: Counters
    var meta: Option<Metadata>

    constructor (cfg: Config)
      requires cfg.Valid()
      ensures this.cfg == cfg && counts == Counters(0, 0, 0, 0, 0, 0, 0.0) && meta == None
    {
      this.cfg := cfg;
      counts := Counters(0, 0, 0, 0, 0, 0, 0.0);
      meta := None;
    }

    /** `__init__`: no client for a configuration that fails its checks. */
    static method Create(cfg: Config) returns (client: LLMClient?)
      ensures client == null <==> !cfg.Valid()
      ensures client != null ==> fresh(client) && client.cfg == cfg
    {
      client := null;
      if cfg.Valid() {
        client := new LLMClient(cfg);
      }
    }

    /** `wait_for_retry`: the wait that was taken, or the refusal to take one. */
    method WaitForRetry(call: Call, attempt: nat, kind: Kind, asked: Option<Duration>, round: Round,
                        now: real, ghost s: Session)
      returns (event: Event, resumed: real)
      requires cfg.Valid() && attempt >= 1 && s.now == now
      ensures event.Exhausted? || event.RetryWait?
      ensures Wait(cfg, call, attempt, kind, asked, round, s)
           == s.(trace := s.trace + [event], now := resumed,
                 exit := if event.Exhausted? then Some(BudgetExceeded) else s.exit)
    {
      hide Delay;
      var delay := Delay(cfg, kind, attempt, round.jitter, asked);
      if delay >= call.deadline - now {
        return Exhausted, now;
      }
      return RetryWait(attempt, kind, delay, call.deadline - now), now + delay + round.over;
    }

    /** One turn of the loop: an attempt with the wait after it, or the end of the request. */
    method Try(call: Call, attempt: nat, round: Round, now0: real, current0: nat, trace0: seq<Event>)
      returns (now: real, current: nat, trace: seq<Event>, exit: Option<Exit>)
      requires cfg.Valid() && call.Valid() && attempt >= 1 && current0 >= 1
      modifies this
      ensures Session(now, current, counts, meta, trace, exit)
           == Attempt(cfg, call, attempt, round, Session(now0, current0, old(counts), old(meta), trace0, None))
      ensures current >= 1
    {
      hide ClassifyError, ReadTimeout, TimeoutsFor, Delay, IsRefusal, Wait;
      now, current, trace, exit := now0, current0, trace0, None;
      var remaining := call.deadline - now;
      if remaining <= 0.0 {
        trace := trace + [Exhausted];
        exit := Some(BudgetExceeded);
        return;
      }
      meta := None;
      counts := counts.(requests := counts.requests + 1);
      if attempt > 1 {
        counts := counts.(retries := counts.retries + 1);
      }
      trace := trace + [Request(attempt, current, remaining, TimeoutsFor(cfg, current, remaining))];
      now := now + round.lead + round.elapsed + round.lag;
      counts := counts.(latency := counts.latency + round.elapsed);
      var kind, asked: Option<Duration> := EmptyReply, None;
      if round.reply.Raised? {
        var e := round.reply.error;
        counts := counts.(transportErrors := counts.transportErrors + 1, unknownUsage := counts.unknownUsage + 1);
        trace := trace + [Failed(attempt, e)];
        kind, asked := ClassifyError(e), e.retryAfter;
        if kind.Fatal? || attempt == call.attempts || (kind.QuotaCycle? && cfg.quotaWait == 0.0) {
          exit := Some(RaisedFailure(e));
          return;
        }
      } else {
        var text, finish := round.reply.text, round.reply.finish;
        if !round.reply.usageKnown {
          counts := counts.(unknownUsage := counts.unknownUsage + 1);
        }
        meta := Some(Metadata(current, finish));
        trace := trace + [Response(attempt, text, finish)];
        if text != "" {
          counts := counts.(calls := counts.calls + 1);
          exit := Some(Returned(text));
          return;
        }
        counts := counts.(empties := counts.empties + 1);
        if IsRefusal(finish) || attempt == call.attempts {
          exit := Some(RaisedEmpty);
          return;
        }
        var ceiling := Max(call.maxTokens, CEILING);
        if current < ceiling {
          current := if 2 * current <= ceiling then 2 * current else ceiling;
        }
      }
      var event, resumed := WaitForRetry(call, attempt, kind, asked, round, now,
                                         Session(now, current, counts, meta, trace, None));
      trace, now := trace + [event], resumed;
      if event.Exhausted? {
        exit := Some(BudgetExceeded);
      }
    }

    /** One logical request starting at time `start`, the first attempt `lag` later. `None` is
        the ValueError for a bad argument, raised before anything changes. */
    method Chat(maxTokens: int, retries: Option<int>, world: nat -> Round, start: real, lag: Duration)
      returns (exit: Option<Exit>, trace: seq<Event>, now: real)
      requires cfg.Valid()
      modifies this
      ensures var attempts := retries.GetOr(cfg.maxAttempts);
              if attempts < 1 || maxTokens < 1 then
                exit == None && trace == [] && counts == old(counts) && meta == old(meta)
              else
                var call := Call(attempts, maxTokens, start + cfg.retryBudget);
                var end := Attempts(cfg, call, world, Session(start + lag, maxTokens, old(counts), None, [], None),
                                    attempts);
                && exit == end.exit && exit.Some? && trace == end.trace && now == end.now
                && counts == end.counts && meta == end.meta
    {
      hide Attempt;
      var attempts := retries.GetOr(cfg.maxAttempts);
      trace, now, exit := [], start, None;
      if attempts < 1 || maxTokens < 1 {
        return;
      }
      var call := Call(attempts, maxTokens, start + cfg.retryBudget);
      now := start + lag;
      var current: nat := maxTokens;
      meta := None;
      ghost var first := Session(now, current, counts, None, [], None);
      var attempt: nat := 1;
      while attempt <= attempts && exit.None?
        invariant 1 <= attempt <= attempts + 1 && current >= 1
        invariant Session(now, current, counts, meta, trace, exit) == Attempts(cfg, call, world, first, attempt - 1)
        decreases attempts + 1 - attempt
      {
        now, current, trace, exit := Try(call, attempt, world(attempt), now, current, trace);
        attempt := attempt + 1;
      }
      if exit.Some? {
        ChatStops(cfg, call, world, first, attempt - 1, attempts);
      } else {
        LastAttemptEnds(cfg, call, world, first);
      }
    }
  }

  /** The last attempt allowed always ends the request. */
  lemma LastAttemptEnds(cfg: Config, call: Call, world: nat -> Round, s: Session)
    requires cfg.Valid() && call.Valid() && s.maxTokens >= 1
    ensures Attempts(cfg, call, world, s, call.attempts).exit.Some?
  {
    hide ClassifyError, TimeoutsFor, Wait, IsRefusal, Doubled;
  }

  lemma {:induction false} ChatStops(cfg: Config, call: Call, world: nat -> Round, s: Session, n: nat, m: nat)
    requires cfg.Valid() && s.maxTokens >= 1 && n <= m
    requires Attempts(cfg, call, world, s, n).exit.Some?
    ensures Attempts(cfg, call, world, s, m) == Attempts(cfg, call, world, s, n)
    decreases m
  {
    hide Attempt;
    if n < m {
      ChatStops(cfg, call, world, s, n, m - 1);
    }
  }
}
