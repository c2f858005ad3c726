/** When a model request is tried again, spelled over status, type name and text of an error: the whole
    trace of every request is fixed by what the provider answers and how time passes. */
module RetryRules {
  import opened Wrappers
  import opened TextSearch
  import opened LlmClient
  import opened RetryFacts

  // ----------------------------------------------------------------------------------------
  // Errors
  // ----------------------------------------------------------------------------------------

  predicate SpeaksOfQuota(e: Failure) {
    && (Contains(e.text, "quota") || Contains(e.text, "access_terminated_error"))
    && (Contains(e.text, "exceeded") || Contains(e.text, "terminated") || Contains(e.text, "refresh"))
  }

  const FATAL_STATUS := {400, 401, 403, 404, 422}
  const RETRIABLE_STATUS := {408, 409, 425, 429, 500, 502, 503, 504, 529}

  predicate HasStatus(e: Failure, codes: set<int>) {
    e.status.Some? && e.status.value in codes
  }

  predicate SoundsRateLimited(e: Failure) {
    Contains(e.typeName, "ratelimit") || Contains(e.text, "rate limit") || Contains(e.text, "rate_limit")
  }

  predicate SoundsFatal(e: Failure) {
    || Contains(e.typeName, "authentication") || Contains(e.typeName, "permission")
    || Contains(e.typeName, "notfound") || Contains(e.typeName, "badrequest")
    || Contains(e.text, "credit") || Contains(e.text, "billing") || Contains(e.text, "insufficient_quota")
  }

  /** The status says nothing, so type name and text decide. */
  predicate Unlisted(e: Failure) {
    !HasStatus(e, FATAL_STATUS + RETRIABLE_STATUS)
  }

  predicate RateLimited(e: Failure) {
    !SpeaksOfQuota(e) && (e.status == Some(429) || (Unlisted(e) && SoundsRateLimited(e)))
  }

  predicate NeverRetried(e: Failure) {
    && !SpeaksOfQuota(e)
    && (HasStatus(e, FATAL_STATUS) || (Unlisted(e) && !SoundsRateLimited(e) && SoundsFatal(e)))
  }

  /** The classification of every error. */
  lemma KindsAreThese(e: Failure)
    ensures ClassifyError(e) == if SpeaksOfQuota(e) then QuotaCycle
                                else if RateLimited(e) then RateLimit
                                else if NeverRetried(e) then Fatal
                                else Retry
    ensures NeverRetried(e) ==> !SpeaksOfQuota(e) && !RateLimited(e)
  {
    hide Contains;
  }

  // ----------------------------------------------------------------------------------------
  // Waits
  // ----------------------------------------------------------------------------------------

  /** The base wait after attempt `k`, in seconds. */
  function Base(limited: bool, k: nat): real {
    if limited then (if k <= 1 then 15.0 else if k == 2 then 30.0 else if k == 3 then 60.0 else 120.0)
    else if k <= 1 then 5.0
    else if k == 2 then 10.0
    else if k == 3 then 20.0
    else if k == 4 then 40.0
    else 60.0
  }

  lemma {:induction false} Pow2Reaches(n: nat, k: nat)
    requires k <= n
    ensures Pow2(k) <= Pow2(n)
    decreases n
  {
    if k < n {
      Pow2Reaches(n - 1, k);
    }
  }

  /** It doubles from 15 or 5 seconds up to 120 or 60. */
  lemma BaseDoubles(limited: bool, k: nat)
    requires k >= 1
    ensures Base(limited, k)
         == Min(((if limited then 15 else 5) * Pow2(k - 1)) as real, if limited then 120.0 else 60.0)
    ensures var steps := if k - 1 <= 10 then k - 1 else 10;
            Base(limited, k) ==
            Min(((if limited then 15 else 5) * Pow2(steps)) as real, if limited then 120.0 else 60.0)
  {
    assert Pow2(0) == 1 && Pow2(1) == 2 && Pow2(2) == 4 && Pow2(3) == 8 && Pow2(4) == 16;
    if k > 5 {
      hide Pow2;
      Pow2Reaches(k - 1, 4);
      Pow2Reaches(if k - 1 <= 10 then k - 1 else 10, 4);
    }
  }

  /** The wait after attempt `k` ended with error `e`, or with an empty reply. */
  function WaitAfter(cfg: Config, k: nat, r: Round, e: Option<Failure>): real {
    if e.Some? && SpeaksOfQuota(e.value) then cfg.quotaWait
    else
      var base := Base(e.Some? && RateLimited(e.value), k);
      var drawn := base + r.jitter * (if base / 4.0 < 5.0 then base / 4.0 else 5.0);
      if e.Some? && e.value.retryAfter.Some? && e.value.retryAfter.value > drawn then e.value.retryAfter.value
      else drawn
  }

  function KindAfter(e: Option<Failure>): Kind {
    if e.None? then EmptyReply
    else if SpeaksOfQuota(e.value) then QuotaCycle
    else if RateLimited(e.value) then RateLimit
    else Retry
  }

  lemma DelayIsThis(cfg: Config, k: nat, r: Round, e: Option<Failure>)
    requires cfg.Valid() && k >= 1 && (e.Some? ==> !NeverRetried(e.value))
    ensures e.Some? ==> ClassifyError(e.value) == KindAfter(e)
    ensures Delay(cfg, KindAfter(e), k, r.jitter, if e.Some? then e.value.retryAfter else None)
         == WaitAfter(cfg, k, r, e)
  {
    hide ClassifyError, SpeaksOfQuota, RateLimited, NeverRetried, Base, Pow2;
    if e.Some? {
      KindsAreThese(e.value);
    }
    BaseDoubles(e.Some? && RateLimited(e.value), k);
  }

  // ----------------------------------------------------------------------------------------
  // What follows what
  // ----------------------------------------------------------------------------------------

  /** The error of attempt `k` is raised. */
  predicate IsRaised(cfg: Config, call: Call, k: nat, e: Failure) {
    NeverRetried(e) || k == call.attempts || (SpeaksOfQuota(e) && cfg.quotaWait == 0.0)
  }

  /** The reply of attempt `k` ends the request: it has a text, is a refusal, or is the last allowed. */
  predicate IsFinal(call: Call, k: nat, text: string, finish: string) {
    text != "" || finish in ["content_filter", "sensitive", "refusal"] || k == call.attempts
  }

  /** After event `i` the request waits if the wait is shorter than the time left, and else ends. */
  predicate WaitsNext(cfg: Config, r: Round, trace: seq<Event>, i: nat, k: nat, e: Option<Failure>) {
    && 0 < i && i + 1 < |trace| && trace[i - 1].Request?
    && var left := trace[i - 1].remaining - (r.lead + r.elapsed + r.lag);
       var delay := WaitAfter(cfg, k, r, e);
       trace[i + 1] == if delay < left then RetryWait(k, KindAfter(e), delay, left) else Exhausted
  }

  /** What comes right after event `i` of a finished request. */
  predicate Follows(cfg: Config, call: Call, world: nat -> Round, trace: seq<Event>, i: nat)
    requires i < |trace|
  {
    match trace[i]
    case Request(k, tokens, remaining, timeouts) =>
      && tokens >= 1 && cfg.Valid()
      && timeouts.connect == timeouts.pool == Min(cfg.connectTimeout, remaining)
      && timeouts.write == Min(cfg.writeTimeout, remaining)
      && timeouts.read == Min(ReadTimeout(cfg, tokens), remaining)
      && i + 1 < |trace|
      && (match world(k).reply
          case Raised(e) => trace[i + 1] == Failed(k, e)
          case Replied(text, finish, _) => trace[i + 1] == Response(k, text, finish))
    case Failed(k, e) =>
      if IsRaised(cfg, call, k, e) then i == |trace| - 1 else WaitsNext(cfg, world(k), trace, i, k, Some(e))
    case Response(k, text, finish) =>
      if IsFinal(call, k, text, finish) then i == |trace| - 1 else WaitsNext(cfg, world(k), trace, i, k, None)
    case RetryWait(k, _, delay, left) =>
      && i + 1 < |trace|
      && (var remaining := left - delay - world(k).over;
          if remaining > 0.0 then
            trace[i + 1].Request? && trace[i + 1].attempt == k + 1 && trace[i + 1].remaining == remaining
          else trace[i + 1] == Exhausted)
    case Exhausted => i == |trace| - 1
  }

  function ExitOf(last: Event): Option<Exit> {
    match last
    case Failed(_, e) => Some(RaisedFailure(e))
    case Response(_, text, _) => Some(if text == "" then RaisedEmpty else Returned(text))
    case Exhausted => Some(BudgetExceeded)
    case _ => None
  }

  /** The metadata of the last attempt sent: budget and finish reason of its reply, nothing after an error. */
  function MetaOf(trace: seq<Event>): Option<Metadata>
    decreases |trace|
  {
    if trace == [] then None
    else
      match trace[|trace| - 1]
      case Response(_, _, finish) =>
        if |trace| > 1 && trace[|trace| - 2].Request? then Some(Metadata(trace[|trace| - 2].maxTokens, finish))
        else None
      case Exhausted => MetaOf(trace[..|trace| - 1])
      case RetryWait(_, _, _, _) => MetaOf(trace[..|trace| - 1])
      case _ => None
  }

  lemma FollowsStill(cfg: Config, call: Call, world: nat -> Round, t: seq<Event>, t': seq<Event>, i: nat)
    requires i + 1 < |t| && t <= t' && Follows(cfg, call, world, t, i)
    ensures Follows(cfg, call, world, t', i)
  {
    hide IsRaised, IsFinal, WaitAfter, KindAfter, ReadTimeout;
  }

  /** The session after attempt `k`: every event but the last is followed as it should be, and the last one ends
      the request or is the wait after which it goes on. */
  ghost predicate Regular(cfg: Config, call: Call, world: nat -> Round, s: Session, k: nat) {
    && s.trace != [] && s.meta == MetaOf(s.trace)
    && (forall i | 0 <= i < |s.trace| - 1 :: Follows(cfg, call, world, s.trace, i))
    && var last := s.trace[|s.trace| - 1];
       s.exit == ExitOf(last) && !last.Request?
       && if s.exit.Some? then Follows(cfg, call, world, s.trace, |s.trace| - 1)
          else last.attempt == k && call.deadline - s.now == last.left - last.delay - world(k).over
  }

  /** The session attempt `k` starts in. */
  ghost predicate Ready(cfg: Config, call: Call, world: nat -> Round, s: Session, k: nat, lag: Duration)
    requires k >= 1
  {
    if k == 1 then s.trace == [] && s.exit.None? && s.meta.None? && call.deadline - s.now == cfg.retryBudget - lag
    else Regular(cfg, call, world, s, k - 1) && s.exit.None?
  }

  /** The request begins with its first attempt, or has no time for one. */
  predicate BeginsRight(cfg: Config, lag: Duration, trace: seq<Event>) {
    && trace != []
    && if cfg.retryBudget - lag > 0.0 then
         trace[0].Request? && trace[0].attempt == 1 && trace[0].remaining == cfg.retryBudget - lag
       else trace[0] == Exhausted
  }

  lemma RegularExtended(cfg: Config, call: Call, world: nat -> Round, s: Session, k: nat, more: seq<Event>)
    requires Regular(cfg, call, world, s, k) && s.exit.None?
    ensures forall i | 0 <= i < |s.trace| - 1 :: Follows(cfg, call, world, s.trace + more, i)
  {
    hide Follows;
    forall i | 0 <= i < |s.trace| - 1 ensures Follows(cfg, call, world, s.trace + more, i) {
      FollowsStill(cfg, call, world, s.trace, s.trace + more, i);
    }
  }

  /** What an attempt does after it ended with error `e` or an empty reply, when `left` is left. */
  function Next(cfg: Config, k: nat, r: Round, e: Option<Failure>, left: real): Event {
    var delay := WaitAfter(cfg, k, r, e);
    if delay < left then RetryWait(k, KindAfter(e), delay, left) else Exhausted
  }

  function Sent(cfg: Config, call: Call, k: nat, s: Session): Event
    requires cfg.Valid() && s.maxTokens >= 1
  {
    var remaining := call.deadline - s.now;
    Request(k, s.maxTokens, remaining, TimeoutsFor(cfg, s.maxTokens, remaining))
  }

  function LeftAfter(call: Call, r: Round, s: Session): real {
    call.deadline - s.now - (r.lead + r.elapsed + r.lag)
  }

  lemma RaisedAttempt(cfg: Config, call: Call, k: nat, r: Round, s: Session)
    requires cfg.Valid() && k >= 1 && s.maxTokens >= 1 && s.now < call.deadline && r.reply.Raised?
    ensures var e := r.reply.error;
            Attempt(cfg, call, k, r, s).trace == s.trace + [Sent(cfg, call, k, s), Failed(k, e)]
              + if IsRaised(cfg, call, k, e) then [] else [Next(cfg, k, r, Some(e), LeftAfter(call, r, s))]
  {
    hide ClassifyError, TimeoutsFor, Delay, WaitAfter, SpeaksOfQuota, RateLimited, NeverRetried, KindAfter;
    KindsAreThese(r.reply.error);
    if !NeverRetried(r.reply.error) {
      DelayIsThis(cfg, k, r, Some(r.reply.error));
      KindOfError(r.reply.error);
    }
  }

  lemma AnsweredAttempt(cfg: Config, call: Call, k: nat, r: Round, s: Session)
    requires cfg.Valid() && k >= 1 && s.maxTokens >= 1 && s.now < call.deadline && r.reply.Replied?
    ensures var (text, finish) := (r.reply.text, r.reply.finish);
            Attempt(cfg, call, k, r, s).trace == s.trace + [Sent(cfg, call, k, s), Response(k, text, finish)]
              + if IsFinal(call, k, text, finish) then [] else [Next(cfg, k, r, None, LeftAfter(call, r, s))]
  {
    hide ClassifyError, TimeoutsFor, Delay, Doubled, WaitAfter, KindAfter;
    DelayIsThis(cfg, k, r, None);
    KindOfEmpty();
  }

  /** The events an attempt adds follow each other as they should. */
  lemma AttemptFollows(cfg: Config, call: Call, world: nat -> Round, k: nat, s: Session, i: nat)
    requires cfg.Valid() && k >= 1 && s.maxTokens >= 1 && s.exit.None?
    requires var after := Attempt(cfg, call, k, world(k), s);
             |s.trace| <= i < |after.trace| && (i == |after.trace| - 1 ==> after.exit.Some?)
    ensures Follows(cfg, call, world, Attempt(cfg, call, k, world(k), s).trace, i)
  {
    hide Attempt, ReadTimeout, WaitAfter, NeverRetried, SpeaksOfQuota, KindAfter, IsFinal, IsRaised;
    AttemptEnds(cfg, call, world, k, s);
    if s.now < call.deadline {
      var t, n := Attempt(cfg, call, k, world(k), s).trace, |s.trace|;
      if world(k).reply.Raised? {
        RaisedAttempt(cfg, call, k, world(k), s);
        assert t[n] == Sent(cfg, call, k, s) && t[n + 1] == Failed(k, world(k).reply.error);
      } else {
        AnsweredAttempt(cfg, call, k, world(k), s);
        assert t[n] == Sent(cfg, call, k, s) && t[n + 1] == Response(k, world(k).reply.text, world(k).reply.finish);
      }
    }
  }

  lemma KindOfError(e: Failure)
    ensures KindAfter(Some(e)) == if SpeaksOfQuota(e) then QuotaCycle else if RateLimited(e) then RateLimit else Retry
  {
  }

  lemma KindOfEmpty()
    ensures KindAfter(None) == EmptyReply
  {
  }

  /** How an attempt leaves the session. */
  lemma AttemptEnds(cfg: Config, call: Call, world: nat -> Round, k: nat, s: Session)
    requires cfg.Valid() && k >= 1 && s.maxTokens >= 1 && s.exit.None?
    ensures var after := Attempt(cfg, call, k, world(k), s);
            && s.trace < after.trace
            && var last := after.trace[|after.trace| - 1];
               after.exit == ExitOf(last) && !last.Request?
               && (after.exit.None? ==>
                     last.attempt == k && call.deadline - after.now == last.left - last.delay - world(k).over)
    ensures var after := Attempt(cfg, call, k, world(k), s);
            var e := after.trace[|s.trace|];
            if call.deadline - s.now > 0.0 then
              e.Request? && e.attempt == k && e.remaining == call.deadline - s.now
            else e == Exhausted && |after.trace| == |s.trace| + 1
  {
    hide ClassifyError, TimeoutsFor, Delay, Doubled;
  }

  lemma MetaAfter(cfg: Config, call: Call, k: nat, r: Round, s: Session)
    requires cfg.Valid() && k >= 1 && s.maxTokens >= 1
    ensures Attempt(cfg, call, k, r, s).meta == if s.now >= call.deadline then s.meta
                                                else if r.reply.Raised? then None
                                                else Some(Metadata(s.maxTokens, r.reply.finish))
  {
    hide ClassifyError, TimeoutsFor, Delay, Doubled;
  }

  lemma MetaOfTail(before: seq<Event>, request: Event, answer: Event, more: seq<Event>)
    requires request.Request? && (answer.Failed? || answer.Response?)
    requires more == [] || (|more| == 1 && (more[0].RetryWait? || more[0].Exhausted?))
    ensures MetaOf(before + [request, answer] + more)
         == if answer.Failed? then None else Some(Metadata(request.maxTokens, answer.finish))
  {
    var t := before + [request, answer];
    assert t[|t| - 1] == answer && t[|t| - 2] == request;
    if more == [] {
      assert t + more == t;
    } else {
      assert (t + more)[..|t|] == t;
    }
  }

  lemma AttemptMeta(cfg: Config, call: Call, world: nat -> Round, k: nat, s: Session)
    requires cfg.Valid() && k >= 1 && s.maxTokens >= 1 && s.exit.None? && s.meta == MetaOf(s.trace)
    ensures var after := Attempt(cfg, call, k, world(k), s); after.meta == MetaOf(after.trace)
  {
    hide Attempt, TimeoutsFor, WaitAfter, IsRaised, IsFinal, KindAfter;
    var r, after := world(k), Attempt(cfg, call, k, world(k), s);
    MetaAfter(cfg, call, k, r, s);
    AttemptEnds(cfg, call, world, k, s);
    var left := LeftAfter(call, r, s);
    if s.now >= call.deadline {
      assert after.trace[..|after.trace| - 1] == s.trace;
    } else if r.reply.Raised? {
      RaisedAttempt(cfg, call, k, r, s);
      var e := r.reply.error;
      MetaOfTail(s.trace, Sent(cfg, call, k, s), Failed(k, e),
                 if IsRaised(cfg, call, k, e) then [] else [Next(cfg, k, r, Some(e), left)]);
    } else {
      AnsweredAttempt(cfg, call, k, r, s);
      MetaOfTail(s.trace, Sent(cfg, call, k, s), Response(k, r.reply.text, r.reply.finish),
                 if IsFinal(call, k, r.reply.text, r.reply.finish) then [] else [Next(cfg, k, r, None, left)]);
    }
  }

  lemma AttemptKeepsRegular(cfg: Config, call: Call, world: nat -> Round, k: nat, s: Session, lag: Duration)
    requires cfg.Valid() && k >= 1 && s.maxTokens >= 1 && Ready(cfg, call, world, s, k, lag)
    ensures Regular(cfg, call, world, Attempt(cfg, call, k, world(k), s), k)
    ensures k == 1 ==> BeginsRight(cfg, lag, Attempt(cfg, call, k, world(k), s).trace)
    ensures s.trace <= Attempt(cfg, call, k, world(k), s).trace
  {
    hide Attempt, Follows, MetaOf;
    NoMeta();
    var after := Attempt(cfg, call, k, world(k), s);
    AttemptMeta(cfg, call, world, k, s);
    AttemptEnds(cfg, call, world, k, s);
    assert after.trace == s.trace + after.trace[|s.trace|..];
    if k > 1 {
      RegularExtended(cfg, call, world, s, k - 1, after.trace[|s.trace|..]);
      WaitIsFollowed(cfg, call, world, after.trace, |s.trace| - 1);
    }
    forall i | |s.trace| <= i < |after.trace| && (i == |after.trace| - 1 ==> after.exit.Some?)
      ensures Follows(cfg, call, world, after.trace, i)
    {
      AttemptFollows(cfg, call, world, k, s, i);
    }
  }

  lemma NoMeta()
    ensures MetaOf([]) == None
  {
  }

  lemma WaitIsFollowed(cfg: Config, call: Call, world: nat -> Round, t: seq<Event>, i: nat)
    requires i + 1 < |t| && t[i].RetryWait?
    requires var remaining := t[i].left - t[i].delay - world(t[i].attempt).over;
             if remaining > 0.0 then
               t[i + 1].Request? && t[i + 1].attempt == t[i].attempt + 1 && t[i + 1].remaining == remaining
             else t[i + 1] == Exhausted
    ensures Follows(cfg, call, world, t, i)
  {
  }

  lemma {:induction false} AttemptsAreRegular(cfg: Config, call: Call, world: nat -> Round, s: Session, n: nat,
                                              lag: Duration)
    requires cfg.Valid() && s.maxTokens >= 1 && n >= 1 && Ready(cfg, call, world, s, 1, lag)
    ensures var after := Attempts(cfg, call, world, s, n);
            BeginsRight(cfg, lag, after.trace) && if after.exit.Some? then
              exists k :: 1 <= k <= n && Regular(cfg, call, world, after, k)
            else Regular(cfg, call, world, after, n)
    decreases n
  {
    hide Attempt, Regular;
    if n == 1 {
      assert Attempts(cfg, call, world, s, 0) == s;
      AttemptKeepsRegular(cfg, call, world, 1, s, lag);
    } else {
      AttemptsAreRegular(cfg, call, world, s, n - 1, lag);
      var before := Attempts(cfg, call, world, s, n - 1);
      if before.exit.None? {
        AttemptKeepsRegular(cfg, call, world, n, before, lag);
      }
    }
  }

  /** Every request, whatever the provider answers and however time passes: its trace begins with the first
      attempt, every event is followed by the one event it should be followed by, and the exit is that of
      the last event. So an error that is not raised is waited for and tried again, and so is an empty reply. */
  lemma EveryTraceIsTheRightOne(cfg: Config, attempts: nat, m: nat, start: real, lag: Duration, c0: Counters,
                                world: nat -> Round)
    requires cfg.Valid() && attempts >= 1 && m >= 1
    ensures var call := CallFor(cfg, attempts, m, start);
            var s := Attempts(cfg, call, world, Begin(m, start, lag, c0), attempts);
            && BeginsRight(cfg, lag, s.trace)
            && (forall i | 0 <= i < |s.trace| :: Follows(cfg, call, world, s.trace, i))
            && s.exit.Some? && s.exit == ExitOf(s.trace[|s.trace| - 1]) && s.meta == MetaOf(s.trace)
  {
    hide Attempts, Follows, MetaOf;
    var call := CallFor(cfg, attempts, m, start);
    LastAttemptEnds(cfg, call, world, Begin(m, start, lag, c0));
    AttemptsAreRegular(cfg, call, world, Begin(m, start, lag, c0), attempts, lag);
  }
}
