/** Keeping a conversation within its character budget (src/core/agent_loop.py,
    `_trim_messages` and `_bound_message_contents`). */
module ContextWindow {

  datatype Message = Message(role: string, content: string)

  const MAX_CONTEXT_CHARS: nat := 60000
  const KEPT_RECENT: nat := 6
  const MARKER := "\n[CONTEXT TRUNCATED: re-read needed fields using read_spec(path=...) or query_json.]"
  const PLACEHOLDER := Message("user", "[Earlier conversation trimmed to fit context window]")

  function Chars(ms: seq<Message>): nat {
    if ms == [] then 0 else |ms[0].content| + Chars(ms[1..])
  }

  lemma {:induction false} CharsAppend(a: seq<Message>, b: seq<Message>)
    ensures Chars(a + b) == Chars(a) + Chars(b)
  {
    if a == [] {
      assert a + b == b;
    } else {
      CharsAppend(a[1..], b);
      assert (a + b)[1..] == a[1..] + b;
    }
  }

  function Share(n: nat): nat {
    MAX_CONTEXT_CHARS / if n == 0 then 1 else n
  }

  /** A message cut to `budget` characters, the cut made visible. */
  function Cut(m: Message, budget: nat): (c: Message)
    ensures c.role == m.role && |c.content| <= budget
    ensures |m.content| <= budget ==> c == m
    ensures |m.content| > budget >= |MARKER| ==> c.content == m.content[..budget - |MARKER|] + MARKER
  {
    if |m.content| <= budget then m
    else if budget >= |MARKER| then Message(m.role, m.content[..budget - |MARKER|] + MARKER)
    else Message(m.role, MARKER[..budget])
  }

  function Bounded(ms: seq<Message>): seq<Message> {
    seq(|ms|, i requires 0 <= i < |ms| => Cut(ms[i], Share(|ms|)))
  }

  lemma {:induction false} CharsAtMost(ms: seq<Message>, budget: nat)
    requires forall i | 0 <= i < |ms| :: |ms[i].content| <= budget
    ensures Chars(ms) <= |ms| * budget
  {
    if ms != [] {
      CharsAtMost(ms[1..], budget);
      assert |ms| * budget == budget + (|ms| - 1) * budget;
    }
  }

  lemma BoundedFits(ms: seq<Message>)
    ensures Chars(Bounded(ms)) <= MAX_CONTEXT_CHARS
  {
    hide Chars, Share, Cut;
    CharsAtMost(Bounded(ms), Share(|ms|));
    SharesFit(|ms|);
  }

  lemma SharesFit(n: nat)
    ensures n * Share(n) <= MAX_CONTEXT_CHARS
  {
    if n > 0 {
      DivideAndMultiply(MAX_CONTEXT_CHARS, n);
    }
  }

  lemma DivideAndMultiply(m: nat, n: nat)
    requires n > 0
    ensures n * (m / n) <= m
  {
    assert m == n * (m / n) + m % n;
  }

  predicate Fits(ms: seq<Message>) {
    Chars(ms) <= MAX_CONTEXT_CHARS
  }

  /** How many messages are dropped from the front of the middle: the fewest after which the
      conversation fits, or all of them. */
  function Dropped(first: seq<Message>, middle: seq<Message>, recent: seq<Message>, k: nat): (d: nat)
    requires k <= |middle|
    ensures k <= d <= |middle|
    ensures forall j | k <= j < d :: !Fits(first + middle[j..] + recent)
    ensures d < |middle| ==> Fits(first + middle[d..] + recent)
    decreases |middle| - k
  {
    if k < |middle| && !Fits(first + middle[k..] + recent) then Dropped(first, middle, recent, k + 1) else k
  }

  /** The long conversation before any message is cut. */
  function Shortened(ms: seq<Message>): seq<Message>
    requires |ms| > KEPT_RECENT + 1
  {
    var first, recent := ms[..1], ms[|ms| - KEPT_RECENT..];
    var middle := ms[1..|ms| - KEPT_RECENT];
    var d := Dropped(first, middle, recent, 0);
    if d == |middle| then first + [PLACEHOLDER] + recent else first + middle[d..] + recent
  }

  function Trim(ms: seq<Message>): seq<Message> {
    if Fits(ms) then ms
    else if |ms| <= KEPT_RECENT + 1 then Bounded(ms)
    else if Fits(Shortened(ms)) then Shortened(ms)
    else Bounded(Shortened(ms))
  }

  method TrimMessages(ms: seq<Message>) returns (trimmed: seq<Message>)
    ensures trimmed == Trim(ms)
  {
    hide Chars, Bounded;
    if Chars(ms) <= MAX_CONTEXT_CHARS {
      return ms;
    }
    if |ms| <= KEPT_RECENT + 1 {
      return Bounded(ms);
    }
    var first, recent := ms[..1], ms[|ms| - KEPT_RECENT..];
    ghost var all := ms[1..|ms| - KEPT_RECENT];
    var middle := ms[1..|ms| - KEPT_RECENT];
    ghost var d := 0;
    while middle != [] && Chars(first + middle + recent) > MAX_CONTEXT_CHARS
      invariant 0 <= d <= |all| && middle == all[d..]
      invariant Dropped(first, all, recent, 0) == Dropped(first, all, recent, d)
      decreases |middle|
    {
      middle := middle[1..];
      d := d + 1;
    }
    if middle == [] {
      trimmed := first + [PLACEHOLDER] + recent;
    } else {
      trimmed := first + middle + recent;
    }
    if Chars(trimmed) > MAX_CONTEXT_CHARS {
      trimmed := Bounded(trimmed);
    }
  }

  /** Whatever the conversation, the trimmed one fits, so trimming it again changes nothing. */
  lemma TrimFits(ms: seq<Message>)
    ensures Chars(Trim(ms)) <= MAX_CONTEXT_CHARS
    ensures Trim(Trim(ms)) == Trim(ms)
  {
    hide Chars, Bounded, Shortened;
    BoundedFits(ms);
    if |ms| > KEPT_RECENT + 1 {
      BoundedFits(Shortened(ms));
    }
  }

  /** What a long conversation becomes: the first message, the longest fitting end of the middle
      or a placeholder, and the last six messages. They survive unchanged unless even the
      placeholder form is too long, and then exactly the messages over an eighth of the
      budget are cut. */
  lemma TrimKeepsEnds(ms: seq<Message>)
    requires Chars(ms) > MAX_CONTEXT_CHARS && |ms| > KEPT_RECENT + 1
    ensures var n, t := |ms| - KEPT_RECENT, Trim(ms);
            var room := MAX_CONTEXT_CHARS - Chars(ms[..1]) - Chars(ms[n..]);
            if exists k | 1 <= k < n :: Chars(ms[k..n]) <= room then
              exists k | 1 < k < n ::
                && t == ms[..1] + ms[k..n] + ms[n..]
                && Chars(ms[k..n]) <= room
                && forall j | 1 <= j < k :: Chars(ms[j..n]) > room
            else if |PLACEHOLDER.content| <= room then
              t == ms[..1] + [PLACEHOLDER] + ms[n..]
            else
              var whole := ms[..1] + [PLACEHOLDER] + ms[n..];
              && |t| == KEPT_RECENT + 2
              && forall i | 0 <= i < |t| :: t[i] == Cut(whole[i], 7500)
  {
    hide Cut, Chars;
    var n := |ms| - KEPT_RECENT;
    var first, middle, recent := ms[..1], ms[1..n], ms[n..];
    var d := Dropped(first, middle, recent, 0);
    forall k | 0 <= k <= |middle|
      ensures Chars(first + middle[k..] + recent) == Chars(first) + Chars(ms[k + 1..n]) + Chars(recent)
    {
      assert middle[k..] == ms[k + 1..n];
      CharsAppend(first + middle[k..], recent);
      CharsAppend(first, middle[k..]);
    }
    assert ms == first + middle[0..] + recent;
    CharsOne(PLACEHOLDER);
    CharsAppend(first + [PLACEHOLDER], recent);
    CharsAppend(first, [PLACEHOLDER]);
    if d < |middle| {
      assert Chars(ms[d + 1..n]) <= MAX_CONTEXT_CHARS - Chars(first) - Chars(recent);
      assert middle[d..] == ms[d + 1..n];
      forall j | 1 <= j < d + 1 ensures Chars(ms[j..n]) > MAX_CONTEXT_CHARS - Chars(first) - Chars(recent) {
        assert !Fits(first + middle[j - 1..] + recent);
      }
    } else {
      forall j | 1 <= j < n ensures Chars(ms[j..n]) > MAX_CONTEXT_CHARS - Chars(first) - Chars(recent) {
        assert !Fits(first + middle[j - 1..] + recent);
      }
    }
  }

  lemma CharsOne(m: Message)
    ensures Chars([m]) == |m.content|
  {
    assert Chars([m][1..]) == 0;
  }
}
