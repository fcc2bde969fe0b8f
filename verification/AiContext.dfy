/** The conversation window sent to the model (app/services/ai_context.py): the current session,
    and the messages of it that fit the limits. */
module AiContext {
  import opened Common

  datatype Purpose = Conversational | Campaign | Marketing | Transactional | OtherPurpose

  /** A stored message; `body` is its text (or its media placeholder) without control characters. */
  datatype Message = Message(
    id: string,
    inbound: bool,
    fromCampaign: bool,
    purpose: Purpose,
    createdAt: Option<int>,
    body: string)

  predicate IsBusinessInitiated(m: Message) {
    && !m.inbound
    && (m.fromCampaign || m.purpose.Campaign? || m.purpose.Marketing? || m.purpose.Transactional?)
  }

  // ---- The current session -----------------------------------------------------------------------

  /** Is the pause before message `i` longer than the gap? */
  predicate OverGap(raw: seq<Message>, i: nat, gap: int)
    requires 0 < i < |raw|
  {
    && raw[i].createdAt.Some?
    && raw[i - 1].createdAt.Some?
    && raw[i].createdAt.value - raw[i - 1].createdAt.value > gap
  }

  /** Does message `i` answer something the business started? */
  predicate IsLateReply(raw: seq<Message>, i: nat)
    requires 0 < i < |raw|
  {
    raw[i].inbound && IsBusinessInitiated(raw[i - 1])
  }

  /** One conversation: no pause over the gap, but for a late reply to its opening message. */
  predicate IsConversation(s: seq<Message>, gap: int) {
    forall i :: 0 < i < |s| && OverGap(s, i, gap) ==> i == 1 && IsLateReply(s, i)
  }

  /** Where the current conversation starts when only messages up to `n` are searched. */
  function Cut(raw: seq<Message>, gap: int, n: nat): (c: nat)
    requires n < |raw|
    ensures c <= n
  {
    if n == 0 then 0
    else if OverGap(raw, n, gap) then (if IsLateReply(raw, n) then n - 1 else n)
    else Cut(raw, gap, n - 1)
  }

  function SessionStart(raw: seq<Message>, gap: Option<int>): (start: nat)
    ensures start <= |raw| && (raw != [] ==> start < |raw|)
  {
    if gap.None? || gap.value <= 0 || |raw| < 2 then 0 else Cut(raw, gap.value, |raw| - 1)
  }

  function Session(raw: seq<Message>, gap: Option<int>): seq<Message> {
    raw[SessionStart(raw, gap)..]
  }

  method CurrentSession(raw: seq<Message>, gap: Option<int>) returns (session: seq<Message>)
    ensures session == Session(raw, gap)
  {
    if gap.None? || gap.value <= 0 || |raw| < 2 {
      return raw;
    }
    var i := |raw| - 1;
    while i > 0
      invariant 0 <= i < |raw|
      invariant Cut(raw, gap.value, |raw| - 1) == Cut(raw, gap.value, i)
    {
      var newer, older := raw[i], raw[i - 1];
      if newer.createdAt.None? || older.createdAt.None?
         || newer.createdAt.value - older.createdAt.value <= gap.value {
        i := i - 1;
        continue;
      }
      if newer.inbound && IsBusinessInitiated(older) {
        return raw[i - 1..];
      }
      return raw[i..];
    }
    return raw;
  }

  lemma {:induction false} CutIsLeast(raw: seq<Message>, gap: int, n: nat, j: nat)
    requires n < |raw| && j <= n
    requires forall i :: n < i < |raw| ==> !OverGap(raw, i, gap)
    ensures IsConversation(raw[j..], gap) <==> Cut(raw, gap, n) <= j
  {
    var s := raw[j..];
    assert forall i :: 0 < i < |s| ==> (OverGap(s, i, gap) <==> OverGap(raw, j + i, gap))
                                       && (IsLateReply(s, i) <==> IsLateReply(raw, j + i));
    if n > 0 && OverGap(raw, n, gap) {
      assert n > j ==> OverGap(s, n - j, gap);
    } else if n > j {
      CutIsLeast(raw, gap, n - 1, j);
    } else if n > 0 {
      assert Cut(raw, gap, n) == Cut(raw, gap, n - 1);
    }
  }

  /** The session is the longest suffix that is one conversation; as it is not empty, it keeps
      the newest message. */
  lemma SessionIsLongestConversation(raw: seq<Message>, gap: int, j: nat)
    requires gap > 0 && j < |raw|
    ensures IsConversation(raw[j..], gap) <==> SessionStart(raw, Some(gap)) <= j
    ensures Session(raw, Some(gap)) != [] && IsConversation(Session(raw, Some(gap)), gap)
  {
    if |raw| >= 2 {
      CutIsLeast(raw, gap, |raw| - 1, j);
      CutIsLeast(raw, gap, |raw| - 1, SessionStart(raw, Some(gap)));
    }
  }

  /** Two messages are one session exactly when no gap is set, either time is unknown, the pause is
      within the gap, or the second is a customer's reply to a message the business started with;
      otherwise the second one is the session. */
  lemma SessionOfTwo(a: Message, b: Message, gap: Option<int>)
    ensures Session([a, b], gap) ==
            if || gap.None? || gap.value <= 0
               || a.createdAt.None? || b.createdAt.None?
               || b.createdAt.value - a.createdAt.value <= gap.value
               || (b.inbound && !a.inbound && (a.fromCampaign || a.purpose in {Campaign, Marketing, Transactional}))
            then [a, b] else [b]
  {
  }

  lemma SessionIsIdempotent(raw: seq<Message>, gap: Option<int>)
    ensures Session(Session(raw, gap), gap) == Session(raw, gap)
  {
    if gap.Some? && gap.value > 0 && raw != [] {
      var s := Session(raw, gap);
      SessionIsLongestConversation(raw, gap.value, 0);
      SessionIsLongestConversation(s, gap.value, 0);
      assert s[0..] == s;
    }
  }

  predicate HasOverGap(raw: seq<Message>, gap: int) {
    exists i :: 0 < i < |raw| && OverGap(raw, i, gap)
  }

  /** Reading further back never drops a message from the session, and changes nothing once the
      window holds a pause over the gap. */
  lemma OlderMessagesOnlyExtend(older: seq<Message>, raw: seq<Message>, gap: Option<int>)
    requires raw != []
    ensures var start, further := SessionStart(raw, gap), SessionStart(older + raw, gap);
            && further <= |older| + start
            && (gap.Some? && gap.value > 0 && HasOverGap(raw, gap.value) ==> further == |older| + start)
    ensures (older + raw)[|older| + SessionStart(raw, gap)..] == Session(raw, gap)
  {
    var all := older + raw;
    var start, further := SessionStart(raw, gap), SessionStart(all, gap);
    assert all[|older| + start..] == raw[start..];
    if gap.Some? && gap.value > 0 {
      SessionIsLongestConversation(raw, gap.value, start);
      SessionIsLongestConversation(all, gap.value, |older| + start);
      if HasOverGap(raw, gap.value) {
        OverGapKeepsSession(older, raw, gap.value);
      }
    }
  }

  lemma OverGapKeepsSession(older: seq<Message>, raw: seq<Message>, gap: int)
    requires gap > 0 && HasOverGap(raw, gap)
    ensures SessionStart(older + raw, Some(gap)) >= |older| + SessionStart(raw, Some(gap))
  {
    var all := older + raw;
    var further := SessionStart(all, Some(gap));
    SessionIsLongestConversation(all, gap, further);
    var i :| 0 < i < |raw| && OverGap(raw, i, gap);
    if further < |older| {
      assert OverGap(all[further..], |older| + i - further, gap);
    } else {
      assert all[further..] == raw[further - |older|..];
      SessionIsLongestConversation(raw, gap, further - |older|);
    }
  }

  // ---- Loading the context ------------------------------------------------------------------------

  function Text(m: Message): (text: string)
    ensures text <= m.body && |text| == Min(|m.body|, 2000)
  {
    if |m.body| <= 2000 then m.body else m.body[..2000]
  }

  function Cost(m: Message): int {
    |Text(m)| + 16
  }

  function Costs(ms: seq<Message>): int {
    if ms == [] then 0 else Costs(ms[..|ms| - 1]) + Cost(Last(ms))
  }

  function NonEmpty(ms: seq<Message>): seq<Message> {
    if ms == [] then []
    else NonEmpty(ms[..|ms| - 1]) + if Text(Last(ms)) == "" then [] else [Last(ms)]
  }

  /** `a` is what is left of `b` after dropping some messages. */
  predicate IsSubsequence(a: seq<Message>, b: seq<Message>)
    decreases |b|
  {
    || a == []
    || (b != [] && IsSubsequence(a, b[..|b| - 1]))
    || (b != [] && Last(a) == Last(b) && IsSubsequence(a[..|a| - 1], b[..|b| - 1]))
  }

  function Newest(ms: seq<Message>, n: nat): seq<Message> {
    if |ms| <= n then ms else ms[|ms| - n..]
  }

  lemma NewestAreLast(ms: seq<Message>, n: nat)
    ensures |Newest(ms, n)| == Min(|ms|, n) && Newest(ms, n) == ms[|ms| - |Newest(ms, n)|..]
  {
  }

  /** A quarter of the length, rounded up. */
  function EstimateTokens(text: string): (tokens: int)
    ensures |text| <= 4 * tokens < |text| + 4
  {
    if text == "" then 0 else Max(1, (|text| + 3) / 4)
  }

  function Tokens(ms: seq<Message>): int {
    if ms == [] then 0 else Tokens(ms[..|ms| - 1]) + EstimateTokens(Text(Last(ms)))
  }

  datatype Context = Context(
    messages: seq<Message>,
    truncated: bool,
    tokens: int,
    firstCustomerMessage: Option<string>)

  /** The effective limits. */
  function Limit(maxMessages: int): (limit: nat)
    ensures 1 <= limit <= 50 && (1 <= maxMessages <= 50 ==> limit == maxMessages)
    ensures maxMessages > 50 ==> limit == 50
  {
    Max(1, Min(50, maxMessages))
  }

  function MaxChars(maxChars: int): (maxC: nat)
    ensures maxC >= 500 && (maxChars >= 500 ==> maxC == maxChars) && (maxChars < 500 ==> maxC == 500)
  {
    Max(500, maxChars)
  }

  predicate IsFirstCustomerMessage(m: Message, session: seq<Message>) {
    exists i :: 0 <= i < |session| && session[i] == m && m.inbound && Text(m) != ""
                && forall j :: 0 <= j < i ==> !session[j].inbound || Text(session[j]) == ""
  }

  lemma SubsequenceGrows(a: seq<Message>, b: seq<Message>, m: Message)
    requires IsSubsequence(a, b)
    ensures IsSubsequence(a, b + [m])
    ensures IsSubsequence(a + [m], b + [m])
  {
    assert (b + [m])[..|b|] == b;
    assert (a + [m])[..|a|] == a;
  }

  /** What is left after the character budget, filled from the oldest end: a message that would
      overflow is dropped, the first one never is. */
  function Filled(raw: seq<Message>, maxC: nat): seq<Message> {
    if raw == [] then []
    else
      var before := Filled(raw[..|raw| - 1], maxC);
      if Text(Last(raw)) == "" || (before != [] && Costs(before) + Cost(Last(raw)) > maxC) then before
      else before + [Last(raw)]
  }

  lemma NextCosts(ms: seq<Message>, m: Message)
    ensures Costs(ms + [m]) == Costs(ms) + Cost(m)
  {
    assert (ms + [m])[..|ms|] == ms;
  }

  lemma NothingShown(raw: seq<Message>)
    ensures IsSubsequence([], raw) && Costs([]) == 0
  {
  }

  lemma {:induction false} FilledIsWithinBudget(raw: seq<Message>, maxC: nat)
    ensures IsSubsequence(Filled(raw, maxC), raw)
    ensures Costs(Filled(raw, maxC)) <= Max(maxC, 2016)
  {
    hide IsSubsequence, Costs;
    NothingShown(raw);
    if raw != [] {
      var before := raw[..|raw| - 1];
      FilledIsWithinBudget(before, maxC);
      SubsequenceGrows(Filled(before, maxC), before, Last(raw));
      NextCosts(Filled(before, maxC), Last(raw));
      assert before + [Last(raw)] == raw;
    }
  }

  lemma {:induction false} FilledKeepsText(raw: seq<Message>, maxC: nat)
    ensures var kept := Filled(raw, maxC);
            && |kept| <= |NonEmpty(raw)|
            && (|kept| == |NonEmpty(raw)| ==> kept == NonEmpty(raw))
            && (kept == [] ==> NonEmpty(raw) == [])
  {
    hide Text, Cost, Costs;
    if raw != [] {
      FilledKeepsText(raw[..|raw| - 1], maxC);
    }
  }

  /** The budget is filled up: a message dropped for its size does not even fit what is left when
      all messages have been through. */
  lemma {:induction false} DroppedMessagesDoNotFit(raw: seq<Message>, maxC: nat, i: nat)
    requires i < |raw| && Text(raw[i]) != ""
    ensures var before := Filled(raw[..i], maxC);
            && Filled(raw[..i + 1], maxC) == (if before == [] || Costs(before) + Cost(raw[i]) <= maxC
                                              then before + [raw[i]] else before)
            && (Filled(raw[..i + 1], maxC) == before ==> Costs(Filled(raw, maxC)) + Cost(raw[i]) > maxC)
    decreases |raw|
  {
    hide Text, Costs;
    assert raw[..i + 1][..i] == raw[..i];
    var shorter := raw[..|raw| - 1];
    if i < |shorter| {
      assert shorter[..i] == raw[..i] && shorter[..i + 1] == raw[..i + 1];
      DroppedMessagesDoNotFit(shorter, maxC, i);
      NextCosts(Filled(shorter, maxC), Last(raw));
    } else {
      assert raw[..i + 1] == raw;
    }
  }

  /** So it is the newer of two messages that goes when there is no room for both. */
  lemma OlderMessageIsPreferred(a: Message, b: Message, maxC: nat)
    requires Text(a) != "" && Text(b) != ""
    ensures Filled([a, b], maxC) == if Cost(a) + Cost(b) <= maxC then [a, b] else [a]
  {
    DroppedMessagesDoNotFit([a, b], maxC, 0);
    assert [a, b][..1] == [a];
  }

  lemma CostsOfNone(ms: seq<Message>)
    ensures ms == [] ==> Costs(ms) == 0 && NonEmpty(ms) == []
    ensures forall maxC: nat :: ms == [] ==> Filled(ms, maxC) == []
  {
  }

  lemma CostIsPositive(m: Message)
    ensures Cost(m) > 0
  {
  }

  /** Nothing is dropped for its size exactly when there is at most one text, or all fit together. */
  lemma {:induction false} AllFitExactly(raw: seq<Message>, maxC: nat)
    ensures var texts := NonEmpty(raw);
            Filled(raw, maxC) == texts <==> |texts| <= 1 || Costs(texts) <= maxC
  {
    hide Text, Filled, NonEmpty, Costs, Cost;
    CostsOfNone(raw);
    if raw != [] {
      var before, last := raw[..|raw| - 1], Last(raw);
      var texts := NonEmpty(before);
      AllFitExactly(before, maxC);
      FilledKeepsText(before, maxC);
      CostsOfNone(texts);
      NextCosts(texts, last);
      CostIsPositive(last);
      assert raw[..|before| + 1] == raw;
      NextFilled(raw, maxC, |before|);
    }
  }

  /** Does the next message overflow what is kept so far? */
  predicate Overflows(kept: seq<Message>, m: Message, maxC: nat) {
    Text(m) != "" && kept != [] && Costs(kept) + Cost(m) > maxC
  }

  predicate SomeDropped(raw: seq<Message>, maxC: nat) {
    Filled(raw, maxC) != NonEmpty(raw)
  }

  lemma NextFilled(raw: seq<Message>, maxC: nat, i: nat)
    requires i < |raw|
    ensures var before, texts := Filled(raw[..i], maxC), NonEmpty(raw[..i]);
            && Filled(raw[..i + 1], maxC) ==
               (if Text(raw[i]) == "" || Overflows(before, raw[i], maxC) then before else before + [raw[i]])
            && NonEmpty(raw[..i + 1]) == (if Text(raw[i]) == "" then texts else texts + [raw[i]])
    ensures SomeDropped(raw[..i + 1], maxC) <==>
              SomeDropped(raw[..i], maxC) || Overflows(Filled(raw[..i], maxC), raw[i], maxC)
  {
    hide Text, Cost, Costs;
    assert raw[..i + 1][..i] == raw[..i];
    FilledKeepsText(raw[..i], maxC);
    var before, texts := Filled(raw[..i], maxC), NonEmpty(raw[..i]);
    assert |before| < |texts + [raw[i]]|;
    assert (before + [raw[i]])[..|before|] == before && (texts + [raw[i]])[..|texts|] == texts;
  }

  lemma NothingFilled(raw: seq<Message>, maxC: nat)
    ensures Filled(raw[..0], maxC) == [] && !SomeDropped(raw[..0], maxC) && Costs([]) == 0
  {
  }

  method FillBudget(raw: seq<Message>, maxC: nat) returns (messages: seq<Message>, truncated: bool)
    ensures messages == Filled(raw, maxC)
    ensures truncated <==> SomeDropped(raw, maxC)
  {
    hide Costs, Text, Filled, NonEmpty, SomeDropped;
    messages := [];
    truncated := false;
    var chars := 0;
    NothingFilled(raw, maxC);
    for i := 0 to |raw|
      invariant messages == Filled(raw[..i], maxC)
      invariant chars == Costs(messages)
      invariant truncated <==> SomeDropped(raw[..i], maxC)
    {
      NextFilled(raw, maxC, i);
      NextCosts(messages, raw[i]);
      var text := Text(raw[i]);
      if text == "" {
        continue;
      }
      var add := |text| + 16;
      if messages != [] && chars + add > maxC {
        truncated := true;
        continue;
      }
      messages := messages + [raw[i]];
      chars := chars + add;
    }
    assert raw[..|raw|] == raw;
  }

  method FindFirstCustomerMessage(session: seq<Message>) returns (first: Option<Message>)
    ensures first.Some? ==> IsFirstCustomerMessage(first.value, session)
    ensures forall m :: IsFirstCustomerMessage(m, session) ==> first == Some(m)
  {
    var i := 0;
    while i < |session| && !(session[i].inbound && Text(session[i]) != "")
      invariant 0 <= i <= |session|
      invariant forall j :: 0 <= j < i ==> !session[j].inbound || Text(session[j]) == ""
    {
      i := i + 1;
    }
    first := if i < |session| then Some(session[i]) else None;
  }

  method CountTokens(ms: seq<Message>) returns (tokens: int)
    ensures tokens == Tokens(ms)
  {
    tokens := 0;
    for i := 0 to |ms|
      invariant tokens == Tokens(ms[..i])
    {
      assert ms[..i + 1][..i] == ms[..i];
      tokens := tokens + EstimateTokens(Text(ms[i]));
    }
    assert ms[..|ms|] == ms;
  }

  /** The messages shown of a session. */
  function Shown(session: seq<Message>, limit: nat, maxC: nat): seq<Message> {
    Newest(Filled(session, maxC), limit)
  }

  /** They are the last messages of the selection, as many as there are up to `limit`. */
  lemma ShownAreLast(session: seq<Message>, limit: nat, maxC: nat)
    ensures var kept, messages := Filled(session, maxC), Shown(session, limit, maxC);
            |messages| == Min(|kept|, limit) && messages == kept[|kept| - |messages|..]
  {
    hide Filled;
    NewestAreLast(Filled(session, maxC), limit);
  }

  /** They are messages of the session in its order, within the budget, and there are some unless the
      session has no text at all. */
  lemma ShownIsWithinLimits(session: seq<Message>, limit: nat, maxC: nat)
    requires limit > 0
    ensures var messages := Shown(session, limit, maxC);
            && IsSubsequence(messages, session)
            && |messages| <= limit
            && Costs(messages) <= Max(maxC, 2016)
            && (messages == [] <==> NonEmpty(session) == [])
            && |messages| <= |NonEmpty(session)|
  {
    hide Filled, IsSubsequence, Costs, NonEmpty;
    FilledIsWithinBudget(session, maxC);
    FilledKeepsText(session, maxC);
    ShownAreLast(session, limit, maxC);
    var kept := Filled(session, maxC);
    var n := |kept| - |Shown(session, limit, maxC)|;
    SuffixOfSubsequence(kept, session, n);
    SuffixCosts(kept, n);
    hide Shown;
    if NonEmpty(session) == [] {
      assert |kept| == 0;
    }
  }

  function Opening(m: Message): (opening: string)
    ensures opening <= Text(m) && |opening| == Min(|Text(m)|, 500)
  {
    if |Text(m)| <= 500 then Text(m) else Text(m)[..500]
  }

  /** Some text of the session is not shown exactly when there are more than `limit` of them, or at
      least two that do not fit the budget together. */
  lemma ShownIsAllExactly(session: seq<Message>, limit: nat, maxC: nat)
    requires limit > 0
    ensures var texts := NonEmpty(session);
            Shown(session, limit, maxC) != texts <==> |texts| > limit || (|texts| >= 2 && Costs(texts) > maxC)
  {
    AllFitExactly(session, maxC);
    FilledKeepsText(session, maxC);
  }

  /** `history` is the lead's visible conversation, oldest first. The opening customer message is
      given when it is due and not among the messages shown. */
  method LoadConversationContext(
    history: seq<Message>, summary: string, maxMessages: int, maxChars: int, gap: Option<int>)
    returns (c: Context)
    ensures var limit := Limit(maxMessages);
            var session := Session(Newest(history, 2 * limit), gap);
            var texts := NonEmpty(session);
            && c.messages == Shown(session, limit, MaxChars(maxChars))
            && (c.truncated <==> c.messages != texts)
            && (c.truncated <==> |texts| > limit || (|texts| >= 2 && Costs(texts) > MaxChars(maxChars)))
    ensures c.tokens == Tokens(c.messages)
                        + (if c.truncated && summary != "" then EstimateTokens(summary) else 0)
    ensures var limit := Limit(maxMessages);
            var due := c.truncated || |Session(Newest(history, 2 * limit), gap)| >= 2 * limit;
            var wide := Session(Newest(history, 500), gap);
            && (forall m :: IsFirstCustomerMessage(m, wide) ==>
                  c.firstCustomerMessage == if due && m.id !in Ids(c.messages) then Some(Opening(m)) else None)
            && (c.firstCustomerMessage.Some? ==> exists m :: IsFirstCustomerMessage(m, wide))
  {
    hide IsSubsequence, Costs, NonEmpty, Session, IsFirstCustomerMessage, Filled, Ids, Opening, Text;
    var limit := Limit(maxMessages);
    var raw := CurrentSession(Newest(history, 2 * limit), gap);
    var messages, truncated := FillBudget(raw, MaxChars(maxChars));
    FilledKeepsText(raw, MaxChars(maxChars));
    ShownIsAllExactly(raw, limit, MaxChars(maxChars));

    if |messages| > limit {
      truncated := true;
      messages := messages[|messages| - limit..];
    }

    if truncated && messages == [] {
      // The source would rebuild the list from the newest end here.
      assert false;
    }

    var firstCustomerMessage := None;
    if truncated || |raw| >= 2 * limit {
      var session := CurrentSession(Newest(history, 500), gap);
      var first := FindFirstCustomerMessage(session);
      if first.Some? && first.value.id !in Ids(messages) {
        firstCustomerMessage := Some(Opening(first.value));
      }
    }

    var tokens := CountTokens(messages);
    if summary != "" && truncated {
      tokens := tokens + EstimateTokens(summary);
    }
    c := Context(messages, truncated, tokens, firstCustomerMessage);
  }

  function Ids(ms: seq<Message>): set<string> {
    set i | 0 <= i < |ms| :: ms[i].id
  }

  lemma {:induction false} SuffixOfSubsequence(a: seq<Message>, b: seq<Message>, n: nat)
    requires IsSubsequence(a, b) && n <= |a|
    ensures IsSubsequence(a[n..], b)
    decreases |b|
  {
    if n < |a| {
      if IsSubsequence(a, b[..|b| - 1]) {
        SuffixOfSubsequence(a, b[..|b| - 1], n);
      } else {
        SuffixOfSubsequence(a[..|a| - 1], b[..|b| - 1], n);
        assert a[..|a| - 1][n..] == a[n..][..|a[n..]| - 1];
      }
    }
  }

  lemma {:induction false} SuffixCosts(ms: seq<Message>, n: nat)
    requires n <= |ms|
    ensures 0 <= Costs(ms[n..]) <= Costs(ms)
  {
    if n < |ms| {
      assert ms[n..][..|ms[n..]| - 1] == ms[..|ms| - 1][n..];
      SuffixCosts(ms[..|ms| - 1], n);
    } else {
      assert ms[n..] == [];
      if ms != [] {
        SuffixCosts(ms[..|ms| - 1], n - 1);
      }
    }
  }

  /** The wide read for the opening message sees the same conversation: it ends with the session
      whose messages are shown. */
  lemma WideSessionEndsWithShown(history: seq<Message>, limit: nat, gap: Option<int>)
    requires 1 <= limit <= 50 && history != []
    ensures var shown := Session(Newest(history, 2 * limit), gap);
            var wide := Session(Newest(history, 500), gap);
            && |shown| <= |wide|
            && wide[|wide| - |shown|..] == shown
  {
    var window, all := Newest(history, 2 * limit), Newest(history, 500);
    var older := all[..|all| - |window|];
    assert all == older + window;
    OlderMessagesOnlyExtend(older, window, gap);
    var wide := all[SessionStart(all, gap)..];
    assert wide[|older| + SessionStart(window, gap) - SessionStart(all, gap)..]
        == all[|older| + SessionStart(window, gap)..];
  }

  /** The estimate is never more than a quarter of what the messages were charged for, and covers
      their text. */
  lemma {:induction false} EstimateIsCharged(ms: seq<Message>)
    ensures 4 * Tokens(ms) <= Costs(ms)
    ensures Costs(ms) - 16 * |ms| <= 4 * Tokens(ms)
  {
    if ms != [] {
      EstimateIsCharged(ms[..|ms| - 1]);
    }
  }
}
