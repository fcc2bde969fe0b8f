/** The retrying provider call (app/services/ai_provider.py). The provider is an oracle that
    answers the n-th call; the calls made, the time slept and the usage records are returned. */
module AiProvider {
  import opened Common

  datatype Category =
    | Timeout
    | RateLimited
    | ProviderUnavailable
    | Authentication
    | ContentBlocked
    | QuotaExceeded
    | InvalidRequest
    | UnknownError
    | TruncatedResponse
    | EmptyResponse

  /** What one call came to; `cutOff` is a finish reason of "length". */
  datatype Reply = Raised(category: Category) | Response(text: string, cutOff: bool)

  datatype ChatMessage = ChatMessage(isSystem: bool, content: string)

  datatype Call = Call(model: string, messages: seq<ChatMessage>, maxTokens: int, reply: Reply)

  datatype UsageRecord = UsageRecord(model: string, ok: bool, category: Option<Category>)

  datatype AIResult = AIResult(
    success: bool,
    text: string,
    model: string,
    category: Option<Category>,
    usedFallback: bool)

  datatype Settings = Settings(
    hasApiKey: bool,
    refusal: Option<Category>,   // the tenant's quota check, when there is a tenant
    records: bool,               // usage is recorded and there is a tenant
    retries: int,
    base: real,
    maxOutputTokens: int)

  predicate ShouldRetry(c: Category) {
    c.Timeout? || c.RateLimited? || c.ProviderUnavailable?
  }

  predicate ShouldFallback(c: Category) {
    c.Timeout? || c.RateLimited? || c.ProviderUnavailable? || c.UnknownError?
  }

  // ---- Trimming the context ---------------------------------------------------------------------

  function Select(messages: seq<ChatMessage>, system: bool): (picked: seq<ChatMessage>)
    ensures |picked| <= |messages|
    ensures forall m :: m in picked ==> m.isSystem == system
  {
    if messages == [] then []
    else Select(messages[..|messages| - 1], system)
         + if Last(messages).isSystem == system then [Last(messages)] else []
  }

  function TruncateOlderContext(messages: seq<ChatMessage>): seq<ChatMessage> {
    var rest := Select(messages, false);
    if |rest| <= 2 then messages
    else
      var keep := Max(2, |rest| / 2);
      Select(messages, true) + rest[|rest| - keep..]
  }

  lemma {:induction false} SelectAppends(a: seq<ChatMessage>, b: seq<ChatMessage>, system: bool)
    ensures Select(a + b, system) == Select(a, system) + Select(b, system)
  {
    if b == [] {
      assert a + b == a;
    } else {
      assert (a + b)[..|a + b| - 1] == a + b[..|b| - 1];
      SelectAppends(a, b[..|b| - 1], system);
    }
  }

  lemma {:induction false} SelectUniform(messages: seq<ChatMessage>, system: bool)
    requires forall m :: m in messages ==> m.isSystem == system
    ensures Select(messages, system) == messages && Select(messages, !system) == []
  {
    if messages != [] {
      SelectUniform(messages[..|messages| - 1], system);
    }
  }

  lemma {:induction false} SelectPartitions(messages: seq<ChatMessage>)
    ensures |Select(messages, true)| + |Select(messages, false)| == |messages|
  {
    if messages != [] {
      SelectPartitions(messages[..|messages| - 1]);
    }
  }

  /** Trimming keeps every system message and, of the others, the newest: all of them up to two,
      else the newer half. */
  lemma TruncationKeepsSystemAndNewest(messages: seq<ChatMessage>)
    ensures var trimmed := TruncateOlderContext(messages);
            var rest, kept := Select(messages, false), Select(trimmed, false);
            && Select(trimmed, true) == Select(messages, true)
            && |kept| == (if |rest| <= 2 then |rest| else Max(2, |rest| / 2))
            && kept == rest[|rest| - |kept|..]
            && |trimmed| <= |messages|
  {
    hide Select;
    SelectPartitions(messages);
    var rest := Select(messages, false);
    if |rest| > 2 {
      SelectJoined(Select(messages, true), rest[|rest| - Max(2, |rest| / 2)..]);
    }
  }

  lemma SelectJoined(system: seq<ChatMessage>, others: seq<ChatMessage>)
    requires forall m :: m in system ==> m.isSystem
    requires forall m :: m in others ==> !m.isSystem
    ensures Select(system + others, true) == system
    ensures Select(system + others, false) == others
  {
    SelectAppends(system, others, true);
    SelectAppends(system, others, false);
    SelectUniform(system, true);
    SelectUniform(others, false);
  }

  // ---- What a sequence of calls means -----------------------------------------------------------

  /** The index of the first response, or |calls|. */
  function FirstResponse(calls: seq<Call>): (k: nat)
    ensures k <= |calls|
    ensures forall i :: 0 <= i < k ==> calls[i].reply.Raised?
    ensures k < |calls| ==> calls[k].reply.Response?
  {
    if calls == [] || calls[0].reply.Response? then 0 else 1 + FirstResponse(calls[1..])
  }

  predicate AllRetried(calls: seq<Call>, n: nat)
    requires n <= |calls|
  {
    forall i :: 0 <= i < n ==> calls[i].reply.Raised? && ShouldRetry(calls[i].reply.category)
  }

  /** A model was given up: every call raised, each but the last was retryable, and it stopped at
      the last retry or at an error that is not retried. */
  predicate GaveUp(calls: seq<Call>, retries: nat) {
    && 0 < |calls| <= retries + 1
    && AllRetried(calls, |calls| - 1)
    && Last(calls).reply.Raised?
    && (|calls| == retries + 1 || !ShouldRetry(Last(calls).reply.category))
  }

  /** A model answered: the first response ends the calls, or is followed by the one call with
      more room when it was cut off. */
  predicate Answered(calls: seq<Call>, retries: nat) {
    var k := FirstResponse(calls);
    && k < |calls|
    && k <= retries
    && AllRetried(calls, k)
    && |calls| == if calls[k].reply.cutOff then k + 2 else k + 1
  }

  /** What a first response, and the reply to the call with more room if it was cut off, come to. */
  function Conclusion(model: string, first: Reply, second: Reply, usedFallback: bool): AIResult
    requires first.Response?
  {
    if !first.cutOff then
      if first.text == "" then AIResult(false, "", model, Some(EmptyResponse), false)
      else AIResult(true, first.text, model, None, usedFallback)
    else if second.Raised? then AIResult(false, first.text, model, Some(TruncatedResponse), false)
    else if second.cutOff || second.text == "" then
      AIResult(false, if second.text == "" then first.text else second.text, model,
               Some(TruncatedResponse), false)
    else AIResult(true, second.text, model, None, usedFallback)
  }

  function RecordsOf(model: string, first: Reply, second: Reply): seq<UsageRecord>
    requires first.Response?
  {
    if !first.cutOff then
      [UsageRecord(model, first.text != "", if first.text == "" then Some(EmptyResponse) else None)]
    else
      [UsageRecord(model, true, None)]
      + if second.Raised? then []
        else if second.cutOff || second.text == "" then [UsageRecord(model, false, Some(TruncatedResponse))]
        else [UsageRecord(model, true, None)]
  }

  function Pow2(n: nat): nat {
    if n == 0 then 1 else 2 * Pow2(n - 1)
  }

  /** The sleeps before the first `k` retries. */
  function Backoff(base: real, k: nat): real {
    if k == 0 then 0.0 else Backoff(base, k - 1) + base * (Pow2(k - 1) as real)
  }

  /** The records of the calls to one model: those of its response, or one for the failure of the
      last model after its last retry. */
  function UsageOf(calls: seq<Call>, retries: nat, isLast: bool): seq<UsageRecord> {
    var k := FirstResponse(calls);
    if k < |calls| then RecordsOf(calls[k].model, calls[k].reply, Last(calls).reply)
    else if calls != [] && isLast && |calls| == retries + 1 then
      [UsageRecord(Last(calls).model, false, Some(Last(calls).reply.category))]
    else []
  }

  function Retried(calls: seq<Call>): nat {
    var k := FirstResponse(calls);
    if k < |calls| || calls == [] then k else k - 1
  }

  lemma {:induction false} RaisedIsNoResponse(calls: seq<Call>)
    requires forall i :: 0 <= i < |calls| ==> calls[i].reply.Raised?
    ensures FirstResponse(calls) == |calls|
  {
    if calls != [] {
      RaisedIsNoResponse(calls[1..]);
    }
  }

  lemma GivenUpHasNoResponse(calls: seq<Call>, retries: nat)
    requires GaveUp(calls, retries)
    ensures calls != [] && FirstResponse(calls) == |calls| && Retried(calls) == |calls| - 1
    ensures !Answered(calls, retries)
  {
    assert Last(calls) == calls[|calls| - 1];
    RaisedIsNoResponse(calls);
  }

  // ---- The calls ------------------------------------------------------------------------------

  /** The token budget of the call with more room. */
  function RetryTokens(maxTokens: int, maxOutputTokens: int): int {
    var hardCap := Max(1, if maxOutputTokens == 0 then maxTokens else maxOutputTokens) * 2;
    Max(maxTokens, Min(maxTokens * 2, hardCap))
  }

  /** The budget is doubled, up to twice the configured maximum, and never shrinks. */
  lemma BudgetIsDoubled(maxTokens: int, maxOutputTokens: int)
    requires maxTokens >= 1 && maxOutputTokens >= 0
    ensures var budget := RetryTokens(maxTokens, maxOutputTokens);
            && (budget == 2 * maxTokens <==> maxOutputTokens == 0 || maxTokens <= maxOutputTokens)
            && (budget == maxTokens <==> 0 < 2 * maxOutputTokens <= maxTokens)
            && (budget in {maxTokens, 2 * maxTokens, 2 * maxOutputTokens})
  {
  }

  /** Every call asks what the caller asked, except for the one with more room after a response that
      was cut off: it asks with the trimmed context and the larger budget. */
  predicate AsksOnly(calls: seq<Call>, messages: seq<ChatMessage>, maxTokens: int, maxOutputTokens: int) {
    forall i :: 0 <= i < |calls| ==> AsksAt(calls, i, messages, maxTokens, maxOutputTokens)
  }

  predicate AsksAt(calls: seq<Call>, i: nat, messages: seq<ChatMessage>, maxTokens: int, maxOutputTokens: int)
    requires i < |calls|
  {
    Asks(calls[i], i > 0 && calls[i - 1].reply.Response?, messages, maxTokens, maxOutputTokens)
  }

  predicate Asks(call: Call, moreRoom: bool, messages: seq<ChatMessage>, maxTokens: int, maxOutputTokens: int) {
    && call.messages == (if moreRoom then TruncateOlderContext(messages) else messages)
    && call.maxTokens == (if moreRoom then RetryTokens(maxTokens, maxOutputTokens) else maxTokens)
  }

  lemma AsksNext(calls: seq<Call>, c: Call, messages: seq<ChatMessage>, maxTokens: int, maxOutputTokens: int)
    requires AsksOnly(calls, messages, maxTokens, maxOutputTokens)
    requires Asks(c, calls != [] && Last(calls).reply.Response?, messages, maxTokens, maxOutputTokens)
    ensures AsksOnly(calls + [c], messages, maxTokens, maxOutputTokens)
  {
    hide TruncateOlderContext, RetryTokens;
    var more := calls + [c];
    forall i | 0 <= i < |more|
      ensures AsksAt(more, i, messages, maxTokens, maxOutputTokens)
    {
      assert i < |calls| ==> more[i] == calls[i] && AsksAt(calls, i, messages, maxTokens, maxOutputTokens);
      assert i > 0 ==> more[i - 1] == calls[i - 1];
    }
  }

  /** The handling of a cut-off response once the call with more room has come back. */
  method FinishCutOff(model: string, usedFallback: bool, records: bool, text: string, second: Reply)
    returns (answer: AIResult, written: seq<UsageRecord>)
    ensures answer == Conclusion(model, Response(text, true), second, usedFallback)
    ensures written == if records then RecordsOf(model, Response(text, true), second) else []
  {
    written := if records then [UsageRecord(model, true, None)] else [];
    match second
    case Raised(_) =>
      answer := AIResult(false, text, model, Some(TruncatedResponse), false);
    case Response(text2, cutOff2) =>
      if cutOff2 || text2 == "" {
        if records {
          written := written + [UsageRecord(model, false, Some(TruncatedResponse))];
        }
        answer := AIResult(false, if text2 == "" then text else text2, model, Some(TruncatedResponse), false);
      } else {
        if records {
          written := written + [UsageRecord(model, true, None)];
        }
        answer := AIResult(true, text2, model, None, usedFallback);
      }
  }

  /** The calls ask one model, and their replies are the oracle's from the `made`-th on. */
  predicate From(calls: seq<Call>, oracle: nat -> Reply, made: nat, model: string) {
    forall i :: 0 <= i < |calls| ==> calls[i].reply == oracle(made + i) && calls[i].model == model
  }

  /** The attempts at one model; `made` calls were made before. */
  method TryModel(
    model: string, isLast: bool, usedFallback: bool, messages: seq<ChatMessage>, maxTokens: int,
    retries: nat, settings: Settings, oracle: nat -> Reply, made: nat)
    returns (answer: Option<AIResult>, calls: seq<Call>, slept: real, records: seq<UsageRecord>)
    ensures From(calls, oracle, made, model)
    ensures AsksOnly(calls, messages, maxTokens, settings.maxOutputTokens)
    ensures slept == Backoff(settings.base, Retried(calls))
    ensures records == if settings.records then UsageOf(calls, retries, isLast) else []
    ensures answer.None? ==> GaveUp(calls, retries)
    ensures answer.Some? ==>
              && Answered(calls, retries)
              && (var k := FirstResponse(calls);
                  answer.value == Conclusion(model, calls[k].reply, Last(calls).reply, usedFallback))
  {
    NoCallsAsk(messages, maxTokens, settings.maxOutputTokens);
    hide TruncateOlderContext, RetryTokens, FirstResponse, AsksOnly;
    answer, calls, slept, records := None, [], 0.0, [];
    var attempt := 0;
    NoResponseYet();
    while true
      invariant 0 <= attempt <= retries && |calls| == attempt
      invariant AllRetried(calls, attempt) && FirstResponse(calls) == attempt
      invariant AsksOnly(calls, messages, maxTokens, settings.maxOutputTokens)
      invariant From(calls, oracle, made, model)
      invariant slept == Backoff(settings.base, attempt) && records == []
      decreases retries - attempt
    {
      var reply := oracle(made + attempt);
      ResponseAfter(calls, Call(model, messages, maxTokens, reply));
      AsksNext(calls, Call(model, messages, maxTokens, reply), messages, maxTokens, settings.maxOutputTokens);
      calls := calls + [Call(model, messages, maxTokens, reply)];
      if reply.Raised? {
        if settings.records && attempt == retries && isLast {
          records := [UsageRecord(model, false, Some(reply.category))];
        }
        if !ShouldRetry(reply.category) || attempt >= retries {
          GivenUpHasNoResponse(calls, retries);
          return;
        }
        slept := slept + settings.base * (Pow2(attempt) as real);
        attempt := attempt + 1;
        continue;
      }
      if reply.cutOff {
        var roomy := Call(model, TruncateOlderContext(messages),
                          RetryTokens(maxTokens, settings.maxOutputTokens), oracle(made + attempt + 1));
        ResponseStays(calls, roomy);
        AsksNext(calls, roomy, messages, maxTokens, settings.maxOutputTokens);
        calls := calls + [roomy];
        var finished;
        finished, records := FinishCutOff(model, usedFallback, settings.records, reply.text, roomy.reply);
        answer := Some(finished);
        return;
      }
      if reply.text == "" {
        if settings.records {
          records := [UsageRecord(model, false, Some(EmptyResponse))];
        }
        answer := Some(AIResult(false, "", model, Some(EmptyResponse), false));
        return;
      }
      if settings.records {
        records := [UsageRecord(model, true, None)];
      }
      answer := Some(AIResult(true, reply.text, model, None, usedFallback));
      return;
    }
  }

  lemma NoCallsFrom(oracle: nat -> Reply, made: nat, model: string)
    ensures From([], oracle, made, model)
  {
  }

  lemma NoCallsAsk(messages: seq<ChatMessage>, maxTokens: int, maxOutputTokens: int)
    ensures AsksOnly([], messages, maxTokens, maxOutputTokens)
  {
  }

  lemma NoResponseYet()
    ensures FirstResponse([]) == 0
  {
  }

  lemma {:induction false} ResponseAfter(calls: seq<Call>, c: Call)
    requires FirstResponse(calls) == |calls|
    ensures FirstResponse(calls + [c]) == if c.reply.Response? then |calls| else |calls| + 1
  {
    if calls != [] {
      assert (calls + [c])[1..] == calls[1..] + [c];
      ResponseAfter(calls[1..], c);
    }
  }

  lemma {:induction false} ResponseStays(calls: seq<Call>, c: Call)
    requires FirstResponse(calls) < |calls|
    ensures FirstResponse(calls + [c]) == FirstResponse(calls)
  {
    if !calls[0].reply.Response? {
      assert (calls + [c])[1..] == calls[1..] + [c];
      ResponseStays(calls[1..], c);
    }
  }

  // ---- The whole completion -----------------------------------------------------------------------

  /** Everything a completion did; the first `primary` calls went to the first model. */
  datatype Completion = Completion(
    result: AIResult,
    calls: seq<Call>,
    primary: nat,
    slept: real,
    records: seq<UsageRecord>)

  predicate HasFallback(model: string, fallback: string) {
    fallback != "" && fallback != model
  }

  /** The outcome of the calls to one model, when no other follows. */
  predicate Ends(calls: seq<Call>, retries: nat, usedFallback: bool, lastModel: string, result: AIResult) {
    if Answered(calls, retries) then
      var k := FirstResponse(calls);
      result == Conclusion(calls[k].model, calls[k].reply, Last(calls).reply, usedFallback)
    else
      && GaveUp(calls, retries)
      && result == AIResult(false, "", lastModel, Some(Last(calls).reply.category), false)
  }

  /** The second model is asked exactly when there is one and the first was given up at an error
      that allows the fallback; the result is that of the last model asked. */
  predicate Follows(c: Completion, model: string, fallback: string, retries: nat) {
    && c.primary <= |c.calls|
    && var first, second := c.calls[..c.primary], c.calls[c.primary..];
       && (Answered(first, retries) || GaveUp(first, retries))
       && (second != [] <==>
             HasFallback(model, fallback) && GaveUp(first, retries) && ShouldFallback(Last(first).reply.category))
       && if second != [] then Ends(second, retries, true, fallback, c.result)
          else Ends(first, retries, false, if HasFallback(model, fallback) then fallback else model, c.result)
  }

  /** What the calls cost: the sleeps between retries and the usage records. */
  predicate Accounts(c: Completion, model: string, fallback: string, retries: nat, settings: Settings) {
    && c.primary <= |c.calls|
    && var first, second := c.calls[..c.primary], c.calls[c.primary..];
       && c.slept == Backoff(settings.base, Retried(first)) + Backoff(settings.base, Retried(second))
       && c.records ==
          if settings.records
          then UsageOf(first, retries, !HasFallback(model, fallback)) + UsageOf(second, retries, true)
          else []
  }

  lemma StopsAfterFirst(c: Completion, model: string, fallback: string, retries: nat, settings: Settings)
    requires c.primary == |c.calls|
    requires Answered(c.calls, retries)
             || (GaveUp(c.calls, retries)
                 && !(HasFallback(model, fallback) && ShouldFallback(Last(c.calls).reply.category)))
    requires Ends(c.calls, retries, false, if HasFallback(model, fallback) then fallback else model, c.result)
    requires c.slept == Backoff(settings.base, Retried(c.calls))
    requires c.records == if settings.records then UsageOf(c.calls, retries, !HasFallback(model, fallback)) else []
    ensures Follows(c, model, fallback, retries) && Accounts(c, model, fallback, retries, settings)
  {
    assert c.calls[..c.primary] == c.calls && c.calls[c.primary..] == [];
    if GaveUp(c.calls, retries) {
      GivenUpHasNoResponse(c.calls, retries);
    }
  }

  lemma GoesOnToSecond(
    c: Completion, first: seq<Call>, second: seq<Call>, model: string, fallback: string, retries: nat, settings: Settings)
    requires c.calls == first + second && c.primary == |first| && second != []
    requires GaveUp(first, retries) && HasFallback(model, fallback) && ShouldFallback(Last(first).reply.category)
    requires Ends(second, retries, true, fallback, c.result)
    requires c.slept == Backoff(settings.base, Retried(first)) + Backoff(settings.base, Retried(second))
    requires c.records == if settings.records then UsageOf(first, retries, false) + UsageOf(second, retries, true) else []
    ensures Follows(c, model, fallback, retries) && Accounts(c, model, fallback, retries, settings)
  {
    hide Ends, UsageOf, Retried, Backoff;
    assert c.calls[..c.primary] == first && c.calls[c.primary..] == second;
  }

  lemma AsksOnlyJoined(
    first: seq<Call>, second: seq<Call>, retries: nat, messages: seq<ChatMessage>, maxTokens: int, maxOutputTokens: int)
    requires AsksOnly(first, messages, maxTokens, maxOutputTokens) && GaveUp(first, retries)
    requires AsksOnly(second, messages, maxTokens, maxOutputTokens)
    ensures AsksOnly(first + second, messages, maxTokens, maxOutputTokens)
  {
    hide TruncateOlderContext, RetryTokens;
    GaveUpRaised(first, retries);
    var calls := first + second;
    forall i | 0 <= i < |calls|
      ensures AsksAt(calls, i, messages, maxTokens, maxOutputTokens)
    {
      if i < |first| {
        assert AsksAt(first, i, messages, maxTokens, maxOutputTokens);
        assert calls[i] == first[i] && (i > 0 ==> calls[i - 1] == first[i - 1]);
      } else {
        var j := i - |first|;
        assert calls[i] == second[j];
        assert i > 0 ==> calls[i - 1] == if j > 0 then second[j - 1] else first[i - 1];
        assert AsksAt(second, j, messages, maxTokens, maxOutputTokens);
      }
    }
  }

  lemma Rejoined(first: seq<Call>, second: seq<Call>)
    ensures (first + second)[..|first|] == first && (first + second)[|first|..] == second
    ensures first + [] == first
  {
  }

  method ChatCompletion(
    messages: seq<ChatMessage>, model: string, fallback: string, maxTokens: int,
    settings: Settings, oracle: nat -> Reply)
    returns (c: Completion)
    ensures !settings.hasApiKey || settings.refusal.Some? ==>
              c.calls == [] && c.records == [] && c.slept == 0.0 && !c.result.success
              && c.result.category == (if settings.hasApiKey then settings.refusal else Some(Authentication))
    ensures settings.hasApiKey && settings.refusal.None? ==>
              && Follows(c, model, fallback, Max(0, settings.retries))
              && Accounts(c, model, fallback, Max(0, settings.retries), settings)
              && From(c.calls[..c.primary], oracle, 0, model)
              && From(c.calls[c.primary..], oracle, c.primary, fallback)
              && AsksOnly(c.calls, messages, maxTokens, settings.maxOutputTokens)
  {
    if !settings.hasApiKey {
      return Completion(AIResult(false, "", model, Some(Authentication), false), [], 0, 0.0, []);
    }
    if settings.refusal.Some? {
      return Completion(AIResult(false, "", model, settings.refusal, false), [], 0, 0.0, []);
    }
    var retries := Max(0, settings.retries);
    var models := if HasFallback(model, fallback) then [model, fallback] else [model];
    hide Conclusion, UsageOf, Retried, Backoff, TruncateOlderContext, RetryTokens, FirstResponse, AsksOnly, Follows, Accounts, From,
         Answered, GaveUp, ShouldFallback, HasFallback;

    var answer, calls, slept, records :=
      TryModel(model, |models| == 1, false, messages, maxTokens, retries, settings, oracle, 0);
    var primary := |calls|;
    Rejoined(calls, []);
    NoCallsFrom(oracle, primary, fallback);
    if answer.Some? {
      c := Completion(answer.value, calls, primary, slept, records);
      StopsAfterFirst(c, model, fallback, retries, settings);
      return;
    }
    GivenUpHasNoResponse(calls, retries);
    var lastCategory := Last(calls).reply.category;
    if |models| == 1 || !ShouldFallback(lastCategory) {
      c := Completion(AIResult(false, "", Last(models), Some(lastCategory), false), calls, primary, slept, records);
      StopsAfterFirst(c, model, fallback, retries, settings);
      return;
    }
    var answer2, calls2, slept2, records2 :=
      TryModel(fallback, true, true, messages, maxTokens, retries, settings, oracle, primary);
    if answer2.None? {
      GivenUpHasNoResponse(calls2, retries);
      answer2 := Some(AIResult(false, "", fallback, Some(Last(calls2).reply.category), false));
    }
    c := Completion(answer2.value, calls + calls2, primary, slept + slept2, records + records2);
    Rejoined(calls, calls2);
    AsksOnlyJoined(calls, calls2, retries, messages, maxTokens, settings.maxOutputTokens);
    GoesOnToSecond(c, calls, calls2, model, fallback, retries, settings);
  }

  // ---- Bounds and bookkeeping -----------------------------------------------------------------------

  lemma {:induction false} BackoffIsGeometric(base: real, k: nat)
    ensures Backoff(base, k) == base * ((Pow2(k) - 1) as real)
  {
    if k > 0 {
      BackoffIsGeometric(base, k - 1);
    }
  }

  lemma {:induction false} Pow2Grows(a: nat, b: nat)
    requires a <= b
    ensures 1 <= Pow2(a) <= Pow2(b)
    decreases b
  {
    if a < b {
      Pow2Grows(a, b - 1);
    } else if a > 0 {
      Pow2Grows(a - 1, b - 1);
    }
  }

  lemma BackoffIsBounded(base: real, k: nat, retries: nat)
    requires base >= 0.0 && k <= retries
    ensures 0.0 <= Backoff(base, k) <= base * ((Pow2(retries) - 1) as real)
  {
    BackoffIsGeometric(base, k);
    Pow2Grows(0, k);
    Pow2Grows(k, retries);
  }

  /** The most one model can sleep: base * (2^retries - 1). */
  function MostSleep(base: real, retries: nat): real {
    base * ((Pow2(retries) - 1) as real)
  }

  /** Calls and sleep are bounded by the number of models and retries: per model the retries plus
      one, and one call more when a response was cut off. */
  lemma CompletionIsBounded(c: Completion, model: string, fallback: string, retries: nat, settings: Settings)
    requires Follows(c, model, fallback, retries) && Accounts(c, model, fallback, retries, settings)
    requires settings.base >= 0.0
    ensures 1 <= |c.calls| <= (if HasFallback(model, fallback) then 2 * (retries + 1) else retries + 1) + 1
    ensures var most := MostSleep(settings.base, retries);
            0.0 <= c.slept <= if HasFallback(model, fallback) then most + most else most
  {
    hide MostSleep, Answered, UsageOf, Ends;
    var first, second := c.calls[..c.primary], c.calls[c.primary..];
    ModelIsBounded(first, retries, settings.base);
    if second == [] {
      assert Retried(second) == 0;
    } else {
      assert Answered(second, retries) || GaveUp(second, retries) by {
        SecondEnds(c, model, fallback, retries);
      }
      ModelIsBounded(second, retries, settings.base);
    }
  }

  lemma SecondEnds(c: Completion, model: string, fallback: string, retries: nat)
    requires Follows(c, model, fallback, retries) && c.primary < |c.calls|
    ensures Answered(c.calls[c.primary..], retries) || GaveUp(c.calls[c.primary..], retries)
  {
  }

  lemma ModelIsBounded(calls: seq<Call>, retries: nat, base: real)
    requires (Answered(calls, retries) || GaveUp(calls, retries)) && base >= 0.0
    ensures 1 <= |calls| <= retries + 2 && (GaveUp(calls, retries) ==> |calls| <= retries + 1)
    ensures 0.0 <= Backoff(base, Retried(calls)) <= MostSleep(base, retries)
  {
    if GaveUp(calls, retries) {
      GivenUpHasNoResponse(calls, retries);
    }
    BackoffIsBounded(base, Retried(calls), retries);
  }

  // ---- What a completion answers, call by call ------------------------------------------------------

  /** Is the last call one with more room, made because the response before it was cut off? */
  predicate HasMoreRoom(calls: seq<Call>) {
    |calls| >= 2 && calls[|calls| - 2].reply.Response?
  }

  predicate IsComplete(reply: Reply) {
    reply.Response? && reply.text != "" && !reply.cutOff
  }

  predicate IsCutOff(reply: Reply) {
    reply.Response? && reply.cutOff
  }

  /** The answer the last call stands for. */
  predicate AnswersWith(calls: seq<Call>, usedFallback: bool, lastModel: string, result: AIResult)
    requires calls != []
  {
    var last := Last(calls);
    if IsComplete(last.reply) then
      result == AIResult(true, last.reply.text, last.model, None, usedFallback)
    else if HasMoreRoom(calls) then
      var kept := if last.reply.Response? && last.reply.text != "" then last.reply.text
                  else calls[|calls| - 2].reply.text;
      result == AIResult(false, kept, last.model, Some(TruncatedResponse), false)
    else if last.reply.Response? then
      result == AIResult(false, "", last.model, Some(EmptyResponse), false)
    else
      result == AIResult(false, "", lastModel, Some(last.reply.category), false)
  }

  /** Only the last two calls can be responses, and the earlier of them only when it was cut off. */
  predicate StopsAtResponse(calls: seq<Call>) {
    && (forall i :: 0 <= i < |calls| - 2 ==> calls[i].reply.Raised?)
    && (HasMoreRoom(calls) ==> calls[|calls| - 2].reply.cutOff)
    && (calls != [] && Last(calls).reply.Response? && Last(calls).reply.cutOff ==> HasMoreRoom(calls))
  }

  lemma ModelAnswersWith(
    calls: seq<Call>, retries: nat, usedFallback: bool, lastModel: string, result: AIResult,
    oracle: nat -> Reply, made: nat, model: string)
    requires Ends(calls, retries, usedFallback, lastModel, result) && From(calls, oracle, made, model)
    ensures calls != [] && StopsAtResponse(calls) && AnswersWith(calls, usedFallback, lastModel, result)
    ensures Last(calls).model == model
  {
    if Answered(calls, retries) {
      var k := FirstResponse(calls);
      assert calls[k].model == model && calls[|calls| - 1].model == model;
      assert k > 0 ==> calls[k - 1].reply.Raised?;
      hide FirstResponse;
    } else {
      hide FirstResponse;
      assert forall i :: 0 <= i < |calls| - 1 ==> calls[i].reply.Raised?;
    }
  }

  /** A completion succeeds exactly when its last reply is a complete, non-empty response, and then
      with that text, that model and no category. After a cut-off response a failure keeps the later
      text, or the cut-off one if there is none; an empty response and an error say what they were. */
  lemma CompletionAnswersWith(
    c: Completion, model: string, fallback: string, retries: nat, oracle: nat -> Reply)
    requires Follows(c, model, fallback, retries)
    requires From(c.calls[..c.primary], oracle, 0, model)
    requires From(c.calls[c.primary..], oracle, c.primary, fallback)
    ensures c.calls != [] && StopsAtResponse(c.calls)
    ensures AnswersWith(c.calls, c.primary < |c.calls|, if HasFallback(model, fallback) then fallback else model, c.result)
    ensures c.result.success <==> IsComplete(Last(c.calls).reply)
    ensures c.result.usedFallback <==> c.result.success && c.primary < |c.calls|
    ensures c.result.success ==> c.result.model == if c.primary < |c.calls| then fallback else model
  {
    var first, second := c.calls[..c.primary], c.calls[c.primary..];
    var lastModel := if HasFallback(model, fallback) then fallback else model;
    hide AnswersWith, StopsAtResponse, Ends, From, Answered, GaveUp;
    if second != [] {
      ModelAnswersWith(second, retries, true, fallback, c.result, oracle, c.primary, fallback);
      GaveUpRaised(first, retries);
      AnswersAfterRaised(first, second, true, fallback, c.result);
      assert c.calls == first + second;
    } else {
      assert first == c.calls;
      ModelAnswersWith(first, retries, false, lastModel, c.result, oracle, 0, model);
    }
    AnswerIsSuccess(c.calls, c.primary < |c.calls|, lastModel, c.result);
  }

  lemma AnswersAfterRaised(
    first: seq<Call>, second: seq<Call>, usedFallback: bool, lastModel: string, result: AIResult)
    requires second != [] && forall i :: 0 <= i < |first| ==> first[i].reply.Raised?
    requires StopsAtResponse(second) && AnswersWith(second, usedFallback, lastModel, result)
    ensures StopsAtResponse(first + second) && AnswersWith(first + second, usedFallback, lastModel, result)
    ensures Last(first + second) == Last(second) && (HasMoreRoom(first + second) <==> HasMoreRoom(second))
  {
    var calls := first + second;
    assert Last(calls) == Last(second);
    assert |calls| >= 2 ==>
        calls[|calls| - 2] == if |second| >= 2 then second[|second| - 2] else first[|first| - 1];
    forall i | 0 <= i < |calls| - 2
      ensures calls[i].reply.Raised?
    {
      assert calls[i] == if i < |first| then first[i] else second[i - |first|];
    }
  }

  lemma AnswerIsSuccess(calls: seq<Call>, usedFallback: bool, lastModel: string, result: AIResult)
    requires calls != [] && AnswersWith(calls, usedFallback, lastModel, result)
    ensures result.success <==> IsComplete(Last(calls).reply)
    ensures result.usedFallback <==> result.success && usedFallback
    ensures result.success ==> result.model == Last(calls).model
  {
  }

  /** So the call with more room was made exactly when some response was cut off. */
  lemma MoreRoomExactly(calls: seq<Call>)
    requires StopsAtResponse(calls)
    ensures HasMoreRoom(calls) <==> exists i :: 0 <= i < |calls| && IsCutOff(calls[i].reply)
  {
    if HasMoreRoom(calls) {
      assert IsCutOff(calls[|calls| - 2].reply);
    }
  }

  lemma GaveUpRaised(calls: seq<Call>, retries: nat)
    requires GaveUp(calls, retries)
    ensures forall i :: 0 <= i < |calls| ==> calls[i].reply.Raised?
  {
  }

  function Responses(calls: seq<Call>): nat {
    if calls == [] then 0 else Responses(calls[..|calls| - 1]) + if Last(calls).reply.Response? then 1 else 0
  }

  lemma {:induction false} ResponsesAppend(a: seq<Call>, b: seq<Call>)
    ensures Responses(a + b) == Responses(a) + Responses(b)
  {
    if b == [] {
      assert a + b == a;
    } else {
      assert (a + b)[..|a + b| - 1] == a + b[..|b| - 1];
      ResponsesAppend(a, b[..|b| - 1]);
    }
  }

  lemma {:induction false} RaisedCountNothing(calls: seq<Call>)
    requires forall i :: 0 <= i < |calls| ==> calls[i].reply.Raised?
    ensures Responses(calls) == 0
  {
    if calls != [] {
      RaisedCountNothing(calls[..|calls| - 1]);
    }
  }

  lemma OneRecordPerResponse(calls: seq<Call>, retries: nat, isLast: bool)
    requires Answered(calls, retries) || GaveUp(calls, retries)
    ensures |UsageOf(calls, retries, isLast)| ==
            Responses(calls) + if GaveUp(calls, retries) && isLast && |calls| == retries + 1 then 1 else 0
  {
    if GaveUp(calls, retries) {
      GivenUpHasNoResponse(calls, retries);
      assert Last(calls) == calls[|calls| - 1];
      RaisedCountNothing(calls);
    } else {
      var k := FirstResponse(calls);
      RaisedCountNothing(calls[..k]);
      assert calls[..k + 1][..k] == calls[..k];
      if calls[k].reply.cutOff {
        assert calls[..|calls| - 1] == calls[..k + 1];
      } else {
        assert calls[..k + 1] == calls;
      }
    }
  }

  lemma RecordsMatchResponses(c: Completion, model: string, fallback: string, retries: nat, settings: Settings)
    requires Follows(c, model, fallback, retries) && Accounts(c, model, fallback, retries, settings)
    requires settings.records
    ensures var last := if c.primary < |c.calls| then c.calls[c.primary..] else c.calls;
            var asked := c.primary < |c.calls| || !HasFallback(model, fallback);
            |c.records| == Responses(c.calls)
                           + if GaveUp(last, retries) && asked && |last| == retries + 1 then 1 else 0
  {
    var first, second := c.calls[..c.primary], c.calls[c.primary..];
    assert first + second == c.calls;
    ResponsesAppend(first, second);
    OneRecordPerResponse(first, retries, !HasFallback(model, fallback));
    if second == [] {
      assert first == c.calls;
    } else {
      OneRecordPerResponse(second, retries, true);
    }
  }

  /** What is recorded, in order: a good record for a response that was cut off, one for the last
      response, and, without any response, one for an error if that is to be recorded. */
  function Ledger(calls: seq<Call>, recordsError: bool): seq<UsageRecord>
    requires calls != []
  {
    var last := Last(calls);
    (if HasMoreRoom(calls) then [UsageRecord(last.model, true, None)] else [])
    + (if IsComplete(last.reply) then [UsageRecord(last.model, true, None)]
       else if last.reply.Response? then
         [UsageRecord(last.model, false, Some(if HasMoreRoom(calls) then TruncatedResponse else EmptyResponse))]
       else if !HasMoreRoom(calls) && recordsError then [UsageRecord(last.model, false, Some(last.reply.category))]
       else [])
  }

  /** The records are that ledger, the error being recorded only when it ended the last model at its
      last retry. */
  lemma RecordsAreLedger(
    c: Completion, model: string, fallback: string, retries: nat, settings: Settings, oracle: nat -> Reply)
    requires Follows(c, model, fallback, retries) && Accounts(c, model, fallback, retries, settings)
    requires From(c.calls[..c.primary], oracle, 0, model)
    requires From(c.calls[c.primary..], oracle, c.primary, fallback)
    ensures c.calls != []
    ensures var made := if c.primary < |c.calls| then |c.calls| - c.primary else |c.calls|;
            var atLastModel := c.primary < |c.calls| || !HasFallback(model, fallback);
            c.records == if settings.records then Ledger(c.calls, atLastModel && made == retries + 1) else []
  {
    hide UsageOf, Retried, Backoff, From, Answered, GaveUp, Ledger, Ends;
    var first, second := c.calls[..c.primary], c.calls[c.primary..];
    ModelRecords(first, retries, !HasFallback(model, fallback), oracle, 0, model);
    if second != [] {
      assert c.calls == first + second;
      GaveUpRaised(first, retries);
      SecondEnds(c, model, fallback, retries);
      ModelRecords(second, retries, true, oracle, c.primary, fallback);
      LedgerAfterRaised(first, second, |second| == retries + 1);
    } else {
      assert first == c.calls;
      NoUsage(retries);
    }
  }

  lemma LedgerAfterRaised(first: seq<Call>, second: seq<Call>, recordsError: bool)
    requires second != [] && first != [] && forall i :: 0 <= i < |first| ==> first[i].reply.Raised?
    ensures Ledger(first + second, recordsError) == Ledger(second, recordsError)
    ensures Ledger(first, false) == []
  {
    var calls := first + second;
    assert Last(calls) == Last(second);
    assert calls[|calls| - 2] == if |second| >= 2 then second[|second| - 2] else first[|first| - 1];
  }

  lemma NoUsage(retries: nat)
    ensures UsageOf([], retries, true) == []
  {
  }

  lemma ModelRecords(
    calls: seq<Call>, retries: nat, isLast: bool, oracle: nat -> Reply, made: nat, model: string)
    requires (Answered(calls, retries) || GaveUp(calls, retries)) && From(calls, oracle, made, model)
    ensures calls != []
    ensures UsageOf(calls, retries, isLast) == Ledger(calls, isLast && |calls| == retries + 1)
  {
    assert calls != [] && calls[|calls| - 1].model == model;
    if Answered(calls, retries) {
      var k := FirstResponse(calls);
      assert calls[k].model == model;
      assert k > 0 ==> calls[k - 1].reply.Raised?;
    } else {
      GivenUpHasNoResponse(calls, retries);
      GaveUpRaised(calls, retries);
    }
    hide FirstResponse;
  }

  /** The last record, when there was a response, says what the completion says. */
  lemma LastRecordIsResult(calls: seq<Call>, recordsError: bool, usedFallback: bool, lastModel: string, result: AIResult)
    requires calls != [] && AnswersWith(calls, usedFallback, lastModel, result) && Last(calls).reply.Response?
    ensures Ledger(calls, recordsError) != []
    ensures Last(Ledger(calls, recordsError)) == UsageRecord(result.model, result.success, result.category)
  {
  }

  predicate IsPassing(c: Category) {
    c in {Timeout, RateLimited, ProviderUnavailable}
  }

  /** When the completion goes on, in terms of the replies alone. A model is asked again exactly after
      a timeout, a rate limit or an unavailable provider, up to its retries; the second model exactly
      when the first one's last call failed that way or for an unknown reason. */
  lemma GoesOnExactly(c: Completion, model: string, fallback: string, retries: nat)
    requires Follows(c, model, fallback, retries)
    ensures 0 < c.primary <= |c.calls|
    ensures forall i :: 0 <= i < |c.calls| - 1 && i != c.primary - 1 ==>
              if c.calls[i].reply.Raised? then IsPassing(c.calls[i].reply.category) else c.calls[i].reply.cutOff
    ensures var failed := c.calls[c.primary - 1].reply;
            c.primary < |c.calls| <==>
              && HasFallback(model, fallback) && !HasMoreRoom(c.calls[..c.primary])
              && failed.Raised? && (IsPassing(failed.category) || failed.category.UnknownError?)
    ensures GivesUpOnlyWhen(c.calls[..c.primary], retries) && GivesUpOnlyWhen(c.calls[c.primary..], retries)
  {
    hide Ends, FirstResponse;
    var first, second := c.calls[..c.primary], c.calls[c.primary..];
    ModelGoesOn(first, retries);
    if second != [] {
      assert c.calls == first + second;
      SecondEnds(c, model, fallback, retries);
      ModelGoesOn(second, retries);
      GaveUpRaised(first, retries);
    } else {
      assert first == c.calls;
    }
    hide Answered, GaveUp;
  }

  predicate GivesUpOnlyWhen(calls: seq<Call>, retries: nat) {
    calls != [] && Last(calls).reply.Raised? && !HasMoreRoom(calls) ==>
      |calls| == retries + 1 || !IsPassing(Last(calls).reply.category)
  }

  lemma ModelGoesOn(calls: seq<Call>, retries: nat)
    requires Answered(calls, retries) || GaveUp(calls, retries)
    ensures calls != [] && GivesUpOnlyWhen(calls, retries)
    ensures forall i :: 0 <= i < |calls| - 1 ==>
              if calls[i].reply.Raised? then IsPassing(calls[i].reply.category) else calls[i].reply.cutOff
    ensures GaveUp(calls, retries) <==> Last(calls).reply.Raised? && !HasMoreRoom(calls)
  {
    if Answered(calls, retries) {
      var k := FirstResponse(calls);
      assert k > 0 ==> calls[k - 1].reply.Raised?;
    }
    hide FirstResponse;
  }
}
