/** The statement-analysis service: a result cache in front of the rate
    limiter, the retried model call and the cost ledger, and the batch loop
    that runs many statements through it. The HTTP call is an environment
    function from the request and the attempt number to the response; the
    clock is passed in and threaded through. */
module Analysis {
  import opened Common
  import CostTracking
  import RateLimiting
  import Retry

  /** The model every request names, whichever model is asked for. */
  const RequestModel := "claude-3-5-sonnet-20241022"
  const MaxTokens: nat := 4000

  /** The configured model when the environment names none. */
  const DefaultModel := "haiku"

  /** Pause between two batches, in milliseconds. */
  const BatchPauseMs: int := 2000

  /** The default instruction sent with a statement image. */
  const DefaultPrompt: string :=
    "Extract " + "debit transactions from this bank statement. Return JSON:\n{\n  \"transactions\": [\n    {\n      \"date\": \"DD-MM-YYYY\",\n      \"amount\": number,\n      \"payee\": \"string\"\n    }\n  ]\n}\n\nRules:\n- Only debits (outgoing money)\n- Date format: DD-MM-YYYY  \n- Amount as number only\n- Include payee name\n- Valid JSON only"

  /** The characters `String.prototype.trim` removes. */
  predicate IsJsWhitespace(c: char) {
    c == ' ' || c == '\t' || c == '\n' || c == '\U{B}' || c == '\U{C}' || c == '\r'
    || c == '\U{A0}' || c == '\U{1680}' || ('\U{2000}' <= c <= '\U{200A}')
    || c == '\U{2028}' || c == '\U{2029}' || c == '\U{202F}' || c == '\U{205F}'
    || c == '\U{3000}' || c == '\U{FEFF}'
  }

  /** `s.trim()` is the empty string. */
  predicate Blank(s: string) {
    forall i :: 0 <= i < |s| ==> IsJsWhitespace(s[i])
  }

  /** The prompt chosen for `custom` when the fallback prompt is `fallback`. */
  function PromptOr(custom: Option<string>, fallback: string): string {
    if custom.Some? && !Blank(custom.value) then custom.value else fallback
  }

  /** `getOptimizedPrompt(customPrompt)` */
  function OptimizedPrompt(custom: Option<string>): string {
    PromptOr(custom, DefaultPrompt)
  }

  /** The prompt sent is never blank; a custom prompt with any visible
      character is sent verbatim, any other gives the default; and asking
      again with the prompt obtained changes nothing. */
  lemma OptimizedPromptProperties(custom: Option<string>)
    ensures !Blank(OptimizedPrompt(custom))
    ensures custom.Some? && !Blank(custom.value) ==> OptimizedPrompt(custom) == custom.value
    ensures custom.None? || Blank(custom.value) ==> OptimizedPrompt(custom) == DefaultPrompt
    ensures OptimizedPrompt(Some(OptimizedPrompt(custom))) == OptimizedPrompt(custom)
  {
    assert DefaultPrompt[0] == 'E';
  }

  /** The text the cache key is the digest of: image, prompt (empty when
      absent) and model. The digest itself is not modelled; the text is the key. */
  function CacheKey(prompt: Option<string>, base64Data: string, model: string): string {
    base64Data + prompt.GetOr("") + model
  }

  /** The same image and prompt asked of the two models are cached apart. */
  lemma CacheKeySeparatesModels(prompt: Option<string>, base64Data: string)
    ensures CacheKey(prompt, base64Data, "haiku") != CacheKey(prompt, base64Data, "sonnet")
  {
    assert |CacheKey(prompt, base64Data, "haiku")| + 1 == |CacheKey(prompt, base64Data, "sonnet")|;
  }

  /** The key does not keep image and prompt apart: text moved from the
      front of the prompt to the end of the image gives the same key, so a
      different statement is served the cached analysis of the first one. */
  lemma CacheKeyMergesImageAndPrompt(base64Data: string, moved: string, prompt: string, model: string)
    requires moved != []
    ensures Statement(Some(moved + prompt), "", base64Data, model)
         != Statement(Some(prompt), "", base64Data + moved, model)
    ensures CacheKey(Some(moved + prompt), base64Data, model) == CacheKey(Some(prompt), base64Data + moved, model)
  {
    assert |base64Data + moved| > |base64Data|;
  }

  /** The request body: model, token ceiling, prompt text and the image. */
  datatype ApiRequest = ApiRequest(model: string, maxTokens: nat, prompt: string, mediaType: string, data: string)

  datatype TokenUsage = TokenUsage(inputTokens: Option<nat>, outputTokens: Option<nat>)

  /** A successful response: its text blocks and, maybe, token usage. */
  datatype Reply = Reply(content: seq<string>, usage: Option<TokenUsage>)

  /** What the HTTP call gives: a reply, a non-2xx status with its body, or a
      failure of the call itself with its message. */
  datatype ApiResponse = Replied(reply: Reply) | HttpError(status: int, body: string) | NetworkError(message: string)

  /** The message thrown for a non-2xx status. */
  function ApiErrorMessage(status: int, body: string): string {
    "Claude API returned " + IntToString(status) + ": " + body
  }

  /** An authentication or authorisation refusal from the API is not retried. */
  lemma AuthRefusalsAreNotRetried(body: string)
    ensures Retry.NoRetry(ApiErrorMessage(401, body))
    ensures Retry.NoRetry(ApiErrorMessage(403, body))
  {
    var prefix := "Claude API returned ";
    assert NatToString(401) == "401" by {
      assert NatToString(40) == "40" by { assert NatToString(4) == "4"; }
    }
    assert NatToString(403) == "403" by {
      assert NatToString(40) == "40" by { assert NatToString(4) == "4"; }
    }
    assert ApiErrorMessage(401, body)[20..23] == "401";
    OccursAtContains(ApiErrorMessage(401, body), "401", 20);
    assert ApiErrorMessage(403, body)[20..23] == "403";
    OccursAtContains(ApiErrorMessage(403, body), "403", 20);
  }

  /** One call of `makeRequest`: the reply, or the error it throws. */
  function CallOutcome(response: ApiResponse): Result<Reply> {
    match response
    case Replied(reply) => Ok(reply)
    case HttpError(status, body) => Err(ApiErrorMessage(status, body))
    case NetworkError(message) => Err(message)
  }

  /** `makeRequest` as a function of the attempt number. */
  function Attempts(api: (ApiRequest, nat) -> ApiResponse, request: ApiRequest): nat -> Result<Reply> {
    (attempt: nat) => CallOutcome(api(request, attempt))
  }

  const UndefinedDataMessage := "Cannot read properties of undefined (reading 'content')"
  const UndefinedTextMessage := "Cannot read properties of undefined (reading 'text')"

  /** What is read from the reply: the text and the usage, or the message
      of the error thrown on the way. */
  datatype Read = Text(text: string, usage: Option<TokenUsage>) | Unread(message: string)

  /** `data.content[0].text` and `data.usage || {}` after the retried call:
      what the call threw, the TypeError of reading from nothing, or the text
      of the first block and the usage. */
  function ReadReply(outcome: Retry.Outcome<Reply>): Read {
    match outcome
    case Threw(message) => Unread(message)
    case ReturnedUndefined => Unread(UndefinedDataMessage)
    case Returned(reply) =>
      if |reply.content| == 0 then Unread(UndefinedTextMessage) else Text(reply.content[0], reply.usage)
  }

  /** `usage.input_tokens || 0` */
  function InputTokens(usage: Option<TokenUsage>): nat {
    if usage.Some? then usage.value.inputTokens.GetOr(0) else 0
  }

  /** `usage.output_tokens || 0` */
  function OutputTokens(usage: Option<TokenUsage>): nat {
    if usage.Some? then usage.value.outputTokens.GetOr(0) else 0
  }

  /** The display name of the model asked for. */
  function ModelLabel(model: string): string {
    if model == "haiku" then "claude-3-5-haiku" else "claude-3-5-sonnet"
  }

  /** An analysis result, without the image-optimisation details. The
      processing time is in milliseconds; the timestamp is the clock reading
      `toISOString` renders. */
  datatype Analysis = Analysis(content: string, usage: Option<TokenUsage>, cost: CostTracking.Usage,
                               model: string, cached: bool, prompt: string, processingTime: int, timestamp: int)

  lemma {:induction false} SumNonNegative(s: seq<int>)
    requires forall k :: 0 <= k < |s| ==> s[k] >= 0
    ensures RateLimiting.Sum(s) >= 0
  {
    if s != [] {
      assert s[0] >= 0;
      SumNonNegative(s[1..]);
    }
  }

  /** The time `setTimeout` waits for each delay in turn: a delay below zero
      is no wait at all. */
  function Slept(delays: seq<int>): (t: int)
    ensures t >= 0
    ensures (forall k :: 0 <= k < |delays| ==> delays[k] >= 0) ==> t == RateLimiting.Sum(delays)
  {
    if delays == [] then 0 else (if delays[0] < 0 then 0 else delays[0]) + Slept(delays[1..])
  }

  /** With a non-negative base delay every backoff is a non-negative wait. */
  lemma BackoffNonNegative(retryDelay: int, i: nat)
    requires retryDelay >= 0
    ensures Retry.Backoff(retryDelay, i) >= 0
  {
    assert retryDelay * Retry.Pow2(i) >= 0;
  }

  /** A batch element: an optional caller id and the statement to analyse. */
  datatype BatchItem = BatchItem(id: Option<string>, prompt: Option<string>, imageType: string, base64Data: string)

  /** One entry of the batch result: the analysis, or the error and the request id. */
  datatype ItemResult = Analyzed(analysis: Analysis) | ItemFailed(error: string, requestId: string)

  /** `request.id || \`batch_${batchNumber}_${index}\`` */
  function RequestId(item: BatchItem, batchNumber: int, index: int): string {
    if item.id.Some? && item.id.value != "" then item.id.value
    else "batch_" + IntToString(batchNumber) + "_" + IntToString(index)
  }

  /** `request.prompt || getOptimizedPrompt()`, with the service's default prompt `fallback`. */
  function ItemPrompt(item: BatchItem, fallback: string): Option<string> {
    if item.prompt.Some? && item.prompt.value != "" then item.prompt else Some(fallback)
  }

  /** `requests.slice(i, i + size)` for 0 <= i. */
  function Slice<T>(s: seq<T>, i: nat, size: nat): (r: seq<T>)
    ensures |r| == if i >= |s| then 0 else if i + size <= |s| then size else |s| - i
    ensures forall k :: 0 <= k < |r| ==> r[k] == s[i + k]
    decreases size
  {
    if i >= |s| || size == 0 then [] else [s[i]] + Slice(s, i + 1, size - 1)
  }

  function CeilDiv(n: nat, d: nat): nat
    requires d > 0
  {
    (n + d - 1) / d
  }

  /** The slices the batch loop visits, in order. */
  function Batches<T>(s: seq<T>, size: nat): seq<seq<T>>
    requires size > 0
    decreases |s|
  {
    if |s| == 0 then [] else if |s| <= size then [s] else [s[..size]] + Batches(s[size..], size)
  }

  function Concat<T>(bs: seq<seq<T>>): seq<T> {
    if bs == [] then [] else bs[0] + Concat(bs[1..])
  }

  lemma MulMonotone(a: int, b: int, d: int)
    requires a <= b && d >= 0
    ensures a * d <= b * d
  {
    assert b * d - a * d == (b - a) * d;
  }

  /** Integer division is pinned down by its bounds. */
  lemma DivUnique(x: int, d: int, q: int)
    requires d > 0 && q * d <= x < q * d + d
    ensures x / d == q
  {
    var q' := x / d;
    assert x == q' * d + x % d;
    if q' < q {
      MulMonotone(q' + 1, q, d);
    } else if q < q' {
      MulMonotone(q + 1, q', d);
    }
  }

  lemma DivModOfMultiple(m: nat, b: nat, index: nat)
    requires b > 0 && index < b
    ensures (m * b + index) / b == m && (m * b + index) % b == index
  {
    DivUnique(m * b + index, b, m);
    assert m * b + index == ((m * b + index) / b) * b + (m * b + index) % b;
  }

  lemma CeilDivStep(n: nat, d: nat)
    requires d > 0 && n > d
    ensures CeilDiv(n, d) == CeilDiv(n - d, d) + 1
  {
    var q := (n - 1) / d;
    assert n - 1 == q * d + (n - 1) % d;
    assert (q + 1) * d == q * d + d;
    DivUnique(n + d - 1, d, q + 1);
  }

  lemma CeilDivSmall(n: nat, d: nat)
    requires d > 0 && 0 < n <= d
    ensures CeilDiv(n, d) == 1
  {
    DivUnique(n + d - 1, d, 1);
  }

  lemma CeilDivOfBounds(n: nat, b: nat, m: nat)
    requires b > 0 && m >= 1 && (m - 1) * b < n <= m * b
    ensures CeilDiv(n, b) == m
  {
    assert (m - 1) * b == m * b - b;
    DivUnique(n + b - 1, b, m);
  }

  /** `i` is `m` blocks of `b`, that is `i == m * b`, spelled out by
      repeated subtraction. */
  ghost predicate BlockStart(i: int, b: int, m: nat)
    decreases m
  {
    if m == 0 then i == 0 else BlockStart(i - b, b, m - 1)
  }

  lemma {:induction false} BlockStartIsMultiple(i: int, b: int, m: nat)
    ensures BlockStart(i, b, m) <==> i == m * b
    decreases m
  {
    if m > 0 {
      BlockStartIsMultiple(i - b, b, m - 1);
    }
  }

  /** The start of the `m`-th block lies in batch `m`, at its beginning. */
  lemma BlockDivMod(i: int, b: int, m: nat)
    requires b > 0 && BlockStart(i, b, m)
    ensures i / b == m && i % b == 0
  {
    BlockStartIsMultiple(i, b, m);
    DivModOfMultiple(m, b, 0);
  }

  /** When `m` blocks first cover `n`, there are ceil(n/b) of them. */
  lemma CeilDivOfBlocks(n: nat, b: int, i: int, m: nat)
    requires b > 0 && m >= 1 && BlockStart(i, b, m) && i - b < n <= i
    ensures CeilDiv(n, b) == m
  {
    BlockStartIsMultiple(i, b, m);
    CeilDivOfBounds(n, b, m);
  }

  /** What the batch loop has done once it has reached request `i`, the
      start of block `m`: there is one result per request so far, and a
      pause was made after every batch but the last. */
  ghost predicate BatchProgress(requests: seq<BatchItem>, size: int, i: int, m: nat,
                                results: seq<ItemResult>, pauses: seq<int>)
  {
    && 0 <= i && BlockStart(i, size, m)
    && (requests == [] ==> m == 0)
    && (m > 0 ==> size > 0 && i - size < |requests|)
    && |results| == (if i <= |requests| then i else |requests|)
    && (i < |requests| ==> |pauses| == m)
    && (m > 0 && i >= |requests| ==> |pauses| + 1 == m)
    && (m == 0 ==> pauses == [])
    && (forall k :: 0 <= k < |pauses| ==> pauses[k] == BatchPauseMs)
  }

  /** One turn of the batch loop: one result per request of the slice at
      `i`, and a pause unless it was the last batch. */
  lemma BatchStep(requests: seq<BatchItem>, size: int, i: int, m: nat,
                  results: seq<ItemResult>, pauses: seq<int>, out: seq<ItemResult>, pauses': seq<int>)
    requires size > 0 && i < |requests| && BatchProgress(requests, size, i, m, results, pauses)
    requires |out| == |Slice(requests, i, size)|
    requires pauses' == if i + size < |requests| then pauses + [BatchPauseMs] else pauses
    ensures BatchProgress(requests, size, i + size, m + 1, results + out, pauses')
  {
    assert BlockStart(i + size, size, m + 1);
  }

  /** When the loop is over, every request has its result and there was
      one pause fewer than there are batches. */
  lemma BatchDone(requests: seq<BatchItem>, size: int, i: int, m: nat,
                  results: seq<ItemResult>, pauses: seq<int>)
    requires i >= |requests| && BatchProgress(requests, size, i, m, results, pauses)
    ensures |results| == |requests|
    ensures requests == [] ==> pauses == []
    ensures requests != [] ==> size > 0 && |pauses| == CeilDiv(|requests|, size) - 1
    ensures forall k :: 0 <= k < |pauses| ==> pauses[k] == BatchPauseMs
  {
    if requests != [] {
      CeilDivOfBlocks(|requests|, size, i, m);
    }
  }

  /** The batches number ceil(n/size), are non-empty, full but for the last,
      and put back together give the requests in their order. */
  lemma {:induction false} BatchesPartition<T>(s: seq<T>, size: nat)
    requires size > 0
    ensures |Batches(s, size)| == CeilDiv(|s|, size)
    ensures Concat(Batches(s, size)) == s
    ensures forall b :: 0 <= b < |Batches(s, size)| ==> 1 <= |Batches(s, size)[b]| <= size
    ensures forall b :: 0 <= b < |Batches(s, size)| - 1 ==> |Batches(s, size)[b]| == size
    decreases |s|
  {
    if 0 < |s| <= size {
      CeilDivSmall(|s|, size);
      assert Concat(Batches(s, size)) == s + Concat([]);
    } else if |s| > size {
      var rest := s[size..];
      BatchesPartition(rest, size);
      CeilDivStep(|s|, size);
      var bs := Batches(s, size);
      assert bs == [s[..size]] + Batches(rest, size);
      assert bs[1..] == Batches(rest, size);
      assert Concat(bs) == s[..size] + Concat(Batches(rest, size));
      assert s == s[..size] + rest;
      forall b | 0 <= b < |bs| ensures 1 <= |bs[b]| <= size {
        if b > 0 { assert bs[b] == Batches(rest, size)[b - 1]; }
      }
      forall b | 0 <= b < |bs| - 1 ensures |bs[b]| == size {
        if b > 0 { assert bs[b] == Batches(rest, size)[b - 1]; }
      }
    }
  }

  /** The `b`-th batch is the slice the loop takes at request `b * size`. */
  lemma {:induction false} BatchAt<T>(s: seq<T>, size: nat, b: nat)
    requires size > 0 && b < |Batches(s, size)|
    ensures Batches(s, size)[b] == Slice(s, b * size, size)
    decreases b
  {
    if b > 0 {
      var rest := s[size..];
      assert Batches(s, size) == [s[..size]] + Batches(rest, size);
      BatchAt(rest, size, b - 1);
      assert Batches(s, size)[b] == Batches(rest, size)[b - 1];
      assert b * size == (b - 1) * size + size;
      var x, y := Slice(rest, (b - 1) * size, size), Slice(s, b * size, size);
      assert |x| == |y|;
      forall k | 0 <= k < |x| ensures x[k] == y[k] {
        assert rest[(b - 1) * size + k] == s[b * size + k];
      }
    }
  }

  /** Stepping less than `b` past a multiple of `b` stays in its block. */
  lemma DivModShift(base: nat, b: nat, index: nat)
    requires b > 0 && base % b == 0 && index < b
    ensures (base + index) / b == base / b && (base + index) % b == index
  {
    assert base == (base / b) * b + base % b;
    DivModOfMultiple(base / b, b, index);
  }

  /** The service's mutable state as one value: the cache, the cost ledger
      and the rate-limiter window. */
  datatype ServiceState = ServiceState(cache: map<string, Analysis>, ledger: CostTracking.Ledger, window: seq<int>)

  /** The configuration the service runs with. */
  datatype Settings = Settings(defaultPrompt: string, cacheEnabled: bool, maxRetries: int, retryDelay: int,
                               tracking: CostTracking.TrackerConfig, requestsPerMinute: int)

  /** A statement to analyse: the `analyzeStatement` arguments. */
  datatype Statement = Statement(prompt: Option<string>, imageType: string, base64Data: string, model: string)

  /** How `analyzeStatement` ends: with an analysis, rethrowing what the
      retried call threw, or with the ledger's error for a crossed spending
      ceiling (its limit and the new total). */
  datatype Outcome = Done(analysis: Analysis) | Failed(message: string)
                   | OverBudget(ceiling: CostTracking.Ceiling, limit: real, total: real)

  /** The outcome as the caller sees it: the analysis returned or the error thrown. */
  function AsResult(o: Outcome): Result<Analysis> {
    match o
    case Done(a) => Ok(a)
    case Failed(message) => Err(message)
    case OverBudget(ceiling, limit, total) => Err(CostTracking.CeilingMessage(ceiling, limit, total))
  }

  /** A call returns exactly when it is done; a rethrown error is passed on
      unchanged; the ledger's error always says "cost limit", which is what
      the retry loop and the error handler look for. */
  lemma AsResultProperties(o: Outcome)
    ensures AsResult(o).Ok? <==> o.Done?
    ensures o.Done? ==> AsResult(o).value == o.analysis
    ensures o.Failed? ==> AsResult(o) == Err(o.message)
    ensures o.OverBudget? ==> Contains(AsResult(o).message, "cost limit")
  {
    if o.OverBudget? {
      CostTracking.LimitMessagesMentionCostLimit(o.limit, o.total);
    }
  }

  /** What one `analyzeStatement` call gives: how it ends, the number of API
      calls, the clock reading when it is done, and the new state. */
  datatype Step = Step(outcome: Outcome, calls: nat, finish: int, after: ServiceState)

  /** The request body sent for a statement. */
  function RequestFor(cfg: Settings, st: Statement): ApiRequest {
    ApiRequest(RequestModel, MaxTokens, PromptOr(st.prompt, cfg.defaultPrompt), st.imageType, st.base64Data)
  }

  /** `analyzeStatement`, started at `start`, once the API has answered with
      `content` and `usage` and the clock reads `finish` on local date `today`:
      the ledger is charged, and the result is cached when the ledger accepts
      it. */
  function Settle(cache: map<string, Analysis>, ledger: CostTracking.Ledger, window: seq<int>,
                  cfg: Settings, st: Statement, content: string, usage: Option<TokenUsage>,
                  calls: nat, start: int, finish: int, today: string): Step
  {
    var t := CostTracking.Track(ledger, cfg.tracking, InputTokens(usage), OutputTokens(usage),
                                st.model, today, finish);
    match t.outcome
    case OverCeiling(ceiling, limit, total) =>
      Step(OverBudget(ceiling, limit, total), calls, finish, ServiceState(cache, t.ledger, window))
    case Charged(cost) =>
      var result := Analysis(content, usage, cost, ModelLabel(st.model), false,
                            PromptOr(st.prompt, cfg.defaultPrompt), finish - start, finish);
      var key := CacheKey(st.prompt, st.base64Data, st.model);
      Step(Done(result), calls, finish,
           ServiceState(if cfg.cacheEnabled then cache[key := result] else cache, t.ledger, window))
  }

  /** The run of retried API calls for a statement. */
  function CallRun(cfg: Settings, st: Statement, api: (ApiRequest, nat) -> ApiResponse): Retry.Run<Reply> {
    Retry.RetryRun(Attempts(api, RequestFor(cfg, st)), cfg.maxRetries, cfg.retryDelay)
  }

  /** `analyzeStatement` on a cache miss started at `start`, once the
      throttle has let the call through, the window has become `window` and
      the retried call has made `calls` calls, ended at `finish` on local date
      `today` and left `read`. */
  function Answered(cache: map<string, Analysis>, ledger: CostTracking.Ledger, window: seq<int>,
                    cfg: Settings, st: Statement, read: Read, calls: nat, start: int, finish: int, today: string): Step
  {
    match read
    case Unread(message) => Step(Failed(message), calls, finish, ServiceState(cache, ledger, window))
    case Text(text, usage) => Settle(cache, ledger, window, cfg, st, text, usage, calls, start, finish, today)
  }

  /** `Throttled` once the retried call has ended as `got`, in the terms a
      caller holding the cache, ledger and window in hand uses. */
  lemma ThrottledAnswers(s: ServiceState, cfg: Settings, st: Statement, now: int, at: int, run: Retry.Run<Reply>,
                         got: Retry.Run<Reply>, dateOf: int -> string, finish: int, read: Read,
                         cache: map<string, Analysis>, ledger: CostTracking.Ledger, window: seq<int>)
    requires run == got && finish == at + Slept(got.delays) && read == ReadReply(got.outcome)
    requires cache == s.cache && ledger == s.ledger && window == RateLimiting.Prune(s.window, at) + [at]
    ensures read.Unread? ==>
      Throttled(s, cfg, st, now, at, run, dateOf) == Step(Failed(read.message), got.calls, finish, ServiceState(cache, ledger, window))
    ensures read.Text? ==>
      Throttled(s, cfg, st, now, at, run, dateOf)
        == Settle(cache, ledger, window, cfg, st, read.text, read.usage, got.calls, now, finish, dateOf(finish))
  {
  }

  /** `analyzeStatement` started at clock reading `now`, where `dateOf` gives
      the local date text of a clock reading and `run` is what the retried
      call makes of this statement (its `CallRun`), looked at only on a miss. */
  function Analyze(s: ServiceState, cfg: Settings, st: Statement, now: int, dateOf: int -> string,
                   run: Retry.Run<Reply>): Step
    requires cfg.requestsPerMinute > 0
  {
    var key := CacheKey(st.prompt, st.base64Data, st.model);
    if cfg.cacheEnabled && key in s.cache then Step(Done(s.cache[key].(cached := true, processingTime := 0)), 0, now, s)
    else
      Throttled(s, cfg, st, now, RateLimiting.Admit(s.window, now, cfg.requestsPerMinute).0, run, dateOf)
  }

  /** `analyzeStatement` on a cache miss started at `now`, once the throttle
      has let the call through at `at` and the retried call has run as `run`.
      The ledger reads the date when it bills, after the retries. */
  function Throttled(s: ServiceState, cfg: Settings, st: Statement, now: int, at: int, run: Retry.Run<Reply>,
                     dateOf: int -> string): Step {
    var finish := at + Slept(run.delays);
    Answered(s.cache, s.ledger, RateLimiting.Prune(s.window, at) + [at], cfg, st, ReadReply(run.outcome),
             run.calls, now, finish, dateOf(finish))
  }

  /** A cache hit returns the stored result marked as cached, at once, and
      touches nothing: no throttle, no API call, no cost. The processing time
      is that of this call; the timestamp is the one stored with the result. */
  lemma AnalyzeCacheHit(s: ServiceState, cfg: Settings, st: Statement, now: int, dateOf: int -> string,
                        run: Retry.Run<Reply>)
    requires cfg.requestsPerMinute > 0
    requires cfg.cacheEnabled && CacheKey(st.prompt, st.base64Data, st.model) in s.cache
    ensures var step := Analyze(s, cfg, st, now, dateOf, run);
      var stored := s.cache[CacheKey(st.prompt, st.base64Data, st.model)];
      && step.outcome == Done(stored.(cached := true, processingTime := 0)) && step.outcome.analysis.cached
      && step.outcome.analysis.timestamp == stored.timestamp
      && step.outcome.analysis.processingTime == step.finish - now
      && step.calls == 0 && step.finish == now && step.after == s
  {
  }

  /** On a miss the call is throttled first: the window had room at the
      admission time and gains that time; the calls and the delays are those
      of the retry loop, started after admission. */
  lemma AnalyzeMissThrottles(s: ServiceState, cfg: Settings, st: Statement, now: int, dateOf: int -> string,
                             run: Retry.Run<Reply>)
    requires cfg.requestsPerMinute > 0
    requires !(cfg.cacheEnabled && CacheKey(st.prompt, st.base64Data, st.model) in s.cache)
    ensures var step := Analyze(s, cfg, st, now, dateOf, run);
      var at := RateLimiting.Admit(s.window, now, cfg.requestsPerMinute).0;
      && at >= now
      && |RateLimiting.Prune(s.window, at)| < cfg.requestsPerMinute
      && step.after.window == RateLimiting.Prune(s.window, at) + [at]
      && step.calls == run.calls && step.finish == at + Slept(run.delays)
      && step == Throttled(s, cfg, st, now, at, run, dateOf)
  {
    RateLimiting.AdmitProperties(s.window, now, cfg.requestsPerMinute);
    RateLimiting.SumPositive(RateLimiting.Admit(s.window, now, cfg.requestsPerMinute).1);
  }

  /** Once the API has answered, the call is billed whether or not the
      ledger then throws; only a result the ledger accepts is cached, under
      its key, unmarked. */
  lemma SettleEffects(cache: map<string, Analysis>, ledger: CostTracking.Ledger, window: seq<int>,
                      cfg: Settings, st: Statement, content: string, usage: Option<TokenUsage>,
                      calls: nat, start: int, finish: int, today: string)
    ensures var step := Settle(cache, ledger, window, cfg, st, content, usage, calls, start, finish, today);
      var t := CostTracking.Track(ledger, cfg.tracking, InputTokens(usage), OutputTokens(usage),
                                  st.model, today, finish);
      var key := CacheKey(st.prompt, st.base64Data, st.model);
      && step.after.ledger == t.ledger && step.after.window == window
      && !step.outcome.Failed?
      && (step.outcome.OverBudget? <==> t.outcome.OverCeiling?)
      && (step.outcome.OverBudget? ==>
            && step.outcome == OverBudget(t.outcome.ceiling, t.outcome.limit, t.outcome.total)
            && step.after.cache == cache)
      && (step.outcome.Done? ==> var a := step.outcome.analysis;
                                 && a.content == content && a.usage == usage && a.cost == t.outcome.usage
                                 && !a.cached && a.model == ModelLabel(st.model)
                                 && a.processingTime == finish - start && a.timestamp == finish
                                 && a.prompt == PromptOr(st.prompt, cfg.defaultPrompt)
                                 && step.after.cache == (if cfg.cacheEnabled then cache[key := a] else cache))
  {
  }

  /** On a miss, the call fails without being billed exactly when nothing
      could be read from the retried call. When the retry loop gave up, the
      error is that of the last attempt, unchanged; with no attempt
      permitted the call fails reading from `undefined`. Such a failure
      leaves the ledger and the cache as they were. */
  lemma AnalyzeFailure(s: ServiceState, cfg: Settings, st: Statement, now: int, dateOf: int -> string,
                       api: (ApiRequest, nat) -> ApiResponse)
    requires cfg.requestsPerMinute > 0
    requires !(cfg.cacheEnabled && CacheKey(st.prompt, st.base64Data, st.model) in s.cache)
    ensures var run := CallRun(cfg, st, api);
      var step := Analyze(s, cfg, st, now, dateOf, run);
      && (step.outcome.Failed? <==> ReadReply(run.outcome).Unread?)
      && (step.outcome.Failed? ==> step.after.cache == s.cache && step.after.ledger == s.ledger)
      && (run.outcome.Threw? ==>
            && 1 <= run.calls <= cfg.maxRetries
            && CallOutcome(api(RequestFor(cfg, st), run.calls - 1)).Err?
            && step.outcome == Failed(CallOutcome(api(RequestFor(cfg, st), run.calls - 1)).message))
      && (cfg.maxRetries <= 0 ==> step.outcome == Failed(UndefinedDataMessage) && step.calls == 0)
  {
    var run := CallRun(cfg, st, api);
    Retry.RetryRunProperties(Attempts(api, RequestFor(cfg, st)), cfg.maxRetries, cfg.retryDelay);
    var at := RateLimiting.Admit(s.window, now, cfg.requestsPerMinute).0;
    assert Analyze(s, cfg, st, now, dateOf, run) == Throttled(s, cfg, st, now, at, run, dateOf);
    var read := ReadReply(run.outcome);
    if read.Text? {
      var finish := at + Slept(run.delays);
      SettleEffects(s.cache, s.ledger, RateLimiting.Prune(s.window, at) + [at], cfg, st, read.text, read.usage,
                    run.calls, now, finish, dateOf(finish));
    }
  }

  /** On a miss, an answered call is billed on the local date of the moment
      the retries end, so a call that ends on a later day than it started
      rolls the daily total over. A result made by the call carries the time
      from start to end as its processing time and that end as its timestamp. */
  lemma AnalyzeBillsAtFinish(s: ServiceState, cfg: Settings, st: Statement, now: int, dateOf: int -> string,
                             run: Retry.Run<Reply>)
    requires cfg.requestsPerMinute > 0
    requires !(cfg.cacheEnabled && CacheKey(st.prompt, st.base64Data, st.model) in s.cache)
    requires ReadReply(run.outcome).Text?
    ensures var step := Analyze(s, cfg, st, now, dateOf, run);
      var read := ReadReply(run.outcome);
      && step.after.ledger == CostTracking.Track(s.ledger, cfg.tracking, InputTokens(read.usage),
                                                 OutputTokens(read.usage), st.model, dateOf(step.finish),
                                                 step.finish).ledger
      && (step.outcome.Done? ==>
            && step.outcome.analysis.processingTime == step.finish - now
            && step.outcome.analysis.timestamp == step.finish)
  {
    var at := RateLimiting.Admit(s.window, now, cfg.requestsPerMinute).0;
    var read, finish := ReadReply(run.outcome), at + Slept(run.delays);
    assert Analyze(s, cfg, st, now, dateOf, run) == Throttled(s, cfg, st, now, at, run, dateOf);
    SettleEffects(s.cache, s.ledger, RateLimiting.Prune(s.window, at) + [at], cfg, st, read.text, read.usage,
                  run.calls, now, finish, dateOf(finish));
  }

  /** With tracking on, settling fails only on a spending ceiling: the
      spend is recorded all the same and nothing is cached. */
  lemma SettleOverBudget(cache: map<string, Analysis>, ledger: CostTracking.Ledger, window: seq<int>,
                         cfg: Settings, st: Statement, content: string, usage: Option<TokenUsage>,
                         calls: nat, start: int, finish: int, today: string)
    requires cfg.tracking.enabled
    requires !Settle(cache, ledger, window, cfg, st, content, usage, calls, start, finish, today).outcome.Done?
    ensures var step := Settle(cache, ledger, window, cfg, st, content, usage, calls, start, finish, today);
      && step.outcome.OverBudget?
      && step.after.cache == cache
      && step.after.ledger.totalRequests == ledger.totalRequests + 1
  {
    SettleEffects(cache, ledger, window, cfg, st, content, usage, calls, start, finish, today);
    CostTracking.TrackRecordsSpend(ledger, cfg.tracking, InputTokens(usage), OutputTokens(usage),
                                   st.model, today, finish);
  }

  /** An answered call with tracking on fails only on a spending ceiling. */
  lemma AnsweredOverBudget(cache: map<string, Analysis>, ledger: CostTracking.Ledger, window: seq<int>,
                           cfg: Settings, st: Statement, read: Read, calls: nat, start: int, finish: int, today: string)
    requires cfg.tracking.enabled && read.Text?
    requires !Answered(cache, ledger, window, cfg, st, read, calls, start, finish, today).outcome.Done?
    ensures var step := Answered(cache, ledger, window, cfg, st, read, calls, start, finish, today);
      && step.outcome.OverBudget?
      && step.after.cache == cache
      && step.after.ledger.totalRequests == ledger.totalRequests + 1
  {
    SettleOverBudget(cache, ledger, window, cfg, st, read.text, read.usage, calls, start, finish, today);
  }

  /** When the API answered and tracking is on, a failure can only be the
      ledger's: the spend is recorded, nothing is cached, and the error is a
      spending-ceiling one. */
  lemma AnalyzeOverBudget(s: ServiceState, cfg: Settings, st: Statement, now: int, dateOf: int -> string,
                          run: Retry.Run<Reply>)
    requires cfg.requestsPerMinute > 0 && cfg.tracking.enabled
    requires !(cfg.cacheEnabled && CacheKey(st.prompt, st.base64Data, st.model) in s.cache)
    requires ReadReply(run.outcome).Text?
    requires !Analyze(s, cfg, st, now, dateOf, run).outcome.Done?
    ensures var step := Analyze(s, cfg, st, now, dateOf, run);
      && step.outcome.OverBudget?
      && step.after.cache == s.cache
      && step.after.ledger.totalRequests == s.ledger.totalRequests + 1
  {
    var at := RateLimiting.Admit(s.window, now, cfg.requestsPerMinute).0;
    var window, read, finish := RateLimiting.Prune(s.window, at) + [at], ReadReply(run.outcome),
                                at + Slept(run.delays);
    assert Analyze(s, cfg, st, now, dateOf, run) == Throttled(s, cfg, st, now, at, run, dateOf);
    AnsweredOverBudget(s.cache, s.ledger, window, cfg, st, read, run.calls, now, finish, dateOf(finish));
  }

  /** With a non-negative base delay the retry loop never sleeps a
      negative total. */
  lemma RetryDelaysNonNegative<T>(fn: nat -> Result<T>, maxRetries: int, retryDelay: int)
    requires retryDelay >= 0
    ensures var run := Retry.RetryRun(fn, maxRetries, retryDelay);
      RateLimiting.Sum(run.delays) >= 0 && Slept(run.delays) == RateLimiting.Sum(run.delays)
  {
    var run := Retry.RetryRun(fn, maxRetries, retryDelay);
    Retry.RetryRunProperties(fn, maxRetries, retryDelay);
    forall k | 0 <= k < |run.delays| ensures run.delays[k] >= 0 {
      BackoffNonNegative(retryDelay, k);
    }
    SumNonNegative(run.delays);
  }

  /** With a base delay of zero or less every backoff is zero or less, so
      the retries follow one another without waiting. */
  lemma RetryNegativeDelayIsImmediate<T>(fn: nat -> Result<T>, maxRetries: int, retryDelay: int)
    requires retryDelay <= 0
    ensures var run := Retry.RetryRun(fn, maxRetries, retryDelay);
      (forall k :: 0 <= k < |run.delays| ==> run.delays[k] <= 0) && Slept(run.delays) == 0
  {
    var run := Retry.RetryRun(fn, maxRetries, retryDelay);
    Retry.RetryRunProperties(fn, maxRetries, retryDelay);
    forall k | 0 <= k < |run.delays| ensures run.delays[k] <= 0 {
      assert Retry.Pow2(k) >= 0;
      assert retryDelay * Retry.Pow2(k) <= 0;
    }
    SleptNothing(run.delays);
  }

  lemma {:induction false} SleptNothing(delays: seq<int>)
    requires forall k :: 0 <= k < |delays| ==> delays[k] <= 0
    ensures Slept(delays) == 0
  {
    if delays != [] {
      SleptNothing(delays[1..]);
    }
  }

  /** The clock only moves forward, and every window entry is at or before
      the moment the call is done. */
  lemma AnalyzeClock(s: ServiceState, cfg: Settings, st: Statement, now: int, dateOf: int -> string,
                     run: Retry.Run<Reply>)
    requires cfg.requestsPerMinute > 0
    requires forall t :: t in s.window ==> t <= now
    ensures var step := Analyze(s, cfg, st, now, dateOf, run);
      step.finish >= now && forall t :: t in step.after.window ==> t <= step.finish
  {
    var key := CacheKey(st.prompt, st.base64Data, st.model);
    if !(cfg.cacheEnabled && key in s.cache) {
      AnalyzeMissThrottles(s, cfg, st, now, dateOf, run);
      RateLimiting.PruneKeeps(s.window, RateLimiting.Admit(s.window, now, cfg.requestsPerMinute).0);
    }
  }

  /** What a run of analyses has produced so far: the entries, the clock
      reading and the service state. */
  datatype Progress = Progress(out: seq<ItemResult>, clock: int, after: ServiceState)

  /** The statement the batch loop analyses for `item`. */
  function ItemStatement(cfg: Settings, item: BatchItem, model: string): Statement {
    Statement(ItemPrompt(item, cfg.defaultPrompt), item.imageType, item.base64Data, model)
  }

  /** The analysis the batch loop runs for one item: from a state and a
      clock reading to what `Analyze` does with the item's statement. */
  function ItemAnalyzer(cfg: Settings, model: string, dateOf: int -> string, api: (ApiRequest, nat) -> ApiResponse)
    : (ServiceState, BatchItem, int) -> Step
    requires cfg.requestsPerMinute > 0
  {
    (s: ServiceState, item: BatchItem, start: int) =>
      Analyze(s, cfg, ItemStatement(cfg, item, model), start, dateOf,
              CallRun(cfg, ItemStatement(cfg, item, model), api))
  }

  /** The batch entry of an analysis: what it returned, or the message it
      threw with the request id. */
  function ItemEntry(step: Step, item: BatchItem, batchNumber: int, index: int): ItemResult {
    var r := AsResult(step.outcome);
    if r.Ok? then Analyzed(r.value) else ItemFailed(r.message, RequestId(item, batchNumber, index))
  }

  /** One more item analysed after `p`, started at `start`. */
  function Advance(p: Progress, analyze: (ServiceState, BatchItem, int) -> Step, item: BatchItem, start: int,
                   batchNumber: int, index: int): Progress
  {
    var step := analyze(p.after, item, start);
    Progress(p.out + [ItemEntry(step, item, batchNumber, index)], step.finish, step.after)
  }

  /** The first `n` items of the slice `batch` analysed one after another
      from `p`, each started when the one before it is done. */
  function SliceRun(p: Progress, analyze: (ServiceState, BatchItem, int) -> Step, batch: seq<BatchItem>,
                    batchNumber: int, n: nat): Progress
    requires n <= |batch|
  {
    if n == 0 then p
    else
      var q := SliceRun(p, analyze, batch, batchNumber, n - 1);
      Advance(q, analyze, batch[n - 1], q.clock, batchNumber, n - 1)
  }

  /** Applying the batch loop's analysis is analysing the item's statement. */
  lemma ItemAnalyzerApplies(cfg: Settings, model: string, dateOf: int -> string, api: (ApiRequest, nat) -> ApiResponse,
                            s: ServiceState, item: BatchItem, start: int)
    requires cfg.requestsPerMinute > 0
    ensures ItemAnalyzer(cfg, model, dateOf, api)(s, item, start)
      == Analyze(s, cfg, ItemStatement(cfg, item, model), start, dateOf, CallRun(cfg, ItemStatement(cfg, item, model), api))
  {
  }

  /** One more item of a slice run: its entry is appended and the clock and
      the state become those its analysis left. */
  lemma SliceAdvance(p: Progress, analyze: (ServiceState, BatchItem, int) -> Step, batch: seq<BatchItem>,
                     batchNumber: int, n: nat, q: Progress)
    requires n < |batch| && q == SliceRun(p, analyze, batch, batchNumber, n)
    ensures var step := analyze(q.after, batch[n], q.clock);
      SliceRun(p, analyze, batch, batchNumber, n + 1)
      == Progress(q.out + [ItemEntry(step, batch[n], batchNumber, n)], step.finish, step.after)
  {
  }

  /** The pause made before request `k`: one between two batches, that is
      before the first request of every batch but the first. */
  function PauseBefore(k: nat, size: int): int
    requires size > 0
  {
    if k > 0 && k % size == 0 then BatchPauseMs else 0
  }

  /** The first `n` requests analysed one after another from `p`, without
      slicing: request `k` is entry `k % size` of batch `k / size + 1`, and it
      starts when the one before it is done, after the pause between batches
      where there is one. */
  function SequentialRun(p: Progress, analyze: (ServiceState, BatchItem, int) -> Step, requests: seq<BatchItem>,
                    size: int, n: nat): Progress
    requires size > 0 && n <= |requests|
  {
    if n == 0 then p
    else
      var q := SequentialRun(p, analyze, requests, size, n - 1);
      Advance(q, analyze, requests[n - 1], q.clock + PauseBefore(n - 1, size), (n - 1) / size + 1, (n - 1) % size)
  }

  /** An entry is a success exactly when its analysis returned, and then it
      is that analysis; otherwise it carries what the analysis threw, unchanged,
      and the request id. */
  lemma ItemEntryProperties(step: Step, item: BatchItem, batchNumber: int, index: int)
    ensures ItemEntry(step, item, batchNumber, index).Analyzed? <==> step.outcome.Done?
    ensures step.outcome.Done? ==> ItemEntry(step, item, batchNumber, index) == Analyzed(step.outcome.analysis)
    ensures step.outcome.Failed? ==>
      ItemEntry(step, item, batchNumber, index) == ItemFailed(step.outcome.message, RequestId(item, batchNumber, index))
    ensures step.outcome.OverBudget? ==>
      && ItemEntry(step, item, batchNumber, index).ItemFailed?
      && Contains(ItemEntry(step, item, batchNumber, index).error, "cost limit")
  {
    AsResultProperties(step.outcome);
  }

  /** The entry a slice run appends for item `k`, once `q` has been produced. */
  function SliceEntry(q: Progress, analyze: (ServiceState, BatchItem, int) -> Step, batch: seq<BatchItem>,
                      batchNumber: int, k: nat): ItemResult
    requires k < |batch|
  {
    ItemEntry(analyze(q.after, batch[k], q.clock), batch[k], batchNumber, k)
  }

  /** The entry a batch run appends for request `k`, once `q` has been produced. */
  function SequentialEntry(q: Progress, analyze: (ServiceState, BatchItem, int) -> Step, requests: seq<BatchItem>,
                      size: int, k: nat): ItemResult
    requires size > 0 && k < |requests|
  {
    ItemEntry(analyze(q.after, requests[k], q.clock + PauseBefore(k, size)), requests[k], k / size + 1, k % size)
  }

  /** A slice run from `p`, before any entry, has one entry per item, in
      order: entry `k` is the one made for item `k` after the first `k`. */
  lemma {:induction false} SliceRunEntries(p: Progress, analyze: (ServiceState, BatchItem, int) -> Step,
                                           batch: seq<BatchItem>, batchNumber: int, n: nat)
    requires p.out == [] && n <= |batch|
    ensures var r := SliceRun(p, analyze, batch, batchNumber, n);
      && |r.out| == n
      && forall k :: 0 <= k < n ==>
           r.out[k] == SliceEntry(SliceRun(p, analyze, batch, batchNumber, k), analyze, batch, batchNumber, k)
    decreases n
  {
    if n > 0 {
      SliceRunEntries(p, analyze, batch, batchNumber, n - 1);
      var q := SliceRun(p, analyze, batch, batchNumber, n - 1);
      var r := SliceRun(p, analyze, batch, batchNumber, n);
      assert r.out == q.out + [SliceEntry(q, analyze, batch, batchNumber, n - 1)];
    }
  }

  /** The same for the whole batch: entry `k` is the one made for request
      `k` after the first `k`. */
  lemma {:induction false} SequentialRunEntries(p: Progress, analyze: (ServiceState, BatchItem, int) -> Step,
                                           requests: seq<BatchItem>, size: int, n: nat)
    requires p.out == [] && size > 0 && n <= |requests|
    ensures var r := SequentialRun(p, analyze, requests, size, n);
      && |r.out| == n
      && forall k :: 0 <= k < n ==>
           r.out[k] == SequentialEntry(SequentialRun(p, analyze, requests, size, k), analyze, requests, size, k)
    decreases n
  {
    if n > 0 {
      SequentialRunEntries(p, analyze, requests, size, n - 1);
      var q := SequentialRun(p, analyze, requests, size, n - 1);
      var r := SequentialRun(p, analyze, requests, size, n);
      assert r.out == q.out + [SequentialEntry(q, analyze, requests, size, n - 1)];
    }
  }

  /** Entry `k` of a slice run succeeds exactly when the `k`-th analysis,
      started when the one before it was done and in the state it left,
      returned, and then it is that analysis; a failed analysis gives the
      message it threw, unchanged, with the item's request id. */
  lemma SliceEntryOutcome(p: Progress, analyze: (ServiceState, BatchItem, int) -> Step, batch: seq<BatchItem>,
                          batchNumber: int, n: nat, k: nat)
    requires p.out == [] && k < n <= |batch|
    ensures var r := SliceRun(p, analyze, batch, batchNumber, n);
      var q := SliceRun(p, analyze, batch, batchNumber, k);
      var step := analyze(q.after, batch[k], q.clock);
      && k < |r.out|
      && (r.out[k].Analyzed? <==> step.outcome.Done?)
      && (step.outcome.Done? ==> r.out[k] == Analyzed(step.outcome.analysis))
      && (step.outcome.Failed? ==> r.out[k] == ItemFailed(step.outcome.message, RequestId(batch[k], batchNumber, k)))
      && (step.outcome.OverBudget? ==> r.out[k].ItemFailed? && Contains(r.out[k].error, "cost limit"))
  {
    SliceRunEntries(p, analyze, batch, batchNumber, n);
    var q := SliceRun(p, analyze, batch, batchNumber, k);
    ItemEntryProperties(analyze(q.after, batch[k], q.clock), batch[k], batchNumber, k);
  }

  /** Entry `k` of a batch run succeeds exactly when the analysis of request
      `k`, started when request `k - 1` was done plus the pause between
      batches and in the state it left, returned; a failed entry's id
      carries batch number `k / size + 1` and index `k % size`. */
  lemma SequentialEntryOutcome(p: Progress, analyze: (ServiceState, BatchItem, int) -> Step, requests: seq<BatchItem>,
                          size: int, n: nat, k: nat)
    requires p.out == [] && size > 0 && k < n <= |requests|
    ensures var r := SequentialRun(p, analyze, requests, size, n);
      var q := SequentialRun(p, analyze, requests, size, k);
      var step := analyze(q.after, requests[k], q.clock + PauseBefore(k, size));
      && k < |r.out|
      && (r.out[k].Analyzed? <==> step.outcome.Done?)
      && (step.outcome.Done? ==> r.out[k] == Analyzed(step.outcome.analysis))
      && (step.outcome.Failed? ==>
            r.out[k] == ItemFailed(step.outcome.message, RequestId(requests[k], k / size + 1, k % size)))
      && (step.outcome.OverBudget? ==> r.out[k].ItemFailed? && Contains(r.out[k].error, "cost limit"))
  {
    SequentialRunEntries(p, analyze, requests, size, n);
    var q := SequentialRun(p, analyze, requests, size, k);
    ItemEntryProperties(analyze(q.after, requests[k], q.clock + PauseBefore(k, size)), requests[k], k / size + 1, k % size);
  }

  /** Every failed entry of a slice run carries the id of its own item:
      the item, the batch number and its index in the slice. */
  lemma SliceRunIds(p: Progress, analyze: (ServiceState, BatchItem, int) -> Step, batch: seq<BatchItem>,
                    batchNumber: int, n: nat, out: seq<ItemResult>)
    requires p.out == [] && n <= |batch| && out == SliceRun(p, analyze, batch, batchNumber, n).out
    ensures |out| == n
    ensures forall k :: 0 <= k < n && out[k].ItemFailed? ==> out[k].requestId == RequestId(batch[k], batchNumber, k)
  {
    SliceRunEntries(p, analyze, batch, batchNumber, n);
  }

  /** Every failed entry of a batch run carries the id of its own request:
      the request, the number of its batch and its index in it. */
  lemma SequentialRunIds(p: Progress, analyze: (ServiceState, BatchItem, int) -> Step, requests: seq<BatchItem>,
                    size: int, n: nat, out: seq<ItemResult>)
    requires p.out == [] && size > 0 && n <= |requests| && out == SequentialRun(p, analyze, requests, size, n).out
    ensures |out| == n
    ensures forall k :: 0 <= k < n && out[k].ItemFailed? ==> out[k].requestId == RequestId(requests[k], k / size + 1, k % size)
  {
    SequentialRunEntries(p, analyze, requests, size, n);
  }

  /** The batch loop from request `i` on, as batch number `batchNumber`,
      with `p` what the earlier batches produced: the slice of `size`
      requests at `i` is analysed one request after another, after a pause
      of `BatchPauseMs` when a batch came before it, and then the next
      slice follows. */
  function BatchesFrom(p: Progress, analyze: (ServiceState, BatchItem, int) -> Step, requests: seq<BatchItem>,
                       size: int, i: nat, batchNumber: int): Progress
    requires size > 0
    decreases |requests| - i
  {
    if i >= |requests| then p
    else
      var batch := Slice(requests, i, size);
      var r := SliceRun(Progress([], p.clock + (if i > 0 then BatchPauseMs else 0), p.after), analyze,
                        batch, batchNumber, |batch|);
      BatchesFrom(Progress(p.out + r.out, r.clock, r.after), analyze, requests, size, i + size, batchNumber + 1)
  }

  /** One turn of the batch loop: the slice at `i` run from where `p` left
      off, after the pause when it is not the first, leaves the rest of the
      loop to start at the next slice. */
  lemma BatchesFromStep(p: Progress, analyze: (ServiceState, BatchItem, int) -> Step, requests: seq<BatchItem>,
                        size: int, i: nat, batchNumber: int, start: int, batch: seq<BatchItem>, r: Progress)
    requires size > 0 && i < |requests| && batch == Slice(requests, i, size)
    requires start == p.clock + (if i > 0 then BatchPauseMs else 0)
    requires r == SliceRun(Progress([], start, p.after), analyze, batch, batchNumber, |batch|)
    ensures BatchesFrom(p, analyze, requests, size, i, batchNumber)
         == BatchesFrom(Progress(p.out + r.out, r.clock, r.after), analyze, requests, size, i + size, batchNumber + 1)
  {
  }

  /** The next block starts one block further on. */
  lemma NextBlock(i: nat, size: nat)
    requires size > 0 && i % size == 0
    ensures (i + size) % size == 0 && (i + size) / size == i / size + 1
  {
    assert i == (i / size) * size;
    DivModOfMultiple(i / size + 1, size, 0);
  }

  /** The slice at `i`, a multiple of `size`, run as batch `i / size + 1`
      from where the first `i` requests left the clock, plus the pause
      before it, and the state, continues running the requests one after
      another up to the end of that slice. */
  lemma SliceExtendsSequential(p: Progress, analyze: (ServiceState, BatchItem, int) -> Step,
                               requests: seq<BatchItem>, size: nat, i: nat, q: Progress, pause: int, batchNumber: int,
                               n: nat)
    requires size > 0 && i % size == 0 && i < |requests| && n == i + |Slice(requests, i, size)|
    requires q == SequentialRun(p, analyze, requests, size, i)
    requires pause == PauseBefore(i, size) && batchNumber == i / size + 1
    ensures var slice := Slice(requests, i, size);
      var r := SliceRun(Progress([], q.clock + pause, q.after), analyze, slice, batchNumber, |slice|);
      Progress(q.out + r.out, r.clock, r.after) == SequentialRun(p, analyze, requests, size, n)
  {
    var slice := Slice(requests, i, size);
    var q' := Progress(q.out, q.clock + pause, q.after);
    SliceRunAppends(q', analyze, slice, batchNumber, |slice|);
    assert q'.(out := []) == Progress([], q.clock + pause, q.after);
    SliceRunInBatch(p, analyze, requests, size, i, slice, batchNumber, q, q', |slice|);
  }

  /** Running the batches one after another, with their pauses, is running
      the requests one after another: from the start of a batch, where the
      first `i` requests have been run, the batch loop ends where running
      all the requests one by one ends. */
  lemma {:induction false} BatchesAreSequential(p: Progress, analyze: (ServiceState, BatchItem, int) -> Step,
                                                requests: seq<BatchItem>, size: nat, i: nat, batchNumber: int,
                                                q: Progress)
    requires size > 0 && i % size == 0 && i <= |requests| && batchNumber == i / size + 1
    requires q == SequentialRun(p, analyze, requests, size, i)
    ensures BatchesFrom(q, analyze, requests, size, i, batchNumber) == SequentialRun(p, analyze, requests, size, |requests|)
    decreases |requests| - i
  {
    if i < |requests| {
      var slice := Slice(requests, i, size);
      var n := i + |slice|;
      var start := q.clock + (if i > 0 then BatchPauseMs else 0);
      var r := SliceRun(Progress([], start, q.after), analyze, slice, batchNumber, |slice|);
      SliceExtendsSequential(p, analyze, requests, size, i, q, if i > 0 then BatchPauseMs else 0, batchNumber, n);
      BatchesFromStep(q, analyze, requests, size, i, batchNumber, start, slice, r);
      var q' := Progress(q.out + r.out, r.clock, r.after);
      if n < |requests| {
        NextBlock(i, size);
        BatchesAreSequential(p, analyze, requests, size, n, batchNumber + 1, q');
      } else {
        assert BatchesFrom(q', analyze, requests, size, i + size, batchNumber + 1) == q';
      }
    }
  }

  /** Where the batch loop stands at request `i`, the start of block `m`:
      the results and pauses so far, the clock `settled` at the end of the
      last slice and `clock` after the pause that follows it, with every
      entry of the rate-limit window at or before `clock`, and a rest of the
      loop that ends where the whole loop, `target`, ends. */
  ghost predicate BatchLoop(requests: seq<BatchItem>, size: int, i: int, m: nat, results: seq<ItemResult>,
                            pauses: seq<int>, settled: int, clock: int, s: ServiceState, target: Progress,
                            analyze: (ServiceState, BatchItem, int) -> Step)
  {
    && BatchProgress(requests, size, i, m, results, pauses)
    && clock == settled + (if 0 < i < |requests| then BatchPauseMs else 0)
    && (forall t :: t in s.window ==> t <= clock)
    && (size > 0 ==> BatchesFrom(Progress(results, settled, s), analyze, requests, size, i, m + 1) == target)
  }

  /** One turn of the batch loop keeps its description: the slice at `i`,
      run from `clock`, ends at `done` in state `after`, and the pause follows
      unless it was the last slice. */
  lemma BatchLoopStep(requests: seq<BatchItem>, size: int, i: int, m: nat, results: seq<ItemResult>,
                      pauses: seq<int>, settled: int, clock: int, s: ServiceState, target: Progress,
                      analyze: (ServiceState, BatchItem, int) -> Step,
                      out: seq<ItemResult>, done: int, after: ServiceState,
                      i': int, m': nat, results': seq<ItemResult>, pauses': seq<int>, clock': int)
    requires size > 0 && i < |requests|
    requires BatchLoop(requests, size, i, m, results, pauses, settled, clock, s, target, analyze)
    requires Progress(out, done, after)
             == SliceRun(Progress([], clock, s), analyze, Slice(requests, i, size), i / size + 1,
                         |Slice(requests, i, size)|)
    requires |out| == |Slice(requests, i, size)|
    requires forall t :: t in after.window ==> t <= done
    requires pauses' == if i + size < |requests| then pauses + [BatchPauseMs] else pauses
    requires clock' == done + (if i + size < |requests| then BatchPauseMs else 0)
    requires i' == i + size && m' == m + 1 && results' == results + out
    ensures BatchLoop(requests, size, i', m', results', pauses', done, clock', after, target, analyze)
  {
    BlockDivMod(i, size, m);
    BatchStep(requests, size, i, m, results, pauses, out, pauses');
    BatchesFromStep(Progress(results, settled, s), analyze, requests, size, i, m + 1, clock,
                    Slice(requests, i, size), Progress(out, done, after));
  }

  /** When the batch loop stops, it has produced what the whole loop
      produces, which is running every request one after another: one result
      per request, failures carrying their request ids, and a pause between
      consecutive batches. */
  lemma BatchLoopDone(requests: seq<BatchItem>, size: int, i: int, m: nat, results: seq<ItemResult>,
                      pauses: seq<int>, settled: int, clock: int, s: ServiceState, p0: Progress,
                      analyze: (ServiceState, BatchItem, int) -> Step)
    requires size > 0 && i >= |requests| && p0.out == []
    requires BatchLoop(requests, size, i, m, results, pauses, settled, clock, s,
                       BatchesFrom(p0, analyze, requests, size, 0, 1), analyze)
    ensures Progress(results, clock, s) == BatchesFrom(p0, analyze, requests, size, 0, 1)
    ensures |results| == |requests|
    ensures forall k :: 0 <= k < |results| && results[k].ItemFailed? ==>
              results[k].requestId == RequestId(requests[k], k / size + 1, k % size)
    ensures requests == [] ==> pauses == []
    ensures requests != [] ==> |pauses| == CeilDiv(|requests|, size) - 1
    ensures forall k :: 0 <= k < |pauses| ==> pauses[k] == BatchPauseMs
  {
    BatchDone(requests, size, i, m, results, pauses);
    BatchesAreSequential(p0, analyze, requests, size, 0, 1, p0);
    SequentialRunIds(p0, analyze, requests, size, |requests|, results);
  }

  /** A slice run depends on what came before it only through the clock
      and the state: its entries are appended to the earlier ones. */
  lemma {:induction false} SliceRunAppends(p: Progress, analyze: (ServiceState, BatchItem, int) -> Step,
                                           batch: seq<BatchItem>, batchNumber: int, n: nat)
    requires n <= |batch|
    ensures var r0 := SliceRun(p.(out := []), analyze, batch, batchNumber, n);
      SliceRun(p, analyze, batch, batchNumber, n) == Progress(p.out + r0.out, r0.clock, r0.after)
    decreases n
  {
    if n > 0 {
      SliceRunAppends(p, analyze, batch, batchNumber, n - 1);
      var q0 := SliceRun(p.(out := []), analyze, batch, batchNumber, n - 1);
      var e := ItemEntry(analyze(q0.after, batch[n - 1], q0.clock), batch[n - 1], batchNumber, n - 1);
      assert p.out + (q0.out + [e]) == (p.out + q0.out) + [e];
    }
  }

  /** The slice the loop takes at `i`, the start of a batch, run after the
      first `i` requests and the pause, gives what running the requests one
      by one gives up to the end of that slice. */
  lemma {:induction false} SliceRunInBatch(p: Progress, analyze: (ServiceState, BatchItem, int) -> Step,
                                           requests: seq<BatchItem>, size: int, i: nat, slice: seq<BatchItem>,
                                           batchNumber: int, q: Progress, start: Progress, j: nat)
    requires size > 0 && i % size == 0 && i < |requests|
    requires slice == Slice(requests, i, size) && batchNumber == i / size + 1
    requires q == SequentialRun(p, analyze, requests, size, i)
    requires start == Progress(q.out, q.clock + PauseBefore(i, size), q.after)
    requires 1 <= j <= |slice|
    ensures SliceRun(start, analyze, slice, batchNumber, j) == SequentialRun(p, analyze, requests, size, i + j)
    decreases j
  {
    DivModShift(i, size, j - 1);
    assert slice[j - 1] == requests[i + j - 1];
    var before := SliceRun(start, analyze, slice, batchNumber, j - 1);
    var t := SequentialRun(p, analyze, requests, size, i + j - 1);
    if j == 1 {
      assert before == start && t == q;
    } else {
      SliceRunInBatch(p, analyze, requests, size, i, slice, batchNumber, q, start, j - 1);
      assert before == t && PauseBefore(i + j - 1, size) == 0;
    }
  }

  /** The service: its cache and the tracker and limiter it shares. */
  class AnalysisService {
    const defaultPrompt: string
    const tracker: CostTracking.CostTracker
    const limiter: RateLimiting.RateLimiter
    const cacheEnabled: bool
    const maxRetries: int
    const retryDelay: int
    var cache: map<string, Analysis>

    /** The parts are valid, and the cache holds only fresh results, never
        ones marked as served from it. */
    ghost predicate Valid()
      reads this, tracker, limiter
    {
      && tracker.Valid() && limiter.Valid()
      && forall key :: key in cache ==> !cache[key].cached
    }

    constructor (tracker: CostTracking.CostTracker, limiter: RateLimiting.RateLimiter,
                 cacheEnabled: bool, maxRetries: int, retryDelay: int)
      requires tracker.Valid() && limiter.Valid()
      ensures Valid() && cache == map[]
      ensures this.tracker == tracker && this.limiter == limiter && this.cacheEnabled == cacheEnabled
      ensures this.maxRetries == maxRetries && this.retryDelay == retryDelay
      ensures defaultPrompt == DefaultPrompt
    {
      defaultPrompt := DefaultPrompt;
      this.tracker := tracker;
      this.limiter := limiter;
      this.cacheEnabled := cacheEnabled;
      this.maxRetries := maxRetries;
      this.retryDelay := retryDelay;
      cache := map[];
    }

    /** The state the service's fields hold. */
    function State(): ServiceState
      reads this, tracker, limiter
    {
      ServiceState(cache, tracker.State(), limiter.requests)
    }

    function Config(): Settings {
      Settings(defaultPrompt, cacheEnabled, maxRetries, retryDelay, tracker.config, limiter.requestsPerMinute)
    }

    /** `analyzeStatement`, started at clock reading `now`, where `dateOf`
        gives the local date text of a clock reading: the result or the error
        thrown, the number of API calls made, and the clock reading when it is
        done (after the throttle's waits and the retries' delays). */
    method AnalyzeStatement(st: Statement, now: int, dateOf: int -> string, api: (ApiRequest, nat) -> ApiResponse)
      returns (r: Result<Analysis>, calls: nat, finish: int)
      requires Valid()
      requires forall t :: t in limiter.requests ==> t <= now
      modifies this, tracker, limiter
      ensures Valid()
      ensures var step := Analyze(old(State()), Config(), st, now, dateOf, CallRun(Config(), st, api));
        r == AsResult(step.outcome) && calls == step.calls && finish == step.finish && State() == step.after
      ensures finish >= now && forall t :: t in limiter.requests ==> t <= finish
    {
      ghost var s := State();
      AnalyzeClock(s, Config(), st, now, dateOf, CallRun(Config(), st, api));
      var key := CacheKey(st.prompt, st.base64Data, st.model);
      if cacheEnabled && key in cache {
        r := Ok(cache[key].(cached := true, processingTime := 0));
        calls := 0;
        finish := now;
        return;
      }
      var at, waits := limiter.Throttle(now);
      r, calls, finish := CallAndRecord(s, st, now, at, dateOf, api);
    }

    /** The part of `analyzeStatement` after the throttle: the retried call,
        then the ledger and the cache. */
    method CallAndRecord(ghost s: ServiceState, st: Statement, now: int, at: int, dateOf: int -> string,
                         api: (ApiRequest, nat) -> ApiResponse)
      returns (r: Result<Analysis>, calls: nat, finish: int)
      requires Valid()
      requires s.cache == cache && s.ledger == tracker.State() && limiter.requests == RateLimiting.Prune(s.window, at) + [at]
      modifies this, tracker
      ensures Valid()
      ensures var step := Throttled(s, Config(), st, now, at, CallRun(Config(), st, api), dateOf);
        r == AsResult(step.outcome) && calls == step.calls && finish == step.finish && State() == step.after
    {
      ghost var run := CallRun(Config(), st, api);
      var outcome, n, delays := Retry.RetryWithBackoff(Attempts(api, RequestFor(Config(), st)), maxRetries, retryDelay);
      calls := n;
      finish := at + Slept(delays);
      var read := ReadReply(outcome);
      ThrottledAnswers(s, Config(), st, now, at, run, Retry.Run(outcome, calls, delays), dateOf, finish, read,
                       cache, tracker.State(), limiter.requests);
      if read.Unread? {
        r := Err(read.message);
        return;
      }
      r := Record(st, read.text, read.usage, calls, now, finish, dateOf(finish));
    }

    /** Charging the ledger for an answered call started at `start`, on the
        local date `today` at `finish`, and caching the result. */
    method Record(st: Statement, content: string, usage: Option<TokenUsage>, calls: nat, start: int, finish: int, today: string)
      returns (r: Result<Analysis>)
      requires Valid()
      modifies this, tracker
      ensures Valid()
      ensures var step := Settle(old(cache), old(tracker.State()), limiter.requests, Config(), st, content, usage,
                                 calls, start, finish, today);
        r == AsResult(step.outcome) && State() == step.after
    {
      var costInfo := tracker.TrackUsage(InputTokens(usage), OutputTokens(usage), st.model, today, finish);
      if costInfo.Err? {
        r := Err(costInfo.message);
        return;
      }
      var result := Analysis(content, usage, costInfo.value, ModelLabel(st.model), false,
                             PromptOr(st.prompt, defaultPrompt), finish - start, finish);
      if cacheEnabled {
        var key := CacheKey(st.prompt, st.base64Data, st.model);
        cache := cache[key := result];
      }
      r := Ok(result);
    }

    /** One item of a batch: the entry for what `analyzeStatement` returned or
        threw, and the clock reading when it is done. */
    method AnalyzeItem(item: BatchItem, batchNumber: int, index: int, model: string,
                       now: int, dateOf: int -> string, api: (ApiRequest, nat) -> ApiResponse)
      returns (entry: ItemResult, finish: int)
      requires Valid()
      requires forall t :: t in limiter.requests ==> t <= now
      modifies this, tracker, limiter
      ensures Valid()
      ensures var step := ItemAnalyzer(Config(), model, dateOf, api)(old(State()), item, now);
        entry == ItemEntry(step, item, batchNumber, index) && finish == step.finish && State() == step.after
      ensures entry.ItemFailed? ==> entry.requestId == RequestId(item, batchNumber, index)
      ensures finish >= now && forall t :: t in limiter.requests ==> t <= finish
    {
      ItemAnalyzerApplies(Config(), model, dateOf, api, State(), item, now);
      var r, _, done := AnalyzeStatement(ItemStatement(Config(), item, model), now, dateOf, api);
      entry := if r.Ok? then Analyzed(r.value) else ItemFailed(r.message, RequestId(item, batchNumber, index));
      finish := done;
    }

    /** One slice of `analyzeStatementsBatch`: every item in order, a failure
        turned into an entry carrying its request id. */
    method AnalyzeSlice(batch: seq<BatchItem>, batchNumber: int, model: string,
                        now: int, dateOf: int -> string, api: (ApiRequest, nat) -> ApiResponse)
      returns (out: seq<ItemResult>, finish: int)
      requires Valid()
      requires forall t :: t in limiter.requests ==> t <= now
      modifies this, tracker, limiter
      ensures Valid()
      ensures Progress(out, finish, State())
        == SliceRun(Progress([], now, old(State())), ItemAnalyzer(Config(), model, dateOf, api), batch, batchNumber, |batch|)
      ensures finish >= now && forall t :: t in limiter.requests ==> t <= finish
      ensures |out| == |batch|
      ensures forall index :: 0 <= index < |out| && out[index].ItemFailed? ==>
                out[index].requestId == RequestId(batch[index], batchNumber, index)
    {
      ghost var p0 := Progress([], now, State());
      ghost var analyze := ItemAnalyzer(Config(), model, dateOf, api);
      out := [];
      var clock := now;
      var index := 0;
      while index < |batch|
        invariant 0 <= index <= |batch| && |out| == index
        invariant Valid()
        invariant Progress(out, clock, State()) == SliceRun(p0, analyze, batch, batchNumber, index)
        invariant clock >= now && forall t :: t in limiter.requests ==> t <= clock
      {
        ghost var prev := Progress(out, clock, State());
        SliceAdvance(p0, analyze, batch, batchNumber, index, prev);
        var entry, done := AnalyzeItem(batch[index], batchNumber, index, model, clock, dateOf, api);
        clock := done;
        out := out + [entry];
        index := index + 1;
      }
      SliceRunIds(p0, analyze, batch, batchNumber, |batch|, out);
      finish := clock;
    }

    /** `analyzeStatementsBatch`, one item after another. Returns one result
        per request, the pauses made between batches, and the clock reading
        when it is done. */
    method AnalyzeStatementsBatch(requests: seq<BatchItem>, model: string, batchSize: int,
                                  now: int, dateOf: int -> string, api: (ApiRequest, nat) -> ApiResponse)
      returns (results: seq<ItemResult>, pauses: seq<int>, finish: int)
      requires Valid()
      requires batchSize > 0 || requests == []
      requires forall t :: t in limiter.requests ==> t <= now
      modifies this, tracker, limiter
      ensures Valid()
      ensures batchSize > 0 ==>
        Progress(results, finish, State())
        == BatchesFrom(Progress([], now, old(State())), ItemAnalyzer(Config(), model, dateOf, api), requests, batchSize,
                       0, 1)
      ensures requests == [] ==> results == [] && finish == now && State() == old(State())
      ensures finish >= now && forall t :: t in limiter.requests ==> t <= finish
      ensures |results| == |requests|
      ensures forall k :: 0 <= k < |results| && results[k].ItemFailed? ==>
                results[k].requestId == RequestId(requests[k], k / batchSize + 1, k % batchSize)
      ensures requests == [] ==> pauses == []
      ensures requests != [] ==> |pauses| == CeilDiv(|requests|, batchSize) - 1
      ensures forall k :: 0 <= k < |pauses| ==> pauses[k] == BatchPauseMs
    {
      ghost var p0 := Progress([], now, State());
      ghost var analyze := ItemAnalyzer(Config(), model, dateOf, api);
      ghost var target := if batchSize > 0 then BatchesFrom(p0, analyze, requests, batchSize, 0, 1) else p0;
      results, pauses := [], [];
      var clock := now;
      var i := 0;
      ghost var m: nat := 0;
      ghost var settled := now;
      while i < |requests|
        invariant Valid()
        invariant clock >= now
        invariant BatchLoop(requests, batchSize, i, m, results, pauses, settled, clock, State(), target, analyze)
        invariant requests == [] ==> clock == now && State() == p0.after
        decreases |requests| - i
      {
        var batch := Slice(requests, i, batchSize);
        var batchNumber := i / batchSize + 1;
        ghost var s := State();
        var out, done := AnalyzeSlice(batch, batchNumber, model, clock, dateOf, api);
        ghost var iBefore, mBefore, resultsBefore, pausesBefore := i, m, results, pauses;
        ghost var settledBefore, clockBefore := settled, clock;
        clock := done;
        if i + batchSize < |requests| {
          pauses := pauses + [BatchPauseMs];
          clock := clock + BatchPauseMs;
        }
        results := results + out;
        settled := done;
        i := i + batchSize;
        m := m + 1;
        BatchLoopStep(requests, batchSize, iBefore, mBefore, resultsBefore, pausesBefore, settledBefore, clockBefore,
                      s, target, analyze, out, done, State(), i, m, results, pauses, clock);
      }
      if batchSize > 0 {
        BatchLoopDone(requests, batchSize, i, m, results, pauses, settled, clock, State(), p0, analyze);
      } else {
        BatchDone(requests, batchSize, i, m, results, pauses);
      }
      finish := clock;
    }
  }
}
