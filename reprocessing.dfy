// The retry coordinator: a failed verdict is sent back to the vision model
// with enhanced prompts, at most twice, and the new extraction is checked
// again; several pages are tried in turn until one of them succeeds.

module Reprocessing {
  import opened Wrappers
  import opened Text
  import opened Values
  import opened Validators
  import opened RetryStrategy

  /** A page image, known only by a handle: its pixels are not modelled. */
  type Image = nat

  /** The sampling settings a retry asks the model for. */
  const RetryTemperature: real := 0.05
  const RetryMaxTokens: nat := 2500

  /** One call of the vision model. */
  datatype Request = Request(
    image: Image,
    systemPrompt: string,
    userPrompt: string,
    temperature: real,
    maxTokens: nat)

  /** The dictionary `analyze_image` returns. */
  datatype ModelResult = ModelResult(
    success: bool,
    data: Option<Record>,
    error: Option<string>,
    rawResponse: Option<string>,
    tokenUsage: Option<Value>)

  /** A call either returns a result or raises an exception. */
  datatype Response = Returned(result: ModelResult) | Raised(message: string)

  /** The vision model, as a function of the request. */
  type Model = Request -> Response

  /** What the coordinator uses of the retry strategy and of the record
      check: whether to retry, the category of the errors, the two prompts of
      attempt `n`, and the check of a new extraction. The retry chain is
      defined, and its properties proved, for any such policy. */
  datatype Policy = Policy(
    shouldRetry: Verdict -> bool,
    classify: seq<string> -> string,
    systemPrompt: (string, int) -> string,
    userPrompt: (string, seq<string>) -> string,
    check: Record -> Verdict)

  /** The program's retry strategy (`should_retry`, `classify_errors` and the
      retry prompts of the strategy table) with the record check `check`. */
  function StrategyPolicy(check: Record -> Verdict): Policy {
    Policy(
      v => ShouldRetry(v),
      errors => ClassifyErrors(errors),
      (system, n) => RetrySystemPrompt(system, n),
      (user, errors) => EnhancedUserPrompt(user, errors),
      check)
  }

  /** The program's own policy: its strategy with `validate_extracted_data`. */
  function Program(conv: Conversions): Policy {
    StrategyPolicy(d => Validate(conv, d))
  }

  /** The dictionary `reprocess_with_enhanced_prompt` returns; a key that is
      absent, or `None`, is `None` here. `originalErrors` is always set. */
  datatype Outcome = Outcome(
    success: bool,
    data: Option<Record>,
    error: Option<string>,
    retryAttempted: Option<bool>,
    retrySucceeded: Option<bool>,
    retryAttempt: Option<int>,
    retryStrategy: Option<string>,
    originalErrors: seq<string>,
    finalValidationErrors: Option<seq<string>>,
    retryWarnings: Option<seq<string>>,
    rawResponse: Option<string>,
    tokenUsage: Option<Value>)

  /** An outcome together with the model calls made to reach it, in order. */
  datatype Run = Run(outcome: Outcome, calls: seq<Request>)

  const NotApplicableError := "Validation failed and automatic retry not applicable"

  /** `result.get('error')` in an f-string. */
  function ShownError(error: Option<string>): string {
    match error
    case None => "None"
    case Some(e) => e
  }

  function AttemptFailedError(n: int, error: Option<string>): string {
    "Reprocessing attempt " + IntToString(n) + " failed: " + ShownError(error)
  }

  function ExceptionError(message: string): string {
    "Reprocessing failed: " + message
  }

  /** `result.get("data")` is truthy: an extraction that is a non-empty object. */
  predicate HasData(r: ModelResult) {
    r.data.Some? && r.data.value != map[]
  }

  /** The request of attempt `n` for a verdict with the given errors. */
  function RetryRequest(p: Policy, image: Image, system: string, user: string, errors: seq<string>, n: int): Request {
    Request(image, p.systemPrompt(system, n), p.userPrompt(user, errors), RetryTemperature, RetryMaxTokens)
  }

  /** The outcome when the verdict is not worth a retry. */
  function NotApplicable(v: Verdict): Outcome {
    Outcome(false, None, Some(NotApplicableError), Some(false), None, None, None, v.errors, None, None, None, None)
  }

  /** The outcome of an attempt that ended without usable data. */
  function Failed(n: int, kind: string, v: Verdict, error: string): Outcome {
    Outcome(false, None, Some(error), None, Some(false), Some(n), Some(kind), v.errors, None, None, None, None)
  }

  /** The model's dictionary, before the coordinator adds its keys. */
  function FromModel(r: ModelResult): Outcome {
    Outcome(r.success, r.data, r.error, None, None, None, None, [], None, None, r.rawResponse, r.tokenUsage)
  }

  /** The model's dictionary once the new verdict passed. */
  function Succeeded(r: ModelResult, nv: Verdict, n: int, kind: string, v: Verdict): Outcome {
    FromModel(r).(
      data := Some(nv.correctedData),
      retrySucceeded := Some(true),
      retryAttempt := Some(n),
      retryStrategy := Some(kind),
      originalErrors := v.errors,
      retryWarnings := if nv.warnings != [] then Some(nv.warnings) else None)
  }

  /** The model's dictionary once the last allowed attempt still failed. */
  function Exhausted(r: ModelResult, nv: Verdict, n: int, kind: string, v: Verdict): Outcome {
    FromModel(r).(
      retrySucceeded := Some(false),
      retryAttempt := Some(n),
      retryStrategy := Some(kind),
      finalValidationErrors := Some(nv.errors),
      originalErrors := v.errors)
  }

  /** The retry chain from attempt `n` for the verdict `v`. */
  function Reprocess(p: Policy, model: Model, image: Image, system: string, user: string,
                     v: Verdict, n: int): Run
    decreases if n < MaxRetries then MaxRetries - n else 0
  {
    if !p.shouldRetry(v) then Run(NotApplicable(v), [])
    else
      var kind := p.classify(v.errors);
      var request := RetryRequest(p, image, system, user, v.errors, n);
      match model(request)
      case Raised(m) => Run(Failed(n, kind, v, ExceptionError(m)), [request])
      case Returned(r) =>
        if r.success && HasData(r) then
          var nv := p.check(r.data.value);
          if nv.isValid then Run(Succeeded(r, nv, n, kind, v), [request])
          else if n < MaxRetries then
            var rest := Reprocess(p, model, image, system, user, nv, n + 1);
            Run(rest.outcome, [request] + rest.calls)
          else Run(Exhausted(r, nv, n, kind, v), [request])
        else Run(Failed(n, kind, v, AttemptFailedError(n, r.error)), [request])
  }

  /** `reprocess_with_enhanced_prompt`, with the strategy and the record
      check of `p` (the program's own are `Program(conv)`). */
  method ReprocessWithEnhancedPrompt(p: Policy, model: Model, image: Image, system: string, user: string,
                                     v: Verdict, n: int)
    returns (outcome: Outcome, calls: seq<Request>)
    ensures Run(outcome, calls) == Reprocess(p, model, image, system, user, v, n)
    decreases if n < MaxRetries then MaxRetries - n else 0
  {
    if !p.shouldRetry(v) {
      return NotApplicable(v), [];
    }
    var errorType := p.classify(v.errors);
    var enhancedSystem := p.systemPrompt(system, n);
    var enhancedUser := p.userPrompt(user, v.errors);
    var request := Request(image, enhancedSystem, enhancedUser, RetryTemperature, RetryMaxTokens);
    calls := [request];
    var response := model(request);
    match response
    case Raised(m) =>
      outcome := Failed(n, errorType, v, ExceptionError(m));
    case Returned(result) =>
      if result.success && HasData(result) {
        var newValidation := p.check(result.data.value);
        if newValidation.isValid {
          outcome := FromModel(result);
          outcome := outcome.(data := Some(newValidation.correctedData));
          outcome := outcome.(retrySucceeded := Some(true));
          outcome := outcome.(retryAttempt := Some(n));
          outcome := outcome.(retryStrategy := Some(errorType));
          outcome := outcome.(originalErrors := v.errors);
          if newValidation.warnings != [] {
            outcome := outcome.(retryWarnings := Some(newValidation.warnings));
          }
        } else if n < MaxRetries {
          var more;
          outcome, more := ReprocessWithEnhancedPrompt(p, model, image, system, user, newValidation, n + 1);
          calls := calls + more;
        } else {
          outcome := FromModel(result);
          outcome := outcome.(retrySucceeded := Some(false));
          outcome := outcome.(retryAttempt := Some(n));
          outcome := outcome.(retryStrategy := Some(errorType));
          outcome := outcome.(finalValidationErrors := Some(newValidation.errors));
          outcome := outcome.(originalErrors := v.errors);
        }
      } else {
        outcome := Failed(n, errorType, v, AttemptFailedError(n, result.error));
      }
  }

  // ---------------------------------------------------------------------------
  // What a retry chain does
  // ---------------------------------------------------------------------------

  /** The verdict on what a call returned, when it returned usable data. */
  function NextVerdict(p: Policy, response: Response): Option<Verdict> {
    match response
    case Raised(_) => None
    case Returned(r) => if r.success && HasData(r) then Some(p.check(r.data.value)) else None
  }

  /** The call returned data that passes the check. */
  predicate Passes(p: Policy, response: Response) {
    NextVerdict(p, response).Some? && NextVerdict(p, response).value.isValid
  }

  /** The most calls a chain from attempt `n` may make. */
  function CallBudget(n: int): nat {
    if n < MaxRetries then MaxRetries - n + 1 else 1
  }

  /** No call is made exactly when the verdict is not worth a retry, and a
      chain from attempt `n` makes at most `CallBudget(n)` calls. */
  lemma {:induction false} ReprocessCallCount(p: Policy, model: Model, image: Image, system: string,
                                              user: string, v: Verdict, n: int)
    ensures Reprocess(p, model, image, system, user, v, n).calls == [] <==> !p.shouldRetry(v)
    ensures |Reprocess(p, model, image, system, user, v, n).calls| <= CallBudget(n)
    decreases if n < MaxRetries then MaxRetries - n else 0
  {
    if p.shouldRetry(v) {
      var request := RetryRequest(p, image, system, user, v.errors, n);
      var nv := NextVerdict(p, model(request));
      if nv.Some? && !nv.value.isValid && n < MaxRetries {
        ReprocessCallCount(p, model, image, system, user, nv.value, n + 1);
      }
    }
  }

  /** An outcome either reports that no retry applied, with the fixed error
      and no data, or records an attempt number; a chain that made no call
      is of the first kind, and the attempt number is that of the last call:
      `n` plus the calls made before it. */
  lemma {:induction false} ReprocessAttemptNumber(p: Policy, model: Model, image: Image, system: string,
                                                  user: string, v: Verdict, n: int)
    ensures var run := Reprocess(p, model, image, system, user, v, n);
      (run.outcome.retryAttempt.Some? <==> run.outcome.retryAttempted != Some(false))
      && (run.outcome.retryAttempted == Some(false) ==>
            !run.outcome.success && run.outcome.data == None && run.outcome.error == Some(NotApplicableError))
      && (run.calls == [] ==> run.outcome.retryAttempted == Some(false))
      && (run.outcome.retryAttempt.Some? ==>
            run.calls != [] && run.outcome.retryAttempt.value == n + |run.calls| - 1)
    decreases if n < MaxRetries then MaxRetries - n else 0
  {
    if p.shouldRetry(v) {
      var request := RetryRequest(p, image, system, user, v.errors, n);
      var nv := NextVerdict(p, model(request));
      if nv.Some? && !nv.value.isValid && n < MaxRetries {
        ReprocessAttemptNumber(p, model, image, system, user, nv.value, n + 1);
      }
    }
  }

  /** Call `i` of `calls` goes to `image` with the system prompt of attempt
      `n + i` and the retry's sampling settings. */
  predicate RetryCalls(p: Policy, calls: seq<Request>, image: Image, system: string, n: int) {
    forall i :: 0 <= i < |calls| ==>
      calls[i].image == image && calls[i].systemPrompt == p.systemPrompt(system, n + i)
      && calls[i].temperature == RetryTemperature && calls[i].maxTokens == RetryMaxTokens
  }

  /** Call `i` of a chain from attempt `n` goes to the same page with the
      system prompt of attempt `n + i` and the retry's sampling settings. */
  lemma {:induction false} ReprocessRequests(p: Policy, model: Model, image: Image, system: string,
                                             user: string, v: Verdict, n: int)
    ensures RetryCalls(p, Reprocess(p, model, image, system, user, v, n).calls, image, system, n)
    decreases if n < MaxRetries then MaxRetries - n else 0
  {
    if p.shouldRetry(v) {
      var request := RetryRequest(p, image, system, user, v.errors, n);
      var nv := NextVerdict(p, model(request));
      if nv.Some? && !nv.value.isValid && n < MaxRetries {
        var rest := Reprocess(p, model, image, system, user, nv.value, n + 1);
        ReprocessRequests(p, model, image, system, user, nv.value, n + 1);
        var calls := [request] + rest.calls;
        assert Reprocess(p, model, image, system, user, v, n).calls == calls;
        forall i | 1 <= i < |calls|
          ensures calls[i].systemPrompt == p.systemPrompt(system, n + i)
        {
          assert calls[i] == rest.calls[i - 1];
          assert n + 1 + (i - 1) == n + i;
        }
      }
    }
  }

  /** One step of the chain: a retried verdict makes the request built from
      its own errors; when that call returns data that fails the check and
      attempt `n` is not the last, the rest of the chain is the chain for the
      NEW verdict from attempt `n + 1`, so a second call follows exactly when
      that new verdict is itself worth a retry. */
  lemma ReprocessStep(p: Policy, model: Model, image: Image, system: string,
                      user: string, v: Verdict, n: int)
    requires p.shouldRetry(v)
    ensures var run := Reprocess(p, model, image, system, user, v, n);
      var request := RetryRequest(p, image, system, user, v.errors, n);
      var nv := NextVerdict(p, model(request));
      run.calls != [] && run.calls[0] == request
      && (|run.calls| > 1 <==> nv.Some? && !nv.value.isValid && n < MaxRetries && p.shouldRetry(nv.value))
      && (nv.Some? && !nv.value.isValid && n < MaxRetries ==>
            var rest := Reprocess(p, model, image, system, user, nv.value, n + 1);
            run.outcome == rest.outcome && run.calls[1..] == rest.calls)
  {
    var request := RetryRequest(p, image, system, user, v.errors, n);
    var nv := NextVerdict(p, model(request));
    if nv.Some? && !nv.value.isValid && n < MaxRetries {
      var rest := Reprocess(p, model, image, system, user, nv.value, n + 1);
      ReprocessCallCount(p, model, image, system, user, nv.value, n + 1);
      assert ([request] + rest.calls)[1..] == rest.calls;
    }
  }

  /** With the program's retry strategy (whatever the record check, so in
      particular for `Program(conv)`), the first call of a retried verdict
      goes to the same page with the attempt's system prompt and the user
      prompt enhanced for the category of the verdict's errors, which starts
      with the original user prompt. */
  lemma ProgramFirstRequest(check: Record -> Verdict, model: Model, image: Image, system: string,
                            user: string, v: Verdict, n: int)
    requires ShouldRetry(v)
    ensures var calls := Reprocess(StrategyPolicy(check), model, image, system, user, v, n).calls;
      calls != []
      && calls[0] == Request(image, RetrySystemPrompt(system, n), EnhancedUserPrompt(user, v.errors),
                             RetryTemperature, RetryMaxTokens)
      && StartsWith(calls[0].systemPrompt, system) && StartsWith(calls[0].userPrompt, user)
  {
    ReprocessStep(StrategyPolicy(check), model, image, system, user, v, n);
    RetrySystemPromptExtends(system, n);
    EnhanceKeepsPrompt(RetryStrategies[ClassifyErrors(v.errors)], user, v.errors, v.errors);
  }

  /** A verdict not worth a retry makes no call: the outcome reports a failure
      without a retry and hands back the verdict's errors. */
  lemma NotRetryableNoCall(p: Policy, model: Model, image: Image, system: string,
                           user: string, v: Verdict, n: int)
    requires !p.shouldRetry(v)
    ensures var run := Reprocess(p, model, image, system, user, v, n);
      run.calls == [] && !run.outcome.success && run.outcome.data == None
      && run.outcome.retryAttempted == Some(false) && run.outcome.retrySucceeded == None
      && run.outcome.originalErrors == v.errors
  {
  }

  /** A call that raises, fails or returns no data ends the chain at once,
      without a success and without data. */
  lemma FailureEndsChain(p: Policy, model: Model, image: Image, system: string,
                         user: string, v: Verdict, n: int)
    requires p.shouldRetry(v)
    requires NextVerdict(p, model(RetryRequest(p, image, system, user, v.errors, n))).None?
    ensures var run := Reprocess(p, model, image, system, user, v, n);
      |run.calls| == 1 && !run.outcome.success && run.outcome.data == None
      && run.outcome.retrySucceeded == Some(false) && run.outcome.retryAttempt == Some(n)
      && run.outcome.originalErrors == v.errors && run.outcome.error.Some?
  {
  }

  /** The retry succeeds exactly when the data of the last call passes the
      check; the outcome then carries that check's corrected record. */
  lemma {:induction false} ReprocessSucceeds(p: Policy, model: Model, image: Image, system: string,
                                             user: string, v: Verdict, n: int)
    ensures var run := Reprocess(p, model, image, system, user, v, n);
      (run.outcome.retrySucceeded == Some(true) <==>
         run.calls != [] && Passes(p, model(run.calls[|run.calls| - 1])))
      && (run.outcome.retrySucceeded == Some(true) ==>
         run.outcome.success &&
         run.outcome.data == Some(NextVerdict(p, model(run.calls[|run.calls| - 1])).value.correctedData))
    decreases if n < MaxRetries then MaxRetries - n else 0
  {
    if p.shouldRetry(v) {
      var request := RetryRequest(p, image, system, user, v.errors, n);
      var nv := NextVerdict(p, model(request));
      if nv.Some? && !nv.value.isValid && n < MaxRetries {
        var run := Reprocess(p, model, image, system, user, v, n);
        var rest := Reprocess(p, model, image, system, user, nv.value, n + 1);
        ReprocessStep(p, model, image, system, user, v, n);
        if rest.calls != [] {
          ReprocessSucceeds(p, model, image, system, user, nv.value, n + 1);
          assert run.calls[|run.calls| - 1] == rest.calls[|rest.calls| - 1];
        } else {
          ReprocessCallCount(p, model, image, system, user, nv.value, n + 1);
          assert run.calls == [request];
        }
      }
    }
  }

  /** From the last allowed attempt, the outcome reports the errors of the
      verdict it was given and at most one call is made. */
  lemma LastAttemptOriginalErrors(p: Policy, model: Model, image: Image, system: string,
                                  user: string, v: Verdict, n: int)
    requires n >= MaxRetries
    ensures var run := Reprocess(p, model, image, system, user, v, n);
      run.outcome.originalErrors == v.errors && |run.calls| <= 1
  {
  }

  /** From the first attempt, a chain makes at most `MaxRetries` calls, its
      attempt number lies between 1 and `MaxRetries`, and when it needed
      both calls, the errors it reports as original are those of the second
      call's verdict, not those of the verdict it was given. */
  lemma FirstAttemptChain(p: Policy, model: Model, image: Image, system: string,
                          user: string, v: Verdict)
    ensures var run := Reprocess(p, model, image, system, user, v, 1);
      |run.calls| <= MaxRetries
      && (run.outcome.retryAttempt.Some? ==> 1 <= run.outcome.retryAttempt.value <= MaxRetries)
      && (|run.calls| == 2 ==>
            var nv := NextVerdict(p, model(run.calls[0]));
            nv.Some? && !nv.value.isValid && run.outcome.originalErrors == nv.value.errors)
  {
    var run := Reprocess(p, model, image, system, user, v, 1);
    ReprocessCallCount(p, model, image, system, user, v, 1);
    ReprocessAttemptNumber(p, model, image, system, user, v, 1);
    if |run.calls| == 2 {
      ReprocessStep(p, model, image, system, user, v, 1);
      var nv := NextVerdict(p, model(run.calls[0]));
      var rest := Reprocess(p, model, image, system, user, nv.value, 2);
      assert |rest.calls| == 1;
      LastAttemptOriginalErrors(p, model, image, system, user, nv.value, 2);
    }
  }

  // ---------------------------------------------------------------------------
  // reprocess_multiple_pages
  // ---------------------------------------------------------------------------

  /** A page's outcome that ends the search over the pages. */
  predicate StopsSearch(o: Outcome) {
    o.success && o.retrySucceeded == Some(true)
  }

  /** The chains over the pages, each from the first attempt for the same
      verdict, up to and including the first that succeeds. */
  function Pages(p: Policy, model: Model, images: seq<Image>, system: string, user: string,
                 v: Verdict): seq<Run>
    decreases |images|
  {
    if images == [] then []
    else
      var run := Reprocess(p, model, images[0], system, user, v, 1);
      if StopsSearch(run.outcome) then [run]
      else [run] + Pages(p, model, images[1..], system, user, v)
  }

  function Outcomes(runs: seq<Run>): (outcomes: seq<Outcome>)
    ensures |outcomes| == |runs|
    ensures forall i :: 0 <= i < |runs| ==> outcomes[i] == runs[i].outcome
  {
    seq(|runs|, i requires 0 <= i < |runs| => runs[i].outcome)
  }

  /** All calls of the runs, run after run. */
  function AllCalls(runs: seq<Run>): seq<Request>
    decreases |runs|
  {
    if runs == [] then [] else runs[0].calls + AllCalls(runs[1..])
  }

  /** `reprocess_multiple_pages`. */
  method ReprocessMultiplePages(p: Policy, model: Model, images: seq<Image>, system: string,
                                user: string, v: Verdict)
    returns (results: seq<Outcome>, calls: seq<Request>)
    ensures results == Outcomes(Pages(p, model, images, system, user, v))
    ensures calls == AllCalls(Pages(p, model, images, system, user, v))
  {
    results := [];
    calls := [];
    ghost var done: seq<Run> := [];
    for i := 0 to |images|
      invariant Pages(p, model, images, system, user, v) == done + Pages(p, model, images[i..], system, user, v)
      invariant results == Outcomes(done) && calls == AllCalls(done)
    {
      var result, more := ReprocessWithEnhancedPrompt(p, model, images[i], system, user, v, 1);
      ghost var run := Run(result, more);
      PagesStep(p, model, images, system, user, v, i, done, run);
      OutcomesAppend(done, run);
      AllCallsAppend(done, run);
      done := done + [run];
      results := results + [result];
      calls := calls + more;
      if result.success && result.retrySucceeded == Some(true) {
        break;
      }
    }
    assert images[|images|..] == [];
    assert Pages(p, model, images[|images|..], system, user, v) == [];
    assert done + [] == done;
  }

  /** Once the runs `done` of the pages before `i` are known, the search
      goes on with page `i`: it ends there when that page stops it, and
      otherwise continues with the pages after it. */
  lemma PagesStep(p: Policy, model: Model, images: seq<Image>, system: string, user: string, v: Verdict,
                  i: int, done: seq<Run>, run: Run)
    requires 0 <= i < |images|
    requires Pages(p, model, images, system, user, v) == done + Pages(p, model, images[i..], system, user, v)
    requires run == Reprocess(p, model, images[i], system, user, v, 1)
    ensures StopsSearch(run.outcome) ==> Pages(p, model, images, system, user, v) == done + [run]
    ensures !StopsSearch(run.outcome) ==>
      Pages(p, model, images, system, user, v) == (done + [run]) + Pages(p, model, images[i + 1..], system, user, v)
  {
    assert images[i..][0] == images[i] && images[i..][1..] == images[i + 1..];
    if !StopsSearch(run.outcome) {
      assert done + ([run] + Pages(p, model, images[i + 1..], system, user, v))
          == (done + [run]) + Pages(p, model, images[i + 1..], system, user, v);
    }
  }

  lemma OutcomesAppend(runs: seq<Run>, run: Run)
    ensures Outcomes(runs + [run]) == Outcomes(runs) + [run.outcome]
  {
    assert Outcomes(runs + [run]) == Outcomes(runs) + [run.outcome];
  }

  lemma {:induction false} AllCallsAppend(runs: seq<Run>, run: Run)
    ensures AllCalls(runs + [run]) == AllCalls(runs) + run.calls
    decreases |runs|
  {
    if runs == [] {
      assert [run][1..] == [];
    } else {
      assert (runs + [run])[1..] == runs[1..] + [run];
      AllCallsAppend(runs[1..], run);
    }
  }

  /** The search yields one run per page it tried, at least one when there
      are pages. */
  lemma {:induction false} PagesLength(p: Policy, model: Model, images: seq<Image>, system: string,
                                       user: string, v: Verdict)
    ensures var runs := Pages(p, model, images, system, user, v);
      |runs| <= |images| && (images != [] ==> runs != [])
    decreases |images|
  {
    if images != [] {
      PagesLength(p, model, images[1..], system, user, v);
    }
  }

  /** Page `j` is tried from the first attempt with the verdict the search
      was given. */
  lemma {:induction false} PagesRuns(p: Policy, model: Model, images: seq<Image>, system: string,
                                     user: string, v: Verdict)
    ensures var runs := Pages(p, model, images, system, user, v);
      |runs| <= |images|
      && forall j :: 0 <= j < |runs| ==> runs[j] == Reprocess(p, model, images[j], system, user, v, 1)
    decreases |images|
  {
    PagesLength(p, model, images, system, user, v);
    if images != [] {
      var run := Reprocess(p, model, images[0], system, user, v, 1);
      if !StopsSearch(run.outcome) {
        var rest := Pages(p, model, images[1..], system, user, v);
        PagesRuns(p, model, images[1..], system, user, v);
        var runs := [run] + rest;
        forall j | 1 <= j < |runs|
          ensures runs[j] == Reprocess(p, model, images[j], system, user, v, 1)
        {
          assert runs[j] == rest[j - 1];
          assert images[1..][j - 1] == images[j];
        }
      }
    }
  }

  /** No page before the last stops the search, and the search ends early
      only at a page that stops it. */
  lemma {:induction false} PagesStops(p: Policy, model: Model, images: seq<Image>, system: string,
                                      user: string, v: Verdict)
    ensures var runs := Pages(p, model, images, system, user, v);
      (forall j :: 0 <= j < |runs| - 1 ==> !StopsSearch(runs[j].outcome))
      && (0 < |runs| < |images| ==> StopsSearch(runs[|runs| - 1].outcome))
    decreases |images|
  {
    if images != [] {
      var run := Reprocess(p, model, images[0], system, user, v, 1);
      if !StopsSearch(run.outcome) {
        var rest := Pages(p, model, images[1..], system, user, v);
        PagesStops(p, model, images[1..], system, user, v);
        PagesLength(p, model, images[1..], system, user, v);
        var runs := [run] + rest;
        assert forall j :: 1 <= j < |runs| ==> runs[j] == rest[j - 1];
      }
    }
  }

  /** Page `j` is tried from the first attempt with the verdict the search
      was given; no page before the last stops the search; and when no page
      succeeds, every page is tried, in order. */
  lemma PagesShape(p: Policy, model: Model, images: seq<Image>, system: string,
                   user: string, v: Verdict)
    ensures var runs := Pages(p, model, images, system, user, v);
      |runs| <= |images| && (images != [] ==> runs != [])
      && (forall j :: 0 <= j < |runs| ==> runs[j] == Reprocess(p, model, images[j], system, user, v, 1))
      && (forall j :: 0 <= j < |runs| - 1 ==> !StopsSearch(runs[j].outcome))
      && (|runs| < |images| ==> StopsSearch(runs[|runs| - 1].outcome))
  {
    PagesLength(p, model, images, system, user, v);
    PagesRuns(p, model, images, system, user, v);
    PagesStops(p, model, images, system, user, v);
  }

  /** The search calls the model at most `MaxRetries` times per page. */
  lemma {:induction false} PagesCallCount(p: Policy, model: Model, images: seq<Image>, system: string,
                                          user: string, v: Verdict)
    ensures |AllCalls(Pages(p, model, images, system, user, v))| <= MaxRetries * |images|
    decreases |images|
  {
    if images != [] {
      var run := Reprocess(p, model, images[0], system, user, v, 1);
      FirstAttemptChain(p, model, images[0], system, user, v);
      if StopsSearch(run.outcome) {
        assert AllCalls([run]) == run.calls + AllCalls([]);
      } else {
        var rest := Pages(p, model, images[1..], system, user, v);
        PagesCallCount(p, model, images[1..], system, user, v);
        assert ([run] + rest)[1..] == rest;
      }
    }
  }

  // ---------------------------------------------------------------------------
  // create_reprocessing_summary
  // ---------------------------------------------------------------------------

  /** The summary dictionary; an optional field is a key added only on a
      success or only on a failure. */
  datatype Summary = Summary(
    reprocessingAttempted: bool,
    reprocessingSuccessful: bool,
    retryAttempts: int,
    strategyUsed: Option<string>,
    originalErrors: seq<string>,
    finalStatus: string,
    improvementsMade: Option<string>,
    remainingWarnings: Option<seq<string>>,
    finalErrors: Option<seq<string>>,
    recommendation: Option<string>)

  const ImprovementsNote := "Validation issues resolved through enhanced prompting"
  const ManualReviewNote := "Manual review recommended - automatic reprocessing could not resolve validation issues"

  /** `create_reprocessing_summary`. */
  function Summarize(o: Outcome): Summary {
    var attempts := o.retryAttempt.GetOr(0);
    var succeeded := o.retrySucceeded == Some(true);
    var base := Summary(attempts > 0, o.retrySucceeded.GetOr(false), attempts, o.retryStrategy,
                        o.originalErrors, if succeeded then "success" else "failed", None, None, None, None);
    if succeeded then
      base.(improvementsMade := Some(ImprovementsNote),
            remainingWarnings := if o.retryWarnings.Some? && o.retryWarnings.value != [] then o.retryWarnings else None)
    else
      base.(finalErrors := Some(o.finalValidationErrors.GetOr([])), recommendation := Some(ManualReviewNote))
  }

  /** The empty dictionary, summarised when no page outcome exists. */
  const NoOutcome := Outcome(false, None, None, None, None, None, None, [], None, None, None, None)

  /** The summary of a chain from the first attempt: it reports an attempt
      exactly when the outcome is not the no-retry one, and then counts the
      calls made; it says "success" exactly when the data of the last call
      passed, and otherwise carries the final errors and the manual-review
      advice. */
  lemma SummaryOfChain(p: Policy, model: Model, image: Image, system: string,
                       user: string, v: Verdict)
    ensures var run := Reprocess(p, model, image, system, user, v, 1);
      var s := Summarize(run.outcome);
      (s.reprocessingAttempted <==> run.outcome.retryAttempted != Some(false))
      && (s.reprocessingAttempted ==>
            p.shouldRetry(v) && s.retryAttempts == |run.calls| && 1 <= s.retryAttempts <= MaxRetries)
      && (!s.reprocessingAttempted ==> s.retryAttempts == 0 && s.finalStatus == "failed")
      && (s.finalStatus == "success" <==> run.calls != [] && Passes(p, model(run.calls[|run.calls| - 1])))
      && (s.finalStatus == "success" <==> s.improvementsMade == Some(ImprovementsNote))
      && (s.finalStatus != "success" <==> s.recommendation == Some(ManualReviewNote) && s.finalErrors.Some?)
      && s.originalErrors == run.outcome.originalErrors
  {
    ReprocessCallCount(p, model, image, system, user, v, 1);
    ReprocessAttemptNumber(p, model, image, system, user, v, 1);
    ReprocessSucceeds(p, model, image, system, user, v, 1);
    FirstAttemptChain(p, model, image, system, user, v);
  }

  /** A retry whose new verdict is not itself worth a retry ends with the
      no-retry outcome for that new verdict: the call that was made, its
      data and its attempt number are not reported, and the summary counts
      no attempt. */
  lemma LostAttempt(p: Policy, model: Model, image: Image, system: string,
                    user: string, v: Verdict, n: int)
    requires p.shouldRetry(v)
    requires var nv := NextVerdict(p, model(RetryRequest(p, image, system, user, v.errors, n)));
      nv.Some? && !nv.value.isValid && n < MaxRetries && !p.shouldRetry(nv.value)
    ensures var run := Reprocess(p, model, image, system, user, v, n);
      var nv := NextVerdict(p, model(RetryRequest(p, image, system, user, v.errors, n)));
      |run.calls| == 1 && run.outcome == NotApplicable(nv.value)
      && !Summarize(run.outcome).reprocessingAttempted && Summarize(run.outcome).retryAttempts == 0
  {
  }

  /** With the program's retry strategy, a retry whose new extraction fails
      only the amount check is such a lost attempt: the amount message is
      not retryable. */
  lemma ProgramLostAmountAttempt(check: Record -> Verdict, model: Model, image: Image, system: string,
                                 user: string, v: Verdict, n: int)
    requires ShouldRetry(v)
    requires var nv := NextVerdict(StrategyPolicy(check), model(RetryRequest(StrategyPolicy(check), image, system, user, v.errors, n)));
      nv.Some? && !nv.value.isValid && n < MaxRetries && nv.value.errors == [AmountError]
    ensures var run := Reprocess(StrategyPolicy(check), model, image, system, user, v, n);
      var nv := NextVerdict(StrategyPolicy(check), model(RetryRequest(StrategyPolicy(check), image, system, user, v.errors, n)));
      |run.calls| == 1 && run.outcome == NotApplicable(nv.value) && run.outcome.originalErrors == [AmountError]
  {
    var p := StrategyPolicy(check);
    var nv := NextVerdict(p, model(RetryRequest(p, image, system, user, v.errors, n)));
    AmountErrorNotRetryable(nv.value);
    LostAttempt(p, model, image, system, user, v, n);
  }

  /** The empty dictionary summarises as a failure without an attempt. */
  lemma SummaryOfNothing()
    ensures Summarize(NoOutcome) ==
      Summary(false, false, 0, None, [], "failed", None, None, Some([]), Some(ManualReviewNote))
  {
  }

  // ---------------------------------------------------------------------------
  // How the caller picks a result
  // ---------------------------------------------------------------------------

  /** What the caller reports after a search over the pages. */
  datatype Choice = Retried(outcome: Outcome) | Summarized(summary: Summary)

  /** The first outcome whose retry succeeded, or else the summary of the
      last outcome (of the empty dictionary when there is none). */
  function ChooseResult(results: seq<Outcome>): Choice
    decreases |results|
  {
    if results == [] then Summarized(Summarize(NoOutcome))
    else if results[0].retrySucceeded == Some(true) then Retried(results[0])
    else if |results| == 1 then Summarized(Summarize(results[0]))
    else ChooseResult(results[1..])
  }

  /** A retry that succeeded came with a successful model result. */
  lemma SucceededMeansSuccess(p: Policy, model: Model, image: Image, system: string,
                              user: string, v: Verdict, n: int)
    ensures var o := Reprocess(p, model, image, system, user, v, n).outcome;
      o.retrySucceeded == Some(true) ==> StopsSearch(o)
  {
    ReprocessSucceeds(p, model, image, system, user, v, n);
  }

  /** After a search over the pages, the caller takes the last page's
      outcome when its retry succeeded, and otherwise reports the summary of
      the last outcome. */
  lemma ChoiceAfterSearch(p: Policy, model: Model, images: seq<Image>, system: string,
                          user: string, v: Verdict)
    requires images != []
    ensures var runs := Pages(p, model, images, system, user, v);
      var last := runs[|runs| - 1].outcome;
      ChooseResult(Outcomes(runs)) ==
        if last.retrySucceeded == Some(true) then Retried(last) else Summarized(Summarize(last))
  {
    var runs := Pages(p, model, images, system, user, v);
    PagesShape(p, model, images, system, user, v);
    var results := Outcomes(runs);
    forall j | 0 <= j < |results| - 1
      ensures results[j].retrySucceeded != Some(true)
    {
      SucceededMeansSuccess(p, model, images[j], system, user, v, 1);
    }
    ChooseLast(results);
  }

  /** When no outcome before the last succeeded, the caller picks the last. */
  lemma {:induction false} ChooseLast(results: seq<Outcome>)
    requires results != []
    requires forall j :: 0 <= j < |results| - 1 ==> results[j].retrySucceeded != Some(true)
    ensures var last := results[|results| - 1];
      ChooseResult(results) ==
        if last.retrySucceeded == Some(true) then Retried(last) else Summarized(Summarize(last))
    decreases |results|
  {
    if |results| > 1 {
      ChooseLast(results[1..]);
    }
  }
}
