/** The retry loop of `_request`, shared by both clients: what one attempt
    decides, and what a whole run of attempts produces. The two clients differ
    only in how they classify one attempt. */
module Retry {
  import opened Wrappers
  import opened JsonValues
  import opened Text
  import opened Errors

  /** A response body: decoded JSON, or text that is not JSON. */
  datatype Body = Parsed(json: Json) | Malformed(raw: string)

  /** What the transport delivered on one attempt: a response with its final
      status (after redirects), or a fault (connection error, timeout, closed
      session) raised before any response. */
  datatype Attempt = Reply(status: int, body: Body) | TransportFault

  /** The decision taken after one attempt: return or raise, or sleep and try again. */
  datatype Step = Done(result: Result<Json, Failure>) | Retry

  /** Which client runs the loop: `BountyClient` (urllib) or `AsyncBountyClient` (aiohttp). */
  datatype Variant = Blocking | NonBlocking

  /** A transient failure: retried unless this was the last attempt. */
  function Transient(final: bool): Step {
    if final then Done(Err(BoardError(RequestFailed))) else Retry
  }

  predicate MentionsClaimed(error: string) {
    Contains(Lower(error), "claimed")
  }

  /** `BountyAlreadyClaimedError(data.get("claimedBy", "unknown"), data.get("claimedAt", 0))`. */
  function ClaimedError(m: map<string, Json>): Failure {
    AlreadyClaimed(Get(m, "claimedBy", JStr("unknown")), Get(m, "claimedAt", JInt(0)))
  }

  /** The sync client's error body: the decoded JSON, or `{"error": raw}`. */
  function ErrorData(body: Body): Json {
    match body
    case Parsed(j) => j
    case Malformed(raw) => JObj(map["error" := JStr(raw)])
  }

  /** One attempt of `BountyClient._request`. urllib raises `HTTPError` for
      every status outside 2xx; its handler raises, so a `.get` or `.lower` on
      a body of the wrong type escapes as an uncaught exception. */
  function BlockingStep(a: Attempt, final: bool): (s: Step)
    ensures final ==> s.Done?
    ensures s.Retry? <==> !final && (a.TransportFault? || (200 <= a.status < 300 && a.body.Malformed?) || a.status >= 500)
    ensures s.Done? && s.result.Ok? <==> a.Reply? && 200 <= a.status < 300 && a.body.Parsed?
    ensures s.Done? && s.result.Ok? ==> s.result.value == a.body.json
    ensures s.Done? && s.result.Err? && s.result.error.Uncaught? ==> a.Reply? && a.status == 409
    ensures s.Done? && a.Reply? && !(200 <= a.status < 300) && a.status != 409 ==> s.result == Err(BoardError(ApiError(a.status)))
    ensures a.TransportFault? || (200 <= a.status < 300 && a.body.Malformed?) ==> s == Transient(final)
    ensures a.Reply? && a.status == 409
      && !(ErrorData(a.body).JObj? && Get(ErrorData(a.body).fields, "error", JStr("")).JStr?)
      ==> s.Done? && s.result.Err? && s.result.error.Uncaught?
    ensures s != Done(Err(BoardError(MaxRetriesExceeded)))
  {
    match a
    case TransportFault => Transient(final)
    case Reply(status, body) =>
      if 200 <= status < 300 then
        if body.Parsed? then Done(Ok(body.json)) else Transient(final)
      else
        var data := ErrorData(body);
        if status == 409 && !data.JObj? then Done(Err(Uncaught(WrongType("error body"))))
        else if status == 409 && !Get(data.fields, "error", JStr("")).JStr? then Done(Err(Uncaught(WrongType("error"))))
        else if status == 409 && MentionsClaimed(Get(data.fields, "error", JStr("")).s) then Done(Err(ClaimedError(data.fields)))
        else if !final && status >= 500 then Retry
        else Done(Err(BoardError(ApiError(status))))
  }

  /** One attempt of `AsyncBountyClient._request`. The body is decoded before
      the status is looked at, and every exception other than the SDK's own is
      handled like a transport fault. */
  function NonBlockingStep(a: Attempt, final: bool): (s: Step)
    ensures final ==> s.Done?
    ensures s.Retry? <==>
      && !final
      && (|| a.TransportFault? || a.body.Malformed? || a.status >= 500
          || (a.status >= 400 && !a.body.json.JObj?)
          || (a.status == 409 && !Get(a.body.json.fields, "error", JStr("Unknown error")).JStr?))
    ensures s.Done? && s.result.Ok? <==> a.Reply? && a.body.Parsed? && a.status < 400
    ensures s.Done? && s.result.Ok? ==> s.result.value == a.body.json
    ensures s.Done? && s.result.Err? ==> s.result.error.BoardError? || s.result.error.AlreadyClaimed?
    ensures || a.TransportFault? || a.body.Malformed?
            || (a.status >= 400 && !a.body.json.JObj?)
            || (a.status == 409 && !Get(a.body.json.fields, "error", JStr("Unknown error")).JStr?)
      ==> s == Transient(final)
    ensures s != Done(Err(BoardError(MaxRetriesExceeded)))
  {
    match a
    case TransportFault => Transient(final)
    case Reply(status, body) =>
      if body.Malformed? then Transient(final)
      else if status < 400 then Done(Ok(body.json))
      else if !body.json.JObj? then Transient(final)
      else
        var msg := Get(body.json.fields, "error", JStr("Unknown error"));
        if status == 409 && !msg.JStr? then Transient(final)
        else if status == 409 && MentionsClaimed(msg.s) then Done(Err(ClaimedError(body.json.fields)))
        else if !final && status >= 500 then Retry
        else Done(Err(BoardError(ApiError(status))))
  }

  function StepOf(v: Variant, a: Attempt, final: bool): Step {
    match v
    case Blocking => BlockingStep(a, final)
    case NonBlocking => NonBlockingStep(a, final)
  }

  /** The outcome of a run: what `_request` returns or raises, how many
      attempts it made, and the backoff multipliers it slept for. */
  datatype Run = Run(result: Result<Json, Failure>, attempts: nat, sleeps: seq<nat>)

  /** `for attempt in range(max_retries)`, from attempt `k` on; falling out of
      the loop raises "Max retries exceeded". */
  function RunFrom(v: Variant, script: seq<Attempt>, maxRetries: int, k: nat): (r: Run)
    requires maxRetries <= |script|
    ensures r.result == Err(BoardError(MaxRetriesExceeded)) <==> k >= maxRetries
    decreases |script| - k
  {
    if k >= maxRetries then Run(Err(BoardError(MaxRetriesExceeded)), k, [])
    else
      match StepOf(v, script[k], k == maxRetries - 1)
      case Done(r) => Run(r, k + 1, [])
      case Retry =>
        var rest := RunFrom(v, script, maxRetries, k + 1);
        rest.(sleeps := [k + 1] + rest.sleeps)
  }

  /** One turn of the loop: a decision ends the run, a retry sleeps and goes on. */
  lemma RunFromUnfold(v: Variant, script: seq<Attempt>, maxRetries: int, k: nat)
    requires maxRetries <= |script| && k < maxRetries
    ensures var step := StepOf(v, script[k], k == maxRetries - 1);
      && (step.Done? ==> RunFrom(v, script, maxRetries, k) == Run(step.result, k + 1, []))
      && (step.Retry? ==>
            var rest := RunFrom(v, script, maxRetries, k + 1);
            RunFrom(v, script, maxRetries, k) == rest.(sleeps := [k + 1] + rest.sleeps))
  {
  }

  /** A retried attempt hands the run on to the next one, with one more sleep
      recorded: the step the loop of `_request` takes when it goes round. */
  lemma RetryAdvances(v: Variant, script: seq<Attempt>, maxRetries: int, k: nat, sleeps: seq<nat>)
    requires maxRetries <= |script| && k < maxRetries
    requires StepOf(v, script[k], k == maxRetries - 1) == Retry
    ensures var here, next := RunFrom(v, script, maxRetries, k), RunFrom(v, script, maxRetries, k + 1);
      here.(sleeps := sleeps + here.sleeps) == next.(sleeps := (sleeps + [k + 1]) + next.sleeps)
  {
    var next := RunFrom(v, script, maxRetries, k + 1);
    assert sleeps + ([k + 1] + next.sleeps) == (sleeps + [k + 1]) + next.sleeps;
  }

  function RunAll(v: Variant, script: seq<Attempt>, maxRetries: int): (r: Run)
    requires maxRetries <= |script|
    ensures r.attempts <= if maxRetries < 0 then 0 else maxRetries
    ensures r.attempts == 0 <==> maxRetries <= 0
    ensures |r.sleeps| == if r.attempts == 0 then 0 else r.attempts - 1
    ensures r.result == Err(BoardError(MaxRetriesExceeded)) <==> maxRetries <= 0
  {
    if maxRetries > 0 then
      RunFromShape(v, script, maxRetries, 0);
      RunFrom(v, script, maxRetries, 0)
    else
      RunFrom(v, script, maxRetries, 0)
  }

  /** The multipliers of `retry_delay * (attempt + 1)` for the first `n` retries. */
  function Backoff(n: nat): (s: seq<nat>)
    ensures |s| == n && forall i :: 0 <= i < n ==> s[i] == i + 1
  {
    seq(n, i => i + 1)
  }

  // ---- one attempt ----------------------------------------------------------

  /** No classification retries on the last attempt. */
  lemma FinalNeverRetries(v: Variant, a: Attempt)
    ensures StepOf(v, a, true) != Retry
  {
  }

  /** A 409 whose `error` text mentions "claimed" (any letter case). For the
      sync client a body that is not JSON counts as its own error text. */
  predicate ClaimedReply(v: Variant, a: Attempt) {
    && a.Reply? && a.status == 409
    && var data := if v.Blocking? then ErrorData(a.body) else if a.body.Parsed? then a.body.json else JNull;
       data.JObj? && "error" in data.fields && data.fields["error"].JStr?
       && MentionsClaimed(data.fields["error"].s)
  }

  /** A claimed conflict raises `AlreadyClaimed` on that attempt, whether or not
      attempts remain. */
  lemma ClaimedIsNeverRetried(v: Variant, a: Attempt, final: bool)
    requires ClaimedReply(v, a)
    ensures var data := if v.Blocking? then ErrorData(a.body) else a.body.json;
      StepOf(v, a, final) == Done(Err(ClaimedError(data.fields)))
  {
  }

  /** A 5xx is retried while attempts remain. On the last attempt it becomes an
      API error, except that the async client, unable to read the body as a
      JSON object, reports the failure as a failed request. */
  lemma ServerErrorBacksOff(v: Variant, status: int, body: Body, final: bool)
    requires status >= 500
    ensures !final ==> StepOf(v, Reply(status, body), final) == Retry
    ensures final && (v.Blocking? || (body.Parsed? && body.json.JObj?)) ==>
      StepOf(v, Reply(status, body), final) == Done(Err(BoardError(ApiError(status))))
    ensures final && v.NonBlocking? && !(body.Parsed? && body.json.JObj?) ==>
      StepOf(v, Reply(status, body), final) == Done(Err(BoardError(RequestFailed)))
  {
  }

  /** A transport fault is retried while attempts remain, then fails the request. */
  lemma FaultBacksOff(v: Variant, final: bool)
    ensures StepOf(v, TransportFault, final) == if final then Done(Err(BoardError(RequestFailed))) else Retry
  {
  }

  /** In the sync client every 4xx except the claimed conflict fails at once,
      whatever its body; a 409 only escapes uncaught when its body has no
      string `error` to inspect. */
  lemma BlockingClientErrorFailsAtOnce(status: int, body: Body, final: bool)
    requires 400 <= status < 500 && !ClaimedReply(Blocking, Reply(status, body))
    requires status == 409 ==> ErrorData(body).JObj? && Get(ErrorData(body).fields, "error", JStr("")).JStr?
    ensures BlockingStep(Reply(status, body), final) == Done(Err(BoardError(ApiError(status))))
  {
  }

  /** In the async client a 4xx with a JSON-object body fails at once unless it
      is the claimed conflict. */
  lemma NonBlockingClientErrorFailsAtOnce(status: int, m: map<string, Json>, final: bool)
    requires 400 <= status < 500 && !ClaimedReply(NonBlocking, Reply(status, Parsed(JObj(m))))
    requires status == 409 ==> Get(m, "error", JStr("Unknown error")).JStr?
    ensures NonBlockingStep(Reply(status, Parsed(JObj(m))), final) == Done(Err(BoardError(ApiError(status))))
  {
    if status == 409 {
      var msg := Get(m, "error", JStr("Unknown error"));
      if "error" !in m {
        NotContainsWithoutFirstChar(Lower("Unknown error"), "claimed");
      }
      assert !MentionsClaimed(msg.s);
    }
  }

  /** Where the clients differ: a 4xx whose body is not JSON fails the sync
      call at once but is retried by the async client. */
  lemma MalformedClientErrorDiffers(status: int, raw: string)
    requires 400 <= status < 500 && status != 409
    ensures BlockingStep(Reply(status, Malformed(raw)), false) == Done(Err(BoardError(ApiError(status))))
    ensures NonBlockingStep(Reply(status, Malformed(raw)), false) == Retry
  {
  }

  // ---- a whole run ------------------------------------------------------------

  lemma {:induction false} RunFromShape(v: Variant, script: seq<Attempt>, maxRetries: int, k: nat)
    requires maxRetries <= |script| && k < maxRetries
    ensures var run := RunFrom(v, script, maxRetries, k);
      && k < run.attempts <= maxRetries
      && run.sleeps == seq(run.attempts - 1 - k, i => k + i + 1)
      && (forall i :: k <= i < run.attempts - 1 ==> StepOf(v, script[i], false) == Retry)
      && StepOf(v, script[run.attempts - 1], run.attempts == maxRetries) == Done(run.result)
    decreases maxRetries - k
  {
    FinalNeverRetries(v, script[k]);
    if StepOf(v, script[k], k == maxRetries - 1).Retry? {
      RunFromShape(v, script, maxRetries, k + 1);
      var rest := RunFrom(v, script, maxRetries, k + 1);
      assert [k + 1] + seq(rest.attempts - 1 - (k + 1), i => k + 1 + i + 1) == seq(rest.attempts - 1 - k, i => k + i + 1);
    }
  }

  /** A run makes between one and `max_retries` attempts; every attempt but the
      last was retried, the last one decided the result, and the sleeps were
      1, 2, ... units, one per retry. With `max_retries <= 0` nothing is
      attempted and the call fails with "Max retries exceeded". */
  lemma RunShape(v: Variant, script: seq<Attempt>, maxRetries: int)
    requires maxRetries <= |script|
    ensures maxRetries <= 0 ==> RunAll(v, script, maxRetries) == Run(Err(BoardError(MaxRetriesExceeded)), 0, [])
    ensures maxRetries > 0 ==> var run := RunAll(v, script, maxRetries);
      && 1 <= run.attempts <= maxRetries
      && run.sleeps == Backoff(run.attempts - 1)
      && (forall i :: 0 <= i < run.attempts - 1 ==> StepOf(v, script[i], false) == Retry)
      && StepOf(v, script[run.attempts - 1], run.attempts == maxRetries) == Done(run.result)
      && run.result != Err(BoardError(MaxRetriesExceeded))
  {
    if maxRetries > 0 {
      RunFromShape(v, script, maxRetries, 0);
      var run := RunAll(v, script, maxRetries);
      assert seq(run.attempts - 1 - 0, i => 0 + i + 1) == Backoff(run.attempts - 1);
      var a := script[run.attempts - 1];
      match a
      case TransportFault =>
      case Reply(status, body) =>
    }
  }

  /** Conversely, the first attempt that is not retried determines the whole run. */
  lemma RunDeterminedByFirstDecision(v: Variant, script: seq<Attempt>, maxRetries: int, n: nat, r: Result<Json, Failure>)
    requires maxRetries <= |script| && 1 <= n <= maxRetries
    requires forall i :: 0 <= i < n - 1 ==> StepOf(v, script[i], false) == Retry
    requires StepOf(v, script[n - 1], n == maxRetries) == Done(r)
    ensures RunAll(v, script, maxRetries) == Run(r, n, Backoff(n - 1))
  {
    RunShape(v, script, maxRetries);
  }

  /** Once the retried attempts reach a claimed conflict, the run stops there
      with `AlreadyClaimed`: no attempt follows it. */
  lemma ClaimedEndsRun(v: Variant, script: seq<Attempt>, maxRetries: int, k: nat)
    requires maxRetries <= |script| && k < maxRetries
    requires forall i :: 0 <= i < k ==> StepOf(v, script[i], false) == Retry
    requires ClaimedReply(v, script[k])
    ensures var data := if v.Blocking? then ErrorData(script[k].body) else script[k].body.json;
      RunAll(v, script, maxRetries) == Run(Err(ClaimedError(data.fields)), k + 1, Backoff(k))
  {
    ClaimedIsNeverRetried(v, script[k], k + 1 == maxRetries);
    var data := if v.Blocking? then ErrorData(script[k].body) else script[k].body.json;
    RunDeterminedByFirstDecision(v, script, maxRetries, k + 1, Err(ClaimedError(data.fields)));
  }

  /** When every attempt fails transiently (a closed session, say), the run
      makes all `max_retries` attempts, sleeps 1 .. max_retries-1 units, and
      fails the request. */
  lemma TransientRunFails(v: Variant, script: seq<Attempt>, maxRetries: int)
    requires 0 < maxRetries <= |script|
    requires forall i :: 0 <= i < maxRetries ==> StepOf(v, script[i], i == maxRetries - 1) == Transient(i == maxRetries - 1)
    ensures RunAll(v, script, maxRetries) == Run(Err(BoardError(RequestFailed)), maxRetries, Backoff(maxRetries - 1))
  {
    RunDeterminedByFirstDecision(v, script, maxRetries, maxRetries, Err(BoardError(RequestFailed)));
  }

  /** A script in which the transport fails every time. */
  function Faults(n: nat): (s: seq<Attempt>)
    ensures |s| == n && forall i :: 0 <= i < n ==> s[i] == TransportFault
  {
    seq(n, i => TransportFault)
  }

  lemma FaultsFail(v: Variant, n: nat, maxRetries: int)
    requires 0 < maxRetries <= n
    ensures RunAll(v, Faults(n), maxRetries) == Run(Err(BoardError(RequestFailed)), maxRetries, Backoff(maxRetries - 1))
  {
    TransientRunFails(v, Faults(n), maxRetries);
  }

  /** Two 500s and then a success, with three attempts allowed: the result is
      the success, after sleeps of one and two units. */
  lemma TwoServerErrorsThenSuccess(v: Variant, j: Json, e: Body)
    ensures RunAll(v, [Reply(500, e), Reply(500, e), Reply(200, Parsed(j))], 3) == Run(Ok(j), 3, [1, 2])
  {
    var script := [Reply(500, e), Reply(500, e), Reply(200, Parsed(j))];
    ServerErrorBacksOff(v, 500, e, false);
    RunDeterminedByFirstDecision(v, script, 3, 3, Ok(j));
    assert Backoff(2) == [1, 2];
  }

  /** The service's conflict reply to a claim is raised on the first attempt
      with the claimant and claim time it carries; nothing is retried. */
  lemma ConflictRaisedOnFirstAttempt(v: Variant, rest: seq<Attempt>)
    requires |rest| >= 2
    ensures var m := map["error" := JStr("Bounty already claimed"), "claimedBy" := JStr("0xABC"), "claimedAt" := JInt(1700000000000)];
      RunAll(v, [Reply(409, Parsed(JObj(m)))] + rest, 3)
        == Run(Err(AlreadyClaimed(JStr("0xABC"), JInt(1700000000000))), 1, [])
  {
    var m := map["error" := JStr("Bounty already claimed"), "claimedBy" := JStr("0xABC"), "claimedAt" := JInt(1700000000000)];
    var script := [Reply(409, Parsed(JObj(m)))] + rest;
    var lowered := Lower("Bounty already claimed");
    assert lowered[15..22] == "claimed";
    ContainsAt(lowered, "claimed", 15);
    ClaimedEndsRun(v, script, 3, 0);
  }
}
