/** `BountyClient`, the blocking client. Its settings are fixed at
    construction; each call sends its request through a scripted transport
    (one `Attempt` per try) and reports the sleeps and requests it made. */
module Client {
  import opened Wrappers
  import opened JsonValues
  import opened Errors
  import opened Models
  import opened Requests
  import opened Retry
  import opened Responses

  class BountyClient {
    const baseUrl: string
    const walletAddress: Option<string>
    const maxRetries: int

    constructor(baseUrl: Option<string>, walletAddress: Option<string>, maxRetries: int)
      ensures this.baseUrl == NormalizeBaseUrl(baseUrl)
      ensures this.walletAddress == walletAddress && this.maxRetries == maxRetries
    {
      this.baseUrl := NormalizeBaseUrl(baseUrl);
      this.walletAddress := walletAddress;
      this.maxRetries := maxRetries;
    }

    /** `_request`: up to `max_retries` attempts of the same request; `sleeps`
        holds the backoff multipliers of `retry_delay` slept between them. */
    method Request(verb: string, path: string, data: Option<map<string, Json>>, script: seq<Attempt>)
      returns (r: Result<Json, Failure>, sleeps: seq<nat>, calls: seq<Call>)
      requires maxRetries <= |script|
      ensures var run := RunAll(Blocking, script, maxRetries);
        && r == run.result && sleeps == run.sleeps
        && calls == Calls(Call(verb, baseUrl + path, BlockingBody(data)), run.attempts)
    {
      var call := Call(verb, baseUrl + path, BlockingBody(data));
      sleeps, calls := [], [];
      var attempt: nat := 0;
      while attempt < maxRetries
        invariant attempt <= if maxRetries < 0 then 0 else maxRetries
        invariant calls == Calls(call, attempt)
        invariant RunAll(Blocking, script, maxRetries)
          == var rest := RunFrom(Blocking, script, maxRetries, attempt); rest.(sleeps := sleeps + rest.sleeps)
        decreases maxRetries - attempt
      {
        calls := calls + [call];
        var step := StepOf(Blocking, script[attempt], attempt == maxRetries - 1);
        if step.Done? {
          RunFromUnfold(Blocking, script, maxRetries, attempt);
          return step.result, sleeps, calls;
        }
        RetryAdvances(Blocking, script, maxRetries, attempt, sleeps);
        sleeps := sleeps + [attempt + 1];
        attempt := attempt + 1;
      }
      r := Err(BoardError(MaxRetriesExceeded));
    }

    /** `list_bounties(status, tags)`: `GET /bounties`, mapped and filtered. */
    method ListBounties(status: string, tags: seq<string>, script: seq<Attempt>)
      returns (r: Result<seq<Bounty>, Failure>, sleeps: seq<nat>, calls: seq<Call>)
      requires maxRetries <= |script|
      ensures var run := RunAll(Blocking, script, maxRetries);
        && r == Listed(run.result, status, tags) && sleeps == run.sleeps
        && calls == Calls(Call("GET", baseUrl + "/bounties", None), run.attempts)
    {
      var res;
      res, sleeps, calls := Request("GET", "/bounties", None, script);
      r := Listed(res, status, tags);
    }

    /** `discover(tags)`: `list_bounties` restricted to open bounties. */
    method Discover(tags: seq<string>, script: seq<Attempt>)
      returns (r: Result<seq<Bounty>, Failure>, sleeps: seq<nat>, calls: seq<Call>)
      requires maxRetries <= |script|
      ensures var run := RunAll(Blocking, script, maxRetries);
        && r == Listed(run.result, "open", tags) && sleeps == run.sleeps
        && calls == Calls(Call("GET", baseUrl + "/bounties", None), run.attempts)
      ensures r.Ok? ==> forall b :: b in r.value ==> b.status == "open"
    {
      r, sleeps, calls := ListBounties("open", tags, script);
    }

    /** `get_bounty(id)`: `GET /bounties/{id}`, mapped by `Bounty.from_dict`. */
    method GetBounty(bountyId: string, script: seq<Attempt>)
      returns (r: Result<Bounty, Failure>, sleeps: seq<nat>, calls: seq<Call>)
      requires maxRetries <= |script|
      ensures var run := RunAll(Blocking, script, maxRetries);
        && r == Decoded(run.result, BountyFromDict) && sleeps == run.sleeps
        && calls == Calls(Call("GET", baseUrl + BountyPath(bountyId), None), run.attempts)
    {
      var res;
      res, sleeps, calls := Request("GET", BountyPath(bountyId), None, script);
      r := Decoded(res, BountyFromDict);
    }

    /** `claim_bounty(id, wallet)`: without an address nothing is sent;
        otherwise `POST /bounties/{id}/claim` with the address. */
    method ClaimBounty(bountyId: string, wallet: Option<string>, script: seq<Attempt>)
      returns (r: Result<ClaimResult, Failure>, sleeps: seq<nat>, calls: seq<Call>)
      requires maxRetries <= |script|
      ensures ResolveAddress(wallet, walletAddress).Err? ==> r == Err(AddressRequired) && sleeps == [] && calls == []
      ensures ResolveAddress(wallet, walletAddress).Ok? ==>
        var address, run := ResolveAddress(wallet, walletAddress).value, RunAll(Blocking, script, maxRetries);
        && r == Decoded(run.result, ClaimResultFromDict) && sleeps == run.sleeps
        && calls == Calls(Call("POST", baseUrl + ClaimPath(bountyId), Some(JObj(ClaimPayload(address)))), run.attempts)
    {
      var resolved := ResolveAddress(wallet, walletAddress);
      if resolved.Err? {
        return Err(AddressRequired), [], [];
      }
      var payload := ClaimPayload(resolved.value);
      assert "address" in payload;
      var res;
      res, sleeps, calls := Request("POST", ClaimPath(bountyId), Some(payload), script);
      r := Decoded(res, ClaimResultFromDict);
    }

    /** `submit_bounty(id, submission, proof, wallet)`: without an address
        nothing is sent; otherwise `POST /bounties/{id}/submit`. */
    method SubmitBounty(bountyId: string, submission: string, proof: Option<string>, wallet: Option<string>, script: seq<Attempt>)
      returns (r: Result<SubmitResult, Failure>, sleeps: seq<nat>, calls: seq<Call>)
      requires maxRetries <= |script|
      ensures ResolveAddress(wallet, walletAddress).Err? ==> r == Err(AddressRequired) && sleeps == [] && calls == []
      ensures ResolveAddress(wallet, walletAddress).Ok? ==>
        var address, run := ResolveAddress(wallet, walletAddress).value, RunAll(Blocking, script, maxRetries);
        && r == Decoded(run.result, SubmitResultFromDict) && sleeps == run.sleeps
        && calls == Calls(Call("POST", baseUrl + SubmitPath(bountyId), Some(JObj(SubmitPayload(address, submission, proof)))), run.attempts)
    {
      var resolved := ResolveAddress(wallet, walletAddress);
      if resolved.Err? {
        return Err(AddressRequired), [], [];
      }
      var payload := SubmitPayload(resolved.value, submission, proof);
      assert "address" in payload;
      var res;
      res, sleeps, calls := Request("POST", SubmitPath(bountyId), Some(payload), script);
      r := Decoded(res, SubmitResultFromDict);
    }

    /** `get_stats()`: `GET /stats`, mapped by `Stats.from_dict`. */
    method GetStats(script: seq<Attempt>)
      returns (r: Result<Stats, Failure>, sleeps: seq<nat>, calls: seq<Call>)
      requires maxRetries <= |script|
      ensures var run := RunAll(Blocking, script, maxRetries);
        && r == Decoded(run.result, StatsFromDict) && sleeps == run.sleeps
        && calls == Calls(Call("GET", baseUrl + "/stats", None), run.attempts)
    {
      var res;
      res, sleeps, calls := Request("GET", "/stats", None, script);
      r := Decoded(res, StatsFromDict);
    }
  }
}
