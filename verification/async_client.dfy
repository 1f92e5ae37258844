/** `AsyncBountyClient`, the aiohttp client. Unlike the blocking client it
    holds state: the HTTP session, opened lazily or by `async with` and
    closed by `close()` or on leaving the `async with` block. A session that
    has been closed but not dropped makes every request fail at the
    transport. */
module AsyncClient {
  import opened Wrappers
  import opened JsonValues
  import opened Errors
  import opened Models
  import opened Requests
  import opened Retry
  import opened Responses

  /** The part of `aiohttp.ClientSession` the client depends on. */
  class Session {
    var closed: bool

    constructor()
      ensures !closed
    {
      closed := false;
    }

    method Close()
      modifies this
      ensures closed
    {
      closed := true;
    }
  }

  /** What the transport delivers through a session: a closed session raises
      before anything is sent, on every attempt. */
  function Delivered(closed: bool, script: seq<Attempt>): (s: seq<Attempt>)
    ensures |s| == |script|
    ensures closed ==> forall i :: 0 <= i < |s| ==> s[i] == TransportFault
    ensures !closed ==> s == script
  {
    if closed then Faults(|script|) else script
  }

  /** Through a closed session every call with at least one attempt fails
      after all its attempts. */
  lemma ClosedSessionFails(script: seq<Attempt>, maxRetries: int)
    requires 0 < maxRetries <= |script|
    ensures RunAll(NonBlocking, Delivered(true, script), maxRetries)
      == Run(Err(BoardError(RequestFailed)), maxRetries, Backoff(maxRetries - 1))
  {
    FaultsFail(NonBlocking, |script|, maxRetries);
  }

  class AsyncBountyClient {
    const baseUrl: string
    const walletAddress: Option<string>
    const maxRetries: int
    var session: Session?

    constructor(baseUrl: Option<string>, walletAddress: Option<string>, maxRetries: int)
      ensures this.baseUrl == NormalizeBaseUrl(baseUrl)
      ensures this.walletAddress == walletAddress && this.maxRetries == maxRetries
      ensures session == null
    {
      this.baseUrl := NormalizeBaseUrl(baseUrl);
      this.walletAddress := walletAddress;
      this.maxRetries := maxRetries;
      session := null;
    }

    /** `__aenter__`: always opens a new session, replacing any held one. */
    method Enter()
      modifies this
      ensures session != null && fresh(session) && !session.closed
    {
      session := new Session();
    }

    /** `__aexit__`: closes the session but keeps holding it. */
    method Exit()
      modifies this, session
      ensures session == old(session)
      ensures session != null ==> session.closed
    {
      if session != null {
        session.Close();
      }
    }

    /** `_ensure_session`: opens a session only when none is held. */
    method EnsureSession()
      modifies this
      ensures old(session) != null ==> session == old(session)
      ensures old(session) == null ==> session != null && fresh(session) && !session.closed
    {
      if session == null {
        session := new Session();
      }
    }

    /** `close()`: closes the held session, if any, and drops it. */
    method Close()
      modifies this, session
      ensures session == null
      ensures old(session) != null ==> old(session).closed
    {
      if session != null {
        session.Close();
        session := null;
      }
    }

    /** `_request`: ensures a session, then up to `max_retries` attempts of the
        same request; `sleeps` holds the backoff multipliers of `retry_delay`. */
    method Request(verb: string, path: string, data: Option<map<string, Json>>, script: seq<Attempt>)
      returns (r: Result<Json, Failure>, sleeps: seq<nat>, calls: seq<Call>)
      requires maxRetries <= |script|
      modifies this
      ensures old(session) != null ==> session == old(session)
      ensures old(session) == null ==> session != null && fresh(session) && !session.closed
      ensures session != null && var run := RunAll(NonBlocking, Delivered(session.closed, script), maxRetries);
        && r == run.result && sleeps == run.sleeps
        && calls == Calls(Call(verb, baseUrl + path, NonBlockingBody(data)), run.attempts)
    {
      EnsureSession();
      var held, closed := session, session.closed;
      var delivered := Delivered(closed, script);
      var call := Call(verb, baseUrl + path, NonBlockingBody(data));
      sleeps, calls := [], [];
      var attempt: nat := 0;
      while attempt < maxRetries
        invariant attempt <= if maxRetries < 0 then 0 else maxRetries
        invariant session == held && held.closed == closed
        invariant calls == Calls(call, attempt)
        invariant RunAll(NonBlocking, delivered, maxRetries)
          == var rest := RunFrom(NonBlocking, delivered, maxRetries, attempt); rest.(sleeps := sleeps + rest.sleeps)
        decreases maxRetries - attempt
      {
        calls := calls + [call];
        var step := StepOf(NonBlocking, delivered[attempt], attempt == maxRetries - 1);
        if step.Done? {
          RunFromUnfold(NonBlocking, delivered, maxRetries, attempt);
          return step.result, sleeps, calls;
        }
        RetryAdvances(NonBlocking, delivered, maxRetries, attempt, sleeps);
        sleeps := sleeps + [attempt + 1];
        attempt := attempt + 1;
      }
      r := Err(BoardError(MaxRetriesExceeded));
    }

    /** `list_bounties(status, tags)`: `GET /bounties`, mapped and filtered. */
    method ListBounties(status: string, tags: seq<string>, script: seq<Attempt>)
      returns (r: Result<seq<Bounty>, Failure>, sleeps: seq<nat>, calls: seq<Call>)
      requires maxRetries <= |script|
      modifies this
      ensures old(session) != null ==> session == old(session)
      ensures old(session) == null ==> session != null && fresh(session) && !session.closed
      ensures session != null && var run := RunAll(NonBlocking, Delivered(session.closed, script), maxRetries);
        && r == Listed(run.result, status, tags) && sleeps == run.sleeps
        && calls == Calls(Call("GET", baseUrl + "/bounties", None), run.attempts)
    {
      var res;
      res, sleeps, calls := Request("GET", "/bounties", None, script);
      r := Listed(res, status, tags);
    }

    /** `discover(tags)`: `list_bounties` restricted to open bounties. */
    method Discover(tags: seq<string>, script: seq<Attempt>)
      returns (r: Result<seq<Bounty>, Failure>, sleeps: seq<nat>, calls: seq<Call>)
      requires maxRetries <= |script|
      modifies this
      ensures old(session) != null ==> session == old(session)
      ensures old(session) == null ==> session != null && fresh(session) && !session.closed
      ensures session != null && var run := RunAll(NonBlocking, Delivered(session.closed, script), maxRetries);
        && r == Listed(run.result, "open", tags) && sleeps == run.sleeps
        && calls == Calls(Call("GET", baseUrl + "/bounties", None), run.attempts)
      ensures r.Ok? ==> forall b :: b in r.value ==> b.status == "open"
    {
      r, sleeps, calls := ListBounties("open", tags, script);
    }

    /** `get_bounty(id)`: `GET /bounties/{id}`, mapped by `Bounty.from_dict`. */
    method GetBounty(bountyId: string, script: seq<Attempt>)
      returns (r: Result<Bounty, Failure>, sleeps: seq<nat>, calls: seq<Call>)
      requires maxRetries <= |script|
      modifies this
      ensures old(session) != null ==> session == old(session)
      ensures old(session) == null ==> session != null && fresh(session) && !session.closed
      ensures session != null && var run := RunAll(NonBlocking, Delivered(session.closed, script), maxRetries);
        && r == Decoded(run.result, BountyFromDict) && sleeps == run.sleeps
        && calls == Calls(Call("GET", baseUrl + BountyPath(bountyId), None), run.attempts)
    {
      var res;
      res, sleeps, calls := Request("GET", BountyPath(bountyId), None, script);
      r := Decoded(res, BountyFromDict);
    }

    /** `claim_bounty(id, wallet)`: without an address nothing is sent and no
        session is opened; otherwise `POST /bounties/{id}/claim`. */
    method ClaimBounty(bountyId: string, wallet: Option<string>, script: seq<Attempt>)
      returns (r: Result<ClaimResult, Failure>, sleeps: seq<nat>, calls: seq<Call>)
      requires maxRetries <= |script|
      modifies this
      ensures ResolveAddress(wallet, walletAddress).Err? ==>
        r == Err(AddressRequired) && sleeps == [] && calls == [] && session == old(session)
      ensures ResolveAddress(wallet, walletAddress).Ok? ==>
        && (old(session) != null ==> session == old(session))
        && (old(session) == null ==> session != null && fresh(session) && !session.closed)
        && session != null
        && var address, run := ResolveAddress(wallet, walletAddress).value, RunAll(NonBlocking, Delivered(session.closed, script), maxRetries);
           && r == Decoded(run.result, ClaimResultFromDict) && sleeps == run.sleeps
           && calls == Calls(Call("POST", baseUrl + ClaimPath(bountyId), Some(JObj(ClaimPayload(address)))), run.attempts)
    {
      var resolved := ResolveAddress(wallet, walletAddress);
      if resolved.Err? {
        return Err(AddressRequired), [], [];
      }
      var res;
      res, sleeps, calls := Request("POST", ClaimPath(bountyId), Some(ClaimPayload(resolved.value)), script);
      r := Decoded(res, ClaimResultFromDict);
    }

    /** `submit_bounty(id, submission, proof, wallet)`: without an address
        nothing is sent; otherwise `POST /bounties/{id}/submit`. */
    method SubmitBounty(bountyId: string, submission: string, proof: Option<string>, wallet: Option<string>, script: seq<Attempt>)
      returns (r: Result<SubmitResult, Failure>, sleeps: seq<nat>, calls: seq<Call>)
      requires maxRetries <= |script|
      modifies this
      ensures ResolveAddress(wallet, walletAddress).Err? ==>
        r == Err(AddressRequired) && sleeps == [] && calls == [] && session == old(session)
      ensures ResolveAddress(wallet, walletAddress).Ok? ==>
        && (old(session) != null ==> session == old(session))
        && (old(session) == null ==> session != null && fresh(session) && !session.closed)
        && session != null
        && var address, run := ResolveAddress(wallet, walletAddress).value, RunAll(NonBlocking, Delivered(session.closed, script), maxRetries);
           && r == Decoded(run.result, SubmitResultFromDict) && sleeps == run.sleeps
           && calls == Calls(Call("POST", baseUrl + SubmitPath(bountyId), Some(JObj(SubmitPayload(address, submission, proof)))), run.attempts)
    {
      var resolved := ResolveAddress(wallet, walletAddress);
      if resolved.Err? {
        return Err(AddressRequired), [], [];
      }
      var res;
      res, sleeps, calls := Request("POST", SubmitPath(bountyId), Some(SubmitPayload(resolved.value, submission, proof)), script);
      r := Decoded(res, SubmitResultFromDict);
    }

    /** `get_stats()`: `GET /stats`, mapped by `Stats.from_dict`. */
    method GetStats(script: seq<Attempt>)
      returns (r: Result<Stats, Failure>, sleeps: seq<nat>, calls: seq<Call>)
      requires maxRetries <= |script|
      modifies this
      ensures old(session) != null ==> session == old(session)
      ensures old(session) == null ==> session != null && fresh(session) && !session.closed
      ensures session != null && var run := RunAll(NonBlocking, Delivered(session.closed, script), maxRetries);
        && r == Decoded(run.result, StatsFromDict) && sleeps == run.sleeps
        && calls == Calls(Call("GET", baseUrl + "/stats", None), run.attempts)
    {
      var res;
      res, sleeps, calls := Request("GET", "/stats", None, script);
      r := Decoded(res, StatsFromDict);
    }
  }

  /** Leaving an `async with` block closes the session but keeps it, so a
      call made on the client afterwards fails after all its attempts. */
  method CallAfterExit(c: AsyncBountyClient, script: seq<Attempt>)
    returns (r: Result<Stats, Failure>, sleeps: seq<nat>, calls: seq<Call>)
    requires 0 < c.maxRetries <= |script|
    modifies c
    ensures r == Err(BoardError(RequestFailed))
    ensures sleeps == Backoff(c.maxRetries - 1)
    ensures calls == Calls(Call("GET", c.baseUrl + "/stats", None), c.maxRetries)
  {
    c.Enter();
    c.Exit();
    r, sleeps, calls := c.GetStats(script);
    ClosedSessionFails(script, c.maxRetries);
  }

  /** With `close()` instead of leaving the block, the session is dropped, and
      the next call opens a fresh one and reaches the service. */
  method CallAfterClose(c: AsyncBountyClient, script: seq<Attempt>)
    returns (r: Result<Stats, Failure>, sleeps: seq<nat>, calls: seq<Call>)
    requires c.maxRetries <= |script|
    modifies c
    ensures var run := RunAll(NonBlocking, script, c.maxRetries);
      && r == Decoded(run.result, StatsFromDict) && sleeps == run.sleeps
      && calls == Calls(Call("GET", c.baseUrl + "/stats", None), run.attempts)
  {
    c.Enter();
    c.Close();
    r, sleeps, calls := c.GetStats(script);
  }
}
