# owockibot bounty-board SDK, modelled in Dafny

The owockibot SDK is a thin Python client for a bounty board service. It comes in
two variants: `BountyClient`, which blocks on urllib, and `AsyncBountyClient`,
which uses aiohttp. Both build a request, send it with a linear-backoff retry
loop, and map the JSON reply into dataclasses (`Bounty`, `Submission`,
`Payment`, `Stats`, `ClaimResult`, `SubmitResult`).

This project models that core:

- **`Wrappers`, `JsonValues`, `Text`, `Errors`**: the vocabulary.
  - Decoded JSON and Python truthiness.
  - The string operations the SDK uses (`lower`, `in`, `rstrip`, `replace`).
  - The exceptions, as the `Failure` datatype. `AlreadyClaimed` and
    `BoardError` are the SDK's own exceptions. `AddressRequired` is the
    `ValueError`. `Uncaught` is any other exception a call lets escape, such as
    a `KeyError` or a `TypeError`.
- **`Models`**: `Bounty.from_dict`, `Stats.from_dict` and the `ClaimResult` /
  `SubmitResult` construction, as functions that return the record or the
  exception the mapping would raise.
- **`Wire`**: how the service writes a record as JSON, with the round-trip
  lemmas. The service writes every field and sends an absent optional one as
  `null`. `from_dict` reads back exactly what was written when the record is
  one the mapping can produce (`Wire.Carried`):
  - every timestamp is non-zero epoch milliseconds;
  - a deadline may also be non-empty ISO text;
  - a payment has a non-empty chain;
  - a payment's processing time is the local clock or non-empty ISO text
    without a `Z`.

  A zero timestamp or an empty chain is falsy on the wire, so it reads back
  as absent.
- **`Filtering`**: the status and tag filters of `list_bounties`. Two passes
  are proved equal to a one-pass reference. The lemmas show that the filters
  keep order, are idempotent and keep a bounty exactly when it matches.
- **`Requests`**: the base URL, the wallet-address resolution, the payloads
  and paths, and the log of attempts.
- **`Retry`**: the loop shared by both `_request` methods.
  - What one attempt decides (`BlockingStep` for urllib, `NonBlockingStep`
    for aiohttp).
  - What a whole run produces (`RunAll`), with its lemmas:
    - A run makes one to `max_retries` attempts.
    - Sleeps are 1, 2, … units of `retry_delay`.
    - A claimed conflict is never retried.
    - Faults are retried until attempts run out.
  - Two worked cases: the [500, 500, 200] case and the conflict reply.
- **`Responses`**: what the public calls do with the JSON a request returns.
- **`Client`** and **`AsyncClient`**: the two client classes.
  - Each `Request` method is a `while` loop proved equal to `RunAll`.
  - The asynchronous client keeps its HTTP session as a mutable field.
    `Enter` opens a new session and holds it. `EnsureSession` opens one only
    when none is held. `Close` closes the held session and drops it. `Exit`
    closes the held session but leaves the field holding it.

The network is a parameter. Each call receives a `script` of what the
transport delivers on each attempt: a status with a parsed or unparseable
body, or a transport fault. Each call returns its result and the backoff
multipliers it slept for. It also returns the log of its attempts, one entry
per attempt, so "nothing was attempted" is `calls == []`. An attempt through a
closed asynchronous session is logged, although the session raises before
anything reaches the network. The script must cover every attempt
(`max_retries <= |script|`). That requirement is a device of the model, not a
demand of the SDK.

Behaviours of the code that the model keeps:

- A payment is built only when the wire `chain` is non-empty. The `"base"`
  default for the chain therefore never applies (`Models.PaymentChainFromWire`).
- `AlreadyClaimed` carries the raw `claimedAt` value from the reply, not a
  converted instant.
- Malformed responses are not always reported as board errors:
  - In the blocking client, an unparseable 4xx or 5xx body is wrapped as
    `{"error": <text>}`, and is then treated like any other error body.
  - An unparseable 2xx body is retried like a transport fault.
  - In the asynchronous client, every unparseable body is retried like a
    transport fault, and so is any error body that is not a JSON object
    (`Retry.MalformedClientErrorDiffers`).
- In the blocking client, a 409 reply raises an `AttributeError` inside the
  `HTTPError` handler in two cases: its body is not a JSON object, or its
  `error` field is present but is not a string. That exception escapes
  uncaught. A 409 whose body has no `error` field is an API error with status
  409.
- Leaving `async with` closes the session but does not drop it. A later call
  therefore does not open a new session. Instead it fails at the transport on
  every attempt (see Findings).

## Model

| member | source | states |
|---|---|---|
| `Requests.NormalizeBaseUrl` | owockibot-sdk/owockibot/client.py:54 | the base URL is the given one, or the default when none or empty is given, with every trailing `/` removed and nothing else changed |
| `Requests.DefaultBaseUrlUsed` | owockibot-sdk/owockibot/client.py:36-54 | with no base URL given the client talks to `https://bounty.owockibot.xyz` |
| `Requests.NormalizeBaseUrlIdempotent` | owockibot-sdk/owockibot/async_client.py:40 | normalising an already normalised base URL keeps it |
| `Text.RStrip` | owockibot-sdk/owockibot/client.py:54 | `rstrip` returns a prefix; all characters it drops are the stripped character, and it does not end with that character |
| `Text.RStripIdempotent` | owockibot-sdk/owockibot/client.py:54 | stripping twice is stripping once |
| `Text.ReplaceZ` | owockibot-sdk/owockibot/models.py:74 | after replacing `Z` no `Z` is left, and text without `Z` is unchanged |
| `Text.ReplaceZChar` | owockibot-sdk/owockibot/models.py:74 | a `Z` becomes `+00:00`, and every other character is kept |
| `Text.ReplaceZAppend` | owockibot-sdk/owockibot/models.py:74 | the replacement works piece by piece: replacing in `a + b` is replacing in `a` and then in `b`, so with `ReplaceZChar` every character is accounted for |
| `Text.Lower` | owockibot-sdk/owockibot/client.py:87 | `lower` keeps the length, turns every ASCII capital into its small letter and keeps every other character; no capital is left |
| `Text.ContainsIffOccurs` | owockibot-sdk/owockibot/client.py:87 | `needle in s` holds exactly when the needle occurs at some index of the string |
| `Requests.ResolveAddress` | owockibot-sdk/owockibot/client.py:163-165 | the explicit wallet if non-empty, else the client default if non-empty; otherwise, and only then, the missing-address error |
| `Requests.SubmitPayload` | owockibot-sdk/owockibot/client.py:202-207 | the payload holds the address and submission, and a `proof` key exactly when a non-empty proof was given |
| `Requests.ClaimPayload` | owockibot-sdk/owockibot/client.py:167-169 | the claim payload is exactly `{"address": address}` |
| `Requests.SubmitExtendsClaim` | owockibot-sdk/owockibot/client.py:202-207 | the submit payload holds the claim payload unchanged |
| `Requests.BlockingBody` | owockibot-sdk/owockibot/client.py:73-75 | urllib sends a body exactly when the payload is non-empty, and then the payload itself |
| `Requests.NonBlockingBody` | owockibot-sdk/owockibot/async_client.py:76-80 | aiohttp sends a body exactly when a payload is given, even an empty one |
| `Requests.BodiesDifferOnlyWhenEmpty` | owockibot-sdk/owockibot/async_client.py:79 | the two clients send different bodies exactly for an empty payload |
| `Retry.FinalNeverRetries` | owockibot-sdk/owockibot/client.py:93-102 | on the last attempt neither client sleeps and retries |
| `Retry.BlockingStep` | owockibot-sdk/owockibot/client.py:69-102 | one urllib attempt: on the last attempt it always decides; a fault or an unparseable 2xx body is retried while attempts remain and is "Request failed" on the last attempt; a 5xx is retried while attempts remain; it returns exactly a parsed 2xx body; a 409 escapes uncaught exactly when its error body is not an object or its `error` is not text; any other non-2xx, non-409 decision is an API error with that status |
| `Retry.NonBlockingStep` | owockibot-sdk/owockibot/async_client.py:75-107 | one aiohttp attempt: on the last attempt it always decides; a fault, an unparseable body, a non-object error body or a 409 with a non-text `error` is retried while attempts remain and is "Request failed" on the last attempt; a 5xx is retried while attempts remain; it returns exactly a parsed body with status below 400; it raises only the SDK's own exceptions |
| `Retry.RunFrom` | owockibot-sdk/owockibot/client.py:68-104 | the loop from attempt `k` ends in "Max retries exceeded" exactly when no attempt is left |
| `Retry.RetryAdvances` | owockibot-sdk/owockibot/client.py:93-95 | a retried attempt records the sleep `attempt + 1` and hands the run on to the next attempt |
| `Retry.RunAll` | owockibot-sdk/owockibot/client.py:68-104 | a run makes at most `max_retries` attempts, none exactly when `max_retries <= 0`; it sleeps once between consecutive attempts; it fails with "Max retries exceeded" exactly when `max_retries <= 0` |
| `Retry.ClaimedIsNeverRetried` | owockibot-sdk/owockibot/client.py:87-91 | a 409 whose error mentions "claimed" in any case raises `AlreadyClaimed` with `claimedBy` (default "unknown") and `claimedAt` (default 0), whether or not attempts remain |
| `Retry.ServerErrorBacksOff` | owockibot-sdk/owockibot/client.py:93-97 | a 5xx is retried while attempts remain; on the last attempt it is an API error carrying the status, except that the asynchronous client reports a failed request when the body is not a JSON object |
| `Retry.FaultBacksOff` | owockibot-sdk/owockibot/client.py:98-102 | a transport fault is retried while attempts remain and then fails the request |
| `Retry.BlockingClientErrorFailsAtOnce` | owockibot-sdk/owockibot/client.py:80-97 | in the blocking client every 4xx but the claimed conflict is an API error at once, never retried |
| `Retry.NonBlockingClientErrorFailsAtOnce` | owockibot-sdk/owockibot/async_client.py:84-97 | in the asynchronous client a 4xx with an object body is an API error at once unless it is the claimed conflict |
| `Retry.MalformedClientErrorDiffers` | owockibot-sdk/owockibot/async_client.py:82-107 | a 4xx with an unparseable body fails the blocking call at once but is retried by the asynchronous client |
| `Retry.RunShape` | owockibot-sdk/owockibot/client.py:68-104 | a run makes 1 to `max_retries` attempts; every attempt but the last was retried and the last decided the result; the sleeps are 1, 2, … units, one per retry; with `max_retries <= 0` nothing is attempted and the call fails with "Max retries exceeded" |
| `Retry.RunDeterminedByFirstDecision` | owockibot-sdk/owockibot/client.py:68-104 | conversely, the first attempt not retried fixes the result, the attempt count and the sleeps |
| `Retry.ClaimedEndsRun` | owockibot-sdk/owockibot/client.py:87-91 | a claimed conflict ends the run on that attempt, with no further attempt |
| `Retry.TransientRunFails` | owockibot-sdk/owockibot/async_client.py:103-109 | when every attempt fails transiently the run makes all attempts and fails the request |
| `Retry.FaultsFail` | owockibot-sdk/owockibot/client.py:98-102 | a transport that always faults exhausts the attempts and fails the request |
| `Retry.TwoServerErrorsThenSuccess` | owockibot-sdk/owockibot/client.py:93-95 | 500, 500, then 200 with three attempts returns the 200 body after sleeps of 1 and 2 units |
| `Retry.ConflictRaisedOnFirstAttempt` | owockibot-sdk/owockibot/client.py:87-91 | the service's "Bounty already claimed" reply raises `AlreadyClaimed("0xABC", 1700000000000)` after exactly one attempt |
| `Client.BountyClient.constructor` | owockibot-sdk/owockibot/client.py:38-57 | the client keeps the normalised base URL, the default wallet and the attempt count |
| `Client.BountyClient.Request` | owockibot-sdk/owockibot/client.py:59-104 | the loop returns what `RunAll` specifies for the urllib classification, sleeps its backoff and logs the same request once per attempt, with a body only for a non-empty payload |
| `Client.BountyClient.ListBounties` | owockibot-sdk/owockibot/client.py:106-130 | `GET /bounties`, then every element mapped and the status and tag filters applied |
| `Client.BountyClient.Discover` | owockibot-sdk/owockibot/client.py:227-237 | `list_bounties` with status "open": everything returned is open |
| `Client.BountyClient.GetBounty` | owockibot-sdk/owockibot/client.py:132-143 | `GET /bounties/{id}` mapped by `Bounty.from_dict` |
| `Client.BountyClient.ClaimBounty` | owockibot-sdk/owockibot/client.py:145-177 | without an address nothing is attempted; otherwise `POST /bounties/{id}/claim` with `{address}`, mapped into a `ClaimResult` |
| `Client.BountyClient.SubmitBounty` | owockibot-sdk/owockibot/client.py:179-215 | without an address nothing is attempted; otherwise `POST /bounties/{id}/submit` with the payload, mapped into a `SubmitResult` |
| `Client.BountyClient.GetStats` | owockibot-sdk/owockibot/client.py:217-225 | `GET /stats` mapped by `Stats.from_dict` |
| `AsyncClient.AsyncBountyClient.constructor` | owockibot-sdk/owockibot/async_client.py:24-44 | settings as in the blocking client, and no session yet |
| `AsyncClient.Session.constructor` | owockibot-sdk/owockibot/async_client.py:47 | a new aiohttp session is open |
| `AsyncClient.Session.Close` | owockibot-sdk/owockibot/async_client.py:52 | closing a session leaves it closed |
| `AsyncClient.AsyncBountyClient.Enter` | owockibot-sdk/owockibot/async_client.py:46-48 | entering the block always opens a new, open session |
| `AsyncClient.AsyncBountyClient.Exit` | owockibot-sdk/owockibot/async_client.py:50-52 | leaving the block closes the held session and keeps holding it |
| `AsyncClient.AsyncBountyClient.EnsureSession` | owockibot-sdk/owockibot/async_client.py:54-56 | a held session is kept as it is, open or closed; only when none is held is a new one opened |
| `AsyncClient.AsyncBountyClient.Close` | owockibot-sdk/owockibot/async_client.py:58-62 | the held session is closed and dropped |
| `AsyncClient.AsyncBountyClient.Request` | owockibot-sdk/owockibot/async_client.py:64-109 | ensures a session, then returns what `RunAll` specifies for the aiohttp classification over what that session delivers; a closed session delivers a fault on every attempt |
| `AsyncClient.AsyncBountyClient.ListBounties` | owockibot-sdk/owockibot/async_client.py:111-135 | `GET /bounties`, mapped and filtered as in the blocking client |
| `AsyncClient.AsyncBountyClient.Discover` | owockibot-sdk/owockibot/async_client.py:196-198 | everything returned is open |
| `AsyncClient.AsyncBountyClient.GetBounty` | owockibot-sdk/owockibot/async_client.py:137-140 | `GET /bounties/{id}` mapped by `Bounty.from_dict` |
| `AsyncClient.AsyncBountyClient.ClaimBounty` | owockibot-sdk/owockibot/async_client.py:142-162 | without an address nothing is attempted and the session is untouched; otherwise the claim request, mapped into a `ClaimResult` |
| `AsyncClient.AsyncBountyClient.SubmitBounty` | owockibot-sdk/owockibot/async_client.py:164-189 | without an address nothing is attempted; otherwise the submit request, mapped into a `SubmitResult` |
| `AsyncClient.AsyncBountyClient.GetStats` | owockibot-sdk/owockibot/async_client.py:191-194 | `GET /stats` mapped by `Stats.from_dict` |
| `AsyncClient.Delivered` | owockibot-sdk/owockibot/async_client.py:76-81 | through a closed session every attempt is a transport fault; through an open one the transport's replies arrive unchanged |
| `AsyncClient.ClosedSessionFails` | owockibot-sdk/owockibot/async_client.py:103-107 | through a closed session a call makes all its attempts and fails the request |
| `AsyncClient.CallAfterExit` | owockibot-sdk/owockibot/async_client.py:50-56 | after `async with` has been left, a call fails after `max_retries` attempts and sleeps |
| `AsyncClient.CallAfterClose` | owockibot-sdk/owockibot/async_client.py:58-62 | after `close()`, a call opens a fresh session and gets the service's reply |
| `Responses.Decoded` | owockibot-sdk/owockibot/client.py:142-143 | a failed request propagates unchanged; a reply the mapper rejects becomes the mapper's uncaught exception; otherwise the mapped record |
| `Responses.Listed` | owockibot-sdk/owockibot/client.py:121-130 | the listing is the one-pass selection of matching bounties, and holds a bounty exactly when it was returned and matches |
| `Responses.DiscoveredAreOpen` | owockibot-sdk/owockibot/client.py:237 | a listing filtered on "open" holds only open bounties |
| `Models.Str` | owockibot-sdk/owockibot/models.py:85-92 | `data.get(key, default)` on text: succeeds exactly when the key is absent or holds text; the wire text when present, the default when absent |
| `Models.Int` | owockibot-sdk/owockibot/models.py:117-121 | `data.get(key, 0)` on a counter: succeeds exactly when the key is absent or holds an integer; the wire number when present, the default when absent |
| `Models.OptStr` | owockibot-sdk/owockibot/models.py:97 | `data.get(key)`: succeeds exactly when the key is missing, null or text; absent exactly when missing or null, otherwise the wire text |
| `Models.StrList` | owockibot-sdk/owockibot/models.py:94-95 | `data.get(key, [])`: succeeds exactly when the key is missing or holds a list of strings; that list, or empty when missing |
| `Models.OptMillis` | owockibot-sdk/owockibot/models.py:98-99 | succeeds exactly when the field is missing, falsy or an integer (a boolean counts as one); absent exactly when missing or falsy, and a non-zero integer is epoch milliseconds |
| `Models.RequiredStr` | owockibot-sdk/owockibot/client.py:172-176 | `data[key]` on text: succeeds exactly when the key holds text; a missing key raises `KeyError(key)` |
| `Models.Strings` | owockibot-sdk/owockibot/models.py:94-95 | a JSON list reads as strings exactly when every element is a string, and the strings written back give the list |
| `Models.Millis` | owockibot-sdk/owockibot/models.py:98 | `fromtimestamp(v / 1000)`: succeeds exactly on integers and booleans, and keeps the epoch milliseconds |
| `Models.ProcessedAt` | owockibot-sdk/owockibot/models.py:74 | succeeds exactly when `processedAt` is falsy or text; the local clock exactly when it is missing or falsy; non-empty text is read as ISO text with `Z` replaced |
| `Models.PaymentOf` | owockibot-sdk/owockibot/models.py:63-75 | succeeds exactly when `payment` is falsy, or an object that is either not built from or well shaped; a payment exists exactly when `payment` and its `chain` are truthy, and it is what `PaymentFromDict` reads from that object |
| `Models.Elements` | owockibot-sdk/owockibot/client.py:122 | iterating the response succeeds exactly on a list, an empty object or an empty string, and yields the list's elements or nothing |
| `Models.Reward` | owockibot-sdk/owockibot/models.py:89 | succeeds exactly when `reward` is missing or an integer or boolean; 0 when missing, the wire integer when one is given |
| `Models.DeadlineOf` | owockibot-sdk/owockibot/models.py:77-82 | succeeds exactly when the deadline is falsy, an integer, a boolean or text; absent exactly when falsy; a non-zero int is epoch milliseconds, a non-empty string is ISO text |
| `Models.SubmissionFromDict` | owockibot-sdk/owockibot/models.py:54-59 | succeeds exactly on an object with text `id` and `content`, a `proof` that is missing, null or text, and an integer `submittedAt`; copies them, with `proof` absent exactly when missing or null; a missing `id` raises `KeyError("id")` |
| `Models.PaymentFromDict` | owockibot-sdk/owockibot/models.py:66-75 | succeeds exactly when every field is absent or of its type and a truthy `processedAt` is text; each field is the wire value or its default; the time is the local clock exactly when `processedAt` is missing or falsy |
| `Models.SubmissionsOf` | owockibot-sdk/owockibot/models.py:53-61 | succeeds exactly when `submissions` is missing, empty, or a list of well-shaped submissions; a missing key gives none; a list maps entry by entry, in order |
| `Models.BountyFromDict` | owockibot-sdk/owockibot/models.py:50-101 | a non-object fails; otherwise every field is its wire value or its default (`status` "unknown", `rewardFormatted` "0 USDC", …), the reward is what `Reward` reads, a payment exists exactly when `payment` and its `chain` are truthy, and `claimedAt`/`completedAt` are absent exactly when falsy |
| `Models.ShapedBountyMaps` | owockibot-sdk/owockibot/models.py:50-101 | every object whose fields are absent or of the type the mapping needs maps to a bounty |
| `Models.MappedBountyIsShaped` | owockibot-sdk/owockibot/models.py:50-101 | conversely, every object that maps is well shaped |
| `Models.BountyMapsIffShaped` | owockibot-sdk/owockibot/models.py:50-101 | `Bounty.from_dict` succeeds exactly on the well-shaped objects |
| `Models.EmptyBountyDefaults` | owockibot-sdk/owockibot/models.py:84-101 | `{}` maps to the bounty of all defaults: empty texts, reward 0, "0 USDC", status "unknown", no deadline, tags, requirements, submissions, claimant, times or payment |
| `Models.BarePaymentDefaults` | owockibot-sdk/owockibot/models.py:66-75 | a payment holding only its chain takes "USDC", "", 0, 0, 0, "0%" and the local clock |
| `Models.DeadlineDispatch` | owockibot-sdk/owockibot/models.py:77-82 | the deadline is absent exactly when falsy; an int is epoch milliseconds, a string is ISO text |
| `Models.SubmissionsInOrder` | owockibot-sdk/owockibot/models.py:53-61 | submissions keep the length and order of the wire list |
| `Models.PaymentChainFromWire` | owockibot-sdk/owockibot/models.py:64-67 | a built payment carries the wire's non-empty chain, never the "base" default |
| `Models.BountiesFromList` | owockibot-sdk/owockibot/client.py:122 | a list maps element by element, and succeeds when every element does |
| `Models.StatsFromDict` | owockibot-sdk/owockibot/models.py:114-123 | succeeds exactly on an object whose counters are absent or integers and whose formatted total is absent or text; every counter is its wire value or 0, the formatted total its wire value or "0 USDC" |
| `Models.EmptyStatsDefaults` | owockibot-sdk/owockibot/models.py:114-123 | `{}` maps to zero counters and "0 USDC" |
| `Models.ClaimResultFromDict` | owockibot-sdk/owockibot/client.py:171-177 | succeeds exactly when `id`, `status`, `claimedAt`, `claimedBy` are present with the right types, and copies them |
| `Models.SubmitResultFromDict` | owockibot-sdk/owockibot/client.py:211-215 | succeeds exactly when `id` and `status` are text and `submissions` is a non-empty list whose last entry is an object with a text `id`; that id is the submission id; an empty submission list raises |
| `Filtering.MatchIndices` | owockibot-sdk/owockibot/client.py:124-128 | the positions of the matching bounties, strictly increasing, all of them |
| `Filtering.WithStatus` | owockibot-sdk/owockibot/client.py:124-125 | the status pass keeps exactly the fetched bounties with that status, and never adds any |
| `Filtering.WithAnyTag` | owockibot-sdk/owockibot/client.py:127-128 | the tag pass keeps exactly the bounties carrying one of the tags, and never adds any |
| `Filtering.ApplyFilters` | owockibot-sdk/owockibot/client.py:124-130 | `list_bounties` keeps exactly the fetched bounties that match the requested status and any of the requested tags |
| `Filtering.ApplyFiltersIsSelected` | owockibot-sdk/owockibot/client.py:124-130 | the status pass then the tag pass keep exactly what the one-pass reference keeps |
| `Filtering.SelectedInOrder` | owockibot-sdk/owockibot/client.py:124-128 | the i-th listed bounty is the bounty at the i-th matching position |
| `Filtering.ListedIffMatches` | owockibot-sdk/owockibot/client.py:124-130 | a bounty is listed exactly when it was fetched and matches the status and any of the tags |
| `Filtering.FilterIdempotent` | owockibot-sdk/owockibot/client.py:124-130 | filtering a filtered list changes nothing |
| `Wire.StringsRoundTrip` | owockibot-sdk/owockibot/models.py:94-95 | a list of strings written to the wire reads back unchanged |
| `Wire.SubmissionRoundTrip` | owockibot-sdk/owockibot/models.py:54-59 | a submission written to the wire reads back unchanged |
| `Wire.SubmissionsRoundTrip` | owockibot-sdk/owockibot/models.py:53-61 | a list of submissions reads back unchanged, in order |
| `Wire.PaymentRoundTrip` | owockibot-sdk/owockibot/models.py:63-75 | a payment with a non-empty chain, whose processing time is the local clock or non-empty ISO text without `Z`, reads back unchanged |
| `Wire.BountyRoundTrip` | owockibot-sdk/owockibot/models.py:50-101 | `Bounty.from_dict` reads back, field for field, every bounty the mapping can produce (`Wire.Carried`: non-zero epoch timestamps, a non-empty ISO deadline if not epoch, a payment with a non-empty chain and a processing time without `Z`) |
| `Wire.StatsRoundTrip` | owockibot-sdk/owockibot/models.py:114-123 | `Stats.from_dict` reads back every stats record the service writes |

## Left out

- The network itself: urllib and aiohttp, the 30-second timeout, redirects,
  headers and the encoding of JSON as UTF-8 text. The transport is a scripted
  sequence of replies, and decoding yields either a JSON value or "not JSON".
- Sleeping: the model records the backoff multipliers `attempt + 1`. It does
  not record the floating-point seconds `retry_delay * (attempt + 1)`, and
  `retry_delay` is not a field of the model.
- Exception messages, such as the `API error {code}: {data}` text, are not
  modelled; the exception kind and its status are.
- Concurrency between coroutines sharing one `AsyncBountyClient` is not
  modelled.
- Dates: `datetime.fromtimestamp` and `datetime.fromisoformat` are not
  evaluated. An instant is kept as the epoch milliseconds, the ISO text or
  "the local clock" it was built from, so the out-of-range timestamps and
  malformed ISO text that Python rejects are accepted here.
- Models.Reward: `int(float(x))` is modelled for integer and boolean values
  only. Floats, numeric strings and the rounding of integers above 2^53 are
  not modelled.
- Text.Lower: `str.lower` is modelled for ASCII letters only.
- Models.BountyFromDict: Python copies `id`, `title`, `tags` and the other
  pass-through fields into the dataclass whatever their JSON type. The model
  types them, so a field of another type (for example `null` or a number
  where text is expected) is reported as a `WrongType` mapping failure.
- Models.StatsFromDict: the same typing of pass-through fields applies.
- Models.PaymentFromDict: the same typing of pass-through fields applies.
- Models.SubmissionFromDict: the same typing of pass-through fields applies.
- Models.ClaimResultFromDict: Python copies `id`, `status` and `claimedBy`
  into the `ClaimResult` whatever their JSON type. The model requires text
  and reports any other type as a `WrongType` mapping failure.
- Models.SubmitResultFromDict: Python copies `id`, `status` and the last
  submission's `id` whatever their JSON type, and `data["submissions"][-1]`
  also indexes a non-empty string. The model requires text fields and a list
  of objects, and reports anything else as a `WrongType` mapping failure.
- Floating-point numbers: `JsonValues.Json` has no float case. Python
  accepts a float for `reward`, the payment amounts (`grossReward`,
  `netReward`, `fee`), the stats counters such as `totalPayouts`, and the
  millisecond timestamps (`claimedAt`, `completedAt`, `submittedAt`). None of
  these inputs can be written in the model.
- Default arguments: both constructors default to `max_retries=3` and
  `retry_delay=1.0`. The model's constructors take the attempt count
  explicitly, and `retry_delay` is not modelled (see Sleeping above).
- Models.Elements: iterating a non-list response is modelled only as far as
  the SDK's outcome goes. An empty dict or string yields nothing; anything
  else fails.
- Filtering: `status` and `tags` are passed as a string and a list, with the
  empty value standing for `None`, because the SDK treats both the same.
- Package metadata and `__init__.py` re-exports are not part of this model.

## Findings

| source | as written | input that shows it | evidently intended | confidence | as-written member | corrected member |
|---|---|---|---|---|---|---|
| owockibot-sdk/owockibot/async_client.py:50-56 | `__aexit__` closes the session but keeps it. `_ensure_session` then sees a held session and does not replace it, so every later request raises on the closed session, is retried, and fails. | `async with AsyncBountyClient() as c: pass`, then `await c.get_stats()` with `max_retries=3`: three failed attempts, sleeps of 1 and 2 units, "Request failed". | Leaving the block releases the session the way `close()` does, and the next call opens a new one lazily. | medium, not executed | `AsyncClient.CallAfterExit` | `AsyncClient.CallAfterClose` |
