/** Building a request: the base URL, the wallet address a call uses, the
    JSON payloads, and the record of what was sent. */
module Requests {
  import opened Wrappers
  import opened JsonValues
  import opened Text
  import opened Errors

  const DefaultBaseUrl: string := "https://bounty.owockibot.xyz"

  /** `(base_url or BASE_URL).rstrip("/")`. */
  function NormalizeBaseUrl(given: Option<string>): (r: string)
    ensures var chosen := if given.Some? && given.value != "" then given.value else DefaultBaseUrl;
      && |r| <= |chosen| && r == chosen[..|r|]
      && (forall i :: |r| <= i < |chosen| ==> chosen[i] == '/')
      && (r == "" || r[|r| - 1] != '/')
  {
    RStrip(if given.Some? && given.value != "" then given.value else DefaultBaseUrl, '/')
  }

  /** With no base URL given, the client talks to the production service. */
  lemma DefaultBaseUrlUsed(given: Option<string>)
    requires given.None? || given.value == ""
    ensures NormalizeBaseUrl(given) == DefaultBaseUrl
  {
  }

  /** A normalised base URL, given again, is kept as it is. */
  lemma NormalizeBaseUrlIdempotent(given: Option<string>)
    requires NormalizeBaseUrl(given) != ""
    ensures NormalizeBaseUrl(Some(NormalizeBaseUrl(given))) == NormalizeBaseUrl(given)
  {
    RStripIdempotent(if given.Some? && given.value != "" then given.value else DefaultBaseUrl, '/');
  }

  /** `address = wallet_address or self.wallet_address`, then
      `if not address: raise ValueError(...)`. */
  function ResolveAddress(explicit: Option<string>, default: Option<string>): (r: Result<string, Failure>)
    ensures r.Err? <==> (explicit.None? || explicit.value == "") && (default.None? || default.value == "")
    ensures r.Err? ==> r.error == AddressRequired
    ensures explicit.Some? && explicit.value != "" ==> r == Ok(explicit.value)
    ensures (explicit.None? || explicit.value == "") && default.Some? && default.value != "" ==> r == Ok(default.value)
  {
    var address := if explicit.Some? && explicit.value != "" then explicit else default;
    if address.None? || address.value == "" then Err(AddressRequired) else Ok(address.value)
  }

  /** `{"address": address}`. */
  function ClaimPayload(address: string): (p: map<string, Json>)
    ensures p.Keys == {"address"} && p["address"] == JStr(address)
  {
    map["address" := JStr(address)]
  }

  /** `{"address": ..., "submission": ...}`, plus `"proof"` only when the proof is non-empty. */
  function SubmitPayload(address: string, submission: string, proof: Option<string>): (p: map<string, Json>)
    ensures p.Keys == {"address", "submission"} + (if proof.Some? && proof.value != "" then {"proof"} else {})
    ensures p["address"] == JStr(address) && p["submission"] == JStr(submission)
    ensures "proof" in p ==> p["proof"] == JStr(proof.value)
  {
    var payload := map["address" := JStr(address), "submission" := JStr(submission)];
    if proof.Some? && proof.value != "" then payload["proof" := JStr(proof.value)] else payload
  }

  /** A submission carries the claim's payload and adds to it. */
  lemma SubmitExtendsClaim(address: string, submission: string, proof: Option<string>)
    ensures var claim, submit := ClaimPayload(address), SubmitPayload(address, submission, proof);
      forall k :: k in claim ==> k in submit && submit[k] == claim[k]
  {
  }

  function BountyPath(bountyId: string): string { "/bounties/" + bountyId }

  function ClaimPath(bountyId: string): string { "/bounties/" + bountyId + "/claim" }

  function SubmitPath(bountyId: string): string { "/bounties/" + bountyId + "/submit" }

  /** One HTTP request as the client issues it on one attempt. */
  datatype Call = Call(verb: string, url: string, body: Option<Json>)

  /** The log of `n` attempts of the same request. */
  function Calls(c: Call, n: nat): (log: seq<Call>)
    ensures |log| == n && forall i :: 0 <= i < n ==> log[i] == c
  {
    seq(n, i => c)
  }

  /** urllib sends a body only for a truthy payload (`if data:`). */
  function BlockingBody(data: Option<map<string, Json>>): (body: Option<Json>)
    ensures body.Some? <==> data.Some? && data.value != map[]
    ensures body.Some? ==> body.value == JObj(data.value)
  {
    if data.Some? && data.value != map[] then Some(JObj(data.value)) else None
  }

  /** aiohttp's `json=data` sends a body unless `data` is None. */
  function NonBlockingBody(data: Option<map<string, Json>>): (body: Option<Json>)
    ensures body.Some? <==> data.Some?
    ensures body.Some? ==> body.value == JObj(data.value)
  {
    if data.Some? then Some(JObj(data.value)) else None
  }

  /** The two clients send different bodies only for an empty payload, which
      urllib drops and aiohttp sends as `{}`. */
  lemma BodiesDifferOnlyWhenEmpty(data: Option<map<string, Json>>)
    ensures BlockingBody(data) != NonBlockingBody(data) <==> data == Some(map[])
  {
  }
}
