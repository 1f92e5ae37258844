/** What the public calls do with the JSON `_request` returns: map it into the
    typed records and, for listings, filter it. A failed request propagates
    unchanged; a response of the wrong shape surfaces as the uncaught
    exception the mapping raises. Both clients share this. */
module Responses {
  import opened Wrappers
  import opened JsonValues
  import opened Errors
  import opened Models
  import opened Filtering

  /** The outcome of a call that maps the response with `decode`. */
  function Decoded<T>(res: Result<Json, Failure>, decode: Json -> Result<T, ShapeError>): (r: Result<T, Failure>)
    ensures res.Err? ==> r == Err(res.error)
    ensures res.Ok? ==> (r.Ok? <==> decode(res.value).Ok?)
    ensures r.Ok? ==> res.Ok? && decode(res.value) == Ok(r.value)
    ensures res.Ok? && decode(res.value).Err? ==> r == Err(Uncaught(decode(res.value).error))
  {
    match res
    case Err(e) => Err(e)
    case Ok(data) =>
      match decode(data)
      case Err(e) => Err(Uncaught(e))
      case Ok(v) => Ok(v)
  }

  /** `list_bounties(status, tags)` after the request: every element mapped,
      then filtered. An absent status or tag list is the empty one. */
  function Listed(res: Result<Json, Failure>, status: string, tags: seq<string>): (r: Result<seq<Bounty>, Failure>)
    ensures res.Err? ==> r == Err(res.error)
    ensures res.Ok? ==> (r.Ok? <==> BountiesFromList(res.value).Ok?)
    ensures res.Ok? && BountiesFromList(res.value).Err? ==> r == Err(Uncaught(BountiesFromList(res.value).error))
    ensures r.Ok? ==> r.value == Selected(BountiesFromList(res.value).value, status, tags)
    ensures r.Ok? ==> forall b :: b in r.value <==> b in BountiesFromList(res.value).value && Matches(b, status, tags)
  {
    match res
    case Err(e) => Err(e)
    case Ok(data) =>
      match BountiesFromList(data)
      case Err(e) => Err(Uncaught(e))
      case Ok(bs) =>
        ApplyFiltersIsSelected(bs, status, tags);
        assert forall b :: b in ApplyFilters(bs, status, tags) <==> b in bs && Matches(b, status, tags) by {
          forall b ensures b in ApplyFilters(bs, status, tags) <==> b in bs && Matches(b, status, tags) {
            ListedIffMatches(bs, status, tags, b);
          }
        }
        Ok(ApplyFilters(bs, status, tags))
  }

  /** `discover(tags)` lists only open bounties. */
  lemma DiscoveredAreOpen(res: Result<Json, Failure>, tags: seq<string>)
    requires Listed(res, "open", tags).Ok?
    ensures forall b :: b in Listed(res, "open", tags).value ==> b.status == "open"
  {
  }
}
