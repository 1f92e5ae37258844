/** The client-side filtering of `list_bounties`: an exact status match, then
    a match on any of the requested tags, each applied only when its argument
    is non-empty. */
module Filtering {
  import opened Models

  predicate HasAnyTag(b: Bounty, tags: seq<string>) {
    exists t :: t in tags && t in b.tags
  }

  /** The test a listed bounty passes. */
  predicate Matches(b: Bounty, status: string, tags: seq<string>) {
    (status == "" || b.status == status) && (tags == [] || HasAnyTag(b, tags))
  }

  /** `[b for b in bounties if b.status == status]`. */
  function WithStatus(bs: seq<Bounty>, status: string): (r: seq<Bounty>)
    ensures |r| <= |bs|
    ensures forall b :: b in r <==> b in bs && b.status == status
    decreases |bs|
  {
    if bs == [] then []
    else
      assert bs == bs[..|bs| - 1] + [bs[|bs| - 1]];
      WithStatus(bs[..|bs| - 1], status) + (if bs[|bs| - 1].status == status then [bs[|bs| - 1]] else [])
  }

  /** `[b for b in bounties if any(t in b.tags for t in tags)]`. */
  function WithAnyTag(bs: seq<Bounty>, tags: seq<string>): (r: seq<Bounty>)
    ensures |r| <= |bs|
    ensures forall b :: b in r <==> b in bs && HasAnyTag(b, tags)
    decreases |bs|
  {
    if bs == [] then []
    else
      assert bs == bs[..|bs| - 1] + [bs[|bs| - 1]];
      WithAnyTag(bs[..|bs| - 1], tags) + (if HasAnyTag(bs[|bs| - 1], tags) then [bs[|bs| - 1]] else [])
  }

  /** The two filters as `list_bounties` applies them. */
  function ApplyFilters(bs: seq<Bounty>, status: string, tags: seq<string>): (r: seq<Bounty>)
    ensures |r| <= |bs|
    ensures forall b :: b in r <==> b in bs && Matches(b, status, tags)
  {
    var bs := if status != "" then WithStatus(bs, status) else bs;
    if tags != [] then WithAnyTag(bs, tags) else bs
  }

  /** Reference definition: the matching bounties, in one pass. */
  function Selected(bs: seq<Bounty>, status: string, tags: seq<string>): seq<Bounty>
    decreases |bs|
  {
    if bs == [] then []
    else Selected(bs[..|bs| - 1], status, tags) + (if Matches(bs[|bs| - 1], status, tags) then [bs[|bs| - 1]] else [])
  }

  /** The positions of the matching bounties, in increasing order. */
  function MatchIndices(bs: seq<Bounty>, status: string, tags: seq<string>): (ks: seq<nat>)
    ensures forall i :: 0 <= i < |ks| ==> ks[i] < |bs| && Matches(bs[ks[i]], status, tags)
    ensures forall i, j :: 0 <= i < j < |ks| ==> ks[i] < ks[j]
    ensures forall j :: 0 <= j < |bs| && Matches(bs[j], status, tags) ==> j in ks
    decreases |bs|
  {
    if bs == [] then []
    else
      var front := bs[..|bs| - 1];
      assert forall j :: 0 <= j < |front| ==> front[j] == bs[j];
      MatchIndices(front, status, tags) + (if Matches(bs[|bs| - 1], status, tags) then [|bs| - 1] else [])
  }

  /** The two passes keep exactly what the one-pass reference keeps. */
  lemma {:induction false} ApplyFiltersIsSelected(bs: seq<Bounty>, status: string, tags: seq<string>)
    ensures ApplyFilters(bs, status, tags) == Selected(bs, status, tags)
    decreases |bs|
  {
    if bs != [] {
      var front := bs[..|bs| - 1];
      ApplyFiltersIsSelected(front, status, tags);
      if status != "" && tags != [] {
        StatusThenTags(bs, status, tags);
      } else if status != "" {
        StatusOnly(bs, status, tags);
      } else if tags != [] {
        TagsOnly(bs, status, tags);
      } else {
        NoFilter(bs, status, tags);
      }
    }
  }

  lemma {:induction false} StatusThenTags(bs: seq<Bounty>, status: string, tags: seq<string>)
    requires status != "" && tags != []
    ensures WithAnyTag(WithStatus(bs, status), tags) == Selected(bs, status, tags)
    decreases |bs|
  {
    if bs != [] {
      var front, last := bs[..|bs| - 1], bs[|bs| - 1];
      StatusThenTags(front, status, tags);
      var kept := WithStatus(front, status);
      if last.status == status {
        var s := kept + [last];
        assert s[..|s| - 1] == kept && s[|s| - 1] == last;
        assert WithStatus(bs, status) == s;
        assert WithAnyTag(s, tags) == WithAnyTag(kept, tags) + (if HasAnyTag(last, tags) then [last] else []);
      } else {
        assert WithStatus(bs, status) == kept;
      }
      assert Selected(bs, status, tags) == Selected(front, status, tags) + (if Matches(last, status, tags) then [last] else []);
    }
  }

  lemma {:induction false} StatusOnly(bs: seq<Bounty>, status: string, tags: seq<string>)
    requires status != "" && tags == []
    ensures WithStatus(bs, status) == Selected(bs, status, tags)
    decreases |bs|
  {
    if bs != [] {
      StatusOnly(bs[..|bs| - 1], status, tags);
    }
  }

  lemma {:induction false} TagsOnly(bs: seq<Bounty>, status: string, tags: seq<string>)
    requires status == "" && tags != []
    ensures WithAnyTag(bs, tags) == Selected(bs, status, tags)
    decreases |bs|
  {
    if bs != [] {
      TagsOnly(bs[..|bs| - 1], status, tags);
    }
  }

  lemma {:induction false} NoFilter(bs: seq<Bounty>, status: string, tags: seq<string>)
    requires status == "" && tags == []
    ensures bs == Selected(bs, status, tags)
    decreases |bs|
  {
    if bs != [] {
      NoFilter(bs[..|bs| - 1], status, tags);
    }
  }

  /** The filtered list is the matching bounties taken in their original
      order: the i-th kept bounty is the bounty at the i-th matching position. */
  lemma {:induction false} SelectedInOrder(bs: seq<Bounty>, status: string, tags: seq<string>)
    ensures var r, ks := Selected(bs, status, tags), MatchIndices(bs, status, tags);
      |r| == |ks| && forall i :: 0 <= i < |r| ==> r[i] == bs[ks[i]]
    decreases |bs|
  {
    if bs != [] {
      SelectedInOrder(bs[..|bs| - 1], status, tags);
    }
  }

  /** A bounty is listed exactly when it was fetched and matches. */
  lemma ListedIffMatches(bs: seq<Bounty>, status: string, tags: seq<string>, b: Bounty)
    ensures b in ApplyFilters(bs, status, tags) <==> b in bs && Matches(b, status, tags)
  {
    ApplyFiltersIsSelected(bs, status, tags);
    SelectedInOrder(bs, status, tags);
    var r, ks := Selected(bs, status, tags), MatchIndices(bs, status, tags);
    if b in bs && Matches(b, status, tags) {
      var j :| 0 <= j < |bs| && bs[j] == b;
      var i :| 0 <= i < |ks| && ks[i] == j;
      assert r[i] == b;
    }
  }

  /** Filtering what was already filtered changes nothing. */
  lemma FilterIdempotent(bs: seq<Bounty>, status: string, tags: seq<string>)
    ensures ApplyFilters(ApplyFilters(bs, status, tags), status, tags) == ApplyFilters(bs, status, tags)
  {
    ApplyFiltersIsSelected(bs, status, tags);
    var r := Selected(bs, status, tags);
    ApplyFiltersIsSelected(r, status, tags);
    AllMatchSelectsAll(bs, status, tags);
  }

  lemma {:induction false} AllMatchSelectsAll(bs: seq<Bounty>, status: string, tags: seq<string>)
    ensures Selected(Selected(bs, status, tags), status, tags) == Selected(bs, status, tags)
    decreases |bs|
  {
    if bs != [] {
      var front, last := bs[..|bs| - 1], bs[|bs| - 1];
      AllMatchSelectsAll(front, status, tags);
      var kept := Selected(front, status, tags);
      if Matches(last, status, tags) {
        var s := kept + [last];
        assert s[..|s| - 1] == kept && s[|s| - 1] == last;
        assert Selected(bs, status, tags) == s;
        assert Selected(s, status, tags) == Selected(kept, status, tags) + [last];
      } else {
        assert Selected(bs, status, tags) == kept;
      }
    }
  }
}
