/** The service's side of the wire: how a record is written as JSON, and the
    proof that the mappers read back exactly what was written. */
module Wire {
  import opened Wrappers
  import opened JsonValues
  import opened Text
  import opened Models

  /** An instant as the service writes it; the local clock is never sent. */
  function InstantToWire(t: Instant): Json {
    match t
    case EpochMs(ms) => JInt(ms)
    case IsoText(text) => JStr(text)
    case LocalNow => JNull
  }

  /** An optional text field: the text, or `null` when there is none. */
  function StrOrNull(o: Option<string>): Json {
    if o.Some? then JStr(o.value) else JNull
  }

  /** An optional timestamp: the instant, or `null` when there is none. */
  function InstantOrNull(o: Option<Instant>): Json {
    if o.Some? then InstantToWire(o.value) else JNull
  }

  function SubmissionToWire(s: Submission): Json {
    JObj(map["id" := JStr(s.id), "content" := JStr(s.content), "proof" := StrOrNull(s.proof),
             "submittedAt" := InstantToWire(s.submittedAt)])
  }

  function SubmissionsToWire(subs: seq<Submission>): seq<Json> {
    seq(|subs|, i requires 0 <= i < |subs| => SubmissionToWire(subs[i]))
  }

  function PaymentToWire(p: Payment): Json {
    JObj(map["chain" := JStr(p.chain), "token" := JStr(p.token), "txHash" := JStr(p.txHash),
             "grossReward" := JInt(p.grossReward), "netReward" := JInt(p.netReward),
             "fee" := JInt(p.fee), "feePercent" := JStr(p.feePercent),
             "processedAt" := InstantToWire(p.processedAt)])
  }

  /** A bounty as the service writes it: every field present, an absent
      optional one as `null`. */
  function BountyToWire(b: Bounty): Json {
    JObj(map["id" := JStr(b.id), "uuid" := JStr(b.uuid), "title" := JStr(b.title),
             "description" := JStr(b.description), "reward" := JInt(b.reward),
             "rewardFormatted" := JStr(b.rewardFormatted), "status" := JStr(b.status),
             "creator" := JStr(b.creator), "tags" := JArr(JStrs(b.tags)),
             "requirements" := JArr(JStrs(b.requirements)),
             "submissions" := JArr(SubmissionsToWire(b.submissions)),
             "deadline" := InstantOrNull(b.deadline), "claimedBy" := StrOrNull(b.claimedBy),
             "claimedAt" := InstantOrNull(b.claimedAt), "completedAt" := InstantOrNull(b.completedAt),
             "payment" := if b.payment.Some? then PaymentToWire(b.payment.value) else JNull])
  }

  function StatsToWire(s: Stats): Json {
    JObj(map["totalBounties" := JInt(s.totalBounties), "openBounties" := JInt(s.openBounties),
             "claimedBounties" := JInt(s.claimedBounties), "completedBounties" := JInt(s.completedBounties),
             "totalPayouts" := JInt(s.totalPayouts), "totalPayoutsFormatted" := JStr(s.totalPayoutsFormatted)])
  }

  // ---- which records the wire can carry ------------------------------------

  /** A timestamp the service sends as non-zero epoch milliseconds, or as `null`. */
  predicate MillisCarried(t: Option<Instant>) {
    t.None? || (t.value.EpochMs? && t.value.ms != 0)
  }

  predicate DeadlineCarried(t: Option<Instant>) {
    MillisCarried(t) || (t.value.IsoText? && t.value.text != "")
  }

  /** A payment the mapper builds: a non-empty chain, and a processing time
      that is either absent or ISO text already in "+00:00" form. */
  predicate PaymentCarried(p: Option<Payment>) {
    p.None? ||
    (p.value.chain != "" &&
     (p.value.processedAt.LocalNow? ||
      (p.value.processedAt.IsoText? && p.value.processedAt.text != "" && 'Z' !in p.value.processedAt.text)))
  }

  predicate Carried(b: Bounty) {
    && (forall s :: s in b.submissions ==> s.submittedAt.EpochMs?)
    && DeadlineCarried(b.deadline) && MillisCarried(b.claimedAt) && MillisCarried(b.completedAt)
    && PaymentCarried(b.payment)
  }

  // ---- round trips ----------------------------------------------------------

  lemma StringsRoundTrip(xs: seq<string>, key: string)
    ensures Strings(JStrs(xs), key) == Ok(xs)
  {
    MapResultsOfOks(JStrs(xs), xs, StrItem(key));
  }

  lemma SubmissionRoundTrip(s: Submission)
    requires s.submittedAt.EpochMs?
    ensures SubmissionFromDict(SubmissionToWire(s)) == Ok(s)
  {
  }

  lemma SubmissionsRoundTrip(subs: seq<Submission>)
    requires forall s :: s in subs ==> s.submittedAt.EpochMs?
    ensures MapResults(SubmissionsToWire(subs), SubmissionFromDict) == Ok(subs)
  {
    var xs := SubmissionsToWire(subs);
    forall i | 0 <= i < |subs| ensures SubmissionFromDict(xs[i]) == Ok(subs[i]) {
      SubmissionRoundTrip(subs[i]);
    }
    MapResultsOfOks(xs, subs, SubmissionFromDict);
  }

  lemma PaymentRoundTrip(p: Payment)
    requires PaymentCarried(Some(p))
    ensures PaymentFromDict(PaymentToWire(p).fields) == Ok(p)
  {
  }

  // What each field reader finds in the encoded object, a few fields at a time.

  lemma WireIds(b: Bounty)
    ensures var m := BountyToWire(b).fields;
      Str(m, "id", "") == Ok(b.id) && Str(m, "uuid", "") == Ok(b.uuid)
  {
  }

  lemma WireTitle(b: Bounty)
    ensures var m := BountyToWire(b).fields;
      Str(m, "title", "") == Ok(b.title) && Str(m, "description", "") == Ok(b.description)
  {
  }

  lemma WireReward(b: Bounty)
    ensures var m := BountyToWire(b).fields;
      Reward(m) == Ok(b.reward) && Str(m, "rewardFormatted", "0 USDC") == Ok(b.rewardFormatted)
  {
  }

  lemma WireStatus(b: Bounty)
    ensures var m := BountyToWire(b).fields;
      Str(m, "status", "unknown") == Ok(b.status) && Str(m, "creator", "") == Ok(b.creator)
  {
  }

  lemma WireTags(b: Bounty)
    ensures var m := BountyToWire(b).fields;
      StrList(m, "tags") == Ok(b.tags) && StrList(m, "requirements") == Ok(b.requirements)
  {
    var m := BountyToWire(b).fields;
    assert m["tags"] == JArr(JStrs(b.tags)) && m["requirements"] == JArr(JStrs(b.requirements));
    StringsRoundTrip(b.tags, "tags");
    StringsRoundTrip(b.requirements, "requirements");
  }

  lemma WireSubmissions(b: Bounty)
    requires forall s :: s in b.submissions ==> s.submittedAt.EpochMs?
    ensures SubmissionsOf(BountyToWire(b).fields) == Ok(b.submissions)
  {
    var m := BountyToWire(b).fields;
    assert m["submissions"] == JArr(SubmissionsToWire(b.submissions));
    SubmissionsRoundTrip(b.submissions);
  }

  lemma WireDeadline(b: Bounty)
    requires DeadlineCarried(b.deadline)
    ensures DeadlineOf(BountyToWire(b).fields) == Ok(b.deadline)
  {
    assert BountyToWire(b).fields["deadline"] == InstantOrNull(b.deadline);
  }

  lemma WireClaim(b: Bounty)
    requires MillisCarried(b.claimedAt)
    ensures var m := BountyToWire(b).fields;
      OptStr(m, "claimedBy") == Ok(b.claimedBy) && OptMillis(m, "claimedAt") == Ok(b.claimedAt)
  {
    var m := BountyToWire(b).fields;
    assert m["claimedBy"] == StrOrNull(b.claimedBy) && m["claimedAt"] == InstantOrNull(b.claimedAt);
  }

  lemma WireCompleted(b: Bounty)
    requires MillisCarried(b.completedAt)
    ensures OptMillis(BountyToWire(b).fields, "completedAt") == Ok(b.completedAt)
  {
    assert BountyToWire(b).fields["completedAt"] == InstantOrNull(b.completedAt);
  }

  lemma WirePayment(b: Bounty)
    requires PaymentCarried(b.payment)
    ensures PaymentOf(BountyToWire(b).fields) == Ok(b.payment)
  {
    var m := BountyToWire(b).fields;
    if b.payment.Some? {
      var pw := PaymentToWire(b.payment.value);
      assert m["payment"] == pw;
      assert "chain" in pw.fields && pw.fields["chain"] == JStr(b.payment.value.chain);
      assert PaymentWanted(m);
      PaymentRoundTrip(b.payment.value);
    } else {
      assert m["payment"] == JNull;
    }
  }

  /** `Bounty.from_dict` assembles exactly the values its field readers return. */
  lemma FromFields(m: map<string, Json>, b: Bounty)
    requires && SubmissionsOf(m) == Ok(b.submissions) && PaymentOf(m) == Ok(b.payment)
      && DeadlineOf(m) == Ok(b.deadline)
      && Str(m, "id", "") == Ok(b.id) && Str(m, "uuid", "") == Ok(b.uuid)
      && Str(m, "title", "") == Ok(b.title) && Str(m, "description", "") == Ok(b.description)
      && Reward(m) == Ok(b.reward) && Str(m, "rewardFormatted", "0 USDC") == Ok(b.rewardFormatted)
      && Str(m, "status", "unknown") == Ok(b.status) && Str(m, "creator", "") == Ok(b.creator)
      && StrList(m, "tags") == Ok(b.tags) && StrList(m, "requirements") == Ok(b.requirements)
      && OptStr(m, "claimedBy") == Ok(b.claimedBy)
      && OptMillis(m, "claimedAt") == Ok(b.claimedAt) && OptMillis(m, "completedAt") == Ok(b.completedAt)
    ensures BountyFromDict(JObj(m)) == Ok(b)
  {
  }

  /** Every record the service can send is read back unchanged by `Bounty.from_dict`. */
  lemma BountyRoundTrip(b: Bounty)
    requires Carried(b)
    ensures BountyFromDict(BountyToWire(b)) == Ok(b)
  {
    WireIds(b);
    WireTitle(b);
    WireReward(b);
    WireStatus(b);
    WireTags(b);
    WireSubmissions(b);
    WireDeadline(b);
    WireClaim(b);
    WireCompleted(b);
    WirePayment(b);
    FromFields(BountyToWire(b).fields, b);
  }

  lemma StatsRoundTrip(s: Stats)
    ensures StatsFromDict(StatsToWire(s)) == Ok(s)
  {
  }
}
