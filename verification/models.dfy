/** The domain records and the mappers that build them from decoded responses
    (`Bounty.from_dict`, `Stats.from_dict`, and the `ClaimResult` /
    `SubmitResult` construction in the clients). Each mapper returns the
    exception the Python code would raise as a `ShapeError`. */
module Models {
  import opened Wrappers
  import opened JsonValues
  import opened Text
  import opened Errors

  /** A `datetime`, kept as what it was built from: epoch milliseconds
      (`fromtimestamp(ms / 1000)`), the text handed to `fromisoformat`, or the
      local clock (`datetime.now()`). */
  datatype Instant = EpochMs(ms: int) | IsoText(text: string) | LocalNow

  datatype Submission = Submission(id: string, content: string, proof: Option<string>, submittedAt: Instant)

  datatype Payment = Payment(
    chain: string, token: string, txHash: string,
    grossReward: int, netReward: int, fee: int, feePercent: string,
    processedAt: Instant)

  datatype Bounty = Bounty(
    id: string, uuid: string, title: string, description: string,
    reward: int, rewardFormatted: string, status: string, creator: string,
    deadline: Option<Instant>, tags: seq<string>, requirements: seq<string>,
    submissions: seq<Submission>, claimedBy: Option<string>,
    claimedAt: Option<Instant>, completedAt: Option<Instant>, payment: Option<Payment>)

  datatype Stats = Stats(
    totalBounties: int, openBounties: int, claimedBounties: int,
    completedBounties: int, totalPayouts: int, totalPayoutsFormatted: string)

  datatype ClaimResult = ClaimResult(id: string, status: string, claimedAt: Instant, claimedBy: string)

  datatype SubmitResult = SubmitResult(id: string, status: string, submissionId: string)

  // ---- wire shapes ----------------------------------------------------------

  /** The JSON types under which each reader succeeds. */
  predicate TextOrAbsent(m: map<string, Json>, key: string) {
    key !in m || m[key].JStr?
  }

  predicate IntOrAbsent(m: map<string, Json>, key: string) {
    key !in m || m[key].JInt?
  }

  predicate TextOrNull(m: map<string, Json>, key: string) {
    key !in m || m[key] == JNull || m[key].JStr?
  }

  predicate TextListOrAbsent(m: map<string, Json>, key: string) {
    key !in m || (m[key].JArr? && forall i :: 0 <= i < |m[key].items| ==> m[key].items[i].JStr?)
  }

  /** A timestamp field that is absent, falsy, or an integer. */
  predicate MillisOrFalsy(m: map<string, Json>, key: string) {
    !(key in m && Truthy(m[key])) || AsInt(m[key]).Some?
  }

  // ---- field readers ------------------------------------------------------

  /** `data.get(key, default)` for a string field. */
  function Str(m: map<string, Json>, key: string, default: string): (r: Result<string, ShapeError>)
    ensures r.Ok? <==> key !in m || m[key].JStr?
    ensures r.Ok? ==> StrField(m, key, r.value, default)
  {
    if key !in m then Ok(default)
    else if m[key].JStr? then Ok(m[key].s)
    else Err(WrongType(key))
  }

  /** `data.get(key, default)` for an integer field. */
  function Int(m: map<string, Json>, key: string, default: int): (r: Result<int, ShapeError>)
    ensures r.Ok? <==> key !in m || m[key].JInt?
    ensures r.Ok? ==> if key in m then m[key] == JInt(r.value) else r.value == default
  {
    if key !in m then Ok(default)
    else if m[key].JInt? then Ok(m[key].n)
    else Err(WrongType(key))
  }

  /** `data[key]` for a string field. */
  function RequiredStr(m: map<string, Json>, key: string): (r: Result<string, ShapeError>)
    ensures r.Ok? <==> key in m && m[key].JStr?
    ensures r.Ok? ==> m[key] == JStr(r.value)
    ensures key !in m ==> r == Err(MissingKey(key))
  {
    if key !in m then Err(MissingKey(key))
    else if m[key].JStr? then Ok(m[key].s)
    else Err(WrongType(key))
  }

  /** `data.get(key)` for an optional string field. */
  function OptStr(m: map<string, Json>, key: string): (r: Result<Option<string>, ShapeError>)
    ensures r.Ok? <==> TextOrNull(m, key)
    ensures r.Ok? ==> (r.value.None? <==> key !in m || m[key] == JNull)
    ensures r.Ok? && r.value.Some? ==> m[key] == JStr(r.value.value)
  {
    if key !in m || m[key] == JNull then Ok(None)
    else if m[key].JStr? then Ok(Some(m[key].s))
    else Err(WrongType(key))
  }

  /** Reading one element of a list of strings. */
  function StrItem(key: string): Json -> Result<string, ShapeError> {
    (j: Json) => if j.JStr? then Ok(j.s) else Err(WrongType(key))
  }

  function Strings(xs: seq<Json>, key: string): (r: Result<seq<string>, ShapeError>)
    ensures r.Ok? <==> forall i :: 0 <= i < |xs| ==> xs[i].JStr?
    ensures r.Ok? ==> xs == JStrs(r.value)
  {
    MapResults(xs, StrItem(key))
  }

  /** `data.get(key, [])` for a list of strings. */
  function StrList(m: map<string, Json>, key: string): (r: Result<seq<string>, ShapeError>)
    ensures r.Ok? <==> TextListOrAbsent(m, key)
    ensures r.Ok? ==> ListField(m, key, r.value)
  {
    if key !in m then Ok([])
    else if m[key].JArr? then Strings(m[key].items, key)
    else Err(WrongType(key))
  }

  /** `datetime.fromtimestamp(j / 1000)`. */
  function Millis(j: Json, field: string): (r: Result<Instant, ShapeError>)
    ensures r.Ok? <==> AsInt(j).Some?
    ensures r.Ok? ==> r.value == EpochMs(AsInt(j).value)
  {
    match AsInt(j)
    case Some(ms) => Ok(EpochMs(ms))
    case None => Err(WrongType(field))
  }

  /** `fromtimestamp(data[key] / 1000) if data.get(key) else None`. */
  function OptMillis(m: map<string, Json>, key: string): (r: Result<Option<Instant>, ShapeError>)
    ensures r.Ok? <==> MillisOrFalsy(m, key)
    ensures r.Ok? ==> MillisField(m, key, r.value)
  {
    if key in m && Truthy(m[key]) then
      var t :- Millis(m[key], key);
      Ok(Some(t))
    else Ok(None)
  }

  /** The elements `for x in value` visits, each of which the code then
      indexes as a dict: an empty dict or string iterates nothing, any other
      non-list fails on its first element or is not iterable. */
  function Elements(j: Json, field: string): (r: Result<seq<Json>, ShapeError>)
    ensures r.Ok? <==> j.JArr? || j == JObj(map[]) || j == JStr("")
    ensures r.Ok? ==> r.value == if j.JArr? then j.items else []
  {
    match j
    case JArr(xs) => Ok(xs)
    case JObj(m) => if m == map[] then Ok([]) else Err(WrongType(field))
    case JStr(s) => if s == "" then Ok([]) else Err(WrongType(field))
    case _ => Err(WrongType(field))
  }

  // ---- Bounty.from_dict ---------------------------------------------------

  /** A submission entry the mapper accepts. */
  predicate SubmissionShaped(s: Json) {
    && s.JObj?
    && "id" in s.fields && s.fields["id"].JStr? && "content" in s.fields && s.fields["content"].JStr?
    && TextOrNull(s.fields, "proof")
    && "submittedAt" in s.fields && AsInt(s.fields["submittedAt"]).Some?
  }

  function SubmissionFromDict(s: Json): (r: Result<Submission, ShapeError>)
    ensures r.Ok? <==> SubmissionShaped(s)
    ensures r.Ok? ==> s.JObj? && var m, v := s.fields, r.value;
      && "id" in m && m["id"] == JStr(v.id) && "content" in m && m["content"] == JStr(v.content)
      && (v.proof.None? <==> "proof" !in m || m["proof"] == JNull)
      && (v.proof.Some? ==> m["proof"] == JStr(v.proof.value))
      && "submittedAt" in m && v.submittedAt.EpochMs? && AsInt(m["submittedAt"]) == Some(v.submittedAt.ms)
    ensures s.JObj? && "id" !in s.fields ==> r == Err(MissingKey("id"))
  {
    if !s.JObj? then Err(WrongType("submissions"))
    else
      var m := s.fields;
      var id :- RequiredStr(m, "id");
      var content :- RequiredStr(m, "content");
      var proof :- OptStr(m, "proof");
      var at :- if "submittedAt" in m then Millis(m["submittedAt"], "submittedAt") else Err(MissingKey("submittedAt"));
      Ok(Submission(id, content, proof, at))
  }

  /** The `processedAt` of a payment: the ISO text with "Z" replaced, or the
      local clock when the field is absent or falsy. */
  function ProcessedAt(p: map<string, Json>): (r: Result<Instant, ShapeError>)
    ensures r.Ok? <==> !("processedAt" in p && Truthy(p["processedAt"])) || p["processedAt"].JStr?
    ensures r.Ok? ==> (r.value.LocalNow? <==> !("processedAt" in p && Truthy(p["processedAt"])))
    ensures "processedAt" in p && p["processedAt"].JStr? && p["processedAt"].s != "" ==>
      r == Ok(IsoText(ReplaceZ(p["processedAt"].s)))
  {
    if "processedAt" in p && Truthy(p["processedAt"]) then
      if p["processedAt"].JStr? then Ok(IsoText(ReplaceZ(p["processedAt"].s)))
      else Err(WrongType("processedAt"))
    else Ok(LocalNow)
  }

  /** A payment object the mapper accepts. */
  predicate PaymentShaped(p: map<string, Json>) {
    && TextOrAbsent(p, "chain") && TextOrAbsent(p, "token") && TextOrAbsent(p, "txHash")
    && IntOrAbsent(p, "grossReward") && IntOrAbsent(p, "netReward") && IntOrAbsent(p, "fee")
    && TextOrAbsent(p, "feePercent")
    && (!("processedAt" in p && Truthy(p["processedAt"])) || p["processedAt"].JStr?)
  }

  function PaymentFromDict(p: map<string, Json>): (r: Result<Payment, ShapeError>)
    ensures r.Ok? <==> PaymentShaped(p)
    ensures r.Ok? ==> var v := r.value;
      && StrField(p, "chain", v.chain, "base") && StrField(p, "token", v.token, "USDC")
      && StrField(p, "txHash", v.txHash, "") && StrField(p, "feePercent", v.feePercent, "0%")
      && (if "grossReward" in p then p["grossReward"] == JInt(v.grossReward) else v.grossReward == 0)
      && (if "netReward" in p then p["netReward"] == JInt(v.netReward) else v.netReward == 0)
      && (if "fee" in p then p["fee"] == JInt(v.fee) else v.fee == 0)
      && (v.processedAt.LocalNow? <==> !("processedAt" in p && Truthy(p["processedAt"])))
  {
    var chain :- Str(p, "chain", "base");
    var token :- Str(p, "token", "USDC");
    var txHash :- Str(p, "txHash", "");
    var gross :- Int(p, "grossReward", 0);
    var net :- Int(p, "netReward", 0);
    var fee :- Int(p, "fee", 0);
    var feePercent :- Str(p, "feePercent", "0%");
    var processed :- ProcessedAt(p);
    Ok(Payment(chain, token, txHash, gross, net, fee, feePercent, processed))
  }

  /** The source builds a payment only when `payment` and its `chain` are both truthy. */
  predicate PaymentWanted(m: map<string, Json>) {
    "payment" in m && Truthy(m["payment"]) && m["payment"].JObj?
    && "chain" in m["payment"].fields && Truthy(m["payment"].fields["chain"])
  }

  /** The `payment` field as the mapper accepts it: falsy, or an object that
      is either not built from or well shaped. */
  predicate PaymentFieldShaped(m: map<string, Json>) {
    !("payment" in m && Truthy(m["payment"]))
    || (m["payment"].JObj? && (PaymentWanted(m) ==> PaymentShaped(m["payment"].fields)))
  }

  function PaymentOf(m: map<string, Json>): (r: Result<Option<Payment>, ShapeError>)
    ensures r.Ok? <==> PaymentFieldShaped(m)
    ensures r.Ok? ==> (r.value.Some? <==> PaymentWanted(m))
    ensures r.Ok? && r.value.Some? ==> PaymentFromDict(m["payment"].fields) == Ok(r.value.value)
  {
    if "payment" in m && Truthy(m["payment"]) then
      if !m["payment"].JObj? then Err(WrongType("payment"))
      else if PaymentWanted(m) then
        var p :- PaymentFromDict(m["payment"].fields);
        Ok(Some(p))
      else Ok(None)
    else Ok(None)
  }

  /** The `deadline` branch: an int is epoch milliseconds, anything else goes to `fromisoformat`. */
  predicate DeadlineShaped(m: map<string, Json>) {
    !("deadline" in m && Truthy(m["deadline"]))
    || m["deadline"].JInt? || m["deadline"].JBool? || m["deadline"].JStr?
  }

  function DeadlineOf(m: map<string, Json>): (r: Result<Option<Instant>, ShapeError>)
    ensures r.Ok? <==> DeadlineShaped(m)
    ensures r.Ok? ==> (r.value.None? <==> !("deadline" in m && Truthy(m["deadline"])))
    ensures "deadline" in m && m["deadline"].JInt? && m["deadline"].n != 0 ==> r == Ok(Some(EpochMs(m["deadline"].n)))
    ensures "deadline" in m && m["deadline"].JStr? && m["deadline"].s != "" ==> r == Ok(Some(IsoText(m["deadline"].s)))
  {
    if "deadline" in m && Truthy(m["deadline"]) then
      match m["deadline"]
      case JInt(ms) => Ok(Some(EpochMs(ms)))
      case JBool(_) => Ok(Some(EpochMs(1)))
      case JStr(text) => Ok(Some(IsoText(text)))
      case _ => Err(WrongType("deadline"))
    else Ok(None)
  }

  /** `int(float(data.get("reward", 0)))` for integral values. */
  function Reward(m: map<string, Json>): (r: Result<int, ShapeError>)
    ensures r.Ok? <==> "reward" !in m || AsInt(m["reward"]).Some?
    ensures "reward" !in m ==> r == Ok(0)
    ensures "reward" in m && m["reward"].JInt? ==> r == Ok(m["reward"].n)
  {
    if "reward" !in m then Ok(0)
    else match AsInt(m["reward"])
      case Some(n) => Ok(n)
      case None => Err(WrongType("reward"))
  }

  /** `field` is `v` on the wire when present, and `v` is `default` when absent. */
  predicate StrField(m: map<string, Json>, key: string, v: string, default: string) {
    if key in m then m[key] == JStr(v) else v == default
  }

  predicate ListField(m: map<string, Json>, key: string, v: seq<string>) {
    if key in m then m[key] == JArr(JStrs(v)) else v == []
  }

  /** A timestamp is absent exactly when its field is absent or falsy, and an
      integer field is read as epoch milliseconds. */
  predicate MillisField(m: map<string, Json>, key: string, v: Option<Instant>) {
    && (v.None? <==> !(key in m && Truthy(m[key])))
    && (key in m && m[key].JInt? && m[key].n != 0 ==> v == Some(EpochMs(m[key].n)))
  }

  /** The `submissions` field as the mapper accepts it: absent, iterating
      nothing, or a list of well-shaped entries. */
  predicate SubmissionsShaped(m: map<string, Json>) {
    "submissions" !in m || m["submissions"] == JObj(map[]) || m["submissions"] == JStr("")
    || (m["submissions"].JArr?
        && forall i :: 0 <= i < |m["submissions"].items| ==> SubmissionShaped(m["submissions"].items[i]))
  }

  /** `[Submission(...) for s in data.get("submissions", [])]`. */
  function SubmissionsOf(m: map<string, Json>): (r: Result<seq<Submission>, ShapeError>)
    ensures r.Ok? <==> SubmissionsShaped(m)
    ensures "submissions" !in m ==> r == Ok([])
    ensures r.Ok? && "submissions" in m && m["submissions"].JArr? ==>
      var items := m["submissions"].items;
      |r.value| == |items| && forall i :: 0 <= i < |items| ==> SubmissionFromDict(items[i]) == Ok(r.value[i])
  {
    var items :- Elements(Get(m, "submissions", JArr([])), "submissions");
    MapResults(items, SubmissionFromDict)
  }

  /** A bounty object the mapper accepts: every field it reads is absent or of
      the type the mapping needs. */
  predicate BountyShaped(m: map<string, Json>) {
    && SubmissionsShaped(m) && PaymentFieldShaped(m) && DeadlineShaped(m)
    && TextOrAbsent(m, "id") && TextOrAbsent(m, "uuid") && TextOrAbsent(m, "title")
    && TextOrAbsent(m, "description") && ("reward" !in m || AsInt(m["reward"]).Some?)
    && TextOrAbsent(m, "rewardFormatted") && TextOrAbsent(m, "status") && TextOrAbsent(m, "creator")
    && TextListOrAbsent(m, "tags") && TextListOrAbsent(m, "requirements")
    && TextOrNull(m, "claimedBy") && MillisOrFalsy(m, "claimedAt") && MillisOrFalsy(m, "completedAt")
  }

  function BountyFromDict(data: Json): (r: Result<Bounty, ShapeError>)
    ensures !data.JObj? ==> r == Err(WrongType("bounty"))
    ensures r.Ok? ==> data.JObj? && var m, b := data.fields, r.value;
      && StrField(m, "id", b.id, "") && StrField(m, "uuid", b.uuid, "")
      && StrField(m, "title", b.title, "") && StrField(m, "description", b.description, "")
      && StrField(m, "rewardFormatted", b.rewardFormatted, "0 USDC")
      && StrField(m, "status", b.status, "unknown") && StrField(m, "creator", b.creator, "")
      && ListField(m, "tags", b.tags) && ListField(m, "requirements", b.requirements)
      && Reward(m) == Ok(b.reward)
      && (b.payment.Some? <==> PaymentWanted(m))
      && MillisField(m, "claimedAt", b.claimedAt) && MillisField(m, "completedAt", b.completedAt)
      && (b.claimedBy.None? <==> "claimedBy" !in m || m["claimedBy"] == JNull)
      && (b.claimedBy.Some? ==> m["claimedBy"] == JStr(b.claimedBy.value))
    ensures r.Ok? ==> SubmissionsOf(data.fields) == Ok(r.value.submissions)
    ensures r.Ok? ==> PaymentOf(data.fields) == Ok(r.value.payment)
    ensures r.Ok? ==> DeadlineOf(data.fields) == Ok(r.value.deadline)
    ensures r.Ok? ==> var m, b := data.fields, r.value;
      && StrList(m, "tags") == Ok(b.tags) && StrList(m, "requirements") == Ok(b.requirements)
      && OptStr(m, "claimedBy") == Ok(b.claimedBy)
      && OptMillis(m, "claimedAt") == Ok(b.claimedAt) && OptMillis(m, "completedAt") == Ok(b.completedAt)
  {
    if !data.JObj? then Err(WrongType("bounty"))
    else
      var m := data.fields;
      var submissions :- SubmissionsOf(m);
      var payment :- PaymentOf(m);
      var deadline :- DeadlineOf(m);
      var id :- Str(m, "id", "");
      var uuid :- Str(m, "uuid", "");
      var title :- Str(m, "title", "");
      var description :- Str(m, "description", "");
      var reward :- Reward(m);
      var rewardFormatted :- Str(m, "rewardFormatted", "0 USDC");
      var status :- Str(m, "status", "unknown");
      var creator :- Str(m, "creator", "");
      var tags :- StrList(m, "tags");
      var requirements :- StrList(m, "requirements");
      var claimedBy :- OptStr(m, "claimedBy");
      var claimedAt :- OptMillis(m, "claimedAt");
      var completedAt :- OptMillis(m, "completedAt");
      Ok(Bounty(id, uuid, title, description, reward, rewardFormatted, status, creator,
                deadline, tags, requirements, submissions, claimedBy, claimedAt, completedAt, payment))
  }

  /** `Bounty.from_dict` succeeds on every object whose fields are absent or
      of the type the mapping needs; any missing field takes its default. */
  lemma ShapedBountyMaps(data: Json)
    requires data.JObj? && BountyShaped(data.fields)
    ensures BountyFromDict(data).Ok?
  {
    var m := data.fields;
    assert SubmissionsOf(m).Ok? && PaymentOf(m).Ok? && DeadlineOf(m).Ok? && Reward(m).Ok?;
    assert StrList(m, "tags").Ok? && StrList(m, "requirements").Ok? && OptStr(m, "claimedBy").Ok?;
    assert OptMillis(m, "claimedAt").Ok? && OptMillis(m, "completedAt").Ok?;
  }

  /** And it fails on every other input. */
  lemma MappedBountyIsShaped(data: Json)
    requires BountyFromDict(data).Ok?
    ensures data.JObj? && BountyShaped(data.fields)
  {
    var m, b := data.fields, BountyFromDict(data).value;
    assert StrList(m, "tags") == Ok(b.tags) && StrList(m, "requirements") == Ok(b.requirements);
    assert OptStr(m, "claimedBy") == Ok(b.claimedBy);
    assert OptMillis(m, "claimedAt") == Ok(b.claimedAt) && OptMillis(m, "completedAt") == Ok(b.completedAt);
  }

  /** The mapping succeeds exactly on the well-shaped objects. */
  lemma BountyMapsIffShaped(data: Json)
    ensures BountyFromDict(data).Ok? <==> data.JObj? && BountyShaped(data.fields)
  {
    if data.JObj? && BountyShaped(data.fields) { ShapedBountyMaps(data); }
    if BountyFromDict(data).Ok? { MappedBountyIsShaped(data); }
  }

  /** An empty object maps to a bounty made of every default the mapping names. */
  lemma EmptyBountyDefaults()
    ensures BountyFromDict(JObj(map[]))
      == Ok(Bounty("", "", "", "", 0, "0 USDC", "unknown", "", None, [], [], [], None, None, None, None))
  {
  }

  /** A payment object holding only its chain takes every other default, and its
      missing `processedAt` falls back to the local clock. */
  lemma BarePaymentDefaults()
    ensures PaymentFromDict(map["chain" := JStr("c")]) == Ok(Payment("c", "USDC", "", 0, 0, 0, "0%", LocalNow))
  {
  }

  /** `deadline` is absent exactly when the field is absent or falsy (0, "",
      null, false); an int is epoch milliseconds, a string is ISO text. */
  lemma DeadlineDispatch(data: Json)
    requires BountyFromDict(data).Ok?
    ensures var m, d := data.fields, BountyFromDict(data).value.deadline;
      && (d.None? <==> !("deadline" in m && Truthy(m["deadline"])))
      && ("deadline" in m && m["deadline"].JInt? && m["deadline"].n != 0 ==> d == Some(EpochMs(m["deadline"].n)))
      && ("deadline" in m && m["deadline"].JStr? && m["deadline"].s != "" ==> d == Some(IsoText(m["deadline"].s)))
  {
    assert DeadlineOf(data.fields) == Ok(BountyFromDict(data).value.deadline);
  }

  /** The submissions keep the length and order of the wire list, entry by entry. */
  lemma SubmissionsInOrder(data: Json)
    requires BountyFromDict(data).Ok?
    requires "submissions" in data.fields && data.fields["submissions"].JArr?
    ensures var items, subs := data.fields["submissions"].items, BountyFromDict(data).value.submissions;
      |subs| == |items| && forall i :: 0 <= i < |items| ==> SubmissionFromDict(items[i]) == Ok(subs[i])
  {
    assert SubmissionsOf(data.fields) == Ok(BountyFromDict(data).value.submissions);
  }

  /** A payment, once built, carries the wire's non-empty chain: the "base"
      default can never apply. */
  lemma PaymentChainFromWire(data: Json)
    requires BountyFromDict(data).Ok? && BountyFromDict(data).value.payment.Some?
    ensures var p := data.fields["payment"].fields;
      p["chain"] == JStr(BountyFromDict(data).value.payment.value.chain)
      && BountyFromDict(data).value.payment.value.chain != ""
  {
    var m := data.fields;
    assert PaymentOf(m) == Ok(BountyFromDict(data).value.payment);
    assert PaymentWanted(m);
    var p := PaymentFromDict(m["payment"].fields);
    assert p.Ok? && p.value == BountyFromDict(data).value.payment.value;
  }

  // ---- list_bounties, get_stats, claim_bounty, submit_bounty ---------------

  /** `[Bounty.from_dict(b) for b in data]`. */
  function BountiesFromList(data: Json): (r: Result<seq<Bounty>, ShapeError>)
    ensures r.Ok? && data.JArr? ==>
      |r.value| == |data.items| && forall i :: 0 <= i < |data.items| ==> BountyFromDict(data.items[i]) == Ok(r.value[i])
    ensures data.JArr? && (forall i :: 0 <= i < |data.items| ==> BountyFromDict(data.items[i]).Ok?) ==> r.Ok?
  {
    var items :- Elements(data, "bounties");
    MapResults(items, BountyFromDict)
  }

  function StatsFromDict(data: Json): (r: Result<Stats, ShapeError>)
    ensures r.Ok? <==> data.JObj? && var m := data.fields;
      && IntOrAbsent(m, "totalBounties") && IntOrAbsent(m, "openBounties")
      && IntOrAbsent(m, "claimedBounties") && IntOrAbsent(m, "completedBounties")
      && IntOrAbsent(m, "totalPayouts") && TextOrAbsent(m, "totalPayoutsFormatted")
    ensures r.Ok? ==> data.JObj? && var m, v := data.fields, r.value;
      && (if "totalBounties" in m then m["totalBounties"] == JInt(v.totalBounties) else v.totalBounties == 0)
      && (if "openBounties" in m then m["openBounties"] == JInt(v.openBounties) else v.openBounties == 0)
      && (if "claimedBounties" in m then m["claimedBounties"] == JInt(v.claimedBounties) else v.claimedBounties == 0)
      && (if "completedBounties" in m then m["completedBounties"] == JInt(v.completedBounties) else v.completedBounties == 0)
      && (if "totalPayouts" in m then m["totalPayouts"] == JInt(v.totalPayouts) else v.totalPayouts == 0)
      && StrField(m, "totalPayoutsFormatted", v.totalPayoutsFormatted, "0 USDC")
  {
    if !data.JObj? then Err(WrongType("stats"))
    else
      var m := data.fields;
      var total :- Int(m, "totalBounties", 0);
      var open :- Int(m, "openBounties", 0);
      var claimed :- Int(m, "claimedBounties", 0);
      var completed :- Int(m, "completedBounties", 0);
      var payouts :- Int(m, "totalPayouts", 0);
      var formatted :- Str(m, "totalPayoutsFormatted", "0 USDC");
      Ok(Stats(total, open, claimed, completed, payouts, formatted))
  }

  /** An empty object maps to all-zero statistics. */
  lemma EmptyStatsDefaults()
    ensures StatsFromDict(JObj(map[])) == Ok(Stats(0, 0, 0, 0, 0, "0 USDC"))
  {
  }

  /** `ClaimResult(id=data["id"], status=data["status"],
      claimed_at=fromtimestamp(data["claimedAt"] / 1000), claimed_by=data["claimedBy"])`. */
  function ClaimResultFromDict(data: Json): (r: Result<ClaimResult, ShapeError>)
    ensures r.Ok? <==> data.JObj? && var m := data.fields;
      && "id" in m && m["id"].JStr? && "status" in m && m["status"].JStr?
      && "claimedAt" in m && AsInt(m["claimedAt"]).Some? && "claimedBy" in m && m["claimedBy"].JStr?
    ensures r.Ok? ==> var m, v := data.fields, r.value;
      m["id"] == JStr(v.id) && m["status"] == JStr(v.status)
      && v.claimedAt == EpochMs(AsInt(m["claimedAt"]).value) && m["claimedBy"] == JStr(v.claimedBy)
  {
    if !data.JObj? then Err(WrongType("claim"))
    else
      var m := data.fields;
      var id :- RequiredStr(m, "id");
      var status :- RequiredStr(m, "status");
      var at :- if "claimedAt" in m then Millis(m["claimedAt"], "claimedAt") else Err(MissingKey("claimedAt"));
      var claimant :- RequiredStr(m, "claimedBy");
      Ok(ClaimResult(id, status, at, claimant))
  }

  /** `SubmitResult(id=data["id"], status=data["status"],
      submission_id=data["submissions"][-1]["id"])`. */
  function SubmitResultFromDict(data: Json): (r: Result<SubmitResult, ShapeError>)
    ensures r.Ok? <==> data.JObj? && var m := data.fields;
      && "id" in m && m["id"].JStr? && "status" in m && m["status"].JStr?
      && "submissions" in m && m["submissions"].JArr? && |m["submissions"].items| > 0
      && var last := m["submissions"].items[|m["submissions"].items| - 1];
         last.JObj? && "id" in last.fields && last.fields["id"].JStr?
    ensures r.Ok? ==> data.JObj? && var m := data.fields;
      && "id" in m && m["id"] == JStr(r.value.id) && "status" in m && m["status"] == JStr(r.value.status)
      && "submissions" in m && m["submissions"].JArr? && |m["submissions"].items| > 0
      && var last := m["submissions"].items[|m["submissions"].items| - 1];
         last.JObj? && "id" in last.fields && last.fields["id"] == JStr(r.value.submissionId)
    ensures data.JObj? && "id" in data.fields && data.fields["id"].JStr?
      && "status" in data.fields && data.fields["status"].JStr?
      && "submissions" in data.fields && data.fields["submissions"] == JArr([])
      ==> r == Err(EmptyList("submissions"))
  {
    if !data.JObj? then Err(WrongType("submit"))
    else
      var m := data.fields;
      var id :- RequiredStr(m, "id");
      var status :- RequiredStr(m, "status");
      if "submissions" !in m then Err(MissingKey("submissions"))
      else if !m["submissions"].JArr? then Err(WrongType("submissions"))
      else if m["submissions"].items == [] then Err(EmptyList("submissions"))
      else
        var last := m["submissions"].items[|m["submissions"].items| - 1];
        if !last.JObj? then Err(WrongType("submissions"))
        else
          var sid :- RequiredStr(last.fields, "id");
          Ok(SubmitResult(id, status, sid))
  }
}
