/**
 * The aggregation pass of `GET /leads`: one left-to-right walk over the lead
 * records that counts leads by status, by program, brand and UTM medium, and
 * by day, week and month of creation, and lists one detail entry per lead.
 */
module Leads {
  import opened Wrappers
  import opened JsonValues
  import opened Calendar
  import opened Timestamps
  import opened Counting

  /** A lead record as decoded from the CRM's JSON: field name to value. */
  type Lead = map<string, JsonValue>

  /** `record.get(key, default)`: the stored value, even an explicit null, or the default when the key is absent. */
  function Get(lead: Lead, key: string, default: JsonValue): JsonValue {
    if key in lead then lead[key] else default
  }

  /** The three attribution fields counted by their text. */
  datatype Category = Program | Brand | UtmMedium

  function FieldName(c: Category): string {
    match c
    case Program => "ala_utmcampaignname"
    case Brand => "ala_marketsegment"
    case UtmMedium => "ala_utmmedium"
  }

  function DefaultName(c: Category): string {
    match c
    case Program => "Unknown Program"
    case Brand => "Unknown Brand"
    case UtmMedium => "Unknown UTM Medium"
  }

  /** The attribution value of a lead, with the named default for a missing field. */
  function CategoryValue(lead: Lead, c: Category): JsonValue {
    Get(lead, FieldName(c), Str(DefaultName(c)))
  }

  /** The raw `statecode`, the string "Unknown" when the field is absent. */
  function StateCode(lead: Lead): JsonValue {
    Get(lead, "statecode", Str("Unknown"))
  }

  /** The raw `createdon`, null when the field is absent. */
  function CreatedOn(lead: Lead): JsonValue {
    Get(lead, "createdon", Null)
  }

  datatype Status = Open | Qualified | Disqualified | Unknown

  function StatusName(s: Status): string {
    match s
    case Open => "Open"
    case Qualified => "Qualified"
    case Disqualified => "Disqualified"
    case Unknown => "Unknown"
  }

  /** The status of a state code: only the integers 0, 1 and 2 are recognised,
      and since a JSON boolean is an integer in Python, `false` and `true`
      count as 0 and 1. Every other value, a string or null included, is Unknown. */
  function Classify(code: JsonValue): (s: Status)
    ensures s == Open <==> code == Int(0) || code == Bool(false)
    ensures s == Qualified <==> code == Int(1) || code == Bool(true)
    ensures s == Disqualified <==> code == Int(2)
    ensures s == Unknown <==> !(code.Int? && 0 <= code.i <= 2) && !code.Bool?
  {
    match code
    case Bool(b) => if b then Qualified else Open
    case Int(i) => if i == 0 then Open else if i == 1 then Qualified else if i == 2 then Disqualified else Unknown
    case _ => Unknown
  }

  /** Why the whole aggregation aborted: a true `createdon` that is not a
      string (`TypeError`), or a string that does not parse (`ValueError`). */
  datatype CreatedOnError = NotAString(value: JsonValue) | Unparsable(text: string, reason: ParseError)

  /** `if CreatedOn: datetime.strptime(CreatedOn, ...)` for one lead: no
      timestamp for a false value, the parsed timestamp, or the exception. */
  function CreatedOnOutcome(v: JsonValue): (r: Result<Option<DateTime>, CreatedOnError>)
    ensures r == Ok(None) <==> !Truthy(v)
    ensures r.Ok? && r.value.Some? ==> ValidDateTime(r.value.value)
    ensures r.Err? <==> Truthy(v) && (!v.Str? || ParseCreatedOn(v.s).Err?)
    ensures r.Err? && r.error.NotAString? ==> r.error.value == v
    ensures Truthy(v) && v.Str? && ParseCreatedOn(v.s).Ok? ==> r == Ok(Some(ParseCreatedOn(v.s).value))
    ensures r.Err? && r.error.Unparsable? ==> v == Str(r.error.text) && ParseCreatedOn(r.error.text) == Err(r.error.reason)
  {
    if !Truthy(v) then Ok(None)
    else match v
      case Str(s) =>
        (match ParseCreatedOn(s)
         case Ok(t) => Ok(Some(t))
         case Err(e) => Err(Unparsable(s, e)))
      case _ => Err(NotAString(v))
  }

  /** The lead's creation outcome. */
  function Created(lead: Lead): Result<Option<DateTime>, CreatedOnError> {
    CreatedOnOutcome(CreatedOn(lead))
  }

  datatype Period = Day | Week | Month

  /** The bucket key of a timestamp for one period. */
  function BucketKey(t: DateTime, p: Period): string
    requires ValidDateTime(t)
  {
    match p
    case Day => DayKey(t.date)
    case Week => WeekKey(t.date)
    case Month => MonthKey(t.date)
  }

  /** One entry of `lead_details`: the attribution values after defaults, the
      raw state code, the computed status and the raw creation value. */
  datatype Detail = Detail(program: JsonValue, brand: JsonValue, utmMedium: JsonValue,
                           statecode: JsonValue, leadStatus: string, createdOn: JsonValue)

  function DetailOf(lead: Lead): Detail {
    Detail(CategoryValue(lead, Program), CategoryValue(lead, Brand), CategoryValue(lead, UtmMedium),
           StateCode(lead), StatusName(Classify(StateCode(lead))), CreatedOn(lead))
  }

  /** The JSON object the endpoint returns. */
  datatype Report = Report(
    totalLeads: nat,
    openLeads: nat,
    qualifiedLeads: nat,
    disqualifiedLeads: nat,
    programClassification: map<string, nat>,
    brandClassification: map<string, nat>,
    utmMediumClassification: map<string, nat>,
    dailyLeads: map<string, nat>,
    weeklyLeads: map<string, nat>,
    monthlyLeads: map<string, nat>,
    leadDetails: seq<Detail>)

  // Reference definition of the aggregation, one notion at a time.

  /** The number of leads whose state code classifies as `st`. */
  function StatusCount(leads: seq<Lead>, st: Status): nat
    decreases |leads|
  {
    if leads == [] then 0
    else StatusCount(leads[..|leads| - 1], st) + (if Classify(StateCode(leads[|leads| - 1])) == st then 1 else 0)
  }

  /** The classification key (`str(value)`) of every lead for one category, in order. */
  function CategoryKeys(leads: seq<Lead>, c: Category): seq<string>
    decreases |leads|
  {
    if leads == [] then []
    else CategoryKeys(leads[..|leads| - 1], c) + [PyStr(CategoryValue(leads[|leads| - 1], c))]
  }

  /** The bucket keys for one period of the leads that carry a parsed
      timestamp, in order; leads without one contribute nothing. */
  function DatedKeys(leads: seq<Lead>, p: Period): seq<string>
    decreases |leads|
  {
    if leads == [] then []
    else
      DatedKeys(leads[..|leads| - 1], p) + LeadBucket(leads[|leads| - 1], p)
  }

  /** The bucket key of one lead for one period, if it has a parsed timestamp. */
  function LeadBucket(lead: Lead, p: Period): seq<string> {
    match Created(lead)
    case Ok(Some(t)) => [BucketKey(t, p)]
    case _ => []
  }

  /** The counts for one category of the leads, one lead at a time. */
  function CategoryCounts(leads: seq<Lead>, c: Category): map<string, nat>
    decreases |leads|
  {
    if leads == [] then map[]
    else Increment(CategoryCounts(leads[..|leads| - 1], c), PyStr(CategoryValue(leads[|leads| - 1], c)))
  }

  /** The counts for one period of the leads, one lead at a time; a lead
      without a parsed timestamp changes nothing. */
  function DatedCounts(leads: seq<Lead>, p: Period): map<string, nat>
    decreases |leads|
  {
    if leads == [] then map[]
    else
      var before := DatedCounts(leads[..|leads| - 1], p);
      match Created(leads[|leads| - 1])
      case Ok(Some(t)) => Increment(before, BucketKey(t, p))
      case _ => before
  }

  /** The detail entry of every lead, in order. */
  function Details(leads: seq<Lead>): seq<Detail>
    decreases |leads|
  {
    if leads == [] then [] else Details(leads[..|leads| - 1]) + [DetailOf(leads[|leads| - 1])]
  }

  /** The error of the first lead whose creation value aborts the pass, if any. */
  function FirstFailure(leads: seq<Lead>): Option<CreatedOnError>
    decreases |leads|
  {
    if leads == [] then None
    else match FirstFailure(leads[..|leads| - 1])
      case Some(e) => Some(e)
      case None =>
        match Created(leads[|leads| - 1])
        case Err(e) => Some(e)
        case Ok(_) => None
  }

  /** What the endpoint computes from the leads, or the exception that aborts it. */
  function Summarize(leads: seq<Lead>): Result<Report, CreatedOnError> {
    match FirstFailure(leads)
    case Some(e) => Err(e)
    case None =>
      Ok(Report(
        |leads|,
        StatusCount(leads, Open),
        StatusCount(leads, Qualified),
        StatusCount(leads, Disqualified),
        CategoryCounts(leads, Program),
        CategoryCounts(leads, Brand),
        CategoryCounts(leads, UtmMedium),
        DatedCounts(leads, Day),
        DatedCounts(leads, Week),
        DatedCounts(leads, Month),
        Details(leads)))
  }

  /** The aggregation loop of `get_leads`. */
  method Aggregate(leads: seq<Lead>) returns (r: Result<Report, CreatedOnError>)
    ensures r == Summarize(leads)
  {
    var totalLeads := |leads|;
    var programClassification: map<string, nat> := map[];
    var brandClassification: map<string, nat> := map[];
    var utmMediumClassification: map<string, nat> := map[];
    var dailyLeads: map<string, nat> := map[];
    var weeklyLeads: map<string, nat> := map[];
    var monthlyLeads: map<string, nat> := map[];
    var openLeads, qualifiedLeads, disqualifiedLeads := 0, 0, 0;
    var details: seq<Detail> := [];

    var i := 0;
    while i < |leads|
      invariant 0 <= i <= |leads|
      invariant FirstFailure(leads[..i]) == None
      invariant openLeads == StatusCount(leads[..i], Open)
      invariant qualifiedLeads == StatusCount(leads[..i], Qualified)
      invariant disqualifiedLeads == StatusCount(leads[..i], Disqualified)
      invariant programClassification == CategoryCounts(leads[..i], Program)
      invariant brandClassification == CategoryCounts(leads[..i], Brand)
      invariant utmMediumClassification == CategoryCounts(leads[..i], UtmMedium)
      invariant dailyLeads == DatedCounts(leads[..i], Day)
      invariant weeklyLeads == DatedCounts(leads[..i], Week)
      invariant monthlyLeads == DatedCounts(leads[..i], Month)
      invariant details == Details(leads[..i])
    {
      var lead := leads[i];
      var program := CategoryValue(lead, Program);
      var brand := CategoryValue(lead, Brand);
      var utmMedium := CategoryValue(lead, UtmMedium);
      var stateCode := StateCode(lead);
      var createdOn := CreatedOn(lead);

      var leadStatus := Classify(stateCode);
      openLeads, qualifiedLeads, disqualifiedLeads := CountStatus(leads, i, leadStatus, openLeads, qualifiedLeads, disqualifiedLeads);

      var created := CreatedOnOutcome(createdOn);
      if created.Err? {
        FailureStep(leads, i);
        return Err(created.error);
      }
      dailyLeads, weeklyLeads, monthlyLeads := CountCreated(leads, i, created.value, dailyLeads, weeklyLeads, monthlyLeads);

      programClassification := CountCategory(leads, i, Program, program, programClassification);
      brandClassification := CountCategory(leads, i, Brand, brand, brandClassification);
      utmMediumClassification := CountCategory(leads, i, UtmMedium, utmMedium, utmMediumClassification);

      PrefixStep(leads, i);
      details := details + [Detail(program, brand, utmMedium, stateCode, StatusName(leadStatus), createdOn)];
      i := i + 1;
    }

    assert leads[..i] == leads;
    r := Ok(Report(totalLeads, openLeads, qualifiedLeads, disqualifiedLeads,
                   programClassification, brandClassification, utmMediumClassification,
                   dailyLeads, weeklyLeads, monthlyLeads, details));
  }

  /** The `if`/`elif` chain on the lead status: one of the three counters
      goes up, or none for an unknown status. */
  method CountStatus(ghost leads: seq<Lead>, ghost i: nat, leadStatus: Status, openLeads: nat, qualifiedLeads: nat, disqualifiedLeads: nat)
    returns (open': nat, qualified': nat, disqualified': nat)
    requires i < |leads| && leadStatus == Classify(StateCode(leads[i]))
    requires openLeads == StatusCount(leads[..i], Open)
    requires qualifiedLeads == StatusCount(leads[..i], Qualified)
    requires disqualifiedLeads == StatusCount(leads[..i], Disqualified)
    ensures open' == StatusCount(leads[..i + 1], Open)
    ensures qualified' == StatusCount(leads[..i + 1], Qualified)
    ensures disqualified' == StatusCount(leads[..i + 1], Disqualified)
  {
    PrefixStep(leads, i);
    open', qualified', disqualified' := openLeads, qualifiedLeads, disqualifiedLeads;
    match leadStatus {
      case Open => open' := open' + 1;
      case Qualified => qualified' := qualified' + 1;
      case Disqualified => disqualified' := disqualified' + 1;
      case Unknown =>
    }
  }

  /** The three time buckets of a lead with a parsed timestamp go up by one;
      a lead without one leaves them alone. */
  method CountCreated(ghost leads: seq<Lead>, ghost i: nat, created: Option<DateTime>,
                      dailyLeads: map<string, nat>, weeklyLeads: map<string, nat>, monthlyLeads: map<string, nat>)
    returns (daily': map<string, nat>, weekly': map<string, nat>, monthly': map<string, nat>)
    requires i < |leads| && Created(leads[i]) == Ok(created)
    requires dailyLeads == DatedCounts(leads[..i], Day)
    requires weeklyLeads == DatedCounts(leads[..i], Week)
    requires monthlyLeads == DatedCounts(leads[..i], Month)
    ensures daily' == DatedCounts(leads[..i + 1], Day)
    ensures weekly' == DatedCounts(leads[..i + 1], Week)
    ensures monthly' == DatedCounts(leads[..i + 1], Month)
  {
    DatedStep(leads, i, Day);
    DatedStep(leads, i, Week);
    DatedStep(leads, i, Month);
    daily', weekly', monthly' := dailyLeads, weeklyLeads, monthlyLeads;
    if created.Some? {
      var createdDate := created.value;
      var dayStr, weekStr, monthStr := BucketKey(createdDate, Day), BucketKey(createdDate, Week), BucketKey(createdDate, Month);
      daily' := Increment(daily', dayStr);
      weekly' := Increment(weekly', weekStr);
      monthly' := Increment(monthly', monthStr);
    }
  }

  /** `classification[str(value)] += 1` for one category. */
  method CountCategory(ghost leads: seq<Lead>, ghost i: nat, c: Category, value: JsonValue, counts: map<string, nat>)
    returns (counts': map<string, nat>)
    requires i < |leads| && value == CategoryValue(leads[i], c)
    requires counts == CategoryCounts(leads[..i], c)
    ensures counts' == CategoryCounts(leads[..i + 1], c)
  {
    CategoryStep(leads, i, c);
    counts' := Increment(counts, PyStr(value));
  }

  /** How the status counts, the details and the first failure of a prefix
      grow by one lead. */
  lemma PrefixStep(leads: seq<Lead>, i: nat)
    requires i < |leads|
    ensures StatusCount(leads[..i + 1], Open) == StatusCount(leads[..i], Open) + (if Classify(StateCode(leads[i])) == Open then 1 else 0)
    ensures StatusCount(leads[..i + 1], Qualified) == StatusCount(leads[..i], Qualified) + (if Classify(StateCode(leads[i])) == Qualified then 1 else 0)
    ensures StatusCount(leads[..i + 1], Disqualified) == StatusCount(leads[..i], Disqualified) + (if Classify(StateCode(leads[i])) == Disqualified then 1 else 0)
    ensures Details(leads[..i + 1]) == Details(leads[..i]) + [DetailOf(leads[i])]
    ensures FirstFailure(leads[..i]) == None ==> (FirstFailure(leads[..i + 1]) == None <==> Created(leads[i]).Ok?)
  {
    assert leads[..i + 1][..i] == leads[..i];
  }

  /** How one category's counts grow by one lead. */
  lemma CategoryStep(leads: seq<Lead>, i: nat, c: Category)
    requires i < |leads|
    ensures CategoryCounts(leads[..i + 1], c) == Increment(CategoryCounts(leads[..i], c), PyStr(CategoryValue(leads[i], c)))
  {
    assert leads[..i + 1][..i] == leads[..i];
  }

  /** How one period's counts grow by one lead. */
  lemma DatedStep(leads: seq<Lead>, i: nat, p: Period)
    requires i < |leads|
    ensures Created(leads[i]).Ok? && Created(leads[i]).value.Some? ==>
      DatedCounts(leads[..i + 1], p) == Increment(DatedCounts(leads[..i], p), BucketKey(Created(leads[i]).value.value, p))
    ensures Created(leads[i]).Ok? && Created(leads[i]).value.None? ==>
      DatedCounts(leads[..i + 1], p) == DatedCounts(leads[..i], p)
  {
    assert leads[..i + 1][..i] == leads[..i];
  }

  /** A failing lead after a clean prefix is the failure of the whole list. */
  lemma FailureStep(leads: seq<Lead>, i: nat)
    requires i < |leads| && FirstFailure(leads[..i]) == None && Created(leads[i]).Err?
    ensures Summarize(leads) == Err(Created(leads[i]).error)
  {
    assert leads[..i + 1][..i] == leads[..i];
    FirstFailureExtends(leads, i + 1);
  }

  /** Once a prefix has failed, the whole list fails with the same error. */
  lemma {:induction false} FirstFailureExtends(leads: seq<Lead>, i: nat)
    requires i <= |leads| && FirstFailure(leads[..i]).Some?
    ensures FirstFailure(leads) == FirstFailure(leads[..i])
    decreases |leads| - i
  {
    if i < |leads| {
      var init := leads[..|leads| - 1];
      assert init[..i] == leads[..i];
      FirstFailureExtends(init, i);
    } else {
      assert leads[..i] == leads;
    }
  }
}
