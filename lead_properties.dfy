/**
 * What the report of `GET /leads` says about the lead list: the pass aborts
 * exactly at the first unreadable `createdon`; the counters and every
 * classification map add up to the number of leads; the time buckets add up to
 * the number of leads with a timestamp; the detail list mirrors the input.
 */
module LeadProperties {
  import opened Wrappers
  import opened JsonValues
  import opened Calendar
  import opened Timestamps
  import opened Counting
  import opened Leads

  // ---- The abort ------------------------------------------------------------

  /** The pass completes exactly when every lead's creation value is usable. */
  lemma {:induction false} NoFailureIffAllParse(leads: seq<Lead>)
    ensures FirstFailure(leads) == None <==> forall i :: 0 <= i < |leads| ==> Created(leads[i]).Ok?
    decreases |leads|
  {
    if leads != [] {
      var init := leads[..|leads| - 1];
      NoFailureIffAllParse(init);
      assert forall i :: 0 <= i < |init| ==> init[i] == leads[i];
    }
  }

  /** The error reported is the one of the first lead that fails, and no
      partial report is returned. */
  lemma FailureIsFirstBad(leads: seq<Lead>, i: nat)
    requires i < |leads| && Created(leads[i]).Err?
    requires forall j :: 0 <= j < i ==> Created(leads[j]).Ok?
    ensures Summarize(leads) == Err(Created(leads[i]).error)
  {
    var init := leads[..i];
    assert forall j :: 0 <= j < |init| ==> init[j] == leads[j];
    NoFailureIffAllParse(init);
    FailureStep(leads, i);
  }

  // ---- The status counters --------------------------------------------------

  /** Every lead has exactly one status. */
  lemma {:induction false} StatusPartition(leads: seq<Lead>)
    ensures StatusCount(leads, Open) + StatusCount(leads, Qualified) + StatusCount(leads, Disqualified)
            + StatusCount(leads, Unknown) == |leads|
    decreases |leads|
  {
    if leads != [] {
      StatusPartition(leads[..|leads| - 1]);
    }
  }

  /** No lead has status `st` exactly when its count is zero. */
  lemma {:induction false} StatusCountZero(leads: seq<Lead>, st: Status)
    ensures StatusCount(leads, st) == 0 <==> forall i :: 0 <= i < |leads| ==> Classify(StateCode(leads[i])) != st
    decreases |leads|
  {
    if leads != [] {
      var init := leads[..|leads| - 1];
      StatusCountZero(init, st);
      assert forall i :: 0 <= i < |init| ==> init[i] == leads[i];
    }
  }

  /** `total_leads` is the number of leads and of detail entries; the three
      status counters never exceed it, and reach it exactly when no lead has an
      unknown state code. */
  lemma ReportCounts(leads: seq<Lead>)
    requires Summarize(leads).Ok?
    ensures var r := Summarize(leads).value;
      && r.totalLeads == |leads| == |r.leadDetails|
      && r.openLeads + r.qualifiedLeads + r.disqualifiedLeads <= r.totalLeads
      && (r.openLeads + r.qualifiedLeads + r.disqualifiedLeads == r.totalLeads
          <==> forall i :: 0 <= i < |leads| ==> Classify(StateCode(leads[i])) != Unknown)
  {
    StatusPartition(leads);
    StatusCountZero(leads, Unknown);
    DetailsAt(leads);
  }

  // ---- The classification maps ----------------------------------------------

  /** The classification key of lead `i` is `str()` of its value, after the default. */
  lemma {:induction false} CategoryKeysAt(leads: seq<Lead>, c: Category)
    ensures |CategoryKeys(leads, c)| == |leads|
    ensures forall i :: 0 <= i < |leads| ==> CategoryKeys(leads, c)[i] == PyStr(CategoryValue(leads[i], c))
    decreases |leads|
  {
    if leads != [] {
      var init := leads[..|leads| - 1];
      CategoryKeysAt(init, c);
      var keys := CategoryKeys(leads, c);
      assert keys == CategoryKeys(init, c) + [PyStr(CategoryValue(leads[|leads| - 1], c))];
      forall i | 0 <= i < |leads|
        ensures keys[i] == PyStr(CategoryValue(leads[i], c))
      {
        if i < |init| {
          assert init[i] == leads[i];
        }
      }
    }
  }

  /** Counting one lead at a time is counting the list of keys. */
  lemma {:induction false} CategoryCountsHistogram(leads: seq<Lead>, c: Category)
    ensures CategoryCounts(leads, c) == Histogram(CategoryKeys(leads, c))
    decreases |leads|
  {
    if leads != [] {
      var init := leads[..|leads| - 1];
      CategoryCountsHistogram(init, c);
      HistogramAppend(CategoryKeys(init, c), PyStr(CategoryValue(leads[|leads| - 1], c)));
    }
  }

  /** The classification map of a category in the report. */
  function Classification(r: Report, c: Category): map<string, nat> {
    match c
    case Program => r.programClassification
    case Brand => r.brandClassification
    case UtmMedium => r.utmMediumClassification
  }

  /** Each classification map counts every lead once: its counts add up to
      `total_leads`, the count of a key is the number of leads whose value
      prints as that key, and a key is present only if some lead has it. */
  lemma CategoryTotals(leads: seq<Lead>, c: Category, k: string)
    requires Summarize(leads).Ok?
    ensures var m := Classification(Summarize(leads).value, c);
      && SumValues(m) == |leads|
      && Lookup(m, k) == Occurrences(CategoryKeys(leads, c), k)
      && (k in m <==> exists i :: 0 <= i < |leads| && PyStr(CategoryValue(leads[i], c)) == k)
  {
    assert Classification(Summarize(leads).value, c) == CategoryCounts(leads, c);
    CategoryCountsMeaning(leads, c, k);
  }

  lemma CategoryCountsMeaning(leads: seq<Lead>, c: Category, k: string)
    ensures SumValues(CategoryCounts(leads, c)) == |leads|
    ensures Lookup(CategoryCounts(leads, c), k) == Occurrences(CategoryKeys(leads, c), k)
    ensures k in CategoryCounts(leads, c) <==> exists i :: 0 <= i < |leads| && PyStr(CategoryValue(leads[i], c)) == k
  {
    CategoryCountsHistogram(leads, c);
    CategoryKeysAt(leads, c);
    var keys := CategoryKeys(leads, c);
    HistogramTotal(keys);
    HistogramCounts(keys, k);
    if k in keys {
      var i :| 0 <= i < |keys| && keys[i] == k;
      assert PyStr(CategoryValue(leads[i], c)) == k;
    }
  }

  /** A field that is present but null is counted under "None"; only an
      absent field falls back to the default name. */
  lemma NullIsNotAbsent(lead: Lead, c: Category)
    ensures FieldName(c) in lead && lead[FieldName(c)] == Null ==> PyStr(CategoryValue(lead, c)) == "None"
    ensures FieldName(c) !in lead ==> PyStr(CategoryValue(lead, c)) == DefaultName(c)
    ensures PyStr(CategoryValue(lead, c)) == "None" <==> FieldName(c) in lead && PyStr(lead[FieldName(c)]) == "None"
  {
    match c
    case Program =>
      assert DefaultName(c)[0] == 'U';
    case Brand =>
      assert DefaultName(c)[0] == 'U';
    case UtmMedium =>
      assert DefaultName(c)[0] == 'U';
  }

  // ---- The time buckets -----------------------------------------------------

  /** The number of leads whose `createdon` is true in Python's sense. */
  function TimestampedCount(leads: seq<Lead>): nat
    decreases |leads|
  {
    if leads == [] then 0
    else TimestampedCount(leads[..|leads| - 1]) + (if Truthy(CreatedOn(leads[|leads| - 1])) then 1 else 0)
  }

  /** On a list that does not abort, every lead with a true `createdon`
      contributes one key per period, and no other lead does. */
  lemma {:induction false} DatedKeysLength(leads: seq<Lead>, p: Period)
    requires FirstFailure(leads) == None
    ensures |DatedKeys(leads, p)| == TimestampedCount(leads)
    decreases |leads|
  {
    if leads != [] {
      var init := leads[..|leads| - 1];
      assert FirstFailure(init) == None;
      DatedKeysLength(init, p);
    }
  }

  /** Counting one lead at a time is counting the list of bucket keys. */
  lemma {:induction false} DatedCountsHistogram(leads: seq<Lead>, p: Period)
    ensures DatedCounts(leads, p) == Histogram(DatedKeys(leads, p))
    decreases |leads|
  {
    if leads != [] {
      var init := leads[..|leads| - 1];
      DatedCountsHistogram(init, p);
      var last := leads[|leads| - 1];
      if Created(last).Ok? && Created(last).value.Some? {
        HistogramAppend(DatedKeys(init, p), BucketKey(Created(last).value.value, p));
      } else {
        assert DatedKeys(leads, p) == DatedKeys(init, p) + [];
        assert DatedKeys(init, p) + [] == DatedKeys(init, p);
      }
    }
  }

  /** The daily, weekly and monthly maps each add up to the number of leads
      with a true `createdon`. */
  lemma DatedTotals(leads: seq<Lead>)
    requires Summarize(leads).Ok?
    ensures var r := Summarize(leads).value;
      && SumValues(r.dailyLeads) == TimestampedCount(leads)
      && SumValues(r.weeklyLeads) == TimestampedCount(leads)
      && SumValues(r.monthlyLeads) == TimestampedCount(leads)
  {
    DatedTotal(leads, Day);
    DatedTotal(leads, Week);
    DatedTotal(leads, Month);
  }

  lemma DatedTotal(leads: seq<Lead>, p: Period)
    requires FirstFailure(leads) == None
    ensures SumValues(DatedCounts(leads, p)) == TimestampedCount(leads)
  {
    DatedCountsHistogram(leads, p);
    DatedKeysLength(leads, p);
    HistogramTotal(DatedKeys(leads, p));
  }

  /** Position by position, each month key is the first seven characters of
      a ten-character day key. */
  predicate MonthsOfDays(days: seq<string>, months: seq<string>) {
    && |months| == |days|
    && forall j :: 0 <= j < |days| ==> |days[j]| == 10 && months[j] == days[j][..7]
  }

  lemma MonthsOfDaysAppend(days: seq<string>, months: seq<string>, days2: seq<string>, months2: seq<string>)
    requires MonthsOfDays(days, months) && MonthsOfDays(days2, months2)
    ensures MonthsOfDays(days + days2, months + months2)
  {
    var d, m := days + days2, months + months2;
    forall j | 0 <= j < |d|
      ensures |d[j]| == 10 && m[j] == d[j][..7]
    {
      if j < |days| {
        assert d[j] == days[j] && m[j] == months[j];
      } else {
        assert d[j] == days2[j - |days|] && m[j] == months2[j - |days|];
      }
    }
  }

  /** Lead by lead, the month key is the first seven characters of the day key. */
  lemma {:induction false} MonthKeysFromDayKeys(leads: seq<Lead>)
    ensures MonthsOfDays(DatedKeys(leads, Day), DatedKeys(leads, Month))
    decreases |leads|
  {
    if leads != [] {
      var init := leads[..|leads| - 1];
      MonthKeysFromDayKeys(init);
      var last := leads[|leads| - 1];
      assert DatedKeys(leads, Day) == DatedKeys(init, Day) + LeadBucket(last, Day);
      assert DatedKeys(leads, Month) == DatedKeys(init, Month) + LeadBucket(last, Month);
      LastBucketMonth(last);
      MonthsOfDaysAppend(DatedKeys(init, Day), DatedKeys(init, Month), LeadBucket(last, Day), LeadBucket(last, Month));
    }
  }

  lemma LastBucketMonth(lead: Lead)
    ensures MonthsOfDays(LeadBucket(lead, Day), LeadBucket(lead, Month))
  {
    match Created(lead)
    case Ok(Some(t)) =>
      MonthKeyPrefixOfDayKey(t.date);
      assert LeadBucket(lead, Day) == [DayKey(t.date)];
      assert LeadBucket(lead, Month) == [MonthKey(t.date)];
    case _ =>
  }

  /** Every day that has leads has its month among the monthly buckets. */
  lemma DayImpliesMonth(leads: seq<Lead>, day: string)
    requires Summarize(leads).Ok?
    requires day in Summarize(leads).value.dailyLeads
    ensures |day| == 10 && day[..7] in Summarize(leads).value.monthlyLeads
  {
    DatedCountsHistogram(leads, Day);
    DatedCountsHistogram(leads, Month);
    HistogramCounts(DatedKeys(leads, Day), day);
    MonthKeysFromDayKeys(leads);
    var days := DatedKeys(leads, Day);
    var j :| 0 <= j < |days| && days[j] == day;
    HistogramCounts(DatedKeys(leads, Month), day[..7]);
  }

  // ---- The detail list ------------------------------------------------------

  /** One detail entry per lead, in input order, holding the raw values. */
  lemma {:induction false} DetailsAt(leads: seq<Lead>)
    ensures |Details(leads)| == |leads|
    ensures forall i :: 0 <= i < |leads| ==> Details(leads)[i] == DetailOf(leads[i])
    decreases |leads|
  {
    if leads != [] {
      var init, last := leads[..|leads| - 1], leads[|leads| - 1];
      DetailsAt(init);
      assert Details(leads) == Details(init) + [DetailOf(last)];
      assert leads == init + [last];
      DetailsAppend(init, last, Details(init));
    }
  }

  lemma DetailsAppend(init: seq<Lead>, last: Lead, details: seq<Detail>)
    requires |details| == |init|
    requires forall i :: 0 <= i < |init| ==> details[i] == DetailOf(init[i])
    ensures forall i :: 0 <= i <= |init| ==> (details + [DetailOf(last)])[i] == DetailOf((init + [last])[i])
  {
  }


  // ---- Worked examples ------------------------------------------------------

  /** An open lead with no attribution fields and no `createdon`: the
      defaults are counted, and no time bucket is. */
  lemma OpenLeadExample(lead: Lead)
    requires "statecode" in lead && lead["statecode"] == Int(0)
    requires "createdon" !in lead
    requires forall c :: FieldName(c) !in lead
    ensures Summarize([lead]) == Ok(Report(1, 1, 0, 0,
        map["Unknown Program" := 1], map["Unknown Brand" := 1], map["Unknown UTM Medium" := 1],
        map[], map[], map[],
        [Detail(Str("Unknown Program"), Str("Unknown Brand"), Str("Unknown UTM Medium"), Int(0), "Open", Null)]))
  {
    var leads := [lead];
    assert leads[..0] == [];
    assert Created(lead) == Ok(None);
    StatusExample(lead);
    CategoryExample(lead, Program);
    CategoryExample(lead, Brand);
    CategoryExample(lead, UtmMedium);
    assert FirstFailure(leads) == None;
    UndatedExample(lead, Day);
    UndatedExample(lead, Week);
    UndatedExample(lead, Month);
    assert CreatedOn(lead) == Null;
    assert DetailOf(lead) == Detail(Str("Unknown Program"), Str("Unknown Brand"), Str("Unknown UTM Medium"), Int(0), "Open", Null);
    assert Details(leads) == [DetailOf(lead)];
  }

  lemma UndatedExample(lead: Lead, p: Period)
    requires Created(lead) == Ok(None)
    ensures DatedCounts([lead], p) == map[]
  {
    assert [lead][..0] == [];
  }

  /** A lead created on Friday 2024-03-15 at 10:00:00 lands in day
      `2024-03-15`, week `2024-W10` (the first Sunday of 2024 is January 7th)
      and month `2024-03`. */
  lemma TimestampExample(lead: Lead, t: DateTime)
    requires t == DateTime(Date(2024, 3, 15), 10, 0, 0)
    requires "createdon" in lead && lead["createdon"] == Str(Render(t))
    ensures Summarize([lead]).Ok?
    ensures Summarize([lead]).value.dailyLeads == map["2024-03-15" := 1]
    ensures Summarize([lead]).value.weeklyLeads == map["2024-W10" := 1]
    ensures Summarize([lead]).value.monthlyLeads == map["2024-03" := 1]
  {
    CreatedFromRender(lead, t);
    assert [lead][..0] == [];
    assert FirstFailure([lead]) == None;
    DatedExample(lead, t);
  }

  lemma CreatedFromRender(lead: Lead, t: DateTime)
    requires ValidDateTime(t)
    requires "createdon" in lead && lead["createdon"] == Str(Render(t))
    ensures Created(lead) == Ok(Some(t))
  {
    ParseRender(t);
  }

  lemma StatusExample(lead: Lead)
    requires "statecode" in lead && lead["statecode"] == Int(0)
    ensures StatusCount([lead], Open) == 1 && StatusCount([lead], Qualified) == 0 && StatusCount([lead], Disqualified) == 0
  {
    assert [lead][..0] == [];
    assert Classify(StateCode(lead)) == Open;
  }

  lemma CategoryExample(lead: Lead, c: Category)
    requires FieldName(c) !in lead
    ensures CategoryCounts([lead], c) == map[DefaultName(c) := 1]
  {
    assert [lead][..0] == [];
  }

  lemma DatedExample(lead: Lead, t: DateTime)
    requires t == DateTime(Date(2024, 3, 15), 10, 0, 0)
    requires Created(lead) == Ok(Some(t))
    ensures DatedCounts([lead], Day) == map["2024-03-15" := 1]
    ensures DatedCounts([lead], Week) == map["2024-W10" := 1]
    ensures DatedCounts([lead], Month) == map["2024-03" := 1]
  {
    assert [lead][..0] == [];
    KeysExample(t.date);
  }

  lemma KeysExample(d: Date)
    requires d == Date(2024, 3, 15)
    ensures ValidDate(d)
    ensures DayKey(d) == "2024-03-15" && MonthKey(d) == "2024-03" && WeekKey(d) == "2024-W10"
  {
    assert DaysBeforeYear(2024) == 738885;
    assert NewYearWeekday(2024) == 1;
    assert SundayWeek(d) == 10;
    assert Pad4(2024) == "2024" && Pad2(3) == "03" && Pad2(15) == "15" && Pad2(10) == "10";
  }

  /** A state code outside 0, 1, 2 (here 5) is counted in none of the three
      counters, though the lead still counts towards the total. */
  lemma UnknownStatusExample()
    ensures var lead := map["statecode" := Int(5)];
      Summarize([lead]).Ok? && Summarize([lead]).value.totalLeads == 1
      && Summarize([lead]).value.openLeads + Summarize([lead]).value.qualifiedLeads
         + Summarize([lead]).value.disqualifiedLeads == 0
      && Summarize([lead]).value.leadDetails[0].leadStatus == "Unknown"
  {
    var lead := map["statecode" := Int(5)];
    assert [lead][..0] == [];
    assert "createdon" !in lead;
  }

  /** An explicit null campaign is counted under "None", not under the default. */
  lemma NullCampaignExample()
    ensures var lead := map["ala_utmcampaignname" := Null];
      Summarize([lead]).Ok? && Summarize([lead]).value.programClassification == map["None" := 1]
  {
    var lead := map["ala_utmcampaignname" := Null];
    assert [lead][..0] == [];
  }

  /** A timestamp that does not fit the format aborts the whole report, even
      after a lead that was counted. */
  lemma BadTimestampExample()
    ensures var good := map["statecode" := Int(1)];
      var bad := map["createdon" := Str("15/03/2024")];
      Summarize([good, bad]) == Err(Unparsable("15/03/2024", FormatMismatch))
  {
    var good := map["statecode" := Int(1)];
    var bad := map["createdon" := Str("15/03/2024")];
    assert Created(good) == Ok(None);
    assert Created(bad) == Err(Unparsable("15/03/2024", FormatMismatch));
    FailureIsFirstBad([good, bad], 1);
  }
}
