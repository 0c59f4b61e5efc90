# Project Solar lead dashboard backend, modelled in Dafny

The backend behind the Project Solar dashboard is a Flask service with one
endpoint, `GET /leads`. On each request it:

1. obtains an OAuth access token from a process-wide cache;
2. downloads the lead records from the CRM;
3. walks the records once, counting them:
   - by status, derived from `statecode`;
   - by program, brand and UTM medium, each falling back to an "Unknown …" name;
   - by day, Sunday-based week and month of `createdon`;
4. returns the counts with one detail entry per lead.

This project models the two parts of that service that compute something:

- **The token cache.** `TokenCache.TokenCache` is a class with the two
  fields `accessToken` and `tokenExpiry`. Its method `GetToken` makes the
  same reuse-or-refresh decision as `get_access_token`. The clock readings
  and the response of the token endpoint are parameters.
- **The aggregation loop.** `Leads.Aggregate` is a method with a `while`
  loop that updates the counters, the six count maps and the detail list
  the way the `for` loop of `get_leads` does. It is proved to compute
  `Leads.Summarize`, a fold over the lead list (one lead at a time, as the
  loop works).

`LeadProperties` then proves what the report means. Each classification map
is the histogram of `str()` of the field values and sums to the number of
leads. The day, week and month maps sum to the number of leads that carry a
creation timestamp. Every day key's month is among the month keys. The
status counts partition the known statuses. The details list the leads in
order. One bad timestamp aborts the whole pass.

The supporting modules follow the Python library behaviour the loop relies
on:

- `JsonValues`: decoded JSON values, Python `str()` and truthiness.
- `Counting`: `defaultdict(int)` counting as a histogram over a key list.
- `Calendar`: proleptic Gregorian dates, weekdays and the `%U` week number.
- `Timestamps`: `strptime` with the format `%Y-%m-%dT%H:%M:%SZ`, and the
  `strftime` keys `%Y-%m-%d`, `%Y-W%U` and `%Y-%m`.

Decisions that follow the code rather than a looser reading of it:

- `lead.get(key, default)` uses the default only when the key is absent. An
  explicit JSON `null` program is counted under `"None"`, not under
  "Unknown Program" (`LeadProperties.NullIsNotAbsent`).
- `isinstance(stateCode, int)` is true for JSON booleans. `true` counts as
  Qualified and `false` as Open (`Leads.Classify`).
- The token expiry is computed from a second clock reading (`later`), taken
  after the response arrives. The first reading (`now`) is only used for the
  reuse test.
- The token is stored before `expires_in` is read. A 200 body with a token
  but no usable `expires_in` therefore raises with the new token already
  stored next to the old expiry (`TokenCache.StaleExpiryReuse`).
- A `createdon` that is true but does not parse raises out of the loop, so
  the request yields no report at all. `Summarize` returns the error of the
  first such lead.

## Model

| member | source | states |
|---|---|---|
| TokenCache.TokenCache.constructor | app.py:21-22 | the cache starts with no token and expiry 0 |
| TokenCache.TokenCache.GetToken | app.py:24-42 | a non-empty cached token is returned unchanged and without a fetch exactly when `now` is before the expiry; otherwise a 200 response with a token and a usable `expires_in` stores the token with expiry `later + expires_in - 60` and returns it; a 200 body without a token raises and changes nothing; one with a token but no usable `expires_in` raises after storing the token, keeping the old expiry; any other status raises "Token generation failed: " followed by the response text and changes nothing; the new state is `Step` of the old one |
| TokenCache.FailuresKeepCache | app.py:36-42 | a run of calls whose fetches all fail leaves the cache exactly as it was |
| TokenCache.Reusable | app.py:26 | the reuse test: a token is reused when it is present and non-empty and the clock is before the expiry |
| TokenCache.Step | app.py:26-40 | the cache after one call: unchanged unless the call fetched and got a 200 body with a token; then that token, with the new expiry when `expires_in` was usable and the old one otherwise |
| TokenCache.TokenOrigin | app.py:26-38 | after any run of calls the token is the initial one, when no call stored a token, or the token of the last call that fetched and got a 200 body with a token |
| TokenCache.ExpiryOrigin | app.py:26-39 | after any run of calls the expiry is the initial one, when no call got as far as storing one, or the second clock reading plus `expires_in` minus 60 of the last call that did |
| TokenCache.StaleExpiryReuse | app.py:36-39 | a 200 body with a token but no usable `expires_in` pairs the new token with the old expiry, and while that expiry lies ahead the next call reuses the token without a fetch |
| Leads.Summarize | app.py:62-130 | the report of the whole list: its length, the three status counts, the three classification maps, the three time maps and the detail list, each a fold over the leads in order; or the error of the first lead whose `createdon` aborts the pass |
| Leads.Get | app.py:79-83 | `lead.get(key, default)`: the stored value, an explicit null included, and the default only when the key is absent |
| Leads.CategoryValue | app.py:79-81 | the program, brand or UTM medium field, or "Unknown Program", "Unknown Brand" or "Unknown UTM Medium" when the field is absent |
| Leads.StateCode | app.py:82 | the raw `statecode`, or the string "Unknown" when the field is absent |
| Leads.CreatedOn | app.py:83 | the raw `createdon`, or null when the field is absent |
| Leads.DetailOf | app.py:110-117 | one detail entry: the three defaulted category values, the raw `statecode`, the name of its status and the raw `createdon` |
| Leads.Aggregate | app.py:62-130 | the loop's counters, maps and detail list equal the report of `Summarize`, or the error of the first lead whose `createdon` aborts the pass |
| Leads.CountStatus | app.py:85-95 | bumping the counter of the lead's status turns the counts of the first i leads into the counts of the first i+1 |
| Leads.CountCreated | app.py:97-104 | adding the lead's day, week and month keys, when it has a timestamp, turns the bucket maps of the first i leads into those of the first i+1 |
| Leads.CountCategory | app.py:106-108 | adding `str()` of the lead's value turns the category map of the first i leads into that of the first i+1 |
| Leads.Classify | app.py:85-95 | the status is Open exactly for 0 and false, Qualified exactly for 1 and true, Disqualified exactly for 2, and Unknown for every other value |
| Leads.CreatedOnOutcome | app.py:97-98 | a false `createdon` gives no timestamp; a true one aborts exactly when it is not a string or does not parse; a parsed timestamp is a valid date and time |
| Leads.PrefixStep | app.py:85-117 | one more lead adds one to exactly the counter of its status, appends its detail entry, and makes a clean prefix fail exactly when its `createdon` aborts |
| Leads.CategoryStep | app.py:106-108 | one more lead adds one at `str()` of its field value |
| Leads.DatedStep | app.py:97-104 | one more lead adds one at its bucket key for the period if it has a timestamp, and nothing otherwise |
| Leads.FailureStep | app.py:97-98 | a lead that aborts after a clean prefix makes the whole result that lead's error |
| Leads.FirstFailureExtends | app.py:98 | once a prefix has failed, no later lead changes which error the pass reports |
| LeadProperties.NoFailureIffAllParse | app.py:97-98 | the pass completes if and only if every lead's `createdon` is false or parses |
| LeadProperties.FailureIsFirstBad | app.py:97-98 | the error reported is that of the first lead that aborts, whatever the leads after it hold |
| LeadProperties.StatusPartition | app.py:85-95 | open, qualified and disqualified counts plus the Unknown count equal the number of leads |
| LeadProperties.StatusCountZero | app.py:85-95 | a status count is zero if and only if no lead has that status |
| LeadProperties.ReportCounts | app.py:62-123 | `total_leads` equals the number of leads and of detail entries; the three status counts never exceed it, and equal it exactly when no lead's status is Unknown |
| LeadProperties.CategoryKeysAt | app.py:79-108 | the i-th classification key is `str()` of lead i's field value after the default |
| LeadProperties.CategoryCountsHistogram | app.py:64-108 | counting one lead at a time gives the histogram of the key list |
| LeadProperties.CategoryTotals | app.py:64-126 | each classification map sums to the number of leads; a key's count is its number of occurrences among the leads; a key is present if and only if some lead's value prints as it |
| LeadProperties.CategoryCountsMeaning | app.py:106-108 | the same three facts about the count maps before they are put in the report |
| LeadProperties.NullIsNotAbsent | app.py:79-106 | an explicit null is counted under "None"; an absent field is counted under the category's "Unknown …" name; "None" arises only from a present field |
| LeadProperties.DatedKeysLength | app.py:97-104 | when the pass completes, each period has one key per lead with a true `createdon` |
| LeadProperties.DatedCountsHistogram | app.py:68-104 | the bucket maps are histograms of the per-lead bucket keys |
| LeadProperties.DatedTotals | app.py:68-129 | the daily, weekly and monthly maps each sum to the number of leads with a true `createdon` |
| LeadProperties.DatedTotal | app.py:97-104 | the same sum for one period, before the report is built |
| LeadProperties.MonthKeysFromDayKeys | app.py:99-101 | lead by lead, the month key is the first seven characters of the ten-character day key |
| LeadProperties.DayImpliesMonth | app.py:99-104 | every day in `daily_leads` has its month in `monthly_leads` |
| LeadProperties.DetailsAt | app.py:110-117 | there is one detail entry per lead, in input order, holding the defaulted fields, the raw `statecode`, the status name and the raw `createdon` |
| LeadProperties.OpenLeadExample | app.py:78-117 | a lead with `statecode` 0 and no other fields gives one open lead, each category counted under its "Unknown …" name, and empty time maps |
| LeadProperties.TimestampExample | app.py:97-104 | a lead created 2024-03-15T10:00:00Z is counted under day `2024-03-15`, week `2024-W10` and month `2024-03` |
| LeadProperties.KeysExample | app.py:99-101 | the day, month and Sunday-based week keys of 2024-03-15 |
| LeadProperties.UnknownStatusExample | app.py:85-95 | `statecode` 5 is counted in no status and its detail says "Unknown" |
| LeadProperties.NullCampaignExample | app.py:79-106 | a null campaign name is classified under "None" |
| LeadProperties.BadTimestampExample | app.py:97-98 | a day-first `createdon` after a good lead aborts the pass with that text |
| LeadProperties.CreatedFromRender | app.py:97-98 | a lead whose `createdon` is a rendered valid timestamp yields that timestamp |
| Timestamps.MatchesFormat | app.py:98 | the text is `YYYY-MM-DDTHH:MM:SSZ` with digits in every field, `T` and `Z` in either case, month 01-12, day 01-31, hour up to 23, minute up to 59 and second up to 61 |
| Timestamps.DayKey | app.py:99 | `%Y-%m-%d`: the zero-padded year, month and day, ten characters |
| Timestamps.WeekKey | app.py:100 | `%Y-W%U`: the zero-padded year, `-W` and the two-digit Sunday-based week number, eight characters |
| Timestamps.MonthKey | app.py:101 | `%Y-%m`: the zero-padded year and month, seven characters |
| Timestamps.ParseCreatedOn | app.py:98 | a parsed timestamp is always a valid date and time |
| Timestamps.ParseRender | app.py:98-101 | every valid timestamp written in the service's format parses back to itself |
| Timestamps.ParseSound | app.py:98-99 | a text that parses is the rendering of its value, up to the case of `T` and `Z`; its first ten characters are the day key |
| Timestamps.DayOutOfRange | app.py:98 | a text in the format whose day is past the end of its month is refused as out of range |
| Timestamps.LeapDayAccepted | app.py:98 | 2024-02-29T12:00:00Z parses |
| Timestamps.CommonYearLeapDayRejected | app.py:98 | 2023-02-29T12:00:00Z is refused |
| Timestamps.FebruaryThirtiethRejected | app.py:98 | 2024-02-30T12:00:00Z is refused |
| Timestamps.MonthKeyPrefixOfDayKey | app.py:99-101 | the month key is the first seven characters of the day key, and the week key shares its first five |
| Timestamps.DayKeyInjective | app.py:99 | distinct dates have distinct day keys |
| Timestamps.MonthKeyEquality | app.py:101 | two dates share a month key if and only if they share year and month |
| Timestamps.WeekKeyShape | app.py:100 | the week key is `YYYY-W` and two digits holding the Sunday-based week number, at most 53; two dates share it if and only if they share year and week number |
| Timestamps.Pad2Value | app.py:99-101 | two-digit zero padding reads back as the number |
| Timestamps.Pad4Value | app.py:99-101 | four-digit zero padding reads back as the number |
| Calendar.YearDay | app.py:100 | the 0-based day of the year, below the length of the year |
| Calendar.Weekday | app.py:100 | the day of the week with Sunday 0, counted on from the weekday of January 1 |
| Calendar.SundayWeek | app.py:100 | `%U`: the day of the year plus 7 minus the weekday, divided by 7, at most 53 |
| Calendar.DaysInMonth | app.py:98 | months have 28 to 31 days, and 29 exactly for February of a leap year |
| Calendar.DaysBeforeYearStep | app.py:100 | the closed-form day count grows by the length of each year |
| Calendar.DaysBeforeYearIsSum | app.py:100 | the closed-form day count before a year is the sum of the lengths of the years before it |
| Calendar.DaysBeforeMonthIsSum | app.py:100 | the table of days before each month is the sum of the lengths of the months before it |
| Calendar.WeekdayIsOrdinal | app.py:100 | the weekday is the day number since 0001-01-01, modulo 7 |
| Calendar.OrdinalNextDay | app.py:100 | the next calendar day has the next day number and the next weekday |
| Calendar.FirstDayIsMonday | app.py:100 | 0001-01-01 is a Monday |
| Calendar.FirstSunday | app.py:100 | January 1 plus the result is the first Sunday of the year |
| Calendar.WeekZeroBeforeFirstSunday | app.py:100 | `%U` is 00 exactly for the days before the year's first Sunday |
| Calendar.SundayStartsWeek | app.py:100 | within a year, `%U` steps up by one exactly on Sundays |
| Calendar.NewYearWeek | app.py:100 | January 1 is in week 01 if it is a Sunday and in week 00 otherwise |
| Counting.Increment | app.py:102-108 | `counts[key] += 1` on a `defaultdict(int)`: the key's count, 0 when absent, plus one |
| Counting.HistogramCounts | app.py:102-108 | a histogram holds each key's number of occurrences, and holds exactly the keys that occur |
| Counting.HistogramTotal | app.py:102-108 | a histogram's counts sum to the number of keys counted |
| Counting.HistogramAppend | app.py:102-108 | counting one more key adds one at that key |
| JsonValues.PyStr | app.py:106-108 | Python `str()` of a JSON value: "None", "True" or "False", the decimal text of an integer, a string itself |
| JsonValues.Truthy | app.py:97 | Python truthiness: null, false, 0 and the empty string are false |
| JsonValues.NatToDecimalValue | app.py:106-108 | the decimal text of a natural number reads back as it |
| JsonValues.IntToDecimalInjective | app.py:106-108 | distinct integers print differently |
| JsonValues.SignOfDecimal | app.py:106-108 | an integer's text starts with `-` exactly when it is negative |

## Left out

- Flask, CORS, the route and `.env` loading (app.py:1-19, 46, 133-134) are framework plumbing.
- The HTTP requests, the OData URL and headers, `response.json()` and `jsonify` are not modelled (app.py:35, 44-60, 119-131). The token response is a `FetchResult` parameter, and the leads are an input sequence of decoded records.
- The upstream-error passthrough (app.py:57-58) is a one-line I/O branch with nothing to compute.
- `data.get('value', [])` and non-object entries in `value` are not modelled. Every lead is a field map.
- The clock is not modelled. `time.time()` returns a float. The two readings are integer parameters `now` and `later`.
- TokenCache.TokenCache.GetToken: every exception a malformed 200 body raises (a body that is not JSON, a missing key, an `expires_in` that `int()` refuses) is the one error `MalformedResponse`. An `access_token` that is not a string is not modelled: the model's token is text.
- Concurrent requests sharing the token globals are not modelled. The service has no locking.
- Timestamps.ParseCreatedOn: `strptime` also accepts unpadded numeric fields (e.g. `2024-3-5T1:2:3Z`). The model accepts exactly the zero-padded twenty-character form the CRM sends and refuses the others as a format mismatch.
- Timestamps.ParseCreatedOn: seconds 60 and 61 pass `strptime`'s pattern and are then refused by `datetime`. The model refuses them as out of range, which is the same outcome.
- Timestamps.DayKey: years below 1000 are written zero-padded to four digits. Some C libraries print them unpadded under `%Y`.
- The order of keys in the returned JSON objects is not modelled. Maps in the model are unordered.
- Floats, arrays and objects as field values are kept as `Other`, carrying the text of their `str()` and their truthiness. The model does not compute those.
- The React front end (`project-solar-frontend/`) only displays the report and is not part of this model.
