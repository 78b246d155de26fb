# Location form and daily weather aggregation

A Dafny model of two pieces of a solar-prediction dashboard's client:

- **The location form** (`components/InputSection.tsx`):
  - the three validators: query text, coordinate range, and the combined check with its "initials" heuristic;
  - the component's state and its handlers: `handleSearch`, `handleSubmit`, the `onChange` handlers of the query, latitude, longitude and date fields, and the mode buttons.
- **The past-days dashboard's aggregation** (`components/Past10DaysDashboard.tsx`):
  - `dailyData`: hourly samples are grouped by the date part of their timestamp. Each day is accumulated (count, running temperature extremes, precipitation total, readings for the means), then finished and sorted by date.
  - `stats`: the overall figures over the days.

Modules:

- `Options` (`options.dfy`): the option type.
- `LocationValidation` (`input_validation.dfy`): the validators, modelled as functions on strings and reals.
  - JavaScript's `trim` and `\s` are modelled on the full ECMAScript white-space and line-terminator set.
  - A non-finite number (NaN, ±Infinity) is the `NonFinite` case of `Number`.
- `LocationForm` (`input_form.dfy`): the form.
  - `FormState` is a snapshot of twelve of the component's thirteen state fields (`isSearching` is left out).
  - Each handler is specified by a function from snapshot to snapshot (`Search`, `EditQuery`, `Submit`, …).
  - These functions keep the invariant `Coherent`: an accepted location always has a name and details for the same coordinates, and in city mode it belongs to an acceptable query.
  - The class `InputSection` holds the same fields. Its methods assign them as the handlers do, and each is proved to produce exactly the snapshot its function describes.
- `Series` (`series.dfy`): sum, maximum, minimum and mean of a list of readings, with the mean proved to lie between the minimum and the maximum.
- `DailyAggregation` (`daily_aggregation.dfy`): the grouping loop over a `map`, the finishing step, the sort and the statistics.
  - Each part is proved against a reference definition: `DayValues` takes the readings of one day straight from the samples, and `DayOf` gives that day's summary.
  - The statistics are tied back to the samples: the overall extremes are the extremes of all samples, and the overall precipitation total is the total of all samples.

The geocoder's answer is a parameter: `Found(name, country, lat, lon)`, `NotFound` or `Failed`. The current time is a parameter too, `now`, in days since the epoch. Dates are day numbers. Readings are exact reals.

## Model

| member | source | states |
|---|---|---|
| LocationValidation.Trim | components/InputSection.tsx:16 | `trim()` is empty exactly when the string is all white space; otherwise it starts and ends with a non-space |
| LocationValidation.TrimCutsBlankEnds | components/InputSection.tsx:16 | `trim()` is a slice `s[i..e]` of its string with only white space before `i` and after `e` |
| LocationValidation.Split | components/InputSection.tsx:75 | `split(/[\s,]+/)` gives at least one piece; no piece holds a separator; a string with no separator is its own single piece |
| LocationValidation.SplitRoundTrip | components/InputSection.tsx:75 | the pieces woven back together with the runs between them give the string; each run is a non-empty stretch of white space and commas; only the first and last piece may be empty |
| LocationValidation.SplitAllSingles | components/InputSection.tsx:75 | every piece has length 1 exactly when the string is non-empty, starts and ends with a non-separator, and never has two non-separators side by side |
| LocationValidation.InitialsIff | components/InputSection.tsx:75-77 | the initials test fires exactly when the trimmed name has that shape |
| LocationValidation.BlankIsNotInitials | components/InputSection.tsx:75-77 | a blank name splits into the single empty piece and is not taken for initials |
| LocationValidation.ValidateLocationInput | components/InputSection.tsx:15-35 | valid iff non-blank, 2 to 100 characters long (untrimmed) and every character a letter, digit, white space, `-`, `,`, `.` or `'`; valid iff the message is empty; the first failing check (blank, short, long, characters) picks the message |
| LocationValidation.LengthIsUntrimmed | components/InputSection.tsx:20-26 | `" a"` passes, because the length checks see the untrimmed query; a lone tab gets the blank message |
| LocationValidation.ValidateCoordinates | components/InputSection.tsx:40-54 | valid iff both values are finite, latitude is in [-90, 90] and longitude in [-180, 180], bounds included; the non-finite message comes before the latitude message, which comes before the longitude message |
| LocationValidation.CoordinateExamples | components/InputSection.tsx:45-51 | latitude 91 gets the latitude message, longitude 200 the longitude message; (45, 45) and the corner (90, -180) pass |
| LocationValidation.ValidateLocationData | components/InputSection.tsx:59-83 | valid iff the error list is empty iff the query check passes, the coordinates are in range and the name is not initials; at most three errors; the query message comes first; the initials message, when given, comes last |
| LocationValidation.LocationDataErrorOrder | components/InputSection.tsx:62-77 | the coordinate message comes right after the query message, if any; the initials message is in the list exactly when the trimmed name has the initials shape |
| LocationValidation.Join | components/InputSection.tsx:138 | `join('; ')` of no errors is empty and of one error is that error |
| LocationValidation.JoinEnds | components/InputSection.tsx:138 | the joined message begins with the first error and ends with the last |
| LocationForm.InitialIsCoherent | components/InputSection.tsx:86-102 | the state on mount satisfies the invariant |
| LocationForm.Coherent | components/InputSection.tsx:86-102 | the invariant: an accepted location has a name and details, and in city mode a non-blank query |
| LocationForm.Fixed2 | components/InputSection.tsx:156 | `toFixed(2)`: a sign exactly for negatives, then digits, a point and two decimals |
| LocationForm.CoordinatesLabel | components/InputSection.tsx:204 | the label reads "Coordinates (", the latitude to two decimals, …, ")" |
| LocationForm.Confirmation | components/InputSection.tsx:156 | the confirmation reads "✓ Location validated: name, country" and ends with the parenthesised coordinates |
| LocationForm.NameOr | components/InputSection.tsx:247 | `name \|\| fallback`: a non-empty name is kept, otherwise the fallback; the result is empty only if the fallback is |
| LocationForm.Search | components/InputSection.tsx:104-172 | a location is accepted exactly when the query passes and the geocoder found coordinates that pass both checks; it then holds those coordinates, the name "name, country", the details and the confirmation, with no error; every failure leaves no location, no name and an error: the query message, the not-found or search-failed message, the coordinate message, or the combined check's errors joined with `; `; the inputs are untouched and the invariant is kept |
| LocationForm.Lookup | components/InputSection.tsx:121-168 | after the query passed, a location is accepted exactly when the geocoder's answer is accepted; the inputs are untouched |
| LocationForm.EditQuery | components/InputSection.tsx:311-319 | the query takes the typed text and the error goes; an accepted location is dropped with its name and confirmation; without one, name and confirmation stay; the invariant is kept |
| LocationForm.EditLatitude | components/InputSection.tsx:381-386 | the latitude input changes, the location, name and error are cleared, the other input and the details stay; the result satisfies the invariant |
| LocationForm.EditLongitude | components/InputSection.tsx:398-403 | the same for the longitude input |
| LocationForm.DateRangeError | components/InputSection.tsx:217-235 | no error iff historical mode is off or both dates are set, start is before end and end is not after now; otherwise the missing-date, start-not-before-end and end-in-future messages, in that order |
| LocationForm.AcceptCoordinates | components/InputSection.tsx:199-209 | in-range direct coordinates become the accepted location; the invariant holds afterwards |
| LocationForm.Resolve | components/InputSection.tsx:177-214 | an accepted location lets the submission go on unchanged; without one: a non-empty city query halts with the query message or with the state `Search` gives; direct coordinates out of range halt with the coordinate message; in range they go on, holding those coordinates and their "Coordinates (…)" label, the error untouched; an empty query in city mode halts with the ask-for-a-location message; the invariant is kept and the inputs are untouched |
| LocationForm.FinalCheck | components/InputSection.tsx:238-243 | the re-validation passes exactly when the stored name passes the query check, the stored coordinates are in range and the name is not initials; with no name it fails with the empty-query message first |
| LocationForm.Conclude | components/InputSection.tsx:216-247 | only the error changes; `onDataReady` is called iff the dates pass and the stored location passes the final re-validation; it receives the location and name the handler started with ("Unknown Location" when there was none), and the date range exactly in historical mode; a refusal sets an error |
| LocationForm.Submit | components/InputSection.tsx:174-248 | `handleSubmit` as written: with an accepted location, `onDataReady` is called exactly when the dates pass and the stored name and coordinates pass the final re-validation; any call implies the dates passed, carries the range iff historical mode is on, and carries the location as it was before the handler ran; the invariant is kept; with an accepted location, a bad range refuses with that range's message |
| LocationForm.SubmissionCarriesRange | components/InputSection.tsx:217-247 | whenever `onDataReady` is called in historical mode the range is valid, and `historical` is absent exactly when the mode is off |
| LocationForm.CoordinatesLabelRejected | components/InputSection.tsx:204-243 | the name "Coordinates (…°, …°)" fails the query check (it holds `(`), so the final re-validation of such a location always fails |
| LocationForm.CoordinateSubmitLosesLocation | components/InputSection.tsx:200-247 | first submit of in-range direct coordinates: `onDataReady` receives no location and "Unknown Location", while the state now holds the location |
| LocationForm.CoordinateLocationNeverSubmits | components/InputSection.tsx:238-243 | a location accepted from coordinates is refused with an error on every later submit |
| LocationForm.SubmitIntended | components/InputSection.tsx:174-248 | corrected submission: with the invariant, every call carries a location, the one the form holds, and the date checks passed |
| LocationForm.IntendedCoordinateSubmit | components/InputSection.tsx:188-247 | corrected submission: in-range direct coordinates with a valid range are handed over with their label and range, and the corrected form enables the submit button for them, which the form as written does not |
| LocationForm.IntendedResubmit | components/InputSection.tsx:238-247 | corrected submission: a location accepted from coordinates can be submitted again |
| LocationForm.SwitchMethod | components/InputSection.tsx:265-286 | the mode buttons set the mode and drop error, location and name; the query, coordinate and date inputs, historical mode, details and confirmation stay; the result satisfies the invariant |
| LocationForm.OfferedStepKeepsCoordinatesUnheld | components/InputSection.tsx:299-514 | every control the form shows and enables keeps "coordinate mode holds no location" |
| LocationForm.CoordinateModeNeverSubmits | components/InputSection.tsx:512-514 | through any sequence of enabled controls from such a state, coordinate mode never holds a location, so the submit button, disabled without one, is never enabled in it |
| LocationForm.InputSection.constructor | components/InputSection.tsx:86-102 | the fields start as on mount, satisfying the invariant |
| LocationForm.InputSection.HandleSearch | components/InputSection.tsx:104-172 | the new fields are exactly `Search` of the old ones; the invariant is kept |
| LocationForm.InputSection.ApplyLookup | components/InputSection.tsx:121-168 | the new fields are exactly `Lookup` of the old ones |
| LocationForm.InputSection.HandleSubmit | components/InputSection.tsx:174-248 | the new fields and the `onDataReady` call are exactly `Submit` of the old fields; the invariant is kept |
| LocationForm.InputSection.ResolveLocation | components/InputSection.tsx:177-214 | the new fields, and whether the handler goes on, are exactly `Resolve` of the old fields |
| LocationForm.InputSection.FinishSubmit | components/InputSection.tsx:216-247 | the new fields and the call are exactly `Conclude` of the old fields and the values the handler started with |
| LocationForm.InputSection.ChangeQuery | components/InputSection.tsx:311-319 | the new fields are exactly `EditQuery` of the old ones; the invariant is kept |
| LocationForm.InputSection.ChangeLatitude | components/InputSection.tsx:381-386 | the new fields are exactly `EditLatitude` of the old ones |
| LocationForm.InputSection.ChangeLongitude | components/InputSection.tsx:398-403 | the new fields are exactly `EditLongitude` of the old ones |
| LocationForm.InputSection.ChooseInputMethod | components/InputSection.tsx:265-286 | the mode switches; error, location and name are cleared; nothing else changes |
| LocationForm.InputSection.ChooseHistorical | components/InputSection.tsx:432-448 | historical mode switches and the error is cleared; nothing else changes |
| LocationForm.InputSection.ChangeStartDate | components/InputSection.tsx:472-475 | the start date changes and the error is cleared; nothing else changes |
| LocationForm.InputSection.ChangeEndDate | components/InputSection.tsx:486-489 | the end date changes and the error is cleared; nothing else changes |
| Series.Max | components/Past10DaysDashboard.tsx:94 | the maximum bounds every value and is one of them |
| Series.Min | components/Past10DaysDashboard.tsx:95 | the minimum is below every value and is one of them |
| Series.SumAtMost | components/Past10DaysDashboard.tsx:71 | a sum of values each at most b is at most length × b |
| Series.SumAtLeast | components/Past10DaysDashboard.tsx:71 | a sum of values each at least b is at least length × b |
| Series.Mean | components/Past10DaysDashboard.tsx:93 | the mean lies between the minimum and the maximum |
| Series.SumConcat | components/Past10DaysDashboard.tsx:71 | the `reduce` sum of a concatenation is the sum of the parts |
| DailyAggregation.DateKey | components/Past10DaysDashboard.tsx:33 | the key is a prefix of the timestamp with no `T`, and it stops at the first `T` |
| DailyAggregation.DateKeyOfStamp | components/Past10DaysDashboard.tsx:33 | the key of `date + "T" + clock` is `date` |
| DailyAggregation.DayValues | components/Past10DaysDashboard.tsx:56-62 | a day's readings are as many as its samples |
| DailyAggregation.KeysInOrder | components/Past10DaysDashboard.tsx:35-47 | the map's keys are exactly the keys with samples, each once |
| DailyAggregation.DayOf | components/Past10DaysDashboard.tsx:67-78 | a day's summary carries its date, and its minimum ≤ its mean ≤ its maximum |
| DailyAggregation.GroupByDay | components/Past10DaysDashboard.tsx:19-64 | the map has exactly the days with samples, in order of first appearance; each accumulator holds exactly its day's readings, its precipitation total starting from 0, its count and its extremes; every day has a sample; the counts add up to the number of samples |
| DailyAggregation.AddSample | components/Past10DaysDashboard.tsx:32-63 | one pass of the `forEach` keeps every accumulator exact for one more sample |
| DailyAggregation.OpenDay | components/Past10DaysDashboard.tsx:35-47 | a day seen for the first time gets a fresh accumulator at the end of the key order |
| DailyAggregation.NewDay | components/Past10DaysDashboard.tsx:36-46 | the fresh accumulator (empty lists, -Infinity and +Infinity, total 0, count 0) is exact for a day none of whose samples has been taken |
| DailyAggregation.TakeSample | components/Past10DaysDashboard.tsx:49-63 | the sample goes into its day's accumulator only; all accumulators stay exact |
| DailyAggregation.Take | components/Past10DaysDashboard.tsx:56-63 | one more temperature is appended after the old ones, the count rises by one, the new extremes bracket the sample and move only outward |
| DailyAggregation.TakeHolds | components/Past10DaysDashboard.tsx:56-63 | the updates (push, running max and min, `+=`, `++`) take an exact accumulator to the exact one for one more sample, and leave other days alone |
| DailyAggregation.GroupedCounts | components/Past10DaysDashboard.tsx:64 | after the loop every day has samples and the counts add up to the number of samples |
| DailyAggregation.CountsCoverSamples | components/Past10DaysDashboard.tsx:32-64 | the per-day counts of the distinct keys add up to the number of samples |
| DailyAggregation.Finish | components/Past10DaysDashboard.tsx:67-78 | a finished day keeps its date and total, and each of its means lies between the smallest and largest of its readings |
| DailyAggregation.FinishIsDayOf | components/Past10DaysDashboard.tsx:67-78 | finishing an exact accumulator gives the day's reference summary |
| DailyAggregation.BeforeTotal | components/Past10DaysDashboard.tsx:79 | any two different dates are ordered one way or the other |
| DailyAggregation.BeforeTransitive | components/Past10DaysDashboard.tsx:79 | the date order is transitive |
| DailyAggregation.BeforeIrreflexive | components/Past10DaysDashboard.tsx:79 | no date comes before itself |
| DailyAggregation.Insert | components/Past10DaysDashboard.tsx:79 | inserting adds exactly the one element |
| DailyAggregation.InsertKeepsOrder | components/Past10DaysDashboard.tsx:79 | inserting into a sorted list keeps it sorted |
| DailyAggregation.SortByDate | components/Past10DaysDashboard.tsx:79 | the result is a permutation of the input, sorted by date |
| DailyAggregation.DailyData | components/Past10DaysDashboard.tsx:16-80 | no data or no samples gives no days; otherwise one summary per distinct day, each the reference summary of its samples, covering every day, in strictly increasing date order |
| DailyAggregation.FinishDays | components/Past10DaysDashboard.tsx:66-78 | the finished list has each day's reference summary, in map order |
| DailyAggregation.SortedSummaries | components/Past10DaysDashboard.tsx:66-79 | sorting the finished days gives the daily view of the data |
| DailyAggregation.DaysStrictlyOrdered | components/Past10DaysDashboard.tsx:79 | sorted summaries of distinct days are strictly increasing |
| DailyAggregation.Stats | components/Past10DaysDashboard.tsx:83-101 | null iff there are no days; the maximum temperature bounds every daily maximum and is one of them, likewise the minimum temperature and the maximum radiation; the mean temperature, humidity and wind speed each lie between two daily values; the mean radiation is at least one daily value and at most the maximum radiation |
| DailyAggregation.OverallMeanWithinExtremes | components/Past10DaysDashboard.tsx:93-95 | when each day's mean is within its extremes, the overall mean is within the overall extremes |
| DailyAggregation.StatsMaxIsHottestSample | components/Past10DaysDashboard.tsx:57-94 | the overall maximum temperature is the hottest sample |
| DailyAggregation.StatsMinIsColdestSample | components/Past10DaysDashboard.tsx:58-95 | the overall minimum temperature is the coldest sample |
| DailyAggregation.StatsTotalIsSampleTotal | components/Past10DaysDashboard.tsx:43-98 | the overall precipitation total is the total of all samples |
| DailyAggregation.DailyTotalsCoverSamples | components/Past10DaysDashboard.tsx:61-76 | the daily precipitation totals add up to the total of all samples |
| DailyAggregation.DayTotalsCoverColumn | components/Past10DaysDashboard.tsx:32-64 | over distinct days that take in every sample, the day totals of a reading add up to its total: no sample is lost or counted twice |
| DailyAggregation.DayValueIsSample | components/Past10DaysDashboard.tsx:49-56 | every reading of a day comes from a sample of that day |
| DailyAggregation.SampleIsDayValue | components/Past10DaysDashboard.tsx:33-56 | every sample's reading is among the readings of its day |

## Left out

- Rendering (JSX, theme classes, icons, charts, tables) is left out: it is presentation only.
- `geocodeLocation` is a network call. Its answer is a parameter, and a thrown error is the `Failed` answer.
- `async`/`await`, `isSearching` and React's scheduling of state updates are left out. Each handler is one synchronous step from state to state. `handleSubmit` reads the values from before its own updates, as the component does.
- IEEE floating point is not modelled. Readings and coordinates are exact reals, NaN and ±Infinity are the single `NonFinite` value, and `parseFloat` of the coordinate inputs is done by the caller, which passes in a `Number`.
- `toFixed(1)` on the daily and overall figures is left out, along with the string type of the overall figures. `Fixed2` models `toFixed(2)` on exact values, rounding ties away from zero (on the magnitude, as `toFixed` does).
- `Date` parsing and the clock are not modelled. Dates are day numbers, and the clock is the `now` parameter. The `min`/`max` attributes of the date inputs are browser-side and left out.
- The dashboard sorts by `new Date(date).getTime()`. The model sorts lexicographically, which gives the same order for `YYYY-MM-DD` keys. Keys that are not dates, which `Date` turns into NaN, are not modelled.
- The source stores the accepted location's coordinates as strings (`toString()` of the numbers); `LatLon` holds the numbers themselves, so the string form handed to `onDataReady` is not modelled.
- `dateLabel` (date-fns `format`) is display text and is left out.
- String lengths count characters, not UTF-16 code units, so astral-plane characters count once.
- `DailyData` requires every reading array to have as many entries as `time` (`Aligned`). With shorter arrays the source reads `undefined`, which is not modelled; longer arrays, whose extra entries the source ignores, are excluded too.

## Findings

| source | as written | input that shows it | evidently intended | confidence | as-written member | corrected member |
|---|---|---|---|---|---|---|
| components/InputSection.tsx:200-247 | after accepting direct coordinates, `handleSubmit` calls `onDataReady(location!, locationName \|\| "Unknown Location", …)` with the values read before its own `setLocation` | Direct Coordinates mode, latitude 52.52, longitude 13.41, no location yet, `handleSubmit` called. Only a direct call gets here: the submit button is disabled without a location (components/InputSection.tsx:512-514), and `CoordinateModeNeverSubmits` shows coordinate mode never holds one through the form | the call receives the coordinates just accepted and their label | high, not executed | LocationForm.CoordinateSubmitLosesLocation | LocationForm.IntendedCoordinateSubmit |
| components/InputSection.tsx:204-243 | the final re-validation runs `validateLocationData` on the stored name, which for coordinates is "Coordinates (52.52°, 13.41°)", so it fails the character check | the same coordinates, `handleSubmit` called a second time once the location is held. This too needs a direct call, since the form never lets coordinate mode hold a location | a location entered as coordinates is not re-validated as a city name and can be submitted | high, not executed | LocationForm.CoordinateLocationNeverSubmits | LocationForm.IntendedResubmit |
| components/InputSection.tsx:512-514 | the submit button is disabled while no location is held, and in Direct Coordinates mode nothing but `handleSubmit` itself accepts coordinates, so coordinates typed in that mode can never be submitted (a search still in flight when the user switches mode could set a location, but the model takes each handler as one synchronous step) | Direct Coordinates mode, latitude 52.52, longitude 13.41: the submit button stays disabled whatever is typed | in-range coordinates can be submitted, which is what the coordinate block of `handleSubmit` is written for | high, not executed | LocationForm.CoordinateModeNeverSubmits | LocationForm.IntendedCoordinateSubmit |

`LocationForm.SubmitIntended` corrects `handleSubmit` for the coordinate cases only. It hands over the location just accepted, and it skips the name re-validation for locations whose country is "Custom". `LocationForm.OfferedIntended` is the corrected set of enabled controls: it also enables the submit button in Direct Coordinates mode.

Both `Submit` and `SubmitIntended` re-validate a searched location's stored name, "name, country", with the query check, as components/InputSection.tsx:239 does. A place whose country name holds a character outside that check's set ("Türkiye", say) is accepted by the search and then refused on every submit. The model keeps this as written, since which names the final check is meant to accept is not evident from the source.
