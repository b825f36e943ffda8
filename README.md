# cordova-plugin-health: a Dafny model of its core

cordova-plugin-health gives a Cordova app one `navigator.health` API over two platform stores:

- On Android, `HealthPlugin.java` serves `query`, `queryAggregated`, `store` and `requestAuthorization` from Google Fit.
- On iOS, `www/ios/health.js` translates the same calls onto the HealthKit bridge.
- The bridge, `www/HealthKit.js`, checks the arguments of each HealthKit method before handing it to `cordova.exec`.

This project models those three parts in Dafny and proves what they promise.

**Android (`HealthPlugin.java`).** The model covers:

- the data type registry and the Google Fit scopes and runtime permissions `requestAuthorization` derives (modules `Registry`, `Fitness`);
- the argument checks and the field selection of `query` and `store` (module `AndroidPlugin`);
- the whole of `queryAggregated`:
  - the window is quantised to hour, day, week, month or year (module `Buckets`, over a UTC proleptic Gregorian calendar in `Calendar`);
  - the week, month and year "shell" buckets are built;
  - each day bucket Google Fit returns goes to the first shell that contains it, or to the last shell when none does;
  - the steps, distance, calories, basal and activity values are accumulated, with Java's 32-bit `int` wrap-around written out (`Int32`);
  - the basal fallback to the weekly average of `getBasalAVG` (`Basal`) is applied, and the basal value is prorated (`Accumulate`).

`HealthPlugin` is a class with the plugin's mutable state: the custom data types and the dynamic permissions.

**Bridge (`HealthKit.js`, module `HealthKitJs`).** The model covers:

- `matches`, `rounds`, `hasValidDates`;
- the `paramChecker` of `getChecker`;
- the methods `define` installs, with a class `HealthKit` for the prototype and a class `JsObject` for the options object that `rounds` changes in place.

**iOS (`www/ios/health.js`, modules `IosHealth`, `IosActivity`).** The model covers:

- the data type and unit tables;
- `convertDate`;
- the type collection of `requestAuthorization`;
- the routing, the option preparation, the workout date filter and the sample unit choice of `query`;
- the field mapping of `store`;
- the `toHKActivity` and `fromHKActivity` tables, and exactly which labels survive a store and a read. Each table is split by the length of its key into one small function per length, keeping source order within a length. Each key appears once in the split tables: the later duplicate cases of `fromHKActivity`, which can never answer, are dropped (see `Shadowed`), so the split answers as the `switch` does.

Google Fit, HealthKit and the Cordova bridge are not modelled. They appear as function parameters:

- a provider from a read request to buckets or points;
- an insert function;
- a `canConnect` flag;
- a date parser and a millisecond conversion.

## Model

| member | source | states |
|---|---|---|
| Registry.FindType | src/android/HealthPlugin.java:415-430 | the type `query` looks up is the registry lookup: the later maps override the earlier ones and a custom type overrides them all |
| Registry.CustomWins | src/android/HealthPlugin.java:425-426 | a name registered as a custom type resolves to that custom type whatever the built-in maps hold |
| Registry.LookupNoneIff | src/android/HealthPlugin.java:415-430 | the lookup fails exactly when the name is in none of the body, activity, location, nutrition or custom maps |
| Registry.BuiltinLookup | src/android/HealthPlugin.java:66-100 | a name outside the custom map resolves to its entry in the body, activity or location map |
| Registry.DeriveScopes | src/android/HealthPlugin.java:303-318 | the loop over the requested types sets each scope flag exactly as the reference scope set says |
| Registry.PermissionsFor | src/android/HealthPlugin.java:319-321 | ACCESS_FINE_LOCATION is asked for iff "distance" is requested; BODY_SENSORS iff a body type is requested; at most two permissions, location first |
| Fitness.ParseAggregateIff | src/android/HealthPlugin.java:621-634 | an aggregate type name is accepted exactly when it equals, ignoring case, the name of that aggregate |
| Text.Lower | src/android/HealthPlugin.java:549-551 | lower-casing for `equalsIgnoreCase` shifts the ASCII capitals, folds the long s, the dotless i, the dotted capital I and the Kelvin sign to 's', 'i', 'i' and 'k', and leaves every other character alone |
| Text.MatchesLowerLetter | src/android/HealthPlugin.java:549-551 | a character matches an ASCII lower-case letter exactly when it is that letter, its capital, or one of the four folding characters for 's', 'i' or 'k' |
| Buckets.ParseBucketIff | src/android/HealthPlugin.java:544-556 | a bucket name is accepted as a kind exactly when it equals that kind's name ignoring case; any other name is the "not recognised" error |
| Text.NamesApart | src/android/HealthPlugin.java:549-551 | no string matches, ignoring case, two names that differ in length or in their first letter; so no argument matches two bucket kinds or two aggregates, and the order of the tests does not matter |
| Buckets.NormalizedStart | src/android/HealthPlugin.java:558-574 | the quantised start is at or before the start: the top of its hour for hour, midnight for day (less than a day earlier), the Sunday midnight of its week for week (less than a week earlier) |
| Calendar.WeekStart | src/android/HealthPlugin.java:566-567 | the start of the week is a midnight within the past seven days that falls on a Sunday |
| Calendar.MonthStartDate | src/android/HealthPlugin.java:568-569 | the start of the month is the first day of the same year and month |
| Calendar.YearStartDate | src/android/HealthPlugin.java:570-571 | the start of the year is 1 January of the same year |
| Buckets.NormalizedEnd | src/android/HealthPlugin.java:576-594 | the quantised end is after the end: the next hour boundary for hour (one hour later when already on one), the next midnight for day, that midnight plus a week, a month or a year for the others |
| Buckets.NormalizedWindowNonEmpty | src/android/HealthPlugin.java:558-594 | quantising an ordered window always gives a non-empty window |
| Calendar.FloorHour | src/android/HealthPlugin.java:560-563 | clearing minutes, seconds and milliseconds gives the hour boundary at or below the instant |
| Calendar.Midnight | src/android/HealthPlugin.java:564-565 | setting the hour of day to 0 gives the midnight of the same day |
| Calendar.MidnightDate | src/android/HealthPlugin.java:564-565 | midnight falls on the same calendar date as the instant |
| Calendar.DateOfDayNumber | src/android/HealthPlugin.java:558-594 | reading the civil date of a day number inverts the day number of a valid date |
| Calendar.DateOf | src/android/HealthPlugin.java:558-594 | every day number has a valid civil date that numbers back to it |
| Calendar.DayNumberInjective | src/android/HealthPlugin.java:558-594 | two valid dates with the same day number are the same date |
| Calendar.AddMonthDate | src/android/HealthPlugin.java:588-589 | adding a month lands on the next month's date, with the day clamped to that month's length |
| Calendar.AddYearDate | src/android/HealthPlugin.java:590-591 | adding a year lands on the same date of the next year, with 29 February clamped to the 28th |
| Calendar.AddMonth | src/android/HealthPlugin.java:665-666 | adding a month moves at least a day forward and keeps the time of day |
| Calendar.AddYear | src/android/HealthPlugin.java:667-668 | adding a year moves at least a day forward and keeps the time of day |
| Calendar.MoveToDate | src/android/HealthPlugin.java:665-668 | moving to a later month keeps the time of day, lands on the requested date and is at least a day later |
| Calendar.LaterDate | src/android/HealthPlugin.java:665-668 | a date in a later month or year has a larger day number |
| Buckets.Advance | src/android/HealthPlugin.java:663-668 | one shell step (a week, a month or a year) moves at least a day forward and keeps the time of day |
| Buckets.StepOf | src/android/HealthPlugin.java:663-668 | the shell step of a custom kind is a step function: at least a day forward, keeping the time of day |
| Buckets.ShellsBy | src/android/HealthPlugin.java:658-672 | the shells for a step function are non-empty exactly when the window is non-empty |
| Buckets.Shells | src/android/HealthPlugin.java:658-672 | the custom shells are non-empty exactly when the quantised window is non-empty |
| Buckets.ShellsByShape | src/android/HealthPlugin.java:658-672 | the shells are contiguous steps from the start; each one is non-empty and starts before the end, and the last one reaches the end |
| Buckets.ShellsShape | src/android/HealthPlugin.java:658-672 | the same shape for the shells of a week, month or year bucket |
| Buckets.BuildShells | src/android/HealthPlugin.java:658-672 | the `while` loop over the calendar builds exactly the reference shells |
| Buckets.ShellsStep | src/android/HealthPlugin.java:660-670 | one loop iteration appends the next shell and keeps the built-plus-remaining shells equal to the whole list |
| Buckets.DayFitsSomeShellBy | src/android/HealthPlugin.java:696-704 | every day of the window, as a midnight-aligned day, fits inside some shell |
| Buckets.DayFitsSomeShell | src/android/HealthPlugin.java:696-704 | every day bucket Google Fit returns for a custom window fits some custom shell |
| Buckets.ShellFrom | src/android/HealthPlugin.java:696-704 | the search from index i stops at the first shell that contains the bucket, or at the last shell |
| Buckets.ShellFor | src/android/HealthPlugin.java:696-704 | the chosen shell is the first one that contains the bucket, or the last one when none does |
| Buckets.ShellForFirstFitOrLast | src/android/HealthPlugin.java:696-704 | if some shell contains the bucket, the chosen one does; if none does, the bucket goes to the last shell |
| Buckets.FindShell | src/android/HealthPlugin.java:696-704 | the `for` loop with its `break` returns the reference choice of shell |
| Int32.Wrap | src/android/HealthPlugin.java:732-734 | Java `int` addition: the result is congruent to the mathematical sum modulo 2^32 and equal to it when in range |
| Int32.WrapIdentityIff | src/android/HealthPlugin.java:732-734 | wrapping leaves a value unchanged exactly when it fits in 32 bits |
| Int32.WrapAddLeft | src/android/HealthPlugin.java:732-734 | wrapping an intermediate sum does not change the wrapped total |
| Int32.WrapAccumulate | src/android/HealthPlugin.java:732-734 | a running wrapped total plus the next amount gives the wrapped grand total |
| Int32.ModShift | src/android/HealthPlugin.java:732-734 | subtracting multiples of 2^32 does not change the residue |
| Accumulate.Init | src/android/HealthPlugin.java:712-724 | a bucket without a value gets the zero of its type and the type's unit; a bucket that has one is left alone |
| Accumulate.BareAll | src/android/HealthPlugin.java:658-672 | the shells start as buckets with only their window, one per shell and in order |
| Accumulate.AddPointsSteps | src/android/HealthPlugin.java:731-734 | accumulating step points gives the 32-bit wrapped sum of the start value and all step counts |
| Accumulate.AddPointsAmount | src/android/HealthPlugin.java:735-746 | accumulating distance, calories or basal points adds up the field of every point |
| Accumulate.AddPointsActivity | src/android/HealthPlugin.java:747-762 | accumulating activity points gives the summary merged with every point's duration under its activity |
| Accumulate.MergedStep | src/android/HealthPlugin.java:747-762 | merging the first point and then the rest is merging the whole sequence |
| Accumulate.MergedStepAt | src/android/HealthPlugin.java:752-755 | for one activity label, the wrapped running duration after the first point, plus the rest, is the wrapped total |
| Accumulate.AddDurationGet | src/android/HealthPlugin.java:751-760 | adding a duration changes only the named activity's entry, by a wrapped addition |
| Accumulate.FromZero | src/android/HealthPlugin.java:675-690 | accumulating from the zero of a type gives that type's total over the points |
| Accumulate.AddPointsAppend | src/android/HealthPlugin.java:727-762 | accumulating over two data sets one after the other is accumulating over both at once |
| Accumulate.AccumulatePoints | src/android/HealthPlugin.java:726-762 | the data point loop computes the reference accumulation and sets `atleastone` exactly when there is a point |
| Accumulate.Credit | src/android/HealthPlugin.java:725-778 | crediting a native bucket keeps the target bucket's window and unit and leaves a value |
| Accumulate.CreditBucket | src/android/HealthPlugin.java:725-778 | the imperative crediting of one native bucket, with the basal fallback and proration, equals the reference credit |
| Accumulate.CreditFresh | src/android/HealthPlugin.java:706-778 | a fresh day or hour bucket takes the native bucket's window, the type's unit and the bucket value |
| Accumulate.FoldFlat | src/android/HealthPlugin.java:675-778 | the single bucket of an unbucketed query keeps the query window and unit and carries a value |
| Accumulate.FoldNative | src/android/HealthPlugin.java:706-778 | an hour or day query yields one bucket per native bucket |
| Accumulate.FoldNativeBuckets | src/android/HealthPlugin.java:706-778 | each hour or day output bucket has the native bucket's window, the type's unit and the value of that bucket alone |
| Accumulate.FoldCustomCredits | src/android/HealthPlugin.java:694-778 | a week, month or year query yields one bucket per shell, each credited with exactly the native buckets assigned to it, in order |
| Accumulate.CreditAllFrom | src/android/HealthPlugin.java:725-778 | a shell credited with several native buckets keeps its window and unit; it holds all their points accumulated, or for basal the sum of the bucket values with the average filled in for empty ones |
| Accumulate.ShellOutcome | src/android/HealthPlugin.java:694-778 | a shell that receives no native bucket stays without value or unit; one that receives some gets the shell value and the type's unit |
| Accumulate.CustomBuckets | src/android/HealthPlugin.java:653-778 | a custom query over a non-empty window succeeds with exactly the shells as windows, each with its shell outcome |
| Accumulate.FoldFlatFrom | src/android/HealthPlugin.java:675-762 | for types other than basal, the single bucket holds all points of all native buckets accumulated |
| Accumulate.FlatTotal | src/android/HealthPlugin.java:675-762 | an unbucketed query answers one bucket over the query window with the total of all points and the type's unit |
| Accumulate.FlatBasal | src/android/HealthPlugin.java:675-778 | an unbucketed basal query over one native bucket answers that bucket's prorated value, without a unit |
| Accumulate.AssembleFailsIff | src/android/HealthPlugin.java:694-704 | assembling the answer fails exactly when a custom query has no shells but Google Fit returned buckets |
| Accumulate.FlatLoop | src/android/HealthPlugin.java:692-778 | the bucket loop of an unbucketed query computes the reference single bucket |
| Accumulate.NativeLoop | src/android/HealthPlugin.java:692-778 | the bucket loop of an hour or day query computes the reference bucket list |
| Accumulate.CustomLoop | src/android/HealthPlugin.java:692-778 | the bucket loop of a custom query computes the reference shell list, or fails when there is no shell |
| Accumulate.CollectBuckets | src/android/HealthPlugin.java:653-787 | building the response from the read result equals the reference assembly |
| Basal.BasalRequest | src/android/HealthPlugin.java:793-805 | the average is read as basal summaries in day buckets over the week before the end |
| Basal.RepeatIsProduct | src/android/HealthPlugin.java:823 | adding x to itself k times is x times k |
| Basal.RepeatMonotone | src/android/HealthPlugin.java:823 | k copies of a smaller number add up to less than k copies of a larger one |
| Basal.Mean | src/android/HealthPlugin.java:811-823 | the average is 0 when there is no point, and otherwise the number that, taken once per point, adds up to the sum of the averages |
| Basal.MeanRepeat | src/android/HealthPlugin.java:823 | dividing a sum by k and adding the quotient k times gives the sum back |
| Basal.SumFieldAppend | src/android/HealthPlugin.java:814-820 | the sum over two point sequences is the sum of their sums |
| Basal.AllPointsFrom | src/android/HealthPlugin.java:814-820 | the points from bucket i onwards are bucket i's points followed by the rest |
| Basal.AverageOfAverages | src/android/HealthPlugin.java:811-823 | the nested loop over buckets and points computes the reference mean |
| Basal.GetBasalAverage | src/android/HealthPlugin.java:793-826 | `getBasalAVG` answers the mean of the read, or the read's error |
| Basal.MeanBounds | src/android/HealthPlugin.java:811-823 | the average of the averages lies between the smallest and the largest average |
| Basal.SumBounds | src/android/HealthPlugin.java:814-820 | the sum of n averages lies between n copies of a lower and of an upper bound |
| AndroidPlugin.CheckAggregatedArgsOk | src/android/HealthPlugin.java:527-594 | the arguments are accepted iff startDate, endDate and dataType are present and the bucket, if any, is a known kind; without a bucket the window is kept, with one it is quantised |
| AndroidPlugin.NoReadBeforeChecks | src/android/HealthPlugin.java:527-634 | a request that fails validation, cannot connect or names an unsupported type gets the same answer whatever Google Fit holds |
| AndroidPlugin.BucketedQueryAnswers | src/android/HealthPlugin.java:636-787 | a bucketed query over an ordered window whose read succeeds always answers with buckets |
| AndroidPlugin.QuerySamples | src/android/HealthPlugin.java:440-520 | a successful `query` returns every point in order, with its window, source and field value, and the unit of the requested type |
| AndroidPlugin.WrittenField | src/android/HealthPlugin.java:891-943 | `store` writes the parsed argument into the type's field: an int for steps, a float for the measured types, the string for activity and gender, the date parts for the date of birth, and no field for the basal metabolic rate alone |
| AndroidPlugin.StoreThenQuery | src/android/HealthPlugin.java:829-943 | when Google Fit returns the inserted point for its type and window, `query` (lines 440-520) with the same arguments answers exactly one sample with the stored window, source and field and the unit of the type |
| AndroidPlugin.StoreInsertsChecked | src/android/HealthPlugin.java:829-891 | the insert happens only after every check passes, with the given window and source name and the package name as the default bundle id |
| AndroidPlugin.HealthPlugin.constructor | src/android/HealthPlugin.java:64-102 | the plugin starts with no custom types and no dynamic permissions |
| AndroidPlugin.HealthPlugin.RegisterCustomType | src/android/HealthPlugin.java:134-148 | registering a custom type adds it under its name and leaves the permissions alone |
| AndroidPlugin.HealthPlugin.RequestAuthorization | src/android/HealthPlugin.java:298-321 | the scopes are those of the requested types and the permission list is replaced by what those scopes need |
| AndroidPlugin.HealthPlugin.QueryAggregated | src/android/HealthPlugin.java:526-791 | `queryAggregated` answers the reference result: the validation error, the connection error, the basal error, the read error, or the assembled buckets |
| AndroidPlugin.HealthPlugin.Query | src/android/HealthPlugin.java:399-525 | `query` answers the reference result for the plugin's current custom types |
| AndroidPlugin.HealthPlugin.Store | src/android/HealthPlugin.java:829-957 | `store` answers the reference result: the first failed check, or the insert's outcome |
| HealthKitJs.MatchesDateVersusTypeof | www/HealthKit.js:4-7 | `matches(o, Date)` holds exactly for dates; a date is also of type "object"; a plain object is an "object" but no Date; null is an "object" but an instance of nothing |
| HealthKitJs.RoundSeconds | www/HealthKit.js:12 | rounding milliseconds to seconds gives the nearest second, halves rounded up |
| HealthKitJs.RoundedSpec | www/HealthKit.js:9-13 | `rounds` replaces a date property by its rounded seconds and leaves every other property, and every non-date, alone; rounding twice is rounding once |
| HealthKitJs.JsObject.constructor | www/HealthKit.js:63 | an object starts with the given properties |
| HealthKitJs.Rounds | www/HealthKit.js:9-13 | `rounds` changes the object in place to the reference rounding |
| HealthKitJs.ValidDatesSpec | www/HealthKit.js:15-25 | the dates are valid iff both are Dates; a bad startDate is reported before a bad endDate; success rounds both |
| HealthKitJs.HasValidDates | www/HealthKit.js:15-25 | `hasValidDates` throws without touching the object, or rounds both dates in place |
| HealthKitJs.CheckParamSpec | www/HealthKit.js:27-38 | startDate and endDate must be Dates, samples an array, any other key truthy; the message names the key |
| HealthKitJs.FirstFailureSpec | www/HealthKit.js:65 | the checks pass iff every check passes; otherwise the error is that of the first failing check |
| HealthKitJs.RunChecks | www/HealthKit.js:65 | the `forEach` over the checks stops at and reports the first failure |
| HealthKitJs.Checks | www/HealthKit.js:54-55 | `required` becomes a list of keys: a list as is, a single key wrapped, a missing or empty one no checks |
| HealthKitJs.Defined | www/HealthKit.js:45-75 | `define` takes a function in place of the parameters as the hook, defaults the hook to a no-op, and reads `noArgs` and `required` from the parameters |
| HealthKitJs.CallAfterFailure | www/HealthKit.js:57-73 | a no-argument method passes no arguments; any other runs the checks and the hook and calls `cordova.exec` with the options even after an error was reported |
| HealthKitJs.CallRoundsDates | www/HealthKit.js:62-73 | with the checks passed and both dates valid, a `hasValidDates` method sends the dates as rounded seconds and reports no error |
| HealthKitJs.HealthKit.constructor | www/HealthKit.js:77-91 | the prototype holds exactly the methods defined at load time |
| HealthKitJs.HealthKit.Define | www/HealthKit.js:45-75 | `define` installs or replaces exactly one method |
| HealthKitJs.HealthKit.Call | www/HealthKit.js:57-73 | calling an installed method reports the reference error and issues the reference `exec`; a method with arguments changes the caller's options object in place to the reference options, a method without arguments takes no options and leaves the caller's object untouched |
| IosActivity.ToHK | www/ios/health.js:174-308 | `toHKActivity` stores "other" as HealthKit's catch-all type (the table itself is the body; what it does to every label is stated by RoundTripIff) |
| IosActivity.FromHK | www/ios/health.js:310-404 | `fromHKActivity` reads HealthKit's catch-all type back as "other", and never answers with the label of a case that repeats an earlier identifier (those cases cannot be reached) |
| IosActivity.RoundTripIff | www/ios/health.js:174-404 | a label comes back unchanged from `fromHKActivity(toHKActivity(a))` exactly when it is "other", or it has its own identifier and is the first case of `fromHKActivity` for that identifier; so "biking.road" comes back as "biking" and "aerobics" as "other" |
| IosHealth.UnitsCoverDataTypes | www/ios/health.js:7-24 | the unit table has exactly the keys of the data type table, and every unit is non-empty |
| IosHealth.DigitRun | www/ios/health.js:51 | the run of leading digits is no longer than the string |
| IosHealth.DigitRunPrefix | www/ios/health.js:51 | the digit run of a digit word followed by a non-digit is the word |
| IosHealth.DigitRunIsDigits | www/ios/health.js:51 | every character of the digit run is a digit |
| IosHealth.Fields | www/ios/health.js:51 | a successful match has one number per separator plus one |
| IosHealth.FieldOf | www/ios/health.js:51 | a digit word then its separator gives the word's value and the rest |
| IosHealth.FieldShape | www/ios/health.js:51 | a successful field is a digit word, its separator and the rest |
| IosHealth.LastFieldOf | www/ios/health.js:51 | the last field matches exactly a non-empty digit word, and gives its value |
| IosHealth.FieldsOfJoin | www/ios/health.js:51 | digit words joined by the separators match, giving each word's value |
| IosHealth.FieldsOnlyJoin | www/ios/health.js:51 | only digit words joined by the separators match |
| IosHealth.ConvertDateFromFields | www/ios/health.js:50-53 | a matched date string gives the Date arguments with the month made zero-based |
| IosHealth.ConvertDateAccepts | www/ios/health.js:50-53 | every string of six digit runs in the form "Y-M-D h:m:s" converts, with those six values |
| IosHealth.ConvertDateOnlyAccepts | www/ios/health.js:50-53 | only such strings convert; anything else fails as the regular expression does |
| IosHealth.CollectIntoSucceeds | www/ios/health.js:28-38 | the collection succeeds iff every requested type other than gender and date of birth is known, and then holds their HealthKit types in order |
| IosHealth.CollectIntoFails | www/ios/health.js:31-35 | a failed collection reports "unknown data type" with the first unknown type |
| IosHealth.RequestAuthorization | www/ios/health.js:27-45 | the loop computes the reference authorisation outcome |
| IosHealth.AuthorizationSpec | www/ios/health.js:27-45 | HealthKit is asked iff some type is requested and all are known, with the same read and write types; with no type to request it succeeds at once |
| IosHealth.PrepareQuery | www/ios/health.js:55-148 | `query` takes the route of its data type; a sample query gets its sample type and unit added to the options; an unknown type throws the undefined `dts` error |
| IosHealth.PreparedOptionsSpec | www/ios/health.js:99-103 | the prepared options hold the HealthKit type and the table unit and otherwise equal the given options |
| IosHealth.KeptWorkoutsParse | www/ios/health.js:83-96 | the workout loop succeeds exactly when every workout's dates parse |
| IosHealth.KeptWorkoutsSound | www/ios/health.js:83-96 | the result keeps what came before and then lists, in input order and once each, exactly the workouts of the data inside the window, each labelled through `fromHKActivity` |
| IosHealth.KeptWorkoutsSelects | www/ios/health.js:83-96 | the positions of the kept workouts are strictly increasing, each lies inside the window and gives the matching result entry, and every workout inside the window has its position among them |
| IosHealth.SelectsCons | www/ios/health.js:84-95 | one iteration of the loop extends a selection from the remaining workouts to a selection from all of them |
| IosHealth.DrawnHead | www/ios/health.js:88-94 | the first workout, when kept, is drawn from the data |
| IosHealth.DrawnTail | www/ios/health.js:83-96 | a workout drawn from the rest of the data is drawn from the data |
| IosHealth.KeptWorkoutsComplete | www/ios/health.js:83-96 | every workout of the data inside the window is kept |
| IosHealth.KeptGrows | www/ios/health.js:83-96 | the loop only appends to the result |
| IosHealth.FilterWorkouts | www/ios/health.js:80-98 | the workout answer is the reference filter with `fromHKActivity` as the label |
| IosHealth.WorkoutsAsWrittenEmpty | www/ios/health.js:83-96 | as written, the loop can only succeed with no workout kept |
| IosHealth.WorkoutsAsWrittenFails | www/ios/health.js:90 | as written, the loop throws exactly when the intended loop would keep a workout |
| IosHealth.UnitOf | www/ios/health.js:138-139 | the sample's unit is the requested unit if set, else the sample's own unit if set, else none |
| IosHealth.SamplesFromSpec | www/ios/health.js:132-143 | converting samples succeeds iff every sample's dates parse, and then gives one sample per input, in order, with its quantity |
| IosHealth.SampleUnitIsTableUnit | www/ios/health.js:99-143 | a sample query answers every sample in the unit of the table, with its quantity |
| IosHealth.ReadSamples | www/ios/health.js:132-143 | the sample loop computes the reference conversion |
| IosHealth.CollectSamples | www/ios/health.js:104-144 | the sample answer falls back to the profile reading for an empty weight or height, and is otherwise the converted samples |
| IosHealth.StoredRefuses | www/ios/health.js:152-155 | gender and date of birth are refused with their messages and the data left alone |
| IosHealth.StoredWorkout | www/ios/health.js:156-161 | an activity is saved as a workout whose activityType is the HealthKit identifier of its value, with every other field kept |
| IosHealth.StoredQuantity | www/ios/health.js:162-168 | a known type is saved as a quantity sample with its amount, sample type and unit set and every other field kept |
| IosHealth.StoredThrows | www/ios/health.js:169-171 | `store` throws exactly for a missing or unknown data type |
| IosHealth.StoreAsWrittenDiffers | www/ios/health.js:159 | as written, storing an activity throws where the intended code saves a workout; every other branch agrees |
| IosHealth.Store | www/ios/health.js:151-172 | `store` changes the data object in place and answers the reference outcome |

## Left out

- Google Fit's client, its connection and its thread pool are left out. The read, the insert and the connection are parameters.
- The activity-result and permission callbacks of `requestAuthorization` are left out, and so is the `authReqSuccess` chain. The model keeps only the scopes and the dynamic permission list.
- Time zones, daylight saving and locale are left out. The calendar is UTC and proleptic Gregorian, and weeks start on Sunday, the first day of the week in the US locale.
- `float` and `double` are modelled as exact reals, so float rounding is not modelled.
- `Integer.parseInt` and `Float.parseFloat` are parameters. A parse that throws is modelled as an error string.
- The debug logging of the buckets after the loop (HealthPlugin.java:781-785) has no effect on the answer and is left out.
- `readGender`, `readDateOfBirth`, `readWeight` and `readHeight` are calls into the HealthKit bridge. Their results are modelled only as the route `query` takes and the profile fall-back outcome.
- JavaScript's loose equality, coercion and prototype keys are left out. Tables are maps from strings, and a data type name is a string or absent.
- NaN and invalid Dates are left out. A Date is a whole number of milliseconds.
- `convertDate` builds a local-time `Date`. The model keeps the six arguments, and the conversion to milliseconds is a parameter.
- The `'unknown data type ' + dts[i]` branches (health.js:147, 170) refer to a variable that does not exist there. They are modelled as throwing that ReferenceError, not as calling `onError`.
- www/android/health.js is not part of this model.
- Text.Lower: other characters outside ASCII are compared as they are, not by their Unicode upper and lower cases. This is exact for every comparison in the model, whose second string is always an ASCII name, and not for two arbitrary strings.
- Accumulate.NULL_SHELL_ERROR: the error callback receives the message of the NullPointerException (`ex.getMessage()`, HealthPlugin.java:245-246). The JVM chooses that text, so the constant stands in for it.
- AndroidPlugin.BAD_VALUE_ERROR: a value that does not parse, or has the wrong shape, makes `store` throw (a NumberFormatException or a JSONException), and `store` has no catch. What then reaches the caller is decided by Cordova's plugin manager, which is not part of this model, so the one constant stands in for either.
- The `install` function of HealthKit.js (lines 93-99) touches only the global `window` and is left out.

## Findings

| source | as written | input that shows it | evidently intended | confidence | as-written member | corrected member |
|---|---|---|---|---|---|---|
| www/ios/health.js:90 | `fromHKActivity(...)` is called as a free function, but it exists only as `Health.prototype.fromHKActivity` | any workout inside the query window throws a ReferenceError before `onSuccess` (WorkoutsAsWrittenFails) | `this.fromHKActivity` / `Health.prototype.fromHKActivity`, labelling each kept workout (KeptWorkoutsSound, KeptWorkoutsComplete) | high, not executed | IosHealth.KeptWorkoutsAsWritten | IosHealth.FilterWorkouts |
| www/ios/health.js:159 | `toHKActivity(...)` is called as a free function, but it exists only as `Health.prototype.toHKActivity` | `store` with dataType "activity" throws a ReferenceError before `saveWorkout` (StoreAsWrittenDiffers) | the prototype's `toHKActivity`, saving the workout with its HealthKit identifier (StoredWorkout) | high, not executed | IosHealth.StoredAsWritten | IosHealth.Store |
