# Poo-Poo Dog Tracker: a verified model of the tracker's data layer

The tracker is a browser app that logs where and when a dog relieved itself, along with the
type (healthy, soft, diarrhea, hard, blood, mucus), size, colour, smell, last food and notes.
It keeps a log of entries, a food history and a list of saved notes. Over the log it offers
filters, a statistics panel, three charts (types, a 30-day timeline and a food correlation) and
reminders for the dog's next vaccination, antiparasitic and flea/tick treatment.

This project models the data layer of the `PoopTracker` class (`app.js`) in Dafny:

- `seqs.dfy` (`Seqs`): `Array.prototype.filter` as `Select`, and `filter(...).length` as `Count`, with
  their algebra. It also defines order-preserving subsequences.
- `sorting.dfy` (`Sorting`): an insertion sort that stands for `Array.prototype.sort` with a
  comparator. It is proved to give a sorted permutation and to keep distinct elements distinct.
- `text.dfy` (`Text`): `String.prototype.trim` over the ECMAScript white-space set.
- `poops.dfy` (`Poops`): the entry record, local time as integer milliseconds and day numbers,
  the problem types, deletion by id (`deletePoop`'s filter) and the marker icon (`getPoopIcon`).
- `filters.dfy` (`Filters`): `getFilteredPoops`.
- `stats.dfy` (`Stats`): the `updateStats` counters, the counting loop of `generateTypeChart` and
  the two loops of `generateTimelineChart`.
- `foods.dfy` (`Foods`): the counting, sorting and top-five slice of `generateFoodCorrelationChart`.
- `reminders.dfy` (`Reminders`): `getUpcomingReminders` and its `checkDate`.
- `tracker.dfy` (`Tracker`): the `PoopTracker` state as a class, which `addPoop`,
  `savePoopWithDetails`, `deletePoop`, `clearAllPoops` and the details-form submit handler
  update in place. Its invariant `Valid` says the food history and saved notes never hold an
  empty string or a repetition, and the food history holds the trimmed food of every entry.

Conventions:

- Entry times (`timestamp`) and the filter's `now` are local-time milliseconds since the epoch,
  so `DayOf(t) = t / 86 400 000` is the local calendar day.
- The month cutoff of the filter (`setMonth(getMonth() - 1)` on today's midnight) is the
  parameter `monthAgo`.
- Reminder dates are the instants, in milliseconds, of their local midnights, as `checkDate`
  gets them after `setHours(0, 0, 0, 0)`. A missing or empty date is `None`.
- The source's field `type` is called `kind`, because `type` is a Dafny keyword.
- The clock (`Date.now()`, `new Date()`), the user's confirmation and the free position found
  near the user are parameters.

## Model

| member | source | states |
|---|---|---|
| Poops.Without | app.js:353-354 | deleting an id keeps exactly the entries with another id, as an order-preserving subsequence; the length drops by the number of entries with that id; an absent id changes nothing |
| Poops.DeleteUndoesAppend | app.js:353-354 | deleting the id of an entry just appended with a fresh id gives back the previous log |
| Poops.DeleteIdempotent | app.js:353-354 | deleting the same id twice is deleting it once |
| Poops.NewEntry | app.js:237-241 | the new entry has the given id, the whole pending data and the whole details, and nothing else |
| Poops.EntryFromParts | app.js:237-241 | every entry is the one built from its id, its pending part and its form part |
| Poops.Icon | app.js:261-279 | every type gets one of the four icon classes; happy exactly for healthy, hard exactly for hard, sick exactly for blood or mucus, sad for everything else, including unknown types; every problem type gets sad or sick |
| Poops.AtOrAfterDayStart | app.js:488-499 | an instant is at or after the midnight of day d exactly when its day is d or later |
| Filters.InPeriod | app.js:488-506 | 'today' is from today's midnight to the next, 'yesterday' the day before, 'week' any day from seven days ago on, and any other period keeps every entry |
| Filters.FilteredPoops | app.js:477-521 | the result is an order-preserving subsequence of the log; an entry is in it iff it is in the log and meets every active criterion (period, type equal to the chosen type, food equal to the chosen food); with every criterion 'all' it is the whole log |
| Filters.FilteredIsOneSelect | app.js:477-521 | the three chained filters are one filter by the conjunction of the criteria, repetitions and order included |
| Filters.UnknownPeriodKeepsAll | app.js:504-505 | a period the switch does not recognise filters as 'all' does |
| Filters.TodayAndYesterdayDisjoint | app.js:489-494 | no entry passes both the 'today' and the 'yesterday' filter |
| Filters.RecentDaysInWeek | app.js:489-499 | every entry that passes the 'today' or the 'yesterday' filter passes the 'week' filter |
| Stats.Summarize | app.js:415-420 | the total is the number of entries; the healthy and problem counts together never exceed it |
| Stats.TypeCounts | app.js:855-868 | the counts have exactly the six type keys, and each counts the entries of its type |
| Stats.CountedNone | app.js:855-862 | the six zero counters are the counts of no entries |
| Stats.CountedStep | app.js:864-868 | incrementing the counter of an entry's type, when it has one, keeps every counter equal to the count of its type over the entries seen so far |
| Stats.TypeChartAgreesWithSummary | app.js:864-868 | the healthy slice of the type chart equals the healthy counter, and the diarrhea, blood and mucus slices add up to the problem counter |
| Stats.DayBucket | app.js:948-957 | a day's bucket never counts more problems than entries |
| Stats.Timeline | app.js:932-957 | thirty buckets, bucket i holding exactly the entries and problem entries of the day 29 - i days before today, with problems <= total in each; the counting loop keeps the buckets equal to those of the entries seen so far |
| Stats.NoBuckets | app.js:940-945 | the thirty zero buckets of the first loop are the buckets of no entries |
| Stats.BucketsStep | app.js:948-957 | one more entry grows its day's bucket by one, and its problems by one when it is a problem, when that day is in the chart, and changes no other bucket |
| Stats.DayBucketAsWritten | app.js:933-949 | with the cutoff kept at the current time of day, a bucket counts no more than the day's entries, and no more problems than entries |
| Stats.FirstBucketMissesEarlierEntry | app.js:933-949 | an entry at 08:00 on the first day of the window, seen at noon, is counted by the midnight cutoff but not by the cutoff as written |
| Foods.Tally | app.js:1039-1046 | one step of the count adds no group except that of the counted food |
| Foods.TallyKeepsShape | app.js:1038-1046 | counting a trimmed non-empty food keeps every group well formed (trimmed non-empty food, total >= 1, problems <= total) and the foods distinct |
| Foods.TallyFind | app.js:1040-1046 | counting a food bumps its group, created at zero if missing, and leaves every other group as it was |
| Foods.TallyKeepsOrder | app.js:1040-1043 | a counting step adds at most one group, after the others, which keep their places and foods |
| Foods.Step | app.js:1038-1046 | an entry without a non-empty trimmed food changes nothing; otherwise the groups keep their places and foods and at most one group is added |
| Foods.Accumulate | app.js:1037-1048 | the `forEach` keeps the groups already there in place with their foods and adds at most one group per entry, so groups come in the order their foods first appear |
| Foods.FoodGroups | app.js:1035-1048 | the groups after the count are well formed and have distinct foods |
| Foods.AccumulateKeepsShape | app.js:1037-1048 | every iteration of the `forEach` keeps the groups well formed and their foods distinct |
| Foods.StepFind | app.js:1038-1046 | one iteration adds one entry, and one problem if it is a problem, to the group of the entry's non-empty trimmed food, and leaves every other group as it was |
| Foods.AccumulateFind | app.js:1037-1048 | after the iterations over some entries, the group of a food holds its prior counts plus the number of those entries with that trimmed food and of their problem entries |
| Foods.FoodGroupsFind | app.js:1037-1048 | the group of a food exists iff some entry has that trimmed food, and then counts exactly those entries and the problem entries among them |
| Foods.FoodGroupsCount | app.js:1037-1048 | every group counts exactly the entries with its trimmed food and their problem entries; every entry with a non-empty trimmed food has its group |
| Foods.CountFoods | app.js:1037-1048 | the `forEach` loop computes the groups `FoodGroups` describes: the iterations still to come, applied to the groups so far, always give those groups |
| Foods.Record | app.js:1040-1046 | the look-up, create-at-zero and increment of one entry is one counting step |
| Foods.IndexOfFood | app.js:1040 | the look-up stops at the group of the food, or after the last group when the food has none |
| Foods.TallyAt | app.js:1040-1046 | the counting step replaces the group at the look-up's index, or appends a new group when there is none |
| Foods.TallyAppends | app.js:1040-1046 | a food without a group gets a new group after all the others, counting the one entry |
| Foods.TallyBumps | app.js:1040-1046 | a food whose group is at index j has that group bumped in place, the others unchanged |
| Foods.MostFirstIsOrder | app.js:1057 | the comparator `b.total - a.total` is a total, transitive "may come before" relation |
| Foods.TopFoods | app.js:1051-1058 | min(5, n) groups, by non-increasing total, all taken from the groups, none left out with a larger total than the fifth; distinct foods stay distinct |
| Foods.TopIsSorted | app.js:1057-1058 | the kept groups are in non-increasing order of total |
| Foods.TopFromGroups | app.js:1057-1058 | every kept group is one of the groups |
| Foods.TopKeepsLargest | app.js:1057-1058 | a group left out has no larger total than the fifth kept one |
| Foods.TopDistinct | app.js:1057-1058 | the kept groups have distinct foods when the groups do |
| Foods.FoodCorrelation | app.js:1035-1058 | at most five groups, by non-increasing total, each with distinct foods, total >= 1 and problems <= total, each counting exactly the entries with its trimmed food and their problem entries |
| Foods.FoodGroupsAsWritten | app.js:1040-1041 | the groups as the code builds them (losing inherited property names) are still well formed and distinct |
| Foods.InheritedFoodNameIsLost | app.js:1040-1041 | a single entry with food "toString" has its group, but the code as written reports no food |
| Reminders.Classify | app.js:735-742 | urgent iff the days left are at most 7 (overdue included), warning iff 8 to 14, ok iff 15 or more |
| Reminders.ClassifyMonotone | app.js:735-742 | a later date is never more urgent |
| Reminders.DaysLeftAsWritten | app.js:731-732 | the count as written (`Math.ceil`): more than n - 1 and at most n days apart |
| Reminders.DaysLeftAsWrittenIsCeiling | app.js:731-732 | as written the count is n exactly when the two midnights are more than n - 1 and at most n days apart |
| Reminders.DaysLeft | app.js:731-732 | the corrected count: the whole number of days nearest to the time apart |
| Reminders.DaysLeftIsNearest | app.js:731-732 | the corrected count is n exactly when the two midnights are within half a day of n days apart |
| Reminders.DaysLeftCountsCalendarDays | app.js:731-732 | two midnights n calendar days apart, with the clocks changed by less than half a day in between, are n days apart |
| Reminders.CheckDate | app.js:725-752 | a reminder exactly when the date is set and at most 30 days away by the corrected (rounded) day count, with the days left and their urgency |
| Reminders.RankOrdersUrgency | app.js:764 | `urgencyOrder` ranks urgent before warning before ok |
| Reminders.CompareReminders | app.js:763-769 | the comparator is non-positive exactly when a may come before b (lower rank, or equal rank and no more days left), and zero exactly when rank and days left agree |
| Reminders.CompareAntisymmetric | app.js:763-769 | swapping the two reminders negates the comparison |
| Reminders.ByUrgencyIsOrder | app.js:763-769 | the comparator (urgency rank, then days left) is total and transitive |
| Reminders.UpcomingReminders | app.js:720-772 | at most three reminders, at most one per care; one for a care exactly when its date is set and at most 30 days away by the corrected day count, as `checkDate` builds it; sorted by urgency rank then days left, hence by days left |
| Reminders.DueReminders | app.js:754-760 | the pushes give the non-null `checkDate` results in the order vaccination, antiparasitic, flea and tick |
| Reminders.ListedReminders | app.js:758-760 | pushing the results of three lookups for three different cares gives at most three reminders, exactly the non-null results, with distinct cares |
| Reminders.DueIsOnePerDate | app.js:754-760 | before sorting: at most three reminders, one for a care exactly when its date is set and at most 30 days away, each as `checkDate` builds it, at most one per care |
| Reminders.SortKeepsReminders | app.js:763-769 | sorting keeps the same reminders and their number, and orders them by urgency rank then days left |
| Reminders.UrgencyOrderIsDaysOrder | app.js:763-769 | reminders whose urgency follows their days left, ordered by urgency rank then days left, are ordered by days left alone |
| Reminders.DistinctCares | app.js:754-769 | sorting keeps one reminder per care |
| Reminders.CeilingOverCountsLongDay | app.js:731-742 | across a 25-hour day a date seven calendar days ahead counts eight days and a warning as written, seven days and urgent when rounded |
| Text.Trim | app.js:1479 | the result is trimmed, and it is empty exactly when the input is all white space |
| Text.TrimIsSlice | app.js:1479 | what `trim` keeps is a contiguous piece of the input with only white space cut on either side |
| Text.TrimIdempotent | app.js:1492 | trimming twice is trimming once |
| Sorting.Sort | app.js:1057 | the sorted sequence is a permutation of the input |
| Sorting.SortSorted | app.js:1057 | sorting by a total, transitive relation gives a sorted sequence |
| Sorting.SortNoDuplicates | app.js:1057 | sorting keeps a sequence without repetitions without repetitions |
| Tracker.Remember | app.js:245-248 | the list only grows, by at most the offered value; a non-empty value ends up in it |
| Tracker.RememberKeepsHistory | app.js:1482-1484 | offering a trimmed value keeps a suggestion list free of empty strings and repetitions |
| Tracker.RememberIdempotent | app.js:245-248 | offering the same value twice is offering it once |
| Tracker.FoodGroupsInHistory | app.js:245-248 | when the food history holds every entry's trimmed food, it holds the food of every food-correlation group |
| Tracker.Tracker.constructor | app.js:37-45 | a new tracker has no entries, no suggestions and nothing pending, and is valid |
| Tracker.Tracker.AddPoop | app.js:214-232 | without a position nothing changes; otherwise the position and the time become the pending data |
| Tracker.Tracker.SavePoopWithDetails | app.js:234-259 | with no pending data the log and food history stay; otherwise exactly one entry (id now, pending position and time, the details) is appended, the trimmed food is offered to the food history, and the pending data is cleared; the invariant is kept |
| Tracker.Tracker.DeletePoop | app.js:353-354 | the log loses exactly the entries with the id; nothing else changes; the invariant is kept |
| Tracker.Tracker.ClearAllPoops | app.js:369-389 | the log is emptied when confirmed and kept otherwise; the suggestion lists survive |
| Tracker.Tracker.SubmitDetails | app.js:1476-1499 | the trimmed note is offered to the saved notes when "save note" is ticked, then the details with trimmed food and notes are saved; the invariant is kept |

## Left out

- Leaflet map markers and `poopMarkers` are not modelled: `addPoopMarker`, marker removal in `deletePoop` and `clearAllPoops`, `centerOnPoop`, and the user marker.
- Geolocation is not modelled. `addPoop` receives the position already chosen.
- `findNearbyFreePosition` is not modelled because it rests on floating-point trigonometry. Latitude and longitude are carried as reals and never computed.
- Persistence is not modelled: `saveData`, `loadSavedData`, `localStorage`, JSON import and export. Nothing checks that a loaded state satisfies `Valid`.
- The DOM, toasts, modals, `confirm()` (a boolean parameter), chart and PDF rendering, the dog profile form and the photo are not modelled.
- The float `problemRate` percentage and the bar colours are not modelled. A group keeps its integer pair (total, problems), with 0 <= problems <= total, so the rate lies in [0, 100].
- Date parsing and formatting are not modelled: ISO 8601 timestamps, `toLocaleDateString('it-IT')` and the reminder date strings. `new Date("YYYY-MM-DD")` reads a date at UTC midnight, which moves to the previous local day in zones west of UTC. That is outside the model, since dates arrive as local midnights.
- Timezone and daylight-saving effects on entry timestamps are not modelled: entries and `now` are already local milliseconds. The `monthAgo` cutoff is a parameter, because it depends on month lengths.
- Stats.Timeline: does not model the `dd/mm` keys of the source's buckets. An entry exactly a year after a bucket's day shares its key; the model counts by day number and ignores entries after today.
- Foods.FoodGroups: does not model how `Object.entries` orders keys. It lists integer-like keys ("123") first in numeric order; the model keeps the order foods first appear. `TopFoods` states nothing about the order of equal totals, so its contract holds for either order.
- Foods.TopFoods: stability of the sort is not stated. The contract holds whatever order equal totals come in.
- Reminders.UpcomingReminders: a date string that `new Date` cannot parse gives `NaN` days and no reminder. The model folds it into `None`.
- Reminders.CheckDate: the label is the `Care` value, and the date is the midnight instant rather than the original string.
- Reminders.CheckDate: counts days with the corrected `Reminders.DaysLeft` (the nearest whole day), not `Math.ceil` as written (`Reminders.DaysLeftAsWritten`, see Findings). A date 30 days and 1 hour ahead, across the night the clocks go back, keeps its reminder with 30 days here; the source counts 31 days and drops it.
- Reminders.UpcomingReminders: builds on `Reminders.CheckDate`, so it uses the corrected day count, not the `Math.ceil` count as written (`Reminders.DaysLeftAsWritten`).
- Reminders.DueReminders: builds on `Reminders.CheckDate`, so it uses the corrected day count, not the `Math.ceil` count as written.
- Foods.IndexOfFood: looks only among the groups already built. The source's `!foodStats[food]` also finds names inherited from `Object.prototype`; that look-up is modelled by `Foods.FoodGroupsAsWritten` (see Findings).
- Foods.Record: uses the corrected look-up of `Foods.IndexOfFood`, so a food named like an inherited property, such as "toString", gets its group. As written it gets none (`Foods.FoodGroupsAsWritten`).
- Foods.CountFoods: computes the corrected `Foods.FoodGroups`, not the groups as written (`Foods.FoodGroupsAsWritten`), which lose foods named like inherited properties.
- Foods.FoodCorrelation: builds on `Foods.CountFoods`, so it keeps foods named like inherited properties, which the source drops (`Foods.FoodGroupsAsWritten`).
- Tracker.Tracker.SavePoopWithDetails: ids are `Date.now()` and are not checked for uniqueness. Two saves in the same millisecond give two entries with one id, and `DeletePoop` removes both, as `deletePoop` does.

## Findings

| source | as written | input that shows it | evidently intended | confidence | as-written member | corrected member |
|---|---|---|---|---|---|---|
| app.js:933-949 | `thirtyDaysAgo` is now moved back 29 days with its time of day kept, and entries before it are skipped | now at 12:00 on day 29, an entry at 08:00 on day 0: day 0 has a bucket, but the entry is not counted | count every entry of the 30 days drawn, from the first day's midnight | not executed | Stats.DayBucketAsWritten, Stats.FirstBucketMissesEarlierEntry | Stats.Timeline, Stats.DayBucket |
| app.js:1040-1041 | `if (!foodStats[food])` also sees inherited members of `Object.prototype` | one entry with food "toString": no own group is created and the food never reaches `Object.entries` | every non-empty trimmed food gets its group | not executed | Foods.FoodGroupsAsWritten, Foods.InheritedFoodNameIsLost | Foods.FoodGroups, Foods.FoodGroupsFind, Foods.IndexOfFood, Foods.Record, Foods.CountFoods, Foods.FoodCorrelation |
| app.js:731-732 | days left is `Math.ceil` of the millisecond difference between the two local midnights | a date 7 calendar days ahead, across the night the clocks go back (7 days + 1 hour): 8 days, "warning" instead of "urgent" | the calendar-day difference, robust to 23- and 25-hour days | not executed | Reminders.DaysLeftAsWritten, Reminders.CeilingOverCountsLongDay | Reminders.DaysLeft, Reminders.DaysLeftCountsCalendarDays, Reminders.CheckDate, Reminders.UpcomingReminders |
