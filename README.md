# DentTrack record-keeping core in Dafny

DentTrack is a personal dental-records app. Its state lives in one
application component and is made of these parts:

- a tooth chart of the 32 permanent teeth, numbered in FDI notation;
- a log of treatments, newest first;
- a session flag with a syncing indicator.

Saving a treatment does three things:

- it stamps the treatment with an id;
- it puts it at the front of the log;
- for five treatment kinds, it rewrites the status of the referenced tooth.

Around this core sit the screens:

- the tooth chart, which gives each tooth a type, a scale and a style;
- the journal, a stable newest-first sort shown as cards;
- the month calendar, with a 42-cell grid, treatments grouped by day, and
  monthly statistics;
- the forms for adding a dentist and recording a procedure.

The model is split into modules, one per source file:

| module | file | models | form |
|---|---|---|---|
| `Types` | `types.dfy` | enumerations and records of `types.ts` | datatypes, functions |
| `Constants` | `constants.dfy` | `INITIAL_TEETH`, `STATUS_COLORS` | constants, lemmas |
| `App` | `app.dfy` | the application state and its handlers | class `DentTrack` over pure chart updates |
| `ToothMap` | `tooth_map.dfy` | tooth type, scale, indicator, style, jaw, legend | functions, lemmas |
| `Timeline` | `timeline.dfy` | the journal sort, badges and cards | functions, lemmas |
| `DentistForm` | `dentist_form.dfy` | the dentist form's submit | functions, lemmas |
| `TreatmentForm` | `treatment_form.dfy` | the procedure form's state, file cap and submit | class `Form` |
| `CalendarDates` | `calendar_dates.dfy` | the `Date` arithmetic the calendar uses | functions, lemmas |
| `CalendarView` | `calendar_view.dfy` | grid, grouping, dots, statistics, navigation | methods with loops, class `Calendar` |
| `Strings` | `strings.dfy` | the JavaScript string built-ins used: `String(n)`, `padStart`, `trim`, `toUpperCase`, `substring`, `split(c)[0]` | functions, lemmas |

Some things the source gets from its environment are parameters of the
model. These are:

- the random ids, as `freshId` and `idOf`;
- the object URLs, as `urlOf`;
- `parseFloat` on the cost field, as `parseAmount`, returning whole amounts;
- the instant a date string denotes, as `timeOf`, used by the journal sort;
- the local year and month of a date string, as `monthOf`, used by the
  monthly statistics;
- today's year and month, used by the calendar's "Today" button.

Weekdays and month lengths follow the proleptic Gregorian calendar. Weekdays
use Sakamoto's formula, and the model proves that it agrees with the month
lengths.

## Model

| member | source | states |
|---|---|---|
| Types.ToothStatusValues | types.ts:2-11 | exactly eight tooth statuses, pairwise distinct, every status listed |
| Types.StatusNameInjective | types.ts:2-11 | distinct statuses carry distinct strings |
| Types.TreatmentTypeValues | types.ts:13-24 | exactly ten treatment kinds, pairwise distinct, in declaration order |
| Types.TreatmentTypeNameInjective | types.ts:13-24 | distinct kinds carry distinct strings |
| Types.RootCanalSharesName | types.ts:5-15 | the Treated status and the Root Canal kind share the string "Root Canal" |
| Types.DentistTypeValues | types.ts:65-74 | exactly eight dentist specialties, pairwise distinct |
| Types.DentistTypeNameInjective | types.ts:65-74 | distinct specialties carry distinct strings |
| Types.IsFdiExactly | types.ts:45 | quadrant digit 1-4 and position digit 1-8 holds exactly for 11-18, 21-28, 31-38, 41-48 |
| Types.Stamp | App.tsx:68-71 | the saved record carries the fresh id and otherwise exactly the submitted fields |
| Types.StampUnstamp | App.tsx:68-71 | stamping a record's fields with its own id gives the record back |
| Constants.ChartOrderId | constants.ts:9-46 | each chart position holds an FDI number, in quadrant 1, 2, 3, 4 by blocks of eight |
| Constants.InitialTeethOrder | constants.ts:10-45 | the initial chart has 32 teeth in the order 18..11, 21..28, 31..38, 41..48 |
| Constants.ChartOrderInjective | constants.ts:10-45 | different chart positions hold different numbers |
| Constants.InitialTeethHealthyFdi | constants.ts:11-45 | every initial tooth is healthy and has an FDI number |
| Constants.InitialTeethLabels | constants.ts:11-45 | each initial label is the decimal string of the tooth number |
| Constants.InitialTeethDistinct | constants.ts:10-45 | the initial tooth numbers are pairwise distinct |
| Constants.InitialTeethIds | constants.ts:10-45 | the initial tooth numbers are exactly the 32 FDI numbers |
| App.StatusAfter | App.tsx:79-83 | a status is written exactly for Extraction, Root Canal, Crown, Filling and Veneer, and it is never Implant, Needs Attention or Healthy |
| App.UpdateTeeth | App.tsx:76-86 | the chart update keeps the length, and every tooth's number and label |
| App.SaveSetsMappedStatus | App.tsx:77-83 | the referenced tooth takes Missing, Root Canal, Crown, Filled or Veneer as the kind dictates |
| App.SaveKeepsOtherTeeth | App.tsx:77-86 | every tooth with another number is left exactly as it was |
| App.UnmappedKindsKeepTeeth | App.tsx:78-85 | Implant, Braces, Hygiene, Checkup and Other leave the whole chart unchanged |
| App.GeneralProcedureKeepsTeeth | App.tsx:76 | a null or zero tooth reference leaves the whole chart unchanged |
| App.UpdateTeethIdempotent | App.tsx:77-86 | saving the same treatment twice rewrites the chart as saving it once |
| App.UpdateTeethPreservesChart | App.tsx:77-86 | saving keeps the initial chart's numbers, labels and order, and never produces Implant or Needs Attention |
| App.InitialChartValid | App.tsx:20 | the initial chart satisfies that invariant |
| App.FindTooth | App.tsx:90 | the result is the first tooth with the selected number; none exactly when no tooth has it or nothing is selected |
| App.FindToothOnChart | App.tsx:90 | on a chart of the initial shape every FDI number finds its tooth |
| App.DentTrack.constructor | App.tsx:16-33 | no session, not syncing, the initial chart, an empty log, the chart view, the guest profile |
| App.DentTrack.SelectedTooth | App.tsx:90 | the selected tooth is on the chart and carries the selected number |
| App.DentTrack.BeginLogin | App.tsx:47-49 | login turns the syncing indicator on and changes nothing else |
| App.DentTrack.CompleteLogin | App.tsx:50-53 | the session is set and the indicator goes off; the records are unchanged |
| App.DentTrack.SessionSyncStart | App.tsx:36-38 | with a session, syncing starts; nothing else changes |
| App.DentTrack.SessionSyncDone | App.tsx:39-42 | syncing stops and the profile name becomes "Alex Doe"; the records are unchanged |
| App.DentTrack.Logout | App.tsx:56-59 | the session is cleared and the profile view shown; teeth and treatments are unchanged |
| App.DentTrack.ToothClick | App.tsx:61-65 | the tooth is selected, the dialog closes, the chart is shown; the records are unchanged |
| App.DentTrack.ShowToothFromJournal | App.tsx:156 | the journal's tooth badge selects that tooth and shows the chart |
| App.DentTrack.SetView | App.tsx:194-203 | the navigation changes only the view |
| App.DentTrack.SetAddingTreatment | App.tsx:125 | opening or closing the dialog changes only that flag |
| App.DentTrack.SaveTreatment | App.tsx:67-88 | the stamped record heads the log, the chart is the update of the old chart, the dialog closes, the chart invariant is kept, and nothing else changes |
| App.SavePrependsRecord | App.tsx:73 | the log grows by one; the new record is first, equal to the draft plus its id, and the old log follows unchanged |
| ToothMap.JsRem | components/ToothMap.tsx:15 | JavaScript's remainder: Euclidean on non-negative numbers; otherwise the value in (-b, 0] that differs from the dividend by a multiple of `b`, i.e. the remainder truncated toward zero |
| ToothMap.ToothTypeByPosition | components/ToothMap.tsx:14-20 | on FDI numbers, position 1-2 is an incisor, 3 a canine, 4-5 a premolar and 6-8 a molar, in both directions |
| ToothMap.NegativeIdsAreMolars | components/ToothMap.tsx:14-20 | a negative number that is not a multiple of ten is classed as a molar |
| ToothMap.ScaleHundredths | components/ToothMap.tsx:22-29 | the scales lie between 1 and 1.5 |
| ToothMap.ScaleStrictlyIncreasing | components/ToothMap.tsx:22-29 | the scale grows strictly from incisor to canine to premolar to molar, in both directions |
| ToothMap.ScaleGrowsBackwards | components/ToothMap.tsx:14-29 | within a quadrant, a tooth further from the midline is never drawn smaller |
| ToothMap.ToothIndicator | components/ToothMap.tsx:32-61 | the indicator is absent exactly for a missing tooth |
| ToothMap.IndicatorTellsTypesApart | components/ToothMap.tsx:38-58 | on a tooth that is not missing, different types get different indicators |
| ToothMap.GetToothStyle | components/ToothMap.tsx:64-107 | the stroke depends on the selection alone, the selection overrides the fill for every status, and the label fill depends on the status alone |
| ToothMap.FillsDistinct | components/ToothMap.tsx:71-103 | unselected, the eight statuses get eight distinct fills, none of them the selection fill |
| ToothMap.FinalStyle | components/ToothMap.tsx:198-201 | an unselected missing tooth gets a transparent fill and a faint dashed stroke; every other tooth keeps its style; the label fill is never touched |
| ToothMap.VerticalScale | components/ToothMap.tsx:195-196 | the vertical scale is -1 exactly for numbers 31-48, else 1 |
| ToothMap.LowerJawIsQuadrants3And4 | components/ToothMap.tsx:195 | on FDI numbers, the lower jaw is exactly quadrants 3 and 4 |
| ToothMap.ArcsPartitionTeeth | components/ToothMap.tsx:120-136 | two arcs of 16 distinct teeth each: upper and lower, disjoint, and together every FDI tooth |
| ToothMap.HasPositionExactlyFdi | components/ToothMap.tsx:186-188 | a tooth is drawn exactly when its number is an FDI number |
| ToothMap.LegendCoversStatuses | components/ToothMap.tsx:156-165 | eight legend entries, one per status in order, captioned by the status name except "Attention" |
| ToothMap.RenderTooth | components/ToothMap.tsx:186-235 | a tooth without a position is not drawn; a drawn tooth has the type of its number, that type's scale, the indicator of that type and its status, the final style, a root-canal dot exactly when treated, the lower-jaw flip exactly for ids 31-48, and its own label |
| Timeline.Insert | components/Timeline.tsx:12 | inserting keeps the treatments (as a multiset) plus the new one, and keeps the newest-first order |
| Timeline.SortNewestFirst | components/Timeline.tsx:12 | the sorted copy is a permutation of the log with dates non-increasing |
| Timeline.InsertKeepsEqualsInOrder | components/Timeline.tsx:12 | an inserted treatment goes ahead of the treatments with the same date, which keep their order |
| Timeline.SortIsStable | components/Timeline.tsx:12 | treatments with the same date keep their input order |
| Timeline.TypeBadge | components/Timeline.tsx:35 | the badge has two characters |
| Timeline.TypeBadgeValues | components/Timeline.tsx:35 | the badge is the upper-cased first two characters of each kind's name |
| Timeline.TypeBadgeInjective | components/Timeline.tsx:35 | different kinds get different badges |
| Timeline.CardOf | components/Timeline.tsx:31-73 | the tooth badge appears exactly when the tooth reference is truthy, the cost exactly when the cost is truthy, the photo count exactly when there are attachments |
| Timeline.Journal | components/Timeline.tsx:12-25 | the empty state exactly for an empty log; otherwise one card per treatment, in sorted order |
| DentistForm.Blankable | components/DentistForm.tsx:24-27 | an optional field becomes nothing exactly when it is all white space, else its trimmed text |
| DentistForm.Submit | components/DentistForm.tsx:17-29 | refused exactly when the trimmed name is empty; otherwise the name is trimmed, the optional fields are trimmed or dropped, and the specialty is passed through |
| DentistForm.DisabledIffRefused | components/DentistForm.tsx:104 | the save button is disabled exactly when a submit would be refused |
| DentistForm.BlankNameRefused | components/DentistForm.tsx:20 | a white-space name is refused whatever the other fields hold |
| DentistForm.SpecialtyNamesNonEmpty | components/DentistForm.tsx:25 | every specialty is a non-empty string, so a chosen one is kept |
| DentistForm.SubmitIdempotent | components/DentistForm.tsx:22-28 | submitting a saved record again yields the same record |
| TreatmentForm.KeepFirst | components/TreatmentForm.tsx:24 | at most three files are kept, and they are the first ones selected |
| TreatmentForm.Attachments | components/TreatmentForm.tsx:34-38 | one attachment per file, in order, with the file's name and its URL |
| TreatmentForm.Form.constructor | components/TreatmentForm.tsx:12-20 | the defaults: Filling, today's date before 'T', USD, everything else empty |
| TreatmentForm.Form.SetKind | components/TreatmentForm.tsx:12 | only the kind changes |
| TreatmentForm.Form.SetText | components/TreatmentForm.tsx:13-17 | only the text fields change |
| TreatmentForm.Form.HandleFileChange | components/TreatmentForm.tsx:22-27 | a selection replaces the files by its first three; no selection keeps them; the cap is kept |
| TreatmentForm.Form.Submit | components/TreatmentForm.tsx:29-50 | the tooth comes from the selection, an empty cost or warranty gives nothing, attachments follow the files, no dentist is set |
| TreatmentForm.AtMostThreePhotos | components/TreatmentForm.tsx:24-38 | whatever is selected, a draft carries at most three photos, named after the first files |
| TreatmentForm.FormSaveMarksSelectedTooth | components/TreatmentForm.tsx:41 | submitting with a tooth selected and saving marks that tooth and no other |
| TreatmentForm.GeneralFormSaveKeepsChart | components/TreatmentForm.tsx:41 | submitting with no tooth selected leaves the chart unchanged |
| Strings.NatStrRoundTrip | components/CalendarView.tsx:87 | `String(n)` reads back as `n` |
| Strings.Trim | components/DentistForm.tsx:20 | trimming removes exactly the leading and trailing white space; empty exactly when all is white space |
| Strings.TrimIdempotent | components/DentistForm.tsx:23-27 | trimming twice is trimming once |
| Strings.PadStart | components/CalendarView.tsx:87 | padding gives at least the width, with the original text at the end |
| Strings.BeforeFirst | components/CalendarView.tsx:56 | the part before the first separator is a prefix without the separator, followed by it when shorter |
| CalendarDates.DaysInMonth | components/CalendarView.tsx:50 | 28 to 31 days, with 29 in February exactly in leap years |
| CalendarDates.PrevMonth | components/CalendarView.tsx:82-83 | the month before, December of the year before for January |
| CalendarDates.NextMonth | components/CalendarView.tsx:103-104 | the month after, January of the year after for December |
| CalendarDates.PrevNextRoundTrip | components/CalendarView.tsx:64-70 | a step back then forward, or forward then back, returns to the same month |
| CalendarDates.Weekday | components/CalendarView.tsx:49 | the weekday lies in 0..6 |
| CalendarDates.EpochIsThursday | components/CalendarView.tsx:49 | 1 January 1970 is a Thursday |
| CalendarDates.YearShiftStep | components/CalendarView.tsx:49 | a year moves the weekday on by one, or by two in leap years |
| CalendarDates.NextMonthWeekday | components/CalendarView.tsx:49-51 | the next month starts as many weekdays later as this month has days |
| CalendarDates.WeekdayInMonth | components/CalendarView.tsx:49 | within a month the weekday moves on by one each day |
| CalendarDates.NextDay | components/CalendarView.tsx:92-110 | the day after a valid day is a valid, later day |
| CalendarDates.TwoDigits | components/CalendarView.tsx:87 | the zero-padded two-digit form of a month or day number |
| CalendarDates.DateKeyFormat | components/CalendarView.tsx:87 | a day key is the year, a dash, the two-digit month 01-12, a dash and the two-digit day |
| CalendarDates.DateKeyInjective | components/CalendarView.tsx:87 | equal keys mean the same day |
| CalendarDates.DateKeysDiffer | components/CalendarView.tsx:87 | different days get different keys |
| CalendarView.DotColorsDistinct | components/CalendarView.tsx:11-34 | the ten kinds get ten different dot colours |
| CalendarView.LegendKinds | components/CalendarView.tsx:275 | the legend lists the first six kinds and not Braces, Hygiene, Checkup or Other |
| CalendarView.Lead | components/CalendarView.tsx:49 | the number of leading cells lies in 0..6 |
| CalendarView.GridDaysValid | components/CalendarView.tsx:77-110 | every grid cell holds a real day |
| CalendarView.GridConsecutive | components/CalendarView.tsx:77-110 | each cell holds the day after the previous cell's day, across both month boundaries |
| CalendarView.GridWeekdays | components/CalendarView.tsx:77-110 | cell `i` falls on weekday `i % 7`, under its column |
| CalendarView.PrevMonthWeekdays | components/CalendarView.tsx:80-89 | the leading cells fall under their weekday columns |
| CalendarView.NextMonthWeekdays | components/CalendarView.tsx:101-110 | the trailing cells fall under their weekday columns |
| CalendarView.GridIncreasing | components/CalendarView.tsx:77-110 | the grid's days strictly increase |
| CalendarView.MonthDayInGrid | components/CalendarView.tsx:92-98 | every day of the month is in the grid, at cell `lead + day - 1` |
| CalendarView.GridKeysDistinct | components/CalendarView.tsx:77-110 | no two cells share a date key |
| CalendarView.CellOf | components/CalendarView.tsx:84-88 | a cell shows its day and its in-month flag |
| CalendarView.Grid | components/CalendarView.tsx:77-110 | the grid has exactly 42 cells |
| CalendarView.LayoutCells | components/CalendarView.tsx:77-110 | in any layout, cell `i` is the cell of its day, marked as in the month exactly when it is |
| CalendarView.GridCells | components/CalendarView.tsx:77-110 | cell `i` is the cell of grid day `i`, keyed by its date, in-month exactly when it is |
| CalendarView.PushPrevMonthDays | components/CalendarView.tsx:80-89 | the first loop appends the last `lead` days of the previous month, not in the month |
| CalendarView.PushMonthDays | components/CalendarView.tsx:92-98 | the second loop appends days 1..daysInMonth of the month, in the month |
| CalendarView.PushNextMonthDays | components/CalendarView.tsx:101-110 | the third loop fills up to 42 cells with the first days of the next month |
| CalendarView.CalendarDays | components/CalendarView.tsx:77-110 | the three loops build exactly the grid |
| CalendarView.GridDatesDistinct | components/CalendarView.tsx:188 | distinct cells carry distinct dates, so at most one cell is today |
| CalendarView.DayKey | components/CalendarView.tsx:56 | the day key is a prefix of the date without a 'T' |
| CalendarView.BucketCount | components/CalendarView.tsx:54-61 | each occurrence of a treatment lands in its own day's group and in no other |
| CalendarView.BucketAppend | components/CalendarView.tsx:54-61 | grouping keeps the input order within each group |
| CalendarView.BucketNonEmpty | components/CalendarView.tsx:54-61 | a group is non-empty exactly when some treatment has that day |
| CalendarView.AddToGroup | components/CalendarView.tsx:56-60 | one treatment goes at the end of its day's group, which is opened when missing; other days are untouched |
| CalendarView.GroupByDate | components/CalendarView.tsx:54-61 | the loop's map has a key exactly for the non-empty groups, each holding its group |
| CalendarView.CellLookup | components/CalendarView.tsx:187 | looking a cell's date up gives exactly that day's treatments |
| CalendarView.SelectDate | components/CalendarView.tsx:189-195 | a click hands on the date and its treatments exactly when there are some |
| CalendarView.DotsOf | components/CalendarView.tsx:218-230 | dots for the first three treatments in their colours, and a "+N" counter that with them accounts for all |
| CalendarView.MonthTreatments | components/CalendarView.tsx:117-120 | the month's treatments are exactly those whose date falls in that month |
| CalendarView.MonthTreatmentsCount | components/CalendarView.tsx:117-120 | each treatment dated in the month appears as often as in the log, every other one not at all |
| CalendarView.MonthTreatmentsAppend | components/CalendarView.tsx:117-120 | the filter distributes over concatenation, so the month's treatments keep the log's order |
| CalendarView.DayKeysMembers | components/CalendarView.tsx:134 | a day is among the distinct days exactly when some treatment has it |
| CalendarView.DayKeys | components/CalendarView.tsx:134 | the distinct days number at most the treatments, and none only when there are none |
| CalendarView.PaidCurrency | components/CalendarView.tsx:128 | an empty currency counts as USD, any other currency is kept as given |
| CalendarView.NoEmptyCurrency | components/CalendarView.tsx:128 | no total is ever kept under the empty currency |
| CalendarView.PaidCurrencyWitness | components/CalendarView.tsx:126-131 | a currency has a total only when some treatment with a truthy cost was paid in it |
| CalendarView.NothingSpentUnpaid | components/CalendarView.tsx:126-131 | a currency nothing was paid in totals zero |
| CalendarView.SpentAppend | components/CalendarView.tsx:126-131 | the totals add up over concatenated lists |
| CalendarView.UnpaidAddsNothing | components/CalendarView.tsx:127 | a treatment without a truthy cost adds to no total |
| CalendarView.AddCost | components/CalendarView.tsx:128-130 | a truthy cost is added to its currency's total (USD when none is given); any other treatment leaves the totals as they were |
| CalendarView.MoneyByCurrency | components/CalendarView.tsx:125-131 | the loop keeps one total per paid currency, equal to the sum of its truthy costs |
| CalendarView.MonthlyStats | components/CalendarView.tsx:116-141 | visits are the number of the month's treatments (pinned with multiplicity by MonthTreatmentsCount), days are their distinct days (at most the visits, zero only without visits), and the totals are per currency |
| CalendarView.StatsShownIffVisits | components/CalendarView.tsx:239 | the statistics panel shows exactly when the month has visits |
| CalendarView.Calendar.constructor | components/CalendarView.tsx:43 | the calendar opens on today's month |
| CalendarView.Calendar.GoToPrevMonth | components/CalendarView.tsx:64-66 | the month before, across the year boundary |
| CalendarView.Calendar.GoToNextMonth | components/CalendarView.tsx:68-70 | the month after, across the year boundary |
| CalendarView.Calendar.GoToToday | components/CalendarView.tsx:72-74 | back to today's month |

## Left out

- A sync layer (local cache, remote store, reconciliation): the app has none. `lib/supabase.ts` only logs and returns constants; it is not part of this model.
- The `setTimeout` delays of login and of the session effect. Each is modelled as two instantaneous steps: `BeginLogin`/`CompleteLogin` and `SessionSyncStart`/`SessionSyncDone`. Interleavings with other handlers are not modelled.
- `Math.random` ids and `URL.createObjectURL`. They are the parameters `freshId`, `idOf` and `urlOf`, and the model states nothing about their uniqueness.
- Floating point. Costs are whole amounts, and `parseFloat` is the parameter `parseAmount`. NaN costs and `toFixed` formatting are not modelled. The tooth scales are hundredths: 100, 110, 125, 150.
- The trigonometric arc positions of `generateCircularPositions` are not modelled. Only which numbers get a position is.
- The `Date` machinery: `toLocaleDateString`, `toISOString`, and parsing a date string into an instant or a local month. These are the parameters `timeOf`, `monthOf` and `nowIso`. So the model does not show that `new Date("YYYY-MM-DD")` parses as UTC midnight, while the grid keys are local days.
- `new Date(y, m, d)` maps years 0-99 to 1900-1999. The weekday formula covers the proleptic Gregorian calendar for every year instead.
- JavaScript object key order, which decides the order in which the per-currency totals are listed. The totals are a `map`.
- JSX rendering details: CSS classes beyond those named above, SVG geometry, icons and the `filter` glow. JSX prints a falsy `0` literally (`{t.cost && …}` shows "0" for a zero cost); the model only records that the badge is absent.
- `lib/export.ts` (PDF export), `services/geminiService.ts` (a network call to an AI service) and `capacitor.config.ts` (build settings) are not part of this model.
- The profile screen's editing of `UserProfile` fields and the dentist list, which live outside the core files.
- Constants.StatusColor: only stated as a total function over the eight statuses, which the datatype guarantees; no further property is claimed.
- `Treatment` has a `warrantyUntil` field, which `types.ts` does not declare. The procedure form sets it and the journal reads it.
- Two fields are renamed because their names are Dafny keywords: `Tooth.label` is `labelText`, and the `type` fields are `kind`.
- Strings.UpperChar: `toUpperCase` is modelled on ASCII letters only; every kind name is ASCII.
- An Implant treatment does not change the tooth's status, as in the code. The Implant status is declared in `types.ts` but therefore never reached from the initial chart.
- The calendar's three loops are separate methods, one per loop, with `CalendarDays` calling them in order. The `forEach` callbacks of `treatmentsByDate` and `moneyByCurrency` are the methods `AddToGroup` and `AddCost`, which the loops call once per treatment.
