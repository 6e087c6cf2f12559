# EndoTrack daily-log core, modelled in Dafny

EndoTrack is a React app whose `App` component switches between five views. A user logs daily pelvic-pain symptoms,
whether the daily pill was taken, bleeding status and any extra (SOS)
medication. It stores the entries in the browser's local storage or in a
Firestore collection. It then draws a dashboard (treatment day, phase,
five-day strip), a Monday-first calendar with marker dots, and a seven-bar
pain chart with a weekly average.

All of this logic sits inside the `App` component of `src/App.jsx`. This project
lifts its pure rules out as Dafny functions over immutable data and proves
what they promise:

- `Entries` (entries.dfy): the `LogEntry` record, and the `Feeling`,
  `MedStatus` and `Bleeding` enums. Also the form-to-entry derivation
  (pain-level and bleeding priority rules, the `NewLog` record built on save)
  and the symptom-chip toggle.
- `LogStore` (log_store.dfy): ordering by `timestamp.seconds`, most recent
  first, where a missing timestamp counts as 0. Also the local-storage save,
  which drops the day's old entry, prepends the new one and sorts, and the
  `find`-by-date lookup.
- `Metrics` (metrics.dfy): treatment day, treatment phase, the weekly pain
  average (an exact `total / count` pair) and the seven-bar chart series.
- `Calendar` (calendar.dfy): the Monday-first month grid, the zero-padded
  `YYYY-MM-DD` day key, the five-slot treatment-day strip and the marker dots
  under a calendar day.
- `Digits` (digits.dfy): `String(n)` / `n.toString()` for naturals, and
  `padStart`.
- `Wrappers` (wrappers.dfy): `Option`, for `null` / `undefined`.
- `Numbers` (numbers.dfy): `Math.min` and `Math.max`.

Inputs that come from the clock, the locale or storage are parameters:
- today's ISO date;
- the date label;
- the two `Date.now()` readings in milliseconds: one for the timestamp, one for the local id;
- `daysInMonth` and `getDay()` of the first of the month;
- the stored list of entries.

Points where the code is easy to misread:

- The treatment day is `history.length + 1` (src/App.jsx:227), a count of
  stored entries rather than of distinct days. `Metrics.TreatmentDayCountsDays`
  proves the two agree on the local path whenever the stored history holds one
  entry per day, which the local save preserves
  (`LogStore.UpsertKeepsDatesDistinct`).
- One entry per day holds only on the local-storage path. The Firestore path
  appends with `addDoc` (src/App.jsx:174), so the model does not claim this
  invariant for the whole app.
- `symptoms` is an array that `toggleSymptom` maintains (src/App.jsx:114-120),
  not a set. The model keeps the sequence. It proves that the derivations
  depend only on which symptoms are present, and that toggling keeps a
  duplicate-free list duplicate-free.
- The chart takes `history.slice(0, 7).reverse()` (src/App.jsx:498), so its
  bars run oldest first; `Metrics.ChartSeries` states that order.

## Model

| member | source | states |
|---|---|---|
| Entries.PainLevel | src/App.jsx:125-128 | pain is 8 exactly when "Cólicas Fortes" is picked; 4 exactly when "Cólicas Leves" is picked without it; 6 exactly when neither is picked and the quick feeling is `cramps`; 0 otherwise; so always one of 0, 4, 6, 8 |
| Entries.BleedingOf | src/App.jsx:130-132 | spotting exactly when "Escape (Spotting)" is picked, even together with "Fluxo Intenso"; heavy exactly when "Fluxo Intenso" is picked without spotting; none exactly when neither is picked |
| Entries.DerivationIgnoresOrder | src/App.jsx:125-132 | two symptom lists with the same members give the same pain level and the same bleeding status |
| Entries.RemoveAll | src/App.jsx:116 | the filter keeps every other symptom as often as it occurred and drops every copy of the removed one; a list without that symptom comes back unchanged; it never grows the list and keeps a duplicate-free list duplicate-free |
| Entries.RemoveAllAppend | src/App.jsx:116 | the filter keeps the order: filtering a concatenation filters each part, and a single symptom stays exactly when it is not the removed one |
| Entries.ToggleSymptom | src/App.jsx:114-120 | toggling flips the membership of the toggled symptom, leaves every other symptom's count alone, removes every copy when the symptom was present, appends at the end when the symptom was absent, and keeps a duplicate-free list duplicate-free |
| Entries.ToggleTwice | src/App.jsx:114-120 | toggling the same symptom twice restores which symptoms are picked, and returns the very same list when the symptom was not picked |
| Entries.NewLog | src/App.jsx:134-151 | the saved entry carries today's date and label, the derived pain and bleeding, `daily` true exactly for `took`, the feeling and symptoms as picked, an SOS text that is absent exactly when the field was empty, a timestamp that is the clock rounded down to whole seconds, and the id the storage path supplies |
| LogStore.Insert | src/App.jsx:155 | inserting one entry yields the old entries plus that entry, as a multiset |
| LogStore.SortByTimestamp | src/App.jsx:104 | the sorted history is a permutation of the input ordered by timestamp, most recent first, with a missing timestamp counted as 0 |
| LogStore.WithoutDate | src/App.jsx:154 | the filter keeps every entry of another day as often as it occurred and drops every entry of the given day |
| LogStore.UpsertLocal | src/App.jsx:150-155 | the saved history is sorted most recent first and is a permutation of the new entry followed by the stored entries of other days; the new entry occurs once, every entry of its day is the new entry, every stored entry of another day is kept, and nothing else appears |
| LogStore.ExactlyOneEntryForDay | src/App.jsx:153-155 | after a local save exactly one position holds an entry of the saved day |
| LogStore.FindByDate | src/App.jsx:225 | the lookup is absent exactly when no entry has the date, and otherwise returns the first entry with that date |
| LogStore.FindSavedEntry | src/App.jsx:153-155 | after a local save, looking up the saved day returns the new entry |
| LogStore.SaveLocal | src/App.jsx:148-158 | saving the form leaves the history sorted, makes the lookup of today return the entry just built with an id whose decimal reading is the second clock reading, and keeps every stored entry of another day |
| LogStore.UpsertKeepsDatesDistinct | src/App.jsx:153-155 | a history with one entry per day keeps one entry per day after a local save, and its days are the old days plus today |
| LogStore.UpsertKeepsOtherDays | src/App.jsx:154-155 | when the history holds one entry per day, a local save leaves the lookup of every other day unchanged |
| LogStore.ResubmitReplaces | src/App.jsx:153-155 | saving twice on the same day leaves that day's lookup on the second entry, and every entry of that day is the second entry |
| LogStore.SameDayScenario | src/App.jsx:125-155 | strong cramps saved on 2024-03-01 give pain 8 and no bleeding; re-saving that day with spotting gives pain 0 and spotting |
| Metrics.TreatmentDay | src/App.jsx:227 | the treatment day is the number of stored entries plus one, never less than the number of logged days plus one; it equals that exactly when every stored entry has its own date, and runs ahead of it when a day repeats |
| Metrics.DistinctDatesCount | src/App.jsx:227 | a history never has more logged days than entries, and has exactly as many precisely when no day repeats |
| Metrics.TreatmentDayCountsDays | src/App.jsx:227 | starting from one entry per day, after a local save the treatment day is the number of distinct days, old ones and today, plus one |
| Metrics.PhaseOf | src/App.jsx:228-230 | adaptation exactly for day 30 and below, stabilisation exactly for days 31 to 90, control exactly above 90; the phase's `Label()` is "Fase de Adaptação", "Fase de Estabilização" or "Fase de Controlo" on exactly those days |
| Metrics.PhaseNeverRegresses | src/App.jsx:228-230 | a later day never has an earlier phase |
| Metrics.WeeklyAverage | src/App.jsx:508 | no data exactly for an empty history; otherwise the divisor is between 1 and 7 and equals min(length, 7), so the average never divides by zero |
| Metrics.WeeklyAverageWithinForm | src/App.jsx:508 | when every entry has a pain level the form can produce, the weekly total is the pain sum of the first min(length, 7) entries and lies between 0 and 8 times the count |
| Metrics.ReversedBars | src/App.jsx:498 | the reversed slice has the slice's length, with position i holding the entry at length-1-i |
| Metrics.ChartSeries | src/App.jsx:498 | the chart always has 7 bars: the first min(length, 7) entries in reverse order, then zero-pain placeholders |
| Metrics.ChartAgreesWithAverage | src/App.jsx:498-508 | the bar heights add up to the weekly average's total, and to 0 for an empty history |
| Calendar.StartOffset | src/App.jsx:217-218 | the leading-blank count lies in 0..6, and column `offset` of a Monday-first week is the first day's weekday (Sunday maps to 6) |
| Calendar.MonthGrid | src/App.jsx:220-222 | the grid has offset + daysInMonth cells: offset blanks followed by days 1..daysInMonth in order |
| Calendar.DayFallsOnItsWeekday | src/App.jsx:217-222 | every day of the month occupies exactly one grid cell, and that cell's Monday-first column is the day's own weekday |
| Digits.Decimal | src/App.jsx:224 | `String(n)` is a non-empty digit string with no leading zero (except "0") that reads back as n |
| Digits.PadStart | src/App.jsx:224 | `padStart` yields max(length, width) characters: the fill character on the left, then the original string |
| Digits.PaddedDecimalValue | src/App.jsx:224 | zero-padding a decimal rendering still reads back as the same number |
| Calendar.DateKey | src/App.jsx:224 | the `YYYY-MM-DD` key opens with the year's digits and a dash; the rows below carry its field values, its injectivity and its ISO shape |
| Calendar.DateKeyReadsBack | src/App.jsx:224 | for a four-digit year and a real month and day, the key's fields read back as the year, the month number `monthIndex + 1` (not the 0-based `getMonth()`) and the day |
| Calendar.FirstOfMarchKey | src/App.jsx:224 | month index 2 of 2024, day 1, is keyed "2024-03-01" |
| Calendar.DateKeyInjective | src/App.jsx:384 | different calendar days get different `YYYY-MM-DD` keys |
| Calendar.DateKeyIsIsoDate | src/App.jsx:224 | for a four-digit year the key has the ten-character ISO date shape: digits, dashes at positions 4 and 7 |
| Calendar.DayStrip | src/App.jsx:265-276 | the strip has 5 consecutive days starting at max(1, current - 2), all at least 1; states are past, today and future by comparison with the current day; for current ≥ 1 exactly one slot is today, in the first three, with past slots before it and future slots after it; captions are "Hoje" for today and "Dia n" otherwise |
| Calendar.DayMarkersAsWritten | src/App.jsx:403-405 | the dots as written: pill dot exactly for a log with the pill taken; pain dot exactly for a log with pain above 4; bleeding dot for a log with bleeding, and also for a day without a log |
| Calendar.UnloggedDayShowsBleedingDot | src/App.jsx:405 | as written, a day with no log shows the bleeding dot |
| Calendar.DayMarkers | src/App.jsx:403-405 | the dots as intended: each needs a log, and the bleeding dot appears exactly for a logged day with bleeding |
| Calendar.MarkersAgreeOnLoggedDays | src/App.jsx:403-405 | the corrected dots equal the written ones on every logged day and differ on a day without a log |

## Left out

- Firebase set-up, authentication, the `onSnapshot` subscription and `addDoc` with `serverTimestamp` (src/App.jsx:21-38, 69-112, 172-186): foreign SDK calls and async I/O. Only the snapshot's sort rule is modelled (`LogStore.SortByTimestamp`).
- `localStorage` reads and writes and the JSON round trip (src/App.jsx:95, 150, 157): the stored list is an input sequence and the saved list is the result.
- The `setTimeout` form reset, the `saving` flag and view switching (src/App.jsx:160-167, 175-182): React state plumbing.
- The clock and the locale: `new Date()`, `Date.now()`, `toISOString`, `Intl.DateTimeFormat` and `toLocaleString`, plus the `daysInMonth` and `getDay` computations. Today's ISO date, the date label, the milliseconds, `daysInMonth` and the first day's weekday are parameters. `toISOString` gives the UTC date, while the calendar builds its keys from local date parts (src/App.jsx:224, 384). So around local midnight a log can be saved under, and shown on, the neighbouring calendar day. The model does not relate the two, because time zones are outside it.
- Digits.Decimal: renders every natural in positional notation, while `String(n)` switches to exponent form from 1e21. Every number the app renders is far below that: a `Date.now()` of at most 8.64e15, years, months, days and strip days.
- Negative years: the day key takes the year as a natural, so `String(year)` of a negative year is not modelled.
- The dashboard gauge angle (src/App.jsx:315-316) and `toFixed(1)` (src/App.jsx:196, 508): floating-point display. The weekly average is kept as an exact total/count pair.
- The WhatsApp report (src/App.jsx:190-211): it is text building, `encodeURIComponent` and `window.open`. The overall average and the bleeding-day count it computes (src/App.jsx:196-197) live only in that report and are not modelled.
- The insight sentence chosen by `history.length > 3` (src/App.jsx:489), the unused `id` field of the strip slots (`d${n}` / `today`), the bar colours and the `D1`..`D7` captions: presentation.
- LogStore.SortByTimestamp: stated as a sorted permutation, which does not spell out stability. The definition itself is a stable insertion sort, as `Array.prototype.sort` is.
- LogStore.SortByTimestamp: the local path's comparator (src/App.jsx:155) reads `timestamp.seconds` without the `|| 0` fallback. Entries written by the local save always carry a timestamp, so the shared key function only differs for stored entries that lack one, which that path never writes.
- All JSX and styling.

## Findings

| source | as written | input that shows it | evidently intended | confidence | as-written member | corrected member |
|---|---|---|---|---|---|---|
| src/App.jsx:405 | the bleeding dot is shown when `hasLog?.bleeding !== 'none'`; for a day without a log this compares `undefined` with `'none'` and is true | any calendar day with no log (`hasLog` undefined): the bleeding dot is drawn | the bleeding dot only for a logged day whose bleeding is not `none`, as the other two dots already require a log | not executed | Calendar.UnloggedDayShowsBleedingDot | Calendar.DayMarkers |
