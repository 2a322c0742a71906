# Investor dashboard views — a Dafny model

This project models the logic inside the views of a mobile investor dashboard for a
property: the balance view (totals and the revenue chart over rows fetched from a
reporting table), the occupancy view (a month's occupancy figures and booked calendar
days generated deterministically from the period), the fiscal view (a quarter's CFDI
invoices, their selection and staggered download), the search view (filtering a fixed
catalogue, grouping by category, navigating to a tab) and the SVG charts the views draw
(line-chart geometry and hover state, the donut's arc).

Modules, one per source file plus shared JavaScript semantics:

- `JsCore` — what the views rely on from the language: `Option`, 32-bit `|0` and `<<`
  wrap-around, `x - Math.floor(x)`, `toLowerCase`/`toUpperCase` (ASCII and Latin-1),
  `includes`, `trim`, decimal rendering, `padStart`, `split`, UTF-16 code units,
  `Array.from(new Set(...))`.
- `Constants`, `Tabs` — the month list and the tab enumerations.
- `Fiscal`, `Search`, `Balance`, `Occupancy`, `SVGCharts` — the views and charts.

Pure expressions (`map`, `filter`, `reduce`, `find`) are functions with lemmas; the
loops (the seed hash, the calendar-day loop and its in-place sort, the download
`forEach`) are methods with loop invariants proved against those functions; React state
that handlers update (the fiscal selection, the balance view's fetch and hover state,
the chart's active index) is a class whose methods state the new state.

Arithmetic is exact: money and coordinates are `real`, integers are unbounded, and
JavaScript's 32-bit wrap-around is written out where the hash uses it. `Math.sin` is a
parameter `sinScaled` standing for `Math.sin(n) * 10000`; the fractional part taken of it
is modelled exactly. The backend query is a parameter `FetchOutcome` (rows, possibly
null; a query error; a thrown failure).

The monthly chart's five points are the first row's value times 0.85, 0.95, 1, 1.02
and 0.98, which add up to 4.8 times that value rather than to the headline total
(`Balance.MonthlySeries`).

## Model

| member | source | states |
|---|---|---|
| JsCore.ToInt32 | components/Views/Occupancy.tsx:21 | or-ing the hash with 0 gives a signed 32-bit value congruent to its input modulo 2^32 |
| JsCore.ToInt32Congruent | components/Views/Occupancy.tsx:20-21 | values congruent modulo 2^32 wrap to the same 32-bit value |
| JsCore.ShiftLeft5 | components/Views/Occupancy.tsx:20 | `h << 5` is a 32-bit value congruent to 32·h |
| JsCore.Frac | components/Views/Occupancy.tsx:25-28 | `x - Math.floor(x)` lies in [0, 1) and differs from x by a whole number |
| JsCore.CodeUnits | components/Views/Occupancy.tsx:19-20 | the string's UTF-16 code units, each below 0x10000, one or two per character |
| JsCore.Lower | components/Views/Search.tsx:90-94 | `toLowerCase` keeps the length and lowers each upper-case letter, leaving other characters |
| JsCore.LowerIdempotent | components/Views/Search.tsx:90-94 | lowering twice is lowering once |
| JsCore.Upper | components/Views/Balance.tsx:99 | `toUpperCase` keeps the length and maps character by character |
| JsCore.UpperOfUpper | components/Views/Balance.tsx:99 | a text without lower-case letters is its own upper case |
| JsCore.Includes | components/Views/Search.tsx:92-94 | `includes`: whether the needle occurs in the text; its meaning is in `JsCore.IncludesIff` |
| JsCore.IncludesIff | components/Views/Search.tsx:91-93 | `includes` holds exactly when the needle occurs at some position |
| JsCore.IncludesTransitive | components/Views/Search.tsx:91-93 | a text containing b contains everything b contains |
| JsCore.IncludesLower | components/Views/Search.tsx:90-93 | containment survives lower-casing both sides |
| JsCore.Trim | components/Views/Search.tsx:89 | `trim()` drops leading and then trailing whitespace; its meaning is in `JsCore.TrimEmptyIff` and the two halves below |
| JsCore.TrimStart | components/Views/Search.tsx:89 | the result is a suffix of the input not starting with whitespace, and everything removed before it is whitespace |
| JsCore.TrimEnd | components/Views/Search.tsx:89 | the result is a prefix of the input not ending with whitespace, and everything removed after it is whitespace |
| JsCore.TrimEmptyIff | components/Views/Search.tsx:89 | `trim()` is empty exactly when every character is JavaScript whitespace |
| JsCore.FirstIndex | components/Views/Search.tsx:98 | the first position holding a value |
| JsCore.Dedupe | components/Views/Search.tsx:98 | `Array.from(new Set(s))`; its meaning is in `JsCore.DedupeSpec` |
| JsCore.DedupeSpec | components/Views/Search.tsx:98 | `Array.from(new Set(s))` has the same members, no repeats, in order of first occurrence |
| JsCore.Decimal | components/Views/Fiscal.tsx:36-37 | a number's decimal text is non-empty digits without a leading zero, one digit exactly below 10 |
| JsCore.DecimalRoundTrip | components/Views/Fiscal.tsx:36-37 | reading the decimal text back gives the number |
| JsCore.DecimalInjective | components/Views/Fiscal.tsx:36 | distinct numbers have distinct decimal texts |
| JsCore.PadStart | components/Views/Fiscal.tsx:37 | `padStart` reaches the width by filling on the left and ends with the input |
| JsCore.Split | components/Views/Fiscal.tsx:63 | `split` on one separator character, giving at least one part; its meaning is in `JsCore.SplitFirst` and `JsCore.SplitNoSeparator` |
| JsCore.SplitFirst | components/Views/Fiscal.tsx:63 | `split` cuts at the first separator and splits the rest |
| JsCore.SplitNoSeparator | components/Views/Fiscal.tsx:63 | a text without the separator splits into itself alone |
| Fiscal.QuarterMonths | components/Views/Fiscal.tsx:21-28 | a quarter has three month names |
| Fiscal.QuarterStartMonth | components/Views/Fiscal.tsx:29 | the quarter's first month offset is a multiple of 3 up to 9 |
| Fiscal.UnknownQuarterIsQ1 | components/Views/Fiscal.tsx:28-29 | an unknown quarter falls back to Q1's months and offset, so to Q1's invoices |
| Fiscal.Cfdis | components/Views/Fiscal.tsx:31-42 | the quarter has three invoices, invoice idx built from idx |
| Fiscal.InvoiceDateRoundTrip | components/Views/Fiscal.tsx:37 | a date splits on '-' into the year, a two-digit month and "05" that read back as year and month |
| Fiscal.PaddedMonthValue | components/Views/Fiscal.tsx:37 | the padded month is two digits reading back as the month |
| Fiscal.CalendarMatchesQuarter | components/Views/Fiscal.tsx:20-28 | the quarter's month names are the calendar months starting at the quarter's first month |
| Fiscal.MakeInvoice | components/Views/Fiscal.tsx:31-41 | the invoice built for month idx of the quarter; its meaning is in `Fiscal.CfdiDates`, `Fiscal.CfdiIdsDistinct` and `Fiscal.CfdiAmounts` |
| Fiscal.CfdiDates | components/Views/Fiscal.tsx:28-38 | each invoice is dated day 5 of a month of its quarter, the month it is named after |
| Fiscal.CfdiIdsDistinct | components/Views/Fiscal.tsx:32-36 | the three invoices of a quarter have distinct ids |
| Fiscal.CfdiAmounts | components/Views/Fiscal.tsx:33-40 | the first amount is 11000..15000, each month adds 5000, all are VIGENTE |
| Fiscal.XmlFolio | components/Views/Fiscal.tsx:63 | the folio `id.split('-')[1]`, absent when the id has no dash; its meaning is in `Fiscal.FolioRoundTrip` |
| Fiscal.FolioRoundTrip | components/Views/Fiscal.tsx:63 | the XML folio is the id's number and reads back as the base id |
| Fiscal.Toggled | components/Views/Fiscal.tsx:45-53 | the selection with the id removed if present and added otherwise; its meaning is in `Fiscal.ToggleFlipsOnlyId` and `Fiscal.ToggleTwice` |
| Fiscal.ToggleFlipsOnlyId | components/Views/Fiscal.tsx:45-53 | toggling flips membership of the id and of no other id |
| Fiscal.ToggleTwice | components/Views/Fiscal.tsx:45-53 | toggling the same id twice restores the selection |
| Fiscal.SelectedCfdis | components/Views/Fiscal.tsx:112 | the filter is no longer than the list |
| Fiscal.SelectedCfdisSpec | components/Views/Fiscal.tsx:112 | the selected invoices are exactly the listed ones whose id is selected, in list order |
| Fiscal.NothingSelected | components/Views/Fiscal.tsx:112 | with nothing selected the filter is empty |
| Fiscal.SelectedAt | components/Views/Fiscal.tsx:112 | every filtered entry is a listed invoice with a selected id |
| Fiscal.JobFor | components/Views/Fiscal.tsx:114-122 | the job for the k-th selected invoice carries it and waits 600·k ms |
| Fiscal.ScheduleDownloads | components/Views/Fiscal.tsx:110-123 | nothing for an empty selection, else one job per selected invoice in order, job k 600·k ms late |
| Fiscal.FiscalView.constructor | components/Views/Fiscal.tsx:15-16 | the view starts on its period with nothing selected |
| Fiscal.FiscalView.SetPeriod | components/Views/Fiscal.tsx:15-16 | a new period keeps the selection |
| Fiscal.FiscalView.ToggleSelection | components/Views/Fiscal.tsx:45-53 | the new selection is the old one with the id toggled |
| Fiscal.FiscalView.HandleDownload | components/Views/Fiscal.tsx:110-123 | the jobs for the invoices on screen and the current selection |
| Search.FilterMatching | components/Views/Search.tsx:90-95 | the filter is no longer than the catalogue |
| Search.FilterMatchingSpec | components/Views/Search.tsx:90-95 | kept items are exactly the matching ones, in catalogue order |
| Search.BlankQueryFindsNothing | components/Views/Search.tsx:89 | an empty or whitespace-only query has no results |
| Search.Results | components/Views/Search.tsx:88-96 | the filtered results of a query; their meaning is in `Search.ResultsSpec`, `Search.BlankQueryFindsNothing` and `Search.LongerQueryNarrows` |
| Search.ResultsSpec | components/Views/Search.tsx:88-96 | for a non-blank query an item is a result iff its lowered title, description or category contains the lowered query |
| Search.LongerQueryNarrows | components/Views/Search.tsx:88-96 | a non-blank query contained in a longer one finds every result of the longer one |
| Search.CategoriesOf | components/Views/Search.tsx:98 | one category per result, position by position |
| Search.Categories | components/Views/Search.tsx:98 | the headings of the results; their meaning is in `Search.CategoriesSpec` |
| Search.CategoriesSpec | components/Views/Search.tsx:98 | the headings are the results' categories, each once, in order of first appearance |
| Search.InCategory | components/Views/Search.tsx:142 | a group is no longer than the results |
| Search.InCategorySpec | components/Views/Search.tsx:142 | a group holds exactly the results of its category |
| Search.Groups | components/Views/Search.tsx:138-142 | one group per heading |
| Search.GroupsByCategory | components/Views/Search.tsx:138-142 | headings are distinct and a heading holds exactly the results of its category |
| Search.GroupsCover | components/Views/Search.tsx:138-142 | every result sits under the heading of its own category |
| Search.GroupsTotal | components/Views/Search.tsx:138-142 | the group sizes add up to the result count, so no result is listed twice or dropped |
| Search.ScreenFor | components/Views/Search.tsx:127-137 | prompt, result groups or "no results"; its meaning is in `Search.ScreenSpec` |
| Search.ScreenSpec | components/Views/Search.tsx:127-180 | the prompt shows exactly for the empty query; a whitespace-only query shows "no results" |
| Search.Navigate | components/Views/Search.tsx:145-158 | the view and bottom tab a result opens; its meaning is in `Search.NavigateSpec` |
| Search.NavigateSpec | components/Views/Search.tsx:145-158 | only PERFIL opens the profile tab, the view named by the target opens otherwise, and OCUPACION maps to the value OCUPACIÓN |
| Search.CatalogueTargetsKnown | components/Views/Search.tsx:14-79 | every catalogue target is a bottom-map key; only PERFIL uses the view fallback |
| Balance.SumColumn | components/Views/Balance.tsx:74-86 | the `reduce` total of one column, each row adding its numeric value or 0; its meaning is in `Balance.SumColumnAppend`, `Balance.NonNumericRowsAddNothing` and `Balance.SumColumnNonNegative` |
| Balance.AggregateValue | components/Views/Balance.tsx:74-76 | `aggregateValue`: the total of the net distributed column |
| Balance.TotalRevenue | components/Views/Balance.tsx:78-81 | the total of the revenue column |
| Balance.TotalCosts | components/Views/Balance.tsx:83-86 | the total of the costs column |
| Balance.SumColumnAppend | components/Views/Balance.tsx:74-86 | the totals of two batches of rows add up |
| Balance.SumColumnSingle | components/Views/Balance.tsx:74-86 | a row adds its numeric value or 0 |
| Balance.NumericRows | components/Views/Balance.tsx:74-86 | every row kept has a numeric value in the column |
| Balance.NumericRowsAppend | components/Views/Balance.tsx:74-86 | numeric rows of an extended list extend the numeric rows |
| Balance.NonNumericRowsAddNothing | components/Views/Balance.tsx:74-86 | rows whose value is not a number add nothing, as `Number(x)` falls back to 0 |
| Balance.SumColumnNonNegative | components/Views/Balance.tsx:74-86 | non-negative values give a non-negative total |
| Balance.Zeros | components/Views/Balance.tsx:89 | `Array(n).fill(0)` has n zeros |
| Balance.FindMonthSpec | components/Views/Balance.tsx:99 | `find` returns the first row whose upper-cased mes starts with the month, none iff no row does |
| Balance.ChartData | components/Views/Balance.tsx:87-102 | the chart series; its meaning is in `Balance.SeriesMatchesLabels`, `Balance.EmptySeriesIsZeros`, `Balance.MonthlySeries` and `Balance.AnnualSeries` |
| Balance.ChartLabels | components/Views/Balance.tsx:104-106 | the x-axis labels; their meaning is in `Balance.AnnualLabels` and `Balance.SeriesMatchesLabels` |
| Balance.SeriesMatchesLabels | components/Views/Balance.tsx:88-107 | the series and its labels have the same length, 5 per month and 12 per year |
| Balance.EmptySeriesIsZeros | components/Views/Balance.tsx:89 | without rows every point is 0 |
| Balance.MonthlySeries | components/Views/Balance.tsx:91-95 | the monthly series centres on the first row's value, sums to 4.8 times it, and rises then dips for a non-negative value |
| Balance.MonthsUpperCase | components/Views/Balance.tsx:99 | the month abbreviations are their own upper case |
| Balance.AnnualSeries | components/Views/Balance.tsx:96-101 | point i is 0 without a matching row, else the first match's value, NaN when that is not a number |
| Balance.AnnualLabels | components/Views/Balance.tsx:105-107 | annual labels keep even months and blank odd ones |
| Balance.ZeroNetRowFlattensChart | components/Views/Balance.tsx:167-178 | a single row with a zero net value yields an all-zero chart, whose points get no y as the chart is written |
| Balance.DisplayValue | components/Views/Balance.tsx:108 | the headline figure; its meaning is in `Balance.DisplayValueSpec` and `Balance.BalanceView.OnHover` |
| Balance.DisplayValueSpec | components/Views/Balance.tsx:108 | the hovered value wins, else the net distributed total, to which only rows with a numeric value contribute |
| Balance.BalanceView.constructor | components/Views/Balance.tsx:21-26 | the view starts monthly, without hover, without rows, loading |
| Balance.BalanceView.BeginFetch | components/Views/Balance.tsx:29 | a fetch starts by setting loading |
| Balance.FetchedRecords | components/Views/Balance.tsx:49-63 | the rows a fetch leaves: the data, or none when it is null, the query fails or the connection fails; used by `Balance.BalanceView.CompleteFetch` |
| Balance.BalanceView.CompleteFetch | components/Views/Balance.tsx:51-65 | the rows, or an empty list when they are null or on any error, are stored, then loading clears |
| Balance.BalanceView.FetchData | components/Views/Balance.tsx:28-66 | a whole fetch stores the outcome's rows, clears loading, and touches nothing else |
| Balance.BalanceView.SetTimeframe | components/Views/Balance.tsx:131-139 | the chosen timeframe is stored |
| Balance.BalanceView.OnHover | components/Views/Balance.tsx:180-183 | the chart's callback stores value and index; the headline then shows the hovered value, or the total over the numeric rows once cleared, and the chart series is unchanged |
| Occupancy.HashStep | components/Views/Occupancy.tsx:20-21 | one hash turn, shifting and wrapping as written, equals wrapping 31·h + code once |
| Occupancy.HashOf | components/Views/Occupancy.tsx:18-22 | the hash is a signed 32-bit value |
| Occupancy.HashIsWrappedPolynomial | components/Views/Occupancy.tsx:18-22 | the hash is the exact polynomial Σ code_i·31^(n-1-i) wrapped once to 32 bits |
| Occupancy.HashFrom | components/Views/Occupancy.tsx:18-22 | continuing the hash from a 32-bit value stays 32-bit |
| Occupancy.HashOfAppend | components/Views/Occupancy.tsx:18-22 | the hash of a concatenation continues from the hash of its first part |
| Occupancy.SeedHash | components/Views/Occupancy.tsx:17-22 | the loop computes the hash of the seed's code units |
| Occupancy.DayHashExtendsMonthHash | components/Views/Occupancy.tsx:57-62 | a day's hash continues its month's hash over the day's digits |
| Occupancy.Rand | components/Views/Occupancy.tsx:25-28 | `rand(offset)` lies in [0, 1) |
| Occupancy.OccupancyOf | components/Views/Occupancy.tsx:30 | `Math.floor(65 + r * 30)`; its range is in `Occupancy.OccupancyBounds` |
| Occupancy.OccupancyBounds | components/Views/Occupancy.tsx:30 | occupancy is a whole percentage 65..94 (never 95), both ends reached |
| Occupancy.ActiveDaysCount | components/Views/Occupancy.tsx:39 | `Math.floor(occupancy / 100 * 30)`; its range is in `Occupancy.ActiveDaysCountBounds` |
| Occupancy.ActiveDaysCountBounds | components/Views/Occupancy.tsx:38-39 | 19 to 28 days are drawn |
| Occupancy.MoneyBounds | components/Views/Occupancy.tsx:31-34 | revenue in [80000, 150000), cost ratio in [0.3, 0.4), costs in [24000, 60000), net between 60% and 70% of revenue and over 48000 |
| Occupancy.MonthFigures | components/Views/Occupancy.tsx:30-34 | occupancy 65..94, costs are revenue times the ratio within [24000, 60000), net is what remains |
| Occupancy.DayOf | components/Views/Occupancy.tsx:42 | a drawn day is 1..30 |
| Occupancy.Draw | components/Views/Occupancy.tsx:42 | the day drawn on turn i, from `rand(i + 10)`, is 1..30 |
| Occupancy.Swap | components/Views/Occupancy.tsx:51 | exchanging two of the first n entries keeps their multiset and touches nothing else |
| Occupancy.SinkStep | components/Views/Occupancy.tsx:51 | swapping the sinking entry with a larger left neighbour keeps the rest ascending and moves it one place left |
| Occupancy.SinkDone | components/Views/Occupancy.tsx:51 | once its left neighbour is no larger, the sunk entry leaves the prefix ascending |
| Occupancy.SinkInto | components/Views/Occupancy.tsx:51 | one insertion step makes the first i + 1 entries ascending, a permutation of what they were, and leaves every later entry in place |
| Occupancy.SortAscending | components/Views/Occupancy.tsx:51 | the in-place sort leaves the first n entries ascending, a permutation, the rest untouched |
| Occupancy.DrawnDaysStep | components/Views/Occupancy.tsx:41-43 | one more loop turn adds exactly its own draw to the drawn days |
| Occupancy.DrawnDaysInRange | components/Views/Occupancy.tsx:41-43 | every drawn day lies in 1..30 |
| Occupancy.SortedDistinct | components/Views/Occupancy.tsx:44-51 | sorting the duplicate-free list of days gives a strictly ascending list of the same days |
| Occupancy.BuildActiveDays | components/Views/Occupancy.tsx:40-51 | booked days are strictly ascending, in 1..30, at most one per draw, exactly the drawn days |
| Occupancy.GenerateMonthData | components/Views/Occupancy.tsx:15-53 | the month's figures come from the seed hash's draws, its days are the drawn days, ascending without repeats, at most 28 |
| Occupancy.GetDayDetail | components/Views/Occupancy.tsx:55-72 | a day is fully occupied, revenue in [3000, 5000) from the day seed's draw, cost in [800, 1300) rising a quarter as fast |
| SVGCharts.MaxOf | components/SVGCharts.tsx:19 | `Math.max` is a member of the data no smaller than any |
| SVGCharts.PointXSpread | components/SVGCharts.tsx:21-26 | x runs strictly increasing from the left padding (35) to the right one (965) |
| SVGCharts.PointYAsWritten | components/SVGCharts.tsx:19-27 | with the written scale a point has no y exactly when the maximum is 0 |
| SVGCharts.ZeroSeriesHasNoY | components/SVGCharts.tsx:19-27 | an all-zero series gets no y anywhere |
| SVGCharts.Scale | components/SVGCharts.tsx:19 | the guarded scale is never zero and is the written one whenever that is |
| SVGCharts.ScaleAgreesWhenDefined | components/SVGCharts.tsx:19-27 | where the written scale gives a y, the guarded one gives the same y |
| SVGCharts.PointY | components/SVGCharts.tsx:19-30 | the y of point i with the guarded scale; it agrees with the source where that is finite (`SVGCharts.ScaleAgreesWhenDefined`), and its range is in `SVGCharts.PointYBounds` |
| SVGCharts.PointYBounds | components/SVGCharts.tsx:22-27 | for non-negative data y lies in (0, 465], is 465 exactly for 0, and a larger value is drawn higher |
| SVGCharts.Points | components/SVGCharts.tsx:25-29 | one point per value, carrying it, at its x, and at the source's y wherever that is finite |
| SVGCharts.PathOf | components/SVGCharts.tsx:32-38 | the smooth path through the points; its meaning is in `SVGCharts.PathShape` and `SVGCharts.ChartPathControls` |
| SVGCharts.PathShape | components/SVGCharts.tsx:32-38 | the path is a move to the first point and then exactly one cubic segment per later point, ending there |
| SVGCharts.SegmentControlsBetween | components/SVGCharts.tsx:35-37 | control points lie between the segment's ends, in order |
| SVGCharts.ChartPathControls | components/SVGCharts.tsx:25-38 | every segment of the chart's path keeps its control points between the neighbouring points |
| SVGCharts.AreaOf | components/SVGCharts.tsx:40 | the area is the line path followed by three closing commands, the last a close |
| SVGCharts.AreaClosesOnBaseline | components/SVGCharts.tsx:40 | the area drops to the baseline at x 965, runs back along it to x 35 and starts at the first point |
| SVGCharts.TextsSound | components/SVGCharts.tsx:128-144 | every text stands for a non-empty label, shows it and sits at that label's x |
| SVGCharts.TextsComplete | components/SVGCharts.tsx:128-144 | every non-empty label gets a text |
| SVGCharts.TextsOrdered | components/SVGCharts.tsx:128-144 | texts come in label order |
| SVGCharts.Texts | components/SVGCharts.tsx:128-144 | the x-axis texts; their meaning is in `SVGCharts.TextsSpec` |
| SVGCharts.TextsSpec | components/SVGCharts.tsx:128-144 | one text per non-empty label, none for an empty one, in label order, each at its label's x |
| SVGCharts.Interact | components/SVGCharts.tsx:50-56 | the new active index and callback for a hovered index; its meaning is in `SVGCharts.InteractSpec` |
| SVGCharts.InteractSpec | components/SVGCharts.tsx:51-56 | an out-of-range or current index changes nothing and fires nothing; a new one becomes active and reports its value |
| SVGCharts.InteractTwice | components/SVGCharts.tsx:52 | staying on one index fires the callback at most once |
| SVGCharts.InteractKeepsIndexInRange | components/SVGCharts.tsx:51-53 | an active index stays within the data |
| SVGCharts.LineChart.constructor | components/SVGCharts.tsx:12 | nothing is active and no callback has fired |
| SVGCharts.LineChart.SetData | components/SVGCharts.tsx:11-12 | new data replaces the old and the active index is kept |
| SVGCharts.LineChart.HandleInteraction | components/SVGCharts.tsx:42-57 | the active index and the callbacks made follow `Interact` |
| SVGCharts.LineChart.ClearActive | components/SVGCharts.tsx:65-68 | leaving clears the index and reports (null, null) |
| SVGCharts.LineChart.ActivePoint | components/SVGCharts.tsx:70 | the highlighted point exists iff the active index names a point, and carries that point's value |
| SVGCharts.Radius | components/SVGCharts.tsx:156-157 | the ring's radius is 44% of the size |
| SVGCharts.Circumference | components/SVGCharts.tsx:158 | the circumference of a positive size is positive |
| SVGCharts.DashOffset | components/SVGCharts.tsx:155-159 | the undrawn part of the ring, `circumference - percentage / 100 * circumference`; its meaning is in `SVGCharts.DashOffsetSpec` |
| SVGCharts.DashOffsetSpec | components/SVGCharts.tsx:156-159 | the drawn arc is p% of the ring: offset = circumference at 0, 0 at 100, within bounds between, decreasing in p |
| SVGCharts.OccupancyDonut | components/Views/Occupancy.tsx:78 | the occupancy donut leaves 6% to 35% of its ring undrawn |

## Left out

- Floating point: all money and coordinates are exact reals, so double rounding (of `val * 0.85`, of `i / (n - 1)`, of the cost ratio) is not modelled.
- `Math.sin` is not modelled; the views' draws take an arbitrary `sinScaled(n)` for `Math.sin(n) * 10000` and model the fractional part exactly.
- Number formatting (`toFixed`, `toLocaleString`, the XML `Total = amount * 1.16`), the XML and PDF text, and the SVG `d` strings: display text only; the path is modelled as drawing commands.
- Blob downloads, `setTimeout` and `window.open` (components/Views/Fiscal.tsx:100-128): browser effects; each scheduled download is a `DownloadJob` recording its file names, folio and delay.
- The XML preview modal state (`viewingXml`) and the occupancy view's `selectedDay` and calendar buttons: UI state with no behaviour beyond storing a value.
- The backend query construction, the client and logging (components/Views/Balance.tsx:30-49): network I/O; its result is the `FetchOutcome` parameter.
- The effect that refetches on every change and the race between overlapping fetches (components/Views/Balance.tsx:69-71): concurrency; `BeginFetch` and `CompleteFetch` are the two halves of one fetch.
- `displayLabel` (components/Views/Balance.tsx:109-111): display text only.
- The cursor-to-index conversion through `getBoundingClientRect` and `Math.round` (components/SVGCharts.tsx:42-49) and the touch and mouse event plumbing: the hovered index is an input.
- SVGCharts.Points: requires at least two values (and `Texts` two labels); with one, JavaScript computes the x as 0/0. The balance view always passes 5 or 12.
- SVGCharts.Points: y uses the guarded scale `SVGCharts.Scale`, not `Math.max(...data) * 1.05` as written; it agrees with the source wherever the source's y is finite (`SVGCharts.ScaleAgreesWhenDefined`), and an all-zero series is drawn on the zero line (y 465) where the source computes 0/0 = NaN (see Findings).
- SVGCharts.Points: chart data are reals; a NaN value from an annual row without a numeric value is not carried into the chart geometry.
- JsCore.Lower: case mapping covers ASCII and Latin-1 only; other scripts are left unchanged.
- JsCore.Upper: case mapping covers ASCII and Latin-1 only (with ÿ and µ mapped outside it, ß kept).
- Fiscal.Cfdis: the year is a natural number whose text is its decimal form (`parseInt` of a canonical year); a non-numeric year text is not modelled.
- Fiscal.QuarterMonths: a quarter text that names an inherited object property (such as "toString") is treated as unknown; the pickers only offer Q1..Q4.
- Balance.ReportRecord: `Number(x)` of a column is an `Option<real>`, `None` for anything that is not a number; the year column is not used by the modelled code.
- Icons, colours, layout and animation classes, and the unused constants.

## Findings

| source | as written | input that shows it | evidently intended | confidence | as-written member | corrected member |
|---|---|---|---|---|---|---|
| components/SVGCharts.tsx:19 | `max = Math.max(...data) * 1.05`, then `val / max` for every point | the balance view in monthly mode with one row whose net distributed value is 0 (or not a number): data `[0, 0, 0, 0, 0]`, so every y is 0/0 | an all-zero series drawn as a flat line on the zero level (y 465) | not executed | SVGCharts.PointYAsWritten | SVGCharts.Scale |
