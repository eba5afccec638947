# Gritlab profile dashboard: chart geometry and session logic in Dafny

This project models the core of a small browser dashboard. The dashboard signs
a student in to the 01 platform, stores the returned JWT, fetches the
student's data through GraphQL, and draws two SVG charts.

The model has two parts.

**The chart engine of `src/graphs.js`.**
- `drawXPLineGraph` draws an XP progression as a line chart. The model covers:
  - the y-axis maximum, rounded up to a 100 000 tick step;
  - the two scale functions;
  - the gridline and value-label loop, and the date-label loop with its step;
  - the `M`/`L` polyline;
  - one marker per point, with the project name for its tooltip.
- `drawSkillsBarChart` draws one bar per skill, with the bars sorted in
  descending order. The model covers:
  - the stable sort;
  - the canvas height, capped at 600;
  - the row layout;
  - the clamped percentage;
  - the label with the `skill_` prefix removed.

The emitted drawing is a sequence of abstract shape records (`Svg.Shape`):
- `Line`, `Text`, `Path`, `Circle` and `Rect`;
- a `Path` holds its `M`/`L` commands, and a `Circle` holds its tooltip;
- a `Text` holds the value it displays (a tick value, a month and short year,
  a skill name, a percentage), not the formatted string.

Each loop of the source is a method that appends to this sequence step by
step. Each method is proved equal to a specification function. The lemmas are
proved about those functions.

The page is a `Document` that maps ids to `Container` objects. Drawing a chart
either leaves every container untouched, or clears the one named container and
gives it a single wrapper holding the title and the chart.

Geometry uses exact `real` arithmetic, and amounts are `int`.

**The session and data shaping of `src/main.js`.**
- The login handler:
  - cleans the response text (trim, then remove every `"`);
  - prefers a truthy `token` field of a JSON body;
  - rejects a token that does not split into exactly three dot-separated parts;
  - only then writes the `jwt` slot and loads the profile.
- Logout, and any failure inside `loadProfile`, empty the slot.
- The aggregates of `loadProfile`:
  - `totalXP`, a left fold over the amounts;
  - `auditRatio`;
  - `xpOverTime`, the stable chronological sort;
  - the pass and fail counts.

The state machine is the class `Session.Dashboard`. Its fields are the `jwt`
slot, the visible page, the login error, and the profile panel. The network is
stubbed:
- the sign-in exchange arrives as a `Signin` value;
- the three query results, and whether the chart calls returned normally,
  arrive as a `Fetched` value.

The model keeps four behaviours of the code as written:
- **A login whose profile load fails still ends on the profile page.**
  `loadProfile` catches its own error, removes the token and shows the login
  page. The login handler then calls `showProfilePage` unconditionally. See
  `Session.Dashboard.Login`, and `PageLoad` for the same pattern on page load.
- **The format check accepts empty segments.** It counts dots: `"a..b"` and
  `".."` pass, while `"abc.def"` fails. The `includes('.')` test adds nothing
  to the part count.
- **`"` is removed after trimming.** A JSON-string body keeps any whitespace
  that sits inside its quotes.
- **The bar chart's canvas is capped.** From the 18th bar on, rows do not fit
  inside the canvas.

Files:
- `wrappers.dfy`: `Option`.
- `jsstrings.dfy` (`JsStrings`): the JavaScript string built-ins the core uses.
- `stablesort.dfy` (`StableSort`): `Array.prototype.sort` with a key comparator.
- `svg.dfy` (`Svg`): shapes, containers and mounting.
- `xplinegraph.dfy` (`XPLineGraph`).
- `skillsbarchart.dfy` (`SkillsBarChart`).
- `profile.dfy` (`Profile`).
- `session.dfy` (`Session`).

## Model

| member | source | states |
|---|---|---|
| JsStrings.TrimStart | src/main.js:40 | the result is a suffix of the input, everything removed is ECMAScript whitespace, and the result does not start with whitespace |
| JsStrings.TrimEnd | src/main.js:40 | the result is a prefix of the input, everything removed is whitespace, and the result does not end with whitespace |
| JsStrings.TrimIdempotent | src/main.js:40 | trimming twice equals trimming once; a string with no whitespace at either end is unchanged |
| JsStrings.TrimMultiset | src/main.js:40 | trimming only removes characters |
| JsStrings.Count | src/main.js:50 | the occurrence count is at most the length, and it is 0 exactly when the character is absent |
| JsStrings.RemoveAll | src/main.js:40 | `replace(/"/g, '')`: no occurrence is left, every other character is kept (multiset with that character's count set to 0), and the length drops by the count |
| JsStrings.RemoveAllAbsent | src/main.js:40 | removing an absent character changes nothing |
| JsStrings.IndexOf | src/main.js:84 | the result is -1 or the least index at which the pattern occurs; it is non-negative exactly when `includes` holds |
| JsStrings.ReplaceFirstCases | src/graphs.js:159 | string `replace`: a string without the pattern is unchanged; otherwise the first occurrence, at the least index where the pattern occurs, is replaced and the text before and after it is kept; a string that starts with the pattern loses exactly that prefix |
| JsStrings.SplitSepFree | src/main.js:50 | no part that `split` gives with a one-character separator contains the separator |
| JsStrings.SplitLength | src/main.js:50 | there is one more part than there are separators |
| JsStrings.JoinSplit | src/graphs.js:93 | joining the parts with the separator gives back the string |
| JsStrings.LastSegmentIsSuffix | src/graphs.js:93 | `split("/").pop()` is a separator-free suffix; it is the whole string when there is no separator, and a separator precedes it otherwise |
| JsStrings.LastSegmentCons | src/graphs.js:93 | the first character joins the last segment exactly when neither it nor anything after it is the separator |
| JsStrings.LastSegmentAfter | src/graphs.js:93 | the last segment of `prefix + "/" + seg` is `seg` |
| StableSort.Insert | src/graphs.js:124 | insertion adds exactly the one element (as a multiset), and the new head is the inserted element or the old head |
| StableSort.InsertSorted | src/graphs.js:124 | inserting into a sequence sorted by key keeps it sorted |
| StableSort.InsertWithKey | src/graphs.js:124 | among elements with the inserted element's key it comes first, ahead of the existing ones; the elements of every other key are unchanged |
| StableSort.SortBy | src/graphs.js:124 | the sort returns a permutation of its input, ordered by ascending key |
| StableSort.SortByStable | src/graphs.js:124 | stability: for every key, the elements with that key keep their input order |
| StableSort.SortBySorted | src/main.js:88 | an input that is already ordered comes back unchanged |
| Svg.Container.Clear | src/graphs.js:110 | `innerHTML = ""` leaves the container with no children |
| Svg.Container.AppendChild | src/graphs.js:118 | `appendChild` adds the node at the end |
| Svg.Mount | src/graphs.js:105-118 | a missing id leaves every container untouched; otherwise the named container's only child is the wrapper with the title and the svg, and no other container changes |
| XPLineGraph.CeilDiv | src/graphs.js:18 | `Math.ceil(a / d)` is the least `q` with `q * d >= a` |
| XPLineGraph.ShortYear | src/graphs.js:60 | `year % 100` is congruent to the year and has the year's sign |
| XPLineGraph.MaxXP | src/graphs.js:17-18 | the axis maximum is a non-zero multiple of 100000, and exactly 100000 when the last amount is 0 or missing |
| XPLineGraph.MaxXPLeastMultiple | src/graphs.js:17-18 | for a final amount `a >= 0`, the maximum is the smallest positive multiple of 100000 that is at least `a` |
| XPLineGraph.MaxXPPositive | src/graphs.js:17-18 | the maximum is positive exactly when the final amount exceeds -100000, and it is 100000 for amounts in (-100000, 0] |
| XPLineGraph.YScaleEndpoints | src/graphs.js:20 | `yScale(0) = 220`, `yScale(maxXP) = 80`, values in [0, maxXP] stay within the plot, and `yScale` is strictly decreasing |
| XPLineGraph.XScaleEndpoints | src/graphs.js:19 | for n >= 2, `xScale(0) = 80`, `xScale(n-1) = 720`, every index stays within the plot, and `xScale` is strictly increasing |
| XPLineGraph.LabelStep | src/graphs.js:56 | the label step is at least 1, and 12 steps cover all n points |
| XPLineGraph.LabelIndicesAt | src/graphs.js:57 | the k-th labelled index is `from + k * step` and lies below n; every such index below n is labelled |
| XPLineGraph.AtMostTwelveLabels | src/graphs.js:56-57 | index 0 is labelled whenever there is a point, and there are at most 12 date labels |
| XPLineGraph.GridUpToAt | src/graphs.js:36-52 | the grid loop emits two shapes per tick; row j is the dashed line at `yScale(j * 100000)` followed by its value label |
| XPLineGraph.GridLines | src/graphs.js:35-37 | for a final amount `a >= 0` there are `maxXP / 100000 + 1` gridlines; the first lies on the bottom edge (y 220), the last on the top edge (y 80) |
| XPLineGraph.XLabelsAtIndices | src/graphs.js:57-67 | one date label per visited index, in order, at `xScale(i)`, showing month and short year of point i |
| XPLineGraph.PathUpToAt | src/graphs.js:71-74 | the path holds one command per point in index order: `M` for point 0, `L` for each later point |
| XPLineGraph.ProjectName | src/graphs.js:92-93 | the project name is non-empty and has no `/`; it is "Unknown Project" for a missing or empty path; otherwise it is a suffix of the path |
| XPLineGraph.ProjectNameOfPath | src/graphs.js:92-93 | a path `prefix/seg` names project `seg`, or "Unknown Project" when `seg` is empty (a trailing `/`) |
| XPLineGraph.ProjectNameNoSlash | src/graphs.js:92-93 | a non-empty path without `/` names itself |
| XPLineGraph.MarkersUpToAt | src/graphs.js:83-101 | marker i is the circle for point i |
| XPLineGraph.ChartCircles | src/graphs.js:83-101 | the chart's circles are exactly the markers, in point order |
| XPLineGraph.ChartPaths | src/graphs.js:70-80 | the chart's only path is the polyline |
| XPLineGraph.MarkersOnPath | src/graphs.js:71-93 | exactly one path, with n commands (`M`, then n-1 `L`); exactly n circles, circle i centred on path vertex i at (`xScale(i)`, `yScale(amount_i)`), and its tooltip names the point's project |
| XPLineGraph.AppendGrid | src/graphs.js:35-53 | the tick loop appends exactly the grid rows 0 .. maxTicks |
| XPLineGraph.AppendDateLabels | src/graphs.js:56-68 | the stepped label loop appends exactly the date labels of the visited indices |
| XPLineGraph.BuildPath | src/graphs.js:71-74 | the `pathData +=` loop builds exactly the specified command list |
| XPLineGraph.AppendMarkers | src/graphs.js:83-102 | the marker loop appends exactly one marker per point, in order |
| XPLineGraph.BuildLineChart | src/graphs.js:22-102 | the svg children are built in order: two axes, the grid rows, the date labels, the polyline and one marker per point |
| XPLineGraph.DrawXPLineGraph | src/graphs.js:8-119 | no data, or a missing id: no container changes; otherwise the named container holds only the wrapper with the title and the line chart, and no other container changes |
| SkillsBarChart.SortSkillsOrder | src/graphs.js:124 | the bars are a permutation of the input with non-increasing amounts; equal amounts keep their input order |
| SkillsBarChart.RowVisibility | src/graphs.js:128 | the canvas height is `35 n` up to 600 and exactly 600 from there on, and row i fits entirely inside it exactly when i < 17 |
| SkillsBarChart.BarWidth | src/graphs.js:137-138 | the percentage is `min(amount, 100)`; the filled width never exceeds the 640 track, is non-negative for non-negative amounts, and equals `6.4 * amount` up to the clamp |
| SkillsBarChart.SkillLabelStrips | src/graphs.js:159 | the label drops a leading `skill_`; a type without `skill_` is unchanged; otherwise exactly the first `skill_` is cut out and the text on both sides of it is kept |
| SkillsBarChart.RowsUpToAt | src/graphs.js:135-169 | the `forEach` emits four shapes per row; shapes 4i .. 4i+3 are the row of the i-th element |
| SkillsBarChart.RowShapes | src/graphs.js:136-161 | a row is a 640-wide track at y = 35 i, a filled bar at the same height that is no wider than the track, and the stripped label at y = 35 i + 15 |
| SkillsBarChart.BarLayout | src/graphs.js:124-169 | the chart has four shapes per skill, and shapes 4i .. 4i+3 are the row of the skill with the i-th largest amount |
| SkillsBarChart.AppendRows | src/graphs.js:135-169 | the row loop appends exactly the rows of the sorted skills, in order |
| SkillsBarChart.DrawSkillsBarChart | src/graphs.js:121-187 | no data, or a missing id: no container changes; otherwise the named container holds only the wrapper with the title and the bar chart of the sorted copy, and no other container changes |
| Profile.ReduceFrom | src/main.js:82 | the left fold adds the sum of the amounts to its accumulator |
| Profile.TotalXP | src/main.js:82 | `totalXP` is the sum of all amounts, and 0 for no transactions |
| Profile.TotalPermutation | src/main.js:86-88 | a sum does not depend on the element order |
| Profile.Filter | src/main.js:84 | `filter` keeps only elements of the input that pass, and keeps every element that passes |
| Profile.FilterAppend | src/main.js:84 | filtering a concatenation is the concatenation of the filtered parts, so kept elements stay in input order |
| Profile.FilterSingle | src/main.js:84 | a single element is kept exactly when it passes |
| Profile.FilterExtremes | src/main.js:89-90 | the filter keeps everything exactly when all elements pass, and nothing exactly when none does |
| Profile.AuditRatio | src/main.js:83-85 | the audit ratio lies in [0, 1], and is 0 for an empty list |
| Profile.AuditRatioExtremes | src/main.js:83-85 | the ratio is 1 exactly when the list is non-empty and every path contains "audit", and 0 exactly when none does |
| Profile.TimedTotal | src/main.js:86-87 | the `map` to `{ date, amount }` keeps the amounts |
| Profile.XpOverTimeOrder | src/main.js:86-88 | `xpOverTime` is a permutation of the mapped transactions, in ascending date order; equal dates keep their order; the amounts add up to `totalXP`; an input already in date order is kept as it is |
| Profile.PassFailBound | src/main.js:89-90 | `passCount + failCount <= progress.length`, with equality exactly when every grade is 0 or 1 |
| Session.CleanTokenShape | src/main.js:40 | without a token field, the candidate has no `"` and only characters from the body; an already clean body is kept as it is |
| Session.CleanQuoted | src/main.js:40-47 | a JSON-string body `"t"` yields exactly `t`, inner whitespace included |
| Session.ValidFormatDots | src/main.js:50 | the format check accepts exactly the strings with two dots |
| Session.CountJoined | src/main.js:50 | joining two strings with a dot adds exactly one dot |
| Session.SegmentCounts | src/main.js:50 | for dot-free segments: two segments (`"abc.def"`) are rejected; three segments are accepted even when some are empty (`"a..b"`, `".."`); four segments are rejected |
| Session.Dashboard.LoadProfile | src/main.js:71-118 | on success the panel shows the aggregates, and the slot and page are unchanged; any failure empties the slot and shows the login page; the panel is filled whenever the data arrived |
| Session.Dashboard.Login | src/main.js:16-62 | a transport error, a not-ok response or a malformed token leaves slot, page and panel as they were and shows the matching error; a valid token is stored and the profile loaded; the profile page is shown; the slot then holds the token exactly when the load succeeded; the slot only ever receives validated tokens |
| Session.Dashboard.Logout | src/main.js:65-68 | the slot is empty and the login page is shown |
| Session.Dashboard.PageLoad | src/main.js:121-123 | a non-empty stored token triggers the load and then the profile page, keeping the token only if the load succeeded; otherwise nothing changes |

## Left out

- `src/queries.js` is not part of this model. The three query results are inputs of `Session.Dashboard.LoadProfile`, as a `Fetched` value.
- Sign-in transport (`btoa`, `fetch`, response headers) is replaced by a `Signin` value: a transport error, or an ok flag, a status and a body.
- `JSON.parse` is an input: `parsedToken` is the string `token` field when the body parses. A truthy `token` that is not a string is not modelled; with one, the handler ends in its catch branch.
- `console.log`, `console.warn` and `alert` are left out, as output only.
- `Promise.all` concurrency and async ordering are left out: the three results are given together.
- DOM specifics are left out: attributes, colours, CSS classes, `innerHTML` markup and the text of error messages. The visible page is a `Page` value, and the login error is a `LoginError` value.
- `index.html` is not part of this model. `Session.Dashboard` starts on the login page.
- `toLocaleString`, `toFixed` and `padStart` formatting are left out: labels carry the numbers they format.
- `new Date(...)` parsing and time zones are left out. Calendar fields are given as a `Date` value on each point, and `createdAt` is given as an integer instant.
- IEEE floating-point rounding is left out: every computation uses exact rationals.
- XPLineGraph.DrawXPLineGraph: requires a series that is not a single point. With one point the source computes `0 / 0` in `xScale` and draws NaN coordinates.
- XPLineGraph.DrawXPLineGraph: every point carries an integer `amount`. `MaxXP` accepts a missing last amount (None), but the model has no point without an amount, and so no NaN coordinates in `yScale`.
- Profile.AuditRatio: states the ratio before `toFixed(2)`. The source's value is a two-decimal string when there are transactions and the number 0 otherwise.
- Profile.XpOverTimeOrder: dates are integers, so invalid dates (NaN in the comparator) are not covered.
- Grades are compared as exact reals. A `null` path in a transaction, which would throw in `includes`, is not modelled.
- `renderXPLineGraph` and `renderPassFailPieChart`, imported at `src/main.js:2`, are not exported by `src/graphs.js`. No pie-chart source exists to model, and as written the import would fail to link. The two calls are modelled only as succeeding or throwing (`Fetched.rendered`).
- The svg element is a value, built first and then mounted. Element identity and re-parenting are not modelled.
