# Safety dashboard: chart geometry, case windows, header initials and chat input

This project models the few pieces of logic in a React safety-monitoring dashboard. The models are Dafny functions, lemmas and one class.

- **ThreatStats** (`ThreatStats.dfy`): the threat-statistics card. It computes bar heights (`count / 15 * 200`), line-chart vertices (`x = i * 400 / 6`, `y = 200 - count / 10 * 200`) and the date labels under them. For the pie chart it computes each slice's start angle (3.6 times the prefix sum of the earlier percentages), end angle, large-arc flag and positional fill colour, plus the legend that repeats the colour choice. JavaScript numbers are modelled as exact `real`s, so the affine maps and prefix sums hold without rounding.
- **CaseList** (`CaseList.dfy`): the "Recent Cases" card. It has three constant case lists built by spreading (today ⊑ week ⊑ month) and the window lookup `getCasesByTime`, which falls back to today's list. It also has the total severity-colour lookup and the accordion with its "N Active Cases" badge.
- **DashboardHeader** (`DashboardHeader.dfy`): the notification badge, shown exactly when the count is positive. Also the avatar initials `name.split(" ").map(n => n[0]).join("")`, with JavaScript's `split` semantics and with `join` rendering an empty piece's `undefined` as "".
- **SupportChat** (`SupportChat.dfy`): the chat widget. A class `ChatInput` holds the `inputValue` state and a trace of the calls to `onSendMessage`. Its methods are `handleSend`, `handleKeyPress` and the field's `onChange`. Pure functions cover what the widget shows: nothing when closed, no body when minimised, and messages aligned, coloured and badged by type.
- **Wrappers** (`Wrappers.dfy`): `Option`, used for props that have JavaScript default values.

Facts about the code that the model keeps exactly:
- The line chart's x divisor is the literal 6 whatever the timeline length (`ThreatStats.tsx:93`). A three-point timeline therefore ends at x = 400/3 (`ShortTimelineUsesFixedSpacing`).
- The large-arc test is strictly `percentage > 50` (`ThreatStats.tsx:136`). A 50 % slice gets flag 0, so [50, 30, 20] has flag 0 on every slice (`HalfSliceKeepsSmallArc`).
- The bar and line scales divide by the constants 15 and 10 (`ThreatStats.tsx:76`, `ThreatStats.tsx:93`). Nothing clamps a count above them (`BarHeightAnchors`).
- A slice's span is exactly 3.6 × its percentage (`ThreatStats.tsx:125`). Over exact arithmetic the flag is therefore 1 exactly when the slice spans more than 180°, for any number of slices (`LargeArcIffSpanOverHalfTurn`).
- The pie angles are not normalised (`ThreatStats.tsx:121-125`). The last slice ends at 3.6 × the total, which is 360 only when the total is 100 (`LastSliceEndsAtScaledTotal`).

## Model

| member | source | states |
|---|---|---|
| `ThreatStats.BarHeight` | src/components/dashboard/ThreatStats.tsx:76 | a bar is 0 px exactly for count 0, positive exactly for a positive count, and 200 px at count 15 |
| `ThreatStats.Bars` | src/components/dashboard/ThreatStats.tsx:72-77 | one bar per threat, in input order, with the threat's category and height `count / 15 * 200` |
| `ThreatStats.BarHeightAnchors` | src/components/dashboard/ThreatStats.tsx:76 | count 0 gives height 0, count 15 gives 200, and count 30 gives 400 (no clamping above 15) |
| `ThreatStats.BarHeightStrictlyIncreasing` | src/components/dashboard/ThreatStats.tsx:76 | a larger count always gives a strictly taller bar |
| `ThreatStats.DefaultBars` | src/components/dashboard/ThreatStats.tsx:24-28 | the default threats 12, 8, 5, 7 give heights 160, 320/3, 200/3, 280/3 |
| `ThreatStats.VertexX` | src/components/dashboard/ThreatStats.tsx:93 | x is 0 exactly at index 0, 400 at index 6, and beyond 400 for later indices (no rescaling to the series length) |
| `ThreatStats.VertexY` | src/components/dashboard/ThreatStats.tsx:93 | y is 200 (bottom) exactly for count 0, 0 (top) exactly for count 10, and inside the lower edge exactly for non-negative counts |
| `ThreatStats.Polyline` | src/components/dashboard/ThreatStats.tsx:89-95 | exactly one vertex per timeline point, in input order, vertex i at (`i * 400 / 6`, `200 - count / 10 * 200`) |
| `ThreatStats.DateLabels` | src/components/dashboard/ThreatStats.tsx:100-112 | one label per timeline point, in order, carrying that point's date |
| `ThreatStats.LabelsSitUnderVertices` | src/components/dashboard/ThreatStats.tsx:93-101 | label i is translated to the x of vertex i, at y = 220 |
| `ThreatStats.VertexXAnchors` | src/components/dashboard/ThreatStats.tsx:93 | x is 0 at i = 0, 200 at i = 3 and 400 at i = 6 |
| `ThreatStats.VertexXStrictlyIncreasing` | src/components/dashboard/ThreatStats.tsx:93 | later points lie strictly further right |
| `ThreatStats.VertexYAnchors` | src/components/dashboard/ThreatStats.tsx:93 | count 0 gives y = 200, count 10 gives y = 0, and a larger count gives a strictly smaller y |
| `ThreatStats.DefaultPolyline` | src/components/dashboard/ThreatStats.tsx:30-38 | the default Mon..Sun timeline gives the seven vertices from (0, 140) to (400, 80); Mon/Tue/Wed have y = 140/100/160 |
| `ThreatStats.ShortTimelineUsesFixedSpacing` | src/components/dashboard/ThreatStats.tsx:90-95 | a three-point timeline keeps the divisor 6 and ends at x = 400/3 |
| `ThreatStats.PrefixSum` | src/components/dashboard/ThreatStats.tsx:121-124 | the `slice(0, i).reduce` prefix sum is non-negative when every percentage is |
| `ThreatStats.SliceAt` | src/components/dashboard/ThreatStats.tsx:120-145 | a slice spans exactly 3.6 × its percentage, and its flag is 1 iff the percentage exceeds 50 and 0 iff it does not |
| `ThreatStats.SliceFill` | src/components/dashboard/ThreatStats.tsx:142-144 | red exactly at index 0, amber exactly at index 1, green exactly at every index ≥ 2 |
| `ThreatStats.LargeArcFlag` | src/components/dashboard/ThreatStats.tsx:136 | the flag is 0 or 1 |
| `ThreatStats.Slices` | src/components/dashboard/ThreatStats.tsx:120-147 | one slice per segment, in order: start = 3.6 × prefix sum of the earlier percentages, end = start + 3.6 × percentage, flag 1 iff percentage > 50, fill by position |
| `ThreatStats.FirstSliceStartsAtZero` | src/components/dashboard/ThreatStats.tsx:121-124 | slice 0 starts at angle 0 |
| `ThreatStats.SlicesAreContiguous` | src/components/dashboard/ThreatStats.tsx:121-125 | the end angle of slice i equals the start angle of slice i + 1 |
| `ThreatStats.EndAngleIsScaledPrefixSum` | src/components/dashboard/ThreatStats.tsx:121-125 | slice i ends at 3.6 × the sum of the first i + 1 percentages |
| `ThreatStats.LastSliceEndsAtScaledTotal` | src/components/dashboard/ThreatStats.tsx:121-125 | the last slice ends at 3.6 × the total, with no normalisation; it reaches 360 iff the total is 100 |
| `ThreatStats.PrefixSumMonotone` | src/components/dashboard/ThreatStats.tsx:121-124 | with non-negative percentages the prefix sums never decrease |
| `ThreatStats.SliceSpanNonNegative` | src/components/dashboard/ThreatStats.tsx:121-125 | with non-negative percentages every slice, the last and a lone one included, has end ≥ start |
| `ThreatStats.AnglesNonDecreasing` | src/components/dashboard/ThreatStats.tsx:121-125 | with non-negative percentages every later slice starts at or after the end of an earlier one |
| `ThreatStats.SliceAtAnglesNonDecreasing` | src/components/dashboard/ThreatStats.tsx:121-125 | the same ordering for the per-slice computation of the map callback: with non-negative percentages slice j starts at or after slice i ends when i < j |
| `ThreatStats.LargeArcIffSpanOverHalfTurn` | src/components/dashboard/ThreatStats.tsx:121-136 | the flag is 1 exactly when the slice's angular span exceeds 180° |
| `ThreatStats.FillByPosition` | src/components/dashboard/ThreatStats.tsx:142-144 | the fill is red at index 0, amber at index 1 and green at every index ≥ 2 |
| `ThreatStats.DefaultSlices` | src/components/dashboard/ThreatStats.tsx:39-43 | the default [15, 35, 50] gives [0, 54], [54, 180] and [180, 360], all with flag 0 |
| `ThreatStats.HalfSliceKeepsSmallArc` | src/components/dashboard/ThreatStats.tsx:136 | [50, 30, 20] gives [0, 180], [180, 288], [288, 360], all with flag 0 because the test is strict |
| `ThreatStats.ArcPoint` | src/components/dashboard/ThreatStats.tsx:127-134 | whenever cos² + sin² = 1 at the shifted angle, the endpoint lies on the circle of radius 40 about (50, 50) |
| `ThreatStats.AngleZeroIsTwelveOClock` | src/components/dashboard/ThreatStats.tsx:127-130 | given cos(−90°) = 0 and sin(−90°) = −1, angle 0 is the top of the circle, at (50, 10) |
| `ThreatStats.SliceEndpointsMeet` | src/components/dashboard/ThreatStats.tsx:127-134 | the end point of slice i is the start point of slice i + 1, whatever the trigonometric functions are |
| `ThreatStats.FullPieCloses` | src/components/dashboard/ThreatStats.tsx:127-134 | when the total is 100 and the trigonometry agrees at 270° and −90°, the last slice ends where the first begins |
| `ThreatStats.Legend` | src/components/dashboard/ThreatStats.tsx:150-167 | one legend row per segment, in order, with the segment's type and percentage |
| `ThreatStats.LegendSwatch` | src/components/dashboard/ThreatStats.tsx:155-160 | the legend's own colour choice: red exactly at index 0, amber exactly at index 1, green exactly at every index ≥ 2 |
| `ThreatStats.LegendMatchesSlices` | src/components/dashboard/ThreatStats.tsx:155-160 | the legend swatch at each index has the colour of the slice at that index |
| `CaseList.CasesByTime` | src/components/dashboard/CaseList.tsx:106-115 | "week" gives the week list and "month" the month list; every other string gives today's list (each as an iff) |
| `CaseList.UnknownWindowIsToday` | src/components/dashboard/CaseList.tsx:106-115 | any string other than "week" and "month" behaves exactly like "today" |
| `CaseList.WindowsNest` | src/components/dashboard/CaseList.tsx:54-81 | today's list is a prefix of the week's, which is a prefix of the month's, so the id sets nest too |
| `CaseList.PrefixIdsIncluded` | src/components/dashboard/CaseList.tsx:54-55 | every id of a prefix list is an id of the whole list |
| `CaseList.WindowSizesAndIds` | src/components/dashboard/CaseList.tsx:29-104 | the lists hold 2, 4 and 6 cases, and ids are unique within each |
| `CaseList.TimestampsStepDown` | src/components/dashboard/CaseList.tsx:32-95 | each case's timestamp is lexicographically ≤ the previous case's |
| `CaseList.MonthCasesNewestFirst` | src/components/dashboard/CaseList.tsx:32-95 | as written, every window's list is in non-increasing lexicographic timestamp order, for every pair of positions |
| `CaseList.LexLessOrEqualTransitive` | src/components/dashboard/CaseList.tsx:32-95 | string comparison `<=` is transitive, which carries the step-by-step order to all pairs |
| `CaseList.SeverityColor` | src/components/dashboard/CaseList.tsx:117-128 | total: high → red, medium → yellow, low → green, anything else → grey (each as an iff) |
| `CaseList.AsciiUpper` | src/components/dashboard/CaseList.tsx:163 | the badge label keeps the length and upper-cases exactly the letters a-z |
| `CaseList.Entries` | src/components/dashboard/CaseList.tsx:143-144 | one accordion item per case, in order, keyed and valued by the case id, with that case's severity colour and its upper-cased severity as badge text |
| `CaseList.RenderFollowsLookup` | src/components/dashboard/CaseList.tsx:130-144 | the badge count and the item count both equal the looked-up list's length, and item i shows case i keyed by its id |
| `CaseList.Render` | src/components/dashboard/CaseList.tsx:130-144 | the badge counts exactly the rendered items; that count is 2, 4 or 6, and it is 2 exactly when the window (default "today") is neither "week" nor "month" |
| `CaseList.DefaultRenderIsToday` | src/components/dashboard/CaseList.tsx:130-131 | without `selectedTime` the card shows today's 2 cases, as with "today" |
| `CaseList.CasesPropIgnored` | src/components/dashboard/CaseList.tsx:24-27 | two prop sets with the same `selectedTime` render identically, whatever their `cases` |
| `DashboardHeader.NotificationBadge` | src/components/layout/DashboardHeader.tsx:43-50 | the badge is shown exactly when `notifications > 0` (a real count), and it shows that count |
| `DashboardHeader.DefaultBadgeShowsThree` | src/components/layout/DashboardHeader.tsx:30 | the default count shows a badge of 3 |
| `DashboardHeader.Split` | src/components/layout/DashboardHeader.tsx:60 | `split` gives one more piece than there are separators, and no piece contains the separator |
| `DashboardHeader.Join` | src/components/layout/DashboardHeader.tsx:60 | `join` (the partner of `split`): its length is the pieces' total length plus one separator per gap, and it starts with the first piece |
| `DashboardHeader.JoinSplit` | src/components/layout/DashboardHeader.tsx:60 | joining the pieces back with the separator gives the original string |
| `DashboardHeader.FirstChar` | src/components/layout/DashboardHeader.tsx:61 | `n[0]` as joined: empty exactly for an empty piece, otherwise the piece's first character |
| `DashboardHeader.Initials` | src/components/layout/DashboardHeader.tsx:59-62 | the initials never contain a space and have at most (number of spaces + 1) characters |
| `DashboardHeader.InitialsAreWordStarts` | src/components/layout/DashboardHeader.tsx:59-62 | the initials are exactly the non-space characters at the start of the name or right after a space |
| `DashboardHeader.InitialsLength` | src/components/layout/DashboardHeader.tsx:59-62 | one initial per non-empty piece, no space among them, at most (number of spaces + 1) of them |
| `DashboardHeader.BlankNameHasNoInitials` | src/components/layout/DashboardHeader.tsx:59-62 | an empty name, or one made only of spaces, yields "" |
| `DashboardHeader.TwoWordInitials` | src/components/layout/DashboardHeader.tsx:59-62 | "first last" yields the two first characters |
| `DashboardHeader.ExtraSpacesIgnored` | src/components/layout/DashboardHeader.tsx:59-62 | leading, trailing and doubled spaces do not change the initials |
| `DashboardHeader.DefaultInitials` | src/components/layout/DashboardHeader.tsx:26 | the default name "Sarah Wilson" yields "SW" |
| `SupportChat.Trim` | src/components/chat/SupportChat.tsx:54 | `trim()` gives the empty (falsy) string exactly when every character is whitespace; otherwise the result neither starts nor ends with whitespace |
| `SupportChat.TrimStart` | src/components/chat/SupportChat.tsx:54 | removes a blank prefix, and the result starts with a non-whitespace character or is empty |
| `SupportChat.TrimEnd` | src/components/chat/SupportChat.tsx:54 | removes a blank suffix, and the result ends with a non-whitespace character or is empty |
| `SupportChat.ChatInput.constructor` | src/components/chat/SupportChat.tsx:51 | the field starts empty, with nothing sent |
| `SupportChat.ChatInput.HandleSend` | src/components/chat/SupportChat.tsx:53-58 | non-blank input is sent once, untrimmed, and the field is cleared; blank input sends nothing and leaves the field unchanged; only non-blank text is ever sent |
| `SupportChat.ChatInput.HandleKeyPress` | src/components/chat/SupportChat.tsx:60-65 | Enter without Shift prevents the default and acts as `handleSend`; any other key, or Shift+Enter, changes nothing and sends nothing |
| `SupportChat.ChatInput.HandleChange` | src/components/chat/SupportChat.tsx:150 | the field becomes exactly the event's value, and nothing is sent |
| `SupportChat.BlankAndShiftEnterSendNothing` | src/components/chat/SupportChat.tsx:53-65 | on a fresh widget, blank text with Enter, " hi " with Shift+Enter, the key "a" and two clicks of send leave exactly [" hi "] sent and an empty field |
| `SupportChat.Alignment` | src/components/chat/SupportChat.tsx:123 | a message is right-aligned exactly when it is a user message |
| `SupportChat.BubbleClasses` | src/components/chat/SupportChat.tsx:126 | a three-way choice: each message type has its own bubble style, and no two types share one |
| `SupportChat.Bubbles` | src/components/chat/SupportChat.tsx:120-140 | one bubble per message, in order |
| `SupportChat.Render` | src/components/chat/SupportChat.tsx:67 | the widget renders nothing exactly when `isOpen` is false |
| `SupportChat.ClosedRendersNothing` | src/components/chat/SupportChat.tsx:67 | closed, nothing is rendered |
| `SupportChat.MinimizedHidesBody` | src/components/chat/SupportChat.tsx:73-115 | open and minimised: the 60 px card with the maximise icon, and no message list or input |
| `SupportChat.ExpandedShowsMessagesAndInput` | src/components/chat/SupportChat.tsx:115-153 | open and expanded: every message in order, right-aligned iff "user", badged iff "system", styled by type; the field shows the input state |
| `SupportChat.DefaultWidget` | src/components/chat/SupportChat.tsx:27-41 | with no props the widget shows the system greeting (left-aligned, badged) and then the assistant's note, each stamped with its own clock reading |

## Left out

- Arc endpoint coordinates: `Math.cos`/`Math.sin` of JavaScript doubles are not computed. The degree-based cosine and sine are function parameters of `ArcPoint`, and the lemmas state only what follows for any such functions, or under the stated values at −90° and 270°.
- Floating point: every count, percentage, angle and coordinate is an exact `real`, so double rounding (for example `3.6 * 15`) is not modelled.
- SVG `points` and path `d` strings, and the number-to-string formatting of doubles inside them, are not modelled. The model stops at the numbers.
- Bar/line/pie tab switching and the time-window tabs are handled by the imported `Tabs` component. Only their defaults ("bar", "today") appear in the source.
- Sidebar navigation, the Summary, TimeSelector and MonitoringPanel cards, and the home page are display and composition only. MonitoringPanel's analysis lookup has no fallback and is not part of this model.
- Chat timestamps: the two `new Date().toISOString()` readings for the default messages become the two fields of the parameter `LoadTimes`, and a bubble carries the raw timestamp string instead of `toLocaleTimeString()` of it.
- Strings: a Dafny string is a sequence of Unicode code points, while JavaScript strings are UTF-16 code units. For a name piece starting with a character outside the Basic Multilingual Plane, `n[0]` gives a lone high surrogate in JavaScript, where `FirstChar` gives the whole character. Likewise `LexLessOrEqual` compares code points where JavaScript compares code units. The two agree on the ASCII timestamps of the case lists.
- DashboardHeader.NotificationBadge: `notifications` is a `real`, so a NaN count (for which the badge is hidden, since `NaN > 0` is false) is not representable.
- The `onSendMessage` callback is modelled only as an appended trace (`ChatInput.sent`). `onEmergency` and `onMinimizeToggle` have no effect inside the widget and are not modelled.
- The header's dropdown menu (profile, settings, log out), user email and avatar image are display only.
- CaseList.AsciiUpper: models `toUpperCase` on ASCII letters only; the Unicode case mapping of other characters is not modelled (the severities in the data are ASCII).
- DashboardHeader.Split: models `split` with a one-character separator only, which is the only form the header uses.
