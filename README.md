# AI tools directory: a Dafny model

The application is an Angular directory of AI tools with a small Express
catalogue server behind it. Its parts:

- The server answers `/api/categories`, `/api/tool/:id`,
  `/api/categories/:id(/tools)`, `/api/search` and `/api/sunburst-data`
  from a fixed list of categories, each holding its tools.
- The browser app draws the catalogue as a zoomable d3 sunburst.
- A search box lists matching categories and tools, with keyboard selection.
- A detail panel shows the selected tool or category and a demo-video player.
- Tool cards rate popularity with stars.
- A theme service switches between light and dark.

This project models the logic of each of these as Dafny values, functions and
small state classes. One module corresponds to each source file:

- `Server`
- `AIToolsService`
- `SunburstChart`
- `SearchBar`
- `ToolInfoDisplay`
- `ToolCard`
- `App`, for `main.ts`
- `Theme`

Four helper modules model what the JavaScript runtime provides:

- `Js`: truthiness and `||`, `Math.round`/`floor`, `%` on numbers, ASCII
  `toLowerCase`, `includes`, `trim`, `substr`, `replace` of a first character.
- `Digits`: `toString(radix)`, `padStart(2, '0')` and `parseInt(s, 16)`.
- `Seqs`: `filter`, `slice(0, n)` and `find`/`findIndex`.
- `Api`: the response shapes of the API service.

The source's own form is kept:

- A `forEach`/`for` loop that pushes results is a method with a loop. It is
  proved equal to a filter over the category-then-tools listing, and the
  ordering, bound, soundness and completeness lemmas are stated about that
  listing.
- A component whose handlers assign fields is a class with those fields.
- A pure helper is a function.

In the sunburst, the d3 partition is an input: an arena of nodes in
breadth-first order. `clicked` rewrites every node's `target` in place, in an
array. `isDescendantOrSelf` walks parent pointers in a loop.

Time, HTTP, timers and the DOM are not modelled:

- A request is a parameter that holds its answer.
- A `setTimeout` callback runs as if it fired at once.
- Emitted events are returned values.
- `window.open`, `navigator.share` and clipboard calls are outputs, or
  flags passed in as parameters.

Visible quirks are kept as written:

- The partition's radial size is `radius * radius`, yet `clicked` subtracts
  the depth from the radii, and `arcVisible` tests the band `1..3`.
  `LayoutArcsHidden` and `TargetHidden` state the consequence: with bands
  wider than 1.5 (or 2.5 after a zoom), no arc passes the test.
- ArrowUp from "nothing selected" (-1) lands on the result before last, not
  the last one.
- `/api/search` with no `q` matches everything.
- `searchTools` does not trim its query before matching.

## Model

| member | source | states |
|---|---|---|
| Server.CategoriesRoute | server.js:122-132 | one summary per category in catalogue order, each with the category's fields and `toolCount` equal to its number of tools |
| Server.ToolRoute | server.js:134-148 | 404 "Tool not found" exactly when no category holds a tool with the id; otherwise the first such tool in scan order, flattened with its category's name, id and colour |
| Server.CategoryRoute | server.js:150-156 | 404 "Category not found" exactly when no category has the id; otherwise the first category with it |
| Server.CategoryToolsRoute | server.js:158-164 | 404 exactly when the category route is 404; otherwise that category's tools |
| Server.SearchCategory | server.js:170-191 | the callback for one category appends the category if it matches, then its matching tools in order |
| Server.SearchRoute | server.js:166-195 | the response is the first 10 of the matching entries of the category-then-tools listing, so never more than 10 |
| Server.SearchQuery | server.js:167 | no contract of its own: `q?.toLowerCase() || ''` for a string or missing `q`; its properties are carried by `Server.SearchWithoutQuery` and `Server.SearchResponseSound` |
| Server.SearchWithoutQuery | server.js:166-194 | with `q` missing or empty, the response is the first 10 entries of the whole listing |
| Server.ListingLength | server.js:170-192 | the listing has one entry per category plus one per tool |
| Server.ListingAt | server.js:170-192 | category `i` sits at its offset in the listing, followed at once by its own tools in their order |
| Server.ListingToolProvenance | server.js:180-190 | every tool entry of the listing is a catalogue tool carrying the name, id and colour of the category that holds it |
| Server.SearchResponseSound | server.js:166-195 | every response entry's lower-cased name or description includes the query, and every tool entry carries its own category's fields |
| Server.MatchesComplete | server.js:170-192 | every matching category and every matching tool appears among the uncapped matches |
| Server.SunburstRoute | server.js:197-216 | root "AI Tools" with one child per category in order and one leaf per tool in order; each leaf has value = popularity and colour = its category's colour |
| AIToolsService.SearchCategory | src/app/services/ai-tools.service.ts:225-238 | the callback for one category appends the category if it matches, then its matching tools in order |
| AIToolsService.SearchTools | src/app/services/ai-tools.service.ts:215-241 | a blank query gives no results; otherwise the result is exactly the entries of the listing that match the lower-cased, untrimmed query, in listing order, with no cap |
| AIToolsService.ListingLength | src/app/services/ai-tools.service.ts:225-238 | the listing has one entry per category plus one per tool |
| AIToolsService.ListingAt | src/app/services/ai-tools.service.ts:225-238 | category `i` sits at its offset in the listing, followed at once by its own tools in order |
| AIToolsService.SearchToolsBound | src/app/services/ai-tools.service.ts:225-238 | the result never holds more than the number of categories plus the number of tools |
| AIToolsService.SearchToolsExact | src/app/services/ai-tools.service.ts:222-238 | a category, or a tool, is in the result if and only if its lower-cased name or description includes the lower-cased query |
| AIToolsService.GetSunburstData | src/app/services/ai-tools.service.ts:194-213 | root "AI Tools" with one child per category in order, each with that category's fields; under each, one leaf per tool with value = popularity, the category's colour and the category's name |
| SunburstChart.PartitionWellParented | src/app/components/sunburst-chart/sunburst-chart.component.ts:666-668 | in the partition every parent comes before its child, so parent chains end |
| SunburstChart.ZoomTarget | src/app/components/sunburst-chart/sunburst-chart.component.ts:755-762 | when the clicked span is non-empty, every target has angles within [0, 2π] and non-negative radii |
| SunburstChart.ZoomTargetOrdered | src/app/components/sunburst-chart/sunburst-chart.component.ts:755-762 | retargeting keeps x0 ≤ x1 and y0 ≤ y1 |
| SunburstChart.FocusFillsCircle | src/app/components/sunburst-chart/sunburst-chart.component.ts:757-758 | the clicked node's own target spans exactly [0, 2π] |
| SunburstChart.RootTargetIsLayout | src/app/components/sunburst-chart/sunburst-chart.component.ts:755-762 | targeting the root gives back any arc whose angles lie in [0, 2π] and whose radii are non-negative |
| SunburstChart.OutsideCollapses | src/app/components/sunburst-chart/sunburst-chart.component.ts:757-758 | an arc wholly outside the clicked span shrinks to zero width, so `arcVisible` is false for it |
| SunburstChart.ArcVisible | src/app/components/sunburst-chart/sunburst-chart.component.ts:796-798 | no contract of its own: the band 1..3 with positive width; `SunburstChart.LabelImpliesArc`, `SunburstChart.OutsideCollapses` and `SunburstChart.LayoutArcsHidden` state its properties |
| SunburstChart.LabelVisible | src/app/components/sunburst-chart/sunburst-chart.component.ts:800-802 | no contract of its own: the band 1..3 with area above 0.03; `SunburstChart.LabelImpliesArc` states that it implies `ArcVisible` |
| SunburstChart.LabelImpliesArc | src/app/components/sunburst-chart/sunburst-chart.component.ts:796-802 | a visible label is only on an arc that is itself visible |
| SunburstChart.LayoutArcsHidden | src/app/components/sunburst-chart/sunburst-chart.component.ts:667-669 | with the layout radii in units of `radius * radius` and bands wider than 1.5, no layout arc passes `arcVisible` |
| SunburstChart.TargetHidden | src/app/components/sunburst-chart/sunburst-chart.component.ts:759-760 | with bands wider than 2.5, subtracting the focal depth (at most 2) never brings a target into the band 1..3 |
| SunburstChart.ChainByDepth | src/app/components/sunburst-chart/sunburst-chart.component.ts:804-810 | in the three-level tree, the chain of a node is the node itself, its category (for a tool) and the root |
| SunburstChart.IsDescendantOrSelf | src/app/components/sunburst-chart/sunburst-chart.component.ts:804-810 | the loop answers true exactly when the ancestor is the node or lies on its parent chain |
| SunburstChart.VisibilityOf | src/app/components/sunburst-chart/sunburst-chart.component.ts:772-785 | a path (label) is shown exactly when it is not the root, passes `arcVisible` (`labelVisible`) on its current arc, and the clicked node is on its chain |
| SunburstChart.GenerateRating | src/app/components/sunburst-chart/sunburst-chart.component.ts:899-901 | the rating always lies in 1..5 |
| SunburstChart.GenerateRatingMonotone | src/app/components/sunburst-chart/sunburst-chart.component.ts:899-901 | more popularity never gives a lower rating |
| SunburstChart.GenerateRatingScale | src/app/components/sunburst-chart/sunburst-chart.component.ts:899-901 | popularity 0, 25, 50, 75 and 100 rate 1 to 5 |
| SunburstChart.GetStars | src/app/components/sunburst-chart/sunburst-chart.component.ts:903-905 | five flags, flag `i` set exactly when `i` is below the rating |
| SunburstChart.StarsCount | src/app/components/sunburst-chart/sunburst-chart.component.ts:903-905 | the number of set flags is the rating clipped to 0..5 |
| SunburstChart.SumValuesBounds | src/app/components/sunburst-chart/sunburst-chart.component.ts:865 | the sum of n child values in lo..hi (a missing value counting 0) lies in n·lo..n·hi |
| SunburstChart.SumValues | src/app/components/sunburst-chart/sunburst-chart.component.ts:865 | no contract of its own: `value || 0` summed; `SunburstChart.SumValuesBounds` bounds it |
| SunburstChart.AveragePopularity | src/app/components/sunburst-chart/sunburst-chart.component.ts:863-867 | no contract of its own: 0 for a leaf, else the rounded mean; `SunburstChart.AveragePopularityBounds` bounds it |
| SunburstChart.AveragePopularityBounds | src/app/components/sunburst-chart/sunburst-chart.component.ts:863-867 | the rounded average of child values in lo..hi lies in lo..hi |
| SunburstChart.Chart.constructor | src/app/components/sunburst-chart/sunburst-chart.component.ts:666-713 | every current arc and target at its layout, every path shown, nothing focused, the centre circle on the root |
| SunburstChart.Chart.Retarget | src/app/components/sunburst-chart/sunburst-chart.component.ts:755-762 | every node's target becomes its zoom target for the clicked node |
| SunburstChart.Chart.Visibility | src/app/components/sunburst-chart/sunburst-chart.component.ts:766-786 | the shown paths and labels are exactly those of the visibility rule for the clicked node |
| SunburstChart.Chart.Clicked | src/app/components/sunburst-chart/sunburst-chart.component.ts:744-794 | a tool with a truthy URL is opened and nothing else changes; otherwise every target is retargeted, the focus is the node (none for the root), the centre circle is on its parent (the root for the root), the highlight is cleared, visibility is recomputed, and only a category emits its id |
| SunburstChart.Chart.ClickCentre | src/app/components/sunburst-chart/sunburst-chart.component.ts:708-713 | a click on the centre circle zooms to the datum it holds |
| SunburstChart.Chart.ResetZoom | src/app/components/sunburst-chart/sunburst-chart.component.ts:824-826 | every target goes back to its layout, nothing is focused, and the centre circle is on the root |
| SunburstChart.Chart.HighlightTool | src/app/components/sunburst-chart/sunburst-chart.component.ts:725-742 | with no depth-2 node of that name (compared lower-cased), nothing changes; otherwise the first such tool's category is clicked, its id is emitted, and the tool is highlighted |
| SunburstChart.Chart.ZoomToSearchResult | src/app/components/sunburst-chart/sunburst-chart.component.ts:828-831 | with no category of that id, nothing changes; otherwise the first category with that id is clicked and its id emitted |
| SunburstChart.Chart.FinishTransition | src/app/components/sunburst-chart/sunburst-chart.component.ts:764-770 | at the end of the transition every current arc equals its target |
| SearchBar.EscapeRegExp | src/app/components/search-bar/search-bar.component.ts:539-541 | the output is one character longer for each special character of the input |
| SearchBar.UnescapeEscape | src/app/components/search-bar/search-bar.component.ts:539-541 | reading the escaped pattern back gives every input character unchanged and in order |
| SearchBar.EscapeChar | src/app/components/search-bar/search-bar.component.ts:539-541 | a single special character comes out behind one backslash, any other character comes out unchanged |
| SearchBar.EscapeConcat | src/app/components/search-bar/search-bar.component.ts:539-541 | the replacement is global and per character: escaping a concatenation concatenates the escapes |
| SearchBar.FindTypeIndex | src/app/components/search-bar/search-bar.component.ts:565 | `findIndex` is -1 exactly when no result has the type, else the smallest index of a result with it |
| SearchBar.GetResultColor | src/app/components/search-bar/search-bar.component.ts:543-545 | the result's colour if truthy, else its category colour if truthy, else "#3b82f6" |
| SearchBar.BatchFor | src/app/components/search-bar/search-bar.component.ts:416-421 | a blank or whitespace-only query yields an empty list, any other query the service's answer |
| SearchBar.ArrowDownInRange | src/app/components/search-bar/search-bar.component.ts:468-471 | from any index in -1..n-1, ArrowDown lands in 0..n-1, moving one down and wrapping the last to the first |
| SearchBar.ArrowUpInRange | src/app/components/search-bar/search-bar.component.ts:474-477 | from any index in -1..n-1, ArrowUp lands in 0..n-1, moving one up and wrapping the first to the last |
| SearchBar.SearchBarState.constructor | src/app/components/search-bar/search-bar.component.ts:379-382 | empty query, no results, results hidden, nothing selected |
| SearchBar.SearchBarState.IsFirstOfType | src/app/components/search-bar/search-bar.component.ts:564-566 | true exactly when the index is the smallest one whose result has the type (or -1 when none has it) |
| SearchBar.SearchBarState.OnResultBatch | src/app/components/search-bar/search-bar.component.ts:423-427 | each batch is shown with nothing selected |
| SearchBar.SearchBarState.OnSearchInput | src/app/components/search-bar/search-bar.component.ts:438-446 | the query is stored and pushed; a blank query hides the results |
| SearchBar.SearchBarState.OnFocus | src/app/components/search-bar/search-bar.component.ts:448-456 | results are shown again only for a non-blank query that has some |
| SearchBar.SearchBarState.HideResults | src/app/components/search-bar/search-bar.component.ts:507-512 | the results are hidden and the selection reset |
| SearchBar.SearchBarState.ClearSearch | src/app/components/search-bar/search-bar.component.ts:514-520 | empty query, empty results, results hidden, selectedIndex -1 |
| SearchBar.SearchBarState.SelectResult | src/app/components/search-bar/search-bar.component.ts:522-531 | the query becomes the result's name and the result is emitted; the cancelled hide changes nothing else |
| SearchBar.SearchBarState.OnKeyDown | src/app/components/search-bar/search-bar.component.ts:458-493 | with results hidden or empty, no key changes the state, and only Enter on a non-blank query re-submits it; otherwise the arrows wrap the selection, Enter emits the selected result only when one is selected, and Escape hides the list |
| ToolInfoDisplay.VideoFor | src/app/components/tool-info-display/tool-info-display.component.ts:1015 | a tool's own entry when its name is a key, else the 'default' entry |
| ToolInfoDisplay.VideoForListed | src/app/components/tool-info-display/tool-info-display.component.ts:960-997 | exactly the eight listed tools have an entry of their own, and every lookup gives one of the three sample videos with a duration |
| ToolInfoDisplay.FormatTime | src/app/components/tool-info-display/tool-info-display.component.ts:1099-1104 | NaN gives "0:00" |
| ToolInfoDisplay.MinutesAndSeconds | src/app/components/tool-info-display/tool-info-display.component.ts:1101-1102 | for a non-negative time the minutes are non-negative, and `seconds % 60`, floored, is the seconds left over, in 0..59 |
| ToolInfoDisplay.FormatTimeNonNegative | src/app/components/tool-info-display/tool-info-display.component.ts:1099-1104 | for s ≥ 0 the text is floor(s/60), a colon and the two digits of the remaining seconds in 00..59 |
| ToolInfoDisplay.DarkenedBounds | src/app/components/tool-info-display/tool-info-display.component.ts:1173-1176 | for 0 ≤ p ≤ 100, a darkened channel lies between 0 and the input, and p = 0 keeps it |
| ToolInfoDisplay.DarkenChannelOfByte | src/app/components/tool-info-display/tool-info-display.component.ts:1174-1178 | a channel that parses to a byte is printed darkened as exactly two hex digits |
| ToolInfoDisplay.ChannelParses | src/app/components/tool-info-display/tool-info-display.component.ts:1168-1171 | the two digits of each channel of a `#rrggbb` colour parse to that channel |
| ToolInfoDisplay.DarkenChannel | src/app/components/tool-info-display/tool-info-display.component.ts:1169-1178 | no contract of its own: one channel parsed, scaled, rounded and printed padded (or `NaN`); `ToolInfoDisplay.DarkenChannelOfByte` states its result on a byte |
| ToolInfoDisplay.Darkened | src/app/components/tool-info-display/tool-info-display.component.ts:1174-1177 | no contract of its own: `Math.round(c * (100 - p) / 100)`; `ToolInfoDisplay.DarkenedBounds` bounds it |
| ToolInfoDisplay.DarkenColor | src/app/components/tool-info-display/tool-info-display.component.ts:1166-1179 | no contract of its own: `darkenColor`; `ToolInfoDisplay.DarkenHexColor` and `ToolInfoDisplay.DarkenByZero` state what it returns on `#rrggbb` |
| ToolInfoDisplay.DarkenHexColor | src/app/components/tool-info-display/tool-info-display.component.ts:1166-1179 | on `#rrggbb` with 0 ≤ p ≤ 100 the output is '#' plus six hex digits, each channel darkened and none raised |
| ToolInfoDisplay.DarkenByZero | src/app/components/tool-info-display/tool-info-display.component.ts:1166-1179 | darkening by 0 gives back the colour, lower-cased |
| ToolInfoDisplay.GetCategoryIcon | src/app/components/tool-info-display/tool-info-display.component.ts:1138-1158 | the mapped icon for a listed name; never empty |
| ToolInfoDisplay.CategoryIconFallback | src/app/components/tool-info-display/tool-info-display.component.ts:1138-1158 | the wrench comes back exactly for the names not among the 16 listed |
| ToolInfoDisplay.VisitToolUrl | src/app/components/tool-info-display/tool-info-display.component.ts:1122-1126 | the URL is emitted if and only if it is truthy |
| ToolInfoDisplay.ToolInfoPanel.constructor | src/app/components/tool-info-display/tool-info-display.component.ts:944-957 | no tool or category, and the player closed with all its values zero or empty |
| ToolInfoDisplay.ToolInfoPanel.SetSelectedTool | src/app/components/tool-info-display/tool-info-display.component.ts:944 | binding a new tool leaves the player state unchanged |
| ToolInfoDisplay.ToolInfoPanel.GetVideoDuration | src/app/components/tool-info-display/tool-info-display.component.ts:1013-1017 | "2:30" without a tool, the tool's entry if listed, else the default "2:30" |
| ToolInfoDisplay.ToolInfoPanel.PlayDemoVideo | src/app/components/tool-info-display/tool-info-display.component.ts:1019-1040 | without a tool nothing changes; with one its video is loaded and `isVideoPlaying` and `isPlaying` are set |
| ToolInfoDisplay.ToolInfoPanel.OnVideoLoaded | src/app/components/tool-info-display/tool-info-display.component.ts:1042-1048 | when the video element is on the page, its duration is read and the controls shown; otherwise nothing changes |
| ToolInfoDisplay.ToolInfoPanel.OnVideoEnded | src/app/components/tool-info-display/tool-info-display.component.ts:1050-1058 | `isPlaying` is cleared and the progress becomes 100 |
| ToolInfoDisplay.ToolInfoPanel.OnVideoError | src/app/components/tool-info-display/tool-info-display.component.ts:1060-1064 | the URL falls back to the default entry's URL |
| ToolInfoDisplay.ToolInfoPanel.TogglePlayPause | src/app/components/tool-info-display/tool-info-display.component.ts:1066-1077 | `isPlaying` flips only when the video element is on the page |
| ToolInfoDisplay.ToolInfoPanel.CloseVideo | src/app/components/tool-info-display/tool-info-display.component.ts:1090-1097 | the six player fields return to their initial values and `duration` is kept |
| ToolInfoDisplay.ToolInfoPanel.OnVisitTool | src/app/components/tool-info-display/tool-info-display.component.ts:1106-1110 | emits the tool's URL if and only if there is a tool with a truthy URL |
| ToolInfoDisplay.ToolInfoPanel.OnShareTool | src/app/components/tool-info-display/tool-info-display.component.ts:1112-1116 | emits the tool exactly when there is one |
| ToolInfoDisplay.ToolInfoPanel.GetThumbnailGradient | src/app/components/tool-info-display/tool-info-display.component.ts:1160-1164 | the default gradient without a tool, else a gradient from the category colour to that colour darkened by 20 |
| ToolInfoDisplay.ThumbnailStopDarkens | src/app/components/tool-info-display/tool-info-display.component.ts:1160-1179 | for a `#rrggbb` category colour the gradient's second stop is `#` and six hex digits, each channel the first stop's darkened by 20 percent and none higher than it |
| ToolCard.GetStarRating | src/app/components/tool-card/tool-card.component.ts:432-435 | 0 without data or with popularity 0 |
| ToolCard.StarRatingIsRounded | src/app/components/tool-card/tool-card.component.ts:433-434 | the falsy guard changes nothing: every rating is round(popularity / 20) |
| ToolCard.StarRatingBounds | src/app/components/tool-card/tool-card.component.ts:434 | popularity in 0..100 gives 0..5 stars |
| ToolCard.StarRatingMonotone | src/app/components/tool-card/tool-card.component.ts:434 | more popularity never gives fewer stars |
| ToolCard.OnVisitTool | src/app/components/tool-card/tool-card.component.ts:410-414 | emits exactly the card's URL if and only if there is data with a truthy URL |
| ToolCard.OnShare | src/app/components/tool-card/tool-card.component.ts:416-420 | emits the data if and only if there is some |
| ToolCard.OnOverlayClick | src/app/components/tool-card/tool-card.component.ts:404-408 | closes if and only if the click target is the overlay itself |
| App.ToolTotal | src/main.ts:826 | no contract of its own: the `reduce` over the categories' tool counts; `App.ToolTotalPointwise` and `App.ToolTotalOfRoute` tie it to the store's count |
| App.ToolTotalPointwise | src/main.ts:826 | the `reduce` total depends only on each category's tool count |
| App.ToolTotalOfRoute | src/main.ts:825-826 | for the tree the server sends, the header counts one per category and exactly the store's tools |
| App.SearchedTool | src/main.ts:854-861 | the panel entry copies name, description and URL; the category defaults to 'Unknown', the colour to '#3b82f6', and popularity is 85 |
| App.OneToolTreeIsPartition | src/app/components/sunburst-chart/sunburst-chart.component.ts:666-668 | the three-node tree of the counterexample is a valid partition |
| App.OneToolTreeFindsTool | src/app/components/sunburst-chart/sunburst-chart.component.ts:726-728 | in that tree a search for "A" finds the tool "a" |
| App.OneToolSearchSelectsBoth | src/main.ts:849-851 | a chart over that tree and a tool result named "A" meet the condition under which `OnSearchResult` leaves both selections set |
| App.ShareTool | src/main.ts:890-907 | through the share sheet when there is one, with title, text "Check out name: description" and the URL (or ""), else the same text, a newline and the URL on the clipboard |
| App.ShareClipboardExtendsNative | src/main.ts:890-907 | both ways share one message: the clipboard text is the share sheet's text, a newline and its URL; without a URL the sheet gets "" and the clipboard text ends in the newline |
| App.HighlightTool | src/main.ts:851 | without a chart nothing happens; otherwise the chart highlights the tool and the category id it emits is returned |
| App.AppState.constructor | src/main.ts:806-810 | no data, zero totals, nothing selected |
| App.AppState.LoadSunburstData | src/main.ts:821-835 | on success, the data, its number of categories and the sum of their tool counts; on error, 16 and 500; the selections are untouched |
| App.AppState.OnCategoryClick | src/main.ts:866-869 | the category is set and the tool cleared |
| App.AppState.OnToolSelect | src/main.ts:871-879 | the tool is set and the category cleared |
| App.AppState.ClearSelections | src/main.ts:881-884 | both selections are cleared |
| App.AppState.OnSearchResult | src/main.ts:837-864 | both selections are cleared and a category result leaves them so; for a tool result the tool is stored, and so is the category id the chart emitted: when the chart has the tool, both are set |
| App.AppState.OnSearchResultIntended | src/main.ts:837-864 | at most one selection: a tool result shows exactly that tool and no category, and anything else shows nothing |
| Theme.ThemeName | src/app/services/theme.service.ts:26 | "dark" exactly for dark and "light" exactly for light |
| Theme.InitialDark | src/app/services/theme.service.ts:15 | no contract of its own: the constructor's rule; `Theme.SavedThemeWins` and `Theme.NothingSavedFollowsSystem` state both of its cases |
| Theme.SavedThemeWins | src/app/services/theme.service.ts:15 | with a non-empty saved value the theme is dark exactly when it is 'dark', whatever the system prefers |
| Theme.NothingSavedFollowsSystem | src/app/services/theme.service.ts:15 | with nothing saved (or an empty string) the system preference decides |
| Theme.ThemeService.constructor | src/app/services/theme.service.ts:10-17 | dark exactly when 'dark' is saved, or nothing is and dark is preferred; the attribute shows it and storage is only read |
| Theme.ThemeService.ApplyTheme | src/app/services/theme.service.ts:30-33 | the document attribute names the current theme |
| Theme.ThemeService.ToggleTheme | src/app/services/theme.service.ts:23-28 | the theme flips, its name is stored, and the attribute shows it |
| Theme.ToggleTwice | src/app/services/theme.service.ts:23-28 | two toggles restore the theme and the attribute, and also the stored value once it names the current theme |

## Left out

- d3 itself is not modelled: `hierarchy`, `sum`, `sort` and `partition`
  are replaced by the predicate `Partition`, which states what their output
  guarantees. Arcs, the 750 ms interpolation, label transforms, colour
  scales, stroke styling and the tooltip are also left out, as are the
  chart's `getFillColor`, `getCategoryIcon`, `showTooltip` and `openTool`.
  All of these are library calls or presentation.
- The stroke styling `highlightTool` applies after 800 ms is left out.
  It is presentation on a timer.
- The `createChart` totals and `setCenterInfo` are left out. They only copy
  counts into the centre display; the header counts are modelled in
  `LoadSunburstData`.
- Timers and rxjs are left out:
  - the debounce/distinct/switchMap pipeline;
  - the hide delay of the search box;
  - the 100 ms delay in `onSearchResult`;
  - the 3 s auto-close after a video ends;
  - the one-second progress `setInterval`.
  Each callback is modelled as having run at once. `selectResult` cancels its
  own hide, so it leaves the list as it was.
- `onKeyDown`'s blur and the scroll-into-view of the selection are left
  out. Focus and scrolling are DOM effects.
- The search box's `getResultIcon`, `highlight` with its `RegExp` and
  `getDomain` in both cards are left out. They depend on the `RegExp` and
  `URL` parsers; only `escapeRegExp` is modelled.
- HTTP is left out: the API service, Express setup and `listen`. Each
  response is a parameter.
- Server.SearchRoute and Server.SearchQuery take `q` as a string or
  missing. Express's query parser also yields an array (`?q=a&q=b`) or an
  object (`?q[x]=1`); for those `q?.toLowerCase` is undefined, the call
  throws, and the route answers 500. That error path is not modelled.
- `getAICategories` and the hardcoded catalogues in `ai-tools.service.ts`
  and `server.js` are left out. The catalogue is a parameter of every route
  and of `searchTools`, so the properties hold for any catalogue whose
  names are ordinary keys (see the next line for inherited ones).
- ToolInfoDisplay.VideoFor, ToolInfoDisplay.VideoForListed,
  ToolInfoDisplay.ToolInfoPanel.GetVideoDuration,
  ToolInfoDisplay.ToolInfoPanel.PlayDemoVideo,
  ToolInfoDisplay.GetCategoryIcon and ToolInfoDisplay.CategoryIconFallback
  look names up with map semantics. The source indexes plain objects, so a
  name inherited from `Object.prototype` (`constructor`, `toString`,
  `__proto__`) yields a truthy non-entry: an undefined duration or URL, or a
  function as the icon. Those names are not modelled, and the statements
  "a tool's own entry" and "exactly for the names not listed" hold only for
  the other names.
- `ToolInfoDisplay.ToolInfoPanel.OnVideoLoaded` and `TogglePlayPause`
  model the `<video>` element's presence as the template's condition
  (`VideoElementPresent`). The element's own duration is a parameter.
  `toggleFullscreen` is left out.
- `App.AppState.OnSearchResult` models a category result as leaving both
  selections empty and the chart untouched. The source calls
  `highlightCategory`, which the chart does not define, so the callback
  throws at that point.
- `App.AppState.OnSearchResult` models only `SearchResult.type === 'tool'`
  with a name as a tool request. The chart being absent (`?.`) is a null
  chart.
- The `toolClick` output that the template binds to `onToolClick` is never
  emitted by the chart. `OnToolSelect` models both handlers, whose bodies
  are the same.
- `App.AppState.OnCategoryClick` stores the category id the chart emits.
  The handler is typed to receive a `CategoryInfo`, but at run time it gets
  that id.
- `visitTool` (`window.open`) in `main.ts` is left out. It is a browser
  effect. `navigator.share` availability is the `canShare` parameter of
  `ShareTool`.
- The second, verbatim copy of the panel's methods at the end of
  `tool-info-display.component.ts` is not modelled separately; it is the
  same code.
- The theme service's `isDarkMode()` observable is left out. It only
  exposes `isDark`.
- Lower-casing is ASCII only. Unicode case mapping is not modelled.
- JavaScript numbers are reals: there is no floating-point rounding, no
  infinities, and NaN appears only where `formatTime` tests for it.
  `Math.PI` is its closest double written as a decimal; the proofs only use
  its sign.
- `parseInt(s, 16)` is modelled only for the two-character slices
  `darkenColor` takes: a leading run of hex digits, or NaN when there is
  none.
- ToolCard.StarRatingBounds: states the 0..5 range only for popularity in
  0..100, the range the catalogue uses.
- `Theme.ToggleTwice`: restores the stored value only when that value
  already named the current theme. With nothing stored, or a foreign value,
  two toggles leave ThemeName(isDark) in storage.
- `SunburstChart.TargetHidden` is stated on a single arc and its target.
  `Chart.Clicked` gives the targets of all nodes, so together they cover
  every node.
- `SunburstChart.Chart.HighlightTool` finds the category as the tool's parent,
  which is the depth-1 ancestor of the source's `ancestors().find` in the
  three-level tree.

## Findings

| source | as written | input that shows it | evidently intended | confidence | as-written member | corrected member |
|---|---|---|---|---|---|---|
| src/main.ts:849-861 | for a tool result, `highlightTool` clicks the tool's category. The chart emits `categorySelect` synchronously, `onCategoryClick` stores the category, and only then is `selectedTool` set. Both selections end up non-null. The tool card is hidden, because it shows only with a tool and no category (tool-info-display.component.ts:25), and the category branch renders from a bare id string (line 168), so the searched tool is never shown | the chart over `App.OneToolTree` (root, category "C", tool "a") and a tool result named "A" (`App.OneToolTreeIsPartition`, `App.OneToolTreeFindsTool`, `App.OneToolSearchSelectsBoth`) | the searched tool alone is shown, with the chart zoomed to its category | not executed | App.AppState.OnSearchResult | App.AppState.OnSearchResultIntended |
