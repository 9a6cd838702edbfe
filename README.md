# KLIPY iOS demo: masonry layout and view-model logic in Dafny

This project models the computational core of the KLIPY iOS demo app: the
code that lays out GIFs, clips, stickers and ads in a justified masonry
grid. It also models the small pure helpers and state machines around that
grid. The model is written in Dafny, and the Dafny verifier proves the
stated properties about it.

**The ad-aware calculator** (`PerfectGridLayout`, with its properties in
`PerfectGridProperties`). It cuts an ordered list of tiles into rows:

- it takes a window of at most `maxGifsPerRow` tiles at the cursor;
- it tries every integer row height of a range, offering the first 1, 2, …
  tiles of the window at each;
- it keeps the candidate whose width is closest to the container width;
- it spreads the leftover width over the row's non-ad tiles;
- when an ad sits in the row and other tiles came out too narrow, it shrinks
  the ad down to a floor;
- finally it assigns x/y positions.

`calculateOptimalRow` and `createRows` are methods with the same loops as
the Swift code. Each is proved equal to a function (`OptimalRow`, `Layout`),
and the lemmas state what those functions promise:

- every tile appears once, in order;
- a row holds between one and `maxGifsPerRow` tiles;
- the search picks the first least-deviation candidate;
- an ad-free row fills the container exactly;
- an ad stays between its floor and its width and keeps its aspect ratio;
- every tile is as tall as its row, and with non-negative tile sizes no two
  tiles overlap.

That height rule depends on one correction to the Swift code. Lines 190-194
give the shrunk ad's height to non-ads only, so the model uses a corrected
pass; "## Findings" shows both versions.

The call at line 234 passes `adMaxResizePercent` and `itemMinWidth` in
swapped positions. The model keeps that swap.

**The older, ad-free calculator** (`ClassicGridLayout`). It shares the
cursor loop, the position pass and the height search (`RowSearch`). It
divides the leftover width by `count - 1` instead of by the number of
items. `RenderedWidth` proves what follows from that: such a row is wider
than the container by `minimumChange / (count - 1)`, and fits exactly only
when the best candidate already did.

**Secondary parts:**

- the rule that hides the grid's last row (`GridVisibility`);
- the media-file fallbacks (`MediaFiles`);
- the two `MediaType` copies (`InfraMediaType`, `NetworkMediaType`);
- the hex colour parser (`HexColor`);
- the preview overlay's sizing and drag handling (`PreviewOverlay`);
- the chat bubble's size (`ImageContent`);
- the chat view model's messages and video bookkeeping (`ChatFeature`);
- the "run once per showing" modifier (`VisibilityChange`);
- the shared current-video record (`VideoPlayback`);
- the paginated media feed (`DynamicMedia`);
- the search bar's category toggle and controls (`MediaSearchBar`).

**How the model represents Swift.**

- `CGFloat` is `real`.
- `Int(x)` truncates toward zero (`Numerics.Trunc`).
- `round` rounds halves away from zero (`Numerics.Round`).
- Strings are `seq<char>`.
- Lower-casing and trimming are over ASCII (`Ascii`).
- Objects whose fields the Swift code assigns are classes. Their methods'
  contracts tie the new state to pure transition functions.
- An async load is split at its `await`:
  - a start step checks the guard, marks the feed loading and returns the
    request to send;
  - a completion step applies the response or the error.

## Model

Calculator paths: `NEW` is `KlipyiOS-demo/App/MasonryLayout/RenderingPerfectGridAlgorithm/MasonryLayoutCalculator.swift`, `OLD` is `KlipyiOS-demo/App/MasonryLayout/MasonryLayoutCalculator.swift`; the table spells them out.

| member | source | states |
|---|---|---|
| RowSearch.SearchIsFirstMinimiser | KlipyiOS-demo/App/MasonryLayout/RenderingPerfectGridAlgorithm/MasonryLayoutCalculator.swift:105-134 | The scan over heights `lo..hi` and counts `1..n` keeps nothing for an empty window and the lowest height for a single item. With two or more items it keeps the first candidate of two or more items, in scan order, whose absolute deviation is least. |
| RowSearch.FirstMinimiserUnique | KlipyiOS-demo/App/MasonryLayout/RenderingPerfectGridAlgorithm/MasonryLayoutCalculator.swift:126-131 | "First least-deviation candidate" identifies a single candidate, so the search's choice depends on the deviations alone. |
| RowSearch.SearchShape | KlipyiOS-demo/App/MasonryLayout/RenderingPerfectGridAlgorithm/MasonryLayoutCalculator.swift:106-134 | The kept candidate has at most `n` items. When anything is kept it lies in the height range and records its own deviation. It has at least two items when `n >= 2`. |
| PerfectGridLayout.DefaultConfig | KlipyiOS-demo/App/MasonryLayout/RenderingPerfectGridAlgorithm/MasonryLayoutCalculator.swift:40-54 | Defaults: gap 1, at most 4 tiles per row, height range 50...180, container the screen width. |
| PerfectGridLayout.LayoutItem | KlipyiOS-demo/App/MasonryLayout/RenderingPerfectGridAlgorithm/MasonryLayoutCalculator.swift:215-231 | The layout item of a tile keeps its id and kind; its width and height are also its original width and height. |
| PerfectGridLayout.LayoutItems | KlipyiOS-demo/App/MasonryLayout/RenderingPerfectGridAlgorithm/MasonryLayoutCalculator.swift:215-231 | The window's layout items are the tiles' layout items, one for one, in order. |
| PerfectGridLayout.FirstAd | KlipyiOS-demo/App/MasonryLayout/RenderingPerfectGridAlgorithm/MasonryLayoutCalculator.swift:94 | The index found is an ad with only non-ads before it. None is found exactly when the window holds no ad. |
| PerfectGridLayout.NonAdsTo | KlipyiOS-demo/App/MasonryLayout/RenderingPerfectGridAlgorithm/MasonryLayoutCalculator.swift:137 | The filtered list is no longer than the row. It is shorter only if the row holds an ad. |
| PerfectGridLayout.TrialRowGrows | KlipyiOS-demo/App/MasonryLayout/RenderingPerfectGridAlgorithm/MasonryLayoutCalculator.swift:109-119 | The candidate of `j + 1` items is the candidate of `j` items with the next item appended at its trial width. |
| PerfectGridLayout.DevAt | KlipyiOS-demo/App/MasonryLayout/RenderingPerfectGridAlgorithm/MasonryLayoutCalculator.swift:122-123 | The deviation measured in the loop is the deviation function the search is specified with. |
| PerfectGridLayout.ChosenShape | KlipyiOS-demo/App/MasonryLayout/RenderingPerfectGridAlgorithm/MasonryLayoutCalculator.swift:105-134 | The chosen candidate has 1 to `n` items, or none for an empty window, and at least 2 when the window has 2. Its height lies in the tried range and its deviation is that of its (height, count). |
| PerfectGridLayout.AdInsideRow | KlipyiOS-demo/App/MasonryLayout/RenderingPerfectGridAlgorithm/MasonryLayoutCalculator.swift:151 | If the row holds an ad, the window's first ad lies inside the row. |
| PerfectGridLayout.OptimalRow | KlipyiOS-demo/App/MasonryLayout/RenderingPerfectGridAlgorithm/MasonryLayoutCalculator.swift:85-201 | The row is no longer than the window, non-empty for a non-empty window, and has two or more items when the window has two or more. |
| PerfectGridLayout.Measure | KlipyiOS-demo/App/MasonryLayout/RenderingPerfectGridAlgorithm/MasonryLayoutCalculator.swift:110-123 | One inner step extends the candidate by the next item and yields that candidate's deviation from the container. |
| PerfectGridLayout.TryHeight | KlipyiOS-demo/App/MasonryLayout/RenderingPerfectGridAlgorithm/MasonryLayoutCalculator.swift:107-133 | The inner loop at one height leaves `currentRow`, `optimalHeight` and `minimumChange` describing the candidate the specified scan keeps after that height. |
| PerfectGridLayout.SearchRow | KlipyiOS-demo/App/MasonryLayout/RenderingPerfectGridAlgorithm/MasonryLayoutCalculator.swift:105-134 | The nested loops return the trial row, height and deviation of the candidate `RowSearch.Search` picks. |
| PerfectGridLayout.FillRow | KlipyiOS-demo/App/MasonryLayout/RenderingPerfectGridAlgorithm/MasonryLayoutCalculator.swift:140-147 | The in-place width/height loop yields the filled row `Fill`, whose widths `WidthsFill` sums. |
| PerfectGridLayout.ClampRow | KlipyiOS-demo/App/MasonryLayout/RenderingPerfectGridAlgorithm/MasonryLayoutCalculator.swift:156-160 | The clamping loop yields `Clamp`: narrow non-ad items raised to the minimum width. |
| PerfectGridLayout.ShrinkRow | KlipyiOS-demo/App/MasonryLayout/RenderingPerfectGridAlgorithm/MasonryLayoutCalculator.swift:175-179 | The spreading loop yields `Shrink`, whose width loss `WidthsShrink` counts. |
| PerfectGridLayout.MatchRowHeights | KlipyiOS-demo/App/MasonryLayout/RenderingPerfectGridAlgorithm/MasonryLayoutCalculator.swift:190-194 | The height loop, with its test corrected from "not an ad" to "not the resized ad" (see Findings), yields `MatchOthers`: every other item takes the new height. `WidthsMatch` shows this keeps every width. |
| PerfectGridLayout.RunAdPass | KlipyiOS-demo/App/MasonryLayout/RenderingPerfectGridAlgorithm/MasonryLayoutCalculator.swift:151-198 | The ad pass on the reconciled row, with the corrected height match, returns the `AdPass` row and height whose properties `AdPassShape` and `AdPassWidth` state. |
| PerfectGridLayout.CalculateOptimalRow | KlipyiOS-demo/App/MasonryLayout/RenderingPerfectGridAlgorithm/MasonryLayoutCalculator.swift:85-201 | The method's result is `OptimalRow`, including the recursive call for an ad at position 2 or later. |
| PerfectGridLayout.WindowEnd | KlipyiOS-demo/App/MasonryLayout/RenderingPerfectGridAlgorithm/MasonryLayoutCalculator.swift:213 | The window moves the cursor forward by at most `maxGifsPerRow`, and by exactly that unless it reaches the end. |
| PerfectGridLayout.Window | KlipyiOS-demo/App/MasonryLayout/RenderingPerfectGridAlgorithm/MasonryLayoutCalculator.swift:213-231 | The window is as long as `WindowEnd` says. |
| PerfectGridLayout.Consumed | KlipyiOS-demo/App/MasonryLayout/RenderingPerfectGridAlgorithm/MasonryLayoutCalculator.swift:236 | The cursor moves by the row's length, and always by at least one tile, so the loop ends. |
| PerfectGridLayout.PositionRow | KlipyiOS-demo/App/MasonryLayout/RenderingPerfectGridAlgorithm/MasonryLayoutCalculator.swift:242-247 | The inner position loop yields `PlaceItems`, whose x values `PlacedRow` relates to widths and gaps. |
| PerfectGridLayout.AssignPositions | KlipyiOS-demo/App/MasonryLayout/RenderingPerfectGridAlgorithm/MasonryLayoutCalculator.swift:239-249 | The final pass yields `Place`, the positioned rows that `LayoutGeometry` and `PlaceNoOverlap` describe. |
| PerfectGridLayout.BuildStep | KlipyiOS-demo/App/MasonryLayout/RenderingPerfectGridAlgorithm/MasonryLayoutCalculator.swift:211-236 | One loop turn with any row builder moves the cursor forward and keeps the final result unchanged. |
| PerfectGridLayout.CalculatorApply | KlipyiOS-demo/App/MasonryLayout/RenderingPerfectGridAlgorithm/MasonryLayoutCalculator.swift:234 | On the windows `createRows` forms, the row builder is `calculateOptimalRow` with the two meta values swapped. |
| PerfectGridLayout.AppendRow | KlipyiOS-demo/App/MasonryLayout/RenderingPerfectGridAlgorithm/MasonryLayoutCalculator.swift:211-237 | One turn of the cursor loop moves the cursor forward and keeps `createRows`' eventual rows the same. |
| PerfectGridLayout.CreateRows | KlipyiOS-demo/App/MasonryLayout/RenderingPerfectGridAlgorithm/MasonryLayoutCalculator.swift:207-252 | The method returns `Layout`, the positioned rows of the cursor loop, about which the `Layout*` lemmas speak. |
| PerfectGridLayout.BuildIsRowsFrom | KlipyiOS-demo/App/MasonryLayout/RenderingPerfectGridAlgorithm/MasonryLayoutCalculator.swift:208-237 | The loop with an accumulator equals the accumulator followed by the rows built from the cursor on. |
| PerfectGridProperties.WidthsFill | KlipyiOS-demo/App/MasonryLayout/RenderingPerfectGridAlgorithm/MasonryLayoutCalculator.swift:140-147 | Filling adds one adjustment per non-ad item to the sum of trial widths. |
| PerfectGridProperties.WidthsUpdate | KlipyiOS-demo/App/MasonryLayout/RenderingPerfectGridAlgorithm/MasonryLayoutCalculator.swift:188 | Replacing one item changes a width sum by that item's change of width. |
| PerfectGridProperties.WidthsMatch | KlipyiOS-demo/App/MasonryLayout/RenderingPerfectGridAlgorithm/MasonryLayoutCalculator.swift:190-194 | Changing heights leaves the widths' sum alone. |
| PerfectGridProperties.WidthsShrink | KlipyiOS-demo/App/MasonryLayout/RenderingPerfectGridAlgorithm/MasonryLayoutCalculator.swift:175-179 | The spreading loop takes `d` off once per non-ad item at exactly the minimum width. |
| PerfectGridProperties.AdPassShape | KlipyiOS-demo/App/MasonryLayout/RenderingPerfectGridAlgorithm/MasonryLayoutCalculator.swift:151-198 | Unless the shrink branch runs, the ad, the heights and the row height stay as they were. When it runs, the ad's new width is at least its floor and, for a non-negative percent, at most its old width; its height/width ratio is kept. Every item and the row then have its new height (corrected height match, see Findings). |
| PerfectGridProperties.AdPassWidth | KlipyiOS-demo/App/MasonryLayout/RenderingPerfectGridAlgorithm/MasonryLayoutCalculator.swift:162-188 | If the ad alone absorbs the overflow, the row is exactly the container width. Otherwise the row exceeds it by the part of the ad's shortfall not taken off the items at the minimum width, and it fits exactly iff every narrow item sits at the minimum. |
| PerfectGridProperties.SharesMakeWhole | KlipyiOS-demo/App/MasonryLayout/RenderingPerfectGridAlgorithm/MasonryLayoutCalculator.swift:177 | `a` shares of `d / n` add up to a non-zero `d` exactly when `a == n`. |
| PerfectGridProperties.AdPassKeepsTiles | KlipyiOS-demo/App/MasonryLayout/RenderingPerfectGridAlgorithm/MasonryLayoutCalculator.swift:151-198 | The ad pass keeps every tile's identity and every non-ad trial width. It changes nothing in any other ad but its height. |
| PerfectGridProperties.ReconciledItems | KlipyiOS-demo/App/MasonryLayout/RenderingPerfectGridAlgorithm/MasonryLayoutCalculator.swift:136-147 | Item by item, the reconciled row is the window's tile at its trial width and the chosen height; an ad keeps its own width. |
| PerfectGridProperties.ReconciledFits | KlipyiOS-demo/App/MasonryLayout/RenderingPerfectGridAlgorithm/MasonryLayoutCalculator.swift:136-147 | With at least one non-ad item, spreading the leftover makes the rendered row exactly the container width. |
| PerfectGridProperties.FillFits | KlipyiOS-demo/App/MasonryLayout/RenderingPerfectGridAlgorithm/MasonryLayoutCalculator.swift:138-147 | Spreading a row's deviation over its non-ad items closes the gap to the container exactly. |
| PerfectGridProperties.OptimalRowKeepsTiles | KlipyiOS-demo/App/MasonryLayout/RenderingPerfectGridAlgorithm/MasonryLayoutCalculator.swift:85-201 | The row is a prefix of the window: the same tiles, in order. |
| PerfectGridProperties.DeepAdRow | KlipyiOS-demo/App/MasonryLayout/RenderingPerfectGridAlgorithm/MasonryLayoutCalculator.swift:94-98 | With the first ad at position 2 or later, the row is the one calculated for the first two items. It has exactly two items, neither of them an ad. |
| PerfectGridProperties.BestFit | KlipyiOS-demo/App/MasonryLayout/RenderingPerfectGridAlgorithm/MasonryLayoutCalculator.swift:104-134 | The row has as many items as the chosen candidate. With two or more items, that candidate is the first least-deviation one of two or more items (heights ascending, then counts). A lone item is taken at the lowest height. Non-ad items keep `round(originalWidth * h / originalHeight)`. |
| PerfectGridProperties.ChosenHeight | KlipyiOS-demo/App/MasonryLayout/RenderingPerfectGridAlgorithm/MasonryLayoutCalculator.swift:99-106 | With the first ad at position 0 or 1 the only height tried is `Int(ad.height)`. Otherwise the height lies in `Int(minHeight)...Int(maxHeight)`. |
| PerfectGridProperties.ExactFill | KlipyiOS-demo/App/MasonryLayout/RenderingPerfectGridAlgorithm/MasonryLayoutCalculator.swift:136-151 | With no ad in the row, or no non-ad item that started too narrow, the result is the reconciled row. Every item has the chosen height. With a non-ad item, the row fills the container exactly. |
| PerfectGridProperties.AdFreeRowFills | KlipyiOS-demo/App/MasonryLayout/RenderingPerfectGridAlgorithm/MasonryLayoutCalculator.swift:104-147 | An ad-free window gives a row exactly as wide as the container. All its items share the row height, which lies in the configured integer range. |
| PerfectGridProperties.AdRowShape | KlipyiOS-demo/App/MasonryLayout/RenderingPerfectGridAlgorithm/MasonryLayoutCalculator.swift:151-198 | In a row holding an ad, for a non-negative percent `p`, the ad is never below its floor `w * (100 - p) / 100` nor wider than it came in. Its height/width ratio is that of its width at the row's integer height. The row and every item share the ad's height (corrected height match, see Findings). |
| PerfectGridProperties.AdPassOutcome | KlipyiOS-demo/App/MasonryLayout/RenderingPerfectGridAlgorithm/MasonryLayoutCalculator.swift:151-198 | On a row of one height `h`, whether or not the pass shrinks: the ad stays, for a non-negative percent, within floor and width, keeps the ratio of its width at `h`, and gives its height to the row and every item (corrected height match, see Findings). |
| PerfectGridProperties.CalculatorAdvances | KlipyiOS-demo/App/MasonryLayout/RenderingPerfectGridAlgorithm/MasonryLayoutCalculator.swift:126-131 | On every window `createRows` can form, the row is a non-empty prefix of the window, with two or more items when the window has two or more. |
| PerfectGridProperties.RowsCover | KlipyiOS-demo/App/MasonryLayout/RenderingPerfectGridAlgorithm/MasonryLayoutCalculator.swift:211-236 | For any builder meeting that condition, the rows from a cursor on hold the remaining tiles, each once and in order. |
| PerfectGridProperties.RowSizes | KlipyiOS-demo/App/MasonryLayout/RenderingPerfectGridAlgorithm/MasonryLayoutCalculator.swift:211-236 | For any such builder, each row has 1 to `maxGifsPerRow` items. A row of one item is the last row, unless rows are capped at one. |
| PerfectGridProperties.LayoutCovers | KlipyiOS-demo/App/MasonryLayout/RenderingPerfectGridAlgorithm/MasonryLayoutCalculator.swift:211-236 | The rows `createRows` returns, read one after another, give the input ids in the input order, each tile exactly once. |
| PerfectGridProperties.PlacedRowsCover | KlipyiOS-demo/App/MasonryLayout/RenderingPerfectGridAlgorithm/MasonryLayoutCalculator.swift:211-249 | The positioned rows of any advancing builder still hold every tile once, in order. |
| PerfectGridProperties.LayoutRowSizes | KlipyiOS-demo/App/MasonryLayout/RenderingPerfectGridAlgorithm/MasonryLayoutCalculator.swift:211-236 | Every returned row holds 1 to `maxGifsPerRow` tiles. Only the last row holds a single tile, unless rows are capped at one; the two-item minimum comes from lines 126-131. |
| PerfectGridProperties.PlaceKeepsTiles | KlipyiOS-demo/App/MasonryLayout/RenderingPerfectGridAlgorithm/MasonryLayoutCalculator.swift:239-249 | The position pass changes nothing but the x and y positions. |
| PerfectGridProperties.XOffsetIsSum | KlipyiOS-demo/App/MasonryLayout/RenderingPerfectGridAlgorithm/MasonryLayoutCalculator.swift:242-247 | An item's x is the widths of the items before it plus one gap per item before it. |
| PerfectGridProperties.RowRightEdge | KlipyiOS-demo/App/MasonryLayout/RenderingPerfectGridAlgorithm/MasonryLayoutCalculator.swift:242-247 | The last item of a row ends at the row's rendered width. |
| PerfectGridProperties.XOffsetsApart | KlipyiOS-demo/App/MasonryLayout/RenderingPerfectGridAlgorithm/MasonryLayoutCalculator.swift:242-247 | With non-negative gap and widths, an item ends, gap included, no later than any later item begins. |
| PerfectGridProperties.YOffsetsApart | KlipyiOS-demo/App/MasonryLayout/RenderingPerfectGridAlgorithm/MasonryLayoutCalculator.swift:240-249 | With non-negative gap and heights, a row ends, gap included, no later than any lower row begins. |
| PerfectGridProperties.PlacedSizes | KlipyiOS-demo/App/MasonryLayout/RenderingPerfectGridAlgorithm/MasonryLayoutCalculator.swift:239-249 | Placed rows keep their item counts, item sizes and row heights. |
| PerfectGridProperties.PlacedColumns | KlipyiOS-demo/App/MasonryLayout/RenderingPerfectGridAlgorithm/MasonryLayoutCalculator.swift:242-247 | Each row starts at x = 0. Each item sits one width plus a gap right of its predecessor. The last one ends at the row's rendered width. |
| PerfectGridProperties.PlacedRows | KlipyiOS-demo/App/MasonryLayout/RenderingPerfectGridAlgorithm/MasonryLayoutCalculator.swift:240-249 | All items of row r share y[r]. y[0] = 0 and y[r+1] = y[r] + height[r] + gap. |
| PerfectGridProperties.PlacedRow | KlipyiOS-demo/App/MasonryLayout/RenderingPerfectGridAlgorithm/MasonryLayoutCalculator.swift:243-247 | Within one row, sizes are kept, x is the sum of widths and gaps before, and y is the row's. |
| PerfectGridProperties.LayoutGeometry | KlipyiOS-demo/App/MasonryLayout/RenderingPerfectGridAlgorithm/MasonryLayoutCalculator.swift:239-249 | In the result of `createRows`: x starts at 0 in each row and grows by width + gap; every tile of a row has the row's y; y starts at 0 and grows by row height + gap. |
| PerfectGridProperties.PlaceNoOverlap | KlipyiOS-demo/App/MasonryLayout/RenderingPerfectGridAlgorithm/MasonryLayoutCalculator.swift:239-249 | For any rows, with non-negative gap, widths and row heights: tiles of one row are apart horizontally, gap included. Each row's band, from its y down to its height plus the gap, ends before any later row begins. It is about row bands; that each tile stays inside its band is `LayoutTileHeights`. |
| PerfectGridProperties.RowHeightsUniform | KlipyiOS-demo/App/MasonryLayout/RenderingPerfectGridAlgorithm/MasonryLayoutCalculator.swift:146-200 | For any window, every item of the calculated row is exactly as tall as the row (corrected height match, see Findings). |
| PerfectGridProperties.CalculatorLevel | KlipyiOS-demo/App/MasonryLayout/RenderingPerfectGridAlgorithm/MasonryLayoutCalculator.swift:234 | On every window `createRows` can form, the row builder gives rows whose items are all at the row's height. |
| PerfectGridProperties.RowsLevel | KlipyiOS-demo/App/MasonryLayout/RenderingPerfectGridAlgorithm/MasonryLayoutCalculator.swift:211-236 | For any builder with level rows, the rows from a cursor on have every item at its row's height. |
| PerfectGridProperties.LayoutTileHeights | KlipyiOS-demo/App/MasonryLayout/RenderingPerfectGridAlgorithm/MasonryLayoutCalculator.swift:211-249 | In `createRows`' result every tile is exactly as tall as its row. |
| PerfectGridProperties.SameRowApart | KlipyiOS-demo/App/MasonryLayout/RenderingPerfectGridAlgorithm/MasonryLayoutCalculator.swift:242-247 | With a non-negative gap and widths, two distinct placed tiles of one row do not overlap. |
| PerfectGridProperties.LaterRowApart | KlipyiOS-demo/App/MasonryLayout/RenderingPerfectGridAlgorithm/MasonryLayoutCalculator.swift:240-249 | A tile exactly as tall as its row, with non-negative gap and row heights, lies wholly above every tile of a later row. |
| PerfectGridProperties.PlaceApart | KlipyiOS-demo/App/MasonryLayout/RenderingPerfectGridAlgorithm/MasonryLayoutCalculator.swift:239-249 | For any rows whose tiles have no negative width and are as tall as their rows, no two distinct placed tiles overlap. |
| PerfectGridProperties.LayoutNoOverlap | KlipyiOS-demo/App/MasonryLayout/RenderingPerfectGridAlgorithm/MasonryLayoutCalculator.swift:239-249 | With a non-negative gap, and no tile of negative width or height in the result, any two distinct tiles of `createRows`' result are apart: one ends left of or above the other. |
| PerfectGridProperties.SecondAdOverhangs | KlipyiOS-demo/App/MasonryLayout/RenderingPerfectGridAlgorithm/MasonryLayoutCalculator.swift:190-194 | As written, a row of two 100 x 100 ads and a gif at height 100 in a 206-wide container shrinks the first ad to 56 and the row to 56. The second ad stays 100 tall, so the row's tiles are not level. The corrected pass gives it height 56. |
| PerfectGridProperties.SecondAdReached | KlipyiOS-demo/App/MasonryLayout/RenderingPerfectGridAlgorithm/MasonryLayoutCalculator.swift:85-160 | The window of that example, at the ad's own height, picks all three tiles, and its gif falls below the minimum width, so the shrink pass runs on exactly that row. |
| PerfectGridProperties.NegativeWidth | KlipyiOS-demo/App/MasonryLayout/RenderingPerfectGridAlgorithm/MasonryLayoutCalculator.swift:126-147 | A window of a 1 x 100 and a 1000 x 100 gif in a 300-wide row must form a row of two. The even split of its deviation -701 leaves the first gif -349.5 wide. |

| ClassicGridLayout.DefaultConfig | KlipyiOS-demo/App/MasonryLayout/MasonryLayoutCalculator.swift:19-33 | Defaults: gap 3, minimum gif width 60, at most 4 per row, height range 50...180. |
| ClassicGridLayout.AsTile | KlipyiOS-demo/App/MasonryLayout/MasonryLayoutCalculator.swift:42-53 | A gif enters the layout with its id and its `xs.webp` size, never as an ad. |
| ClassicGridLayout.TrialRowGrows | KlipyiOS-demo/App/MasonryLayout/MasonryLayoutCalculator.swift:82-86 | Each inner step appends the next gif at its rounded width for the height. |
| ClassicGridLayout.DevAt | KlipyiOS-demo/App/MasonryLayout/MasonryLayoutCalculator.swift:88-89 | The deviation measured in the loop is the deviation function the search is specified with. |
| ClassicGridLayout.ChosenShape | KlipyiOS-demo/App/MasonryLayout/MasonryLayoutCalculator.swift:79-98 | The chosen candidate has 1 to `n` items (2 or more when `n >= 2`) and a height in `Int(minHeight)...Int(maxHeight)`. Its deviation is its own. |
| ClassicGridLayout.OptimalRow | KlipyiOS-demo/App/MasonryLayout/MasonryLayoutCalculator.swift:74-108 | The row has exactly as many items as the chosen candidate. |
| ClassicGridLayout.Measure | KlipyiOS-demo/App/MasonryLayout/MasonryLayoutCalculator.swift:83-89 | One inner step extends the candidate by the next gif and yields its deviation. |
| ClassicGridLayout.TryHeight | KlipyiOS-demo/App/MasonryLayout/MasonryLayoutCalculator.swift:80-98 | The inner loop at one height leaves the running best equal to the specified scan's. |
| ClassicGridLayout.SearchRow | KlipyiOS-demo/App/MasonryLayout/MasonryLayoutCalculator.swift:79-99 | The nested loops return the trial row, height and deviation of the candidate `RowSearch.Search` picks. |
| ClassicGridLayout.FillRow | KlipyiOS-demo/App/MasonryLayout/MasonryLayoutCalculator.swift:102-105 | The in-place width/height loop yields the filled row whose width `RenderedWidth` states. |
| ClassicGridLayout.CalculateOptimalRow | KlipyiOS-demo/App/MasonryLayout/MasonryLayoutCalculator.swift:74-108 | The method's result is `OptimalRow`. |
| ClassicGridLayout.WindowOfGifs | KlipyiOS-demo/App/MasonryLayout/MasonryLayoutCalculator.swift:40-53 | The layout items of `items[next..<min(next + maxGifsPerRow, count)]` are the shared model's window. |
| ClassicGridLayout.BuilderApply | KlipyiOS-demo/App/MasonryLayout/MasonryLayoutCalculator.swift:55 | On the windows `createRows` forms, the row builder is `calculateOptimalRow`. |
| ClassicGridLayout.AppendRow | KlipyiOS-demo/App/MasonryLayout/MasonryLayoutCalculator.swift:39-58 | One turn of the cursor loop moves the cursor forward and keeps the eventual rows the same. |
| ClassicGridLayout.CreateRows | KlipyiOS-demo/App/MasonryLayout/MasonryLayoutCalculator.swift:35-72 | The method returns `Layout`, the positioned rows of the cursor loop. |
| ClassicGridLayout.BestFit | KlipyiOS-demo/App/MasonryLayout/MasonryLayoutCalculator.swift:79-98 | With two or more gifs, the row is the first least-deviation candidate of two or more items. A lone gif is taken at `Int(minHeight)`. Each item is the window's gif at `round(originalWidth * h / originalHeight)`. |
| ClassicGridLayout.RowHeights | KlipyiOS-demo/App/MasonryLayout/MasonryLayoutCalculator.swift:79-105 | Every gif of the row gets `optimalHeight`, an integer in `Int(minHeight)...Int(maxHeight)`. |
| ClassicGridLayout.RowWidths | KlipyiOS-demo/App/MasonryLayout/MasonryLayoutCalculator.swift:101-103 | Each width is `newWidth + minimumChange / (count - 1)` in a row of two or more, and `newWidth` for a lone gif. |
| ClassicGridLayout.WidthsFill | KlipyiOS-demo/App/MasonryLayout/MasonryLayoutCalculator.swift:102-105 | Filling adds one adjustment per item to the sum of trial widths. |
| ClassicGridLayout.OneShareOver | KlipyiOS-demo/App/MasonryLayout/MasonryLayoutCalculator.swift:101 | `n` shares of `c / (n - 1)` are `c` plus one share. |
| ClassicGridLayout.RenderedWidth | KlipyiOS-demo/App/MasonryLayout/MasonryLayoutCalculator.swift:88-103 | For two or more gifs the rendered row is `containerWidth + minimumChange / (n - 1)`, so it fits exactly iff the best candidate did. A lone gif's row is `containerWidth - minimumChange`. |
| ClassicGridLayout.RowArith | KlipyiOS-demo/App/MasonryLayout/MasonryLayoutCalculator.swift:101-103 | The arithmetic behind `RenderedWidth`: `n` trial widths, each widened by one share of the deviation. |
| ClassicGridLayout.BuilderAdvances | KlipyiOS-demo/App/MasonryLayout/MasonryLayoutCalculator.swift:91-96 | The row is a non-empty prefix of the window, of two or more gifs when the window has two or more. |
| ClassicGridLayout.LayoutCovers | KlipyiOS-demo/App/MasonryLayout/MasonryLayoutCalculator.swift:39-57 | The returned rows, read one after another, give every gif once, in the input order. |
| ClassicGridLayout.RowsHoldGifs | KlipyiOS-demo/App/MasonryLayout/MasonryLayoutCalculator.swift:39-57 | The rows before positions hold every gif once, in order. |
| ClassicGridLayout.LayoutRowSizes | KlipyiOS-demo/App/MasonryLayout/MasonryLayoutCalculator.swift:39-57 | Rows hold 1 to `maxGifsPerRow` gifs. Only the last row holds a single gif, unless rows are capped at one. |
| ClassicGridLayout.LayoutGeometry | KlipyiOS-demo/App/MasonryLayout/MasonryLayoutCalculator.swift:60-69 | x starts at 0 in each row and grows by width + gap. Every gif of a row has the row's y, which starts at 0 and grows by row height + gap. |
| Numerics.Trunc | KlipyiOS-demo/App/MasonryLayout/RenderingPerfectGridAlgorithm/MasonryLayoutCalculator.swift:106 | `Int(x)` is the integer part: within one of `x`, on the side toward zero. |
| Numerics.Round | KlipyiOS-demo/App/MasonryLayout/RenderingPerfectGridAlgorithm/MasonryLayoutCalculator.swift:116 | `round(x)` is within one half of `x` and has its sign; a half rounds away from zero. |
| Numerics.Abs | KlipyiOS-demo/App/MasonryLayout/RenderingPerfectGridAlgorithm/MasonryLayoutCalculator.swift:126 | `abs(x)` is non-negative and is `x` or `-x`. |
| GridVisibility.ShouldDrawLastRow | KlipyiOS-demo/App/MasonryLayout/MasonryGridView.swift:24-30 | True exactly when a category is selected and it lists recents. |
| GridVisibility.RowOpacity | KlipyiOS-demo/App/MasonryLayout/MasonryGridView.swift:45-63 | A row's opacity is 1 or 0, and is 1 exactly when `shouldDrawView` holds. |
| GridVisibility.OpacityModifier | KlipyiOS-demo/App/MasonryLayout/MasonryGridView.swift:87-95 | Opacity is 1 or 0, and is 1 exactly when the row is not the last. |
| GridVisibility.InnerRowsDrawn | KlipyiOS-demo/App/MasonryLayout/MasonryGridView.swift:53-63 | Every row but the last is drawn, whatever is selected. |
| GridVisibility.LastRowDrawnIffRecents | KlipyiOS-demo/App/MasonryLayout/MasonryGridView.swift:24-63 | The last row is drawn iff the selected category is recents; with nothing selected it is hidden. |
| GridVisibility.OpacityAgrees | KlipyiOS-demo/App/MasonryLayout/MasonryGridView.swift:53-94 | Outside recents, the grid's opacity rule and `OpacityModifier` agree on every row. |
| GridVisibility.DrawnRowCount | KlipyiOS-demo/App/MasonryLayout/MasonryGridView.swift:35-63 | Of `n` rows all are drawn, or `n - 1` when the last row is hidden. |
| MediaFiles.BestAvailableFile | KlipyiOS-demo/Infrastructure/Models/DomainModels/MediaFile.swift:36-42 | The single file if present. Otherwise the rendition of the sharpest size that exists. |
| MediaFiles.PreviewFile | KlipyiOS-demo/Infrastructure/Models/DomainModels/MediaFile.swift:44-50 | The single file if present. Otherwise the rendition of the smallest size that exists. |
| MediaFiles.GetFileVariant | KlipyiOS-demo/Infrastructure/Models/DomainModels/MediaFile.swift:52-63 | The single file if present. Otherwise exactly the rendition of the requested size, possibly missing. |
| MediaFiles.SingleFileWins | KlipyiOS-demo/Infrastructure/Models/DomainModels/MediaFile.swift:35-63 | A single file overrides every rendition in all three lookups. |
| MediaFiles.AllRenditions | KlipyiOS-demo/Infrastructure/Models/DomainModels/MediaFile.swift:36-50 | With all four renditions and no single file, the full view gets hd and the preview xs. |
| MediaFiles.FallbacksAreVariants | KlipyiOS-demo/Infrastructure/Models/DomainModels/MediaFile.swift:35-63 | Both fallbacks are size lookups, and the full view's size is never smaller than the preview's. |
| MediaFiles.OneRendition | KlipyiOS-demo/Infrastructure/Models/DomainModels/MediaFile.swift:36-50 | With a single rendition, both fallbacks pick it. |
| InfraMediaType.FromRaw | KlipyiOS-demo/Infrastructure/Models/MediaType/MediaType.swift:11-14 | `MediaType(rawValue:)` finds a kind exactly when the string is its raw value "clip", "gif" or "sticker". |
| InfraMediaType.From | KlipyiOS-demo/Infrastructure/Models/MediaType/MediaType.swift:34-36 | `from(string:)` finds a kind exactly when the lower-cased string is its raw value. |
| InfraMediaType.RawValueRoundTrip | KlipyiOS-demo/Infrastructure/Models/MediaType/MediaType.swift:11-36 | Every kind is found again from its raw value, by both lookups. |
| InfraMediaType.NamesInjective | KlipyiOS-demo/Infrastructure/Models/MediaType/MediaType.swift:11-32 | Raw values, paths and display names each tell the kinds apart. |
| InfraMediaType.FromIgnoresCase | KlipyiOS-demo/Infrastructure/Models/MediaType/MediaType.swift:35 | A string and its lower-case form find the same kind. |
| InfraMediaType.FromExamples | KlipyiOS-demo/Infrastructure/Models/MediaType/MediaType.swift:16-36 | "GIF", "Sticker" and "CLIP" are found. No plural path is found. The raw-value lookup itself is case-sensitive. |
| InfraMediaType.DisplayNameNotFound | KlipyiOS-demo/Infrastructure/Models/MediaType/MediaType.swift:26-36 | The plural display names "CLIPs", "GIFs" and "STICKERs" are not found by `from(string:)`. |
| NetworkMediaType.DisplayNameInjective | KlipyiOS-demo/Networking/Models/MediaType/MediaType.swift:26-32 | The display names "Clip", "GIF" and "Sticker" tell the kinds apart. |
| NetworkMediaType.DisplayNameRoundTrip | KlipyiOS-demo/Networking/Models/MediaType/MediaType.swift:26-36 | Each singular display name is found again by `from(string:)`. |
| Ascii.Lower | KlipyiOS-demo/Infrastructure/Models/MediaType/MediaType.swift:35 | `lowercased()` maps every capital letter to its small letter and keeps every other character. |
| Ascii.LowerIdempotent | KlipyiOS-demo/Infrastructure/Models/MediaType/MediaType.swift:35 | Lower-casing twice is lower-casing once. |
| Ascii.Trim | KlipyiOS-demo/App/Components/ChatPreview/ChatPreview.swift:93 | Trimming returns the part of the string between the stripped characters at both ends; it starts and ends with kept characters. |
| Ascii.TrimIdempotent | KlipyiOS-demo/App/Components/ChatPreview/ChatPreview.swift:93 | Trimming twice is trimming once. |
| Ascii.TrimPadding | KlipyiOS-demo/App/Components/ChatPreview/ChatPreview.swift:93 | Stripped characters added around a string are removed again. |
| HexColor.ScanHex | KlipyiOS-demo/App/Components/ChatPreview/ChatPreview.swift:95 | The scanned value is below `16^len` (the leading run of hex digits read as a number; `HexDigitsValue` and `ScanAllDigits` pin it down). |
| HexColor.Parse | KlipyiOS-demo/App/Components/ChatPreview/ChatPreview.swift:92-106 | Every component lies in 0..255, for any input. Any trimmed length other than 3, 6 or 8 gives (255, 0, 0, 0). |
| HexColor.ParseTrims | KlipyiOS-demo/App/Components/ChatPreview/ChatPreview.swift:93 | Parsing depends only on the trimmed string. |
| HexColor.HashPrefix | KlipyiOS-demo/App/Components/ChatPreview/ChatPreview.swift:93 | A leading `#` makes no difference. |
| HexColor.HexDigitsValue | KlipyiOS-demo/App/Components/ChatPreview/ChatPreview.swift:95 | `count` hex digits of `n < 16^count` scan back to `n`. |
| HexColor.ScanAllDigits | KlipyiOS-demo/App/Components/ChatPreview/ChatPreview.swift:95 | A string made only of hex digits scans to its hexadecimal value. |
| HexColor.ParseOfDigits | KlipyiOS-demo/App/Components/ChatPreview/ChatPreview.swift:95-103 | A string of 3, 6 or 8 hex digits parses by the length switch applied to its value. |
| HexColor.RoundTrip6 | KlipyiOS-demo/App/Components/ChatPreview/ChatPreview.swift:100-101 | `RRGGBB` formatted from bytes parses back to (255, r, g, b). |
| HexColor.RoundTrip8 | KlipyiOS-demo/App/Components/ChatPreview/ChatPreview.swift:102-103 | `AARRGGBB` formatted from bytes parses back to (a, r, g, b). |
| HexColor.RoundTrip3 | KlipyiOS-demo/App/Components/ChatPreview/ChatPreview.swift:98-99 | `RGB` formatted from nibbles parses to (255, 17r, 17g, 17b). |
| HexColor.ShortExample | KlipyiOS-demo/App/Components/ChatPreview/ChatPreview.swift:98-99 | "FA0" parses to (255, 255, 170, 0). |
| HexColor.HashExample | KlipyiOS-demo/App/Components/ChatPreview/ChatPreview.swift:93 | "#36383F" parses like "36383F". |
| PreviewOverlay.TargetSize | KlipyiOS-demo/App/ViewUtilities/TelegramPreviewOverlay.swift:94-107 | For a non-zero original width and a positive height (and a non-negative screen when the width is negative, as a laid-out tile's can be): the target fits in 0.9 of the screen width and 0.7 of its height, meets one of the two bounds exactly, and keeps the original aspect ratio. |
| PreviewOverlay.WidthWithinBound | KlipyiOS-demo/App/ViewUtilities/TelegramPreviewOverlay.swift:98-106 | Whether the original width is positive or negative, the scaled width stays within 0.9 of the screen width. |
| PreviewOverlay.TargetSizeScaleFree | KlipyiOS-demo/App/ViewUtilities/TelegramPreviewOverlay.swift:94-107 | Scaling the original by any positive factor leaves the target size unchanged. |
| PreviewOverlay.TargetScaleOverK | KlipyiOS-demo/App/ViewUtilities/TelegramPreviewOverlay.swift:98-101 | Scaling the original by `k` divides the fitting scale by `k`. |
| PreviewOverlay.TargetOrigin | PreviewViewModel.swift:37-42 | The target frame's centre is the screen's centre. |
| PreviewOverlay.DragScale | KlipyiOS-demo/App/ViewUtilities/TelegramPreviewOverlay.swift:61-62 | The scale lies in [0.7, 1], is 1 exactly at rest, and is 0.7 exactly from 300 points on. It falls linearly in between. |
| PreviewOverlay.BackdropOpacity | KlipyiOS-demo/App/ViewUtilities/TelegramPreviewOverlay.swift:33-39 | The opacity never exceeds its peak, and equals it exactly when not dragging or at rest. It reaches 0 exactly at the fade distance and is negative beyond it. |
| PreviewOverlay.PreviewViewModel.constructor | PreviewViewModel.swift:1-6 | Not dragging, zero offset, scale 1. |
| PreviewOverlay.PreviewViewModel.ShownOffset | KlipyiOS-demo/App/ViewUtilities/TelegramPreviewOverlay.swift:50-53 | The preview is drawn at the drag offset only while dragging. |
| PreviewOverlay.PreviewViewModel.DragChanged | PreviewViewModel.swift:56-63 | The preview follows the finger and takes the drag scale, which stays in [0.7, 1]. |
| PreviewOverlay.PreviewViewModel.DragEnded | PreviewViewModel.swift:64-75 | The preview is dismissed exactly when the vertical drag exceeds 100 points, with the state left as it was. Otherwise it resets to (not dragging, zero, 1). |
| PreviewOverlay.DragAndRelease | PreviewViewModel.swift:56-75 | A drag let go short of dismissal leaves the state of an untouched preview. |
| ImageContent.NormalizedSize | KlipyiOS-demo/App/Components/ChatMessage/ImageContentView.swift:16-34 | Above 200 x 120 when doubled, the width becomes 280 with the doubled size's aspect ratio. Otherwise the size is the doubled size. |
| ImageContent.KeepsAspect | KlipyiOS-demo/App/Components/ChatMessage/ImageContentView.swift:17-33 | Both branches keep the item's aspect ratio. |
| ImageContent.Boundary | KlipyiOS-demo/App/Components/ChatMessage/ImageContentView.swift:21 | A doubled width of exactly 200 is left unchanged. |
| ImageContent.ShortNotCapped | KlipyiOS-demo/App/Components/ChatMessage/ImageContentView.swift:21-33 | An item whose doubled height is at most 120 is not capped, however wide it is. |
| ChatFeature.Trimmed | KlipyiOS-demo/App/ChatFeature/ChatFeatureViewModel.swift:57-58 | The trimmed text is empty exactly when the text is all white space. Otherwise it starts and ends with non-space characters. |
| ChatFeature.TrimmedIdempotent | KlipyiOS-demo/App/ChatFeature/ChatFeatureViewModel.swift:57 | A sent text would be sent unchanged again. |
| ChatFeature.PlayToggle | KlipyiOS-demo/App/ChatFeature/ChatFeatureViewModel.swift:170-186 | Playing the video that is playing stops it; any other becomes the playing one. |
| ChatFeature.PlayToggleTwice | KlipyiOS-demo/App/ChatFeature/ChatFeatureViewModel.swift:167-187 | Two taps on a video return to no video, or to that video if it was playing. |
| ChatFeature.ChatFeatureViewModel.constructor | KlipyiOS-demo/App/ChatFeature/ChatFeatureViewModel.swift:17-53 | The conversation is the original one, the picker is closed, no players are registered and nothing is playing. |
| ChatFeature.ChatFeatureViewModel.SendTextMessage | KlipyiOS-demo/App/ChatFeature/ChatFeatureViewModel.swift:56-74 | All-white-space text sends nothing. Other text appends exactly one message: the trimmed text, from the user, with no media. Nothing else changes. |
| ChatFeature.ChatFeatureViewModel.SendMediaMessage | KlipyiOS-demo/App/ChatFeature/ChatFeatureViewModel.swift:76-91 | Appends exactly one message with empty text and the item; nothing else changes. |
| ChatFeature.ChatFeatureViewModel.RegisterVideoPlayer | KlipyiOS-demo/App/ChatFeature/ChatFeatureViewModel.swift:134-145 | The id maps to a new player for the URL, replacing any earlier one. The playing video is unchanged. |
| ChatFeature.ChatFeatureViewModel.PlaybackEnded | KlipyiOS-demo/App/ChatFeature/ChatFeatureViewModel.swift:138-144 | Any player reaching its end clears the playing id. |
| ChatFeature.ChatFeatureViewModel.UnregisterVideoPlayer | KlipyiOS-demo/App/ChatFeature/ChatFeatureViewModel.swift:147-152 | The id is removed. The playing id is cleared only if it was this one. |
| ChatFeature.ChatFeatureViewModel.GetPlayer | KlipyiOS-demo/App/ChatFeature/ChatFeatureViewModel.swift:154-156 | There is a player exactly for a registered id, and it is the registered one. |
| ChatFeature.ChatFeatureViewModel.PauseVideo | KlipyiOS-demo/App/ChatFeature/ChatFeatureViewModel.swift:158-165 | For a registered id, the playing id is cleared if it was this one. An unregistered id changes nothing. |
| ChatFeature.ChatFeatureViewModel.PlayVideo | KlipyiOS-demo/App/ChatFeature/ChatFeatureViewModel.swift:167-187 | For a registered id the playing video toggles (`PlayToggle`). An unregistered id changes nothing. |
| ChatFeature.ChatFeatureViewModel.PauseAllVideos | KlipyiOS-demo/App/ChatFeature/ChatFeatureViewModel.swift:189-195 | Nothing is playing; the players are kept. |
| ChatFeature.ChatFeatureViewModel.CleanUp | KlipyiOS-demo/App/ChatFeature/ChatFeatureViewModel.swift:208-225 | The original messages are restored, the picker is closed, every player is dropped and nothing is playing. Every method keeps the playing id among the registered ones. |
| MediaSearchBar.Toggle | KlipyiOS-demo/App/Components/MediaSearchBar/MediaSearchBar.swift:144-152 | Choosing the selected category (by name) clears the selection; choosing any other selects it. |
| MediaSearchBar.ToggleFlips | KlipyiOS-demo/App/Components/MediaSearchBar/MediaSearchBar.swift:144-152 | Choosing a category flips whether it is selected. |
| MediaSearchBar.ToggleTwice | KlipyiOS-demo/App/Components/MediaSearchBar/MediaSearchBar.swift:144-152 | Starting from no selection or another category, choosing a category twice leaves nothing selected. |
| MediaSearchBar.ShownControls | KlipyiOS-demo/App/Components/MediaSearchBar/MediaSearchBar.swift:42-104 | Back button or search icon, never both. The back button and the disabled field appear exactly when a category is selected. Clear button or category strip, never both; the strip appears exactly when the text is empty. |
| MediaSearchBar.SearchBar.ClearSelection | KlipyiOS-demo/App/Components/MediaSearchBar/MediaSearchBar.swift:137-142 | No category and empty text: the search icon and the category strip show, the clear button does not. |
| MediaSearchBar.SearchBar.HandleCategorySelection | KlipyiOS-demo/App/Components/MediaSearchBar/MediaSearchBar.swift:144-152 | The selection becomes `Toggle` of the old one; the text is unchanged. |
| VisibilityChange.Step | KlipyiOS-demo/App/ChatFeature/VisibilityChangeModifier.swift:17-33 | The action runs exactly on a visible event while `hasAppeared` is false, and running sets the flag. Becoming invisible clears the flag and never runs it. An invisible `onAppear` changes nothing. |
| VisibilityChange.AtMostOncePerShowing | KlipyiOS-demo/App/ChatFeature/VisibilityChangeModifier.swift:19-33 | Between invisibility reports the action runs at most once, not at all if it already had, and leaves the flag set when it did. |
| VisibilityChange.FlagStays | KlipyiOS-demo/App/ChatFeature/VisibilityChangeModifier.swift:19-27 | Without an invisibility report a set flag stays set. |
| VisibilityChange.ShowingFiresOnce | KlipyiOS-demo/App/ChatFeature/VisibilityChangeModifier.swift:19-33 | After the view was hidden, a showing with any later visible notifications runs the action exactly once. |
| VisibilityChange.VisibilityChangeModifier.OnChange | KlipyiOS-demo/App/ChatFeature/VisibilityChangeModifier.swift:19-27 | The flag and the "action runs" result are those of `Step` on the change. |
| VisibilityChange.VisibilityChangeModifier.OnAppear | KlipyiOS-demo/App/ChatFeature/VisibilityChangeModifier.swift:28-33 | The flag and the "action runs" result are those of `Step` on the appearance. |
| VideoPlayback.AfterPlay | KlipyiOS-demo/App/Core/Utils/VideoPlayerManager.swift:17-21 | After `play(id)` the playing id is `id`. |
| VideoPlayback.PlayIdempotentLastWins | KlipyiOS-demo/App/Core/Utils/VideoPlayerManager.swift:17-21 | Playing the same id twice is playing it once; of two plays the last wins. |
| VideoPlayback.VideoPlayerManager.Play | KlipyiOS-demo/App/Core/Utils/VideoPlayerManager.swift:17-21 | The playing id becomes `id`, assigned only when it differs. |
| VideoPlayback.VideoPlayerManager.Stop | KlipyiOS-demo/App/Core/Utils/VideoPlayerManager.swift:23-25 | Nothing is playing. |
| DynamicMedia.LoadTrending | KlipyiOS-demo/App/DynamicMediaView/DynamicMediaViewModel.swift:25-31 | A request goes out exactly when no load runs and more pages exist. It asks for the current page with 24 per page, marks the feed loading and clears the error. Otherwise nothing changes. |
| DynamicMedia.SearchGifs | KlipyiOS-demo/App/DynamicMediaView/DynamicMediaViewModel.swift:58-69 | An empty query resets to page 1 and loads trending, guard included. Any other query is requested for the current page without a guard. |
| DynamicMedia.LoadNextPageIfNeeded | KlipyiOS-demo/App/DynamicMediaView/DynamicMediaViewModel.swift:98-106 | While loading or after the last page, nothing happens. |
| DynamicMedia.Succeeded | KlipyiOS-demo/App/DynamicMediaView/DynamicMediaViewModel.swift:38-48 | Page 1 replaces the items and a later page is appended. `hasMorePages` becomes `hasNext`, the page counter grows by one and loading ends. |
| DynamicMedia.Failed | KlipyiOS-demo/App/DynamicMediaView/DynamicMediaViewModel.swift:49-55 | The items, page and `hasMorePages` are kept. The error is flagged with its message and loading ends. |
| DynamicMedia.OperationsKeepValid | KlipyiOS-demo/App/DynamicMediaView/DynamicMediaViewModel.swift:13-136 | Every operation keeps the page counter at 1 or more and keeps the error flag equal to "an error message is present". |
| DynamicMedia.LoadGuard | KlipyiOS-demo/App/DynamicMediaView/DynamicMediaViewModel.swift:25-106 | While a load runs or after the last page, trending and next-page loads send nothing, but a non-empty search still goes out. |
| DynamicMedia.ResetsToFirstPage | KlipyiOS-demo/App/DynamicMediaView/DynamicMediaViewModel.swift:109-127 | `refresh` and `updateSearchQuery` go back to page 1 (with more pages assumed) and ask for page 1. A refresh sends nothing exactly when a load is running and there is no query to search. |
| DynamicMedia.LaterPagesAppend | KlipyiOS-demo/App/DynamicMediaView/DynamicMediaViewModel.swift:38-47 | Past page 1, successive responses are appended in order and the counter advances by one per page. |
| DynamicMedia.PagesAccumulate | KlipyiOS-demo/App/DynamicMediaView/DynamicMediaViewModel.swift:38-47 | From page 1, the feed holds exactly the pages loaded, in order. `hasMorePages` is the last response's `hasNext`. |
| DynamicMedia.FirstIndexFrom | KlipyiOS-demo/App/DynamicMediaView/DynamicMediaViewModel.swift:142 | `firstIndex(where:)`: the first index with the id, or none when no item has it. |
| DynamicMedia.ShouldLoadMore | KlipyiOS-demo/App/DynamicMediaView/DynamicMediaViewModel.swift:141-147 | False for an item not in the feed. Otherwise true exactly when its first index is among the last five. |
| DynamicMedia.ShouldLoadMoreAt | KlipyiOS-demo/App/DynamicMediaView/DynamicMediaViewModel.swift:141-147 | With distinct ids, the item at index `i` asks for more exactly when `i >= count - 5`. |
| DynamicMedia.ErrorDisplayMessage | KlipyiOS-demo/App/DynamicMediaView/DynamicMediaViewModel.swift:152-154 | The default text when there is no message, the message otherwise. |
| DynamicMedia.ErrorMessageShown | KlipyiOS-demo/App/DynamicMediaView/DynamicMediaViewModel.swift:152-154 | In a valid state, the default text shows whenever no error is flagged, and a flagged error shows its own message. |
| DynamicMedia.DynamicMediaViewModel.constructor | KlipyiOS-demo/App/DynamicMediaView/DynamicMediaViewModel.swift:13-22 | Empty feed, not loading, no error, more pages, empty query, page 1. |
| DynamicMedia.DynamicMediaViewModel.LoadTrendingGifs | KlipyiOS-demo/App/DynamicMediaView/DynamicMediaViewModel.swift:25-31 | The new state and request are `LoadTrending` of the old state. |
| DynamicMedia.DynamicMediaViewModel.SearchGifsFor | KlipyiOS-demo/App/DynamicMediaView/DynamicMediaViewModel.swift:58-69 | The new state and request are `SearchGifs` of the old state. |
| DynamicMedia.DynamicMediaViewModel.LoadCurrentQuery | KlipyiOS-demo/App/DynamicMediaView/DynamicMediaViewModel.swift:101-105 | Trending without a query, the query's search otherwise. |
| DynamicMedia.DynamicMediaViewModel.LoadNextPage | KlipyiOS-demo/App/DynamicMediaView/DynamicMediaViewModel.swift:98-106 | The new state and request are `LoadNextPageIfNeeded` of the old state. |
| DynamicMedia.DynamicMediaViewModel.RefreshFeed | KlipyiOS-demo/App/DynamicMediaView/DynamicMediaViewModel.swift:109-118 | The new state and request are `Refresh` of the old state. |
| DynamicMedia.DynamicMediaViewModel.UpdateQuery | KlipyiOS-demo/App/DynamicMediaView/DynamicMediaViewModel.swift:120-127 | The new state and request are `UpdateSearchQuery` of the old state. |
| DynamicMedia.DynamicMediaViewModel.RetryLoad | KlipyiOS-demo/App/DynamicMediaView/DynamicMediaViewModel.swift:130-136 | The new state and request are `Retry` of the old state. |
| DynamicMedia.DynamicMediaViewModel.LoadSucceeded | KlipyiOS-demo/App/DynamicMediaView/DynamicMediaViewModel.swift:38-48 | The new state is `Succeeded` of the old state. |
| DynamicMedia.DynamicMediaViewModel.LoadFailed | KlipyiOS-demo/App/DynamicMediaView/DynamicMediaViewModel.swift:49-55 | The new state is `Failed` of the old state. |

## Findings

| source | as written | input that shows it | evidently intended | confidence | as-written member | corrected member |
|---|---|---|---|---|---|---|
| KlipyiOS-demo/App/MasonryLayout/RenderingPerfectGridAlgorithm/MasonryLayoutCalculator.swift:190-194 | After shrinking the ad, only items that are not ads take the ad's new height. A second ad in the row keeps the old, taller height, while the row height (line 196) becomes the shrunk ad's. | Container 206, gap 0; `calculateOptimalRow` called with `itemMinWidth` 50 and `adMaxResizePercent` 50 (after line 234's swap, a `meta` holding 50 for both); window [ad 100 x 100, ad 100 x 100, gif 5 x 100]. The new row height is 56, but the second ad stays 100 tall (`SecondAdOverhangs`, reached per `SecondAdReached`). | Every item except the resized ad takes the new height. This matches line 146, which gives every item, ads included, the row's height. | medium; not executed | PerfectGridLayout.AdPassAsWritten, PerfectGridProperties.SecondAdOverhangs | PerfectGridLayout.AdPass, PerfectGridProperties.RowHeightsUniform |

## Left out

- `getDimensions` (lines 59-79 of the ad-aware calculator) is not modelled. It refers to an ad case and ad content properties that the shown types lack. Tiles come in as (id, kind, width, height); `highQualityUrl`, `mp4Media`, `previewUrl`, `url`, `title` and `slug` are pass-through payload and are dropped.
- The older `GridItemLayout` copy and `GifItem`'s file variants are not modelled separately. A gif enters the shared layout item through its id and its `xs.webp` size.
- `CalculateOptimalRow` (both calculators) requires positive tile sizes and a non-empty height range. A zero height gives NaN trial widths, which reals cannot express. A range with min > max traps at run time.
- `PerfectGridLayout.CreateRows` and `ClassicGridLayout.CreateRows` also require `maxGifsPerRow >= 1`. With 0 the Swift loop never ends.
- `CGFloat` is an exact real here. IEEE-754 rounding, infinities and NaN are not modelled, and neither is the `greatestFiniteMagnitude` sentinel. It is replaced by "no candidate kept yet", which behaves the same whenever every deviation is finite.
- Networking is not modelled: the HTTP requests, their async `await`s, and the interleaving of concurrent loads.
  - `updateSearchQuery`'s `Task` is taken to start its search at once.
  - A completion is applied to whatever state the feed has when the response arrives.
- The reply timers in `ChatFeatureViewModel` (`simulateReply`, `simulateMediaReply`) and `toggleMediaPicker` are not modelled: they are timing and random choice.
- The sounds, `AVPlayer` play/pause/seek and `NotificationCenter` registration are not modelled either.
  - A player is known only by its URL.
  - The end-of-playback observer is the separate method `PlaybackEnded`.
- `Date()` and random message ids are a caller-supplied timestamp or are omitted.
- The chat's message list and the list it is reset to live in a chat preview model whose definition is not part of this model. They are fields of the chat view model here.
- `Color.init(hex:)` stops at the integer components. The `Double(...) / 255` conversion to a SwiftUI colour is not modelled.
- `Scanner.scanHexInt64` is modelled as the value of the leading run of hex digits. Its `0x` prefix handling and 64-bit overflow are not modelled; input of 3, 6 or 8 characters cannot overflow.
- Lower-casing and trimming act on ASCII only, and the white-space set is ASCII white space.
- `PreviewViewModel.selectedItem` and the tap-to-dismiss callback are not modelled. Neither are haptics, animations and the view bodies.
- The icon URL and UUID of a `MediaCategory` are not modelled.
- The Networking `MediaType` copy has the same raw values, paths and `from(string:)` as the Infrastructure copy. The model reuses the Infrastructure lookup for it, and only its display names are separate.
- PerfectGridProperties.AdPassShape / PerfectGridProperties.AdRowShape / PerfectGridProperties.AdPassOutcome: the ad's upper bound (and, in the last two, its floor) is promised only for a non-negative resize percent. With a negative percent the floor `w * (100 - p) / 100` exceeds `w`, and line 180 widens the ad past its old width. Because of line 234's swap that percent is `meta.itemMinWidth`, which nothing keeps non-negative.
- PreviewOverlay.TargetSize: assumes a non-zero tile width and a positive tile height, which the layout does not guarantee (`NegativeWidth`). A negative width is covered. A zero width makes Swift's width ratio an IEEE infinity, which a real cannot express; the result would then be (0, 0.7 of the screen height). A zero or negative height is not covered either.
- PerfectGridProperties.LayoutNoOverlap: assumes that no tile of the result has a negative width or height. The fill of lines 140-147 can make a width negative (`NegativeWidth`). The next tile then starts left of that tile's x, so the Swift layout gives no non-overlap promise for such rows.
- PerfectGridProperties.PlaceNoOverlap: separates row bands only; a tile taller than its row is not covered by it, which is why `LayoutTileHeights` is proved beside it.
- MediaFiles.BestAvailableFile / MediaFiles.PreviewFile: with no single file and no rendition the source force-unwraps `nil` and traps. That input is excluded by `requires HasFile(m)`.
- DynamicMedia.ErrorDisplayMessage: shows the default text exactly when there is no message, except that a message equal to the default text is indistinguishable from none.
