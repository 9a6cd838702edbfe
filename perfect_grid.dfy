/**
 * The ad-aware masonry layout calculator
 * (App/MasonryLayout/RenderingPerfectGridAlgorithm/MasonryLayoutCalculator.swift).
 *
 * `CreateRows` cuts the ordered tiles into rows: it takes a window of at most
 * `maxGifsPerRow` tiles at the cursor, lets `CalculateOptimalRow` choose how
 * many of them form the row and at which height, and advances the cursor by
 * that many; a last pass gives every tile its x/y position.  Both methods are
 * proved equal to the functions `OptimalRow` and `Layout`, and the lemmas at
 * the end of the module state what those promise.
 */
module PerfectGridLayout {
  import opened Numerics
  import opened Options
  import opened RowSearch

  datatype Kind = Ad | NonAd

  /** A media item as the adapter in front of the calculator hands it over:
      its id, whether it is an ad, and its intrinsic width and height. */
  datatype Tile = Tile(id: int, kind: Kind, width: real, height: real)

  /** `GridItemLayout` (GridItemLayout.swift:11-27) without its pass-through
      strings and media payload. */
  datatype GridItem = GridItem(
    id: int, kind: Kind,
    width: real, height: real,
    xPosition: real, yPosition: real,
    originalWidth: real, originalHeight: real,
    newWidth: real)

  datatype RowLayout = RowLayout(items: seq<GridItem>, height: real)

  /** The calculator's stored properties (all `let`). */
  datatype Config = Config(
    containerWidth: real, gap: real, minGifWidth: real,
    minHeight: real, maxHeight: real, maxGifsPerRow: int)

  /** The two ad-packing parameters `createRows` receives. */
  datatype GridMeta = GridMeta(itemMinWidth: int, adMaxResizePercent: int)

  /** The initializer's defaults; the screen width is a parameter. */
  function DefaultConfig(screenWidth: real): (c: Config)
    ensures c.containerWidth == screenWidth && c.gap == 1.0 && c.maxGifsPerRow == 4
    ensures Trunc(c.minHeight) == 50 && Trunc(c.maxHeight) == 180
  {
    Config(screenWidth, 1.0, 50.0, 50.0, 180.0, 4)
  }

  // ---------------------------------------------------------------------------
  // Items and rows

  /** The layout item `createRows` builds for a tile: its size doubles as
      the original size, position and trial width start at 0. */
  function LayoutItem(t: Tile): (g: GridItem)
    ensures g.id == t.id && g.kind == t.kind
    ensures g.width == g.originalWidth == t.width && g.height == g.originalHeight == t.height
  {
    GridItem(t.id, t.kind, t.width, t.height, 0.0, 0.0, t.width, t.height, 0.0)
  }

  function LayoutItems(ts: seq<Tile>): (s: seq<GridItem>)
    ensures |s| == |ts|
    ensures forall j :: 0 <= j < |ts| ==> s[j] == LayoutItem(ts[j])
  {
    seq(|ts|, j requires 0 <= j < |ts| => LayoutItem(ts[j]))
  }

  /** Every size the calculator divides by or scales is positive. */
  ghost predicate Positive(s: seq<GridItem>) {
    forall j :: 0 <= j < |s| ==>
      s[j].width > 0.0 && s[j].height > 0.0 && s[j].originalWidth > 0.0 && s[j].originalHeight > 0.0
  }

  ghost predicate PositiveTiles(ts: seq<Tile>) {
    forall j :: 0 <= j < |ts| ==> ts[j].width > 0.0 && ts[j].height > 0.0
  }

  /** `a` is the layout item `b` again, possibly resized or moved. */
  predicate SameTile(a: GridItem, b: GridItem) {
    a.id == b.id && a.kind == b.kind && a.originalWidth == b.originalWidth && a.originalHeight == b.originalHeight
  }

  /** Index of the first ad (`firstIndex { $0.type == "ad" }`). */
  function FirstAd(s: seq<GridItem>): (r: Option<nat>)
    ensures r.Some? ==> r.value < |s| && s[r.value].kind == Ad
    ensures r.Some? ==> forall j :: 0 <= j < r.value ==> s[j].kind == NonAd
    ensures r.None? <==> forall j :: 0 <= j < |s| ==> s[j].kind == NonAd
  {
    FirstAdFrom(s, 0)
  }

  function FirstAdFrom(s: seq<GridItem>, i: nat): (r: Option<nat>)
    requires i <= |s|
    requires forall j :: 0 <= j < i ==> s[j].kind == NonAd
    ensures r.Some? ==> i <= r.value < |s| && s[r.value].kind == Ad
    ensures r.Some? ==> forall j :: 0 <= j < r.value ==> s[j].kind == NonAd
    ensures r.None? <==> forall j :: 0 <= j < |s| ==> s[j].kind == NonAd
    decreases |s| - i
  {
    if i == |s| then None
    else if s[i].kind == Ad then Some(i)
    else FirstAdFrom(s, i + 1)
  }

  /** The non-ad items of a row, in order (`filter { $0.type != "ad" }`). */
  function NonAdsTo(s: seq<GridItem>, k: nat): (r: seq<GridItem>)
    requires k <= |s|
    ensures |r| <= k
    ensures |r| < k ==> exists j :: 0 <= j < k && s[j].kind == Ad
  {
    if k == 0 then [] else NonAdsTo(s, k - 1) + (if s[k - 1].kind == NonAd then [s[k - 1]] else [])
  }

  function NonAds(s: seq<GridItem>): seq<GridItem> {
    NonAdsTo(s, |s|)
  }

  /** The items of `s` narrower than `m` (`filter { $0.width < m }`). */
  function NarrowerTo(s: seq<GridItem>, m: real, k: nat): (r: seq<GridItem>)
    requires k <= |s|
    ensures |r| <= k
  {
    if k == 0 then [] else NarrowerTo(s, m, k - 1) + (if s[k - 1].width < m then [s[k - 1]] else [])
  }

  function Narrower(s: seq<GridItem>, m: real): seq<GridItem> {
    NarrowerTo(s, m, |s|)
  }

  /** Sum of `newWidth` over the first `k` items (the `reduce` at line 122). */
  function SumNewTo(s: seq<GridItem>, k: nat): real
    requires k <= |s|
  {
    if k == 0 then 0.0 else SumNewTo(s, k - 1) + s[k - 1].newWidth
  }

  function SumNewWidths(s: seq<GridItem>): real {
    SumNewTo(s, |s|)
  }

  /** Sum of `width` over the first `k` items (the `reduce` at line 163). */
  function SumWidthsTo(s: seq<GridItem>, k: nat): real
    requires k <= |s|
  {
    if k == 0 then 0.0 else SumWidthsTo(s, k - 1) + s[k - 1].width
  }

  /** Rendered width of a row: its widths plus a gap between neighbours. */
  function RowWidth(s: seq<GridItem>, gap: real): real {
    SumWidthsTo(s, |s|) + (|s| - 1) as real * gap
  }

  // ---------------------------------------------------------------------------
  // The height search (lines 90-134)

  /** Trial width at row height `h`: an ad keeps its width, any other item is
      scaled to height `h` and rounded (line 116). */
  function TrialWidth(t: GridItem, h: int): real
    requires t.originalHeight != 0.0
  {
    if t.kind == Ad then t.width else Round(Scaled(t, h)) as real
  }

  /** Width of a non-ad item scaled to height `h`, before rounding. */
  function Scaled(t: GridItem, h: int): real
    requires t.originalHeight != 0.0
  {
    (t.originalWidth * h as real) / t.originalHeight
  }

  function TrialItem(t: GridItem, h: int): GridItem
    requires t.originalHeight != 0.0
  {
    t.(newWidth := TrialWidth(t, h))
  }

  /** The candidate row of the first `k` items at height `h`. */
  function TrialRow(items: seq<GridItem>, h: int, k: nat): (r: seq<GridItem>)
    requires Positive(items) && k <= |items|
    ensures |r| == k
  {
    seq(k, j requires 0 <= j < k => TrialItem(items[j], h))
  }

  /** Total width of a candidate row, gaps included (line 122). */
  function TrialTotal(cfg: Config, items: seq<GridItem>, h: int, k: nat): real
    requires Positive(items) && k <= |items|
  {
    SumNewWidths(TrialRow(items, h, k)) + (k - 1) as real * cfg.gap
  }

  /** Deviation of each candidate from the container width (line 123). */
  function Dev(cfg: Config, items: seq<GridItem>): (int, nat) -> real
    requires Positive(items)
  {
    (h: int, k: nat) => if k <= |items| then cfg.containerWidth - TrialTotal(cfg, items, h, k) else 0.0
  }

  /** The heights tried: the ad's own height when the first ad is at
      position 0 or 1, the configured range otherwise (lines 90-103). */
  function HeightRange(cfg: Config, items: seq<GridItem>): (int, int) {
    var ad := FirstAd(items);
    if ad.Some? && ad.value <= 1 then (Trunc(items[ad.value].height), Trunc(items[ad.value].height))
    else (Trunc(cfg.minHeight), Trunc(cfg.maxHeight))
  }

  /** The closed range `lo...hi` of line 106 traps unless `lo <= hi`. */
  predicate RangeOk(cfg: Config, items: seq<GridItem>) {
    HeightRange(cfg, items).0 <= HeightRange(cfg, items).1
  }

  /** The (count, height, deviation) the height search settles on. */
  function ChosenCandidate(cfg: Config, items: seq<GridItem>): Best
    requires Positive(items)
  {
    Search(Dev(cfg, items), |items|, HeightRange(cfg, items).0, HeightRange(cfg, items).1)
  }

  lemma ChosenShape(cfg: Config, items: seq<GridItem>)
    requires Positive(items) && RangeOk(cfg, items)
    ensures var b := ChosenCandidate(cfg, items);
      && b.count <= |items|
      && (|items| >= 1 ==> 1 <= b.count && b.change == Dev(cfg, items)(b.height, b.count))
      && (|items| >= 1 ==> HeightRange(cfg, items).0 <= b.height <= HeightRange(cfg, items).1)
      && (|items| >= 2 ==> 2 <= b.count)
      && (|items| == 0 ==> b == NoCandidate)
  {
    SearchShape(Dev(cfg, items), |items|, HeightRange(cfg, items).0, HeightRange(cfg, items).1);
  }

  // ---------------------------------------------------------------------------
  // Width reconciliation (lines 136-147)

  /** Share of the leftover width per non-ad item (line 138). */
  function Spread(change: real, nonAdCount: nat): real {
    if nonAdCount == 0 then 0.0 else change / nonAdCount as real
  }

  function FillItem(t: GridItem, adj: real, h: real): GridItem {
    if t.kind == Ad then t.(width := t.newWidth, height := h)
    else t.(width := t.newWidth + adj, height := h)
  }

  function Fill(s: seq<GridItem>, adj: real, h: real): (r: seq<GridItem>)
    ensures |r| == |s|
  {
    seq(|s|, j requires 0 <= j < |s| => FillItem(s[j], adj, h))
  }

  // ---------------------------------------------------------------------------
  // The ad shrink pass (lines 149-198)

  /** Smallest width the ad may be shrunk to (line 169). */
  function AdFloor(w: real, pct: int): real {
    w * (100.0 - pct as real) / 100.0
  }

  function ClampItem(t: GridItem, m: real): GridItem {
    if t.kind != Ad && t.width < m then t.(width := m) else t
  }

  /** Lines 156-160: raise narrow non-ad items to the minimum width. */
  function Clamp(s: seq<GridItem>, m: real): (r: seq<GridItem>)
    ensures |r| == |s|
  {
    seq(|s|, j requires 0 <= j < |s| => ClampItem(s[j], m))
  }

  function ShrinkItem(t: GridItem, m: real, d: real): GridItem {
    if t.kind != Ad && t.width == m then t.(width := t.width - d) else t
  }

  /** Lines 175-179: take `d` off every non-ad item at exactly the minimum width. */
  function Shrink(s: seq<GridItem>, m: real, d: real): (r: seq<GridItem>)
    ensures |r| == |s|
  {
    seq(|s|, j requires 0 <= j < |s| => ShrinkItem(s[j], m, d))
  }

  function MatchHeightItem(t: GridItem, h: real): GridItem {
    if t.kind != Ad then t.(height := h) else t
  }

  /** Lines 190-194 as written: every non-ad item takes the ad's new height,
      and any other ad keeps the height line 146 gave it. */
  function MatchHeights(s: seq<GridItem>, h: real): (r: seq<GridItem>)
    ensures |r| == |s|
  {
    seq(|s|, j requires 0 <= j < |s| => MatchHeightItem(s[j], h))
  }

  /** Lines 190-194 as evidently intended ("update others to match new row
      height"): every item but the resized ad at `ai` takes its height `h`. */
  function MatchOthers(s: seq<GridItem>, ai: nat, h: real): (r: seq<GridItem>)
    ensures |r| == |s|
    ensures forall j :: 0 <= j < |s| && j != ai ==> r[j] == s[j].(height := h)
    ensures ai < |s| ==> r[ai] == s[ai]
  {
    seq(|s|, j requires 0 <= j < |s| => if j == ai then s[j] else s[j].(height := h))
  }

  /** Number of non-ad items exactly at width `m` (those line 176 shrinks). */
  function AtMinCountTo(s: seq<GridItem>, m: real, k: nat): nat
    requires k <= |s|
  {
    if k == 0 then 0 else AtMinCountTo(s, m, k - 1) + (if s[k - 1].kind != Ad && s[k - 1].width == m then 1 else 0)
  }

  /** The shrink branch runs: some item was narrower than the minimum and the
      clamped row overflows the container (lines 154 and 165). */
  predicate ShrinkRuns(cfg: Config, filled: seq<GridItem>, below: nat, m: real) {
    below > 0 && RowWidth(Clamp(filled, m), cfg.gap) > cfg.containerWidth
  }

  /** The ad pass on the reconciled row `filled`; `below` is the number of
      non-ad items whose width before reconciliation was under `m`, `ai` the
      index of the first ad.  The last step is the corrected one,
      `MatchOthers`: the source's own (`AdPassAsWritten`) can leave a second
      ad taller than the row. */
  function AdPass(cfg: Config, filled: seq<GridItem>, below: nat, ai: nat, m: real, pct: int, optH: real)
    : (r: (seq<GridItem>, real))
    requires ai < |filled| && filled[ai].kind == Ad && filled[ai].width != 0.0
    ensures |r.0| == |filled|
  {
    if below == 0 then (filled, optH)
    else
      var clamped := Clamp(filled, m);
      var newRowWidth := RowWidth(clamped, cfg.gap);
      if newRowWidth <= cfg.containerWidth then (clamped, optH)
      else
        var ad := clamped[ai];
        var minAdWidth := AdFloor(ad.width, pct);
        var proposed := ad.width - (newRowWidth - cfg.containerWidth);
        var spread := if proposed < minAdWidth then Shrink(clamped, m, (minAdWidth - proposed) / below as real) else clamped;
        var resized := if proposed < minAdWidth then minAdWidth else proposed;
        var newAd := ad.(height := ad.height * (resized / ad.width), width := resized, newWidth := resized);
        (MatchOthers(spread[ai := newAd], ai, newAd.height), newAd.height)
  }

  /** The ad pass exactly as lines 149-198 write it: after the shrink only
      non-ad items take the new height, so an ad other than the first keeps
      the taller height of line 146 (`SecondAdOverhangs`). */
  function AdPassAsWritten(cfg: Config, filled: seq<GridItem>, below: nat, ai: nat, m: real, pct: int, optH: real)
    : (r: (seq<GridItem>, real))
    requires ai < |filled| && filled[ai].kind == Ad && filled[ai].width != 0.0
    ensures |r.0| == |filled|
  {
    if below == 0 then (filled, optH)
    else
      var clamped := Clamp(filled, m);
      var newRowWidth := RowWidth(clamped, cfg.gap);
      if newRowWidth <= cfg.containerWidth then (clamped, optH)
      else
        var ad := clamped[ai];
        var minAdWidth := AdFloor(ad.width, pct);
        var proposed := ad.width - (newRowWidth - cfg.containerWidth);
        var spread := if proposed < minAdWidth then Shrink(clamped, m, (minAdWidth - proposed) / below as real) else clamped;
        var resized := if proposed < minAdWidth then minAdWidth else proposed;
        var newAd := ad.(height := ad.height * (resized / ad.width), width := resized, newWidth := resized);
        (MatchHeights(spread[ai := newAd], newAd.height), newAd.height)
  }

  // ---------------------------------------------------------------------------
  // calculateOptimalRow

  /** The first ad sits at position 2 or later (line 95). */
  predicate DeepAd(items: seq<GridItem>) {
    FirstAd(items).Some? && FirstAd(items).value > 1
  }

  lemma AdInsideRow(items: seq<GridItem>, row: seq<GridItem>)
    requires |row| <= |items|
    requires forall j :: 0 <= j < |row| ==> row[j].kind == items[j].kind
    requires |NonAds(row)| != |row|
    ensures FirstAd(items).Some? && FirstAd(items).value < |row|
  {
    var j :| 0 <= j < |row| && row[j].kind == Ad;
    assert items[j].kind == Ad;
  }

  /** The candidate row the height search settles on (lines 104-134). */
  function Trial(cfg: Config, items: seq<GridItem>): (t: seq<GridItem>)
    requires Positive(items) && RangeOk(cfg, items)
    ensures |t| == ChosenCandidate(cfg, items).count <= |items|
  {
    ChosenShape(cfg, items);
    var b := ChosenCandidate(cfg, items);
    TrialRow(items, b.height, b.count)
  }

  /** The trial row with the leftover width spread over its non-ad items
      and every height set to the chosen one (lines 136-147). */
  function Reconciled(cfg: Config, items: seq<GridItem>): (s: seq<GridItem>)
    requires Positive(items) && RangeOk(cfg, items)
    ensures |s| == |Trial(cfg, items)|
  {
    var b := ChosenCandidate(cfg, items);
    var trial := Trial(cfg, items);
    Fill(trial, Spread(b.change, |NonAds(trial)|), b.height as real)
  }

  /** The row holds an ad (the test of line 151). */
  predicate AdInRow(cfg: Config, items: seq<GridItem>)
    requires Positive(items) && RangeOk(cfg, items)
  {
    FirstAd(items).Some? && |NonAds(Trial(cfg, items))| != |Trial(cfg, items)|
  }

  /** `itemsBelowMin.count` (line 152): non-ad row items whose width before
      reconciliation is under `minW`. */
  function NarrowCount(cfg: Config, items: seq<GridItem>, minW: int): nat
    requires Positive(items) && RangeOk(cfg, items)
  {
    |Narrower(NonAds(Trial(cfg, items)), minW as real)|
  }

  /** What `calculateOptimalRow` returns: the row's items and its height. */
  function OptimalRow(cfg: Config, items: seq<GridItem>, minW: int, pct: int): (r: (seq<GridItem>, real))
    requires Positive(items) && RangeOk(cfg, items)
    ensures |r.0| <= |items|
    ensures |items| >= 1 ==> 1 <= |r.0|
    ensures |items| >= 2 ==> 2 <= |r.0|
    decreases |items|
  {
    if DeepAd(items) then
      OptimalRow(cfg, items[..2], minW, pct)
    else
      ChosenShape(cfg, items);
      var optH := ChosenCandidate(cfg, items).height as real;
      if AdInRow(cfg, items) then
        AdInsideRow(items, Trial(cfg, items));
        AdPass(cfg, Reconciled(cfg, items), NarrowCount(cfg, items, minW), FirstAd(items).value, minW as real, pct, optH)
      else
        (Reconciled(cfg, items), optH)
  }

  /** One item of the inner loop (lines 110-123): add the item at its trial
      width and measure the candidate's deviation. */
  method Measure(cfg: Config, possibleItems: seq<GridItem>, height: int, j: nat, itemsInRow: seq<GridItem>)
    returns (itemsInRow': seq<GridItem>, change: real)
    requires Positive(possibleItems) && j < |possibleItems|
    requires itemsInRow == TrialRow(possibleItems, height, j)
    ensures itemsInRow' == TrialRow(possibleItems, height, j + 1)
    ensures change == Dev(cfg, possibleItems)(height, j + 1)
  {
    var item := possibleItems[j];
    var newItem := item;
    if item.kind == Ad {
      newItem := newItem.(newWidth := item.width);
    } else {
      var newWidth := Round(Scaled(item, height)) as real;
      newItem := newItem.(newWidth := newWidth);
    }
    assert newItem == TrialItem(item, height);
    TrialRowGrows(possibleItems, height, j);
    itemsInRow' := itemsInRow + [newItem];

    var totalWidth := SumNewWidths(itemsInRow') + (|itemsInRow'| - 1) as real * cfg.gap;
    change := cfg.containerWidth - totalWidth;
    assert totalWidth == SumNewWidths(TrialRow(possibleItems, height, j + 1)) + ((j + 1) - 1) as real * cfg.gap;
    DevAt(cfg, possibleItems, height, j + 1, change);
  }

  /** One pass of the inner loop (lines 108-133): try every count at `height`,
      keeping the running best; `best` is the matching search state. */
  method TryHeight(cfg: Config, possibleItems: seq<GridItem>, height: int, ghost best: Best,
                   row: seq<GridItem>, rowHeight: real, minChange: real)
    returns (currentRow: seq<GridItem>, optimalHeight: real, minimumChange: real, ghost best': Best)
    requires Positive(possibleItems) && best.count <= |possibleItems|
    requires row == TrialRow(possibleItems, best.height, best.count)
    requires best.count > 0 ==> minChange == best.change
    requires rowHeight == best.height as real
    ensures best' == ScanCounts(Dev(cfg, possibleItems), |possibleItems|, height, 0, best)
    ensures best'.count <= |possibleItems|
    ensures currentRow == TrialRow(possibleItems, best'.height, best'.count)
    ensures best'.count > 0 ==> minimumChange == best'.change
    ensures optimalHeight == best'.height as real
  {
    var n := |possibleItems|;
    ghost var dev := Dev(cfg, possibleItems);
    currentRow, optimalHeight, minimumChange, best' := row, rowHeight, minChange, best;
    var itemsInRow: seq<GridItem> := [];
    for j := 0 to n
      invariant itemsInRow == TrialRow(possibleItems, height, j)
      invariant ScanCounts(dev, n, height, j, best') == ScanCounts(dev, n, height, 0, best)
      invariant best'.count <= n
      invariant currentRow == TrialRow(possibleItems, best'.height, best'.count)
      invariant best'.count > 0 ==> minimumChange == best'.change
      invariant optimalHeight == best'.height as real
    {
      var change;
      itemsInRow, change := Measure(cfg, possibleItems, height, j, itemsInRow);

      // `|currentRow| == 0` stands in for comparing with
      // `CGFloat.greatestFiniteMagnitude`, the minimum's initial value.
      ghost var offered := Offer(best', height, j + 1, change);
      ScanCountsStep(dev, n, height, j, best', change);
      assert |currentRow| == best'.count;
      if (|currentRow| == 0 || Abs(change) < Abs(minimumChange)) || (|currentRow| == 1 && |itemsInRow| != 1) {
        if |itemsInRow| != 1 || |currentRow| == 0 {
          minimumChange := change;
          currentRow := itemsInRow;
          optimalHeight := height as real;
          best' := Best(|itemsInRow|, height, change);
        }
      }
      assert best' == offered;
    }
  }

  lemma DevAt(cfg: Config, items: seq<GridItem>, h: int, k: nat, change: real)
    requires Positive(items) && k <= |items|
    requires change == cfg.containerWidth - (SumNewWidths(TrialRow(items, h, k)) + (k - 1) as real * cfg.gap)
    ensures change == Dev(cfg, items)(h, k)
  {
  }

  lemma TrialRowGrows(items: seq<GridItem>, h: int, j: nat)
    requires Positive(items) && j < |items|
    ensures TrialRow(items, h, j + 1) == TrialRow(items, h, j) + [TrialItem(items[j], h)]
  {
  }

  /** The height search of lines 104-134: the chosen trial row, its height
      and its deviation from the container width. */
  method SearchRow(cfg: Config, possibleItems: seq<GridItem>, lo: int, hi: int)
    returns (currentRow: seq<GridItem>, optimalHeight: real, minimumChange: real)
    requires Positive(possibleItems) && lo <= hi
    ensures var b := Search(Dev(cfg, possibleItems), |possibleItems|, lo, hi);
      b.count <= |possibleItems| && currentRow == TrialRow(possibleItems, b.height, b.count)
      && optimalHeight == b.height as real && (b.count > 0 ==> minimumChange == b.change)
  {
    var n := |possibleItems|;
    minimumChange := 0.0;
    currentRow := [];
    optimalHeight := 0.0;
    ghost var dev := Dev(cfg, possibleItems);
    ghost var best := NoCandidate;
    for height := lo to hi + 1
      invariant ScanHeights(dev, n, height, hi, best) == Search(dev, n, lo, hi)
      invariant best.count <= n
      invariant currentRow == TrialRow(possibleItems, best.height, best.count)
      invariant best.count > 0 ==> minimumChange == best.change
      invariant optimalHeight == best.height as real
    {
      currentRow, optimalHeight, minimumChange, best :=
        TryHeight(cfg, possibleItems, height, best, currentRow, optimalHeight, minimumChange);
    }
  }

  /** Lines 140-147: every item takes the row height; non-ad items their
      trial width plus `adj`, ads their trial width. */
  method FillRow(row: seq<GridItem>, adj: real, h: real) returns (currentRow: seq<GridItem>)
    ensures currentRow == Fill(row, adj, h)
  {
    currentRow := row;
    for i := 0 to |currentRow|
      invariant |currentRow| == |row|
      invariant forall m :: 0 <= m < i ==> currentRow[m] == FillItem(row[m], adj, h)
      invariant forall m :: i <= m < |row| ==> currentRow[m] == row[m]
    {
      if currentRow[i].kind == Ad {
        currentRow := currentRow[i := currentRow[i].(width := currentRow[i].newWidth)];
      } else {
        currentRow := currentRow[i := currentRow[i].(width := currentRow[i].newWidth + adj)];
      }
      currentRow := currentRow[i := currentRow[i].(height := h)];
    }
  }

  method ClampRow(row: seq<GridItem>, m: real) returns (currentRow: seq<GridItem>)
    ensures currentRow == Clamp(row, m)
  {
    currentRow := row;
    for i := 0 to |currentRow|
      invariant |currentRow| == |row|
      invariant forall k :: 0 <= k < i ==> currentRow[k] == ClampItem(row[k], m)
      invariant forall k :: i <= k < |row| ==> currentRow[k] == row[k]
    {
      if currentRow[i].kind != Ad && currentRow[i].width < m {
        currentRow := currentRow[i := currentRow[i].(width := m)];
      }
    }
  }

  method ShrinkRow(row: seq<GridItem>, m: real, d: real) returns (currentRow: seq<GridItem>)
    ensures currentRow == Shrink(row, m, d)
  {
    currentRow := row;
    for i := 0 to |currentRow|
      invariant |currentRow| == |row|
      invariant forall k :: 0 <= k < i ==> currentRow[k] == ShrinkItem(row[k], m, d)
      invariant forall k :: i <= k < |row| ==> currentRow[k] == row[k]
    {
      if currentRow[i].kind != Ad && currentRow[i].width == m {
        currentRow := currentRow[i := currentRow[i].(width := currentRow[i].width - d)];
      }
    }
  }

  /** Lines 190-194 with the test corrected from "not an ad" to "not the
      resized ad", so that every other item takes the new row height. */
  method MatchRowHeights(row: seq<GridItem>, adIndex: nat, h: real) returns (currentRow: seq<GridItem>)
    ensures currentRow == MatchOthers(row, adIndex, h)
  {
    currentRow := row;
    for i := 0 to |currentRow|
      invariant |currentRow| == |row|
      invariant forall k :: 0 <= k < i ==> currentRow[k] == (if k == adIndex then row[k] else row[k].(height := h))
      invariant forall k :: i <= k < |row| ==> currentRow[k] == row[k]
    {
      if i != adIndex {
        currentRow := currentRow[i := currentRow[i].(height := h)];
      }
    }
  }

  /** Lines 152-196: the ad pass on the reconciled row, with the height
      match of lines 190-194 corrected (`MatchRowHeights`). */
  method RunAdPass(cfg: Config, filled: seq<GridItem>, below: nat, adIndex: nat, itemMin: real, adMaxResizePercent: int, h: real)
    returns (currentRow: seq<GridItem>, optimalHeight: real)
    requires adIndex < |filled| && filled[adIndex].kind == Ad && filled[adIndex].width != 0.0
    ensures (currentRow, optimalHeight) == AdPass(cfg, filled, below, adIndex, itemMin, adMaxResizePercent, h)
  {
    currentRow, optimalHeight := filled, h;
    if below != 0 {
      currentRow := ClampRow(currentRow, itemMin);
      ghost var clamped := currentRow;
      assert clamped[adIndex] == filled[adIndex];
      var newRowWidth := SumWidthsTo(currentRow, |currentRow|) + (|currentRow| - 1) as real * cfg.gap;
      if newRowWidth > cfg.containerWidth {
        var adItem := currentRow[adIndex];
        var minAdWidth := adItem.width * (100.0 - adMaxResizePercent as real) / 100.0;
        var resizedAdWidth := adItem.width - (newRowWidth - cfg.containerWidth);
        assert newRowWidth == RowWidth(clamped, cfg.gap);
        assert minAdWidth == AdFloor(adItem.width, adMaxResizePercent);
        if resizedAdWidth < minAdWidth {
          var adWidthDifference := minAdWidth - resizedAdWidth;
          currentRow := ShrinkRow(currentRow, itemMin, adWidthDifference / below as real);
          resizedAdWidth := minAdWidth;
        }
        assert currentRow == (if adItem.width - (newRowWidth - cfg.containerWidth) < minAdWidth
          then Shrink(clamped, itemMin, (minAdWidth - (adItem.width - (newRowWidth - cfg.containerWidth))) / below as real) else clamped);
        var scaleFactor := resizedAdWidth / adItem.width;
        adItem := adItem.(height := adItem.height * scaleFactor);
        adItem := adItem.(width := resizedAdWidth, newWidth := resizedAdWidth);
        ghost var ad := clamped[adIndex];
        ghost var proposed := ad.width - (RowWidth(clamped, cfg.gap) - cfg.containerWidth);
        ghost var resized := if proposed < AdFloor(ad.width, adMaxResizePercent) then AdFloor(ad.width, adMaxResizePercent) else proposed;
        assert resizedAdWidth == resized;
        assert adItem == ad.(height := ad.height * (resized / ad.width), width := resized, newWidth := resized);
        ghost var floor := AdFloor(ad.width, adMaxResizePercent);
        ghost var spread := if proposed < floor then Shrink(clamped, itemMin, (floor - proposed) / below as real) else clamped;
        assert currentRow == spread;
        assert Clamp(filled, itemMin) == clamped;
        assert !(RowWidth(clamped, cfg.gap) <= cfg.containerWidth);
        assert AdPass(cfg, filled, below, adIndex, itemMin, adMaxResizePercent, h).1 == adItem.height;
        assert AdPass(cfg, filled, below, adIndex, itemMin, adMaxResizePercent, h) == (MatchOthers(spread[adIndex := adItem], adIndex, adItem.height), adItem.height);
        currentRow := currentRow[adIndex := adItem];
        currentRow := MatchRowHeights(currentRow, adIndex, adItem.height);
        optimalHeight := adItem.height;
        assert (currentRow, optimalHeight) == AdPass(cfg, filled, below, adIndex, itemMin, adMaxResizePercent, h);
      } else {
        assert (currentRow, optimalHeight) == AdPass(cfg, filled, below, adIndex, itemMin, adMaxResizePercent, h);
      }
    }
  }

  /** calculateOptimalRow (lines 85-201). */
  method CalculateOptimalRow(cfg: Config, possibleItems: seq<GridItem>, itemMinWidth: int, adMaxResizePercent: int)
    returns (currentRow: seq<GridItem>, optimalHeight: real)
    requires Positive(possibleItems) && RangeOk(cfg, possibleItems)
    ensures (currentRow, optimalHeight) == OptimalRow(cfg, possibleItems, itemMinWidth, adMaxResizePercent)
    decreases |possibleItems|
  {
    var currentMinHeight := cfg.minHeight;
    var currentMaxHeight := cfg.maxHeight;
    var adIndex := FirstAd(possibleItems);
    if adIndex.Some? && adIndex.value > 1 {
      var items := possibleItems[..2];
      currentRow, optimalHeight := CalculateOptimalRow(cfg, items, itemMinWidth, adMaxResizePercent);
      return;
    } else if adIndex.Some? {
      currentMinHeight := possibleItems[adIndex.value].height;
      currentMaxHeight := possibleItems[adIndex.value].height;
    }

    var minimumChange;
    currentRow, optimalHeight, minimumChange := SearchRow(cfg, possibleItems, Trunc(currentMinHeight), Trunc(currentMaxHeight));
    ChosenShape(cfg, possibleItems);

    var nonAdItems := NonAds(currentRow);
    var adjustmentPerItem := if |nonAdItems| == 0 then 0.0 else minimumChange / |nonAdItems| as real;
    ghost var trial := currentRow;
    currentRow := FillRow(currentRow, adjustmentPerItem, optimalHeight);

    if adIndex.Some? && |nonAdItems| != |currentRow| {
      AdInsideRow(possibleItems, trial);
      var itemsBelowMin := Narrower(nonAdItems, itemMinWidth as real);
      currentRow, optimalHeight := RunAdPass(cfg, currentRow, |itemsBelowMin|, adIndex.value, itemMinWidth as real, adMaxResizePercent, optimalHeight);
    }
  }

  // ---------------------------------------------------------------------------
  // createRows (lines 207-252)

  /** Every window's height range is non-empty when the configured one is. */
  predicate ConfigRangeOk(cfg: Config) {
    Trunc(cfg.minHeight) <= Trunc(cfg.maxHeight)
  }

  /** What `createRows` needs: positive tile sizes, windows of at least one
      tile and a non-empty configured height range. */
  ghost predicate CanLayout(cfg: Config, items: seq<Tile>) {
    PositiveTiles(items) && cfg.maxGifsPerRow >= 1 && ConfigRangeOk(cfg)
  }

  /** End of the window at `next` (`min(nextItem + maxGifsPerRow, items.count)`). */
  function WindowEnd(next: nat, maxPerRow: int, count: nat): (e: nat)
    requires next <= count && maxPerRow >= 1
    ensures next < e <= count || next == e == count
    ensures e - next <= maxPerRow && (e == count || e - next == maxPerRow)
  {
    if next + maxPerRow < count then next + maxPerRow else count
  }

  /** The layout items of the window at `next` (lines 213-231). */
  function Window(cfg: Config, items: seq<Tile>, next: nat): (w: seq<GridItem>)
    requires CanLayout(cfg, items) && next <= |items|
    ensures |w| == WindowEnd(next, cfg.maxGifsPerRow, |items|) - next
  {
    LayoutItems(items[next..WindowEnd(next, cfg.maxGifsPerRow, |items|)])
  }

  /** `w` holds the layout items of the tiles from `next` on. */
  ghost predicate TilesAt(w: seq<GridItem>, items: seq<Tile>, next: nat) {
    next + |w| <= |items| && forall j :: 0 <= j < |w| ==> w[j] == LayoutItem(items[next + j])
  }


  /** The cursor loop is stated for any window-to-row function; `createRows`
      uses `Calculator`. */
  type RowBuilder = seq<GridItem> -> (seq<GridItem>, real)

  /** `calculateOptimalRow` as a row builder.  The call at line 234 passes
      `adMaxResizePercent` where the callee expects `itemMinWidth` and vice
      versa; the model keeps that. */
  ghost function Calculator(cfg: Config, meta: GridMeta): RowBuilder {
    (w: seq<GridItem>) =>
      if Positive(w) && RangeOk(cfg, w) then OptimalRow(cfg, w, meta.adMaxResizePercent, meta.itemMinWidth)
      else ([], 0.0)
  }

  /** How far the cursor moves past row `r` of window `w`: the row's length.
      A builder that returns no non-empty prefix-sized row (which
      `calculateOptimalRow` never does, `CalculatorAdvances`) is taken to
      consume the whole window, so that the loop is defined for any builder. */
  function Consumed(w: seq<GridItem>, r: (seq<GridItem>, real)): (k: nat)
    ensures |w| >= 1 ==> 1 <= k <= |w|
    ensures 1 <= |r.0| <= |w| ==> k == |r.0|
  {
    if 1 <= |r.0| <= |w| then |r.0| else |w|
  }

  /** The rows built from cursor `next` on, before positions. */
  ghost function RowsFrom(cfg: Config, build: RowBuilder, items: seq<Tile>, next: nat): seq<RowLayout>
    requires CanLayout(cfg, items) && next <= |items|
    decreases |items| - next
  {
    if next == |items| then []
    else
      var w := Window(cfg, items, next);
      var r := build(w);
      [RowLayout(r.0, r.1)] + RowsFrom(cfg, build, items, next + Consumed(w, r))
  }

  /** `createRows`'s loop from cursor `next` on, with `acc` built so far. */
  ghost function Build(cfg: Config, build: RowBuilder, items: seq<Tile>, next: nat, acc: seq<RowLayout>): seq<RowLayout>
    requires CanLayout(cfg, items) && next <= |items|
    decreases |items| - next
  {
    if next == |items| then acc
    else
      var w := Window(cfg, items, next);
      var r := build(w);
      Build(cfg, build, items, next + Consumed(w, r), acc + [RowLayout(r.0, r.1)])
  }

  /** x of item `i` in a row: widths and gaps of the items before it. */
  function XOffset(s: seq<GridItem>, i: nat, gap: real): real
    requires i <= |s|
  {
    if i == 0 then 0.0 else XOffset(s, i - 1, gap) + s[i - 1].width + gap
  }

  /** y of row `r`: heights and gaps of the rows above it. */
  function YOffset(rows: seq<RowLayout>, r: nat, gap: real): real
    requires r <= |rows|
  {
    if r == 0 then 0.0 else YOffset(rows, r - 1, gap) + rows[r - 1].height + gap
  }

  function PlaceItems(s: seq<GridItem>, y: real, gap: real): (p: seq<GridItem>)
    ensures |p| == |s|
  {
    seq(|s|, i requires 0 <= i < |s| => s[i].(xPosition := XOffset(s, i, gap), yPosition := y))
  }

  /** The position pass (lines 239-249). */
  function Place(rows: seq<RowLayout>, gap: real): (p: seq<RowLayout>)
    ensures |p| == |rows|
  {
    seq(|rows|, r requires 0 <= r < |rows| => rows[r].(items := PlaceItems(rows[r].items, YOffset(rows, r, gap), gap)))
  }

  /** What `createRows` returns. */
  ghost function Layout(cfg: Config, items: seq<Tile>, meta: GridMeta): seq<RowLayout>
    requires CanLayout(cfg, items)
  {
    Place(RowsFrom(cfg, Calculator(cfg, meta), items, 0), cfg.gap)
  }

  /** The inner loop of the position pass, on one row. */
  method PositionRow(row: seq<GridItem>, currentY: real, gap: real) returns (items: seq<GridItem>)
    ensures items == PlaceItems(row, currentY, gap)
  {
    items := row;
    var currentX := 0.0;
    for itemIndex := 0 to |items|
      invariant |items| == |row|
      invariant currentX == XOffset(row, itemIndex, gap)
      invariant forall i :: 0 <= i < itemIndex ==> items[i] == row[i].(xPosition := XOffset(row, i, gap), yPosition := currentY)
      invariant forall i :: itemIndex <= i < |row| ==> items[i] == row[i]
    {
      items := items[itemIndex := items[itemIndex].(xPosition := currentX)];
      items := items[itemIndex := items[itemIndex].(yPosition := currentY)];
      currentX := currentX + items[itemIndex].width + gap;
    }
  }

  method AssignPositions(rows: seq<RowLayout>, gap: real) returns (placed: seq<RowLayout>)
    ensures placed == Place(rows, gap)
  {
    placed := rows;
    var currentY := 0.0;
    for rowIndex := 0 to |placed|
      invariant |placed| == |rows|
      invariant currentY == YOffset(rows, rowIndex, gap)
      invariant forall r :: 0 <= r < rowIndex ==> placed[r] == Place(rows, gap)[r]
      invariant forall r :: rowIndex <= r < |rows| ==> placed[r] == rows[r]
    {
      var items := PositionRow(placed[rowIndex].items, currentY, gap);
      placed := placed[rowIndex := placed[rowIndex].(items := items)];
      currentY := currentY + placed[rowIndex].height + gap;
    }
  }

  /** One turn of the cursor loop, for any row builder. */
  lemma BuildStep(cfg: Config, build: RowBuilder, items: seq<Tile>, next: nat, rows: seq<RowLayout>,
                  w: seq<GridItem>, r: (seq<GridItem>, real), next': nat, rows': seq<RowLayout>)
    requires CanLayout(cfg, items) && next < |items|
    requires w == Window(cfg, items, next) && r == build(w) && 1 <= |r.0| <= |w|
    requires next' == next + |r.0| && rows' == rows + [RowLayout(r.0, r.1)]
    ensures next < next' <= |items|
    ensures Build(cfg, build, items, next', rows') == Build(cfg, build, items, next, rows)
  {
  }

  /** On the windows `createRows` forms, `Calculator` is `calculateOptimalRow`. */
  lemma CalculatorApply(cfg: Config, meta: GridMeta, w: seq<GridItem>, r: (seq<GridItem>, real))
    requires Positive(w) && RangeOk(cfg, w)
    requires r == OptimalRow(cfg, w, meta.adMaxResizePercent, meta.itemMinWidth)
    ensures Calculator(cfg, meta)(w) == r
  {
  }

  /** One turn of `createRows`'s loop (lines 213-236): build the row of the
      window at `nextItem` and move the cursor past it. */
  method AppendRow(cfg: Config, items: seq<Tile>, withMeta: GridMeta, nextItem: nat, rows: seq<RowLayout>)
    returns (rows': seq<RowLayout>, nextItem': nat)
    requires CanLayout(cfg, items) && nextItem < |items|
    ensures nextItem < nextItem' <= |items|
    ensures Build(cfg, Calculator(cfg, withMeta), items, nextItem', rows')
         == Build(cfg, Calculator(cfg, withMeta), items, nextItem, rows)
  {
    var possibleItems := items[nextItem..WindowEnd(nextItem, cfg.maxGifsPerRow, |items|)];
    var possibleLayoutItems := LayoutItems(possibleItems);
    ghost var w := Window(cfg, items, nextItem);
    assert possibleLayoutItems == w;
    var rowItems, rowHeight := CalculateOptimalRow(cfg, possibleLayoutItems, withMeta.adMaxResizePercent, withMeta.itemMinWidth);
    CalculatorApply(cfg, withMeta, w, (rowItems, rowHeight));
    rows' := rows + [RowLayout(rowItems, rowHeight)];
    nextItem' := nextItem + |rowItems|;
    BuildStep(cfg, Calculator(cfg, withMeta), items, nextItem, rows, w, (rowItems, rowHeight), nextItem', rows');
  }

  /** createRows (lines 207-252). */
  method CreateRows(cfg: Config, items: seq<Tile>, withMeta: GridMeta) returns (rows: seq<RowLayout>)
    requires CanLayout(cfg, items)
    ensures rows == Layout(cfg, items, withMeta)
  {
    ghost var build := Calculator(cfg, withMeta);
    rows := [];
    var nextItem := 0;
    while nextItem < |items|
      invariant nextItem <= |items|
      invariant Build(cfg, build, items, nextItem, rows) == Build(cfg, build, items, 0, [])
      decreases |items| - nextItem
    {
      rows, nextItem := AppendRow(cfg, items, withMeta, nextItem, rows);
    }
    BuildIsRowsFrom(cfg, build, items, 0, []);
    assert rows == RowsFrom(cfg, build, items, 0);
    rows := AssignPositions(rows, cfg.gap);
  }

  // ---------------------------------------------------------------------------
  // What the cursor loop promises, for any row builder

  lemma {:induction false} BuildIsRowsFrom(cfg: Config, build: RowBuilder, items: seq<Tile>, next: nat, acc: seq<RowLayout>)
    requires CanLayout(cfg, items) && next <= |items|
    ensures Build(cfg, build, items, next, acc) == acc + RowsFrom(cfg, build, items, next)
    decreases |items| - next
  {
    if next < |items| {
      var w := Window(cfg, items, next);
      var r := build(w);
      var row := RowLayout(r.0, r.1);
      BuildIsRowsFrom(cfg, build, items, next + Consumed(w, r), acc + [row]);
      ConcatAssoc(acc, [row], RowsFrom(cfg, build, items, next + Consumed(w, r)));
    } else {
      assert acc + [] == acc;
    }
  }

  lemma ConcatAssoc<T>(a: seq<T>, b: seq<T>, c: seq<T>)
    ensures a + (b + c) == (a + b) + c
  {
  }
}
