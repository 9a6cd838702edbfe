/**
 * The older, ad-free masonry calculator
 * (App/MasonryLayout/MasonryLayoutCalculator.swift).
 *
 * It shares the cursor loop, the position pass and the height search with
 * the ad-aware calculator; what differs is the trial width (every item is
 * scaled, there are no ads) and the width adjustment: the leftover width is
 * divided by `count - 1` rather than by the number of items, so a row of two
 * or more items overshoots or undershoots the container by
 * `minimumChange / (count - 1)` (`RenderedWidth`).
 */
module ClassicGridLayout {
  import opened Numerics
  import opened RowSearch
  import opened PerfectGridLayout
  import opened PerfectGridProperties

  /** A `GifItem` as the loop reads it: its id and the size of its `xs.webp`
      file (lines 42-53). */
  datatype Gif = Gif(id: int, width: real, height: real)

  /** The initializer's defaults (lines 19-33); the screen width is a parameter. */
  function DefaultConfig(screenWidth: real): (c: Config)
    ensures c.containerWidth == screenWidth && c.gap == 3.0 && c.minGifWidth == 60.0 && c.maxGifsPerRow == 4
    ensures Trunc(c.minHeight) == 50 && Trunc(c.maxHeight) == 180
  {
    Config(screenWidth, 3.0, 60.0, 50.0, 180.0, 4)
  }

  /** A gif as a tile of the shared layout model: never an ad. */
  function AsTile(g: Gif): (t: Tile)
    ensures t.id == g.id && t.kind == NonAd && t.width == g.width && t.height == g.height
  {
    Tile(g.id, NonAd, g.width, g.height)
  }

  function AsTiles(gs: seq<Gif>): (ts: seq<Tile>)
    ensures |ts| == |gs| && forall j :: 0 <= j < |gs| ==> ts[j] == AsTile(gs[j])
  {
    seq(|gs|, j requires 0 <= j < |gs| => AsTile(gs[j]))
  }

  function GifIds(gs: seq<Gif>): (ids: seq<int>)
    ensures |ids| == |gs| && forall j :: 0 <= j < |gs| ==> ids[j] == gs[j].id
  {
    seq(|gs|, j requires 0 <= j < |gs| => gs[j].id)
  }

  // ---------------------------------------------------------------------------
  // The height search (lines 75-99)

  /** Every item is scaled to height `h` and rounded (line 84). */
  function TrialItem(t: GridItem, h: int): GridItem
    requires t.originalHeight != 0.0
  {
    t.(newWidth := Round(Scaled(t, h)) as real)
  }

  function TrialRow(items: seq<GridItem>, h: int, k: nat): (r: seq<GridItem>)
    requires Positive(items) && k <= |items|
    ensures |r| == k
  {
    seq(k, j requires 0 <= j < k => TrialItem(items[j], h))
  }

  /** Deviation of the candidate of `k` items at height `h` (lines 88-89). */
  function Dev(cfg: Config, items: seq<GridItem>): (int, nat) -> real
    requires Positive(items)
  {
    (h: int, k: nat) =>
      if k <= |items| then cfg.containerWidth - (SumNewWidths(TrialRow(items, h, k)) + (k - 1) as real * cfg.gap)
      else 0.0
  }

  /** The (count, height, deviation) the search over `Int(minHeight)...Int(maxHeight)`
      settles on. */
  function ChosenCandidate(cfg: Config, items: seq<GridItem>): Best
    requires Positive(items)
  {
    Search(Dev(cfg, items), |items|, Trunc(cfg.minHeight), Trunc(cfg.maxHeight))
  }

  lemma ChosenShape(cfg: Config, items: seq<GridItem>)
    requires Positive(items) && ConfigRangeOk(cfg)
    ensures var b := ChosenCandidate(cfg, items);
      && b.count <= |items|
      && (|items| >= 1 ==> 1 <= b.count && b.change == Dev(cfg, items)(b.height, b.count))
      && (|items| >= 1 ==> Trunc(cfg.minHeight) <= b.height <= Trunc(cfg.maxHeight))
      && (|items| >= 2 ==> 2 <= b.count)
  {
    SearchShape(Dev(cfg, items), |items|, Trunc(cfg.minHeight), Trunc(cfg.maxHeight));
  }

  // ---------------------------------------------------------------------------
  // Width adjustment (lines 101-105)

  /** `minimumChange / (count - 1)` for a row of two or more items, else 0. */
  function Adjustment(b: Best): real {
    if b.count > 1 then b.change / (b.count - 1) as real else 0.0
  }

  function FillItem(t: GridItem, adj: real, h: real): GridItem {
    t.(width := t.newWidth + adj, height := h)
  }

  function Fill(s: seq<GridItem>, adj: real, h: real): (r: seq<GridItem>)
    ensures |r| == |s|
  {
    seq(|s|, j requires 0 <= j < |s| => FillItem(s[j], adj, h))
  }

  /** What `calculateOptimalRow` returns: the chosen trial row, adjusted, and
      its height. */
  function OptimalRow(cfg: Config, items: seq<GridItem>): (r: (seq<GridItem>, real))
    requires Positive(items) && ConfigRangeOk(cfg)
    ensures |r.0| == ChosenCandidate(cfg, items).count <= |items|
  {
    ChosenShape(cfg, items);
    var b := ChosenCandidate(cfg, items);
    (Fill(TrialRow(items, b.height, b.count), Adjustment(b), b.height as real), b.height as real)
  }

  // ---------------------------------------------------------------------------
  // calculateOptimalRow (lines 74-108)

  lemma DevAt(cfg: Config, items: seq<GridItem>, h: int, k: nat, change: real)
    requires Positive(items) && k <= |items|
    requires change == cfg.containerWidth - (SumNewWidths(TrialRow(items, h, k)) + (k - 1) as real * cfg.gap)
    ensures change == Dev(cfg, items)(h, k)
  {
  }

  lemma TrialRowGrows(items: seq<GridItem>, h: int, j: nat)
    requires Positive(items) && j < |items|
    ensures TrialRow(items, h, j + 1) == TrialRow(items, h, j) + [TrialItem(items[j], h)]
  {
  }

  /** The inner loop (lines 80-98) at one height; `best` is the matching
      search state. */
  method TryHeight(cfg: Config, possibleItems: seq<GridItem>, height: int, ghost best: Best,
                   row: seq<GridItem>, rowHeight: real, minChange: real)
    returns (currentRow: seq<GridItem>, optimalHeight: real, minimumChange: real, ghost best': Best)
    requires Positive(possibleItems) && best.count <= |possibleItems|
    requires row == TrialRow(possibleItems, best.height, best.count)
    requires best.count > 0 ==> minChange == best.change
    requires rowHeight == best.height as real
    ensures best' == ScanCounts(Dev(cfg, possibleItems), |possibleItems|, height, 0, best)
    ensures best'.count <= |possibleItems|
    ensures currentRow == TrialRow(possibleItems, best'.height, best'.count)
    ensures best'.count > 0 ==> minimumChange == best'.change
    ensures optimalHeight == best'.height as real
  {
    var n := |possibleItems|;
    ghost var dev := Dev(cfg, possibleItems);
    currentRow, optimalHeight, minimumChange, best' := row, rowHeight, minChange, best;
    var itemsInRow: seq<GridItem> := [];
    for j := 0 to n
      invariant itemsInRow == TrialRow(possibleItems, height, j)
      invariant ScanCounts(dev, n, height, j, best') == ScanCounts(dev, n, height, 0, best)
      invariant best'.count <= n
      invariant currentRow == TrialRow(possibleItems, best'.height, best'.count)
      invariant best'.count > 0 ==> minimumChange == best'.change
      invariant optimalHeight == best'.height as real
    {
      var change;
      itemsInRow, change := Measure(cfg, possibleItems, height, j, itemsInRow);

      // `|currentRow| == 0` stands in for comparing with
      // `CGFloat.greatestFiniteMagnitude`, the minimum's initial value.
      ghost var offered := Offer(best', height, j + 1, change);
      ScanCountsStep(dev, n, height, j, best', change);
      assert |currentRow| == best'.count;
      if (|currentRow| == 0 || Abs(change) < Abs(minimumChange)) || (|currentRow| == 1 && |itemsInRow| != 1) {
        if |itemsInRow| != 1 || |currentRow| == 0 {
          minimumChange := change;
          currentRow := itemsInRow;
          optimalHeight := height as real;
          best' := Best(|itemsInRow|, height, change);
        }
      }
      assert best' == offered;
    }
  }

  /** One item of the inner loop (lines 83-89): add the item at its trial
      width and measure the candidate's deviation. */
  method Measure(cfg: Config, possibleItems: seq<GridItem>, height: int, j: nat, itemsInRow: seq<GridItem>)
    returns (itemsInRow': seq<GridItem>, change: real)
    requires Positive(possibleItems) && j < |possibleItems|
    requires itemsInRow == TrialRow(possibleItems, height, j)
    ensures itemsInRow' == TrialRow(possibleItems, height, j + 1)
    ensures change == Dev(cfg, possibleItems)(height, j + 1)
  {
    var item := possibleItems[j];
    var newWidth := Round(Scaled(item, height)) as real;
    var newItem := item.(newWidth := newWidth);
    assert newItem == TrialItem(item, height);
    TrialRowGrows(possibleItems, height, j);
    itemsInRow' := itemsInRow + [newItem];

    var totalWidth := SumNewWidths(itemsInRow') + (|itemsInRow'| - 1) as real * cfg.gap;
    change := cfg.containerWidth - totalWidth;
    assert totalWidth == SumNewWidths(TrialRow(possibleItems, height, j + 1)) + ((j + 1) - 1) as real * cfg.gap;
    DevAt(cfg, possibleItems, height, j + 1, change);
  }

  /** The height search of lines 75-99. */
  method SearchRow(cfg: Config, possibleItems: seq<GridItem>)
    returns (currentRow: seq<GridItem>, optimalHeight: real, minimumChange: real)
    requires Positive(possibleItems) && ConfigRangeOk(cfg)
    ensures var b := ChosenCandidate(cfg, possibleItems);
      b.count <= |possibleItems| && currentRow == TrialRow(possibleItems, b.height, b.count)
      && optimalHeight == b.height as real && (b.count > 0 ==> minimumChange == b.change)
  {
    var n := |possibleItems|;
    var lo, hi := Trunc(cfg.minHeight), Trunc(cfg.maxHeight);
    minimumChange := 0.0;
    currentRow := [];
    optimalHeight := 0.0;
    ghost var dev := Dev(cfg, possibleItems);
    ghost var best := NoCandidate;
    for height := lo to hi + 1
      invariant ScanHeights(dev, n, height, hi, best) == Search(dev, n, lo, hi)
      invariant best.count <= n
      invariant currentRow == TrialRow(possibleItems, best.height, best.count)
      invariant best.count > 0 ==> minimumChange == best.change
      invariant optimalHeight == best.height as real
    {
      currentRow, optimalHeight, minimumChange, best :=
        TryHeight(cfg, possibleItems, height, best, currentRow, optimalHeight, minimumChange);
    }
  }

  /** Lines 102-105: every item takes its trial width plus `adj`, and the row height. */
  method FillRow(row: seq<GridItem>, adj: real, h: real) returns (currentRow: seq<GridItem>)
    ensures currentRow == Fill(row, adj, h)
  {
    currentRow := row;
    for i := 0 to |currentRow|
      invariant |currentRow| == |row|
      invariant forall m :: 0 <= m < i ==> currentRow[m] == FillItem(row[m], adj, h)
      invariant forall m :: i <= m < |row| ==> currentRow[m] == row[m]
    {
      currentRow := currentRow[i := currentRow[i].(width := currentRow[i].newWidth + adj)];
      currentRow := currentRow[i := currentRow[i].(height := h)];
    }
  }

  /** calculateOptimalRow (lines 74-108). */
  method CalculateOptimalRow(cfg: Config, possibleItems: seq<GridItem>) returns (currentRow: seq<GridItem>, optimalHeight: real)
    requires Positive(possibleItems) && ConfigRangeOk(cfg)
    ensures (currentRow, optimalHeight) == OptimalRow(cfg, possibleItems)
  {
    var minimumChange;
    currentRow, optimalHeight, minimumChange := SearchRow(cfg, possibleItems);
    ChosenShape(cfg, possibleItems);
    var adjustmentPerItem := if |currentRow| > 1 then minimumChange / (|currentRow| - 1) as real else 0.0;
    assert adjustmentPerItem == Adjustment(ChosenCandidate(cfg, possibleItems));
    currentRow := FillRow(currentRow, adjustmentPerItem, optimalHeight);
  }

  // ---------------------------------------------------------------------------
  // createRows (lines 35-72)

  /** `calculateOptimalRow` as a row builder for the shared cursor loop. */
  ghost function Builder(cfg: Config): RowBuilder {
    (w: seq<GridItem>) => if Positive(w) && ConfigRangeOk(cfg) then OptimalRow(cfg, w) else ([], 0.0)
  }

  /** What `createRows` returns. */
  ghost function Layout(cfg: Config, gifs: seq<Gif>): seq<RowLayout>
    requires CanLayout(cfg, AsTiles(gifs))
  {
    Place(RowsFrom(cfg, Builder(cfg), AsTiles(gifs), 0), cfg.gap)
  }

  /** The layout items of `gifs[a..b]` are the window of their tiles
      (lines 40-53). */
  lemma WindowOfGifs(cfg: Config, gifs: seq<Gif>, next: nat, w: seq<GridItem>)
    requires CanLayout(cfg, AsTiles(gifs)) && next <= |gifs|
    requires w == LayoutItems(AsTiles(gifs[next..WindowEnd(next, cfg.maxGifsPerRow, |gifs|)]))
    ensures w == Window(cfg, AsTiles(gifs), next)
  {
    var e := WindowEnd(next, cfg.maxGifsPerRow, |gifs|);
    assert AsTiles(gifs[next..e]) == AsTiles(gifs)[next..e];
  }

  lemma BuilderApply(cfg: Config, w: seq<GridItem>, r: (seq<GridItem>, real))
    requires Positive(w) && ConfigRangeOk(cfg) && r == OptimalRow(cfg, w)
    ensures Builder(cfg)(w) == r
  {
  }

  /** One turn of `createRows`' loop (lines 40-57). */
  method AppendRow(cfg: Config, items: seq<Gif>, nextItem: nat, rows: seq<RowLayout>)
    returns (rows': seq<RowLayout>, nextItem': nat)
    requires CanLayout(cfg, AsTiles(items)) && nextItem < |items|
    ensures nextItem < nextItem' <= |items|
    ensures Build(cfg, Builder(cfg), AsTiles(items), nextItem', rows') == Build(cfg, Builder(cfg), AsTiles(items), nextItem, rows)
  {
    var possibleItems := items[nextItem..WindowEnd(nextItem, cfg.maxGifsPerRow, |items|)];
    var possibleLayoutItems := LayoutItems(AsTiles(possibleItems));
    WindowOfGifs(cfg, items, nextItem, possibleLayoutItems);
    var rowItems, rowHeight := CalculateOptimalRow(cfg, possibleLayoutItems);
    ChosenShape(cfg, possibleLayoutItems);
    BuilderApply(cfg, possibleLayoutItems, (rowItems, rowHeight));
    rows' := rows + [RowLayout(rowItems, rowHeight)];
    nextItem' := nextItem + |rowItems|;
    BuildStep(cfg, Builder(cfg), AsTiles(items), nextItem, rows, possibleLayoutItems, (rowItems, rowHeight), nextItem', rows');
  }

  /** createRows (lines 35-72). */
  method CreateRows(cfg: Config, items: seq<Gif>) returns (rows: seq<RowLayout>)
    requires CanLayout(cfg, AsTiles(items))
    ensures rows == Layout(cfg, items)
  {
    ghost var build := Builder(cfg);
    ghost var tiles := AsTiles(items);
    rows := [];
    var nextItem := 0;
    while nextItem < |items|
      invariant nextItem <= |items|
      invariant Build(cfg, build, tiles, nextItem, rows) == Build(cfg, build, tiles, 0, [])
      decreases |items| - nextItem
    {
      rows, nextItem := AppendRow(cfg, items, nextItem, rows);
    }
    BuildIsRowsFrom(cfg, build, tiles, 0, []);
    assert rows == RowsFrom(cfg, build, tiles, 0);
    rows := AssignPositions(rows, cfg.gap);
  }

  // ---------------------------------------------------------------------------
  // What the calculator promises

  /** The search keeps the first least-deviation candidate of two or more
      items, or the lowest height for a lone item; the row is that many
      window items, each scaled and rounded to the chosen height. */
  lemma BestFit(cfg: Config, items: seq<GridItem>)
    requires Positive(items) && ConfigRangeOk(cfg)
    ensures var b := ChosenCandidate(cfg, items); var r := OptimalRow(cfg, items);
      && |r.0| == b.count
      && (|items| >= 2 ==> FirstMinimiser(Dev(cfg, items), |items|, Trunc(cfg.minHeight), Trunc(cfg.maxHeight), b))
      && (|items| == 1 ==> b.height == Trunc(cfg.minHeight) && b.count == 1)
      && (forall j :: 0 <= j < |r.0| ==>
            SameTile(r.0[j], items[j]) && r.0[j].newWidth == Round(Scaled(items[j], b.height)) as real)
  {
    SearchIsFirstMinimiser(Dev(cfg, items), |items|, Trunc(cfg.minHeight), Trunc(cfg.maxHeight));
  }

  /** Every item of the row has the row height, an integer of the configured
      range (lines 79, 95 and 104). */
  lemma RowHeights(cfg: Config, items: seq<GridItem>)
    requires Positive(items) && ConfigRangeOk(cfg) && |items| >= 1
    ensures var r := OptimalRow(cfg, items);
      && r.1 == ChosenCandidate(cfg, items).height as real
      && Trunc(cfg.minHeight) <= ChosenCandidate(cfg, items).height <= Trunc(cfg.maxHeight)
      && (forall j :: 0 <= j < |r.0| ==> r.0[j].height == r.1)
  {
    ChosenShape(cfg, items);
  }

  /** Each width is the trial width plus `minimumChange / (count - 1)` in a row
      of two or more, the bare trial width for a lone item (lines 101-103). */
  lemma RowWidths(cfg: Config, items: seq<GridItem>)
    requires Positive(items) && ConfigRangeOk(cfg)
    ensures var b := ChosenCandidate(cfg, items); var r := OptimalRow(cfg, items);
      && (b.count > 1 ==> forall j :: 0 <= j < |r.0| ==> r.0[j].width == r.0[j].newWidth + b.change / (b.count - 1) as real)
      && (b.count == 1 ==> r.0[0].width == r.0[0].newWidth)
  {
  }

  lemma {:induction false} WidthsFill(t: seq<GridItem>, adj: real, h: real, k: nat)
    requires k <= |t|
    ensures SumWidthsTo(Fill(t, adj, h), k) == SumNewTo(t, k) + Times(k, adj)
  {
    if k > 0 {
      WidthsFill(t, adj, h, k - 1);
      assert Fill(t, adj, h)[k - 1] == FillItem(t[k - 1], adj, h);
    }
  }

  /** `n` shares of `c / (n - 1)` are `c` plus one share. */
  lemma OneShareOver(n: nat, c: real)
    requires n >= 2
    ensures n as real * (c / (n - 1) as real) == c + c / (n - 1) as real
  {
    var q := c / (n - 1) as real;
    assert (n - 1) as real * q == c;
    assert n as real * q == (n - 1) as real * q + q;
  }

  /** The rendered row (widths plus gaps) is the container width plus one
      share `minimumChange / (n - 1)` when it has two or more items, so it
      fills the container exactly only when the best candidate fitted
      exactly; a lone item's row is its trial width (lines 88-89, 101-103). */
  lemma RenderedWidth(cfg: Config, items: seq<GridItem>)
    requires Positive(items) && ConfigRangeOk(cfg) && |items| >= 1
    ensures var b := ChosenCandidate(cfg, items); var r := OptimalRow(cfg, items);
      && (|r.0| >= 2 ==> RowWidth(r.0, cfg.gap) == cfg.containerWidth + b.change / (|r.0| - 1) as real)
      && (|r.0| >= 2 ==> (RowWidth(r.0, cfg.gap) == cfg.containerWidth <==> b.change == 0.0))
      && (|r.0| == 1 ==> RowWidth(r.0, cfg.gap) == cfg.containerWidth - b.change)
  {
    ChosenShape(cfg, items);
    var b := ChosenCandidate(cfg, items);
    var n := b.count;
    var trial := TrialRow(items, b.height, n);
    var adj := Adjustment(b);
    var r := OptimalRow(cfg, items);
    var sum := SumNewTo(trial, n);
    ChosenDeviation(cfg, items, b, trial);
    FilledRowWidth(trial, adj, b.height as real, cfg.gap);
    RowArith(sum, n, cfg.gap, cfg.containerWidth, b.change, adj, RowWidth(r.0, cfg.gap));
  }

  /** The chosen candidate's deviation, spelt out. */
  lemma ChosenDeviation(cfg: Config, items: seq<GridItem>, b: Best, trial: seq<GridItem>)
    requires Positive(items) && ConfigRangeOk(cfg) && |items| >= 1
    requires b == ChosenCandidate(cfg, items) && b.count <= |items| && trial == TrialRow(items, b.height, b.count)
    ensures b.change == cfg.containerWidth - (SumNewTo(trial, b.count) + (b.count - 1) as real * cfg.gap)
  {
    ChosenShape(cfg, items);
  }

  lemma FilledRowWidth(t: seq<GridItem>, adj: real, h: real, gap: real)
    ensures RowWidth(Fill(t, adj, h), gap) == SumNewTo(t, |t|) + Times(|t|, adj) + (|t| - 1) as real * gap
  {
    WidthsFill(t, adj, h, |t|);
  }

  /** The arithmetic of `RenderedWidth`: `n` trial widths summing to
      `sum`, each widened by one share of the deviation `change`. */
  lemma RowArith(sum: real, n: nat, gap: real, cw: real, change: real, adj: real, width: real)
    requires n >= 1 && change == cw - (sum + (n - 1) as real * gap)
    requires adj == if n > 1 then change / (n - 1) as real else 0.0
    requires width == sum + Times(n, adj) + (n - 1) as real * gap
    ensures n >= 2 ==> width == cw + change / (n - 1) as real
    ensures n >= 2 ==> (width == cw <==> change == 0.0)
    ensures n == 1 ==> width == cw - change
  {
    TimesIsProduct(n, adj);
    if n >= 2 {
      OneShareOver(n, change);
    }
  }

  /** `calculateOptimalRow` meets what the cursor loop relies on: the row is
      a non-empty prefix of the window, of two or more items when the window
      has two or more (lines 91-96). */
  lemma BuilderAdvances(cfg: Config)
    ensures Advances(cfg, Builder(cfg))
  {
    forall w: seq<GridItem> | Admissible(cfg, w) ensures AdvancesOn(cfg, Builder(cfg), w) {
      ChosenShape(cfg, w);
    }
  }

  /** The rows hold every gif once, in the order given (lines 39-57). */
  lemma LayoutCovers(cfg: Config, gifs: seq<Gif>)
    requires CanLayout(cfg, AsTiles(gifs))
    ensures ItemIds(Flatten(Layout(cfg, gifs))) == GifIds(gifs)
    ensures |Flatten(Layout(cfg, gifs))| == |gifs|
    ensures forall j :: 0 <= j < |gifs| ==> SameTile(Flatten(Layout(cfg, gifs))[j], LayoutItem(AsTile(gifs[j])))
  {
    var rows := RowsFrom(cfg, Builder(cfg), AsTiles(gifs), 0);
    RowsHoldGifs(cfg, gifs);
    PlaceKeepsTiles(rows, cfg.gap);
    PlacedCover(Flatten(rows), Flatten(Place(rows, cfg.gap)), gifs);
  }

  /** The rows before positions hold every gif once, in order. */
  lemma RowsHoldGifs(cfg: Config, gifs: seq<Gif>)
    requires CanLayout(cfg, AsTiles(gifs))
    ensures var flat := Flatten(RowsFrom(cfg, Builder(cfg), AsTiles(gifs), 0));
      |flat| == |gifs| && forall j :: 0 <= j < |gifs| ==> SameTile(flat[j], LayoutItem(AsTile(gifs[j])))
  {
    BuilderAdvances(cfg);
    BuiltRowsHoldGifs(cfg, Builder(cfg), gifs);
  }

  lemma BuiltRowsHoldGifs(cfg: Config, build: RowBuilder, gifs: seq<Gif>)
    requires CanLayout(cfg, AsTiles(gifs)) && Advances(cfg, build)
    ensures var flat := Flatten(RowsFrom(cfg, build, AsTiles(gifs), 0));
      |flat| == |gifs| && forall j :: 0 <= j < |gifs| ==> SameTile(flat[j], LayoutItem(AsTile(gifs[j])))
  {
    var tiles := AsTiles(gifs);
    var flat := Flatten(RowsFrom(cfg, build, tiles, 0));
    RowsCover(cfg, build, tiles, 0);
    forall j | 0 <= j < |gifs| ensures SameTile(flat[j], LayoutItem(AsTile(gifs[j]))) {
      assert tiles[0 + j] == AsTile(gifs[j]);
    }
  }

  lemma PlacedCover(flat: seq<GridItem>, placed: seq<GridItem>, gifs: seq<Gif>)
    requires |flat| == |gifs| && forall j :: 0 <= j < |gifs| ==> SameTile(flat[j], LayoutItem(AsTile(gifs[j])))
    requires |placed| == |flat|
    requires forall j :: 0 <= j < |flat| ==>
      placed[j] == flat[j].(xPosition := placed[j].xPosition, yPosition := placed[j].yPosition)
    ensures |placed| == |gifs| && ItemIds(placed) == GifIds(gifs)
    ensures forall j :: 0 <= j < |gifs| ==> SameTile(placed[j], LayoutItem(AsTile(gifs[j])))
  {
    assert forall j :: 0 <= j < |gifs| ==> SameTile(placed[j], flat[j]);
  }

  /** Rows hold one to `maxGifsPerRow` gifs; only the last row, or every row
      when rows are capped at one gif, holds a single gif (lines 40, 91-96). */
  lemma LayoutRowSizes(cfg: Config, gifs: seq<Gif>)
    requires CanLayout(cfg, AsTiles(gifs))
    ensures forall r :: 0 <= r < |Layout(cfg, gifs)| ==> 1 <= |Layout(cfg, gifs)[r].items| <= cfg.maxGifsPerRow
    ensures forall r :: 0 <= r < |Layout(cfg, gifs)| && |Layout(cfg, gifs)[r].items| == 1 ==>
      cfg.maxGifsPerRow == 1 || r == |Layout(cfg, gifs)| - 1
  {
    BuilderAdvances(cfg);
    RowSizes(cfg, Builder(cfg), AsTiles(gifs), 0);
  }

  /** Positions (lines 60-69): every row's first gif is at x 0, each later
      gif one width plus a gap right of its predecessor; all gifs of a row
      share its y, the first row is at y 0 and each row one height plus a
      gap below the row above. */
  lemma LayoutGeometry(cfg: Config, gifs: seq<Gif>)
    requires CanLayout(cfg, AsTiles(gifs))
    ensures forall r :: 0 <= r < |Layout(cfg, gifs)| ==>
      |Layout(cfg, gifs)[r].items| >= 1 && Layout(cfg, gifs)[r].items[0].xPosition == 0.0
    ensures forall r, i :: 0 <= r < |Layout(cfg, gifs)| && 0 <= i < |Layout(cfg, gifs)[r].items| - 1 ==>
      Layout(cfg, gifs)[r].items[i + 1].xPosition
        == Layout(cfg, gifs)[r].items[i].xPosition + Layout(cfg, gifs)[r].items[i].width + cfg.gap
    ensures forall r, i :: 0 <= r < |Layout(cfg, gifs)| && 0 <= i < |Layout(cfg, gifs)[r].items| ==>
      Layout(cfg, gifs)[r].items[i].yPosition == Layout(cfg, gifs)[r].items[0].yPosition
    ensures |Layout(cfg, gifs)| >= 1 ==> Layout(cfg, gifs)[0].items[0].yPosition == 0.0
    ensures forall r :: 0 <= r < |Layout(cfg, gifs)| - 1 ==>
      Layout(cfg, gifs)[r + 1].items[0].yPosition
        == Layout(cfg, gifs)[r].items[0].yPosition + Layout(cfg, gifs)[r].height + cfg.gap
  {
    LayoutRowSizes(cfg, gifs);
    var rows := RowsFrom(cfg, Builder(cfg), AsTiles(gifs), 0);
    PlacedSizes(rows, cfg.gap);
    PlacedColumns(rows, cfg.gap);
    PlacedRows(rows, cfg.gap);
  }
}
