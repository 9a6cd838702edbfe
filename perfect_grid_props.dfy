/**
 * What the ad-aware calculator of
 * App/MasonryLayout/RenderingPerfectGridAlgorithm/MasonryLayoutCalculator.swift
 * promises, stated about the functions `OptimalRow`, `AdPass` and `Layout`
 * that its methods are proved equal to.
 */
module PerfectGridProperties {
  import opened Numerics
  import opened Options
  import opened RowSearch
  import opened PerfectGridLayout

  // ---------------------------------------------------------------------------
  // Width sums under the row passes

  lemma {:induction false} WidthsFill(t: seq<GridItem>, adj: real, h: real, k: nat)
    requires k <= |t|
    ensures SumWidthsTo(Fill(t, adj, h), k) == SumNewTo(t, k) + Times(|NonAdsTo(t, k)|, adj)
  {
    if k > 0 {
      WidthsFill(t, adj, h, k - 1);
      assert Fill(t, adj, h)[k - 1] == FillItem(t[k - 1], adj, h);
    }
  }

  lemma {:induction false} WidthsUpdate(s: seq<GridItem>, i: nat, x: GridItem, k: nat)
    requires i < |s| && k <= |s|
    ensures SumWidthsTo(s[i := x], k) == SumWidthsTo(s, k) + (if i < k then x.width - s[i].width else 0.0)
  {
    if k > 0 {
      WidthsUpdate(s, i, x, k - 1);
    }
  }

  lemma {:induction false} WidthsMatch(s: seq<GridItem>, ai: nat, h: real, k: nat)
    requires k <= |s|
    ensures SumWidthsTo(MatchOthers(s, ai, h), k) == SumWidthsTo(s, k)
  {
    if k > 0 {
      WidthsMatch(s, ai, h, k - 1);
    }
  }

  lemma {:induction false} WidthsShrink(s: seq<GridItem>, m: real, d: real, k: nat)
    requires k <= |s|
    ensures SumWidthsTo(Shrink(s, m, d), k) == SumWidthsTo(s, k) - Times(AtMinCountTo(s, m, k), d)
  {
    if k > 0 {
      WidthsShrink(s, m, d, k - 1);
      assert Shrink(s, m, d)[k - 1] == ShrinkItem(s[k - 1], m, d);
    }
  }

  /** `c` copies of `x` added up, kept apart from real multiplication. */
  function Times(c: nat, x: real): real {
    if c == 0 then 0.0 else Times(c - 1, x) + x
  }

  lemma {:induction false} TimesIsProduct(c: nat, x: real)
    ensures Times(c, x) == c as real * x
  {
    if c > 0 {
      TimesIsProduct(c - 1, x);
      assert c as real * x == (c - 1) as real * x + x;
    }
  }

  /** `a` shares of `d / n` make up `d` exactly when `a == n`. */
  lemma SharesMakeWhole(a: nat, n: nat, d: real)
    requires n > 0 && d != 0.0
    ensures a as real * (d / n as real) == d <==> a == n
  {
    var q := d / n as real;
    assert n as real * q == d;
    if a as real * q == d {
      assert (a as real - n as real) * q == 0.0;
      assert q != 0.0;
    }
  }

  // ---------------------------------------------------------------------------
  // The ad shrink pass (lines 149-198)

  /** The pass leaves the row alone unless it shrinks; when it shrinks, the
      ad's new width lies between its floor and its old width, its
      height/width ratio is that of before, and the row and every item take
      the ad's new height. */
  lemma AdPassShape(cfg: Config, filled: seq<GridItem>, below: nat, ai: nat, m: real, pct: int, optH: real,
                    r: (seq<GridItem>, real))
    requires ai < |filled| && filled[ai].kind == Ad && filled[ai].width > 0.0
    requires r == AdPass(cfg, filled, below, ai, m, pct, optH)
    ensures r.0[ai].kind == Ad
    ensures !ShrinkRuns(cfg, filled, below, m) ==> r.0[ai] == filled[ai] && r.1 == optH
    ensures !ShrinkRuns(cfg, filled, below, m) ==> forall j :: 0 <= j < |r.0| ==> r.0[j].height == filled[j].height
    ensures ShrinkRuns(cfg, filled, below, m) ==>
      && AdFloor(filled[ai].width, pct) <= r.0[ai].width
      && (pct >= 0 ==> r.0[ai].width <= filled[ai].width)
      && r.0[ai].height * filled[ai].width == filled[ai].height * r.0[ai].width
      && r.1 == r.0[ai].height
      && (forall j :: 0 <= j < |r.0| ==> r.0[j].height == r.1)
  {
    var clamped := Clamp(filled, m);
    assert clamped[ai] == filled[ai];
    if ShrinkRuns(cfg, filled, below, m) {
      var w := filled[ai].width;
      var floor := AdFloor(w, pct);
      var proposed := w - (RowWidth(clamped, cfg.gap) - cfg.containerWidth);
      var resized := if proposed < floor then floor else proposed;
      assert r.0[ai].width == resized;
      assert r.0[ai].height == filled[ai].height * (resized / w);
      assert (resized / w) * w == resized;
      if pct >= 0 {
        assert floor <= w;
      }
    }
  }

  /** Width of the row the shrink pass leaves: exactly the container width
      when the ad alone absorbs the overflow; otherwise the container width
      plus the part of the excess `d` not taken off the `AtMin` items at the
      minimum width, each of which gives up `d / below`.  The row fits
      exactly in that case precisely when every counted item sits at the
      minimum. */
  lemma AdPassWidth(cfg: Config, filled: seq<GridItem>, below: nat, ai: nat, m: real, pct: int, optH: real,
                    r: (seq<GridItem>, real), clamped: seq<GridItem>, floor: real, proposed: real)
    requires ai < |filled| && filled[ai].kind == Ad && filled[ai].width > 0.0
    requires r == AdPass(cfg, filled, below, ai, m, pct, optH) && ShrinkRuns(cfg, filled, below, m)
    requires clamped == Clamp(filled, m) && floor == AdFloor(filled[ai].width, pct)
    requires proposed == filled[ai].width - (RowWidth(clamped, cfg.gap) - cfg.containerWidth)
    ensures proposed >= floor ==> RowWidth(r.0, cfg.gap) == cfg.containerWidth
    ensures proposed < floor ==>
      RowWidth(r.0, cfg.gap) == cfg.containerWidth + (floor - proposed)
        - AtMinCountTo(clamped, m, |clamped|) as real * ((floor - proposed) / below as real)
    ensures proposed < floor ==>
      (RowWidth(r.0, cfg.gap) == cfg.containerWidth <==> AtMinCountTo(clamped, m, |clamped|) == below)
  {
    assert clamped[ai] == filled[ai];
    var d := (floor - proposed) / below as real;
    var spread := if proposed < floor then Shrink(clamped, m, d) else clamped;
    var resized := if proposed < floor then floor else proposed;
    var newAd := clamped[ai].(height := clamped[ai].height * (resized / clamped[ai].width), width := resized, newWidth := resized);
    AdPassRow(cfg, filled, below, ai, m, pct, optH, r, clamped, spread, newAd);
    ShrunkRowWidth(cfg, clamped, ai, m, below, floor, proposed, spread, newAd, r.0);
  }

  /** The width arithmetic behind `AdPassWidth`. */
  lemma ShrunkRowWidth(cfg: Config, clamped: seq<GridItem>, ai: nat, m: real, below: nat, floor: real, proposed: real,
                       spread: seq<GridItem>, newAd: GridItem, row: seq<GridItem>)
    requires ai < |clamped| && clamped[ai].kind == Ad && below > 0
    requires proposed == clamped[ai].width - (RowWidth(clamped, cfg.gap) - cfg.containerWidth)
    requires spread == (if proposed < floor then Shrink(clamped, m, (floor - proposed) / below as real) else clamped)
    requires newAd.width == (if proposed < floor then floor else proposed)
    requires row == MatchOthers(spread[ai := newAd], ai, newAd.height)
    ensures proposed >= floor ==> RowWidth(row, cfg.gap) == cfg.containerWidth
    ensures proposed < floor ==>
      RowWidth(row, cfg.gap) == cfg.containerWidth + (floor - proposed)
        - AtMinCountTo(clamped, m, |clamped|) as real * ((floor - proposed) / below as real)
    ensures proposed < floor ==>
      (RowWidth(row, cfg.gap) == cfg.containerWidth <==> AtMinCountTo(clamped, m, |clamped|) == below)
  {
    ReplacedAdWidth(cfg.gap, spread, ai, newAd, row);
    if proposed < floor {
      FallbackWidth(cfg, clamped, ai, m, below, floor, proposed, spread, newAd, row);
    }
  }

  lemma FallbackWidth(cfg: Config, clamped: seq<GridItem>, ai: nat, m: real, below: nat, floor: real, proposed: real,
                      spread: seq<GridItem>, newAd: GridItem, row: seq<GridItem>)
    requires ai < |clamped| && clamped[ai].kind == Ad && below > 0 && proposed < floor
    requires proposed == clamped[ai].width - (RowWidth(clamped, cfg.gap) - cfg.containerWidth)
    requires spread == Shrink(clamped, m, (floor - proposed) / below as real) && newAd.width == floor
    requires RowWidth(row, cfg.gap) == RowWidth(spread, cfg.gap) + newAd.width - spread[ai].width
    ensures RowWidth(row, cfg.gap) == cfg.containerWidth + (floor - proposed)
        - AtMinCountTo(clamped, m, |clamped|) as real * ((floor - proposed) / below as real)
    ensures RowWidth(row, cfg.gap) == cfg.containerWidth <==> AtMinCountTo(clamped, m, |clamped|) == below
  {
    var n := |clamped|;
    var a := AtMinCountTo(clamped, m, n);
    var d := (floor - proposed) / below as real;
    assert spread[ai].width == clamped[ai].width;
    WidthsShrink(clamped, m, d, n);
    assert RowWidth(spread, cfg.gap) == RowWidth(clamped, cfg.gap) - Times(a, d);
    ShareArith(RowWidth(row, cfg.gap), cfg.containerWidth, floor - proposed, a, below);
  }

  /** Putting the resized ad in place and matching heights changes the row's
      width by the ad's change of width. */
  lemma ReplacedAdWidth(gap: real, spread: seq<GridItem>, ai: nat, newAd: GridItem, row: seq<GridItem>)
    requires ai < |spread| && row == MatchOthers(spread[ai := newAd], ai, newAd.height)
    ensures RowWidth(row, gap) == RowWidth(spread, gap) + newAd.width - spread[ai].width
  {
    WidthsMatch(spread[ai := newAd], ai, newAd.height, |spread|);
    WidthsUpdate(spread, ai, newAd, |spread|);
  }

  lemma ShareArith(x: real, cw: real, e: real, a: nat, below: nat)
    requires below > 0 && e > 0.0
    requires x == cw + e - Times(a, e / below as real)
    ensures x == cw + e - a as real * (e / below as real)
    ensures x == cw <==> a == below
  {
    TimesIsProduct(a, e / below as real);
    SharesMakeWhole(a, below, e);
  }

  /** The row the shrink branch builds, in terms of its parts. */
  lemma AdPassRow(cfg: Config, filled: seq<GridItem>, below: nat, ai: nat, m: real, pct: int, optH: real,
                  r: (seq<GridItem>, real), clamped: seq<GridItem>, spread: seq<GridItem>, newAd: GridItem)
    requires ai < |filled| && filled[ai].kind == Ad && filled[ai].width > 0.0
    requires r == AdPass(cfg, filled, below, ai, m, pct, optH) && ShrinkRuns(cfg, filled, below, m)
    requires clamped == Clamp(filled, m)
    requires var floor := AdFloor(clamped[ai].width, pct);
      var proposed := clamped[ai].width - (RowWidth(clamped, cfg.gap) - cfg.containerWidth);
      && spread == (if proposed < floor then Shrink(clamped, m, (floor - proposed) / below as real) else clamped)
      && newAd == clamped[ai].(height := clamped[ai].height * ((if proposed < floor then floor else proposed) / clamped[ai].width),
                               width := if proposed < floor then floor else proposed,
                               newWidth := if proposed < floor then floor else proposed)
    ensures r.0 == MatchOthers(spread[ai := newAd], ai, newAd.height)
  {
    var ad := clamped[ai];
    assert ad == filled[ai];
    var newRowWidth := RowWidth(clamped, cfg.gap);
    assert !(newRowWidth <= cfg.containerWidth);
    var minAdWidth := AdFloor(ad.width, pct);
    var proposed := ad.width - (newRowWidth - cfg.containerWidth);
    var sp := if proposed < minAdWidth then Shrink(clamped, m, (minAdWidth - proposed) / below as real) else clamped;
    assert sp == spread;
    var resized := if proposed < minAdWidth then minAdWidth else proposed;
    var na := ad.(height := ad.height * (resized / ad.width), width := resized, newWidth := resized);
    assert na == newAd;
    assert below != 0;
    assert AdPass(cfg, filled, below, ai, m, pct, optH).1 == na.height;
    assert AdPass(cfg, filled, below, ai, m, pct, optH).0 == MatchOthers(sp[ai := na], ai, na.height);
  }

  lemma AdPassKeepsTiles(cfg: Config, filled: seq<GridItem>, below: nat, ai: nat, m: real, pct: int, optH: real,
                         r: (seq<GridItem>, real))
    requires ai < |filled| && filled[ai].kind == Ad && filled[ai].width != 0.0
    requires r == AdPass(cfg, filled, below, ai, m, pct, optH)
    ensures forall j :: 0 <= j < |filled| ==> SameTile(r.0[j], filled[j])
    ensures forall j :: 0 <= j < |filled| && filled[j].kind == NonAd ==> r.0[j].newWidth == filled[j].newWidth
    ensures forall j :: 0 <= j < |filled| && j != ai && filled[j].kind == Ad ==>
      r.0[j] == filled[j].(height := r.0[j].height)
  {
  }

  // ---------------------------------------------------------------------------
  // The row calculation (lines 85-201)

  /** The reconciled row is the trial row, item for item: the same tiles
      with their trial widths, every one at the chosen height; ads keep their
      own width. */
  lemma ReconciledItems(cfg: Config, items: seq<GridItem>, j: nat)
    requires Positive(items) && RangeOk(cfg, items) && j < |Reconciled(cfg, items)|
    ensures SameTile(Reconciled(cfg, items)[j], items[j])
    ensures Reconciled(cfg, items)[j].height == ChosenCandidate(cfg, items).height as real
    ensures Reconciled(cfg, items)[j].newWidth == TrialWidth(items[j], ChosenCandidate(cfg, items).height)
    ensures items[j].kind == Ad ==> Reconciled(cfg, items)[j].width == items[j].width
  {
  }

  /** With at least one non-ad item in the row, spreading the leftover makes
      the row exactly as wide as the container (lines 136-147). */
  lemma ReconciledFits(cfg: Config, items: seq<GridItem>)
    requires Positive(items) && RangeOk(cfg, items) && |NonAds(Trial(cfg, items))| >= 1
    ensures RowWidth(Reconciled(cfg, items), cfg.gap) == cfg.containerWidth
  {
    ChosenShape(cfg, items);
    var b := ChosenCandidate(cfg, items);
    var t := Trial(cfg, items);
    assert t == TrialRow(items, b.height, b.count);
    DevIsLeftover(cfg, items, b.height, b.count, b.change, t);
    FillFits(t, b.change, b.height as real, cfg.gap, cfg.containerWidth);
  }

  /** A candidate's deviation is what its trial row `t` leaves of the container. */
  lemma DevIsLeftover(cfg: Config, items: seq<GridItem>, h: int, k: nat, change: real, t: seq<GridItem>)
    requires Positive(items) && k <= |items| && change == Dev(cfg, items)(h, k) && t == TrialRow(items, h, k)
    ensures change == cfg.containerWidth - (SumNewWidths(t) + (|t| - 1) as real * cfg.gap)
  {
  }

  /** Spreading a row's deviation `change` over its `c >= 1` non-ad items
      closes the gap exactly. */
  lemma FillFits(t: seq<GridItem>, change: real, h: real, gap: real, cw: real)
    requires |NonAds(t)| >= 1 && change == cw - (SumNewWidths(t) + (|t| - 1) as real * gap)
    ensures RowWidth(Fill(t, Spread(change, |NonAds(t)|), h), gap) == cw
  {
    var c := |NonAds(t)|;
    var adj := Spread(change, c);
    var f := Fill(t, adj, h);
    WidthsFill(t, adj, h, |t|);
    SpreadTimes(change, c);
    assert SumWidthsTo(f, |f|) == SumNewWidths(t) + change;
  }

  /** The `c` shares of `change` add up to `change`. */
  lemma SpreadTimes(change: real, c: nat)
    requires c >= 1
    ensures Times(c, Spread(change, c)) == change
  {
    TimesIsProduct(c, Spread(change, c));
  }

  /** The row is a prefix of the window: the same tiles, in order. */
  lemma {:induction false} OptimalRowKeepsTiles(cfg: Config, items: seq<GridItem>, minW: int, pct: int)
    requires Positive(items) && RangeOk(cfg, items)
    ensures forall j :: 0 <= j < |OptimalRow(cfg, items, minW, pct).0| ==> SameTile(OptimalRow(cfg, items, minW, pct).0[j], items[j])
    decreases |items|
  {
    var r := OptimalRow(cfg, items, minW, pct);
    if DeepAd(items) {
      OptimalRowKeepsTiles(cfg, items[..2], minW, pct);
    } else {
      forall j | 0 <= j < |Reconciled(cfg, items)| ensures SameTile(Reconciled(cfg, items)[j], items[j]) {
        ReconciledItems(cfg, items, j);
      }
      if AdInRow(cfg, items) {
        AdInsideRow(items, Trial(cfg, items));
        ReconciledItems(cfg, items, FirstAd(items).value);
        AdPassKeepsTiles(cfg, Reconciled(cfg, items), NarrowCount(cfg, items, minW), FirstAd(items).value, minW as real, pct,
                         ChosenCandidate(cfg, items).height as real, r);
      }
    }
  }

  /** An ad at position 2 or later: the row is the one calculated for the
      first two items alone, which are both non-ads (lines 94-98). */
  lemma DeepAdRow(cfg: Config, items: seq<GridItem>, minW: int, pct: int)
    requires Positive(items) && RangeOk(cfg, items) && DeepAd(items)
    ensures OptimalRow(cfg, items, minW, pct) == OptimalRow(cfg, items[..2], minW, pct)
    ensures |OptimalRow(cfg, items, minW, pct).0| == 2
    ensures forall j :: 0 <= j < 2 ==> OptimalRow(cfg, items, minW, pct).0[j].kind == NonAd
  {
    OptimalRowKeepsTiles(cfg, items[..2], minW, pct);
  }

  /** Unless the first ad sits at position 2 or later, the row has as many
      items as the chosen candidate: the first one, in the order heights
      ascending then counts ascending, of two or more items whose deviation
      from the container width is least; a lone item is taken at the lowest
      height.  Non-ad items keep their trial width at the chosen height
      (lines 104-134). */
  lemma BestFit(cfg: Config, items: seq<GridItem>, minW: int, pct: int)
    requires Positive(items) && RangeOk(cfg, items) && !DeepAd(items)
    ensures |OptimalRow(cfg, items, minW, pct).0| == ChosenCandidate(cfg, items).count
    ensures |items| >= 2 ==>
      FirstMinimiser(Dev(cfg, items), |items|, HeightRange(cfg, items).0, HeightRange(cfg, items).1, ChosenCandidate(cfg, items))
    ensures |items| == 1 ==>
      ChosenCandidate(cfg, items) == Best(1, HeightRange(cfg, items).0, Dev(cfg, items)(HeightRange(cfg, items).0, 1))
    ensures forall j :: 0 <= j < |OptimalRow(cfg, items, minW, pct).0| && items[j].kind == NonAd ==>
      OptimalRow(cfg, items, minW, pct).0[j].newWidth == Round(Scaled(items[j], ChosenCandidate(cfg, items).height)) as real
  {
    var r := OptimalRow(cfg, items, minW, pct);
    SearchIsFirstMinimiser(Dev(cfg, items), |items|, HeightRange(cfg, items).0, HeightRange(cfg, items).1);
    forall j | 0 <= j < |Reconciled(cfg, items)|
      ensures Reconciled(cfg, items)[j].kind == items[j].kind
      ensures items[j].kind == NonAd ==> Reconciled(cfg, items)[j].newWidth == Round(Scaled(items[j], ChosenCandidate(cfg, items).height)) as real
    {
      ReconciledItems(cfg, items, j);
    }
    if AdInRow(cfg, items) {
      AdInsideRow(items, Trial(cfg, items));
      ReconciledItems(cfg, items, FirstAd(items).value);
      AdPassKeepsTiles(cfg, Reconciled(cfg, items), NarrowCount(cfg, items, minW), FirstAd(items).value, minW as real, pct,
                       ChosenCandidate(cfg, items).height as real, r);
    }
  }

  /** The heights tried: only `Int(ad.height)` when the first ad is at
      position 0 or 1, the configured integer range otherwise (lines 99-106). */
  lemma ChosenHeight(cfg: Config, items: seq<GridItem>)
    requires Positive(items) && RangeOk(cfg, items) && |items| >= 1
    ensures FirstAd(items).Some? && FirstAd(items).value <= 1 ==>
      ChosenCandidate(cfg, items).height == Trunc(items[FirstAd(items).value].height)
    ensures !(FirstAd(items).Some? && FirstAd(items).value <= 1) ==>
      Trunc(cfg.minHeight) <= ChosenCandidate(cfg, items).height <= Trunc(cfg.maxHeight)
  {
    ChosenShape(cfg, items);
  }

  /** A row without an ad, or one whose non-ad items all started at least
      `minW` wide, is the reconciled row: with a non-ad item in it, it fills
      the container exactly, and every item has the row's height, the chosen
      integer height (lines 136-151). */
  lemma ExactFill(cfg: Config, items: seq<GridItem>, minW: int, pct: int)
    requires Positive(items) && RangeOk(cfg, items) && !DeepAd(items)
    requires !AdInRow(cfg, items) || NarrowCount(cfg, items, minW) == 0
    ensures OptimalRow(cfg, items, minW, pct).0 == Reconciled(cfg, items)
    ensures OptimalRow(cfg, items, minW, pct).1 == ChosenCandidate(cfg, items).height as real
    ensures |NonAds(Trial(cfg, items))| >= 1 ==> RowWidth(OptimalRow(cfg, items, minW, pct).0, cfg.gap) == cfg.containerWidth
    ensures forall j :: 0 <= j < |OptimalRow(cfg, items, minW, pct).0| ==>
      OptimalRow(cfg, items, minW, pct).0[j].height == OptimalRow(cfg, items, minW, pct).1
  {
    if AdInRow(cfg, items) {
      AdInsideRow(items, Trial(cfg, items));
      ReconciledItems(cfg, items, FirstAd(items).value);
    }
    if |NonAds(Trial(cfg, items))| >= 1 {
      ReconciledFits(cfg, items);
    }
    forall j | 0 <= j < |Reconciled(cfg, items)|
      ensures Reconciled(cfg, items)[j].height == ChosenCandidate(cfg, items).height as real
    {
      ReconciledItems(cfg, items, j);
    }
  }

  /** A window without ads gives an exactly filling row of one height. */
  lemma AdFreeRowFills(cfg: Config, items: seq<GridItem>, minW: int, pct: int)
    requires Positive(items) && RangeOk(cfg, items) && |items| >= 1 && FirstAd(items).None?
    ensures RowWidth(OptimalRow(cfg, items, minW, pct).0, cfg.gap) == cfg.containerWidth
    ensures forall j :: 0 <= j < |OptimalRow(cfg, items, minW, pct).0| ==>
      OptimalRow(cfg, items, minW, pct).0[j].height == OptimalRow(cfg, items, minW, pct).1
    ensures Trunc(cfg.minHeight) <= Trunc(OptimalRow(cfg, items, minW, pct).1) <= Trunc(cfg.maxHeight)
  {
    ChosenHeight(cfg, items);
    var t := Trial(cfg, items);
    NonAdsAll(t, |t|);
    ExactFill(cfg, items, minW, pct);
  }

  lemma {:induction false} NonAdsAll(t: seq<GridItem>, k: nat)
    requires k <= |t| && forall j :: 0 <= j < |t| ==> t[j].kind == NonAd
    ensures |NonAdsTo(t, k)| == k
  {
    if k > 0 {
      NonAdsAll(t, k - 1);
    }
  }

  /** A row holding an ad (at position 0 or 1): the ad is never narrower than
      its floor nor wider than it came in, its height/width ratio is that of
      its width at the row's integer height, and the row and every item share
      the ad's height (lines 151-198). */
  lemma AdRowShape(cfg: Config, items: seq<GridItem>, minW: int, pct: int)
    requires Positive(items) && RangeOk(cfg, items) && !DeepAd(items) && AdInRow(cfg, items)
    ensures FirstAd(items).value <= 1 && FirstAd(items).value < |OptimalRow(cfg, items, minW, pct).0|
    ensures OptimalRow(cfg, items, minW, pct).0[FirstAd(items).value].kind == Ad
    ensures pct >= 0 ==>
      && AdFloor(items[FirstAd(items).value].width, pct) <= OptimalRow(cfg, items, minW, pct).0[FirstAd(items).value].width
      && OptimalRow(cfg, items, minW, pct).0[FirstAd(items).value].width <= items[FirstAd(items).value].width
    ensures KeepsAspect(OptimalRow(cfg, items, minW, pct).0[FirstAd(items).value],
                        items[FirstAd(items).value].width, Trunc(items[FirstAd(items).value].height) as real)
    ensures OptimalRow(cfg, items, minW, pct).1 == OptimalRow(cfg, items, minW, pct).0[FirstAd(items).value].height
    ensures forall j :: 0 <= j < |OptimalRow(cfg, items, minW, pct).0| ==>
      OptimalRow(cfg, items, minW, pct).0[j].height == OptimalRow(cfg, items, minW, pct).1
  {
    var r := OptimalRow(cfg, items, minW, pct);
    var ai := FirstAd(items).value;
    var filled := Reconciled(cfg, items);
    var h := ChosenCandidate(cfg, items).height as real;
    AdInsideRow(items, Trial(cfg, items));
    ChosenHeight(cfg, items);
    ReconciledItems(cfg, items, ai);
    forall j | 0 <= j < |filled| ensures filled[j].height == h {
      ReconciledItems(cfg, items, j);
    }
    AdPassOutcome(cfg, filled, NarrowCount(cfg, items, minW), ai, minW as real, pct, h, r);
  }

  /** `t` has the height/width ratio of a `w` by `h` box. */
  predicate KeepsAspect(t: GridItem, w: real, h: real) {
    t.height * w == h * t.width
  }

  /** `AdRowShape` for the ad pass on a row whose items all have height `h`. */
  lemma AdPassOutcome(cfg: Config, filled: seq<GridItem>, below: nat, ai: nat, m: real, pct: int, h: real,
                      r: (seq<GridItem>, real))
    requires ai < |filled| && filled[ai].kind == Ad && filled[ai].width > 0.0
    requires forall j :: 0 <= j < |filled| ==> filled[j].height == h
    requires r == AdPass(cfg, filled, below, ai, m, pct, h)
    ensures r.0[ai].kind == Ad
    ensures pct >= 0 ==> AdFloor(filled[ai].width, pct) <= r.0[ai].width <= filled[ai].width
    ensures KeepsAspect(r.0[ai], filled[ai].width, h)
    ensures r.1 == r.0[ai].height
    ensures forall j :: 0 <= j < |r.0| ==> r.0[j].height == r.1
  {
    AdPassShape(cfg, filled, below, ai, m, pct, h, r);
    if !ShrinkRuns(cfg, filled, below, m) && pct >= 0 {
      assert AdFloor(filled[ai].width, pct) <= filled[ai].width;
    }
  }

  // ---------------------------------------------------------------------------
  // The rows (lines 207-237)

  /** What the cursor loop relies on: on every window it can be handed, the
      row is a non-empty prefix of the window, of two items or more when the
      window has two or more. */
  ghost predicate Advances(cfg: Config, build: RowBuilder) {
    forall w: seq<GridItem> {:trigger AdvancesOn(cfg, build, w)} :: Admissible(cfg, w) ==> AdvancesOn(cfg, build, w)
  }

  /** `build` meets what the cursor loop relies on at window `w`. */
  ghost predicate AdvancesOn(cfg: Config, build: RowBuilder, w: seq<GridItem>) {
    Fits(w, build(w))
  }

  /** A window `createRows` can hand over. */
  ghost predicate Admissible(cfg: Config, w: seq<GridItem>) {
    Positive(w) && RangeOk(cfg, w) && ConfigRangeOk(cfg) && |w| >= 1
  }

  /** `r` is a non-empty prefix of `w`, of two items or more when `w` has two
      or more. */
  predicate Fits(w: seq<GridItem>, r: (seq<GridItem>, real)) {
    && 1 <= |r.0| <= |w|
    && (|w| >= 2 ==> 2 <= |r.0|)
    && (forall j :: 0 <= j < |r.0| ==> SameTile(r.0[j], w[j]))
  }

  /** `calculateOptimalRow` meets what the cursor loop relies on. */
  lemma CalculatorAdvances(cfg: Config, meta: GridMeta)
    ensures Advances(cfg, Calculator(cfg, meta))
  {
    forall w: seq<GridItem> | Admissible(cfg, w) ensures AdvancesOn(cfg, Calculator(cfg, meta), w) {
      OptimalRowKeepsTiles(cfg, w, meta.adMaxResizePercent, meta.itemMinWidth);
    }
  }

  /** The rows' items one after the other. */
  function Flatten(rows: seq<RowLayout>): (s: seq<GridItem>)
  {
    if rows == [] then [] else rows[0].items + Flatten(rows[1..])
  }

  function ItemIds(s: seq<GridItem>): (ids: seq<int>)
    ensures |ids| == |s| && forall j :: 0 <= j < |s| ==> ids[j] == s[j].id
  {
    seq(|s|, j requires 0 <= j < |s| => s[j].id)
  }

  function TileIds(ts: seq<Tile>): (ids: seq<int>)
    ensures |ids| == |ts| && forall j :: 0 <= j < |ts| ==> ids[j] == ts[j].id
  {
    seq(|ts|, j requires 0 <= j < |ts| => ts[j].id)
  }

  /** `flat` holds the tiles from `next` on, each once and in order. */
  ghost predicate CoversFrom(flat: seq<GridItem>, items: seq<Tile>, next: nat)
    requires next <= |items|
  {
    |flat| == |items| - next && forall j :: 0 <= j < |flat| ==> SameTile(flat[j], LayoutItem(items[next + j]))
  }

  /** The rows from cursor `next` on hold the remaining tiles, each once and
      in order. */
  lemma {:induction false} RowsCover(cfg: Config, build: RowBuilder, items: seq<Tile>, next: nat)
    requires CanLayout(cfg, items) && Advances(cfg, build) && next <= |items|
    ensures CoversFrom(Flatten(RowsFrom(cfg, build, items, next)), items, next)
    decreases |items| - next
  {
    if next < |items| {
      var w := Window(cfg, items, next);
      var first := build(w).0;
      RowsFromStep(cfg, build, items, next, w, first);
      RowsCover(cfg, build, items, next + |first|);
      CoverStep(Flatten(RowsFrom(cfg, build, items, next)), first, w,
                Flatten(RowsFrom(cfg, build, items, next + |first|)), items, next);
    }
  }

  /** One row of the cursor loop: the rows from `next` flatten to the first
      row's items followed by the rows after it. */
  lemma RowsFromStep(cfg: Config, build: RowBuilder, items: seq<Tile>, next: nat, w: seq<GridItem>, first: seq<GridItem>)
    requires CanLayout(cfg, items) && Advances(cfg, build) && next < |items|
    requires w == Window(cfg, items, next) && first == build(w).0
    ensures 1 <= |first| && PrefixTiles(first, w) && TilesAt(w, items, next)
    ensures Flatten(RowsFrom(cfg, build, items, next)) == first + Flatten(RowsFrom(cfg, build, items, next + |first|))
  {
    var r := build(w);
    AdvancesAt(cfg, build, w);
    var rest := RowsFrom(cfg, build, items, next + |r.0|);
    assert RowsFrom(cfg, build, items, next) == [RowLayout(r.0, r.1)] + rest;
    FlattenCons(RowLayout(r.0, r.1), rest);
  }

  lemma FlattenCons(row: RowLayout, rest: seq<RowLayout>)
    ensures Flatten([row] + rest) == row.items + Flatten(rest)
  {
    assert ([row] + rest)[1..] == rest;
  }

  /** `Advances` at one window. */
  lemma AdvancesAt(cfg: Config, build: RowBuilder, w: seq<GridItem>)
    requires Advances(cfg, build) && Positive(w) && RangeOk(cfg, w) && ConfigRangeOk(cfg) && |w| >= 1
    ensures 1 <= |build(w).0| <= |w| && (|w| >= 2 ==> 2 <= |build(w).0|)
    ensures forall j :: 0 <= j < |build(w).0| ==> SameTile(build(w).0[j], w[j])
  {
    assert Admissible(cfg, w);
    assert AdvancesOn(cfg, build, w);
  }

  /** `first` is the start of `w`, up to sizes and positions. */
  predicate PrefixTiles(first: seq<GridItem>, w: seq<GridItem>) {
    |first| <= |w| && forall j :: 0 <= j < |first| ==> SameTile(first[j], w[j])
  }

  lemma CoverStep(flat: seq<GridItem>, first: seq<GridItem>, w: seq<GridItem>, rest: seq<GridItem>, items: seq<Tile>, next: nat)
    requires flat == first + rest
    requires PrefixTiles(first, w) && TilesAt(w, items, next)
    requires CoversFrom(rest, items, next + |first|)
    ensures CoversFrom(flat, items, next)
  {
    forall j | 0 <= j < |items| - next ensures SameTile((first + rest)[j], LayoutItem(items[next + j])) {
      if j < |first| {
        assert (first + rest)[j] == first[j];
      } else {
        assert (first + rest)[j] == rest[j - |first|];
        assert next + j == next + |first| + (j - |first|);
      }
    }
  }

  /** Every row has between one and `maxGifsPerRow` items, and a row of one
      item is the last row unless rows are capped at one item. */
  lemma {:induction false} RowSizes(cfg: Config, build: RowBuilder, items: seq<Tile>, next: nat)
    requires CanLayout(cfg, items) && Advances(cfg, build) && next <= |items|
    ensures forall r :: 0 <= r < |RowsFrom(cfg, build, items, next)| ==>
      1 <= |RowsFrom(cfg, build, items, next)[r].items| <= cfg.maxGifsPerRow
    ensures forall r :: 0 <= r < |RowsFrom(cfg, build, items, next)| && |RowsFrom(cfg, build, items, next)[r].items| == 1 ==>
      cfg.maxGifsPerRow == 1 || r == |RowsFrom(cfg, build, items, next)| - 1
    decreases |items| - next
  {
    if next < |items| {
      var w := Window(cfg, items, next);
      var r := build(w);
      AdvancesAt(cfg, build, w);
      var k := |r.0|;
      var rows := RowsFrom(cfg, build, items, next);
      var rest := RowsFrom(cfg, build, items, next + k);
      RowSizes(cfg, build, items, next + k);
      assert rows == [RowLayout(r.0, r.1)] + rest;
      if k == 1 && cfg.maxGifsPerRow != 1 {
        assert next + 1 == |items|;
        assert rest == [];
      }
    }
  }

  /** `createRows` returns every tile once, in the order given
      (lines 211-236). */
  lemma LayoutCovers(cfg: Config, items: seq<Tile>, meta: GridMeta)
    requires CanLayout(cfg, items)
    ensures ItemIds(Flatten(Layout(cfg, items, meta))) == TileIds(items)
    ensures |Flatten(Layout(cfg, items, meta))| == |items|
    ensures forall j :: 0 <= j < |items| ==> SameTile(Flatten(Layout(cfg, items, meta))[j], LayoutItem(items[j]))
  {
    CalculatorAdvances(cfg, meta);
    PlacedRowsCover(cfg, Calculator(cfg, meta), items);
  }

  /** The placed rows of any builder that advances hold every tile once, in order. */
  lemma PlacedRowsCover(cfg: Config, build: RowBuilder, items: seq<Tile>)
    requires CanLayout(cfg, items) && Advances(cfg, build)
    ensures var flat := Flatten(Place(RowsFrom(cfg, build, items, 0), cfg.gap));
      && ItemIds(flat) == TileIds(items) && |flat| == |items|
      && forall j :: 0 <= j < |items| ==> SameTile(flat[j], LayoutItem(items[j]))
  {
    var rows := RowsFrom(cfg, build, items, 0);
    RowsCover(cfg, build, items, 0);
    PlaceKeepsTiles(rows, cfg.gap);
  }

  /** `createRows`' rows hold one to `maxGifsPerRow` tiles; only the last
      row, or every row when rows are capped at one tile, holds a single
      tile (lines 126-131 and 213). */
  lemma LayoutRowSizes(cfg: Config, items: seq<Tile>, meta: GridMeta)
    requires CanLayout(cfg, items)
    ensures forall r :: 0 <= r < |Layout(cfg, items, meta)| ==>
      1 <= |Layout(cfg, items, meta)[r].items| <= cfg.maxGifsPerRow
    ensures forall r :: 0 <= r < |Layout(cfg, items, meta)| && |Layout(cfg, items, meta)[r].items| == 1 ==>
      cfg.maxGifsPerRow == 1 || r == |Layout(cfg, items, meta)| - 1
  {
    CalculatorAdvances(cfg, meta);
    RowSizes(cfg, Calculator(cfg, meta), items, 0);
  }

  /** The position pass changes nothing but positions. */
  lemma {:induction false} PlaceKeepsTiles(rows: seq<RowLayout>, gap: real)
    ensures |Flatten(Place(rows, gap))| == |Flatten(rows)|
    ensures forall j :: 0 <= j < |Flatten(rows)| ==>
      Flatten(Place(rows, gap))[j] == Flatten(rows)[j].(xPosition := Flatten(Place(rows, gap))[j].xPosition,
                                                        yPosition := Flatten(Place(rows, gap))[j].yPosition)
  {
    SamePlaced(Place(rows, gap), rows);
  }

  /** Rows alike up to positions flatten alike up to positions. */
  lemma {:induction false} SamePlaced(a: seq<RowLayout>, b: seq<RowLayout>)
    requires |a| == |b| && forall r :: 0 <= r < |a| ==> |a[r].items| == |b[r].items|
    requires forall r, j :: 0 <= r < |a| && 0 <= j < |a[r].items| ==>
      a[r].items[j] == b[r].items[j].(xPosition := a[r].items[j].xPosition, yPosition := a[r].items[j].yPosition)
    ensures |Flatten(a)| == |Flatten(b)|
    ensures forall j :: 0 <= j < |Flatten(b)| ==>
      Flatten(a)[j] == Flatten(b)[j].(xPosition := Flatten(a)[j].xPosition, yPosition := Flatten(a)[j].yPosition)
  {
    if a != [] {
      SamePlaced(a[1..], b[1..]);
    }
  }

  // ---------------------------------------------------------------------------
  // Where the position pass puts things (lines 239-249)

  /** An item's x is the widths before it plus one gap per item before it. */
  lemma {:induction false} XOffsetIsSum(s: seq<GridItem>, i: nat, gap: real)
    requires i <= |s|
    ensures XOffset(s, i, gap) == SumWidthsTo(s, i) + Times(i, gap)
  {
    if i > 0 {
      XOffsetIsSum(s, i - 1, gap);
    }
  }

  /** The right edge of a row's last item is the row's rendered width. */
  lemma RowRightEdge(s: seq<GridItem>, gap: real)
    requires |s| >= 1
    ensures XOffset(s, |s| - 1, gap) + s[|s| - 1].width == RowWidth(s, gap)
  {
    var n := |s| - 1;
    XOffsetIsSum(s, n, gap);
    TimesIsProduct(n, gap);
    assert SumWidthsTo(s, |s|) == SumWidthsTo(s, n) + s[n].width;
    assert RowWidth(s, gap) == SumWidthsTo(s, |s|) + n as real * gap;
  }

  /** With a non-negative gap and widths, an item ends, gap included, no
      later than any item after it begins. */
  lemma {:induction false} XOffsetsApart(s: seq<GridItem>, i: nat, j: nat, gap: real)
    requires gap >= 0.0 && forall k :: 0 <= k < |s| ==> s[k].width >= 0.0
    requires i < j <= |s|
    ensures XOffset(s, i, gap) + s[i].width + gap <= XOffset(s, j, gap)
    decreases j
  {
    if i < j - 1 {
      XOffsetsApart(s, i, j - 1, gap);
    }
  }

  /** With a non-negative gap and heights, a row ends, gap included, no later
      than any row below it begins. */
  lemma {:induction false} YOffsetsApart(rows: seq<RowLayout>, r: nat, q: nat, gap: real)
    requires gap >= 0.0 && forall k :: 0 <= k < |rows| ==> rows[k].height >= 0.0
    requires r < q <= |rows|
    ensures YOffset(rows, r, gap) + rows[r].height + gap <= YOffset(rows, q, gap)
    decreases q
  {
    if r < q - 1 {
      YOffsetsApart(rows, r, q - 1, gap);
    }
  }

  /** Placed rows keep their items' sizes and the rows' heights. */
  lemma PlacedSizes(rows: seq<RowLayout>, gap: real)
    ensures forall r :: 0 <= r < |rows| ==>
      |Place(rows, gap)[r].items| == |rows[r].items| && Place(rows, gap)[r].height == rows[r].height
    ensures forall r, i :: 0 <= r < |rows| && 0 <= i < |rows[r].items| ==>
      && Place(rows, gap)[r].items[i].width == rows[r].items[i].width
      && Place(rows, gap)[r].items[i].height == rows[r].items[i].height
  {
    forall r | 0 <= r < |rows| {
      PlacedRow(rows[r].items, YOffset(rows, r, gap), gap);
    }
  }

  /** Each placed row starts at x 0; each item sits its predecessor's width
      plus a gap to the right of it, and the last one ends at the row's
      rendered width. */
  lemma PlacedColumns(rows: seq<RowLayout>, gap: real)
    ensures forall r :: 0 <= r < |rows| && |rows[r].items| >= 1 ==> Place(rows, gap)[r].items[0].xPosition == 0.0
    ensures forall r, i :: 0 <= r < |rows| && 0 <= i < |rows[r].items| - 1 ==>
      Place(rows, gap)[r].items[i + 1].xPosition
        == Place(rows, gap)[r].items[i].xPosition + Place(rows, gap)[r].items[i].width + gap
    ensures forall r :: 0 <= r < |rows| && |rows[r].items| >= 1 ==>
      var s := rows[r].items;
      Place(rows, gap)[r].items[|s| - 1].xPosition + s[|s| - 1].width == RowWidth(s, gap)
  {
    forall r | 0 <= r < |rows|
      ensures var s := rows[r].items; var p := Place(rows, gap)[r].items;
        && (|s| >= 1 ==> p[0].xPosition == 0.0)
        && (forall i :: 0 <= i < |s| - 1 ==> p[i + 1].xPosition == p[i].xPosition + p[i].width + gap)
        && (|s| >= 1 ==> p[|s| - 1].xPosition + s[|s| - 1].width == RowWidth(s, gap))
    {
      PlacedRow(rows[r].items, YOffset(rows, r, gap), gap);
      if |rows[r].items| >= 1 {
        RowRightEdge(rows[r].items, gap);
      }
    }
  }

  /** Every item of a placed row has the row's y; the first row is at y 0
      and each row starts its height plus a gap below the one above. */
  lemma PlacedRows(rows: seq<RowLayout>, gap: real)
    ensures forall r, i :: 0 <= r < |rows| && 0 <= i < |rows[r].items| ==>
      Place(rows, gap)[r].items[i].yPosition == YOffset(rows, r, gap)
    ensures |rows| >= 1 ==> YOffset(rows, 0, gap) == 0.0
    ensures forall r :: 0 <= r < |rows| - 1 ==> YOffset(rows, r + 1, gap) == YOffset(rows, r, gap) + rows[r].height + gap
  {
    forall r | 0 <= r < |rows| {
      PlacedRow(rows[r].items, YOffset(rows, r, gap), gap);
    }
  }

  lemma PlacedRow(s: seq<GridItem>, y: real, gap: real)
    ensures var p := PlaceItems(s, y, gap);
      && (forall i :: 0 <= i < |s| ==> p[i].width == s[i].width && p[i].height == s[i].height)
      && (forall i :: 0 <= i < |s| ==> p[i].xPosition == XOffset(s, i, gap) && p[i].yPosition == y)
      && (forall i :: 0 <= i < |s| - 1 ==> p[i + 1].xPosition == p[i].xPosition + p[i].width + gap)
  {
    var p := PlaceItems(s, y, gap);
    forall i | 0 <= i < |s| - 1 ensures p[i + 1].xPosition == p[i].xPosition + p[i].width + gap {
      assert p[i + 1].xPosition == XOffset(s, i + 1, gap);
      assert p[i].xPosition == XOffset(s, i, gap);
    }
  }

  /** Positions in `createRows`' result (lines 239-249), in terms of the
      result alone: every row's first tile is at x 0, each later tile one
      width plus a gap right of its predecessor; all tiles of a row share its
      y, the first row is at y 0 and each row one height plus a gap below the
      row above. */
  lemma LayoutGeometry(cfg: Config, items: seq<Tile>, meta: GridMeta)
    requires CanLayout(cfg, items)
    ensures forall r :: 0 <= r < |Layout(cfg, items, meta)| ==>
      |Layout(cfg, items, meta)[r].items| >= 1 && Layout(cfg, items, meta)[r].items[0].xPosition == 0.0
    ensures forall r, i :: 0 <= r < |Layout(cfg, items, meta)| && 0 <= i < |Layout(cfg, items, meta)[r].items| - 1 ==>
      Layout(cfg, items, meta)[r].items[i + 1].xPosition
        == Layout(cfg, items, meta)[r].items[i].xPosition + Layout(cfg, items, meta)[r].items[i].width + cfg.gap
    ensures forall r, i :: 0 <= r < |Layout(cfg, items, meta)| && 0 <= i < |Layout(cfg, items, meta)[r].items| ==>
      Layout(cfg, items, meta)[r].items[i].yPosition == Layout(cfg, items, meta)[r].items[0].yPosition
    ensures |Layout(cfg, items, meta)| >= 1 ==> Layout(cfg, items, meta)[0].items[0].yPosition == 0.0
    ensures forall r :: 0 <= r < |Layout(cfg, items, meta)| - 1 ==>
      Layout(cfg, items, meta)[r + 1].items[0].yPosition
        == Layout(cfg, items, meta)[r].items[0].yPosition + Layout(cfg, items, meta)[r].height + cfg.gap
  {
    LayoutRowSizes(cfg, items, meta);
    var rows := RowsFrom(cfg, Calculator(cfg, meta), items, 0);
    PlacedSizes(rows, cfg.gap);
    PlacedColumns(rows, cfg.gap);
    PlacedRows(rows, cfg.gap);
  }

  /** With a non-negative gap, widths and heights, no two placed items
      overlap: items of one row are apart horizontally, and every item of a
      row is above every item of a later row. */
  lemma PlaceNoOverlap(rows: seq<RowLayout>, gap: real)
    requires gap >= 0.0
    requires forall r :: 0 <= r < |rows| ==> rows[r].height >= 0.0
    requires forall r, i :: 0 <= r < |rows| && 0 <= i < |rows[r].items| ==> rows[r].items[i].width >= 0.0
    ensures forall r, i, j :: 0 <= r < |rows| && 0 <= i < j < |rows[r].items| ==>
      Place(rows, gap)[r].items[i].xPosition + rows[r].items[i].width + gap <= Place(rows, gap)[r].items[j].xPosition
    ensures forall r, q, i, j :: 0 <= r < q < |rows| && 0 <= i < |rows[r].items| && 0 <= j < |rows[q].items| ==>
      Place(rows, gap)[r].items[i].yPosition + rows[r].height + gap <= Place(rows, gap)[q].items[j].yPosition
  {
    forall r, i, j | 0 <= r < |rows| && 0 <= i < j < |rows[r].items|
      ensures Place(rows, gap)[r].items[i].xPosition + rows[r].items[i].width + gap <= Place(rows, gap)[r].items[j].xPosition
    {
      XOffsetsApart(rows[r].items, i, j, gap);
    }
    forall r, q | 0 <= r < q < |rows|
      ensures YOffset(rows, r, gap) + rows[r].height + gap <= YOffset(rows, q, gap)
    {
      YOffsetsApart(rows, r, q, gap);
    }
  }

  // ---------------------------------------------------------------------------
  // Every tile has its row's height, so tiles do not overlap

  /** Every item of the row has the row's height. */
  predicate Level(r: (seq<GridItem>, real)) {
    forall j :: 0 <= j < |r.0| ==> r.0[j].height == r.1
  }

  /** Whatever the window, every item of the calculated row has the row's
      height (lines 146, 190-195 and 200). */
  lemma {:induction false} RowHeightsUniform(cfg: Config, items: seq<GridItem>, minW: int, pct: int)
    requires Positive(items) && RangeOk(cfg, items)
    ensures Level(OptimalRow(cfg, items, minW, pct))
    decreases |items|
  {
    if DeepAd(items) {
      RowHeightsUniform(cfg, items[..2], minW, pct);
    } else if AdInRow(cfg, items) {
      AdRowShape(cfg, items, minW, pct);
    } else {
      ExactFill(cfg, items, minW, pct);
    }
  }

  /** `build` gives level rows on every window `createRows` can hand it. */
  ghost predicate LevelBuilder(cfg: Config, build: RowBuilder) {
    forall w: seq<GridItem> {:trigger build(w)} :: Admissible(cfg, w) ==> Level(build(w))
  }

  lemma CalculatorLevel(cfg: Config, meta: GridMeta)
    ensures LevelBuilder(cfg, Calculator(cfg, meta))
  {
    forall w: seq<GridItem> | Admissible(cfg, w) ensures Level(Calculator(cfg, meta)(w)) {
      RowHeightsUniform(cfg, w, meta.adMaxResizePercent, meta.itemMinWidth);
    }
  }

  /** Rows of a level builder have every item at the row's height. */
  lemma {:induction false} RowsLevel(cfg: Config, build: RowBuilder, items: seq<Tile>, next: nat)
    requires CanLayout(cfg, items) && LevelBuilder(cfg, build) && next <= |items|
    ensures forall r, i :: 0 <= r < |RowsFrom(cfg, build, items, next)| && 0 <= i < |RowsFrom(cfg, build, items, next)[r].items| ==>
      RowsFrom(cfg, build, items, next)[r].items[i].height == RowsFrom(cfg, build, items, next)[r].height
    decreases |items| - next
  {
    if next < |items| {
      var w := Window(cfg, items, next);
      assert Admissible(cfg, w);
      var r := build(w);
      RowsLevel(cfg, build, items, next + Consumed(w, r));
      assert RowsFrom(cfg, build, items, next) == [RowLayout(r.0, r.1)] + RowsFrom(cfg, build, items, next + Consumed(w, r));
    }
  }

  /** In `createRows`' result every tile is exactly as tall as its row. */
  lemma LayoutTileHeights(cfg: Config, items: seq<Tile>, meta: GridMeta)
    requires CanLayout(cfg, items)
    ensures forall r, i :: 0 <= r < |Layout(cfg, items, meta)| && 0 <= i < |Layout(cfg, items, meta)[r].items| ==>
      Layout(cfg, items, meta)[r].items[i].height == Layout(cfg, items, meta)[r].height
  {
    var rows := RowsFrom(cfg, Calculator(cfg, meta), items, 0);
    CalculatorLevel(cfg, meta);
    RowsLevel(cfg, Calculator(cfg, meta), items, 0);
    PlacedSizes(rows, cfg.gap);
  }

  /** The rectangles of two placed items share no interior point. */
  predicate Apart(a: GridItem, b: GridItem) {
    || a.xPosition + a.width <= b.xPosition || b.xPosition + b.width <= a.xPosition
    || a.yPosition + a.height <= b.yPosition || b.yPosition + b.height <= a.yPosition
  }

  /** Two tiles of one placed row are apart horizontally. */
  lemma SameRowApart(rows: seq<RowLayout>, gap: real, r: nat, i: nat, j: nat)
    requires gap >= 0.0 && r < |rows| && i < |rows[r].items| && j < |rows[r].items| && i != j
    requires forall k :: 0 <= k < |rows[r].items| ==> rows[r].items[k].width >= 0.0
    ensures Apart(Place(rows, gap)[r].items[i], Place(rows, gap)[r].items[j])
  {
    PlacedRow(rows[r].items, YOffset(rows, r, gap), gap);
    if i < j {
      XOffsetsApart(rows[r].items, i, j, gap);
    } else {
      XOffsetsApart(rows[r].items, j, i, gap);
    }
  }

  /** A tile as tall as its row lies wholly above every tile of a later row. */
  lemma LaterRowApart(rows: seq<RowLayout>, gap: real, r: nat, i: nat, q: nat, j: nat)
    requires gap >= 0.0 && r < q < |rows| && i < |rows[r].items| && j < |rows[q].items|
    requires forall k :: 0 <= k < |rows| ==> rows[k].height >= 0.0
    requires rows[r].items[i].height == rows[r].height
    ensures Apart(Place(rows, gap)[r].items[i], Place(rows, gap)[q].items[j])
  {
    PlacedRow(rows[r].items, YOffset(rows, r, gap), gap);
    PlacedRow(rows[q].items, YOffset(rows, q, gap), gap);
    YOffsetsApart(rows, r, q, gap);
  }

  /** Placing rows whose tiles are as tall as their rows and have no negative
      size leaves no two tiles overlapping. */
  lemma PlaceApart(rows: seq<RowLayout>, gap: real)
    requires gap >= 0.0
    requires forall r :: 0 <= r < |rows| ==> rows[r].height >= 0.0
    requires forall r, i :: 0 <= r < |rows| && 0 <= i < |rows[r].items| ==>
      rows[r].items[i].width >= 0.0 && rows[r].items[i].height == rows[r].height
    ensures forall r, i, q, j ::
      0 <= r < |rows| && 0 <= i < |rows[r].items| && 0 <= q < |rows| && 0 <= j < |rows[q].items| && (r != q || i != j) ==>
      Apart(Place(rows, gap)[r].items[i], Place(rows, gap)[q].items[j])
  {
    forall r, i, q, j | 0 <= r < |rows| && 0 <= i < |rows[r].items| &&
        0 <= q < |rows| && 0 <= j < |rows[q].items| && (r != q || i != j)
      ensures Apart(Place(rows, gap)[r].items[i], Place(rows, gap)[q].items[j])
    {
      if r == q {
        SameRowApart(rows, gap, r, i, j);
      } else if r < q {
        LaterRowApart(rows, gap, r, i, q, j);
      } else {
        LaterRowApart(rows, gap, q, j, r, i);
      }
    }
  }

  /** With a non-negative gap and no tile of negative size, no two tiles of
      `createRows`' result overlap (lines 239-249).  The size premise is about
      the result: the fill of lines 140-147 can make a tile's width negative
      (`NegativeWidth`). */
  lemma LayoutNoOverlap(cfg: Config, items: seq<Tile>, meta: GridMeta)
    requires CanLayout(cfg, items) && cfg.gap >= 0.0
    requires forall r, i :: 0 <= r < |Layout(cfg, items, meta)| && 0 <= i < |Layout(cfg, items, meta)[r].items| ==>
      Layout(cfg, items, meta)[r].items[i].width >= 0.0 && Layout(cfg, items, meta)[r].items[i].height >= 0.0
    ensures forall r, i, q, j ::
      0 <= r < |Layout(cfg, items, meta)| && 0 <= i < |Layout(cfg, items, meta)[r].items| &&
      0 <= q < |Layout(cfg, items, meta)| && 0 <= j < |Layout(cfg, items, meta)[q].items| && (r != q || i != j) ==>
      Apart(Layout(cfg, items, meta)[r].items[i], Layout(cfg, items, meta)[q].items[j])
  {
    var rows := RowsFrom(cfg, Calculator(cfg, meta), items, 0);
    var placed := Layout(cfg, items, meta);
    assert placed == Place(rows, cfg.gap);
    LayoutTileHeights(cfg, items, meta);
    LayoutRowSizes(cfg, items, meta);
    PlacedSizes(rows, cfg.gap);
    forall k | 0 <= k < |rows| ensures rows[k].height >= 0.0 {
      assert placed[k].items[0].height == placed[k].height == rows[k].height;
    }
    PlaceApart(rows, cfg.gap);
  }

  // ---------------------------------------------------------------------------
  // Two rows the source produces

  /** Lines 190-194 as written: a row holding two ads at the fixed height 100,
      whose first ad the pass shrinks to 56, keeps the second ad 100 tall in a
      row of height 56, so that ad reaches into the next row.  The corrected
      pass gives it the row's height. */
  lemma SecondAdOverhangs()
    ensures var cfg := Config(206.0, 0.0, 50.0, 100.0, 100.0, 4);
      var ad := GridItem(1, Ad, 100.0, 100.0, 0.0, 0.0, 100.0, 100.0, 100.0);
      var gif := GridItem(3, NonAd, 6.0, 100.0, 0.0, 0.0, 5.0, 100.0, 5.0);
      var filled := [ad, ad.(id := 2), gif];
      && AdPassAsWritten(cfg, filled, 1, 0, 50.0, 50, 100.0).1 == 56.0
      && AdPassAsWritten(cfg, filled, 1, 0, 50.0, 50, 100.0).0[1].height == 100.0
      && !Level(AdPassAsWritten(cfg, filled, 1, 0, 50.0, 50, 100.0))
      && AdPass(cfg, filled, 1, 0, 50.0, 50, 100.0).0[1].height == 56.0
  {
    var cfg := Config(206.0, 0.0, 50.0, 100.0, 100.0, 4);
    var ad := GridItem(1, Ad, 100.0, 100.0, 0.0, 0.0, 100.0, 100.0, 100.0);
    var gif := GridItem(3, NonAd, 6.0, 100.0, 0.0, 0.0, 5.0, 100.0, 5.0);
    var filled := [ad, ad.(id := 2), gif];
    var clamped := Clamp(filled, 50.0);
    assert clamped == [ad, ad.(id := 2), gif.(width := 50.0)];
    assert SumWidthsTo(clamped, 1) == 100.0;
    assert SumWidthsTo(clamped, 2) == 200.0;
    assert SumWidthsTo(clamped, 3) == 250.0;
  }

  /** The row of `SecondAdOverhangs` is one the calculation reaches: the
      window [ad, ad, gif 5 x 100] at the ad's height 100 picks all
      three items (deviation 1 beats 6 and 106), and its gif started under the
      minimum width 50, so the shrink pass runs on exactly that row. */
  lemma SecondAdReached()
    ensures var cfg := Config(206.0, 0.0, 50.0, 100.0, 100.0, 4);
      var items := LayoutItems([Tile(1, Ad, 100.0, 100.0), Tile(2, Ad, 100.0, 100.0), Tile(3, NonAd, 5.0, 100.0)]);
      && Positive(items) && RangeOk(cfg, items) && !DeepAd(items) && AdInRow(cfg, items)
      && Reconciled(cfg, items) == [GridItem(1, Ad, 100.0, 100.0, 0.0, 0.0, 100.0, 100.0, 100.0),
                                    GridItem(2, Ad, 100.0, 100.0, 0.0, 0.0, 100.0, 100.0, 100.0),
                                    GridItem(3, NonAd, 6.0, 100.0, 0.0, 0.0, 5.0, 100.0, 5.0)]
      && NarrowCount(cfg, items, 50) == 1 && FirstAd(items) == Some(0)
  {
    var cfg := Config(206.0, 0.0, 50.0, 100.0, 100.0, 4);
    var items := LayoutItems([Tile(1, Ad, 100.0, 100.0), Tile(2, Ad, 100.0, 100.0), Tile(3, NonAd, 5.0, 100.0)]);
    assert FirstAd(items) == Some(0);
    assert HeightRange(cfg, items) == (100, 100);
    var dev := Dev(cfg, items);
    assert Round(Scaled(items[2], 100)) == 5;
    var t1 := TrialRow(items, 100, 1);
    var t2 := TrialRow(items, 100, 2);
    var t3 := TrialRow(items, 100, 3);
    assert t3[0].newWidth == 100.0 && t3[1].newWidth == 100.0 && t3[2].newWidth == 5.0;
    assert t2[0] == t3[0] && t2[1] == t3[1] && t1[0] == t3[0];
    assert SumNewTo(t1, 1) == 100.0;
    assert SumNewTo(t2, 1) == 100.0;
    assert SumNewTo(t2, 2) == 200.0;
    assert SumNewTo(t3, 1) == 100.0;
    assert SumNewTo(t3, 2) == 200.0;
    assert SumNewTo(t3, 3) == 205.0;
    assert dev(100, 1) == 106.0 && dev(100, 2) == 6.0 && dev(100, 3) == 1.0;
    var b1 := Offer(NoCandidate, 100, 1, 106.0);
    assert b1 == Best(1, 100, 106.0);
    var b2 := Offer(b1, 100, 2, 6.0);
    assert b2 == Best(2, 100, 6.0);
    var b3 := Offer(b2, 100, 3, 1.0);
    assert b3 == Best(3, 100, 1.0);
    assert ScanCounts(dev, 3, 100, 0, NoCandidate) == b3;
    assert ChosenCandidate(cfg, items) == b3;
    assert NonAds(t3) == [t3[2]];
  }

  /** The fill of lines 140-147 can give a tile a negative width: a window of
      a 1 x 100 and a 1000 x 100 gif must form one row of two (lines 126-131),
      whose deviation -701 is split evenly, leaving the narrow gif -349.5 wide. */
  lemma NegativeWidth()
    ensures var cfg := Config(300.0, 0.0, 50.0, 100.0, 100.0, 2);
      var items := LayoutItems([Tile(1, NonAd, 1.0, 100.0), Tile(2, NonAd, 1000.0, 100.0)]);
      && Positive(items) && RangeOk(cfg, items)
      && OptimalRow(cfg, items, 50, 50).0[0].width == -349.5
  {
    var cfg := Config(300.0, 0.0, 50.0, 100.0, 100.0, 2);
    var items := LayoutItems([Tile(1, NonAd, 1.0, 100.0), Tile(2, NonAd, 1000.0, 100.0)]);
    assert FirstAd(items) == None;
    assert HeightRange(cfg, items) == (100, 100);
    var dev := Dev(cfg, items);
    assert Round(Scaled(items[0], 100)) == 1;
    assert Round(Scaled(items[1], 100)) == 1000;
    var t1 := TrialRow(items, 100, 1);
    var t2 := TrialRow(items, 100, 2);
    assert t2[0].newWidth == 1.0 && t2[1].newWidth == 1000.0 && t1[0] == t2[0];
    assert SumNewTo(t1, 1) == 1.0;
    assert SumNewTo(t2, 1) == 1.0;
    assert SumNewTo(t2, 2) == 1001.0;
    assert dev(100, 1) == 299.0 && dev(100, 2) == -701.0;
    var b1 := Offer(NoCandidate, 100, 1, 299.0);
    assert b1 == Best(1, 100, 299.0);
    var b2 := Offer(b1, 100, 2, -701.0);
    assert b2 == Best(2, 100, -701.0);
    assert ScanCounts(dev, 2, 100, 0, NoCandidate) == b2;
    assert ChosenCandidate(cfg, items) == b2;
    assert NonAds(t2) == t2;
    assert !AdInRow(cfg, items);
  }
}
