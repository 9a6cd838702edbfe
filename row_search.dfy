/**
 * The row-height search shared by both masonry calculators: every integer
 * height of a range is tried, and at each height the first 1, 2, ... items
 * of the window are offered as candidate rows.  A candidate is kept when its
 * deviation from the container width beats the kept one, with the special
 * rule about one-item rows.  The scan is written as a left fold over the
 * candidates in scan order; `SearchIsFirstMinimiser` proves that it picks the
 * first candidate of two or more items with the least absolute deviation.
 */
module RowSearch {
  import opened Numerics

  /** The kept candidate: `count` items at `height`, with deviation `change`
      (container width minus row width).  `count == 0`: nothing kept yet. */
  datatype Best = Best(count: nat, height: int, change: real)

  const NoCandidate := Best(0, 0, 0.0)

  /** The acceptance test of the height search.  While nothing is kept the
      running minimum is `CGFloat.greatestFiniteMagnitude`, so the first
      candidate always wins the comparison. */
  predicate Accept(best: Best, change: real, k: nat) {
    && (best.count == 0 || Abs(change) < Abs(best.change) || (best.count == 1 && k != 1))
    && (k != 1 || best.count == 0)
  }

  /** Offer the candidate of `k` items at height `h`. */
  function Offer(best: Best, h: int, k: nat, change: real): Best {
    if Accept(best, change, k) then Best(k, h, change) else best
  }

  /** Offer the candidates of `k + 1`, ..., `n` items at height `h`. */
  function ScanCounts(dev: (int, nat) -> real, n: nat, h: int, k: nat, acc: Best): Best
    requires k <= n
    decreases n - k
  {
    if k == n then acc else ScanCounts(dev, n, h, k + 1, Offer(acc, h, k + 1, dev(h, k + 1)))
  }

  /** One step of the count scan, for callers that hold `dev` abstractly. */
  lemma ScanCountsStep(dev: (int, nat) -> real, n: nat, h: int, k: nat, acc: Best, change: real)
    requires k < n && change == dev(h, k + 1)
    ensures ScanCounts(dev, n, h, k, acc) == ScanCounts(dev, n, h, k + 1, Offer(acc, h, k + 1, change))
  {
  }

  /** Offer every candidate at heights `h`, ..., `hi`. */
  function ScanHeights(dev: (int, nat) -> real, n: nat, h: int, hi: int, acc: Best): Best
    decreases hi - h + 1
  {
    if h > hi then acc else ScanHeights(dev, n, h + 1, hi, ScanCounts(dev, n, h, 0, acc))
  }

  /** The whole search over heights `lo..hi` and counts `1..n`. */
  function Search(dev: (int, nat) -> real, n: nat, lo: int, hi: int): Best {
    ScanHeights(dev, n, lo, hi, NoCandidate)
  }

  /** `(h', k')` comes strictly before `(h, k)` in scan order (heights
      ascending, then counts ascending). */
  predicate Before(h': int, k': nat, h: int, k: nat) {
    h' < h || (h' == h && k' < k)
  }

  /** Candidate `(h', k')` has been offered once the scan has offered `(h, k)`. */
  predicate Scanned(n: nat, lo: int, h': int, k': nat, h: int, k: nat) {
    lo <= h' && 1 <= k' <= n && (h' < h || (h' == h && k' <= k))
  }

  /** `b` is the first candidate of at least two items, in scan order, whose
      absolute deviation is the least over heights `lo..hi` and counts `2..n`. */
  ghost predicate FirstMinimiser(dev: (int, nat) -> real, n: nat, lo: int, hi: int, b: Best) {
    && lo <= b.height <= hi && 2 <= b.count <= n && b.change == dev(b.height, b.count)
    && (forall h, k :: lo <= h <= hi && 2 <= k <= n ==> Abs(b.change) <= Abs(dev(h, k)))
    && (forall h, k :: lo <= h <= hi && 2 <= k <= n && Before(h, k, b.height, b.count) ==>
          Abs(b.change) < Abs(dev(h, k)))
  }

  /** What the kept candidate is once the scan has offered `(h, k)`. */
  ghost predicate ScanInv(dev: (int, nat) -> real, n: nat, lo: int, h: int, k: nat, acc: Best) {
    var any := n >= 1 && (h > lo || k >= 1);
    var multi := n >= 2 && (h > lo || k >= 2);
    && (!any ==> acc.count == 0)
    && (any && !multi ==> acc == Best(1, lo, dev(lo, 1)))
    && (multi ==>
         && 2 <= acc.count <= n && Scanned(n, lo, acc.height, acc.count, h, k)
         && acc.change == dev(acc.height, acc.count)
         && (forall h', k' :: Scanned(n, lo, h', k', h, k) && 2 <= k' ==>
               Abs(acc.change) <= Abs(dev(h', k')))
         && (forall h', k' :: Scanned(n, lo, h', k', h, k) && 2 <= k' && Before(h', k', acc.height, acc.count) ==>
               Abs(acc.change) < Abs(dev(h', k'))))
  }

  lemma OfferKeepsInv(dev: (int, nat) -> real, n: nat, lo: int, h: int, k: nat, acc: Best)
    requires lo <= h && k < n
    requires h == lo || k >= 1 || n == 1 || acc.count >= 2
    requires ScanInv(dev, n, lo, h, k, acc)
    ensures ScanInv(dev, n, lo, h, k + 1, Offer(acc, h, k + 1, dev(h, k + 1)))
  {
    var multi := n >= 2 && (h > lo || k >= 2);
    if !multi && k + 1 >= 2 {
      OfferFirstPair(dev, n, lo, h, k, acc);
    } else if multi && k + 1 >= 2 {
      if Abs(dev(h, k + 1)) < Abs(acc.change) {
        OfferBetter(dev, n, lo, h, k, acc);
      } else {
        OfferNoBetter(dev, n, lo, h, k, acc);
      }
    }
  }

  /** The first candidate of two items, `(lo, 2)`, is kept. */
  lemma OfferFirstPair(dev: (int, nat) -> real, n: nat, lo: int, h: int, k: nat, acc: Best)
    requires lo <= h && k < n && !(n >= 2 && (h > lo || k >= 2)) && k + 1 >= 2
    requires h == lo || k >= 1 || n == 1 || acc.count >= 2
    requires ScanInv(dev, n, lo, h, k, acc)
    ensures ScanInv(dev, n, lo, h, k + 1, Offer(acc, h, k + 1, dev(h, k + 1)))
  {
    assert h == lo && k == 1;
    assert Offer(acc, h, k + 1, dev(h, k + 1)) == Best(2, h, dev(h, k + 1));
  }

  /** A strictly smaller deviation replaces the kept candidate. */
  lemma OfferBetter(dev: (int, nat) -> real, n: nat, lo: int, h: int, k: nat, acc: Best)
    requires lo <= h && k < n && n >= 2 && (h > lo || k >= 2) && k + 1 >= 2
    requires ScanInv(dev, n, lo, h, k, acc)
    requires Abs(dev(h, k + 1)) < Abs(acc.change)
    ensures ScanInv(dev, n, lo, h, k + 1, Offer(acc, h, k + 1, dev(h, k + 1)))
  {
    assert Offer(acc, h, k + 1, dev(h, k + 1)) == Best(k + 1, h, dev(h, k + 1));
  }

  /** Any other candidate leaves the kept one in place. */
  lemma OfferNoBetter(dev: (int, nat) -> real, n: nat, lo: int, h: int, k: nat, acc: Best)
    requires lo <= h && k < n && n >= 2 && (h > lo || k >= 2) && k + 1 >= 2
    requires ScanInv(dev, n, lo, h, k, acc)
    requires !(Abs(dev(h, k + 1)) < Abs(acc.change))
    ensures ScanInv(dev, n, lo, h, k + 1, Offer(acc, h, k + 1, dev(h, k + 1)))
  {
    assert Offer(acc, h, k + 1, dev(h, k + 1)) == acc;
    assert !Before(h, k + 1, acc.height, acc.count);
  }

  lemma {:induction false} ScanCountsKeepsInv(dev: (int, nat) -> real, n: nat, lo: int, h: int, k: nat, acc: Best)
    requires lo <= h && k <= n
    requires h == lo || k >= 1 || n <= 1 || acc.count >= 2
    requires ScanInv(dev, n, lo, h, k, acc)
    ensures ScanInv(dev, n, lo, h, n, ScanCounts(dev, n, h, k, acc))
    decreases n - k
  {
    if k < n {
      var acc' := Offer(acc, h, k + 1, dev(h, k + 1));
      OfferKeepsInv(dev, n, lo, h, k, acc);
      if h > lo && n >= 2 && k == 0 {
        // the one-item candidate at a later height is never kept over a row of two or more
        assert acc' == acc;
      }
      ScanCountsKeepsInv(dev, n, lo, h, k + 1, acc');
    }
  }

  lemma {:induction false} ScanHeightsKeepsInv(dev: (int, nat) -> real, n: nat, lo: int, h: int, hi: int, acc: Best)
    requires lo <= h
    requires ScanInv(dev, n, lo, h, 0, acc)
    requires h == lo || n <= 1 || acc.count >= 2
    ensures ScanInv(dev, n, lo, if h > hi then h else hi + 1, 0, ScanHeights(dev, n, h, hi, acc))
    decreases hi - h + 1
  {
    if h <= hi {
      var acc' := ScanCounts(dev, n, h, 0, acc);
      ScanCountsKeepsInv(dev, n, lo, h, 0, acc);
      assert ScanInv(dev, n, lo, h + 1, 0, acc') by {
        forall h', k' ensures Scanned(n, lo, h', k', h, n) <==> Scanned(n, lo, h', k', h + 1, 0) {
        }
      }
      ScanHeightsKeepsInv(dev, n, lo, h + 1, hi, acc');
    }
  }

  /** The search keeps nothing for an empty window, the lowest height for a
      single item, and otherwise the first least-deviation row of two or more. */
  lemma SearchIsFirstMinimiser(dev: (int, nat) -> real, n: nat, lo: int, hi: int)
    requires lo <= hi
    ensures n == 0 ==> Search(dev, n, lo, hi).count == 0
    ensures n == 1 ==> Search(dev, n, lo, hi) == Best(1, lo, dev(lo, 1))
    ensures n >= 2 ==> FirstMinimiser(dev, n, lo, hi, Search(dev, n, lo, hi))
  {
    ScanHeightsKeepsInv(dev, n, lo, lo, hi, NoCandidate);
  }

  /** There is only one first minimiser: the search's choice is determined
      by the deviations alone. */
  lemma FirstMinimiserUnique(dev: (int, nat) -> real, n: nat, lo: int, hi: int, a: Best, b: Best)
    requires FirstMinimiser(dev, n, lo, hi, a) && FirstMinimiser(dev, n, lo, hi, b)
    ensures a == b
  {
  }

  /** Whatever the window, the kept candidate has at most `n` items, lies in
      the height range when anything is kept, and records its own deviation. */
  lemma SearchShape(dev: (int, nat) -> real, n: nat, lo: int, hi: int)
    requires lo <= hi
    ensures var b := Search(dev, n, lo, hi);
      && b.count <= n
      && (n >= 1 ==> 1 <= b.count && lo <= b.height <= hi && b.change == dev(b.height, b.count))
      && (n >= 2 ==> 2 <= b.count)
      && (n == 0 ==> b == NoCandidate)
  {
    SearchIsFirstMinimiser(dev, n, lo, hi);
    if n == 0 {
      SearchEmpty(dev, lo, hi, NoCandidate);
    }
  }

  lemma {:induction false} SearchEmpty(dev: (int, nat) -> real, h: int, hi: int, acc: Best)
    ensures ScanHeights(dev, 0, h, hi, acc) == acc
    decreases hi - h + 1
  {
    if h <= hi {
      SearchEmpty(dev, h + 1, hi, acc);
    }
  }
}
