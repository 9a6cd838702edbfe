/**
 * The full-screen preview of a long-pressed media item: the item is fitted
 * into 90% of the screen width and 70% of its height, follows the finger
 * while dragged (shrinking as it moves vertically), and is dismissed when
 * let go more than 100 points from where it started.  The same sizing and
 * drag handling appear in `TelegramPreviewOverlay.swift` and
 * `PreviewViewModel.swift`; the backdrop fades with different constants.
 */
module PreviewOverlay {
  import opened Numerics

  datatype Size = Size(width: real, height: real)

  const Zero := Size(0.0, 0.0)

  /** The factor `calculateTargetSize` scales the original size by: the
      smaller of the two ratios to the allowed box. */
  function TargetScale(original: Size, screen: Size): real
    requires original.width != 0.0 && original.height > 0.0
  {
    Min(screen.width * 0.9 / original.width, screen.height * 0.7 / original.height)
  }

  /** `calculateTargetSize`: the original size scaled to fit 0.9 x 0.7 of the
      screen.  A laid-out tile can be negative in width; its width ratio is then
      the smaller one, so it still meets the width bound. */
  function TargetSize(original: Size, screen: Size): (t: Size)
    requires original.width != 0.0 && original.height > 0.0
    requires original.width < 0.0 ==> screen.width >= 0.0 && screen.height >= 0.0
    ensures t.width <= screen.width * 0.9 && t.height <= screen.height * 0.7
    ensures t.width == screen.width * 0.9 || t.height == screen.height * 0.7
    ensures t.width * original.height == t.height * original.width
  {
    var s := TargetScale(original, screen);
    var wr := screen.width * 0.9 / original.width;
    var hr := screen.height * 0.7 / original.height;
    assert original.width * wr == screen.width * 0.9;
    assert original.height * hr == screen.height * 0.7;
    WidthWithinBound(original, screen);
    ScaleBelow(original.height, s, hr);
    Size(original.width * s, original.height * s)
  }

  /** The scaled width never passes the width bound, whatever the sign of the
      original width. */
  lemma WidthWithinBound(original: Size, screen: Size)
    requires original.width != 0.0 && original.height > 0.0
    requires original.width < 0.0 ==> screen.width >= 0.0 && screen.height >= 0.0
    ensures original.width * TargetScale(original, screen) <= screen.width * 0.9
  {
    var wr := screen.width * 0.9 / original.width;
    var hr := screen.height * 0.7 / original.height;
    var s := TargetScale(original, screen);
    assert s == Min(wr, hr);
    if original.width > 0.0 {
      assert original.width * wr == screen.width * 0.9;
      ScaleBelow(original.width, s, wr);
    } else {
      QuotientNonNegative(screen.height * 0.7, original.height);
      NegativeWidthScale(original.width, screen.width * 0.9, hr);
    }
  }

  lemma ScaleBelow(x: real, s: real, ratio: real)
    requires x > 0.0 && s <= ratio
    ensures x * s <= x * ratio
  {
  }

  lemma QuotientNonNegative(a: real, b: real)
    requires a >= 0.0 && b > 0.0
    ensures a / b >= 0.0
  {
  }

  /** For a negative width `w` and a bound `a >= 0`, the ratio `a / w` is at
      most any non-negative ratio, so it is the one `Min` keeps, and the
      scaled width meets the bound `a` exactly. */
  lemma NegativeWidthScale(w: real, a: real, hr: real)
    requires w < 0.0 && a >= 0.0 && hr >= 0.0
    ensures Min(a / w, hr) == a / w
    ensures w * Min(a / w, hr) == a
  {
    var q := a / w;
    assert q * w == a;
    assert q <= 0.0;
    assert Min(q, hr) == q;
  }

  /** Only the shape of the original matters: scaling it by any positive
      factor leaves the target size unchanged. */
  lemma TargetSizeScaleFree(original: Size, screen: Size, k: real)
    requires original.width != 0.0 && original.height > 0.0 && k > 0.0
    requires original.width < 0.0 ==> screen.width >= 0.0 && screen.height >= 0.0
    ensures TargetSize(Size(original.width * k, original.height * k), screen) == TargetSize(original, screen)
  {
    var s := TargetScale(original, screen);
    TargetScaleOverK(original, screen, k);
    Cancel(original.width, s, k);
    Cancel(original.height, s, k);
  }

  lemma TargetScaleOverK(original: Size, screen: Size, k: real)
    requires original.width != 0.0 && original.height > 0.0 && k > 0.0
    ensures TargetScale(Size(original.width * k, original.height * k), screen) == TargetScale(original, screen) / k
  {
    MinQuotients(screen.width * 0.9, screen.height * 0.7, original.width, original.height, k);
  }

  lemma MinQuotients(a: real, c: real, w: real, h: real, k: real)
    requires w != 0.0 && h > 0.0 && k > 0.0
    ensures Min(a / (w * k), c / (h * k)) == Min(a / w, c / h) / k
  {
    Quotient(a, w, k);
    Quotient(c, h, k);
    MinOverK(a / w, c / h, k);
  }

  lemma Quotient(a: real, b: real, k: real)
    requires b != 0.0 && k > 0.0
    ensures a / (b * k) == (a / b) / k
  {
  }

  lemma MinOverK(a: real, b: real, k: real)
    requires k > 0.0
    ensures Min(a / k, b / k) == Min(a, b) / k
  {
    if a <= b {
      assert a / k <= b / k;
    } else {
      assert b / k < a / k;
    }
  }

  lemma Cancel(x: real, s: real, k: real)
    requires k > 0.0
    ensures (x * k) * (s / k) == x * s
  {
  }

  /** The preview's frame: the target size, centred on the screen. */
  function TargetOrigin(target: Size, screen: Size): (o: (real, real))
    ensures o.0 + target.width / 2.0 == screen.width / 2.0
    ensures o.1 + target.height / 2.0 == screen.height / 2.0
  {
    ((screen.width - target.width) / 2.0, (screen.height - target.height) / 2.0)
  }

  /** The scale while dragging `dy` points vertically: 1 at rest, falling by
      0.1 every 100 points, never below 0.7. */
  function DragScale(dy: real): (s: real)
    ensures 0.7 <= s <= 1.0
    ensures s == 1.0 <==> dy == 0.0
    ensures s == 0.7 <==> Abs(dy) >= 300.0
    ensures Abs(dy) <= 300.0 ==> s == 1.0 - Abs(dy) / 1000.0
  {
    Max(0.7, Min(1.0, 1.0 - Abs(dy) / 1000.0))
  }

  /** The drag-end decision: far enough vertically to dismiss. */
  predicate Dismisses(dy: real) {
    Abs(dy) > 100.0
  }

  /** The backdrop's opacity: `peak` at rest, fading linearly with the vertical
      drag and reaching zero `reach` points away (0.8 over 300 points in
      `TelegramPreviewOverlay.swift`, 0.5 over 400 points in
      `PreviewViewModel.swift`).  It is not clamped here; past `reach` it is
      negative, which the view layer treats as transparent. */
  function BackdropOpacity(peak: real, reach: real, isDragging: bool, dy: real): (o: real)
    requires peak > 0.0 && reach > 0.0
    ensures o <= peak
    ensures o == peak <==> !isDragging || dy == 0.0
    ensures isDragging ==> (o == 0.0 <==> Abs(dy) == reach)
    ensures isDragging ==> (o < 0.0 <==> Abs(dy) > reach)
  {
    if isDragging then
      var o := peak * (1.0 - Abs(dy) / reach);
      FadeSign(peak, reach, Abs(dy));
      o
    else peak
  }

  lemma FadeSign(peak: real, reach: real, d: real)
    requires peak > 0.0 && reach > 0.0 && d >= 0.0
    ensures var o := peak * (1.0 - d / reach);
      && o <= peak && (o == peak <==> d == 0.0)
      && (o == 0.0 <==> d == reach) && (o < 0.0 <==> d > reach)
  {
    var f := 1.0 - d / reach;
    DivideByReach(d, reach);
    assert f <= 1.0 && (f == 1.0 <==> d == 0.0);
    assert peak * f <= peak * 1.0;
    assert peak * f == peak <==> f == 1.0;
    assert peak * f == 0.0 <==> f == 0.0;
    assert peak * f < 0.0 <==> f < 0.0;
  }

  lemma DivideByReach(d: real, reach: real)
    requires reach > 0.0 && d >= 0.0
    ensures d / reach >= 0.0 && (d / reach == 0.0 <==> d == 0.0)
    ensures d == reach <==> d / reach == 1.0
    ensures d > reach <==> d / reach > 1.0
  {
    var q := d / reach;
    assert q * reach == d;
    if q > 1.0 {
      assert q * reach > 1.0 * reach;
    }
    if d > reach {
      assert q > 1.0;
    }
  }

  /** The drag state of the preview (`PreviewViewModel`'s drag fields). */
  class PreviewViewModel {
    var isDragging: bool
    var dragOffset: Size
    var dragScale: real

    /** The scale stays in the range the drag formula produces. */
    predicate Valid()
      reads this
    {
      0.7 <= dragScale <= 1.0
    }

    constructor()
      ensures Valid()
      ensures !isDragging && dragOffset == Zero && dragScale == 1.0
    {
      isDragging := false;
      dragOffset := Zero;
      dragScale := 1.0;
    }

    /** The offset the preview is drawn at. */
    function ShownOffset(): (o: Size)
      reads this
      ensures !isDragging ==> o == Zero
    {
      if isDragging then dragOffset else Zero
    }

    /** The drag gesture's `onChanged`: follow the finger and shrink. */
    method DragChanged(translation: Size)
      modifies this
      ensures Valid()
      ensures isDragging && dragOffset == translation && dragScale == DragScale(translation.height)
      ensures ShownOffset() == translation
    {
      isDragging := true;
      dragOffset := translation;
      dragScale := DragScale(translation.height);
    }

    /** The drag gesture's `onEnded`: report a dismissal, or spring back to rest. */
    method DragEnded(translation: Size) returns (dismiss: bool)
      requires Valid()
      modifies this
      ensures Valid()
      ensures dismiss <==> Dismisses(translation.height)
      ensures dismiss ==> isDragging == old(isDragging) && dragOffset == old(dragOffset) && dragScale == old(dragScale)
      ensures !dismiss ==> !isDragging && dragOffset == Zero && dragScale == 1.0
    {
      dismiss := Abs(translation.height) > 100.0;
      if !dismiss {
        isDragging := false;
        dragOffset := Zero;
        dragScale := 1.0;
      }
    }
  }

  /** A drag that is let go short of dismissal leaves the same state as an
      untouched preview. */
  method DragAndRelease(vm: PreviewViewModel, translation: Size) returns (dismiss: bool)
    requires vm.Valid()
    requires !Dismisses(translation.height)
    modifies vm
    ensures !dismiss
    ensures !vm.isDragging && vm.dragOffset == Zero && vm.dragScale == 1.0
    ensures vm.ShownOffset() == Zero
  {
    vm.DragChanged(translation);
    dismiss := vm.DragEnded(translation);
  }
}

/**
 * The size of an image bubble in the chat: the media item's size doubled,
 * and, when that is larger than 200 x 120, brought to a width of 280 with
 * the same aspect ratio.
 */
module ImageContent {
  /** `normalizedSize`. */
  function NormalizedSize(width: real, height: real): (r: (real, real))
    ensures 2.0 * width > 200.0 && 2.0 * height > 120.0 ==>
      r.0 == 280.0 && r.1 * (2.0 * width) == 280.0 * (2.0 * height)
    ensures !(2.0 * width > 200.0 && 2.0 * height > 120.0) ==> r == (2.0 * width, 2.0 * height)
  {
    var originalWidth := width * 2.0;
    var originalHeight := height * 2.0;
    if originalWidth > 200.0 && originalHeight > 120.0 then
      var aspectRatio := originalWidth / originalHeight;
      var maxWidth := 280.0;
      var maxHeight := maxWidth / aspectRatio;
      assert maxHeight * originalWidth == maxWidth * originalHeight by {
        AspectHeight(maxWidth, originalWidth, originalHeight);
      }
      (maxWidth, maxHeight)
    else
      (originalWidth, originalHeight)
  }

  lemma AspectHeight(w: real, ow: real, oh: real)
    requires ow > 0.0 && oh > 0.0
    ensures (w / (ow / oh)) * ow == w * oh
  {
  }

  /** Both branches keep the item's aspect ratio: width over height stays
      `width / height`. */
  lemma KeepsAspect(width: real, height: real)
    ensures var r := NormalizedSize(width, height); r.0 * height == r.1 * width
  {
    var r := NormalizedSize(width, height);
    if 2.0 * width > 200.0 && 2.0 * height > 120.0 {
      assert r.1 * (2.0 * width) == 280.0 * (2.0 * height);
      assert r.1 * width == 280.0 * height;
    }
  }

  /** The test is strict: a doubled width of exactly 200 is left as it is. */
  lemma Boundary(height: real)
    ensures NormalizedSize(100.0, height) == (200.0, 2.0 * height)
  {
  }

  /** A wide but short item is not capped: the doubled width may exceed 280
      when the doubled height is at most 120. */
  lemma ShortNotCapped(width: real, height: real)
    requires height <= 60.0
    ensures NormalizedSize(width, height).0 == 2.0 * width
  {
  }
}
