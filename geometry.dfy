/** The size-changing canvas routines of src/utils/imageProcessing.js:
    rotateImage (quarter turns swap width and height), resizeImage (both
    sides scaled by a percentage and rounded) and createThumbnail (the
    image shrunk into a bounding box, aspect ratio kept). Each copies the
    picture through a temporary canvas and draws it back; the resampling
    itself is not modelled, only which canvas is drawn where, with which
    transform, at which size. */
module Geometry {
  import opened Js
  import opened Numeric
  import opened Canvas2D

  /** A copy of a canvas on a fresh temporary canvas of the same size, as
      drawImage(canvas, 0, 0) leaves it: the one operation on the copy
      draws the whole canvas in place, unscaled, untransformed and opaque. */
  function Copy(width: Dimension, height: Dimension, ops: seq<DrawOp>): (s: Source)
    ensures SourceWidth(s) == width && SourceHeight(s) == height
    ensures s.CanvasSource? && |s.content| == 1 && s.content[0].ImageDrawn?
    ensures s.content[0].source == CanvasSource(width, height, ops)
    ensures s.content[0].from == s.content[0].to == Rect(0.0, 0.0, width as real, height as real)
    ensures s.content[0].state.transform == Identity && s.content[0].state.globalAlpha == 1.0
  {
    var whole := Rect(0.0, 0.0, width as real, height as real);
    CanvasSource(width, height, [ImageDrawn(CanvasSource(width, height, ops), whole, whole, DefaultState)])
  }

  /** A temporary canvas holding a copy of the given canvas. */
  method CopyToTemp(canvas: Canvas) returns (temp: Canvas)
    ensures fresh(temp) && fresh(temp.ctx)
    ensures temp.Snapshot() == Copy(canvas.width, canvas.height, canvas.ctx.ops)
  {
    temp := new Canvas();
    temp.SetWidth(canvas.width);
    temp.SetHeight(canvas.height);
    var whole := Rect(0.0, 0.0, canvas.width as real, canvas.height as real);
    temp.ctx.DrawImage(canvas.Snapshot(), whole, whole);
  }

  // ---------------------------------------------------------------------
  // rotateImage

  /** Only an angle of exactly 90 or 270 degrees swaps the sides. */
  predicate SwapsSides(angle: real)
  {
    angle == 90.0 || angle == 270.0
  }

  /** The size of the canvas after rotateImage. */
  function RotatedSize(width: Dimension, height: Dimension, angle: real): (size: (Dimension, Dimension))
    ensures SwapsSides(angle) ==> size == (height, width)
    ensures !SwapsSides(angle) ==> size == (width, height)
    ensures size.0 as int * size.1 as int == width as int * height as int
  {
    if SwapsSides(angle) then (height, width) else (width, height)
  }

  /** The transform the copy is drawn with: the one in effect, then a shift
      to the middle of the canvas, then the turn. */
  function CenterTurned(m: Transform, width: Dimension, height: Dimension, turn: Turn): Transform
  {
    Then(Then(m, Shift(width as real / 2.0, height as real / 2.0)), Rotation(turn))
  }

  /** Where the copy is drawn in the turned coordinates: centred on the
      origin at its own size. */
  function Centered(width: Dimension, height: Dimension): (r: Rect)
    ensures r.x + r.w / 2.0 == 0.0 && r.y + r.h / 2.0 == 0.0
    ensures r.w == width as real && r.h == height as real
  {
    Rect(-(width as real) / 2.0, -(height as real) / 2.0, width as real, height as real)
  }

  /** rotateImage: turn is (cos, sin) of the angle in radians. A quarter
      turn resizes the canvas, which also clears it and resets its
      context; any other angle clears the canvas and draws on it with the
      context's current state. Copying a canvas with a side of 0 onto the
      temporary canvas throws an InvalidStateError before the canvas is
      touched. */
  method RotateImage(canvas: Canvas, angle: real, turn: Turn) returns (r: Outcome<()>)
    modifies canvas, canvas.ctx
    ensures r.Failed? <==> old(canvas.width) == 0 || old(canvas.height) == 0
    ensures r.Failed? ==>
              r.message == "InvalidStateError" &&
              canvas.width == old(canvas.width) && canvas.height == old(canvas.height) &&
              canvas.ctx.state == old(canvas.ctx.state) && canvas.ctx.stack == old(canvas.ctx.stack) &&
              canvas.ctx.ops == old(canvas.ctx.ops)
    ensures r.Ok? ==> (canvas.width, canvas.height) == RotatedSize(old(canvas.width), old(canvas.height), angle)
    ensures r.Ok? ==> canvas.ctx.state == (if SwapsSides(angle) then DefaultState else old(canvas.ctx.state))
    ensures r.Ok? ==> canvas.ctx.stack == (if SwapsSides(angle) then [] else old(canvas.ctx.stack))
    ensures r.Ok? ==>
            var w, h := old(canvas.width), old(canvas.height);
            var before := if SwapsSides(angle) then DefaultState else old(canvas.ctx.state);
            var drawn := ImageDrawn(Copy(w, h, old(canvas.ctx.ops)), Rect(0.0, 0.0, w as real, h as real), Centered(w, h),
                                    before.(transform := CenterTurned(before.transform, canvas.width, canvas.height, turn)));
            canvas.ctx.ops == (if SwapsSides(angle) then [drawn]
                               else old(canvas.ctx.ops) + [Cleared(Rect(0.0, 0.0, w as real, h as real), old(canvas.ctx.state)), drawn])
  {
    if canvas.width == 0 || canvas.height == 0 {
      return Failed("InvalidStateError");
    }
    var ctx := canvas.ctx;
    var temp := CopyToTemp(canvas);
    var w, h := canvas.width, canvas.height;

    ctx.ClearRect(Rect(0.0, 0.0, w as real, h as real));

    if angle == 90.0 || angle == 270.0 {
      canvas.SetWidth(h);
      canvas.SetHeight(w);
    }

    ctx.Save();
    ctx.Translate(canvas.width as real / 2.0, canvas.height as real / 2.0);
    ctx.Rotate(turn);
    ctx.DrawImage(temp.Snapshot(), Rect(0.0, 0.0, w as real, h as real), Centered(w, h));
    ctx.Restore();
    r := Ok(());
  }

  /** After a quarter turn the copy covers the new canvas exactly: with
      cos 90 = 0 and sin 90 = 1, the top left corner of the copy lands on
      the new top right corner and its bottom right corner on the new
      bottom left corner. */
  lemma QuarterTurnFillsCanvas(width: Dimension, height: Dimension)
    ensures var m := CenterTurned(Identity, height, width, Turn(0.0, 1.0));
            var r := Centered(width, height);
            Apply(m, Point(r.x, r.y)) == Point(height as real, 0.0) &&
            Apply(m, Point(r.x + r.w, r.y + r.h)) == Point(0.0, width as real)
  {
    var t := Turn(0.0, 1.0);
    var r := Centered(width, height);
    CenterTurnedMoves(height, width, t, Point(r.x, r.y));
    CenterTurnedMoves(height, width, t, Point(r.x + r.w, r.y + r.h));
  }

  /** The middle of the copy always lands on the middle of the canvas when
      nothing else was transforming it. */
  lemma RotationKeepsCenter(width: Dimension, height: Dimension, w: Dimension, h: Dimension, turn: Turn)
    ensures var r := Centered(w, h);
            Apply(CenterTurned(Identity, width, height, turn), Point(r.x + r.w / 2.0, r.y + r.h / 2.0))
              == Point(width as real / 2.0, height as real / 2.0)
  {
    var r := Centered(w, h);
    assert Point(r.x + r.w / 2.0, r.y + r.h / 2.0) == Point(0.0, 0.0);
    assert Turned(turn, Point(0.0, 0.0)) == Point(0.0, 0.0);
    CenterTurnedMoves(width, height, turn, Point(0.0, 0.0));
  }

  /** A half turn (cos = -1, sin = 0) keeps the size and maps the copy's
      corners onto the opposite corners of the canvas. */
  lemma HalfTurnSwapsCorners(width: Dimension, height: Dimension)
    ensures RotatedSize(width, height, 180.0) == (width, height)
    ensures var m := CenterTurned(Identity, width, height, Turn(-1.0, 0.0));
            var r := Centered(width, height);
            Apply(m, Point(r.x, r.y)) == Point(width as real, height as real) &&
            Apply(m, Point(r.x + r.w, r.y + r.h)) == Point(0.0, 0.0)
  {
    var t := Turn(-1.0, 0.0);
    var r := Centered(width, height);
    CenterTurnedMoves(width, height, t, Point(r.x, r.y));
    CenterTurnedMoves(width, height, t, Point(r.x + r.w, r.y + r.h));
  }

  /** Where the rotation transform of an untransformed context takes a
      point: turned about the origin, then moved to the canvas middle. */
  lemma CenterTurnedMoves(width: Dimension, height: Dimension, t: Turn, p: Point)
    ensures Apply(CenterTurned(Identity, width, height, t), p) == Plus(Point(width as real / 2.0, height as real / 2.0), Turned(t, p))
  {
    var q := Turned(t, p);
    assert Apply(CenterTurned(Identity, width, height, t), p) == Apply(Then(Identity, Shift(width as real / 2.0, height as real / 2.0)), q);
  }

  // ---------------------------------------------------------------------
  // resizeImage

  /** Math.round(side * (scale / 100)) */
  function ScaledLength(side: Dimension, scale: real): int
  {
    MathRound(side as real * (scale / 100.0))
  }

  /** One side after resizeImage: the scaled length assigned to the width
      or height attribute. */
  function ScaledSide(side: Dimension, scale: real, default: Dimension): Dimension
  {
    CanvasDimension(ScaledLength(side, scale), default)
  }

  /** resizeImage: copying a canvas with a side of 0 onto the temporary
      canvas throws an InvalidStateError before the canvas is touched;
      otherwise the canvas takes the scaled size and the old picture is
      stretched over it. */
  method ResizeImage(canvas: Canvas, scale: real) returns (r: Outcome<()>)
    modifies canvas, canvas.ctx
    ensures r.Failed? <==> old(canvas.width) == 0 || old(canvas.height) == 0
    ensures r.Failed? ==>
              r.message == "InvalidStateError" &&
              canvas.width == old(canvas.width) && canvas.height == old(canvas.height) &&
              canvas.ctx.state == old(canvas.ctx.state) && canvas.ctx.stack == old(canvas.ctx.stack) &&
              canvas.ctx.ops == old(canvas.ctx.ops)
    ensures r.Ok? ==> canvas.width == ScaledSide(old(canvas.width), scale, 300)
    ensures r.Ok? ==> canvas.height == ScaledSide(old(canvas.height), scale, 150)
    ensures r.Ok? ==> canvas.ctx.state == DefaultState && canvas.ctx.stack == []
    ensures r.Ok? ==>
            var w, h := old(canvas.width), old(canvas.height);
            canvas.ctx.ops == [ImageDrawn(Copy(w, h, old(canvas.ctx.ops)), Rect(0.0, 0.0, w as real, h as real),
                                          Rect(0.0, 0.0, canvas.width as real, canvas.height as real), DefaultState)]
  {
    if canvas.width == 0 || canvas.height == 0 {
      return Failed("InvalidStateError");
    }
    var originalWidth, originalHeight := canvas.width, canvas.height;
    var temp := CopyToTemp(canvas);

    canvas.SetWidth(ScaledLength(originalWidth, scale));
    canvas.SetHeight(ScaledLength(originalHeight, scale));

    canvas.ctx.DrawImage(temp.Snapshot(), Rect(0.0, 0.0, originalWidth as real, originalHeight as real),
                         Rect(0.0, 0.0, canvas.width as real, canvas.height as real));
    r := Ok(());
  }

  /** Resizing can leave a side of 0: a 1-pixel side at 40 % rounds to 0,
      and on that canvas every later resize or rotation fails. */
  lemma ResizeCanReachZero()
    ensures ScaledSide(1, 40.0, 300) == 0 && ScaledSide(1, 40.0, 150) == 0
  {
    assert 1 as real * (40.0 / 100.0) + 0.5 == 0.9;
  }

  /** Scaling down never makes a side longer. */
  lemma ScaleDownNeverGrows(side: Dimension, scale: real, default: Dimension)
    requires 0.0 <= scale <= 100.0
    ensures ScaledSide(side, scale, default) <= side
  {
    var f := scale / 100.0;
    var x := side as real * f;
    assert 0.0 <= f <= 1.0;
    MulWithin(side as real, f);
    MathRoundBelow(x, side);
    MathRoundMonotone(0.0, x);
  }

  /** Scaling by 100 % keeps the size. */
  lemma FullScaleKeepsSize(side: Dimension, default: Dimension)
    ensures ScaledSide(side, 100.0, default) == side
  {
  }

  /** A larger scale never gives a smaller side, as long as the larger
      result still fits the attribute. */
  lemma ScaleMonotone(side: Dimension, s1: real, s2: real, default: Dimension)
    requires 0.0 <= s1 <= s2
    requires MathRound(side as real * (s2 / 100.0)) <= 0x7FFF_FFFF
    ensures ScaledSide(side, s1, default) <= ScaledSide(side, s2, default)
  {
    var x1, x2 := side as real * (s1 / 100.0), side as real * (s2 / 100.0);
    assert x1 <= x2 by {
      assert side as real * s1 <= side as real * s2;
    }
    MathRoundMonotone(x1, x2);
    assert 0 <= MathRound(x1);
  }

  /** A scale that rounds to a negative size falls back to the default
      size (Math.round gives a negative number, the attribute takes it as
      an out-of-range unsigned long). */
  lemma NegativeScaleGivesDefault(side: Dimension, scale: real, default: Dimension)
    requires 0 < side && -100.0 <= scale <= -100.0 / side as real
    ensures ScaledSide(side, scale, default) == default
  {
    var x := side as real * (scale / 100.0);
    assert x <= -1.0 by {
      assert side as real * scale <= side as real * (-100.0 / side as real) == -100.0;
    }
    assert x >= -(side as real) by {
      assert side as real * scale >= side as real * -100.0;
    }
  }

  // ---------------------------------------------------------------------
  // createThumbnail

  /** The thumbnail size as createThumbnail computes it: only the longer
      side is compared with its own limit (a wide image with the width, a
      tall or square one with the height). When that side is over its
      limit it becomes the limit and the other side is scaled with it,
      rounded; otherwise the size is kept, even if the shorter side is
      over its own limit. */
  function ThumbnailSizeAsWritten(width: nat, height: nat, maxWidth: nat, maxHeight: nat): (size: (int, int))
    ensures width > height && width > maxWidth ==>
              size.0 == maxWidth &&
              size.1 as real - 0.5 <= (height * maxWidth) as real / width as real < size.1 as real + 0.5
    ensures width <= height && height > maxHeight ==>
              size.1 == maxHeight &&
              size.0 as real - 0.5 <= (width * maxHeight) as real / height as real < size.0 as real + 0.5
    ensures (width > height && width <= maxWidth) || (width <= height && height <= maxHeight) ==>
              size == (width, height)
  {
    if width > height then
      if width > maxWidth then (maxWidth, MathRound((height * maxWidth) as real / width as real))
      else (width, height)
    else
      if height > maxHeight then (MathRound((width * maxHeight) as real / height as real), maxHeight)
      else (width, height)
  }

  /** With a box whose sides differ, the computed size can leave the box: a
      400 by 300 image and a 300 by 100 box give 300 by 225. */
  lemma ThumbnailAsWrittenLeavesBox()
    ensures ThumbnailSizeAsWritten(400, 300, 300, 100) == (300, 225)
    ensures ThumbnailSizeAsWritten(400, 300, 300, 100).1 > 100
  {
    assert (300 * 300) as real / 400 as real == 225.0;
  }

  /** The thumbnail size that keeps the aspect ratio and fits the box: the
      side that exceeds its limit by the larger factor is set to its limit
      and the other is scaled with it, rounded to the nearest whole number. */
  function ThumbnailSize(width: nat, height: nat, maxWidth: nat, maxHeight: nat): (size: (int, int))
    ensures 0 <= size.0 <= maxWidth && 0 <= size.1 <= maxHeight
    ensures width <= maxWidth && height <= maxHeight ==> size == (width, height)
    ensures !(width <= maxWidth && height <= maxHeight) ==> size.0 == maxWidth || size.1 == maxHeight
    ensures !(width <= maxWidth && height <= maxHeight) && width * maxHeight > height * maxWidth ==>
              0 < width && size.0 == maxWidth &&
              size.1 as real - 0.5 <= (height * maxWidth) as real / width as real < size.1 as real + 0.5
    ensures !(width <= maxWidth && height <= maxHeight) && width * maxHeight <= height * maxWidth && 0 < height ==>
              size.1 == maxHeight &&
              size.0 as real - 0.5 <= (width * maxHeight) as real / height as real < size.0 as real + 0.5
  {
    if width <= maxWidth && height <= maxHeight then (width, height)
    else if width * maxHeight > height * maxWidth then
      RoundedRatioWithin(height * maxWidth, width, maxHeight);
      (maxWidth, MathRound((height * maxWidth) as real / width as real))
    else if height > 0 then
      RoundedRatioWithin(width * maxHeight, height, maxWidth);
      (MathRound((width * maxHeight) as real / height as real), maxHeight)
    else (0, maxHeight)
  }

  /** Math.round(num / den) stays within bound when num does not exceed
      den * bound. */
  lemma RoundedRatioWithin(num: nat, den: nat, bound: nat)
    requires num <= den * bound
    requires 0 < num || 0 < den
    ensures den > 0
    ensures 0 <= MathRound(num as real / den as real) <= bound
  {
    var x := num as real / den as real;
    assert x * den as real == num as real;
    assert num as real <= (den * bound) as real == den as real * bound as real;
    if x > bound as real {
      MulStrict(bound as real, x, den as real);
    }
    MathRoundBelow(x, bound);
    MathRoundMonotone(0.0, x);
  }

  lemma MulStrict(a: real, b: real, c: real)
    requires a < b && 0.0 < c
    ensures a * c < b * c
  {
  }

  /** For a square box, which the default 300 by 300 is, the computed size
      is the fitted one. */
  lemma ThumbnailSquareBoxAgrees(width: nat, height: nat, max: nat)
    ensures ThumbnailSizeAsWritten(width, height, max, max) == ThumbnailSize(width, height, max, max)
  {
    if width > height && width > max {
      assert width * max >= height * max;
      if max > 0 {
        assert width * max > height * max;
      } else {
        assert (height * max) as real / width as real == 0.0;
      }
    } else if width <= height && height > max {
      assert width * max <= height * max;
    }
  }

  /** A limit parameter of createThumbnail: 300 when it is not passed. */
  function BoxSide(limit: Option<nat>): nat
  {
    if limit.Some? then limit.value else 300
  }

  /** What the thumbnail canvas encodes: a JPEG at quality 0.7 of a canvas
      whose width and height attributes were assigned the given size, with
      the whole image drawn over that size. */
  predicate IsThumbnail(image: Source, size: (int, int), e: Encoded)
  {
    e.mimeType == "image/jpeg" && e.quality == Some(0.7) &&
    e.source.CanvasSource? &&
    e.source.width == CanvasDimension(size.0, 300) &&
    e.source.height == CanvasDimension(size.1, 150) &&
    e.source.content == [ImageDrawn(image, Rect(0.0, 0.0, SourceWidth(image) as real, SourceHeight(image) as real),
                                    Rect(0.0, 0.0, size.0 as real, size.1 as real), DefaultState)]
  }

  /** A fresh canvas of the given size with the whole image drawn onto it,
      encoded as JPEG at quality 0.7. */
  method DrawThumbnail(image: Source, size: (int, int)) returns (thumbnail: Encoded)
    ensures IsThumbnail(image, size, thumbnail)
  {
    var width, height := size.0, size.1;
    var canvas := new Canvas();
    canvas.SetWidth(width);
    canvas.SetHeight(height);
    canvas.ctx.DrawImage(image, Rect(0.0, 0.0, SourceWidth(image) as real, SourceHeight(image) as real),
                         Rect(0.0, 0.0, width as real, height as real));
    thumbnail := canvas.ToDataUrl("image/jpeg", Some(0.7));
  }

  /** createThumbnail(image, maxWidth = 300, maxHeight = 300) as written:
      the size is ThumbnailSizeAsWritten of the image in the box. */
  method CreateThumbnail(image: Source, maxWidth: Option<nat>, maxHeight: Option<nat>) returns (thumbnail: Encoded)
    ensures IsThumbnail(image, ThumbnailSizeAsWritten(SourceWidth(image), SourceHeight(image), BoxSide(maxWidth), BoxSide(maxHeight)), thumbnail)
  {
    var size := ThumbnailSizeAsWritten(SourceWidth(image), SourceHeight(image), BoxSide(maxWidth), BoxSide(maxHeight));
    thumbnail := DrawThumbnail(image, size);
  }

  /** createThumbnail with the fitted size: the thumbnail always lies
      inside the box. */
  method CreateThumbnailFitted(image: Source, maxWidth: Option<nat>, maxHeight: Option<nat>) returns (thumbnail: Encoded)
    ensures IsThumbnail(image, ThumbnailSize(SourceWidth(image), SourceHeight(image), BoxSide(maxWidth), BoxSide(maxHeight)), thumbnail)
  {
    var size := ThumbnailSize(SourceWidth(image), SourceHeight(image), BoxSide(maxWidth), BoxSide(maxHeight));
    thumbnail := DrawThumbnail(image, size);
  }

  /** With the default box both versions make the same thumbnail. */
  lemma DefaultBoxAgrees(image: Source)
    ensures ThumbnailSizeAsWritten(SourceWidth(image), SourceHeight(image), BoxSide(None), BoxSide(None)) ==
            ThumbnailSize(SourceWidth(image), SourceHeight(image), BoxSide(None), BoxSide(None))
  {
    ThumbnailSquareBoxAgrees(SourceWidth(image), SourceHeight(image), 300);
  }
}
