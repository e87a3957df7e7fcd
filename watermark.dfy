/** applyWatermark (src/utils/imageProcessing.js): draws one line of text
    on a canvas. The anchor is given in percent of the canvas size, the
    alignment moves the text's left end relative to it, a non-zero
    rotation turns the text about the middle of its baseline segment, and
    an optional shadow is derived from the font size. The context's
    drawing state is saved before and restored after, so only the drawn
    text remains. The text width (measureText(text).width) and the cos/sin
    of the rotation come in as parameters. */
module Watermark {
  import opened Numeric
  import opened Canvas2D

  datatype WatermarkSettings = WatermarkSettings(
    text: string,
    font: string,
    size: real,
    color: string,
    opacity: real,
    position: Point,        // percent of the canvas width and height
    rotation: real,         // degrees
    alignment: string,
    enableShadow: bool,
    shadowOpacity: real)

  /** The anchor: position.x percent of the width, position.y percent of
      the height. */
  function Anchor(width: Dimension, height: Dimension, position: Point): (a: Point)
    ensures 0.0 <= position.x <= 100.0 ==> 0.0 <= a.x <= width as real
    ensures 0.0 <= position.y <= 100.0 ==> 0.0 <= a.y <= height as real
    ensures position.x == 50.0 ==> a.x == width as real / 2.0
    ensures position.y == 50.0 ==> a.y == height as real / 2.0
    ensures position.x == 100.0 ==> a.x == width as real
  {
    var x := PercentOf(width as real, position.x);
    var y := PercentOf(height as real, position.y);
    Point(x, y)
  }

  /** percent % of total. */
  function PercentOf(total: real, percent: real): (r: real)
    requires 0.0 <= total
    ensures 0.0 <= percent <= 100.0 ==> 0.0 <= r <= total
    ensures percent == 50.0 ==> r == total / 2.0
    ensures percent == 100.0 ==> r == total
  {
    var v := total * percent / 100.0;
    if 0.0 <= percent <= 100.0 then
      var fraction := percent / 100.0;
      assert v == total * fraction;
      MulWithin(total, fraction);
      v
    else v
  }

  /** Where the text starts so that the anchor is at its left end, its
      middle or its right end; any other alignment is treated as left. */
  function AlignedX(ax: real, alignment: string, textWidth: real): (x: real)
    ensures alignment == "center" ==> x + textWidth / 2.0 == ax
    ensures alignment == "right" ==> x + textWidth == ax
    ensures alignment != "center" && alignment != "right" ==> x == ax
  {
    if alignment == "center" then ax - textWidth / 2.0
    else if alignment == "right" then ax - textWidth
    else ax
  }

  /** The point fillText draws at. */
  function TextOrigin(width: Dimension, height: Dimension, ws: WatermarkSettings, textWidth: real): Point
  {
    var a := Anchor(width, height, ws.position);
    Point(AlignedX(a.x, ws.alignment, textWidth), a.y)
  }

  /** The point a non-zero rotation turns about: the middle of the text's
      extent along the baseline. */
  function RotationPivot(origin: Point, textWidth: real): Point
  {
    Point(origin.x + textWidth / 2.0, origin.y)
  }

  /** The drawing state fillText uses: the state before, with the
      watermark's alpha, font, colour and middle baseline, the rotation
      about the pivot when rotation is not 0, and the shadow when enabled.
      The context ignores an alpha outside [0, 1] and a negative blur. */
  function TextState(before: DrawState, origin: Point, ws: WatermarkSettings, textWidth: real, turn: Turn): DrawState
  {
    var s1 := if 0.0 <= ws.opacity <= 1.0 then before.(globalAlpha := ws.opacity) else before;
    var s2 := s1.(font := Font(ws.size, ws.font), fillStyle := ws.color, textBaseline := "middle");
    var s3 := if ws.rotation != 0.0
              then s2.(transform := PivotRotated(s2.transform, RotationPivot(origin, textWidth), turn))
              else s2;
    if ws.enableShadow then
      var s4 := s3.(shadowAlpha := ws.shadowOpacity);
      var s5 := if ws.size / 8.0 >= 0.0 then s4.(shadowBlur := ws.size / 8.0) else s4;
      s5.(shadowOffsetX := ws.size / 16.0, shadowOffsetY := ws.size / 16.0)
    else s3
  }

  /** The style calls between save and fillText: alpha, font, colour,
      baseline, the rotation about the pivot and the shadow. */
  method StyleText(ctx: Context, origin: Point, ws: WatermarkSettings, textWidth: real, turn: Turn)
    modifies ctx
    ensures ctx.state == TextState(old(ctx.state), origin, ws, textWidth, turn)
    ensures ctx.stack == old(ctx.stack) && ctx.ops == old(ctx.ops)
  {
    ctx.SetGlobalAlpha(ws.opacity);
    ctx.SetFont(Font(ws.size, ws.font));
    ctx.SetFillStyle(ws.color);
    ctx.SetTextBaseline("middle");

    if ws.rotation != 0.0 {
      var pivot := RotationPivot(origin, textWidth);
      ctx.Translate(pivot.x, pivot.y);
      ctx.Rotate(turn);
      ctx.Translate(-pivot.x, -pivot.y);
    }

    if ws.enableShadow {
      ctx.SetShadowAlpha(ws.shadowOpacity);
      ctx.SetShadowBlur(ws.size / 8.0);
      ctx.SetShadowOffset(ws.size / 16.0, ws.size / 16.0);
    }
  }

  /** applyWatermark on a canvas: nothing at all for empty text, otherwise
      one fillText whose state is scoped by save/restore. */
  method ApplyWatermark(canvas: Canvas, ws: WatermarkSettings, textWidth: real, turn: Turn)
    modifies canvas.ctx
    ensures ws.text == "" ==> canvas.ctx.ops == old(canvas.ctx.ops)
    ensures ws.text != "" ==>
              var origin := TextOrigin(canvas.width, canvas.height, ws, textWidth);
              canvas.ctx.ops == old(canvas.ctx.ops) + [TextDrawn(ws.text, origin, TextState(old(canvas.ctx.state), origin, ws, textWidth, turn))]
    ensures canvas.ctx.state == old(canvas.ctx.state) && canvas.ctx.stack == old(canvas.ctx.stack)
  {
    if ws.text == "" {
      return;
    }
    var ctx := canvas.ctx;
    ctx.Save();
    var a := Anchor(canvas.width, canvas.height, ws.position);
    var x := AlignedX(a.x, ws.alignment, textWidth);
    var y := a.y;
    StyleText(ctx, Point(x, y), ws, textWidth, turn);
    ctx.FillText(ws.text, x, y);
    ctx.Restore();
  }

  // ---------------------------------------------------------------------
  // Where the watermark ends up

  /** With rotation, the pivot stays where the transform before the call
      put it, and the point fillText draws at is turned about the pivot. */
  lemma RotationAboutPivot(before: DrawState, origin: Point, ws: WatermarkSettings, textWidth: real, turn: Turn)
    requires ws.rotation != 0.0
    ensures var m := TextState(before, origin, ws, textWidth, turn).transform;
            var pivot := RotationPivot(origin, textWidth);
            Apply(m, pivot) == Apply(before.transform, pivot) &&
            Apply(m, origin) == Apply(before.transform, Plus(pivot, Turned(turn, Point(-textWidth / 2.0, 0.0))))
  {
    var pivot := RotationPivot(origin, textWidth);
    PivotFixed(before.transform, pivot, turn);
    PivotTurn(before.transform, pivot, turn, origin);
    assert Minus(origin, pivot) == Point(-textWidth / 2.0, 0.0);
  }

  /** Without rotation the transform is left as it was. */
  lemma NoRotationKeepsTransform(before: DrawState, origin: Point, ws: WatermarkSettings, textWidth: real, turn: Turn)
    requires ws.rotation == 0.0
    ensures TextState(before, origin, ws, textWidth, turn).transform == before.transform
  {
  }

  /** The shadow: black at shadowOpacity, blur size/8, offset size/16 in
      both directions, set only when enabled; otherwise the shadow of the
      state before stays. */
  lemma ShadowFromSize(before: DrawState, origin: Point, ws: WatermarkSettings, textWidth: real, turn: Turn)
    ensures var s := TextState(before, origin, ws, textWidth, turn);
            ws.enableShadow && ws.size >= 0.0 ==>
              s.shadowAlpha == ws.shadowOpacity && s.shadowBlur == ws.size / 8.0 &&
              s.shadowOffsetX == ws.size / 16.0 && s.shadowOffsetY == ws.size / 16.0
    ensures var s := TextState(before, origin, ws, textWidth, turn);
            !ws.enableShadow ==>
              s.shadowAlpha == before.shadowAlpha && s.shadowBlur == before.shadowBlur &&
              s.shadowOffsetX == before.shadowOffsetX && s.shadowOffsetY == before.shadowOffsetY
  {
  }

  /** The editor's default watermark (centered, at 50 % / 50 %) puts the
      middle of the text at the middle of the canvas. */
  lemma DefaultPlacementCentersText(width: Dimension, height: Dimension, ws: WatermarkSettings, textWidth: real)
    requires ws.position == Point(50.0, 50.0) && ws.alignment == "center"
    ensures var o := TextOrigin(width, height, ws, textWidth);
            o.x + textWidth / 2.0 == width as real / 2.0 && o.y == height as real / 2.0
  {
  }

  /** Right alignment at 100 % ends the text at the right edge: on a 400 by
      200 canvas a 120 pixel wide text starts at x = 280, on the middle
      line y = 100. */
  lemma RightEdgeExample(ws: WatermarkSettings)
    requires ws.position == Point(100.0, 50.0) && ws.alignment == "right"
    ensures TextOrigin(400, 200, ws, 120.0) == Point(280.0, 100.0)
  {
  }
}
