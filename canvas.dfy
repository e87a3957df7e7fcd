/** The part of an HTML canvas and its 2D context that the image routines
    drive: the drawing state (alpha, font, fill style, text baseline,
    current transformation matrix, shadow), the save/restore stack, the
    width and height attributes, and the sequence of drawing operations
    issued on the bitmap. Rasterisation is not modelled: a bitmap is the
    list of operations drawn on it since it was last cleared by a resize. */
module Canvas2D {
  import opened Js

  /** A canvas dimension: the width and height attributes reflect an
      unsigned long limited to 0 .. 2^31 - 1. */
  type Dimension = x: int | 0 <= x <= 0x7FFF_FFFF

  datatype Point = Point(x: real, y: real)

  /** cos and sin of a rotation angle, as Math.cos and Math.sin return
      them for the angle in radians. */
  datatype Turn = Turn(cos: real, sin: real)

  /** A point turned about the origin. */
  function Turned(t: Turn, p: Point): Point
  {
    Point(t.cos * p.x - t.sin * p.y, t.sin * p.x + t.cos * p.y)
  }

  function Plus(p: Point, q: Point): Point
  {
    Point(p.x + q.x, p.y + q.y)
  }

  function Minus(p: Point, q: Point): Point
  {
    Point(p.x - q.x, p.y - q.y)
  }

  /** One call that changes the current transformation matrix. */
  datatype Step = Shift(tx: real, ty: real) | Rotation(turn: Turn)

  /** The current transformation matrix, kept as the calls that built it
      since the last reset: each translate or rotate multiplies the matrix
      on the right, so it acts on a user-space point before the earlier
      ones do. */
  datatype Transform = Identity | Then(before: Transform, step: Step)

  /** Where the current transform takes a point of user space. */
  function Apply(m: Transform, p: Point): Point
  {
    match m
    case Identity => p
    case Then(before, Shift(tx, ty)) => Apply(before, Point(p.x + tx, p.y + ty))
    case Then(before, Rotation(t)) => Apply(before, Turned(t, p))
  }

  datatype Font = Font(sizePx: real, family: string)

  datatype DrawState = DrawState(
    globalAlpha: real,
    font: Font,
    fillStyle: string,
    textBaseline: string,
    transform: Transform,
    shadowAlpha: real,       // shadowColor is rgba(0, 0, 0, shadowAlpha)
    shadowBlur: real,
    shadowOffsetX: real,
    shadowOffsetY: real)

  /** The state of a fresh (or reset) context: opaque, 10px sans-serif,
      black fill, alphabetic baseline, identity transform, transparent
      black shadow with no blur and no offset. */
  const DefaultState := DrawState(1.0, Font(10.0, "sans-serif"), "#000000", "alphabetic", Identity, 0.0, 0.0, 0.0, 0.0)

  datatype Rect = Rect(x: real, y: real, w: real, h: real)

  /** What drawImage reads from: another canvas (with what is drawn on it)
      or a decoded image. */
  datatype Source =
    | CanvasSource(width: Dimension, height: Dimension, content: seq<DrawOp>)
    | ImageSource(naturalWidth: nat, naturalHeight: nat, url: string)

  function SourceWidth(s: Source): nat
  {
    if s.CanvasSource? then s.width else s.naturalWidth
  }

  function SourceHeight(s: Source): nat
  {
    if s.CanvasSource? then s.height else s.naturalHeight
  }

  /** What toDataURL encodes: the picture, the requested MIME type and
      the requested quality, if any. */
  datatype Encoded = Encoded(source: Source, mimeType: string, quality: Option<real>)

  /** One operation issued on a bitmap, with the drawing state it used. */
  datatype DrawOp =
    | TextDrawn(text: string, at: Point, state: DrawState)
    | ImageDrawn(source: Source, from: Rect, to: Rect, state: DrawState)
    | Cleared(area: Rect, state: DrawState)

  /** Assigning v to canvas.width or canvas.height: the number becomes an
      unsigned long (reduced modulo 2^32), and a result above 2^31 - 1 is
      replaced by the attribute's default. */
  function CanvasDimension(v: int, default: Dimension): (n: Dimension)
    ensures 0 <= v <= 0x7FFF_FFFF ==> n == v
    ensures -0x8000_0000 <= v < 0 ==> n == default
  {
    var u := v % 0x1_0000_0000;
    if u <= 0x7FFF_FFFF then u else default
  }

  class Context {
    var state: DrawState
    var stack: seq<DrawState>
    var ops: seq<DrawOp>

    constructor()
      ensures state == DefaultState && stack == [] && ops == []
    {
      state := DefaultState;
      stack := [];
      ops := [];
    }

    /** What setting the canvas width or height does to its context: the
        bitmap is cleared and the drawing state and stack start over. */
    method Reset()
      modifies this
      ensures state == DefaultState && stack == [] && ops == []
    {
      state, stack, ops := DefaultState, [], [];
    }

    method Save()
      modifies this
      ensures stack == old(stack) + [old(state)]
      ensures state == old(state) && ops == old(ops)
    {
      stack := stack + [state];
    }

    /** Pops the saved state; with nothing saved it does nothing. */
    method Restore()
      modifies this
      ensures old(stack) == [] ==> state == old(state) && stack == []
      ensures old(stack) != [] ==> state == old(stack)[|old(stack)| - 1] && stack == old(stack)[..|old(stack)| - 1]
      ensures ops == old(ops)
    {
      if stack != [] {
        state, stack := stack[|stack| - 1], stack[..|stack| - 1];
      }
    }

    /** globalAlpha ignores values outside [0, 1]. */
    method SetGlobalAlpha(alpha: real)
      modifies this
      ensures state == if 0.0 <= alpha <= 1.0 then old(state).(globalAlpha := alpha) else old(state)
      ensures stack == old(stack) && ops == old(ops)
    {
      if 0.0 <= alpha <= 1.0 {
        state := state.(globalAlpha := alpha);
      }
    }

    method SetFont(font: Font)
      modifies this
      ensures state == old(state).(font := font)
      ensures stack == old(stack) && ops == old(ops)
    {
      state := state.(font := font);
    }

    method SetFillStyle(color: string)
      modifies this
      ensures state == old(state).(fillStyle := color)
      ensures stack == old(stack) && ops == old(ops)
    {
      state := state.(fillStyle := color);
    }

    method SetTextBaseline(baseline: string)
      modifies this
      ensures state == old(state).(textBaseline := baseline)
      ensures stack == old(stack) && ops == old(ops)
    {
      state := state.(textBaseline := baseline);
    }

    method Translate(tx: real, ty: real)
      modifies this
      ensures state == old(state).(transform := Then(old(state).transform, Shift(tx, ty)))
      ensures stack == old(stack) && ops == old(ops)
    {
      state := state.(transform := Then(state.transform, Shift(tx, ty)));
    }

    method Rotate(t: Turn)
      modifies this
      ensures state == old(state).(transform := Then(old(state).transform, Rotation(t)))
      ensures stack == old(stack) && ops == old(ops)
    {
      state := state.(transform := Then(state.transform, Rotation(t)));
    }

    method SetShadowAlpha(alpha: real)
      modifies this
      ensures state == old(state).(shadowAlpha := alpha)
      ensures stack == old(stack) && ops == old(ops)
    {
      state := state.(shadowAlpha := alpha);
    }

    /** shadowBlur ignores negative values. */
    method SetShadowBlur(blur: real)
      modifies this
      ensures state == if blur >= 0.0 then old(state).(shadowBlur := blur) else old(state)
      ensures stack == old(stack) && ops == old(ops)
    {
      if blur >= 0.0 {
        state := state.(shadowBlur := blur);
      }
    }

    method SetShadowOffset(dx: real, dy: real)
      modifies this
      ensures state == old(state).(shadowOffsetX := dx, shadowOffsetY := dy)
      ensures stack == old(stack) && ops == old(ops)
    {
      state := state.(shadowOffsetX := dx, shadowOffsetY := dy);
    }

    method FillText(text: string, x: real, y: real)
      modifies this
      ensures ops == old(ops) + [TextDrawn(text, Point(x, y), old(state))]
      ensures state == old(state) && stack == old(stack)
    {
      ops := ops + [TextDrawn(text, Point(x, y), state)];
    }

    method DrawImage(source: Source, from: Rect, to: Rect)
      modifies this
      ensures ops == old(ops) + [ImageDrawn(source, from, to, old(state))]
      ensures state == old(state) && stack == old(stack)
    {
      ops := ops + [ImageDrawn(source, from, to, state)];
    }

    method ClearRect(area: Rect)
      modifies this
      ensures ops == old(ops) + [Cleared(area, old(state))]
      ensures state == old(state) && stack == old(stack)
    {
      ops := ops + [Cleared(area, state)];
    }
  }

  class Canvas {
    var width: Dimension
    var height: Dimension
    const ctx: Context

    /** document.createElement('canvas'): 300 by 150, nothing drawn. */
    constructor()
      ensures width == 300 && height == 150 && fresh(ctx)
      ensures ctx.state == DefaultState && ctx.stack == [] && ctx.ops == []
    {
      width, height := 300, 150;
      ctx := new Context();
    }

    method SetWidth(v: int)
      modifies this, ctx
      ensures width == CanvasDimension(v, 300) && height == old(height)
      ensures ctx.state == DefaultState && ctx.stack == [] && ctx.ops == []
    {
      width := CanvasDimension(v, 300);
      ctx.Reset();
    }

    method SetHeight(v: int)
      modifies this, ctx
      ensures height == CanvasDimension(v, 150) && width == old(width)
      ensures ctx.state == DefaultState && ctx.stack == [] && ctx.ops == []
    {
      height := CanvasDimension(v, 150);
      ctx.Reset();
    }

    /** The canvas as a drawImage source. */
    function Snapshot(): Source
      reads this, ctx
    {
      CanvasSource(width, height, ctx.ops)
    }

    /** canvas.toDataURL(mimeType, quality) */
    function ToDataUrl(mimeType: string, quality: Option<real>): Encoded
      reads this, ctx
    {
      Encoded(Snapshot(), mimeType, quality)
    }
  }

  // ---------------------------------------------------------------------
  // Transform facts the routines rely on

  /** translate(pivot); rotate(t); translate(-pivot) */
  function PivotRotated(m: Transform, pivot: Point, t: Turn): Transform
  {
    Then(Then(Then(m, Shift(pivot.x, pivot.y)), Rotation(t)), Shift(-pivot.x, -pivot.y))
  }

  /** Turning about a pivot turns every point about the pivot, before the
      old transform applies. */
  lemma PivotTurn(m: Transform, pivot: Point, t: Turn, p: Point)
    ensures Apply(PivotRotated(m, pivot, t), p) == Apply(m, Plus(pivot, Turned(t, Minus(p, pivot))))
  {
    var m1 := Then(m, Shift(pivot.x, pivot.y));
    var q := Minus(p, pivot);
    var u := Turned(t, q);
    assert Point(p.x + -pivot.x, p.y + -pivot.y) == q;
    assert Apply(PivotRotated(m, pivot, t), p) == Apply(Then(m1, Rotation(t)), q);
    assert Apply(Then(m1, Rotation(t)), q) == Apply(m1, u);
    assert Point(u.x + pivot.x, u.y + pivot.y) == Plus(pivot, u);
  }

  /** The pivot itself stays where it was. */
  lemma PivotFixed(m: Transform, pivot: Point, t: Turn)
    ensures Apply(PivotRotated(m, pivot, t), pivot) == Apply(m, pivot)
  {
    PivotTurn(m, pivot, t, pivot);
    assert Minus(pivot, pivot) == Point(0.0, 0.0);
    assert Turned(t, Point(0.0, 0.0)) == Point(0.0, 0.0);
    assert Plus(pivot, Point(0.0, 0.0)) == pivot;
  }

  /** Resetting a dimension to a value it can hold keeps that value. */
  lemma DimensionRoundTrip(n: Dimension, default: Dimension)
    ensures CanvasDimension(n, default) == n
  {
  }
}
