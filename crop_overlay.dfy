/**
 * The rectangular crop overlay: four outer border lines, a two-by-two grid,
 * two short lines and an invisible drag button at each corner. Laying out
 * places every line from the overlay's bounds; dragging a corner button
 * resizes the frame with the opposite corner fixed, dragging the overlay
 * itself moves it. Each line or button view is represented by its frame.
 */
module CropOverlay {
  import opened Geometry
  import opened Platform
  import opened PointExtensions
  import opened RectExtensions

  const CornerLineDepth: real := 3.0
  const CornerLineWidth: real := 20.0
  const CornerButtonWidth: real := 50.0
  const LineWidth: real := 1.0

  /** Frame of outer line i: top, right, bottom and left strips of width LineWidth; zero for any other index. */
  function OuterLineFrame(i: nat, b: Rect): (r: Rect)
    ensures i == 0 ==> r == MakeRect(0.0, 0.0, Width(b), LineWidth)
    ensures i == 1 ==> r.origin.x + r.size.width == Width(b) && r.origin.y == 0.0
                       && r.size == Size(LineWidth, Height(b))
    ensures i == 2 ==> r.origin.y + r.size.height == Height(b) && r.origin.x == 0.0
                       && r.size == Size(Width(b), LineWidth)
    ensures i == 3 ==> r == MakeRect(0.0, 0.0, LineWidth, Height(b))
    ensures i >= 4 ==> r == ZeroRect
  {
    match i
    case 0 => MakeRect(0.0, 0.0, Width(b), LineWidth)
    case 1 => MakeRect(Width(b) - LineWidth, 0.0, LineWidth, Height(b))
    case 2 => MakeRect(0.0, Height(b) - LineWidth, Width(b), LineWidth)
    case 3 => MakeRect(0.0, 0.0, LineWidth, Height(b))
    case _ => ZeroRect
  }

  /** The frames layoutSubviews gives corner i: its vertical line, its horizontal line and its button. */
  datatype CornerFrames = CornerFrames(vertical: Rect, horizontal: Rect, button: Rect)

  function CornerLayout(i: nat, b: Rect): (c: CornerFrames)
    ensures i < 4 ==> c.vertical.size == Size(CornerLineDepth, CornerLineWidth)
                      && c.horizontal.size == Size(CornerLineWidth, CornerLineDepth)
                      && c.button.size == Size(CornerButtonWidth, CornerButtonWidth)
    ensures i == 0 ==> c.vertical.origin == ZeroPoint && c.horizontal.origin == ZeroPoint && c.button.origin == ZeroPoint
    ensures i == 1 ==> TopRight(c.vertical) == Point(Width(b), 0.0)
                       && TopRight(c.horizontal) == Point(Width(b), 0.0)
                       && TopRight(c.button) == Point(Width(b), 0.0)
    ensures i == 2 ==> BottomLeft(c.vertical) == Point(0.0, Height(b))
                       && BottomLeft(c.horizontal) == Point(0.0, Height(b))
                       && BottomLeft(c.button) == Point(0.0, Height(b))
    ensures i == 3 ==> BottomRight(c.vertical) == Point(Width(b), Height(b))
                       && BottomRight(c.horizontal) == Point(Width(b), Height(b))
                       && BottomRight(c.button) == Point(Width(b), Height(b))
    ensures i >= 4 ==> c == CornerFrames(ZeroRect, ZeroRect, ZeroRect)
  {
    var w, h := Width(b), Height(b);
    var buttonSize := Size(CornerButtonWidth, CornerButtonWidth);
    match i
    case 0 =>
      CornerFrames(MakeRect(0.0, 0.0, CornerLineDepth, CornerLineWidth),
                   MakeRect(0.0, 0.0, CornerLineWidth, CornerLineDepth),
                   Rect(Point(0.0, 0.0), buttonSize))
    case 1 =>
      CornerFrames(MakeRect(w - CornerLineDepth, 0.0, CornerLineDepth, CornerLineWidth),
                   MakeRect(w - CornerLineWidth, 0.0, CornerLineWidth, CornerLineDepth),
                   Rect(Point(w - CornerButtonWidth, 0.0), buttonSize))
    case 2 =>
      CornerFrames(MakeRect(0.0, h - CornerLineWidth, CornerLineDepth, CornerLineWidth),
                   MakeRect(0.0, h - CornerLineDepth, CornerLineWidth, CornerLineDepth),
                   Rect(Point(0.0, h - CornerButtonWidth), buttonSize))
    case 3 =>
      CornerFrames(MakeRect(w - CornerLineDepth, h - CornerLineWidth, CornerLineDepth, CornerLineWidth),
                   MakeRect(w - CornerLineWidth, h - CornerLineDepth, CornerLineWidth, CornerLineDepth),
                   Rect(Point(w - CornerButtonWidth, h - CornerButtonWidth), buttonSize))
    case _ => CornerFrames(ZeroRect, ZeroRect, ZeroRect)
  }

  /** The gap layoutSubviews leaves around n grid lines of the given thickness across a length. */
  function GridPadding(length: real, thickness: real, n: nat): real {
    (length - thickness * (n as real)) / ((n + 1) as real)
  }

  /** Offset of grid line i: i + 1 gaps and i lines before it. */
  function GridOffset(i: nat, padding: real, thickness: real): real {
    padding * ((i + 1) as real) + thickness * (i as real)
  }

  /**
   * The grid is evenly spaced: the gap before the first line, between any two
   * neighbours and after the last line all equal the padding.
   */
  lemma GridEvenlySpaced(length: real, thickness: real, n: nat)
    requires n >= 1
    ensures var pad := GridPadding(length, thickness, n);
      && GridOffset(0, pad, thickness) == pad
      && (forall i: nat :: i + 1 < n ==>
            GridOffset(i + 1, pad, thickness) - (GridOffset(i, pad, thickness) + thickness) == pad)
      && length - (GridOffset(n - 1, pad, thickness) + thickness) == pad
  {
    var pad := GridPadding(length, thickness, n);
    var nr := n as real;
    assert pad * (nr + 1.0) == length - thickness * nr;
    assert GridOffset(n - 1, pad, thickness) == pad * nr + thickness * (nr - 1.0);
  }

  function HorizontalLineFrame(i: nat, b: Rect, thickness: real, n: nat): Rect {
    MakeRect(0.0, GridOffset(i, GridPadding(Height(b), thickness, n), thickness), Width(b), thickness)
  }

  function VerticalLineFrame(i: nat, b: Rect, thickness: real, n: nat): Rect {
    MakeRect(GridOffset(i, GridPadding(Width(b), thickness, n), thickness), 0.0, thickness, Height(b))
  }

  /** The corner button a pan comes from, by index into the corner buttons, or the overlay itself. */
  datatype DragSource = Button(index: nat) | Overlay

  /** The part of UIPanGestureRecognizer moveCropOverlay uses. */
  class PanGestureRecognizer {
    var state: GestureState
    var translation: Point
    const view: DragSource

    constructor (view: DragSource, state: GestureState, translation: Point)
      ensures this.view == view && this.state == state && this.translation == translation
    {
      this.view := view;
      this.state := state;
      this.translation := translation;
    }
  }

  /**
   * The frame after dragging corner button `corner` by `t`: that corner moves
   * by the translation and the opposite corner stays. A button that is not
   * one of the four corner buttons gives the zero rectangle.
   */
  function CornerDragFrame(f: Rect, corner: nat, t: Point): (r: Rect)
    ensures corner == 0 ==> TopLeft(r) == Translate(TopLeft(f), t.x, t.y) && BottomRight(r) == BottomRight(f)
    ensures corner == 1 ==> TopRight(r) == Translate(TopRight(f), t.x, t.y) && BottomLeft(r) == BottomLeft(f)
    ensures corner == 2 ==> BottomLeft(r) == Translate(BottomLeft(f), t.x, t.y) && TopRight(r) == TopRight(f)
    ensures corner == 3 ==> BottomRight(r) == Translate(BottomRight(f), t.x, t.y) && TopLeft(r) == TopLeft(f)
    ensures corner >= 4 ==> r == ZeroRect
  {
    var o, s := f.origin, f.size;
    match corner
    case 0 => MakeRect(o.x + t.x, o.y + t.y, s.width - t.x, s.height - t.y)
    case 1 => MakeRect(o.x, o.y + t.y, s.width + t.x, s.height - t.y)
    case 2 => MakeRect(o.x + t.x, o.y, s.width - t.x, s.height + t.y)
    case 3 => MakeRect(o.x, o.y, s.width + t.x, s.height + t.y)
    case _ => ZeroRect
  }

  /** Two corner drags in a row equal one drag by the summed translation. */
  lemma CornerDragAdditive(f: Rect, corner: nat, a: Point, b: Point)
    requires corner < 4
    ensures CornerDragFrame(CornerDragFrame(f, corner, a), corner, b)
            == CornerDragFrame(f, corner, Translate(a, b.x, b.y))
  {
  }

  /** The frame after dragging the overlay itself: its centre moves by `t`, its size stays. */
  function OverlayDragFrame(f: Rect, t: Point): (r: Rect)
    ensures Center(r) == Translate(Center(f), t.x, t.y) && r.size == f.size
    ensures r.origin == Translate(f.origin, t.x, t.y)
  {
    CenterRoundTrip(Translate(Center(f), t.x, t.y), f.size);
    RectWithCenter(Translate(Center(f), t.x, t.y), f.size)
  }

  /** Two overlay drags in a row equal one drag by the summed translation. */
  lemma OverlayDragAdditive(f: Rect, a: Point, b: Point)
    ensures OverlayDragFrame(OverlayDragFrame(f, a), b) == OverlayDragFrame(f, Translate(a, b.x, b.y))
  {
  }

  class CropOverlay {
    var frame: Rect
    var outerLines: seq<Rect>
    var horizontalLines: seq<Rect>
    var verticalLines: seq<Rect>
    var topLeftCornerLines: seq<Rect>
    var topRightCornerLines: seq<Rect>
    var bottomLeftCornerLines: seq<Rect>
    var bottomRightCornerLines: seq<Rect>
    var cornerButtons: seq<Rect>

    /** The line and button counts createLines sets up. */
    ghost predicate Valid()
      reads this
    {
      |outerLines| == 4 && |horizontalLines| == 2 && |verticalLines| == 2
      && |topLeftCornerLines| == 2 && |topRightCornerLines| == 2
      && |bottomLeftCornerLines| == 2 && |bottomRightCornerLines| == 2
      && |cornerButtons| == 4
    }

    function CornerLines(i: nat): seq<Rect>
      reads this
    {
      match i
      case 0 => topLeftCornerLines
      case 1 => topRightCornerLines
      case 2 => bottomLeftCornerLines
      case _ => bottomRightCornerLines
    }

    /** Every line and button has the frame layoutSubviews computes from the overlay's bounds. */
    ghost predicate LaidOut(screenScale: real)
      reads this
      requires Valid() && screenScale > 0.0
    {
      var b, t := Bounds(frame), LineWidth / screenScale;
      && (forall k :: 0 <= k < 4 ==> outerLines[k] == OuterLineFrame(k, b))
      && (forall k :: 0 <= k < 4 ==>
            CornerLines(k)[0] == CornerLayout(k, b).vertical
            && CornerLines(k)[1] == CornerLayout(k, b).horizontal
            && cornerButtons[k] == CornerLayout(k, b).button)
      && (forall k :: 0 <= k < 2 ==>
            horizontalLines[k] == HorizontalLineFrame(k, b, t, 2)
            && verticalLines[k] == VerticalLineFrame(k, b, t, 2))
    }

    constructor (frame: Rect)
      ensures Valid() && this.frame == frame
    {
      this.frame := frame;
      new;
      CreateLines();
    }

    /** createLines(): four outer lines, two of each grid direction, two per corner and four corner buttons, all at the zero frame. */
    method CreateLines()
      modifies this
      ensures Valid() && frame == old(frame)
      ensures outerLines == [ZeroRect, ZeroRect, ZeroRect, ZeroRect]
      ensures horizontalLines == [ZeroRect, ZeroRect] && verticalLines == [ZeroRect, ZeroRect]
      ensures cornerButtons == [ZeroRect, ZeroRect, ZeroRect, ZeroRect]
      ensures forall k :: 0 <= k < 4 ==> CornerLines(k) == [ZeroRect, ZeroRect]
    {
      outerLines := [ZeroRect, ZeroRect, ZeroRect, ZeroRect];
      horizontalLines := [ZeroRect, ZeroRect];
      verticalLines := [ZeroRect, ZeroRect];
      topLeftCornerLines := [ZeroRect, ZeroRect];
      topRightCornerLines := [ZeroRect, ZeroRect];
      bottomLeftCornerLines := [ZeroRect, ZeroRect];
      bottomRightCornerLines := [ZeroRect, ZeroRect];
      cornerButtons := [ZeroRect, ZeroRect, ZeroRect, ZeroRect];
    }

    /** Write the two line frames of corner i. */
    method SetCornerLines(i: nat, vertical: Rect, horizontal: Rect)
      requires Valid() && i < 4
      modifies this
      ensures Valid() && frame == old(frame) && cornerButtons == old(cornerButtons)
      ensures outerLines == old(outerLines)
      ensures horizontalLines == old(horizontalLines) && verticalLines == old(verticalLines)
      ensures CornerLines(i) == [vertical, horizontal]
      ensures forall k :: 0 <= k < 4 && k != i ==> CornerLines(k) == old(CornerLines(k))
    {
      match i {
        case 0 => topLeftCornerLines := topLeftCornerLines[0 := vertical][1 := horizontal];
        case 1 => topRightCornerLines := topRightCornerLines[0 := vertical][1 := horizontal];
        case 2 => bottomLeftCornerLines := bottomLeftCornerLines[0 := vertical][1 := horizontal];
        case 3 => bottomRightCornerLines := bottomRightCornerLines[0 := vertical][1 := horizontal];
      }
    }

    /** layoutSubviews(): lay every line and button out from the bounds; the line thickness of the grid is one pixel. */
    method LayoutSubviews(screenScale: real)
      requires Valid() && screenScale > 0.0
      modifies this
      ensures Valid() && frame == old(frame)
      ensures LaidOut(screenScale)
    {
      var b := Bounds(frame);
      for i := 0 to |outerLines|
        invariant Valid() && frame == old(frame)
        invariant forall k :: 0 <= k < i ==> outerLines[k] == OuterLineFrame(k, b)
      {
        outerLines := outerLines[i := OuterLineFrame(i, b)];
      }

      for i := 0 to 4
        invariant Valid() && frame == old(frame)
        invariant forall k :: 0 <= k < 4 ==> outerLines[k] == OuterLineFrame(k, b)
        invariant forall k :: 0 <= k < i ==>
            CornerLines(k)[0] == CornerLayout(k, b).vertical
            && CornerLines(k)[1] == CornerLayout(k, b).horizontal
            && cornerButtons[k] == CornerLayout(k, b).button
      {
        var c := CornerLayout(i, b);
        SetCornerLines(i, c.vertical, c.horizontal);
        cornerButtons := cornerButtons[i := c.button];
      }

      var lineThickness := LineWidth / screenScale;
      for i := 0 to |horizontalLines|
        invariant Valid() && frame == old(frame)
        invariant forall k :: 0 <= k < 4 ==> outerLines[k] == OuterLineFrame(k, b)
        invariant forall k :: 0 <= k < 4 ==>
            CornerLines(k)[0] == CornerLayout(k, b).vertical
            && CornerLines(k)[1] == CornerLayout(k, b).horizontal
            && cornerButtons[k] == CornerLayout(k, b).button
        invariant forall k :: 0 <= k < i ==>
            horizontalLines[k] == HorizontalLineFrame(k, b, lineThickness, 2)
            && verticalLines[k] == VerticalLineFrame(k, b, lineThickness, 2)
      {
        horizontalLines := horizontalLines[i := HorizontalLineFrame(i, b, lineThickness, |horizontalLines|)];
        verticalLines := verticalLines[i := VerticalLineFrame(i, b, lineThickness, |verticalLines|)];
      }
    }

    /**
     * moveCropOverlay(gestureRecognizer:). Only began and changed act. From
     * a corner button the frame is resized with the opposite corner fixed and
     * everything is laid out again; from the overlay itself the overlay moves.
     * Either way the recognizer's translation is reset to zero, so that the
     * next step reports only the movement since this one.
     */
    method MoveCropOverlay(g: PanGestureRecognizer, screenScale: real)
      requires Valid() && screenScale > 0.0
      modifies this, g`translation
      ensures Valid()
      ensures old(g.state) == Began || old(g.state) == Changed ==>
        g.translation == ZeroPoint
        && (g.view.Button? ==> frame == CornerDragFrame(old(frame), g.view.index, old(g.translation))
                               && LaidOut(screenScale))
        && (g.view.Overlay? ==> frame == OverlayDragFrame(old(frame), old(g.translation))
                                && outerLines == old(outerLines) && cornerButtons == old(cornerButtons)
                                && horizontalLines == old(horizontalLines) && verticalLines == old(verticalLines)
                                && (forall k :: 0 <= k < 4 ==> CornerLines(k) == old(CornerLines(k))))
      ensures !(old(g.state) == Began || old(g.state) == Changed) ==>
        g.translation == old(g.translation) && frame == old(frame)
        && outerLines == old(outerLines) && cornerButtons == old(cornerButtons)
        && horizontalLines == old(horizontalLines) && verticalLines == old(verticalLines)
        && (forall k :: 0 <= k < 4 ==> CornerLines(k) == old(CornerLines(k)))
    {
      if g.state != Began && g.state != Changed {
        return;
      }
      var translation := g.translation;
      match g.view {
        case Button(index) =>
          frame := CornerDragFrame(frame, index, translation);
          LayoutSubviews(screenScale);
        case Overlay =>
          frame := RectWithCenter(Translate(Center(frame), translation.x, translation.y), frame.size);
      }
      g.translation := ZeroPoint;
    }
  }
}
