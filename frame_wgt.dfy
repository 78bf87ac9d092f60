/**
 * The frameless window (UI/FrameWgt): a translucent top-level widget that
 * draws its own shadow in a margin of width blurRadius around an inner
 * border widget, and lets the user resize it by dragging that margin.
 *
 * The mouse handlers classify the position under the mouse into one of
 * eight edge and corner bands (or none), and while a drag is on they turn
 * the mouse's motion into a new window geometry. Coordinates are whole
 * pixels, as QMouseEvent::globalPos gives them; the stylesheets, the title
 * bar and the shadow painting are not modelled.
 */
module Frame {

  /** QPoint. */
  datatype Point = Point(x: int, y: int)

  /** A widget geometry: position and size, as setGeometry(x, y, w, h) takes them. */
  datatype Geometry = Geometry(x: int, y: int, w: int, h: int)

  /** A QRect in (x, y, width, height) form. */
  datatype Rect = Rect(x: int, y: int, w: int, h: int)
  {
    /**
     * QRect::contains(QPoint): the point lies between the left and right
     * columns and the top and bottom rows, inclusive; a rectangle of
     * negative size is read with its corners swapped.
     */
    predicate Contains(p: Point) {
      var x1, x2 := x, x + w - 1;
      var y1, y2 := y, y + h - 1;
      var (l, r) := if x2 < x1 - 1 then (x2, x1) else (x1, x2);
      var (t, b) := if y2 < y1 - 1 then (y2, y1) else (y1, y2);
      l <= p.x <= r && t <= p.y <= b
    }
  }

  /** FrameWgt::OpFlag: which edge or corner a drag resizes. */
  datatype OpFlag = NONE | Top | Bottom | Left | Right | TL | TR | BL | BR
  {
    /** The enumerator's value; NONE is -1. */
    function Code(): (c: int)
      ensures -1 <= c <= 7
      ensures c == -1 <==> this == NONE
    {
      match this
      case NONE => -1
      case Top => 0
      case Bottom => 1
      case Left => 2
      case Right => 3
      case TL => 4
      case TR => 5
      case BL => 6
      case BR => 7
    }

    /** The band moves the window's left edge. */
    predicate MovesLeft() { this in {Left, TL, BL} }
    /** The band moves the window's right edge. */
    predicate MovesRight() { this in {Right, TR, BR} }
    /** The band moves the window's top edge. */
    predicate MovesTop() { this in {Top, TL, TR} }
    /** The band moves the window's bottom edge. */
    predicate MovesBottom() { this in {Bottom, BL, BR} }
  }

  /** Distinct bands have distinct enumerator values. */
  lemma CodeInjective(f: OpFlag, g: OpFlag)
    ensures f.Code() == g.Code() <==> f == g
  {
  }

  /** Every band other than NONE moves exactly one vertical edge or exactly one horizontal edge, or one of each. */
  lemma BandsMoveEdges(f: OpFlag)
    ensures !(f.MovesLeft() && f.MovesRight()) && !(f.MovesTop() && f.MovesBottom())
    ensures f == NONE <==> !f.MovesLeft() && !f.MovesRight() && !f.MovesTop() && !f.MovesBottom()
  {
  }

  /**
   * FrameWgt::calculateOpflag's decision for a position in a window of the
   * given size: left of the blur margin, right of it, or between; within
   * the left and right columns the corner bands reach blur + radius down
   * and up, between them the top and bottom bands only blur.
   */
  function OpflagAt(pos: Point, width: int, height: int, blur: int, radius: int): (f: OpFlag)
    ensures f.MovesLeft() <==> pos.x < blur
    ensures f.MovesRight() <==> blur <= pos.x && pos.x > width - blur
    ensures f == NONE <==> blur <= pos.x <= width - blur && blur <= pos.y <= height - blur
  {
    if pos.x < blur then
      if pos.y < blur + radius then TL
      else if pos.y > height - blur - radius then BL
      else Left
    else if pos.x > width - blur then
      if pos.y < blur + radius then TR
      else if pos.y > height - blur - radius then BR
      else Right
    else
      if pos.y < blur then Top
      else if pos.y > height - blur then Bottom
      else NONE
  }

  /**
   * The top and bottom reach of the bands: in the side columns a position
   * within blur + radius of the top or bottom is a corner, in the middle
   * column only one within blur is an edge.
   */
  lemma OpflagVerticalReach(pos: Point, width: int, height: int, blur: int, radius: int)
    ensures var f := OpflagAt(pos, width, height, blur, radius);
      (pos.x < blur || pos.x > width - blur) ==>
        (f.MovesTop() <==> pos.y < blur + radius)
        && (f.MovesBottom() <==> blur + radius <= pos.y && pos.y > height - blur - radius)
    ensures var f := OpflagAt(pos, width, height, blur, radius);
      (blur <= pos.x <= width - blur) ==>
        (f.MovesTop() <==> pos.y < blur)
        && (f.MovesBottom() <==> blur <= pos.y && pos.y > height - blur)
  {
  }

  /** With a non-negative radius, the corner bands cover the corners of the plain blur margin. */
  lemma OpflagCornersCoverMargin(pos: Point, width: int, height: int, blur: int, radius: int)
    requires radius >= 0
    requires pos.x < blur && pos.y < blur
    ensures OpflagAt(pos, width, height, blur, radius) == TL
  {
  }

  /**
   * The geometry a drag by (dx, dy) asks for, before the minimum-size
   * check: a moved left or top edge shifts the position and shrinks the
   * size by the same amount, a moved right or bottom edge grows the size.
   */
  function Proposed(f: OpFlag, g: Geometry, dx: int, dy: int): Geometry {
    Geometry(
      if f.MovesLeft() then g.x + dx else g.x,
      if f.MovesTop() then g.y + dy else g.y,
      if f.MovesLeft() then g.w - dx else if f.MovesRight() then g.w + dx else g.w,
      if f.MovesTop() then g.h - dy else if f.MovesBottom() then g.h + dy else g.h)
  }

  /**
   * The final check of mouseMoveEvent: along each axis a size below the
   * minimum is refused, and the current position and size are kept there.
   */
  function Settle(p: Geometry, g: Geometry, minW: int, minH: int): (r: Geometry)
    ensures (r.x, r.w) == (if p.w < minW then (g.x, g.w) else (p.x, p.w))
    ensures (r.y, r.h) == (if p.h < minH then (g.y, g.h) else (p.y, p.h))
  {
    var (x, w) := if p.w < minW then (g.x, g.w) else (p.x, p.w);
    var (y, h) := if p.h < minH then (g.y, g.h) else (p.y, p.h);
    Geometry(x, y, w, h)
  }

  /** The geometry a resizing drag sets. */
  function Resized(f: OpFlag, g: Geometry, dx: int, dy: int, minW: int, minH: int): Geometry {
    Settle(Proposed(f, g, dx, dy), g, minW, minH)
  }

  /**
   * Where the next motion is measured from after a resizing drag: the
   * current mouse position, except that along an axis whose size fell
   * below the minimum it is pinned to the window edge being dragged.
   */
  function NextLastPos(f: OpFlag, g: Geometry, p: Geometry, curr: Point, minW: int, minH: int): Point {
    Point(
      if p.w < minW && f.MovesLeft() then g.x
      else if p.w < minW && f.MovesRight() then g.x + g.w
      else curr.x,
      if p.h < minH && f.MovesTop() then g.y
      else if p.h < minH && f.MovesBottom() then g.y + g.h
      else curr.y)
  }

  /** Dragging the right edge keeps the position and the height. */
  lemma RightDragKeeps(g: Geometry, dx: int, dy: int, minW: int, minH: int)
    ensures var r := Resized(Right, g, dx, dy, minW, minH);
      r.x == g.x && r.y == g.y && r.h == g.h
      && (r.w == g.w + dx || (g.w + dx < minW && r.w == g.w))
  {
  }

  /** Dragging the left edge keeps the right edge where it is. */
  lemma LeftDragKeepsRightEdge(g: Geometry, dx: int, dy: int, minW: int, minH: int)
    ensures var r := Resized(Left, g, dx, dy, minW, minH);
      r.x + r.w == g.x + g.w && r.y == g.y && r.h == g.h
  {
  }

  /**
   * Whatever the band, an edge the band does not move stays put: the
   * left edge unless MovesLeft, the right edge unless MovesRight, and the
   * same for top and bottom.
   */
  lemma UnmovedEdgesStay(f: OpFlag, g: Geometry, dx: int, dy: int, minW: int, minH: int)
    requires f != NONE
    ensures var r := Resized(f, g, dx, dy, minW, minH);
      && (!f.MovesLeft() ==> r.x == g.x)
      && (!f.MovesRight() ==> r.x + r.w == g.x + g.w)
      && (!f.MovesTop() ==> r.y == g.y)
      && (!f.MovesBottom() ==> r.y + r.h == g.y + g.h)
  {
    BandsMoveEdges(f);
  }

  /**
   * A window at least its minimum size stays so: each of the new width and
   * height meets its minimum or is the old one, together with its x or y.
   */
  lemma ResizeRespectsMinimum(f: OpFlag, g: Geometry, dx: int, dy: int, minW: int, minH: int)
    ensures var r := Resized(f, g, dx, dy, minW, minH);
      && (r.w >= minW || (r.x, r.w) == (g.x, g.w))
      && (r.h >= minH || (r.y, r.h) == (g.y, g.h))
    ensures g.w >= minW && g.h >= minH ==>
      var r := Resized(f, g, dx, dy, minW, minH); r.w >= minW && r.h >= minH
  {
  }

  /**
   * The switch of FrameWgt::mouseMoveEvent for a drag of band f by
   * (dx, dy) from geometry g, with the mouse now at curr: the new geometry
   * and the position the next motion is measured from.
   */
  method DragStep(f: OpFlag, g: Geometry, dx: int, dy: int, curr: Point, minW: int, minH: int)
    returns (geo: Geometry, last: Point)
    requires f != NONE
    ensures geo == Resized(f, g, dx, dy, minW, minH)
    ensures last == NextLastPos(f, g, Proposed(f, g, dx, dy), curr, minW, minH)
  {
    last := curr;
    var x, y, w, h := 0, 0, 0, 0;
    match f {
      case Left =>
        x, y, w, h := g.x + dx, g.y, g.w - dx, g.h;
        if w < minW {
          last := last.(x := g.x);
        }
      case Right =>
        x, y, w, h := g.x, g.y, g.w + dx, g.h;
        if w < minW {
          last := last.(x := g.x + g.w);
        }
      case Top =>
        x, y, w, h := g.x, g.y + dy, g.w, g.h - dy;
        if h < minH {
          last := last.(y := g.y);
        }
      case Bottom =>
        x, y, w, h := g.x, g.y, g.w, g.h + dy;
        if h < minH {
          last := last.(y := g.y + g.h);
        }
      case TR =>
        x, y, w, h := g.x, g.y + dy, g.w + dx, g.h - dy;
        if w < minW {
          last := last.(x := g.x + g.w);
        }
        if h < minH {
          last := last.(y := g.y);
        }
      case TL =>
        x, y, w, h := g.x + dx, g.y + dy, g.w - dx, g.h - dy;
        if w < minW {
          last := last.(x := g.x);
        }
        if h < minH {
          last := last.(y := g.y);
        }
      case BR =>
        x, y, w, h := g.x, g.y, g.w + dx, g.h + dy;
        if w < minW {
          last := last.(x := g.x + g.w);
        }
        if h < minH {
          last := last.(y := g.y + g.h);
        }
      case BL =>
        x, y, w, h := g.x + dx, g.y, g.w - dx, g.h + dy;
        if w < minW {
          last := last.(x := g.x);
        }
        if h < minH {
          last := last.(y := g.y + g.h);
        }
    }
    if w < minW {
      x := g.x;
      w := g.w;
    }
    if h < minH {
      y := g.y;
      h := g.h;
    }
    geo := Geometry(x, y, w, h);
  }

  /** The layout's contents margins: none when the window fills the screen, the blur width otherwise. */
  function Margins(blur: int, maximized: bool, fullScreen: bool): (m: int)
    ensures maximized || fullScreen ==> m == 0
    ensures !maximized && !fullScreen ==> m == blur
  {
    if maximized || fullScreen then 0 else blur
  }

  class FrameWgt {
    /** minimumWidth() and minimumHeight(). */
    const minW: int
    const minH: int

    /** m_opFlag */
    var opFlag: OpFlag
    /** m_isOp: a resizing drag is on. */
    var isOp: bool
    /** m_lastPos */
    var lastPos: Point
    /** pos() and size(). */
    var geometry: Geometry
    /** m_blurRadius and m_radius. */
    var blurRadius: nat
    var radius: nat
    /** isMaximized(), isFullScreen() and isHidden(). */
    var maximized: bool
    var fullScreen: bool
    var hidden: bool
    /** The grid layout's contents margin, the same on all four sides. */
    var margins: int
    /** The corner radius updateRadius last gave the border and the title bar. */
    var borderRadius: int
    /** Whether the title bar was last set hidden; it starts shown. */
    var titleBarHidden: bool

    /** A drag is only ever on for a band. */
    ghost predicate Valid()
      reads this`isOp, this`opFlag
    {
      isOp ==> opFlag != NONE
    }

    /**
     * FrameWgt::FrameWgt and initialize: a 400 by 300 window, shadow and
     * corner radius 10, margins for the shadow, no drag. Nothing shows the
     * window, so like every new top-level QWidget it starts hidden.
     */
    constructor (x: int, y: int, minimumWidth: int, minimumHeight: int)
      ensures Valid()
      ensures minW == minimumWidth && minH == minimumHeight
      ensures geometry == Geometry(x, y, 400, 300)
      ensures blurRadius == 10 && radius == 10 && margins == 10 && borderRadius == 10
      ensures opFlag == NONE && !isOp && lastPos == Point(0, 0)
      ensures !maximized && !fullScreen && hidden && !titleBarHidden
    {
      minW, minH := minimumWidth, minimumHeight;
      opFlag := NONE;
      isOp := false;
      lastPos := Point(0, 0);
      geometry := Geometry(x, y, 400, 300);
      blurRadius := 10;
      radius := 10;
      maximized, fullScreen, hidden := false, false, true;
      margins := 10;
      borderRadius := 10;
      titleBarHidden := false;
    }

    /**
     * The window state that Qt's show, showMaximized, showFullScreen,
     * showNormal and hide set; FrameWgt only reads it.
     */
    method SetWindowState(isHidden: bool, isMaximized: bool, isFullScreen: bool)
      modifies this`hidden, this`maximized, this`fullScreen
      ensures hidden == isHidden && maximized == isMaximized && fullScreen == isFullScreen
    {
      hidden, maximized, fullScreen := isHidden, isMaximized, isFullScreen;
    }

    /** FrameWgt::calculateOpflag: the band under pos is stored. */
    method CalculateOpflag(pos: Point)
      modifies this`opFlag
      ensures opFlag == OpflagAt(pos, geometry.w, geometry.h, blurRadius, radius)
    {
      opFlag := NONE;
      if pos.x < blurRadius {
        if pos.y < blurRadius + radius {
          opFlag := TL;
        } else if pos.y > geometry.h - blurRadius - radius {
          opFlag := BL;
        } else {
          opFlag := Left;
        }
      } else if pos.x > geometry.w - blurRadius {
        if pos.y < blurRadius + radius {
          opFlag := TR;
        } else if pos.y > geometry.h - blurRadius - radius {
          opFlag := BR;
        } else {
          opFlag := Right;
        }
      } else {
        if pos.y < blurRadius {
          opFlag := Top;
        } else if pos.y > geometry.h - blurRadius {
          opFlag := Bottom;
        } else {
          opFlag := NONE;
        }
      }
    }

    /**
     * FrameWgt::mousePressEvent. A press on the border widget is left to
     * it. Elsewhere a press on a band starts a drag from the global
     * position; a press off every band does nothing.
     */
    method MousePress(pos: Point, globalPos: Point, border: Rect)
      requires Valid()
      modifies this`isOp, this`lastPos
      ensures Valid()
      ensures border.Contains(pos) || opFlag == NONE ==> isOp == old(isOp) && lastPos == old(lastPos)
      ensures !border.Contains(pos) && opFlag != NONE ==> isOp && lastPos == globalPos
    {
      if border.Contains(pos) {
        return;
      }
      if opFlag.Code() != -1 {
        isOp := true;
        lastPos := globalPos;
      }
    }

    /**
     * FrameWgt::mouseMoveEvent. Without a drag the band under the mouse is
     * recomputed; during one it is kept. The motion since the last event
     * is measured and the global position remembered. During a drag of a
     * window that is not maximised, the geometry becomes Resized and the
     * remembered position NextLastPos.
     */
    method MouseMove(pos: Point, globalPos: Point)
      requires Valid()
      modifies this`opFlag, this`lastPos, this`geometry
      ensures Valid()
      ensures !isOp ==>
        && opFlag == OpflagAt(pos, old(geometry).w, old(geometry).h, blurRadius, radius)
        && lastPos == globalPos && geometry == old(geometry)
      ensures isOp && maximized ==>
        opFlag == old(opFlag) && lastPos == globalPos && geometry == old(geometry)
      ensures isOp && !maximized ==>
        var d := Point(globalPos.x - old(lastPos).x, globalPos.y - old(lastPos).y);
        var p := Proposed(opFlag, old(geometry), d.x, d.y);
        && opFlag == old(opFlag)
        && geometry == Resized(opFlag, old(geometry), d.x, d.y, minW, minH)
        && lastPos == NextLastPos(opFlag, old(geometry), p, globalPos, minW, minH)
    {
      if !isOp {
        CalculateOpflag(pos);
      }
      var dx, dy := globalPos.x - lastPos.x, globalPos.y - lastPos.y;
      lastPos := globalPos;
      if isOp {
        if maximized {
          return;
        }
        geometry, lastPos := DragStep(opFlag, geometry, dx, dy, lastPos, minW, minH);
      }
    }

    /** FrameWgt::mouseReleaseEvent: any drag ends. */
    method MouseRelease()
      modifies this`isOp
      ensures Valid() && !isOp
    {
      isOp := false;
    }

    /**
     * FrameWgt::setBlurRadius: the new shadow width, and room for it in the
     * margins unless the window fills the screen.
     */
    method SetBlurRadius(r: nat)
      modifies this`blurRadius, this`margins
      ensures blurRadius == r
      ensures margins == Margins(r, maximized, fullScreen)
    {
      blurRadius := r;
      if maximized || fullScreen {
        margins := 0;
        return;
      } else {
        margins := blurRadius;
      }
    }

    /** The margin update at the start of FrameWgt::paintEvent. */
    method PaintMargins()
      modifies this`margins
      ensures margins == Margins(blurRadius, maximized, fullScreen)
    {
      if maximized || fullScreen {
        margins := 0;
        return;
      } else {
        margins := blurRadius;
      }
    }

    /** FrameWgt::setRadius: the new corner radius, applied at once. */
    method SetRadius(r: nat)
      modifies this`radius, this`borderRadius
      ensures radius == r && borderRadius == r
    {
      radius := r;
      borderRadius := radius;
    }

    /**
     * FrameWgt::setHiddenTitleBar: hides or shows the title bar, then gives
     * the border and the title bar the configured radius again, even when
     * the window is maximised or full screen.
     */
    method SetHiddenTitleBar(isHidden: bool)
      modifies this`titleBarHidden, this`borderRadius
      ensures titleBarHidden == isHidden && borderRadius == radius
    {
      titleBarHidden := isHidden;
      borderRadius := radius;
    }

    /**
     * FrameWgt::setBackgroundColor's radius update: square corners when the
     * window fills the screen, the configured radius otherwise.
     */
    method SetBackgroundColor()
      modifies this`borderRadius
      ensures borderRadius == if maximized || fullScreen then 0 else radius
    {
      if maximized || fullScreen {
        borderRadius := 0;
      } else {
        borderRadius := radius;
      }
    }

    /**
     * FrameWgt::onMax, the title bar's maximise toggle: square corners
     * when maximised, the configured radius when restored; nothing while
     * the window is hidden.
     */
    method OnMax(isMax: bool)
      modifies this`borderRadius
      ensures hidden ==> borderRadius == old(borderRadius)
      ensures !hidden && isMax ==> borderRadius == 0
      ensures !hidden && !isMax ==> borderRadius == radius
    {
      if hidden {
        return;
      }
      if isMax {
        borderRadius := 0;
      } else {
        borderRadius := radius;
      }
    }
  }
}
