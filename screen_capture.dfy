/**
 * The screenshot selection dialog (UI/ScreenCaptureWgt): a full-screen
 * dialog on which the user drags out a rectangle, may then move it around
 * the screen, and confirms or cancels it from a small menu placed under
 * the rectangle.
 *
 * Positions are Qt's integer QPoint coordinates. The grabbed screen image,
 * the blurred background and the clipboard are not modelled; confirming
 * records the rectangle that would be copied.
 */
module ScreenCapture {
  import opened Wrappers

  /** QPoint. */
  datatype Point = Point(x: int, y: int)

  /**
   * A QRect given by its corners: left/top and right/bottom are inclusive,
   * so the width is right - left + 1, as with QRect(QPoint, QPoint).
   */
  datatype Rect = Rect(left: int, top: int, right: int, bottom: int)
  {
    function Width(): int { right - left + 1 }
    function Height(): int { bottom - top + 1 }
    function BottomRight(): Point { Point(right, bottom) }

    /** QRect::contains(QPoint) on a rectangle whose corners are ordered. */
    predicate Contains(p: Point) {
      left <= p.x <= right && top <= p.y <= bottom
    }
  }

  /** ScreenCaptureWgt::STATUS */
  datatype Status = Select | Mov | SetWidthHeight

  /** Mouse buttons: only the left one selects. */
  datatype Button = LeftButton | RightButton | MiddleButton

  /** The two cursors the dialog sets. */
  datatype Cursor = ArrowCursor | SizeAllCursor

  /** Whether the dialog is still open, or how it was closed (QDialog::accept / reject). */
  datatype DialogResult = Open | Accepted | Rejected

  /** The fixed height of the menu widget. */
  const MenuHeight: int := 50

  /** The gap between the bottom of the selection and the top of the menu. */
  const MenuGap: int := 10

  /** The point showEvent puts both corners at. */
  const Unset: Point := Point(-1, -1)

  function Min(a: int, b: int): int { if a <= b then a else b }
  function Max(a: int, b: int): int { if a <= b then b else a }

  /** ScreenCaptureWgt::scRect: the rectangle spanned by the two corners, whatever their order. */
  function ScRect(start: Point, end: Point): (r: Rect)
    ensures r.left <= r.right && r.top <= r.bottom
    ensures r.Contains(start) && r.Contains(end)
    ensures r.left in {start.x, end.x} && r.right in {start.x, end.x}
    ensures r.top in {start.y, end.y} && r.bottom in {start.y, end.y}
  {
    Rect(Min(start.x, end.x), Min(start.y, end.y), Max(start.x, end.x), Max(start.y, end.y))
  }

  /** Which corner was pressed first does not matter. */
  lemma ScRectSymmetric(a: Point, b: Point)
    ensures ScRect(a, b) == ScRect(b, a)
  {
  }

  /** scRect is the smallest rectangle holding both corners. */
  lemma ScRectSmallest(a: Point, b: Point, r: Rect, p: Point)
    requires r.Contains(a) && r.Contains(b)
    requires ScRect(a, b).Contains(p)
    ensures r.Contains(p)
  {
  }

  /**
   * One axis of a drag in MOV: both ends move by d when both stay within
   * [0, max]; otherwise neither moves.
   */
  function DragAxis(s: int, e: int, d: int, max: int): (r: (int, int))
    ensures r == (s + d, e + d) || r == (s, e)
    ensures r.1 - r.0 == e - s
    ensures r == (s + d, e + d) <==> d == 0 || (0 <= s + d <= max && 0 <= e + d <= max)
  {
    if 0 <= s + d <= max && 0 <= e + d <= max then (s + d, e + d) else (s, e)
  }

  /** A selection lying on the screen stays on the screen, whatever the drag. */
  lemma DragAxisStaysOnScreen(s: int, e: int, d: int, max: int)
    requires 0 <= s <= max && 0 <= e <= max
    ensures var r := DragAxis(s, e, d, max); 0 <= r.0 <= max && 0 <= r.1 <= max
  {
  }

  /** A drag keeps the selection's width and height. */
  lemma DragKeepsSize(start: Point, end: Point, dx: int, dy: int, maxW: int, maxH: int)
    ensures
      var (sx, ex) := DragAxis(start.x, end.x, dx, maxW);
      var (sy, ey) := DragAxis(start.y, end.y, dy, maxH);
      var r := ScRect(Point(sx, sy), Point(ex, ey));
      r.Width() == ScRect(start, end).Width() && r.Height() == ScRect(start, end).Height()
  {
  }

  /**
   * One coordinate of the menu position: the wanted value, raised to 0 if
   * below it, then lowered to limit if above it (in that order).
   */
  function ClampMenu(v: int, limit: int): (r: int)
    ensures 0 <= limit ==> 0 <= r <= limit
    ensures 0 <= v <= limit ==> r == v
    ensures limit < 0 ==> r == limit
  {
    var lifted := if v < 0 then 0 else v;
    if lifted > limit then limit else lifted
  }

  /**
   * The menu's place after a release: right-aligned with the selection,
   * MenuGap pixels below it, kept on the screen.
   */
  function MenuPos(sel: Rect, maxW: int, maxH: int, menuW: int): (p: Point)
    ensures menuW <= maxW ==> 0 <= p.x <= maxW - menuW
    ensures MenuHeight <= maxH ==> 0 <= p.y <= maxH - MenuHeight
  {
    Point(ClampMenu(sel.BottomRight().x - menuW, maxW - menuW),
          ClampMenu(sel.BottomRight().y + MenuGap, maxH - MenuHeight))
  }

  /** Where there is room, the menu sits exactly under the right end of the selection. */
  lemma MenuUnderSelection(sel: Rect, maxW: int, maxH: int, menuW: int)
    requires 0 <= sel.right - menuW <= maxW - menuW
    requires 0 <= sel.bottom + MenuGap <= maxH - MenuHeight
    ensures MenuPos(sel, maxW, maxH, menuW) == Point(sel.right - menuW, sel.bottom + MenuGap)
  {
  }

  /** A screen narrower than the menu pushes the menu past the left edge. */
  lemma MenuOffScreenWhenTooWide(sel: Rect, maxW: int, maxH: int, menuW: int)
    requires maxW < menuW
    ensures MenuPos(sel, maxW, maxH, menuW).x == maxW - menuW < 0
  {
  }

  class ScreenCaptureWgt {
    /** m_maxRect's width and height: the primary screen's size. */
    const maxW: int
    const maxH: int
    /** The menu widget's width, as its layout makes it. */
    const menuW: int

    /** m_status */
    var status: Status
    /** m_stratPos and m_endPos: the two corners of the selection. */
    var start: Point
    var end: Point
    /** m_movPos: where the last MOV press or drag event was. */
    var movPos: Point
    /** Whether m_pMenu is shown, and where. */
    var menuVisible: bool
    var menuPos: Point
    var cursor: Cursor
    var result: DialogResult
    /** The rectangle onOk copied out of the screen image and onto the clipboard. */
    var captured: Option<Rect>

    /** The selection on the screen. */
    function Selection(): (r: Rect)
      reads this`start, this`end
      ensures r == ScRect(start, end)
      ensures r == ScRect(end, start)
    {
      ScRectSymmetric(start, end);
      ScRect(start, end)
    }

    /**
     * ScreenCaptureWgt::ScreenCaptureWgt: selecting, the menu hidden, nothing
     * chosen yet. The constructor ends with showFullScreen(), which delivers
     * showEvent before it returns, so both corners start at (-1, -1).
     */
    constructor (screenWidth: int, screenHeight: int, menuWidth: int)
      ensures maxW == screenWidth && maxH == screenHeight && menuW == menuWidth
      ensures status == Select && !menuVisible && result == Open && captured == None
      ensures start == Unset && end == Unset && movPos == Point(0, 0)
      ensures Selection() == Rect(-1, -1, -1, -1)
      ensures cursor == ArrowCursor
    {
      maxW, maxH, menuW := screenWidth, screenHeight, menuWidth;
      status := Select;
      start, end, movPos := Unset, Unset, Point(0, 0);
      menuVisible := false;
      menuPos := Point(0, 0);
      cursor := ArrowCursor;
      result := Open;
      captured := None;
    }

    /** ScreenCaptureWgt::showEvent: both corners are reset to (-1, -1). */
    method ShowEvent()
      modifies this`start, this`end
      ensures start == Unset && end == Unset
      ensures Selection() == Rect(-1, -1, -1, -1)
    {
      start := Unset;
      end := Unset;
    }

    /**
     * ScreenCaptureWgt::mousePressEvent. A button other than the left one
     * closes the dialog and leaves the selection alone. Otherwise the menu
     * hides; in SELECT the press starts a new selection; in MOV a press
     * outside the selection starts a new one from there, keeping the old
     * end corner, and a press inside starts a move.
     */
    method MousePress(button: Button, pos: Point)
      modifies this`status, this`start, this`end, this`movPos, this`menuVisible, this`cursor, this`result
      ensures button != LeftButton ==>
        && result == Rejected
        && status == old(status) && start == old(start) && end == old(end) && movPos == old(movPos)
        && menuVisible == old(menuVisible) && cursor == old(cursor)
      ensures button == LeftButton ==> !menuVisible && result == old(result)
      ensures button == LeftButton && old(status) == Select ==>
        status == Select && start == pos && end == pos && movPos == old(movPos) && cursor == old(cursor)
      ensures button == LeftButton && old(status) == Mov && !old(Selection()).Contains(pos) ==>
        status == Select && start == pos && end == old(end) && movPos == old(movPos) && cursor == old(cursor)
      ensures button == LeftButton && old(status) == Mov && old(Selection()).Contains(pos) ==>
        status == Mov && start == old(start) && end == old(end) && movPos == pos && cursor == SizeAllCursor
      ensures button == LeftButton && old(status) == SetWidthHeight ==>
        status == old(status) && start == old(start) && end == old(end) && movPos == old(movPos) && cursor == old(cursor)
    {
      if button != LeftButton {
        result := Rejected;
        return;
      }
      menuVisible := false;
      if status == Select {
        start := pos;
        end := pos;
      } else if status == Mov {
        var rect := Selection();
        if !rect.Contains(pos) {
          start := pos;
          status := Select;
        } else {
          movPos := pos;
          cursor := SizeAllCursor;
        }
      }
    }

    /**
     * ScreenCaptureWgt::mouseMoveEvent. In SELECT the end corner follows
     * the mouse. In MOV the selection is translated by the mouse's motion
     * since the last event, separately per axis and only along an axis on
     * which it stays on the screen; the mouse position is remembered.
     */
    method MouseMove(pos: Point)
      modifies this`start, this`end, this`movPos
      ensures old(status) == Select ==> start == old(start) && end == pos && movPos == old(movPos)
      ensures status == Mov ==>
        var (sx, ex) := DragAxis(old(start).x, old(end).x, pos.x - old(movPos).x, maxW);
        var (sy, ey) := DragAxis(old(start).y, old(end).y, pos.y - old(movPos).y, maxH);
        start == Point(sx, sy) && end == Point(ex, ey) && movPos == pos
      ensures status == SetWidthHeight ==> start == old(start) && end == old(end) && movPos == old(movPos)
    {
      if status == Select {
        end := pos;
      } else if status == Mov {
        var dx, dy := pos.x - movPos.x, pos.y - movPos.y;
        var sx, ex := start.x + dx, end.x + dx;
        var sy, ey := start.y + dy, end.y + dy;
        if sx >= 0 && sx <= maxW && ex >= 0 && ex <= maxW {
          start := start.(x := sx);
          end := end.(x := ex);
        }
        if sy >= 0 && sy <= maxH && ey >= 0 && ey <= maxH {
          start := start.(y := sy);
          end := end.(y := ey);
        }
        movPos := pos;
      }
    }

    /**
     * ScreenCaptureWgt::mouseReleaseEvent: a finished selection becomes
     * movable, a finished move restores the arrow, and the menu is shown
     * at MenuPos.
     */
    method MouseRelease()
      modifies this`status, this`cursor, this`menuVisible, this`menuPos
      ensures old(status) == Select ==> status == Mov && cursor == old(cursor)
      ensures old(status) == Mov ==> status == Mov && cursor == ArrowCursor
      ensures old(status) == SetWidthHeight ==> status == SetWidthHeight && cursor == old(cursor)
      ensures menuVisible && menuPos == MenuPos(Selection(), maxW, maxH, menuW)
    {
      if status == Select {
        status := Mov;
      } else if status == Mov {
        cursor := ArrowCursor;
      }
      menuVisible := true;
      var pos := Selection().BottomRight();
      pos := Point(pos.x, pos.y + MenuGap);
      pos := pos.(x := pos.x - menuW);
      if pos.x < 0 {
        pos := pos.(x := 0);
      }
      if pos.x > maxW - menuW {
        pos := pos.(x := maxW - menuW);
      }
      if pos.y < 0 {
        pos := pos.(y := 0);
      }
      if pos.y > maxH - MenuHeight {
        pos := pos.(y := maxH - MenuHeight);
      }
      menuPos := pos;
    }

    /** ScreenCaptureWgt::onOk: the selection is captured and the dialog accepted. */
    method OnOk()
      modifies this`captured, this`result
      ensures captured == Some(Selection()) && result == Accepted
    {
      captured := Some(Selection());
      result := Accepted;
    }

    /** ScreenCaptureWgt::onClose: the dialog is rejected. */
    method OnClose()
      modifies this`result
      ensures result == Rejected
    {
      result := Rejected;
    }
  }

  /** Pressing, dragging and releasing in SELECT selects the rectangle between the two positions. */
  method SelectByDrag(w: ScreenCaptureWgt, from: Point, to: Point)
    requires w.status == Select
    modifies w
    ensures w.status == Mov && w.Selection() == ScRect(from, to)
    ensures w.menuVisible
  {
    w.MousePress(LeftButton, from);
    w.MouseMove(to);
    w.MouseRelease();
  }
}
