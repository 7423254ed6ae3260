/*
 * The Text tool of the MiRCART editor: a cursor that keystrokes write
 * through in row-major order, wrapping at the right edge to the next row
 * and at the bottom-right corner back to the top-left cell, plus the
 * colour pair it writes with.
 */
module ToolText {
  import opened Wrappers

  /** A canvas cell position `[x, y]`. */
  datatype Point = Point(x: int, y: int)

  /** A colour pair `[fg, bg]` of mIRC colour numbers. */
  datatype Colours = Colours(fg: int, bg: int)

  /** The modifier keys of a keyboard event, as far as the tool tells them apart. */
  datatype Modifiers = NoModifier | ShiftOnly | OtherModifiers

  /** One cell `[x, y, fg, bg, attributes, character]` handed to the dispatch function. */
  datatype Cell = Cell(x: int, y: int, fg: int, bg: int, attrs: int, ch: char)

  /**
   * One call of the dispatch function: its flag (`True` for the cursor cell
   * drawn while hovering, `False` for a cell written by a keystroke) and its cell.
   */
  datatype Dispatch = Dispatch(flag: bool, cell: Cell)

  // ---------------------------------------------------------------------
  // The cursor

  /** The cell after `p` on a `w` by `h` canvas. */
  function Advance(p: Point, w: int, h: int): Point
  {
    if p.x < w - 1 then p.(x := p.x + 1)
    else if p.y < h - 1 then Point(0, p.y + 1)
    else Point(0, 0)
  }

  predicate InBounds(p: Point, w: int, h: int)
  {
    0 <= p.x < w && 0 <= p.y < h
  }

  /** The row-major number of cell `p` on a canvas `w` cells wide. */
  function Index(p: Point, w: int): int
  {
    p.y * w + p.x
  }

  /** The cursor after `n` keystrokes. */
  function AdvanceN(p: Point, n: nat, w: int, h: int): Point
    decreases n
  {
    if n == 0 then p else AdvanceN(Advance(p, w, h), n - 1, w, h)
  }

  lemma MulMono(a: int, b: int, w: int)
    requires 0 <= a <= b && 0 <= w
    ensures a * w <= b * w
  {
  }

  /** The cells of a `w` by `h` canvas are numbered 0 to `w*h - 1`. */
  lemma IndexInRange(p: Point, w: int, h: int)
    requires InBounds(p, w, h)
    ensures 0 <= Index(p, w) < w * h
  {
    MulMono(0, p.y, w);
    MulMono(p.y + 1, h, w);
  }

  /** Distinct cells have distinct numbers. */
  lemma IndexInjective(p: Point, q: Point, w: int, h: int)
    requires InBounds(p, w, h) && InBounds(q, w, h)
    requires Index(p, w) == Index(q, w)
    ensures p == q
  {
    if p.y < q.y {
      MulMono(p.y + 1, q.y, w);
    } else if q.y < p.y {
      MulMono(q.y + 1, p.y, w);
    }
  }

  /**
   * A cursor on the canvas stays on it, and one keystroke moves it to the
   * next cell in row-major order, or from the last cell back to the first.
   */
  lemma AdvanceIsSuccessor(p: Point, w: int, h: int)
    requires InBounds(p, w, h)
    ensures InBounds(Advance(p, w, h), w, h)
    ensures Index(p, w) < w * h - 1 ==> Index(Advance(p, w, h), w) == Index(p, w) + 1
    ensures Index(p, w) == w * h - 1 ==> Advance(p, w, h) == Point(0, 0)
  {
    IndexInRange(p, w, h);
    var last := Point(w - 1, h - 1);
    assert Index(last, w) == w * h - 1;
    if Index(p, w) == w * h - 1 {
      IndexInjective(p, last, w, h);
    } else if p.x == w - 1 {
      assert (p.y + 1) * w == p.y * w + w;
    }
  }

  /** `a + b` keystrokes are `a` keystrokes followed by `b` more. */
  lemma {:induction false} AdvanceNAdd(p: Point, a: nat, b: nat, w: int, h: int)
    ensures AdvanceN(p, a + b, w, h) == AdvanceN(AdvanceN(p, a, w, h), b, w, h)
    decreases a
  {
    if a > 0 {
      AdvanceNAdd(Advance(p, w, h), a - 1, b, w, h);
    }
  }

  /** Short of the last cell, `n` keystrokes move the cursor `n` cells on. */
  lemma {:induction false} AdvanceNCounts(p: Point, n: nat, w: int, h: int)
    requires InBounds(p, w, h) && Index(p, w) + n < w * h
    ensures InBounds(AdvanceN(p, n, w, h), w, h)
    ensures Index(AdvanceN(p, n, w, h), w) == Index(p, w) + n
    decreases n
  {
    if n > 0 {
      AdvanceIsSuccessor(p, w, h);
      AdvanceNCounts(Advance(p, w, h), n - 1, w, h);
    }
  }

  /** One keystroke per cell of the canvas brings the cursor back to where it started. */
  lemma FullCycle(p: Point, w: int, h: int)
    requires InBounds(p, w, h)
    ensures AdvanceN(p, w * h, w, h) == p
  {
    IndexInRange(p, w, h);
    var k := Index(p, w);
    var origin := Point(0, 0);
    var toLast := w * h - 1 - k;
    AdvanceNCounts(p, toLast, w, h);
    var last := AdvanceN(p, toLast, w, h);
    AdvanceIsSuccessor(last, w, h);
    assert AdvanceN(last, 1, w, h) == origin;
    assert Index(origin, w) == 0;
    AdvanceNCounts(origin, k, w, h);
    IndexInjective(AdvanceN(origin, k, w, h), p, w, h);
    AdvanceNAdd(p, toLast, 1, w, h);
    AdvanceNAdd(p, toLast + 1, k, w, h);
  }

  // ---------------------------------------------------------------------
  // The tool

  /** `MiRCARTToolText`: the colours and the cursor, both unset until the first event. */
  class TextTool {
    var textColours: Option<Colours>
    var textPos: Option<Point>

    constructor()
      ensures textColours == None && textPos == None
    {
      textColours, textPos := None, None;
    }

    /**
     * `onKeyboardEvent`: a key pressed with modifiers other than none or
     * Shift is left to others (the result is `True`).  Otherwise the colours
     * and the cursor, if still unset, are taken from the brush and the
     * pointer, the key is written at the cursor, the cursor moves to the
     * next cell of the `canvasW` by `canvasH` canvas, and the result is `False`.
     */
    method OnKeyboardEvent(modifiers: Modifiers, atPoint: Point, brushColours: Colours, keyChar: char,
                           canvasW: int, canvasH: int)
      returns (unhandled: bool, sent: seq<Dispatch>)
      modifies this
      ensures modifiers == OtherModifiers ==>
        unhandled && sent == [] && textColours == old(textColours) && textPos == old(textPos)
      ensures modifiers != OtherModifiers ==>
        var colours := old(textColours).GetOr(brushColours);
        var pos := old(textPos).GetOr(atPoint);
        && !unhandled
        && sent == [Dispatch(false, Cell(pos.x, pos.y, colours.fg, colours.bg, 0, keyChar))]
        && textColours == Some(colours)
        && textPos == Some(Advance(pos, canvasW, canvasH))
      ensures modifiers != OtherModifiers && InBounds(old(textPos).GetOr(atPoint), canvasW, canvasH) ==>
        textPos.Some? && InBounds(textPos.value, canvasW, canvasH)
    {
      if modifiers == OtherModifiers {
        return true, [];
      }
      if textColours == None {
        textColours := Some(brushColours);
      }
      if textPos == None {
        textPos := Some(atPoint);
      }
      var pos, colours := textPos.value, textColours.value;
      sent := [Dispatch(false, Cell(pos.x, pos.y, colours.fg, colours.bg, 0, keyChar))];
      if pos.x < canvasW - 1 {
        textPos := Some(pos.(x := pos.x + 1));
      } else if pos.y < canvasH - 1 {
        textPos := Some(Point(0, pos.y + 1));
      } else {
        textPos := Some(Point(0, 0));
      }
      if InBounds(pos, canvasW, canvasH) {
        AdvanceIsSuccessor(pos, canvasW, canvasH);
      }
      unhandled := false;
    }

    /**
     * `onMouseEvent`: the cursor moves to the pointer; a left press takes the
     * brush colours, a right press takes them swapped, anything else keeps
     * the current colours (taking the brush's if unset); then the cursor
     * cell `_` is drawn at the pointer.
     */
    method OnMouseEvent(atPoint: Point, brushColours: Colours, isLeftDown: bool, isRightDown: bool)
      returns (sent: seq<Dispatch>)
      modifies this
      ensures textPos == Some(atPoint)
      ensures isLeftDown ==> textColours == Some(brushColours)
      ensures !isLeftDown && isRightDown ==> textColours == Some(Colours(brushColours.bg, brushColours.fg))
      ensures !isLeftDown && !isRightDown ==> textColours == Some(old(textColours).GetOr(brushColours))
      ensures textColours.Some? &&
        sent == [Dispatch(true, Cell(atPoint.x, atPoint.y, textColours.value.fg, textColours.value.bg, 0, '_'))]
    {
      if isLeftDown {
        textColours := Some(brushColours);
        textPos := Some(atPoint);
      } else if isRightDown {
        textColours := Some(Colours(brushColours.bg, brushColours.fg));
        textPos := Some(atPoint);
      } else {
        if textColours == None {
          textColours := Some(brushColours);
        }
        textPos := Some(atPoint);
      }
      var colours := textColours.value;
      sent := [Dispatch(true, Cell(atPoint.x, atPoint.y, colours.fg, colours.bg, 0, '_'))];
    }
  }
}
