/*
 * The Rect tool of the MiRCART editor: a stateless map from the mouse
 * buttons and the canvas's two colours to the strokes to draw.
 */
module ToolRect {
  /** A canvas cell position, as the pointer reports it. */
  datatype Point = Point(x: int, y: int)

  /** One cell `[dx, dy, fg, bg, character]`, offset from the pointer. */
  datatype Patch = Patch(dx: int, dy: int, fg: int, bg: int, ch: char)

  /**
   * One result `[flag, patches]`: the flag is `True` for the hover cursor and
   * `False` for cells written to the canvas.
   */
  datatype Stroke = Stroke(flag: bool, patches: seq<Patch>)

  /** A one-cell block of colour `c` under the pointer. */
  function Block(c: int): Patch
  {
    Patch(0, 0, c, c, ' ')
  }

  /**
   * `onMouseEvent`: a left press (which wins over a right press) writes a
   * block of the foreground colour and then shows it as the cursor; a right
   * press does the same with the background colour; with no button down
   * the cursor alone is shown, in the foreground colour.  The pointer
   * position and whether the mouse is dragging are not consulted.
   */
  function OnMouseEvent(mircFg: int, mircBg: int, mapPoint: Point, isDragging: bool,
                        isLeftDown: bool, isRightDown: bool): (r: seq<Stroke>)
    ensures |r| == if isLeftDown || isRightDown then 2 else 1
    ensures r[|r| - 1].flag
    ensures |r| == 2 ==> !r[0].flag
    ensures forall i :: 0 <= i < |r| ==>
      |r[i].patches| == 1 && r[i].patches[0] == Block(if !isLeftDown && isRightDown then mircBg else mircFg)
  {
    if isLeftDown then
      [Stroke(false, [Block(mircFg)]), Stroke(true, [Block(mircFg)])]
    else if isRightDown then
      [Stroke(false, [Block(mircBg)]), Stroke(true, [Block(mircBg)])]
    else
      [Stroke(true, [Block(mircFg)])]
  }

  /** The strokes depend only on the buttons and the colours. */
  lemma IgnoresPointer(mircFg: int, mircBg: int, p: Point, q: Point, d: bool, e: bool,
                       isLeftDown: bool, isRightDown: bool)
    ensures OnMouseEvent(mircFg, mircBg, p, d, isLeftDown, isRightDown)
         == OnMouseEvent(mircFg, mircBg, q, e, isLeftDown, isRightDown)
  {
  }
}
