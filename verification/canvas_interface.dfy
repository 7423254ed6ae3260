/*
 * The editor's menu commands on the canvas's brush and size: growing and
 * shrinking the brush and the canvas one cell at a time (never below one
 * cell) and choosing the brush colours from the palette toolbar.
 */
module CanvasInterface {
  import opened Wrappers

  /** A size `[width, height]` in cells. */
  datatype Size = Size(w: int, h: int)

  /** The brush colour pair `[left, right]`. */
  datatype Colours = Colours(left: int, right: int)

  /** The kinds of toolbar event the colour command tells apart. */
  datatype EventType = ToolClicked | ToolRightClicked | OtherEvent

  /** The single-dimension size commands. */
  datatype Step = IncrHeight | IncrWidth | DecrHeight | DecrWidth

  /** A decrement leaves a dimension of one (or less) alone. */
  function Shrink(n: int): int
  {
    if n > 1 then n - 1 else n
  }

  /** The brush size after one brush command. */
  function BrushStep(s: Size, step: Step): Size
  {
    match step
    case IncrHeight => s.(h := s.h + 1)
    case IncrWidth => s.(w := s.w + 1)
    case DecrHeight => s.(h := Shrink(s.h))
    case DecrWidth => s.(w := Shrink(s.w))
  }

  /**
   * The resize a canvas command requests, if any: increments always ask
   * for one more row or column; decrements ask for one fewer only when
   * the dimension exceeds one.
   */
  function CanvasRequest(s: Size, step: Step): Option<Size>
  {
    match step
    case IncrHeight => Some(Size(s.w, s.h + 1))
    case IncrWidth => Some(Size(s.w + 1, s.h))
    case DecrHeight => if s.h > 1 then Some(Size(s.w, s.h - 1)) else None
    case DecrWidth => if s.w > 1 then Some(Size(s.w - 1, s.h)) else None
  }

  predicate Positive(s: Size)
  {
    s.w >= 1 && s.h >= 1
  }

  /** The brush size after a run of brush commands. */
  function RunBrush(s: Size, steps: seq<Step>): Size
    decreases |steps|
  {
    if steps == [] then s else RunBrush(BrushStep(s, steps[0]), steps[1..])
  }

  /**
   * The canvas size after a run of canvas commands, each request adopted,
   * and the requests made in order.
   */
  function RunCanvas(s: Size, steps: seq<Step>): (Size, seq<Size>)
    decreases |steps|
  {
    if steps == [] then (s, [])
    else
      match CanvasRequest(s, steps[0])
      case None => RunCanvas(s, steps[1..])
      case Some(t) =>
        var (u, rs) := RunCanvas(t, steps[1..]);
        (u, [t] + rs)
  }

  /** A single command changes one dimension of the brush by at most one and keeps it positive. */
  lemma BrushStepBounds(s: Size, step: Step) returns (t: Size)
    requires Positive(s)
    ensures t == BrushStep(s, step) && Positive(t)
    ensures step.IncrHeight? || step.DecrHeight? ==> t.w == s.w && s.h - 1 <= t.h <= s.h + 1
    ensures step.IncrWidth? || step.DecrWidth? ==> t.h == s.h && s.w - 1 <= t.w <= s.w + 1
    ensures step.IncrHeight? ==> t.h == s.h + 1
    ensures step.IncrWidth? ==> t.w == s.w + 1
  {
    t := BrushStep(s, step);
  }

  /** Shrinking right after growing gives back the size it started from. */
  lemma DecrUndoesIncr(s: Size)
    requires Positive(s)
    ensures BrushStep(BrushStep(s, IncrHeight), DecrHeight) == s
    ensures BrushStep(BrushStep(s, IncrWidth), DecrWidth) == s
    ensures CanvasRequest(Size(s.w, s.h + 1), DecrHeight) == Some(s)
    ensures CanvasRequest(Size(s.w + 1, s.h), DecrWidth) == Some(s)
  {
  }

  /** No run of brush commands takes a positive brush size below one cell. */
  lemma {:induction false} BrushStaysPositive(s: Size, steps: seq<Step>)
    requires Positive(s)
    ensures Positive(RunBrush(s, steps))
    decreases |steps|
  {
    if steps != [] {
      var t := BrushStepBounds(s, steps[0]);
      BrushStaysPositive(t, steps[1..]);
    }
  }

  /**
   * No run of canvas commands from a positive size requests a size below
   * one cell, and the canvas ends at the last size requested (or where it
   * started, when nothing was requested).
   */
  lemma {:induction false} CanvasStaysPositive(s: Size, steps: seq<Step>)
    requires Positive(s)
    ensures Positive(RunCanvas(s, steps).0)
    ensures forall i :: 0 <= i < |RunCanvas(s, steps).1| ==> Positive(RunCanvas(s, steps).1[i])
    ensures |RunCanvas(s, steps).1| > 0 ==> RunCanvas(s, steps).1[|RunCanvas(s, steps).1| - 1] == RunCanvas(s, steps).0
    ensures |RunCanvas(s, steps).1| == 0 ==> RunCanvas(s, steps).0 == s
    decreases |steps|
  {
    if steps != [] {
      match CanvasRequest(s, steps[0])
      case None =>
        CanvasStaysPositive(s, steps[1..]);
      case Some(t) =>
        CanvasStaysPositive(t, steps[1..]);
        var rs := RunCanvas(t, steps[1..]).1;
        assert RunCanvas(s, steps).1 == [t] + rs;
    }
  }

  /** The canvas these commands act on; `resize` itself is not part of this model. */
  class Canvas {
    var brushSize: Size
    var brushColours: Colours
    var canvasSize: Size
    /** The sizes requested from `resize`, in order. */
    var resizes: seq<Size>

    constructor(brushSize: Size, brushColours: Colours, canvasSize: Size)
      ensures this.brushSize == brushSize && this.brushColours == brushColours
      ensures this.canvasSize == canvasSize && resizes == []
    {
      this.brushSize, this.brushColours := brushSize, brushColours;
      this.canvasSize, resizes := canvasSize, [];
    }

    /** `resize`: records the request and adopts the new size. */
    method Resize(newSize: Size)
      modifies this`canvasSize, this`resizes
      ensures canvasSize == newSize && resizes == old(resizes) + [newSize]
    {
      canvasSize, resizes := newSize, resizes + [newSize];
    }
  }

  /** `MiRCARTCanvasInterface`: the menu and toolbar commands of the canvas `parentCanvas`. */
  class CanvasCommands {
    const parentCanvas: Canvas

    constructor(parentCanvas: Canvas)
      ensures this.parentCanvas == parentCanvas
    {
      this.parentCanvas := parentCanvas;
    }

    /** `canvasColour`: a click on a palette entry sets the left colour, a right click the right one. */
    method CanvasColour(eventType: EventType, numColour: int)
      modifies parentCanvas`brushColours
      ensures eventType == ToolClicked ==> parentCanvas.brushColours == old(parentCanvas.brushColours).(left := numColour)
      ensures eventType == ToolRightClicked ==> parentCanvas.brushColours == old(parentCanvas.brushColours).(right := numColour)
      ensures eventType == OtherEvent ==> parentCanvas.brushColours == old(parentCanvas.brushColours)
    {
      if eventType == ToolClicked {
        parentCanvas.brushColours := parentCanvas.brushColours.(left := numColour);
      } else if eventType == ToolRightClicked {
        parentCanvas.brushColours := parentCanvas.brushColours.(right := numColour);
      }
    }

    /** `canvasDecrBrushHeight`. */
    method CanvasDecrBrushHeight()
      modifies parentCanvas`brushSize
      ensures parentCanvas.brushSize == BrushStep(old(parentCanvas.brushSize), DecrHeight)
    {
      if parentCanvas.brushSize.h > 1 {
        parentCanvas.brushSize := parentCanvas.brushSize.(h := parentCanvas.brushSize.h - 1);
      }
    }

    /** `canvasDecrBrushWidth`. */
    method CanvasDecrBrushWidth()
      modifies parentCanvas`brushSize
      ensures parentCanvas.brushSize == BrushStep(old(parentCanvas.brushSize), DecrWidth)
    {
      if parentCanvas.brushSize.w > 1 {
        parentCanvas.brushSize := parentCanvas.brushSize.(w := parentCanvas.brushSize.w - 1);
      }
    }

    /** `canvasDecrBrushHeightWidth`: the height command, then the width command. */
    method CanvasDecrBrushHeightWidth()
      modifies parentCanvas`brushSize
      ensures parentCanvas.brushSize == RunBrush(old(parentCanvas.brushSize), [DecrHeight, DecrWidth])
    {
      CanvasDecrBrushHeight();
      CanvasDecrBrushWidth();
    }

    /** `canvasIncrBrushHeight`. */
    method CanvasIncrBrushHeight()
      modifies parentCanvas`brushSize
      ensures parentCanvas.brushSize == BrushStep(old(parentCanvas.brushSize), IncrHeight)
    {
      parentCanvas.brushSize := parentCanvas.brushSize.(h := parentCanvas.brushSize.h + 1);
    }

    /** `canvasIncrBrushWidth`. */
    method CanvasIncrBrushWidth()
      modifies parentCanvas`brushSize
      ensures parentCanvas.brushSize == BrushStep(old(parentCanvas.brushSize), IncrWidth)
    {
      parentCanvas.brushSize := parentCanvas.brushSize.(w := parentCanvas.brushSize.w + 1);
    }

    /** `canvasIncrBrushHeightWidth`: the height command, then the width command. */
    method CanvasIncrBrushHeightWidth()
      modifies parentCanvas`brushSize
      ensures parentCanvas.brushSize == RunBrush(old(parentCanvas.brushSize), [IncrHeight, IncrWidth])
    {
      CanvasIncrBrushHeight();
      CanvasIncrBrushWidth();
    }

    /** `canvasDecrCanvasHeight`. */
    method CanvasDecrCanvasHeight()
      modifies parentCanvas`canvasSize, parentCanvas`resizes
      ensures var (size, requests) := RunCanvas(old(parentCanvas.canvasSize), [DecrHeight]);
        parentCanvas.canvasSize == size && parentCanvas.resizes == old(parentCanvas.resizes) + requests
    {
      if parentCanvas.canvasSize.h > 1 {
        parentCanvas.Resize(Size(parentCanvas.canvasSize.w, parentCanvas.canvasSize.h - 1));
      }
    }

    /** `canvasDecrCanvasWidth`. */
    method CanvasDecrCanvasWidth()
      modifies parentCanvas`canvasSize, parentCanvas`resizes
      ensures var (size, requests) := RunCanvas(old(parentCanvas.canvasSize), [DecrWidth]);
        parentCanvas.canvasSize == size && parentCanvas.resizes == old(parentCanvas.resizes) + requests
    {
      if parentCanvas.canvasSize.w > 1 {
        parentCanvas.Resize(Size(parentCanvas.canvasSize.w - 1, parentCanvas.canvasSize.h));
      }
    }

    /** `canvasIncrCanvasHeight`. */
    method CanvasIncrCanvasHeight()
      modifies parentCanvas`canvasSize, parentCanvas`resizes
      ensures var (size, requests) := RunCanvas(old(parentCanvas.canvasSize), [IncrHeight]);
        parentCanvas.canvasSize == size && parentCanvas.resizes == old(parentCanvas.resizes) + requests
    {
      parentCanvas.Resize(Size(parentCanvas.canvasSize.w, parentCanvas.canvasSize.h + 1));
    }

    /** `canvasIncrCanvasWidth`. */
    method CanvasIncrCanvasWidth()
      modifies parentCanvas`canvasSize, parentCanvas`resizes
      ensures var (size, requests) := RunCanvas(old(parentCanvas.canvasSize), [IncrWidth]);
        parentCanvas.canvasSize == size && parentCanvas.resizes == old(parentCanvas.resizes) + requests
    {
      parentCanvas.Resize(Size(parentCanvas.canvasSize.w + 1, parentCanvas.canvasSize.h));
    }

    /** `canvasDecrCanvasHeightWidth`: the height command, then the width command on the size it left. */
    method CanvasDecrCanvasHeightWidth()
      modifies parentCanvas`canvasSize, parentCanvas`resizes
      ensures var (size, requests) := RunCanvas(old(parentCanvas.canvasSize), [DecrHeight, DecrWidth]);
        parentCanvas.canvasSize == size && parentCanvas.resizes == old(parentCanvas.resizes) + requests
    {
      CanvasDecrCanvasHeight();
      CanvasDecrCanvasWidth();
    }

    /** `canvasIncrCanvasHeightWidth`: the height command, then the width command on the size it left. */
    method CanvasIncrCanvasHeightWidth()
      modifies parentCanvas`canvasSize, parentCanvas`resizes
      ensures var (size, requests) := RunCanvas(old(parentCanvas.canvasSize), [IncrHeight, IncrWidth]);
        parentCanvas.canvasSize == size && parentCanvas.resizes == old(parentCanvas.resizes) + requests
    {
      CanvasIncrCanvasHeight();
      CanvasIncrCanvasWidth();
    }
  }
}
