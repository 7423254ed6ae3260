/**
 * The MiRC2png converter object.  Its fields are the ones `__init__`,
 * `_getMaxCols` and `_render` update in place; every method is proved
 * against the scanner functions of mirc_scan.dfy, and the constructor
 * against the whole-document properties of mirc_scan_properties.dfy.
 *
 * The PIL image is represented by its size, its fill colour and the
 * sequence of drawing calls made on it (`paints`).  An exception raised
 * while rendering is returned as an `Error` instead of unwinding.
 */
module Converter {
  import opened Wrappers
  import opened Strings
  import opened MircScan
  import opened MircScanProperties

  /** The pass function handed to the two parse methods as `fn`. */
  datatype Sink =
    | Sync   // `_syncChar` / `_syncColourSpecState`: the rendering pass
    | Count  // `_countChar` / `_countColourSpecState`: the counting pass

  /**
   * `_render` as `__init__` runs it (pen at the origin, white on black,
   * whatever the counting pass left in the scanner) performs the
   * conversion of the document, and its paints fit the image.
   */
  lemma ConversionOutcome(
    lines: seq<string>, m0: Machine, gw: nat, gh: nat, failure: Option<Error>, paints: seq<Paint>)
    requires m0.x == 0 && m0.y == 0 && m0.fg == DefaultFg && m0.bg == DefaultBg
    requires match RenderRows(lines, 0, m0, [], gw, gh)
             case Ok(v) => failure == None && paints == v.1
             case Err(e) => failure == Some(e)
    ensures match Render(lines, gw, gh)
            case Ok(v) => failure == None && paints == v.1
            case Err(e) => failure == Some(e)
    ensures failure == None ==> forall p :: p in paints ==> Inside(p, Span(MaxCols(lines), gw), Span(|lines|, gh), gw, gh)
  {
    RenderRowsIgnoresScanner(lines, m0, Initial, [], gw, gh);
    if Render(lines, gw, gh).Ok? {
      RenderInsideImage(lines, gw, gh);
    }
  }

  class MiRC2png {
    const inLines: seq<string>
    const glyphW: nat  // `outImgFontSize[0]`, the advance of one glyph
    const glyphH: nat  // `outImgFontSize[1]`, the font height plus three pixels

    var inColsMax: nat
    var inRows: nat
    var imgWidth: int
    var imgHeight: int
    var imgFill: Rgba
    var paints: seq<Paint>      // the drawing calls made on the image, in order
    var failure: Option<Error>  // the exception `_render` raised, if any

    // scanner state
    var state: Mode
    var inCurCol: nat
    var inCurDigits: nat
    var inCurColourSpec: string
    // style flags
    var inCurBold: bool
    var inCurItalic: bool
    var inCurUnderline: bool
    // pen
    var outCurX: nat
    var outCurY: nat
    var outCurColourFg: nat
    var outCurColourBg: nat

    /** The scanner fields as one value. */
    function Scan(): Scanner
      reads this`state, this`inCurCol, this`inCurDigits, this`inCurColourSpec
    {
      Scanner(state, inCurCol, inCurDigits, inCurColourSpec)
    }

    /** Every field the rendering pass reads and writes, as one value. */
    function Current(): Machine
      reads this`state, this`inCurCol, this`inCurDigits, this`inCurColourSpec
      reads this`inCurBold, this`inCurItalic, this`inCurUnderline
      reads this`outCurX, this`outCurY, this`outCurColourFg, this`outCurColourBg
    {
      Machine(Scan(), inCurBold, inCurItalic, inCurUnderline, outCurX, outCurY, outCurColourFg, outCurColourBg)
    }

    /**
     * The object holds outcome `r` of the pure model: on success its fields
     * are the resulting machine and `paints0` followed by the new paints;
     * on failure `err` is the exception (the fields are then left as the
     * interrupted method left them).
     */
    ghost predicate Reflects(r: Result<(Machine, seq<Paint>)>, err: Option<Error>, paints0: seq<Paint>)
      reads this`state, this`inCurCol, this`inCurDigits, this`inCurColourSpec
      reads this`inCurBold, this`inCurItalic, this`inCurUnderline
      reads this`outCurX, this`outCurY, this`outCurColourFg, this`outCurColourBg, this`paints
    {
      match r
      case Ok(v) => err == None && Current() == v.0 && paints == paints0 + v.1
      case Err(e) => err == Some(e)
    }

    /**
     * `__init__`: reads the lines, sizes the image from `_getMaxCols` and
     * the font metrics, fills it black, starts with white on black and
     * renders.  The font file is represented by the width of a space and
     * the font height.
     */
    constructor (lines: seq<string>, fontW: nat, fontH: nat)
      ensures inLines == lines && glyphW == fontW && glyphH == fontH + 3
      ensures inColsMax == MaxCols(lines) && inRows == |lines|
      ensures imgWidth == Span(inColsMax, glyphW) && imgHeight == Span(inRows, glyphH)
      ensures imgFill == NormalPalette[1]
      ensures match MircScan.Render(lines, glyphW, glyphH)
              case Ok(v) => failure == None && paints == v.1
              case Err(e) => failure == Some(e)
      ensures failure == None ==> forall p :: p in paints ==> Inside(p, imgWidth, imgHeight, glyphW, glyphH)
    {
      inLines := lines;
      glyphW, glyphH := fontW, fontH + 3;
      new;
      SizeImage();
      failure := Draw();
    }

    /** The first half of `__init__`: measure the document and size the image. */
    method SizeImage()
      modifies this`state, this`inCurCol, this`inCurDigits, this`inCurColourSpec
      modifies this`inCurBold, this`inCurItalic, this`inCurUnderline
      modifies this`outCurColourFg, this`outCurColourBg, this`outCurX, this`paints
      modifies this`inColsMax, this`inRows, this`imgWidth, this`imgHeight, this`imgFill
      ensures inColsMax == MaxCols(inLines) && inRows == |inLines|
      ensures imgWidth == Span(inColsMax, glyphW) && imgHeight == Span(inRows, glyphH)
      ensures imgFill == NormalPalette[1]
    {
      var cols := GetMaxCols(inLines);
      assert inLines[..|inLines|] == inLines;
      inColsMax := cols.value;
      inRows := |inLines|;
      imgWidth, imgHeight := inColsMax * glyphW, inRows * glyphH;
      SpanIsProduct(inColsMax, glyphW);
      SpanIsProduct(inRows, glyphH);
      imgFill := NormalPalette[1];
    }

    /** The second half of `__init__`: start white on black and render. */
    method Draw() returns (err: Option<Error>)
      modifies this`state, this`inCurCol, this`inCurDigits, this`inCurColourSpec
      modifies this`inCurBold, this`inCurItalic, this`inCurUnderline
      modifies this`outCurX, this`outCurY, this`outCurColourFg, this`outCurColourBg, this`paints
      ensures match MircScan.Render(inLines, glyphW, glyphH)
              case Ok(v) => err == None && paints == v.1
              case Err(e) => err == Some(e)
      ensures err == None ==> forall p :: p in paints ==> Inside(p, Span(MaxCols(inLines), glyphW), Span(|inLines|, glyphH), glyphW, glyphH)
    {
      paints := [];
      outCurColourBg, outCurColourFg := DefaultBg, DefaultFg;
      ghost var m0 := Current().(x := 0, y := 0);
      err := Render();
      assert [] + paints == paints;
      ConversionOutcome(inLines, m0, glyphW, glyphH, err, paints);
    }

    /**
     * `_getMaxCols`: the widest of the first `|lines|` rows of `inLines`,
     * counted by the scanner.  The loop runs over `lines` but indexes
     * `inLines`, so a longer `lines` raises IndexError.
     */
    method GetMaxCols(lines: seq<string>) returns (r: Result<nat>)
      modifies this`state, this`inCurCol, this`inCurDigits, this`inCurColourSpec
      modifies this`inCurBold, this`inCurItalic, this`inCurUnderline
      modifies this`outCurColourFg, this`outCurColourBg, this`outCurX, this`paints
      ensures outCurColourFg == old(outCurColourFg) && outCurColourBg == old(outCurColourBg)
      ensures outCurX == old(outCurX) && paints == old(paints)
      ensures |lines| <= |inLines| ==> r == Ok(MaxCols(inLines[..|lines|]))
      ensures |lines| > |inLines| ==> r == Err(LineIndexOutOfRange(|inLines|))
    {
      var maxCols := 0;
      var row := 0;
      while row < |lines|
        invariant row <= |lines| && row <= |inLines|
        invariant maxCols == MaxCols(inLines[..row])
        invariant outCurColourFg == old(outCurColourFg) && outCurColourBg == old(outCurColourBg)
        invariant outCurX == old(outCurX) && paints == old(paints)
      {
        if row >= |inLines| {
          return Err(LineIndexOutOfRange(row));
        }
        var curRowCols := CountRow(inLines[row]);
        assert inLines[..row + 1][..row] == inLines[..row];
        maxCols := if maxCols < curRowCols then curRowCols else maxCols;
        row := row + 1;
      }
      return Ok(maxCols);
    }

    /**
     * One row of `_getMaxCols`: resets the scanner and the style flags,
     * then counts a column for every character handed to `_countChar`.
     */
    method CountRow(line: string) returns (curRowCols: nat)
      modifies this`state, this`inCurCol, this`inCurDigits, this`inCurColourSpec
      modifies this`inCurBold, this`inCurItalic, this`inCurUnderline
      modifies this`outCurColourFg, this`outCurColourBg, this`outCurX, this`paints
      ensures outCurColourFg == old(outCurColourFg) && outCurColourBg == old(outCurColourBg)
      ensures outCurX == old(outCurX) && paints == old(paints)
      ensures curRowCols == LineCols(line)
    {
      StartRow();
      curRowCols := 0;
      while inCurCol < |line|
        invariant inCurCol <= |line|
        invariant outCurColourFg == old(outCurColourFg) && outCurColourBg == old(outCurColourBg)
        invariant outCurX == old(outCurX) && paints == old(paints)
        invariant LineCols(line) == curRowCols + CountLine(line, Scan()).1
        decreases Remaining(line, Scan())
      {
        var _, _ := CountLineStep(line, Scan());
        if state == Char {
          var handedOn, _ := ParseAsChar(line[inCurCol], Count);
          if handedOn {
            curRowCols := curRowCols + 1;
          }
        } else {
          var finished, _ := ParseAsColourSpec(line[inCurCol], Count);
        }
      }
    }

    /**
     * `_render`: scans every line from a fresh scanner and unstyled flags,
     * starting at the left edge; after each line the pen returns to the
     * left edge one glyph height lower.  Colours carry over between lines.
     */
    method Render() returns (err: Option<Error>)
      modifies this`state, this`inCurCol, this`inCurDigits, this`inCurColourSpec
      modifies this`inCurBold, this`inCurItalic, this`inCurUnderline
      modifies this`outCurX, this`outCurY, this`outCurColourFg, this`outCurColourBg, this`paints
      ensures Reflects(RenderRows(inLines, 0, old(Current()).(x := 0, y := 0), old(paints), glyphW, glyphH), err, [])
    {
      outCurX, outCurY := 0, 0;
      ghost var target := RenderRows(inLines, 0, old(Current()).(x := 0, y := 0), old(paints), glyphW, glyphH);
      assert Current() == old(Current()).(x := 0, y := 0);
      var row := 0;
      while row < |inLines|
        invariant row <= |inLines|
        invariant RenderRows(inLines, row, Current(), paints, glyphW, glyphH) == target
      {
        ghost var lineRun, next := RenderRowsAdvances(inLines, row, Current(), paints, glyphW, glyphH);
        err := RenderRow(inLines[row]);
        if err.Some? {
          return;
        }
        assert [] + lineRun.value.1 == lineRun.value.1;
        outCurX, outCurY := 0, outCurY + glyphH;
        assert Current() == next;
        row := row + 1;
      }
      err := None;
    }

    /**
     * One row of `_render` before the carriage return: resets the scanner
     * and the style flags, then feeds every character to the parse methods
     * with the sync functions.
     */
    method RenderRow(line: string) returns (err: Option<Error>)
      modifies this`state, this`inCurCol, this`inCurDigits, this`inCurColourSpec
      modifies this`inCurBold, this`inCurItalic, this`inCurUnderline
      modifies this`outCurX, this`outCurColourFg, this`outCurColourBg, this`paints
      ensures Reflects(RunLine(line, LineStart(old(Current())), old(paints), glyphW), err, [])
    {
      ghost var lineRun := RunLine(line, LineStart(Current()), paints, glyphW);
      StartRow();
      while inCurCol < |line|
        invariant inCurCol <= |line|
        invariant RunLine(line, Current(), paints, glyphW) == lineRun
        decreases Remaining(line, Scan())
      {
        RunLineAdvances(line, Current(), paints, glyphW);
        var c := line[inCurCol];
        if state == Char {
          var handedOn;
          handedOn, err := ParseAsChar(c, Sync);
        } else {
          var finished;
          finished, err := ParseAsColourSpec(c, Sync);
        }
        if err.Some? {
          return;
        }
      }
      err := None;
    }

    /**
     * The start of every row in both passes: clears the style flags and
     * the colour-spec buffer and puts the scanner at column 0 in `Char`
     * state; the pen and the paints are left alone.
     */
    method StartRow()
      modifies this`state, this`inCurCol, this`inCurDigits, this`inCurColourSpec
      modifies this`inCurBold, this`inCurItalic, this`inCurUnderline
      ensures Current() == LineStart(old(Current()))
    {
      inCurBold, inCurItalic, inCurUnderline := false, false, false;
      inCurColourSpec, state := "", Char;
      inCurCol, inCurDigits := 0, 0;
    }

    /**
     * `_parseAsChar`: consumes `c`; the colour introducer switches to the
     * colour-spec state, any other character goes to the pass function
     * (whose answer, always true, is returned).
     */
    method ParseAsChar(c: char, sink: Sink) returns (handedOn: bool, err: Option<Error>)
      requires state == Char
      modifies this`state, this`inCurCol
      modifies this`inCurBold, this`inCurItalic, this`inCurUnderline, this`inCurColourSpec
      modifies this`outCurColourFg, this`outCurColourBg, this`outCurX, this`paints
      ensures handedOn == MircScan.ParseAsChar(old(Scan()), c).1
      ensures sink == Count ==>
        && err == None && paints == old(paints)
        && Current() == old(Current()).(scan := CountOn(old(Scan()), c).0)
        && CountOn(old(Scan()), c).1 == if handedOn then 1 else 0
      ensures sink == Sync ==> Reflects(RenderOn(old(Current()), c, glyphW), err, old(paints))
    {
      if c == ColourIntroducer {
        state, inCurCol := Digit0, inCurCol + 1;
        return false, None;
      }
      inCurCol := inCurCol + 1;
      handedOn := true;
      match sink {
        case Count =>
          err := None;
        case Sync =>
          err := SyncChar(c);
      }
    }

    /**
     * `_parseAsColourSpec`: appends and consumes a comma (first part only)
     * or a digit (at most two per part); anything else hands the buffered
     * spec to the pass function and returns to `Char` without consuming.
     */
    method ParseAsColourSpec(c: char, sink: Sink) returns (finished: bool, err: Option<Error>)
      requires state != Char
      modifies this`state, this`inCurCol, this`inCurDigits, this`inCurColourSpec
      modifies this`outCurColourFg, this`outCurColourBg
      ensures finished <==> MircScan.ParseAsColourSpec(old(Scan()), c).Finish?
      ensures sink == Count ==>
        && err == None
        && Current() == old(Current()).(scan := CountOn(old(Scan()), c).0)
        && CountOn(old(Scan()), c).1 == 0
      ensures sink == Sync ==> Reflects(RenderOn(old(Current()), c, glyphW), err, old(paints))
      ensures sink == Sync && err.Some? ==>
        && state == old(state) && inCurCol == old(inCurCol)
        && inCurDigits == old(inCurDigits) && inCurColourSpec == old(inCurColourSpec)
    {
      finished, err := false, None;
      if state == Digit0 && c == ',' {
        inCurColourSpec, inCurCol := inCurColourSpec + [c], inCurCol + 1;
        state, inCurDigits := Digit1, 0;
      } else if state == Digit0 && IsDigit(c) && inCurDigits <= 1 {
        inCurColourSpec, inCurCol := inCurColourSpec + [c], inCurCol + 1;
        inCurDigits := inCurDigits + 1;
      } else if state == Digit1 && IsDigit(c) && inCurDigits <= 1 {
        inCurColourSpec, inCurCol := inCurColourSpec + [c], inCurCol + 1;
        inCurDigits := inCurDigits + 1;
      } else {
        finished := true;
        if sink == Sync {
          err := SyncColourSpecState(inCurColourSpec);
        }
        // an exception in the pass function leaves the buffer and the state as they were
        if err == None {
          inCurColourSpec, state := "", Char;
          inCurDigits := 0;
        }
      }
    }

    /**
     * `_syncChar`: toggles or resets the style flags, swaps the colours, or
     * fills the glyph box at the pen (and for a non-space draws the glyph)
     * and moves the pen one glyph to the right.
     */
    method SyncChar(c: char) returns (err: Option<Error>)
      modifies this`inCurBold, this`inCurItalic, this`inCurUnderline, this`inCurColourSpec
      modifies this`outCurColourFg, this`outCurColourBg, this`outCurX, this`paints
      ensures Reflects(MircScan.SyncChar(old(Current()), c, glyphW), err, old(paints))
    {
      err := None;
      if c == BoldMarker {
        inCurBold := !inCurBold;
      } else if c == ItalicMarker {
        inCurItalic := !inCurItalic;
      } else if c == ResetMarker {
        inCurBold, inCurItalic, inCurUnderline := false, false, false;
        inCurColourSpec := "";
      } else if c == ReverseMarker {
        outCurColourBg, outCurColourFg := outCurColourFg, outCurColourBg;
      } else if c == UnderlineMarker {
        inCurUnderline := !inCurUnderline;
      } else if c == ' ' {
        var palette := Palette(inCurBold);
        if outCurColourBg >= |palette| {
          return Some(PaletteIndexOutOfRange(outCurColourBg));
        }
        paints := paints + [Box(outCurX, outCurY, palette[outCurColourBg])];
        if inCurUnderline {
          // the underline is drawn in `colourFg`, which this branch never assigns
          return Some(UnassignedUnderlineColour);
        }
        outCurX := outCurX + glyphW;
      } else {
        var palette := Palette(inCurBold);
        if outCurColourBg >= |palette| {
          return Some(PaletteIndexOutOfRange(outCurColourBg));
        }
        if outCurColourFg >= |palette| {
          return Some(PaletteIndexOutOfRange(outCurColourFg));
        }
        paints := paints + [Glyph(outCurX, outCurY, c, palette[outCurColourBg], palette[outCurColourFg], inCurUnderline)];
        outCurX := outCurX + glyphW;
      }
    }

    /**
     * `_syncColourSpecState`: applies a finished colour spec to the pen
     * colours; `int()` of an empty part raises.
     */
    method SyncColourSpecState(spec: string) returns (err: Option<Error>)
      modifies this`outCurColourFg, this`outCurColourBg
      ensures match SyncColourSpec(spec, old(outCurColourFg), old(outCurColourBg))
              case Ok(p) => err == None && outCurColourFg == p.fg && outCurColourBg == p.bg
              case Err(e) => err == Some(e)
    {
      err := None;
      if |spec| > 0 {
        var parts := Split(spec, ',');
        if |parts| == 2 {
          match ParseInt(parts[0]) {
            case Err(e) =>
              return Some(e);
            case Ok(f) =>
              outCurColourFg := f;
          }
          // an empty second part falls back to the current background
          if parts[1] != "" {
            match ParseInt(parts[1]) {
              case Err(e) =>
                return Some(e);
              case Ok(b) =>
                outCurColourBg := b;
            }
          }
        } else if |parts| == 1 {
          match ParseInt(parts[0]) {
            case Err(e) =>
              return Some(e);
            case Ok(f) =>
              outCurColourFg := f;
          }
        } else {
          outCurColourBg, outCurColourFg := DefaultBg, DefaultFg;
        }
      }
    }
  }
}
