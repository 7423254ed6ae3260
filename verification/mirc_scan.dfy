/**
 * The mIRC control-code scanner of MiRC2png.py, as pure functions.
 *
 * Each line of the document is scanned character by character by a small
 * state machine (`Char`, `Digit0`, `Digit1`).  Two passes share it: the
 * counting pass that sizes the canvas (`_getMaxCols`) and the rendering
 * pass (`_render`), which hands every consumed character to `_syncChar`
 * and every finished colour spec to `_syncColourSpecState`.  The PIL
 * drawing calls of the rendering pass become `Paint` records.
 *
 * The class in converter.dfy runs the same passes by updating fields; its
 * methods are proved against the functions here.
 */
module MircScan {
  import opened Strings

  // The six in-band control characters the converter recognises.
  const ColourIntroducer: char := '\U{3}'
  const BoldMarker: char := '\U{2}'
  const ItalicMarker: char := '\U{6}'
  const ResetMarker: char := '\U{F}'
  const ReverseMarker: char := '\U{16}'
  const UnderlineMarker: char := '\U{1F}'

  predicate IsStyleMarker(c: char)
  {
    c == BoldMarker || c == ItalicMarker || c == ResetMarker || c == ReverseMarker || c == UnderlineMarker
  }

  predicate IsDigit(c: char) { '0' <= c <= '9' }

  predicate AllDigits(s: string)
  {
    forall i :: 0 <= i < |s| ==> IsDigit(s[i])
  }

  // Colours at the start of a document: white on black.
  const DefaultFg: nat := 15
  const DefaultBg: nat := 1

  type Byte = b: int | 0 <= b < 256

  datatype Rgba = Rgba(r: Byte, g: Byte, b: Byte, a: Byte)

  /** Palette used while bold is on. */
  const BoldPalette: seq<Rgba> := [
    Rgba(255, 255, 255, 255),  // white
    Rgba(85, 85, 85, 255),     // grey
    Rgba(85, 85, 255, 255),    // light blue
    Rgba(85, 255, 85, 255),    // light green
    Rgba(255, 85, 85, 255),    // light red
    Rgba(255, 85, 85, 255),    // light red
    Rgba(255, 85, 255, 255),   // pink
    Rgba(255, 255, 85, 255),   // light yellow
    Rgba(255, 255, 85, 255),   // light yellow
    Rgba(85, 255, 85, 255),    // light green
    Rgba(85, 255, 255, 255),   // light cyan
    Rgba(85, 255, 255, 255),   // light cyan
    Rgba(85, 85, 255, 255),    // light blue
    Rgba(255, 85, 255, 255),   // pink
    Rgba(85, 85, 85, 255),     // grey
    Rgba(255, 255, 255, 255)   // white
  ]

  /** Palette used while bold is off. */
  const NormalPalette: seq<Rgba> := [
    Rgba(255, 255, 255, 255),  // white
    Rgba(0, 0, 0, 255),        // black
    Rgba(0, 0, 187, 255),      // blue
    Rgba(0, 187, 0, 255),      // green
    Rgba(255, 85, 85, 255),    // light red
    Rgba(187, 0, 0, 255),      // red
    Rgba(187, 0, 187, 255),    // purple
    Rgba(187, 187, 0, 255),    // yellow
    Rgba(255, 255, 85, 255),   // light yellow
    Rgba(85, 255, 85, 255),    // light green
    Rgba(0, 187, 187, 255),    // cyan
    Rgba(85, 255, 255, 255),   // light cyan
    Rgba(85, 85, 255, 255),    // light blue
    Rgba(255, 85, 255, 255),   // pink
    Rgba(85, 85, 85, 255),     // grey
    Rgba(187, 187, 187, 255)   // light grey
  ]

  /** The palette selected by the bold flag; both have 16 entries. */
  function Palette(bold: bool): (p: seq<Rgba>)
    ensures |p| == 16
  {
    if bold then BoldPalette else NormalPalette
  }

  /** The exceptions that abort a conversion. */
  datatype Error =
    | NotAnInteger(text: string)          // `int(text)` raises ValueError
    | PaletteIndexOutOfRange(index: nat)  // a palette lookup raises IndexError
    | UnassignedUnderlineColour           // an underlined space reads `colourFg` before any assignment
    | LineIndexOutOfRange(row: nat)       // `_getMaxCols` indexes past the document's lines

  datatype Result<T> = Ok(value: T) | Err(error: Error)

  datatype Mode = Char | Digit0 | Digit1

  /** Scanner fields: state, `inCurCol`, `inCurDigits`, `inCurColourSpec`. */
  datatype Scanner = Scanner(mode: Mode, col: nat, digits: nat, spec: string)

  /**
   * All fields the rendering pass reads and writes: the scanner, the
   * bold/italic/underline flags, the pixel cursor `outCurX`/`outCurY` and
   * the current palette indices `outCurColourFg`/`outCurColourBg`.
   */
  datatype Machine = Machine(
    scan: Scanner,
    bold: bool, italic: bool, underline: bool,
    x: nat, y: nat,
    fg: nat, bg: nat)

  datatype Pen = Pen(fg: nat, bg: nat)

  /**
   * One drawing call group on the image: a space fills its glyph box with
   * the background colour; any other character also draws the glyph and,
   * when underlined, a line, both in the foreground colour.
   */
  datatype Paint =
    | Box(x: nat, y: nat, fill: Rgba)
    | Glyph(x: nat, y: nat, ch: char, fill: Rgba, ink: Rgba, underline: bool)

  // ---------------------------------------------------------------------
  // One character

  /**
   * `_parseAsChar`: in `Char` state every character is consumed; the colour
   * introducer switches to `Digit0` and is not handed on (second component
   * false), every other character is handed to the pass's sync function.
   */
  function ParseAsChar(s: Scanner, c: char): (r: (Scanner, bool))
    requires s.mode == Char
    ensures r.0.col == s.col + 1 && r.0.digits == s.digits && r.0.spec == s.spec
    ensures r.1 <==> c != ColourIntroducer
    ensures r.0.mode == (if r.1 then Char else Digit0)
  {
    if c == ColourIntroducer then (s.(mode := Digit0, col := s.col + 1), false)
    else (s.(col := s.col + 1), true)
  }

  datatype SpecStep = Accept(next: Scanner) | Finish(spec: string, next: Scanner)

  /**
   * `_parseAsColourSpec`: a comma in `Digit0`, or a digit while fewer than
   * two digits are buffered, is appended and consumed; anything else ends
   * the spec without being consumed, hands the buffered spec on and
   * returns to `Char`.
   */
  function ParseAsColourSpec(s: Scanner, c: char): SpecStep
    requires s.mode != Char
  {
    if s.mode == Digit0 && c == ',' then
      Accept(s.(mode := Digit1, col := s.col + 1, digits := 0, spec := s.spec + [c]))
    else if s.mode == Digit0 && IsDigit(c) && s.digits <= 1 then
      Accept(s.(col := s.col + 1, digits := s.digits + 1, spec := s.spec + [c]))
    else if s.mode == Digit1 && IsDigit(c) && s.digits <= 1 then
      Accept(s.(col := s.col + 1, digits := s.digits + 1, spec := s.spec + [c]))
    else
      assert s.mode == Digit0 || s.mode == Digit1;
      Finish(s.spec, Scanner(Char, s.col, 0, ""))
  }

  /**
   * What `ParseAsColourSpec` does: a character is accepted exactly when it
   * is a comma right after the foreground digits or a third-or-earlier
   * digit; an accepted character is appended to the spec and consumed,
   * anything else finishes the spec without being consumed.
   */
  lemma ParseAsColourSpecEffects(s: Scanner, c: char) returns (r: SpecStep)
    requires s.mode != Char
    ensures r == ParseAsColourSpec(s, c)
    ensures r.Accept? <==> ((s.mode == Digit0 && c == ',') || (IsDigit(c) && s.digits <= 1))
    ensures r.Accept? ==> r.next.col == s.col + 1 && r.next.spec == s.spec + [c] && r.next.mode != Char
    ensures r.Accept? && c == ',' ==> r.next.mode == Digit1 && r.next.digits == 0
    ensures r.Accept? && c != ',' ==> r.next.mode == s.mode && r.next.digits == s.digits + 1
    ensures r.Finish? ==> r.spec == s.spec && r.next == Scanner(Char, s.col, 0, "")
  {
    r := ParseAsColourSpec(s, c);
  }

  function DigitValue(c: char): nat
    requires IsDigit(c)
  {
    c as int - '0' as int
  }

  /** The decimal value of a digit string, as `int()` reads it. */
  function DecimalValue(s: string): (v: nat)
    requires AllDigits(s)
    ensures |s| == 1 ==> v == DigitValue(s[0])
    ensures |s| == 2 ==> v == 10 * DigitValue(s[0]) + DigitValue(s[1])
    ensures |s| <= 1 ==> v <= 9
    ensures |s| <= 2 ==> v <= 99
  {
    if |s| == 0 then 0 else 10 * DecimalValue(s[..|s| - 1]) + DigitValue(s[|s| - 1])
  }

  /** `int(text)` on the only texts a colour spec can hold: digits, or nothing. */
  function ParseInt(text: string): Result<nat>
  {
    if |text| > 0 && AllDigits(text) then Ok(DecimalValue(text)) else Err(NotAnInteger(text))
  }

  /**
   * `_syncColourSpecState`: the colours after applying a finished spec.
   * The last branch is kept as written; `ScannedSpecHasAtMostOneComma`
   * shows the scanner never reaches it.
   */
  function SyncColourSpec(spec: string, fg: nat, bg: nat): Result<Pen>
  {
    if |spec| == 0 then Ok(Pen(fg, bg))
    else
      var parts := Split(spec, ',');
      if |parts| == 2 then
        match ParseInt(parts[0])
        case Err(e) => Err(e)
        case Ok(f) =>
          if parts[1] == "" then Ok(Pen(f, bg))
          else
            match ParseInt(parts[1])
            case Err(e) => Err(e)
            case Ok(b) => Ok(Pen(f, b))
      else if |parts| == 1 then
        match ParseInt(parts[0])
        case Err(e) => Err(e)
        case Ok(f) => Ok(Pen(f, bg))
      else
        Ok(Pen(DefaultFg, DefaultBg))
  }

  /**
   * `_syncChar`: the effect of a character handed on in the rendering pass.
   * Style markers change flags or colours and draw nothing; any other
   * character draws one paint at the cursor, coloured from the palette the
   * bold flag selects, and moves the cursor one glyph width to the right.
   */
  function SyncChar(m: Machine, c: char, gw: nat): Result<(Machine, seq<Paint>)>
  {
    if c == BoldMarker then Ok((m.(bold := !m.bold), []))
    else if c == ItalicMarker then Ok((m.(italic := !m.italic), []))
    else if c == ResetMarker then
      Ok((m.(bold := false, italic := false, underline := false, scan := m.scan.(spec := "")), []))
    else if c == ReverseMarker then Ok((m.(fg := m.bg, bg := m.fg), []))
    else if c == UnderlineMarker then Ok((m.(underline := !m.underline), []))
    else if c == ' ' then
      if m.bg >= |Palette(m.bold)| then Err(PaletteIndexOutOfRange(m.bg))
      else if m.underline then Err(UnassignedUnderlineColour)
      else Ok((m.(x := m.x + gw), [Box(m.x, m.y, Palette(m.bold)[m.bg])]))
    else
      if m.bg >= |Palette(m.bold)| then Err(PaletteIndexOutOfRange(m.bg))
      else if m.fg >= |Palette(m.bold)| then Err(PaletteIndexOutOfRange(m.fg))
      else
        Ok((m.(x := m.x + gw),
            [Glyph(m.x, m.y, c, Palette(m.bold)[m.bg], Palette(m.bold)[m.fg], m.underline)]))
  }

  /**
   * What `SyncChar` does, case by case: style markers never fail, draw
   * nothing and leave the cursor where it is; any other character fails
   * exactly on an out-of-range palette index it needs, or on an underlined
   * space, and otherwise paints one box or glyph at the cursor and advances
   * one glyph width.
   */
  lemma SyncCharEffects(m: Machine, c: char, gw: nat) returns (r: Result<(Machine, seq<Paint>)>)
    ensures r == SyncChar(m, c, gw)
    // style markers never fail, draw nothing and leave the cursor where it is
    ensures IsStyleMarker(c) ==> r.Ok? && r.value.1 == [] && r.value.0.x == m.x && r.value.0.y == m.y
    ensures c == BoldMarker ==> r.value.0 == m.(bold := !m.bold)
    ensures c == ItalicMarker ==> r.value.0 == m.(italic := !m.italic)
    ensures c == UnderlineMarker ==> r.value.0 == m.(underline := !m.underline)
    ensures c == ReverseMarker ==> r.value.0 == m.(fg := m.bg, bg := m.fg)
    ensures c == ResetMarker ==>
      r.value.0 == m.(bold := false, italic := false, underline := false, scan := m.scan.(spec := ""))
    // any other character fails exactly on an out-of-range palette index it
    // needs, or on an underlined space ...
    ensures !IsStyleMarker(c) && c != ' ' ==> (r.Err? <==> m.bg >= 16 || m.fg >= 16)
    ensures c == ' ' ==> (r.Err? <==> m.bg >= 16 || m.underline)
    ensures c == ' ' && m.bg < 16 && m.underline ==> r == Err(UnassignedUnderlineColour)
    // ... and otherwise paints its box at the cursor and advances one glyph
    ensures !IsStyleMarker(c) && r.Ok? ==>
      && m.bg < 16
      && r.value.0 == m.(x := m.x + gw)
      && |r.value.1| == 1
      && r.value.1[0].x == m.x && r.value.1[0].y == m.y
      && r.value.1[0].fill == Palette(m.bold)[m.bg]
      && (c == ' ' <==> r.value.1[0].Box?)
      && (r.value.1[0].Glyph? ==>
            r.value.1[0].ch == c && r.value.1[0].ink == Palette(m.bold)[m.fg]
            && r.value.1[0].underline == m.underline)
  {
    r := SyncChar(m, c, gw);
  }

  // ---------------------------------------------------------------------
  // Scanning a line

  /**
   * Pixels covered by `n` glyph boxes `w` pixels wide: the cursor moves by
   * the glyph size once per character, so this is repeated addition.
   */
  function Span(n: nat, w: nat): nat
  {
    if n == 0 then 0 else Span(n - 1, w) + w
  }

  /**
   * The measure that makes every scan loop terminate: each iteration either
   * consumes a character or leaves a colour-spec state for `Char`.
   */
  function Remaining(line: string, s: Scanner): nat
    requires s.col <= |line|
  {
    2 * (|line| - s.col) + (if s.mode == Char then 0 else 1)
  }

  /**
   * One iteration of the `_render` loop on character `c`: `_parseAsChar`
   * with `_syncChar` in `Char` state, `_parseAsColourSpec` with
   * `_syncColourSpecState` otherwise.
   */
  function RenderOn(m: Machine, c: char, gw: nat): Result<(Machine, seq<Paint>)>
  {
    if m.scan.mode == Char then
      var (s', handOn) := ParseAsChar(m.scan, c);
      if handOn then SyncChar(m.(scan := s'), c, gw) else Ok((m.(scan := s'), []))
    else
      match ParseAsColourSpec(m.scan, c)
      case Accept(s') => Ok((m.(scan := s'), []))
      case Finish(spec, s') =>
        match SyncColourSpec(spec, m.fg, m.bg)
        case Err(e) => Err(e)
        case Ok(p) => Ok((m.(scan := s', fg := p.fg, bg := p.bg), []))
  }

  /** The iteration of the `_render` loop at the scanner's column. */
  function RenderStep(line: string, m: Machine, gw: nat): (r: Result<(Machine, seq<Paint>)>)
    requires m.scan.col < |line|
    ensures r.Ok? ==> r.value.0.scan.col <= |line|
    ensures r.Ok? ==> Remaining(line, r.value.0.scan) < Remaining(line, m.scan)
    ensures r.Ok? ==> |r.value.1| <= 1
  {
    RenderOn(m, line[m.scan.col], gw)
  }

  /** The rest of one line of the rendering pass; paints are appended to `acc`. */
  function RunLine(line: string, m: Machine, acc: seq<Paint>, gw: nat): Result<(Machine, seq<Paint>)>
    requires m.scan.col <= |line|
    decreases Remaining(line, m.scan)
  {
    if m.scan.col == |line| then Ok((m, acc))
    else
      match RenderStep(line, m, gw)
      case Err(e) => Err(e)
      case Ok(v) => RunLine(line, v.0, acc + v.1, gw)
  }

  const StartScanner: Scanner := Scanner(Char, 0, 0, "")

  /**
   * The per-line reset: scanner and style flags start afresh, while the
   * cursor and the colours carry over from the previous line.
   */
  function LineStart(m: Machine): (r: Machine)
    ensures r.scan == StartScanner && !r.bold && !r.italic && !r.underline
    ensures r.x == m.x && r.y == m.y && r.fg == m.fg && r.bg == m.bg
  {
    m.(scan := StartScanner, bold := false, italic := false, underline := false)
  }

  /** The rendering pass from line `row` on; each line ends with a carriage return. */
  function RenderRows(lines: seq<string>, row: nat, m: Machine, acc: seq<Paint>, gw: nat, gh: nat)
    : Result<(Machine, seq<Paint>)>
    requires row <= |lines|
    decreases |lines| - row
  {
    if row == |lines| then Ok((m, acc))
    else
      match RunLine(lines[row], LineStart(m), acc, gw)
      case Err(e) => Err(e)
      case Ok(v) => RenderRows(lines, row + 1, v.0.(x := 0, y := v.0.y + gh), v.1, gw, gh)
  }

  /** The machine `__init__` starts the rendering pass with. */
  const Initial: Machine := Machine(StartScanner, false, false, false, 0, 0, DefaultFg, DefaultBg)

  /** The whole rendering pass: the paints drawn, or the exception raised. */
  function Render(lines: seq<string>, gw: nat, gh: nat): Result<(Machine, seq<Paint>)>
  {
    RenderRows(lines, 0, Initial, [], gw, gh)
  }

  // ---------------------------------------------------------------------
  // The counting pass

  /**
   * One iteration of the `_getMaxCols` loop on character `c`: the scanner
   * moves exactly as in the rendering pass, and a column is counted for
   * every character handed on in `Char` state (`_countChar` always answers
   * true, `_countColourSpecState` does nothing).
   */
  function CountOn(s: Scanner, c: char): (Scanner, nat)
  {
    if s.mode == Char then
      var (s', handOn) := ParseAsChar(s, c);
      (s', if handOn then 1 else 0)
    else
      match ParseAsColourSpec(s, c)
      case Accept(s') => (s', 0)
      case Finish(_, s') => (s', 0)
  }

  /** The iteration of the `_getMaxCols` loop at the scanner's column. */
  function CountStep(line: string, s: Scanner): (r: (Scanner, nat))
    requires s.col < |line|
    ensures r.0.col <= |line| && Remaining(line, r.0) < Remaining(line, s)
    ensures r.1 <= 1
  {
    CountOn(s, line[s.col])
  }

  /** The scanner at the end of the line, and the columns counted on the way. */
  function CountLine(line: string, s: Scanner): (Scanner, nat)
    requires s.col <= |line|
    decreases Remaining(line, s)
  {
    if s.col == |line| then (s, 0)
    else
      var (s', k) := CountStep(line, s);
      var (t, n) := CountLine(line, s');
      (t, k + n)
  }

  /** Width of one line, in columns, as `_getMaxCols` counts it. */
  function LineCols(line: string): nat
  {
    CountLine(line, StartScanner).1
  }

  /** `_getMaxCols`: the widest line. */
  function MaxCols(lines: seq<string>): nat
  {
    if |lines| == 0 then 0
    else
      var prev := MaxCols(lines[..|lines| - 1]);
      var last := LineCols(lines[|lines| - 1]);
      if prev < last then last else prev
  }
}
