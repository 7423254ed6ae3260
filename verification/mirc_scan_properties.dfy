/**
 * What the scanner of MiRC2png.py guarantees: the shape of the colour-spec
 * buffer, how a finished spec resolves, where each paint lands, and that
 * the canvas `_getMaxCols` sizes holds every paint `_render` draws.
 */
module MircScanProperties {
  import opened Strings
  import opened MircScan

  // ---------------------------------------------------------------------
  // The scanner invariant

  /**
   * What the scanner fields always satisfy: in `Char` state no digits and
   * an empty spec buffer; in `Digit0` at most two digits; in `Digit1` at
   * most two digits, one comma, and at most two digits after it.
   */
  predicate WellFormed(s: Scanner)
  {
    match s.mode
    case Char => s.digits == 0 && s.spec == ""
    case Digit0 => s.digits == |s.spec| <= 2 && AllDigits(s.spec)
    case Digit1 =>
      && s.digits <= 2 && s.digits < |s.spec|
      && var k := |s.spec| - s.digits - 1;
         k <= 2 && s.spec[k] == ',' && AllDigits(s.spec[..k]) && AllDigits(s.spec[k + 1..])
  }

  /** The texts a finished colour spec can hold: `D`, `D,` `D,E` or `,E` with at most two digits each. */
  predicate IsSpecText(spec: string)
  {
    || (|spec| <= 2 && AllDigits(spec))
    || exists k :: 0 <= k < |spec| && k <= 2 && |spec| - k - 1 <= 2 && spec[k] == ','
                   && AllDigits(spec[..k]) && AllDigits(spec[k + 1..])
  }

  /** Every scanner step keeps the invariant, and a spec is only ever finished in its proper shape. */
  lemma CountStepKeepsWellFormed(line: string, s: Scanner)
    requires s.col < |line| && WellFormed(s)
    ensures WellFormed(CountStep(line, s).0)
    ensures s.mode != Char && ParseAsColourSpec(s, line[s.col]).Finish? ==>
              IsSpecText(ParseAsColourSpec(s, line[s.col]).spec)
  {
    var c := line[s.col];
    assert CountStep(line, s) == CountOn(s, c);
    if s.mode != Char {
      var r := ParseAsColourSpecEffects(s, c);
      match r
      case Accept(t) => AcceptKeepsWellFormed(s, c, t);
      case Finish(spec, _) => SpecTextOfWellFormed(s);
    }
  }

  /** The spec buffer of a well-formed scanner inside a colour spec has the shape of a spec. */
  lemma SpecTextOfWellFormed(s: Scanner)
    requires s.mode != Char && WellFormed(s)
    ensures IsSpecText(s.spec)
  {
    if s.mode == Digit1 {
      var k := |s.spec| - s.digits - 1;
      assert s.spec[k] == ',';
    }
  }

  /** Accepting a character inside a colour spec keeps the scanner invariant. */
  lemma AcceptKeepsWellFormed(s: Scanner, c: char, t: Scanner)
    requires s.mode != Char && WellFormed(s)
    requires ParseAsColourSpec(s, c) == Accept(t)
    ensures WellFormed(t)
  {
    var r := ParseAsColourSpecEffects(s, c);
    if s.mode == Digit0 && c == ',' {
      assert t.spec[..|s.spec|] == s.spec;
      assert t.spec[|s.spec| + 1..] == "";
    } else if s.mode == Digit0 {
      AllDigitsAppend(s.spec, c);
    } else {
      var k := |s.spec| - s.digits - 1;
      assert t.spec[..k] == s.spec[..k];
      assert t.spec[k + 1..] == s.spec[k + 1..] + [c];
      AllDigitsAppend(s.spec[k + 1..], c);
    }
  }

  lemma AllDigitsAppend(s: string, c: char)
    requires AllDigits(s) && IsDigit(c)
    ensures AllDigits(s + [c])
  {
    forall i | 0 <= i < |s + [c]| ensures IsDigit((s + [c])[i]) {
      if i < |s| { assert (s + [c])[i] == s[i]; }
    }
  }

  /**
   * A spec the scanner finishes splits into at most two parts, so the
   * last branch of `_syncColourSpecState` is unreachable.
   */
  lemma ScannedSpecHasAtMostOneComma(spec: string)
    requires IsSpecText(spec)
    ensures |Split(spec, ',')| <= 2
  {
    if |spec| <= 2 && AllDigits(spec) {
      assert ',' !in spec by {
        forall i | 0 <= i < |spec| ensures spec[i] != ',' { assert IsDigit(spec[i]); }
      }
      SplitWithoutSeparator(spec, ',');
    } else {
      var k :| 0 <= k < |spec| && k <= 2 && |spec| - k - 1 <= 2 && spec[k] == ','
               && AllDigits(spec[..k]) && AllDigits(spec[k + 1..]);
      var d, e := spec[..k], spec[k + 1..];
      DigitsHaveNoComma(d);
      DigitsHaveNoComma(e);
      assert spec == d + [','] + e;
      SplitAtFirstSeparator(d, ',', e);
      SplitWithoutSeparator(e, ',');
    }
  }

  lemma DigitsHaveNoComma(s: string)
    requires AllDigits(s)
    ensures ',' !in s
  {
    forall i | 0 <= i < |s| ensures s[i] != ',' { assert IsDigit(s[i]); }
  }

  /**
   * Colour-spec resolution: an empty spec keeps both colours, `F` sets the
   * foreground only, `F,B` sets both, `F,` keeps the background, and a spec
   * with an empty foreground part fails in `int("")`.
   */
  lemma ColourSpecResolution(f: string, b: string, fg: nat, bg: nat)
    requires AllDigits(f) && AllDigits(b) && |f| > 0 && |b| > 0
    ensures SyncColourSpec("", fg, bg) == Ok(Pen(fg, bg))
    ensures SyncColourSpec(f, fg, bg) == Ok(Pen(DecimalValue(f), bg))
    ensures SyncColourSpec(f + "," + b, fg, bg) == Ok(Pen(DecimalValue(f), DecimalValue(b)))
    ensures SyncColourSpec(f + ",", fg, bg) == Ok(Pen(DecimalValue(f), bg))
    ensures SyncColourSpec("," + b, fg, bg) == Err(NotAnInteger(""))
    ensures SyncColourSpec(",", fg, bg) == Err(NotAnInteger(""))
  {
    DigitsHaveNoComma(f);
    DigitsHaveNoComma(b);
    SplitWithoutSeparator(f, ',');
    SplitWithoutSeparator(b, ',');
    SplitAtFirstSeparator(f, ',', b);
    assert f + "," + b == f + [','] + b;
    SplitAtFirstSeparator(f, ',', "");
    assert f + "," == f + [','] + "";
    SplitAtFirstSeparator("", ',', b);
    assert "," + b == "" + [','] + b;
    SplitAtFirstSeparator("", ',', "");
    assert "," == "" + [','] + "";
  }

  // ---------------------------------------------------------------------
  // The two passes walk the same scanner path

  /**
   * A successful rendering step moves the scanner exactly as the counting
   * step does, and draws at most as many paints as that step counts columns.
   */
  lemma RenderStepFollowsCount(line: string, m: Machine, gw: nat)
    requires m.scan.col < |line| && WellFormed(m.scan)
    requires RenderStep(line, m, gw).Ok?
    ensures RenderStep(line, m, gw).value.0.scan == CountStep(line, m.scan).0
    ensures |RenderStep(line, m, gw).value.1| <= CountStep(line, m.scan).1
    ensures RenderStep(line, m, gw).value.0.y == m.y
    ensures RenderStep(line, m, gw).value.0.x == m.x + Span(|RenderStep(line, m, gw).value.1|, gw)
    ensures forall p :: p in RenderStep(line, m, gw).value.1 ==> p.x == m.x && p.y == m.y
  {
    var c := line[m.scan.col];
    if m.scan.mode == Char && c != ColourIntroducer {
      var s' := ParseAsChar(m.scan, c).0;
      var r := SyncCharEffects(m.(scan := s'), c, gw);
      assert RenderStep(line, m, gw) == r;
      if !IsStyleMarker(c) {
        assert |r.value.1| == 1;
        assert r.value.1[0].x == m.x && r.value.1[0].y == m.y;
      }
    }
  }

  /** One successful iteration of a line scan, with everything the line lemmas need about it. */
  lemma RunLineStep(line: string, m: Machine, acc: seq<Paint>, gw: nat) returns (next: Machine, drawn: seq<Paint>)
    requires m.scan.col < |line| && WellFormed(m.scan)
    requires RunLine(line, m, acc, gw).Ok?
    ensures RenderStep(line, m, gw) == Ok((next, drawn))
    ensures RunLine(line, m, acc, gw) == RunLine(line, next, acc + drawn, gw)
    ensures next.scan.col <= |line| && WellFormed(next.scan)
    ensures Remaining(line, next.scan) < Remaining(line, m.scan)
    ensures next.scan == CountStep(line, m.scan).0
    ensures |drawn| <= 1 && |drawn| <= CountStep(line, m.scan).1
    ensures CountLine(line, m.scan).1 == CountStep(line, m.scan).1 + CountLine(line, next.scan).1
    ensures next.y == m.y && next.x == m.x + Span(|drawn|, gw)
    ensures forall p :: p in drawn ==> p.x == m.x && p.y == m.y
  {
    next, drawn := RenderStep(line, m, gw).value.0, RenderStep(line, m, gw).value.1;
    RenderStepFollowsCount(line, m, gw);
    CountStepKeepsWellFormed(line, m.scan);
  }

  /**
   * A line scan only appends to the paints drawn so far, and draws at most
   * as many paints as the counting pass counts columns.
   */
  lemma {:induction false} RunLineFits(line: string, m: Machine, acc: seq<Paint>, gw: nat)
    requires m.scan.col <= |line| && WellFormed(m.scan)
    requires RunLine(line, m, acc, gw).Ok?
    ensures var v := RunLine(line, m, acc, gw).value;
      && |acc| <= |v.1| && v.1[..|acc|] == acc
      && |v.1| - |acc| <= CountLine(line, m.scan).1
    decreases Remaining(line, m.scan)
  {
    if m.scan.col < |line| {
      var next, drawn := RunLineStep(line, m, acc, gw);
      RunLineFits(line, next, acc + drawn, gw);
      PrefixOfPrefix(RunLine(line, m, acc, gw).value.1, acc, drawn);
    }
  }

  /** A prefix of `acc + s1` taken from `w` gives back `acc`. */
  lemma PrefixOfPrefix(w: seq<Paint>, acc: seq<Paint>, s1: seq<Paint>)
    requires |acc + s1| <= |w| && w[..|acc + s1|] == acc + s1
    ensures |acc| <= |w| && w[..|acc|] == acc
  {
    assert w[..|acc|] == (w[..|acc + s1|])[..|acc|];
  }

  /** A line scan leaves the cursor on the row it started on. */
  lemma {:induction false} RunLineStaysOnRow(line: string, m: Machine, acc: seq<Paint>, gw: nat)
    requires m.scan.col <= |line| && WellFormed(m.scan)
    requires RunLine(line, m, acc, gw).Ok?
    ensures RunLine(line, m, acc, gw).value.0.y == m.y
    decreases Remaining(line, m.scan)
  {
    if m.scan.col < |line| {
      var next, drawn := RunLineStep(line, m, acc, gw);
      RunLineStaysOnRow(line, next, acc + drawn, gw);
    }
  }

  /** Every paint of a line lands one glyph width after the previous one, on the line's row. */
  lemma {:induction false} RunLineLayout(line: string, m: Machine, acc: seq<Paint>, gw: nat)
    requires m.scan.col <= |line| && WellFormed(m.scan)
    requires RunLine(line, m, acc, gw).Ok?
    ensures var v := RunLine(line, m, acc, gw).value;
      forall i :: |acc| <= i < |v.1| ==> v.1[i].x == m.x + Span(i - |acc|, gw) && v.1[i].y == m.y
    decreases Remaining(line, m.scan)
  {
    if m.scan.col < |line| {
      var next, drawn := RunLineStep(line, m, acc, gw);
      RunLineLayout(line, next, acc + drawn, gw);
      RunLineFits(line, next, acc + drawn, gw);
      var w := RunLine(line, next, acc + drawn, gw).value.1;
      ShiftLayout(acc, drawn, w, m.x, m.y, next.x, gw);
    }
  }

  /** The position arithmetic of one step of `RunLineLayout`, kept apart from the scanner. */
  lemma ShiftLayout(acc: seq<Paint>, s1: seq<Paint>, w: seq<Paint>, x: nat, y: nat, x2: nat, gw: nat)
    requires |s1| <= 1 && x2 == x + Span(|s1|, gw)
    requires |acc + s1| <= |w| && w[..|acc + s1|] == acc + s1
    requires forall p :: p in s1 ==> p.x == x && p.y == y
    requires forall i :: |acc + s1| <= i < |w| ==> w[i].x == x2 + Span(i - |acc + s1|, gw) && w[i].y == y
    ensures forall i :: |acc| <= i < |w| ==> w[i].x == x + Span(i - |acc|, gw) && w[i].y == y
  {
    forall i | |acc| <= i < |w|
      ensures w[i].x == x + Span(i - |acc|, gw) && w[i].y == y
    {
      if i < |acc| + |s1| {
        assert w[i] == w[..|acc| + |s1|][i] == s1[i - |acc|];
        assert s1[i - |acc|] in s1;
      } else {
        SpanAdd(|s1|, i - |acc + s1|, i - |acc|, gw);
      }
    }
  }

  /** Moving `a` glyphs and then `b` more is moving `a + b` glyphs. */
  lemma {:induction false} SpanAdd(a: nat, b: nat, n: nat, w: nat)
    requires n == a + b
    ensures Span(n, w) == Span(a, w) + Span(b, w)
    decreases b
  {
    if b > 0 {
      SpanAdd(a, b - 1, n - 1, w);
    }
  }

  /** More glyphs never cover fewer pixels. */
  lemma SpanMono(a: nat, b: nat, w: nat)
    requires a <= b
    ensures Span(a, w) <= Span(b, w)
  {
    SpanAdd(a, b - a, b, w);
  }

  /** Repeated addition is multiplication: the canvas `n * w` pixels wide holds `n` glyphs. */
  lemma {:induction false} SpanIsProduct(n: nat, w: nat)
    ensures Span(n, w) == n * w
  {
    if n > 0 {
      SpanIsProduct(n - 1, w);
    }
  }

  /** The counting pass on a line is its first step followed by the count of the rest. */
  lemma CountLineStep(line: string, s: Scanner) returns (t: Scanner, k: nat)
    requires s.col < |line|
    ensures (t, k) == CountOn(s, line[s.col])
    ensures t.col <= |line| && Remaining(line, t) < Remaining(line, s)
    ensures CountLine(line, s).1 == k + CountLine(line, t).1
  {
    assert CountStep(line, s) == CountOn(s, line[s.col]);
    t, k := CountStep(line, s).0, CountStep(line, s).1;
  }

  /** One iteration of the `_render` loop: the rest of the line continues from the step's result. */
  lemma RunLineAdvances(line: string, m: Machine, acc: seq<Paint>, gw: nat)
    requires m.scan.col < |line|
    ensures RenderOn(m, line[m.scan.col], gw).Ok? ==>
      var v := RenderOn(m, line[m.scan.col], gw).value;
      && v.0.scan.col <= |line| && Remaining(line, v.0.scan) < Remaining(line, m.scan)
      && RunLine(line, m, acc, gw) == RunLine(line, v.0, acc + v.1, gw)
    ensures RenderOn(m, line[m.scan.col], gw).Err? ==>
      RunLine(line, m, acc, gw) == Err(RenderOn(m, line[m.scan.col], gw).error)
  {
    assert RenderStep(line, m, gw) == RenderOn(m, line[m.scan.col], gw);
  }

  /** One row of the `_render` loop: the rows after it continue from where the line scan ended. */
  lemma RenderRowsAdvances(lines: seq<string>, row: nat, m: Machine, acc: seq<Paint>, gw: nat, gh: nat)
    returns (run: Result<(Machine, seq<Paint>)>, next: Machine)
    requires row < |lines|
    ensures run == RunLine(lines[row], LineStart(m), acc, gw)
    ensures run.Err? ==> RenderRows(lines, row, m, acc, gw, gh) == Err(run.error)
    ensures run.Ok? ==> next.x == 0 && next.y == run.value.0.y + gh
    ensures run.Ok? ==> next == run.value.0.(x := 0, y := run.value.0.y + gh)
    ensures run.Ok? ==> RenderRows(lines, row, m, acc, gw, gh) == RenderRows(lines, row + 1, next, run.value.1, gw, gh)
  {
    run := RunLine(lines[row], LineStart(m), acc, gw);
    next := if run.Ok? then run.value.0.(x := 0, y := run.value.0.y + gh) else m;
  }

  // ---------------------------------------------------------------------
  // Canvas size

  /** Every line fits in the width `_getMaxCols` computes. */
  lemma {:induction false} MaxColsBound(lines: seq<string>, r: nat)
    requires r < |lines|
    ensures LineCols(lines[r]) <= MaxCols(lines)
    decreases |lines|
  {
    if r < |lines| - 1 {
      var prefix := lines[..|lines| - 1];
      MaxColsBound(prefix, r);
      assert prefix[r] == lines[r];
    }
  }

  /** The computed width is the width of some line (or 0 for an empty document). */
  lemma {:induction false} MaxColsAttained(lines: seq<string>)
    ensures |lines| == 0 ==> MaxCols(lines) == 0
    ensures |lines| > 0 ==> exists r :: 0 <= r < |lines| && MaxCols(lines) == LineCols(lines[r])
    decreases |lines|
  {
    if |lines| > 1 {
      var prefix := lines[..|lines| - 1];
      MaxColsAttained(prefix);
      var r :| 0 <= r < |prefix| && MaxCols(prefix) == LineCols(prefix[r]);
      assert prefix[r] == lines[r];
    } else if |lines| == 1 {
      assert MaxCols(lines) == LineCols(lines[0]);
    }
  }

  /**
   * Without a colour introducer every character of a line counts as a
   * column, style markers and a trailing newline included.
   */
  lemma {:induction false} CountWithoutIntroducer(line: string, s: Scanner)
    requires s.col <= |line| && s.mode == Char
    requires forall i :: s.col <= i < |line| ==> line[i] != ColourIntroducer
    ensures CountLine(line, s).1 == |line| - s.col
    decreases |line| - s.col
  {
    if s.col < |line| {
      CountWithoutIntroducer(line, CountStep(line, s).0);
    }
  }

  /** A whole line without a colour introducer is exactly as wide as it is long. */
  lemma LineColsWithoutIntroducer(line: string)
    requires ColourIntroducer !in line
    ensures LineCols(line) == |line|
  {
    CountWithoutIntroducer(line, StartScanner);
  }

  // ---------------------------------------------------------------------
  // The whole document

  /** The glyph box of paint `p` lies inside an image `width` by `height` pixels. */
  predicate Inside(p: Paint, width: int, height: int, gw: nat, gh: nat)
  {
    p.x + gw <= width && p.y + gh <= height
  }

  /**
   * Every paint the rendering pass draws lies inside the image that
   * `__init__` allocates (`_getMaxCols` columns by one row per line), and
   * the pass ends below the last line.
   */
  lemma {:induction false} RenderRowsInside(
    lines: seq<string>, row: nat, m: Machine, acc: seq<Paint>, gw: nat, gh: nat)
    requires row <= |lines| && m.x == 0 && m.y == Span(row, gh)
    requires forall p :: p in acc ==> Inside(p, Span(MaxCols(lines), gw), Span(|lines|, gh), gw, gh)
    requires RenderRows(lines, row, m, acc, gw, gh).Ok?
    ensures forall p :: p in RenderRows(lines, row, m, acc, gw, gh).value.1 ==>
              Inside(p, Span(MaxCols(lines), gw), Span(|lines|, gh), gw, gh)
    ensures RenderRows(lines, row, m, acc, gw, gh).value.0.y == Span(|lines|, gh)
    decreases |lines| - row
  {
    if row < |lines| {
      var ls := LineStart(m);
      var run, next := RenderRowsAdvances(lines, row, m, acc, gw, gh);
      var v := run.value;
      RunLineLayout(lines[row], ls, acc, gw);
      RunLineStaysOnRow(lines[row], ls, acc, gw);
      RunLineFits(lines[row], ls, acc, gw);
      MaxColsBound(lines, row);
      RowInside(acc, v.1, MaxCols(lines), row, |lines|, gw, gh);
      RenderRowsInside(lines, row + 1, next, v.1, gw, gh);
    }
  }

  /** One row of paints, laid out from the left edge, lies inside the image. */
  lemma RowInside(acc: seq<Paint>, w: seq<Paint>, cols: nat, row: nat, rows: nat, gw: nat, gh: nat)
    requires row < rows && |acc| <= |w| && w[..|acc|] == acc && |w| - |acc| <= cols
    requires forall i :: |acc| <= i < |w| ==> w[i].x == 0 + Span(i - |acc|, gw) && w[i].y == Span(row, gh)
    requires forall p :: p in acc ==> Inside(p, Span(cols, gw), Span(rows, gh), gw, gh)
    ensures forall p :: p in w ==> Inside(p, Span(cols, gw), Span(rows, gh), gw, gh)
  {
    SpanAdd(row, 1, row + 1, gh);
    SpanMono(row + 1, rows, gh);
    forall p | p in w ensures Inside(p, Span(cols, gw), Span(rows, gh), gw, gh)
    {
      var i :| 0 <= i < |w| && w[i] == p;
      if i < |acc| {
        assert w[i] == w[..|acc|][i] == acc[i];
      } else {
        SpanAdd(i - |acc|, 1, i - |acc| + 1, gw);
        SpanMono(i - |acc| + 1, cols, gw);
      }
    }
  }

  /** The paints of a successful conversion all lie inside its image. */
  lemma RenderInsideImage(lines: seq<string>, gw: nat, gh: nat)
    requires Render(lines, gw, gh).Ok?
    ensures forall p :: p in Render(lines, gw, gh).value.1 ==>
              Inside(p, Span(MaxCols(lines), gw), Span(|lines|, gh), gw, gh)
  {
    RenderRowsInside(lines, 0, Initial, [], gw, gh);
  }

  /**
   * The rendering pass depends on the machine it starts from only through
   * the cursor and the colours: each line resets the rest.
   */
  lemma RenderRowsIgnoresScanner(
    lines: seq<string>, m1: Machine, m2: Machine, acc: seq<Paint>, gw: nat, gh: nat)
    requires m1.x == m2.x && m1.y == m2.y && m1.fg == m2.fg && m1.bg == m2.bg
    ensures var r1, r2 := RenderRows(lines, 0, m1, acc, gw, gh), RenderRows(lines, 0, m2, acc, gw, gh);
      && r1.Ok? == r2.Ok?
      && (r1.Err? ==> r1.error == r2.error)
      && (r1.Ok? ==> r1.value.1 == r2.value.1)
  {
    if |lines| > 0 {
      assert LineStart(m1) == LineStart(m2);
    }
  }

  // ---------------------------------------------------------------------
  // Edge cases

  /** A successful line scan ends at the end of the line, with the scanner invariant intact. */
  lemma {:induction false} RunLineEnds(line: string, m: Machine, acc: seq<Paint>, gw: nat)
    requires m.scan.col <= |line| && WellFormed(m.scan)
    requires RunLine(line, m, acc, gw).Ok?
    ensures RunLine(line, m, acc, gw).value.0.scan.col == |line|
    ensures WellFormed(RunLine(line, m, acc, gw).value.0.scan)
    decreases Remaining(line, m.scan)
  {
    if m.scan.col < |line| {
      var next, drawn := RunLineStep(line, m, acc, gw);
      RunLineEnds(line, next, acc + drawn, gw);
    }
  }

  /**
   * Scanning a longer line runs through its prefix first: up to the end of
   * `line`, every iteration reads the same characters, so an exception
   * there is the exception of the longer line, and otherwise the longer
   * scan carries on from where the shorter one stopped.
   */
  lemma {:induction false} RunLinePrefix(line: string, rest: string, m: Machine, acc: seq<Paint>, gw: nat)
    requires m.scan.col <= |line|
    ensures var r := RunLine(line, m, acc, gw);
      && (r.Err? ==> RunLine(line + rest, m, acc, gw) == r)
      && (r.Ok? ==>
            && r.value.0.scan.col == |line|
            && RunLine(line + rest, m, acc, gw) == RunLine(line + rest, r.value.0, r.value.1, gw))
    decreases Remaining(line, m.scan)
  {
    if m.scan.col < |line| {
      assert (line + rest)[m.scan.col] == line[m.scan.col];
      RunLineAdvances(line, m, acc, gw);
      RunLineAdvances(line + rest, m, acc, gw);
      var step := RenderOn(m, line[m.scan.col], gw);
      if step.Ok? {
        RunLinePrefix(line, rest, step.value.0, acc + step.value.1, gw);
      }
    }
  }

  /**
   * Inside a colour spec, a character that keeps the buffer on its way to
   * the shape of a spec is accepted.
   */
  lemma AcceptsSpecChar(s: Scanner, rest: string)
    requires s.mode != Char && WellFormed(s) && |rest| > 0
    requires IsSpecText(s.spec + rest)
    ensures ParseAsColourSpec(s, rest[0]).Accept?
  {
    var u := s.spec + rest;
    assert u[|s.spec|] == rest[0];
    if |u| <= 2 && AllDigits(u) {
      assert IsDigit(u[|s.spec|]);
      if s.mode == Digit1 {
        SpecCharAfterComma(s, u, |s.spec| - s.digits - 1);
      }
    } else {
      var k :| 0 <= k < |u| && k <= 2 && |u| - k - 1 <= 2 && u[k] == ','
               && AllDigits(u[..k]) && AllDigits(u[k + 1..]);
      if s.mode == Digit0 {
        SpecCharBeforeComma(s, u, k);
      } else {
        SpecCharAfterComma(s, u, k);
      }
    }
    var r := ParseAsColourSpecEffects(s, rest[0]);
  }

  /** In `Digit0`, the next character of a spec text with its comma at `k` is a digit of at most two, or that comma. */
  lemma SpecCharBeforeComma(s: Scanner, u: string, k: nat)
    requires s.mode == Digit0 && WellFormed(s) && |s.spec| < |u| && u[..|s.spec|] == s.spec
    requires k < |u| && k <= 2 && u[k] == ',' && AllDigits(u[..k])
    ensures (u[|s.spec|] == ',') || (IsDigit(u[|s.spec|]) && s.digits <= 1)
  {
    var n := |s.spec|;
    if n < k {
      assert u[..k][n] == u[n];
    }
  }

  /** In `Digit1`, the next character of a text whose comma is at `k` (and nowhere else) is at most the second digit after it. */
  lemma SpecCharAfterComma(s: Scanner, u: string, k: int)
    requires s.mode == Digit1 && WellFormed(s) && |s.spec| < |u| && u[..|s.spec|] == s.spec
    requires (|u| <= 2 && AllDigits(u)) ||
             (0 <= k < |u| && k <= 2 && |u| - k - 1 <= 2 && u[k] == ',' && AllDigits(u[..k]) && AllDigits(u[k + 1..]))
    ensures IsDigit(u[|s.spec|]) && s.digits <= 1
  {
    var n := |s.spec|;
    var j := n - s.digits - 1;
    assert u[j] == u[..n][j] == ',';
    if |u| <= 2 && AllDigits(u) {
      assert IsDigit(u[j]);
    } else if j == k {
      assert u[k + 1..][n - k - 1] == u[n];
    }
  }

  /**
   * Inside a colour spec, a rest of the line that completes the buffer to
   * the shape of a spec is accepted character by character: nothing is
   * drawn, nothing but the scanner changes, and the spec is still pending
   * at the end of the line.
   */
  lemma {:induction false} PendingTailAccepted(line: string, m: Machine, acc: seq<Paint>, gw: nat)
    requires m.scan.mode != Char && m.scan.col <= |line| && WellFormed(m.scan)
    requires IsSpecText(m.scan.spec + line[m.scan.col..])
    ensures var r := RunLine(line, m, acc, gw);
      && r.Ok? && r.value.1 == acc
      && r.value.0 == m.(scan := r.value.0.scan)
      && r.value.0.scan.mode != Char
      && r.value.0.scan.spec == m.scan.spec + line[m.scan.col..]
    decreases |line| - m.scan.col
  {
    if m.scan.col < |line| {
      var t := PendingStep(line, m, acc, gw);
      PendingTailAccepted(line, m.(scan := t), acc, gw);
    } else {
      assert m.scan.spec + line[m.scan.col..] == m.scan.spec;
    }
  }

  /** One iteration of `PendingTailAccepted`: the character is accepted and nothing else changes. */
  lemma PendingStep(line: string, m: Machine, acc: seq<Paint>, gw: nat) returns (t: Scanner)
    requires m.scan.mode != Char && m.scan.col < |line| && WellFormed(m.scan)
    requires IsSpecText(m.scan.spec + line[m.scan.col..])
    ensures t.mode != Char && t.col == m.scan.col + 1 && WellFormed(t)
    ensures t.spec + line[t.col..] == m.scan.spec + line[m.scan.col..]
    ensures RunLine(line, m, acc, gw) == RunLine(line, m.(scan := t), acc, gw)
  {
    var rest := line[m.scan.col..];
    t := PendingAccept(m.scan, rest);
    AppendFirst(m.scan.spec, rest);
    assert rest[1..] == line[m.scan.col + 1..];
    AcceptedRunStep(line, m, t, acc, gw);
  }

  lemma AppendFirst(a: string, rest: string)
    requires |rest| > 0
    ensures (a + [rest[0]]) + rest[1..] == a + rest
  {
    assert rest == [rest[0]] + rest[1..];
  }

  /** An accepted character draws nothing and changes only the scanner. */
  lemma AcceptedRunStep(line: string, m: Machine, t: Scanner, acc: seq<Paint>, gw: nat)
    requires m.scan.mode != Char && m.scan.col < |line| && t.col <= |line|
    requires ParseAsColourSpec(m.scan, line[m.scan.col]) == Accept(t)
    ensures RunLine(line, m, acc, gw) == RunLine(line, m.(scan := t), acc, gw)
  {
    assert RenderOn(m, line[m.scan.col], gw) == Ok((m.(scan := t), []));
    RunLineAdvances(line, m, acc, gw);
    assert acc + [] == acc;
  }

  /** The scanner side of `PendingStep`. */
  lemma PendingAccept(s: Scanner, rest: string) returns (t: Scanner)
    requires s.mode != Char && WellFormed(s) && |rest| > 0
    requires IsSpecText(s.spec + rest)
    ensures ParseAsColourSpec(s, rest[0]) == Accept(t)
    ensures t.mode != Char && t.col == s.col + 1 && t.spec == s.spec + [rest[0]] && WellFormed(t)
  {
    AcceptsSpecChar(s, rest);
    var r := ParseAsColourSpecEffects(s, rest[0]);
    t := r.next;
    AcceptKeepsWellFormed(s, rest[0], t);
  }

  /**
   * A colour spec still pending at the end of a line is never applied:
   * appending a colour introducer and any unfinished spec to a line that
   * ends outside a spec changes neither the outcome, nor the paints, nor
   * the cursor or colours; only the scanner differs, and the next line's
   * reset discards it.
   */
  lemma PendingSpecIsDropped(line: string, pending: string, m: Machine, acc: seq<Paint>, gw: nat)
    requires IsSpecText(pending)
    requires RunLine(line, LineStart(m), acc, gw).Ok? ==>
               RunLine(line, LineStart(m), acc, gw).value.0.scan.mode == Char
    ensures var r := RunLine(line, LineStart(m), acc, gw);
      var rp := RunLine(line + [ColourIntroducer] + pending, LineStart(m), acc, gw);
      && (rp.Ok? <==> r.Ok?)
      && (r.Err? ==> rp == r)
      && (r.Ok? ==>
            && rp.value.1 == r.value.1
            && rp.value.0 == r.value.0.(scan := rp.value.0.scan)
            && rp.value.0.scan.mode != Char && rp.value.0.scan.spec == pending
            && LineStart(rp.value.0) == LineStart(r.value.0))
  {
    var m0 := LineStart(m);
    var tail := [ColourIntroducer] + pending;
    var full := line + tail;
    assert line + [ColourIntroducer] + pending == full;
    RunLinePrefix(line, tail, m0, acc, gw);
    var r := RunLine(line, m0, acc, gw);
    if r.Ok? {
      RunLineEnds(line, m0, acc, gw);
      var mc, ps := r.value.0, r.value.1;
      assert full[|line|] == ColourIntroducer;
      var m1 := mc.(scan := Scanner(Digit0, |line| + 1, 0, ""));
      assert RenderStep(full, mc, gw) == Ok((m1, []));
      RunLineAdvances(full, mc, ps, gw);
      assert ps + [] == ps;
      assert full[|line| + 1..] == pending;
      assert "" + pending == pending;
      PendingTailAccepted(full, m1, ps, gw);
    }
  }

  /**
   * Two-digit specs allow colour numbers up to 99, but the palettes have 16
   * entries: a spec of 16 or more followed directly by a character that
   * draws a glyph (anything but a space, a style marker, a comma or another
   * introducer) aborts the conversion, wherever on the line it occurs and
   * whatever follows; with an in-range background the exception names the
   * foreground.  A space there draws its box, which reads only the
   * background (`SyncCharEffects`).
   */
  lemma WideColourFails(
    line: string, d1: char, d2: char, c: char, rest: string, m: Machine, acc: seq<Paint>, gw: nat)
    requires IsDigit(d1) && IsDigit(d2) && DecimalValue([d1, d2]) >= 16
    requires !IsStyleMarker(c) && c != ' ' && c != ',' && c != ColourIntroducer
    requires RunLine(line, LineStart(m), acc, gw).Ok? ==>
               RunLine(line, LineStart(m), acc, gw).value.0.scan.mode == Char
    ensures var r := RunLine(line, LineStart(m), acc, gw);
      var rw := RunLine(line + [ColourIntroducer, d1, d2, c] + rest, LineStart(m), acc, gw);
      && rw.Err?
      && (r.Err? ==> rw == r)
      && (r.Ok? && r.value.0.bg < 16 ==> rw == Err(PaletteIndexOutOfRange(DecimalValue([d1, d2]))))
  {
    var m0 := LineStart(m);
    var tail := [ColourIntroducer, d1, d2, c] + rest;
    var full := line + tail;
    assert line + [ColourIntroducer, d1, d2, c] + rest == full;
    RunLinePrefix(line, tail, m0, acc, gw);
    var r := RunLine(line, m0, acc, gw);
    if r.Ok? {
      RunLineEnds(line, m0, acc, gw);
      var n := |line|;
      assert full[n] == ColourIntroducer && full[n + 1] == d1 && full[n + 2] == d2 && full[n + 3] == c;
      var m3 := WideSpecScanned(full, n, d1, d2, r.value.0, r.value.1, gw);
      WideGlyphFails(full, n, d1, d2, c, m3, r.value.1, gw);
    }
  }

  /** The introducer and two digits are accepted without drawing anything. */
  lemma WideSpecScanned(full: string, n: nat, d1: char, d2: char, mc: Machine, ps: seq<Paint>, gw: nat)
    returns (m3: Machine)
    requires n + 3 <= |full| && full[n] == ColourIntroducer && full[n + 1] == d1 && full[n + 2] == d2
    requires IsDigit(d1) && IsDigit(d2) && mc.scan == Scanner(Char, n, 0, "")
    ensures m3 == mc.(scan := Scanner(Digit0, n + 3, 2, [d1, d2]))
    ensures RunLine(full, mc, ps, gw) == RunLine(full, m3, ps, gw)
  {
    var m1 := mc.(scan := Scanner(Digit0, n + 1, 0, ""));
    var m2 := mc.(scan := Scanner(Digit0, n + 2, 1, [d1]));
    m3 := mc.(scan := Scanner(Digit0, n + 3, 2, [d1, d2]));
    assert RenderOn(mc, full[n], gw) == Ok((m1, []));
    assert "" + [d1] == [d1];
    assert RenderOn(m1, full[n + 1], gw) == Ok((m2, []));
    assert [d1] + [d2] == [d1, d2];
    assert RenderOn(m2, full[n + 2], gw) == Ok((m3, []));
    assert ps + [] == ps;
    RunLineAdvances(full, mc, ps, gw);
    RunLineAdvances(full, m1, ps, gw);
    RunLineAdvances(full, m2, ps, gw);
  }

  /** The character after a two-digit spec of 16 or more finishes it and then fails to draw. */
  lemma WideGlyphFails(full: string, n: nat, d1: char, d2: char, c: char, m3: Machine, ps: seq<Paint>, gw: nat)
    requires n + 4 <= |full| && full[n + 3] == c
    requires IsDigit(d1) && IsDigit(d2) && DecimalValue([d1, d2]) >= 16
    requires !IsStyleMarker(c) && c != ' ' && c != ',' && c != ColourIntroducer
    requires m3.scan == Scanner(Digit0, n + 3, 2, [d1, d2])
    ensures RunLine(full, m3, ps, gw)
            == Err(PaletteIndexOutOfRange(if m3.bg >= 16 then m3.bg else DecimalValue([d1, d2])))
  {
    var v := DecimalValue([d1, d2]);
    var m4 := m3.(scan := Scanner(Char, n + 3, 0, ""), fg := v);
    assert ',' !in [d1, d2];
    SplitWithoutSeparator([d1, d2], ',');
    assert SyncColourSpec([d1, d2], m3.fg, m3.bg) == Ok(Pen(v, m3.bg));
    assert RenderOn(m3, c, gw) == Ok((m4, []));
    assert RenderOn(m4, c, gw) == Err(PaletteIndexOutOfRange(if m3.bg >= 16 then m3.bg else v));
    assert ps + [] == ps;
    RunLineAdvances(full, m3, ps, gw);
    RunLineAdvances(full, m4, ps, gw);
  }
}
