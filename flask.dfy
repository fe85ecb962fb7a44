/**
 * The layout engine of the web service (APP-flask/app.py): the greedy line
 * wrapper, the justifier, the font-fit scan, the placement of the lines on
 * the page and the SVG markup, and texty_gen, which runs them in turn.
 * Widths are bbox[2] - bbox[0] and heights bbox[3] - bbox[1] of the boxes
 * the rasterizer reports.
 */
module FlaskApp {
  import opened Texty
  import Segmenting
  import Tokenizing
  import FontFit
  import Markup

  /** textbbox width of t: right minus left. */
  function Width(font: Font, t: string): int {
    BoxOf(font, t).right - BoxOf(font, t).left
  }

  function SpaceWidth(font: Font): int {
    Width(font, " ")
  }

  /** The line height unit: the height of the box of "A". */
  function LetterHeight(font: Font): int {
    BoxOf(font, "A").bottom - BoxOf(font, "A").top
  }

  /** Natural width of a line: its word widths and one space between neighbours. */
  function LineWidth(font: Font, line: seq<Word>): int {
    if line == [] then 0
    else if |line| == 1 then Width(font, line[0].text)
    else LineWidth(font, line[..|line| - 1]) + SpaceWidth(font) + Width(font, line[|line| - 1].text)
  }

  // ---------------------------------------------------------------------
  // wrap_words

  /** The wrapper's variables: finished lines, the open line and its running width. */
  datatype WrapState = WrapState(lines: seq<seq<Word>>, current: seq<Word>, width: int)

  /** One pass of the loop: the word joins the open line if it fits, else opens a new one. */
  function WrapStep(font: Font, maxWidth: int, st: WrapState, w: Word): WrapState {
    var ww := Width(font, w.text);
    if st.current == [] then WrapState(st.lines, [w], ww)
    else if st.width + SpaceWidth(font) + ww <= maxWidth then
      WrapState(st.lines, st.current + [w], st.width + SpaceWidth(font) + ww)
    else WrapState(st.lines + [st.current], [w], ww)
  }

  /** The variables after the loop has seen words. */
  function WrapRun(font: Font, maxWidth: int, words: seq<Word>): WrapState {
    if words == [] then WrapState([], [], 0)
    else WrapStep(font, maxWidth, WrapRun(font, maxWidth, words[..|words| - 1]), words[|words| - 1])
  }

  /** The lines wrap_words returns: the finished lines and the open line, if any. */
  function Wrap(font: Font, maxWidth: int, words: seq<Word>): seq<seq<Word>> {
    var st := WrapRun(font, maxWidth, words);
    if st.current != [] then st.lines + [st.current] else st.lines
  }

  method WrapWords(font: Font, words: seq<Word>, maxWidth: int) returns (lines: seq<seq<Word>>)
    ensures lines == Wrap(font, maxWidth, words)
  {
    lines := [];
    var current: seq<Word> := [];
    var currentWidth := 0;
    var spaceWidth := SpaceWidth(font);
    for i := 0 to |words|
      invariant WrapState(lines, current, currentWidth) == WrapRun(font, maxWidth, words[..i])
    {
      var w := words[i];
      var wordWidth := Width(font, w.text);
      if current != [] {
        if currentWidth + spaceWidth + wordWidth <= maxWidth {
          current := current + [w];
          currentWidth := currentWidth + spaceWidth + wordWidth;
        } else {
          lines := lines + [current];
          current := [w];
          currentWidth := wordWidth;
        }
      } else {
        current := current + [w];
        currentWidth := wordWidth;
      }
      assert words[..i + 1][..i] == words[..i];
    }
    assert words[..|words|] == words;
    if current != [] {
      lines := lines + [current];
    }
  }

  /** The line was closed because the first word of next did not fit after it. */
  predicate BrokeBefore(font: Font, maxWidth: int, line: seq<Word>, next: seq<Word>) {
    next != [] && LineWidth(font, line) + SpaceWidth(font) + Width(font, next[0].text) > maxWidth
  }

  /** The finished lines and the open line hold the words seen, in order; no line is empty. */
  lemma {:induction false} RunCover(font: Font, maxWidth: int, words: seq<Word>)
    ensures WrapRun(font, maxWidth, words).current == [] <==> words == []
    ensures Join(WrapRun(font, maxWidth, words).lines) + WrapRun(font, maxWidth, words).current == words
    ensures forall k :: 0 <= k < |WrapRun(font, maxWidth, words).lines| ==> WrapRun(font, maxWidth, words).lines[k] != []
  {
    if words != [] {
      var init, w := words[..|words| - 1], words[|words| - 1];
      var st := WrapRun(font, maxWidth, init);
      RunCover(font, maxWidth, init);
      assert words == init + [w];
      var ww := Width(font, w.text);
      if st.current != [] && st.width + SpaceWidth(font) + ww > maxWidth {
        JoinSnoc(st.lines, st.current);
        assert Join(st.lines + [st.current]) + [w] == words;
      }
    }
  }

  /** current_width is always the natural width of the open line. */
  lemma {:induction false} RunWidth(font: Font, maxWidth: int, words: seq<Word>)
    ensures WrapRun(font, maxWidth, words).current != [] ==>
      WrapRun(font, maxWidth, words).width == LineWidth(font, WrapRun(font, maxWidth, words).current)
  {
    if words != [] {
      var init, w := words[..|words| - 1], words[|words| - 1];
      var st := WrapRun(font, maxWidth, init);
      RunWidth(font, maxWidth, init);
      if st.current != [] && st.width + SpaceWidth(font) + Width(font, w.text) <= maxWidth {
        assert (st.current + [w])[..|st.current|] == st.current;
      }
    }
  }

  /** A line of two or more words never exceeds the maximum width. */
  lemma {:induction false} RunFit(font: Font, maxWidth: int, words: seq<Word>)
    ensures forall k :: 0 <= k < |WrapRun(font, maxWidth, words).lines| && |WrapRun(font, maxWidth, words).lines[k]| >= 2 ==>
      LineWidth(font, WrapRun(font, maxWidth, words).lines[k]) <= maxWidth
    ensures |WrapRun(font, maxWidth, words).current| >= 2 ==>
      LineWidth(font, WrapRun(font, maxWidth, words).current) <= maxWidth
  {
    if words != [] {
      var init, w := words[..|words| - 1], words[|words| - 1];
      var st := WrapRun(font, maxWidth, init);
      RunFit(font, maxWidth, init);
      RunWidth(font, maxWidth, init);
      if st.current != [] && st.width + SpaceWidth(font) + Width(font, w.text) <= maxWidth {
        assert (st.current + [w])[..|st.current|] == st.current;
      }
    }
  }

  /** Every line but the first was opened by a word that would not fit on the line before. */
  lemma {:induction false} RunBreak(font: Font, maxWidth: int, words: seq<Word>)
    ensures var st := WrapRun(font, maxWidth, words);
      forall k :: 0 < k < |st.lines| ==> BrokeBefore(font, maxWidth, st.lines[k - 1], st.lines[k])
    ensures var st := WrapRun(font, maxWidth, words);
      st.lines != [] ==> BrokeBefore(font, maxWidth, st.lines[|st.lines| - 1], st.current)
  {
    if words != [] {
      var init, w := words[..|words| - 1], words[|words| - 1];
      var st := WrapRun(font, maxWidth, init);
      RunBreak(font, maxWidth, init);
      RunWidth(font, maxWidth, init);
      RunCover(font, maxWidth, init);
      if st.current != [] && st.width + SpaceWidth(font) + Width(font, w.text) > maxWidth {
        var lines := st.lines + [st.current];
        forall k | 0 < k < |lines| ensures BrokeBefore(font, maxWidth, lines[k - 1], lines[k]) {
          if k < |st.lines| {
            assert lines[k - 1] == st.lines[k - 1] && lines[k] == st.lines[k];
          }
        }
      }
    }
  }

  /** wrap_words loses no word: the lines are non-empty and flatten back to the input. */
  lemma {:induction false} WrapCover(font: Font, maxWidth: int, words: seq<Word>)
    ensures Join(Wrap(font, maxWidth, words)) == words
    ensures forall k :: 0 <= k < |Wrap(font, maxWidth, words)| ==> Wrap(font, maxWidth, words)[k] != []
  {
    var st := WrapRun(font, maxWidth, words);
    RunCover(font, maxWidth, words);
    if st.current != [] {
      JoinSnoc(st.lines, st.current);
    }
  }

  /** Only a line holding a single word can be wider than maxWidth. */
  lemma {:induction false} WrapFit(font: Font, maxWidth: int, words: seq<Word>, k: nat)
    requires k < |Wrap(font, maxWidth, words)| && |Wrap(font, maxWidth, words)[k]| >= 2
    ensures LineWidth(font, Wrap(font, maxWidth, words)[k]) <= maxWidth
  {
    var st := WrapRun(font, maxWidth, words);
    RunFit(font, maxWidth, words);
    if k < |st.lines| {
      assert Wrap(font, maxWidth, words)[k] == st.lines[k];
    }
  }

  /** The first word of each later line would not have fitted on the line before it. */
  lemma {:induction false} WrapBreak(font: Font, maxWidth: int, words: seq<Word>, k: nat)
    requires 0 < k < |Wrap(font, maxWidth, words)|
    ensures BrokeBefore(font, maxWidth, Wrap(font, maxWidth, words)[k - 1], Wrap(font, maxWidth, words)[k])
  {
    var st := WrapRun(font, maxWidth, words);
    RunBreak(font, maxWidth, words);
    RunCover(font, maxWidth, words);
    var lines := Wrap(font, maxWidth, words);
    if k < |st.lines| {
      assert lines[k - 1] == st.lines[k - 1] && lines[k] == st.lines[k];
    } else {
      assert lines[k - 1] == st.lines[|st.lines| - 1] && lines[k] == st.current;
    }
  }

  // ---------------------------------------------------------------------
  // justify_line_positions and the left-aligned last line

  /**
   * A coordinate as Python holds it: an int, or a float once a fractional
   * space has been added to it.
   */
  datatype Coord = IntCoord(i: int) | RealCoord(r: real)

  function Value(c: Coord): real {
    match c
    case IntCoord(i) => i as real
    case RealCoord(r) => r
  }

  /** Python's + on numbers: int + int is an int, a float operand makes a float. */
  function Plus(a: Coord, b: Coord): (c: Coord)
    ensures Value(c) == Value(a) + Value(b)
    ensures c.IntCoord? <==> a.IntCoord? && b.IntCoord?
  {
    if a.IntCoord? && b.IntCoord? then IntCoord(a.i + b.i) else RealCoord(Value(a) + Value(b))
  }

  /** One positioned word: the record appended to positions and to svg_elements. */
  datatype Placed = Placed(x: Coord, y: int, word: string, color: Color, width: int, height: int)

  /** The word widths of a line, the list word_widths. */
  function Widths(font: Font, line: seq<Word>): (r: seq<int>)
    ensures |r| == |line|
  {
    if line == [] then [] else Widths(font, line[..|line| - 1]) + [Width(font, line[|line| - 1].text)]
  }

  /** sum(xs). */
  function Sum(xs: seq<int>): int {
    if xs == [] then 0 else Sum(xs[..|xs| - 1]) + xs[|xs| - 1]
  }

  /** The widths of the first k words of a line, added up. */
  function PrefixWidth(font: Font, line: seq<Word>, k: nat): int
    requires k <= |line|
  {
    Sum(Widths(font, line[..k]))
  }

  lemma {:induction false} WidthsAt(font: Font, line: seq<Word>, k: nat)
    requires k < |line|
    ensures Widths(font, line)[k] == Width(font, line[k].text)
  {
    if k < |line| - 1 {
      WidthsAt(font, line[..|line| - 1], k);
    }
  }

  lemma {:induction false} PrefixWidthStep(font: Font, line: seq<Word>, k: nat)
    requires k < |line|
    ensures PrefixWidth(font, line, k + 1) == PrefixWidth(font, line, k) + Width(font, line[k].text)
  {
    assert line[..k + 1][..k] == line[..k];
  }

  /** The space added between the words of a justified line: a float when the line is stretched. */
  function Added(font: Font, line: seq<Word>, maxWidth: int): Coord {
    var n := |line| - 1;
    if n > 0 then
      var extra := maxWidth - Sum(Widths(font, line)) - n * SpaceWidth(font);
      if extra > 0 then RealCoord(extra as real / n as real) else IntCoord(0)
    else IntCoord(0)
  }

  /** The room a line of two or more words leaves after its natural width. */
  function Extra(font: Font, line: seq<Word>, maxWidth: int): int {
    maxWidth - Sum(Widths(font, line)) - (|line| - 1) * SpaceWidth(font)
  }

  /** cur_x before word k: x, advanced by each earlier word's width, a space and step. */
  function XAt(font: Font, line: seq<Word>, x: int, step: Coord, k: nat): Coord
    requires k <= |line|
  {
    if k == 0 then IntCoord(x)
    else Plus(XAt(font, line, x, step, k - 1), Plus(IntCoord(Width(font, line[k - 1].text) + SpaceWidth(font)), step))
  }

  /** The record of word k of a line. */
  function PlaceAt(font: Font, line: seq<Word>, x: int, y: int, step: Coord, k: nat): Placed
    requires k < |line|
  {
    Placed(XAt(font, line, x, step, k), y, line[k].text, line[k].color, Width(font, line[k].text), LetterHeight(font))
  }

  /** The records of the first n words of a line. */
  function Placements(font: Font, line: seq<Word>, x: int, y: int, step: Coord, n: nat): (r: seq<Placed>)
    requires n <= |line|
    ensures |r| == n
  {
    if n == 0 then [] else Placements(font, line, x, y, step, n - 1) + [PlaceAt(font, line, x, y, step, n - 1)]
  }

  /** The positions justify_line_positions returns. */
  function Justified(font: Font, line: seq<Word>, x: int, y: int, maxWidth: int): seq<Placed> {
    Placements(font, line, x, y, Added(font, line, maxWidth), |line|)
  }

  /** The positions of the last line: natural spacing from x. */
  function LeftAligned(font: Font, line: seq<Word>, x: int, y: int): seq<Placed> {
    Placements(font, line, x, y, IntCoord(0), |line|)
  }

  method JustifyLinePositions(font: Font, line: seq<Word>, x: int, y: int, maxWidth: int)
    returns (positions: seq<Placed>)
    ensures positions == Justified(font, line, x, y, maxWidth)
  {
    var widths: seq<int> := [];
    for i := 0 to |line|
      invariant widths == Widths(font, line[..i])
    {
      widths := widths + [Width(font, line[i].text)];
      assert line[..i + 1][..i] == line[..i];
    }
    assert line[..|line|] == line;
    var total := Sum(widths);
    var spaceWidth := SpaceWidth(font);
    var numSpaces := |line| - 1;
    var added: Coord;
    if numSpaces > 0 {
      var extra := maxWidth - total - numSpaces * spaceWidth;
      added := if extra > 0 then RealCoord(extra as real / numSpaces as real) else IntCoord(0);
    } else {
      added := IntCoord(0);
    }
    positions := [];
    var cur := IntCoord(x);
    for k := 0 to |line|
      invariant positions == Placements(font, line, x, y, added, k)
      invariant cur == XAt(font, line, x, added, k)
    {
      WidthsAt(font, line, k);
      positions := positions + [Placed(cur, y, line[k].text, line[k].color, widths[k], LetterHeight(font))];
      cur := Plus(cur, Plus(IntCoord(widths[k] + spaceWidth), added));
    }
  }

  /** The inner loop of texty_gen for the last line: left-aligned from x. */
  method LastLinePositions(font: Font, line: seq<Word>, x: int, y: int) returns (positions: seq<Placed>)
    ensures positions == LeftAligned(font, line, x, y)
  {
    var spaceWidth := SpaceWidth(font);
    positions := [];
    var cur := x;
    for k := 0 to |line|
      invariant positions == Placements(font, line, x, y, IntCoord(0), k)
      invariant IntCoord(cur) == XAt(font, line, x, IntCoord(0), k)
    {
      var w := Width(font, line[k].text);
      positions := positions + [Placed(IntCoord(cur), y, line[k].text, line[k].color, w, LetterHeight(font))];
      cur := cur + w + spaceWidth;
    }
  }

  lemma {:induction false} PlacementsAt(font: Font, line: seq<Word>, x: int, y: int, step: Coord, n: nat, k: nat)
    requires k < n <= |line|
    ensures Placements(font, line, x, y, step, n)[k] == PlaceAt(font, line, x, y, step, k)
  {
    if k < n - 1 {
      PlacementsAt(font, line, x, y, step, n - 1, k);
    }
  }

  /** Where word k goes: x plus the earlier widths, k spaces and k steps; an int unless a step is a float. */
  lemma {:induction false} XAtValue(font: Font, line: seq<Word>, x: int, step: Coord, k: nat)
    requires k <= |line|
    ensures Value(XAt(font, line, x, step, k))
         == (x + PrefixWidth(font, line, k)) as real + k as real * (SpaceWidth(font) as real + Value(step))
    ensures XAt(font, line, x, step, k).IntCoord? <==> k == 0 || step.IntCoord?
  {
    XAtKind(font, line, x, step, k);
    XAtReal(font, line, x, step, k);
  }

  lemma {:induction false} XAtKind(font: Font, line: seq<Word>, x: int, step: Coord, k: nat)
    requires k <= |line|
    ensures XAt(font, line, x, step, k).IntCoord? <==> k == 0 || step.IntCoord?
  {
    if k > 0 {
      XAtKind(font, line, x, step, k - 1);
    }
  }

  lemma {:induction false} XAtReal(font: Font, line: seq<Word>, x: int, step: Coord, k: nat)
    requires k <= |line|
    ensures Value(XAt(font, line, x, step, k))
         == (x + PrefixWidth(font, line, k)) as real + k as real * (SpaceWidth(font) as real + Value(step))
  {
    XAtSum(font, line, x, step, k);
    RepeatTimes(k, SpaceWidth(font) as real + Value(step));
  }

  /** k copies of c added up. */
  function Repeat(k: nat, c: real): real {
    if k == 0 then 0.0 else Repeat(k - 1, c) + c
  }

  lemma {:induction false} RepeatTimes(k: nat, c: real)
    ensures Repeat(k, c) == k as real * c
  {
    if k > 0 {
      RepeatTimes(k - 1, c);
    }
  }

  lemma {:induction false} XAtSum(font: Font, line: seq<Word>, x: int, step: Coord, k: nat)
    requires k <= |line|
    ensures Value(XAt(font, line, x, step, k))
         == (x + PrefixWidth(font, line, k)) as real + Repeat(k, SpaceWidth(font) as real + Value(step))
  {
    if k > 0 {
      XAtSum(font, line, x, step, k - 1);
      PrefixWidthStep(font, line, k - 1);
    }
  }

  /** The arithmetic of one advance of cur_x. */
  lemma {:induction false} StepValue(prev: real, x: int, p: int, w: int, sp: int, v: real, k: int)
    requires prev == (x + p) as real + (k - 1) as real * (sp as real + v)
    ensures prev + ((w + sp) as real + v) == (x + (p + w)) as real + k as real * (sp as real + v)
  {
  }

  /** With no added space cur_x stays an int: x plus the widths before word k and k spaces. */
  lemma {:induction false} XAtInt(font: Font, line: seq<Word>, x: int, k: nat)
    requires k <= |line|
    ensures XAt(font, line, x, IntCoord(0), k) == IntCoord(x + PrefixWidth(font, line, k) + k * SpaceWidth(font))
  {
    if k > 0 {
      XAtInt(font, line, x, k - 1);
      PrefixWidthStep(font, line, k - 1);
    }
  }

  /** The added space is never negative. */
  lemma {:induction false} AddedNonNegative(font: Font, line: seq<Word>, maxWidth: int)
    ensures Value(Added(font, line, maxWidth)) >= 0.0
  {
  }

  /** Word k of a line whose words are step apart beyond natural spacing. */
  lemma {:induction false} PlacedAt(font: Font, line: seq<Word>, x: int, y: int, step: Coord, k: nat)
    requires k < |line|
    ensures var p := Placements(font, line, x, y, step, |line|)[k];
      && p.word == line[k].text && p.color == line[k].color && p.y == y
      && p.width == Width(font, line[k].text) && p.height == LetterHeight(font)
      && Value(p.x) == (x + PrefixWidth(font, line, k)) as real + k as real * (SpaceWidth(font) as real + Value(step))
      && (p.x.IntCoord? <==> k == 0 || step.IntCoord?)
  {
    PlacementsAt(font, line, x, y, step, |line|, k);
    XAtValue(font, line, x, step, k);
  }

  /**
   * Each word keeps its text and colour, in order, and the first word
   * starts at x; word k is at x plus the natural width of the words before
   * it and k times the added space.
   */
  lemma {:induction false} JustifiedAt(font: Font, line: seq<Word>, x: int, y: int, maxWidth: int, k: nat)
    requires k < |line|
    ensures var p := Justified(font, line, x, y, maxWidth)[k];
      && p.word == line[k].text && p.color == line[k].color && p.y == y
      && p.width == Width(font, line[k].text) && p.height == LetterHeight(font)
      && Value(p.x) == (x + PrefixWidth(font, line, k)) as real
                       + k as real * (SpaceWidth(font) as real + Value(Added(font, line, maxWidth)))
      && (k == 0 ==> p.x == IntCoord(x))
  {
    PlacedAt(font, line, x, y, Added(font, line, maxWidth), k);
  }

  /** A stretched line ends exactly at x + maxWidth. */
  lemma {:induction false} JustifiedRightEdge(font: Font, line: seq<Word>, x: int, y: int, maxWidth: int)
    requires |line| >= 2 && Extra(font, line, maxWidth) > 0
    ensures var p := Justified(font, line, x, y, maxWidth)[|line| - 1];
      Value(p.x) + p.width as real == (x + maxWidth) as real
  {
    var n := |line| - 1;
    JustifiedAt(font, line, x, y, maxWidth, n);
    PrefixWidthStep(font, line, n);
    assert line[..n + 1] == line;
    var extra := Extra(font, line, maxWidth);
    SpreadArith(n, SpaceWidth(font), extra);
  }

  /** n gaps of a space and extra / n each add up to n spaces and extra. */
  lemma {:induction false} SpreadArith(n: int, sp: int, extra: int)
    requires n > 0
    ensures n as real * (sp as real + extra as real / n as real) == (n * sp + extra) as real
  {
    assert n as real * (extra as real / n as real) == extra as real;
  }

  /** A line that is not stretched keeps natural spacing, in whole pixels. */
  lemma {:induction false} JustifiedNatural(font: Font, line: seq<Word>, x: int, y: int, maxWidth: int)
    requires !(|line| >= 2 && Extra(font, line, maxWidth) > 0)
    ensures Justified(font, line, x, y, maxWidth) == LeftAligned(font, line, x, y)
  {
  }

  /** The last line: word k at x plus the natural width of the words before it, all ints. */
  lemma {:induction false} LeftAlignedAt(font: Font, line: seq<Word>, x: int, y: int, k: nat)
    requires k < |line|
    ensures var p := LeftAligned(font, line, x, y)[k];
      && p.word == line[k].text && p.color == line[k].color && p.y == y
      && p.width == Width(font, line[k].text) && p.height == LetterHeight(font)
      && p.x == IntCoord(x + PrefixWidth(font, line, k) + k * SpaceWidth(font))
  {
    PlacementsAt(font, line, x, y, IntCoord(0), |line|, k);
    XAtInt(font, line, x, k);
  }

  // ---------------------------------------------------------------------
  // Line layout of texty_gen

  /** line_height: the height of "A" and 5 pixels. */
  function LineHeight(font: Font): int {
    LetterHeight(font) + 5
  }

  /** Line i: justified from the margin, except the last line, left-aligned; y steps by line_height. */
  function LinePositions(font: Font, lines: seq<seq<Word>>, i: nat): seq<Placed>
    requires i < |lines|
  {
    var y := Margin + i * LineHeight(font);
    if i < |lines| - 1 then Justified(font, lines[i], Margin, y, MaxLineWidth)
    else LeftAligned(font, lines[i], Margin, y)
  }

  /** svg_elements after the first n lines. */
  function LayoutUpTo(font: Font, lines: seq<seq<Word>>, n: nat): seq<Placed>
    requires n <= |lines|
  {
    if n == 0 then [] else LayoutUpTo(font, lines, n - 1) + LinePositions(font, lines, n - 1)
  }

  function Layout(font: Font, lines: seq<seq<Word>>): seq<Placed> {
    LayoutUpTo(font, lines, |lines|)
  }

  /** The height of the box of the word itself, used for the raster highlight. */
  function WordHeight(font: Font, t: string): int {
    BoxOf(font, t).bottom - BoxOf(font, t).top
  }

  /** The highlight drawn behind a categorised word: 2 pixels of padding across, 5 down. */
  function RasterRect(font: Font, p: Placed): Corners {
    Corners(Value(p.x) - 2.0, (p.y - 5) as real,
            Value(p.x) + (p.width + 2) as real, (p.y + WordHeight(font, p.word) + 5) as real)
  }

  /** The highlights of the categorised words, in drawing order. */
  function Rects(font: Font, ps: seq<Placed>): seq<Corners> {
    if ps == [] then []
    else
      var p := ps[|ps| - 1];
      Rects(font, ps[..|ps| - 1]) + (if p.color != Black then [RasterRect(font, p)] else [])
  }

  /** The loop of texty_gen over the lines: it records every position and draws the highlights. */
  method PlaceLines(font: Font, lines: seq<seq<Word>>) returns (elements: seq<Placed>, rects: seq<Corners>)
    ensures elements == Layout(font, lines)
    ensures rects == Rects(font, elements)
  {
    elements := [];
    rects := [];
    var lineHeight := LetterHeight(font) + 5;
    var y := Margin;
    for i := 0 to |lines|
      invariant elements == LayoutUpTo(font, lines, i)
      invariant rects == Rects(font, elements)
      invariant y == Margin + i * lineHeight
    {
      elements, rects := PlaceLine(font, lines, i, y, elements, rects);
      NextRow(i, lineHeight);
      y := y + lineHeight;
    }
  }

  /** One pass of the loop over the lines: position line i at height y and draw it. */
  method PlaceLine(font: Font, lines: seq<seq<Word>>, i: nat, y: int, elements0: seq<Placed>, rects0: seq<Corners>)
    returns (elements: seq<Placed>, rects: seq<Corners>)
    requires i < |lines| && y == Margin + i * LineHeight(font)
    requires rects0 == Rects(font, elements0)
    ensures elements == elements0 + LinePositions(font, lines, i)
    ensures rects == Rects(font, elements)
  {
    var positions;
    if i < |lines| - 1 {
      positions := JustifyLinePositions(font, lines[i], Margin, y, MaxLineWidth);
    } else {
      positions := LastLinePositions(font, lines[i], Margin, y);
    }
    elements, rects := DrawLine(font, positions, elements0, rects0);
  }

  lemma {:induction false} NextRow(i: int, h: int)
    ensures Margin + (i + 1) * h == Margin + i * h + h
  {
  }

  /** The inner loop over one line's positions: record each and draw its highlight. */
  method DrawLine(font: Font, positions: seq<Placed>, elements0: seq<Placed>, rects0: seq<Corners>)
    returns (elements: seq<Placed>, rects: seq<Corners>)
    requires rects0 == Rects(font, elements0)
    ensures elements == elements0 + positions
    ensures rects == Rects(font, elements)
  {
    elements, rects := elements0, rects0;
    for j := 0 to |positions|
      invariant elements == elements0 + positions[..j]
      invariant rects == Rects(font, elements)
    {
      var pos := positions[j];
      if pos.color != Black {
        var h := WordHeight(font, pos.word);
        rects := rects + [Corners(Value(pos.x) - 2.0, (pos.y - 5) as real,
                                  Value(pos.x) + (pos.width + 2) as real, (pos.y + h + 5) as real)];
      }
      RectsSnoc(font, elements, pos);
      elements := elements + [pos];
      assert positions[..j + 1] == positions[..j] + [pos];
    }
    assert positions[..|positions|] == positions;
  }

  lemma {:induction false} RectsSnoc(font: Font, ps: seq<Placed>, p: Placed)
    ensures Rects(font, ps + [p]) == Rects(font, ps) + (if p.color != Black then [RasterRect(font, p)] else [])
  {
    assert (ps + [p])[..|ps|] == ps;
  }

  /** Word k of line i: its text and colour, the line's y, and its x. */
  lemma {:induction false} LinePositionsAt(font: Font, lines: seq<seq<Word>>, i: nat, k: nat)
    requires i < |lines| && k < |lines[i]|
    ensures |LinePositions(font, lines, i)| == |lines[i]|
    ensures var p := LinePositions(font, lines, i)[k];
      && p.word == lines[i][k].text && p.color == lines[i][k].color
      && p.y == Margin + i * LineHeight(font)
      && (k == 0 ==> p.x == IntCoord(Margin))
      && (i < |lines| - 1 ==> Value(p.x) == (Margin + PrefixWidth(font, lines[i], k)) as real
                                 + k as real * (SpaceWidth(font) as real + Value(Added(font, lines[i], MaxLineWidth))))
      && (i == |lines| - 1 ==> p.x == IntCoord(Margin + PrefixWidth(font, lines[i], k) + k * SpaceWidth(font)))
  {
    var y := Margin + i * LineHeight(font);
    if i < |lines| - 1 {
      JustifiedAt(font, lines[i], Margin, y, MaxLineWidth, k);
    } else {
      LeftAlignedAt(font, lines[i], Margin, y, k);
    }
  }

  /** The word and colour of each record. */
  function AsWords(ps: seq<Placed>): (r: seq<Word>)
    ensures |r| == |ps|
  {
    if ps == [] then [] else AsWords(ps[..|ps| - 1]) + [Word(ps[|ps| - 1].word, ps[|ps| - 1].color)]
  }

  lemma {:induction false} AsWordsAppend(a: seq<Placed>, b: seq<Placed>)
    ensures AsWords(a + b) == AsWords(a) + AsWords(b)
    decreases |b|
  {
    if b != [] {
      var init := b[..|b| - 1];
      assert (a + b)[..|a + b| - 1] == a + init;
      AsWordsAppend(a, init);
    } else {
      assert a + b == a;
    }
  }

  lemma {:induction false} AsWordsPlacements(font: Font, line: seq<Word>, x: int, y: int, step: Coord, n: nat)
    requires n <= |line|
    ensures AsWords(Placements(font, line, x, y, step, n)) == line[..n]
  {
    if n > 0 {
      AsWordsPlacements(font, line, x, y, step, n - 1);
      var ps := Placements(font, line, x, y, step, n);
      assert ps[..n - 1] == Placements(font, line, x, y, step, n - 1);
      assert line[..n] == line[..n - 1] + [line[n - 1]];
    }
  }

  lemma {:induction false} LineWords(font: Font, lines: seq<seq<Word>>, i: nat)
    requires i < |lines|
    ensures AsWords(LinePositions(font, lines, i)) == lines[i]
  {
    var line := lines[i];
    var y := Margin + i * LineHeight(font);
    AsWordsPlacements(font, line, Margin, y, Added(font, line, MaxLineWidth), |line|);
    AsWordsPlacements(font, line, Margin, y, IntCoord(0), |line|);
    assert line[..|line|] == line;
  }

  lemma {:induction false} LayoutUpToWords(font: Font, lines: seq<seq<Word>>, n: nat)
    requires n <= |lines|
    ensures AsWords(LayoutUpTo(font, lines, n)) == Join(lines[..n])
  {
    if n > 0 {
      LayoutUpToWords(font, lines, n - 1);
      AsWordsAppend(LayoutUpTo(font, lines, n - 1), LinePositions(font, lines, n - 1));
      LineWords(font, lines, n - 1);
      assert lines[..n] == lines[..n - 1] + [lines[n - 1]];
      JoinSnoc(lines[..n - 1], lines[n - 1]);
    }
  }

  /** One record per word of the lines, in order, with the word's text and colour. */
  lemma {:induction false} LayoutWords(font: Font, lines: seq<seq<Word>>)
    ensures AsWords(Layout(font, lines)) == Join(lines)
  {
    LayoutUpToWords(font, lines, |lines|);
    assert lines[..|lines|] == lines;
  }

  /** A highlight is drawn for every categorised word and for nothing else. */
  lemma {:induction false} RectsFor(font: Font, ps: seq<Placed>, r: Corners)
    ensures r in Rects(font, ps) <==> exists p :: p in ps && p.color != Black && r == RasterRect(font, p)
  {
    if ps != [] {
      var init, last := ps[..|ps| - 1], ps[|ps| - 1];
      RectsFor(font, init, r);
      assert ps == init + [last];
      if r in Rects(font, ps) && r !in Rects(font, init) {
        assert last in ps;
      }
      if exists p :: p in ps && p.color != Black && r == RasterRect(font, p) {
        var p :| p in ps && p.color != Black && r == RasterRect(font, p);
        if p != last {
          assert p in init;
        }
      }
    }
  }

  // ---------------------------------------------------------------------
  // SVG assembly of texty_gen

  /** An element of the SVG body. */
  datatype SvgNode =
    | RectNode(x: Coord, y: int, width: int, height: int, fill: Color)
    | TextNode(x: Coord, y: int, fill: Color, fontSize: nat, text: string)

  /** The text of a record: at baseline y + height, white when uncategorised. */
  function TextOf(p: Placed, fontSize: nat): SvgNode {
    TextNode(p.x, p.y + p.height, if p.color == Black then "white" else p.color, fontSize, p.word)
  }

  /** The highlight of a categorised record: padded by 2 across and 5 down, with the "A" height. */
  function RectOf(p: Placed): SvgNode {
    RectNode(Plus(p.x, IntCoord(-2)), p.y - 5, p.width + 4, p.height + 10, p.color)
  }

  /** The SVG elements of one record: its highlight, if categorised, then its text. */
  function ElementNodes(p: Placed, fontSize: nat): seq<SvgNode> {
    if p.color == Black then [TextOf(p, fontSize)] else [RectOf(p), TextOf(p, fontSize)]
  }

  function Nodes(ps: seq<Placed>, fontSize: nat): seq<SvgNode> {
    if ps == [] then [] else Nodes(ps[..|ps| - 1], fontSize) + ElementNodes(ps[|ps| - 1], fontSize)
  }

  /** An f-string field holding a coordinate: str() of an int, or of a float through realStr. */
  function CoordString(c: Coord, realStr: real -> string): string {
    match c
    case IntCoord(i) => Markup.IntToString(i)
    case RealCoord(r) => realStr(r)
  }

  function NodeMarkup(n: SvgNode, realStr: real -> string): string {
    match n
    case RectNode(x, y, width, height, fill) =>
      "<rect x=\"" + CoordString(x, realStr) + "\" y=\"" + Markup.IntToString(y)
      + "\" width=\"" + Markup.IntToString(width) + "\" height=\"" + Markup.IntToString(height)
      + "\" fill=\"" + fill + "\" />"
    case TextNode(x, y, fill, fontSize, text) =>
      "<text x=\"" + CoordString(x, realStr) + "\" y=\"" + Markup.IntToString(y)
      + "\" fill=\"" + fill + "\" stroke=\"" + fill + "\" stroke-width=\"1\" font-size=\""
      + Markup.IntToString(fontSize) + "\" font-family=\"DejaVu Sans\">" + text + "</text>"
  }

  /** The elements' markup, concatenated in order. */
  function Body(nodes: seq<SvgNode>, realStr: real -> string): string {
    Tokenizing.Flat(nodes, n => NodeMarkup(n, realStr))
  }

  /** The svg element of the page size and the white background. */
  function SvgHeader(): string {
    "<svg xmlns=\"http://www.w3.org/2000/svg\" width=\"" + Markup.IntToString(PageWidth)
    + "\" height=\"" + Markup.IntToString(PageHeight) + "\">"
    + "<rect width=\"100%\" height=\"100%\" fill=\"white\" />"
  }

  method RenderSvg(elements: seq<Placed>, fontSize: nat, realStr: real -> string) returns (svg: string)
    ensures svg == SvgHeader() + Body(Nodes(elements, fontSize), realStr) + "</svg>"
  {
    var body := "";
    for k := 0 to |elements|
      invariant body == Body(Nodes(elements[..k], fontSize), realStr)
    {
      var markup := ElementMarkup(elements[k], fontSize, realStr);
      NodesSnoc(elements, k, fontSize, realStr);
      body := body + markup;
    }
    assert elements[..|elements|] == elements;
    svg := SvgHeader() + body + "</svg>";
  }

  /** The markup texty_gen emits for one record. */
  method ElementMarkup(el: Placed, fontSize: nat, realStr: real -> string) returns (markup: string)
    ensures markup == Body(ElementNodes(el, fontSize), realStr)
  {
    if el.color == Black {
      markup := NodeMarkup(TextOf(el, fontSize), realStr);
    } else {
      markup := NodeMarkup(RectOf(el), realStr);
      markup := markup + NodeMarkup(TextOf(el, fontSize), realStr);
    }
    ElementBody(el, fontSize, realStr);
  }

  lemma {:induction false} NodesSnoc(elements: seq<Placed>, k: nat, fontSize: nat, realStr: real -> string)
    requires k < |elements|
    ensures Body(Nodes(elements[..k + 1], fontSize), realStr)
         == Body(Nodes(elements[..k], fontSize), realStr) + Body(ElementNodes(elements[k], fontSize), realStr)
  {
    assert elements[..k + 1][..k] == elements[..k];
    BodyAppend(Nodes(elements[..k], fontSize), ElementNodes(elements[k], fontSize), realStr);
  }

  /** The markup of one record: its highlight, if categorised, then its text. */
  lemma {:induction false} ElementBody(p: Placed, fontSize: nat, realStr: real -> string)
    ensures Body(ElementNodes(p, fontSize), realStr)
         == if p.color == Black then NodeMarkup(TextOf(p, fontSize), realStr)
            else NodeMarkup(RectOf(p), realStr) + NodeMarkup(TextOf(p, fontSize), realStr)
  {
    var t := TextOf(p, fontSize);
    if p.color == Black {
      BodyOne(t, realStr);
    } else {
      var r := RectOf(p);
      BodyAppend([r], [t], realStr);
      BodyOne(r, realStr);
      BodyOne(t, realStr);
      assert [r] + [t] == [r, t];
    }
  }

  lemma {:induction false} BodyOne(n: SvgNode, realStr: real -> string)
    ensures Body([n], realStr) == NodeMarkup(n, realStr)
  {
    Tokenizing.FlatOne(n, n => NodeMarkup(n, realStr));
  }

  lemma {:induction false} BodyAppend(a: seq<SvgNode>, b: seq<SvgNode>, realStr: real -> string)
    ensures Body(a + b, realStr) == Body(a, realStr) + Body(b, realStr)
  {
    Tokenizing.FlatAppend(a, b, n => NodeMarkup(n, realStr));
  }

  /** The text elements of a body, in order. */
  function TextNodes(nodes: seq<SvgNode>): seq<SvgNode> {
    if nodes == [] then []
    else TextNodes(nodes[..|nodes| - 1]) + (if nodes[|nodes| - 1].TextNode? then [nodes[|nodes| - 1]] else [])
  }

  /** The texts of the records, in order. */
  function TextsOf(ps: seq<Placed>, fontSize: nat): (r: seq<SvgNode>)
    ensures |r| == |ps|
  {
    if ps == [] then [] else TextsOf(ps[..|ps| - 1], fontSize) + [TextOf(ps[|ps| - 1], fontSize)]
  }

  lemma {:induction false} TextNodesAppend(a: seq<SvgNode>, b: seq<SvgNode>)
    ensures TextNodes(a + b) == TextNodes(a) + TextNodes(b)
    decreases |b|
  {
    if b == [] {
      assert a + b == a;
    } else {
      var init := b[..|b| - 1];
      assert (a + b)[..|a + b| - 1] == a + init;
      TextNodesAppend(a, init);
    }
  }

  lemma {:induction false} TextNodesElement(p: Placed, fontSize: nat)
    ensures TextNodes(ElementNodes(p, fontSize)) == [TextOf(p, fontSize)]
  {
    var t := TextOf(p, fontSize);
    assert [t][..0] == [];
    if p.color != Black {
      var two := [RectOf(p), t];
      assert two[..1] == [RectOf(p)] && two[..1][..0] == [];
      assert TextNodes(two[..1]) == [];
    }
  }

  /** The SVG has one text element per record, in record order. */
  lemma {:induction false} NodesTexts(ps: seq<Placed>, fontSize: nat)
    ensures TextNodes(Nodes(ps, fontSize)) == TextsOf(ps, fontSize)
  {
    if ps != [] {
      var init, p := ps[..|ps| - 1], ps[|ps| - 1];
      NodesTexts(init, fontSize);
      TextNodesAppend(Nodes(init, fontSize), ElementNodes(p, fontSize));
      TextNodesElement(p, fontSize);
    }
  }

  /** The SVG has a highlight for exactly the categorised records. */
  lemma {:induction false} NodesRects(ps: seq<Placed>, fontSize: nat, n: SvgNode)
    requires n.RectNode?
    ensures n in Nodes(ps, fontSize) <==> exists p :: p in ps && p.color != Black && n == RectOf(p)
  {
    if ps != [] {
      var init, last := ps[..|ps| - 1], ps[|ps| - 1];
      NodesRects(init, fontSize, n);
      assert ps == init + [last];
      if n in Nodes(ps, fontSize) && n !in Nodes(init, fontSize) {
        assert n in ElementNodes(last, fontSize);
        assert last in ps;
      }
      if exists p :: p in ps && p.color != Black && n == RectOf(p) {
        var p :| p in ps && p.color != Black && n == RectOf(p);
        if p != last {
          assert p in init;
        } else {
          assert n in ElementNodes(last, fontSize);
        }
      }
    }
  }

  // ---------------------------------------------------------------------
  // The font-fit scan of texty_gen

  /** A size passes when its wrapped lines, line_height each plus 20, fit in the page less 20. */
  predicate Fits(metrics: Metrics, words: seq<Word>, size: nat) {
    var font := Font(metrics, size);
    |Wrap(font, MaxLineWidth, words)| * LineHeight(font) + 20 <= PageHeight - 20
  }

  function FitTest(metrics: Metrics, words: seq<Word>): nat -> bool {
    (size: nat) => Fits(metrics, words, size)
  }

  /** best_font_size: the end of the run of passing sizes from 10, or 10 when 10 fails. */
  function FontSizeFor(metrics: Metrics, words: seq<Word>): nat {
    FontFit.FitSize(FitTest(metrics, words))
  }

  /** One candidate size: wrap the words in that font and compare the total height with the page. */
  method SizeFits(metrics: Metrics, words: seq<Word>, size: nat) returns (ok: bool)
    ensures ok == Fits(metrics, words, size)
  {
    var font := Font(metrics, size);
    var lines := WrapWords(font, words, MaxLineWidth);
    var lineHeight := LetterHeight(font) + 5;
    var totalHeight := |lines| * lineHeight + 20;
    ok := !(totalHeight > PageHeight - 20);
  }

  method FitFontSize(metrics: Metrics, words: seq<Word>) returns (best: nat)
    ensures best == FontSizeFor(metrics, words)
  {
    ghost var fits := FitTest(metrics, words);
    var found: Option<nat> := None;
    var size := MinFontSize;
    while size <= MaxFontSize
      invariant MinFontSize <= size <= MaxFontSize + 1
      invariant found == None <==> size == MinFontSize
      invariant found.Some? ==> found.value == size - 1
      invariant FontFit.ScanFrom(fits, size, if found.None? then MinFontSize else found.value) == FontSizeFor(metrics, words)
    {
      var ok := SizeFits(metrics, words, size);
      if !ok {
        break;
      }
      found := Some(size);
      size := size + 1;
    }
    best := if found.None? then MinFontSize else found.value;
  }

  /** The chosen size lies in 10..299 and ends the run of passing sizes from 10, or is 10. */
  lemma {:induction false} FontSizeForFacts(metrics: Metrics, words: seq<Word>)
    ensures MinFontSize <= FontSizeFor(metrics, words) <= MaxFontSize
    ensures !Fits(metrics, words, MinFontSize) ==> FontSizeFor(metrics, words) == MinFontSize
    ensures Fits(metrics, words, MinFontSize) ==>
      (forall s :: MinFontSize <= s <= FontSizeFor(metrics, words) ==> Fits(metrics, words, s))
      && (FontSizeFor(metrics, words) < MaxFontSize ==> !Fits(metrics, words, FontSizeFor(metrics, words) + 1))
  {
    var fits := FitTest(metrics, words);
    FontFit.FitSizeRange(fits);
    if fits(MinFontSize) {
      FontFit.FitSizeMaximal(fits);
      forall s | MinFontSize <= s <= FontSizeFor(metrics, words) ensures Fits(metrics, words, s) {
        assert fits(s);
      }
    }
  }

  // ---------------------------------------------------------------------
  // texty_gen

  /** What texty_gen computes for one document: the size, the records, the highlights and the SVG. */
  datatype Rendering = Rendering(fontSize: nat, elements: seq<Placed>, rects: seq<Corners>, svg: string)

  /** The words texty_gen lays out: labels sorted by start, segmented and split. */
  function DocumentWords(text: string, labels: seq<Label>, colors: map<string, Color>): seq<Word> {
    Tokenizing.Words(Segmenting.SegmentsFrom(text, Segmenting.SortLabels(labels), 0, colors))
  }

  function Render(metrics: Metrics, text: string, labels: seq<Label>, colors: map<string, Color>,
                  realStr: real -> string): Rendering
  {
    var words := DocumentWords(text, labels, colors);
    var size := FontSizeFor(metrics, words);
    var font := Font(metrics, size);
    var elements := Layout(font, Wrap(font, MaxLineWidth, words));
    Rendering(size, elements, Rects(font, elements),
              SvgHeader() + Body(Nodes(elements, size), realStr) + "</svg>")
  }

  /**
   * texty_gen after the document is read: the page for the text and its labels.
   * The PNG files are drawn from the same records and highlights.
   */
  method TextyGen(metrics: Metrics, text: string, labels: seq<Label>, colors: map<string, Color>,
                  realStr: real -> string)
    returns (result: Rendering)
    ensures result == Render(metrics, text, labels, colors, realStr)
    ensures MinFontSize <= result.fontSize <= MaxFontSize
    ensures AsWords(result.elements) == DocumentWords(text, labels, colors)
  {
    var sorted := Segmenting.SortLabels(labels);
    var segments := Segmenting.SegmentText(text, sorted, colors);
    var words := Tokenizing.SegmentToWords(segments);
    var size := FitFontSize(metrics, words);
    var font := Font(metrics, size);
    var lines := WrapWords(font, words, MaxLineWidth);
    var elements, rects := PlaceLines(font, lines);
    var svg := RenderSvg(elements, size, realStr);
    result := Rendering(size, elements, rects, svg);
    FontSizeForFacts(metrics, words);
    LayoutWords(font, lines);
    WrapCover(font, MaxLineWidth, words);
  }
}
