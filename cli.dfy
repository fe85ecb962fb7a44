/**
 * The layout engine of the command-line tool (APP-cli/texty_gen_cli.py):
 * its own line wrapper, font-fit scan, left-aligned layout and SVG
 * markup, and the naming of the output files in the batch loop. Widths
 * are bbox[2] and heights bbox[3] of the boxes the rasterizer reports,
 * that is, measured from the origin rather than from the box's left or top.
 */
module CliApp {
  import opened Texty
  import Segmenting
  import Tokenizing
  import FontFit
  import Markup

  /** bbox[2] of t: the advance the tool uses as a word's width. */
  function Advance(font: Font, t: string): int {
    BoxOf(font, t).right
  }

  /** bbox[3] of t: the height the tool records for a word. */
  function Depth(font: Font, t: string): int {
    BoxOf(font, t).bottom
  }

  function SpaceAdvance(font: Font): int {
    Advance(font, " ")
  }

  /** The step between lines: getbbox("A")[3] + 5. */
  function RowHeight(font: Font): int {
    Depth(font, "A") + 5
  }

  /** Natural width of a line: its advances and one space between neighbours. */
  function LineWidth(font: Font, line: seq<Word>): int {
    if line == [] then 0
    else if |line| == 1 then Advance(font, line[0].text)
    else LineWidth(font, line[..|line| - 1]) + SpaceAdvance(font) + Advance(font, line[|line| - 1].text)
  }

  /**
   * The width wrap_words keeps for a line: the natural width, and one space
   * more on the first line, which was opened by an append rather than by a break.
   */
  function KeptWidth(font: Font, line: seq<Word>, first: bool): int {
    LineWidth(font, line) + if first then SpaceAdvance(font) else 0
  }

  // ---------------------------------------------------------------------
  // wrap_words

  /** The wrapper's variables: finished lines, the open line and line_width. */
  datatype LineState = LineState(lines: seq<seq<Word>>, line: seq<Word>, width: int)

  /**
   * One pass of the loop. A break needs a non-empty line; an append always
   * adds the word and a space, since the line is already non-empty when
   * the conditional space is evaluated.
   */
  function WrapStep(font: Font, maxWidth: int, st: LineState, w: Word): LineState {
    var ww := Advance(font, w.text);
    if st.line != [] && st.width + SpaceAdvance(font) + ww > maxWidth then
      LineState(st.lines + [st.line], [w], ww)
    else LineState(st.lines, st.line + [w], st.width + ww + SpaceAdvance(font))
  }

  function WrapRun(font: Font, maxWidth: int, words: seq<Word>): LineState {
    if words == [] then LineState([], [], 0)
    else WrapStep(font, maxWidth, WrapRun(font, maxWidth, words[..|words| - 1]), words[|words| - 1])
  }

  /** The lines wrap_words returns. */
  function Wrap(font: Font, maxWidth: int, words: seq<Word>): seq<seq<Word>> {
    var st := WrapRun(font, maxWidth, words);
    if st.line != [] then st.lines + [st.line] else st.lines
  }

  method WrapWords(font: Font, words: seq<Word>, maxWidth: int) returns (lines: seq<seq<Word>>)
    ensures lines == Wrap(font, maxWidth, words)
  {
    lines := [];
    var line: seq<Word> := [];
    var lineWidth := 0;
    var spaceWidth := SpaceAdvance(font);
    for i := 0 to |words|
      invariant LineState(lines, line, lineWidth) == WrapRun(font, maxWidth, words[..i])
    {
      var w := words[i];
      var wordWidth := Advance(font, w.text);
      if line != [] && lineWidth + spaceWidth + wordWidth > maxWidth {
        lines := lines + [line];
        line, lineWidth := [w], wordWidth;
      } else {
        line := line + [w];
        lineWidth := lineWidth + wordWidth + (if line != [] then spaceWidth else 0);
      }
      assert words[..i + 1][..i] == words[..i];
    }
    assert words[..|words|] == words;
    if line != [] {
      lines := lines + [line];
    }
  }

  /** The line was closed because the first word of next did not fit after its kept width. */
  predicate BrokeBefore(font: Font, maxWidth: int, line: seq<Word>, first: bool, next: seq<Word>) {
    next != [] && KeptWidth(font, line, first) + SpaceAdvance(font) + Advance(font, next[0].text) > maxWidth
  }

  /** The finished lines and the open line hold the words seen, in order; no line is empty. */
  lemma {:induction false} RunCover(font: Font, maxWidth: int, words: seq<Word>)
    ensures WrapRun(font, maxWidth, words).line == [] <==> words == []
    ensures Join(WrapRun(font, maxWidth, words).lines) + WrapRun(font, maxWidth, words).line == words
    ensures forall k :: 0 <= k < |WrapRun(font, maxWidth, words).lines| ==> WrapRun(font, maxWidth, words).lines[k] != []
  {
    if words != [] {
      var init, w := words[..|words| - 1], words[|words| - 1];
      var st := WrapRun(font, maxWidth, init);
      RunCover(font, maxWidth, init);
      assert words == init + [w];
      if st.line != [] && st.width + SpaceAdvance(font) + Advance(font, w.text) > maxWidth {
        JoinSnoc(st.lines, st.line);
        assert Join(st.lines + [st.line]) + [w] == words;
      }
    }
  }

  /** line_width is the kept width of the open line: one space too many while it is the first line. */
  lemma {:induction false} RunWidth(font: Font, maxWidth: int, words: seq<Word>)
    ensures var st := WrapRun(font, maxWidth, words);
      st.line != [] ==> st.width == KeptWidth(font, st.line, st.lines == [])
  {
    if words != [] {
      var init, w := words[..|words| - 1], words[|words| - 1];
      var st := WrapRun(font, maxWidth, init);
      RunWidth(font, maxWidth, init);
      RunCover(font, maxWidth, init);
      if !(st.line != [] && st.width + SpaceAdvance(font) + Advance(font, w.text) > maxWidth) {
        if st.line != [] {
          assert (st.line + [w])[..|st.line|] == st.line;
        } else {
          assert st.line + [w] == [w];
          assert st.lines == [] by {
            NonEmptyLines(font, maxWidth, init);
          }
        }
      }
    }
  }

  /** Once a line is finished, the open line is never empty again. */
  lemma {:induction false} NonEmptyLines(font: Font, maxWidth: int, words: seq<Word>)
    ensures WrapRun(font, maxWidth, words).lines != [] ==> WrapRun(font, maxWidth, words).line != []
  {
    if words != [] {
      NonEmptyLines(font, maxWidth, words[..|words| - 1]);
    }
  }

  /** A line of two or more words was within maxWidth, kept width included, when its last word joined. */
  lemma {:induction false} RunFit(font: Font, maxWidth: int, words: seq<Word>)
    ensures var st := WrapRun(font, maxWidth, words);
      forall k :: 0 <= k < |st.lines| && |st.lines[k]| >= 2 ==> KeptWidth(font, st.lines[k], k == 0) <= maxWidth
    ensures var st := WrapRun(font, maxWidth, words);
      |st.line| >= 2 ==> KeptWidth(font, st.line, st.lines == []) <= maxWidth
  {
    if words != [] {
      var init, w := words[..|words| - 1], words[|words| - 1];
      var st := WrapRun(font, maxWidth, init);
      RunFit(font, maxWidth, init);
      RunWidth(font, maxWidth, init);
      if st.line != [] && st.width + SpaceAdvance(font) + Advance(font, w.text) <= maxWidth {
        assert (st.line + [w])[..|st.line|] == st.line;
      }
    }
  }

  /** Every line but the first was opened by a word that did not fit after the line before it. */
  lemma {:induction false} RunBreak(font: Font, maxWidth: int, words: seq<Word>)
    ensures var st := WrapRun(font, maxWidth, words);
      forall k :: 0 < k < |st.lines| ==> BrokeBefore(font, maxWidth, st.lines[k - 1], k == 1, st.lines[k])
    ensures var st := WrapRun(font, maxWidth, words);
      st.lines != [] ==> BrokeBefore(font, maxWidth, st.lines[|st.lines| - 1], |st.lines| == 1, st.line)
  {
    if words != [] {
      var init, w := words[..|words| - 1], words[|words| - 1];
      var st := WrapRun(font, maxWidth, init);
      RunBreak(font, maxWidth, init);
      if st.line != [] && st.width + SpaceAdvance(font) + Advance(font, w.text) > maxWidth {
        RunWidth(font, maxWidth, init);
        RunCover(font, maxWidth, init);
        var lines := st.lines + [st.line];
        forall k | 0 < k < |lines| ensures BrokeBefore(font, maxWidth, lines[k - 1], k == 1, lines[k]) {
          if k < |st.lines| {
            assert lines[k - 1] == st.lines[k - 1] && lines[k] == st.lines[k];
          }
        }
      } else if st.lines != [] {
        NonEmptyLines(font, maxWidth, init);
        assert (st.line + [w])[0] == st.line[0];
      }
    }
  }

  /** wrap_words loses no word: the lines are non-empty and flatten back to the input. */
  lemma {:induction false} WrapCover(font: Font, maxWidth: int, words: seq<Word>)
    ensures Join(Wrap(font, maxWidth, words)) == words
    ensures forall k :: 0 <= k < |Wrap(font, maxWidth, words)| ==> Wrap(font, maxWidth, words)[k] != []
  {
    var st := WrapRun(font, maxWidth, words);
    RunCover(font, maxWidth, words);
    if st.line != [] {
      JoinSnoc(st.lines, st.line);
    }
  }

  /** A line of two or more words fits within maxWidth with its kept width, the first line's extra space included. */
  lemma {:induction false} WrapFit(font: Font, maxWidth: int, words: seq<Word>, k: nat)
    requires k < |Wrap(font, maxWidth, words)| && |Wrap(font, maxWidth, words)[k]| >= 2
    ensures KeptWidth(font, Wrap(font, maxWidth, words)[k], k == 0) <= maxWidth
  {
    var st := WrapRun(font, maxWidth, words);
    RunFit(font, maxWidth, words);
    if k < |st.lines| {
      assert Wrap(font, maxWidth, words)[k] == st.lines[k];
    }
  }

  /** The first word of each later line did not fit after the kept width of the line before. */
  lemma {:induction false} WrapBreak(font: Font, maxWidth: int, words: seq<Word>, k: nat)
    requires 0 < k < |Wrap(font, maxWidth, words)|
    ensures BrokeBefore(font, maxWidth, Wrap(font, maxWidth, words)[k - 1], k == 1, Wrap(font, maxWidth, words)[k])
  {
    var st := WrapRun(font, maxWidth, words);
    RunBreak(font, maxWidth, words);
    RunCover(font, maxWidth, words);
    var lines := Wrap(font, maxWidth, words);
    if k < |st.lines| {
      assert lines[k - 1] == st.lines[k - 1] && lines[k] == st.lines[k];
    } else {
      assert lines[k - 1] == st.lines[|st.lines| - 1] && lines[k] == st.line;
    }
  }

  // ---------------------------------------------------------------------
  // The layout loop of generate_texty_visuals

  /** One entry of svg_elements: position, advance, height, word and colour, all in whole pixels. */
  datatype Element = Element(x: int, y: int, width: int, height: int, word: string, color: Color)

  /** The advances of the first k words of a line, added up. */
  function PrefixAdvance(font: Font, line: seq<Word>, k: nat): int
    requires k <= |line|
  {
    if k == 0 then 0 else PrefixAdvance(font, line, k - 1) + Advance(font, line[k - 1].text)
  }

  /** x before word k: 10, advanced by w + space_width for each earlier word. */
  function XFor(font: Font, line: seq<Word>, k: nat): int
    requires k <= |line|
  {
    if k == 0 then Margin else XFor(font, line, k - 1) + Advance(font, line[k - 1].text) + SpaceAdvance(font)
  }

  function ElementAt(font: Font, line: seq<Word>, y: int, k: nat): Element
    requires k < |line|
  {
    Element(XFor(font, line, k), y, Advance(font, line[k].text), Depth(font, line[k].text), line[k].text, line[k].color)
  }

  /** The elements of the first n words of a line drawn at height y. */
  function RowElements(font: Font, line: seq<Word>, y: int, n: nat): (r: seq<Element>)
    requires n <= |line|
    ensures |r| == n
  {
    if n == 0 then [] else RowElements(font, line, y, n - 1) + [ElementAt(font, line, y, n - 1)]
  }

  /** Line i, drawn at y = 10 + i * (getbbox("A")[3] + 5). */
  function Row(font: Font, lines: seq<seq<Word>>, i: nat): seq<Element>
    requires i < |lines|
  {
    RowElements(font, lines[i], Margin + i * RowHeight(font), |lines[i]|)
  }

  function LayoutUpTo(font: Font, lines: seq<seq<Word>>, n: nat): seq<Element>
    requires n <= |lines|
  {
    if n == 0 then [] else LayoutUpTo(font, lines, n - 1) + Row(font, lines, n - 1)
  }

  /** svg_elements after the loop. */
  function Layout(font: Font, lines: seq<seq<Word>>): seq<Element> {
    LayoutUpTo(font, lines, |lines|)
  }

  /** The raster highlight of an element: [x - 2, y - 5, x + w + 2, y + h + 5]. */
  function RasterRect(e: Element): Corners {
    Corners((e.x - 2) as real, (e.y - 5) as real, (e.x + e.width + 2) as real, (e.y + e.height + 5) as real)
  }

  /** The highlights of the categorised elements, in drawing order. */
  function Rects(es: seq<Element>): seq<Corners> {
    if es == [] then []
    else
      var e := es[|es| - 1];
      Rects(es[..|es| - 1]) + (if e.color != Black then [RasterRect(e)] else [])
  }

  /** The loop over the wrapped lines: each line from x = 10, each next line lower by the row height. */
  method LayoutLines(font: Font, lines: seq<seq<Word>>) returns (elements: seq<Element>, rects: seq<Corners>)
    ensures elements == Layout(font, lines)
    ensures rects == Rects(elements)
  {
    elements := [];
    rects := [];
    var y := Margin;
    for i := 0 to |lines|
      invariant elements == LayoutUpTo(font, lines, i)
      invariant rects == Rects(elements)
      invariant y == Margin + i * RowHeight(font)
    {
      elements, rects := PlaceRow(font, lines[i], y, elements, rects);
      NextRow(i, RowHeight(font));
      y := y + Depth(font, "A") + 5;
    }
  }

  lemma NextRow(i: int, h: int)
    ensures Margin + (i + 1) * h == Margin + i * h + h
  {
  }

  /** The inner loop over the words of one line. */
  method PlaceRow(font: Font, line: seq<Word>, y: int, elements0: seq<Element>, rects0: seq<Corners>)
    returns (elements: seq<Element>, rects: seq<Corners>)
    requires rects0 == Rects(elements0)
    ensures elements == elements0 + RowElements(font, line, y, |line|)
    ensures rects == Rects(elements)
  {
    elements, rects := elements0, rects0;
    var spaceWidth := SpaceAdvance(font);
    var x := Margin;
    for j := 0 to |line|
      invariant x == XFor(font, line, j)
      invariant elements == elements0 + RowElements(font, line, y, j)
      invariant rects == Rects(elements)
    {
      var w := Advance(font, line[j].text);
      var h := Depth(font, line[j].text);
      var e := Element(x, y, w, h, line[j].text, line[j].color);
      if line[j].color != Black {
        rects := rects + [Corners((x - 2) as real, (y - 5) as real, (x + w + 2) as real, (y + h + 5) as real)];
      }
      RectsSnoc(elements, e);
      elements := elements + [e];
      x := x + w + spaceWidth;
    }
  }

  lemma {:induction false} RectsSnoc(es: seq<Element>, e: Element)
    ensures Rects(es + [e]) == Rects(es) + (if e.color != Black then [RasterRect(e)] else [])
  {
    assert (es + [e])[..|es|] == es;
  }

  /** Word k of a line starts at 10 plus the advances before it and k spaces. */
  lemma {:induction false} XForValue(font: Font, line: seq<Word>, k: nat)
    requires k <= |line|
    ensures XFor(font, line, k) == Margin + PrefixAdvance(font, line, k) + k * SpaceAdvance(font)
  {
    if k > 0 {
      XForValue(font, line, k - 1);
      NextRow(k - 1, SpaceAdvance(font));
    }
  }

  lemma {:induction false} RowElementsAt(font: Font, line: seq<Word>, y: int, n: nat, k: nat)
    requires k < n <= |line|
    ensures RowElements(font, line, y, n)[k] == ElementAt(font, line, y, k)
  {
    if k < n - 1 {
      RowElementsAt(font, line, y, n - 1, k);
    }
  }

  /** The word and colour of each element. */
  function AsWords(es: seq<Element>): (r: seq<Word>)
    ensures |r| == |es|
  {
    if es == [] then [] else AsWords(es[..|es| - 1]) + [Word(es[|es| - 1].word, es[|es| - 1].color)]
  }

  lemma {:induction false} AsWordsAppend(a: seq<Element>, b: seq<Element>)
    ensures AsWords(a + b) == AsWords(a) + AsWords(b)
    decreases |b|
  {
    if b != [] {
      var init := b[..|b| - 1];
      assert (a + b)[..|a + b| - 1] == a + init;
      AsWordsAppend(a, init);
    } else {
      assert a + b == a;
    }
  }

  lemma {:induction false} AsWordsRow(font: Font, line: seq<Word>, y: int, n: nat)
    requires n <= |line|
    ensures AsWords(RowElements(font, line, y, n)) == line[..n]
  {
    if n > 0 {
      AsWordsRow(font, line, y, n - 1);
      assert RowElements(font, line, y, n)[..n - 1] == RowElements(font, line, y, n - 1);
      assert line[..n] == line[..n - 1] + [line[n - 1]];
    }
  }

  lemma {:induction false} RowWords(font: Font, lines: seq<seq<Word>>, i: nat)
    requires i < |lines|
    ensures AsWords(Row(font, lines, i)) == lines[i]
  {
    AsWordsRow(font, lines[i], Margin + i * RowHeight(font), |lines[i]|);
    assert lines[i][..|lines[i]|] == lines[i];
  }

  lemma {:induction false} LayoutUpToWords(font: Font, lines: seq<seq<Word>>, n: nat)
    requires n <= |lines|
    ensures AsWords(LayoutUpTo(font, lines, n)) == Join(lines[..n])
  {
    if n > 0 {
      LayoutUpToWords(font, lines, n - 1);
      AsWordsAppend(LayoutUpTo(font, lines, n - 1), Row(font, lines, n - 1));
      RowWords(font, lines, n - 1);
      assert lines[..n] == lines[..n - 1] + [lines[n - 1]];
      JoinSnoc(lines[..n - 1], lines[n - 1]);
    }
  }

  /** Exactly one element per word, in word order, with the word's text and colour. */
  lemma {:induction false} LayoutWords(font: Font, lines: seq<seq<Word>>)
    ensures AsWords(Layout(font, lines)) == Join(lines)
  {
    LayoutUpToWords(font, lines, |lines|);
    assert lines[..|lines|] == lines;
  }

  lemma {:induction false} LayoutUpToIndex(font: Font, lines: seq<seq<Word>>, n: nat, i: nat, k: nat)
    requires i < n <= |lines| && k < |lines[i]|
    ensures |LayoutUpTo(font, lines, i)| + k < |LayoutUpTo(font, lines, n)|
    ensures LayoutUpTo(font, lines, n)[|LayoutUpTo(font, lines, i)| + k] == Row(font, lines, i)[k]
  {
    if i < n - 1 {
      LayoutUpToIndex(font, lines, n - 1, i, k);
    }
  }

  /**
   * The element of word k of line i follows the words of the earlier lines;
   * it is at x = 10 plus the advances before it and k spaces, at
   * y = 10 + i * row height, with the word's own advance and bbox[3].
   */
  lemma {:induction false} LayoutAt(font: Font, lines: seq<seq<Word>>, i: nat, k: nat)
    requires i < |lines| && k < |lines[i]|
    ensures |Join(lines[..i])| + k < |Layout(font, lines)|
    ensures var e := Layout(font, lines)[|Join(lines[..i])| + k];
      && e.word == lines[i][k].text && e.color == lines[i][k].color
      && e.x == Margin + PrefixAdvance(font, lines[i], k) + k * SpaceAdvance(font)
      && e.y == Margin + i * RowHeight(font)
      && e.width == Advance(font, lines[i][k].text) && e.height == Depth(font, lines[i][k].text)
  {
    LayoutUpToWords(font, lines, i);
    LayoutUpToIndex(font, lines, |lines|, i, k);
    RowElementsAt(font, lines[i], Margin + i * RowHeight(font), |lines[i]|, k);
    XForValue(font, lines[i], k);
  }

  /** A highlight is drawn for every categorised element and for nothing else. */
  lemma {:induction false} RectsFor(es: seq<Element>, r: Corners)
    ensures r in Rects(es) <==> exists e :: e in es && e.color != Black && r == RasterRect(e)
  {
    if es != [] {
      var init, last := es[..|es| - 1], es[|es| - 1];
      RectsFor(init, r);
      assert es == init + [last];
      if r in Rects(es) && r !in Rects(init) {
        assert last in es;
      }
      if exists e :: e in es && e.color != Black && r == RasterRect(e) {
        var e :| e in es && e.color != Black && r == RasterRect(e);
        if e != last {
          assert e in init;
        }
      }
    }
  }

  // ---------------------------------------------------------------------
  // SVG assembly of generate_texty_visuals

  datatype SvgNode =
    | RectNode(x: int, y: int, width: int, height: int, fill: Color)
    | TextNode(x: int, y: int, fill: Color, fontSize: nat, text: string)

  /** The text of an element: at baseline y + height, white when uncategorised. */
  function TextOf(e: Element, fontSize: nat): SvgNode {
    TextNode(e.x, e.y + e.height, if e.color == Black then "white" else e.color, fontSize, e.word)
  }

  /** The SVG highlight of a categorised element: 2 pixels of padding across, 5 down. */
  function RectOf(e: Element): SvgNode {
    RectNode(e.x - 2, e.y - 5, e.width + 4, e.height + 10, e.color)
  }

  function ElementNodes(e: Element, fontSize: nat): seq<SvgNode> {
    if e.color != Black then [RectOf(e), TextOf(e, fontSize)] else [TextOf(e, fontSize)]
  }

  function Nodes(es: seq<Element>, fontSize: nat): seq<SvgNode> {
    Tokenizing.Flat(es, e => ElementNodes(e, fontSize))
  }

  /** One line of markup; the word of a text element goes through html.escape. */
  function NodeMarkup(n: SvgNode): string {
    match n
    case RectNode(x, y, width, height, fill) =>
      "<rect x=\"" + Markup.IntToString(x) + "\" y=\"" + Markup.IntToString(y)
      + "\" width=\"" + Markup.IntToString(width) + "\" height=\"" + Markup.IntToString(height)
      + "\" fill=\"" + fill + "\" />\n"
    case TextNode(x, y, fill, fontSize, text) =>
      "<text x=\"" + Markup.IntToString(x) + "\" y=\"" + Markup.IntToString(y)
      + "\" fill=\"" + fill + "\" stroke=\"" + fill + "\" stroke-width=\"1\" font-size=\""
      + Markup.IntToString(fontSize) + "\" font-family=\"DejaVu Sans\">" + Markup.HtmlEscape(text) + "</text>\n"
  }

  function Body(nodes: seq<SvgNode>): string {
    Tokenizing.Flat(nodes, NodeMarkup)
  }

  function SvgHeader(): string {
    "<svg xmlns=\"http://www.w3.org/2000/svg\" width=\"" + Markup.IntToString(PageWidth)
    + "\" height=\"" + Markup.IntToString(PageHeight) + "\">\n"
    + "<rect width=\"100%\" height=\"100%\" fill=\"white\" />\n"
  }

  method RenderSvg(elements: seq<Element>, fontSize: nat) returns (svg: string)
    ensures svg == SvgHeader() + Body(Nodes(elements, fontSize)) + "</svg>"
  {
    var body := "";
    for k := 0 to |elements|
      invariant body == Body(Nodes(elements[..k], fontSize))
    {
      var markup := ElementMarkup(elements[k], fontSize);
      NodesSnoc(elements, k, fontSize);
      body := body + markup;
    }
    assert elements[..|elements|] == elements;
    svg := SvgHeader() + body + "</svg>";
  }

  /** The markup generate_texty_visuals emits for one element. */
  method ElementMarkup(e: Element, fontSize: nat) returns (markup: string)
    ensures markup == Body(ElementNodes(e, fontSize))
  {
    if e.color != Black {
      markup := NodeMarkup(RectOf(e));
      markup := markup + NodeMarkup(TextOf(e, fontSize));
    } else {
      markup := NodeMarkup(TextOf(e, fontSize));
    }
    ElementBody(e, fontSize);
  }

  lemma {:induction false} ElementBody(e: Element, fontSize: nat)
    ensures Body(ElementNodes(e, fontSize))
         == if e.color != Black then NodeMarkup(RectOf(e)) + NodeMarkup(TextOf(e, fontSize))
            else NodeMarkup(TextOf(e, fontSize))
  {
    var t := TextOf(e, fontSize);
    Tokenizing.FlatOne(t, NodeMarkup);
    if e.color != Black {
      var r := RectOf(e);
      Tokenizing.FlatAppend([r], [t], NodeMarkup);
      Tokenizing.FlatOne(r, NodeMarkup);
      assert [r] + [t] == [r, t];
    }
  }

  lemma {:induction false} NodesSnoc(es: seq<Element>, k: nat, fontSize: nat)
    requires k < |es|
    ensures Body(Nodes(es[..k + 1], fontSize)) == Body(Nodes(es[..k], fontSize)) + Body(ElementNodes(es[k], fontSize))
  {
    var f := (e: Element) => ElementNodes(e, fontSize);
    assert es[..k + 1] == es[..k] + [es[k]];
    Tokenizing.FlatAppend(es[..k], [es[k]], f);
    Tokenizing.FlatOne(es[k], f);
    Tokenizing.FlatAppend(Nodes(es[..k], fontSize), ElementNodes(es[k], fontSize), NodeMarkup);
  }

  /** The text elements of a body, in order. */
  function TextNodes(nodes: seq<SvgNode>): seq<SvgNode> {
    Tokenizing.Flat(nodes, (n: SvgNode) => if n.TextNode? then [n] else [])
  }

  /** The texts of the elements, in order. */
  function TextsOf(es: seq<Element>, fontSize: nat): (r: seq<SvgNode>)
    ensures |r| == |es|
  {
    if es == [] then [] else [TextOf(es[0], fontSize)] + TextsOf(es[1..], fontSize)
  }

  lemma {:induction false} TextsOfAt(es: seq<Element>, fontSize: nat, k: nat)
    requires k < |es|
    ensures TextsOf(es, fontSize)[k] == TextOf(es[k], fontSize)
  {
    if k > 0 {
      TextsOfAt(es[1..], fontSize, k - 1);
    }
  }

  lemma {:induction false} TextNodesElement(e: Element, fontSize: nat)
    ensures TextNodes(ElementNodes(e, fontSize)) == [TextOf(e, fontSize)]
  {
    var g := (n: SvgNode) => if n.TextNode? then [n] else [];
    var t := TextOf(e, fontSize);
    Tokenizing.FlatOne(t, g);
    if e.color != Black {
      Tokenizing.FlatAppend([RectOf(e)], [t], g);
      Tokenizing.FlatOne(RectOf(e), g);
      assert [RectOf(e)] + [t] == [RectOf(e), t];
    }
  }

  /** The SVG has one text element per element, in element order. */
  lemma {:induction false} NodesTexts(es: seq<Element>, fontSize: nat)
    ensures TextNodes(Nodes(es, fontSize)) == TextsOf(es, fontSize)
  {
    if es != [] {
      var g := (n: SvgNode) => if n.TextNode? then [n] else [];
      NodesTexts(es[1..], fontSize);
      Tokenizing.FlatAppend(ElementNodes(es[0], fontSize), Nodes(es[1..], fontSize), g);
      TextNodesElement(es[0], fontSize);
    }
  }

  /** The SVG has a rect for exactly the categorised elements. */
  lemma {:induction false} NodesRects(es: seq<Element>, fontSize: nat, n: SvgNode)
    requires n.RectNode?
    ensures n in Nodes(es, fontSize) <==> exists e :: e in es && e.color != Black && n == RectOf(e)
  {
    if es != [] {
      var e := es[0];
      NodesRects(es[1..], fontSize, n);
      Tokenizing.FlatAppend([e], es[1..], f => ElementNodes(f, fontSize));
      Tokenizing.FlatOne(e, f => ElementNodes(f, fontSize));
      assert es == [e] + es[1..];
      if exists d :: d in es && d.color != Black && n == RectOf(d) {
        var d :| d in es && d.color != Black && n == RectOf(d);
        if d != e {
          assert d in es[1..];
        }
      }
    }
  }

  /** The SVG rect and the raster highlight of an element cover the same box. */
  lemma {:induction false} RectAgrees(e: Element)
    requires e.color != Black
    ensures var r := RectOf(e);
      RasterRect(e) == Corners(r.x as real, r.y as real, (r.x + r.width) as real, (r.y + r.height) as real)
  {
  }

  // ---------------------------------------------------------------------
  // The font-fit scan of generate_texty_visuals

  /** A size passes while the wrapped lines, getbbox("A")[3] + 5 each, stay below the page less 20. */
  predicate Fits(metrics: Metrics, words: seq<Word>, size: nat) {
    var font := Font(metrics, size);
    |Wrap(font, MaxLineWidth, words)| * RowHeight(font) < PageHeight - 20
  }

  function FitTest(metrics: Metrics, words: seq<Word>): nat -> bool {
    (size: nat) => Fits(metrics, words, size)
  }

  /** best_font_size: 10, raised to each passing size until the first that fails. */
  function FontSizeFor(metrics: Metrics, words: seq<Word>): nat {
    FontFit.FitSize(FitTest(metrics, words))
  }

  /** One candidate size: wrap the words in that font and compare their height with the page. */
  method SizeFits(metrics: Metrics, words: seq<Word>, size: nat) returns (ok: bool)
    ensures ok == Fits(metrics, words, size)
  {
    var font := Font(metrics, size);
    var lines := WrapWords(font, words, MaxLineWidth);
    var totalHeight := |lines| * (Depth(font, "A") + 5);
    ok := !(totalHeight >= PageHeight - 20);
  }

  method FitFontSize(metrics: Metrics, words: seq<Word>) returns (best: nat)
    ensures best == FontSizeFor(metrics, words)
  {
    ghost var fits := FitTest(metrics, words);
    best := MinFontSize;
    var size := MinFontSize;
    while size <= MaxFontSize
      invariant MinFontSize <= size <= MaxFontSize + 1
      invariant size > MinFontSize ==> best == size - 1
      invariant size == MinFontSize ==> best == MinFontSize
      invariant FontFit.ScanFrom(fits, size, best) == FontSizeFor(metrics, words)
    {
      var ok := SizeFits(metrics, words, size);
      if !ok {
        break;
      }
      best := size;
      size := size + 1;
    }
  }

  /** The chosen size lies in 10..299 and ends the run of passing sizes from 10, or is 10. */
  lemma {:induction false} FontSizeForFacts(metrics: Metrics, words: seq<Word>)
    ensures MinFontSize <= FontSizeFor(metrics, words) <= MaxFontSize
    ensures !Fits(metrics, words, MinFontSize) ==> FontSizeFor(metrics, words) == MinFontSize
    ensures Fits(metrics, words, MinFontSize) ==>
      (forall s :: MinFontSize <= s <= FontSizeFor(metrics, words) ==> Fits(metrics, words, s))
      && (FontSizeFor(metrics, words) < MaxFontSize ==> !Fits(metrics, words, FontSizeFor(metrics, words) + 1))
  {
    var fits := FitTest(metrics, words);
    FontFit.FitSizeRange(fits);
    if fits(MinFontSize) {
      FontFit.FitSizeMaximal(fits);
      forall s | MinFontSize <= s <= FontSizeFor(metrics, words) ensures Fits(metrics, words, s) {
        assert fits(s);
      }
    }
  }

  // ---------------------------------------------------------------------
  // generate_texty_visuals

  /** What generate_texty_visuals computes: the size, the elements, the highlights and the SVG. */
  datatype Rendering = Rendering(fontSize: nat, elements: seq<Element>, rects: seq<Corners>, svg: string)

  /** The words the tool lays out: labels sorted by start, segmented and split. */
  function DocumentWords(text: string, labels: seq<Label>, colors: map<string, Color>): seq<Word> {
    Tokenizing.Words(Segmenting.SegmentsFrom(text, Segmenting.SortLabels(labels), 0, colors))
  }

  function Render(metrics: Metrics, text: string, labels: seq<Label>, colors: map<string, Color>): Rendering {
    var words := DocumentWords(text, labels, colors);
    var size := FontSizeFor(metrics, words);
    var font := Font(metrics, size);
    var elements := Layout(font, Wrap(font, MaxLineWidth, words));
    Rendering(size, elements, Rects(elements), SvgHeader() + Body(Nodes(elements, size)) + "</svg>")
  }

  /**
   * generate_texty_visuals for one object: the page for its text and labels.
   * The PNG files are drawn from the same elements and highlights.
   */
  method GenerateTextyVisuals(metrics: Metrics, text: string, labels: seq<Label>, colors: map<string, Color>)
    returns (result: Rendering)
    ensures result == Render(metrics, text, labels, colors)
    ensures MinFontSize <= result.fontSize <= MaxFontSize
    ensures AsWords(result.elements) == DocumentWords(text, labels, colors)
  {
    var sorted := Segmenting.SortLabels(labels);
    var segments := Segmenting.SegmentText(text, sorted, colors);
    var words := Tokenizing.SegmentToWords(segments);
    var size := FitFontSize(metrics, words);
    var font := Font(metrics, size);
    var lines := WrapWords(font, words, MaxLineWidth);
    var elements, rects := LayoutLines(font, lines);
    var svg := RenderSvg(elements, size);
    result := Rendering(size, elements, rects, svg);
    FontSizeForFacts(metrics, words);
    LayoutWords(font, lines);
    WrapCover(font, MaxLineWidth, words);
  }

  // ---------------------------------------------------------------------
  // Output naming in main

  /** The index of the last "." of name, if any. */
  function LastDot(name: string): (r: Option<nat>)
    ensures r.Some? ==> (r.value < |name| && name[r.value] == '.'
                         && forall k :: r.value < k < |name| ==> name[k] != '.')
    ensures r.None? ==> forall k :: 0 <= k < |name| ==> name[k] != '.'
  {
    if name == [] then None
    else if name[|name| - 1] == '.' then Some(|name| - 1)
    else LastDot(name[..|name| - 1])
  }

  /**
   * os.path.splitext(name)[0]: name without its extension, the part from
   * the last "." on; leading dots do not start an extension, so ".bashrc"
   * keeps its name.
   */
  function StemOf(name: string): string {
    match LastDot(name)
    case Some(d) => if exists k :: 0 <= k < d && name[k] != '.' then name[..d] else name
    case None => name
  }

  /**
   * The stem is a prefix of the name. It is shorter exactly when the name has
   * a last "." preceded by some non-dot character, and then it ends just
   * before that ".".
   */
  lemma {:induction false} StemShape(name: string)
    ensures var r := StemOf(name);
      && |r| <= |name| && name[..|r|] == r
      && (|r| < |name| ==>
            name[|r|] == '.'
            && (forall k :: |r| < k < |name| ==> name[k] != '.')
            && (exists k :: 0 <= k < |r| && r[k] != '.'))
    ensures (forall k :: 0 <= k < |name| ==> name[k] != '.') ==> StemOf(name) == name
    ensures |StemOf(name)| < |name| <==> (LastDot(name).Some? && exists k :: 0 <= k < LastDot(name).value && name[k] != '.')
    ensures |StemOf(name)| < |name| ==> |StemOf(name)| == LastDot(name).value
  {
    var r := StemOf(name);
    if |r| < |name| {
      var d := LastDot(name).value;
      var k :| 0 <= k < d && name[k] != '.';
      assert r[k] == name[k];
    }
  }

  /** base_filename: the data file's name without directories and extension. */
  function BaseFilename(dataFile: string): string {
    StemOf(Basename(dataFile))
  }

  /** The id of a row as read: missing, a string or an integer. */
  datatype ObjectId = NoId | TextId(s: string) | IntId(i: int)

  /** Python truthiness of the id: None, "" and 0 are false. */
  predicate Truthy(id: ObjectId) {
    match id
    case NoId => false
    case TextId(s) => s != ""
    case IntId(i) => i != 0
  }

  /** The id as an f-string field. */
  function IdString(id: ObjectId): string {
    match id
    case NoId => "None"
    case TextId(s) => s
    case IntId(i) => Markup.IntToString(i)
  }

  /** The name every output file of an object starts with: "{base_filename}-{obj_id}". */
  function OutputBase(dataFile: string, id: ObjectId): string {
    BaseFilename(dataFile) + "-" + IdString(id)
  }

  /** One row of the data file. */
  datatype DataObject = DataObject(id: ObjectId, text: string, labels: seq<Label>)

  /** The files written for one object: their common base name and the page. */
  datatype Output = Output(base: string, page: Rendering)

  /** The objects with a truthy id, in file order. */
  function Kept(objects: seq<DataObject>): (r: seq<DataObject>)
    ensures |r| <= |objects|
  {
    if objects == [] then []
    else Kept(objects[..|objects| - 1]) + (if Truthy(objects[|objects| - 1].id) then [objects[|objects| - 1]] else [])
  }

  /** The outputs of the batch loop after the objects. */
  function Outputs(metrics: Metrics, dataFile: string, objects: seq<DataObject>, colors: map<string, Color>): seq<Output> {
    if objects == [] then []
    else
      var o := objects[|objects| - 1];
      Outputs(metrics, dataFile, objects[..|objects| - 1], colors)
      + (if Truthy(o.id) then [Output(OutputBase(dataFile, o.id), Render(metrics, o.text, o.labels, colors))] else [])
  }

  /** The loop of main: objects without an id are skipped, the others rendered under "{base}-{id}". */
  method RunBatch(metrics: Metrics, dataFile: string, objects: seq<DataObject>, colors: map<string, Color>)
    returns (outputs: seq<Output>)
    ensures outputs == Outputs(metrics, dataFile, objects, colors)
  {
    var base := StemOf(Basename(dataFile));
    outputs := [];
    for k := 0 to |objects|
      invariant outputs == Outputs(metrics, dataFile, objects[..k], colors)
    {
      var o := objects[k];
      assert objects[..k + 1][..k] == objects[..k];
      if !Truthy(o.id) {
        continue;
      }
      var page := GenerateTextyVisuals(metrics, o.text, o.labels, colors);
      outputs := outputs + [Output(base + "-" + IdString(o.id), page)];
    }
    assert objects[..|objects|] == objects;
  }

  /** One output per object with a truthy id, in order, named after it and rendered from it. */
  lemma {:induction false} OutputsOfKept(metrics: Metrics, dataFile: string, objects: seq<DataObject>,
                                         colors: map<string, Color>)
    ensures |Outputs(metrics, dataFile, objects, colors)| == |Kept(objects)|
    ensures forall k :: 0 <= k < |Kept(objects)| ==>
      var o := Kept(objects)[k];
      Outputs(metrics, dataFile, objects, colors)[k] == Output(OutputBase(dataFile, o.id), Render(metrics, o.text, o.labels, colors))
  {
    if objects != [] {
      OutputsOfKept(metrics, dataFile, objects[..|objects| - 1], colors);
    }
  }

  /** Kept holds exactly the objects whose id is truthy. */
  lemma {:induction false} KeptTruthy(objects: seq<DataObject>, o: DataObject)
    ensures o in Kept(objects) <==> o in objects && Truthy(o.id)
  {
    if objects != [] {
      var init := objects[..|objects| - 1];
      KeptTruthy(init, o);
      assert objects == init + [objects[|objects| - 1]];
    }
  }
}
