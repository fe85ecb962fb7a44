/**
 * Shared vocabulary of the two layout engines: labelled spans, coloured
 * segments and words, the page constants and the font metrics that the
 * engines obtain from the font rasterizer.
 */
module Texty {

  /** A colour as written in the category configuration ("#ff0000"). */
  type Color = string

  /** The colour of uncategorised text, used for gaps and unknown categories. */
  const Black: Color := "#000000"

  /** A labelled half-open character range [start, end) of a document. */
  datatype Label = Label(start: int, end: int, category: string)

  /** A run of the document text with the colour it is drawn in. */
  datatype Segment = Segment(text: string, color: Color)

  /** A whitespace-free token with the colour of the segment it came from. */
  datatype Word = Word(text: string, color: Color)

  /**
   * The bounding box (left, top, right, bottom) that the rasterizer reports
   * for a string drawn at the origin.
   */
  datatype Box = Box(left: int, top: int, right: int, bottom: int)

  /** The font rasterizer: the box of a string at a font size (DejaVu Sans). */
  type Metrics = (string, nat) -> Box

  /** A font face at one size, with the metrics the rasterizer reports for it. */
  datatype Font = Font(metrics: Metrics, size: nat)

  /** textbbox((0, 0), t, font=font). */
  function BoxOf(font: Font, t: string): Box {
    font.metrics(t, font.size)
  }

  /** A value that may be absent (None). */
  datatype Option<T> = None | Some(value: T)

  /** A rectangle given by its corners, as passed to the raster back end. */
  datatype Corners = Corners(x0: real, y0: real, x1: real, y1: real)

  /** Page width in pixels. */
  const PageWidth: int := 800

  /** Page height: int(800 * 1.414). */
  const PageHeight: int := 1131

  /** Usable line width: the page width less a 10-pixel margin on each side. */
  const MaxLineWidth: int := PageWidth - 20

  /** Left and top margin of the first word. */
  const Margin: int := 10

  /** Font sizes tried by the fitting scan: range(10, 300). */
  const MinFontSize: nat := 10
  const MaxFontSize: nat := 299

  /** Whitespace: the six characters of string.whitespace, standing for \s and str.strip. */
  predicate IsSpace(c: char) {
    c == ' ' || c == '\t' || c == '\n' || c == '\r' || c == '\U{B}' || c == '\U{C}'
  }

  /** The characters of s that are not whitespace, in order. */
  function RemoveSpace(s: string): (r: string)
    ensures |r| <= |s|
    ensures forall i :: 0 <= i < |r| ==> !IsSpace(r[i])
  {
    if s == [] then []
    else if IsSpace(s[0]) then RemoveSpace(s[1..])
    else [s[0]] + RemoveSpace(s[1..])
  }

  lemma {:induction false} RemoveSpaceAppend(a: string, b: string)
    ensures RemoveSpace(a + b) == RemoveSpace(a) + RemoveSpace(b)
  {
    if a != [] {
      assert (a + b)[1..] == a[1..] + b;
      RemoveSpaceAppend(a[1..], b);
    } else {
      assert a + b == b;
    }
  }

  lemma SliceSplit<T>(s: seq<T>, a: nat, b: nat, c: nat)
    requires a <= b <= c <= |s|
    ensures s[a..c] == s[a..b] + s[b..c]
  {
  }

  lemma SplitThree<T>(s: seq<T>, a: nat, b: nat, c: nat)
    requires a <= b <= c <= |s|
    ensures s[a..b] + s[b..c] + s[c..] == s[a..]
  {
    SliceSplit(s, a, b, c);
    SliceSplit(s, a, c, |s|);
    assert s[c..] == s[c..|s|];
    assert s[a..] == s[a..|s|];
  }

  /** Concatenation of a list of strings. */
  function Concat(ss: seq<string>): string {
    if ss == [] then [] else ss[0] + Concat(ss[1..])
  }

  lemma {:induction false} ConcatAppend(a: seq<string>, b: seq<string>)
    ensures Concat(a + b) == Concat(a) + Concat(b)
  {
    if a == [] {
      assert a + b == b;
    } else {
      assert (a + b)[1..] == a[1..] + b;
      ConcatAppend(a[1..], b);
    }
  }

  /** The texts of the segments, in order. */
  function SegmentTexts(segments: seq<Segment>): seq<string> {
    if segments == [] then [] else [segments[0].text] + SegmentTexts(segments[1..])
  }

  lemma {:induction false} SegmentTextsAppend(a: seq<Segment>, b: seq<Segment>)
    ensures SegmentTexts(a + b) == SegmentTexts(a) + SegmentTexts(b)
  {
    if a == [] {
      assert a + b == b;
    } else {
      assert (a + b)[1..] == a[1..] + b;
      SegmentTextsAppend(a[1..], b);
    }
  }

  /**
   * Python's slice s[a:b] on any integers: negative indices count from the
   * end, out-of-range indices are clamped, and an empty range gives "".
   */
  function Slice(s: string, a: int, b: int): (r: string)
    ensures 0 <= a <= b <= |s| ==> r == s[a..b]
    ensures |r| <= |s|
  {
    var i := SliceIndex(a, |s|);
    var j := SliceIndex(b, |s|);
    if i < j then s[i..j] else []
  }

  /** How Python normalises one slice bound against a length n. */
  function SliceIndex(i: int, n: nat): (k: nat)
    ensures k <= n
    ensures 0 <= i <= n ==> k == i
  {
    if i < 0 then (if i + n < 0 then 0 else i + n)
    else if i > n then n
    else i
  }

  /** The lists of xss joined in order. */
  function Join<T>(xss: seq<seq<T>>): seq<T> {
    if xss == [] then [] else xss[0] + Join(xss[1..])
  }

  lemma {:induction false} JoinAppend<T>(a: seq<seq<T>>, b: seq<seq<T>>)
    ensures Join(a + b) == Join(a) + Join(b)
  {
    if a == [] {
      assert a + b == b;
    } else {
      assert (a + b)[1..] == a[1..] + b;
      JoinAppend(a[1..], b);
    }
  }

  lemma JoinSnoc<T>(a: seq<seq<T>>, x: seq<T>)
    ensures Join(a + [x]) == Join(a) + x
  {
    JoinAppend(a, [x]);
    assert [x][1..] == [];
  }

  /** os.path.basename: the part of a path after its last "/". */
  function Basename(path: string): (r: string)
    ensures |r| <= |path| && path[|path| - |r|..] == r
    ensures forall k :: 0 <= k < |r| ==> r[k] != '/'
    ensures |r| < |path| ==> path[|path| - |r| - 1] == '/'
  {
    if path == [] || path[|path| - 1] == '/' then []
    else Basename(path[..|path| - 1]) + [path[|path| - 1]]
  }
}
