/**
 * The span segmenter shared by both layout engines: the category colour
 * map, the stable sort of labels by start, and the walk over the sorted
 * labels that cuts the text into coloured segments. The Flask copy
 * (APP-flask/app.py) and the command-line copy (APP-cli/texty_gen_cli.py)
 * run the same code for these steps.
 */
module Segmenting {
  import opened Texty
  import Sorting

  /** One entry of the "categories" list of the configuration. */
  datatype CategoryEntry = CategoryEntry(category: string, color: Color)

  /** The dictionary comprehension {category: color}: later entries overwrite earlier ones. */
  function CategoryColors(entries: seq<CategoryEntry>): (m: map<string, Color>)
    ensures m.Keys == Categories(entries)
  {
    if entries == [] then map[]
    else
      var init, e := entries[..|entries| - 1], entries[|entries| - 1];
      CategoryColors(init)[e.category := e.color]
  }

  /** The categories the entries name. */
  function Categories(entries: seq<CategoryEntry>): (r: set<string>)
    ensures forall i :: 0 <= i < |entries| ==> entries[i].category in r
  {
    if entries == [] then {} else Categories(entries[..|entries| - 1]) + {entries[|entries| - 1].category}
  }

  /** Every category named by an entry has a colour, and no other does. */
  lemma {:induction false} CategoriesNamed(entries: seq<CategoryEntry>, c: string)
    ensures c in Categories(entries) <==> exists i :: 0 <= i < |entries| && entries[i].category == c
  {
    if entries != [] {
      var n := |entries| - 1;
      CategoriesNamed(entries[..n], c);
      if c in Categories(entries[..n]) {
        var i :| 0 <= i < n && entries[..n][i].category == c;
        assert entries[i].category == c;
      }
    }
  }

  /** A category named more than once gets the colour of its last entry. */
  lemma {:induction false} CategoryColorsLastWins(entries: seq<CategoryEntry>, i: nat)
    requires i < |entries| && LastWith(entries, i)
    ensures CategoryColors(entries)[entries[i].category] == entries[i].color
  {
    var n := |entries| - 1;
    if i < n {
      var init := entries[..n];
      assert init[i] == entries[i];
      assert LastWith(init, i);
      CategoryColorsLastWins(init, i);
      assert CategoryColors(entries) == CategoryColors(init)[entries[n].category := entries[n].color];
      assert entries[n].category != entries[i].category;
    }
  }

  /** No entry after position i names the same category. */
  predicate LastWith(entries: seq<CategoryEntry>, i: nat)
    requires i < |entries|
  {
    forall j :: i < j < |entries| ==> entries[j].category != entries[i].category
  }

  /** dict.get(category, "#000000"). */
  function ColorOf(colors: map<string, Color>, category: string): (c: Color)
    ensures category !in colors ==> c == Black
    ensures category in colors ==> c == colors[category]
  {
    if category in colors then colors[category] else Black
  }

  /** The sort key of sorted(labels, key=lambda x: x[0]). */
  const ByStart: (Label, Label) -> bool := (a: Label, b: Label) => a.start <= b.start

  lemma ByStartIsTotalPreorder()
    ensures Sorting.TotalPreorder(ByStart)
  {
  }

  /** sorted(labels, key=lambda x: x[0]): stable, by start only. */
  function SortLabels(labels: seq<Label>): (r: seq<Label>)
    ensures multiset(r) == multiset(labels) && |r| == |labels|
    ensures forall i, j :: 0 <= i < j < |r| ==> r[i].start <= r[j].start
    ensures forall k :: Sorting.ClassOf(r, k, ByStart) == Sorting.ClassOf(labels, k, ByStart)
  {
    ByStartIsTotalPreorder();
    Sorting.SortBySorted(labels, ByStart);
    Sorting.SortByPermutes(labels, ByStart);
    assert forall k :: Sorting.ClassOf(Sorting.SortBy(labels, ByStart), k, ByStart)
                    == Sorting.ClassOf(labels, k, ByStart) by {
      forall k ensures Sorting.ClassOf(Sorting.SortBy(labels, ByStart), k, ByStart)
                    == Sorting.ClassOf(labels, k, ByStart) {
        Sorting.SortByStable(labels, k, ByStart);
      }
    }
    Sorting.SortBy(labels, ByStart)
  }

  /** An uncategorised segment text[last:start], when the cursor is before start. */
  function GapBefore(text: string, last: int, start: int): (g: seq<Segment>)
    ensures |g| <= 1
  {
    if last < start then [Segment(Slice(text, last, start), Black)] else []
  }

  /** The segment of one label: its slice of the text in its category colour. */
  function LabelSegment(text: string, l: Label, colors: map<string, Color>): Segment {
    Segment(Slice(text, l.start, l.end), ColorOf(colors, l.category))
  }

  /**
   * The segments produced by walking labels from cursor position last:
   * an uncategorised gap before a label that starts after the cursor, the
   * label's own text in its category colour, and a trailing uncategorised
   * segment after the last label. Slices follow Python's rules, so this is
   * defined for every input.
   */
  function SegmentsFrom(text: string, labels: seq<Label>, last: int, colors: map<string, Color>): seq<Segment>
    decreases |labels|
  {
    if labels == [] then GapBefore(text, last, |text|)
    else
      GapBefore(text, last, labels[0].start) + [LabelSegment(text, labels[0], colors)]
      + SegmentsFrom(text, labels[1..], labels[0].end, colors)
  }

  /**
   * A label that starts at (or before) the cursor gets no uncategorised gap
   * segment before it: touching labels give adjacent segments.
   */
  lemma TouchingNoGap(text: string, labels: seq<Label>, last: int, colors: map<string, Color>)
    requires labels != [] && labels[0].start <= last
    ensures SegmentsFrom(text, labels, last, colors)
         == [LabelSegment(text, labels[0], colors)] + SegmentsFrom(text, labels[1..], labels[0].end, colors)
  {
    assert GapBefore(text, last, labels[0].start) == [];
  }

  lemma SegmentsFromStep(text: string, labels: seq<Label>, i: nat, last: int, colors: map<string, Color>)
    requires i < |labels|
    ensures SegmentsFrom(text, labels[i..], last, colors)
         == GapBefore(text, last, labels[i].start) + [LabelSegment(text, labels[i], colors)]
            + SegmentsFrom(text, labels[i + 1..], labels[i].end, colors)
  {
    assert labels[i..][1..] == labels[i + 1..];
  }

  lemma SegmentsFromCons(text: string, labels: seq<Label>, last: int, colors: map<string, Color>)
    requires labels != []
    ensures SegmentsFrom(text, labels, last, colors)
         == GapBefore(text, last, labels[0].start) + [LabelSegment(text, labels[0], colors)]
            + SegmentsFrom(text, labels[1..], labels[0].end, colors)
  {
  }

  /** What one pass of the segmenter's loop appends leaves the rest of the walk to do. */
  lemma WalkStep(text: string, labels: seq<Label>, i: nat, last: int, colors: map<string, Color>, before: seq<Segment>)
    requires i < |labels|
    ensures before + GapBefore(text, last, labels[i].start) + [LabelSegment(text, labels[i], colors)]
            + SegmentsFrom(text, labels[i + 1..], labels[i].end, colors)
         == before + SegmentsFrom(text, labels[i..], last, colors)
  {
    SegmentsFromStep(text, labels, i, last, colors);
  }

  /** Without labels a non-empty text is one uncategorised segment, and an empty text none. */
  lemma NoLabelsOneSegment(text: string, colors: map<string, Color>)
    ensures SegmentsFrom(text, [], 0, colors) == if text == [] then [] else [Segment(text, Black)]
  {
    assert text[0..|text|] == text;
  }

  /** The segmenter inline in texty_gen / generate_texty_visuals. */
  method SegmentText(text: string, labels: seq<Label>, colors: map<string, Color>)
    returns (segments: seq<Segment>)
    ensures segments == SegmentsFrom(text, labels, 0, colors)
    ensures labels == [] ==> segments == if text == [] then [] else [Segment(text, Black)]
  {
    segments := [];
    var last := 0;
    var i := 0;
    while i < |labels|
      invariant 0 <= i <= |labels|
      invariant segments + SegmentsFrom(text, labels[i..], last, colors) == SegmentsFrom(text, labels, 0, colors)
    {
      var l := labels[i];
      ghost var before := segments;
      if last < l.start {
        segments := segments + [Segment(Slice(text, last, l.start), Black)];
      }
      assert segments == before + GapBefore(text, last, l.start);
      var color := ColorOf(colors, l.category);
      segments := segments + [Segment(Slice(text, l.start, l.end), color)];
      WalkStep(text, labels, i, last, colors, before);
      last := l.end;
      i := i + 1;
    }
    assert labels[i..] == [];
    if last < |text| {
      segments := segments + [Segment(Slice(text, last, |text|), Black)];
    }
    if labels == [] {
      NoLabelsOneSegment(text, colors);
    }
  }

  // ---------------------------------------------------------------------
  // What the segments are when the labels are well formed.

  /** Labels in range, each ending no later than any later one starts, all at or after last. */
  predicate ValidFrom(labels: seq<Label>, last: int, n: nat) {
    && 0 <= last <= n
    && (forall i :: 0 <= i < |labels| ==> last <= labels[i].start <= labels[i].end <= n)
    && (forall i, j :: 0 <= i < j < |labels| ==> labels[i].end <= labels[j].start)
  }

  /** Sorted by start, every label in [0, n], and no two labels overlapping. */
  predicate ValidLabels(labels: seq<Label>, n: nat) {
    ValidFrom(labels, 0, n)
  }

  lemma {:induction false} ValidFromTail(labels: seq<Label>, last: int, n: nat)
    requires labels != [] && ValidFrom(labels, last, n)
    ensures ValidFrom(labels[1..], labels[0].end, n)
  {
  }

  lemma TextsOfOne(s: Segment)
    ensures Concat(SegmentTexts([s])) == s.text
  {
    assert [s][1..] == [];
    assert SegmentTexts([s]) == [s.text];
    assert Concat([s.text]) == s.text + Concat([]);
  }

  lemma GapText(text: string, last: int, start: int)
    requires 0 <= last <= start <= |text|
    ensures Concat(SegmentTexts(GapBefore(text, last, start))) == text[last..start]
  {
    if last < start {
      TextsOfOne(Segment(Slice(text, last, start), Black));
    }
  }

  lemma TextsOfThree(g: seq<Segment>, o: seq<Segment>, rest: seq<Segment>)
    ensures Concat(SegmentTexts(g + o + rest))
         == Concat(SegmentTexts(g)) + Concat(SegmentTexts(o)) + Concat(SegmentTexts(rest))
  {
    SegmentTextsAppend(g + o, rest);
    SegmentTextsAppend(g, o);
    ConcatAppend(SegmentTexts(g) + SegmentTexts(o), SegmentTexts(rest));
    ConcatAppend(SegmentTexts(g), SegmentTexts(o));
  }

  /** One step of the walk: gap, label and the rest join to the text from the cursor. */
  lemma CoverStep(text: string, last: int, l: Label, colors: map<string, Color>, rest: seq<Segment>)
    requires 0 <= last <= l.start <= l.end <= |text|
    requires Concat(SegmentTexts(rest)) == text[l.end..]
    ensures Concat(SegmentTexts(GapBefore(text, last, l.start) + [LabelSegment(text, l, colors)] + rest))
         == text[last..]
  {
    var g := GapBefore(text, last, l.start);
    var o := [LabelSegment(text, l, colors)];
    TextsOfThree(g, o, rest);
    GapText(text, last, l.start);
    TextsOfOne(LabelSegment(text, l, colors));
    SplitThree(text, last, l.start, l.end);
  }

  /** Joining the segments in order gives back the text from the cursor on. */
  lemma {:induction false} SegmentsCoverText(text: string, labels: seq<Label>, last: int, colors: map<string, Color>)
    requires ValidFrom(labels, last, |text|)
    ensures Concat(SegmentTexts(SegmentsFrom(text, labels, last, colors))) == text[last..]
    decreases |labels|
  {
    if labels == [] {
      GapText(text, last, |text|);
    } else {
      ValidFromTail(labels, last, |text|);
      SegmentsCoverText(text, labels[1..], labels[0].end, colors);
      CoverStep(text, last, labels[0], colors, SegmentsFrom(text, labels[1..], labels[0].end, colors));
    }
  }

  /** The number of characters the segments hold together. */
  function Length(segments: seq<Segment>): nat {
    if segments == [] then 0 else |segments[0].text| + Length(segments[1..])
  }

  /** The colour in which the character at offset k of the joined segments is drawn. */
  function ColorAtOffset(segments: seq<Segment>, k: int): Color {
    if segments == [] then Black
    else if k < |segments[0].text| then segments[0].color
    else ColorAtOffset(segments[1..], k - |segments[0].text|)
  }

  lemma {:induction false} OffsetAppend(a: seq<Segment>, b: seq<Segment>, k: int)
    requires 0 <= k
    ensures Length(a + b) == Length(a) + Length(b)
    ensures ColorAtOffset(a + b, k)
         == if k < Length(a) then ColorAtOffset(a, k) else ColorAtOffset(b, k - Length(a))
  {
    if a == [] {
      assert a + b == b;
    } else {
      assert (a + b)[1..] == a[1..] + b;
      assert (a + b)[0] == a[0];
      if k >= |a[0].text| {
        OffsetAppend(a[1..], b, k - |a[0].text|);
      } else {
        OffsetAppend(a[1..], b, 0);
      }
    }
  }

  lemma OffsetOne(s: Segment, k: int)
    ensures Length([s]) == |s.text|
    ensures 0 <= k < |s.text| ==> ColorAtOffset([s], k) == s.color
  {
    assert [s][1..] == [];
  }

  /** The colour a character at position p should get: that of the first label containing p. */
  function ColorAt(labels: seq<Label>, p: int, colors: map<string, Color>): Color {
    if labels == [] then Black
    else if labels[0].start <= p < labels[0].end then ColorOf(colors, labels[0].category)
    else ColorAt(labels[1..], p, colors)
  }

  lemma {:induction false} ColorAtBefore(labels: seq<Label>, last: int, n: nat, p: int, colors: map<string, Color>)
    requires ValidFrom(labels, last, n)
    requires labels != [] ==> p < labels[0].start
    ensures ColorAt(labels, p, colors) == Black
    decreases |labels|
  {
    if labels != [] {
      ValidFromTail(labels, last, n);
      ColorAtBefore(labels[1..], labels[0].end, n, p, colors);
    }
  }

  /** The colour at p, read off the first label: black before it, its colour inside it. */
  lemma ColorAtCons(labels: seq<Label>, last: int, n: nat, p: int, colors: map<string, Color>)
    requires labels != [] && ValidFrom(labels, last, n)
    ensures ColorAt(labels, p, colors)
         == if p < labels[0].start then Black
            else if p < labels[0].end then ColorOf(colors, labels[0].category)
            else ColorAt(labels[1..], p, colors)
  {
    if p < labels[0].start {
      ColorAtBefore(labels, last, n, p, colors);
    }
  }

  /** One step of the walk: black over the gap, the category colour over the label, then the rest. */
  lemma PaintStep(text: string, last: int, l: Label, colors: map<string, Color>, rest: seq<Segment>, k: int)
    requires 0 <= last <= l.start <= l.end <= |text| && 0 <= k
    ensures var whole := GapBefore(text, last, l.start) + [LabelSegment(text, l, colors)] + rest;
      && Length(whole) == l.end - last + Length(rest)
      && ColorAtOffset(whole, k)
         == if k < l.start - last then Black
            else if k < l.end - last then ColorOf(colors, l.category)
            else ColorAtOffset(rest, k - (l.end - last))
  {
    var g := GapBefore(text, last, l.start);
    var own := LabelSegment(text, l, colors);
    OffsetAppend(g + [own], rest, k);
    OffsetAppend(g, [own], k);
    OffsetOne(own, k - Length(g));
    if last < l.start {
      OffsetOne(g[0], k);
    }
  }

  /** The inductive step of SegmentsPaintText, given what holds of the rest of the walk. */
  lemma PaintCons(text: string, labels: seq<Label>, last: int, colors: map<string, Color>, k: int)
    requires labels != [] && ValidFrom(labels, last, |text|)
    requires var rest := SegmentsFrom(text, labels[1..], labels[0].end, colors);
      && Length(rest) == |text| - labels[0].end
      && (0 <= k - (labels[0].end - last) < |text| - labels[0].end ==>
          ColorAtOffset(rest, k - (labels[0].end - last)) == ColorAt(labels[1..], last + k, colors))
    ensures Length(SegmentsFrom(text, labels, last, colors)) == |text| - last
    ensures 0 <= k < |text| - last ==>
      ColorAtOffset(SegmentsFrom(text, labels, last, colors), k) == ColorAt(labels, last + k, colors)
  {
    var l := labels[0];
    var rest := SegmentsFrom(text, labels[1..], l.end, colors);
    SegmentsFromCons(text, labels, last, colors);
    if 0 <= k {
      PaintStep(text, last, l, colors, rest, k);
      ColorAtCons(labels, last, |text|, last + k, colors);
    } else {
      PaintStep(text, last, l, colors, rest, 0);
    }
  }

  /**
   * Every character of the text is drawn in the colour of the label
   * that covers it, and in uncategorised black where no label does
   * (stated one offset at a time).
   */
  lemma {:induction false} SegmentsPaintText(text: string, labels: seq<Label>, last: int, colors: map<string, Color>, k: int)
    requires ValidFrom(labels, last, |text|)
    ensures Length(SegmentsFrom(text, labels, last, colors)) == |text| - last
    ensures 0 <= k < |text| - last ==>
      ColorAtOffset(SegmentsFrom(text, labels, last, colors), k) == ColorAt(labels, last + k, colors)
    decreases |labels|
  {
    if labels == [] {
      if last < |text| {
        OffsetOne(Segment(Slice(text, last, |text|), Black), k);
      }
    } else {
      ValidFromTail(labels, last, |text|);
      SegmentsPaintText(text, labels[1..], labels[0].end, colors, k - (labels[0].end - last));
      PaintCons(text, labels, last, colors, k);
    }
  }

  /** The offsets at which consecutive segments meet, counted from base. */
  function Cuts(segments: seq<Segment>, base: int): set<int> {
    if segments == [] then {base}
    else {base} + Cuts(segments[1..], base + |segments[0].text|)
  }

  /** Every start and end offset of the labels. */
  function LabelBounds(labels: seq<Label>): set<int> {
    if labels == [] then {} else {labels[0].start, labels[0].end} + LabelBounds(labels[1..])
  }

  /** The boundaries of two segment lists laid end to end. */
  lemma {:induction false} CutsAppend(a: seq<Segment>, b: seq<Segment>, base: int)
    ensures Cuts(a + b, base) == Cuts(a, base) + Cuts(b, base + Length(a))
  {
    if a == [] {
      assert a + b == b;
    } else {
      assert (a + b)[1..] == a[1..] + b;
      assert (a + b)[0] == a[0];
      CutsAppend(a[1..], b, base + |a[0].text|);
    }
  }

  lemma CutsOne(s: Segment, base: int)
    ensures Cuts([s], base) == {base, base + |s.text|}
  {
    assert [s][1..] == [];
  }

  /** One step of the walk: the cursor and the label's start, then the cuts of the rest. */
  lemma CutsStep(text: string, last: int, l: Label, colors: map<string, Color>, rest: seq<Segment>)
    requires 0 <= last <= l.start <= l.end <= |text|
    ensures Cuts(GapBefore(text, last, l.start) + [LabelSegment(text, l, colors)] + rest, last)
         == {last, l.start} + Cuts(rest, l.end)
  {
    var g := GapBefore(text, last, l.start);
    var own := LabelSegment(text, l, colors);
    CutsAppend(g + [own], rest, last);
    CutsAppend(g, [own], last);
    OffsetAppend(g, [own], 0);
    OffsetOne(own, 0);
    CutsOne(own, last + Length(g));
    if last < l.start {
      CutsOne(g[0], last);
      OffsetOne(g[0], 0);
    }
  }

  /**
   * Segment boundaries are exactly the label boundaries together with the
   * two ends of the text (TouchingNoGap shows that a label starting at the
   * cursor gets no gap segment before it).
   */
  lemma {:induction false} SegmentBoundaries(text: string, labels: seq<Label>, last: int, colors: map<string, Color>)
    requires ValidFrom(labels, last, |text|)
    ensures Cuts(SegmentsFrom(text, labels, last, colors), last) == {last, |text|} + LabelBounds(labels)
    decreases |labels|
  {
    if labels == [] {
      if last < |text| {
        CutsOne(Segment(Slice(text, last, |text|), Black), last);
      }
    } else {
      var l := labels[0];
      ValidFromTail(labels, last, |text|);
      SegmentBoundaries(text, labels[1..], l.end, colors);
      SegmentsFromCons(text, labels, last, colors);
      CutsStep(text, last, l, colors, SegmentsFrom(text, labels[1..], l.end, colors));
    }
  }
}
