# impersonaldata texty core in Dafny

This project models the "texty" page generator of impersonaldata and the
script that prepares data for its frontend.

A texty turns a text with labelled character spans into an A4 page. Each
labelled word sits on a rectangle in its category's colour. Unlabelled words
are drawn in white, so they are invisible. There are two copies of the
generator: the Flask endpoint `texty_gen` (`APP-flask/app.py`) and the batch
command-line tool (`APP-cli/texty_gen_cli.py`). Both run the same pipeline:

- Sort the labels by start.
- Cut the text into coloured segments.
- Split the segments into words at whitespace runs.
- Scan the font sizes 10, 11, …, 299 and keep the last size before the first one whose wrapped layout does not fit the page height (10 when even 10 does not fit, 299 when every size fits).
- Wrap the words greedily at 780 pixels; a line is wider only when it holds a single word that is wider on its own.
- Place each word: the Flask copy justifies every line but the last; the CLI copy left-aligns every line.
- Emit an SVG with one `<text>` per word, and a `<rect>` before it when the word is coloured.

The frontend script (`APP-cli/data_for_frontend.py`) reads one JSONL file per
classifier. It groups every labelled span by document id and then by
classifier. From that aggregator it builds three tables:

- the aligned table: one row per distinct (start, end) position of a document, with each classifier's label at that position;
- the global label statistics: per label and classifier, how many spans carry that label, plus a TOTAL row;
- the per-document statistics: the same counts for each document, plus a TOTAL row for each document.

## Module layout

- `texty.dfy`, module `Texty`. The shared value types: labels, segments, words, fonts, boxes. Also:
  - Python's slice clamping and `os.path.basename`;
  - the page constants: 800 × 1131, a 10-pixel margin, a 780-pixel line width, font sizes 10..299.
- `sorting.dfy`, module `Sorting`. A stable insertion sort, which stands for Python's `sorted` and pandas' `sort_values`. Also:
  - the sorted set of distinct elements, which stands for `sorted(set(...))`;
  - Python's string order.
- `segmenting.dfy`, module `Segmenting`. The category colour map, the label sort and the segmenter. The segmentation code is the same in both copies.
- `tokenizing.dfy`, module `Tokenizing`. `segment_to_words`: `re.split(r'(\s+)')` followed by the blank-token filter.
- `fontfit.dfy`, module `FontFit`. The font-size scan, characterised for any "fits" test.
- `markup.dfy`, module `Markup`. How an `int` is printed inside an f-string, and `html.escape(quote=True)`.
- `flask.dfy`, module `FlaskApp`. The Flask copy: `wrap_words`, `justify_line_positions`, the layout loop, the font fit, the SVG and the `texty_gen` pipeline.
- `cli.dfy`, module `CliApp`. The CLI copy: `wrap_words`, the layout, the font fit, the SVG, `generate_texty_visuals`, and the output naming and id skipping of `main`.
- `frontend.dfy`, module `FrontendData`. The aggregator loop and `create_aligned_table`.
- `statistics.dfy`, module `LabelStatistics`. The counts of `generate_label_statistics` and `generate_per_document_statistics`.

## Modelling choices

- **Font metrics.** PIL font metrics are a parameter, `Metrics`: a function from (text, size) to a bounding box. Nothing about its values is assumed.
- **Words and JSON values.** Words are `(text, colour)` pairs. Colours are strings. An unlabelled segment has colour `"#000000"`.
- **Record ids.** In the frontend script, ids are strings. In the CLI, an id is `None`, a string or an int, because `if not obj_id` treats `None`, `""` and `0` as missing.
- **Python dicts.** The dicts the script fills (the aggregator, the Counters) are insertion-ordered association lists, as Python 3 dicts are.
- **Counters.** A Counter lookup of a missing key gives 0.
- **Flask x coordinates.** In the Flask copy, x coordinates are `int` or `float`, because `justify_line_positions` divides at `APP-flask/app.py:84`. The datatype `Coord` keeps the distinction.
- **Flask SVG numbers.** The Flask SVG takes the printing of a float as a parameter, `realStr`.
- **Segmenter inputs.** The segmenter is defined on every input, using Python slice semantics, and so matches the code on out-of-range and overlapping labels too. The coverage and colouring lemmas assume sorted, non-overlapping, in-range labels (`ValidFrom`).
- **Text boxes at the origin.** Font metrics give a text's box at the origin. The Flask raster highlight takes its height from `textbbox((x, y), word)` (`APP-flask/app.py:206-207`), and the CLI line height from `getbbox("A")` (`APP-cli/texty_gen_cli.py:88`). The model assumes a box's height does not depend on where the text is placed, so both are read from the box at the origin.
- **Source over description.** Where the repository's description of the system differs from its code, the model follows the code:
  - The CLI font fit stops when the height reaches the budget (`>=`, `APP-cli/texty_gen_cli.py:89`).
  - The Flask font fit adds 20 to the height before comparing (`APP-flask/app.py:152-153`).
  - The CLI line height is the bottom of the "A" bounding box plus 5, not its height (`APP-cli/texty_gen_cli.py:88`).
  - The CLI `wrap_words` adds the space width after it has appended the word (`APP-cli/texty_gen_cli.py:55-56`). So the first line is measured one space wider than its words. `CliApp.KeptWidth` models this, and the wrap lemmas state it.

## Model

| member | source | states |
|---|---|---|
| Texty.Slice | APP-flask/app.py:127-132 | a slice with in-range bounds is the substring; every slice is no longer than the text |
| Texty.Basename | APP-cli/data_for_frontend.py:26 | the result is the suffix of the path after its last `/`, and contains no `/` |
| Texty.RemoveSpaceAppend | APP-flask/app.py:37-41 | removing whitespace distributes over concatenation |
| Segmenting.CategoryColors | APP-cli/texty_gen_cli.py:35 | the colour map's keys are exactly the configured categories |
| Segmenting.CategoriesNamed | APP-cli/texty_gen_cli.py:35 | a category is a key iff some config entry names it |
| Segmenting.CategoryColorsLastWins | APP-cli/texty_gen_cli.py:35 | for a duplicated category, the last entry's colour wins |
| Segmenting.ColorOf | APP-flask/app.py:128 | a category missing from the map is black; otherwise its mapped colour |
| Segmenting.SortLabels | APP-flask/app.py:120 | the sorted labels are a permutation, ascending by start, and labels with equal starts keep their order (stable sort) |
| Segmenting.ByStartIsTotalPreorder | APP-flask/app.py:120 | the sort key is a total preorder |
| Segmenting.SegmentText | APP-flask/app.py:122-132 | the segmenter loop computes the segment list of the model; with no labels, the whole non-empty text is one black segment |
| Segmenting.NoLabelsOneSegment | APP-flask/app.py:131-132 | with no labels, the segments are one black segment, or none for an empty text |
| Segmenting.TouchingNoGap | APP-flask/app.py:124-130 | when a label starts at or before the current position, no uncategorised gap segment is emitted: the label's segment comes next |
| Segmenting.SegmentsCoverText | APP-flask/app.py:122-132 | for valid labels, the segment texts concatenate to the text from `last` to the end |
| Segmenting.SegmentsPaintText | APP-cli/texty_gen_cli.py:65-73 | for valid labels, the segments are as long as the text, and each character gets its label's colour, or black when no label covers it |
| Segmenting.SegmentBoundaries | APP-flask/app.py:122-132 | for valid labels, the segment boundaries are exactly the text's ends and the label bounds |
| Tokenizing.SegmentToWords | APP-flask/app.py:33-42 | the loop over segments yields the word list of the model |
| Tokenizing.KeptWords | APP-cli/texty_gen_cli.py:40-43 | the loop over one segment's pieces keeps exactly the non-blank pieces, each with the segment's colour |
| Tokenizing.SplitConcat | APP-flask/app.py:37 | the pieces of `re.split(r'(\s+)')` concatenate back to the segment |
| Tokenizing.SplitPieces | APP-flask/app.py:37 | even pieces contain no whitespace; odd pieces are non-empty whitespace runs |
| Tokenizing.TokensShape | APP-flask/app.py:38-41 | every kept token is non-empty and contains no whitespace |
| Tokenizing.TokensJoin | APP-flask/app.py:37-41 | the kept tokens concatenate to the segment with its whitespace removed |
| Tokenizing.WordsJoin | APP-flask/app.py:33-42 | the words concatenate to the whole segmented text with its whitespace removed |
| Tokenizing.WordShape | APP-cli/texty_gen_cli.py:37-44 | every word is non-empty and contains no whitespace |
| Tokenizing.WordOrigin | APP-flask/app.py:36-41 | every word is a token of some segment and carries that segment's colour |
| Tokenizing.TokensOfJoin | APP-flask/app.py:37-41 | tokens without whitespace, joined by single spaces, split back into the same tokens |
| Tokenizing.FlatMember | APP-cli/data_for_frontend.py:153-161 | an element is in the flattened sequence iff it is in one of the parts |
| Markup.IntToStringRoundTrip | APP-cli/texty_gen_cli.py:137 | printing an int gives an optional minus sign followed by digits, and parsing that string gives the int back |
| Markup.IntToStringInjective | APP-cli/texty_gen_cli.py:139 | distinct ints print differently |
| Markup.NatToStringDigits | APP-flask/app.py:240-241 | a natural prints as digits, with a leading zero only for 0 |
| Markup.UnescapeEscape | APP-cli/texty_gen_cli.py:138 | unescaping the five entities of `html.escape` recovers the word |
| Markup.EscapeNoSpecial | APP-cli/texty_gen_cli.py:143 | an escaped word contains none of `<`, `>`, `"`, `'` |
| Markup.EscapePlain | APP-cli/texty_gen_cli.py:138 | a word without special characters is unchanged |
| FontFit.FitSizeRange | APP-flask/app.py:146-157 | the chosen size lies in 10..299 |
| FontFit.FitSizeFallback | APP-flask/app.py:156-157 | when size 10 does not fit, the size is 10 |
| FontFit.FitSizeMaximal | APP-cli/texty_gen_cli.py:84-91 | when size 10 fits, every size up to the chosen one fits, and the next size does not (unless 299 was reached) |
| FontFit.FitSizeUnique | APP-cli/texty_gen_cli.py:84-91 | the scan's result is the unique size with that property |
| FontFit.FitSizeMonotone | APP-cli/texty_gen_cli.py:84-91 | a fits test that holds wherever another holds never gives a smaller size; so raising the height budget, which weakens the break test for every size, never lowers the chosen font size |
| FlaskApp.WrapWords | APP-flask/app.py:44-67 | the wrapping loop computes the line list of the model |
| FlaskApp.RunCover | APP-flask/app.py:46-64 | loop invariant: the closed lines and the open line together are the words read so far, and no closed line is empty |
| FlaskApp.RunWidth | APP-flask/app.py:54-64 | loop invariant: `current_width` is the width of the open line, its words plus one space between each pair |
| FlaskApp.RunFit | APP-flask/app.py:54-61 | loop invariant: every line of two or more words is at most the maximum width |
| FlaskApp.RunBreak | APP-flask/app.py:55-61 | loop invariant: each line was closed because its successor's first word would have overflowed it |
| FlaskApp.WrapCover | APP-flask/app.py:44-67 | the lines concatenate to the words, and no line is empty |
| FlaskApp.WrapFit | APP-flask/app.py:54-57 | a wrapped line of two or more words fits the maximum width |
| FlaskApp.WrapBreak | APP-flask/app.py:58-61 | each line break happened because adding the next word would overflow the maximum width |
| FlaskApp.Plus | APP-flask/app.py:98 | int plus float arithmetic: the value is the sum, and it stays an int only when both operands are ints |
| FlaskApp.JustifyLinePositions | APP-flask/app.py:69-99 | the loop computes the justified placements of the model |
| FlaskApp.XAtValue | APP-flask/app.py:88-98 | the k-th x is the start, plus the widths of the words before it, plus k times (space width plus added space) |
| FlaskApp.AddedNonNegative | APP-flask/app.py:82-86 | the added space is never negative |
| FlaskApp.JustifiedAt | APP-flask/app.py:82-98 | placement k carries word k, its colour, its width, the "A" height, and the justified x; the first word is at x |
| FlaskApp.JustifiedRightEdge | APP-flask/app.py:82-84 | for a line of two or more words with positive slack, the last word's right edge lands exactly at x + max_width |
| FlaskApp.JustifiedNatural | APP-flask/app.py:82-86 | without slack, or with one word, justification is plain left alignment |
| FlaskApp.LastLinePositions | APP-flask/app.py:177-191 | the last-line loop computes the left-aligned placements of the model |
| FlaskApp.LeftAlignedAt | APP-flask/app.py:179-191 | on the last line, word k sits at 10 + the widths before it + k spaces, with an int x |
| FlaskApp.PlaceLines | APP-flask/app.py:168-211 | the layout loop computes the page's placements and the coloured rectangles drawn |
| FlaskApp.DrawLine | APP-flask/app.py:193-210 | drawing a line appends its placements and exactly the rectangles of its coloured words |
| FlaskApp.LinePositionsAt | APP-flask/app.py:174-191 | word k of line i is at y = 10 + i × line height, justified on every line but the last, left-aligned on the last |
| FlaskApp.LayoutWords | APP-flask/app.py:164-211 | the placed words, in order, are the wrapped words |
| FlaskApp.RectsFor | APP-flask/app.py:199-208 | a highlight rectangle is drawn exactly for each coloured word, padded 2 and 5 |
| FlaskApp.RenderSvg | APP-flask/app.py:227-252 | the SVG is the header, the markup of every element in order, and `</svg>` |
| FlaskApp.ElementBody | APP-flask/app.py:238-250 | a black word gives one white `<text>`; a coloured word gives a `<rect>` followed by a `<text>` |
| FlaskApp.NodesTexts | APP-flask/app.py:230-250 | the SVG holds one `<text>` per placed word, in order |
| FlaskApp.NodesRects | APP-flask/app.py:243-246 | the SVG holds a `<rect>` exactly for the coloured words |
| FlaskApp.SizeFits | APP-flask/app.py:148-153 | one step of the scan tests the wrapped height plus 20 against the page height less 20 |
| FlaskApp.FitFontSize | APP-flask/app.py:146-157 | the scan loop computes the model's font size |
| FlaskApp.FontSizeForFacts | APP-flask/app.py:146-157 | the size lies in 10..299, is 10 when nothing fits, and is otherwise the largest size of the fitting run from 10 |
| FlaskApp.TextyGen | APP-flask/app.py:118-252 | the endpoint's pipeline renders the model's page; its font size lies in 10..299; its placed words are the text's words |
| CliApp.WrapWords | APP-cli/texty_gen_cli.py:46-59 | the wrapping loop computes the line list of the model |
| CliApp.RunCover | APP-cli/texty_gen_cli.py:47-56 | loop invariant: the closed lines and the open line together are the words read so far, and no closed line is empty |
| CliApp.RunWidth | APP-cli/texty_gen_cli.py:51-56 | loop invariant: `line_width` is the open line's width, with one extra space while it is the first line |
| CliApp.RunFit | APP-cli/texty_gen_cli.py:51-56 | loop invariant: a line of two or more words fits by its kept width |
| CliApp.RunBreak | APP-cli/texty_gen_cli.py:51-53 | loop invariant: each line was closed because its successor's first word would have overflowed it |
| CliApp.WrapCover | APP-cli/texty_gen_cli.py:46-59 | the lines concatenate to the words, and no line is empty |
| CliApp.WrapFit | APP-cli/texty_gen_cli.py:51-56 | a line of two or more words fits the maximum width, counting the first line's extra space |
| CliApp.WrapBreak | APP-cli/texty_gen_cli.py:51-53 | each line break happened because adding the next word would overflow the maximum width |
| CliApp.LayoutLines | APP-cli/texty_gen_cli.py:97-120 | the layout loop computes the page's elements and the coloured rectangles drawn |
| CliApp.PlaceRow | APP-cli/texty_gen_cli.py:102-119 | placing a row appends its elements and exactly the rectangles of its coloured words |
| CliApp.XForValue | APP-cli/texty_gen_cli.py:102-119 | the k-th x of a row is 10 + the advances before it + k spaces |
| CliApp.LayoutAt | APP-cli/texty_gen_cli.py:97-120 | word k of line i is at x = 10 + the advances before it + k spaces and y = 10 + i × row height, with its advance and depth |
| CliApp.LayoutWords | APP-cli/texty_gen_cli.py:97-120 | the placed words, in order, are the wrapped words |
| CliApp.RectsFor | APP-cli/texty_gen_cli.py:106-107 | a highlight rectangle is drawn exactly for each coloured word |
| CliApp.RectAgrees | APP-cli/texty_gen_cli.py:107 | the drawn rectangle and the SVG rectangle of a coloured word have the same corners |
| CliApp.RenderSvg | APP-cli/texty_gen_cli.py:131-144 | the SVG is the header, the markup of every element in order, and `</svg>` |
| CliApp.ElementBody | APP-cli/texty_gen_cli.py:134-143 | a coloured word gives a `<rect>` followed by a `<text>`; a black word gives one white `<text>` |
| CliApp.NodesTexts | APP-cli/texty_gen_cli.py:134-143 | the SVG holds one `<text>` per element, in order |
| CliApp.NodesRects | APP-cli/texty_gen_cli.py:136-137 | the SVG holds a `<rect>` exactly for the coloured words |
| CliApp.SizeFits | APP-cli/texty_gen_cli.py:86-89 | one step of the scan tests the wrapped height against the page height less 20, strictly below |
| CliApp.FitFontSize | APP-cli/texty_gen_cli.py:84-91 | the scan loop computes the model's font size |
| CliApp.FontSizeForFacts | APP-cli/texty_gen_cli.py:84-91 | the size lies in 10..299, is 10 when nothing fits, and is otherwise the largest size of the fitting run from 10 |
| CliApp.GenerateTextyVisuals | APP-cli/texty_gen_cli.py:61-144 | the pipeline renders the model's page; its font size lies in 10..299; its placed words are the text's words |
| CliApp.LastDot | APP-cli/texty_gen_cli.py:182 | the index of the last `.` in the name, or none when there is no dot |
| CliApp.StemShape | APP-cli/texty_gen_cli.py:182 | `splitext`'s root is a prefix of the name. It is shorter than the name iff the name has a last `.` preceded by some non-dot character, and it then ends just before that dot. A name without a dot is its own root |
| CliApp.RunBatch | APP-cli/texty_gen_cli.py:189-195 | the batch loop produces the model's outputs |
| CliApp.OutputsOfKept | APP-cli/texty_gen_cli.py:189-195 | there is one output per object with a truthy id, in order, named `<data file root>-<id>`, holding that object's page |
| CliApp.KeptTruthy | APP-cli/texty_gen_cli.py:190-193 | an object is rendered iff its id is truthy (not None, not `""`, not 0) |
| FrontendData.BeforeFirst | APP-cli/data_for_frontend.py:27 | `split(sep)[0]` is the longest prefix that contains no occurrence of the separator; when shorter than the string, the separator starts right after it |
| FrontendData.CollectLabels | APP-cli/data_for_frontend.py:25-43 | the file loop builds the model's aggregator, text list and base-file list |
| FrontendData.FilesSnoc | APP-cli/data_for_frontend.py:25-33 | each file appends its records' texts and its base name, and adds its spans under its classifier name |
| FrontendData.AggregatorSpans | APP-cli/data_for_frontend.py:35-43 | the aggregator's spans for (id, classifier) are exactly that classifier's file spans of that id, in file order |
| FrontendData.AggregatorShape | APP-cli/data_for_frontend.py:39-43 | the aggregator has distinct ids, distinct classifiers per document, and no empty span list |
| FrontendData.AggregatorEntries | APP-cli/data_for_frontend.py:39-43 | a classifier appears under a document iff it labelled a span of it; a document appears iff it has a classifier entry |
| FrontendData.IdsHaveTexts | APP-cli/data_for_frontend.py:31-33 | every document of the aggregator has a text entry |
| FrontendData.TextOf | APP-cli/data_for_frontend.py:56 | a document's text is that of its first text entry, and there is none iff no entry has its id |
| FrontendData.FirstMatch | APP-cli/data_for_frontend.py:82-83 | a classifier's cell is the label of its first span at that position, or None iff no span is at that position |
| FrontendData.DocPositions | APP-cli/data_for_frontend.py:59-65 | the position loop computes the sorted set of positions |
| FrontendData.DocumentRows | APP-cli/data_for_frontend.py:59-85 | a document's rows follow its distinct positions in strictly increasing order. Each row holds the span text and, for each classifier, its first matching label |
| FrontendData.CellAt | APP-cli/data_for_frontend.py:80-83 | cell j is classifier j's first matching label |
| FrontendData.CreateAlignedTable | APP-cli/data_for_frontend.py:45-93 | the loop computes the model's table. It fails (IndexError) when a document has no text, and fails (KeyError from `sort_values`) when there are no rows at all |
| FrontendData.FailurePropagates | APP-cli/data_for_frontend.py:56 | once a document without text is reached, the table fails |
| FrontendData.AlignedTableOrdered | APP-cli/data_for_frontend.py:88-91 | the table is defined iff the unsorted rows are defined and non-empty; it is then sorted by (document_id, start, end) and is a permutation of the unsorted rows |
| FrontendData.AlignedRowsDefined | APP-cli/data_for_frontend.py:53-56 | when every document has a text, the table is defined |
| FrontendData.RecordSpansNonEmpty | APP-cli/data_for_frontend.py:29-43 | a file's records give an id a span iff one record with that id has a label |
| FrontendData.FileSpansNonEmpty | APP-cli/data_for_frontend.py:25-43 | the files give (id, classifier) a span iff one file named after that classifier has a labelled record with that id |
| FrontendData.AggregatorNonEmpty | APP-cli/data_for_frontend.py:25-43 | the aggregator is non-empty iff some file gives some record a label |
| FrontendData.RowsNonEmpty | APP-cli/data_for_frontend.py:45-85 | on a well-formed aggregator, the unsorted rows are empty iff the aggregator is |
| FrontendData.AlignedTableDefined | APP-cli/data_for_frontend.py:25-93 | on an aggregator built by the file loop, the table is defined iff some file gives some record a label |
| Sorting.SortBySorted | APP-cli/data_for_frontend.py:91 | the sort result is sorted by a total preorder |
| Sorting.SortByPermutes | APP-cli/data_for_frontend.py:91 | the sort result is a permutation of its input |
| Sorting.SortByStable | APP-cli/data_for_frontend.py:91 | the sort is stable: each class of equivalent elements keeps its order |
| Sorting.SortedSetFacts | APP-cli/data_for_frontend.py:65 | `sorted(set(s))` is strictly increasing and has exactly the elements of s |
| Sorting.StrLessOrder | APP-cli/data_for_frontend.py:115 | Python's string order is a strict total order |
| LabelStatistics.TallyCount | APP-cli/data_for_frontend.py:101-104 | after counting, a (classifier, label) count is the initial count plus the number of matching entries |
| LabelStatistics.TallyTotal | APP-cli/data_for_frontend.py:101-104 | after counting, a classifier's total is its initial total plus its number of entries |
| LabelStatistics.TallyClassifiers | APP-cli/data_for_frontend.py:98-104 | the counter's classifiers are, in first-seen order, the classifiers of the entries |
| LabelStatistics.CountAll | APP-cli/data_for_frontend.py:98-104 | the counting loop computes the model's Counters |
| LabelStatistics.GenerateLabelStatistics | APP-cli/data_for_frontend.py:95-144 | the loops compute the model's global table |
| LabelStatistics.StatisticsClassifiers | APP-cli/data_for_frontend.py:122 | the table's columns are the distinct classifiers, in first-seen order |
| LabelStatistics.StatisticsLabels | APP-cli/data_for_frontend.py:109-118 | the label rows are the distinct labels in increasing order, then the TOTAL row |
| LabelStatistics.StatisticsCounts | APP-cli/data_for_frontend.py:118-123 | row k is the k-th label, and its count for classifier j is the number of that classifier's entries with that label |
| LabelStatistics.StatisticsTotal | APP-cli/data_for_frontend.py:133-139 | the last row is TOTAL: each classifier's entry count, at 100.0 |
| LabelStatistics.GatherClassifiers | APP-cli/data_for_frontend.py:151-155 | the loop computes the sorted distinct classifiers |
| LabelStatistics.GatherLabels | APP-cli/data_for_frontend.py:157-162 | the loop computes the sorted distinct labels |
| LabelStatistics.DocumentStatistics | APP-cli/data_for_frontend.py:164-209 | one document's loop computes its label rows and TOTAL row |
| LabelStatistics.AllZeroIn | APP-cli/data_for_frontend.py:176 | the `all(... == 0)` test computes the all-zero predicate |
| LabelStatistics.GeneratePerDocumentStatistics | APP-cli/data_for_frontend.py:146-226 | the function computes the per-document table as written, with its `custom_sort` key: each document's TOTAL row comes before its label rows (see PerDocOrderAsWritten and Findings) |
| LabelStatistics.AllZeroIff | APP-cli/data_for_frontend.py:167-177 | a label is skipped for a document iff none of its entries carries it |
| LabelStatistics.DocStatsLabelRow | APP-cli/data_for_frontend.py:174-196 | a document has a row for a label iff one of its entries carries that label |
| LabelStatistics.PerDocTableMember | APP-cli/data_for_frontend.py:214-223 | the table as written and the corrected table hold the same rows as the unsorted table |
| LabelStatistics.PerDocLabelRows | APP-cli/data_for_frontend.py:164-196 | the table (as written) has a (document, label) row iff that document has an entry with that label |
| LabelStatistics.PerDocLabelCounts | APP-cli/data_for_frontend.py:180-187 | a label row has one count per classifier: the number of that document's entries of that classifier with that label |
| LabelStatistics.DocTotalMeaning | APP-cli/data_for_frontend.py:198-209 | a TOTAL row's count for a classifier is that document's entry count for it, at 100.0 when positive and 0.0 otherwise |
| LabelStatistics.PerDocTotalRow | APP-cli/data_for_frontend.py:198-209 | every document has its TOTAL row in the table |
| LabelStatistics.PerDocTotalRows | APP-cli/data_for_frontend.py:198-209 | every TOTAL row in the table is some document's TOTAL row |
| LabelStatistics.ByDocKeyOrder | APP-cli/data_for_frontend.py:219-223 | both sort keys, as written and corrected, are total preorders |
| LabelStatistics.PerDocOrder | APP-cli/data_for_frontend.py:214-223 | with the TOTAL rank corrected, the table is a permutation of the unsorted rows: ids ascend, labels ascend within a document, and each TOTAL row comes after that document's label rows |
| LabelStatistics.PerDocOrderAsWritten | APP-cli/data_for_frontend.py:214-223 | as written, the table is a permutation of the unsorted rows, ids ascend, labels ascend within a document, and each TOTAL row comes before that document's label rows |
| LabelStatistics.OneEntryRows | APP-cli/data_for_frontend.py:164-209 | one document with one PER span gives a PER row, then TOTAL, before sorting |
| LabelStatistics.TotalFirstExample | APP-cli/data_for_frontend.py:218-223 | on that document the code as written puts TOTAL first; the corrected key puts it last |

## Left out

- Drawing and saving. The model does not cover PIL's drawing, the PNG files, the 20% mini PNG (`resize`), or any file and directory I/O. The rectangles PIL draws are kept as coordinates (`Corners`).
- Font metrics. Font metrics are an uninterpreted parameter, so nothing says whether wrapping is monotone in the font size. The scan is characterised for any fits test, and it is monotone in that test (`FontFit.FitSizeMonotone`).
- Float printing. The Flask SVG prints float x coordinates with a given function (`realStr`), because Python's float `repr` is not modelled.
- Regex whitespace. `\s` and `str.strip` are modelled by the six characters of `string.whitespace` (`Texty.IsSpace`). On `str` they also match `\x1c`-`\x1f`, `\x85` and the other Unicode whitespace; those are not modelled.
- Overlapping labels. For overlapping or out-of-range labels the segmenter is modelled as the code behaves, but no coverage or colouring lemma is stated about them.
- Flask routes. In the Flask app, the routes, request parsing, the 400 and 404 aborts, `jsonify` and the config loading at start-up are not modelled. The category map is a parameter.
- CLI I/O. The CLI's argument parsing, the missing-config and empty-input exits (`objects.empty`), and the console output are not modelled.
- Unreachable CLI code. `load_json_objects` returns at its first line (`pd.read_json`). The code after that `return` is unreachable and is not modelled; objects are given as values.
- pandas and JSON. The model does not cover `pd.read_json`, the DataFrame column layout, NaN for missing cells, `to_json` or the SVG and config copying of the frontend script.
- Percentage columns. The percentage columns of both statistics tables (`APP-cli/data_for_frontend.py:124-129`, `189-194`) are not modelled. They are floating-point ratios. The TOTAL rows' percentages are modelled.
- LabelStatistics.PerDocOrder: assumes `sort_values` is stable, as the insertion sort is. It also assumes that no real label is literally named `TOTAL`.
- FrontendData.AlignedTableOrdered: assumes `sort_values` is stable. The ids are strings, and mixed-type ids are not compared.
- Id types. The frontend's document ids are strings. The CLI's ids may be None, a string or an int; other JSON types are not modelled. In particular, when some rows of a file have an `id` and others do not, pandas reads the missing ones as NaN, which `if not obj_id` treats as truthy, so the CLI renders such a row as `<base>-nan`; the model's `CliApp.NoId` stands only for an explicit null or a file in which no row has an id, and NaN ids are not modelled.

## Findings

| source | as written | input that shows it | evidently intended | confidence | as-written member | corrected member |
|---|---|---|---|---|---|---|
| APP-cli/data_for_frontend.py:218-223 | `custom_sort` gives `TOTAL` the key `(0, ...)` and every other label `(1, ...)`, so after the second sort each document's TOTAL row comes FIRST | one document `d`, classifier `c`, one span `(0, 1, "PER")`: the table is `[d TOTAL, d PER]` | the TOTAL row after the document's label rows, as the comment on line 218 says | not executed | LabelStatistics.TotalFirstExample | LabelStatistics.PerDocOrder |
