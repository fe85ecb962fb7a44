/**
 * The frontend export: the labels of every data file grouped by document id
 * and then by classifier (a classifier is named after its data file), the
 * list of document texts, and the aligned table that lines the classifiers'
 * spans of one document up by position.
 */
module FrontendData {
  import opened Texty
  import Sorting
  import Tokenizing

  /** One label of a row: the (start, end, label) triple, its label as category. */
  datatype Span = Span(start: int, end: int, category: string)

  /** One row of a data file. */
  datatype Record = Record(id: string, text: string, labels: seq<Span>)

  /** A data file: its path and its rows, in file order. */
  datatype DataFile = DataFile(path: string, records: seq<Record>)

  /** label_aggregator[id][classifier]: one classifier's spans of one document. */
  datatype ClassifierSpans = ClassifierSpans(classifier: string, spans: seq<Span>)

  /** label_aggregator[id]: the classifiers of a document, in insertion order. */
  datatype DocSpans = DocSpans(id: string, classifiers: seq<ClassifierSpans>)

  /** label_aggregator: the documents in insertion order. */
  type Aggregator = seq<DocSpans>

  /** An entry of frontend_data["texts"]. */
  datatype TextEntry = TextEntry(id: string, text: string)

  /** The suffix that basename.split(".jsonl")[0] cuts at. */
  const JsonlSuffix: string := ".jsonl"

  /** sep occurs in s at index k. */
  predicate OccursAt(s: string, sep: string, k: nat) {
    k + |sep| <= |s| && s[k..k + |sep|] == sep
  }

  lemma OccursShift(s: string, sep: string, k: nat)
    requires s != [] && k >= 1
    ensures OccursAt(s, sep, k) <==> OccursAt(s[1..], sep, k - 1)
  {
    if k + |sep| <= |s| {
      assert s[k..k + |sep|] == s[1..][k - 1..k - 1 + |sep|];
    }
  }

  /** s.split(sep)[0]: the part of s before the first occurrence of sep, or all of s. */
  function BeforeFirst(s: string, sep: string): (r: string)
    requires sep != []
    ensures |r| <= |s| && s[..|r|] == r
    ensures |r| < |s| ==> OccursAt(s, sep, |r|)
    ensures forall k: nat :: k < |r| ==> !OccursAt(s, sep, k)
  {
    if |s| < |sep| then s
    else if s[..|sep|] == sep then []
    else
      var r := [s[0]] + BeforeFirst(s[1..], sep);
      assert forall k: nat :: 1 <= k <= |r| ==> (OccursAt(s, sep, k) <==> OccursAt(s[1..], sep, k - 1)) by {
        forall k: nat | 1 <= k <= |r| ensures OccursAt(s, sep, k) <==> OccursAt(s[1..], sep, k - 1) {
          OccursShift(s, sep, k);
        }
      }
      r
  }

  /** basename_noext: the classifier a data file stands for. */
  function ClassifierName(path: string): string {
    BeforeFirst(Basename(path), JsonlSuffix)
  }

  // ---------------------------------------------------------------------
  // The aggregator as a dictionary of dictionaries

  /** The ids of the documents, in insertion order. */
  function Ids(agg: Aggregator): (r: seq<string>)
    ensures |r| == |agg|
  {
    if agg == [] then [] else [agg[0].id] + Ids(agg[1..])
  }

  /** The classifiers of one document, in insertion order. */
  function Names(cs: seq<ClassifierSpans>): (r: seq<string>)
    ensures |r| == |cs|
  {
    if cs == [] then [] else [cs[0].classifier] + Names(cs[1..])
  }

  /** cs[classifier], or [] when the classifier is not there. */
  function SpansIn(cs: seq<ClassifierSpans>, classifier: string): seq<Span> {
    if cs == [] then []
    else if cs[0].classifier == classifier then cs[0].spans
    else SpansIn(cs[1..], classifier)
  }

  /** label_aggregator[id][classifier], or [] when either key is missing. */
  function SpansOf(agg: Aggregator, id: string, classifier: string): seq<Span> {
    if agg == [] then []
    else if agg[0].id == id then SpansIn(agg[0].classifiers, classifier)
    else SpansOf(agg[1..], id, classifier)
  }

  /** The classifiers recorded for id, or [] when id is missing. */
  function NamesOf(agg: Aggregator, id: string): seq<string> {
    if agg == [] then []
    else if agg[0].id == id then Names(agg[0].classifiers)
    else NamesOf(agg[1..], id)
  }

  /** Appending span under classifier, which is created at the end when missing. */
  function AddToClassifiers(cs: seq<ClassifierSpans>, classifier: string, span: Span): seq<ClassifierSpans> {
    if cs == [] then [ClassifierSpans(classifier, [span])]
    else if cs[0].classifier == classifier then [ClassifierSpans(classifier, cs[0].spans + [span])] + cs[1..]
    else [cs[0]] + AddToClassifiers(cs[1..], classifier, span)
  }

  /**
   * The body of the innermost loop: the document entry and then the classifier
   * entry are created when missing, and the span is appended to the list.
   */
  function AddSpan(agg: Aggregator, id: string, classifier: string, span: Span): Aggregator {
    if agg == [] then [DocSpans(id, [ClassifierSpans(classifier, [span])])]
    else if agg[0].id == id then [DocSpans(id, AddToClassifiers(agg[0].classifiers, classifier, span))] + agg[1..]
    else [agg[0]] + AddSpan(agg[1..], id, classifier, span)
  }

  /** The spans of one record added in order. */
  function AddSpans(agg: Aggregator, id: string, classifier: string, spans: seq<Span>): Aggregator {
    if spans == [] then agg
    else AddSpan(AddSpans(agg, id, classifier, spans[..|spans| - 1]), id, classifier, spans[|spans| - 1])
  }

  /** The records of one data file added in order. */
  function AddRecords(agg: Aggregator, classifier: string, records: seq<Record>): Aggregator {
    if records == [] then agg
    else
      var r := records[|records| - 1];
      AddSpans(AddRecords(agg, classifier, records[..|records| - 1]), r.id, classifier, r.labels)
  }

  /** label_aggregator after all data files. */
  function AggregateFiles(files: seq<DataFile>): Aggregator {
    if files == [] then []
    else
      var f := files[|files| - 1];
      AddRecords(AggregateFiles(files[..|files| - 1]), ClassifierName(f.path), f.records)
  }

  /** The text entries of one file's records. */
  function RecordTexts(records: seq<Record>): seq<TextEntry> {
    if records == [] then []
    else RecordTexts(records[..|records| - 1]) + [TextEntry(records[|records| - 1].id, records[|records| - 1].text)]
  }

  /** frontend_data["texts"]: every record of every file, in order. */
  function Texts(files: seq<DataFile>): seq<TextEntry> {
    if files == [] then []
    else Texts(files[..|files| - 1]) + RecordTexts(files[|files| - 1].records)
  }

  /** frontend_data["base_files"]: the file names, in order. */
  function BaseFiles(files: seq<DataFile>): (r: seq<string>)
    ensures |r| == |files|
  {
    if files == [] then []
    else BaseFiles(files[..|files| - 1]) + [Basename(files[|files| - 1].path)]
  }

  // ---------------------------------------------------------------------
  // The loop that fills the aggregator

  /** The loop over the data files: aggregator, texts and file names. */
  method CollectLabels(files: seq<DataFile>) returns (agg: Aggregator, texts: seq<TextEntry>, baseFiles: seq<string>)
    ensures agg == AggregateFiles(files)
    ensures texts == Texts(files)
    ensures baseFiles == BaseFiles(files)
  {
    agg, texts, baseFiles := [], [], [];
    for i := 0 to |files|
      invariant agg == AggregateFiles(files[..i])
      invariant texts == Texts(files[..i])
      invariant baseFiles == BaseFiles(files[..i])
    {
      var basename := Basename(files[i].path);
      var classifier := BeforeFirst(basename, JsonlSuffix);
      baseFiles := baseFiles + [basename];
      agg, texts := CollectFile(agg, texts, classifier, files[i].records);
      FilesSnoc(files, i);
    }
    assert files[..|files|] == files;
  }

  lemma FilesSnoc(files: seq<DataFile>, i: nat)
    requires i < |files|
    ensures AggregateFiles(files[..i + 1])
         == AddRecords(AggregateFiles(files[..i]), ClassifierName(files[i].path), files[i].records)
    ensures Texts(files[..i + 1]) == Texts(files[..i]) + RecordTexts(files[i].records)
    ensures BaseFiles(files[..i + 1]) == BaseFiles(files[..i]) + [Basename(files[i].path)]
  {
    assert files[..i + 1][..i] == files[..i];
  }

  /** The loop over the rows of one data file. */
  method CollectFile(agg0: Aggregator, texts0: seq<TextEntry>, classifier: string, records: seq<Record>)
    returns (agg: Aggregator, texts: seq<TextEntry>)
    ensures agg == AddRecords(agg0, classifier, records)
    ensures texts == texts0 + RecordTexts(records)
  {
    agg, texts := agg0, texts0;
    for j := 0 to |records|
      invariant agg == AddRecords(agg0, classifier, records[..j])
      invariant texts == texts0 + RecordTexts(records[..j])
    {
      var record := records[j];
      texts := texts + [TextEntry(record.id, record.text)];
      agg := CollectRecord(agg, classifier, record);
      assert records[..j + 1][..j] == records[..j];
    }
    assert records[..|records|] == records;
  }

  /** The loop over the labels of one row. */
  method CollectRecord(agg0: Aggregator, classifier: string, record: Record) returns (agg: Aggregator)
    ensures agg == AddSpans(agg0, record.id, classifier, record.labels)
  {
    agg := agg0;
    for k := 0 to |record.labels|
      invariant agg == AddSpans(agg0, record.id, classifier, record.labels[..k])
    {
      agg := AddSpan(agg, record.id, classifier, record.labels[k]);
      assert record.labels[..k + 1][..k] == record.labels[..k];
    }
    assert record.labels[..|record.labels|] == record.labels;
  }

  // ---------------------------------------------------------------------
  // What the aggregator holds

  /** The labels of the records with that id, in order. */
  function RecordSpans(records: seq<Record>, id: string): seq<Span> {
    if records == [] then []
    else
      var r := records[|records| - 1];
      RecordSpans(records[..|records| - 1], id) + (if r.id == id then r.labels else [])
  }

  /** The labels that the files named after classifier give the records with that id, in order. */
  function FileSpans(files: seq<DataFile>, id: string, classifier: string): seq<Span> {
    if files == [] then []
    else
      var f := files[|files| - 1];
      FileSpans(files[..|files| - 1], id, classifier)
      + (if ClassifierName(f.path) == classifier then RecordSpans(f.records, id) else [])
  }

  lemma {:induction false} SpansInAdd(cs: seq<ClassifierSpans>, classifier: string, span: Span, other: string)
    ensures SpansIn(AddToClassifiers(cs, classifier, span), other)
         == SpansIn(cs, other) + (if other == classifier then [span] else [])
  {
    if cs != [] && cs[0].classifier != classifier {
      SpansInAdd(cs[1..], classifier, span, other);
    }
  }

  lemma {:induction false} SpansOfAdd(agg: Aggregator, id: string, classifier: string, span: Span,
                                      id': string, classifier': string)
    ensures SpansOf(AddSpan(agg, id, classifier, span), id', classifier')
         == SpansOf(agg, id', classifier') + (if id' == id && classifier' == classifier then [span] else [])
  {
    if agg == [] {
      var cs := [ClassifierSpans(classifier, [span])];
      assert cs[1..] == [] && [DocSpans(id, cs)][1..] == [];
      assert SpansIn(cs, classifier') == (if classifier' == classifier then [span] else []);
    } else if agg[0].id == id {
      SpansInAdd(agg[0].classifiers, classifier, span, classifier');
    } else {
      SpansOfAdd(agg[1..], id, classifier, span, id', classifier');
    }
  }

  lemma {:induction false} SpansOfAddSpans(agg: Aggregator, id: string, classifier: string, spans: seq<Span>,
                                           id': string, classifier': string)
    ensures SpansOf(AddSpans(agg, id, classifier, spans), id', classifier')
         == SpansOf(agg, id', classifier') + (if id' == id && classifier' == classifier then spans else [])
  {
    if spans != [] {
      var init := spans[..|spans| - 1];
      SpansOfAddSpans(agg, id, classifier, init, id', classifier');
      SpansOfAdd(AddSpans(agg, id, classifier, init), id, classifier, spans[|spans| - 1], id', classifier');
      assert spans == init + [spans[|spans| - 1]];
    }
  }

  lemma {:induction false} SpansOfAddRecords(agg: Aggregator, classifier: string, records: seq<Record>,
                                             id': string, classifier': string)
    ensures SpansOf(AddRecords(agg, classifier, records), id', classifier')
         == SpansOf(agg, id', classifier') + (if classifier' == classifier then RecordSpans(records, id') else [])
  {
    if records != [] {
      var init, r := records[..|records| - 1], records[|records| - 1];
      SpansOfAddRecords(agg, classifier, init, id', classifier');
      SpansOfAddSpans(AddRecords(agg, classifier, init), r.id, classifier, r.labels, id', classifier');
    }
  }

  /**
   * label_aggregator[id][classifier] holds exactly the labels that the files
   * of that classifier give id, in file order.
   */
  lemma {:induction false} AggregatorSpans(files: seq<DataFile>, id: string, classifier: string)
    ensures SpansOf(AggregateFiles(files), id, classifier) == FileSpans(files, id, classifier)
  {
    if files != [] {
      var init, f := files[..|files| - 1], files[|files| - 1];
      AggregatorSpans(init, id, classifier);
      SpansOfAddRecords(AggregateFiles(init), ClassifierName(f.path), f.records, id, classifier);
    }
  }

  // ---------------------------------------------------------------------
  // The shape of the aggregator: distinct keys, and no entry without a label

  predicate DistinctNames(cs: seq<ClassifierSpans>) {
    forall i, j :: 0 <= i < j < |cs| ==> cs[i].classifier != cs[j].classifier
  }

  /** Keys are distinct at both levels, and every list holds at least one span. */
  predicate WellFormed(agg: Aggregator) {
    && (forall i, j :: 0 <= i < j < |agg| ==> agg[i].id != agg[j].id)
    && (forall i :: 0 <= i < |agg| ==> agg[i].classifiers != [] && DistinctNames(agg[i].classifiers))
    && (forall i, j :: 0 <= i < |agg| && 0 <= j < |agg[i].classifiers| ==> agg[i].classifiers[j].spans != [])
  }

  lemma {:induction false} NamesAdd(cs: seq<ClassifierSpans>, classifier: string, span: Span)
    ensures Names(AddToClassifiers(cs, classifier, span))
         == Names(cs) + (if classifier in Names(cs) then [] else [classifier])
  {
    if cs != [] && cs[0].classifier != classifier {
      NamesAdd(cs[1..], classifier, span);
    }
  }

  lemma {:induction false} NamesAt(cs: seq<ClassifierSpans>, k: nat)
    requires k < |cs|
    ensures |Names(cs)| == |cs| && Names(cs)[k] == cs[k].classifier
  {
    if k > 0 {
      NamesAt(cs[1..], k - 1);
    } else if cs[1..] != [] {
      NamesAt(cs[1..], 0);
    }
  }

  lemma {:induction false} IdsAdd(agg: Aggregator, id: string, classifier: string, span: Span)
    ensures Ids(AddSpan(agg, id, classifier, span)) == Ids(agg) + (if id in Ids(agg) then [] else [id])
  {
    if agg != [] && agg[0].id != id {
      IdsAdd(agg[1..], id, classifier, span);
    }
  }

  lemma {:induction false} AddToClassifiersShape(cs: seq<ClassifierSpans>, classifier: string, span: Span)
    requires DistinctNames(cs)
    requires forall j :: 0 <= j < |cs| ==> cs[j].spans != []
    ensures var r := AddToClassifiers(cs, classifier, span);
      r != [] && DistinctNames(r) && forall j :: 0 <= j < |r| ==> r[j].spans != []
  {
    if cs != [] && cs[0].classifier != classifier {
      AddToClassifiersShape(cs[1..], classifier, span);
      var r := AddToClassifiers(cs, classifier, span);
      NamesAdd(cs[1..], classifier, span);
      forall j | 1 <= j < |r| ensures r[0].classifier != r[j].classifier {
        NamesAt(AddToClassifiers(cs[1..], classifier, span), j - 1);
        var n1 := Names(cs[1..]);
        assert r[j].classifier in n1 + (if classifier in n1 then [] else [classifier]);
        if r[j].classifier in n1 {
          var t :| 0 <= t < |n1| && n1[t] == r[j].classifier;
          NamesAt(cs[1..], t);
        }
      }
    }
  }

  lemma {:induction false} AddSpanShape(agg: Aggregator, id: string, classifier: string, span: Span)
    requires WellFormed(agg)
    ensures WellFormed(AddSpan(agg, id, classifier, span))
  {
    if agg == [] {
    } else if agg[0].id == id {
      AddToClassifiersShape(agg[0].classifiers, classifier, span);
    } else {
      AddSpanShape(agg[1..], id, classifier, span);
      var r := AddSpan(agg, id, classifier, span);
      IdsAdd(agg[1..], id, classifier, span);
      forall j | 1 <= j < |r| ensures r[0].id != r[j].id {
        IdsAt(AddSpan(agg[1..], id, classifier, span), j - 1);
        var ids1 := Ids(agg[1..]);
        assert r[j].id in ids1 + (if id in ids1 then [] else [id]);
        if r[j].id in ids1 {
          var t :| 0 <= t < |ids1| && ids1[t] == r[j].id;
          IdsAt(agg[1..], t);
        }
      }
    }
  }

  lemma {:induction false} IdsAt(agg: Aggregator, k: nat)
    requires k < |agg|
    ensures |Ids(agg)| == |agg| && Ids(agg)[k] == agg[k].id
  {
    if k > 0 {
      IdsAt(agg[1..], k - 1);
    } else if agg[1..] != [] {
      IdsAt(agg[1..], 0);
    }
  }

  lemma {:induction false} AddSpansShape(agg: Aggregator, id: string, classifier: string, spans: seq<Span>)
    requires WellFormed(agg)
    ensures WellFormed(AddSpans(agg, id, classifier, spans))
  {
    if spans != [] {
      AddSpansShape(agg, id, classifier, spans[..|spans| - 1]);
      AddSpanShape(AddSpans(agg, id, classifier, spans[..|spans| - 1]), id, classifier, spans[|spans| - 1]);
    }
  }

  lemma {:induction false} AddRecordsShape(agg: Aggregator, classifier: string, records: seq<Record>)
    requires WellFormed(agg)
    ensures WellFormed(AddRecords(agg, classifier, records))
  {
    if records != [] {
      var init, r := records[..|records| - 1], records[|records| - 1];
      AddRecordsShape(agg, classifier, init);
      AddSpansShape(AddRecords(agg, classifier, init), r.id, classifier, r.labels);
    }
  }

  /** The aggregator is a dictionary of non-empty dictionaries of non-empty lists. */
  lemma {:induction false} AggregatorShape(files: seq<DataFile>)
    ensures WellFormed(AggregateFiles(files))
  {
    if files != [] {
      var init, f := files[..|files| - 1], files[|files| - 1];
      AggregatorShape(init);
      AddRecordsShape(AggregateFiles(init), ClassifierName(f.path), f.records);
    }
  }

  /** In a well-formed aggregator, a classifier has an entry for id exactly when it holds a span for it. */
  lemma {:induction false} EntryIffSpans(agg: Aggregator, id: string, classifier: string)
    requires WellFormed(agg)
    ensures classifier in NamesOf(agg, id) <==> SpansOf(agg, id, classifier) != []
  {
    if agg != [] {
      if agg[0].id == id {
        SpansInNames(agg[0].classifiers, classifier);
      } else {
        assert WellFormed(agg[1..]) by {
          forall i, j | 0 <= i < j < |agg[1..]| ensures agg[1..][i].id != agg[1..][j].id {
            assert agg[1..][i] == agg[i + 1] && agg[1..][j] == agg[j + 1];
          }
        }
        EntryIffSpans(agg[1..], id, classifier);
      }
    }
  }

  lemma {:induction false} SpansInNames(cs: seq<ClassifierSpans>, classifier: string)
    requires forall j :: 0 <= j < |cs| ==> cs[j].spans != []
    ensures classifier in Names(cs) <==> SpansIn(cs, classifier) != []
  {
    if cs != [] {
      SpansInNames(cs[1..], classifier);
    }
  }

  /** A document has an entry exactly when it has some classifier entry. */
  lemma {:induction false} DocIffEntry(agg: Aggregator, id: string)
    requires WellFormed(agg)
    ensures id in Ids(agg) <==> NamesOf(agg, id) != []
  {
    if agg != [] && agg[0].id != id {
      assert WellFormed(agg[1..]) by {
        forall i, j | 0 <= i < j < |agg[1..]| ensures agg[1..][i].id != agg[1..][j].id {
          assert agg[1..][i] == agg[i + 1] && agg[1..][j] == agg[j + 1];
        }
      }
      DocIffEntry(agg[1..], id);
    } else if agg != [] {
      assert agg[0].classifiers != [];
      assert Names(agg[0].classifiers) != [];
    }
  }

  /**
   * There is an entry label_aggregator[id][classifier] exactly when the files
   * of that classifier give id at least one label: records and files without
   * labels leave no entry.
   */
  lemma AggregatorEntries(files: seq<DataFile>, id: string, classifier: string)
    ensures classifier in NamesOf(AggregateFiles(files), id) <==> FileSpans(files, id, classifier) != []
    ensures id in Ids(AggregateFiles(files)) <==> NamesOf(AggregateFiles(files), id) != []
  {
    AggregatorShape(files);
    AggregatorSpans(files, id, classifier);
    EntryIffSpans(AggregateFiles(files), id, classifier);
    DocIffEntry(AggregateFiles(files), id);
  }

  // ---------------------------------------------------------------------
  // Every document of the aggregator has a text

  /** Some entry of texts has that id. */
  predicate HasText(texts: seq<TextEntry>, id: string) {
    exists k :: 0 <= k < |texts| && texts[k].id == id
  }

  /** [x for x in texts if x["id"] == id][0]["text"], or None where that list is empty. */
  function TextOf(texts: seq<TextEntry>, id: string): (r: Option<string>)
    ensures r.Some? <==> HasText(texts, id)
    ensures r.Some? ==> exists k :: (0 <= k < |texts| && texts[k] == TextEntry(id, r.value)
                                     && forall j :: 0 <= j < k ==> texts[j].id != id)
  {
    if texts == [] then None
    else if texts[0].id == id then
      assert texts[0] == TextEntry(id, texts[0].text);
      Some(texts[0].text)
    else
      var r := TextOf(texts[1..], id);
      assert HasText(texts, id) ==> HasText(texts[1..], id) by {
        if HasText(texts, id) {
          var k :| 0 <= k < |texts| && texts[k].id == id;
          assert texts[1..][k - 1] == texts[k];
        }
      }
      assert r.Some? ==> HasText(texts, id) by {
        if r.Some? {
          var k :| 0 <= k < |texts[1..]| && texts[1..][k].id == id;
          assert texts[k + 1].id == id;
        }
      }
      if r.Some? then
        var k :| 0 <= k < |texts[1..]| && texts[1..][k] == TextEntry(id, r.value)
          && forall j :: 0 <= j < k ==> texts[1..][j].id != id;
        assert texts[k + 1] == TextEntry(id, r.value);
        assert forall j :: 0 <= j < k + 1 ==> texts[j].id != id by {
          forall j | 0 <= j < k + 1 ensures texts[j].id != id {
            if j > 0 {
              assert texts[j] == texts[1..][j - 1];
            }
          }
        }
        r
      else r
  }

  /** id is the id of one of a file's records. */
  predicate LabelledIn(records: seq<Record>, id: string) {
    exists k :: 0 <= k < |records| && records[k].id == id
  }

  lemma {:induction false} RecordTextsHave(records: seq<Record>, id: string)
    ensures HasText(RecordTexts(records), id) <==> LabelledIn(records, id)
  {
    if records != [] {
      var init := records[..|records| - 1];
      RecordTextsHave(init, id);
      var t := RecordTexts(records);
      if LabelledIn(records, id) && !LabelledIn(init, id) {
        assert t[|t| - 1].id == id;
      }
      if HasText(t, id) && !HasText(RecordTexts(init), id) {
        var k :| 0 <= k < |t| && t[k].id == id;
        assert k == |t| - 1;
      }
      if LabelledIn(init, id) {
        var k :| 0 <= k < |init| && init[k].id == id;
        assert records[k].id == id;
        var j :| 0 <= j < |RecordTexts(init)| && RecordTexts(init)[j].id == id;
        assert t[j].id == id;
      }
      if HasText(RecordTexts(init), id) {
        var j :| 0 <= j < |RecordTexts(init)| && RecordTexts(init)[j].id == id;
        assert t[j].id == id;
      }
    }
  }

  lemma HasTextAppend(a: seq<TextEntry>, b: seq<TextEntry>, id: string)
    ensures HasText(a + b, id) <==> HasText(a, id) || HasText(b, id)
  {
    if HasText(a + b, id) {
      var k :| 0 <= k < |a + b| && (a + b)[k].id == id;
      if k >= |a| {
        assert b[k - |a|].id == id;
      }
    }
    if HasText(a, id) {
      var k :| 0 <= k < |a| && a[k].id == id;
      assert (a + b)[k].id == id;
    }
    if HasText(b, id) {
      var k :| 0 <= k < |b| && b[k].id == id;
      assert (a + b)[|a| + k].id == id;
    }
  }

  lemma {:induction false} IdsAddSpans(agg: Aggregator, id: string, classifier: string, spans: seq<Span>, x: string)
    ensures x in Ids(AddSpans(agg, id, classifier, spans)) ==> x in Ids(agg) || x == id
  {
    if spans != [] {
      var init := spans[..|spans| - 1];
      IdsAddSpans(agg, id, classifier, init, x);
      IdsAdd(AddSpans(agg, id, classifier, init), id, classifier, spans[|spans| - 1]);
    }
  }

  lemma {:induction false} IdsAddRecords(agg: Aggregator, classifier: string, records: seq<Record>, x: string)
    ensures x in Ids(AddRecords(agg, classifier, records)) ==> x in Ids(agg) || LabelledIn(records, x)
  {
    if records != [] {
      var init, r := records[..|records| - 1], records[|records| - 1];
      IdsAddRecords(agg, classifier, init, x);
      IdsAddSpans(AddRecords(agg, classifier, init), r.id, classifier, r.labels, x);
      if LabelledIn(init, x) {
        var k :| 0 <= k < |init| && init[k].id == x;
        assert records[k].id == x;
      }
    }
  }

  /** Every document of the aggregator has an entry in the texts. */
  lemma {:induction false} IdsHaveTexts(files: seq<DataFile>, x: string)
    ensures x in Ids(AggregateFiles(files)) ==> HasText(Texts(files), x)
  {
    if files != [] {
      var init, f := files[..|files| - 1], files[|files| - 1];
      IdsHaveTexts(init, x);
      IdsAddRecords(AggregateFiles(init), ClassifierName(f.path), f.records, x);
      RecordTextsHave(f.records, x);
      HasTextAppend(Texts(init), RecordTexts(f.records), x);
    }
  }

  // ---------------------------------------------------------------------
  // create_aligned_table

  /** A (start, end) position. */
  datatype Pos = Pos(start: int, end: int)

  /** Tuple order on positions. */
  predicate PosLess(a: Pos, b: Pos) {
    a.start < b.start || (a.start == b.start && a.end < b.end)
  }

  lemma PosLessOrder()
    ensures Sorting.StrictTotalOrder(PosLess)
  {
  }

  /** span has exactly the position p. */
  predicate At(span: Span, p: Pos) {
    span.start == p.start && span.end == p.end
  }

  /** The positions of some spans, in order. */
  function SpanPositions(spans: seq<Span>): seq<Pos> {
    Tokenizing.Flat(spans, (s: Span) => [Pos(s.start, s.end)])
  }

  /** The positions added to all_positions, classifier after classifier. */
  function Positions(cs: seq<ClassifierSpans>): seq<Pos> {
    Tokenizing.Flat(cs, (c: ClassifierSpans) => SpanPositions(c.spans))
  }

  /** sorted(all_positions): the distinct positions of a document, in increasing order. */
  function SortedPositions(cs: seq<ClassifierSpans>): seq<Pos> {
    Sorting.SortedSet(Positions(cs), PosLess)
  }

  /** doc_text[start:end] when 0 <= start < end <= len(doc_text), and "" otherwise. */
  function SpanText(text: string, start: int, end: int): string {
    if 0 <= start < end <= |text| then text[start..end] else ""
  }

  /** matches[0] if matches else None: the label of the first span at exactly p. */
  function FirstMatch(spans: seq<Span>, p: Pos): (r: Option<string>)
    ensures r.None? <==> forall j :: 0 <= j < |spans| ==> !At(spans[j], p)
    ensures r.Some? ==> exists j :: (0 <= j < |spans| && At(spans[j], p) && spans[j].category == r.value
                                     && forall i :: 0 <= i < j ==> !At(spans[i], p))
  {
    if spans == [] then None
    else if At(spans[0], p) then Some(spans[0].category)
    else
      var r := FirstMatch(spans[1..], p);
      if r.Some? then
        var j :| 0 <= j < |spans[1..]| && At(spans[1..][j], p) && spans[1..][j].category == r.value
          && forall i :: 0 <= i < j ==> !At(spans[1..][i], p);
        assert spans[j + 1] == spans[1..][j];
        assert forall i :: 0 <= i < j + 1 ==> !At(spans[i], p) by {
          forall i | 0 <= i < j + 1 ensures !At(spans[i], p) {
            if i > 0 {
              assert spans[i] == spans[1..][i - 1];
            }
          }
        }
        r
      else
        assert forall j :: 0 <= j < |spans| ==> !At(spans[j], p) by {
          forall j | 0 <= j < |spans| ensures !At(spans[j], p) {
            if j > 0 {
              assert spans[j] == spans[1..][j - 1];
            }
          }
        }
        r
  }

  /** row[f"{classifier}_label"] for one classifier. */
  datatype Cell = Cell(classifier: string, category: Option<string>)

  /** One row of the aligned table. */
  datatype AlignedRow = AlignedRow(id: string, start: int, end: int, text: string, cells: seq<Cell>)

  /** The cells of a row at p, one per classifier of the document, in order. */
  function Cells(cs: seq<ClassifierSpans>, p: Pos): (r: seq<Cell>)
    ensures |r| == |cs|
  {
    if cs == [] then [] else [Cell(cs[0].classifier, FirstMatch(cs[0].spans, p))] + Cells(cs[1..], p)
  }

  /** The row of the table for position p of a document. */
  function PositionRow(id: string, text: string, cs: seq<ClassifierSpans>, p: Pos): AlignedRow {
    AlignedRow(id, p.start, p.end, SpanText(text, p.start, p.end), Cells(cs, p))
  }

  /** The rows of a document for the positions ps, in order. */
  function DocRows(id: string, text: string, cs: seq<ClassifierSpans>, ps: seq<Pos>): (r: seq<AlignedRow>)
    ensures |r| == |ps|
  {
    if ps == [] then []
    else DocRows(id, text, cs, ps[..|ps| - 1]) + [PositionRow(id, text, cs, ps[|ps| - 1])]
  }

  /** The rows of the documents, in aggregator order; None where a document has no text. */
  function AlignedRows(agg: Aggregator, texts: seq<TextEntry>): Option<seq<AlignedRow>> {
    if agg == [] then Some([])
    else
      var doc := agg[|agg| - 1];
      match AlignedRows(agg[..|agg| - 1], texts)
      case None => None
      case Some(rows) =>
        match TextOf(texts, doc.id)
        case None => None
        case Some(text) => Some(rows + DocRows(doc.id, text, doc.classifiers, SortedPositions(doc.classifiers)))
  }

  /** sort_values(['document_id', 'start', 'end']) as a comparison. */
  predicate RowLe(a: AlignedRow, b: AlignedRow) {
    Sorting.StrLess(a.id, b.id)
    || (a.id == b.id && (a.start < b.start || (a.start == b.start && a.end <= b.end)))
  }

  /**
   * create_aligned_table: the rows sorted by document, start and end. None
   * where the lookup of a text fails (IndexError), and None when there is no
   * row at all, since a DataFrame built from no rows has no 'document_id'
   * column to sort by (KeyError).
   */
  function AlignedTable(agg: Aggregator, texts: seq<TextEntry>): Option<seq<AlignedRow>> {
    match AlignedRows(agg, texts)
    case None => None
    case Some(rows) => if rows == [] then None else Some(Sorting.SortBy(rows, RowLe))
  }

  method CreateAlignedTable(agg: Aggregator, texts: seq<TextEntry>) returns (table: Option<seq<AlignedRow>>)
    ensures table == AlignedTable(agg, texts)
  {
    var result: seq<AlignedRow> := [];
    for i := 0 to |agg|
      invariant AlignedRows(agg[..i], texts) == Some(result)
    {
      var doc := agg[i];
      assert agg[..i + 1][..i] == agg[..i];
      var docText := TextOf(texts, doc.id);
      if docText.None? {
        FailurePropagates(agg, texts, i + 1, |agg|);
        assert agg[..|agg|] == agg;
        return None;
      }
      var positions := DocPositions(doc.classifiers);
      var rows := DocTable(doc.id, docText.value, doc.classifiers, positions);
      result := result + rows;
    }
    assert agg[..|agg|] == agg;
    if result == [] {
      return None;
    }
    table := Some(Sorting.SortBy(result, RowLe));
  }

  /** Once a document has no text, no longer prefix has rows. */
  lemma {:induction false} FailurePropagates(agg: Aggregator, texts: seq<TextEntry>, k: nat, m: nat)
    requires k <= m <= |agg|
    requires AlignedRows(agg[..k], texts).None?
    ensures AlignedRows(agg[..m], texts).None?
    decreases m
  {
    if m > k {
      FailurePropagates(agg, texts, k, m - 1);
      assert agg[..m][..m - 1] == agg[..m - 1];
      StepFails(agg[..m], texts);
    }
  }

  lemma StepFails(agg: Aggregator, texts: seq<TextEntry>)
    requires agg != [] && AlignedRows(agg[..|agg| - 1], texts).None?
    ensures AlignedRows(agg, texts).None?
  {
  }

  /** all_positions for one document, then sorted. */
  method DocPositions(cs: seq<ClassifierSpans>) returns (ps: seq<Pos>)
    ensures ps == SortedPositions(cs)
  {
    var seen: seq<Pos> := [];
    for j := 0 to |cs|
      invariant seen == Positions(cs[..j])
    {
      var spans := cs[j].spans;
      for k := 0 to |spans|
        invariant seen == Positions(cs[..j]) + SpanPositions(spans[..k])
      {
        seen := seen + [Pos(spans[k].start, spans[k].end)];
        SpanPositionsSnoc(spans, k);
      }
      assert spans[..|spans|] == spans;
      PositionsSnoc(cs, j);
    }
    assert cs[..|cs|] == cs;
    ps := Sorting.SortedSet(seen, PosLess);
  }

  lemma SpanPositionsSnoc(spans: seq<Span>, k: nat)
    requires k < |spans|
    ensures SpanPositions(spans[..k + 1]) == SpanPositions(spans[..k]) + [Pos(spans[k].start, spans[k].end)]
  {
    assert spans[..k + 1] == spans[..k] + [spans[k]];
    Tokenizing.FlatAppend(spans[..k], [spans[k]], (s: Span) => [Pos(s.start, s.end)]);
    Tokenizing.FlatOne(spans[k], (s: Span) => [Pos(s.start, s.end)]);
  }

  lemma PositionsSnoc(cs: seq<ClassifierSpans>, j: nat)
    requires j < |cs|
    ensures Positions(cs[..j + 1]) == Positions(cs[..j]) + SpanPositions(cs[j].spans)
  {
    assert cs[..j + 1] == cs[..j] + [cs[j]];
    Tokenizing.FlatAppend(cs[..j], [cs[j]], (c: ClassifierSpans) => SpanPositions(c.spans));
    Tokenizing.FlatOne(cs[j], (c: ClassifierSpans) => SpanPositions(c.spans));
  }

  /** The rows of one document, one per position. */
  method DocTable(id: string, text: string, cs: seq<ClassifierSpans>, ps: seq<Pos>) returns (rows: seq<AlignedRow>)
    ensures rows == DocRows(id, text, cs, ps)
  {
    rows := [];
    for k := 0 to |ps|
      invariant rows == DocRows(id, text, cs, ps[..k])
    {
      var p := ps[k];
      var spanText := if 0 <= p.start < p.end <= |text| then text[p.start..p.end] else "";
      var cells := RowCells(cs, p);
      rows := rows + [AlignedRow(id, p.start, p.end, spanText, cells)];
      assert ps[..k + 1][..k] == ps[..k];
    }
    assert ps[..|ps|] == ps;
  }

  /** The loop over the classifiers of a row. */
  method RowCells(cs: seq<ClassifierSpans>, p: Pos) returns (cells: seq<Cell>)
    ensures cells == Cells(cs, p)
  {
    cells := [];
    for j := 0 to |cs|
      invariant cells + Cells(cs[j..], p) == Cells(cs, p)
    {
      assert cs[j..][1..] == cs[j + 1..];
      cells := cells + [Cell(cs[j].classifier, FirstMatch(cs[j].spans, p))];
    }
  }

  // ---------------------------------------------------------------------
  // What the aligned table holds

  lemma {:induction false} SpanPositionsOf(spans: seq<Span>, p: Pos)
    ensures p in SpanPositions(spans) <==> exists j :: 0 <= j < |spans| && At(spans[j], p)
  {
    if spans != [] {
      SpanPositionsOf(spans[1..], p);
      if exists j :: 0 <= j < |spans[1..]| && At(spans[1..][j], p) {
        var j :| 0 <= j < |spans[1..]| && At(spans[1..][j], p);
        assert spans[j + 1] == spans[1..][j];
      }
      if exists j :: 0 <= j < |spans| && At(spans[j], p) {
        var j :| 0 <= j < |spans| && At(spans[j], p);
        if j > 0 {
          assert spans[1..][j - 1] == spans[j];
        }
      }
    }
  }

  /** The positions collected are exactly those of the document's spans. */
  lemma {:induction false} PositionsOf(cs: seq<ClassifierSpans>, p: Pos)
    ensures p in Positions(cs) <==> exists i, j :: 0 <= i < |cs| && 0 <= j < |cs[i].spans| && At(cs[i].spans[j], p)
  {
    if cs != [] {
      PositionsOf(cs[1..], p);
      SpanPositionsOf(cs[0].spans, p);
      if exists i, j :: 0 <= i < |cs[1..]| && 0 <= j < |cs[1..][i].spans| && At(cs[1..][i].spans[j], p) {
        var i, j :| 0 <= i < |cs[1..]| && 0 <= j < |cs[1..][i].spans| && At(cs[1..][i].spans[j], p);
        assert cs[i + 1] == cs[1..][i];
      }
      if exists i, j :: 0 <= i < |cs| && 0 <= j < |cs[i].spans| && At(cs[i].spans[j], p) {
        var i, j :| 0 <= i < |cs| && 0 <= j < |cs[i].spans| && At(cs[i].spans[j], p);
        if i > 0 {
          assert cs[1..][i - 1] == cs[i];
        }
      }
    }
  }

  lemma {:induction false} DocRowAt(id: string, text: string, cs: seq<ClassifierSpans>, ps: seq<Pos>, k: nat)
    requires k < |ps|
    ensures DocRows(id, text, cs, ps)[k] == PositionRow(id, text, cs, ps[k])
  {
    if k < |ps| - 1 {
      DocRowAt(id, text, cs, ps[..|ps| - 1], k);
    }
  }

  lemma {:induction false} CellAt(cs: seq<ClassifierSpans>, p: Pos, j: nat)
    requires j < |cs|
    ensures Cells(cs, p)[j] == Cell(cs[j].classifier, FirstMatch(cs[j].spans, p))
  {
    if j > 0 {
      CellAt(cs[1..], p, j - 1);
    }
  }

  /**
   * The rows of one document: one per distinct (start, end) of any of its
   * classifiers, in increasing order; the k-th row carries the span text and,
   * per classifier, the label of its first span at that position.
   */
  lemma DocumentRows(id: string, text: string, cs: seq<ClassifierSpans>, k: nat, j: nat)
    ensures var ps := SortedPositions(cs);
      && Sorting.StrictlySorted(ps, PosLess)
      && (forall p :: p in ps <==> exists i, j :: 0 <= i < |cs| && 0 <= j < |cs[i].spans| && At(cs[i].spans[j], p))
      && |DocRows(id, text, cs, ps)| == |ps|
    ensures var ps := SortedPositions(cs);
      k < |ps| && j < |cs| ==>
        var row := DocRows(id, text, cs, ps)[k];
        && row.id == id && row.start == ps[k].start && row.end == ps[k].end
        && row.text == SpanText(text, ps[k].start, ps[k].end)
        && |row.cells| == |cs|
        && row.cells[j] == Cell(cs[j].classifier, FirstMatch(cs[j].spans, ps[k]))
  {
    var ps := SortedPositions(cs);
    PosLessOrder();
    Sorting.SortedSetFacts(Positions(cs), PosLess);
    forall p ensures p in ps <==> exists i, j :: 0 <= i < |cs| && 0 <= j < |cs[i].spans| && At(cs[i].spans[j], p) {
      PositionsOf(cs, p);
    }
    if k < |ps| && j < |cs| {
      DocRowAt(id, text, cs, ps, k);
      CellAt(cs, ps[k], j);
    }
  }

  lemma RowLeOrder()
    ensures Sorting.TotalPreorder(RowLe)
  {
    Sorting.StrLessOrder();
  }

  /** The table is ordered by (document_id, start, end) and holds each document's rows. */
  lemma AlignedTableOrdered(agg: Aggregator, texts: seq<TextEntry>)
    ensures AlignedTable(agg, texts).Some? <==> AlignedRows(agg, texts).Some? && AlignedRows(agg, texts).value != []
    ensures AlignedTable(agg, texts).Some? ==>
      && Sorting.SortedBy(AlignedTable(agg, texts).value, RowLe)
      && multiset(AlignedTable(agg, texts).value) == multiset(AlignedRows(agg, texts).value)
  {
    if AlignedRows(agg, texts).Some? && AlignedRows(agg, texts).value != [] {
      RowLeOrder();
      Sorting.SortBySorted(AlignedRows(agg, texts).value, RowLe);
      Sorting.SortByPermutes(AlignedRows(agg, texts).value, RowLe);
    }
  }

  lemma {:induction false} AlignedRowsDefined(agg: Aggregator, texts: seq<TextEntry>)
    requires forall i :: 0 <= i < |agg| ==> HasText(texts, agg[i].id)
    ensures AlignedRows(agg, texts).Some?
  {
    if agg != [] {
      AlignedRowsDefined(agg[..|agg| - 1], texts);
    }
  }

  /** Some data file gives some record at least one label. */
  predicate SomeLabel(files: seq<DataFile>) {
    exists i, k :: 0 <= i < |files| && 0 <= k < |files[i].records| && files[i].records[k].labels != []
  }

  /** Some record with that id has a label. */
  predicate LabelledRecord(records: seq<Record>, id: string) {
    exists k :: 0 <= k < |records| && records[k].id == id && records[k].labels != []
  }

  /** The file is named after classifier and labels a record with that id. */
  predicate GivesSpan(f: DataFile, id: string, classifier: string) {
    ClassifierName(f.path) == classifier && LabelledRecord(f.records, id)
  }

  /** The records give id a span exactly when one record with that id has a label. */
  lemma {:induction false} RecordSpansNonEmpty(records: seq<Record>, id: string)
    ensures RecordSpans(records, id) != [] <==> LabelledRecord(records, id)
  {
    if records != [] {
      var init, r := records[..|records| - 1], records[|records| - 1];
      RecordSpansNonEmpty(init, id);
      if LabelledRecord(init, id) {
        var k :| 0 <= k < |init| && init[k].id == id && init[k].labels != [];
        assert records[k] == init[k];
      }
      if LabelledRecord(records, id) {
        var k :| 0 <= k < |records| && records[k].id == id && records[k].labels != [];
        if k < |init| {
          assert init[k] == records[k];
          assert LabelledRecord(init, id);
        }
      }
    }
  }

  /** The last file's contribution to FileSpans, as a non-emptiness fact. */
  lemma FileSpansLast(files: seq<DataFile>, id: string, classifier: string)
    requires files != []
    ensures FileSpans(files, id, classifier) != []
        <==> FileSpans(files[..|files| - 1], id, classifier) != []
             || (ClassifierName(files[|files| - 1].path) == classifier
                 && RecordSpans(files[|files| - 1].records, id) != [])
  {
  }

  /** A file named after classifier whose records give id a span gives it a labelled record. */
  lemma LastGivesSpan(f: DataFile, id: string, classifier: string)
    requires ClassifierName(f.path) == classifier && RecordSpans(f.records, id) != []
    ensures GivesSpan(f, id, classifier)
  {
    RecordSpansNonEmpty(f.records, id);
  }

  /** A file that gives (id, classifier) a labelled record is named after classifier and gives id a span. */
  lemma SpanOfGiven(f: DataFile, id: string, classifier: string)
    requires GivesSpan(f, id, classifier)
    ensures ClassifierName(f.path) == classifier && RecordSpans(f.records, id) != []
  {
    RecordSpansNonEmpty(f.records, id);
  }

  /** No files, no spans. */
  lemma FileSpansNoFiles(files: seq<DataFile>, id: string, classifier: string)
    requires FileSpans(files, id, classifier) != []
    ensures files != []
  {
  }

  /** A span of (id, classifier) in the files comes from one file that gives it a labelled record. */
  lemma {:induction false} FileSpansFrom(files: seq<DataFile>, id: string, classifier: string) returns (i: nat)
    requires FileSpans(files, id, classifier) != []
    ensures i < |files| && GivesSpan(files[i], id, classifier)
  {
    FileSpansNoFiles(files, id, classifier);
    var init := files[..|files| - 1];
    FileSpansLast(files, id, classifier);
    if FileSpans(init, id, classifier) != [] {
      var j := FileSpansFrom(init, id, classifier);
      assert files[j] == init[j];
      i := j;
    } else {
      LastGivesSpan(files[|files| - 1], id, classifier);
      i := |files| - 1;
    }
  }

  /** A file that gives (id, classifier) a labelled record puts a span of it in the files. */
  lemma {:induction false} FileSpansOf(files: seq<DataFile>, i: nat, id: string, classifier: string)
    requires i < |files| && GivesSpan(files[i], id, classifier)
    ensures FileSpans(files, id, classifier) != []
  {
    var init := files[..|files| - 1];
    FileSpansLast(files, id, classifier);
    if i < |init| {
      assert init[i] == files[i];
      FileSpansOf(init, i, id, classifier);
    } else {
      assert i == |files| - 1;
      SpanOfGiven(files[|files| - 1], id, classifier);
    }
  }

  /** The files give (id, classifier) a span exactly when one of them gives it a labelled record. */
  lemma FileSpansNonEmpty(files: seq<DataFile>, id: string, classifier: string)
    ensures FileSpans(files, id, classifier) != []
        <==> exists i :: 0 <= i < |files| && GivesSpan(files[i], id, classifier)
  {
    if FileSpans(files, id, classifier) != [] {
      var i := FileSpansFrom(files, id, classifier);
    }
    if exists i :: 0 <= i < |files| && GivesSpan(files[i], id, classifier) {
      var i :| 0 <= i < |files| && GivesSpan(files[i], id, classifier);
      FileSpansOf(files, i, id, classifier);
    }
  }

  /** A labelled record of files[i] gives a span to its id under the file's classifier. */
  lemma LabelGivesSpan(files: seq<DataFile>, i: nat, k: nat)
    requires i < |files| && k < |files[i].records| && files[i].records[k].labels != []
    ensures FileSpans(files, files[i].records[k].id, ClassifierName(files[i].path)) != []
  {
    var id, c := files[i].records[k].id, ClassifierName(files[i].path);
    assert LabelledRecord(files[i].records, id);
    FileSpansOf(files, i, id, c);
  }

  /** A span given to (id, classifier) comes from a labelled record. */
  lemma SpanHasLabel(files: seq<DataFile>, id: string, classifier: string)
    requires FileSpans(files, id, classifier) != []
    ensures SomeLabel(files)
  {
    var i := FileSpansFrom(files, id, classifier);
    var k :| 0 <= k < |files[i].records| && files[i].records[k].id == id && files[i].records[k].labels != [];
  }

  /** A non-empty aggregator comes from a labelled record. */
  lemma AggregatorHasLabel(files: seq<DataFile>)
    requires AggregateFiles(files) != []
    ensures SomeLabel(files)
  {
    var agg := AggregateFiles(files);
    var id := agg[0].id;
    IdsAt(agg, 0);
    AggregatorEntries(files, id, id);
    var c := NamesOf(agg, id)[0];
    AggregatorEntries(files, id, c);
    SpanHasLabel(files, id, c);
  }

  /** A labelled record puts an entry in the aggregator. */
  lemma LabelInAggregator(files: seq<DataFile>, i: nat, k: nat)
    requires i < |files| && k < |files[i].records| && files[i].records[k].labels != []
    ensures AggregateFiles(files) != []
  {
    var id, c := files[i].records[k].id, ClassifierName(files[i].path);
    LabelGivesSpan(files, i, k);
    AggregatorEntries(files, id, c);
    assert NamesOf(AggregateFiles(files), id) != [];
  }

  /** The aggregator is empty exactly when no record of any file has a label. */
  lemma AggregatorNonEmpty(files: seq<DataFile>)
    ensures AggregateFiles(files) != [] <==> SomeLabel(files)
  {
    if AggregateFiles(files) != [] {
      AggregatorHasLabel(files);
    }
    if SomeLabel(files) {
      var i, k :| 0 <= i < |files| && 0 <= k < |files[i].records| && files[i].records[k].labels != [];
      LabelInAggregator(files, i, k);
    }
  }

  /** In a well-formed aggregator every document has a position, so it gives at least one row. */
  lemma RowsNonEmpty(agg: Aggregator, texts: seq<TextEntry>)
    requires WellFormed(agg) && AlignedRows(agg, texts).Some?
    ensures AlignedRows(agg, texts).value == [] <==> agg == []
  {
    if agg != [] {
      var doc := agg[|agg| - 1];
      var cs := doc.classifiers;
      var prev := AlignedRows(agg[..|agg| - 1], texts);
      var text := TextOf(texts, doc.id);
      assert prev.Some? && text.Some?;
      var ps := SortedPositions(cs);
      assert AlignedRows(agg, texts).value == prev.value + DocRows(doc.id, text.value, cs, ps);
      var p := Pos(cs[0].spans[0].start, cs[0].spans[0].end);
      assert At(cs[0].spans[0], p);
      PositionsOf(cs, p);
      PosLessOrder();
      Sorting.SortedSetFacts(Positions(cs), PosLess);
      assert p in ps;
    }
  }

  /**
   * For the aggregator and texts of the same files, the lookup of a
   * document's text never fails, so the table is defined exactly when some
   * record has a label.
   */
  lemma AlignedTableDefined(files: seq<DataFile>)
    ensures AlignedTable(AggregateFiles(files), Texts(files)).Some? <==> SomeLabel(files)
  {
    var agg := AggregateFiles(files);
    forall i | 0 <= i < |agg| ensures HasText(Texts(files), agg[i].id) {
      IdsAt(agg, i);
      IdsHaveTexts(files, agg[i].id);
    }
    AlignedRowsDefined(agg, Texts(files));
    AggregatorShape(files);
    RowsNonEmpty(agg, Texts(files));
    AggregatorNonEmpty(files);
  }
}
