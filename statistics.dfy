/**
 * The label statistics of the frontend export: how often each classifier
 * used each label, over all documents and per document. Counters behave as
 * Python's Counter: a missing label counts 0, and keys keep the order in
 * which they were first incremented.
 */
module LabelStatistics {
  import opened Texty
  import opened FrontendData
  import Sorting
  import Tokenizing

  /** One counted entry: the classifier that gave it and its label. */
  datatype Tag = Tag(classifier: string, category: string)

  /** The entries of one classifier list, in order. */
  function SpanTags(classifier: string, spans: seq<Span>): (r: seq<Tag>)
    ensures |r| == |spans|
  {
    if spans == [] then []
    else SpanTags(classifier, spans[..|spans| - 1]) + [Tag(classifier, spans[|spans| - 1].category)]
  }

  function ClassifierTags(c: ClassifierSpans): seq<Tag> {
    SpanTags(c.classifier, c.spans)
  }

  /** The entries of one document, in the order the counting loops visit them. */
  function DocTags(d: DocSpans): seq<Tag> {
    Tokenizing.Flat(d.classifiers, ClassifierTags)
  }

  /** The entries of all documents, in visiting order. */
  function AllTags(agg: Aggregator): seq<Tag> {
    Tokenizing.Flat(agg, DocTags)
  }

  /** The classifier of each entry. */
  function TagClassifiers(tags: seq<Tag>): (r: seq<string>)
    ensures |r| == |tags| && forall k :: 0 <= k < |tags| ==> r[k] == tags[k].classifier
  {
    seq(|tags|, k requires 0 <= k < |tags| => tags[k].classifier)
  }

  /** The label of each entry. */
  function TagLabels(tags: seq<Tag>): (r: seq<string>)
    ensures |r| == |tags| && forall k :: 0 <= k < |tags| ==> r[k] == tags[k].category
  {
    seq(|tags|, k requires 0 <= k < |tags| => tags[k].category)
  }

  /** The number of entries of a classifier. */
  function ClassifierCount(tags: seq<Tag>, classifier: string): nat {
    if tags == [] then 0
    else ClassifierCount(tags[..|tags| - 1], classifier) + (if tags[|tags| - 1].classifier == classifier then 1 else 0)
  }

  predicate Distinct(s: seq<string>) {
    forall i, j :: 0 <= i < j < |s| ==> s[i] != s[j]
  }

  /** names followed by the elements of xs not seen before, in order of first appearance. */
  function FirstSeen(names: seq<string>, xs: seq<string>): seq<string> {
    if xs == [] then names
    else
      var r := FirstSeen(names, xs[..|xs| - 1]);
      if xs[|xs| - 1] in r then r else r + [xs[|xs| - 1]]
  }

  lemma {:induction false} FirstSeenFacts(names: seq<string>, xs: seq<string>, x: string)
    ensures x in FirstSeen(names, xs) <==> x in names || x in xs
  {
    if xs != [] {
      FirstSeenFacts(names, xs[..|xs| - 1], x);
      assert xs == xs[..|xs| - 1] + [xs[|xs| - 1]];
    }
  }

  lemma {:induction false} FirstSeenDistinct(names: seq<string>, xs: seq<string>)
    requires Distinct(names)
    ensures Distinct(FirstSeen(names, xs))
  {
    if xs != [] {
      FirstSeenDistinct(names, xs[..|xs| - 1]);
    }
  }

  lemma {:induction false} FirstSeenCovered(names: seq<string>, xs: seq<string>)
    requires forall k :: 0 <= k < |xs| ==> xs[k] in names
    ensures FirstSeen(names, xs) == names
  {
    if xs != [] {
      FirstSeenCovered(names, xs[..|xs| - 1]);
    }
  }

  // ---------------------------------------------------------------------
  // Counter

  /** One key of a Counter and its count. */
  datatype LabelCount = LabelCount(category: string, count: nat)

  /** A Counter of labels, keys in insertion order. */
  type Counter = seq<LabelCount>

  /** counter[label]: its count, or 0 when it is missing. */
  function CountOf(counter: Counter, category: string): nat {
    if counter == [] then 0
    else if counter[0].category == category then counter[0].count
    else CountOf(counter[1..], category)
  }

  /** counter.keys(). */
  function Keys(counter: Counter): (r: seq<string>)
    ensures |r| == |counter|
  {
    if counter == [] then [] else [counter[0].category] + Keys(counter[1..])
  }

  /** sum(counter.values()). */
  function Total(counter: Counter): nat {
    if counter == [] then 0 else counter[0].count + Total(counter[1..])
  }

  /** counter[label] += 1. */
  function Bump(counter: Counter, category: string): Counter {
    if counter == [] then [LabelCount(category, 1)]
    else if counter[0].category == category then [LabelCount(category, counter[0].count + 1)] + counter[1..]
    else [counter[0]] + Bump(counter[1..], category)
  }

  lemma {:induction false} CountOfBump(counter: Counter, category: string, other: string)
    ensures CountOf(Bump(counter, category), other) == CountOf(counter, other) + (if other == category then 1 else 0)
  {
    if counter == [] {
      assert [LabelCount(category, 1)][1..] == [];
    } else if counter[0].category != category {
      CountOfBump(counter[1..], category, other);
    }
  }

  lemma {:induction false} TotalBump(counter: Counter, category: string)
    ensures Total(Bump(counter, category)) == Total(counter) + 1
  {
    if counter == [] {
      assert [LabelCount(category, 1)][1..] == [];
    } else if counter[0].category != category {
      TotalBump(counter[1..], category);
    }
  }

  lemma {:induction false} KeysBump(counter: Counter, category: string)
    ensures Keys(Bump(counter, category)) == Keys(counter) + (if category in Keys(counter) then [] else [category])
  {
    if counter == [] {
      assert [LabelCount(category, 1)][1..] == [];
    } else if counter[0].category != category {
      KeysBump(counter[1..], category);
    }
  }

  /** One Counter per classifier, in insertion order. */
  datatype ClassifierCounter = ClassifierCounter(classifier: string, counter: Counter)

  type Counters = seq<ClassifierCounter>

  /** counters[classifier], or an empty Counter when it is missing. */
  function CounterOf(counters: Counters, classifier: string): Counter {
    if counters == [] then []
    else if counters[0].classifier == classifier then counters[0].counter
    else CounterOf(counters[1..], classifier)
  }

  /** counters.keys(). */
  function ClassifiersOf(counters: Counters): (r: seq<string>)
    ensures |r| == |counters|
  {
    if counters == [] then [] else [counters[0].classifier] + ClassifiersOf(counters[1..])
  }

  /** counters[classifier][label] += 1, creating the classifier's Counter when it is missing. */
  function BumpIn(counters: Counters, t: Tag): Counters {
    if counters == [] then [ClassifierCounter(t.classifier, Bump([], t.category))]
    else if counters[0].classifier == t.classifier then
      [ClassifierCounter(t.classifier, Bump(counters[0].counter, t.category))] + counters[1..]
    else [counters[0]] + BumpIn(counters[1..], t)
  }

  /** The counters after counting the entries in order. */
  function Tally(counters: Counters, tags: seq<Tag>): Counters {
    if tags == [] then counters
    else BumpIn(Tally(counters, tags[..|tags| - 1]), tags[|tags| - 1])
  }

  lemma {:induction false} CounterOfBumpIn(counters: Counters, t: Tag, classifier: string)
    ensures CounterOf(BumpIn(counters, t), classifier)
         == if classifier == t.classifier then Bump(CounterOf(counters, classifier), t.category)
            else CounterOf(counters, classifier)
  {
    if counters == [] {
      assert [ClassifierCounter(t.classifier, Bump([], t.category))][1..] == [];
    } else if counters[0].classifier != t.classifier {
      CounterOfBumpIn(counters[1..], t, classifier);
    }
  }

  lemma {:induction false} ClassifiersBumpIn(counters: Counters, t: Tag)
    ensures ClassifiersOf(BumpIn(counters, t))
         == ClassifiersOf(counters) + (if t.classifier in ClassifiersOf(counters) then [] else [t.classifier])
  {
    if counters == [] {
      assert [ClassifierCounter(t.classifier, Bump([], t.category))][1..] == [];
    } else if counters[0].classifier != t.classifier {
      ClassifiersBumpIn(counters[1..], t);
    }
  }

  lemma TallySnoc(counters: Counters, tags: seq<Tag>, t: Tag)
    ensures Tally(counters, tags + [t]) == BumpIn(Tally(counters, tags), t)
  {
    assert (tags + [t])[..|tags|] == tags;
  }

  lemma {:induction false} TallyAppend(counters: Counters, a: seq<Tag>, b: seq<Tag>)
    ensures Tally(counters, a + b) == Tally(Tally(counters, a), b)
  {
    if b == [] {
      assert a + b == a;
    } else {
      var init := b[..|b| - 1];
      TallyAppend(counters, a, init);
      assert a + b == (a + init) + [b[|b| - 1]];
      TallySnoc(counters, a + init, b[|b| - 1]);
    }
  }

  /** counter[label] after counting: its count before plus the entries (classifier, label). */
  lemma {:induction false} TallyCount(counters: Counters, tags: seq<Tag>, classifier: string, category: string)
    ensures CountOf(CounterOf(Tally(counters, tags), classifier), category)
         == CountOf(CounterOf(counters, classifier), category) + multiset(tags)[Tag(classifier, category)]
  {
    if tags != [] {
      var init, t := tags[..|tags| - 1], tags[|tags| - 1];
      TallyCount(counters, init, classifier, category);
      CounterOfBumpIn(Tally(counters, init), t, classifier);
      if classifier == t.classifier {
        CountOfBump(CounterOf(Tally(counters, init), classifier), t.category, category);
      }
      assert tags == init + [t];
    }
  }

  /** sum(counter.values()) after counting: the total before plus the classifier's entries. */
  lemma {:induction false} TallyTotal(counters: Counters, tags: seq<Tag>, classifier: string)
    ensures Total(CounterOf(Tally(counters, tags), classifier))
         == Total(CounterOf(counters, classifier)) + ClassifierCount(tags, classifier)
  {
    if tags != [] {
      var init, t := tags[..|tags| - 1], tags[|tags| - 1];
      TallyTotal(counters, init, classifier);
      CounterOfBumpIn(Tally(counters, init), t, classifier);
      if classifier == t.classifier {
        TotalBump(CounterOf(Tally(counters, init), classifier), t.category);
      }
    }
  }

  /** The labels of a classifier's Counter after counting: those before and those of its entries. */
  lemma {:induction false} TallyKeys(counters: Counters, tags: seq<Tag>, classifier: string, category: string)
    ensures category in Keys(CounterOf(Tally(counters, tags), classifier))
        <==> category in Keys(CounterOf(counters, classifier)) || Tag(classifier, category) in tags
  {
    if tags != [] {
      var init, t := tags[..|tags| - 1], tags[|tags| - 1];
      TallyKeys(counters, init, classifier, category);
      CounterOfBumpIn(Tally(counters, init), t, classifier);
      if classifier == t.classifier {
        KeysBump(CounterOf(Tally(counters, init), classifier), t.category);
      }
      assert tags == init + [t];
    }
  }

  /** The classifiers after counting: those before, then new ones in order of first appearance. */
  lemma {:induction false} TallyClassifiers(counters: Counters, tags: seq<Tag>)
    ensures ClassifiersOf(Tally(counters, tags)) == FirstSeen(ClassifiersOf(counters), TagClassifiers(tags))
  {
    if tags != [] {
      var init, t := tags[..|tags| - 1], tags[|tags| - 1];
      TallyClassifiers(counters, init);
      ClassifiersBumpIn(Tally(counters, init), t);
      assert TagClassifiers(tags)[..|tags| - 1] == TagClassifiers(init);
    }
  }

  // ---------------------------------------------------------------------
  // The counting loops

  /** The loops over one document's classifiers and their entries. */
  method CountDoc(counters0: Counters, d: DocSpans) returns (counters: Counters)
    ensures counters == Tally(counters0, DocTags(d))
  {
    counters := counters0;
    for i := 0 to |d.classifiers|
      invariant counters == Tally(counters0, Tokenizing.Flat(d.classifiers[..i], ClassifierTags))
    {
      var classifier, spans := d.classifiers[i].classifier, d.classifiers[i].spans;
      ghost var before := Tokenizing.Flat(d.classifiers[..i], ClassifierTags);
      assert spans[..0] == [] && before + [] == before;
      for j := 0 to |spans|
        invariant counters == Tally(counters0, before + SpanTags(classifier, spans[..j]))
      {
        var t := Tag(classifier, spans[j].category);
        counters := BumpIn(counters, t);
        assert spans[..j + 1][..j] == spans[..j];
        assert before + SpanTags(classifier, spans[..j + 1]) == (before + SpanTags(classifier, spans[..j])) + [t];
        TallySnoc(counters0, before + SpanTags(classifier, spans[..j]), t);
      }
      assert spans[..|spans|] == spans;
      Tokenizing.FlatSnoc(d.classifiers, i, ClassifierTags);
    }
    assert d.classifiers[..|d.classifiers|] == d.classifiers;
  }

  /** The counting loop of generate_label_statistics over all documents. */
  method CountAll(agg: Aggregator) returns (counters: Counters)
    ensures counters == Tally([], AllTags(agg))
  {
    counters := [];
    for i := 0 to |agg|
      invariant counters == Tally([], Tokenizing.Flat(agg[..i], DocTags))
    {
      counters := CountDoc(counters, agg[i]);
      Tokenizing.FlatSnoc(agg, i, DocTags);
      TallyAppend([], Tokenizing.Flat(agg[..i], DocTags), DocTags(agg[i]));
    }
    assert agg[..|agg|] == agg;
  }

  // ---------------------------------------------------------------------
  // generate_label_statistics

  /** A row of a statistics table: a label's counts, or the TOTAL row with its percentages. */
  datatype StatRow = LabelRow(category: string, counts: seq<nat>) | TotalRow(counts: seq<nat>, pcts: seq<real>)

  /** The 'label' column. */
  function RowLabel(r: StatRow): string {
    if r.LabelRow? then r.category else "TOTAL"
  }

  /** The table of generate_label_statistics: its classifier columns, in order, and its rows. */
  datatype LabelStats = LabelStats(classifiers: seq<string>, rows: seq<StatRow>)

  /** counters[c][label] for each classifier c, in order. */
  function CountsFor(counters: Counters, classifiers: seq<string>, category: string): (r: seq<nat>)
    ensures |r| == |classifiers|
  {
    if classifiers == [] then []
    else
      CountsFor(counters, classifiers[..|classifiers| - 1], category)
      + [CountOf(CounterOf(counters, classifiers[|classifiers| - 1]), category)]
  }

  /** sum(counters[c].values()) for each classifier c, in order. */
  function TotalsFor(counters: Counters, classifiers: seq<string>): (r: seq<nat>)
    ensures |r| == |classifiers|
  {
    if classifiers == [] then []
    else TotalsFor(counters, classifiers[..|classifiers| - 1]) + [Total(CounterOf(counters, classifiers[|classifiers| - 1]))]
  }

  /** The percentage columns of the global TOTAL row: 100.0 for every classifier. */
  function Hundreds(n: nat): (r: seq<real>)
    ensures |r| == n
  {
    if n == 0 then [] else Hundreds(n - 1) + [100.0]
  }

  /** One row per label, in order. */
  function LabelRows(counters: Counters, classifiers: seq<string>, labels: seq<string>): (r: seq<StatRow>)
    ensures |r| == |labels|
  {
    if labels == [] then []
    else
      LabelRows(counters, classifiers, labels[..|labels| - 1])
      + [LabelRow(labels[|labels| - 1], CountsFor(counters, classifiers, labels[|labels| - 1]))]
  }

  function CounterKeys(k: ClassifierCounter): seq<string> {
    Keys(k.counter)
  }

  /** The labels gathered from the keys of every Counter. */
  function AllLabels(counters: Counters): seq<string> {
    Tokenizing.Flat(counters, CounterKeys)
  }

  /** generate_label_statistics, without the per-label percentages. */
  function Statistics(agg: Aggregator): LabelStats {
    var counters := Tally([], AllTags(agg));
    var classifiers := ClassifiersOf(counters);
    var labels := Sorting.SortedSet(AllLabels(counters), Sorting.StrLess);
    LabelStats(classifiers, LabelRows(counters, classifiers, labels)
                            + [TotalRow(TotalsFor(counters, classifiers), Hundreds(|classifiers|))])
  }

  method GenerateLabelStatistics(agg: Aggregator) returns (stats: LabelStats)
    ensures stats == Statistics(agg)
  {
    var counters := CountAll(agg);
    var classifiers := ClassifiersOf(counters);
    var seen: seq<string> := [];
    for i := 0 to |counters|
      invariant seen == Tokenizing.Flat(counters[..i], CounterKeys)
    {
      seen := seen + Keys(counters[i].counter);
      Tokenizing.FlatSnoc(counters, i, CounterKeys);
    }
    assert counters[..|counters|] == counters;
    var labels := Sorting.SortedSet(seen, Sorting.StrLess);
    var rows: seq<StatRow> := [];
    for k := 0 to |labels|
      invariant rows == LabelRows(counters, classifiers, labels[..k])
    {
      var counts := LabelCounts(counters, classifiers, labels[k]);
      rows := rows + [LabelRow(labels[k], counts)];
      assert labels[..k + 1][..k] == labels[..k];
    }
    assert labels[..|labels|] == labels;
    var totals := ClassifierTotals(counters, classifiers);
    var pcts: seq<real> := [];
    for j := 0 to |classifiers|
      invariant pcts == Hundreds(j)
    {
      pcts := pcts + [100.0];
    }
    stats := LabelStats(classifiers, rows + [TotalRow(totals, pcts)]);
  }

  /** The loop over the classifiers of one label row. */
  method LabelCounts(counters: Counters, classifiers: seq<string>, category: string) returns (counts: seq<nat>)
    ensures counts == CountsFor(counters, classifiers, category)
  {
    counts := [];
    for j := 0 to |classifiers|
      invariant counts == CountsFor(counters, classifiers[..j], category)
    {
      counts := counts + [CountOf(CounterOf(counters, classifiers[j]), category)];
      assert classifiers[..j + 1][..j] == classifiers[..j];
    }
    assert classifiers[..|classifiers|] == classifiers;
  }

  /** The loop over the classifiers of a TOTAL row. */
  method ClassifierTotals(counters: Counters, classifiers: seq<string>) returns (totals: seq<nat>)
    ensures totals == TotalsFor(counters, classifiers)
  {
    totals := [];
    for j := 0 to |classifiers|
      invariant totals == TotalsFor(counters, classifiers[..j])
    {
      totals := totals + [Total(CounterOf(counters, classifiers[j]))];
      assert classifiers[..j + 1][..j] == classifiers[..j];
    }
    assert classifiers[..|classifiers|] == classifiers;
  }

  // ---------------------------------------------------------------------
  // What the global table holds

  lemma {:induction false} ClassifiersAt(counters: Counters, i: nat)
    requires i < |counters|
    ensures ClassifiersOf(counters)[i] == counters[i].classifier
  {
    if i > 0 {
      ClassifiersAt(counters[1..], i - 1);
    }
  }

  /** With distinct classifiers, counters[classifier] is the Counter stored under it. */
  lemma {:induction false} CounterOfAt(counters: Counters, i: nat)
    requires i < |counters| && Distinct(ClassifiersOf(counters))
    ensures CounterOf(counters, counters[i].classifier) == counters[i].counter
  {
    if i > 0 {
      ClassifiersAt(counters, 0);
      ClassifiersAt(counters, i);
      assert ClassifiersOf(counters) == [counters[0].classifier] + ClassifiersOf(counters[1..]);
      assert Distinct(ClassifiersOf(counters[1..])) by {
        forall a, b | 0 <= a < b < |counters[1..]| ensures ClassifiersOf(counters[1..])[a] != ClassifiersOf(counters[1..])[b] {
          assert ClassifiersOf(counters[1..])[a] == ClassifiersOf(counters)[a + 1];
          assert ClassifiersOf(counters[1..])[b] == ClassifiersOf(counters)[b + 1];
        }
      }
      CounterOfAt(counters[1..], i - 1);
    }
  }

  lemma TagClassifierIn(tags: seq<Tag>, t: Tag)
    requires t in tags
    ensures t.classifier in TagClassifiers(tags) && t.category in TagLabels(tags)
  {
    var k :| 0 <= k < |tags| && tags[k] == t;
    assert TagClassifiers(tags)[k] == t.classifier;
    assert TagLabels(tags)[k] == t.category;
  }

  /** classifier_counters.keys(): the classifiers of the entries, distinct, in order of first appearance. */
  lemma StatisticsClassifiers(agg: Aggregator)
    ensures Statistics(agg).classifiers == FirstSeen([], TagClassifiers(AllTags(agg)))
    ensures Distinct(Statistics(agg).classifiers)
    ensures forall c :: c in Statistics(agg).classifiers <==> c in TagClassifiers(AllTags(agg))
  {
    var tags := AllTags(agg);
    TallyClassifiers([], tags);
    FirstSeenDistinct([], TagClassifiers(tags));
    forall c ensures c in Statistics(agg).classifiers <==> c in TagClassifiers(tags) {
      FirstSeenFacts([], TagClassifiers(tags), c);
    }
  }

  /** The labels found in the Counters are the labels of the entries. */
  lemma AllLabelsOfTally(tags: seq<Tag>, category: string)
    ensures category in AllLabels(Tally([], tags)) <==> category in TagLabels(tags)
  {
    var counters := Tally([], tags);
    TallyClassifiers([], tags);
    FirstSeenDistinct([], TagClassifiers(tags));
    Tokenizing.FlatMember(counters, CounterKeys, category);
    if category in AllLabels(counters) {
      var i :| 0 <= i < |counters| && category in CounterKeys(counters[i]);
      CounterOfAt(counters, i);
      TallyKeys([], tags, counters[i].classifier, category);
      TagClassifierIn(tags, Tag(counters[i].classifier, category));
    }
    if category in TagLabels(tags) {
      var k :| 0 <= k < |tags| && TagLabels(tags)[k] == category;
      var c := tags[k].classifier;
      assert tags[k] == Tag(c, category);
      TagClassifierIn(tags, tags[k]);
      FirstSeenFacts([], TagClassifiers(tags), c);
      var i :| 0 <= i < |counters| && ClassifiersOf(counters)[i] == c;
      ClassifiersAt(counters, i);
      CounterOfAt(counters, i);
      TallyKeys([], tags, c, category);
    }
  }

  /** The label rows of the global table are the distinct labels of the entries, in increasing order. */
  lemma StatisticsLabels(agg: Aggregator)
    ensures var labels := Sorting.SortedSet(TagLabels(AllTags(agg)), Sorting.StrLess);
      && Sorting.StrictlySorted(labels, Sorting.StrLess)
      && (forall l :: l in labels <==> l in TagLabels(AllTags(agg)))
      && |Statistics(agg).rows| == |labels| + 1
      && Sorting.SortedSet(AllLabels(Tally([], AllTags(agg))), Sorting.StrLess) == labels
  {
    var tags := AllTags(agg);
    var labels := Sorting.SortedSet(TagLabels(tags), Sorting.StrLess);
    var found := Sorting.SortedSet(AllLabels(Tally([], tags)), Sorting.StrLess);
    Sorting.StrLessOrder();
    Sorting.SortedSetFacts(TagLabels(tags), Sorting.StrLess);
    Sorting.SortedSetFacts(AllLabels(Tally([], tags)), Sorting.StrLess);
    forall l ensures l in found <==> l in labels {
      AllLabelsOfTally(tags, l);
    }
    Sorting.StrictlySortedUnique(found, labels, Sorting.StrLess);
  }

  lemma {:induction false} LabelRowsAt(counters: Counters, classifiers: seq<string>, labels: seq<string>, k: nat)
    requires k < |labels|
    ensures LabelRows(counters, classifiers, labels)[k] == LabelRow(labels[k], CountsFor(counters, classifiers, labels[k]))
  {
    if k < |labels| - 1 {
      LabelRowsAt(counters, classifiers, labels[..|labels| - 1], k);
    }
  }

  lemma {:induction false} CountsForAt(counters: Counters, classifiers: seq<string>, category: string, j: nat)
    requires j < |classifiers|
    ensures CountsFor(counters, classifiers, category)[j] == CountOf(CounterOf(counters, classifiers[j]), category)
  {
    if j < |classifiers| - 1 {
      CountsForAt(counters, classifiers[..|classifiers| - 1], category, j);
    }
  }

  lemma {:induction false} TotalsForAt(counters: Counters, classifiers: seq<string>, j: nat)
    requires j < |classifiers|
    ensures TotalsFor(counters, classifiers)[j] == Total(CounterOf(counters, classifiers[j]))
  {
    if j < |classifiers| - 1 {
      TotalsForAt(counters, classifiers[..|classifiers| - 1], j);
    }
  }

  lemma {:induction false} HundredsAt(n: nat, j: nat)
    requires j < n
    ensures Hundreds(n)[j] == 100.0
  {
    if j < n - 1 {
      HundredsAt(n - 1, j);
    }
  }

  /**
   * Row k of the global table is the k-th label in increasing order; its count
   * for a classifier is the number of that classifier's entries with that label.
   */
  lemma StatisticsCounts(agg: Aggregator, k: nat, j: nat)
    ensures |Statistics(agg).rows| == |Sorting.SortedSet(TagLabels(AllTags(agg)), Sorting.StrLess)| + 1
    ensures var labels := Sorting.SortedSet(TagLabels(AllTags(agg)), Sorting.StrLess);
      var st := Statistics(agg);
      k < |labels| && j < |st.classifiers| ==>
        && st.rows[k].LabelRow? && st.rows[k].category == labels[k]
        && |st.rows[k].counts| == |st.classifiers|
        && st.rows[k].counts[j] == multiset(AllTags(agg))[Tag(st.classifiers[j], labels[k])]
  {
    var tags := AllTags(agg);
    var labels := Sorting.SortedSet(TagLabels(tags), Sorting.StrLess);
    var st := Statistics(agg);
    StatisticsLabels(agg);
    if k < |labels| && j < |st.classifiers| {
      var counters := Tally([], tags);
      LabelRowsAt(counters, st.classifiers, labels, k);
      CountsForAt(counters, st.classifiers, labels[k], j);
      TallyCount([], tags, st.classifiers[j], labels[k]);
    }
  }

  /**
   * The last row is TOTAL: for each classifier, the number of its entries,
   * at 100.0 percent.
   */
  lemma StatisticsTotal(agg: Aggregator, j: nat)
    ensures var st := Statistics(agg);
      && st.rows != [] && st.rows[|st.rows| - 1].TotalRow?
      && |st.rows[|st.rows| - 1].counts| == |st.classifiers| == |st.rows[|st.rows| - 1].pcts|
      && (j < |st.classifiers| ==>
            st.rows[|st.rows| - 1].counts[j] == ClassifierCount(AllTags(agg), st.classifiers[j])
            && st.rows[|st.rows| - 1].pcts[j] == 100.0)
  {
    var st := Statistics(agg);
    if j < |st.classifiers| {
      var counters := Tally([], AllTags(agg));
      TotalsForAt(counters, st.classifiers, j);
      TallyTotal([], AllTags(agg), st.classifiers[j]);
      HundredsAt(|st.classifiers|, j);
    }
  }

  // ---------------------------------------------------------------------
  // generate_per_document_statistics

  /** A row of the per-document table: the document_id column and the row. */
  datatype DocStatRow = DocStatRow(id: string, row: StatRow)

  function DocNames(d: DocSpans): seq<string> {
    Names(d.classifiers)
  }

  /** all_classifiers: the classifiers of every document, distinct and sorted. */
  function AllClassifiers(agg: Aggregator): seq<string> {
    Sorting.SortedSet(Tokenizing.Flat(agg, DocNames), Sorting.StrLess)
  }

  /** all_labels: the labels of every entry, distinct and sorted. */
  function AllDocLabels(agg: Aggregator): seq<string> {
    Sorting.SortedSet(TagLabels(AllTags(agg)), Sorting.StrLess)
  }

  /** {classifier: Counter() for classifier in classifiers}. */
  function FreshCounters(classifiers: seq<string>): (r: Counters)
    ensures |r| == |classifiers|
  {
    if classifiers == [] then []
    else FreshCounters(classifiers[..|classifiers| - 1]) + [ClassifierCounter(classifiers[|classifiers| - 1], [])]
  }

  /** all(counter[label] == 0 for counter in classifier_counters.values()). */
  predicate AllZero(counters: Counters, category: string) {
    forall i :: 0 <= i < |counters| ==> CountOf(counters[i].counter, category) == 0
  }

  /** The percentage column of a per-document TOTAL row. */
  function Pct(total: nat): real {
    if total > 0 then 100.0 else 0.0
  }

  function PctsFor(totals: seq<nat>): (r: seq<real>)
    ensures |r| == |totals|
  {
    if totals == [] then [] else PctsFor(totals[..|totals| - 1]) + [Pct(totals[|totals| - 1])]
  }

  /** The label rows of one document: the labels, in order, that some classifier counted. */
  function DocLabelRows(id: string, counters: Counters, classifiers: seq<string>, labels: seq<string>): seq<DocStatRow> {
    if labels == [] then []
    else
      var l := labels[|labels| - 1];
      DocLabelRows(id, counters, classifiers, labels[..|labels| - 1])
      + (if AllZero(counters, l) then [] else [DocStatRow(id, LabelRow(l, CountsFor(counters, classifiers, l)))])
  }

  /** The TOTAL row of one document. */
  function DocTotal(id: string, counters: Counters, classifiers: seq<string>): DocStatRow {
    var totals := TotalsFor(counters, classifiers);
    DocStatRow(id, TotalRow(totals, PctsFor(totals)))
  }

  /** classifier_counters of one document after its loops. */
  function DocCounters(classifiers: seq<string>, d: DocSpans): Counters {
    Tally(FreshCounters(classifiers), DocTags(d))
  }

  /** The rows one document contributes: its label rows, then its TOTAL row. */
  function DocStats(classifiers: seq<string>, labels: seq<string>, d: DocSpans): seq<DocStatRow> {
    var counters := DocCounters(classifiers, d);
    DocLabelRows(d.id, counters, classifiers, labels) + [DocTotal(d.id, counters, classifiers)]
  }

  /** stats_data: the rows of the documents, in aggregator order. */
  function PerDocRows(agg: Aggregator, classifiers: seq<string>, labels: seq<string>): seq<DocStatRow> {
    if agg == [] then []
    else PerDocRows(agg[..|agg| - 1], classifiers, labels) + DocStats(classifiers, labels, agg[|agg| - 1])
  }

  /** a <= b on str. */
  predicate StrLe(a: string, b: string) {
    !Sorting.StrLess(b, a)
  }

  /** sort_values(['document_id', 'label']). */
  predicate ByDocLabel(a: DocStatRow, b: DocStatRow) {
    Sorting.StrLess(a.id, b.id) || (a.id == b.id && StrLe(RowLabel(a.row), RowLabel(b.row)))
  }

  /**
   * The first part of the sort key: as written, (0 if label == 'TOTAL' else 1)
   * sorts TOTAL first; the corrected rank sorts it last.
   */
  function Rank(r: StatRow, asWritten: bool): nat {
    if asWritten then (if RowLabel(r) == "TOTAL" then 0 else 1)
    else (if RowLabel(r) == "TOTAL" then 1 else 0)
  }

  /** sort_values(['document_id', 'sort_key']). */
  predicate ByDocKey(a: DocStatRow, b: DocStatRow, asWritten: bool) {
    || Sorting.StrLess(a.id, b.id)
    || (a.id == b.id
        && (Rank(a.row, asWritten) < Rank(b.row, asWritten)
            || (Rank(a.row, asWritten) == Rank(b.row, asWritten) && StrLe(RowLabel(a.row), RowLabel(b.row)))))
  }

  predicate ByDocKeyAsWritten(a: DocStatRow, b: DocStatRow) {
    ByDocKey(a, b, true)
  }

  predicate ByDocKeyCorrected(a: DocStatRow, b: DocStatRow) {
    ByDocKey(a, b, false)
  }

  /** The rows of generate_per_document_statistics before sorting. */
  function PerDocUnsorted(agg: Aggregator): seq<DocStatRow> {
    PerDocRows(agg, AllClassifiers(agg), AllDocLabels(agg))
  }

  /** generate_per_document_statistics as written: TOTAL sorts first in each document. */
  function PerDocStatisticsAsWritten(agg: Aggregator): seq<DocStatRow> {
    Sorting.SortBy(Sorting.SortBy(PerDocUnsorted(agg), ByDocLabel), ByDocKeyAsWritten)
  }

  /** generate_per_document_statistics as intended: TOTAL sorts last in each document. */
  function PerDocStatistics(agg: Aggregator): seq<DocStatRow> {
    Sorting.SortBy(Sorting.SortBy(PerDocUnsorted(agg), ByDocLabel), ByDocKeyCorrected)
  }

  /**
   * generate_per_document_statistics, as written: the two sorts leave each
   * document's TOTAL row before its label rows (PerDocOrderAsWritten).
   */
  method GeneratePerDocumentStatistics(agg: Aggregator) returns (table: seq<DocStatRow>)
    ensures table == PerDocStatisticsAsWritten(agg)
  {
    var classifiers := GatherClassifiers(agg);
    var labels := GatherLabels(agg);
    var rows: seq<DocStatRow> := [];
    for i := 0 to |agg|
      invariant rows == PerDocRows(agg[..i], classifiers, labels)
    {
      var docRows := DocumentStatistics(classifiers, labels, agg[i]);
      rows := rows + docRows;
      assert agg[..i + 1][..i] == agg[..i];
    }
    assert agg[..|agg|] == agg;
    table := Sorting.SortBy(Sorting.SortBy(rows, ByDocLabel), ByDocKeyAsWritten);
  }

  /** The loop that gathers all_classifiers. */
  method GatherClassifiers(agg: Aggregator) returns (classifiers: seq<string>)
    ensures classifiers == AllClassifiers(agg)
  {
    var seen: seq<string> := [];
    for i := 0 to |agg|
      invariant seen == Tokenizing.Flat(agg[..i], DocNames)
    {
      seen := seen + Names(agg[i].classifiers);
      Tokenizing.FlatSnoc(agg, i, DocNames);
    }
    assert agg[..|agg|] == agg;
    classifiers := Sorting.SortedSet(seen, Sorting.StrLess);
  }

  lemma {:induction false} TagLabelsAppend(a: seq<Tag>, b: seq<Tag>)
    ensures TagLabels(a + b) == TagLabels(a) + TagLabels(b)
  {
  }

  /** The loops that gather all_labels. */
  method GatherLabels(agg: Aggregator) returns (labels: seq<string>)
    ensures labels == AllDocLabels(agg)
  {
    var seen: seq<string> := [];
    for i := 0 to |agg|
      invariant seen == TagLabels(Tokenizing.Flat(agg[..i], DocTags))
    {
      var own := DocLabels(agg[i]);
      seen := seen + own;
      Tokenizing.FlatSnoc(agg, i, DocTags);
      TagLabelsAppend(Tokenizing.Flat(agg[..i], DocTags), DocTags(agg[i]));
    }
    assert agg[..|agg|] == agg;
    labels := Sorting.SortedSet(seen, Sorting.StrLess);
  }

  /** The labels of one document's entries, in visiting order. */
  method DocLabels(d: DocSpans) returns (labels: seq<string>)
    ensures labels == TagLabels(DocTags(d))
  {
    labels := [];
    for i := 0 to |d.classifiers|
      invariant labels == TagLabels(Tokenizing.Flat(d.classifiers[..i], ClassifierTags))
    {
      var own := SpanLabels(d.classifiers[i].classifier, d.classifiers[i].spans);
      labels := labels + own;
      Tokenizing.FlatSnoc(d.classifiers, i, ClassifierTags);
      TagLabelsAppend(Tokenizing.Flat(d.classifiers[..i], ClassifierTags), ClassifierTags(d.classifiers[i]));
    }
    assert d.classifiers[..|d.classifiers|] == d.classifiers;
  }

  /** The labels of one classifier's entries, in order. */
  method SpanLabels(classifier: string, spans: seq<Span>) returns (labels: seq<string>)
    ensures labels == TagLabels(SpanTags(classifier, spans))
  {
    labels := [];
    for k := 0 to |spans|
      invariant labels == TagLabels(SpanTags(classifier, spans[..k]))
    {
      labels := labels + [spans[k].category];
      assert spans[..k + 1][..k] == spans[..k];
      TagLabelsAppend(SpanTags(classifier, spans[..k]), [Tag(classifier, spans[k].category)]);
    }
    assert spans[..|spans|] == spans;
  }

  /** The rows of one document. */
  method DocumentStatistics(classifiers: seq<string>, labels: seq<string>, d: DocSpans) returns (rows: seq<DocStatRow>)
    ensures rows == DocStats(classifiers, labels, d)
  {
    var counters: Counters := [];
    for j := 0 to |classifiers|
      invariant counters == FreshCounters(classifiers[..j])
    {
      counters := counters + [ClassifierCounter(classifiers[j], [])];
      assert classifiers[..j + 1][..j] == classifiers[..j];
    }
    assert classifiers[..|classifiers|] == classifiers;
    counters := CountDoc(counters, d);
    rows := [];
    for k := 0 to |labels|
      invariant rows == DocLabelRows(d.id, counters, classifiers, labels[..k])
    {
      var zero := AllZeroIn(counters, labels[k]);
      if !zero {
        var counts := LabelCounts(counters, classifiers, labels[k]);
        rows := rows + [DocStatRow(d.id, LabelRow(labels[k], counts))];
      }
      assert labels[..k + 1][..k] == labels[..k];
    }
    assert labels[..|labels|] == labels;
    var totals := ClassifierTotals(counters, classifiers);
    var pcts: seq<real> := [];
    for j := 0 to |totals|
      invariant pcts == PctsFor(totals[..j])
    {
      pcts := pcts + [if totals[j] > 0 then 100.0 else 0.0];
      assert totals[..j + 1][..j] == totals[..j];
    }
    assert totals[..|totals|] == totals;
    rows := rows + [DocStatRow(d.id, TotalRow(totals, pcts))];
  }

  /** The all(...) test over the Counters of a document. */
  method AllZeroIn(counters: Counters, category: string) returns (zero: bool)
    ensures zero == AllZero(counters, category)
  {
    zero := true;
    var i := 0;
    while i < |counters|
      invariant 0 <= i <= |counters|
      invariant forall k :: 0 <= k < i ==> CountOf(counters[k].counter, category) == 0
    {
      if CountOf(counters[i].counter, category) != 0 {
        zero := false;
        return;
      }
      i := i + 1;
    }
  }

  // ---------------------------------------------------------------------
  // Properties of the per-document table

  lemma {:induction false} SortedDistinct(s: seq<string>)
    requires Sorting.StrictlySorted(s, Sorting.StrLess)
    ensures Distinct(s)
  {
    forall i, j | 0 <= i < j < |s| ensures s[i] != s[j] {
      Sorting.StrLessIrreflexive(s[i]);
    }
  }

  lemma {:induction false} FreshAt(classifiers: seq<string>, i: nat)
    requires i < |classifiers|
    ensures FreshCounters(classifiers)[i] == ClassifierCounter(classifiers[i], [])
  {
    if i < |classifiers| - 1 {
      FreshAt(classifiers[..|classifiers| - 1], i);
    }
  }

  lemma {:induction false} EmptyCounterOf(counters: Counters, classifier: string)
    requires forall i :: 0 <= i < |counters| ==> counters[i].counter == []
    ensures CounterOf(counters, classifier) == []
  {
    if counters != [] && counters[0].classifier != classifier {
      assert forall i :: 0 <= i < |counters[1..]| ==> counters[1..][i] == counters[i + 1];
      EmptyCounterOf(counters[1..], classifier);
    }
  }

  /** The initial Counters have the classifiers as keys, in order, and count nothing. */
  lemma FreshCountersFacts(classifiers: seq<string>, classifier: string)
    ensures ClassifiersOf(FreshCounters(classifiers)) == classifiers
    ensures CounterOf(FreshCounters(classifiers), classifier) == []
  {
    var initial := FreshCounters(classifiers);
    forall i | 0 <= i < |classifiers| ensures initial[i] == ClassifierCounter(classifiers[i], []) {
      FreshAt(classifiers, i);
    }
    forall i | 0 <= i < |classifiers| ensures ClassifiersOf(initial)[i] == classifiers[i] {
      ClassifiersAt(initial, i);
    }
    EmptyCounterOf(initial, classifier);
  }

  lemma {:induction false} PctsForAt(totals: seq<nat>, j: nat)
    requires j < |totals|
    ensures PctsFor(totals)[j] == Pct(totals[j])
  {
    if j < |totals| - 1 {
      PctsForAt(totals[..|totals| - 1], j);
    }
  }

  /** A classifier's count of a label in one document: its entries in that document with that label. */
  lemma DocCountAt(classifiers: seq<string>, d: DocSpans, category: string, j: nat)
    requires j < |classifiers|
    ensures CountsFor(DocCounters(classifiers, d), classifiers, category)[j]
         == multiset(DocTags(d))[Tag(classifiers[j], category)]
  {
    CountsForAt(DocCounters(classifiers, d), classifiers, category, j);
    TallyCount(FreshCounters(classifiers), DocTags(d), classifiers[j], category);
    FreshCountersFacts(classifiers, classifiers[j]);
  }

  /** A classifier's total in one document: the number of its entries in that document. */
  lemma DocTotalAt(classifiers: seq<string>, d: DocSpans, j: nat)
    requires j < |classifiers|
    ensures TotalsFor(DocCounters(classifiers, d), classifiers)[j] == ClassifierCount(DocTags(d), classifiers[j])
  {
    TotalsForAt(DocCounters(classifiers, d), classifiers, j);
    TallyTotal(FreshCounters(classifiers), DocTags(d), classifiers[j]);
    FreshCountersFacts(classifiers, classifiers[j]);
  }

  /**
   * When every entry's classifier is among the (distinct) classifiers, every
   * Counter misses a label exactly when no entry carries it.
   */
  lemma AllZeroIff(classifiers: seq<string>, tags: seq<Tag>, category: string)
    requires Distinct(classifiers)
    requires forall k :: 0 <= k < |tags| ==> tags[k].classifier in classifiers
    ensures AllZero(Tally(FreshCounters(classifiers), tags), category) <==> category !in TagLabels(tags)
  {
    var initial := FreshCounters(classifiers);
    var counters := Tally(initial, tags);
    FreshCountersFacts(classifiers, "");
    TallyClassifiers(initial, tags);
    FirstSeenCovered(classifiers, TagClassifiers(tags));
    assert ClassifiersOf(counters) == classifiers;
    if category in TagLabels(tags) {
      var k :| 0 <= k < |tags| && tags[k].category == category;
      var c := tags[k].classifier;
      var i :| 0 <= i < |classifiers| && classifiers[i] == c;
      ClassifiersAt(counters, i);
      CounterOfAt(counters, i);
      TallyCount(initial, tags, c, category);
      FreshCountersFacts(classifiers, c);
      assert tags[k] == Tag(c, category);
      assert Tag(c, category) in multiset(tags);
    } else {
      forall i | 0 <= i < |counters| ensures CountOf(counters[i].counter, category) == 0 {
        var c := classifiers[i];
        ClassifiersAt(counters, i);
        CounterOfAt(counters, i);
        TallyCount(initial, tags, c, category);
        FreshCountersFacts(classifiers, c);
        if Tag(c, category) in tags {
          TagClassifierIn(tags, Tag(c, category));
        }
      }
    }
  }

  /** A document's label row for a label: the row of that document with that label. */
  predicate HasLabelRow(rows: seq<DocStatRow>, id: string, category: string) {
    exists k :: 0 <= k < |rows| && rows[k].id == id && rows[k].row.LabelRow? && rows[k].row.category == category
  }

  /** r is the label row of document id for one of the labels, with that label's counts. */
  predicate LabelRowOf(r: DocStatRow, id: string, counters: Counters, classifiers: seq<string>, labels: seq<string>) {
    && r.id == id && r.row.LabelRow? && r.row.category in labels
    && r.row.counts == CountsFor(counters, classifiers, r.row.category)
  }

  /** Each label row of a document stands for one of the labels, with that label's counts. */
  lemma {:induction false} DocLabelRowsShape(id: string, counters: Counters, classifiers: seq<string>, labels: seq<string>)
    ensures forall k :: 0 <= k < |DocLabelRows(id, counters, classifiers, labels)| ==>
      LabelRowOf(DocLabelRows(id, counters, classifiers, labels)[k], id, counters, classifiers, labels)
  {
    if labels != [] {
      var init := labels[..|labels| - 1];
      DocLabelRowsShape(id, counters, classifiers, init);
      var before := DocLabelRows(id, counters, classifiers, init);
      var rows := DocLabelRows(id, counters, classifiers, labels);
      var l := labels[|labels| - 1];
      assert rows == before + (if AllZero(counters, l) then [] else [DocStatRow(id, LabelRow(l, CountsFor(counters, classifiers, l)))]);
      forall k | 0 <= k < |rows| ensures LabelRowOf(rows[k], id, counters, classifiers, labels) {
        if k < |before| {
          assert rows[k] == before[k];
          assert LabelRowOf(before[k], id, counters, classifiers, init);
        }
      }
    }
  }

  /** A document has a label row for exactly the labels that some Counter counted. */
  lemma {:induction false} DocLabelRowsIff(id: string, counters: Counters, classifiers: seq<string>, labels: seq<string>, category: string)
    ensures HasLabelRow(DocLabelRows(id, counters, classifiers, labels), id, category)
        <==> category in labels && !AllZero(counters, category)
  {
    if labels != [] {
      var init, l := labels[..|labels| - 1], labels[|labels| - 1];
      DocLabelRowsIff(id, counters, classifiers, init, category);
      var before := DocLabelRows(id, counters, classifiers, init);
      var rows := DocLabelRows(id, counters, classifiers, labels);
      assert rows[..|before|] == before;
      if HasLabelRow(rows, id, category) {
        var k :| 0 <= k < |rows| && rows[k].id == id && rows[k].row.LabelRow? && rows[k].row.category == category;
        if k < |before| {
          assert before[k] == rows[k];
        }
      }
      if category in init && !AllZero(counters, category) {
        var k :| 0 <= k < |before| && before[k].id == id && before[k].row.LabelRow? && before[k].row.category == category;
        assert rows[k] == before[k];
      }
      if category == l && !AllZero(counters, category) {
        assert rows[|before|].row.category == category;
      }
    }
  }

  /** Appending a row that is not a label row adds no label row. */
  lemma HasLabelRowSnoc(rows: seq<DocStatRow>, x: DocStatRow, id: string, category: string)
    requires !x.row.LabelRow?
    ensures HasLabelRow(rows + [x], id, category) <==> HasLabelRow(rows, id, category)
  {
    if HasLabelRow(rows + [x], id, category) {
      var k :| 0 <= k < |rows| + 1 && (rows + [x])[k].id == id && (rows + [x])[k].row.LabelRow?
        && (rows + [x])[k].row.category == category;
      assert rows[k] == (rows + [x])[k];
    }
    if HasLabelRow(rows, id, category) {
      var k :| 0 <= k < |rows| && rows[k].id == id && rows[k].row.LabelRow? && rows[k].row.category == category;
      assert (rows + [x])[k] == rows[k];
    }
  }

  /** The rows of some document of the aggregator contain r. */
  predicate InSomeDoc(agg: Aggregator, classifiers: seq<string>, labels: seq<string>, r: DocStatRow) {
    exists i :: 0 <= i < |agg| && r in DocStats(classifiers, labels, agg[i])
  }

  /** The rows of the documents are those of each document, all together. */
  lemma {:induction false} PerDocRowsMember(agg: Aggregator, classifiers: seq<string>, labels: seq<string>, r: DocStatRow)
    ensures r in PerDocRows(agg, classifiers, labels) <==> InSomeDoc(agg, classifiers, labels, r)
  {
    if agg != [] {
      var init, d := agg[..|agg| - 1], agg[|agg| - 1];
      PerDocRowsMember(init, classifiers, labels, r);
      assert PerDocRows(agg, classifiers, labels) == PerDocRows(init, classifiers, labels) + DocStats(classifiers, labels, d);
      if InSomeDoc(init, classifiers, labels, r) {
        var i :| 0 <= i < |init| && r in DocStats(classifiers, labels, init[i]);
        assert agg[i] == init[i];
      }
      if r in DocStats(classifiers, labels, d) {
        assert agg[|agg| - 1] == d;
      }
      if InSomeDoc(agg, classifiers, labels, r) {
        var i :| 0 <= i < |agg| && r in DocStats(classifiers, labels, agg[i]);
        if i < |init| {
          assert init[i] == agg[i];
          assert InSomeDoc(init, classifiers, labels, r);
        }
      }
    }
  }

  /** The sorted table holds the unsorted rows, each as often. */
  lemma PerDocPermutes(agg: Aggregator)
    ensures multiset(PerDocStatistics(agg)) == multiset(PerDocUnsorted(agg))
    ensures multiset(PerDocStatisticsAsWritten(agg)) == multiset(PerDocUnsorted(agg))
  {
    var once := Sorting.SortBy(PerDocUnsorted(agg), ByDocLabel);
    Sorting.SortByPermutes(PerDocUnsorted(agg), ByDocLabel);
    Sorting.SortByPermutes(once, ByDocKeyCorrected);
    Sorting.SortByPermutes(once, ByDocKeyAsWritten);
  }

  /** Every classifier of a document's entries is among all_classifiers. */
  lemma DocClassifiersCovered(agg: Aggregator, i: nat)
    requires i < |agg|
    ensures forall k :: 0 <= k < |DocTags(agg[i])| ==> DocTags(agg[i])[k].classifier in AllClassifiers(agg)
  {
    var tags := DocTags(agg[i]);
    Sorting.StrLessOrder();
    Sorting.SortedSetFacts(Tokenizing.Flat(agg, DocNames), Sorting.StrLess);
    forall k | 0 <= k < |tags| ensures tags[k].classifier in AllClassifiers(agg) {
      var t := tags[k];
      Tokenizing.FlatMember(agg[i].classifiers, ClassifierTags, t);
      var m :| 0 <= m < |agg[i].classifiers| && t in ClassifierTags(agg[i].classifiers[m]);
      SpanTagsClassifier(agg[i].classifiers[m].classifier, agg[i].classifiers[m].spans, t);
      NamesAt(agg[i].classifiers, m);
      Tokenizing.FlatMember(agg, DocNames, t.classifier);
    }
  }

  lemma {:induction false} SpanTagsClassifier(classifier: string, spans: seq<Span>, t: Tag)
    requires t in SpanTags(classifier, spans)
    ensures t.classifier == classifier
  {
    var init := spans[..|spans| - 1];
    if t in SpanTags(classifier, init) {
      SpanTagsClassifier(classifier, init, t);
    }
  }

  /** Every label of a document's entries is among all_labels. */
  lemma DocLabelsCovered(agg: Aggregator, i: nat, category: string)
    requires i < |agg|
    ensures category in TagLabels(DocTags(agg[i])) ==> category in AllDocLabels(agg)
  {
    if category in TagLabels(DocTags(agg[i])) {
      var tags := DocTags(agg[i]);
      var k :| 0 <= k < |tags| && tags[k].category == category;
      Tokenizing.FlatMember(agg, DocTags, tags[k]);
      var n :| 0 <= n < |AllTags(agg)| && AllTags(agg)[n] == tags[k];
      assert TagLabels(AllTags(agg))[n] == category;
      Sorting.StrLessOrder();
      Sorting.SortedSetFacts(TagLabels(AllTags(agg)), Sorting.StrLess);
    }
  }

  /** In one document, no Counter counts a label exactly when none of the document's entries carries it. */
  lemma DocZeroIff(agg: Aggregator, i: nat, category: string)
    requires i < |agg|
    ensures AllZero(DocCounters(AllClassifiers(agg), agg[i]), category) <==> category !in TagLabels(DocTags(agg[i]))
  {
    Sorting.StrLessOrder();
    Sorting.SortedSetFacts(Tokenizing.Flat(agg, DocNames), Sorting.StrLess);
    SortedDistinct(AllClassifiers(agg));
    DocClassifiersCovered(agg, i);
    AllZeroIff(AllClassifiers(agg), DocTags(agg[i]), category);
  }

  /**
   * A document has a row for a label exactly when one of its classifiers
   * annotated an entry with that label.
   */
  lemma DocStatsLabelRow(agg: Aggregator, i: nat, category: string)
    requires i < |agg|
    ensures HasLabelRow(DocStats(AllClassifiers(agg), AllDocLabels(agg), agg[i]), agg[i].id, category)
        <==> category in TagLabels(DocTags(agg[i]))
  {
    var cl, labels, d := AllClassifiers(agg), AllDocLabels(agg), agg[i];
    var counters := DocCounters(cl, d);
    DocLabelRowsIff(d.id, counters, cl, labels, category);
    HasLabelRowSnoc(DocLabelRows(d.id, counters, cl, labels), DocTotal(d.id, counters, cl), d.id, category);
    DocZeroIff(agg, i, category);
    DocLabelsCovered(agg, i, category);
  }

  /** A row of one document: its label rows and its TOTAL row, all under its id. */
  lemma DocStatsMember(classifiers: seq<string>, labels: seq<string>, d: DocSpans, r: DocStatRow)
    requires r in DocStats(classifiers, labels, d)
    ensures r.id == d.id
    ensures r.row.LabelRow? ==> LabelRowOf(r, d.id, DocCounters(classifiers, d), classifiers, labels)
    ensures r.row.TotalRow? ==> r == DocTotal(d.id, DocCounters(classifiers, d), classifiers)
  {
    var counters := DocCounters(classifiers, d);
    var rows := DocLabelRows(d.id, counters, classifiers, labels);
    DocLabelRowsShape(d.id, counters, classifiers, labels);
    if r in rows {
      var k :| 0 <= k < |rows| && rows[k] == r;
    }
  }

  /** The TOTAL row of a document counts each classifier's entries, at 100.0 percent or 0.0 when there are none. */
  lemma DocTotalMeaning(classifiers: seq<string>, d: DocSpans, j: nat)
    requires j < |classifiers|
    ensures var total := DocTotal(d.id, DocCounters(classifiers, d), classifiers);
      && |total.row.counts| == |classifiers| == |total.row.pcts|
      && total.row.counts[j] == ClassifierCount(DocTags(d), classifiers[j])
      && total.row.pcts[j] == if total.row.counts[j] > 0 then 100.0 else 0.0
  {
    var totals := TotalsFor(DocCounters(classifiers, d), classifiers);
    DocTotalAt(classifiers, d, j);
    PctsForAt(totals, j);
  }

  /**
   * A row is in the table exactly when it is a row of one of the documents;
   * the corrected order holds the same rows.
   */
  lemma PerDocTableMember(agg: Aggregator, r: DocStatRow)
    ensures r in PerDocStatisticsAsWritten(agg) <==> InSomeDoc(agg, AllClassifiers(agg), AllDocLabels(agg), r)
    ensures r in PerDocStatistics(agg) <==> InSomeDoc(agg, AllClassifiers(agg), AllDocLabels(agg), r)
  {
    PerDocPermutes(agg);
    assert r in PerDocStatisticsAsWritten(agg) <==> r in multiset(PerDocUnsorted(agg));
    assert r in PerDocStatistics(agg) <==> r in multiset(PerDocUnsorted(agg));
    PerDocRowsMember(agg, AllClassifiers(agg), AllDocLabels(agg), r);
  }

  /**
   * The table has a row for a document and a label exactly when a classifier
   * annotated an entry of that document with that label.
   */
  lemma PerDocLabelRows(agg: Aggregator, id: string, category: string)
    ensures (exists r :: r in PerDocStatisticsAsWritten(agg) && r.id == id && r.row.LabelRow? && r.row.category == category)
        <==> (exists i :: 0 <= i < |agg| && agg[i].id == id && category in TagLabels(DocTags(agg[i])))
  {
    var cl, labels := AllClassifiers(agg), AllDocLabels(agg);
    if exists r :: r in PerDocStatisticsAsWritten(agg) && r.id == id && r.row.LabelRow? && r.row.category == category {
      var r :| r in PerDocStatisticsAsWritten(agg) && r.id == id && r.row.LabelRow? && r.row.category == category;
      PerDocTableMember(agg, r);
      var i :| 0 <= i < |agg| && r in DocStats(cl, labels, agg[i]);
      DocStatsMember(cl, labels, agg[i], r);
      var rows := DocStats(cl, labels, agg[i]);
      var k :| 0 <= k < |rows| && rows[k] == r;
      assert HasLabelRow(rows, agg[i].id, category);
      DocStatsLabelRow(agg, i, category);
    }
    if exists i :: 0 <= i < |agg| && agg[i].id == id && category in TagLabels(DocTags(agg[i])) {
      var i :| 0 <= i < |agg| && agg[i].id == id && category in TagLabels(DocTags(agg[i]));
      DocStatsLabelRow(agg, i, category);
      var rows := DocStats(cl, labels, agg[i]);
      var k :| 0 <= k < |rows| && rows[k].id == id && rows[k].row.LabelRow? && rows[k].row.category == category;
      PerDocTableMember(agg, rows[k]);
    }
  }

  /**
   * Each label row of the table counts, for each classifier, the entries of
   * its document with its label.
   */
  lemma PerDocLabelCounts(agg: Aggregator, r: DocStatRow, j: nat)
    requires r in PerDocStatisticsAsWritten(agg) && r.row.LabelRow?
    ensures |r.row.counts| == |AllClassifiers(agg)|
    ensures exists i :: (0 <= i < |agg| && agg[i].id == r.id
      && (j < |AllClassifiers(agg)| ==>
            r.row.counts[j] == multiset(DocTags(agg[i]))[Tag(AllClassifiers(agg)[j], r.row.category)]))
  {
    var cl, labels := AllClassifiers(agg), AllDocLabels(agg);
    PerDocTableMember(agg, r);
    var i :| 0 <= i < |agg| && r in DocStats(cl, labels, agg[i]);
    DocStatsMember(cl, labels, agg[i], r);
    if j < |cl| {
      DocCountAt(cl, agg[i], r.row.category, j);
    }
  }

  /** Every document gets its TOTAL row. */
  lemma PerDocTotalRow(agg: Aggregator, i: nat)
    requires i < |agg|
    ensures DocTotal(agg[i].id, DocCounters(AllClassifiers(agg), agg[i]), AllClassifiers(agg)) in PerDocStatisticsAsWritten(agg)
  {
    var cl, labels := AllClassifiers(agg), AllDocLabels(agg);
    var total := DocTotal(agg[i].id, DocCounters(cl, agg[i]), cl);
    assert total in DocStats(cl, labels, agg[i]);
    PerDocTableMember(agg, total);
  }

  /** Every TOTAL row of the table is the TOTAL row of a document. */
  lemma PerDocTotalRows(agg: Aggregator, r: DocStatRow)
    requires r in PerDocStatisticsAsWritten(agg) && r.row.TotalRow?
    ensures exists i :: 0 <= i < |agg| && r == DocTotal(agg[i].id, DocCounters(AllClassifiers(agg), agg[i]), AllClassifiers(agg))
  {
    var cl, labels := AllClassifiers(agg), AllDocLabels(agg);
    PerDocTableMember(agg, r);
    var i :| 0 <= i < |agg| && r in DocStats(cl, labels, agg[i]);
    DocStatsMember(cl, labels, agg[i], r);
  }

  // ---------------------------------------------------------------------
  // The order of the per-document table

  lemma ByDocLabelOrder()
    ensures Sorting.TotalPreorder(ByDocLabel)
  {
    Sorting.StrLessOrder();
  }

  lemma StrLeTotal(x: string, y: string)
    ensures StrLe(x, y) || StrLe(y, x)
  {
    if Sorting.StrLess(x, y) && Sorting.StrLess(y, x) {
      Sorting.StrLessTransitive(x, y, x);
      Sorting.StrLessIrreflexive(x);
    }
  }

  lemma StrLeTransitive(x: string, y: string, z: string)
    requires StrLe(x, y) && StrLe(y, z)
    ensures StrLe(x, z)
  {
    if Sorting.StrLess(z, x) && x != y {
      Sorting.StrLessTotal(x, y);
      Sorting.StrLessTransitive(z, x, y);
    }
  }

  lemma ByDocKeyTotal(a: DocStatRow, b: DocStatRow, asWritten: bool)
    ensures ByDocKey(a, b, asWritten) || ByDocKey(b, a, asWritten)
  {
    if a.id != b.id {
      Sorting.StrLessTotal(a.id, b.id);
    } else {
      StrLeTotal(RowLabel(a.row), RowLabel(b.row));
    }
  }

  lemma ByDocKeyTransitive(a: DocStatRow, b: DocStatRow, c: DocStatRow, asWritten: bool)
    requires ByDocKey(a, b, asWritten) && ByDocKey(b, c, asWritten)
    ensures ByDocKey(a, c, asWritten)
  {
    if Sorting.StrLess(a.id, b.id) && Sorting.StrLess(b.id, c.id) {
      Sorting.StrLessTransitive(a.id, b.id, c.id);
    } else if a.id == b.id == c.id {
      var ra, rb, rc := Rank(a.row, asWritten), Rank(b.row, asWritten), Rank(c.row, asWritten);
      if ra == rb == rc {
        StrLeTransitive(RowLabel(a.row), RowLabel(b.row), RowLabel(c.row));
      }
    }
  }

  lemma ByDocKeyOrder()
    ensures Sorting.TotalPreorder(ByDocKeyAsWritten)
    ensures Sorting.TotalPreorder(ByDocKeyCorrected)
  {
    forall a, b ensures ByDocKeyAsWritten(a, b) || ByDocKeyAsWritten(b, a) {
      ByDocKeyTotal(a, b, true);
    }
    forall a, b ensures ByDocKeyCorrected(a, b) || ByDocKeyCorrected(b, a) {
      ByDocKeyTotal(a, b, false);
    }
    forall a, b, c | ByDocKeyAsWritten(a, b) && ByDocKeyAsWritten(b, c) ensures ByDocKeyAsWritten(a, c) {
      ByDocKeyTransitive(a, b, c, true);
    }
    forall a, b, c | ByDocKeyCorrected(a, b) && ByDocKeyCorrected(b, c) ensures ByDocKeyCorrected(a, c) {
      ByDocKeyTransitive(a, b, c, false);
    }
  }

  /** Document ids never decrease down the table. */
  predicate IdsAscending(t: seq<DocStatRow>) {
    forall i, j :: 0 <= i < j < |t| ==> !Sorting.StrLess(t[j].id, t[i].id)
  }

  /** Within a document, the label rows are in increasing label order. */
  predicate LabelsAscending(t: seq<DocStatRow>) {
    forall i, j :: 0 <= i < j < |t| && t[i].id == t[j].id && RowLabel(t[i].row) != "TOTAL" && RowLabel(t[j].row) != "TOTAL"
      ==> StrLe(RowLabel(t[i].row), RowLabel(t[j].row))
  }

  /** Within a document, nothing follows a TOTAL row but TOTAL. */
  predicate TotalsLast(t: seq<DocStatRow>) {
    forall i, j :: 0 <= i < j < |t| && t[i].id == t[j].id && RowLabel(t[i].row) == "TOTAL" ==> RowLabel(t[j].row) == "TOTAL"
  }

  /** Within a document, nothing precedes a TOTAL row but TOTAL. */
  predicate TotalsFirst(t: seq<DocStatRow>) {
    forall i, j :: 0 <= i < j < |t| && t[i].id == t[j].id && RowLabel(t[j].row) == "TOTAL" ==> RowLabel(t[i].row) == "TOTAL"
  }

  /**
   * The table is ordered by document, then by label, with each document's
   * TOTAL row after its label rows; it holds exactly the rows of the documents.
   */
  lemma PerDocOrder(agg: Aggregator)
    ensures IdsAscending(PerDocStatistics(agg))
    ensures LabelsAscending(PerDocStatistics(agg))
    ensures TotalsLast(PerDocStatistics(agg))
    ensures multiset(PerDocStatistics(agg)) == multiset(PerDocUnsorted(agg))
  {
    var t := PerDocStatistics(agg);
    ByDocKeyOrder();
    Sorting.SortBySorted(Sorting.SortBy(PerDocUnsorted(agg), ByDocLabel), ByDocKeyCorrected);
    PerDocPermutes(agg);
    forall i, j | 0 <= i < j < |t| ensures !Sorting.StrLess(t[j].id, t[i].id) {
      assert ByDocKeyCorrected(t[i], t[j]);
      IdsInOrder(t[i], t[j], false);
    }
  }

  /**
   * As written, the table is ordered by document, then by label, with each
   * document's TOTAL row before its label rows.
   */
  lemma PerDocOrderAsWritten(agg: Aggregator)
    ensures IdsAscending(PerDocStatisticsAsWritten(agg))
    ensures LabelsAscending(PerDocStatisticsAsWritten(agg))
    ensures TotalsFirst(PerDocStatisticsAsWritten(agg))
    ensures multiset(PerDocStatisticsAsWritten(agg)) == multiset(PerDocUnsorted(agg))
  {
    var t := PerDocStatisticsAsWritten(agg);
    ByDocKeyOrder();
    Sorting.SortBySorted(Sorting.SortBy(PerDocUnsorted(agg), ByDocLabel), ByDocKeyAsWritten);
    PerDocPermutes(agg);
    forall i, j | 0 <= i < j < |t| ensures !Sorting.StrLess(t[j].id, t[i].id) {
      assert ByDocKeyAsWritten(t[i], t[j]);
      IdsInOrder(t[i], t[j], true);
    }
  }

  lemma IdsInOrder(a: DocStatRow, b: DocStatRow, asWritten: bool)
    requires ByDocKey(a, b, asWritten)
    ensures !Sorting.StrLess(b.id, a.id)
  {
    Sorting.StrLessIrreflexive(a.id);
    if Sorting.StrLess(b.id, a.id) && Sorting.StrLess(a.id, b.id) {
      Sorting.StrLessTransitive(a.id, b.id, a.id);
    }
  }

  // ---------------------------------------------------------------------
  // The order of the TOTAL rows, on one document

  /** One document "d" whose classifier "c" marked one entry "PER". */
  function OneEntry(): Aggregator {
    [DocSpans("d", [ClassifierSpans("c", [Span(0, 1, "PER")])])]
  }

  /** The two rows of OneEntry: its "PER" row and its TOTAL row, each counting 1. */
  lemma OneEntryRows()
    ensures PerDocUnsorted(OneEntry())
         == [DocStatRow("d", LabelRow("PER", [1])), DocStatRow("d", TotalRow([1], [100.0]))]
  {
    var agg := OneEntry();
    var d := agg[0];
    var tag := Tag("c", "PER");
    Tokenizing.FlatOne(d.classifiers[0], ClassifierTags);
    assert SpanTags("c", [Span(0, 1, "PER")]) == [tag];
    assert DocTags(d) == [tag];
    Tokenizing.FlatOne(d, DocTags);
    Tokenizing.FlatOne(d, DocNames);
    assert Names(d.classifiers) == ["c"];
    assert AllClassifiers(agg) == ["c"];
    assert TagLabels([tag]) == ["PER"];
    assert AllDocLabels(agg) == ["PER"];
    assert FreshCounters(["c"]) == [ClassifierCounter("c", [])];
    var counters := [ClassifierCounter("c", [LabelCount("PER", 1)])];
    assert DocCounters(["c"], d) == BumpIn([ClassifierCounter("c", [])], tag) == counters;
    assert CountOf(counters[0].counter, "PER") == 1;
    assert CountsFor(counters, ["c"], "PER") == [1];
    assert TotalsFor(counters, ["c"]) == [1];
    assert PctsFor([1]) == [100.0];
    assert ["PER"][..0] == [];
    assert DocLabelRows("d", counters, ["c"], ["PER"]) == [DocStatRow("d", LabelRow("PER", [1]))];
    assert agg[..0] == [];
  }

  /**
   * On OneEntry the code as written puts the TOTAL row first; the corrected
   * key puts it last, as the code's comment says it should.
   */
  lemma TotalFirstExample()
    ensures PerDocStatisticsAsWritten(OneEntry())
         == [DocStatRow("d", TotalRow([1], [100.0])), DocStatRow("d", LabelRow("PER", [1]))]
    ensures PerDocStatistics(OneEntry())
         == [DocStatRow("d", LabelRow("PER", [1])), DocStatRow("d", TotalRow([1], [100.0]))]
  {
    var per, total := DocStatRow("d", LabelRow("PER", [1])), DocStatRow("d", TotalRow([1], [100.0]));
    OneEntryRows();
    Sorting.StrLessIrreflexive("d");
    assert !Sorting.StrLess("TOTAL", "PER");
    assert ByDocLabel(per, total);
    assert !ByDocKeyAsWritten(per, total);
    assert ByDocKeyAsWritten(total, per);
    assert ByDocKeyCorrected(per, total);
    SortByPair(per, total, ByDocLabel);
    SortByPair(per, total, ByDocKeyAsWritten);
    SortByPair(per, total, ByDocKeyCorrected);
  }

  lemma SortByPair<T>(x: T, y: T, le: (T, T) -> bool)
    ensures Sorting.SortBy([x, y], le) == if le(x, y) then [x, y] else [y, x]
  {
    assert [x, y][..1] == [x];
    assert [x][..0] == [];
    assert Sorting.SortBy([x], le) == [x];
    assert Sorting.SortBy([x, y], le) == Sorting.Insert(y, [x], le);
    assert [x][1..] == [];
    assert Sorting.Insert(y, [], le) == [y];
  }
}
