/**
 * The whitespace tokenizer segment_to_words, the same in both layout
 * engines: each segment is split with re.split(r'(\s+)', text), which keeps
 * the whitespace runs it splits on, every token whose strip() is empty is
 * dropped, and each kept token is paired with its segment's colour.
 */
module Tokenizing {
  import opened Texty

  /** No character of t is whitespace. */
  predicate NoSpace(t: string) {
    forall i :: 0 <= i < |t| ==> !IsSpace(t[i])
  }

  /** Every character of t is whitespace: t.strip() == "" (also for the empty token). */
  predicate Blank(t: string) {
    forall i :: 0 <= i < |t| ==> IsSpace(t[i])
  }

  /** A text cut at its first whitespace run: text == word + gap + rest. */
  datatype Cut = Cut(word: string, gap: string, rest: string)

  lemma NoSpaceCons(ch: char, t: string)
    requires !IsSpace(ch) && NoSpace(t)
    ensures NoSpace([ch] + t)
  {
    forall i | 0 <= i < |[ch] + t| ensures !IsSpace(([ch] + t)[i]) {
      if i > 0 {
        assert ([ch] + t)[i] == t[i - 1];
      }
    }
  }

  lemma BlankCons(ch: char, t: string)
    requires IsSpace(ch) && Blank(t)
    ensures Blank([ch] + t)
  {
    forall i | 0 <= i < |[ch] + t| ensures IsSpace(([ch] + t)[i]) {
      if i > 0 {
        assert ([ch] + t)[i] == t[i - 1];
      }
    }
  }

  lemma ConsThree(ch: char, a: string, b: string, c: string)
    ensures [ch] + a + b + c == [ch] + (a + b + c)
  {
  }

  lemma ConsAssoc(ch: char, a: string, b: string)
    ensures [ch] + a + b == [ch] + (a + b)
  {
  }

  lemma ConsTail(s: string)
    requires s != []
    ensures [s[0]] + s[1..] == s
  {
  }

  /** The leading whitespace run of s and what follows it. */
  function CutSpace(s: string): (c: Cut)
    ensures c.word == [] && |c.gap| + |c.rest| == |s|
  {
    if s != [] && IsSpace(s[0]) then
      var c := CutSpace(s[1..]);
      Cut([], [s[0]] + c.gap, c.rest)
    else Cut([], [], s)
  }

  /** The leading run of non-whitespace of s, the whitespace run after it, and the rest. */
  function CutWord(s: string): (c: Cut)
    ensures |c.word| + |c.gap| + |c.rest| == |s|
  {
    if s == [] then Cut([], [], [])
    else if IsSpace(s[0]) then CutSpace(s)
    else
      var c := CutWord(s[1..]);
      Cut([s[0]] + c.word, c.gap, c.rest)
  }

  /** The whitespace run and the rest make up s again. */
  lemma {:induction false} CutSpaceJoin(s: string)
    ensures CutSpace(s).gap + CutSpace(s).rest == s
  {
    if s != [] && IsSpace(s[0]) {
      var c := CutSpace(s[1..]);
      CutSpaceJoin(s[1..]);
      ConsAssoc(s[0], c.gap, c.rest);
      ConsTail(s);
    }
  }

  /** The run is maximal: all whitespace, and not followed by whitespace. */
  lemma {:induction false} CutSpaceShape(s: string)
    ensures Blank(CutSpace(s).gap)
    ensures CutSpace(s).rest != [] ==> !IsSpace(CutSpace(s).rest[0])
    ensures s != [] && IsSpace(s[0]) ==> CutSpace(s).gap != []
  {
    if s != [] && IsSpace(s[0]) {
      CutSpaceShape(s[1..]);
      BlankCons(s[0], CutSpace(s[1..]).gap);
    }
  }

  /** The three parts of the cut make up s again. */
  lemma {:induction false} CutWordJoin(s: string)
    ensures CutWord(s).word + CutWord(s).gap + CutWord(s).rest == s
  {
    if s == [] {
    } else if IsSpace(s[0]) {
      CutSpaceJoin(s);
      assert [] + CutSpace(s).gap + CutSpace(s).rest == CutSpace(s).gap + CutSpace(s).rest;
    } else {
      var c := CutWord(s[1..]);
      CutWordJoin(s[1..]);
      ConsThree(s[0], c.word, c.gap, c.rest);
      ConsTail(s);
    }
  }

  /**
   * The word has no whitespace, the gap is the maximal whitespace run after
   * it, and only a text without whitespace has an empty gap.
   */
  lemma {:induction false} CutWordShape(s: string)
    ensures NoSpace(CutWord(s).word) && Blank(CutWord(s).gap)
    ensures CutWord(s).gap == [] ==> CutWord(s).rest == []
    ensures CutWord(s).rest != [] ==> !IsSpace(CutWord(s).rest[0])
  {
    if s == [] {
    } else if IsSpace(s[0]) {
      CutSpaceShape(s);
    } else {
      CutWordShape(s[1..]);
      NoSpaceCons(s[0], CutWord(s[1..]).word);
    }
  }

  /** Everything known about one cut. */
  lemma CutWordFacts(s: string)
    ensures CutWord(s).word + CutWord(s).gap + CutWord(s).rest == s
    ensures NoSpace(CutWord(s).word) && Blank(CutWord(s).gap)
    ensures CutWord(s).gap == [] ==> CutWord(s).rest == []
    ensures CutWord(s).rest != [] ==> !IsSpace(CutWord(s).rest[0])
  {
    CutWordJoin(s);
    CutWordShape(s);
  }

  /**
   * re.split(r'(\s+)', s): the non-whitespace pieces, possibly empty,
   * alternating with the maximal whitespace runs between them. The list
   * always starts and ends with a non-whitespace piece, so "" splits into
   * [""] and " a" into ["", " ", "a"].
   */
  function Split(s: string): seq<string>
    decreases |s|
  {
    var c := CutWord(s);
    if c.gap == [] then [c.word] else [c.word, c.gap] + Split(c.rest)
  }

  /** The tokens kept by the filter `token.strip() != ""`, in order. */
  function Keep(tokens: seq<string>): seq<string> {
    if tokens == [] then []
    else (if Blank(tokens[0]) then [] else [tokens[0]]) + Keep(tokens[1..])
  }

  /** The kept tokens of one piece of text. */
  function Tokens(s: string): seq<string> {
    Keep(Split(s))
  }

  /** Pairs every token with one colour. */
  function Colored(tokens: seq<string>, color: Color): (r: seq<Word>)
    ensures |r| == |tokens|
  {
    if tokens == [] then [] else [Word(tokens[0], color)] + Colored(tokens[1..], color)
  }

  /** Word k of the coloured tokens is token k in the colour. */
  lemma {:induction false} ColoredAt(tokens: seq<string>, color: Color, k: nat)
    requires k < |tokens|
    ensures Colored(tokens, color)[k] == Word(tokens[k], color)
  {
    if k > 0 {
      ColoredAt(tokens[1..], color, k - 1);
    }
  }

  /** The words of one segment. */
  function SegmentWords(s: Segment): seq<Word> {
    Colored(Tokens(s.text), s.color)
  }

  /** The words of all segments, segment after segment. */
  function Words(segments: seq<Segment>): seq<Word> {
    Flat(segments, SegmentWords)
  }

  /** The lists f(x) of the elements x of xs, joined in order. */
  function Flat<A, B>(xs: seq<A>, f: A -> seq<B>): seq<B> {
    if xs == [] then [] else f(xs[0]) + Flat(xs[1..], f)
  }

  function WordTexts(words: seq<Word>): seq<string> {
    if words == [] then [] else [words[0].text] + WordTexts(words[1..])
  }

  // ---------------------------------------------------------------------
  // The tokenizer loop.

  /** segment_to_words: the words of the segments, in order, each in its segment's colour. */
  method SegmentToWords(segments: seq<Segment>) returns (words: seq<Word>)
    ensures words == Words(segments)
  {
    words := [];
    for i := 0 to |segments|
      invariant words == Words(segments[..i])
    {
      var kept := KeptWords(segments[i].text, segments[i].color);
      words := words + kept;
      WordsSnoc(segments, i);
    }
    assert segments[..|segments|] == segments;
  }

  /** The inner loop of segment_to_words: the pieces of one segment whose strip() is not empty. */
  method KeptWords(segment: string, color: Color) returns (words: seq<Word>)
    ensures words == Colored(Tokens(segment), color)
  {
    var tokens := Split(segment);
    words := [];
    for j := 0 to |tokens|
      invariant words == Colored(Keep(tokens[..j]), color)
    {
      if !Blank(tokens[j]) {
        words := words + [Word(tokens[j], color)];
      }
      KeepSnoc(tokens, j, color);
    }
    assert tokens[..|tokens|] == tokens;
  }

  lemma KeepSnoc(tokens: seq<string>, j: nat, color: Color)
    requires j < |tokens|
    ensures Colored(Keep(tokens[..j + 1]), color)
         == Colored(Keep(tokens[..j]), color)
            + (if Blank(tokens[j]) then [] else [Word(tokens[j], color)])
  {
    assert tokens[..j + 1] == tokens[..j] + [tokens[j]];
    KeepAppend(tokens[..j], [tokens[j]]);
    assert Keep([tokens[j]]) == (if Blank(tokens[j]) then [] else [tokens[j]]) + Keep([]);
    ColoredAppend(Keep(tokens[..j]), Keep([tokens[j]]), color);
  }

  lemma WordsSnoc(segments: seq<Segment>, i: nat)
    requires i < |segments|
    ensures Words(segments[..i + 1]) == Words(segments[..i]) + SegmentWords(segments[i])
  {
    assert segments[..i + 1] == segments[..i] + [segments[i]];
    WordsAppend(segments[..i], [segments[i]]);
    FlatOne(segments[i], SegmentWords);
  }

  // ---------------------------------------------------------------------
  // Append lemmas.

  lemma {:induction false} KeepAppend(a: seq<string>, b: seq<string>)
    ensures Keep(a + b) == Keep(a) + Keep(b)
  {
    if a == [] {
      assert a + b == b;
    } else {
      assert (a + b)[0] == a[0];
      assert (a + b)[1..] == a[1..] + b;
      KeepAppend(a[1..], b);
    }
  }

  lemma {:induction false} ColoredAppend(a: seq<string>, b: seq<string>, color: Color)
    ensures Colored(a + b, color) == Colored(a, color) + Colored(b, color)
  {
    if a == [] {
      assert a + b == b;
    } else {
      assert (a + b)[0] == a[0];
      assert (a + b)[1..] == a[1..] + b;
      ColoredAppend(a[1..], b, color);
    }
  }

  /** No token spans two segments: the words of a + b are those of a, then those of b. */
  lemma WordsAppend(a: seq<Segment>, b: seq<Segment>)
    ensures Words(a + b) == Words(a) + Words(b)
  {
    FlatAppend(a, b, SegmentWords);
  }

  lemma FlatOne<A, B>(x: A, f: A -> seq<B>)
    ensures Flat([x], f) == f(x)
  {
    assert [x][1..] == [];
  }

  lemma {:induction false} FlatAppend<A, B>(a: seq<A>, b: seq<A>, f: A -> seq<B>)
    ensures Flat(a + b, f) == Flat(a, f) + Flat(b, f)
  {
    if a == [] {
      assert a + b == b;
    } else {
      assert (a + b)[0] == a[0];
      assert (a + b)[1..] == a[1..] + b;
      FlatAppend(a[1..], b, f);
    }
  }

  lemma FlatSnoc<A, B>(xs: seq<A>, i: nat, f: A -> seq<B>)
    requires i < |xs|
    ensures Flat(xs[..i + 1], f) == Flat(xs[..i], f) + f(xs[i])
  {
    assert xs[..i + 1] == xs[..i] + [xs[i]];
    FlatAppend(xs[..i], [xs[i]], f);
    FlatOne(xs[i], f);
  }

  /** y is in Flat(xs, f) exactly when it is in f(x) for some element x of xs. */
  lemma {:induction false} FlatMember<A, B>(xs: seq<A>, f: A -> seq<B>, y: B)
    ensures y in Flat(xs, f) <==> exists i :: 0 <= i < |xs| && y in f(xs[i])
  {
    if xs != [] {
      FlatMember(xs[1..], f, y);
      if exists i :: 0 <= i < |xs[1..]| && y in f(xs[1..][i]) {
        var i :| 0 <= i < |xs[1..]| && y in f(xs[1..][i]);
        assert xs[1..][i] == xs[i + 1];
      }
      if exists i :: 0 <= i < |xs| && y in f(xs[i]) {
        var i :| 0 <= i < |xs| && y in f(xs[i]);
        if i > 0 {
          assert xs[1..][i - 1] == xs[i];
        }
      }
    }
  }

  lemma {:induction false} WordTextsAppend(a: seq<Word>, b: seq<Word>)
    ensures WordTexts(a + b) == WordTexts(a) + WordTexts(b)
  {
    if a == [] {
      assert a + b == b;
    } else {
      assert (a + b)[0] == a[0];
      assert (a + b)[1..] == a[1..] + b;
      WordTextsAppend(a[1..], b);
    }
  }

  // ---------------------------------------------------------------------
  // What re.split produces.

  /** Joining the pieces of the split gives back the text. */
  lemma {:induction false} SplitConcat(s: string)
    ensures Concat(Split(s)) == s
    decreases |s|
  {
    var c := CutWord(s);
    CutWordFacts(s);
    if c.gap == [] {
      assert Concat([c.word]) == c.word + Concat([]);
      assert c.word + [] + [] == c.word;
    } else {
      SplitConcat(c.rest);
      ConcatAppend([c.word, c.gap], Split(c.rest));
      assert Concat([c.word, c.gap]) == c.word + (c.gap + Concat([])) by {
        assert [c.word, c.gap][1..] == [c.gap];
      }
      assert c.word + (c.gap + []) + c.rest == c.word + c.gap + c.rest;
    }
  }

  /** The pieces alternate: whitespace-free ones at even places, non-empty whitespace runs at odd ones. */
  lemma {:induction false} SplitPieces(s: string, k: nat)
    requires k < |Split(s)|
    ensures k % 2 == 0 ==> NoSpace(Split(s)[k])
    ensures k % 2 == 1 ==> Split(s)[k] != [] && Blank(Split(s)[k])
    decreases |s|
  {
    var c := CutWord(s);
    CutWordFacts(s);
    if c.gap == [] {
      assert Split(s) == [c.word];
    } else if k == 0 {
      assert Split(s)[0] == c.word;
    } else if k == 1 {
      assert Split(s)[1] == c.gap;
    } else {
      SplitPieces(c.rest, k - 2);
      assert Split(s)[k] == Split(c.rest)[k - 2];
      assert (k - 2) % 2 == k % 2;
    }
  }

  /** Every kept token is non-empty and free of whitespace. */
  lemma {:induction false} TokensShape(s: string, k: nat)
    requires k < |Tokens(s)|
    ensures Tokens(s)[k] != [] && NoSpace(Tokens(s)[k])
  {
    KeptShape(Split(s), k, s);
  }

  lemma {:induction false} KeptShape(pieces: seq<string>, k: nat, s: string)
    requires k < |Keep(pieces)|
    requires forall i :: 0 <= i < |pieces| ==> pieces[i] in Split(s)
    ensures Keep(pieces)[k] in pieces && !Blank(Keep(pieces)[k])
    ensures Keep(pieces)[k] != [] && NoSpace(Keep(pieces)[k])
    decreases |pieces|
  {
    var head := if Blank(pieces[0]) then [] else [pieces[0]];
    assert Keep(pieces) == head + Keep(pieces[1..]);
    if k < |head| {
      assert Keep(pieces)[k] == pieces[0];
    } else {
      KeptShape(pieces[1..], k - |head|, s);
      assert Keep(pieces)[k] == Keep(pieces[1..])[k - |head|];
    }
    var t := Keep(pieces)[k];
    var j :| 0 <= j < |Split(s)| && Split(s)[j] == t;
    SplitPieces(s, j);
    assert t != [] by {
      assert !Blank(t);
    }
  }

  lemma {:induction false} RemoveSpaceOfBlank(t: string)
    requires Blank(t)
    ensures RemoveSpace(t) == []
  {
    if t != [] {
      RemoveSpaceOfBlank(t[1..]);
    }
  }

  lemma {:induction false} RemoveSpaceOfWord(t: string)
    requires NoSpace(t)
    ensures RemoveSpace(t) == t
  {
    if t != [] {
      RemoveSpaceOfWord(t[1..]);
    }
  }

  lemma KeepOne(t: string)
    ensures Keep([t]) == if Blank(t) then [] else [t]
  {
    assert [t][1..] == [];
  }

  lemma ConcatOne(t: string)
    ensures Concat([t]) == t
  {
    assert [t][1..] == [];
  }

  /** A whitespace-free piece is blank only when it is empty. */
  lemma BlankWord(t: string)
    requires NoSpace(t)
    ensures Blank(t) ==> t == []
  {
    if t != [] {
      assert !IsSpace(t[0]);
    }
  }

  lemma {:induction false} KeepSplitJoin(s: string)
    ensures Concat(Keep(Split(s))) == RemoveSpace(s)
    decreases |s|
  {
    var c := CutWord(s);
    CutWordFacts(s);
    if c.gap == [] {
      assert s == c.word;
      KeepOne(c.word);
      RemoveSpaceOfWord(c.word);
      BlankWord(c.word);
      if !Blank(c.word) {
        ConcatOne(c.word);
      }
    } else {
      KeepSplitJoin(c.rest);
      JoinStep(c.word, c.gap, c.rest);
    }
  }

  /** One step of KeepSplitJoin: a word and a whitespace run in front of a text already joined. */
  lemma JoinStep(word: string, gap: string, rest: string)
    requires NoSpace(word) && gap != [] && Blank(gap)
    requires Split(word + gap + rest) == [word, gap] + Split(rest)
    requires Concat(Keep(Split(rest))) == RemoveSpace(rest)
    ensures Concat(Keep(Split(word + gap + rest))) == RemoveSpace(word + gap + rest)
  {
    KeepOne(word);
    RemoveSpaceOfWord(word);
    BlankWord(word);
    KeepTwo(word, gap, rest);
    RemoveSpaceAppend(word + gap, rest);
    RemoveSpaceAppend(word, gap);
    RemoveSpaceOfBlank(gap);
    ConcatAppend(Keep([word]), Keep(Split(rest)));
    if !Blank(word) {
      ConcatOne(word);
    }
  }

  /** The kept tokens after a word and a whitespace run: just the word, if it is not empty. */
  lemma KeepTwo(word: string, gap: string, rest: string)
    requires gap != [] && Blank(gap)
    requires Split(word + gap + rest) == [word, gap] + Split(rest)
    ensures Keep(Split(word + gap + rest)) == Keep([word]) + Keep(Split(rest))
  {
    PairCons(word, gap, Split(rest));
    KeepAppend([word], [gap] + Split(rest));
    KeepAppend([gap], Split(rest));
    KeepOne(gap);
  }

  lemma PairCons(a: string, b: string, tail: seq<string>)
    ensures [a, b] + tail == [a] + ([b] + tail)
  {
  }

  /** Joined together, the kept tokens are the text with its whitespace removed. */
  lemma TokensJoin(s: string)
    ensures Concat(Tokens(s)) == RemoveSpace(s)
  {
    KeepSplitJoin(s);
  }

  /** Joined together, the texts of the words are the segments' texts without whitespace. */
  lemma {:induction false} WordsJoin(segments: seq<Segment>)
    ensures Concat(WordTexts(Words(segments))) == RemoveSpace(Concat(SegmentTexts(segments)))
  {
    if segments != [] {
      var s := segments[0];
      WordsJoin(segments[1..]);
      WordTextsAppend(SegmentWords(s), Words(segments[1..]));
      ConcatAppend(WordTexts(SegmentWords(s)), WordTexts(Words(segments[1..])));
      ColoredTexts(Tokens(s.text), s.color);
      TokensJoin(s.text);
      assert SegmentTexts(segments) == [s.text] + SegmentTexts(segments[1..]);
      ConcatAppend([s.text], SegmentTexts(segments[1..]));
      assert Concat([s.text]) == s.text + Concat([]);
      RemoveSpaceAppend(s.text, Concat(SegmentTexts(segments[1..])));
    }
  }

  lemma {:induction false} ColoredTexts(tokens: seq<string>, color: Color)
    ensures WordTexts(Colored(tokens, color)) == tokens
  {
    if tokens != [] {
      ColoredTexts(tokens[1..], color);
    }
  }

  /** Every word is a non-empty run of non-whitespace characters. */
  lemma WordShape(segments: seq<Segment>, k: nat)
    requires k < |Words(segments)|
    ensures Words(segments)[k].text != [] && NoSpace(Words(segments)[k].text)
  {
    var i, j := WordOrigin(segments, k);
    TokensShape(segments[i].text, j);
  }

  /**
   * Every word comes from one segment and carries that segment's colour:
   * word k is kept token j of segment i.
   */
  lemma WordOrigin(segments: seq<Segment>, k: nat) returns (i: nat, j: nat)
    requires k < |Words(segments)|
    ensures i < |segments| && j < |Tokens(segments[i].text)|
    ensures Words(segments)[k] == Word(Tokens(segments[i].text)[j], segments[i].color)
  {
    i, j := WordPlace(segments, k);
    ColoredAt(Tokens(segments[i].text), segments[i].color, j);
  }

  /** Word k of the segments is word j of segment i. */
  lemma WordPlace(segments: seq<Segment>, k: nat) returns (i: nat, j: nat)
    requires k < |Words(segments)|
    ensures i < |segments| && j < |SegmentWords(segments[i])|
    ensures Words(segments)[k] == SegmentWords(segments[i])[j]
  {
    i, j := FlatPlace(segments, SegmentWords, k);
  }

  /** Element k of Flat(xs, f) is element j of f(xs[i]). */
  lemma {:induction false} FlatPlace<A, B>(xs: seq<A>, f: A -> seq<B>, k: nat) returns (i: nat, j: nat)
    requires k < |Flat(xs, f)|
    ensures i < |xs| && j < |f(xs[i])|
    ensures Flat(xs, f)[k] == f(xs[i])[j]
  {
    assert xs != [];
    var own, later := f(xs[0]), Flat(xs[1..], f);
    IndexAppend(own, later, k);
    if k < |own| {
      i, j := 0, k;
    } else {
      var i', j' := FlatPlace(xs[1..], f, k - |own|);
      i, j := i' + 1, j';
      assert xs[1..][i'] == xs[i];
    }
  }

  lemma IndexAppend<T>(a: seq<T>, b: seq<T>, k: nat)
    requires k < |a| + |b|
    ensures (a + b)[k] == if k < |a| then a[k] else b[k - |a|]
  {
  }

  // ---------------------------------------------------------------------
  // Splitting undoes joining with single spaces.

  /** The tokens joined with one space between neighbours. */
  function JoinWithSpaces(tokens: seq<string>): string {
    if tokens == [] then []
    else if |tokens| == 1 then tokens[0]
    else tokens[0] + " " + JoinWithSpaces(tokens[1..])
  }

  predicate ProperToken(t: string) {
    t != [] && NoSpace(t)
  }

  /** A word followed by one space and a text that does not start with whitespace. */
  lemma {:induction false} CutWordOf(t: string, rest: string)
    requires NoSpace(t)
    requires rest == [] || !IsSpace(rest[0])
    ensures CutWord(t + " " + rest) == Cut(t, " ", rest)
  {
    if t == [] {
      assert t + " " + rest == " " + rest;
      assert (" " + rest)[1..] == rest;
      assert CutSpace(rest) == Cut([], [], rest);
    } else {
      assert (t + " " + rest)[1..] == t[1..] + " " + rest;
      CutWordOf(t[1..], rest);
      assert [t[0]] + t[1..] == t;
    }
  }

  lemma {:induction false} CutWordWhole(t: string)
    requires NoSpace(t)
    ensures CutWord(t) == Cut(t, [], [])
  {
    if t != [] {
      CutWordWhole(t[1..]);
      assert [t[0]] + t[1..] == t;
    }
  }

  lemma JoinStart(tokens: seq<string>)
    requires tokens != [] && ProperToken(tokens[0])
    ensures JoinWithSpaces(tokens) != [] && !IsSpace(JoinWithSpaces(tokens)[0])
  {
  }

  /** Splitting and filtering a space-joined list of tokens gives the list back. */
  lemma {:induction false} TokensOfJoin(tokens: seq<string>)
    requires forall i :: 0 <= i < |tokens| ==> ProperToken(tokens[i])
    ensures Tokens(JoinWithSpaces(tokens)) == tokens
  {
    if tokens == [] {
      CutWordWhole([]);
      KeepOne([]);
    } else if |tokens| == 1 {
      var t := tokens[0];
      CutWordWhole(t);
      assert !Blank(t) by {
        assert !IsSpace(t[0]);
      }
      KeepOne(t);
    } else {
      var t, rest := tokens[0], JoinWithSpaces(tokens[1..]);
      TokensOfJoin(tokens[1..]);
      JoinStart(tokens[1..]);
      CutWordOf(t, rest);
      assert Blank(" ");
      KeepTwo(t, " ", rest);
      assert !Blank(t) by {
        assert !IsSpace(t[0]);
      }
      KeepOne(t);
    }
  }
}
