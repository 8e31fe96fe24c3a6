/**
 * The per-document counting pass of the summary comparison: one walk over
 * a word sequence that counts the words, the sentiment-lexicon hits (per
 * polarity, per strength and per polarity-strength pair) and the first
 * emotion category each word belongs to, and collects the words that hit.
 *
 * Two revisions of the pass exist. One reads a lexicon that maps a word to
 * a list of (strength, polarity) pairs and counts every pair; the other
 * reads a lexicon that maps a word to one parsed clue and counts its
 * `type` and `priorpolarity` fields.
 *
 * The source keeps its counters in dictionaries keyed by formatted names
 * (`'%s_count' % polarity`, `'%s_%s_count' % (polarity, strength)`). Here
 * each counter the report reads is a field of a record, and bumping the
 * counter named by a value bumps the field of that name; a value outside
 * the vocabulary names no field.
 */
module Stats {
  import opened Outcome
  import opened Mpqa
  import opened ParseMpqa

  /** The index of the first (strength, polarity) pair of a lexicon entry
      that is counted: every pair of the entry is data. */
  const FIRST_TUPLE: nat := 0

  /** The index `word_sentiments[1:]` starts from in the multi-pair revision,
      which skips the first pair of every entry. */
  const AS_WRITTEN_FIRST_TUPLE: nat := 1

  /** The sentiment counters: `count`, `<polarity>_count`, `<strength>_count`
      and `<polarity>_<strength>_count`. */
  datatype SentimentCounts = SentimentCounts(
    count: nat,
    positive: nat, negative: nat, neutral: nat, both: nat,
    strongsubj: nat, weaksubj: nat,
    positiveStrongsubj: nat, positiveWeaksubj: nat,
    negativeStrongsubj: nat, negativeWeaksubj: nat,
    neutralStrongsubj: nat, neutralWeaksubj: nat,
    bothStrongsubj: nat, bothWeaksubj: nat)

  /** The emotion counters: `count` and `<emotion>_count`. */
  datatype EmotionCounts = EmotionCounts(
    count: nat, anger: nat, disgust: nat, fear: nat, joy: nat, sadness: nat, surprise: nat)

  const NO_SENTIMENT: SentimentCounts := SentimentCounts(0, 0, 0, 0, 0, 0, 0, 0, 0, 0, 0, 0, 0, 0, 0)
  const NO_EMOTION: EmotionCounts := EmotionCounts(0, 0, 0, 0, 0, 0, 0)

  // ---------------------------------------------------------------------
  // Counter updates

  /** `sentiment_stats['count'] += 1`. */
  function BumpCount(c: SentimentCounts): SentimentCounts {
    c.(count := c.count + 1)
  }

  /** 1 when `b` holds, else 0: the increment a counter receives. */
  function One(b: bool): nat {
    if b then 1 else 0
  }

  /** `sentiment_stats['%s_count' % name] += 1`: polarities and strengths
      share one family of counters, as their formatted keys do; a name
      outside the vocabulary raises none of the counters kept here. */
  function BumpNamed(c: SentimentCounts, name: string): SentimentCounts {
    c.(positive := c.positive + One(name == "positive"),
       negative := c.negative + One(name == "negative"),
       neutral := c.neutral + One(name == "neutral"),
       both := c.both + One(name == "both"),
       strongsubj := c.strongsubj + One(name == "strongsubj"),
       weaksubj := c.weaksubj + One(name == "weaksubj"))
  }

  /** `sentiment_stats['%s_%s_count' % (polarity, strength)] += 1`. */
  function BumpJoint(c: SentimentCounts, polarity: string, strength: string): SentimentCounts {
    var strong := strength == "strongsubj";
    var weak := strength == "weaksubj";
    c.(positiveStrongsubj := c.positiveStrongsubj + One(polarity == "positive" && strong),
       positiveWeaksubj := c.positiveWeaksubj + One(polarity == "positive" && weak),
       negativeStrongsubj := c.negativeStrongsubj + One(polarity == "negative" && strong),
       negativeWeaksubj := c.negativeWeaksubj + One(polarity == "negative" && weak),
       neutralStrongsubj := c.neutralStrongsubj + One(polarity == "neutral" && strong),
       neutralWeaksubj := c.neutralWeaksubj + One(polarity == "neutral" && weak),
       bothStrongsubj := c.bothStrongsubj + One(polarity == "both" && strong),
       bothWeaksubj := c.bothWeaksubj + One(polarity == "both" && weak))
  }

  /** The three increments one (strength, polarity) pair causes, in source order. */
  function BumpPair(c: SentimentCounts, strength: string, polarity: string): SentimentCounts {
    BumpJoint(BumpNamed(BumpNamed(c, polarity), strength), polarity, strength)
  }

  /** The increments of the pairs `pairs`, in order. */
  function BumpPairs(c: SentimentCounts, pairs: seq<(string, string)>): SentimentCounts {
    if pairs == [] then c
    else
      var (strength, polarity) := pairs[|pairs| - 1];
      BumpPair(BumpPairs(c, pairs[..|pairs| - 1]), strength, polarity)
  }

  /** `'%s_count' % emotion` for a category name. */
  function BumpEmotion(c: EmotionCounts, name: string): EmotionCounts {
    c.(anger := c.anger + One(name == "anger"),
       disgust := c.disgust + One(name == "disgust"),
       fear := c.fear + One(name == "fear"),
       joy := c.joy + One(name == "joy"),
       sadness := c.sadness + One(name == "sadness"),
       surprise := c.surprise + One(name == "surprise"))
  }

  // ---------------------------------------------------------------------
  // Totals and single counters, for stating properties

  /** The three families of sentiment counters a pair raises one member of. */
  datatype Family = Polarities | Strengths | Joints

  /** The sum of one family of counters. */
  function Total(c: SentimentCounts, f: Family): nat {
    match f
    case Polarities => PolarityTotal(c)
    case Strengths => StrengthTotal(c)
    case Joints => JointTotal(c)
  }

  function PolarityTotal(c: SentimentCounts): nat {
    c.positive + c.negative + c.neutral + c.both
  }

  function StrengthTotal(c: SentimentCounts): nat {
    c.strongsubj + c.weaksubj
  }

  function JointTotal(c: SentimentCounts): nat {
    c.positiveStrongsubj + c.positiveWeaksubj + c.negativeStrongsubj + c.negativeWeaksubj
    + c.neutralStrongsubj + c.neutralWeaksubj + c.bothStrongsubj + c.bothWeaksubj
  }

  function EmotionTotal(c: EmotionCounts): nat {
    c.anger + c.disgust + c.fear + c.joy + c.sadness + c.surprise
  }

  function PolarityCount(c: SentimentCounts, p: Polarity): nat {
    match p
    case Positive => c.positive
    case Negative => c.negative
    case Neutral => c.neutral
    case Both => c.both
  }

  function StrengthCount(c: SentimentCounts, s: Strength): nat {
    match s
    case StrongSubj => c.strongsubj
    case WeakSubj => c.weaksubj
  }

  function JointCount(c: SentimentCounts, p: Polarity, s: Strength): nat {
    match s
    case StrongSubj =>
      (match p
       case Positive => c.positiveStrongsubj
       case Negative => c.negativeStrongsubj
       case Neutral => c.neutralStrongsubj
       case Both => c.bothStrongsubj)
    case WeakSubj =>
      (match p
       case Positive => c.positiveWeaksubj
       case Negative => c.negativeWeaksubj
       case Neutral => c.neutralWeaksubj
       case Both => c.bothWeaksubj)
  }

  /** One pair of vocabulary values raises exactly its polarity's counter,
      its strength's counter and their joint counter, each by one, and
      leaves `count` alone. */
  lemma BumpPairCounters(c: SentimentCounts, s: Strength, p: Polarity)
    ensures var r := BumpPair(c, StrengthName(s), PolarityName(p));
      r.count == c.count
      && (forall q :: PolarityCount(r, q) == PolarityCount(c, q) + (if q == p then 1 else 0))
      && (forall t :: StrengthCount(r, t) == StrengthCount(c, t) + (if t == s then 1 else 0))
      && (forall q, t :: JointCount(r, q, t) == JointCount(c, q, t) + (if q == p && t == s then 1 else 0))
  {
  }

  /** Hence a vocabulary pair raises each of the three totals by one. */
  lemma BumpPairTotals(c: SentimentCounts, strength: string, polarity: string)
    requires ParseStrength(strength).Some? && ParsePolarity(polarity).Some?
    ensures var r := BumpPair(c, strength, polarity);
      r.count == c.count && forall f :: Total(r, f) == Total(c, f) + 1
  {
  }

  /** Every pair of an entry holds vocabulary values. */
  ghost predicate VocabularyPairs(pairs: seq<(string, string)>) {
    forall i :: 0 <= i < |pairs| ==> ParseStrength(pairs[i].0).Some? && ParsePolarity(pairs[i].1).Some?
  }

  lemma {:induction false} BumpPairsTotals(c: SentimentCounts, pairs: seq<(string, string)>, f: Family)
    requires VocabularyPairs(pairs)
    ensures Total(BumpPairs(c, pairs), f) == Total(c, f) + |pairs|
  {
    if pairs != [] {
      var n := |pairs| - 1;
      BumpPairsTotals(c, pairs[..n], f);
      BumpPairTotals(BumpPairs(c, pairs[..n]), pairs[n].0, pairs[n].1);
    }
  }

  // ---------------------------------------------------------------------
  // The multi-pair revision: word -> list of (strength, polarity)

  /** `word_sentiments[start:]`: Python slicing never raises. */
  function Counted(entry: seq<(string, string)>, start: nat): (r: seq<(string, string)>)
    ensures |r| == if start <= |entry| then |entry| - start else 0
  {
    if start <= |entry| then entry[start..] else []
  }

  /** The sentiment part of the loop body for one word. */
  function TupleStep(c: SentimentCounts, word: string, lexicon: map<string, seq<(string, string)>>, start: nat): SentimentCounts {
    if word in lexicon then BumpPairs(BumpCount(c), Counted(lexicon[word], start)) else c
  }

  /** The sentiment counters after the words `words`. */
  function TupleSentiment(words: seq<string>, lexicon: map<string, seq<(string, string)>>, start: nat): SentimentCounts {
    if words == [] then NO_SENTIMENT
    else TupleStep(TupleSentiment(words[..|words| - 1], lexicon, start), words[|words| - 1], lexicon, start)
  }

  /** How many of the words are lexicon keys, counting repeats. */
  function LexiconHits(words: seq<string>, lexicon: map<string, seq<(string, string)>>): (n: nat)
    ensures n <= |words|
  {
    if words == [] then 0
    else LexiconHits(words[..|words| - 1], lexicon) + (if words[|words| - 1] in lexicon then 1 else 0)
  }

  /** The number of pairs the pass reads for the words `words`. */
  function PairCount(words: seq<string>, lexicon: map<string, seq<(string, string)>>, start: nat): nat {
    if words == [] then 0
    else
      var w := words[|words| - 1];
      PairCount(words[..|words| - 1], lexicon, start) + (if w in lexicon then |Counted(lexicon[w], start)| else 0)
  }

  ghost predicate VocabularyLexicon(lexicon: map<string, seq<(string, string)>>) {
    forall w :: w in lexicon ==> VocabularyPairs(lexicon[w])
  }

  /** One word of the pass: a lexicon word raises `count` by one and each
      total by the number of pairs read from its entry. */
  lemma TupleStepTotals(c: SentimentCounts, w: string, lexicon: map<string, seq<(string, string)>>, start: nat, f: Family)
    requires VocabularyLexicon(lexicon)
    ensures Total(TupleStep(c, w, lexicon, start), f)
         == Total(c, f) + if w in lexicon then |Counted(lexicon[w], start)| else 0
  {
    if w in lexicon {
      var entry := lexicon[w];
      var pairs := Counted(entry, start);
      assert VocabularyPairs(pairs) by {
        forall i | 0 <= i < |pairs| ensures ParseStrength(pairs[i].0).Some? && ParsePolarity(pairs[i].1).Some? {
          assert pairs[i] == entry[start + i];
        }
      }
      BumpPairsTotals(BumpCount(c), pairs, f);
    }
  }

  /** With vocabulary values, the polarity, the strength and the joint
      totals each equal the number of pairs read. */
  lemma {:induction false} TupleSentimentTotals(words: seq<string>, lexicon: map<string, seq<(string, string)>>, start: nat, f: Family)
    requires VocabularyLexicon(lexicon)
    ensures Total(TupleSentiment(words, lexicon, start), f) == PairCount(words, lexicon, start)
  {
    if words != [] {
      var n := |words| - 1;
      TupleSentimentTotals(words[..n], lexicon, start, f);
      TupleStepTotals(TupleSentiment(words[..n], lexicon, start), words[n], lexicon, start, f);
    }
  }

  /** `count` is the number of word occurrences found in the lexicon, one per
      occurrence however many pairs its entry has, whatever the values. */
  lemma {:induction false} TupleSentimentCount(words: seq<string>, lexicon: map<string, seq<(string, string)>>, start: nat)
    ensures TupleSentiment(words, lexicon, start).count == LexiconHits(words, lexicon)
  {
    if words != [] {
      var n := |words| - 1;
      TupleSentimentCount(words[..n], lexicon, start);
      var w := words[n];
      if w in lexicon {
        BumpPairsKeepsCount(BumpCount(TupleSentiment(words[..n], lexicon, start)), Counted(lexicon[w], start));
      }
    }
  }

  lemma {:induction false} BumpPairsKeepsCount(c: SentimentCounts, pairs: seq<(string, string)>)
    ensures BumpPairs(c, pairs).count == c.count
  {
    if pairs != [] {
      BumpPairsKeepsCount(c, pairs[..|pairs| - 1]);
    }
  }

  /** A word that is not a lexicon key changes no sentiment counter, wherever
      it occurs. */
  lemma {:induction false} NonLexiconWordSkipped(a: seq<string>, w: string, b: seq<string>,
                                                  lexicon: map<string, seq<(string, string)>>, start: nat)
    requires w !in lexicon
    ensures TupleSentiment(a + [w] + b, lexicon, start) == TupleSentiment(a + b, lexicon, start)
    decreases |b|
  {
    if b == [] {
      assert (a + [w] + b)[..|a|] == a;
      assert a + b == a;
    } else {
      var n := |b| - 1;
      NonLexiconWordSkipped(a, w, b[..n], lexicon, start);
      assert (a + [w] + b)[..|a + [w] + b| - 1] == a + [w] + b[..n];
      assert (a + b)[..|a + b| - 1] == a + b[..n];
    }
  }

  /** The one-word document `best` over a lexicon whose entry for it is the
      single pair `('strongsubj', 'positive')`. */
  const BEST_LEXICON: map<string, seq<(string, string)>> := map["best" := [("strongsubj", "positive")]]

  /** As written, the pass starts each entry at its second pair: `best` is
      counted as a sentiment word but raises no polarity, strength or joint
      counter. */
  lemma AsWrittenSkipsFirstPair()
    ensures TupleSentiment(["best"], BEST_LEXICON, AS_WRITTEN_FIRST_TUPLE) == NO_SENTIMENT.(count := 1)
  {
    assert ["best"][..0] == [];
    assert Counted(BEST_LEXICON["best"], AS_WRITTEN_FIRST_TUPLE) == [];
  }

  /** Counting from the first pair, `best` raises `count`, `positive_count`,
      `strongsubj_count` and `positive_strongsubj_count`. */
  lemma FirstPairCounted()
    ensures TupleSentiment(["best"], BEST_LEXICON, FIRST_TUPLE)
         == NO_SENTIMENT.(count := 1, positive := 1, strongsubj := 1, positiveStrongsubj := 1)
  {
    assert ["best"][..0] == [];
    var pairs := Counted(BEST_LEXICON["best"], FIRST_TUPLE);
    assert pairs == [("strongsubj", "positive")];
    assert pairs[..0] == [];
  }

  /** Counting from the first pair, every pair of every hit is counted: with
      vocabulary values and non-empty entries (as the MPQA loader builds
      them), each polarity, strength and joint total is at least `count`. */
  lemma EveryPairCounted(words: seq<string>, lexicon: map<string, seq<(string, string)>>, f: Family)
    requires VocabularyLexicon(lexicon)
    requires forall w :: w in lexicon ==> |lexicon[w]| > 0
    ensures TupleSentiment(words, lexicon, FIRST_TUPLE).count <= Total(TupleSentiment(words, lexicon, FIRST_TUPLE), f)
  {
    TupleSentimentCount(words, lexicon, FIRST_TUPLE);
    TupleSentimentTotals(words, lexicon, FIRST_TUPLE, f);
    HitsBelowPairs(words, lexicon);
  }

  lemma {:induction false} HitsBelowPairs(words: seq<string>, lexicon: map<string, seq<(string, string)>>)
    requires forall w :: w in lexicon ==> |lexicon[w]| > 0
    ensures LexiconHits(words, lexicon) <= PairCount(words, lexicon, FIRST_TUPLE)
  {
    if words != [] {
      HitsBelowPairs(words[..|words| - 1], lexicon);
    }
  }

  // ---------------------------------------------------------------------
  // The single-entry revision: word -> parsed clue

  /** The entry of `word` has both fields the pass reads. */
  predicate Complete(word: string, lexicon: map<string, Clue>) {
    word in lexicon && "type" in lexicon[word].fields && "priorpolarity" in lexicon[word].fields
  }

  /** The sentiment part of the loop body for one word: the three lookups
      come before every increment, so a KeyError from any of them leaves the
      counters as they were. */
  function EntryStep(c: SentimentCounts, word: string, lexicon: map<string, Clue>): SentimentCounts {
    if Complete(word, lexicon) then
      BumpPair(BumpCount(c), lexicon[word].fields["type"], lexicon[word].fields["priorpolarity"])
    else c
  }

  function EntrySentiment(words: seq<string>, lexicon: map<string, Clue>): SentimentCounts {
    if words == [] then NO_SENTIMENT
    else EntryStep(EntrySentiment(words[..|words| - 1], lexicon), words[|words| - 1], lexicon)
  }

  /** How many of the words have a complete entry, counting repeats. */
  function CompleteHits(words: seq<string>, lexicon: map<string, Clue>): (n: nat)
    ensures n <= |words|
  {
    if words == [] then 0
    else CompleteHits(words[..|words| - 1], lexicon) + (if Complete(words[|words| - 1], lexicon) then 1 else 0)
  }

  ghost predicate VocabularyClues(lexicon: map<string, Clue>) {
    forall w :: Complete(w, lexicon) ==>
      ParseStrength(lexicon[w].fields["type"]).Some? && ParsePolarity(lexicon[w].fields["priorpolarity"]).Some?
  }

  /** One word of the pass: a word with a complete entry raises `count` and
      each total by one; any other word raises nothing. */
  lemma EntryStepTotals(c: SentimentCounts, w: string, lexicon: map<string, Clue>)
    requires VocabularyClues(lexicon)
    ensures var r := EntryStep(c, w, lexicon);
      var k := if Complete(w, lexicon) then 1 else 0;
      r.count == c.count + k && forall f :: Total(r, f) == Total(c, f) + k
  {
    if Complete(w, lexicon) {
      BumpPairTotals(BumpCount(c), lexicon[w].fields["type"], lexicon[w].fields["priorpolarity"]);
    }
  }

  /** `count` is the number of word occurrences whose entry has both fields. */
  lemma {:induction false} EntrySentimentCount(words: seq<string>, lexicon: map<string, Clue>)
    ensures EntrySentiment(words, lexicon).count == CompleteHits(words, lexicon)
  {
    if words != [] {
      EntrySentimentCount(words[..|words| - 1], lexicon);
    }
  }

  /** With vocabulary values the polarity, the strength and the joint totals
      each equal the number of word occurrences whose entry has both fields,
      which is `count`. */
  lemma {:induction false} EntrySentimentTotals(words: seq<string>, lexicon: map<string, Clue>, f: Family)
    requires VocabularyClues(lexicon)
    ensures Total(EntrySentiment(words, lexicon), f) == CompleteHits(words, lexicon)
  {
    if words != [] {
      var n := |words| - 1;
      EntrySentimentTotals(words[..n], lexicon, f);
      EntryStepTotals(EntrySentiment(words[..n], lexicon), words[n], lexicon);
    }
  }

  /** A hit on an entry of vocabulary values raises `count`, its polarity's,
      its strength's and their joint counter by exactly one each and no
      other counter. */
  lemma EntryHitCounters(words: seq<string>, w: string, lexicon: map<string, Clue>)
    requires Complete(w, lexicon)
    requires ParseStrength(lexicon[w].fields["type"]).Some? && ParsePolarity(lexicon[w].fields["priorpolarity"]).Some?
    ensures var c := EntrySentiment(words, lexicon);
      var r := EntrySentiment(words + [w], lexicon);
      var s := ParseStrength(lexicon[w].fields["type"]).value;
      var p := ParsePolarity(lexicon[w].fields["priorpolarity"]).value;
      r.count == c.count + 1
      && (forall q :: PolarityCount(r, q) == PolarityCount(c, q) + (if q == p then 1 else 0))
      && (forall t :: StrengthCount(r, t) == StrengthCount(c, t) + (if t == s then 1 else 0))
      && (forall q, t :: JointCount(r, q, t) == JointCount(c, q, t) + (if q == p && t == s then 1 else 0))
  {
    assert (words + [w])[..|words|] == words;
    BumpPairCounters(BumpCount(EntrySentiment(words, lexicon)),
                     ParseStrength(lexicon[w].fields["type"]).value,
                     ParsePolarity(lexicon[w].fields["priorpolarity"]).value);
  }

  /** A word that is absent from the lexicon, or whose entry lacks `type` or
      `priorpolarity`, changes no sentiment counter, wherever it occurs. */
  lemma {:induction false} IncompleteEntrySkipped(a: seq<string>, w: string, b: seq<string>, lexicon: map<string, Clue>)
    requires !Complete(w, lexicon)
    ensures EntrySentiment(a + [w] + b, lexicon) == EntrySentiment(a + b, lexicon)
    decreases |b|
  {
    if b == [] {
      assert (a + [w] + b)[..|a|] == a;
      assert a + b == a;
    } else {
      var n := |b| - 1;
      IncompleteEntrySkipped(a, w, b[..n], lexicon);
      assert (a + [w] + b)[..|a + [w] + b| - 1] == a + [w] + b[..n];
      assert (a + b)[..|a + b| - 1] == a + b[..n];
    }
  }

  // ---------------------------------------------------------------------
  // Emotions: the first category, in the order given, that holds the word

  /** The emotion categories in iteration order, each with its word set. */
  type EmotionLexicon = seq<(string, set<string>)>

  function FirstEmotion(word: string, emotions: EmotionLexicon): Option<string> {
    if emotions == [] then None
    else if word in emotions[0].1 then Some(emotions[0].0)
    else FirstEmotion(word, emotions[1..])
  }

  ghost predicate InSomeCategory(word: string, emotions: EmotionLexicon) {
    exists i :: 0 <= i < |emotions| && word in emotions[i].1
  }

  /** A word is attributed to an emotion exactly when some category holds it,
      and then to the first such category. */
  lemma {:induction false} FirstEmotionSpec(word: string, emotions: EmotionLexicon)
    ensures FirstEmotion(word, emotions).Some? <==> InSomeCategory(word, emotions)
    ensures FirstEmotion(word, emotions).Some? ==>
      exists i :: 0 <= i < |emotions| && word in emotions[i].1 && FirstEmotion(word, emotions) == Some(emotions[i].0)
        && forall j :: 0 <= j < i ==> word !in emotions[j].1
  {
    if emotions != [] && word !in emotions[0].1 {
      var rest := emotions[1..];
      FirstEmotionSpec(word, rest);
      if InSomeCategory(word, emotions) {
        var i :| 0 <= i < |emotions| && word in emotions[i].1;
        assert rest[i - 1] == emotions[i];
      }
      if FirstEmotion(word, rest).Some? {
        var i :| 0 <= i < |rest| && word in rest[i].1 && FirstEmotion(word, rest) == Some(rest[i].0)
          && forall j :: 0 <= j < i ==> word !in rest[j].1;
        assert emotions[i + 1] == rest[i];
        assert forall j :: 1 <= j < i + 1 ==> emotions[j] == rest[j - 1];
      }
    }
  }

  /** How many of the words some category holds, counting repeats. */
  ghost function CategoryHits(words: seq<string>, emotions: EmotionLexicon): (n: nat)
    ensures n <= |words|
  {
    if words == [] then 0
    else CategoryHits(words[..|words| - 1], emotions) + (if InSomeCategory(words[|words| - 1], emotions) then 1 else 0)
  }

  /** The emotion part of the loop body for one word. */
  function EmotionStep(c: EmotionCounts, word: string, emotions: EmotionLexicon): EmotionCounts {
    match FirstEmotion(word, emotions)
    case None => c
    case Some(e) => BumpEmotion(c.(count := c.count + 1), e)
  }

  function EmotionTally(words: seq<string>, emotions: EmotionLexicon): EmotionCounts {
    if words == [] then NO_EMOTION
    else EmotionStep(EmotionTally(words[..|words| - 1], emotions), words[|words| - 1], emotions)
  }

  /** Each category is one of the six WordNet-Affect emotions. */
  ghost predicate WordnetCategories(emotions: EmotionLexicon) {
    forall i :: 0 <= i < |emotions| ==> emotions[i].0 in ["anger", "disgust", "fear", "joy", "sadness", "surprise"]
  }

  /** Emotion `count` is the number of word occurrences some category holds,
      so at most the word count; with the six WordNet categories it is the
      sum of the per-category counters, since each word raises at most one. */
  lemma {:induction false} EmotionTallyCount(words: seq<string>, emotions: EmotionLexicon)
    ensures EmotionTally(words, emotions).count == CategoryHits(words, emotions)
    ensures EmotionTally(words, emotions).count <= |words|
    ensures WordnetCategories(emotions) ==> EmotionTally(words, emotions).count == EmotionTotal(EmotionTally(words, emotions))
  {
    if words != [] {
      var n := |words| - 1;
      EmotionTallyCount(words[..n], emotions);
      FirstEmotionSpec(words[n], emotions);
      if WordnetCategories(emotions) && FirstEmotion(words[n], emotions).Some? {
        var i :| 0 <= i < |emotions| && words[n] in emotions[i].1 && FirstEmotion(words[n], emotions) == Some(emotions[i].0)
          && forall j :: 0 <= j < i ==> words[n] !in emotions[j].1;
        assert emotions[i].0 in ["anger", "disgust", "fear", "joy", "sadness", "surprise"];
      }
    }
  }

  // ---------------------------------------------------------------------
  // The words that contributed

  /** The distinct words of `words` the multi-pair lexicon holds. */
  function LexiconWords(words: seq<string>, lexicon: map<string, seq<(string, string)>>): set<string> {
    if words == [] then {}
    else
      var w := words[|words| - 1];
      LexiconWords(words[..|words| - 1], lexicon) + (if w in lexicon then {w} else {})
  }

  lemma {:induction false} LexiconWordsSpec(words: seq<string>, lexicon: map<string, seq<(string, string)>>)
    ensures forall w :: w in LexiconWords(words, lexicon) <==> w in words && w in lexicon
  {
    if words != [] {
      var n := |words| - 1;
      LexiconWordsSpec(words[..n], lexicon);
      assert words == words[..n] + [words[n]];
    }
  }

  /** The distinct words of `words` whose single-entry clue is complete. */
  function CompleteWords(words: seq<string>, lexicon: map<string, Clue>): set<string> {
    if words == [] then {}
    else
      var w := words[|words| - 1];
      CompleteWords(words[..|words| - 1], lexicon) + (if Complete(w, lexicon) then {w} else {})
  }

  lemma {:induction false} CompleteWordsSpec(words: seq<string>, lexicon: map<string, Clue>)
    ensures forall w :: w in CompleteWords(words, lexicon) <==> w in words && Complete(w, lexicon)
  {
    if words != [] {
      var n := |words| - 1;
      CompleteWordsSpec(words[..n], lexicon);
      assert words == words[..n] + [words[n]];
    }
  }

  /** The distinct words of `words` the emotion pass attributes to a category. */
  function CategoryWords(words: seq<string>, emotions: EmotionLexicon): set<string> {
    if words == [] then {}
    else
      var w := words[|words| - 1];
      CategoryWords(words[..|words| - 1], emotions) + (if FirstEmotion(w, emotions).Some? then {w} else {})
  }

  /** They are the words of `words` some category holds. */
  lemma {:induction false} CategoryWordsSpec(words: seq<string>, emotions: EmotionLexicon)
    ensures forall w :: w in CategoryWords(words, emotions) <==> w in words && InSomeCategory(w, emotions)
  {
    if words != [] {
      var n := |words| - 1;
      CategoryWordsSpec(words[..n], emotions);
      FirstEmotionSpec(words[n], emotions);
      assert words == words[..n] + [words[n]];
    }
  }

  // ---------------------------------------------------------------------
  // The document statistics record and the pass itself

  /** The five results of the per-document pass, as values. */
  datatype Tally = Tally(wordCount: nat, sentiment: SentimentCounts, emotion: EmotionCounts,
                         sentimentWords: set<string>, emotionWords: set<string>)

  /** `doc_data`: the word count, the sentiment and emotion counters, and the
      sets of words that contributed to each. */
  class DocStats {
    var wordCount: nat
    var sentiment: SentimentCounts
    var emotion: EmotionCounts
    var sentimentWords: set<string>
    var emotionWords: set<string>

    constructor ()
      ensures wordCount == 0 && sentiment == NO_SENTIMENT && emotion == NO_EMOTION
      ensures sentimentWords == {} && emotionWords == {}
    {
      wordCount := 0;
      sentiment := NO_SENTIMENT;
      emotion := NO_EMOTION;
      sentimentWords := {};
      emotionWords := {};
    }

    /** The record's current results. */
    function Snapshot(): Tally
      reads this
    {
      Tally(wordCount, sentiment, emotion, sentimentWords, emotionWords)
    }

    /** The sentiment block for one word of the multi-pair lexicon: add the
        word, count it once, then count each pair from `FIRST_TUPLE` on. */
    method CountPairs(word: string, lexicon: map<string, seq<(string, string)>>)
      modifies this
      ensures sentiment == TupleStep(old(sentiment), word, lexicon, FIRST_TUPLE)
      ensures sentimentWords == if word in lexicon then old(sentimentWords) + {word} else old(sentimentWords)
      ensures wordCount == old(wordCount) && emotion == old(emotion) && emotionWords == old(emotionWords)
    {
      if word !in lexicon {
        return;
      }
      var wordSentiments := lexicon[word];
      sentimentWords := sentimentWords + {word};
      sentiment := BumpCount(sentiment);
      var pairs := Counted(wordSentiments, FIRST_TUPLE);
      ghost var base := sentiment;
      var j := 0;
      while j < |pairs|
        invariant 0 <= j <= |pairs|
        invariant sentiment == BumpPairs(base, pairs[..j])
        invariant wordCount == old(wordCount) && emotion == old(emotion) && emotionWords == old(emotionWords)
        invariant sentimentWords == old(sentimentWords) + {word}
      {
        var (strength, polarity) := pairs[j];
        sentiment := BumpNamed(sentiment, polarity);
        sentiment := BumpNamed(sentiment, strength);
        sentiment := BumpJoint(sentiment, polarity, strength);
        assert pairs[..j + 1][..j] == pairs[..j];
        j := j + 1;
      }
      assert pairs[..j] == pairs;
    }

    /** The sentiment block for one word of the single-entry lexicon. */
    method CountEntry(word: string, lexicon: map<string, Clue>)
      modifies this
      ensures sentiment == EntryStep(old(sentiment), word, lexicon)
      ensures sentimentWords == if Complete(word, lexicon) then old(sentimentWords) + {word} else old(sentimentWords)
      ensures wordCount == old(wordCount) && emotion == old(emotion) && emotionWords == old(emotionWords)
    {
      if word !in lexicon {
        return;
      }
      var wordSentiment := lexicon[word];
      if "type" !in wordSentiment.fields {
        return;
      }
      var strength := wordSentiment.fields["type"];
      if "priorpolarity" !in wordSentiment.fields {
        return;
      }
      var polarity := wordSentiment.fields["priorpolarity"];
      sentiment := BumpCount(sentiment);
      sentiment := BumpNamed(sentiment, polarity);
      sentiment := BumpNamed(sentiment, strength);
      sentiment := BumpJoint(sentiment, polarity, strength);
      sentimentWords := sentimentWords + {word};
    }

    /** The emotion block for one word: the first category holding it, if
        any, gets the word. */
    method CountEmotion(word: string, emotions: EmotionLexicon)
      modifies this
      ensures emotion == EmotionStep(old(emotion), word, emotions)
      ensures emotionWords == if FirstEmotion(word, emotions).Some? then old(emotionWords) + {word} else old(emotionWords)
      ensures wordCount == old(wordCount) && sentiment == old(sentiment) && sentimentWords == old(sentimentWords)
    {
      var i := 0;
      while i < |emotions|
        invariant 0 <= i <= |emotions|
        invariant FirstEmotion(word, emotions) == FirstEmotion(word, emotions[i..])
        invariant emotion == old(emotion) && emotionWords == old(emotionWords)
        invariant wordCount == old(wordCount) && sentiment == old(sentiment) && sentimentWords == old(sentimentWords)
      {
        var (name, wordSet) := emotions[i];
        if word in wordSet {
          emotion := emotion.(count := emotion.count + 1);
          emotion := BumpEmotion(emotion, name);
          emotionWords := emotionWords + {word};
          return;
        }
        assert emotions[i..][1..] == emotions[i + 1..];
        i := i + 1;
      }
    }
  }

  /** What the multi-pair pass yields for `words`: one per word in
      `wordCount`, the counters of the pass, the set of words found in the
      lexicon and the set of words some emotion category holds. */
  function Expected(words: seq<string>, emotions: EmotionLexicon,
                    lexicon: map<string, seq<(string, string)>>): Tally
  {
    Tally(|words|, TupleSentiment(words, lexicon, FIRST_TUPLE), EmotionTally(words, emotions),
          LexiconWords(words, lexicon), CategoryWords(words, emotions))
  }

  /** What the single-entry pass yields for `words`: a word counts only when
      its entry has both fields the pass reads. */
  function ExpectedByEntry(words: seq<string>, emotions: EmotionLexicon, lexicon: map<string, Clue>): Tally
  {
    Tally(|words|, EntrySentiment(words, lexicon), EmotionTally(words, emotions),
          CompleteWords(words, lexicon), CategoryWords(words, emotions))
  }

  /** The current results of each record of `ds` beside those of the
      record of `ss` at the same position. */
  ghost function SnapshotPairs(ds: seq<DocStats>, ss: seq<DocStats>): (r: seq<(Tally, Tally)>)
    requires |ds| == |ss|
    reads ds, ss
    ensures |r| == |ds|
  {
    if ds == [] then []
    else
      var n := |ds| - 1;
      SnapshotPairs(ds[..n], ss[..n]) + [(ds[n].Snapshot(), ss[n].Snapshot())]
  }

  lemma {:induction false} SnapshotPairsConcat(ds: seq<DocStats>, ss: seq<DocStats>, ds': seq<DocStats>, ss': seq<DocStats>)
    requires |ds| == |ss| && |ds'| == |ss'|
    ensures SnapshotPairs(ds + ds', ss + ss') == SnapshotPairs(ds, ss) + SnapshotPairs(ds', ss')
  {
    if ds' == [] {
      assert ds + ds' == ds && ss + ss' == ss;
    } else {
      var n := |ds'| - 1;
      assert (ds + ds')[..|ds + ds'| - 1] == ds + ds'[..n];
      assert (ss + ss')[..|ss + ss'| - 1] == ss + ss'[..n];
      SnapshotPairsConcat(ds, ss, ds'[..n], ss'[..n]);
    }
  }

  lemma {:induction false} SnapshotPairsIndex(ds: seq<DocStats>, ss: seq<DocStats>, i: int)
    requires |ds| == |ss| && 0 <= i < |ds|
    ensures SnapshotPairs(ds, ss)[i] == (ds[i].Snapshot(), ss[i].Snapshot())
  {
    var n := |ds| - 1;
    if i < n {
      SnapshotPairsIndex(ds[..n], ss[..n], i);
    }
  }

  /** `get_doc_stats(words, emotion_words, sentiment_words)` of the
      multi-pair revision. */
  method GetDocStats(words: seq<string>, emotionWords: EmotionLexicon,
                     sentimentWords: map<string, seq<(string, string)>>) returns (stats: DocStats)
    ensures fresh(stats)
    ensures stats.Snapshot() == Expected(words, emotionWords, sentimentWords)
  {
    stats := new DocStats();
    var i := 0;
    while i < |words|
      invariant 0 <= i <= |words|
      invariant stats.wordCount == i
      invariant stats.sentiment == TupleSentiment(words[..i], sentimentWords, FIRST_TUPLE)
      invariant stats.sentimentWords == LexiconWords(words[..i], sentimentWords)
      invariant stats.emotion == EmotionTally(words[..i], emotionWords)
      invariant stats.emotionWords == CategoryWords(words[..i], emotionWords)
    {
      var word := words[i];
      assert words[..i + 1] == words[..i] + [word];
      assert words[..i + 1][..i] == words[..i];
      stats.wordCount := stats.wordCount + 1;
      stats.CountPairs(word, sentimentWords);
      stats.CountEmotion(word, emotionWords);
      i := i + 1;
    }
    assert words[..i] == words;
  }

  /** `get_doc_stats(words, emotion_words, sentiment_words)` of the
      single-entry revision. */
  method GetDocStatsByEntry(words: seq<string>, emotionWords: EmotionLexicon,
                            sentimentWords: map<string, Clue>) returns (stats: DocStats)
    ensures fresh(stats)
    ensures stats.Snapshot() == ExpectedByEntry(words, emotionWords, sentimentWords)
  {
    stats := new DocStats();
    var i := 0;
    while i < |words|
      invariant 0 <= i <= |words|
      invariant stats.wordCount == i
      invariant stats.sentiment == EntrySentiment(words[..i], sentimentWords)
      invariant stats.sentimentWords == CompleteWords(words[..i], sentimentWords)
      invariant stats.emotion == EmotionTally(words[..i], emotionWords)
      invariant stats.emotionWords == CategoryWords(words[..i], emotionWords)
    {
      var word := words[i];
      assert words[..i + 1] == words[..i] + [word];
      assert words[..i + 1][..i] == words[..i];
      stats.wordCount := stats.wordCount + 1;
      stats.CountEntry(word, sentimentWords);
      stats.CountEmotion(word, emotionWords);
      i := i + 1;
    }
    assert words[..i] == words;
  }
}
