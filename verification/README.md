# Sentiment and emotion statistics of DUC documents and their summaries

This project models the core of a small research pipeline. The pipeline
compares the sentiment and emotion content of the documents of the DUC
summarisation corpora with that of their human-written summaries.

For every docset of a corpus:

- It extracts the words of the docset's documents and the words of its
  summaries.
- It walks each word sequence once. The walk counts the words, counts the
  hits in the MPQA subjectivity-clue lexicon (per polarity, per strength
  and per polarity/strength pair), and counts the first WordNet-Affect
  emotion category each word belongs to. It also collects the words that
  contributed.
- It returns two lists of these records, one for the document side and one
  for the summary side, aligned by docset.

Around that pass sit its feeders:

- the MPQA lexicon loaders (`key=value` line parser, one loader that keeps
  every `(type, priorpolarity)` pair of a word, one that keeps the last
  line's clue with an integer score);
- the WordNet-Affect emotion-list reader and its word → emotions inversion;
- the DUC corpus navigator (corpus paths, docsets, the summaries of a
  document);
- whitespace normalisation, lower-cased word extraction and R vector
  formatting.

Two revisions of the driver and of the counting pass exist:

- `src/compare_summaries.py` is the multi-pair lexicon revision. A summary
  file the markup parser cannot read counts as empty, and summary names are
  sorted.
- `code/compare_summaries.py` is the single-entry lexicon revision. A parse
  failure propagates, and summary paths stay in listing order.

Both are modelled. Each one's driver is proved against its own
specification function.

Layout, one module per file:

| file | module | models |
|---|---|---|
| `errors.dfy` | `Outcome` | `Option`, `Result` and the Python exceptions the core raises |
| `text.dfy` | `Text` | the `str` and `os.path` built-ins the core uses |
| `sorting.dfy` | `Sorting` | `sorted` on strings, as an insertion sort |
| `nlp_utils.dfy` | `NlpUtils` | `code/nlp_utils.py` |
| `r_utils.dfy` | `RUtils` | `code/r_utils.py` |
| `wordnet.dfy` | `Wordnet` | `code/wordnet.py`, `code/wordnet_utils.py` |
| `mpqa.dfy` | `Mpqa` | `code/mpqa.py` |
| `parse_mpqa.dfy` | `ParseMpqa` | `code/parse_mpqa.py` |
| `duc.dfy` | `Duc` | `src/duc.py`, `code/duc.py` |
| `doc_stats.dfy` | `Stats` | both `get_doc_stats` |
| `compare_summaries.dfy` | `Compare` | the rest of both `compare_summaries.py` |

The per-document record `doc_data` is the class `Stats.DocStats`:

- Its methods update its counters and word sets in place.
- `GetDocStats` and `GetDocStatsByEntry` loop over the words.
- Their results are tied to the specification functions `Stats.Expected`
  and `Stats.ExpectedByEntry`. The lemmas of the `Stats` module state the
  counting properties about those functions.

The drivers append one record pair per docset in a loop. Their results are
tied, position by position, to the same functions applied to the words of
each docset.

## Model

| member | source | states |
|---|---|---|
| Stats.DocStats.constructor | src/compare_summaries.py:131-136 | a fresh record has word count 0, every counter 0 and both word sets empty |
| Stats.DocStats.CountPairs | src/compare_summaries.py:142-156 | for a lexicon word: adds the word to the sentiment set, raises `count` once, then applies every (strength, polarity) pair from `FIRST_TUPLE` on; any other word changes nothing; the word count and the emotion part are untouched |
| Stats.DocStats.CountEntry | code/compare_summaries.py:108-121 | raises the counters and adds the word only when its clue has both `type` and `priorpolarity`; otherwise the KeyError leaves everything unchanged |
| Stats.DocStats.CountEmotion | src/compare_summaries.py:159-165 | the first category holding the word, in list order, gets one count, and the word joins the emotion set; with no such category nothing changes |
| Stats.GetDocStats | src/compare_summaries.py:107-167 | the returned record equals `Expected(words, ...)`: word count = number of words, the counters of the pass, the sentiment words = the input words that are lexicon keys, the emotion words = those some category holds |
| Stats.GetDocStatsByEntry | code/compare_summaries.py:71-131 | the returned record equals `ExpectedByEntry(words, ...)`: as above, with a word counted only when its clue has both fields |
| Stats.LexiconWordsSpec | src/compare_summaries.py:147-148 | a word is in the sentiment word set iff it occurs in the input and is a lexicon key |
| Stats.CompleteWordsSpec | code/compare_summaries.py:108-119 | a word is in the sentiment word set iff it occurs in the input and its clue has `type` and `priorpolarity` |
| Stats.CategoryWordsSpec | src/compare_summaries.py:160-164 | a word is in the emotion word set iff it occurs in the input and some category holds it |
| Stats.TupleSentimentCount | src/compare_summaries.py:142-149 | sentiment `count` = number of word occurrences that are lexicon keys, however many pairs each entry has |
| Stats.NonLexiconWordSkipped | src/compare_summaries.py:142-145 | inserting a non-lexicon word anywhere in the input leaves every sentiment counter unchanged |
| Stats.BumpPairCounters | src/compare_summaries.py:152-156 | a vocabulary pair raises exactly its polarity, its strength and their joint counter, each by one, and not `count` |
| Stats.BumpPairTotals | src/compare_summaries.py:152-156 | a vocabulary pair raises each of the three family totals by exactly one |
| Stats.BumpPairsTotals | src/compare_summaries.py:152-156 | applying a list of vocabulary pairs raises each family total by the list's length |
| Stats.TupleStepTotals | src/compare_summaries.py:142-156 | one word raises each family total by the number of pairs read from its entry (0 for a non-key) |
| Stats.TupleSentimentTotals | src/compare_summaries.py:138-156 | with vocabulary values, Σ polarity counters = Σ strength counters = Σ joint counters = the number of pairs read |
| Stats.AsWrittenSkipsFirstPair | src/compare_summaries.py:152 | as written (`[1:]`), the one-word document `best` with entry `[('strongsubj', 'positive')]` gets `count` 1 and no polarity, strength or joint count |
| Stats.FirstPairCounted | src/compare_summaries.py:152-156 | starting at index 0, `best` raises `count`, `positive`, `strongsubj` and `positive_strongsubj` to 1 |
| Stats.EveryPairCounted | src/compare_summaries.py:147-156 | starting at index 0, with vocabulary values and non-empty entries, each family total is at least `count` |
| Stats.HitsBelowPairs | src/compare_summaries.py:147-156 | with non-empty entries, the number of hits is at most the number of pairs read from index 0 |
| Stats.EntrySentimentCount | code/compare_summaries.py:108-114 | sentiment `count` = number of word occurrences whose clue has both fields |
| Stats.EntrySentimentTotals | code/compare_summaries.py:108-117 | with vocabulary values, each family total = the number of complete hits = `count` |
| Stats.EntryStepTotals | code/compare_summaries.py:108-121 | one word with a complete clue raises `count` and each family total by one; any other word raises nothing |
| Stats.EntryHitCounters | code/compare_summaries.py:108-117 | a complete hit with vocabulary values raises `count`, its `<polarity>_count`, its `<type>_count` and its `<polarity>_<type>_count` by one each, and no other polarity, strength or joint counter |
| Stats.IncompleteEntrySkipped | code/compare_summaries.py:108-121 | inserting a word that is absent, or whose clue lacks `type` or `priorpolarity`, leaves every sentiment counter unchanged |
| Stats.FirstEmotionSpec | src/compare_summaries.py:160-165 | a word is attributed to an emotion iff some category holds it, and then to the first such category |
| Stats.EmotionTallyCount | src/compare_summaries.py:159-165 | emotion `count` = number of occurrences some category holds, ≤ the word count, and = Σ per-emotion counters for WordNet categories |
| Stats.SnapshotPairsIndex | src/compare_summaries.py:175-187 | the i-th entry of the paired results is the results of the i-th document record and the i-th summary record |
| Compare.GetWordsConcat | src/compare_summaries.py:102-104 | the words of sentences are the words of each sentence, in sentence order; one sentence gives its own tokens |
| Compare.LenientWordsConcat | src/compare_summaries.py:88-99 | the words of a list of files are the words of each file, in order |
| Compare.FailedFileSkipped | src/compare_summaries.py:48-51 | a file the parser fails on contributes no words; the words are those of the other files |
| Compare.StrictWordsSpec | code/compare_summaries.py:40-42 | the later revision's file words raise iff some file fails to parse, and then with the first such file; otherwise they equal the earlier revision's words |
| Compare.MatchingSpec | src/compare_summaries.py:57-58 | the filter keeps exactly the listed names with the prefix, each as often as listed, and nothing else |
| Compare.MatchingLength | src/compare_summaries.py:57-58 | the filter never returns more names than were listed |
| Compare.GetSummariesSpec | src/compare_summaries.py:55-58 | the summaries of a docset are sorted and a permutation of the listed names starting with `docset.upper()`, in multiplicity; so a name is among them iff it is listed and has that prefix |
| Compare.GetSummaryPathsInListingOrder | code/compare_summaries.py:60-63 | the later revision's summaries are the same filter, in listing order, each joined under `root` |
| Compare.JoinMatchingIsJoinAll | code/compare_summaries.py:62-63 | joining while filtering equals filtering and then joining |
| Compare.CountJob | src/compare_summaries.py:180-187 | the document record counts `get_docset_words` of the docset; the summary record counts `get_summary_words` of `docset_id[:-1]` |
| Compare.CountRoot | src/compare_summaries.py:177-187 | for one pair of roots, one document and one summary record per docset, in `get_documents` order, each with its docset's results |
| Compare.GetTwoStatsVectors | src/compare_summaries.py:170-190 | both lists have one record per docset of all roots, in order; record i of the document list counts docset i's document words, record i of the summary list counts the summaries of docset i's id without its last letter |
| Compare.TalliesAt | src/compare_summaries.py:176-187 | paired results equal to the docsets' expected results give the per-index statements above |
| Compare.GetEmotionWordsSpec | code/compare_summaries.py:134-138 | raises IndexError iff some token is one character long; otherwise the words are exactly the non-comment tokens with every `_` replaced by a space, so none holds `_` |
| Compare.EmotionLexiconFromSpec | code/compare_summaries.py:164-166 | the six lists load iff each one loads, giving one category per emotion, in the given order, with that emotion's words |
| Compare.CollectSpec | code/compare_summaries.py:172-176 | the loop over docsets succeeds iff every docset does, yielding each docset's value in order; otherwise it fails with the first failure |
| Compare.DocsetsOutcome | code/compare_summaries.py:152-176 | the run over the docsets fails iff some document or summary of some docset cannot be parsed, and then with the first failing docset's error; otherwise entry i is the single-entry counts of docset i's document words and of the words of the summaries named after its id without the last letter |
| Compare.CountDocset | code/compare_summaries.py:173-176 | one docset's two records, or the failure of its document side (read first) or of its summary side |
| Compare.CountDocsets | code/compare_summaries.py:169-178 | the records of all docsets, in order, aligned by docset, or the failure that stops the loop |
| Compare.GetTwoStatsVectorsByEntry | code/compare_summaries.py:163-178 | raises iff an emotion list, the lexicon or a docset file raises, and with that error; otherwise both lists have one record per docset, in order, counted with the six emotion lists and the loaded lexicon |
| Mpqa.VocabularyRoundTrip | code/mpqa.py:11-23 | each strength and polarity name parses back to its member; `TYPE_TOK` and `POL_TOK` map each short token to its member's name |
| Mpqa.KeyValueSpec | code/mpqa.py:47-51 | a token gives a key and a value iff it holds exactly one `=`; the key and the value are the text before and after it |
| Mpqa.ParseLine | code/mpqa.py:43-52 | the loop builds the dictionary of the line's well-formed tokens |
| Mpqa.PairsKeys | code/mpqa.py:46-49 | a key is set iff some token of the line carries it |
| Mpqa.PairsLastWins | code/mpqa.py:49 | a repeated key keeps the value of its last token |
| Mpqa.MalformedTokenSkipped | code/mpqa.py:47-51 | a token with no `=` or with several `=`, anywhere in the line, changes nothing |
| Mpqa.MpqaData | code/mpqa.py:26-40 | the loop gives `Lexicon(lines)`: each line's pair appended to its word's list, or the KeyError of the first incomplete line |
| Mpqa.LexiconRaises | code/mpqa.py:38-39 | loading fails iff some line lacks `word1`, `type` or `priorpolarity` |
| Mpqa.LexiconRaiseStops | code/mpqa.py:37-39 | once a prefix of the lines fails, the whole load fails with the same error |
| Mpqa.LexiconKeys | code/mpqa.py:35-39 | the keys are exactly the `word1` values of the lines |
| Mpqa.LexiconEntries | code/mpqa.py:30-39 | a word maps to the pairs of all its lines, in file order, so a word on n lines has n pairs |
| Mpqa.LexiconListsNonEmpty | code/mpqa.py:35-39 | every key has a non-empty list |
| ParseMpqa.ScoreSpec | code/parse_mpqa.py:33-34 | the score is one of -2, -1, 1, 2; it is positive iff the polarity is `positive`, and of magnitude 1 iff the type is `weaksubj` |
| ParseMpqa.ScoreOfVocabulary | code/parse_mpqa.py:33-34 | on the vocabulary the score is the strength weight times the polarity sign |
| ParseMpqa.ParseScoredLine | code/parse_mpqa.py:24-35 | the parse equals `ScoredLine(line)`: the KeyError of the first missing key among `type`, `priorpolarity`, `word1`, or the word and its clue |
| ParseMpqa.ScoredLineSpec | code/parse_mpqa.py:24-35 | a line parses iff it holds all three keys; the word is `word1`, the clue keeps every other field unchanged, and its `val` is the computed score whatever `val=` token the line had |
| ParseMpqa.MpqaData | code/parse_mpqa.py:14-21 | the loop gives `ScoredLexicon(lines)`: each line's clue stored under its word, or the first line's KeyError |
| ParseMpqa.ScoredLexiconRaises | code/parse_mpqa.py:18-20 | loading fails iff some line does not parse |
| ParseMpqa.ScoredLexiconKeys | code/parse_mpqa.py:18-20 | the keys are exactly the `word1` values of the lines |
| ParseMpqa.ScoredLexiconLastWins | code/parse_mpqa.py:18-20 | a word's clue is the clue of the last line naming it |
| ParseMpqa.LoadersAcceptAlike | code/parse_mpqa.py:14-21 | both loaders accept exactly the same files |
| ParseMpqa.LoadersKnowSameWords | code/parse_mpqa.py:14-21 | where both succeed, they have the same keys |
| ParseMpqa.LoadersAgree | code/parse_mpqa.py:14-21 | where both succeed, the last pair the list-building loader keeps for a word is the `type` and the `priorpolarity` of the clue this loader keeps |
| Duc.MakeDucCorpusPaths | src/duc.py:30-34 | with a root not ending in `/` and relative directories, the paths are `project_root/DUC<year>/docs_dir` and `project_root/DUC<year>/sums_dir` |
| Duc.MakeDucCorpusAbsolute | code/duc.py:30-34 | an absolute directory argument replaces the whole prefix, as `join` does |
| Duc.MakeDocSetSpec | src/duc.py:37-45 | the id is the input id, trailing letter included; the documents are sorted, one `doc_path/id/name` per listed name; the summaries are sorted and a permutation of the paths `sum_path/name`, one per listed name starting with `id[:-1].upper()`; so a path is among them iff it joins `sum_path` to such a name |
| Duc.JoinAllIndex | code/duc.py:40-41 | each listed name is joined in its own position |
| Duc.JoinMatchingSpec | code/duc.py:42-44 | a path is among the summaries iff it is `sum_path/name` for a listed name with the prefix |
| Duc.GetDocSetsSpec | src/duc.py:48-51 | one docset per listed id, sorted by id; each is the docset of its id, each listed id has its docset, and each id occurs among the results exactly as often as it is listed |
| Duc.DocSetIds | src/duc.py:48-51 | the ids of the returned docsets are the listed ids, each as often as it is listed |
| Duc.SecondFieldSpec | src/duc.py:59 | `name.split('.')[1]` raises IndexError iff the name holds no `.` |
| Duc.KeepSummarySpec | src/duc.py:58-59 | the test of one summary raises iff `multidoc` holds and the name is neither `doc_id.html` nor splittable on `.`; otherwise it says whether the summary is selected |
| Duc.KeptSummariesRaise | src/duc.py:57-59 | the filter raises IndexError iff some summary is unsplittable as above |
| Duc.KeptSummariesContents | src/duc.py:57-59 | the filter keeps exactly the selected summaries, each exactly as often as it is listed, and drops every other summary |
| Duc.GetDocSumsSpec | src/duc.py:54-59 | `get_doc_sums` raises iff some summary is unsplittable; otherwise it returns, sorted, exactly the selected summaries of `docset.sums`, each as often as it is listed there |
| Duc.SingleDocSumsWithinMultiDoc | src/duc.py:57-59 | without `multidoc` the lookup never raises, and its result is contained in the `multidoc` result |
| Wordnet.EmotionWordsSpec | code/wordnet.py:12-15 | raises IndexError iff some token is one character long; otherwise the words are exactly the tokens whose second character is not `#`, unchanged (`get_emotion_words` of `code/wordnet_utils.py` is the same filter) |
| Wordnet.EmotionWordsOnlyDependOnTokenSet | code/wordnet_utils.py:15 | the result is a set: two lists with the same tokens give the same result, however the tokens repeat or are ordered |
| Wordnet.KeepTokensSpec | code/compare_summaries.py:137-138 | the shared token filter raises iff some token is shorter than two characters, and otherwise keeps the (rewritten) entry of every non-comment token and nothing else |
| Wordnet.WordnetData | code/wordnet.py:18-24 | raises iff some emotion's list raises; otherwise returns the inversion of the emotions' word sets |
| Wordnet.AppendToLists | code/wordnet.py:22-23 | appending one emotion to the list of each of its words, in any order, gives the same map |
| Wordnet.InvertLookup | code/wordnet.py:20-24 | a word is a key iff some list holds it, and its list is the emotions holding it, in argument order |
| Wordnet.EmotionsOfMembership | code/wordnet.py:21-23 | an emotion is listed for a word iff the word is in that emotion's list |
| Wordnet.EmotionsOfInOrder | code/wordnet.py:21-23 | a word's emotions follow the argument order, each from a strictly later position |
| Wordnet.NoDuplicateEmotions | code/wordnet.py:21-23 | with distinct emotions, no word lists an emotion twice |
| Wordnet.InvertListsNonEmpty | code/wordnet.py:20-24 | every key's list is non-empty |
| NlpUtils.NormalizeWhitespace | code/nlp_utils.py:27-30 | the result splits into exactly the input's words, in order (none glued together or dropped); it has no leading or trailing whitespace and only single-space separators; its non-whitespace characters are the input's, in order; it is empty iff the input is all whitespace |
| NlpUtils.NormalizeIdempotent | code/nlp_utils.py:30 | normalising twice equals normalising once |
| NlpUtils.GetWords | code/nlp_utils.py:19-24 | every word is lower case, and the words are the lower-cased tokens of the sentences, in sentence order |
| NlpUtils.GetWordsBySentence | code/nlp_utils.py:22-24 | the words of a text are the words of its first k sentences followed by those of the rest |
| RUtils.MakeRVector | code/r_utils.py:7-21 | the result is `name <- ` (for a truthy name, nothing otherwise) followed by a literal `c(...)`; the empty vector gives `c()`; the elements of a non-empty vector without commas are read back from the literal, in order |
| RUtils.ParseCommaSpaceJoin | code/r_utils.py:17 | the elements of a non-empty, comma-free vector are read back, in order, from their `, `-join |
| RUtils.NamedRVector | code/r_utils.py:18-19 | a non-empty name only prefixes the unnamed literal with `name <- ` |
| Sorting.SortBySpec | src/duc.py:45 | `sorted` returns an ordered permutation of its input |
| Sorting.SortByKeys | src/duc.py:50-51 | sorting records by a key keeps every key as often as it occurs |
| Sorting.SortedUnique | src/duc.py:50-51 | two sorted lists with the same elements are equal, so the sorted result does not depend on the input order |
| Text.SplitJoin | code/nlp_utils.py:30 | splitting a space-joined list of tokens gives back the tokens |
| Text.JoinSplitOn | code/mpqa.py:48 | joining the parts of `s.split(c)` with `c` gives back `s` |

## Left out

- File and directory access (`open`, `listdir`, `isdir`) is not performed. Directory listings, the result of `get_documents`, file contents and lexicon lines are parameters of the model (`Compare.Sources`, `lines`, `contents`). That `get_documents` sorts its result and keeps only directories is therefore not modelled.
- The BeautifulSoup markup parsing in `get_doc_sents`, `get_summary_sents` and `get_doc_words` is a foreign library. A file's parse is a parameter giving either its sentences or a failure. The earlier revision turns a failure into no sentences; the later one re-raises it as `ParseFailure`.
- The NLTK sentence and word tokenizers are foreign. They are function parameters.
- Lower and upper case are ASCII only. Python 2 `str.isspace` is taken as the six ASCII whitespace characters.
- The float ratios and all printing in the `__main__` blocks, the doctest runner and `format_and_print_docset` (file output) are not modelled.
- The `NotImplementedError` stubs of `code/duc.py` and `src/duc.py` (`get_docsets` of the earlier revision, `get_sum_words`, `get_doc_sums` of the earlier revision, `get_doc_sums_words`, `get_docset_doc_words`, `get_docset_sum_words`) only raise, and are not modelled.
- The module-level corpus constants (`DUC2001` … `DUC2004`, `DOCS_ROOT`, `SUMS_ROOT`) are configuration. The roots are parameters.
- The earlier driver builds its emotion and lexicon maps from module functions that do not exist in the repository (`wordnet.get_word_emotion_map`, `mpqa.get_word_sentiment_map`). `Compare.GetTwoStatsVectors` takes both maps as parameters.
- Stats.DocStats: the source counters are dictionary entries keyed by formatted names, so any polarity or strength value creates its own counter. The model keeps one field per name of the MPQA vocabulary (four polarities, two strengths, their eight pairs, six emotions). A value outside the vocabulary raises none of the polarity, strength or joint counters.
- The emotion categories are iterated in the order `anger, disgust, fear, joy, sadness, surprise`, the order the dictionaries are built in. Python 2 `dict.iteritems` order is unspecified, so first-match attribution in a different order is not modelled.
- Wordnet.AppendToLists: `set` iteration order is not modelled. The loop removes the words in an arbitrary order, and the proved result does not depend on it.
- Source defects, modelled with the evident intent:
  - `src/compare_summaries.py:149` reads `sentiment_stats` before its assignment at :153. The model counts into the record's sentiment counters.
  - `code/compare_summaries.py:98` lacks a comma.
  - `code/compare_summaries.py:119` and `:128` call `.add` on a `defaultdict` (`doc_data['words']['sentiment']` and `doc_data['words']['emotion']`, created at `:100-101`), which has no `add`. The model adds the word to a set in both places.
  - `code/mpqa.py:12-23` uses invalid dictionary syntax. `POL_TOK` and `TYPE_TOK` are modelled as the evident maps.
  - `code/mpqa.py:35` uses `defaultdict` without importing it, and `:36` opens the undefined `lexicon_path` instead of `from_file`.
  - `code/nlp_utils.py:30` calls `str.trim`, which does not exist. It is modelled as `strip`, which cannot change what an argument-less `split()` returns.
  - `src/duc.py:57` names `sumary` for `summary`, and `basename` is not imported at `src/duc.py:58`.
  - `get_doc_words` (`src/duc.py:62-73`, `code/duc.py:53-64`) opens the undefined `filepath`. Its parsing is left out with the markup parsing above.
- Stats.DocStats.CountPairs: counts every pair of an entry, from index `FIRST_TUPLE` = 0. The source starts at index 1 (see Findings). `Stats.AsWrittenSkipsFirstPair` models the code as written.
- Compare.GetTwoStatsVectors: states the earlier driver with the corrected pair start index, not with the `[1:]` as written.
- Mpqa.MpqaData: `code/mpqa.py:35,40` returns the `defaultdict(list)` itself. The model returns a plain map, so the source's default-on-missing lookup is not captured: there, indexing a word absent from the lexicon yields `[]` and inserts the word instead of raising KeyError. A list-valued `get_doc_stats` (`src/compare_summaries.py:143-145`) fed this loader would then count every word as a sentiment hit with no pairs. The model, like `Stats.NonLexiconWordSkipped`, states the plain-dict behaviour the `except KeyError` there is written for.

## Findings

| source | as written | input that shows it | evidently intended | confidence | as-written member | corrected member |
|---|---|---|---|---|---|---|
| src/compare_summaries.py:152 | `for strength, polarity in word_sentiments[1:]` skips the first (strength, polarity) pair of every lexicon entry | the document `["best"]` with the lexicon entry `best → [('strongsubj', 'positive')]` (the entry in the doc-test at `code/mpqa.py:30-31`): `count` becomes 1 but `positive_count`, `strongsubj_count` and `positive_strongsubj_count` stay 0 | every pair is data, so iteration starts at index 0 and each family total is at least `count` | not executed | Stats.AsWrittenSkipsFirstPair | Stats.FirstPairCounted, Stats.EveryPairCounted |
