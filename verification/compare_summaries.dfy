/**
 * The comparison driver: for every docset of a corpus, the words of its
 * documents and the words of its human summaries are counted by the
 * per-document pass, giving two lists of statistics aligned by docset.
 *
 * Two revisions exist. The earlier one walks several corpus roots, sorts
 * the summary names, counts with the multi-pair lexicon and treats a file
 * the markup parser cannot read as having no sentences. The later one
 * walks one corpus, keeps the listing order, counts with the single-entry
 * lexicon, reads the six emotion word lists itself and lets a parser
 * failure propagate.
 *
 * The file system, the markup parser and the tokenizers are parameters.
 */
module Compare {
  import opened Text
  import opened Sorting
  import opened Outcome
  import opened Duc
  import opened Wordnet
  import opened ParseMpqa
  import opened Stats

  // ---------------------------------------------------------------------
  // Words of a document

  /** `get_words(sents)`: the word tokens of the sentences, sentence by sentence. */
  function GetWords(sents: seq<string>, wordTokenize: string -> seq<string>): seq<string> {
    FlatMap(sents, wordTokenize)
  }

  /** The words of sentences read in two parts are the words of the first
      part followed by those of the second; one sentence gives its own tokens. */
  lemma GetWordsConcat(a: seq<string>, b: seq<string>, wordTokenize: string -> seq<string>)
    ensures GetWords(a + b, wordTokenize) == GetWords(a, wordTokenize) + GetWords(b, wordTokenize)
    ensures GetWords([], wordTokenize) == []
    ensures forall s :: GetWords([s], wordTokenize) == wordTokenize(s)
  {
    FlatMapAppend(a, b, wordTokenize);
    forall s ensures GetWords([s], wordTokenize) == wordTokenize(s) {
      assert [s][1..] == [];
      assert FlatMap([s], wordTokenize) == wordTokenize(s) + FlatMap([s][1..], wordTokenize);
    }
  }

  /** What the markup parser makes of a file: its sentences (already
      whitespace-normalized and sentence-split), or a failure. */
  datatype Extracted = Parsed(sents: seq<string>) | Failed

  /** What the file system and the foreign parsers give the driver. */
  datatype Sources = Sources(
    documents: string -> seq<(string, seq<string>)>,  // get_documents(root): (docset id, document names), sorted
    listdir: string -> seq<string>,                  // listdir(dir)
    docSents: string -> Extracted,                   // the parse of a document file
    summarySents: string -> Extracted,               // the parse of a summary file
    wordTokenize: string -> seq<string>)

  /** The earlier revision's `except Exception: return []`. */
  function SentsOrEmpty(e: Extracted): seq<string> {
    if e.Parsed? then e.sents else []
  }

  /** The words of the files `paths`, in order, where a file the parser
      fails on contributes nothing. */
  function LenientWords(paths: seq<string>, parse: string -> Extracted, wordTokenize: string -> seq<string>): seq<string> {
    if paths == [] then []
    else GetWords(SentsOrEmpty(parse(paths[0])), wordTokenize) + LenientWords(paths[1..], parse, wordTokenize)
  }

  /** The words of the files `paths`, in order, or the failure of the first
      file the parser cannot read. */
  function StrictWords(paths: seq<string>, parse: string -> Extracted, wordTokenize: string -> seq<string>): Result<seq<string>> {
    if paths == [] then Ok([])
    else
      match parse(paths[0])
      case Failed => Raise(ParseFailure(paths[0]))
      case Parsed(sents) =>
        match StrictWords(paths[1..], parse, wordTokenize)
        case Raise(e) => Raise(e)
        case Ok(rest) => Ok(GetWords(sents, wordTokenize) + rest)
  }

  /** The words of files read in two parts are those of the first part
      followed by those of the second. */
  lemma {:induction false} LenientWordsConcat(a: seq<string>, b: seq<string>, parse: string -> Extracted,
                                              wordTokenize: string -> seq<string>)
    ensures LenientWords(a + b, parse, wordTokenize) == LenientWords(a, parse, wordTokenize) + LenientWords(b, parse, wordTokenize)
  {
    if a == [] {
      assert a + b == b;
    } else {
      assert (a + b)[1..] == a[1..] + b;
      LenientWordsConcat(a[1..], b, parse, wordTokenize);
    }
  }

  /** In the earlier revision a file the parser fails on is skipped: the words
      are those of the other files. */
  lemma {:induction false} FailedFileSkipped(a: seq<string>, p: string, b: seq<string>, parse: string -> Extracted,
                                             wordTokenize: string -> seq<string>)
    requires parse(p).Failed?
    ensures LenientWords(a + [p] + b, parse, wordTokenize) == LenientWords(a + b, parse, wordTokenize)
  {
    if a == [] {
      assert a + [p] + b == [p] + b;
      assert ([p] + b)[1..] == b;
      assert a + b == b;
    } else {
      assert (a + [p] + b)[0] == a[0] && (a + b)[0] == a[0];
      assert (a + [p] + b)[1..] == a[1..] + [p] + b;
      assert (a + b)[1..] == a[1..] + b;
      FailedFileSkipped(a[1..], p, b, parse, wordTokenize);
    }
  }

  /** In the later revision the files are read in order and the first failure
      is raised; when no file fails both revisions read the same words. */
  lemma {:induction false} StrictWordsSpec(paths: seq<string>, parse: string -> Extracted, wordTokenize: string -> seq<string>)
    ensures StrictWords(paths, parse, wordTokenize).Raise? <==> exists p :: p in paths && parse(p).Failed?
    ensures StrictWords(paths, parse, wordTokenize).Raise? ==>
      exists i :: 0 <= i < |paths| && parse(paths[i]).Failed?
        && StrictWords(paths, parse, wordTokenize).error == ParseFailure(paths[i])
        && forall j :: 0 <= j < i ==> parse(paths[j]).Parsed?
    ensures StrictWords(paths, parse, wordTokenize).Ok? ==>
      StrictWords(paths, parse, wordTokenize).value == LenientWords(paths, parse, wordTokenize)
  {
    if paths != [] {
      var rest := paths[1..];
      StrictWordsSpec(rest, parse, wordTokenize);
      assert forall p :: p in paths <==> p == paths[0] || p in rest;
      if parse(paths[0]).Parsed? && StrictWords(rest, parse, wordTokenize).Raise? {
        var i :| 0 <= i < |rest| && parse(rest[i]).Failed?
          && StrictWords(rest, parse, wordTokenize).error == ParseFailure(rest[i])
          && forall j :: 0 <= j < i ==> parse(rest[j]).Parsed?;
        assert paths[i + 1] == rest[i];
        assert forall j :: 1 <= j < i + 1 ==> paths[j] == rest[j - 1];
      }
    }
  }

  // ---------------------------------------------------------------------
  // Summary file names

  /** `[name for name in names if name.startswith(prefix)]`. */
  function Matching(names: seq<string>, prefix: string): seq<string> {
    if names == [] then []
    else (if StartsWith(names[0], prefix) then [names[0]] else []) + Matching(names[1..], prefix)
  }

  /** The filter keeps exactly the names with the prefix, each as often as it
      is listed. */
  lemma {:induction false} MatchingSpec(names: seq<string>, prefix: string)
    ensures forall x :: x in Matching(names, prefix) <==> x in names && StartsWith(x, prefix)
    ensures forall x :: StartsWith(x, prefix) ==> multiset(Matching(names, prefix))[x] == multiset(names)[x]
    ensures forall x :: !StartsWith(x, prefix) ==> multiset(Matching(names, prefix))[x] == 0
  {
    if names != [] {
      MatchingSpec(names[1..], prefix);
      assert names == [names[0]] + names[1..];
    }
  }

  /** `get_summaries(docset, root)` of the earlier revision, given
      `listdir(root)`: the listed names starting with `docset.upper()`, sorted. */
  function GetSummaries(docset: string, listing: seq<string>): seq<string> {
    SortBy(Matching(listing, Upper(docset)), Id)
  }

  /** The summaries of a docset are a sorted permutation of the listed names
      that start with the upper-cased docset name: each such name appears
      exactly as often as it is listed, and no other name appears. */
  lemma GetSummariesSpec(docset: string, listing: seq<string>)
    ensures var r := GetSummaries(docset, listing);
      SortedBy(r, Id)
      && multiset(r) == multiset(Matching(listing, Upper(docset)))
      && (forall x :: x in r <==> x in listing && StartsWith(x, Upper(docset)))
      && |r| <= |listing|
  {
    var kept := Matching(listing, Upper(docset));
    MatchingSpec(listing, Upper(docset));
    MatchingLength(listing, Upper(docset));
    var r := SortBy(kept, Id);
    SortBySpec(kept, Id);
    assert forall x :: x in r <==> x in multiset(r);
    assert forall x :: x in kept <==> x in multiset(kept);
    assert |r| == |multiset(r)|;
  }

  lemma {:induction false} MatchingLength(names: seq<string>, prefix: string)
    ensures |Matching(names, prefix)| <= |names|
  {
    if names != [] {
      MatchingLength(names[1..], prefix);
    }
  }

  /** `get_summaries(docset, root)` of the later revision, given
      `listdir(root)`: the `root`-joined listed names starting with
      `docset.upper()`, in listing order. */
  function GetSummaryPaths(docset: string, root: string, listing: seq<string>): seq<string> {
    JoinMatching(root, listing, Upper(docset))
  }

  /** The later revision's summary paths are the earlier revision's filter,
      left in listing order and joined under `root`. */
  lemma {:induction false} GetSummaryPathsInListingOrder(docset: string, root: string, listing: seq<string>)
    ensures GetSummaryPaths(docset, root, listing) == JoinAll(root, Matching(listing, Upper(docset)))
  {
    JoinMatchingIsJoinAll(root, listing, Upper(docset));
  }

  lemma {:induction false} JoinMatchingIsJoinAll(dir: string, names: seq<string>, prefix: string)
    ensures JoinMatching(dir, names, prefix) == JoinAll(dir, Matching(names, prefix))
  {
    if names != [] {
      JoinMatchingIsJoinAll(dir, names[1..], prefix);
      var head := if StartsWith(names[0], prefix) then [names[0]] else [];
      JoinAllConcat(dir, head, Matching(names[1..], prefix));
    }
  }

  lemma {:induction false} JoinAllConcat(dir: string, a: seq<string>, b: seq<string>)
    ensures JoinAll(dir, a + b) == JoinAll(dir, a) + JoinAll(dir, b)
  {
    if a == [] {
      assert a + b == b;
    } else {
      assert (a + b)[1..] == a[1..] + b;
      JoinAllConcat(dir, a[1..], b);
    }
  }

  // ---------------------------------------------------------------------
  // The earlier revision's driver

  /** One docset to count: the corpus roots it was found under, its id and
      its document names. */
  datatype Job = Job(docsRoot: string, sumsRoot: string, id: string, docs: seq<string>)

  /** The docsets `docsets` found under a pair of roots, in order. */
  function RootJobs(root: (string, string), docsets: seq<(string, seq<string>)>): (r: seq<Job>)
    ensures |r| == |docsets|
  {
    if docsets == [] then []
    else
      var (id, docs) := docsets[|docsets| - 1];
      RootJobs(root, docsets[..|docsets| - 1]) + [Job(root.0, root.1, id, docs)]
  }

  /** The docsets of all roots, root by root. */
  function Jobs(roots: seq<(string, string)>, src: Sources): seq<Job> {
    if roots == [] then [] else Jobs(roots[..|roots| - 1], src) + RootJobs(roots[|roots| - 1], src.documents(roots[|roots| - 1].0))
  }

  /** `get_docset_words(docset_id, docset_docs, docs_root)`. */
  function DocsetWords(job: Job, src: Sources): seq<string> {
    LenientWords(JoinAll(PathJoin(job.docsRoot, job.id), job.docs), src.docSents, src.wordTokenize)
  }

  /** `get_summary_words(docset_id, sums_root)`. */
  function SummaryWords(docsetId: string, sumsRoot: string, src: Sources): seq<string> {
    LenientWords(JoinAll(sumsRoot, GetSummaries(docsetId, src.listdir(sumsRoot))), src.summarySents, src.wordTokenize)
  }

  /** `f` applied to each element of `xs`, in order. */
  ghost function Each<A, B>(xs: seq<A>, f: A -> B): (r: seq<B>)
    ensures |r| == |xs|
  {
    if xs == [] then [] else Each(xs[..|xs| - 1], f) + [f(xs[|xs| - 1])]
  }

  lemma {:induction false} EachConcat<A, B>(a: seq<A>, b: seq<A>, f: A -> B)
    ensures Each(a + b, f) == Each(a, f) + Each(b, f)
  {
    if b == [] {
      assert a + b == a;
    } else {
      var n := |b| - 1;
      assert (a + b)[..|a + b| - 1] == a + b[..n];
      EachConcat(a, b[..n], f);
    }
  }

  lemma {:induction false} EachIndex<A, B>(xs: seq<A>, f: A -> B, i: int)
    requires 0 <= i < |xs|
    ensures Each(xs, f)[i] == f(xs[i])
  {
    if i < |xs| - 1 {
      EachIndex(xs[..|xs| - 1], f, i);
    }
  }

  /** Counting the docsets of one more pair of roots appends their results. */
  lemma EachJobsStep<B>(roots: seq<(string, string)>, r: nat, src: Sources, f: Job -> B)
    requires r < |roots|
    ensures Each(Jobs(roots[..r + 1], src), f)
         == Each(Jobs(roots[..r], src), f) + Each(RootJobs(roots[r], src.documents(roots[r].0)), f)
  {
    assert roots[..r + 1][..r] == roots[..r];
    EachConcat(Jobs(roots[..r], src), RootJobs(roots[r], src.documents(roots[r].0)), f);
  }

  /** Counting one more docset of a root appends its result. */
  lemma EachRootJobsStep<B>(root: (string, string), docsets: seq<(string, seq<string>)>, k: nat, f: Job -> B)
    requires k < |docsets|
    ensures Each(RootJobs(root, docsets[..k + 1]), f)
         == Each(RootJobs(root, docsets[..k]), f) + [f(Job(root.0, root.1, docsets[k].0, docsets[k].1))]
  {
    assert docsets[..k + 1][..k] == docsets[..k];
  }

  /** The statistics of a docset's documents beside those of its summaries. */
  ghost function JobTallies(job: Job, src: Sources, emotions: EmotionLexicon,
                            lexicon: map<string, seq<(string, string)>>): (Tally, Tally)
  {
    (Expected(DocsetWords(job, src), emotions, lexicon),
     Expected(SummaryWords(DropLast(job.id), job.sumsRoot, src), emotions, lexicon))
  }

  ghost function JobTalliesOf(src: Sources, emotions: EmotionLexicon,
                              lexicon: map<string, seq<(string, string)>>): Job -> (Tally, Tally)
  {
    (job: Job) => JobTallies(job, src, emotions, lexicon)
  }

  /** The body of the inner loop of `get_two_stats_vectors(roots)`: the
      document record and the summary record of one docset. */
  method CountJob(job: Job, src: Sources, emotionWords: EmotionLexicon,
                  sentimentWords: map<string, seq<(string, string)>>)
    returns (docVector: DocStats, summaryVector: DocStats)
    ensures (docVector.Snapshot(), summaryVector.Snapshot()) == JobTallies(job, src, emotionWords, sentimentWords)
  {
    docVector := GetDocStats(DocsetWords(job, src), emotionWords, sentimentWords);
    summaryVector := GetDocStats(SummaryWords(DropLast(job.id), job.sumsRoot, src), emotionWords, sentimentWords);
  }

  /** One turn of the inner loop of `get_two_stats_vectors(roots)`: the
      records of the `k`-th docset of a root appended to those of the ones
      before it. */
  method CountNext(root: (string, string), docsets: seq<(string, seq<string>)>, k: nat,
                   docStats: seq<DocStats>, summaryStats: seq<DocStats>, src: Sources,
                   emotionWords: EmotionLexicon, sentimentWords: map<string, seq<(string, string)>>)
    returns (docStats': seq<DocStats>, summaryStats': seq<DocStats>)
    requires k < |docsets| && |docStats| == |summaryStats|
    requires SnapshotPairs(docStats, summaryStats)
          == Each(RootJobs(root, docsets[..k]), JobTalliesOf(src, emotionWords, sentimentWords))
    ensures |docStats'| == |summaryStats'|
    ensures SnapshotPairs(docStats', summaryStats')
         == Each(RootJobs(root, docsets[..k + 1]), JobTalliesOf(src, emotionWords, sentimentWords))
  {
    var job := Job(root.0, root.1, docsets[k].0, docsets[k].1);
    EachRootJobsStep(root, docsets, k, JobTalliesOf(src, emotionWords, sentimentWords));
    var docVector, summaryVector := CountJob(job, src, emotionWords, sentimentWords);
    SnapshotPairsConcat(docStats, summaryStats, [docVector], [summaryVector]);
    docStats', summaryStats' := docStats + [docVector], summaryStats + [summaryVector];
  }

  /** The inner loop of `get_two_stats_vectors(roots)` for one pair of roots:
      a document record and a summary record per docset, in order. */
  method CountRoot(root: (string, string), src: Sources, emotionWords: EmotionLexicon,
                   sentimentWords: map<string, seq<(string, string)>>)
    returns (docStats: seq<DocStats>, summaryStats: seq<DocStats>)
    ensures |docStats| == |summaryStats|
    ensures SnapshotPairs(docStats, summaryStats)
         == Each(RootJobs(root, src.documents(root.0)), JobTalliesOf(src, emotionWords, sentimentWords))
  {
    var docsets := src.documents(root.0);
    docStats, summaryStats := [], [];
    var k := 0;
    while k < |docsets|
      invariant 0 <= k <= |docsets|
      invariant |docStats| == |summaryStats|
      invariant SnapshotPairs(docStats, summaryStats)
             == Each(RootJobs(root, docsets[..k]), JobTalliesOf(src, emotionWords, sentimentWords))
    {
      docStats, summaryStats := CountNext(root, docsets, k, docStats, summaryStats, src, emotionWords, sentimentWords);
      k := k + 1;
    }
    assert docsets[..k] == docsets;
  }

  /** One turn of the outer loop of `get_two_stats_vectors(roots)`: the
      records of the docsets under the `r`-th pair of roots appended to those
      under the pairs before it. */
  method CountRootNext(roots: seq<(string, string)>, r: nat, docStats: seq<DocStats>, summaryStats: seq<DocStats>,
                       src: Sources, emotionWords: EmotionLexicon, sentimentWords: map<string, seq<(string, string)>>)
    returns (docStats': seq<DocStats>, summaryStats': seq<DocStats>)
    requires r < |roots| && |docStats| == |summaryStats|
    requires SnapshotPairs(docStats, summaryStats) == Each(Jobs(roots[..r], src), JobTalliesOf(src, emotionWords, sentimentWords))
    ensures |docStats'| == |summaryStats'|
    ensures SnapshotPairs(docStats', summaryStats')
         == Each(Jobs(roots[..r + 1], src), JobTalliesOf(src, emotionWords, sentimentWords))
  {
    var ds, ss := CountRoot(roots[r], src, emotionWords, sentimentWords);
    EachJobsStep(roots, r, src, JobTalliesOf(src, emotionWords, sentimentWords));
    SnapshotPairsConcat(docStats, summaryStats, ds, ss);
    docStats', summaryStats' := docStats + ds, summaryStats + ss;
  }

  /** `get_two_stats_vectors(roots)`, given the two lexicons: one document
      record and one summary record per docset, in the same order; the
      summary record of a docset counts the summaries named after its id
      without the last letter. */
  method GetTwoStatsVectors(roots: seq<(string, string)>, src: Sources, emotionWords: EmotionLexicon,
                            sentimentWords: map<string, seq<(string, string)>>)
    returns (docStats: seq<DocStats>, summaryStats: seq<DocStats>)
    ensures |docStats| == |summaryStats| == |Jobs(roots, src)|
    ensures forall i :: 0 <= i < |docStats| ==>
      docStats[i].Snapshot() == Expected(DocsetWords(Jobs(roots, src)[i], src), emotionWords, sentimentWords)
    ensures forall i :: 0 <= i < |summaryStats| ==>
      var job := Jobs(roots, src)[i];
      summaryStats[i].Snapshot() == Expected(SummaryWords(DropLast(job.id), job.sumsRoot, src), emotionWords, sentimentWords)
  {
    docStats, summaryStats := [], [];
    var r := 0;
    while r < |roots|
      invariant 0 <= r <= |roots|
      invariant |docStats| == |summaryStats|
      invariant SnapshotPairs(docStats, summaryStats) == Each(Jobs(roots[..r], src), JobTalliesOf(src, emotionWords, sentimentWords))
    {
      docStats, summaryStats := CountRootNext(roots, r, docStats, summaryStats, src, emotionWords, sentimentWords);
      r := r + 1;
    }
    assert roots[..r] == roots;
    TalliesAt(docStats, summaryStats, Jobs(roots, src), src, emotionWords, sentimentWords);
  }

  /** Records whose results are the tallies of `jobs`, position by position. */
  lemma TalliesAt(docStats: seq<DocStats>, summaryStats: seq<DocStats>, jobs: seq<Job>, src: Sources,
                  emotionWords: EmotionLexicon, sentimentWords: map<string, seq<(string, string)>>)
    requires |docStats| == |summaryStats|
    requires SnapshotPairs(docStats, summaryStats) == Each(jobs, JobTalliesOf(src, emotionWords, sentimentWords))
    ensures |docStats| == |jobs|
    ensures forall i :: 0 <= i < |docStats| ==>
      docStats[i].Snapshot() == Expected(DocsetWords(jobs[i], src), emotionWords, sentimentWords)
    ensures forall i :: 0 <= i < |summaryStats| ==>
      summaryStats[i].Snapshot() == Expected(SummaryWords(DropLast(jobs[i].id), jobs[i].sumsRoot, src), emotionWords, sentimentWords)
  {
    forall i | 0 <= i < |docStats|
      ensures docStats[i].Snapshot() == Expected(DocsetWords(jobs[i], src), emotionWords, sentimentWords)
      ensures summaryStats[i].Snapshot() == Expected(SummaryWords(DropLast(jobs[i].id), jobs[i].sumsRoot, src), emotionWords, sentimentWords)
    {
      SnapshotPairsIndex(docStats, summaryStats, i);
      EachIndex(jobs, JobTalliesOf(src, emotionWords, sentimentWords), i);
    }
  }

  // ---------------------------------------------------------------------
  // The later revision's driver

  /** `get_emotion_words(emotion)` given the content of the emotion's list:
      the tokens that are not comments, `_` turned into a space. */
  function GetEmotionWords(content: string): Result<set<string>> {
    KeepTokens(Split(content), true)
  }

  /** The list raises IndexError exactly when it holds a one-character token;
      otherwise its words are the non-comment tokens with every `_` replaced
      by a space, so no word holds `_`. */
  lemma GetEmotionWordsSpec(content: string)
    ensures var r := GetEmotionWords(content);
      && (r.Raise? <==> exists t :: t in Split(content) && |t| < 2)
      && (r.Raise? ==> r.error == IndexError)
      && (r.Ok? ==> forall w :: w in r.value <==>
            exists t :: t in Split(content) && !IsComment(t) && w == ReplaceChar(t, '_', ' '))
      && (r.Ok? ==> forall w :: w in r.value ==> '_' !in w)
  {
    KeepTokensSpec(Split(content), true);
    var r := GetEmotionWords(content);
    if r.Ok? {
      forall w | w in r.value ensures '_' !in w {
        var t :| t in Split(content) && !IsComment(t) && w == ReplaceChar(t, '_', ' ');
      }
    }
  }

  /** `{emotion: get_emotion_words(emotion) for emotion in emotions}`, in the
      order of `emotions`, given each list's content; the first list that
      raises stops the build. */
  function EmotionLexiconFrom(emotions: seq<string>, files: string -> string): Result<EmotionLexicon> {
    if emotions == [] then Ok([])
    else
      match GetEmotionWords(files(emotions[0]))
      case Raise(e) => Raise(e)
      case Ok(ws) =>
        match EmotionLexiconFrom(emotions[1..], files)
        case Raise(e) => Raise(e)
        case Ok(rest) => Ok([(emotions[0], ws)] + rest)
  }

  /** The build succeeds exactly when every list does, and then holds one
      category per emotion, in order, with that emotion's words. */
  lemma {:induction false} EmotionLexiconFromSpec(emotions: seq<string>, files: string -> string)
    ensures EmotionLexiconFrom(emotions, files).Ok? <==> forall e :: e in emotions ==> GetEmotionWords(files(e)).Ok?
    ensures EmotionLexiconFrom(emotions, files).Ok? ==>
      var lex := EmotionLexiconFrom(emotions, files).value;
      |lex| == |emotions|
      && forall i :: 0 <= i < |lex| ==> lex[i] == (emotions[i], GetEmotionWords(files(emotions[i])).value)
  {
    if emotions != [] {
      var rest := emotions[1..];
      EmotionLexiconFromSpec(rest, files);
      assert forall e :: e in emotions <==> e == emotions[0] || e in rest;
      if EmotionLexiconFrom(emotions, files).Ok? {
        var lex := EmotionLexiconFrom(emotions, files).value;
        assert forall i :: 1 <= i < |lex| ==> emotions[i] == rest[i - 1];
      }
    }
  }

  /** `get_docset_words(docset_id, docset_docs)` of the later revision:
      the words of the files `join(join(docs_root, id), doc)`. */
  function DocSide(docsRoot: string, docset: (string, seq<string>), src: Sources): Result<seq<string>> {
    StrictWords(JoinAll(PathJoin(docsRoot, docset.0), docset.1), src.docSents, src.wordTokenize)
  }

  /** `get_summary_words(docset_id[:-1])` of the later revision. */
  function SummarySide(sumsRoot: string, docset: (string, seq<string>), src: Sources): Result<seq<string>> {
    StrictWords(GetSummaryPaths(DropLast(docset.0), sumsRoot, src.listdir(sumsRoot)), src.summarySents, src.wordTokenize)
  }

  /** What the later revision makes of one docset: the first failure of its
      document side or its summary side, or the results of both records. */
  function DocsetTallies(docset: (string, seq<string>), docsRoot: string, sumsRoot: string, src: Sources,
                         emotions: EmotionLexicon, lexicon: map<string, Clue>): Result<(Tally, Tally)>
  {
    var docWords := DocSide(docsRoot, docset, src);
    var sumWords := SummarySide(sumsRoot, docset, src);
    if docWords.Raise? then Raise(docWords.error)
    else if sumWords.Raise? then Raise(sumWords.error)
    else Ok((ExpectedByEntry(docWords.value, emotions, lexicon), ExpectedByEntry(sumWords.value, emotions, lexicon)))
  }

  ghost function DocsetTalliesOf(docsRoot: string, sumsRoot: string, src: Sources, emotions: EmotionLexicon,
                                 lexicon: map<string, Clue>): ((string, seq<string>)) -> Result<(Tally, Tally)>
  {
    (docset: (string, seq<string>)) => DocsetTallies(docset, docsRoot, sumsRoot, src, emotions, lexicon)
  }

  /** `f` applied to the elements of `xs` in order, stopping at the first
      failure. */
  ghost function Collect<A, T>(xs: seq<A>, f: A -> Result<T>): Result<seq<T>> {
    if xs == [] then Ok([])
    else
      match Collect(xs[..|xs| - 1], f)
      case Raise(e) => Raise(e)
      case Ok(ts) =>
        match f(xs[|xs| - 1])
        case Raise(e) => Raise(e)
        case Ok(t) => Ok(ts + [t])
  }

  /** Collecting succeeds exactly when every element succeeds, and then
      yields every element's value in order; otherwise it fails with the
      failure of the first element that fails. */
  lemma {:induction false} CollectSpec<A, T>(xs: seq<A>, f: A -> Result<T>)
    ensures Collect(xs, f).Ok? <==> forall i :: 0 <= i < |xs| ==> f(xs[i]).Ok?
    ensures Collect(xs, f).Ok? ==>
      |Collect(xs, f).value| == |xs| && forall i :: 0 <= i < |xs| ==> Collect(xs, f).value[i] == f(xs[i]).value
    ensures Collect(xs, f).Raise? ==>
      exists i :: 0 <= i < |xs| && f(xs[i]) == Raise(Collect(xs, f).error) && forall j :: 0 <= j < i ==> f(xs[j]).Ok?
  {
    if xs != [] {
      var n := |xs| - 1;
      var pre := xs[..n];
      CollectSpec(pre, f);
      assert forall i :: 0 <= i < n ==> pre[i] == xs[i];
      if Collect(pre, f).Raise? {
        var i :| 0 <= i < n && f(pre[i]) == Raise(Collect(pre, f).error) && forall j :: 0 <= j < i ==> f(pre[j]).Ok?;
        assert f(xs[i]) == Raise(Collect(xs, f).error);
      }
    }
  }

  /** Collecting one more element after a successful prefix. */
  lemma CollectStep<A, T>(xs: seq<A>, k: nat, f: A -> Result<T>)
    requires k < |xs| && Collect(xs[..k], f).Ok?
    ensures f(xs[k]).Raise? ==> Collect(xs[..k + 1], f) == Raise(f(xs[k]).error)
    ensures f(xs[k]).Ok? ==> Collect(xs[..k + 1], f) == Ok(Collect(xs[..k], f).value + [f(xs[k]).value])
  {
    assert xs[..k + 1][..k] == xs[..k];
  }

  /** Once a prefix fails, the whole sequence fails the same way. */
  lemma {:induction false} CollectRaiseStops<A, T>(xs: seq<A>, k: nat, f: A -> Result<T>)
    requires k <= |xs| && Collect(xs[..k], f).Raise?
    ensures Collect(xs, f) == Collect(xs[..k], f)
    decreases |xs| - k
  {
    if k < |xs| {
      var n := |xs| - 1;
      assert xs[..n][..k] == xs[..k];
      CollectRaiseStops(xs[..n], k, f);
    } else {
      assert xs[..k] == xs;
    }
  }

  /** The later revision's run over the docsets fails exactly when some
      document or summary of some docset cannot be parsed, and then with the
      failure of the first such docset (its documents are read before its
      summaries); otherwise it counts each docset's document words and
      summary words with the single-entry pass. */
  lemma DocsetsOutcome(docsets: seq<(string, seq<string>)>, docsRoot: string, sumsRoot: string, src: Sources,
                       emotions: EmotionLexicon, lexicon: map<string, Clue>)
    ensures var r := Collect(docsets, DocsetTalliesOf(docsRoot, sumsRoot, src, emotions, lexicon));
      && (r.Raise? <==> exists i :: (0 <= i < |docsets|
            && (DocSide(docsRoot, docsets[i], src).Raise? || SummarySide(sumsRoot, docsets[i], src).Raise?)))
      && (r.Raise? ==> exists i :: (0 <= i < |docsets|
            && DocsetTallies(docsets[i], docsRoot, sumsRoot, src, emotions, lexicon) == Raise(r.error)
            && forall j :: 0 <= j < i ==> DocsetTallies(docsets[j], docsRoot, sumsRoot, src, emotions, lexicon).Ok?))
      && (r.Ok? ==> |r.value| == |docsets| && forall i :: 0 <= i < |docsets| ==>
            && DocSide(docsRoot, docsets[i], src).Ok? && SummarySide(sumsRoot, docsets[i], src).Ok?
            && r.value[i] == (ExpectedByEntry(DocSide(docsRoot, docsets[i], src).value, emotions, lexicon),
                              ExpectedByEntry(SummarySide(sumsRoot, docsets[i], src).value, emotions, lexicon)))
  {
    CollectSpec(docsets, DocsetTalliesOf(docsRoot, sumsRoot, src, emotions, lexicon));
  }

  /** The body of the loop of `get_two_stats_vectors()`: the document record
      and the summary record of one docset, or the failure that stops the run. */
  method CountDocset(docset: (string, seq<string>), docsRoot: string, sumsRoot: string, src: Sources,
                     emotions: EmotionLexicon, lexicon: map<string, Clue>)
    returns (r: Result<(DocStats, DocStats)>)
    ensures r.Raise? ==> DocsetTallies(docset, docsRoot, sumsRoot, src, emotions, lexicon) == Raise(r.error)
    ensures r.Ok? ==>
      DocsetTallies(docset, docsRoot, sumsRoot, src, emotions, lexicon) == Ok((r.value.0.Snapshot(), r.value.1.Snapshot()))
  {
    var docWords := StrictWords(JoinAll(PathJoin(docsRoot, docset.0), docset.1), src.docSents, src.wordTokenize);
    if docWords.Raise? {
      return Raise(docWords.error);
    }
    var docVector := GetDocStatsByEntry(docWords.value, emotions, lexicon);
    var sumWords := StrictWords(GetSummaryPaths(DropLast(docset.0), sumsRoot, src.listdir(sumsRoot)),
                                src.summarySents, src.wordTokenize);
    if sumWords.Raise? {
      return Raise(sumWords.error);
    }
    var summaryVector := GetDocStatsByEntry(sumWords.value, emotions, lexicon);
    return Ok((docVector, summaryVector));
  }

  /** One turn of the loop of `get_two_stats_vectors()`: the records of the
      `k`-th docset appended to those of the docsets before it, or the
      failure that stops the run. */
  method CountDocsetNext(docsets: seq<(string, seq<string>)>, k: nat, docStats: seq<DocStats>, summaryStats: seq<DocStats>,
                         docsRoot: string, sumsRoot: string, src: Sources, emotions: EmotionLexicon, lexicon: map<string, Clue>)
    returns (r: Result<(seq<DocStats>, seq<DocStats>)>)
    requires k < |docsets| && |docStats| == |summaryStats|
    requires Collect(docsets[..k], DocsetTalliesOf(docsRoot, sumsRoot, src, emotions, lexicon)) == Ok(SnapshotPairs(docStats, summaryStats))
    ensures r.Raise? ==> Collect(docsets[..k + 1], DocsetTalliesOf(docsRoot, sumsRoot, src, emotions, lexicon)) == Raise(r.error)
    ensures r.Ok? ==> (|r.value.0| == |r.value.1|
      && Collect(docsets[..k + 1], DocsetTalliesOf(docsRoot, sumsRoot, src, emotions, lexicon)) == Ok(SnapshotPairs(r.value.0, r.value.1)))
  {
    CollectStep(docsets, k, DocsetTalliesOf(docsRoot, sumsRoot, src, emotions, lexicon));
    var counted := CountDocset(docsets[k], docsRoot, sumsRoot, src, emotions, lexicon);
    if counted.Raise? {
      return Raise(counted.error);
    }
    SnapshotPairsConcat(docStats, summaryStats, [counted.value.0], [counted.value.1]);
    return Ok((docStats + [counted.value.0], summaryStats + [counted.value.1]));
  }

  /** The loop of `get_two_stats_vectors()` over the docsets: the first
      failure, or a document record and a summary record per docset whose
      results are those `DocsetsOutcome` describes. */
  method CountDocsets(docsets: seq<(string, seq<string>)>, docsRoot: string, sumsRoot: string, src: Sources,
                      emotions: EmotionLexicon, lexicon: map<string, Clue>)
    returns (r: Result<(seq<DocStats>, seq<DocStats>)>)
    ensures r.Raise? ==> Collect(docsets, DocsetTalliesOf(docsRoot, sumsRoot, src, emotions, lexicon)) == Raise(r.error)
    ensures r.Ok? ==> (|r.value.0| == |r.value.1|
      && Collect(docsets, DocsetTalliesOf(docsRoot, sumsRoot, src, emotions, lexicon)) == Ok(SnapshotPairs(r.value.0, r.value.1)))
  {
    var docStats: seq<DocStats>, summaryStats: seq<DocStats> := [], [];
    var k := 0;
    while k < |docsets|
      invariant 0 <= k <= |docsets|
      invariant |docStats| == |summaryStats|
      invariant Collect(docsets[..k], DocsetTalliesOf(docsRoot, sumsRoot, src, emotions, lexicon)) == Ok(SnapshotPairs(docStats, summaryStats))
    {
      var next := CountDocsetNext(docsets, k, docStats, summaryStats, docsRoot, sumsRoot, src, emotions, lexicon);
      if next.Raise? {
        CollectRaiseStops(docsets, k + 1, DocsetTalliesOf(docsRoot, sumsRoot, src, emotions, lexicon));
        return Raise(next.error);
      }
      docStats, summaryStats := next.value.0, next.value.1;
      k := k + 1;
    }
    assert docsets[..k] == docsets;
    return Ok((docStats, summaryStats));
  }

  /** The exception `get_two_stats_vectors()` raises, if any: from an emotion
      list, then from the lexicon, then from the first unreadable file. */
  ghost function DriverError(docsRoot: string, sumsRoot: string, emotionFiles: string -> string,
                             lexiconLines: seq<string>, src: Sources): Option<PyError> {
    var emotions := EmotionLexiconFrom(WORDNET_EMOTIONS, emotionFiles);
    var lexicon := ScoredLexicon(lexiconLines);
    if emotions.Raise? then Some(emotions.error)
    else if lexicon.Raise? then Some(lexicon.error)
    else
      var counted := Collect(src.documents(docsRoot), DocsetTalliesOf(docsRoot, sumsRoot, src, emotions.value, lexicon.value));
      if counted.Raise? then Some(counted.error) else None
  }

  /** `get_two_stats_vectors()` of the later revision, given the corpus roots,
      the content of each emotion list and the lines of the lexicon file:
      the exception the run raises, or one document record and one summary
      record per docset, in the same order, counted with the six emotion
      lists and the loaded lexicon. */
  method GetTwoStatsVectorsByEntry(docsRoot: string, sumsRoot: string, emotionFiles: string -> string,
                                   lexiconLines: seq<string>, src: Sources)
    returns (r: Result<(seq<DocStats>, seq<DocStats>)>)
    ensures r.Raise? <==> DriverError(docsRoot, sumsRoot, emotionFiles, lexiconLines, src).Some?
    ensures r.Raise? ==> r.error == DriverError(docsRoot, sumsRoot, emotionFiles, lexiconLines, src).value
    ensures r.Ok? ==>
      && EmotionLexiconFrom(WORDNET_EMOTIONS, emotionFiles).Ok? && ScoredLexicon(lexiconLines).Ok?
      && |r.value.0| == |r.value.1|
      && Collect(src.documents(docsRoot), DocsetTalliesOf(docsRoot, sumsRoot, src, EmotionLexiconFrom(WORDNET_EMOTIONS, emotionFiles).value,
                                                          ScoredLexicon(lexiconLines).value))
         == Ok(SnapshotPairs(r.value.0, r.value.1))
  {
    var emotionWords := EmotionLexiconFrom(WORDNET_EMOTIONS, emotionFiles);
    if emotionWords.Raise? {
      return Raise(emotionWords.error);
    }
    var sentimentWords := ParseMpqa.MpqaData(lexiconLines);
    if sentimentWords.Raise? {
      return Raise(sentimentWords.error);
    }
    r := CountDocsets(src.documents(docsRoot), docsRoot, sumsRoot, src, emotionWords.value, sentimentWords.value);
  }
}
