/**
 * Navigating a DUC corpus: where a year's documents and summaries live,
 * which files make up a docset, and which summaries belong to a document.
 * `listdir` is a parameter (the names a directory holds, in the order the
 * file system gives them); nothing here opens a file.
 */
module Duc {
  import opened Text
  import opened Sorting
  import opened Outcome

  /** A DUC corpus of one year: the year and the full paths of its document
      and summary directories. */
  datatype DucCorpus = DucCorpus(year: string, docPath: string, sumPath: string)

  /** A docset: its id as given (trailing author letter included) and the
      sorted full paths of its documents and of its summaries. */
  datatype DocSet = DocSet(id: string, docs: seq<string>, sums: seq<string>)

  /** `make_duccorpus(year, project_root, docs_dir, sums_dir)`. */
  function MakeDucCorpus(year: string, projectRoot: string, docsDir: string, sumsDir: string): (c: DucCorpus)
    ensures c.year == year
  {
    var root := PathJoin(projectRoot, "DUC" + year);
    DucCorpus(year, PathJoin(root, docsDir), PathJoin(root, sumsDir))
  }

  /** With a root that does not end in '/' and relative directories, the
      corpus paths are `project_root/DUC<year>/docs_dir` and
      `project_root/DUC<year>/sums_dir`. */
  lemma MakeDucCorpusPaths(year: string, projectRoot: string, docsDir: string, sumsDir: string)
    requires projectRoot != "" && projectRoot[|projectRoot| - 1] != '/'
    requires year == "" || year[|year| - 1] != '/'
    requires docsDir == "" || docsDir[0] != '/'
    requires sumsDir == "" || sumsDir[0] != '/'
    ensures MakeDucCorpus(year, projectRoot, docsDir, sumsDir).docPath == projectRoot + "/DUC" + year + "/" + docsDir
    ensures MakeDucCorpus(year, projectRoot, docsDir, sumsDir).sumPath == projectRoot + "/DUC" + year + "/" + sumsDir
  {
    var root := projectRoot + "/" + ("DUC" + year);
    assert PathJoin(projectRoot, "DUC" + year) == root;
    assert root[|root| - 1] != '/';
  }

  /** An absolute directory argument replaces the whole prefix, as
      `os.path.join` does. */
  lemma MakeDucCorpusAbsolute(year: string, projectRoot: string, docsDir: string, sumsDir: string)
    requires docsDir != "" && docsDir[0] == '/'
    ensures MakeDucCorpus(year, projectRoot, docsDir, sumsDir).docPath == docsDir
  {
  }

  /** `[join(dir, name) for name in names]`. */
  function JoinAll(dir: string, names: seq<string>): (r: seq<string>)
    ensures |r| == |names|
  {
    if names == [] then [] else [PathJoin(dir, names[0])] + JoinAll(dir, names[1..])
  }

  /** Each name is joined in its own place. */
  lemma {:induction false} JoinAllIndex(dir: string, names: seq<string>, i: int)
    requires 0 <= i < |names|
    ensures JoinAll(dir, names)[i] == PathJoin(dir, names[i])
  {
    if i > 0 {
      JoinAllIndex(dir, names[1..], i - 1);
    }
  }

  /** The prefix a summary file of docset `id` starts with: `id[:-1].upper()`. */
  function SummaryPrefix(id: string): string {
    Upper(DropLast(id))
  }

  /** `[join(dir, name) for name in names if name.startswith(prefix)]`. */
  function JoinMatching(dir: string, names: seq<string>, prefix: string): seq<string> {
    if names == [] then []
    else (if StartsWith(names[0], prefix) then [PathJoin(dir, names[0])] else [])
         + JoinMatching(dir, names[1..], prefix)
  }

  lemma {:induction false} JoinMatchingSpec(dir: string, names: seq<string>, prefix: string, x: string)
    ensures x in JoinMatching(dir, names, prefix)
        <==> exists i :: 0 <= i < |names| && StartsWith(names[i], prefix) && x == PathJoin(dir, names[i])
  {
    if names != [] {
      JoinMatchingSpec(dir, names[1..], prefix, x);
      if exists i :: 0 <= i < |names| && StartsWith(names[i], prefix) && x == PathJoin(dir, names[i]) {
        var i :| 0 <= i < |names| && StartsWith(names[i], prefix) && x == PathJoin(dir, names[i]);
        if i > 0 {
          assert names[1..][i - 1] == names[i];
        }
      }
      if x in JoinMatching(dir, names[1..], prefix) {
        var i :| 0 <= i < |names[1..]| && StartsWith(names[1..][i], prefix) && x == PathJoin(dir, names[1..][i]);
        assert names[i + 1] == names[1..][i];
      }
    }
  }

  /** `make_docset(corpus, docset_id)`. */
  function MakeDocSet(corpus: DucCorpus, id: string, listdir: string -> seq<string>): DocSet {
    var docDir := PathJoin(corpus.docPath, id);
    var docs := JoinAll(docDir, listdir(docDir));
    var sums := JoinMatching(corpus.sumPath, listdir(corpus.sumPath), SummaryPrefix(id));
    DocSet(id, SortBy(docs, Id), SortBy(sums, Id))
  }

  /** A docset keeps its id unchanged; its documents are, sorted, one path
      `doc_path/id/name` per listed name; its summaries are a sorted
      permutation of the paths `sum_path/name` of the listed names that
      start with `id[:-1].upper()`, one per such name. */
  lemma MakeDocSetSpec(corpus: DucCorpus, id: string, listdir: string -> seq<string>, x: string)
    ensures var d := MakeDocSet(corpus, id, listdir);
      var docDir := PathJoin(corpus.docPath, id);
      d.id == id
      && SortedBy(d.docs, Id) && multiset(d.docs) == multiset(JoinAll(docDir, listdir(docDir)))
      && |d.docs| == |listdir(docDir)|
      && SortedBy(d.sums, Id)
      && multiset(d.sums) == multiset(JoinMatching(corpus.sumPath, listdir(corpus.sumPath), SummaryPrefix(id)))
      && (x in d.sums <==> exists i :: 0 <= i < |listdir(corpus.sumPath)|
                             && StartsWith(listdir(corpus.sumPath)[i], SummaryPrefix(id))
                             && x == PathJoin(corpus.sumPath, listdir(corpus.sumPath)[i]))
  {
    var d := MakeDocSet(corpus, id, listdir);
    var docDir := PathJoin(corpus.docPath, id);
    var sums := JoinMatching(corpus.sumPath, listdir(corpus.sumPath), SummaryPrefix(id));
    SortBySpec(JoinAll(docDir, listdir(docDir)), Id);
    SortBySpec(sums, Id);
    JoinMatchingSpec(corpus.sumPath, listdir(corpus.sumPath), SummaryPrefix(id), x);
    assert x in d.sums <==> x in multiset(d.sums);
    assert x in sums <==> x in multiset(sums);
    assert |d.docs| == |multiset(d.docs)|;
  }

  /** For docset `d17a` the summary prefix is `D17`: `D17.M.100.A.B` and
      `D17.1.100.A.C` belong to it, `D18.M.100.A.B` does not, and neither does
      a lower-case `d17.m.100.a.b`, since the file name is not case-folded. */
  lemma SummaryPrefixExample()
    ensures SummaryPrefix("d17a") == "D17"
    ensures StartsWith("D17.M.100.A.B", SummaryPrefix("d17a"))
    ensures StartsWith("D17.1.100.A.C", SummaryPrefix("d17a"))
    ensures !StartsWith("D18.M.100.A.B", SummaryPrefix("d17a"))
    ensures !StartsWith("d17.m.100.a.b", SummaryPrefix("d17a"))
  {
    assert DropLast("d17a") == "d17";
    var p := Upper("d17");
    assert p[0] == 'D' && p[1] == '1' && p[2] == '7';
    assert p == "D17";
    assert "D17.M.100.A.B"[..3] == "D17";
    assert "D17.1.100.A.C"[..3] == "D17";
    assert "D18.M.100.A.B"[2] == '8';
    assert "d17.m.100.a.b"[0] == 'd';
  }

  /** The id of a docset. */
  function IdOf(d: DocSet): string { d.id }

  /** `get_docsets(corpus)`: one docset per listed id, sorted. Python orders
      the records field by field, id first; two records with one id are the
      same record, since `make_docset` depends on nothing else, so ordering by
      id alone gives the same list. */
  function GetDocSets(corpus: DucCorpus, listdir: string -> seq<string>): seq<DocSet> {
    SortBy(MadeDocSets(corpus, listdir), IdOf)
  }

  /** The comprehension of `get_docsets`: the docset of each listed id, in listing order. */
  function MadeDocSets(corpus: DucCorpus, listdir: string -> seq<string>): (made: seq<DocSet>)
    ensures |made| == |listdir(corpus.docPath)|
    ensures forall i :: 0 <= i < |made| ==> made[i] == MakeDocSet(corpus, listdir(corpus.docPath)[i], listdir)
  {
    var ids := listdir(corpus.docPath);
    seq(|ids|, i requires 0 <= i < |ids| => MakeDocSet(corpus, ids[i], listdir))
  }

  /** `get_docsets` returns as many docsets as there are listed ids, ordered by
      id; each is the docset of its id, every listed id has its docset, and
      each id occurs among the results exactly as often as it is listed. */
  lemma GetDocSetsSpec(corpus: DucCorpus, listdir: string -> seq<string>)
    ensures var r := GetDocSets(corpus, listdir);
      var ids := listdir(corpus.docPath);
      |r| == |ids| && SortedBy(r, IdOf)
      && multiset(Keys(r, IdOf)) == multiset(ids)
      && (forall i :: 0 <= i < |r| ==> r[i] == MakeDocSet(corpus, r[i].id, listdir) && r[i].id in ids)
      && (forall j :: 0 <= j < |ids| ==> MakeDocSet(corpus, ids[j], listdir) in r)
  {
    var made := MadeDocSets(corpus, listdir);
    SortBySpec(made, IdOf);
    DocSetIds(corpus, listdir);
    PermutedDocSets(corpus, listdir, GetDocSets(corpus, listdir));
  }

  /** A permutation of the made docsets holds only docsets of listed ids, and all of them. */
  lemma PermutedDocSets(corpus: DucCorpus, listdir: string -> seq<string>, r: seq<DocSet>)
    requires multiset(r) == multiset(MadeDocSets(corpus, listdir))
    ensures var ids := listdir(corpus.docPath);
      (forall i :: 0 <= i < |r| ==> r[i] == MakeDocSet(corpus, r[i].id, listdir) && r[i].id in ids)
      && (forall j :: 0 <= j < |ids| ==> MakeDocSet(corpus, ids[j], listdir) in r)
  {
    var ids := listdir(corpus.docPath);
    var made := MadeDocSets(corpus, listdir);
    forall i | 0 <= i < |r| ensures r[i] == MakeDocSet(corpus, r[i].id, listdir) && r[i].id in ids {
      assert r[i] in multiset(made);
      var k :| 0 <= k < |made| && made[k] == r[i];
      assert made[k].id == ids[k];
    }
    forall j | 0 <= j < |ids| ensures MakeDocSet(corpus, ids[j], listdir) in r {
      assert made[j] in multiset(r);
    }
  }

  /** The ids of the docsets are the listed ids, each as often as listed. */
  lemma DocSetIds(corpus: DucCorpus, listdir: string -> seq<string>)
    ensures multiset(Keys(GetDocSets(corpus, listdir), IdOf)) == multiset(listdir(corpus.docPath))
  {
    var made := MadeDocSets(corpus, listdir);
    SortByKeys(made, IdOf);
    assert Keys(made, IdOf) == listdir(corpus.docPath);
  }

  // ---------------------------------------------------------------------
  // get_doc_sums

  /** `name.split('.')[1]`: None where the index raises IndexError (no '.'). */
  function SecondField(name: string): Option<string> {
    var parts := SplitOn(name, '.');
    if |parts| >= 2 then Some(parts[1]) else None
  }

  lemma SecondFieldSpec(name: string)
    ensures SecondField(name).None? <==> '.' !in name
  {
    SplitOnCount(name, '.');
    OccurrencesZero(name, '.');
  }

  /** The filter condition of `get_doc_sums` for one summary path, with
      Python's short-circuit `or`: the field is only read when the name test
      fails and `multidoc` holds. */
  function KeepSummary(path: string, docId: string, multidoc: bool): Result<bool> {
    var name := Basename(path);
    if name == docId + ".html" then Ok(true)
    else if !multidoc then Ok(false)
    else match SecondField(name)
      case None => Raise(IndexError)
      case Some(field) => Ok(field == "M")
  }

  /** The comprehension of `get_doc_sums`, in `docset.sums` order. */
  function KeptSummaries(sums: seq<string>, docId: string, multidoc: bool): Result<seq<string>> {
    if sums == [] then Ok([])
    else
      match KeepSummary(sums[0], docId, multidoc)
      case Raise(e) => Raise(e)
      case Ok(keep) =>
        match KeptSummaries(sums[1..], docId, multidoc)
        case Raise(e) => Raise(e)
        case Ok(rest) => Ok((if keep then [sums[0]] else []) + rest)
  }

  /** `get_doc_sums(docset, doc_id, multidoc)`. */
  function GetDocSums(docset: DocSet, docId: string, multidoc: bool): Result<seq<string>> {
    match KeptSummaries(docset.sums, docId, multidoc)
    case Raise(e) => Raise(e)
    case Ok(kept) => Ok(SortBy(kept, Id))
  }

  /** Whether a summary path is one of the document's: its file name is
      `doc_id.html`, or, for multi-document summaries, its second '.'-field is `M`. */
  predicate Selected(path: string, docId: string, multidoc: bool) {
    Basename(path) == docId + ".html"
    || (multidoc && SecondField(Basename(path)) == Some("M"))
  }

  /** A summary whose name is not the document's and holds no '.' makes the
      multi-document lookup raise IndexError. */
  predicate Unsplittable(path: string, docId: string, multidoc: bool) {
    multidoc && Basename(path) != docId + ".html" && '.' !in Basename(path)
  }

  /** The filter of one summary raises exactly on an unsplittable name, and
      otherwise says whether the summary is selected. */
  lemma KeepSummarySpec(path: string, docId: string, multidoc: bool)
    ensures KeepSummary(path, docId, multidoc).Raise? <==> Unsplittable(path, docId, multidoc)
    ensures KeepSummary(path, docId, multidoc).Raise? ==> KeepSummary(path, docId, multidoc) == Raise(IndexError)
    ensures KeepSummary(path, docId, multidoc).Ok? ==> KeepSummary(path, docId, multidoc).value == Selected(path, docId, multidoc)
  {
    SecondFieldSpec(Basename(path));
  }

  lemma {:induction false} KeptSummariesRaise(sums: seq<string>, docId: string, multidoc: bool)
    ensures KeptSummaries(sums, docId, multidoc).Raise?
        <==> exists p :: p in sums && Unsplittable(p, docId, multidoc)
    ensures KeptSummaries(sums, docId, multidoc).Raise? ==> KeptSummaries(sums, docId, multidoc) == Raise(IndexError)
  {
    if sums != [] {
      var rest := sums[1..];
      KeptSummariesRaise(rest, docId, multidoc);
      KeepSummarySpec(sums[0], docId, multidoc);
      assert sums == [sums[0]] + rest;
    }
  }

  lemma {:induction false} KeptSummariesContents(sums: seq<string>, docId: string, multidoc: bool)
    requires KeptSummaries(sums, docId, multidoc).Ok?
    ensures var kept := KeptSummaries(sums, docId, multidoc).value;
      multiset(kept) <= multiset(sums)
      && (forall x :: multiset(kept)[x] == if Selected(x, docId, multidoc) then multiset(sums)[x] else 0)
      && forall x :: x in kept <==> x in sums && Selected(x, docId, multidoc)
  {
    if sums != [] {
      var rest := sums[1..];
      assert sums == [sums[0]] + rest;
      assert multiset(sums) == multiset([sums[0]]) + multiset(rest);
      assert forall x :: x in sums <==> x == sums[0] || x in rest;
      KeptSummariesContents(rest, docId, multidoc);
      KeepSummarySpec(sums[0], docId, multidoc);
      var head := if Selected(sums[0], docId, multidoc) then [sums[0]] else [];
      var keptRest := KeptSummaries(rest, docId, multidoc).value;
      assert KeptSummaries(sums, docId, multidoc).value == head + keptRest;
      assert multiset(head + keptRest) == multiset(head) + multiset(keptRest);
      forall x ensures multiset(head)[x] == if Selected(x, docId, multidoc) then multiset([sums[0]])[x] else 0 {
      }
    }
  }

  /** `get_doc_sums` raises exactly when `multidoc` is set and some summary
      name is neither the document's nor splittable on '.'; otherwise it
      returns, sorted, the summaries of `docset.sums` that belong to the
      document, each exactly as often as it is listed. */
  lemma GetDocSumsSpec(docset: DocSet, docId: string, multidoc: bool)
    ensures GetDocSums(docset, docId, multidoc).Raise?
        <==> exists p :: p in docset.sums && Unsplittable(p, docId, multidoc)
    ensures GetDocSums(docset, docId, multidoc).Ok? ==>
      var r := GetDocSums(docset, docId, multidoc).value;
      SortedBy(r, Id) && multiset(r) <= multiset(docset.sums)
      && (forall x :: multiset(r)[x] == if Selected(x, docId, multidoc) then multiset(docset.sums)[x] else 0)
      && forall x :: x in r <==> x in docset.sums && Selected(x, docId, multidoc)
  {
    KeptSummariesRaise(docset.sums, docId, multidoc);
    if GetDocSums(docset, docId, multidoc).Ok? {
      KeptSummariesContents(docset.sums, docId, multidoc);
      var kept := KeptSummaries(docset.sums, docId, multidoc).value;
      var r := GetDocSums(docset, docId, multidoc).value;
      SortBySpec(kept, Id);
      forall x ensures x in r <==> x in kept {
        assert x in r <==> x in multiset(r);
        assert x in kept <==> x in multiset(kept);
      }
    }
  }

  /** Without `multidoc` the lookup never raises, and what it returns is part
      of what the `multidoc` lookup returns. */
  lemma SingleDocSumsWithinMultiDoc(docset: DocSet, docId: string)
    ensures GetDocSums(docset, docId, false).Ok?
    ensures GetDocSums(docset, docId, true).Ok? ==>
      multiset(GetDocSums(docset, docId, false).value) <= multiset(GetDocSums(docset, docId, true).value)
  {
    KeptWithin(docset.sums, docId);
    SortBySpec(KeptSummaries(docset.sums, docId, false).value, Id);
    if KeptSummaries(docset.sums, docId, true).Ok? {
      SortBySpec(KeptSummaries(docset.sums, docId, true).value, Id);
    }
  }

  lemma {:induction false} KeptWithin(sums: seq<string>, docId: string)
    ensures KeptSummaries(sums, docId, false).Ok?
    ensures KeptSummaries(sums, docId, true).Ok? ==>
      multiset(KeptSummaries(sums, docId, false).value) <= multiset(KeptSummaries(sums, docId, true).value)
  {
    if sums != [] {
      KeptWithin(sums[1..], docId);
    }
  }
}
