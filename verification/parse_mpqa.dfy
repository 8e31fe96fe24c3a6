/**
 * The second MPQA loader: every clue line becomes its word and its fields
 * together with a signed score `val`, and a word keeps only the entry of
 * its last line. The line parser is the one of the list-building loader.
 */
module ParseMpqa {
  import opened Outcome
  import opened Mpqa

  /** A parsed clue: its `key=value` fields and its integer `val`. */
  datatype Clue = Clue(fields: map<string, string>, val: int)

  /** `(1 if type == 'weaksubj' else 2) * (1 if priorpolarity == 'positive' else -1)`. */
  function Score(strength: string, polarity: string): int {
    (if strength == "weaksubj" then 1 else 2) * (if polarity == "positive" then 1 else -1)
  }

  /** A score is one of -2, -1, 1, 2: positive exactly for positive clues, of
      magnitude 1 exactly for weak clues; every value outside the vocabulary
      counts as strong and as not positive. */
  lemma ScoreSpec(strength: string, polarity: string)
    ensures Score(strength, polarity) in {-2, -1, 1, 2}
    ensures Score(strength, polarity) > 0 <==> polarity == "positive"
    ensures Score(strength, polarity) in {-1, 1} <==> strength == "weaksubj"
  {
  }

  /** On the lexicon's vocabulary the score is strength weight times polarity sign. */
  lemma ScoreOfVocabulary(s: Strength, p: Polarity)
    ensures Score(StrengthName(s), PolarityName(p))
         == (if s == WeakSubj then 1 else 2) * (if p == Positive then 1 else -1)
  {
  }

  /** `parse_line(line)`: its word and its clue, or the KeyError of the first
      of `type`, `priorpolarity`, `word1` (the order they are read in) that
      the line lacks. The `val` it stores replaces any `val=` token. */
  function ScoredLine(line: string): Result<(string, Clue)> {
    var data := LineData(line);
    if "type" !in data then Raise(KeyError("type"))
    else if "priorpolarity" !in data then Raise(KeyError("priorpolarity"))
    else if "word1" !in data then Raise(KeyError("word1"))
    else Ok((data["word1"], Clue(data - {"val"}, Score(data["type"], data["priorpolarity"]))))
  }

  /** `parse_line(line)`, with the token loop of the list-building loader. */
  method ParseScoredLine(line: string) returns (r: Result<(string, Clue)>)
    ensures r == ScoredLine(line)
  {
    var data := ParseLine(line);
    if "type" !in data {
      return Raise(KeyError("type"));
    }
    if "priorpolarity" !in data {
      return Raise(KeyError("priorpolarity"));
    }
    var val := (if data["type"] == "weaksubj" then 1 else 2) * (if data["priorpolarity"] == "positive" then 1 else -1);
    if "word1" !in data {
      return Raise(KeyError("word1"));
    }
    r := Ok((data["word1"], Clue(data - {"val"}, val)));
  }

  /** A line parses exactly when it holds the three required keys; its clue
      keeps every other field of the line unchanged. */
  lemma ScoredLineSpec(line: string)
    ensures ScoredLine(line).Ok? <==> MissingKey(LineData(line)).None?
    ensures ScoredLine(line).Ok? ==>
      var (w, clue) := ScoredLine(line).value;
      var data := LineData(line);
      w == data["word1"] && "val" !in clue.fields
      && (forall k :: k in data && k != "val" ==> k in clue.fields && clue.fields[k] == data[k])
      && clue.val == Score(data["type"], data["priorpolarity"])
  {
  }

  /** The dictionary after the lines `lines`: each word's entry is that of the
      last line naming it. */
  function ScoredLexicon(lines: seq<string>): Result<map<string, Clue>> {
    if lines == [] then Ok(map[])
    else
      match ScoredLexicon(lines[..|lines| - 1])
      case Raise(e) => Raise(e)
      case Ok(m) =>
        match ScoredLine(lines[|lines| - 1])
        case Raise(e) => Raise(e)
        case Ok((w, clue)) => Ok(m[w := clue])
  }

  /** Once a prefix of the lines raises, the whole file raises the same error. */
  lemma {:induction false} ScoredLexiconRaiseStops(lines: seq<string>, i: nat)
    requires i <= |lines| && ScoredLexicon(lines[..i]).Raise?
    ensures ScoredLexicon(lines) == ScoredLexicon(lines[..i])
    decreases |lines| - i
  {
    if i < |lines| {
      var n := |lines| - 1;
      assert lines[..n][..i] == lines[..i];
      ScoredLexiconRaiseStops(lines[..n], i);
    } else {
      assert lines[..i] == lines;
    }
  }

  /** `mpqa_data(from_file)`: `result_dict[word] = data` for each line in order. */
  method MpqaData(lines: seq<string>) returns (r: Result<map<string, Clue>>)
    ensures r == ScoredLexicon(lines)
  {
    var resultDict: map<string, Clue> := map[];
    var i := 0;
    while i < |lines|
      invariant 0 <= i <= |lines|
      invariant ScoredLexicon(lines[..i]) == Ok(resultDict)
    {
      assert lines[..i + 1][..i] == lines[..i];
      var parsed := ParseScoredLine(lines[i]);
      if parsed.Raise? {
        ScoredLexiconRaiseStops(lines, i + 1);
        return Raise(parsed.error);
      }
      var (word, data) := parsed.value;
      resultDict := resultDict[word := data];
      i := i + 1;
    }
    assert lines[..i] == lines;
    return Ok(resultDict);
  }

  /** The line parses and its word is `w`. */
  predicate Names(line: string, w: string) {
    ScoredLine(line).Ok? && ScoredLine(line).value.0 == w
  }

  /** The loader succeeds exactly when every line parses. */
  lemma {:induction false} ScoredLexiconRaises(lines: seq<string>)
    ensures ScoredLexicon(lines).Ok? <==> forall i :: 0 <= i < |lines| ==> ScoredLine(lines[i]).Ok?
  {
    if lines != [] {
      var n := |lines| - 1;
      ScoredLexiconRaises(lines[..n]);
      assert forall i :: 0 <= i < n ==> lines[..n][i] == lines[i];
    }
  }

  /** A loaded file is its loaded prefix with the last line's entry stored. */
  lemma ScoredLexiconStep(lines: seq<string>)
    requires lines != [] && ScoredLexicon(lines).Ok?
    ensures ScoredLexicon(lines[..|lines| - 1]).Ok? && ScoredLine(lines[|lines| - 1]).Ok?
    ensures var (w, clue) := ScoredLine(lines[|lines| - 1]).value;
      ScoredLexicon(lines).value == ScoredLexicon(lines[..|lines| - 1]).value[w := clue]
  {
  }

  /** Loaded, a word is a key exactly when some line names it. */
  lemma {:induction false} ScoredLexiconKeys(lines: seq<string>, w: string)
    requires ScoredLexicon(lines).Ok?
    ensures w in ScoredLexicon(lines).value <==> exists i :: 0 <= i < |lines| && Names(lines[i], w)
  {
    if lines != [] {
      var n := |lines| - 1;
      var pre := lines[..n];
      assert forall i :: 0 <= i < n ==> pre[i] == lines[i];
      ScoredLexiconStep(lines);
      ScoredLexiconKeys(pre, w);
      assert w in ScoredLexicon(lines).value <==> Names(lines[n], w) || w in ScoredLexicon(pre).value;
    }
  }

  /** Line `i` gives `w` the clue `clue`, and no later line names `w`. */
  predicate LastNaming(lines: seq<string>, i: int, w: string, clue: Clue) {
    0 <= i < |lines| && ScoredLine(lines[i]) == Ok((w, clue))
    && forall j :: i < j < |lines| ==> !Names(lines[j], w)
  }

  /** Loaded, a word's entry is the clue of the last line naming it; `i` is that line. */
  lemma {:induction false} ScoredLexiconLastWins(lines: seq<string>, w: string) returns (i: int)
    requires ScoredLexicon(lines).Ok? && w in ScoredLexicon(lines).value
    ensures LastNaming(lines, i, w, ScoredLexicon(lines).value[w])
  {
    var n := |lines| - 1;
    var pre := lines[..n];
    ScoredLexiconStep(lines);
    if Names(lines[n], w) {
      i := n;
    } else {
      assert ScoredLexicon(lines).value[w] == ScoredLexicon(pre).value[w];
      i := ScoredLexiconLastWins(pre, w);
      LastNamingExtends(lines, i, w, ScoredLexicon(pre).value[w]);
    }
  }

  /** A line that does not name `w` leaves the last line naming it unchanged. */
  lemma LastNamingExtends(lines: seq<string>, i: int, w: string, clue: Clue)
    requires lines != [] && LastNaming(lines[..|lines| - 1], i, w, clue) && !Names(lines[|lines| - 1], w)
    ensures LastNaming(lines, i, w, clue)
  {
    var n := |lines| - 1;
    assert lines[..n][i] == lines[i];
    forall j | i < j < |lines|
      ensures !Names(lines[j], w)
    {
      if j < n {
        assert lines[..n][j] == lines[j];
      }
    }
  }

  /** Both loaders accept the same files. */
  lemma {:induction false} LoadersAcceptAlike(lines: seq<string>)
    ensures Lexicon(lines).Ok? <==> ScoredLexicon(lines).Ok?
  {
    if lines != [] {
      LoadersAcceptAlike(lines[..|lines| - 1]);
    }
  }

  /** Where both succeed they know the same words. */
  lemma {:induction false} LoadersKnowSameWords(lines: seq<string>)
    requires Lexicon(lines).Ok? && ScoredLexicon(lines).Ok?
    ensures Lexicon(lines).value.Keys == ScoredLexicon(lines).value.Keys
  {
    if lines != [] {
      LexiconStep(lines);
      ScoredLexiconStep(lines);
      LoadersKnowSameWords(lines[..|lines| - 1]);
    }
  }

  /** Where both succeed, the last pair the list-building loader records for
      a word is the type and the polarity of the clue this loader keeps. */
  lemma {:induction false} LoadersAgree(lines: seq<string>)
    requires Lexicon(lines).Ok? && ScoredLexicon(lines).Ok?
    ensures forall w :: w in Lexicon(lines).value ==>
      var pairs := Lexicon(lines).value[w];
      w in ScoredLexicon(lines).value && |pairs| > 0
      && var clue := ScoredLexicon(lines).value[w];
      "type" in clue.fields && "priorpolarity" in clue.fields
      && pairs[|pairs| - 1] == (clue.fields["type"], clue.fields["priorpolarity"])
  {
    if lines != [] {
      var n := |lines| - 1;
      LexiconStep(lines);
      ScoredLexiconStep(lines);
      LoadersAgree(lines[..n]);
      var data := LineData(lines[n]);
      var clue := Clue(data - {"val"}, Score(data["type"], data["priorpolarity"]));
      assert ScoredLine(lines[n]).value == (data["word1"], clue);
      assert "type" in clue.fields && clue.fields["type"] == data["type"];
      assert "priorpolarity" in clue.fields && clue.fields["priorpolarity"] == data["priorpolarity"];
      var m := Lexicon(lines[..n]).value;
      forall w | w in Lexicon(lines).value && w != data["word1"]
        ensures Lexicon(lines).value[w] == m[w] && ScoredLexicon(lines).value[w] == ScoredLexicon(lines[..n]).value[w]
      {
      }
    }
  }
}
