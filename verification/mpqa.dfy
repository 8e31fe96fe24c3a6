/**
 * The MPQA subjectivity-clue lexicon: its strength and polarity
 * vocabulary, the `key=value` line parser, and the loader that collects
 * every `(type, priorpolarity)` pair of a word in file order. The file's
 * lines are a parameter; opening the file is I/O and is not modelled.
 */
module Mpqa {
  import opened Text
  import opened Outcome

  /** A clue's subjectivity strength, the lexicon's `type` field. */
  datatype Strength = StrongSubj | WeakSubj

  /** A clue's prior polarity, the lexicon's `priorpolarity` field. */
  datatype Polarity = Positive | Negative | Neutral | Both

  function StrengthName(s: Strength): string {
    match s
    case StrongSubj => "strongsubj"
    case WeakSubj => "weaksubj"
  }

  function PolarityName(p: Polarity): string {
    match p
    case Positive => "positive"
    case Negative => "negative"
    case Neutral => "neutral"
    case Both => "both"
  }

  /** The short tokens of `TYPE_TOK`. */
  function StrengthToken(s: Strength): string {
    match s
    case StrongSubj => "strong"
    case WeakSubj => "weak"
  }

  /** The short tokens of `POL_TOK`. */
  function PolarityToken(p: Polarity): string {
    match p
    case Positive => "pos"
    case Negative => "neg"
    case Neutral => "neut"
    case Both => "both"
  }

  /** `POL_TOK`: short polarity token to lexicon value. */
  const POL_TOK: map<string, string> :=
    map["pos" := "positive", "neg" := "negative", "neut" := "neutral", "both" := "both"]

  /** `TYPE_TOK`: short strength token to lexicon value. */
  const TYPE_TOK: map<string, string> := map["strong" := "strongsubj", "weak" := "weaksubj"]

  /** The lexicon value as a vocabulary member, None outside the vocabulary. */
  function ParseStrength(name: string): (r: Option<Strength>)
    ensures r.Some? ==> StrengthName(r.value) == name
  {
    if name == "strongsubj" then Some(StrongSubj)
    else if name == "weaksubj" then Some(WeakSubj)
    else None
  }

  function ParsePolarity(name: string): (r: Option<Polarity>)
    ensures r.Some? ==> PolarityName(r.value) == name
  {
    if name == "positive" then Some(Positive)
    else if name == "negative" then Some(Negative)
    else if name == "neutral" then Some(Neutral)
    else if name == "both" then Some(Both)
    else None
  }

  /** Every vocabulary member's name parses back to it, and the token tables
      map each member's short token to its name. */
  lemma VocabularyRoundTrip(s: Strength, p: Polarity)
    ensures ParseStrength(StrengthName(s)) == Some(s)
    ensures ParsePolarity(PolarityName(p)) == Some(p)
    ensures StrengthToken(s) in TYPE_TOK && TYPE_TOK[StrengthToken(s)] == StrengthName(s)
    ensures PolarityToken(p) in POL_TOK && POL_TOK[PolarityToken(p)] == PolarityName(p)
  {
  }

  // ---------------------------------------------------------------------
  // parse_line

  /** `key, val = pair.split('=')`: None where the unpacking raises ValueError. */
  function KeyValue(token: string): Option<(string, string)> {
    var parts := SplitOn(token, '=');
    if |parts| == 2 then Some((parts[0], parts[1])) else None
  }

  /** A token yields a pair exactly when it holds one '=', and the pair is the
      text before and after it. */
  lemma KeyValueSpec(token: string)
    ensures KeyValue(token).Some? <==> Occurrences(token, '=') == 1
    ensures KeyValue(token).Some? ==>
      var (k, v) := KeyValue(token).value; token == k + "=" + v && '=' !in k && '=' !in v
  {
    SplitOnCount(token, '=');
    JoinSplitOn(token, '=');
    var parts := SplitOn(token, '=');
    if |parts| == 2 {
      assert parts[1..] == [parts[1]];
    }
  }

  /** The dictionary the loop of `parse_line` has built after the tokens `ts`. */
  function Pairs(ts: seq<string>): map<string, string> {
    if ts == [] then map[]
    else
      var m := Pairs(ts[..|ts| - 1]);
      match KeyValue(ts[|ts| - 1])
      case Some((k, v)) => m[k := v]
      case None => m
  }

  /** `parse_line(line)` of the list-building loader. */
  function LineData(line: string): map<string, string> {
    Pairs(Split(line))
  }

  /** `parse_line(line)`: every whitespace-separated `key=value` token sets its key. */
  method ParseLine(line: string) returns (data: map<string, string>)
    ensures data == LineData(line)
  {
    var tokens := Split(line);
    data := map[];
    var i := 0;
    while i < |tokens|
      invariant 0 <= i <= |tokens|
      invariant data == Pairs(tokens[..i])
    {
      var parts := SplitOn(tokens[i], '=');
      assert tokens[..i + 1][..i] == tokens[..i];
      if |parts| == 2 {
        data := data[parts[0] := parts[1]];
      }
      i := i + 1;
    }
    assert tokens[..i] == tokens;
  }

  /** The key of a token that splits into key and value. */
  predicate SetsKey(t: string, k: string) {
    KeyValue(t).Some? && KeyValue(t).value.0 == k
  }

  /** A key is set exactly when some token carries it. */
  lemma {:induction false} PairsKeys(ts: seq<string>, k: string)
    ensures k in Pairs(ts) <==> exists i :: 0 <= i < |ts| && SetsKey(ts[i], k)
  {
    if ts != [] {
      var n := |ts| - 1;
      var pre := ts[..n];
      PairsKeys(pre, k);
      if exists i :: 0 <= i < |pre| && SetsKey(pre[i], k) {
        var i :| 0 <= i < |pre| && SetsKey(pre[i], k);
        assert ts[i] == pre[i];
      }
      if exists i :: 0 <= i < |ts| && SetsKey(ts[i], k) {
        var i :| 0 <= i < |ts| && SetsKey(ts[i], k);
        if i < n {
          assert ts[i] == pre[i];
        }
      }
    }
  }

  /** The value of a set key is that of the LAST token carrying it. */
  lemma {:induction false} PairsLastWins(ts: seq<string>, k: string)
    requires k in Pairs(ts)
    ensures exists i :: 0 <= i < |ts| && KeyValue(ts[i]) == Some((k, Pairs(ts)[k]))
                        && forall j :: i < j < |ts| ==> !SetsKey(ts[j], k)
  {
    var n := |ts| - 1;
    var pre := ts[..n];
    if !SetsKey(ts[n], k) {
      PairsLastWins(pre, k);
      var i :| 0 <= i < |pre| && KeyValue(pre[i]) == Some((k, Pairs(pre)[k]))
               && forall j :: i < j < |pre| ==> !SetsKey(pre[j], k);
      assert ts[i] == pre[i];
      assert forall j :: i < j < n ==> ts[j] == pre[j];
    }
  }

  /** A token that does not split into exactly key and value changes nothing,
      wherever it stands. */
  lemma {:induction false} MalformedTokenSkipped(a: seq<string>, t: string, b: seq<string>)
    requires KeyValue(t).None?
    ensures Pairs(a + [t] + b) == Pairs(a + b)
    decreases |b|
  {
    if b == [] {
      assert (a + [t] + b)[..|a|] == a;
      assert a + b == a;
    } else {
      var n := |b| - 1;
      MalformedTokenSkipped(a, t, b[..n]);
      assert (a + [t] + b)[..|a + [t] + b| - 1] == a + [t] + b[..n];
      assert (a + b)[..|a + b| - 1] == a + b[..n];
    }
  }

  // ---------------------------------------------------------------------
  // mpqa_data: word -> list of (type, priorpolarity), in file order

  /** The first of `word1`, `type`, `priorpolarity` (the order the loader reads
      them in) that a line lacks. */
  function MissingKey(data: map<string, string>): Option<string> {
    if "word1" !in data then Some("word1")
    else if "type" !in data then Some("type")
    else if "priorpolarity" !in data then Some("priorpolarity")
    else None
  }

  /** The loader's dictionary after the lines `lines`, or the KeyError of the
      first line that lacks a required key. */
  function Lexicon(lines: seq<string>): Result<map<string, seq<(string, string)>>> {
    if lines == [] then Ok(map[])
    else
      match Lexicon(lines[..|lines| - 1])
      case Raise(e) => Raise(e)
      case Ok(m) =>
        var data := LineData(lines[|lines| - 1]);
        match MissingKey(data)
        case Some(key) => Raise(KeyError(key))
        case None =>
          var w := data["word1"];
          Ok(m[w := (if w in m then m[w] else []) + [(data["type"], data["priorpolarity"])]])
  }

  /** Once a prefix of the lines raises, the whole file raises the same error. */
  lemma {:induction false} LexiconRaiseStops(lines: seq<string>, i: nat)
    requires i <= |lines| && Lexicon(lines[..i]).Raise?
    ensures Lexicon(lines) == Lexicon(lines[..i])
    decreases |lines| - i
  {
    if i < |lines| {
      var n := |lines| - 1;
      assert lines[..n][..i] == lines[..i];
      LexiconRaiseStops(lines[..n], i);
    } else {
      assert lines[..i] == lines;
    }
  }

  /** `mpqa_data(from_file)`: `results[data['word1']].append((data['type'], data['priorpolarity']))`
      for each line in order. */
  method MpqaData(lines: seq<string>) returns (r: Result<map<string, seq<(string, string)>>>)
    ensures r == Lexicon(lines)
  {
    var results: map<string, seq<(string, string)>> := map[];
    var i := 0;
    while i < |lines|
      invariant 0 <= i <= |lines|
      invariant Lexicon(lines[..i]) == Ok(results)
    {
      assert lines[..i + 1][..i] == lines[..i];
      var data := ParseLine(lines[i]);
      match MissingKey(data) {
        case Some(key) =>
          LexiconRaiseStops(lines, i + 1);
          return Raise(KeyError(key));
        case None =>
      }
      var w := data["word1"];
      results := results[w := (if w in results then results[w] else []) + [(data["type"], data["priorpolarity"])]];
      i := i + 1;
    }
    assert lines[..i] == lines;
    return Ok(results);
  }

  /** A loaded file is its loaded prefix with the last line's pair appended
      to its word's list. */
  lemma LexiconStep(lines: seq<string>)
    requires lines != [] && Lexicon(lines).Ok?
    ensures Lexicon(lines[..|lines| - 1]).Ok? && MissingKey(LineData(lines[|lines| - 1])).None?
    ensures var m := Lexicon(lines[..|lines| - 1]).value;
      var data := LineData(lines[|lines| - 1]);
      var w := data["word1"];
      Lexicon(lines).value == m[w := (if w in m then m[w] else []) + [(data["type"], data["priorpolarity"])]]
  {
    var pre := lines[..|lines| - 1];
    var data := LineData(lines[|lines| - 1]);
    match Lexicon(pre) {
      case Raise(e) =>
        assert false;
      case Ok(m) =>
        match MissingKey(data) {
          case Some(key) =>
            assert false;
          case None =>
        }
    }
  }

  /** The (type, priorpolarity) pairs of the lines whose `word1` is `w`, in file order. */
  function EntriesFor(w: string, lines: seq<string>): seq<(string, string)> {
    if lines == [] then []
    else
      var data := LineData(lines[|lines| - 1]);
      EntriesFor(w, lines[..|lines| - 1])
        + (if MissingKey(data).None? && data["word1"] == w then [(data["type"], data["priorpolarity"])] else [])
  }

  /** The loader fails exactly when some line lacks a required key. */
  lemma {:induction false} LexiconRaises(lines: seq<string>)
    ensures Lexicon(lines).Raise? <==> exists i :: 0 <= i < |lines| && MissingKey(LineData(lines[i])).Some?
  {
    if lines != [] {
      var n := |lines| - 1;
      var pre := lines[..n];
      LexiconRaises(pre);
      assert forall i :: 0 <= i < n ==> pre[i] == lines[i];
    }
  }

  /** Loaded, a word is a key exactly when some line names it. */
  lemma {:induction false} LexiconKeys(lines: seq<string>, w: string)
    requires Lexicon(lines).Ok?
    ensures forall i :: 0 <= i < |lines| ==> MissingKey(LineData(lines[i])).None?
    ensures w in Lexicon(lines).value <==> exists i :: 0 <= i < |lines| && "word1" in LineData(lines[i]) && LineData(lines[i])["word1"] == w
  {
    LexiconRaises(lines);
    if lines != [] {
      var n := |lines| - 1;
      var pre := lines[..n];
      assert forall i :: 0 <= i < n ==> pre[i] == lines[i];
      LexiconStep(lines);
      LexiconKeys(pre, w);
      var data := LineData(lines[n]);
      assert w in Lexicon(lines).value <==> w == data["word1"] || w in Lexicon(pre).value;
    }
  }

  /** Loaded, a word maps to the pairs of all its lines, in file order (so a
      word on n lines has n pairs). */
  lemma {:induction false} LexiconEntries(lines: seq<string>, w: string)
    requires Lexicon(lines).Ok? && w in Lexicon(lines).value
    ensures Lexicon(lines).value[w] == EntriesFor(w, lines)
  {
    var n := |lines| - 1;
    var pre := lines[..n];
    var m := Lexicon(pre).value;
    if w in m {
      LexiconEntries(pre, w);
    } else {
      LexiconKeys(pre, w);
      assert forall i :: 0 <= i < n ==> LineData(pre[i])["word1"] != w;
      EntriesForAbsent(w, pre);
    }
  }

  /** A word no complete line names has no pairs. */
  lemma {:induction false} EntriesForAbsent(w: string, lines: seq<string>)
    requires forall i :: 0 <= i < |lines| && MissingKey(LineData(lines[i])).None? ==> LineData(lines[i])["word1"] != w
    ensures EntriesFor(w, lines) == []
  {
    if lines != [] {
      var n := |lines| - 1;
      assert forall i :: 0 <= i < n ==> lines[..n][i] == lines[i];
      EntriesForAbsent(w, lines[..n]);
    }
  }

  /** Every word in a loaded lexicon has at least one pair. */
  lemma LexiconListsNonEmpty(lines: seq<string>, w: string)
    requires Lexicon(lines).Ok? && w in Lexicon(lines).value
    ensures |Lexicon(lines).value[w]| > 0
  {
    LexiconKeys(lines, w);
    var i :| 0 <= i < |lines| && "word1" in LineData(lines[i]) && LineData(lines[i])["word1"] == w;
    EntriesForHit(w, lines, i);
  }

  lemma {:induction false} EntriesForHit(w: string, lines: seq<string>, i: nat)
    requires i < |lines| && MissingKey(LineData(lines[i])).None? && LineData(lines[i])["word1"] == w
    ensures |EntriesFor(w, lines)| > 0
  {
    var n := |lines| - 1;
    if i < n {
      assert lines[..n][i] == lines[i];
      EntriesForHit(w, lines[..n], i);
    }
  }
}
