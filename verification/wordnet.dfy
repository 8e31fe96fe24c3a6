/**
 * WordNet-Affect emotion word lists: reading one list into a set of
 * words, and inverting the lists of several emotions into a map from
 * each word to the emotions it belongs to. A list's file content is a
 * parameter; opening `<path>/<emotion>.txt` is I/O and is not modelled.
 */
module Wordnet {
  import opened Text
  import opened Outcome

  /** The default emotion order, `WORDNET_EMOTIONS`. */
  const WORDNET_EMOTIONS: seq<string> := ["anger", "disgust", "fear", "joy", "sadness", "surprise"]

  /** A token the list marks as a comment: its second character is '#'. */
  predicate IsComment(t: string) {
    |t| >= 2 && t[1] == '#'
  }

  /** What a kept token contributes: itself, or with '_' rewritten to ' '. */
  function Entry(t: string, underscoreToSpace: bool): string {
    if underscoreToSpace then ReplaceChar(t, '_', ' ') else t
  }

  /**
   * The generator `(word for word in tokens if not word[1] == '#')` fed to
   * `set(...)`, token by token: the first token shorter than two characters
   * raises IndexError at `word[1]`.
   */
  function KeepTokens(ts: seq<string>, underscoreToSpace: bool): Result<set<string>> {
    if ts == [] then Ok({})
    else if |ts[0]| < 2 then Raise(IndexError)
    else
      match KeepTokens(ts[1..], underscoreToSpace)
      case Raise(e) => Raise(e)
      case Ok(rest) => Ok(if IsComment(ts[0]) then rest else rest + {Entry(ts[0], underscoreToSpace)})
  }

  /** The filter raises exactly when some token is shorter than two characters;
      otherwise it keeps the (rewritten) entry of every non-comment token and nothing else. */
  lemma {:induction false} KeepTokensSpec(ts: seq<string>, underscoreToSpace: bool)
    ensures var r := KeepTokens(ts, underscoreToSpace);
      && (r.Raise? <==> exists t :: t in ts && |t| < 2)
      && (r.Raise? ==> r.error == IndexError)
      && (r.Ok? ==> forall w :: w in r.value <==>
            exists t :: t in ts && !IsComment(t) && w == Entry(t, underscoreToSpace))
  {
    if ts != [] {
      KeepTokensSpec(ts[1..], underscoreToSpace);
      assert forall t :: t in ts <==> t == ts[0] || t in ts[1..];
    }
  }

  /** `emotion_words(emotion, path)` (and the identical `get_emotion_words` of the
      WordNet utilities), given the content of the emotion's list file. */
  function EmotionWords(content: string): Result<set<string>> {
    KeepTokens(Split(content), false)
  }

  /** A list raises IndexError exactly when it holds a one-character token; otherwise
      its words are exactly its tokens that are not comments, unchanged. */
  lemma EmotionWordsSpec(content: string)
    ensures var r := EmotionWords(content);
      && (r.Raise? <==> exists t :: t in Split(content) && |t| < 2)
      && (r.Raise? ==> r == Raise(IndexError))
      && (r.Ok? ==> forall w :: w in r.value <==> w in Split(content) && !IsComment(w))
  {
    KeepTokensSpec(Split(content), false);
  }

  /** The result is a set: only which tokens occur matters, not their order or repetition. */
  lemma EmotionWordsOnlyDependOnTokenSet(a: string, b: string)
    requires forall t :: t in Split(a) <==> t in Split(b)
    ensures EmotionWords(a) == EmotionWords(b)
  {
    EmotionWordsSpec(a);
    EmotionWordsSpec(b);
    if EmotionWords(a).Ok? {
      assert EmotionWords(a).value == EmotionWords(b).value;
    }
  }

  // ---------------------------------------------------------------------
  // wordnet_data: inverting emotion -> words into word -> emotions

  /** The word set each content yields, {} for a content that raises. */
  function WordSets(contents: seq<string>): (sets: seq<set<string>>)
    ensures |sets| == |contents|
  {
    seq(|contents|, i requires 0 <= i < |contents| =>
      match EmotionWords(contents[i]) case Ok(s) => s case Raise(_) => {})
  }

  /** Appending `e` to the list of every word of `ws`, creating missing lists. */
  function AppendEmotion(m: map<string, seq<string>>, ws: set<string>, e: string): map<string, seq<string>> {
    map w | w in m.Keys + ws :: (if w in m then m[w] else []) + (if w in ws then [e] else [])
  }

  /** The dictionary after the first |ems| emotions have been processed. */
  function Invert(ems: seq<string>, sets: seq<set<string>>): map<string, seq<string>>
    requires |ems| == |sets|
  {
    if ems == [] then map[]
    else AppendEmotion(Invert(ems[..|ems| - 1], sets[..|sets| - 1]), sets[|sets| - 1], ems[|ems| - 1])
  }

  /** The emotions, in argument order, whose list holds `w`. */
  function EmotionsOf(w: string, ems: seq<string>, sets: seq<set<string>>): seq<string>
    requires |ems| == |sets|
  {
    if ems == [] then []
    else EmotionsOf(w, ems[..|ems| - 1], sets[..|sets| - 1]) + (if w in sets[|sets| - 1] then [ems[|ems| - 1]] else [])
  }

  /** `wordnet_data(path, emotions)`, given the list content of each emotion. */
  method WordnetData(emotions: seq<string>, contents: seq<string>) returns (r: Result<map<string, seq<string>>>)
    requires |contents| == |emotions|
    ensures r.Raise? <==> exists i :: 0 <= i < |contents| && EmotionWords(contents[i]).Raise?
    ensures r.Ok? ==> r.value == Invert(emotions, WordSets(contents))
  {
    var sets := WordSets(contents);
    var d: map<string, seq<string>> := map[];
    var i := 0;
    while i < |emotions|
      invariant 0 <= i <= |emotions|
      invariant forall k :: 0 <= k < i ==> EmotionWords(contents[k]).Ok?
      invariant d == Invert(emotions[..i], sets[..i])
    {
      var words := EmotionWords(contents[i]);
      if words.Raise? {
        return Raise(words.error);
      }
      assert sets[i] == words.value;
      d := AppendToLists(d, words.value, emotions[i]);
      InvertStep(emotions, sets, i);
      i := i + 1;
    }
    assert emotions[..i] == emotions && sets[..i] == sets;
    return Ok(d);
  }

  /** The inner loop of `wordnet_data`: `emotions_dict[word].append(emotion)`
      for every word of one emotion's set, in whatever order the set yields them. */
  method AppendToLists(d0: map<string, seq<string>>, words: set<string>, emotion: string)
      returns (d: map<string, seq<string>>)
    ensures d == AppendEmotion(d0, words, emotion)
  {
    d := d0;
    var todo := words;
    AppendNothing(d0, words, emotion);
    while todo != {}
      invariant todo <= words
      invariant d == AppendEmotion(d0, words - todo, emotion)
      decreases |todo|
    {
      var w :| w in todo;
      AppendOneMore(d0, words, todo, w, emotion, d);
      d := d[w := (if w in d then d[w] else []) + [emotion]];
      todo := todo - {w};
    }
  }

  /** One more word appended: the map grows by exactly that word's entry. */
  lemma AppendOneMore(m: map<string, seq<string>>, words: set<string>, todo: set<string>, w: string, e: string,
                      d: map<string, seq<string>>)
    requires todo <= words && w in todo && d == AppendEmotion(m, words - todo, e)
    ensures d[w := (if w in d then d[w] else []) + [e]] == AppendEmotion(m, words - (todo - {w}), e)
  {
    var done := words - todo;
    assert words - (todo - {w}) == done + {w};
    var d' := d[w := (if w in d then d[w] else []) + [e]];
    var lhs := AppendEmotion(m, done + {w}, e);
    assert lhs.Keys == d'.Keys;
    forall k | k in lhs ensures lhs[k] == d'[k] {
      if k != w {
        assert (k in done + {w}) == (k in done);
      }
    }
  }

  lemma AppendNothing(m: map<string, seq<string>>, words: set<string>, e: string)
    ensures AppendEmotion(m, words - words, e) == m
  {
    assert words - words == {};
    var r := AppendEmotion(m, {}, e);
    assert r.Keys == m.Keys;
    forall k | k in m ensures r[k] == m[k] {
      assert m[k] + [] == m[k];
    }
  }

  lemma InvertStep(ems: seq<string>, sets: seq<set<string>>, i: nat)
    requires |ems| == |sets| && i < |ems|
    ensures Invert(ems[..i + 1], sets[..i + 1]) == AppendEmotion(Invert(ems[..i], sets[..i]), sets[i], ems[i])
  {
    assert ems[..i + 1][..i] == ems[..i];
    assert sets[..i + 1][..i] == sets[..i];
  }

  /** A word is a key exactly when some list holds it, and its list is the
      emotions holding it, in argument order. */
  lemma {:induction false} InvertLookup(w: string, ems: seq<string>, sets: seq<set<string>>)
    requires |ems| == |sets|
    ensures w in Invert(ems, sets) <==> exists i :: 0 <= i < |sets| && w in sets[i]
    ensures w in Invert(ems, sets) ==> Invert(ems, sets)[w] == EmotionsOf(w, ems, sets)
  {
    if ems != [] {
      var n := |ems| - 1;
      var pe, ps := ems[..n], sets[..n];
      InvertLookup(w, pe, ps);
      var m := Invert(pe, ps);
      assert Invert(ems, sets) == AppendEmotion(m, sets[n], ems[n]);
      assert EmotionsOf(w, ems, sets) == EmotionsOf(w, pe, ps) + (if w in sets[n] then [ems[n]] else []);
      if w in m {
        var j :| 0 <= j < |ps| && w in ps[j];
        assert w in sets[j];
      }
      if exists i :: 0 <= i < |sets| && w in sets[i] {
        var i :| 0 <= i < |sets| && w in sets[i];
        if i < n {
          assert w in ps[i];
          assert w in m;
        }
      }
      if w in Invert(ems, sets) && w !in m {
        assert EmotionsOf(w, pe, ps) == [] by {
          if EmotionsOf(w, pe, ps) != [] {
            var e := EmotionsOf(w, pe, ps)[0];
            EmotionsOfMembership(w, e, pe, ps);
          }
        }
      }
    }
  }

  /** Emotion `e` is listed for `w` exactly when some occurrence of `e` in the
      argument has `w` in its list. */
  lemma {:induction false} EmotionsOfMembership(w: string, e: string, ems: seq<string>, sets: seq<set<string>>)
    requires |ems| == |sets|
    ensures e in EmotionsOf(w, ems, sets) <==> exists i :: 0 <= i < |ems| && ems[i] == e && w in sets[i]
  {
    if ems != [] {
      var n := |ems| - 1;
      EmotionsOfMembership(w, e, ems[..n], sets[..n]);
      assert forall i :: 0 <= i < n ==> ems[..n][i] == ems[i] && sets[..n][i] == sets[i];
      if exists i :: 0 <= i < |ems| && ems[i] == e && w in sets[i] {
        var i :| 0 <= i < |ems| && ems[i] == e && w in sets[i];
        if i < n {
          assert ems[..n][i] == e && w in sets[..n][i];
        }
      }
    }
  }

  /** Every listed emotion stands for one argument position, increasing along the list. */
  predicate Positions(w: string, ems: seq<string>, sets: seq<set<string>>, pos: seq<nat>)
    requires |ems| == |sets|
  {
    && |pos| == |EmotionsOf(w, ems, sets)|
    && (forall k :: 0 <= k < |pos| ==> pos[k] < |ems| && ems[pos[k]] == EmotionsOf(w, ems, sets)[k] && w in sets[pos[k]])
    && (forall k, l :: 0 <= k < l < |pos| ==> pos[k] < pos[l])
  }

  /** A word's list follows the order of the emotions argument: the k-th listed
      emotion comes from a strictly later argument position than the (k-1)-th. */
  lemma {:induction false} EmotionsOfInOrder(w: string, ems: seq<string>, sets: seq<set<string>>)
      returns (pos: seq<nat>)
    requires |ems| == |sets|
    ensures Positions(w, ems, sets, pos)
  {
    if ems == [] {
      pos := [];
    } else {
      var n := |ems| - 1;
      var p := EmotionsOfInOrder(w, ems[..n], sets[..n]);
      assert forall k :: 0 <= k < |p| ==> ems[..n][p[k]] == ems[p[k]] && sets[..n][p[k]] == sets[p[k]];
      pos := if w in sets[n] then p + [n] else p;
    }
  }

  /** With distinct emotions, no word lists an emotion twice. */
  lemma NoDuplicateEmotions(w: string, ems: seq<string>, sets: seq<set<string>>)
    requires |ems| == |sets|
    requires forall i, j :: 0 <= i < j < |ems| ==> ems[i] != ems[j]
    ensures var l := EmotionsOf(w, ems, sets); forall k, m :: 0 <= k < m < |l| ==> l[k] != l[m]
  {
    var pos := EmotionsOfInOrder(w, ems, sets);
  }

  /** Every key of the inverted map holds a non-empty list. */
  lemma InvertListsNonEmpty(w: string, ems: seq<string>, sets: seq<set<string>>)
    requires |ems| == |sets|
    requires w in Invert(ems, sets)
    ensures |Invert(ems, sets)[w]| > 0
  {
    InvertLookup(w, ems, sets);
    var i :| 0 <= i < |sets| && w in sets[i];
    EmotionsOfMembership(w, ems[i], ems, sets);
  }
}
