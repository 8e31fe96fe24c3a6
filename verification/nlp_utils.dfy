/**
 * General text helpers: whitespace normalisation and lower-cased word
 * extraction. The sentence and word tokenizers are NLTK's `sent_tokenize`
 * and `word_tokenize` in the Python program; here they are parameters,
 * since their behaviour is not part of this model.
 */
module NlpUtils {
  import opened Text

  /**
   * `' '.join(text.strip().split())`. The leading `strip()` cannot change
   * what an argument-less `split()` returns, so it is not modelled.
   */
  function NormalizeWhitespace(text: string): (r: string)
    ensures Split(r) == Split(text)
    ensures r != "" ==> !IsSpace(r[0]) && !IsSpace(r[|r| - 1])
    ensures forall i :: 0 <= i < |r| - 1 ==> !(IsSpace(r[i]) && IsSpace(r[i + 1]))
    ensures forall i :: 0 <= i < |r| && IsSpace(r[i]) ==> r[i] == ' '
    ensures NonSpace(r) == NonSpace(text)
    ensures r == "" <==> forall i :: 0 <= i < |text| ==> IsSpace(text[i])
  {
    var ts := Split(text);
    JoinShape(ts);
    NonSpaceOfJoin(ts);
    NonSpaceOfSplit(text);
    NonSpaceEmpty(text);
    FlattenOfTokensEmpty(ts);
    SplitJoin(ts);
    Join(" ", ts)
  }

  lemma {:induction false} FlattenOfTokensEmpty(ts: seq<string>)
    requires AllTokens(ts)
    ensures Flatten(ts) == "" <==> ts == []
  {
    if ts != [] {
      assert |Flatten(ts)| >= |ts[0]| > 0;
    }
  }

  /** Normalising twice is the same as normalising once. */
  lemma NormalizeIdempotent(text: string)
    ensures NormalizeWhitespace(NormalizeWhitespace(text)) == NormalizeWhitespace(text)
  {
    SplitJoin(Split(text));
  }

  /**
   * `[word.lower() for sent in sent_tokenize(text) for word in word_tokenize(sent)]`.
   * Reading from a file handle instead of a string is I/O and is not modelled.
   */
  function GetWords(text: string, sentTokenize: string -> seq<string>,
                    wordTokenize: string -> seq<string>): (ws: seq<string>)
    ensures forall i :: 0 <= i < |ws| ==> HasNoUpper(ws[i])
    ensures ws == LowerAll(FlatMap(sentTokenize(text), wordTokenize))
  {
    var sents := sentTokenize(text);
    var lowered := s => LowerAll(wordTokenize(s));
    LowerFlatMap(sents, wordTokenize);
    LowerAllHasNoUpper(FlatMap(sents, wordTokenize));
    FlatMap(sents, lowered)
  }

  lemma LowerAllHasNoUpper(ws: seq<string>)
    ensures forall i :: 0 <= i < |ws| ==> HasNoUpper(LowerAll(ws)[i])
  {
  }

  /** Lower-casing each word of each sentence equals lower-casing the flattened list. */
  lemma {:induction false} LowerFlatMap(sents: seq<string>, wordTokenize: string -> seq<string>)
    ensures FlatMap(sents, s => LowerAll(wordTokenize(s))) == LowerAll(FlatMap(sents, wordTokenize))
  {
    if sents != [] {
      LowerFlatMap(sents[1..], wordTokenize);
      LowerAllAppend(wordTokenize(sents[0]), FlatMap(sents[1..], wordTokenize));
    }
  }

  /** Words of a text are the words of its sentences, sentence by sentence. */
  lemma GetWordsBySentence(text: string, sentTokenize: string -> seq<string>,
                           wordTokenize: string -> seq<string>, k: nat)
    requires k <= |sentTokenize(text)|
    ensures var sents := sentTokenize(text);
      GetWords(text, sentTokenize, wordTokenize)
        == LowerAll(FlatMap(sents[..k], wordTokenize)) + LowerAll(FlatMap(sents[k..], wordTokenize))
  {
    var sents := sentTokenize(text);
    assert sents == sents[..k] + sents[k..];
    FlatMapAppend(sents[..k], sents[k..], wordTokenize);
    LowerAllAppend(FlatMap(sents[..k], wordTokenize), FlatMap(sents[k..], wordTokenize));
  }
}
