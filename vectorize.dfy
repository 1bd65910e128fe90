/** The arithmetic of `sequentialize_data` around the Keras tokenizer: the
    padding length and the feature count. The tokenizer itself is a
    collaborator given as functions. */
module Vectorize {
  import opened Errors
  import opened Cjk

  /** Default `TOP_K` and `MAX_SEQUENCE_LENGTH` of `sequentialize_data`. */
  const DefaultTopK := 20000
  const DefaultMaxSequenceLength := 200
  /** `num_words` the tokenizer is built with, whatever `TOP_K` is. */
  const TokenizerNumWords := 20000

  /** Token to index, as fitted by the tokenizer (`word_index`). */
  type WordIndex = map<Text, nat>

  /** The state of a fitted Keras `Tokenizer` that this model keeps. */
  datatype Tokenizer = Tokenizer(numWords: int, wordIndex: WordIndex)

  /** The tokenizer library: fitting a vocabulary on texts, and turning
      one text into its token indices with a fitted tokenizer. */
  datatype TokenizerLib = TokenizerLib(
    fitOnTexts: seq<Text> -> WordIndex,
    textToSequence: (Tokenizer, Text) -> seq<nat>)

  /** What `sequentialize_data` hands back to `train` (the padded sequences
      are not modelled). */
  datatype Vectorized = Vectorized(wordIndex: WordIndex, numFeatures: int, tokenizer: Tokenizer, maxLength: int)

  function Min(a: int, b: int): int
  {
    if a <= b then a else b
  }

  /** `texts_to_sequences`: one token sequence per text, in order. */
  function TextsToSequences(lib: TokenizerLib, tokenizer: Tokenizer, texts: seq<Text>): (xs: seq<seq<nat>>)
    ensures |xs| == |texts|
    ensures forall i :: 0 <= i < |texts| ==> xs[i] == lib.textToSequence(tokenizer, texts[i])
  {
    seq(|texts|, i requires 0 <= i < |texts| => lib.textToSequence(tokenizer, texts[i]))
  }

  /** `len(max(x_train, key=len))`: the length of a longest sequence. */
  function Longest(xs: seq<seq<nat>>): (n: nat)
    requires |xs| > 0
    ensures forall i :: 0 <= i < |xs| ==> |xs[i]| <= n
    ensures exists i :: 0 <= i < |xs| && |xs[i]| == n
  {
    if |xs| == 1 then |xs[0]|
    else
      var m := Longest(xs[..|xs| - 1]);
      if |xs[|xs| - 1]| > m then |xs[|xs| - 1]| else m
  }

  /** `max_length`: the longest training sequence, cut down to
      `MAX_SEQUENCE_LENGTH`; `max` raises on an empty list. */
  function MaxLength(xTrain: seq<seq<nat>>, maxSequenceLength: int): (r: Result<int>)
    ensures r.Err? <==> |xTrain| == 0
    ensures r.Err? ==> r.error == EmptyInput
    ensures r.Ok? ==> r.value <= maxSequenceLength
    ensures r.Ok? ==> forall i :: 0 <= i < |xTrain| ==> Min(|xTrain[i]|, maxSequenceLength) <= r.value
    ensures r.Ok? ==> exists i :: 0 <= i < |xTrain| && r.value == Min(|xTrain[i]|, maxSequenceLength)
  {
    if |xTrain| == 0 then Err(EmptyInput)
    else
      var longest := Longest(xTrain);
      Ok(if longest > maxSequenceLength then maxSequenceLength else longest)
  }

  /** `num_features`: one more than the vocabulary size, capped at `TOP_K`. */
  function NumFeatures(vocabularySize: nat, topK: int): (n: int)
    ensures n <= topK && n <= vocabularySize + 1
    ensures n == topK || n == vocabularySize + 1
  {
    Min(vocabularySize + 1, topK)
  }

  /** `sequentialize_data` without a validation set. */
  function SequentializeData(lib: TokenizerLib, trainContents: seq<Text>, topK: int, maxSequenceLength: int): (r: Result<Vectorized>)
    ensures r.Err? <==> |trainContents| == 0
    ensures r.Ok? ==> r.value.tokenizer == Tokenizer(TokenizerNumWords, lib.fitOnTexts(trainContents))
    ensures r.Ok? ==> r.value.wordIndex == r.value.tokenizer.wordIndex
    ensures r.Ok? ==> r.value.maxLength == MaxLength(TextsToSequences(lib, r.value.tokenizer, trainContents), maxSequenceLength).value
    ensures r.Ok? ==> r.value.numFeatures == NumFeatures(|r.value.wordIndex|, topK)
  {
    var tokenizer := Tokenizer(TokenizerNumWords, lib.fitOnTexts(trainContents));
    var xTrain := TextsToSequences(lib, tokenizer, trainContents);
    var maxLength :- MaxLength(xTrain, maxSequenceLength);
    Ok(Vectorized(tokenizer.wordIndex, NumFeatures(|tokenizer.wordIndex|, topK), tokenizer, maxLength))
  }

  /** For any non-empty training set the outputs stay in their bounds:
      `0 <= max_length <= MAX_SEQUENCE_LENGTH` and `1 <= num_features <= TOP_K`
      whenever the two limits are themselves at least 0 and 1. */
  lemma SequentializeBounds(lib: TokenizerLib, trainContents: seq<Text>, topK: int, maxSequenceLength: int)
    requires |trainContents| > 0 && topK >= 1 && maxSequenceLength >= 0
    ensures var r := SequentializeData(lib, trainContents, topK, maxSequenceLength);
      r.Ok? &&
      0 <= r.value.maxLength <= maxSequenceLength &&
      1 <= r.value.numFeatures <= topK
  {
  }
}
