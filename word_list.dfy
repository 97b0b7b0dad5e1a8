/** The word catalog: validates the word settings, holds the filtered word list
    and picks words from it by drawn index, with replacement. */
module WordList {
  import opened Outcomes
  import opened Config
  import opened Rng

  const NumWordMin: int := 2

  /** The embedded word lists, filtered by word length: given a list name and
      the inclusive length bounds it yields the matching words or an error. */
  type WordSource = (string, int, int) -> Result<seq<string>>

  /** `getWordList`: the bounds are checked before the source is consulted,
      the source's own error is passed on, and an empty selection is refused. */
  function GetWordList(source: WordSource, name: string, minLength: int, maxLength: int): (r: Result<seq<string>>)
    ensures maxLength < minLength ==> r == Failure(WordLengthMaxLessThanMin)
    ensures maxLength >= minLength && source(name, minLength, maxLength).Failure? ==> r == source(name, minLength, maxLength)
    ensures r.Success? <==> maxLength >= minLength && source(name, minLength, maxLength).Success?
                            && source(name, minLength, maxLength).value != []
    ensures r.Success? ==> r.value == source(name, minLength, maxLength).value
  {
    if maxLength < minLength then Failure(WordLengthMaxLessThanMin)
    else
      var wl := source(name, minLength, maxLength);
      if wl.Failure? then wl
      else if |wl.value| == 0 then Failure(NoWordsFound)
      else wl
  }

  datatype WordListService = WordListService(cfg: Settings, rng: RandomSource, wordList: seq<string>)
  {
    /** `GetWords`: one slice of `numWords` indices below the list's size is
        drawn, then each index selects a word. */
    function Words(entropy: EntropyStream, k: nat): (s: Step<seq<string>>)
      ensures s.out.Success? ==>
                |s.out.value| == cfg.numWords && forall j :: 0 <= j < |s.out.value| ==> s.out.value[j] in wordList
    {
      var d := DrawSlice(entropy, k, cfg.numWords, |wordList|);
      if d.out.Failure? then Step(Failure(Wrapped(WordIndices, d.out.error)), d.pos)
      else Step(Pick(wordList, d.out.value), d.pos)
    }

    method GetWords() returns (r: Result<array<string>>)
      modifies rng
      ensures var s := Words(rng.entropy, old(rng.consumed));
              rng.consumed == s.pos
              && (r.Success? <==> s.out.Success?)
              && (r.Success? ==> fresh(r.value) && r.value[..] == s.out.value)
              && (r.Failure? ==> r.error == s.out.error)
    {
      var wn := rng.GenerateSliceWithMax(cfg.numWords, |wordList|);
      if wn.Failure? {
        return Failure(Wrapped(WordIndices, wn.error));
      }
      r := PickWords(wn.value);
    }

    /** The loop of `GetWords` over the drawn indices: each is range-checked,
        then its word is written to the same position of a fresh slice. */
    method PickWords(indices: seq<int>) returns (r: Result<array<string>>)
      ensures r.Success? <==> Pick(wordList, indices).Success?
      ensures r.Success? ==> fresh(r.value) && r.value[..] == Pick(wordList, indices).value
      ensures r.Failure? ==> r.error == Pick(wordList, indices).error
    {
      var wll := |wordList|;
      var wl := new string[|indices|];
      PrefixedEmpty(PickFrom(wordList, indices, 0));
      for i := 0 to |indices|
        invariant PickFrom(wordList, indices, 0) == Prefixed(wl[..i], PickFrom(wordList, indices, i))
      {
        var idx := indices[i];
        if idx < 0 || idx >= wll {
          return Failure(WordIndexOutOfRange(idx, wll));
        }
        PrefixedAppend(wl[..i], wordList[idx], PickFrom(wordList, indices, i + 1));
        ghost var done := wl[..i];
        wl[i] := wordList[idx];
        assert wl[..i + 1] == done + [wordList[idx]];
      }
      assert wl[..|indices|] + [] == wl[..];
      r := Success(wl);
    }
  }

  /** The words at `indices`; the first index outside the list is reported. */
  function Pick(wordList: seq<string>, indices: seq<int>): (r: Result<seq<string>>)
    ensures r.Success? <==> forall j :: 0 <= j < |indices| ==> 0 <= indices[j] < |wordList|
    ensures r.Success? ==> |r.value| == |indices|
                           && forall j :: 0 <= j < |indices| ==> r.value[j] == wordList[indices[j]]
  {
    PickFrom(wordList, indices, 0).out
  }

  /** The loop of `GetWords` from position `i` on (no reads are made). */
  function PickFrom(wordList: seq<string>, indices: seq<int>, i: nat): (s: Step<seq<string>>)
    requires i <= |indices|
    ensures s.pos == 0
    ensures s.out.Success? <==> forall j :: i <= j < |indices| ==> 0 <= indices[j] < |wordList|
    ensures s.out.Success? ==> |s.out.value| == |indices| - i
                               && forall j :: 0 <= j < |s.out.value| ==> s.out.value[j] == wordList[indices[i + j]]
    decreases |indices| - i
  {
    if i == |indices| then Step(Success([]), 0)
    else if indices[i] < 0 || indices[i] >= |wordList| then
      Step(Failure(WordIndexOutOfRange(indices[i], |wordList|)), 0)
    else Prefixed([wordList[indices[i]]], PickFrom(wordList, indices, i + 1))
  }

  /** `NewWordListService`: the word count is checked before any list is
      looked up, and a built service holds a non-empty list. */
  function NewWordListService(cfg: Settings, rng: RandomSource, source: WordSource): (r: Result<WordListService>)
    ensures cfg.numWords < NumWordMin ==> r == Failure(NumWordsTooSmall)
    ensures r.Success? <==> cfg.numWords >= NumWordMin
                            && GetWordList(source, cfg.wordList, cfg.wordLengthMin, cfg.wordLengthMax).Success?
    ensures r.Success? ==> r.value.cfg == cfg && r.value.rng == rng && r.value.wordList != []
    ensures r.Success? ==> r.value.wordList == GetWordList(source, cfg.wordList, cfg.wordLengthMin, cfg.wordLengthMax).value
  {
    if cfg.numWords < NumWordMin then Failure(NumWordsTooSmall)
    else
      var wl := GetWordList(source, cfg.wordList, cfg.wordLengthMin, cfg.wordLengthMax);
      if wl.Failure? then Failure(wl.error)
      else Success(WordListService(cfg, rng, wl.value))
  }

  /** Every drawn index lies inside the list, so the out-of-range error never
      occurs: `GetWords` fails only when a draw fails, and otherwise yields
      `numWords` words, the word at position `p - k` selected by read `p`. */
  lemma WordsDrawnFromList(svc: WordListService, entropy: EntropyStream, k: nat)
    requires svc.wordList != [] && svc.cfg.numWords >= 0
    ensures var s := svc.Words(entropy, k);
            (s.out.Failure? ==> s.out.error.Wrapped? && s.out.error.context == WordIndices)
            && (s.out.Success? ==>
                  s.pos == k + svc.cfg.numWords && |s.out.value| == svc.cfg.numWords
                  && forall p :: k <= p < k + svc.cfg.numWords ==>
                       entropy(p).Bits?
                       && s.out.value[p - k] == svc.wordList[entropy(p).n % |svc.wordList|])
  {
    var d := DrawSlice(entropy, k, svc.cfg.numWords, |svc.wordList|);
    if d.out.Success? {
      var s := svc.Words(entropy, k);
      assert s == Step(Pick(svc.wordList, d.out.value), d.pos);
      forall p | k <= p < k + svc.cfg.numWords
        ensures entropy(p).Bits? && s.out.value[p - k] == svc.wordList[entropy(p).n % |svc.wordList|]
      {
        assert ReadAs(entropy, k + (p - k), d.out.value[p - k], |svc.wordList|);
      }
    }
  }
}
