/** The separator inserter: puts one separator character before, between and
    after the words. */
module Separator {
  import opened Outcomes
  import opened Text
  import opened Config
  import opened Rng
  import Validator

  /** `validate`: a fixed separator is at most one byte long; a random one
      needs a non-empty alphabet of entries at most one byte long. */
  function Validate(cfg: Settings): (o: Outcome)
    ensures cfg.separatorCharacter != SeparatorCharacterRandom && ByteLen(cfg.separatorCharacter) > 1
            ==> o == Fail(SeparatorCharacterTooLong)
    ensures cfg.separatorCharacter == SeparatorCharacterRandom && cfg.separatorAlphabet == []
            ==> o == Fail(SeparatorAlphabetEmpty)
    ensures cfg.separatorCharacter == SeparatorCharacterRandom && cfg.separatorAlphabet != []
            && (exists i :: 0 <= i < |cfg.separatorAlphabet| && ByteLen(cfg.separatorAlphabet[i]) > 1)
            ==> o == Fail(SeparatorAlphabetElementTooLong)
    ensures o == Pass <==>
              if cfg.separatorCharacter == SeparatorCharacterRandom then
                cfg.separatorAlphabet != []
                && forall i :: 0 <= i < |cfg.separatorAlphabet| ==> ByteLen(cfg.separatorAlphabet[i]) <= 1
              else ByteLen(cfg.separatorCharacter) <= 1
  {
    if cfg.separatorCharacter != SeparatorCharacterRandom && ByteLen(cfg.separatorCharacter) > 1 then
      Fail(SeparatorCharacterTooLong)
    else if cfg.separatorCharacter == SeparatorCharacterRandom && |cfg.separatorAlphabet| == 0 then
      Fail(SeparatorAlphabetEmpty)
    else if cfg.separatorCharacter == SeparatorCharacterRandom
            && Validator.HasElementWithLengthGreaterThanOne(cfg.separatorAlphabet) then
      Fail(SeparatorAlphabetElementTooLong)
    else Pass
  }

  /** A valid fixed separator is the empty string or one ASCII character: a
      single rune outside ASCII is refused as too long. */
  lemma {:induction false} ValidFixedSeparator(cfg: Settings)
    requires Validate(cfg) == Pass && cfg.separatorCharacter != SeparatorCharacterRandom
    ensures cfg.separatorCharacter == []
            || (|cfg.separatorCharacter| == 1 && (cfg.separatorCharacter[0] as int) < 0x80)
  {
    ByteLenAtMostOne(cfg.separatorCharacter);
  }

  /** The separated slice: the separator at every even position and the
      words, in order, at the odd ones. */
  function Interleave(c: string, ws: seq<string>): (r: seq<string>)
    ensures |r| == 2 * |ws| + 1
  {
    seq(2 * |ws| + 1, j requires 0 <= j < 2 * |ws| + 1 => if j % 2 == 0 then c else ws[j / 2])
  }

  /** The words are recovered from the odd positions of the separated slice. */
  function OddTokens(ts: seq<string>): (r: seq<string>)
    ensures |r| == |ts| / 2
  {
    seq(|ts| / 2, i requires 0 <= i < |ts| / 2 => ts[2 * i + 1])
  }

  lemma InterleaveInverse(c: string, ws: seq<string>)
    ensures OddTokens(Interleave(c, ws)) == ws
  {
    var ts := Interleave(c, ws);
    forall i | 0 <= i < |ws|
      ensures OddTokens(ts)[i] == ws[i]
    {
      assert (2 * i + 1) / 2 == i;
    }
  }

  /** Separating a non-empty list puts the separator and the first word in
      front of the separated rest. */
  lemma {:induction false} InterleaveCons(c: string, w: string, ws: seq<string>)
    ensures Interleave(c, [w] + ws) == [c, w] + Interleave(c, ws)
  {
    var l, r := Interleave(c, [w] + ws), [c, w] + Interleave(c, ws);
    forall j | 0 <= j < |l|
      ensures l[j] == r[j]
    {
      if j >= 2 {
        assert (j - 2) % 2 == j % 2 && (j - 2) / 2 == j / 2 - 1;
      }
    }
  }

  datatype SeparatorService = SeparatorService(cfg: Settings, rng: RandomSource)
  {
    /** `getSeparatorCharacter` with the provider at read `k`. */
    function Character(entropy: EntropyStream, k: nat): (s: Step<string>)
      ensures cfg.separatorCharacter != SeparatorCharacterRandom ==> s == Step(Success(cfg.separatorCharacter), k)
      ensures cfg.separatorCharacter == SeparatorCharacterRandom && cfg.separatorAlphabet != [] ==>
                s.pos == k + 1
                && (s.out.Success? <==> entropy(k).Bits?)
                && (s.out.Success? ==> s.out.value == cfg.separatorAlphabet[entropy(k).n % |cfg.separatorAlphabet|])
      ensures s.out.Failure? ==> s.out.error.Wrapped? && s.out.error.context == SeparatorDraw
    {
      if cfg.separatorCharacter == SeparatorCharacterRandom then
        var d := DrawWithMax(entropy, k, |cfg.separatorAlphabet|);
        if d.out.Failure? then Step(Failure(Wrapped(SeparatorDraw, d.out.error)), d.pos)
        else Step(Success(cfg.separatorAlphabet[d.out.value]), d.pos)
      else Step(Success(cfg.separatorCharacter), k)
    }

    /** `Separate` with the provider at read `k`. */
    function Separated(entropy: EntropyStream, k: nat, ws: seq<string>): (s: Step<seq<string>>)
      ensures var c := Character(entropy, k);
              s.pos == c.pos
              && (s.out.Success? <==> c.out.Success?)
              && (s.out.Success? ==> s.out.value == Interleave(c.out.value, ws))
              && (s.out.Failure? ==> s.out.error == Wrapped(SeparatorCharacter, c.out.error))
    {
      var c := Character(entropy, k);
      if c.out.Failure? then Step(Failure(Wrapped(SeparatorCharacter, c.out.error)), c.pos)
      else Step(Success(Interleave(c.out.value, ws)), c.pos)
    }

    method GetSeparatorCharacter() returns (r: Result<string>)
      modifies rng
      ensures Step(r, rng.consumed) == Character(rng.entropy, old(rng.consumed))
    {
      if cfg.separatorCharacter == SeparatorCharacterRandom {
        var num := rng.GenerateWithMax(|cfg.separatorAlphabet|);
        if num.Failure? {
          return Failure(Wrapped(SeparatorDraw, num.error));
        }
        return Success(cfg.separatorAlphabet[num.value]);
      }
      return Success(cfg.separatorCharacter);
    }

    /** `Separate`: one separator is resolved, then the slice is built by
        appending it before every word and once more at the end. */
    method Separate(words: seq<string>) returns (r: Result<seq<string>>)
      modifies rng
      ensures Step(r, rng.consumed) == Separated(rng.entropy, old(rng.consumed), words)
    {
      var c := GetSeparatorCharacter();
      if c.Failure? {
        return Failure(Wrapped(SeparatorCharacter, c.error));
      }
      var sep := c.value;
      var separated: seq<string> := [];
      for i := 0 to |words|
        invariant |separated| == 2 * i
        invariant forall j :: 0 <= j < 2 * i ==> separated[j] == if j % 2 == 0 then sep else words[j / 2]
      {
        separated := separated + [sep, words[i]];
      }
      separated := separated + [sep];
      assert separated == Interleave(sep, words);
      r := Success(separated);
    }
  }

  /** `NewSeparatorService`: the service is built only for a valid configuration. */
  function NewSeparatorService(cfg: Settings, rng: RandomSource): (r: Result<SeparatorService>)
    ensures r.Success? <==> Validate(cfg) == Pass
    ensures r.Failure? ==> Validate(cfg) == Fail(r.error)
    ensures r.Success? ==> r.value == SeparatorService(cfg, rng)
  {
    match Validate(cfg)
    case Fail(e) => Failure(e)
    case Pass => Success(SeparatorService(cfg, rng))
  }
}
