/** The case transformer: rewrites the letter case of the picked words
    according to the configured case transform. */
module Transformer {
  import opened Outcomes
  import opened Text
  import opened Config
  import opened Rng
  import Validator

  /** The modes `Transform` dispatches on. */
  datatype CaseMode =
    | Alternating         // ALTERNATE
    | AlternatingLetters  // ALTERNATE_LETTERCASE
    | Capitalised         // CAPITALISE
    | Inverted            // CAPITALISE_INVERT and its alias INVERT
    | Lowered             // LOWER
    | VowelsLowered       // LOWER_VOWEL_UPPER_CONSONANT
    | Randomised          // RANDOM
    | Sentenced           // SENTENCE
    | Uppered             // UPPER
    | Unchanged           // NONE, and any value the switch does not list

  /** The switch of `Transform`: every type it acts on is listed, INVERT is
      an alias of CAPITALISE_INVERT, and RANDOM is the only mode that draws. */
  function ModeOf(t: string): (m: CaseMode)
    ensures m != Unchanged ==> t in TransformTypes
    ensures m == Inverted <==> t == CaseTransformCapitaliseInvert || t == CaseTransformInvert
    ensures m == Randomised <==> t == CaseTransformRandom
  {
    if t == CaseTransformAlternate then Alternating
    else if t == CaseTransformAlternateLettercase then AlternatingLetters
    else if t == CaseTransformCapitalise then Capitalised
    else if t == CaseTransformCapitaliseInvert then Inverted
    else if t == CaseTransformInvert then Inverted
    else if t == CaseTransformLower then Lowered
    else if t == CaseTransformLowerVowelUpperConsonant then VowelsLowered
    else if t == CaseTransformRandom then Randomised
    else if t == CaseTransformSentence then Sentenced
    else if t == CaseTransformUpper then Uppered
    else Unchanged
  }

  /** `validate`: the configured transform must be one of the listed ones. */
  function Validate(cfg: Settings): (o: Outcome)
    ensures o == Pass <==> cfg.caseTransform in TransformTypes
    ensures o.Fail? ==> o.error == InvalidCaseTransform
  {
    if !Validator.IsElementInSlice(TransformTypes, cfg.caseTransform) then Fail(InvalidCaseTransform)
    else Pass
  }

  /** Among the listed transforms only NONE leaves the words unchanged, and
      every transform that is not listed does. */
  lemma ListedModes(t: string)
    ensures t in TransformTypes ==> (ModeOf(t) == Unchanged <==> t == CaseTransformNone)
    ensures t !in TransformTypes ==> ModeOf(t) == Unchanged
  {
  }

  // ---------------------------------------------------------------------
  // What each mode makes of the words

  /** ALTERNATE: even-indexed words lowercased, odd-indexed words uppercased. */
  function AlternatedWords(cs: Casing, ws: seq<string>): seq<string> {
    seq(|ws|, i requires 0 <= i < |ws| => if i % 2 == 0 then ToLower(cs, ws[i]) else ToUpper(cs, ws[i]))
  }

  /** The number of letters among the first `i` runes of `w`. */
  function LettersBefore(cs: Casing, w: string, i: nat): nat
    requires i <= |w|
  {
    if i == 0 then 0 else LettersBefore(cs, w, i - 1) + (if cs.isLetter(w[i - 1]) then 1 else 0)
  }

  /** ALTERNATE_LETTERCASE on one word: the letters are lowercased and
      uppercased by turns, counting letters only and starting lowercase;
      other runes are kept. */
  function AlternatedLetters(cs: Casing, w: string): seq<char> {
    seq(|w|, i requires 0 <= i < |w| =>
      if !cs.isLetter(w[i]) then w[i]
      else if LettersBefore(cs, w, i) % 2 == 0 then cs.toLower(w[i])
      else cs.toUpper(w[i]))
  }

  /** CAPITALISE: every word title-cased. */
  function CapitalisedWords(cs: Casing, ws: seq<string>): seq<string> {
    seq(|ws|, i requires 0 <= i < |ws| => cs.title(ws[i]))
  }

  /** CAPITALISE_INVERT on one word: the first rune lowercased, every later
      rune uppercased. */
  function InvertedWord(cs: Casing, w: string): seq<char> {
    seq(|w|, i requires 0 <= i < |w| => if i == 0 then cs.toLower(w[i]) else cs.toUpper(w[i]))
  }

  function LowerWords(cs: Casing, ws: seq<string>): seq<string> {
    seq(|ws|, i requires 0 <= i < |ws| => ToLower(cs, ws[i]))
  }

  function UpperWords(cs: Casing, ws: seq<string>): seq<string> {
    seq(|ws|, i requires 0 <= i < |ws| => ToUpper(cs, ws[i]))
  }

  /** `isVowel`: the five vowels in either case, and no other rune. */
  predicate IsVowel(c: char): (b: bool)
    ensures b ==> 'a' <= c <= 'z' || 'A' <= c <= 'Z'
    ensures b <==> (if 'A' <= c <= 'Z' then (c as int + 32) as char else c) in {'a', 'e', 'i', 'o', 'u'}
  {
    c in "aeiouAEIOU"
  }

  /** LOWER_VOWEL_UPPER_CONSONANT on one word: vowels lowercased and every
      other rune, letter or not, uppercased. */
  function VowelCasedWord(cs: Casing, w: string): seq<char> {
    seq(|w|, i requires 0 <= i < |w| => if IsVowel(w[i]) then cs.toLower(w[i]) else cs.toUpper(w[i]))
  }

  /** SENTENCE: the first word title-cased, every other word lowercased. */
  function SentenceWords(cs: Casing, ws: seq<string>): seq<string> {
    seq(|ws|, i requires 0 <= i < |ws| => if i == 0 then cs.title(ws[i]) else ToLower(cs, ws[i]))
  }

  /** Every mode that draws nothing, applied to the whole slice. */
  function Cased(cs: Casing, mode: CaseMode, ws: seq<string>): (r: seq<string>)
    requires !mode.Randomised?
    ensures |r| == |ws|
  {
    match mode
    case Alternating => AlternatedWords(cs, ws)
    case AlternatingLetters => seq(|ws|, i requires 0 <= i < |ws| => AlternatedLetters(cs, ws[i]))
    case Capitalised => CapitalisedWords(cs, ws)
    case Inverted => seq(|ws|, i requires 0 <= i < |ws| => InvertedWord(cs, ws[i]))
    case Lowered => LowerWords(cs, ws)
    case VowelsLowered => seq(|ws|, i requires 0 <= i < |ws| => VowelCasedWord(cs, ws[i]))
    case Sentenced => SentenceWords(cs, ws)
    case Uppered => UpperWords(cs, ws)
    case Unchanged => ws
  }

  // ---------------------------------------------------------------------
  // RANDOM

  /** The first failing read among reads `p` up to `end`, or `end` if none fails. */
  function FirstFailure(entropy: EntropyStream, p: nat, end: nat): (f: nat)
    requires p <= end
    ensures p <= f <= end
    ensures forall q :: p <= q < f ==> entropy(q).Bits?
    ensures f < end ==> entropy(f).ReadFailure?
    decreases end - p
  {
    if p == end then end
    else if entropy(p).ReadFailure? then p
    else FirstFailure(entropy, p + 1, end)
  }

  /** Read `q` was the first failure from `p` on, or `q` is `end` and none failed. */
  lemma FirstFailureIs(entropy: EntropyStream, p: nat, q: nat, end: nat)
    requires p <= q <= end
    requires forall r :: p <= r < q ==> entropy(r).Bits?
    requires q == end || entropy(q).ReadFailure?
    ensures FirstFailure(entropy, p, end) == q
  {
  }

  /** A word upper-cased for an even draw and lower-cased for an odd one. */
  function CaseByDraw(cs: Casing, w: string, r: int): string {
    if r % 2 == 0 then ToUpper(cs, w) else ToLower(cs, w)
  }

  /** The slice `random` leaves behind with the provider at read `k`: word `j`
      is rewritten by the draw of read `k + j` when that read and all before
      it succeeded, and is left alone from the first failed read on. */
  function RandomWritten(cs: Casing, entropy: EntropyStream, k: nat, ws: seq<string>): (r: seq<string>)
    ensures |r| == |ws|
    ensures forall j :: 0 <= j < |ws| && (forall q :: k <= q <= k + j ==> entropy(q).Bits?) ==>
              r[j] == CaseByDraw(cs, ws[j], Draw(entropy, k + j).out.value)
    ensures forall j :: 0 <= j < |ws| && (exists q :: k <= q <= k + j && entropy(q).ReadFailure?) ==>
              r[j] == ws[j]
  {
    var f := FirstFailure(entropy, k, k + |ws|);
    seq(|ws|, j requires 0 <= j < |ws| =>
      if k + j < f then CaseByDraw(cs, ws[j], Draw(entropy, k + j).out.value) else ws[j])
  }

  /** The words rewritten by the first `i` draws, all of which succeeded,
      and left alone from there on, are what `random` leaves behind when the
      next read fails or no word is left. */
  lemma RandomWrittenAt(cs: Casing, entropy: EntropyStream, k: nat, ws: seq<string>, ys: seq<string>, i: nat)
    requires i <= |ws| == |ys|
    requires forall q :: k <= q < k + i ==> entropy(q).Bits?
    requires i == |ws| || entropy(k + i).ReadFailure?
    requires forall j :: 0 <= j < i ==> ys[j] == CaseByDraw(cs, ws[j], Draw(entropy, k + j).out.value)
    requires ys[i..] == ws[i..]
    ensures ys == RandomWritten(cs, entropy, k, ws)
  {
    FirstFailureIs(entropy, k, k + i, k + |ws|);
    forall j | i <= j < |ws|
      ensures ys[j] == ws[j]
    {
      assert ys[j] == ys[i..][j - i];
    }
  }

  /** `random`: one draw per word; the first failed draw ends it with the
      wrapped error, right after that read. It succeeds exactly when all of
      its reads do, and then leaves each word uppercased or lowercased. */
  function RandomCased(cs: Casing, entropy: EntropyStream, k: nat, ws: seq<string>): (s: Step<seq<string>>)
    ensures s.out.Success? <==> forall p :: k <= p < k + |ws| ==> entropy(p).Bits?
    ensures s.out.Success? ==>
              && s.pos == k + |ws|
              && |s.out.value| == |ws|
              && forall j :: 0 <= j < |ws| ==>
                   s.out.value[j] == ToUpper(cs, ws[j]) || s.out.value[j] == ToLower(cs, ws[j])
    ensures s.out.Failure? ==>
              && k < s.pos <= k + |ws|
              && entropy(s.pos - 1).ReadFailure?
              && (forall p :: k <= p < s.pos - 1 ==> entropy(p).Bits?)
              && s.out.error == Wrapped(RandomCase, Wrapped(RandomNumber, EntropyUnavailable))
  {
    var f := FirstFailure(entropy, k, k + |ws|);
    if f == k + |ws| then Step(Success(RandomWritten(cs, entropy, k, ws)), k + |ws|)
    else Step(Failure(Wrapped(RandomCase, Wrapped(RandomNumber, EntropyUnavailable))), f + 1)
  }

  // ---------------------------------------------------------------------
  // The per-word loops

  /** The rune loop of `alternateLettercase`: a flag, reset for the word,
      flips at every letter. */
  method AlternateLettercaseWord(cs: Casing, w: string) returns (r: string)
    ensures r == AlternatedLetters(cs, w)
  {
    r := [];
    var upper := false;
    for j := 0 to |w|
      invariant r == AlternatedLetters(cs, w)[..j]
      invariant upper <==> LettersBefore(cs, w, j) % 2 == 1
    {
      var c := w[j];
      if cs.isLetter(c) {
        if upper {
          c := cs.toUpper(c);
        } else {
          c := cs.toLower(c);
        }
        upper := !upper;
      }
      r := r + [c];
    }
  }

  /** The rune loop of `capitaliseInvert`. */
  method CapitaliseInvertWord(cs: Casing, w: string) returns (r: string)
    ensures r == InvertedWord(cs, w)
  {
    r := [];
    for j := 0 to |w|
      invariant r == InvertedWord(cs, w)[..j]
    {
      if j == 0 {
        r := r + [cs.toLower(w[j])];
      } else {
        r := r + [cs.toUpper(w[j])];
      }
    }
  }

  /** The rune loop of `lowerVowelUpperConsonant`. */
  method LowerVowelUpperConsonantWord(cs: Casing, w: string) returns (r: string)
    ensures r == VowelCasedWord(cs, w)
  {
    r := [];
    for j := 0 to |w|
      invariant r == VowelCasedWord(cs, w)[..j]
    {
      if IsVowel(w[j]) {
        r := r + [cs.toLower(w[j])];
      } else {
        r := r + [cs.toUpper(w[j])];
      }
    }
  }

  /** Within a word the letters take turns: of two letters with only
      non-letters between them, one is lowercased exactly when the other is
      uppercased. */
  lemma {:induction false} LettersAlternate(cs: Casing, w: string, i: nat, j: nat)
    requires i < j <= |w| && cs.isLetter(w[i])
    requires forall t :: i < t < j ==> !cs.isLetter(w[t])
    ensures LettersBefore(cs, w, j) == LettersBefore(cs, w, i) + 1
    decreases j - i
  {
    if j > i + 1 {
      LettersAlternate(cs, w, i, j - 1);
    }
  }

  /** The first letter of a word is always lowercased. */
  lemma {:induction false} FirstLetterLower(cs: Casing, w: string, i: nat)
    requires i < |w| && cs.isLetter(w[i])
    requires forall t :: 0 <= t < i ==> !cs.isLetter(w[t])
    ensures LettersBefore(cs, w, i) == 0
    ensures AlternatedLetters(cs, w)[i] == cs.toLower(w[i])
  {
    var n := i;
    while n > 0
      invariant 0 <= n <= i
      invariant LettersBefore(cs, w, i) == LettersBefore(cs, w, n)
    {
      n := n - 1;
    }
  }

  // ---------------------------------------------------------------------
  // The service

  datatype TransformerService = TransformerService(cfg: Settings, rng: RandomSource, casing: Casing)
  {
    function Mode(): CaseMode {
      ModeOf(cfg.caseTransform)
    }

    /** What `Transform` returns for `ws` with the provider at read `k`. */
    function Transformed(entropy: EntropyStream, k: nat, ws: seq<string>): (s: Step<seq<string>>)
      ensures s.out.Success? ==> |s.out.value| == |ws|
      ensures !Mode().Randomised? ==> s == Step(Success(Cased(casing, Mode(), ws)), k)
    {
      if Mode().Randomised? then RandomCased(casing, entropy, k, ws)
      else Step(Success(Cased(casing, Mode(), ws)), k)
    }

    /** What `Transform` leaves in the slice it was given: the modes that
        overwrite words in place leave their result (or, for RANDOM, what was
        written before a failed draw); the others leave the slice alone. */
    function Written(entropy: EntropyStream, k: nat, ws: seq<string>): seq<string> {
      match Mode()
      case Randomised => RandomWritten(casing, entropy, k, ws)
      case AlternatingLetters => ws
      case VowelsLowered => ws
      case _ => Cased(casing, Mode(), ws)
    }

    /** `Transform`: dispatches on the configured mode. */
    method Transform(words: array<string>) returns (r: Result<array<string>>)
      modifies words, rng
      ensures var s := Transformed(rng.entropy, old(rng.consumed), old(words[..]));
              rng.consumed == s.pos
              && (r.Success? <==> s.out.Success?)
              && (r.Success? ==> r.value[..] == s.out.value)
              && (r.Failure? ==> r.error == s.out.error)
      ensures words[..] == Written(rng.entropy, old(rng.consumed), old(words[..]))
      ensures r.Success? ==> if Mode().AlternatingLetters? || Mode().VowelsLowered? then fresh(r.value)
                             else r.value == words
    {
      var mode := Mode();
      match mode
      case Alternating =>
        Alternate(words);
        r := Success(words);
      case AlternatingLetters =>
        var result := AlternateLettercase(words);
        r := Success(result);
      case Capitalised =>
        Capitalise(words);
        r := Success(words);
      case Inverted =>
        CapitaliseInvert(words);
        r := Success(words);
      case Lowered =>
        Lower(words);
        r := Success(words);
      case VowelsLowered =>
        var result := LowerVowelUpperConsonant(words);
        r := Success(result);
      case Randomised =>
        r := Random(words);
      case Sentenced =>
        Sentence(words);
        r := Success(words);
      case Uppered =>
        Upper(words);
        r := Success(words);
      case Unchanged =>
        r := Success(words);
    }

    /** `alternate`, in place. */
    method Alternate(words: array<string>)
      modifies words
      ensures words[..] == AlternatedWords(casing, old(words[..]))
    {
      ghost var ws := words[..];
      for i := 0 to words.Length
        invariant words[..i] == AlternatedWords(casing, ws)[..i]
        invariant words[i..] == ws[i..]
      {
        if i % 2 == 0 {
          words[i] := ToLower(casing, words[i]);
        } else {
          words[i] := ToUpper(casing, words[i]);
        }
      }
    }

    /** `alternateLettercase`: builds a new slice, word by word. */
    method AlternateLettercase(words: array<string>) returns (result: array<string>)
      ensures fresh(result)
      ensures result[..] == Cased(casing, AlternatingLetters, words[..])
    {
      result := new string[words.Length];
      for i := 0 to words.Length
        invariant result[..i] == Cased(casing, AlternatingLetters, words[..])[..i]
      {
        var w := AlternateLettercaseWord(casing, words[i]);
        result[i] := w;
      }
    }

    /** `capitalise`, in place. */
    method Capitalise(words: array<string>)
      modifies words
      ensures words[..] == CapitalisedWords(casing, old(words[..]))
    {
      ghost var ws := words[..];
      for i := 0 to words.Length
        invariant words[..i] == CapitalisedWords(casing, ws)[..i]
        invariant words[i..] == ws[i..]
      {
        words[i] := casing.title(words[i]);
      }
    }

    /** `capitaliseInvert`, in place (also used for INVERT). */
    method CapitaliseInvert(words: array<string>)
      modifies words
      ensures words[..] == Cased(casing, Inverted, old(words[..]))
    {
      ghost var ws := words[..];
      for i := 0 to words.Length
        invariant words[..i] == Cased(casing, Inverted, ws)[..i]
        invariant words[i..] == ws[i..]
      {
        var w := CapitaliseInvertWord(casing, words[i]);
        words[i] := w;
      }
    }

    /** `lower`, in place. */
    method Lower(words: array<string>)
      modifies words
      ensures words[..] == LowerWords(casing, old(words[..]))
    {
      ghost var ws := words[..];
      for i := 0 to words.Length
        invariant words[..i] == LowerWords(casing, ws)[..i]
        invariant words[i..] == ws[i..]
      {
        words[i] := ToLower(casing, words[i]);
      }
    }

    /** `lowerVowelUpperConsonant`: builds a new slice, word by word. */
    method LowerVowelUpperConsonant(words: array<string>) returns (result: array<string>)
      ensures fresh(result)
      ensures result[..] == Cased(casing, VowelsLowered, words[..])
    {
      result := new string[words.Length];
      for i := 0 to words.Length
        invariant result[..i] == Cased(casing, VowelsLowered, words[..])[..i]
      {
        var w := LowerVowelUpperConsonantWord(casing, words[i]);
        result[i] := w;
      }
    }

    /** `random`, in place: a failed draw returns at once, leaving the words
        before it rewritten. */
    method Random(words: array<string>) returns (r: Result<array<string>>)
      modifies words, rng
      ensures var s := RandomCased(casing, rng.entropy, old(rng.consumed), old(words[..]));
              rng.consumed == s.pos
              && (r.Success? <==> s.out.Success?)
              && (r.Success? ==> r.value == words && words[..] == s.out.value)
              && (r.Failure? ==> r.error == s.out.error)
      ensures words[..] == RandomWritten(casing, rng.entropy, old(rng.consumed), old(words[..]))
    {
      ghost var ws := words[..];
      ghost var k := rng.consumed;
      for i := 0 to words.Length
        invariant rng.consumed == k + i
        invariant forall q :: k <= q < k + i ==> rng.entropy(q).Bits?
        invariant forall j :: 0 <= j < i ==> words[j] == CaseByDraw(casing, ws[j], Draw(rng.entropy, k + j).out.value)
        invariant words[i..] == ws[i..]
      {
        var n := rng.Generate();
        if n.Failure? {
          RandomWrittenAt(casing, rng.entropy, k, ws, words[..], i);
          return Failure(Wrapped(RandomCase, n.error));
        }
        if n.value % 2 == 0 {
          words[i] := ToUpper(casing, words[i]);
        } else {
          words[i] := ToLower(casing, words[i]);
        }
      }
      RandomWrittenAt(casing, rng.entropy, k, ws, words[..], |ws|);
      r := Success(words);
    }

    /** `sentence`, in place. */
    method Sentence(words: array<string>)
      modifies words
      ensures words[..] == SentenceWords(casing, old(words[..]))
    {
      ghost var ws := words[..];
      for i := 0 to words.Length
        invariant words[..i] == SentenceWords(casing, ws)[..i]
        invariant words[i..] == ws[i..]
      {
        if i == 0 {
          words[i] := casing.title(words[i]);
        } else {
          words[i] := ToLower(casing, words[i]);
        }
      }
    }

    /** `upper`, in place. */
    method Upper(words: array<string>)
      modifies words
      ensures words[..] == UpperWords(casing, old(words[..]))
    {
      ghost var ws := words[..];
      for i := 0 to words.Length
        invariant words[..i] == UpperWords(casing, ws)[..i]
        invariant words[i..] == ws[i..]
      {
        words[i] := ToUpper(casing, words[i]);
      }
    }
  }

  /** `NewTransformerService`: the service is built only for a listed transform. */
  function NewTransformerService(cfg: Settings, rng: RandomSource, casing: Casing): (r: Result<TransformerService>)
    ensures r.Success? <==> cfg.caseTransform in TransformTypes
    ensures r.Failure? ==> r.error == InvalidCaseTransform
    ensures r.Success? ==> r.value == TransformerService(cfg, rng, casing)
  {
    var svc := TransformerService(cfg, rng, casing);
    match Validate(cfg)
    case Fail(e) => Failure(e)
    case Pass => Success(svc)
  }
}
