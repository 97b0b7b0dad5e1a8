/** Worked examples on concrete inputs: ASCII case tables, and an entropy
    stream whose every read yields 1, so that each draw below `max` is
    `1 mod max`. */
module Scenarios {
  import opened Outcomes
  import opened Text
  import opened Config
  import opened Rng
  import opened Transformer
  import WordList
  import Separator
  import Padding
  import Generator

  function AsciiUpper(c: char): char {
    if 'a' <= c <= 'z' then (c as int - 32) as char else c
  }

  function AsciiLower(c: char): char {
    if 'A' <= c <= 'Z' then (c as int + 32) as char else c
  }

  predicate AsciiLetter(c: char) {
    'a' <= c <= 'z' || 'A' <= c <= 'Z'
  }

  function AsciiTitle(w: string): string {
    if w == [] then w else [AsciiUpper(w[0])] + MapRunes(AsciiLower, w[1..])
  }

  /** Case tables that agree with Unicode on ASCII text. */
  const Ascii: Casing := Casing(AsciiUpper, AsciiLower, AsciiLetter, AsciiTitle)

  /** Every read succeeds with the value 1. */
  const Ones: EntropyStream := p => Bits(1)

  /** Two strings of five runes that agree rune by rune are equal. */
  lemma SameFive(a: string, b: string)
    requires |a| == |b| == 5
    requires a[0] == b[0] && a[1] == b[1] && a[2] == b[2] && a[3] == b[3] && a[4] == b[4]
    ensures a == b
  {
    forall i | 0 <= i < 5
      ensures a[i] == b[i]
    {
      if i == 0 {} else if i == 1 {} else if i == 2 {} else if i == 3 {} else {}
    }
  }

  /** CAPITALISE_INVERT and INVERT lower the first rune of each word and
      raise the rest. */
  lemma CapitaliseInvertExample()
    ensures ModeOf(CaseTransformCapitaliseInvert) == ModeOf(CaseTransformInvert) == Inverted
    ensures Cased(Ascii, Inverted, ["hello", "world"]) == ["hELLO", "wORLD"]
  {
    var a := InvertedWord(Ascii, "hello");
    assert a[0] == AsciiLower('h') && a[1] == AsciiUpper('e') && a[2] == AsciiUpper('l');
    assert a[3] == AsciiUpper('l') && a[4] == AsciiUpper('o');
    SameFive(a, "hELLO");
    var b := InvertedWord(Ascii, "world");
    assert b[0] == AsciiLower('w') && b[1] == AsciiUpper('o') && b[2] == AsciiUpper('r');
    assert b[3] == AsciiUpper('l') && b[4] == AsciiUpper('d');
    SameFive(b, "wORLD");
  }

  /** ALTERNATE lowers the words at even positions and raises the others. */
  lemma AlternateExample()
    ensures Cased(Ascii, Alternating, ["hello", "world"]) == ["hello", "WORLD"]
  {
    var a := ToLower(Ascii, "hello");
    assert a[0] == AsciiLower('h') && a[1] == AsciiLower('e') && a[2] == AsciiLower('l');
    assert a[3] == AsciiLower('l') && a[4] == AsciiLower('o');
    SameFive(a, "hello");
    var b := ToUpper(Ascii, "world");
    assert b[0] == AsciiUpper('w') && b[1] == AsciiUpper('o') && b[2] == AsciiUpper('r');
    assert b[3] == AsciiUpper('l') && b[4] == AsciiUpper('d');
    SameFive(b, "WORLD");
  }

  /** ALTERNATE_LETTERCASE restarts lower case at the front of every word, so
      the second word is "wOrLd". */
  lemma AlternateLettercaseExample()
    ensures Cased(Ascii, AlternatingLetters, ["hello", "world"]) == ["hElLo", "wOrLd"]
  {
    var cs := Ascii;
    assert LettersBefore(cs, "hello", 1) == 1 && LettersBefore(cs, "hello", 2) == 2;
    assert LettersBefore(cs, "hello", 3) == 3 && LettersBefore(cs, "hello", 4) == 4;
    var a := AlternatedLetters(cs, "hello");
    assert a[0] == AsciiLower('h') && a[1] == AsciiUpper('e') && a[2] == AsciiLower('l');
    assert a[3] == AsciiUpper('l') && a[4] == AsciiLower('o');
    SameFive(a, "hElLo");
    assert LettersBefore(cs, "world", 1) == 1 && LettersBefore(cs, "world", 2) == 2;
    assert LettersBefore(cs, "world", 3) == 3 && LettersBefore(cs, "world", 4) == 4;
    var b := AlternatedLetters(cs, "world");
    assert b[0] == AsciiLower('w') && b[1] == AsciiUpper('o') && b[2] == AsciiLower('r');
    assert b[3] == AsciiUpper('l') && b[4] == AsciiLower('d');
    SameFive(b, "wOrLd");
  }

  /** LOWER_VOWEL_UPPER_CONSONANT lowers the vowels and raises every other
      rune: "hello" becomes "HeLLo", and "2b" becomes "2B". */
  lemma VowelExample()
    ensures Cased(Ascii, VowelsLowered, ["hello", "2b"]) == ["HeLLo", "2B"]
  {
    VowelHello();
    VowelTwoB();
  }

  lemma VowelHello()
    ensures VowelCasedWord(Ascii, "hello") == "HeLLo"
  {
    var v := VowelCasedWord(Ascii, "hello");
    assert !IsVowel('h') && !IsVowel('l') && IsVowel('e') && IsVowel('o');
    assert v[0] == AsciiUpper('h') && v[1] == AsciiLower('e') && v[2] == AsciiUpper('l');
    assert v[3] == AsciiUpper('l') && v[4] == AsciiLower('o');
    SameFive(v, "HeLLo");
  }

  lemma VowelTwoB()
    ensures VowelCasedWord(Ascii, "2b") == "2B"
  {
    assert !IsVowel('2') && !IsVowel('b');
    var w := VowelCasedWord(Ascii, "2b");
    assert w[0] == AsciiUpper('2') && w[1] == AsciiUpper('b');
    assert w == "2B";
  }

  /** A fixed separator that is itself a digit is taken for a stray separator
      at the edges: a padding digit equal to it is dropped from each end. */
  lemma DigitSeparatorDropped(rng: RandomSource)
    ensures var cfg := DefaultSettings.(separatorCharacter := "1");
            Padding.PaddingService(cfg, rng).RemoveEdgeSeparatorCharacter(["1", "2", "1", "x", "1", "2", "1"])
            == ["2", "1", "x", "1", "2"]
  {
    var cfg := DefaultSettings.(separatorCharacter := "1");
    var svc := Padding.PaddingService(cfg, rng);
    var ts := ["1", "2", "1", "x", "1", "2", "1"];
    assert svc.IsSeparatorToken(ts[0]) && svc.IsSeparatorToken(ts[6]);
  }

  /** The default settings over a catalogue holding the one word "test", every
      stage drawing from `rng`. */
  function DefaultGenerator(rng: RandomSource): Generator.PasswordGeneratorService {
    Generator.PasswordGeneratorService(
      DefaultSettings,
      TransformerService(DefaultSettings, rng, Ascii),
      Separator.SeparatorService(DefaultSettings, rng),
      Padding.PaddingService(DefaultSettings, rng),
      WordList.WordListService(DefaultSettings, rng, ["test"]))
  }

  const Tests: seq<string> := ["test", "test", "test"]

  /** Three reads pick the only word three times. */
  lemma OnesWords(rng: RandomSource)
    ensures DefaultGenerator(rng).wordListSvc.Words(Ones, 0) == Step(Success(Tests), 3)
  {
    var svc := DefaultGenerator(rng).wordListSvc;
    DrawsFromFailure(Ones, 0, 0, 3, 1);
    WordList.WordsDrawnFromList(svc, Ones, 0);
    var s := svc.Words(Ones, 0);
    assert s.out.Success?;
    var v := s.out.value;
    assert v[0] == "test" && v[1] == "test" && v[2] == "test";
    assert v == [v[0], v[1], v[2]];
  }

  /** RANDOM: every draw is 1, which is odd, so every word is lowered. */
  lemma OnesRandomCase(rng: RandomSource)
    ensures DefaultGenerator(rng).transformerSvc.Transformed(Ones, 3, Tests) == Step(Success(Tests), 6)
  {
    var svc := DefaultGenerator(rng).transformerSvc;
    assert svc.Mode() == Randomised;
    assert FirstFailure(Ones, 3, 6) == 6;
    var lower := ToLower(Ascii, "test");
    assert lower[0] == AsciiLower('t') && lower[1] == AsciiLower('e');
    assert lower[2] == AsciiLower('s') && lower[3] == AsciiLower('t');
    assert lower == "test";
    var r := RandomWritten(Ascii, Ones, 3, Tests);
    forall j | 0 <= j < 3
      ensures r[j] == "test"
    {
      assert Draw(Ones, 3 + j).out.value == 1;
    }
    assert r == Tests;
  }

  /** The seventh read picks "@", the entry at position 1 of the alphabet. */
  lemma OnesSeparator(rng: RandomSource)
    ensures DefaultGenerator(rng).separatorSvc.Separated(Ones, 6, Tests)
            == Step(Success(Separated), 7)
  {
    var svc := DefaultGenerator(rng).separatorSvc;
    assert svc.Character(Ones, 6) == Step(Success("@"), 7);
    var t := Separator.Interleave("@", Tests);
    assert t[0] == "@" && t[1] == "test" && t[2] == "@" && t[3] == "test";
    assert t[4] == "@" && t[5] == "test" && t[6] == "@";
    assert t == [t[0], t[1], t[2], t[3], t[4], t[5], t[6]];
  }

  const Separated: seq<string> := ["@", "test", "@", "test", "@", "test", "@"]
  const Digited: seq<string> := ["1", "1", "@", "test", "@", "test", "@", "test", "@", "1", "1"]

  /** Four digit reads give "1" twice on each side. */
  lemma OnesDigits(rng: RandomSource)
    ensures DefaultGenerator(rng).paddingSvc.DigitsAdded(Ones, 7, Separated) == Step(Success(Digited), 11)
  {
    var b := Padding.RandomDigits(Ones, 7, 2);
    assert b.out.value[0] == [DigitChar(1)] == "1" && b.out.value[1] == "1";
    assert b.out.value == [b.out.value[0], b.out.value[1]];
    var a := Padding.RandomDigits(Ones, 9, 2);
    assert a.out.value[0] == "1" && a.out.value[1] == "1";
    assert a.out.value == [a.out.value[0], a.out.value[1]];
    var r := b.out.value + Separated + a.out.value;
    assert r == [r[0], r[1], r[2], r[3], r[4], r[5], r[6], r[7], r[8], r[9], r[10]];
  }

  const Joined: string := "11@test@test@test@11"

  /** No edge token is in the separator alphabet, so none is dropped. */
  lemma OnesEdges(rng: RandomSource)
    ensures DefaultGenerator(rng).paddingSvc.RemoveEdgeSeparatorCharacter(Digited) == Digited
  {
    assert "1" !in DefaultSpecialCharacters;
  }

  /** The eleven tokens joined, three at a time. */
  lemma OnesJoin()
    ensures Join(Digited) == Joined
  {
    var a, b, c := ["1", "1", "@", "test"], ["@", "test", "@", "test"], ["@", "1", "1"];
    assert Digited == a + b + c;
    JoinAppend(a, b);
    JoinAppend(a + b, c);
    JoinHead();
    JoinMiddle();
    JoinTail();
    JoinedPieces();
  }

  // The three pieces of `OnesJoin`, each joined on its own.

  lemma JoinHead()
    ensures Join(["1", "1", "@", "test"]) == "11@test"
  {
    JoinAppend(["1", "1"], ["@", "test"]);
    assert ["1", "1"] + ["@", "test"] == ["1", "1", "@", "test"];
  }

  lemma JoinMiddle()
    ensures Join(["@", "test", "@", "test"]) == "@test@test"
  {
    JoinAppend(["@", "test"], ["@", "test"]);
    assert ["@", "test"] + ["@", "test"] == ["@", "test", "@", "test"];
  }

  lemma JoinTail()
    ensures Join(["@", "1", "1"]) == "@11"
  {
  }

  lemma JoinedPieces()
    ensures "11@test" + "@test@test" + "@11" == Joined
  {
  }

  /** Nothing in the joined password is white space. */
  lemma OnesTrim()
    ensures TrimSpace(Joined) == Joined
  {
    forall i | 0 <= i < |Joined|
      ensures !IsSpace(Joined[i])
    {
      assert Joined[i] in "1@tes";
      GraphicNotSpace(Joined[i]);
    }
    TrimSpaceNoSpace(Joined);
  }

  /** The twelfth read picks "@" as the padding character, put twice on each
      side. */
  lemma OnesSymbols(rng: RandomSource)
    ensures DefaultGenerator(rng).paddingSvc.Symbols(Ones, 11, Joined)
            == Step(Success("@@11@test@test@test@11@@"), 12)
  {
    var svc := DefaultGenerator(rng).paddingSvc;
    assert svc.PaddingCharacter(Ones, 11) == Step(Success("@"), 12);
    assert Repeat("@", 2) == "@@";
    assert svc.Fixed(Joined, "@") == "@@" + Joined + "@@";
    FramedJoined();
  }

  lemma FramedJoined()
    ensures "@@" + Joined + "@@" == "@@11@test@test@test@11@@"
  {
  }

  /** The padding stage as a whole: digits, joining, then symbols. */
  lemma OnesPadding(rng: RandomSource)
    ensures DefaultGenerator(rng).paddingSvc.Padded(Ones, 7, Separated)
            == Step(Success("@@11@test@test@test@11@@"), 12)
  {
    OnesDigits(rng);
    OnesEdges(rng);
    OnesJoin();
    OnesTrim();
    OnesSymbols(rng);
  }

  /** With every read yielding 1, the default settings over the catalogue
      ["test"] give the password "@@11@test@test@test@11@@" after twelve
      reads: three words, three case draws, one separator, four digits and
      one padding character. */
  lemma OnesPassword(rng: RandomSource)
    ensures DefaultGenerator(rng).Password(Ones, 0) == Step(Success("@@11@test@test@test@11@@"), 12)
  {
    OnesWords(rng);
    OnesRandomCase(rng);
    OnesSeparator(rng);
    OnesPadding(rng);
  }
}
