/** The generator's settings and the option values they are compared against. */
module Config {

  /** The settings every service of the pipeline reads (one shared record). */
  datatype Settings = Settings(
    caseTransform: string,
    numPasswords: int,
    numWords: int,
    paddingCharactersAfter: int,
    paddingCharactersBefore: int,
    paddingCharacter: string,
    paddingDigitsAfter: int,
    paddingDigitsBefore: int,
    paddingType: string,
    padToLength: int,
    preset: string,
    separatorAlphabet: seq<string>,
    separatorCharacter: string,
    symbolAlphabet: seq<string>,
    wordLengthMax: int,
    wordLengthMin: int,
    wordList: string)

  // Case transforms
  const CaseTransformAlternate: string := "ALTERNATE"
  const CaseTransformAlternateLettercase: string := "ALTERNATE_LETTERCASE"
  const CaseTransformCapitalise: string := "CAPITALISE"
  const CaseTransformCapitaliseInvert: string := "CAPITALISE_INVERT"
  const CaseTransformInvert: string := "INVERT"
  const CaseTransformLower: string := "LOWER"
  const CaseTransformLowerVowelUpperConsonant: string := "LOWER_VOWEL_UPPER_CONSONANT"
  const CaseTransformNone: string := "NONE"
  const CaseTransformRandom: string := "RANDOM"
  const CaseTransformSentence: string := "SENTENCE"
  const CaseTransformUpper: string := "UPPER"

  /** The case transforms a configuration may name. */
  const TransformTypes: seq<string> := [
    CaseTransformAlternate, CaseTransformAlternateLettercase, CaseTransformCapitalise,
    CaseTransformCapitaliseInvert, CaseTransformInvert, CaseTransformLower,
    CaseTransformLowerVowelUpperConsonant, CaseTransformNone, CaseTransformRandom,
    CaseTransformSentence, CaseTransformUpper]

  // Padding types
  const PaddingTypeAdaptive: string := "ADAPTIVE"
  const PaddingTypeFixed: string := "FIXED"
  const PaddingTypeNone: string := "NONE"

  /** The value of `paddingCharacter` (and, as the padding code compares it,
      of `separatorCharacter`) that asks for a random pick from an alphabet. */
  const PaddingCharacterRandom: string := "RANDOM"
  const SeparatorCharacterRandom: string := "RANDOM"

  const DefaultSpecialCharacters: seq<string> := [
    "!", "@", "$", "%", "^", "&", "*", "-", "+", "=", ":", "|", "~", "?", "/", ".", ";"]

  const WordListEN: string := "EN"
  const PresetDefault: string := "DEFAULT"

  /** The settings used when none are given. */
  const DefaultSettings: Settings := Settings(
    caseTransform := CaseTransformRandom,
    numPasswords := 3,
    numWords := 3,
    paddingCharactersAfter := 2,
    paddingCharactersBefore := 2,
    paddingCharacter := PaddingCharacterRandom,
    paddingDigitsAfter := 2,
    paddingDigitsBefore := 2,
    paddingType := PaddingTypeFixed,
    padToLength := 0,
    preset := PresetDefault,
    separatorAlphabet := DefaultSpecialCharacters,
    separatorCharacter := SeparatorCharacterRandom,
    symbolAlphabet := DefaultSpecialCharacters,
    wordLengthMax := 8,
    wordLengthMin := 4,
    wordList := WordListEN)
}
