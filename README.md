# libpass v7 password pipeline, modelled in Dafny

This project models the password-assembly pipeline of libpass v7, the library
behind the `mempass` command line tool. A password is built in four stages,
all drawing from one random source:

1. The **word catalog** picks `NumWords` words from a filtered word list by
   drawn index, with replacement.
2. The **case transformer** rewrites their letter case in one of eleven modes.
3. The **separator inserter** turns the words into `[c, w0, c, w1, …, c]` with
   one separator resolved per password.
4. The **padding assembler** adds digit runs on both sides, drops stray edge
   separators, joins and trims the tokens, and pads the result with FIXED,
   ADAPTIVE or no symbols.

The **generator** checks `1 ≤ NumPasswords ≤ 10` and runs the four stages
once per password. It returns all the passwords or the first error. Two
helpers are modelled as well: the ordered last-wins map merge and the
alphabet predicates used by validation.

How the model is built:

- **Random source.** The operating system's entropy provider is an arbitrary
  stream of reads (`Rng.EntropyStream`). Each read yields a natural number or
  fails. `Rng.RandomSource` is a class holding that stream and the count of
  reads made so far.
  - A draw below `max` reads once and reduces the number modulo `max`.
  - Because the stream is arbitrary, every sequence of in-range draws is
    possible and nothing is stated about their distribution.
- **Stage specifications.** Every stage has a pure function taking the read
  position `k` and returning a `Step`. A `Step` pairs the stage's `Result`
  with the read position afterwards. The stage's method on the shared
  `RandomSource` is proved to return exactly that result and to advance the
  read count to exactly that position.
- **Loops and arrays.** Where the Go code overwrites a slice in place, the
  model uses an `array` and loops with invariants. This covers the
  transformer modes, the filling of the drawn slice and of the picked words.
  Where the Go code appends, the model appends to a `seq`. This covers
  separation and digit runs. Merging inserts into a map, and the model
  updates a Dafny `map` value key by key.
- **Strings.** Strings are sequences of runes. Go's `len` on a string is the
  UTF-8 byte count (`Text.ByteLen`), kept apart from the rune count that
  `adaptive` uses.
- **Letter case.** `unicode.ToUpper`, `unicode.ToLower`, `unicode.IsLetter`
  and the title caser are given as a `Text.Casing` value. This makes them
  uninterpreted functions on runes and words.
  - `Scenarios` fixes them to ASCII tables.
  - `Scenarios` also fixes the entropy to a stream whose every read yields 1,
    so each draw below `max` is `1 mod max`, and computes whole passwords.
    With the one-word catalogue `["test"]` every word draw is `1 mod 1 = 0`.

## Model

| member | source | states |
|---|---|---|
| Rng.DrawWithMax | vendor/github.com/eljamo/libpass/v7/service/rng.go:45-56 | a bound below one fails with the max error before any read; otherwise exactly one read is made, the draw succeeds exactly when that read does, and a successful draw lies in `[0, max)` |
| Rng.Draw | vendor/github.com/eljamo/libpass/v7/service/rng.go:59-61 | `Generate` reads once and never returns a negative number (it lies below `math.MaxInt`) |
| Rng.DrawDigit | vendor/github.com/eljamo/libpass/v7/service/rng.go:64-66 | `GenerateDigit` reads once and returns a digit 0..9 |
| Rng.DrawsFrom | vendor/github.com/eljamo/libpass/v7/service/rng.go:83-89 | the slice loop from index `i`: on success it made one read per remaining index and element `j` is the draw made from read `k + j` |
| Rng.DrawSlice | vendor/github.com/eljamo/libpass/v7/service/rng.go:69-92 | negative length is checked first, then `max < 1` (also for length 0), both before any read; length 0 gives the empty slice; a successful slice has exactly `length` elements, each in `[0, max)`, read in order |
| Rng.DrawsFromFailure | vendor/github.com/eljamo/libpass/v7/service/rng.go:84-87 | a slice draw fails exactly when one of the reads it needs fails |
| Rng.DrawsFromFirstFailure | vendor/github.com/eljamo/libpass/v7/service/rng.go:84-87 | a failed slice draw reports the index of the first failing read, wrapped, returns no elements and stops reading right after that read |
| Rng.RandomSource.constructor | vendor/github.com/eljamo/libpass/v7/service/rng.go:40-42 | a new source is at the start of its entropy stream |
| Rng.RandomSource.GenerateWithMax | vendor/github.com/eljamo/libpass/v7/service/rng.go:45-56 | the method's result and read count are those of `DrawWithMax` |
| Rng.RandomSource.Generate | vendor/github.com/eljamo/libpass/v7/service/rng.go:59-61 | the method's result and read count are those of `Draw` |
| Rng.RandomSource.GenerateDigit | vendor/github.com/eljamo/libpass/v7/service/rng.go:64-66 | the method's result and read count are those of `DrawDigit` |
| Rng.RandomSource.GenerateSliceWithMax | vendor/github.com/eljamo/libpass/v7/service/rng.go:69-92 | the loop filling a preallocated array returns exactly `DrawSlice`'s result and leaves the read count where `DrawSlice` says |
| Rng.RandomSource.GenerateSlice | vendor/github.com/eljamo/libpass/v7/service/rng.go:95-97 | `GenerateSlice` is `GenerateSliceWithMax` below `math.MaxInt` |
| Validator.HasElementWithLengthGreaterThanOne | vendor/github.com/eljamo/libpass/v5/internal/validator/validator.go:3-11 | true exactly when some element is longer than one byte (so false on an empty slice) |
| Validator.ShortElementsPass | vendor/github.com/eljamo/libpass/v5/internal/validator/validator.go:5 | the check passes exactly when every element is empty or one ASCII character; a single non-ASCII rune counts as too long |
| Validator.IsElementInSlice | vendor/github.com/eljamo/libpass/v5/internal/validator/validator.go:13-21 | true exactly when some element equals `e` (so false on an empty slice) |
| Merger.LastWinsKeys | vendor/github.com/eljamo/libpass/v7/internal/merger/map.go:9-13 | the merged keys are the union of the input maps' keys |
| Merger.LastWinsValue | vendor/github.com/eljamo/libpass/v7/internal/merger/map.go:3-13 | a key's merged value is its value in the last map holding it |
| Merger.LastWinsSingle | vendor/github.com/eljamo/libpass/v7/internal/merger/map.go:9-13 | merging one map yields that map |
| Merger.Map | vendor/github.com/eljamo/libpass/v7/internal/merger/map.go:6-16 | the nested insertion loops compute the last-wins merge; no maps give the empty map |
| Outcomes.Chain | vendor/github.com/eljamo/libpass/v7/service/password_generator.go:103-129 | a successful chain of `n` runs holds `n` items |
| Outcomes.ChainRuns | vendor/github.com/eljamo/libpass/v7/service/password_generator.go:103-129 | a chain succeeds exactly when every run, each started where the one before it stopped, succeeds; item `i` is what run `i` made, and the chain ends where the last run stopped |
| Outcomes.ChainFirstFailure | vendor/github.com/eljamo/libpass/v7/service/password_generator.go:103-129 | a failed chain returns the error of its first failing run, every run before it having succeeded, and stops where that run stopped |
| Text.ByteLen | vendor/github.com/eljamo/libpass/v5/internal/validator/validator.go:5 | Go's `len` on a string, its UTF-8 byte count, lies between the rune count and four times it |
| Text.ByteLenAtMostOne | vendor/github.com/eljamo/libpass/v7/service/separator.go:79 | `len(s) <= 1` holds exactly for the empty string and single ASCII characters |
| Text.RuneCount | vendor/github.com/eljamo/libpass/v7/service/padding.go:195 | `utf8.RuneCountInString` is at most the byte count and at least a quarter of it, and is zero only for the empty string |
| Text.Repeat | vendor/github.com/eljamo/libpass/v7/service/padding.go:185-186 | `strings.Repeat(s, n)` has `n·len(s)` runes, is empty for an empty `s`, and repeats a one-rune `s` at every position |
| Text.Join | vendor/github.com/eljamo/libpass/v7/service/padding.go:54 | `strings.Join(parts, "")` of no parts is empty and otherwise starts with the first part |
| Text.JoinLast | vendor/github.com/eljamo/libpass/v7/service/padding.go:54 | the joined string ends with the last part |
| Text.JoinAppend | vendor/github.com/eljamo/libpass/v7/service/padding.go:54 | joining with "" distributes over concatenation of token lists |
| Text.IsSpace | vendor/github.com/eljamo/libpass/v7/service/padding.go:54 | within Latin-1, `unicode.IsSpace` holds exactly for '\t'..'\r', the blank, U+0085 and U+00A0 |
| Text.TrimSpace | vendor/github.com/eljamo/libpass/v7/service/padding.go:54 | the trimmed string neither starts nor ends with white space |
| Text.TrimSpaceInfix | vendor/github.com/eljamo/libpass/v7/service/padding.go:54 | the trimmed string is one infix of the input and only white space is cut on either side |
| Text.TrimSpaceKeeps | vendor/github.com/eljamo/libpass/v7/service/padding.go:54 | a string that neither starts nor ends with white space is not changed by trimming |
| Text.TrimSpaceNoSpace | vendor/github.com/eljamo/libpass/v7/service/padding.go:54 | a string without any white space is not changed by trimming |
| Text.GraphicNotSpace | vendor/github.com/eljamo/libpass/v7/service/padding.go:54 | no printable ASCII character is white space, so trimming never touches digits, separators or ASCII words |
| Text.Itoa | vendor/github.com/eljamo/libpass/v7/service/padding.go:97 | `strconv.Itoa` of a digit 0..9 is that one decimal character |
| Text.MapRunes | vendor/github.com/eljamo/libpass/v7/service/transformer.go:98 | `strings.ToLower`/`ToUpper` keep the rune count and map each rune on its own |
| WordList.GetWordList | vendor/github.com/eljamo/libpass/v7/service/word_list.go:50-79 | `max < min` fails before the catalogue is consulted; a catalogue error is passed on; an empty selection fails; success holds exactly the catalogue's non-empty list |
| WordList.NewWordListService | vendor/github.com/eljamo/libpass/v7/service/word_list.go:31-46 | `NumWords < 2` fails before any list lookup; construction succeeds exactly when the count and the list are valid, and a built service holds the settings, the given source and the catalogue's non-empty list |
| WordList.Pick | vendor/github.com/eljamo/libpass/v7/service/word_list.go:91-96 | selection succeeds exactly when every index is inside the list, and word `j` is `wordList[indices[j]]` |
| WordList.PickFrom | vendor/github.com/eljamo/libpass/v7/service/word_list.go:91-96 | the index loop from position `i`: success exactly when the remaining indices are in range, with the words in index order |
| WordList.WordListService.PickWords | vendor/github.com/eljamo/libpass/v7/service/word_list.go:90-98 | the loop writing a fresh array returns exactly `Pick`'s words or its out-of-range error |
| WordList.WordListService.Words | vendor/github.com/eljamo/libpass/v7/service/word_list.go:83-99 | a successful draw has `NumWords` words, every one of them from the service's list |
| WordList.WordListService.GetWords | vendor/github.com/eljamo/libpass/v7/service/word_list.go:83-99 | the method's words, error and read count are those of the `Words` specification; an RNG failure is wrapped |
| WordList.WordsDrawnFromList | vendor/github.com/eljamo/libpass/v7/service/word_list.go:83-99 | with a non-empty list the range error never occurs: a failure is a wrapped draw failure, and a success is `NumWords` words, word `p - k` chosen by read `p`, duplicates allowed |
| Transformer.Validate | vendor/github.com/eljamo/libpass/v7/service/transformer.go:257-263 | validation passes exactly for the listed transform types |
| Transformer.ModeOf | vendor/github.com/eljamo/libpass/v7/service/transformer.go:65-90 | every type the switch acts on is listed, INVERT and CAPITALISE_INVERT are the same mode, and RANDOM is the only type that draws |
| Transformer.ListedModes | vendor/github.com/eljamo/libpass/v7/service/transformer.go:65-90 | among listed types only NONE leaves the words alone, and every unlisted value does |
| Transformer.Cased | vendor/github.com/eljamo/libpass/v7/service/transformer.go:65-90 | every mode that draws nothing keeps the number of words |
| Transformer.FirstFailure | vendor/github.com/eljamo/libpass/v7/service/transformer.go:223-227 | the first failing read in a range, all reads before it succeeding |
| Transformer.RandomWritten | vendor/github.com/eljamo/libpass/v7/service/transformer.go:222-237 | what `random` leaves in the slice: word `j` is rewritten by read `k + j` when that read and all before it succeeded, and is left as it was once a read up to `k + j` failed |
| Transformer.RandomCased | vendor/github.com/eljamo/libpass/v7/service/transformer.go:222-237 | RANDOM succeeds exactly when every one of its reads does, making one read per word and leaving each word upper- or lowercased; otherwise it stops right after the first failed read, all before it having succeeded, with the error wrapped as a case-draw failure |
| Transformer.AlternateLettercaseWord | vendor/github.com/eljamo/libpass/v7/service/transformer.go:117-133 | the per-rune loop with the `upper` flag computes `AlternatedLetters` |
| Transformer.LettersAlternate | vendor/github.com/eljamo/libpass/v7/service/transformer.go:119-128 | the flag flips at every letter and only at letters, so consecutive letters take opposite cases |
| Transformer.FirstLetterLower | vendor/github.com/eljamo/libpass/v7/service/transformer.go:117-128 | the flag is reset per word, so the first letter of every word is lowercased |
| Transformer.CapitaliseInvertWord | vendor/github.com/eljamo/libpass/v7/service/transformer.go:159-173 | the rune loop lowercases the first rune and uppercases every later one |
| Transformer.LowerVowelUpperConsonantWord | vendor/github.com/eljamo/libpass/v7/service/transformer.go:202-216 | the rune loop lowercases runes of "aeiouAEIOU" and uppercases every other rune |
| Transformer.IsVowel | vendor/github.com/eljamo/libpass/v7/service/transformer.go:187-189 | a vowel is an ASCII letter, and a rune is a vowel exactly when its ASCII lowercase form is one of a, e, i, o, u |
| Transformer.TransformerService.Transformed | vendor/github.com/eljamo/libpass/v7/service/transformer.go:65-90 | a successful transform keeps the number of words; every mode but RANDOM succeeds without reading |
| Transformer.TransformerService.Transform | vendor/github.com/eljamo/libpass/v7/service/transformer.go:65-90 | dispatch returns the mode's result and error and reads as the specification says; the given slice is overwritten in place except by the two modes that build a new one |
| Transformer.TransformerService.Alternate | vendor/github.com/eljamo/libpass/v7/service/transformer.go:95-105 | in place: even-indexed words lowercased, odd-indexed uppercased |
| Transformer.TransformerService.AlternateLettercase | vendor/github.com/eljamo/libpass/v7/service/transformer.go:114-138 | a fresh slice of the words with alternating letter case |
| Transformer.TransformerService.Capitalise | vendor/github.com/eljamo/libpass/v7/service/transformer.go:143-152 | in place: every word title-cased |
| Transformer.TransformerService.CapitaliseInvert | vendor/github.com/eljamo/libpass/v7/service/transformer.go:157-177 | in place: every word with the first rune lowered and the rest raised |
| Transformer.TransformerService.Lower | vendor/github.com/eljamo/libpass/v7/service/transformer.go:179-185 | in place: every word lowercased |
| Transformer.TransformerService.LowerVowelUpperConsonant | vendor/github.com/eljamo/libpass/v7/service/transformer.go:199-220 | a fresh slice of the words with vowels lowered and all else raised |
| Transformer.TransformerService.Random | vendor/github.com/eljamo/libpass/v7/service/transformer.go:222-237 | one draw per word, even raises and odd lowers; a failed draw returns the wrapped error at once and leaves the earlier words rewritten |
| Transformer.TransformerService.Sentence | vendor/github.com/eljamo/libpass/v7/service/transformer.go:242-255 | in place: first word title-cased, the rest lowercased |
| Transformer.TransformerService.Upper | vendor/github.com/eljamo/libpass/v7/service/transformer.go:265-271 | in place: every word uppercased |
| Transformer.NewTransformerService | vendor/github.com/eljamo/libpass/v7/service/transformer.go:40-48 | construction succeeds exactly for a listed transform type |
| Separator.Validate | vendor/github.com/eljamo/libpass/v7/service/separator.go:78-95 | a fixed separator longer than one byte, a RANDOM separator with an empty alphabet, and one with an entry longer than one byte each fail with their own error; otherwise validation passes |
| Separator.ValidFixedSeparator | vendor/github.com/eljamo/libpass/v7/service/separator.go:79-81 | a valid fixed separator is empty or one ASCII character |
| Separator.Interleave | vendor/github.com/eljamo/libpass/v7/service/separator.go:49-53 | `n` words separate into `2n + 1` tokens |
| Separator.InterleaveInverse | vendor/github.com/eljamo/libpass/v7/service/separator.go:49-55 | the words come back, unchanged and in order, from the odd positions |
| Separator.InterleaveCons | vendor/github.com/eljamo/libpass/v7/service/separator.go:50-51 | each word contributes the separator followed by the word, in front of the rest |
| Separator.SeparatorService.Character | vendor/github.com/eljamo/libpass/v7/service/separator.go:61-72 | a fixed separator is returned as configured without reading; RANDOM makes one read and returns `SeparatorAlphabet[n mod len]`, or a wrapped failure |
| Separator.SeparatorService.Separated | vendor/github.com/eljamo/libpass/v7/service/separator.go:43-56 | one separator is resolved per call and used at every even position; a resolution failure is wrapped and yields no tokens |
| Separator.SeparatorService.GetSeparatorCharacter | vendor/github.com/eljamo/libpass/v7/service/separator.go:61-72 | the method's result and read count are those of `Character` |
| Separator.SeparatorService.Separate | vendor/github.com/eljamo/libpass/v7/service/separator.go:43-56 | the append loop produces exactly the `Separated` tokens |
| Separator.NewSeparatorService | vendor/github.com/eljamo/libpass/v7/service/separator.go:29-37 | construction succeeds exactly when validation passes, else it returns validation's error |
| Padding.Validate | vendor/github.com/eljamo/libpass/v7/service/padding.go:208-237 | passes exactly when the padding character, the symbol alphabet and all counts are acceptable; each check's error is reported when the checks before it pass |
| Padding.ValidCounts | vendor/github.com/eljamo/libpass/v7/service/padding.go:224-230 | a validated configuration has non-negative digit and character counts, so `Pad` cannot panic |
| Padding.NewPaddingService | vendor/github.com/eljamo/libpass/v7/service/padding.go:32-40 | construction succeeds exactly when validation passes; a built service has non-negative counts |
| Padding.RandomDigits | vendor/github.com/eljamo/libpass/v7/service/padding.go:89-101 | `n` successful reads give `n` tokens, token `p - k` being the decimal digit of read `p` mod 10; a failed read stops the run and its random-number error is returned as it is |
| Padding.PaddingService.GenerateRandomDigits | vendor/github.com/eljamo/libpass/v7/service/padding.go:89-101 | the append loop returns exactly `RandomDigits`' tokens and reads |
| Padding.PaddingService.DigitsAdded | vendor/github.com/eljamo/libpass/v7/service/padding.go:67-85 | before-digits, the tokens unchanged, then after-digits, of total length `before + len + after`, every added token a single digit |
| Padding.PaddingService.Digits | vendor/github.com/eljamo/libpass/v7/service/padding.go:67-85 | the method's tokens, error and reads are those of `DigitsAdded` |
| Padding.PaddingService.RemoveEdgeSeparatorCharacter | vendor/github.com/eljamo/libpass/v7/service/padding.go:105-123 | at most one separator token is dropped at each end, the result is the contiguous rest, a lone separator becomes empty, and non-separator edges keep the slice |
| Padding.PaddingService.RemoveRandomEdgeSeparatorCharacter | vendor/github.com/eljamo/libpass/v7/service/padding.go:127-145 | with a RANDOM separator an edge token is dropped when it is in the separator alphabet; an empty alphabet drops nothing |
| Padding.PaddingService.PaddingCharacter | vendor/github.com/eljamo/libpass/v7/service/padding.go:170-180 | a fixed padding character is returned without reading; RANDOM makes one read and returns `SymbolAlphabet[n mod len]` |
| Padding.PaddingService.GetPaddingCharacter | vendor/github.com/eljamo/libpass/v7/service/padding.go:170-180 | the method's result and reads are those of `PaddingCharacter` |
| Padding.PaddingService.Fixed | vendor/github.com/eljamo/libpass/v7/service/padding.go:184-189 | `before` copies of the character, the password unchanged, then `after` copies |
| Padding.PaddingService.Adaptive | vendor/github.com/eljamo/libpass/v7/service/padding.go:194-204 | a password of at least `PadToLength` runes is unchanged; a shorter one keeps its text as a prefix and, with a one-rune character, is filled at its end to exactly `PadToLength` runes |
| Padding.PaddingService.Symbols | vendor/github.com/eljamo/libpass/v7/service/padding.go:150-166 | the padding character is resolved first whatever the type, and its failure is the stage's failure; FIXED gives `Fixed(pw, c)`, ADAPTIVE gives `Adaptive(pw, c)`, and NONE and unknown types return the password as it is |
| Padding.PaddingService.ApplySymbols | vendor/github.com/eljamo/libpass/v7/service/padding.go:150-166 | the method's result and reads are those of `Symbols` |
| Padding.PaddingService.Pad | vendor/github.com/eljamo/libpass/v7/service/padding.go:45-62 | digits, edge separators removed, join and trim, then symbols, in that order, as the `Padded` specification says |
| Padding.PaddingService.Padded | vendor/github.com/eljamo/libpass/v7/service/padding.go:45-62 | padding succeeds exactly when the digit draws and the padding-character draw do; without symbol padding the password neither starts nor ends with white space |
| Padding.PaddedParts | vendor/github.com/eljamo/libpass/v7/service/padding.go:45-62 | for every padding type: a digit failure is returned unchanged; otherwise the digit-padded tokens, with edge separators removed, joined and trimmed, are padded by `Fixed` for FIXED, by `Adaptive` for ADAPTIVE and left as they are otherwise, and a failure to resolve the padding character ends `Pad` with that error |
| Padding.PaddedWithoutSymbols | vendor/github.com/eljamo/libpass/v7/service/padding.go:45-62 | with padding type NONE the password is the digit-padded tokens with edge separators removed, joined and trimmed |
| Padding.PaddedDigitEdges | vendor/github.com/eljamo/libpass/v7/service/padding.go:45-62 | with digits on both sides, no symbol padding and a separator no digit can be taken for, the digits survive: the password is the joined tokens and starts and ends with a digit |
| Padding.DigitEdgesJoined | vendor/github.com/eljamo/libpass/v7/service/padding.go:54 | tokens starting and ending with a digit join to a string that trimming keeps and that starts and ends with a digit |
| Generator.PasswordGeneratorService.Passwords | vendor/github.com/eljamo/libpass/v7/service/password_generator.go:100-132 | `n` passwords on success, made one `Password` run after another |
| Generator.PasswordGeneratorService.PasswordsSucceed | vendor/github.com/eljamo/libpass/v7/service/password_generator.go:103-129 | the passwords all succeed exactly when every password, each started where the one before it stopped, succeeds |
| Generator.PasswordGeneratorService.PasswordsItems | vendor/github.com/eljamo/libpass/v7/service/password_generator.go:103-129 | in a successful run password `i` is the `Password` made from where password `i - 1` stopped, and the run stops where the last one stopped |
| Generator.PasswordGeneratorService.PasswordsFirstFailure | vendor/github.com/eljamo/libpass/v7/service/password_generator.go:103-129 | a failed run returns the error of its first failing password, every password before it having succeeded, and stops where that password stopped |
| Generator.PasswordGeneratorService.PasswordsStep | vendor/github.com/eljamo/libpass/v7/service/password_generator.go:103-129 | one more password either ends the whole run with its error, discarding what was made, or is appended after the ones made so far |
| Generator.PasswordGeneratorService.NextPassword | vendor/github.com/eljamo/libpass/v7/service/password_generator.go:104-128 | one password is `Pad(Separate(Transform(GetWords())))` over the shared source, and the first stage error is returned unchanged |
| Generator.PasswordGeneratorService.Password | vendor/github.com/eljamo/libpass/v7/service/password_generator.go:104-128 | a failed word draw is the password's failure, unchanged and at the same read; a password is made only after `NumWords` words were drawn; without symbol padding it neither starts nor ends with white space |
| Generator.PasswordGeneratorService.PasswordStages | vendor/github.com/eljamo/libpass/v7/service/password_generator.go:110-126 | after the words are drawn, a transform failure and then a separator failure end the password with that stage's error and read position, unchanged; when all three earlier stages succeed the password is the padding stage's result |
| Generator.PasswordGeneratorService.Generate | vendor/github.com/eljamo/libpass/v7/service/password_generator.go:100-132 | exactly `NumPasswords` passwords in order, or the first error and no passwords, with the reads the specification makes |
| Generator.NewCustomPasswordGeneratorService | vendor/github.com/eljamo/libpass/v7/service/password_generator.go:41-65 | construction succeeds exactly for `1 ≤ NumPasswords ≤ 10` |
| Generator.FirstConfigError | vendor/github.com/eljamo/libpass/v7/service/password_generator.go:70-95 | the default constructor's checks pass exactly when the word count, the word list, the three stage validations and the password count all do; each error is reported only when the checks before it pass, in the order word count, word list, transformer, separator, padding, password count |
| Generator.NewPasswordGeneratorService | vendor/github.com/eljamo/libpass/v7/service/password_generator.go:70-95 | fails exactly with the first construction error; on success every stage holds the settings, the word stage holds the catalogue's non-empty list, and all four stages share one fresh random source at its first read |
| Scenarios.CapitaliseInvertExample | vendor/github.com/eljamo/libpass/v7/service/transformer.go:154-177 | INVERT and CAPITALISE_INVERT both turn `["hello","world"]` into `["hELLO","wORLD"]` |
| Scenarios.AlternateExample | vendor/github.com/eljamo/libpass/v7/service/transformer.go:92-105 | ALTERNATE turns `["hello","world"]` into `["hello","WORLD"]` |
| Scenarios.AlternateLettercaseExample | vendor/github.com/eljamo/libpass/v7/service/transformer.go:114-138 | ALTERNATE_LETTERCASE turns `["hello","world"]` into `["hElLo","wOrLd"]`: the flag restarts lowercase in every word |
| Scenarios.VowelExample | vendor/github.com/eljamo/libpass/v7/service/transformer.go:199-220 | LOWER_VOWEL_UPPER_CONSONANT turns `["hello","2b"]` into `["HeLLo","2B"]` |
| Scenarios.DigitSeparatorDropped | vendor/github.com/eljamo/libpass/v7/service/padding.go:114-122 | with the digit "1" as fixed separator, padding digits "1" at the edges are dropped as if they were separators |
| Scenarios.OnesWords | vendor/github.com/eljamo/libpass/v7/service/word_list.go:83-99 | with every read yielding 1 and the catalogue `["test"]`, three reads each draw `1 mod 1 = 0` through `GenerateSliceWithMax` and pick "test" three times |
| Scenarios.OnesPadding | vendor/github.com/eljamo/libpass/v7/service/padding.go:45-62 | with every read yielding 1, the default padding turns the separated words into "@@11@test@test@test@11@@" after five reads |
| Scenarios.OnesPassword | vendor/github.com/eljamo/libpass/v7/service/password_generator.go:103-128 | with every read yielding 1, the default settings over `["test"]` give the password "@@11@test@test@test@11@@" after twelve reads |

## Behaviour as coded

The model follows the code where it differs from the scheme's description or
from the code's own doc comments:

- `lowerVowelUpperConsonant` uppercases every rune that is not a vowel (transformer.go:204-214), so "hello" becomes "HeLLo". The doc comment at transformer.go:198 shows "hEllO".
- `alternateLettercase` resets its flag for each word (transformer.go:118), so the second word starts lowercase ("wOrLd"). The doc comment at transformer.go:113 shows "WoRlD".
- Separator and padding characters are checked with `len(s) > 1` (separator.go:79, padding.go:209). The empty string is therefore accepted, and a single non-ASCII rune is refused as too long.
- `removeEdgeSeparatorCharacter` compares the separator with the padding-character constant "RANDOM" (padding.go:110). Both constants are "RANDOM", so the behaviour is unaffected.
- Edge cleanup removes any edge token equal to the separator, including a padding digit when the separator is itself a digit (`Scenarios.DigitSeparatorDropped`). It is not limited to the case of a zero digit count.
- `getPaddingCharacter` draws even when the padding type is NONE (padding.go:151-153), so a RANDOM padding character costs a read in every mode.

## Left out

- `crypto/rand` and `big.Int` (rng.go:50) are a foreign call. They are an arbitrary entropy stream, and a failed read is modelled as an error. Uniformity of the draws is not stated.
- The 64-bit `int` is modelled as an unbounded integer, and `math.MaxInt` as the 64-bit constant. Overflow of counts and lengths is not modelled.
- `golang.org/x/text/cases.Title` and its `sync.Pool` (transformer.go:17-22, 144-149, 243-252) are a foreign library plus pooling. Title casing is the `title` field of `Text.Casing`, and the pool is not modelled.
- `unicode.ToUpper`, `unicode.ToLower` and `unicode.IsLetter` are uninterpreted rune functions. `strings.ToUpper`/`ToLower` map them over the runes; Go's special cases for invalid UTF-8 are not modelled.
- Invalid UTF-8 cannot be represented: strings are sequences of runes.
- The `strings.Builder.WriteRune` error paths (transformer.go:129-132, 162-170, 205-213) can never be taken, because `WriteRune` on a `strings.Builder` always returns a nil error. They are not modelled.
- Word lists are loaded and filtered by `asset.GetFilteredWordList`, which reads an embedded file system. That is I/O, and it is the `WordList.WordSource` parameter here.
- Settings come from JSON, presets, `config/new.go` and the CLI. This is plumbing, and the model takes a `Config.Settings` value. Error messages are `Outcomes.Error` values, with `fmt.Errorf` wrapping as `Wrapped(context, cause)`.
- The concurrent generators and the older copies of the pipeline (`internal/service`, libpass v2–v6) are not part of this model.
- Merger.Map: Dafny maps are values, so "the inputs are not modified" holds by construction, and the freshness of the result map is not stated.
- Generator.PasswordGeneratorService.Generate: requires that the four stages share one random source and that the padding counts are non-negative.
  - The default constructor establishes both (`Generator.NewPasswordGeneratorService`).
  - Services handed to `NewCustomPasswordGeneratorService` with separate sources are not modelled.
- Generator.PasswordGeneratorService.Generate: the passwords are collected in a sequence and copied into a fresh array at the end. The Go code preallocates the result slice. The returned contents and error are the same.
- Padding.PaddingService.Pad: requires non-negative digit counts, and for FIXED non-negative character counts. Go panics otherwise (`make` with a negative capacity, `strings.Repeat` with a negative count), and `validate` rules these out.
- Transformer.TransformerService.Random: on a failed draw Go returns a nil slice. The model returns the error, and its contract also states what is left in the caller's array.
