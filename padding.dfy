/** The padding assembler: adds digit runs around the separated words, strips
    stray edge separators, joins and trims the result, then pads it with
    symbols. */
module Padding {
  import opened Outcomes
  import opened Text
  import opened Config
  import opened Rng
  import Validator

  /** The padding character is one byte at most, unless it is drawn at random
      or no symbol padding is done. */
  predicate CharacterOk(cfg: Settings) {
    cfg.paddingType == PaddingTypeNone || cfg.paddingCharacter == PaddingCharacterRandom
    || ByteLen(cfg.paddingCharacter) <= 1
  }

  /** A random padding character needs a non-empty alphabet of short entries. */
  predicate AlphabetOk(cfg: Settings) {
    cfg.paddingCharacter == PaddingCharacterRandom ==>
      cfg.symbolAlphabet != []
      && forall i :: 0 <= i < |cfg.symbolAlphabet| ==> ByteLen(cfg.symbolAlphabet[i]) <= 1
  }

  predicate CountsOk(cfg: Settings) {
    cfg.paddingDigitsBefore >= 0 && cfg.paddingDigitsAfter >= 0
    && cfg.paddingCharactersBefore >= 0 && cfg.paddingCharactersAfter >= 0
    && cfg.padToLength >= 0
  }

  /** `validate`: the checks in the order the code makes them; the first
      that fails decides the error. */
  function Validate(cfg: Settings): (o: Outcome)
    ensures o == Pass <==> CharacterOk(cfg) && AlphabetOk(cfg) && CountsOk(cfg)
    ensures !CharacterOk(cfg) ==> o == Fail(PaddingCharacterTooLong)
    ensures CharacterOk(cfg) && cfg.paddingCharacter == PaddingCharacterRandom && cfg.symbolAlphabet == []
            ==> o == Fail(SymbolAlphabetEmpty)
    ensures CharacterOk(cfg) && !AlphabetOk(cfg) && cfg.symbolAlphabet != []
            ==> o == Fail(SymbolAlphabetElementTooLong)
    ensures CharacterOk(cfg) && AlphabetOk(cfg) && (cfg.paddingDigitsBefore < 0 || cfg.paddingDigitsAfter < 0)
            ==> o == Fail(PaddingDigitsNegative)
    ensures CharacterOk(cfg) && AlphabetOk(cfg) && cfg.paddingDigitsBefore >= 0 && cfg.paddingDigitsAfter >= 0
            && (cfg.paddingCharactersBefore < 0 || cfg.paddingCharactersAfter < 0)
            ==> o == Fail(PaddingCharactersNegative)
    ensures o == Fail(PadToLengthNegative) <==>
              CharacterOk(cfg) && AlphabetOk(cfg) && cfg.padToLength < 0
              && cfg.paddingDigitsBefore >= 0 && cfg.paddingDigitsAfter >= 0
              && cfg.paddingCharactersBefore >= 0 && cfg.paddingCharactersAfter >= 0
  {
    if cfg.paddingType != PaddingTypeNone && cfg.paddingCharacter != PaddingCharacterRandom
       && ByteLen(cfg.paddingCharacter) > 1 then
      Fail(PaddingCharacterTooLong)
    else if cfg.paddingCharacter == PaddingCharacterRandom && |cfg.symbolAlphabet| == 0 then
      Fail(SymbolAlphabetEmpty)
    else if cfg.paddingCharacter == PaddingCharacterRandom
            && Validator.HasElementWithLengthGreaterThanOne(cfg.symbolAlphabet) then
      Fail(SymbolAlphabetElementTooLong)
    else if cfg.paddingDigitsBefore < 0 || cfg.paddingDigitsAfter < 0 then
      Fail(PaddingDigitsNegative)
    else if cfg.paddingCharactersBefore < 0 || cfg.paddingCharactersAfter < 0 then
      Fail(PaddingCharactersNegative)
    else if cfg.padToLength < 0 then
      Fail(PadToLengthNegative)
    else Pass
  }

  /** `generateRandomDigits(n)` with the provider at read `k`: one digit draw
      per token, each token the decimal form of its digit; the first failed
      draw's error is passed on as it is. */
  function RandomDigits(entropy: EntropyStream, k: nat, n: nat): (s: Step<seq<string>>)
    ensures s.out.Success? ==> s.pos == k + n && |s.out.value| == n
    ensures s.out.Success? ==> forall p :: k <= p < k + n ==>
              entropy(p).Bits? && s.out.value[p - k] == [DigitChar(entropy(p).n % 10)]
    ensures s.out.Failure? ==> k < s.pos <= k + n && s.out.error == Wrapped(RandomNumber, EntropyUnavailable)
    decreases n
  {
    if n == 0 then Step(Success([]), k)
    else
      var d := DrawDigit(entropy, k);
      if d.out.Failure? then Step(Failure(d.out.error), d.pos)
      else
        var rest := RandomDigits(entropy, k + 1, n - 1);
        var s := Prefixed([Itoa(d.out.value)], rest);
        assert s.out.Success? ==> forall p :: k <= p < k + n ==>
                 entropy(p).Bits? && s.out.value[p - k] == [DigitChar(entropy(p).n % 10)] by {
          if s.out.Success? {
            forall p | k <= p < k + n
              ensures entropy(p).Bits? && s.out.value[p - k] == [DigitChar(entropy(p).n % 10)]
            {
              if p > k {
                assert s.out.value[p - k] == rest.out.value[p - (k + 1)];
              }
            }
          }
        }
        s
  }

  /** A digit token is a single decimal digit. */
  predicate IsDigitToken(t: string) {
    |t| == 1 && '0' <= t[0] <= '9'
  }

  datatype PaddingService = PaddingService(cfg: Settings, rng: RandomSource)
  {
    /** What `Pad` needs of the counts so that no slice is made with a
        negative capacity and no string repeated a negative number of times. */
    predicate CountsNonNegative() {
      cfg.paddingDigitsBefore >= 0 && cfg.paddingDigitsAfter >= 0
      && (cfg.paddingType == PaddingTypeFixed ==> cfg.paddingCharactersBefore >= 0 && cfg.paddingCharactersAfter >= 0)
    }

    /** `digits` with the provider at read `k`. */
    function DigitsAdded(entropy: EntropyStream, k: nat, ts: seq<string>): (s: Step<seq<string>>)
      requires cfg.paddingDigitsBefore >= 0 && cfg.paddingDigitsAfter >= 0
      ensures s.out.Success? ==>
                var before, after := cfg.paddingDigitsBefore, cfg.paddingDigitsAfter;
                && s.pos == k + before + after
                && |s.out.value| == before + |ts| + after
                && s.out.value[before..before + |ts|] == ts
                && (forall j :: 0 <= j < before ==> IsDigitToken(s.out.value[j]))
                && (forall j :: before + |ts| <= j < |s.out.value| ==> IsDigitToken(s.out.value[j]))
    {
      var b := RandomDigits(entropy, k, cfg.paddingDigitsBefore);
      if b.out.Failure? then b
      else
        var a := RandomDigits(entropy, b.pos, cfg.paddingDigitsAfter);
        if a.out.Failure? then a
        else
          var r := b.out.value + ts + a.out.value;
          assert forall j :: 0 <= j < |b.out.value| ==> r[j] == b.out.value[j] && IsDigitToken(r[j]) by {
            forall j | 0 <= j < |b.out.value|
              ensures r[j] == b.out.value[j] && IsDigitToken(r[j])
            {
              assert b.out.value[j] == [DigitChar(entropy(k + j).n % 10)];
            }
          }
          assert forall j :: |b.out.value| + |ts| <= j < |r| ==> IsDigitToken(r[j]) by {
            forall j | |b.out.value| + |ts| <= j < |r|
              ensures IsDigitToken(r[j])
            {
              var i := j - |b.out.value| - |ts|;
              assert r[j] == a.out.value[i];
              assert a.out.value[i] == [DigitChar(entropy(b.pos + i).n % 10)];
            }
          }
          Step(Success(r), a.pos)
    }

    /** A token that `removeEdgeSeparatorCharacter` treats as a separator. */
    predicate IsSeparatorToken(t: string) {
      if cfg.separatorCharacter == PaddingCharacterRandom then
        cfg.separatorAlphabet != [] && t in cfg.separatorAlphabet
      else t == cfg.separatorCharacter
    }

    /** `removeEdgeSeparatorCharacter`: at most one separator token is dropped
        from each end; what is left is a contiguous part of the slice. */
    function RemoveEdgeSeparatorCharacter(ts: seq<string>): (r: seq<string>)
      ensures var front := if ts != [] && IsSeparatorToken(ts[0]) then 1 else 0;
              && front + |r| <= |ts|
              && r == ts[front..front + |r|]
              && |ts| - (front + |r|) == (if |ts| > front && IsSeparatorToken(ts[|ts| - 1]) then 1 else 0)
      ensures |ts| == 1 && IsSeparatorToken(ts[0]) ==> r == []
      ensures ts != [] && !IsSeparatorToken(ts[0]) && !IsSeparatorToken(ts[|ts| - 1]) ==> r == ts
    {
      if |ts| == 0 then ts
      else if cfg.separatorCharacter == PaddingCharacterRandom then RemoveRandomEdgeSeparatorCharacter(ts)
      else
        var start := if ts[0] == cfg.separatorCharacter then 1 else 0;
        var end := if |ts| > start && ts[|ts| - 1] == cfg.separatorCharacter then |ts| - 1 else |ts|;
        ts[start..end]
    }

    /** `removeRandomEdgeSeparatorCharacter`: edge tokens are dropped when they
        occur in the separator alphabet; an empty alphabet drops nothing. */
    function RemoveRandomEdgeSeparatorCharacter(ts: seq<string>): (r: seq<string>)
      ensures cfg.separatorAlphabet == [] ==> r == ts
      ensures var front := if ts != [] && cfg.separatorAlphabet != [] && ts[0] in cfg.separatorAlphabet then 1 else 0;
              && front + |r| <= |ts|
              && r == ts[front..front + |r|]
              && |ts| - (front + |r|)
                 == (if |ts| > front && cfg.separatorAlphabet != [] && ts[|ts| - 1] in cfg.separatorAlphabet then 1 else 0)
    {
      if |ts| == 0 then ts
      else if |cfg.separatorAlphabet| == 0 then ts
      else
        var start := if Validator.IsElementInSlice(cfg.separatorAlphabet, ts[0]) then 1 else 0;
        var end := if |ts| > start && Validator.IsElementInSlice(cfg.separatorAlphabet, ts[|ts| - 1]) then |ts| - 1 else |ts|;
        ts[start..end]
    }

    /** `getPaddingCharacter` with the provider at read `k`; a failed draw's
        error is passed on as it is. */
    function PaddingCharacter(entropy: EntropyStream, k: nat): (s: Step<string>)
      ensures cfg.paddingCharacter != PaddingCharacterRandom ==> s == Step(Success(cfg.paddingCharacter), k)
      ensures cfg.paddingCharacter == PaddingCharacterRandom && cfg.symbolAlphabet != [] ==>
                s.pos == k + 1
                && (s.out.Success? <==> entropy(k).Bits?)
                && (s.out.Success? ==> s.out.value == cfg.symbolAlphabet[entropy(k).n % |cfg.symbolAlphabet|])
    {
      if cfg.paddingCharacter == PaddingCharacterRandom then
        var d := DrawWithMax(entropy, k, |cfg.symbolAlphabet|);
        if d.out.Failure? then Step(Failure(d.out.error), d.pos)
        else Step(Success(cfg.symbolAlphabet[d.out.value]), d.pos)
      else Step(Success(cfg.paddingCharacter), k)
    }

    /** `fixed`: the configured number of padding characters on each side. */
    function Fixed(pw: string, c: string): (r: string)
      requires cfg.paddingCharactersBefore >= 0 && cfg.paddingCharactersAfter >= 0
      ensures var before := cfg.paddingCharactersBefore * |c|;
              && |r| == before + |pw| + cfg.paddingCharactersAfter * |c|
              && r[before..before + |pw|] == pw
      ensures |c| == 1 ==>
                forall i :: 0 <= i < |r| && !(cfg.paddingCharactersBefore <= i < cfg.paddingCharactersBefore + |pw|)
                  ==> r[i] == c[0]
    {
      var before := Repeat(c, cfg.paddingCharactersBefore);
      var after := Repeat(c, cfg.paddingCharactersAfter);
      var r := before + pw + after;
      assert r[|before|..|before| + |pw|] == pw;
      r
    }

    /** `adaptive`: a password shorter than `padToLength` runes is filled up
        to that length at its end; a longer one is left as it is. */
    function Adaptive(pw: string, c: string): (r: string)
      ensures cfg.padToLength <= RuneCount(pw) ==> r == pw
      ensures |r| >= |pw| && r[..|pw|] == pw
      ensures |c| == 1 && cfg.padToLength > RuneCount(pw) ==>
                RuneCount(r) == cfg.padToLength && forall i :: |pw| <= i < |r| ==> r[i] == c[0]
      ensures c == [] ==> r == pw
    {
      var pwLen := RuneCount(pw);
      if cfg.padToLength <= pwLen then pw
      else pw + Repeat(c, cfg.padToLength - pwLen)
    }

    /** `symbols`: the padding character is resolved first, whatever the
        padding type, then FIXED or ADAPTIVE padding is applied; NONE and
        unknown types leave the password alone. */
    function Symbols(entropy: EntropyStream, k: nat, pw: string): (s: Step<string>)
      requires cfg.paddingType == PaddingTypeFixed ==> cfg.paddingCharactersBefore >= 0 && cfg.paddingCharactersAfter >= 0
      ensures var c := PaddingCharacter(entropy, k);
              s.pos == c.pos
              && (s.out.Success? <==> c.out.Success?)
              && (s.out.Failure? ==> s.out.error == c.out.error)
              && (s.out.Success? && cfg.paddingType == PaddingTypeFixed ==> s.out.value == Fixed(pw, c.out.value))
              && (s.out.Success? && cfg.paddingType == PaddingTypeAdaptive ==> s.out.value == Adaptive(pw, c.out.value))
              && (s.out.Success? && cfg.paddingType != PaddingTypeFixed && cfg.paddingType != PaddingTypeAdaptive
                  ==> s.out.value == pw)
    {
      var c := PaddingCharacter(entropy, k);
      if c.out.Failure? then Step(Failure(c.out.error), c.pos)
      else if cfg.paddingType == PaddingTypeFixed then Step(Success(Fixed(pw, c.out.value)), c.pos)
      else if cfg.paddingType == PaddingTypeAdaptive then Step(Success(Adaptive(pw, c.out.value)), c.pos)
      else if cfg.paddingType == PaddingTypeNone then Step(Success(pw), c.pos)
      else Step(Success(pw), c.pos)
    }

    /** `Pad` with the provider at read `k`. */
    function Padded(entropy: EntropyStream, k: nat, ts: seq<string>): (s: Step<string>)
      requires CountsNonNegative()
      ensures var d := DigitsAdded(entropy, k, ts);
              s.out.Success? <==> d.out.Success? && PaddingCharacter(entropy, d.pos).out.Success?
      ensures s.out.Success? && cfg.paddingType != PaddingTypeFixed && cfg.paddingType != PaddingTypeAdaptive ==>
                s.out.value == [] || (!IsSpace(s.out.value[0]) && !IsSpace(s.out.value[|s.out.value| - 1]))
    {
      var d := DigitsAdded(entropy, k, ts);
      if d.out.Failure? then Step(Failure(d.out.error), d.pos)
      else Symbols(entropy, d.pos, TrimSpace(Join(RemoveEdgeSeparatorCharacter(d.out.value))))
    }

    method GenerateRandomDigits(num: int) returns (r: Result<seq<string>>)
      requires num >= 0
      modifies rng
      ensures Step(r, rng.consumed) == RandomDigits(rng.entropy, old(rng.consumed), num)
    {
      ghost var k := rng.consumed;
      var digits: seq<string> := [];
      PrefixedEmpty(RandomDigits(rng.entropy, k, num));
      for i := 0 to num
        invariant rng.consumed == k + i
        invariant RandomDigits(rng.entropy, k, num) == Prefixed(digits, RandomDigits(rng.entropy, rng.consumed, num - i))
      {
        var n := rng.GenerateDigit();
        if n.Failure? {
          return Failure(n.error);
        }
        PrefixedAppend(digits, Itoa(n.value), RandomDigits(rng.entropy, rng.consumed, num - i - 1));
        digits := digits + [Itoa(n.value)];
      }
      assert digits + [] == digits;
      r := Success(digits);
    }

    method Digits(ts: seq<string>) returns (r: Result<seq<string>>)
      requires cfg.paddingDigitsBefore >= 0 && cfg.paddingDigitsAfter >= 0
      modifies rng
      ensures Step(r, rng.consumed) == DigitsAdded(rng.entropy, old(rng.consumed), ts)
    {
      var rdb := GenerateRandomDigits(cfg.paddingDigitsBefore);
      if rdb.Failure? {
        return Failure(rdb.error);
      }
      var padded := rdb.value + ts;
      var rda := GenerateRandomDigits(cfg.paddingDigitsAfter);
      if rda.Failure? {
        return Failure(rda.error);
      }
      padded := padded + rda.value;
      r := Success(padded);
    }

    method GetPaddingCharacter() returns (r: Result<string>)
      modifies rng
      ensures Step(r, rng.consumed) == PaddingCharacter(rng.entropy, old(rng.consumed))
    {
      if cfg.paddingCharacter == PaddingCharacterRandom {
        var num := rng.GenerateWithMax(|cfg.symbolAlphabet|);
        if num.Failure? {
          return Failure(num.error);
        }
        return Success(cfg.symbolAlphabet[num.value]);
      }
      return Success(cfg.paddingCharacter);
    }

    method ApplySymbols(pw: string) returns (r: Result<string>)
      requires cfg.paddingType == PaddingTypeFixed ==> cfg.paddingCharactersBefore >= 0 && cfg.paddingCharactersAfter >= 0
      modifies rng
      ensures Step(r, rng.consumed) == Symbols(rng.entropy, old(rng.consumed), pw)
    {
      var c := GetPaddingCharacter();
      if c.Failure? {
        return Failure(c.error);
      }
      if cfg.paddingType == PaddingTypeFixed {
        return Success(Fixed(pw, c.value));
      } else if cfg.paddingType == PaddingTypeAdaptive {
        return Success(Adaptive(pw, c.value));
      } else if cfg.paddingType == PaddingTypeNone {
        return Success(pw);
      }
      return Success(pw);
    }

    /** `Pad`: digits, then edge separators removed, then joined and trimmed,
        then symbol padding. */
    method Pad(ts: seq<string>) returns (r: Result<string>)
      requires CountsNonNegative()
      modifies rng
      ensures Step(r, rng.consumed) == Padded(rng.entropy, old(rng.consumed), ts)
    {
      var pwd := Digits(ts);
      if pwd.Failure? {
        return Failure(pwd.error);
      }
      var pwe := RemoveEdgeSeparatorCharacter(pwd.value);
      var pwt := TrimSpace(Join(pwe));
      r := ApplySymbols(pwt);
    }
  }

  /** With digits on both sides, no symbol padding and a separator that no
      digit token can be taken for, the padding digits survive edge removal
      and trimming: the password is the joined tokens, and it begins and ends
      with a digit. */
  lemma PaddedDigitEdges(svc: PaddingService, entropy: EntropyStream, k: nat, ts: seq<string>)
    requires svc.CountsNonNegative() && svc.cfg.paddingType == PaddingTypeNone
    requires svc.cfg.paddingDigitsBefore > 0 && svc.cfg.paddingDigitsAfter > 0
    requires forall t :: IsDigitToken(t) ==> !svc.IsSeparatorToken(t)
    ensures var s, d := svc.Padded(entropy, k, ts), svc.DigitsAdded(entropy, k, ts);
            s.out.Success? ==>
              && d.out.Success?
              && s.out.value == Join(d.out.value)
              && s.out.value != []
              && '0' <= s.out.value[0] <= '9'
              && '0' <= s.out.value[|s.out.value| - 1] <= '9'
  {
    var d := svc.DigitsAdded(entropy, k, ts);
    PaddedWithoutSymbols(svc, entropy, k, ts);
    if d.out.Success? {
      var v := d.out.value;
      assert IsDigitToken(v[0]) && IsDigitToken(v[|v| - 1]);
      assert svc.RemoveEdgeSeparatorCharacter(v) == v;
      DigitEdgesJoined(v);
    }
  }

  /** Without symbol padding, a padded password is the digit-padded tokens
      with edge separators removed, joined and trimmed. */
  lemma PaddedWithoutSymbols(svc: PaddingService, entropy: EntropyStream, k: nat, ts: seq<string>)
    requires svc.CountsNonNegative() && svc.cfg.paddingType == PaddingTypeNone
    ensures var s, d := svc.Padded(entropy, k, ts), svc.DigitsAdded(entropy, k, ts);
            s.out.Success? ==>
              d.out.Success? && s.out.value == TrimSpace(Join(svc.RemoveEdgeSeparatorCharacter(d.out.value)))
  {
  }

  /** `Pad` for every padding type: a digit failure ends it unchanged;
      otherwise the cleaned, joined and trimmed tokens are padded with the
      resolved character by `Fixed` or `Adaptive`, or left as they are, and a
      failure to resolve the character ends it with that error. */
  lemma PaddedParts(svc: PaddingService, entropy: EntropyStream, k: nat, ts: seq<string>)
    requires svc.CountsNonNegative()
    ensures var s, d := svc.Padded(entropy, k, ts), svc.DigitsAdded(entropy, k, ts);
            && (d.out.Failure? ==> s == Step(Failure(d.out.error), d.pos))
            && (d.out.Success? ==>
                  var pw := TrimSpace(Join(svc.RemoveEdgeSeparatorCharacter(d.out.value)));
                  var c := svc.PaddingCharacter(entropy, d.pos);
                  && s.pos == c.pos
                  && (c.out.Failure? ==> s.out == Failure(c.out.error))
                  && (c.out.Success? && svc.cfg.paddingType == PaddingTypeFixed ==>
                        s.out == Success(svc.Fixed(pw, c.out.value)))
                  && (c.out.Success? && svc.cfg.paddingType == PaddingTypeAdaptive ==>
                        s.out == Success(svc.Adaptive(pw, c.out.value)))
                  && (c.out.Success? && svc.cfg.paddingType != PaddingTypeFixed && svc.cfg.paddingType != PaddingTypeAdaptive
                      ==> s.out == Success(pw)))
  {
  }

  /** Tokens that start and end with a digit token join to a string that
      trimming leaves alone and that starts and ends with a digit. */
  lemma DigitEdgesJoined(v: seq<string>)
    requires v != [] && IsDigitToken(v[0]) && IsDigitToken(v[|v| - 1])
    ensures var j := Join(v);
            && TrimSpace(j) == j
            && j != []
            && '0' <= j[0] <= '9'
            && '0' <= j[|j| - 1] <= '9'
  {
    var j, first, last := Join(v), v[0], v[|v| - 1];
    JoinLast(v);
    assert j[0] == first[0];
    assert j[|j| - 1] == last[0];
    GraphicNotSpace(first[0]);
    GraphicNotSpace(last[0]);
    TrimSpaceKeeps(j);
  }

  /** A configuration that passes validation never makes `Pad` panic. */
  lemma ValidCounts(svc: PaddingService)
    requires Validate(svc.cfg) == Pass
    ensures svc.CountsNonNegative()
  {
  }

  /** `NewPaddingService`: the service is built only for a valid configuration. */
  function NewPaddingService(cfg: Settings, rng: RandomSource): (r: Result<PaddingService>)
    ensures r.Success? <==> Validate(cfg) == Pass
    ensures r.Failure? ==> Validate(cfg) == Fail(r.error)
    ensures r.Success? ==> r.value == PaddingService(cfg, rng) && r.value.CountsNonNegative()
  {
    match Validate(cfg)
    case Fail(e) => Failure(e)
    case Pass => Success(PaddingService(cfg, rng))
  }
}
