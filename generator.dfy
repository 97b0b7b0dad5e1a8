/** The password generator: runs words, case transform, separation and padding
    once per password, and returns all passwords or the first error. */
module Generator {
  import opened Outcomes
  import opened Text
  import opened Config
  import opened Rng
  import WordList
  import Transformer
  import Separator
  import Padding

  const NumPasswordMin: int := 1
  const NumPasswordMax: int := 10

  datatype PasswordGeneratorService = PasswordGeneratorService(
    cfg: Settings,
    transformerSvc: Transformer.TransformerService,
    separatorSvc: Separator.SeparatorService,
    paddingSvc: Padding.PaddingService,
    wordListSvc: WordList.WordListService)
  {
    /** The random source every stage draws from. */
    function Source(): RandomSource {
      wordListSvc.rng
    }

    /** The four stages share one random source, as the default constructor
        arranges, and the padding counts cannot make `Pad` panic. */
    predicate Shared() {
      transformerSvc.rng == Source() && separatorSvc.rng == Source() && paddingSvc.rng == Source()
      && paddingSvc.CountsNonNegative()
    }

    /** One password with the provider at read `k`:
        `Pad(Separate(Transform(GetWords())))`, stopping at the first error. */
    function Password(entropy: EntropyStream, k: nat): (s: Step<string>)
      requires paddingSvc.CountsNonNegative()
      ensures var w := wordListSvc.Words(entropy, k);
              (w.out.Failure? ==> s == Step(Failure(w.out.error), w.pos))
              && (s.out.Success? ==> w.out.Success? && |w.out.value| == wordListSvc.cfg.numWords)
      ensures s.out.Success? && paddingSvc.cfg.paddingType == PaddingTypeNone ==>
                s.out.value == [] || (!IsSpace(s.out.value[0]) && !IsSpace(s.out.value[|s.out.value| - 1]))
    {
      var w := wordListSvc.Words(entropy, k);
      if w.out.Failure? then Step(Failure(w.out.error), w.pos)
      else
        var t := transformerSvc.Transformed(entropy, w.pos, w.out.value);
        if t.out.Failure? then Step(Failure(t.out.error), t.pos)
        else
          var s := separatorSvc.Separated(entropy, t.pos, t.out.value);
          if s.out.Failure? then Step(Failure(s.out.error), s.pos)
          else paddingSvc.Padded(entropy, s.pos, s.out.value)
    }

    /** After the words are drawn, a transform failure and then a separator
        failure end the password with that stage's error and read position,
        unchanged; when every earlier stage succeeds the password is the
        padding stage's result. */
    lemma PasswordStages(entropy: EntropyStream, k: nat)
      requires paddingSvc.CountsNonNegative()
      ensures var s, w := Password(entropy, k), wordListSvc.Words(entropy, k);
              w.out.Success? ==>
                var t := transformerSvc.Transformed(entropy, w.pos, w.out.value);
                && (t.out.Failure? ==> s == Step(Failure(t.out.error), t.pos))
                && (t.out.Success? ==>
                      var sp := separatorSvc.Separated(entropy, t.pos, t.out.value);
                      && (sp.out.Failure? ==> s == Step(Failure(sp.out.error), sp.pos))
                      && (sp.out.Success? ==> s == paddingSvc.Padded(entropy, sp.pos, sp.out.value)))
    {
    }

    /** `n` passwords made one after the other from read `k` on, each
        started where the one before it stopped; the first error discards the
        passwords already made (`PasswordsSucceed`, `PasswordsItems` and
        `PasswordsFirstFailure` state what the run yields). */
    function Passwords(entropy: EntropyStream, k: nat, n: nat): (s: Step<seq<string>>)
      requires paddingSvc.CountsNonNegative()
      ensures s.out.Success? ==> |s.out.value| == n
    {
      Chain(p => Password(entropy, p), k, n)
    }

    /** The passwords of a run all succeed exactly when each password, started
        where the one before it stopped, succeeds. */
    lemma PasswordsSucceed(entropy: EntropyStream, k: nat, n: nat)
      requires paddingSvc.CountsNonNegative()
      ensures var make := p => Password(entropy, p);
              Passwords(entropy, k, n).out.Success? <==>
                forall i :: 0 <= i < n ==> Password(entropy, ChainStart(make, k, i)).out.Success?
    {
      ChainRuns(p => Password(entropy, p), k, n);
    }

    /** In a successful run, password `i` is the one made from where password
        `i - 1` stopped, and the run stops where the last password stopped. */
    lemma PasswordsItems(entropy: EntropyStream, k: nat, n: nat)
      requires paddingSvc.CountsNonNegative()
      ensures var make := p => Password(entropy, p);
              var s := Passwords(entropy, k, n);
              s.out.Success? ==>
                && s.pos == ChainStart(make, k, n)
                && forall i :: 0 <= i < n ==>
                     && Password(entropy, ChainStart(make, k, i)).out.Success?
                     && s.out.value[i] == Password(entropy, ChainStart(make, k, i)).out.value
    {
      ChainRuns(p => Password(entropy, p), k, n);
    }

    /** A failed run of passwords returns the error of its first failing
        password, every password before it having succeeded, and stops where
        that password stopped. */
    lemma PasswordsFirstFailure(entropy: EntropyStream, k: nat, n: nat)
      requires paddingSvc.CountsNonNegative()
      ensures var make := p => Password(entropy, p);
              var s := Passwords(entropy, k, n);
              s.out.Failure? ==>
                exists i :: 0 <= i < n && FailsFirstAt(make, k, i)
                  && s.out.error == Password(entropy, ChainStart(make, k, i)).out.error
                  && s.pos == Password(entropy, ChainStart(make, k, i)).pos
    {
      ChainFirstFailure(p => Password(entropy, p), k, n);
    }

    /** One step of `Generate`'s loop: with `done` made so far and `p` the
        next password, the remaining `n` passwords are the rest of the run. */
    lemma PasswordsStep(entropy: EntropyStream, k: nat, total: nat, done: seq<string>, at: nat, n: nat, p: Step<string>)
      requires paddingSvc.CountsNonNegative() && n > 0 && p == Password(entropy, at)
      requires Passwords(entropy, k, total) == Prefixed(done, Passwords(entropy, at, n))
      ensures p.out.Failure? ==> Passwords(entropy, k, total) == Step(Failure(p.out.error), p.pos)
      ensures p.out.Success? ==>
                Passwords(entropy, k, total) == Prefixed(done + [p.out.value], Passwords(entropy, p.pos, n - 1))
    {
      if p.out.Success? {
        PrefixedAppend(done, p.out.value, Passwords(entropy, p.pos, n - 1));
      }
    }

    /** The body of `Generate`'s loop: one password through the four stages,
        returning the first stage error unchanged. */
    method NextPassword() returns (r: Result<string>)
      requires Shared()
      modifies Source()
      ensures Step(r, Source().consumed) == Password(Source().entropy, old(Source().consumed))
    {
      var sl := wordListSvc.GetWords();
      if sl.Failure? {
        return Failure(sl.error);
      }
      var slt := transformerSvc.Transform(sl.value);
      if slt.Failure? {
        return Failure(slt.error);
      }
      var sls := separatorSvc.Separate(slt.value[..]);
      if sls.Failure? {
        return Failure(sls.error);
      }
      r := paddingSvc.Pad(sls.value);
    }

    /** `Generate`: `numPasswords` passwords in order, or the first error and
        no passwords. The passwords are collected first and handed back in a
        fresh array. */
    method Generate() returns (r: Result<array<string>>)
      requires Shared() && cfg.numPasswords >= 0
      modifies Source()
      ensures var s := Passwords(Source().entropy, old(Source().consumed), cfg.numPasswords);
              Source().consumed == s.pos
              && (r.Success? <==> s.out.Success?)
              && (r.Success? ==> fresh(r.value) && r.value[..] == s.out.value)
              && (r.Failure? ==> r.error == s.out.error)
    {
      var rng := Source();
      ghost var k := rng.consumed;
      var n := cfg.numPasswords;
      var pws: seq<string> := [];
      PrefixedEmpty(Passwords(rng.entropy, k, n));
      for i := 0 to n
        invariant |pws| == i
        invariant Passwords(rng.entropy, k, n) == Prefixed(pws, Passwords(rng.entropy, rng.consumed, n - i))
      {
        ghost var before := rng.consumed;
        var pw := NextPassword();
        PasswordsStep(rng.entropy, k, n, pws, before, n - i, Step(pw, rng.consumed));
        if pw.Failure? {
          return Failure(pw.error);
        }
        pws := pws + [pw.value];
      }
      assert pws + [] == pws;
      var a := new string[n](j requires 0 <= j < n => pws[j]);
      r := Success(a);
    }
  }

  /** `NewCustomPasswordGeneratorService`: between one and ten passwords. */
  function NewCustomPasswordGeneratorService(
    cfg: Settings,
    transformerSvc: Transformer.TransformerService,
    separatorSvc: Separator.SeparatorService,
    paddingSvc: Padding.PaddingService,
    wordListSvc: WordList.WordListService): (r: Result<PasswordGeneratorService>)
    ensures r.Success? <==> NumPasswordMin <= cfg.numPasswords <= NumPasswordMax
    ensures r.Failure? ==> r.error == NumPasswordsOutOfRange
    ensures r.Success? ==> r.value == PasswordGeneratorService(cfg, transformerSvc, separatorSvc, paddingSvc, wordListSvc)
  {
    if cfg.numPasswords < NumPasswordMin || cfg.numPasswords > NumPasswordMax then Failure(NumPasswordsOutOfRange)
    else Success(PasswordGeneratorService(cfg, transformerSvc, separatorSvc, paddingSvc, wordListSvc))
  }

  /** The checks the default constructor makes, in its order: word list,
      transformer, separator, padding, then the number of passwords. */
  function FirstConfigError(cfg: Settings, source: WordList.WordSource): (o: Outcome)
    ensures o == Pass <==>
              && cfg.numWords >= WordList.NumWordMin
              && WordList.GetWordList(source, cfg.wordList, cfg.wordLengthMin, cfg.wordLengthMax).Success?
              && cfg.caseTransform in TransformTypes
              && Separator.Validate(cfg) == Pass
              && Padding.Validate(cfg) == Pass
              && NumPasswordMin <= cfg.numPasswords <= NumPasswordMax
    ensures cfg.numWords < WordList.NumWordMin ==> o == Fail(NumWordsTooSmall)
    ensures var wl := WordList.GetWordList(source, cfg.wordList, cfg.wordLengthMin, cfg.wordLengthMax);
            cfg.numWords >= WordList.NumWordMin && wl.Failure? ==> o == Fail(wl.error)
    ensures var wl := WordList.GetWordList(source, cfg.wordList, cfg.wordLengthMin, cfg.wordLengthMax);
            cfg.numWords >= WordList.NumWordMin && wl.Success? && Transformer.Validate(cfg).Fail?
            ==> o == Fail(InvalidCaseTransform)
    ensures var wl := WordList.GetWordList(source, cfg.wordList, cfg.wordLengthMin, cfg.wordLengthMax);
            cfg.numWords >= WordList.NumWordMin && wl.Success? && Transformer.Validate(cfg) == Pass
            && Separator.Validate(cfg).Fail?
            ==> o == Separator.Validate(cfg)
    ensures var wl := WordList.GetWordList(source, cfg.wordList, cfg.wordLengthMin, cfg.wordLengthMax);
            cfg.numWords >= WordList.NumWordMin && wl.Success? && Transformer.Validate(cfg) == Pass
            && Separator.Validate(cfg) == Pass && Padding.Validate(cfg).Fail?
            ==> o == Padding.Validate(cfg)
    ensures var wl := WordList.GetWordList(source, cfg.wordList, cfg.wordLengthMin, cfg.wordLengthMax);
            cfg.numWords >= WordList.NumWordMin && wl.Success? && Transformer.Validate(cfg) == Pass
            && Separator.Validate(cfg) == Pass && Padding.Validate(cfg) == Pass
            && !(NumPasswordMin <= cfg.numPasswords <= NumPasswordMax)
            ==> o == Fail(NumPasswordsOutOfRange)
  {
    if cfg.numWords < WordList.NumWordMin then Fail(NumWordsTooSmall)
    else
      var wl := WordList.GetWordList(source, cfg.wordList, cfg.wordLengthMin, cfg.wordLengthMax);
      if wl.Failure? then Fail(wl.error)
      else if Transformer.Validate(cfg).Fail? then Transformer.Validate(cfg)
      else if Separator.Validate(cfg).Fail? then Separator.Validate(cfg)
      else if Padding.Validate(cfg).Fail? then Padding.Validate(cfg)
      else if cfg.numPasswords < NumPasswordMin || cfg.numPasswords > NumPasswordMax then Fail(NumPasswordsOutOfRange)
      else Pass
  }

  /** `NewPasswordGeneratorService`: one fresh random source is made and
      handed to every stage; the first construction error is returned. The
      word source and the case tables are given, as is the entropy the new
      source will read. */
  method NewPasswordGeneratorService(cfg: Settings, entropy: EntropyStream, source: WordList.WordSource,
                                     casing: Casing) returns (r: Result<PasswordGeneratorService>)
    ensures r.Failure? <==> FirstConfigError(cfg, source).Fail?
    ensures r.Failure? ==> r.error == FirstConfigError(cfg, source).error
    ensures r.Success? ==>
              && r.value.cfg == cfg
              && r.value.Shared()
              && fresh(r.value.Source())
              && r.value.Source().entropy == entropy
              && r.value.Source().consumed == 0
              && r.value.transformerSvc.casing == casing
              && r.value.transformerSvc.cfg == cfg
              && r.value.separatorSvc.cfg == cfg
              && r.value.paddingSvc.cfg == cfg
              && r.value.wordListSvc.cfg == cfg
              && r.value.wordListSvc.wordList
                   == WordList.GetWordList(source, cfg.wordList, cfg.wordLengthMin, cfg.wordLengthMax).value
              && r.value.wordListSvc.wordList != []
  {
    var rngs := new RandomSource(entropy);
    var wls := WordList.NewWordListService(cfg, rngs, source);
    if wls.Failure? {
      return Failure(wls.error);
    }
    var ts := Transformer.NewTransformerService(cfg, rngs, casing);
    if ts.Failure? {
      return Failure(ts.error);
    }
    var ss := Separator.NewSeparatorService(cfg, rngs);
    if ss.Failure? {
      return Failure(ss.error);
    }
    var ps := Padding.NewPaddingService(cfg, rngs);
    if ps.Failure? {
      return Failure(ps.error);
    }
    r := NewCustomPasswordGeneratorService(cfg, ts.value, ss.value, ps.value, wls.value);
  }
}
