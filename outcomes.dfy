/** Errors, results and the entropy-threading step shared by every stage of the
    password pipeline. */
module Outcomes {

  /** The message a wrapping `fmt.Errorf("...: %w", err)` adds around a cause. */
  datatype Context =
    | RandomNumber            // "failed to generate random number"
    | SliceIndex(index: nat)  // "failed to generate random number for slice at index %d"
    | WordIndices             // "failed to generate random word slice index numbers"
    | RandomCase              // "failed to generate random number for random case"
    | SeparatorDraw           // "failed to generate random number for separator character"
    | SeparatorCharacter      // "failed to get separator character"

  datatype Error =
    // random source
    | EntropyUnavailable
    | RngMaxLessThanOne
    | RngSliceLengthLessThanZero
    // word catalog (the last two come from the word source itself)
    | NumWordsTooSmall
    | WordLengthMaxLessThanMin
    | NoWordsFound
    | WordIndexOutOfRange(index: int, size: int)
    | InvalidWordList
    | WordListUnreadable
    // case transformer
    | InvalidCaseTransform
    // separator inserter
    | SeparatorCharacterTooLong
    | SeparatorAlphabetEmpty
    | SeparatorAlphabetElementTooLong
    // padding assembler
    | PaddingCharacterTooLong
    | SymbolAlphabetEmpty
    | SymbolAlphabetElementTooLong
    | PaddingDigitsNegative
    | PaddingCharactersNegative
    | PadToLengthNegative
    // generator
    | NumPasswordsOutOfRange
    | Wrapped(context: Context, cause: Error)

  /** A Go `(T, error)` pair: exactly one of the two is meaningful. */
  datatype Result<T> = Success(value: T) | Failure(error: Error)

  /** A Go `error` return that carries no value: `nil` or an error. */
  datatype Outcome = Pass | Fail(error: Error)

  /** The outcome of a stage together with the number of entropy reads made so
      far, counted from the start of the whole stream. */
  datatype Step<T> = Step(out: Result<T>, pos: nat)

  /** Puts the items already produced in front of the outcome of the rest of
      a loop; a failure discards them. */
  function Prefixed<T>(done: seq<T>, rest: Step<seq<T>>): Step<seq<T>> {
    match rest.out
    case Success(v) => Step(Success(done + v), rest.pos)
    case Failure(_) => rest
  }

  lemma PrefixedAppend<T>(p: seq<T>, x: T, t: Step<seq<T>>)
    ensures Prefixed(p, Prefixed([x], t)) == Prefixed(p + [x], t)
  {
    if t.out.Success? {
      assert p + ([x] + t.out.value) == (p + [x]) + t.out.value;
    }
  }

  lemma PrefixedEmpty<T>(t: Step<seq<T>>)
    ensures Prefixed([], t) == t
  {
    if t.out.Success? {
      assert [] + t.out.value == t.out.value;
    }
  }

  /** `n` runs of `make`, each started at the read where the one before it
      stopped; the first failure ends the chain and discards what was made. */
  function Chain<T>(make: nat -> Step<T>, k: nat, n: nat): (s: Step<seq<T>>)
    ensures s.out.Success? ==> |s.out.value| == n
    decreases n
  {
    if n == 0 then Step(Success([]), k)
    else
      var p := make(k);
      if p.out.Failure? then Step(Failure(p.out.error), p.pos)
      else Prefixed([p.out.value], Chain(make, p.pos, n - 1))
  }

  /** The read at which run `i` of a chain from `k` starts, once the runs
      before it have been made. */
  function ChainStart<T>(make: nat -> Step<T>, k: nat, i: nat): nat
    decreases i
  {
    if i == 0 then k else ChainStart(make, make(k).pos, i - 1)
  }

  /** A chain succeeds exactly when each of its runs does, and item `i` is
      what run `i` made. */
  lemma {:induction false} ChainRuns<T>(make: nat -> Step<T>, k: nat, n: nat)
    ensures var s := Chain(make, k, n);
            && (s.out.Success? <==> forall i :: 0 <= i < n ==> make(ChainStart(make, k, i)).out.Success?)
            && (s.out.Success? ==>
                  && s.pos == ChainStart(make, k, n)
                  && forall i :: 0 <= i < n ==> s.out.value[i] == make(ChainStart(make, k, i)).out.value)
    decreases n
  {
    if n > 0 {
      var p := make(k);
      assert ChainStart(make, k, 0) == k;
      if p.out.Success? {
        var s, rest := Chain(make, k, n), Chain(make, p.pos, n - 1);
        assert s == Prefixed([p.out.value], rest);
        ChainRuns(make, p.pos, n - 1);
        ChainStartShift(make, k, n);
        if rest.out.Success? {
          forall i | 1 <= i < n
            ensures make(ChainStart(make, k, i)).out.Success?
            ensures s.out.value[i] == make(ChainStart(make, k, i)).out.value
          {
            assert ChainStart(make, k, i) == ChainStart(make, p.pos, i - 1);
            assert s.out.value[i] == rest.out.value[i - 1];
          }
        } else {
          var i' :| 0 <= i' < n - 1 && !make(ChainStart(make, p.pos, i')).out.Success?;
          assert ChainStart(make, k, i' + 1) == ChainStart(make, p.pos, i');
        }
      } else {
        assert Chain(make, k, n).out.Failure?;
        assert !make(ChainStart(make, k, 0)).out.Success?;
      }
    }
  }

  /** Run `i` of a chain from `k` is run `i - 1` of the chain from where the
      first run stopped. */
  lemma ChainStartShift<T>(make: nat -> Step<T>, k: nat, n: nat)
    ensures forall i :: 1 <= i <= n ==> ChainStart(make, k, i) == ChainStart(make, make(k).pos, i - 1)
  {
  }

  /** Run `i` of the chain from `k` is the first to fail. */
  predicate FailsFirstAt<T>(make: nat -> Step<T>, k: nat, i: nat) {
    && (forall j :: 0 <= j < i ==> make(ChainStart(make, k, j)).out.Success?)
    && make(ChainStart(make, k, i)).out.Failure?
  }

  /** A failed chain returns the error of its first failing run, every run
      before it having succeeded, and stops where that run stopped. */
  lemma {:induction false} ChainFirstFailure<T>(make: nat -> Step<T>, k: nat, n: nat)
    ensures var s := Chain(make, k, n);
            s.out.Failure? ==>
              exists i :: 0 <= i < n && FailsFirstAt(make, k, i)
                && s.out.error == make(ChainStart(make, k, i)).out.error
                && s.pos == make(ChainStart(make, k, i)).pos
    decreases n
  {
    var s := Chain(make, k, n);
    if n > 0 && s.out.Failure? {
      var p := make(k);
      assert ChainStart(make, k, 0) == k;
      if p.out.Success? {
        var rest := Chain(make, p.pos, n - 1);
        assert s == Prefixed([p.out.value], rest);
        assert rest.out.Failure? && s == rest;
        ChainFirstFailure(make, p.pos, n - 1);
        var i' :| 0 <= i' < n - 1 && FailsFirstAt(make, p.pos, i')
                  && rest.out.error == make(ChainStart(make, p.pos, i')).out.error
                  && rest.pos == make(ChainStart(make, p.pos, i')).pos;
        ChainStartShift(make, k, n);
        forall j | 1 <= j < i' + 1
          ensures make(ChainStart(make, k, j)).out.Success?
        {
          assert ChainStart(make, k, j) == ChainStart(make, p.pos, j - 1);
        }
        assert ChainStart(make, k, i' + 1) == ChainStart(make, p.pos, i');
        assert FailsFirstAt(make, k, i' + 1);
      } else {
        assert s == Step(Failure(p.out.error), p.pos);
        assert FailsFirstAt(make, k, 0);
      }
    }
  }
}
