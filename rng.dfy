/** The random source: range-checked draws over an abstract entropy provider.
    The provider (`crypto/rand`) is an infinite stream of reads, each of which
    either yields some natural number or fails; a draw below `max` reduces the
    number read modulo `max`. Since the stream is arbitrary, every sequence of
    in-range draws is possible and nothing is stated about their distribution. */
module Rng {
  import opened Outcomes

  datatype Entropy = Bits(n: nat) | ReadFailure

  /** Read number `p` (counted from 0) of the entropy provider. */
  type EntropyStream = nat -> Entropy

  /** `math.MaxInt` on a 64-bit build. */
  const MaxInt: int := 0x7FFF_FFFF_FFFF_FFFF
  const MaxDigit: int := 10

  /** `GenerateWithMax(max)` when the provider is at read `k`: a bound below
      one fails before anything is read; otherwise exactly one read is made
      and a successful draw lies in `[0, max)`. */
  function DrawWithMax(entropy: EntropyStream, k: nat, max: int): (s: Step<int>)
    ensures max < 1 ==> s == Step(Failure(RngMaxLessThanOne), k)
    ensures max >= 1 ==> s.pos == k + 1
    ensures max >= 1 ==> (s.out.Success? <==> entropy(k).Bits?)
    ensures s.out.Success? ==> 0 <= s.out.value < max
  {
    if max < 1 then Step(Failure(RngMaxLessThanOne), k)
    else match entropy(k)
      case ReadFailure => Step(Failure(Wrapped(RandomNumber, EntropyUnavailable)), k + 1)
      case Bits(b) => Step(Success(b % max), k + 1)
  }

  /** `Generate()`: a draw below `math.MaxInt`, so never negative. */
  function Draw(entropy: EntropyStream, k: nat): (s: Step<int>)
    ensures s.pos == k + 1
    ensures s.out.Success? ==> 0 <= s.out.value < MaxInt
  {
    DrawWithMax(entropy, k, MaxInt)
  }

  /** `GenerateDigit()`: a draw below ten. */
  function DrawDigit(entropy: EntropyStream, k: nat): (s: Step<int>)
    ensures s.pos == k + 1
    ensures s.out.Success? ==> 0 <= s.out.value <= 9
  {
    DrawWithMax(entropy, k, MaxDigit)
  }

  /** Read `p` succeeded and a draw below `max` made from it is `x`. */
  predicate ReadAs(entropy: EntropyStream, p: nat, x: int, max: int)
    requires max >= 1
  {
    entropy(p).Bits? && x == entropy(p).n % max
  }

  /** The draws `v` are the reads from `k` on, in order, each reduced below `max`. */
  predicate ReadsAs(entropy: EntropyStream, k: nat, v: seq<int>, max: int)
    requires max >= 1
  {
    forall j :: 0 <= j < |v| ==> ReadAs(entropy, k + j, v[j], max)
  }

  /** The loop of `GenerateSliceWithMax` from slice index `i` on, with the
      provider at read `k`: one read per index, and the first failed read
      aborts with its index. */
  function DrawsFrom(entropy: EntropyStream, k: nat, i: nat, length: nat, max: int): (s: Step<seq<int>>)
    requires max >= 1 && i <= length
    ensures s.out.Success? ==> s.pos == k + (length - i) && |s.out.value| == length - i
    ensures s.out.Success? ==> ReadsAs(entropy, k, s.out.value, max)
    decreases length - i
  {
    if i == length then Step(Success([]), k)
    else
      var d := DrawWithMax(entropy, k, max);
      if d.out.Failure? then Step(Failure(Wrapped(SliceIndex(i), d.out.error)), d.pos)
      else
        var rest := DrawsFrom(entropy, k + 1, i + 1, length, max);
        if rest.out.Success? then
          ReadsPrepend(entropy, k, max, d.out.value, rest.out.value);
          Prefixed([d.out.value], rest)
        else rest
  }

  /** Draws read in order from read `k + 1` on, with the draw from read `k`
      put in front, are read in order from read `k` on. */
  lemma ReadsPrepend(entropy: EntropyStream, k: nat, max: int, n: int, v: seq<int>)
    requires max >= 1
    requires ReadAs(entropy, k, n, max)
    requires ReadsAs(entropy, k + 1, v, max)
    ensures ReadsAs(entropy, k, [n] + v, max)
  {
    var w := [n] + v;
    forall j | 0 <= j < |w|
      ensures ReadAs(entropy, k + j, w[j], max)
    {
      if j > 0 {
        assert w[j] == v[j - 1];
        assert ReadAs(entropy, k + 1 + (j - 1), v[j - 1], max);
      }
    }
  }

  /** One iteration of the slice loop: a failed draw ends it with the index,
      a successful one is put in front of the rest. */
  lemma DrawsFromUnfold(entropy: EntropyStream, k: nat, i: nat, length: nat, max: int)
    requires max >= 1 && i < length
    ensures var d := DrawWithMax(entropy, k, max);
            DrawsFrom(entropy, k, i, length, max)
            == if d.out.Failure? then Step(Failure(Wrapped(SliceIndex(i), d.out.error)), k + 1)
               else Prefixed([d.out.value], DrawsFrom(entropy, k + 1, i + 1, length, max))
  {
  }

  /** `GenerateSliceWithMax(length, max)`: the length is checked before the
      bound, both before anything is read, and a zero length with a valid bound
      gives the empty slice. */
  function DrawSlice(entropy: EntropyStream, k: nat, length: int, max: int): (s: Step<seq<int>>)
    ensures length < 0 ==> s == Step(Failure(RngSliceLengthLessThanZero), k)
    ensures length >= 0 && max < 1 ==> s == Step(Failure(RngMaxLessThanOne), k)
    ensures length == 0 && max >= 1 ==> s == Step(Success([]), k)
    ensures s.out.Success? ==> |s.out.value| == length && s.pos == k + length
    ensures s.out.Success? ==> forall j :: 0 <= j < |s.out.value| ==> 0 <= s.out.value[j] < max
    ensures s.out.Success? ==> ReadsAs(entropy, k, s.out.value, max)
  {
    if length < 0 then Step(Failure(RngSliceLengthLessThanZero), k)
    else if max < 1 then Step(Failure(RngMaxLessThanOne), k)
    else if length == 0 then Step(Success([]), k)
    else DrawsFrom(entropy, k, 0, length, max)
  }

  /** A slice draw fails exactly when one of the reads it needs fails. */
  lemma {:induction false} DrawsFromFailure(entropy: EntropyStream, k: nat, i: nat, length: nat, max: int)
    requires max >= 1 && i <= length
    ensures DrawsFrom(entropy, k, i, length, max).out.Failure?
            <==> exists p :: k <= p < k + (length - i) && entropy(p).ReadFailure?
    decreases length - i
  {
    if i < length {
      if entropy(k).Bits? {
        DrawsFromFailure(entropy, k + 1, i + 1, length, max);
      }
    }
  }

  /** A failed slice draw reports the first failing read's index and stops
      reading right after it. */
  lemma {:induction false} DrawsFromFirstFailure(entropy: EntropyStream, k: nat, i: nat, length: nat, max: int)
    requires max >= 1 && i <= length
    ensures var s := DrawsFrom(entropy, k, i, length, max);
            s.out.Failure? ==>
              exists p :: k <= p < k + (length - i) && entropy(p).ReadFailure?
                && (forall q :: k <= q < p ==> entropy(q).Bits?)
                && s.out.error == Wrapped(SliceIndex(i + (p - k)), Wrapped(RandomNumber, EntropyUnavailable))
                && s.pos == p + 1
    decreases length - i
  {
    if i < length {
      DrawsFromUnfold(entropy, k, i, length, max);
      var s := DrawsFrom(entropy, k, i, length, max);
      if entropy(k).ReadFailure? {
        assert s.out.error == Wrapped(SliceIndex(i + (k - k)), Wrapped(RandomNumber, EntropyUnavailable));
      } else {
        DrawsFromFirstFailure(entropy, k + 1, i + 1, length, max);
        var t := DrawsFrom(entropy, k + 1, i + 1, length, max);
        if t.out.Failure? {
          assert s == t;
          var p :| k + 1 <= p < k + 1 + (length - (i + 1)) && entropy(p).ReadFailure?
                   && (forall q :: k + 1 <= q < p ==> entropy(q).Bits?)
                   && t.out.error == Wrapped(SliceIndex(i + 1 + (p - (k + 1))), Wrapped(RandomNumber, EntropyUnavailable))
                   && t.pos == p + 1;
          assert i + (p - k) == i + 1 + (p - (k + 1));
        }
      }
    }
  }

  /** The operating system's entropy provider as seen by the program: a fixed
      stream of which `consumed` reads have been made. */
  class RandomSource {
    const entropy: EntropyStream
    var consumed: nat

    constructor (entropy: EntropyStream)
      ensures this.entropy == entropy && consumed == 0
    {
      this.entropy := entropy;
      consumed := 0;
    }

    method GenerateWithMax(max: int) returns (n: Result<int>)
      modifies this
      ensures Step(n, consumed) == DrawWithMax(entropy, old(consumed), max)
    {
      if max < 1 {
        return Failure(RngMaxLessThanOne);
      }
      var e := entropy(consumed);
      consumed := consumed + 1;
      match e
      case ReadFailure =>
        n := Failure(Wrapped(RandomNumber, EntropyUnavailable));
      case Bits(b) =>
        n := Success(b % max);
    }

    method Generate() returns (n: Result<int>)
      modifies this
      ensures Step(n, consumed) == Draw(entropy, old(consumed))
    {
      n := GenerateWithMax(MaxInt);
    }

    method GenerateDigit() returns (n: Result<int>)
      modifies this
      ensures Step(n, consumed) == DrawDigit(entropy, old(consumed))
    {
      n := GenerateWithMax(MaxDigit);
    }

    method GenerateSliceWithMax(length: int, max: int) returns (r: Result<seq<int>>)
      modifies this
      ensures Step(r, consumed) == DrawSlice(entropy, old(consumed), length, max)
    {
      if length < 0 {
        return Failure(RngSliceLengthLessThanZero);
      }
      if max < 1 {
        return Failure(RngMaxLessThanOne);
      }
      if length == 0 {
        return Success([]);
      }
      var slice := new int[length];
      PrefixedEmpty(DrawsFrom(entropy, consumed, 0, length, max));
      for i := 0 to length
        invariant consumed == old(consumed) + i
        invariant DrawSlice(entropy, old(consumed), length, max)
                  == Prefixed(slice[..i], DrawsFrom(entropy, consumed, i, length, max))
      {
        DrawsFromUnfold(entropy, consumed, i, length, max);
        var n := GenerateWithMax(max);
        if n.Failure? {
          return Failure(Wrapped(SliceIndex(i), n.error));
        }
        PrefixedAppend(slice[..i], n.value, DrawsFrom(entropy, consumed, i + 1, length, max));
        ghost var done := slice[..i];
        slice[i] := n.value;
        assert slice[..i + 1] == done + [n.value];
      }
      assert slice[..length] + [] == slice[..];
      r := Success(slice[..]);
    }

    method GenerateSlice(length: int) returns (r: Result<seq<int>>)
      modifies this
      ensures Step(r, consumed) == DrawSlice(entropy, old(consumed), length, MaxInt)
    {
      r := GenerateSliceWithMax(length, MaxInt);
    }
  }
}
