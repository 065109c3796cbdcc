/**
 * Timestep and initial-momentum sampling helpers of the TullyOne scattering
 * scripts: the timestep clamp against the driving period, numpy-style
 * linspace and sort, the two-segment sigmoid sampler and the momentum list.
 * The base-10 logarithm and power are kept uninterpreted (function parameters).
 */
module TullyOneUtils {
  import opened Results

  /** numpy's pi. */
  const PI: real := 3.141592653589793

  /** The number of timesteps per driving period that `EstimateDt` enforces at least. */
  const SAFETY_FACTOR: real := 10.0

  /** The default timestep of `EstimateDt`, also used by the scripts when no driving frequency is given. */
  const DEFAULT_DT: real := 0.1

  // ---------------------------------------------------------------------------
  // Timestep

  /** The period 2*pi/Omega of a drive of angular frequency Omega. */
  function Period(omega: real): (T: real)
    requires omega != 0.0
  {
    2.0 * PI / omega
  }

  function Min(a: real, b: real): (m: real) {
    if a <= b then a else b
  }

  /**
   * The timestep, cut down to a tenth of the driving period when larger; a zero
   * frequency fails in the division.
   */
  function EstimateDt(omega: real, dt: real := DEFAULT_DT): (r: Result<real>)
    ensures r.Failure? <==> omega == 0.0
    ensures r.Failure? ==> r.error == DivisionByZero
    ensures r.Success? ==> r.value <= dt && r.value <= Period(omega) / SAFETY_FACTOR
    ensures r.Success? ==> r.value == dt || r.value == Period(omega) / SAFETY_FACTOR
  {
    if omega == 0.0 then Failure(DivisionByZero)
    else
      var T := Period(omega);
      if dt > T / SAFETY_FACTOR then Success(T / SAFETY_FACTOR) else Success(dt)
  }

  /** The result is the smaller of dt and a tenth of the period. */
  lemma EstimateDtIsMin(omega: real, dt: real)
    requires omega != 0.0
    ensures EstimateDt(omega, dt) == Success(Min(dt, Period(omega) / SAFETY_FACTOR))
  {
  }

  /** Feeding the estimate back in as dt returns it unchanged. */
  lemma EstimateDtIdempotent(omega: real, dt: real)
    requires omega != 0.0
    ensures EstimateDt(omega, EstimateDt(omega, dt).value) == EstimateDt(omega, dt)
  {
  }

  // ---------------------------------------------------------------------------
  // Sorting (numpy's sort, ascending)

  ghost predicate Sorted(s: seq<real>) {
    forall i, j :: 0 <= i < j < |s| ==> s[i] <= s[j]
  }

  /** `a` holds the elements of `b`, each as often. */
  ghost predicate Permutation(a: seq<real>, b: seq<real>) {
    multiset(a) == multiset(b)
  }

  /** A lower bound of a sorted sequence can be put in front of it. */
  lemma SortedCons(a: real, t: seq<real>)
    requires Sorted(t) && forall k :: 0 <= k < |t| ==> a <= t[k]
    ensures Sorted([a] + t)
  {
    var u := [a] + t;
    forall i, j | 0 <= i < j < |u| ensures u[i] <= u[j] {
      if i > 0 {
        assert u[i] == t[i - 1] && u[j] == t[j - 1];
      }
    }
  }

  /** `x` placed into the sorted sequence `s`. */
  function Insert(x: real, s: seq<real>): (r: seq<real>)
    requires Sorted(s)
    ensures Sorted(r) && multiset(r) == multiset(s) + multiset{x}
  {
    if s == [] || x <= s[0] then
      SortedCons(x, s);
      [x] + s
    else
      var rest := Insert(x, s[1..]);
      assert s == [s[0]] + s[1..];
      forall k | 0 <= k < |rest| ensures s[0] <= rest[k] {
        assert rest[k] in multiset(rest);
      }
      SortedCons(s[0], rest);
      [s[0]] + rest
  }

  /** An ascending permutation of `s`. */
  function Sort(s: seq<real>): (r: seq<real>)
    ensures Sorted(r) && multiset(r) == multiset(s) && |r| == |s|
    decreases |s|, 1
  {
    if s == [] then [] else SortNonEmpty(s)
  }

  /** Insertion sort of a non-empty sequence: its head inserted into its sorted tail. */
  function SortNonEmpty(s: seq<real>): (r: seq<real>)
    requires s != []
    ensures Sorted(r) && multiset(r) == multiset(s) && |r| == |s|
    decreases |s|, 0
  {
    assert s == [s[0]] + s[1..];
    Insert(s[0], Sort(s[1..]))
  }

  // ---------------------------------------------------------------------------
  // Evenly and log-evenly spaced samples

  /** The gap between neighbouring samples of `num` samples from start to stop. */
  function Spacing(start: real, stop: real, num: nat): (d: real) {
    if num > 1 then (stop - start) / ((num - 1) as real) else 0.0
  }

  /**
   * numpy's linspace: `num` evenly spaced samples from start to stop, both
   * included; a negative count fails.
   */
  function Linspace(start: real, stop: real, num: int): (r: Result<seq<real>>)
    ensures r.Failure? <==> num < 0
    ensures r.Failure? ==> r.error == NegativeSampleCount(num)
    ensures r.Success? ==> |r.value| == num
  {
    if num < 0 then Failure(NegativeSampleCount(num))
    else Success(seq(num, k requires 0 <= k < num => start + (k as real) * Spacing(start, stop, num)))
  }

  /** Sample k of a linspace. */
  lemma LinspaceAt(start: real, stop: real, num: nat, k: nat)
    requires k < num
    ensures Linspace(start, stop, num).value[k] == start + (k as real) * Spacing(start, stop, num)
  {
  }

  /** The first sample is `start` and the last is `stop`. */
  lemma LinspaceEndpoints(start: real, stop: real, num: nat)
    ensures num >= 1 ==> Linspace(start, stop, num).value[0] == start
    ensures num >= 2 ==> Linspace(start, stop, num).value[num - 1] == stop
  {
    if num >= 1 {
      LinspaceAt(start, stop, num, 0);
    }
    if num >= 2 {
      var n1 := (num - 1) as real;
      var d := Spacing(start, stop, num);
      assert n1 > 0.0;
      assert d == (stop - start) / n1;
      DivisionCancels(stop - start, n1);
      LinspaceAt(start, stop, num, num - 1);
    }
  }

  lemma DivisionCancels(a: real, b: real)
    requires b != 0.0
    ensures b * (a / b) == a
  {
  }

  /** Neighbouring samples differ by the constant spacing. */
  lemma LinspaceEvenlySpaced(start: real, stop: real, num: nat, k: nat)
    requires k + 1 < num
    ensures Linspace(start, stop, num).value[k + 1] - Linspace(start, stop, num).value[k] == Spacing(start, stop, num)
  {
    LinspaceAt(start, stop, num, k);
    LinspaceAt(start, stop, num, k + 1);
  }

  /** From a lower start to a higher stop the samples ascend. */
  lemma LinspaceAscending(start: real, stop: real, num: nat)
    requires start <= stop
    ensures Sorted(Linspace(start, stop, num).value)
  {
    var r := Linspace(start, stop, num).value;
    var d := Spacing(start, stop, num);
    assert d >= 0.0;
    forall i, j | 0 <= i < j < num ensures r[i] <= r[j] {
      LinspaceAt(start, stop, num, i);
      LinspaceAt(start, stop, num, j);
      assert r[j] - r[i] == ((j - i) as real) * d;
    }
  }

  /** The base-10 logarithm and power, left uninterpreted. */
  datatype LogScale = LogScale(log10: real -> real, pow10: real -> real)

  /** `num` samples evenly spaced in log10 between start and stop. */
  function LinspaceLog10(scale: LogScale, start: real, stop: real, num: int := 50): (r: Result<seq<real>>)
    ensures r.Failure? <==> num < 0
    ensures r.Failure? ==> r.error == NegativeSampleCount(num)
    ensures r.Success? ==> |r.value| == num
  {
    match Linspace(scale.log10(start), scale.log10(stop), num)
    case Failure(e) => Failure(e)
    case Success(exponents) =>
      Success(seq(|exponents|, k requires 0 <= k < |exponents| => scale.pow10(exponents[k])))
  }

  /** Every element of `s` mirrored about c / 2: c - s[k]. */
  function Reflect(s: seq<real>, c: real): (r: seq<real>)
    ensures |r| == |s|
  {
    seq(|s|, k requires 0 <= k < |s| => c - s[k])
  }

  /** Every element of `s` moved by c. */
  function Shift(s: seq<real>, c: real): (r: seq<real>)
    ensures |r| == |s|
  {
    seq(|s|, k requires 0 <= k < |s| => c + s[k])
  }

  /** Shifting keeps a sequence sorted. */
  lemma ShiftKeepsSorted(s: seq<real>, c: real)
    requires Sorted(s)
    ensures Sorted(Shift(s, c))
  {
  }

  /** Shifting back by -c undoes a shift by c. */
  lemma ShiftUndone(s: seq<real>, c: real)
    ensures Shift(Shift(s, c), -c) == s
  {
    assert forall k :: 0 <= k < |s| ==> Shift(Shift(s, c), -c)[k] == s[k];
  }

  // ---------------------------------------------------------------------------
  // The sigmoid sampler

  /** The first sigmoid segment: n/2 log-spaced points mirrored about the centre, sorted. */
  function SigmoidHead(xLeft: real, xCenter: real, h: int, scale: LogScale): (r: Result<seq<real>>)
    ensures r.Failure? <==> h < 0
    ensures r.Success? ==> |r.value| == h && Sorted(r.value)
  {
    match LinspaceLog10(scale, xLeft, xCenter, h)
    case Failure(e) => Failure(e)
    case Success(logs) => Success(Sort(Reflect(logs, xCenter + xLeft)))
  }

  /** The second sigmoid segment: log-spaced points, sorted, moved up by xCenter - xLeft + dp. */
  function SigmoidTail(xLeft: real, xCenter: real, k: int, dp: real, scale: LogScale): (r: Result<seq<real>>)
    ensures r.Failure? <==> k < 0
    ensures r.Success? ==> |r.value| == k && Sorted(r.value)
  {
    match LinspaceLog10(scale, xLeft, xCenter, k)
    case Failure(e) => Failure(e)
    case Success(logs) =>
      ShiftKeepsSorted(Sort(logs), xCenter - xLeft + dp);
      Success(Shift(Sort(logs), xCenter - xLeft + dp))
  }

  /** The first segment is a permutation of the log samples mirrored about the centre. */
  lemma SigmoidHeadPermutation(xLeft: real, xCenter: real, h: int, scale: LogScale)
    requires h >= 0
    ensures SigmoidHead(xLeft, xCenter, h, scale).Success?
    ensures Permutation(SigmoidHead(xLeft, xCenter, h, scale).value,
                        Reflect(LinspaceLog10(scale, xLeft, xCenter, h).value, xCenter + xLeft))
  {
  }

  /** Moved back down by xCenter - xLeft + dp, the second segment is a permutation of the log samples. */
  lemma SigmoidTailPermutation(xLeft: real, xCenter: real, k: int, dp: real, scale: LogScale)
    requires k >= 0
    ensures SigmoidTail(xLeft, xCenter, k, dp, scale).Success?
    ensures Permutation(Shift(SigmoidTail(xLeft, xCenter, k, dp, scale).value, -(xCenter - xLeft + dp)),
                        LinspaceLog10(scale, xLeft, xCenter, k).value)
  {
    var logs := LinspaceLog10(scale, xLeft, xCenter, k).value;
    ShiftUndone(Sort(logs), xCenter - xLeft + dp);
  }

  /**
   * Two log-spaced segments: the first (n/2 samples) mirrored and sorted, the
   * second (n - n/2 samples) sorted and moved up past the first, leaving a gap
   * `dp` equal to the last gap of the first segment. Reading the last two
   * elements of the first segment fails unless it has at least two.
   */
  function SampleSigmoid(xLeft: real, xRight: real, n: int, scale: LogScale): (r: Result<seq<real>>)
    ensures r.Success? ==> n / 2 >= 2 && |r.value| == n
    ensures r.Success? ==> Sorted(r.value[..n / 2]) && Sorted(r.value[n / 2..])
    ensures r.Success? ==>
      && r.value[..n / 2] == SigmoidHead(xLeft, (xLeft + xRight) / 2.0, n / 2, scale).value
      && r.value[n / 2 - 1] - r.value[n / 2 - 2] >= 0.0
      && r.value[n / 2..] == SigmoidTail(xLeft, (xLeft + xRight) / 2.0, n - n / 2, r.value[n / 2 - 1] - r.value[n / 2 - 2], scale).value
  {
    var xCenter := (xLeft + xRight) / 2.0;
    match SigmoidHead(xLeft, xCenter, n / 2, scale)
    case Failure(e) => Failure(e)
    case Success(seg1) =>
      if |seg1| == 0 then Failure(IndexOutOfRange(-1, 0))
      else if |seg1| == 1 then Failure(IndexOutOfRange(-2, 1))
      else
        var dp := seg1[|seg1| - 1] - seg1[|seg1| - 2];
        match SigmoidTail(xLeft, xCenter, n - n / 2, dp, scale)
        case Failure(e) => Failure(e)
        case Success(seg2) =>
          assert (seg1 + seg2)[..n / 2] == seg1;
          assert (seg1 + seg2)[n / 2..] == seg2;
          Success(seg1 + seg2)
  }

  /** The sampler fails exactly when the first segment has fewer than two samples, with the error numpy raises. */
  lemma SampleSigmoidErrors(xLeft: real, xRight: real, n: int, scale: LogScale)
    ensures SampleSigmoid(xLeft, xRight, n, scale).Failure? <==> n / 2 < 2
    ensures n / 2 < 0 ==> SampleSigmoid(xLeft, xRight, n, scale) == Failure(NegativeSampleCount(n / 2))
    ensures n / 2 == 0 ==> SampleSigmoid(xLeft, xRight, n, scale) == Failure(IndexOutOfRange(-1, 0))
    ensures n / 2 == 1 ==> SampleSigmoid(xLeft, xRight, n, scale) == Failure(IndexOutOfRange(-2, 1))
  {
  }

  // ---------------------------------------------------------------------------
  // The initial-momentum list

  /** The drive applied in the TullyOne model. */
  datatype TullyOnePulseType = NO_PULSE | PULSE_TYPE1 | PULSE_TYPE2 | PULSE_TYPE3

  /** How many of the samples come from the sigmoid segment. */
  function FirstSegmentCount(nsamples: int, pulseType: TullyOnePulseType): (n0: int) {
    if pulseType == NO_PULSE || pulseType == PULSE_TYPE3 then nsamples / 2 else nsamples / 3 * 2
  }

  /** The momentum range of the sigmoid segment and of the evenly spaced segment. */
  function SegmentBounds(pulseType: TullyOnePulseType): (bounds: (real, real, real, real)) {
    if pulseType == NO_PULSE || pulseType == PULSE_TYPE3 then (2.0, 12.0, 13.0, 35.0)
    else (0.5, 19.0, 20.0, 35.0)
  }

  /**
   * The initial momenta: a sigmoid-sampled segment of FirstSegmentCount
   * samples followed by an evenly spaced segment of the remaining samples.
   */
  function GetTullyOneP0List(scale: LogScale, nsamples: int, pulseType: TullyOnePulseType := NO_PULSE): (r: Result<seq<real>>)
    ensures r.Success? ==> |r.value| == nsamples
  {
    var (lo0, hi0, lo1, hi1) := SegmentBounds(pulseType);
    var n0 := FirstSegmentCount(nsamples, pulseType);
    match SampleSigmoid(lo0, hi0, n0, scale)
    case Failure(e) => Failure(e)
    case Success(seg0) =>
      match Linspace(lo1, hi1, nsamples - n0)
      case Failure(e) => Failure(e)
      case Success(seg1) => Success(seg0 + seg1)
  }

  /** The fewest samples for which the list can be built: the sigmoid segment needs n0 / 2 >= 2. */
  function MinSamples(pulseType: TullyOnePulseType): (n: int) {
    if pulseType == NO_PULSE || pulseType == PULSE_TYPE3 then 8 else 6
  }

  /** The list is built exactly when there are at least MinSamples samples. */
  lemma P0ListDefinedExactly(nsamples: int, pulseType: TullyOnePulseType, scale: LogScale)
    ensures GetTullyOneP0List(scale, nsamples, pulseType).Success? <==> nsamples >= MinSamples(pulseType)
  {
    var (lo0, hi0, lo1, hi1) := SegmentBounds(pulseType);
    var n0 := FirstSegmentCount(nsamples, pulseType);
    SampleSigmoidErrors(lo0, hi0, n0, scale);
    if pulseType == NO_PULSE || pulseType == PULSE_TYPE3 {
      assert n0 / 2 >= 2 <==> nsamples >= 8;
    } else {
      assert n0 / 2 == nsamples / 3;
      assert n0 / 2 >= 2 <==> nsamples >= 6;
    }
    if n0 / 2 >= 2 {
      assert 0 <= n0 <= nsamples;
    }
  }

  /**
   * On success the list splits at FirstSegmentCount into the sigmoid samples
   * and an ascending evenly spaced segment running exactly from the lower to
   * the upper bound of the second range.
   */
  lemma P0ListSegments(nsamples: int, pulseType: TullyOnePulseType, scale: LogScale)
    requires nsamples >= MinSamples(pulseType)
    ensures var r := GetTullyOneP0List(scale, nsamples, pulseType);
      var (lo0, hi0, lo1, hi1) := SegmentBounds(pulseType);
      var n0 := FirstSegmentCount(nsamples, pulseType);
      && r.Success?
      && 4 <= n0 < nsamples
      && r.value[..n0] == SampleSigmoid(lo0, hi0, n0, scale).value
      && r.value[n0] == lo1
      && (nsamples - n0 >= 2 ==> r.value[nsamples - 1] == hi1)
      && Sorted(r.value[n0..])
      && r.value[n0..] == Linspace(lo1, hi1, nsamples - n0).value
  {
    P0ListDefinedExactly(nsamples, pulseType, scale);
    var r := GetTullyOneP0List(scale, nsamples, pulseType);
    var (lo0, hi0, lo1, hi1) := SegmentBounds(pulseType);
    var n0 := FirstSegmentCount(nsamples, pulseType);
    assert 4 <= n0 < nsamples;
    var seg0 := SampleSigmoid(lo0, hi0, n0, scale).value;
    var seg1 := Linspace(lo1, hi1, nsamples - n0).value;
    assert r.value == seg0 + seg1;
    assert r.value[..n0] == seg0;
    assert r.value[n0..] == seg1;
    LinspaceEndpoints(lo1, hi1, nsamples - n0);
    LinspaceAscending(lo1, hi1, nsamples - n0);
  }
}
