/** The autocorrelation pitch detector: DC removal in place, a search for the lag of
    greatest normalised autocorrelation within the guitar band, a confidence
    threshold, and parabolic refinement of the winning lag. */
module PitchDetector {
  import opened Wrappers
  import opened Signal

  /** Lowest and highest frequency (Hz) the tuner accepts. */
  const MinFreq: real := 60.0
  const MaxFreq: real := 1000.0
  /** A best correlation below this is treated as noise. */
  const CorrThreshold: real := 0.01

  /** The shortest lag searched: floor(sampleRate / MAX_FREQ). */
  function MinLag(sampleRate: nat): (lag: nat)
    ensures lag * 1000 <= sampleRate < (lag + 1) * 1000
  {
    sampleRate / 1000
  }

  /** The longest lag searched: floor(sampleRate / MIN_FREQ). */
  function MaxLag(sampleRate: nat): (lag: nat)
    ensures lag * 60 <= sampleRate < (lag + 1) * 60
    ensures MinLag(sampleRate) <= lag
  {
    sampleRate / 60
  }

  /** The nested helper `autocorrAt`: the correlation at `l`, or `None` (the source's
      -Infinity) when `l` lies outside [lo, hi]. */
  function CorrInRange(s: seq<real>, lo: nat, hi: nat, l: int): (r: Option<real>)
    requires hi < |s|
    ensures r.Some? <==> lo <= l <= hi
    ensures r.Some? ==> r.value == Corr(s, l)
  {
    if l < lo || l > hi then None else Some(Corr(s, l))
  }

  /** The state (bestLag, bestCorr) of the lag search after visiting lo..hi in order,
      starting from (-1, 0) and replacing the best only on a strictly larger value. */
  function BestLagUpTo(s: seq<real>, lo: nat, hi: int): (r: (int, real))
    requires hi < |s|
    decreases hi - lo + 1
    ensures r.0 == -1 || lo <= r.0 <= hi
    ensures r.1 >= 0.0
    ensures r.0 == -1 ==> r.1 == 0.0 && forall l :: lo <= l <= hi ==> Corr(s, l) <= 0.0
    ensures r.0 != -1 ==> r.1 == Corr(s, r.0) > 0.0
    ensures forall l :: lo <= l <= hi ==> Corr(s, l) <= r.1
    ensures forall l :: lo <= l < r.0 ==> Corr(s, l) < r.1
  {
    if hi < lo then (-1, 0.0)
    else
      var p := BestLagUpTo(s, lo, hi - 1);
      var c := Corr(s, hi);
      if c > p.1 then (hi, c) else p
  }

  /** Parabolic interpolation of the peak through (lag-1, c0), (lag, c1), (lag+1, c2).
      The parabola through those points has second derivative `c0 - 2*c1 + c2` and
      slope `(c2 - c0)/2` at `lag`; when it is not degenerate the result is where its
      slope vanishes (its vertex), and otherwise the integer lag is kept. When c1 is
      the largest of the three the refined peak stays within half a sample of `lag`. */
  function Refine(lag: int, c0: real, c1: real, c2: real): (r: real)
    ensures c0 - 2.0 * c1 + c2 == 0.0 ==> r == lag as real
    ensures c0 - 2.0 * c1 + c2 != 0.0 ==>
            (c0 - 2.0 * c1 + c2) * (r - lag as real) + (c2 - c0) / 2.0 == 0.0
    ensures c0 <= c1 && c2 <= c1 ==> lag as real - 0.5 <= r <= lag as real + 0.5
  {
    var denom := c0 - 2.0 * c1 + c2;
    if denom == 0.0 then lag as real
    else
      var offset := 0.5 * (c0 - c2) / denom;
      assert offset * denom == 0.5 * (c0 - c2);
      assert c0 <= c1 && c2 <= c1 ==> -0.5 <= offset <= 0.5 by {
        if c0 <= c1 && c2 <= c1 {
          assert denom < 0.0;
          assert denom <= c0 - c2 <= -denom;
        }
      }
      lag as real + offset
  }

  /** What `detectPitchAutocorr` yields for an already centred window: `None` when
      the best correlation is under the threshold, or when the best lag sits on an
      end of the search range (there the source's -Infinity neighbours turn the
      parabola into NaN, which the caller rejects); otherwise the sample rate over
      the refined lag. A present estimate comes from an interior lag whose
      correlation reaches the threshold and beats every other lag in range (earlier
      lags strictly), and lies between sampleRate/(lag+1/2) and sampleRate/(lag-1/2). */
  function Pitch(s: seq<real>, sampleRate: nat): (r: Option<real>)
    requires MaxLag(sampleRate) < |s|
    ensures (forall l :: MinLag(sampleRate) <= l <= MaxLag(sampleRate) ==> Corr(s, l) < CorrThreshold)
            ==> r == None
    ensures r.Some? ==>
            var lo, hi := MinLag(sampleRate), MaxLag(sampleRate);
            var lag := BestLagUpTo(s, lo, hi).0;
            && lo < lag < hi
            && Corr(s, lag) >= CorrThreshold
            && (forall l :: lo <= l <= hi ==> Corr(s, l) <= Corr(s, lag))
            && (forall l :: lo <= l < lag ==> Corr(s, l) < Corr(s, lag))
            && r.value > 0.0
            && sampleRate as real / (lag as real + 0.5) <= r.value
            && r.value <= sampleRate as real / (lag as real - 0.5)
  {
    var lo, hi := MinLag(sampleRate), MaxLag(sampleRate);
    var (lag, best) := BestLagUpTo(s, lo, hi);
    if best < CorrThreshold then None
    else
      match (CorrInRange(s, lo, hi, lag - 1), CorrInRange(s, lo, hi, lag + 1))
      case (Some(c0), Some(c2)) =>
        var refined := Refine(lag, c0, Corr(s, lag), c2);
        RateOverRefinedLag(sampleRate as real, lag, refined);
        Some(sampleRate as real / refined)
      case _ => None
  }

  /** `Pitch` spelled out case by case. */
  /** The early exit of `detectPitchAutocorr`: a best correlation under the threshold
      gives no estimate. */
  lemma WeakBestIsAbsent(s: seq<real>, sampleRate: nat)
    requires MaxLag(sampleRate) < |s|
    requires BestLagUpTo(s, MinLag(sampleRate), MaxLag(sampleRate)).1 < CorrThreshold
    ensures Pitch(s, sampleRate) == None
  {
    PitchSteps(s, sampleRate);
  }

  /** The rest of `detectPitchAutocorr`, from the three correlations it reads around
      a best lag that reaches the threshold. */
  lemma PitchFromNeighbours(s: seq<real>, sampleRate: nat, c0: Option<real>, c1: Option<real>, c2: Option<real>)
    requires MaxLag(sampleRate) < |s|
    requires var lo, hi := MinLag(sampleRate), MaxLag(sampleRate);
             var (lag, best) := BestLagUpTo(s, lo, hi);
             && best >= CorrThreshold
             && c0 == CorrInRange(s, lo, hi, lag - 1)
             && c1 == CorrInRange(s, lo, hi, lag)
             && c2 == CorrInRange(s, lo, hi, lag + 1)
    ensures c1.Some?
    ensures c0.None? || c2.None? ==> Pitch(s, sampleRate) == None
    ensures c0.Some? && c2.Some? ==>
            var lag := BestLagUpTo(s, MinLag(sampleRate), MaxLag(sampleRate)).0;
            && Refine(lag, c0.value, c1.value, c2.value) >= 0.5
            && Pitch(s, sampleRate) == Some(sampleRate as real / Refine(lag, c0.value, c1.value, c2.value))
  {
    PitchSteps(s, sampleRate);
  }

  lemma PitchSteps(s: seq<real>, sampleRate: nat)
    requires MaxLag(sampleRate) < |s|
    ensures var lo, hi := MinLag(sampleRate), MaxLag(sampleRate);
            var (lag, best) := BestLagUpTo(s, lo, hi);
            var c0, c2 := CorrInRange(s, lo, hi, lag - 1), CorrInRange(s, lo, hi, lag + 1);
            && (best < CorrThreshold ==> Pitch(s, sampleRate) == None)
            && (best >= CorrThreshold ==> CorrInRange(s, lo, hi, lag) == Some(Corr(s, lag)))
            && (best >= CorrThreshold && (c0.None? || c2.None?) ==> Pitch(s, sampleRate) == None)
            && (best >= CorrThreshold && c0.Some? && c2.Some? ==>
                  && lo < lag < hi
                  && Refine(lag, c0.value, Corr(s, lag), c2.value) >= 0.5
                  && Pitch(s, sampleRate)
                     == Some(sampleRate as real / Refine(lag, c0.value, Corr(s, lag), c2.value)))
  {
  }

  /** Dividing the sample rate by a lag refined to within half a sample of an integer
      lag of at least 1 gives a positive frequency between the two neighbouring
      half-sample bounds. */
  lemma RateOverRefinedLag(sr: real, lag: int, refined: real)
    requires sr >= 0.0 && lag >= 1
    requires lag as real - 0.5 <= refined <= lag as real + 0.5
    ensures refined >= 0.5
    ensures sr > 0.0 ==> sr / refined > 0.0
    ensures sr / (lag as real + 0.5) <= sr / refined <= sr / (lag as real - 0.5)
  {
    DivisionAntitone(sr, lag as real - 0.5, refined);
    DivisionAntitone(sr, refined, lag as real + 0.5);
  }

  lemma DivisionAntitone(n: real, a: real, b: real)
    requires n >= 0.0 && 0.0 < a <= b
    ensures n / b <= n / a
  {
    var x, y := n / a, n / b;
    assert x * a == n && y * b == n;
    assert x >= 0.0;
    assert x * a <= x * b;
    assert y * b <= x * b;
  }

  /** A silent window has zero correlation everywhere, so no estimate. */
  lemma SilenceIsAbsent(s: seq<real>, sampleRate: nat)
    requires MaxLag(sampleRate) < |s|
    requires AllZero(s)
    ensures Pitch(s, sampleRate) == None
  {
    forall l | MinLag(sampleRate) <= l <= MaxLag(sampleRate)
      ensures Corr(s, l) < CorrThreshold
    {
      CorrOfZeros(s, l);
    }
  }

  /** The nested `autocorrAt` loop and the inline loop of the lag search: the sum of
      buf[i] * buf[i + lag] over the overlap, divided by its length. */
  method LagCorrelation(buf: array<real>, lag: nat) returns (corr: real)
    requires lag < buf.Length
    ensures corr == Corr(buf[..], lag)
  {
    corr := 0.0;
    var i := 0;
    while i < buf.Length - lag
      invariant 0 <= i <= buf.Length - lag
      invariant corr == LagSum(buf[..], lag, i)
    {
      corr := corr + buf[i] * buf[i + lag];
      i := i + 1;
    }
    corr := corr / (buf.Length - lag) as real;
  }

  /** `autocorrAt`: -Infinity (here `None`) outside [minLag, maxLag]. */
  method AutocorrAt(buf: array<real>, minLag: nat, maxLag: nat, l: int) returns (c: Option<real>)
    requires maxLag < buf.Length
    ensures c == CorrInRange(buf[..], minLag, maxLag, l)
  {
    if l < minLag || l > maxLag {
      return None;
    }
    var sum := LagCorrelation(buf, l);
    return Some(sum);
  }

  /** The lag search: the earliest lag in [minLag, maxLag] of greatest positive
      correlation, or (-1, 0) when none is positive. */
  method BestLag(buf: array<real>, minLag: nat, maxLag: nat) returns (bestLag: int, bestCorr: real)
    requires minLag <= maxLag < buf.Length
    ensures (bestLag, bestCorr) == BestLagUpTo(buf[..], minLag, maxLag)
  {
    bestLag, bestCorr := -1, 0.0;
    var lag := minLag;
    while lag <= maxLag
      invariant minLag <= lag <= maxLag + 1
      invariant (bestLag, bestCorr) == BestLagUpTo(buf[..], minLag, lag - 1)
    {
      var corr := LagCorrelation(buf, lag);
      if corr > bestCorr {
        bestCorr := corr;
        bestLag := lag;
      }
      lag := lag + 1;
    }
  }

  /** Mean removal in place: each sample loses the window's mean. */
  method RemoveMean(buf: array<real>)
    requires buf.Length > 0
    modifies buf
    ensures buf[..] == Centered(old(buf[..]))
  {
    var mean := 0.0;
    for i := 0 to buf.Length
      invariant mean == Sum(buf[..i])
    {
      assert buf[..i + 1][..i] == buf[..i];
      mean := mean + buf[i];
    }
    assert buf[..buf.Length] == buf[..];
    mean := mean / buf.Length as real;
    ghost var was := buf[..];
    for i := 0 to buf.Length
      invariant forall k :: 0 <= k < i ==> buf[k] == was[k] - mean
      invariant forall k :: i <= k < buf.Length ==> buf[k] == was[k]
    {
      buf[i] := buf[i] - mean;
    }
  }

  /** `detectPitchAutocorr`: centres the window in place, then estimates its pitch. */
  method DetectPitchAutocorr(buf: array<real>, sampleRate: nat) returns (freq: Option<real>)
    requires MaxLag(sampleRate) < buf.Length
    modifies buf
    ensures buf[..] == Centered(old(buf[..]))
    ensures freq == Pitch(buf[..], sampleRate)
  {
    var minLag, maxLag := MinLag(sampleRate), MaxLag(sampleRate);
    RemoveMean(buf);
    var bestLag, bestCorr := BestLag(buf, minLag, maxLag);
    ghost var s := buf[..];
    if bestCorr < CorrThreshold {
      WeakBestIsAbsent(s, sampleRate);
      return None;
    }
    var lag := bestLag;
    var c0 := AutocorrAt(buf, minLag, maxLag, lag - 1);
    var c1 := AutocorrAt(buf, minLag, maxLag, lag);
    var c2 := AutocorrAt(buf, minLag, maxLag, lag + 1);
    PitchFromNeighbours(s, sampleRate, c0, c1, c2);
    if c0.None? || c2.None? {
      // an infinite neighbour makes the refinement NaN, which the caller rejects
      return None;
    }
    var refinedLag := Refine(lag, c0.value, c1.value, c2.value);
    freq := Some(sampleRate as real / refinedLag);
  }
}
