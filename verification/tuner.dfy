/** The analysis loop: one tick reads a window, gates it on signal energy, detects
    the pitch, gates the estimate on the guitar band, smooths it and matches it to
    the nearest open string. The session owns the smoothing window `lastFreqs`. */
module Tuner {
  import opened Wrappers
  import opened Signal
  import opened PitchDetector
  import opened Tuning
  import opened Smoothing
  import opened Display

  /** `MIN_RMS`: the noise floor on the window's RMS amplitude. */
  const MinRms: real := 0.008

  predicate InBand(freq: real)
  {
    MinFreq <= freq <= MaxFreq
  }

  /** Why a tick shows no pitch: the signal is too weak, or no stable pitch in band
      was found. */
  datatype NoPitchReason = WeakSignal | UnstablePitch

  /** What one tick sends to the display. */
  datatype Update =
    | NoPitch(reason: NoPitchReason)
    | Reading(freq: real, target: ReferenceString, cents: real, hint: Hint, needle: real)

  class TunerSession {
    /** `lastFreqs`: the most recent accepted estimates, oldest first. */
    var lastFreqs: seq<real>
    /** Every estimate accepted since the session began, oldest first. */
    ghost var accepted: seq<real>

    ghost predicate Valid()
      reads this
    {
      && lastFreqs == LastN(accepted, SmoothN)
      && (forall i :: 0 <= i < |accepted| ==> InBand(accepted[i]))
    }

    constructor ()
      ensures Valid() && accepted == [] && lastFreqs == []
    {
      lastFreqs := [];
      accepted := [];
    }

    /** One call of `loop`. The logarithm of `centsDiff` is the parameter `log2`. */
    method Tick(buf: array<real>, sampleRate: nat, log2: real -> real) returns (u: Update)
      requires Valid()
      requires MaxLag(sampleRate) < buf.Length
      modifies this, buf
      ensures Valid()
      // a weak window is answered before the detector runs, and changes nothing
      ensures MeanSquare(old(buf[..])) < MinRms * MinRms ==>
        && u == NoPitch(WeakSignal)
        && buf[..] == old(buf[..])
        && accepted == old(accepted) && lastFreqs == old(lastFreqs)
      // otherwise the detector has centred the window in place
      ensures MeanSquare(old(buf[..])) >= MinRms * MinRms ==> buf[..] == Centered(old(buf[..]))
      // an absent or out-of-band estimate leaves the smoother untouched
      ensures var pitch := Pitch(Centered(old(buf[..])), sampleRate);
        MeanSquare(old(buf[..])) >= MinRms * MinRms && !(pitch.Some? && InBand(pitch.value)) ==>
        && u == NoPitch(UnstablePitch)
        && accepted == old(accepted) && lastFreqs == old(lastFreqs)
      // an in-band estimate is accepted, and the reading is taken from the new window
      ensures var pitch := Pitch(Centered(old(buf[..])), sampleRate);
        MeanSquare(old(buf[..])) >= MinRms * MinRms && pitch.Some? && InBand(pitch.value) ==>
        && accepted == old(accepted) + [pitch.value]
        && u.Reading? && u.freq == Median(lastFreqs)
      ensures u.Reading? ==>
        && InBand(u.freq)
        && (exists j :: IsNearestIndex(u.freq, j) && u.target == StandardTuning[j])
        && u.target.freq > 0.0
        && u.cents == Cents(log2, u.freq, u.target.freq)
        && u.hint == HintFor(u.cents)
        && u.needle == NeedleAngle(u.cents)
    {
      var meanSquare := 0.0;
      for i := 0 to buf.Length
        invariant meanSquare == SumSquares(buf[..i])
      {
        assert buf[..i + 1][..i] == buf[..i];
        meanSquare := meanSquare + buf[i] * buf[i];
      }
      assert buf[..buf.Length] == buf[..];
      meanSquare := meanSquare / buf.Length as real;
      // sqrt is increasing on the non-negative reals, so rms < MIN_RMS exactly when
      // the mean square is below MIN_RMS squared
      if meanSquare < MinRms * MinRms {
        return NoPitch(WeakSignal);
      }

      var freq := DetectPitchAutocorr(buf, sampleRate);
      if freq.None? || freq.value < MinFreq || freq.value > MaxFreq {
        return NoPitch(UnstablePitch);
      }

      u := AcceptEstimate(freq.value, log2);
    }

    /** The tail of `loop` for an in-band estimate: push it into the window (dropping
        the oldest beyond five), take the window's median, and match it. */
    method AcceptEstimate(freq: real, log2: real -> real) returns (u: Update)
      requires Valid()
      requires InBand(freq)
      modifies this
      ensures Valid()
      ensures accepted == old(accepted) + [freq]
      ensures u.Reading? && u.freq == Median(lastFreqs)
      ensures InBand(u.freq)
      ensures exists j :: IsNearestIndex(u.freq, j) && u.target == StandardTuning[j]
      ensures u.target.freq > 0.0
      ensures u.cents == Cents(log2, u.freq, u.target.freq)
      ensures u.hint == HintFor(u.cents) && u.needle == NeedleAngle(u.cents)
    {
      lastFreqs := lastFreqs + [freq];
      if |lastFreqs| > SmoothN {
        lastFreqs := lastFreqs[1..];
      }
      PushShiftKeepsLastFive(accepted, freq);
      accepted := accepted + [freq];
      WindowStaysInBand(accepted);
      var smoothFreq := Median(lastFreqs);

      var nearest := NearestStandard(smoothFreq);
      ghost var j :| IsNearestIndex(smoothFreq, j) && nearest == StandardTuning[j];
      ReferenceFrequenciesPositive(j);
      var cents := Cents(log2, smoothFreq, nearest.freq);
      u := Reading(smoothFreq, nearest, cents, HintFor(cents), NeedleAngle(cents));
    }
  }

  /** What a square root is relied on for here: on the non-negative reals it is
      non-negative and squares back to its argument. */
  ghost predicate SqrtLike(sqrt: real -> real)
  {
    forall x: real :: x >= 0.0 ==> sqrt(x) >= 0.0 && sqrt(x) * sqrt(x) == x
  }

  /** The gate on the mean square against MIN_RMS squared decides exactly as the
      source's gate on the RMS (the square root of the mean square) against MIN_RMS. */
  lemma MeanSquareGateIsRmsGate(sqrt: real -> real, s: seq<real>)
    requires SqrtLike(sqrt)
    requires |s| > 0
    ensures sqrt(MeanSquare(s)) < MinRms <==> MeanSquare(s) < MinRms * MinRms
  {
    var ms := MeanSquare(s);
    var rms := sqrt(ms);
    assert rms >= 0.0 && rms * rms == ms;
    if rms < MinRms {
      assert rms * rms <= rms * MinRms < MinRms * MinRms;
    } else {
      assert rms * rms >= MinRms * rms >= MinRms * MinRms;
    }
  }

  /** A silent window never reaches the detector. */
  lemma SilenceIsWeak(s: seq<real>)
    requires |s| > 0 && AllZero(s)
    ensures MeanSquare(s) < MinRms * MinRms
  {
    SumSquaresOfZeros(s);
  }

  /** A window holding one constant value passes the gate only by its DC level, and
      then has no pitch: centring leaves silence. */
  lemma ConstantWindowHasNoPitch(s: seq<real>, sampleRate: nat)
    requires MaxLag(sampleRate) < |s|
    requires forall i :: 0 <= i < |s| ==> s[i] == s[0]
    ensures Pitch(Centered(s), sampleRate) == None
  {
    ConstantCentersToZero(s);
    SilenceIsAbsent(Centered(s), sampleRate);
  }

  /** Every value in the smoothing window, and so its median, lies in [60, 1000]. */
  lemma WindowStaysInBand(accepted: seq<real>)
    requires forall i :: 0 <= i < |accepted| ==> InBand(accepted[i])
    ensures forall i :: 0 <= i < |LastN(accepted, SmoothN)| ==> InBand(LastN(accepted, SmoothN)[i])
    ensures |LastN(accepted, SmoothN)| <= SmoothN
    ensures |accepted| > 0 ==> InBand(Median(LastN(accepted, SmoothN)))
  {
    var w := LastN(accepted, SmoothN);
    assert forall i :: 0 <= i < |w| ==> w[i] == accepted[|accepted| - |w| + i];
    if |accepted| > 0 {
      MedianWithinBounds(w, MinFreq, MaxFreq);
    }
  }
}
