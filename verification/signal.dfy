/** Arithmetic over one window of audio samples, modelled as exact reals:
    running sums, the mean, DC-offset removal and the lagged products that the
    autocorrelation is built from. */
module Signal {

  /** Sum of the samples, accumulated left to right as the source's loops do. */
  function Sum(s: seq<real>): real
  {
    if s == [] then 0.0 else Sum(s[..|s| - 1]) + s[|s| - 1]
  }

  function Mean(s: seq<real>): real
    requires |s| > 0
  {
    Sum(s) / |s| as real
  }

  /** Every sample moved down by `c`. */
  function Shifted(s: seq<real>, c: real): seq<real>
  {
    seq(|s|, i requires 0 <= i < |s| => s[i] - c)
  }

  /** The window with its DC offset (the mean) removed from every sample. */
  function Centered(s: seq<real>): seq<real>
    requires |s| > 0
  {
    Shifted(s, Mean(s))
  }

  /** Sum of squared samples, accumulated left to right. */
  function SumSquares(s: seq<real>): real
  {
    if s == [] then 0.0 else SumSquares(s[..|s| - 1]) + s[|s| - 1] * s[|s| - 1]
  }

  /** The square of the window's RMS amplitude. */
  function MeanSquare(s: seq<real>): (ms: real)
    requires |s| > 0
    ensures ms >= 0.0
    ensures AllZero(s) ==> ms == 0.0
  {
    SumSquaresNonNegative(s);
    assert AllZero(s) ==> SumSquares(s) == 0.0 by {
      if AllZero(s) {
        SumSquaresOfZeros(s);
      }
    }
    SumSquares(s) / |s| as real
  }

  /** Sum of s[i] * s[i + lag] for i in [0, n). */
  function LagSum(s: seq<real>, lag: nat, n: nat): real
    requires n + lag <= |s|
  {
    if n == 0 then 0.0 else LagSum(s, lag, n - 1) + s[n - 1] * s[n - 1 + lag]
  }

  /** Normalised autocorrelation at `lag`: the lagged sum divided by the number of
      products in it. */
  function Corr(s: seq<real>, lag: nat): real
    requires lag < |s|
  {
    LagSum(s, lag, |s| - lag) / (|s| - lag) as real
  }

  predicate AllZero(s: seq<real>)
  {
    forall i :: 0 <= i < |s| ==> s[i] == 0.0
  }

  /** Shifting every sample by `c` lowers the sum by |s| * c. */
  lemma {:induction false} SumShifted(s: seq<real>, c: real)
    ensures Sum(Shifted(s, c)) == Sum(s) - |s| as real * c
  {
    if s != [] {
      var t := Shifted(s, c);
      assert t[..|t| - 1] == Shifted(s[..|s| - 1], c);
      SumShifted(s[..|s| - 1], c);
    }
  }

  /** After DC removal the window sums to zero. */
  lemma CenteredSumsToZero(s: seq<real>)
    requires |s| > 0
    ensures Sum(Centered(s)) == 0.0
  {
    SumShifted(s, Mean(s));
  }

  lemma {:induction false} SumOfZeros(s: seq<real>)
    requires AllZero(s)
    ensures Sum(s) == 0.0
  {
    if s != [] {
      SumOfZeros(s[..|s| - 1]);
    }
  }

  /** A window that holds one constant value (silence, or pure DC) becomes all zeros
      once its mean is removed. */
  lemma ConstantCentersToZero(s: seq<real>)
    requires |s| > 0
    requires forall i :: 0 <= i < |s| ==> s[i] == s[0]
    ensures AllZero(Centered(s))
  {
    var z := Shifted(s, s[0]);
    SumOfZeros(z);
    SumShifted(s, s[0]);
    var n := |s| as real;
    assert Sum(s) == n * s[0];
    assert Mean(s) * n == Sum(s);
    assert (Mean(s) - s[0]) * n == 0.0;
    SignOfProduct(Mean(s) - s[0], n);
  }

  lemma SignOfProduct(x: real, d: real)
    requires d > 0.0
    ensures x * d < 0.0 <==> x < 0.0
    ensures x * d == 0.0 <==> x == 0.0
  {
    if x < 0.0 {
      assert x * d < 0.0;
    } else if x > 0.0 {
      assert x * d > 0.0;
    }
  }

  /** The sum of the squares of a window is never negative. */
  lemma {:induction false} SumSquaresNonNegative(s: seq<real>)
    ensures SumSquares(s) >= 0.0
  {
    if s != [] {
      SumSquaresNonNegative(s[..|s| - 1]);
      var x := s[|s| - 1];
      assert x * x >= 0.0;
    }
  }

  lemma {:induction false} SumSquaresOfZeros(s: seq<real>)
    requires AllZero(s)
    ensures SumSquares(s) == 0.0
  {
    if s != [] {
      SumSquaresOfZeros(s[..|s| - 1]);
    }
  }

  lemma {:induction false} LagSumOfZeros(s: seq<real>, lag: nat, n: nat)
    requires n + lag <= |s|
    requires AllZero(s)
    ensures LagSum(s, lag, n) == 0.0
  {
    if n > 0 {
      LagSumOfZeros(s, lag, n - 1);
    }
  }

  /** The autocorrelation of silence is zero at every lag. */
  lemma CorrOfZeros(s: seq<real>, lag: nat)
    requires lag < |s|
    requires AllZero(s)
    ensures Corr(s, lag) == 0.0
  {
    LagSumOfZeros(s, lag, |s| - lag);
  }
}
