/** The six open strings of standard guitar tuning and the search for the one
    nearest a frequency, by plain distance in hertz. */
module Tuning {

  datatype ReferenceString = ReferenceString(name: string, freq: real, id: string)

  /** `STANDARD_TUNING`, lowest string first. */
  const StandardTuning: seq<ReferenceString> := [
    ReferenceString("E2", 82.4069, "E_low"),
    ReferenceString("A2", 110.0, "A"),
    ReferenceString("D3", 146.8324, "D"),
    ReferenceString("G3", 196.0, "G"),
    ReferenceString("B3", 246.9417, "B"),
    ReferenceString("E4", 329.6276, "E_high")
  ]

  function Abs(x: real): real
  {
    if x < 0.0 then -x else x
  }

  /** |freq - r.freq|, the distance the matcher minimises. */
  function Distance(freq: real, r: ReferenceString): real
  {
    Abs(freq - r.freq)
  }

  /** Entry j is the match for `freq`: no entry is closer, and every earlier entry is
      strictly farther (ties go to the first entry in table order). */
  ghost predicate IsNearestIndex(freq: real, j: int)
  {
    && 0 <= j < |StandardTuning|
    && (forall k :: 0 <= k < |StandardTuning| ==>
          Distance(freq, StandardTuning[j]) <= Distance(freq, StandardTuning[k]))
    && (forall k :: 0 <= k < j ==>
          Distance(freq, StandardTuning[k]) > Distance(freq, StandardTuning[j]))
  }

  /** At most one entry is the match, so the match is a function of the frequency. */
  lemma NearestIndexUnique(freq: real, i: int, j: int)
    requires IsNearestIndex(freq, i) && IsNearestIndex(freq, j)
    ensures i == j
  {
  }

  /** Every reference frequency is positive. */
  lemma ReferenceFrequenciesPositive(j: int)
    requires 0 <= j < |StandardTuning|
    ensures StandardTuning[j].freq > 0.0
  {
  }

  /** `nearestStandard`: a linear scan that replaces the current best only on a
      strictly smaller distance. */
  method NearestStandard(freq: real) returns (best: ReferenceString)
    ensures exists j :: IsNearestIndex(freq, j) && best == StandardTuning[j]
  {
    best := StandardTuning[0];
    var minDiff := Abs(freq - best.freq);
    ghost var bestIndex := 0;
    for k := 0 to |StandardTuning|
      invariant 0 <= bestIndex < |StandardTuning| && (bestIndex == 0 || bestIndex < k)
      invariant best == StandardTuning[bestIndex] && minDiff == Distance(freq, best)
      invariant forall m :: 0 <= m < k ==> minDiff <= Distance(freq, StandardTuning[m])
      invariant forall m :: 0 <= m < bestIndex ==> Distance(freq, StandardTuning[m]) > minDiff
    {
      var d := Abs(freq - StandardTuning[k].freq);
      if d < minDiff {
        minDiff := d;
        best := StandardTuning[k];
        bestIndex := k;
      }
    }
    assert IsNearestIndex(freq, bestIndex);
  }

  /** 104 Hz is nearest A2 (6 Hz away, against 21.6 Hz for E2). */
  lemma Match104IsA2()
    ensures IsNearestIndex(104.0, 1) && StandardTuning[1].name == "A2"
  {
  }

  /** 220 Hz (A3) is nearest G3, 24 Hz away, and not A2 or B3. */
  lemma Match220IsG3()
    ensures IsNearestIndex(220.0, 3) && StandardTuning[3].name == "G3"
  {
  }

  /** Exactly half-way between E2 and A2 both are at the same distance; E2, which
      comes first, wins. */
  lemma TieGoesToEarlierString()
    ensures var mid := (StandardTuning[0].freq + StandardTuning[1].freq) / 2.0;
            Distance(mid, StandardTuning[0]) == Distance(mid, StandardTuning[1])
            && IsNearestIndex(mid, 0)
  {
  }
}
