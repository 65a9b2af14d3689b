# Guitar tuner pitch analysis, modelled in Dafny

This project models the analysis core of a browser guitar tuner (`static/script.js`).
Once per animation frame the tuner takes a window of microphone samples. It rejects
windows whose RMS amplitude is under a noise floor. It estimates the pitch of the rest by
autocorrelation: it removes the DC offset in place, searches the lags that correspond
to 60–1000 Hz, applies a confidence threshold and refines the winning lag with a
parabola. Estimates outside 60–1000 Hz are dropped. The rest go into a five-entry
window whose median is matched to the nearest of the six open strings of standard
tuning. The display then shows the deviation in cents, a flat / sharp / in-tune hint
and a needle angle.

Samples and frequencies are exact reals. The modules follow the components of the
script:

- `Signal` (`signal.dfy`): sums, the mean, DC removal, the mean square, and lagged
  products with the normalised autocorrelation `Corr`.
- `PitchDetector` (`pitch.dfy`): `detectPitchAutocorr` and its nested `autocorrAt`. The
  in-place mean removal works on an `array<real>`. The lag search is a loop proved
  against the spec function `BestLagUpTo`. `Pitch` is the function the detector is
  proved to compute.
- `Tuning` (`tuning.dfy`): the `STANDARD_TUNING` table and `nearestStandard`, a loop
  proved to return the earliest entry at least distance.
- `Smoothing` (`smoothing.dfy`): `median`, which works on a sorted copy, and the
  push/shift window of five.
- `Display` (`display.dfy`): `centsDiff`, the hint choice, the needle clamp, and the
  index and octave arithmetic of `freqToName`.
- `Tuner` (`tuner.dfy`): the class `TunerSession`. It holds `lastFreqs` and a ghost
  history `accepted` of every accepted estimate. Its method `Tick` is one call of `loop`.

Numerics that the model does not compute:

- `Math.log2` is a parameter `log2: real -> real`. The properties that need it assume
  only `Log2Like`: log2(1) = 0, and log2 is strictly increasing on positive reals.
- `Math.sqrt` is avoided. The RMS gate compares the mean square with `MIN_RMS`
  squared. `MeanSquareGateIsRmsGate` proves this gives the same decision for any
  square root that is non-negative and squares back to its argument.
- `Math.round(12 * log2(freq / 440))` is left to the caller of `FreqToName`, which
  takes the semitone offset `n`. JavaScript's truncating `%` is written out as
  `JsRemainder`.
- The sample rate is a natural number. `MIN_LAG` and `MAX_LAG` are `sampleRate / 1000`
  and `sampleRate / 60`, rounded down.

The following are requirements on callers, and the source meets them:

- The window must be longer than `MAX_LAG`. The capture window is 2048 samples and
  the lag is at most 800 at 48 kHz.
- `median` is only called on the non-empty window, right after a push.

Where the two ends of the best-lag range are concerned, the source computes the
parabola from a `-Infinity` neighbour. The result is NaN, and `loop` rejects it with
`!freq`. The model's detector returns `None` there directly, and the tick result is the
same.

Two behaviours of the code worth knowing:

- `stopTuner` (`static/script.js:79-96`) does not empty `lastFreqs`. A restarted session
  therefore starts from the old window, not from an empty one. The model has no stop
  operation and no reset of the window, whose only change is the push and shift in
  `Tick`; that is consistent with this behaviour but does not model it.
- By plain distance, 220 Hz is nearest G3 (24 Hz away), not A2 (`Match220IsG3`).

## Model

| member | source | states |
|---|---|---|
| `Signal.SumShifted` | static/script.js:141-144 | subtracting a constant c from every sample lowers the sum by n·c |
| `Signal.CenteredSumsToZero` | static/script.js:141-144 | after mean removal the window sums to zero |
| `Signal.ConstantCentersToZero` | static/script.js:141-144 | a window holding one constant value (silence or pure DC) is all zeros after mean removal |
| `Signal.SumSquaresNonNegative` | static/script.js:105-106 | the accumulated sum of squares is never negative |
| `Signal.CorrOfZeros` | static/script.js:147-153 | the normalised autocorrelation of silence is zero at every lag |
| `Signal.MeanSquare` | static/script.js:105-107 | the mean square (the RMS before its square root) is never negative, and is zero for a silent window |
| `PitchDetector.RemoveMean` | static/script.js:141-144 | in place, every sample becomes its old value minus the old mean |
| `PitchDetector.LagCorrelation` | static/script.js:148-152 | the loop computes the sum of buf[i]·buf[i+lag] over the overlap divided by SIZE−lag, with every index inside the buffer |
| `PitchDetector.CorrInRange` | static/script.js:175-180 | `autocorrAt` gives a value exactly for lags in [MIN_LAG, MAX_LAG], and that value is the normalised correlation; outside the range it gives the source's −∞ (None) |
| `PitchDetector.AutocorrAt` | static/script.js:175-180 | the loop returns exactly `CorrInRange`: None outside [MIN_LAG, MAX_LAG], the normalised correlation inside |
| `PitchDetector.BestLagUpTo` | static/script.js:137-158 | the search state is (−1, 0) when no lag has positive correlation; otherwise it is a lag in range whose correlation is positive and ≥ every lag's and > every earlier lag's (strict `>`: earliest wins ties); bestCorr ≥ 0 always |
| `PitchDetector.BestLag` | static/script.js:147-158 | the lag-search loop ends in exactly the state `BestLagUpTo` describes |
| `PitchDetector.Refine` | static/script.js:164-171 | the vertex of the parabola through (lag−1, c0), (lag, c1), (lag+1, c2): for a non-zero curvature c0 − 2c1 + c2 the parabola's slope (c0 − 2c1 + c2)(r − lag) + (c2 − c0)/2 is zero at the result; a zero curvature keeps the integer lag; when the middle correlation is the largest of the three, the result is within half a sample of the integer lag |
| `PitchDetector.MinLag` | static/script.js:135 | MIN_LAG is floor(sampleRate / 1000): lag·1000 ≤ sampleRate < (lag+1)·1000 |
| `PitchDetector.MaxLag` | static/script.js:134 | MAX_LAG is floor(sampleRate / 60): lag·60 ≤ sampleRate < (lag+1)·60, and MIN_LAG ≤ MAX_LAG |
| `PitchDetector.PitchSteps` | static/script.js:160-173 | no estimate below the 0.01 threshold or when a neighbour of the best lag falls outside the lag range; otherwise the best lag is interior, its own correlation is in range, and the estimate is sampleRate over the lag refined from the two neighbours, which is at least 1/2 |
| `PitchDetector.WeakBestIsAbsent` | static/script.js:161 | a best correlation under 0.01 gives no estimate |
| `PitchDetector.PitchFromNeighbours` | static/script.js:163-173 | given the three correlations read around a best lag that reaches 0.01, the middle one is present; an absent neighbour gives no estimate; otherwise the estimate is sampleRate over the lag refined from them, which is at least 1/2 |
| `PitchDetector.Pitch` | static/script.js:147-173 | no estimate when no lag in range reaches 0.01; a present estimate comes from an interior lag with correlation ≥ 0.01 that is ≥ every lag in range and > every earlier one, and it is positive and lies between sampleRate/(lag+½) and sampleRate/(lag−½) |
| `PitchDetector.RateOverRefinedLag` | static/script.js:173 | sampleRate over a lag refined to within ½ of an integer lag ≥ 1 is positive and between sampleRate/(lag+½) and sampleRate/(lag−½) |
| `PitchDetector.SilenceIsAbsent` | static/script.js:161 | an all-zero window gives no estimate |
| `PitchDetector.DetectPitchAutocorr` | static/script.js:132-181 | the window is centred in place and the result is `Pitch` of the centred window |
| `Tuning.NearestStandard` | static/script.js:184-192 | the result is a table entry that no entry is closer to the frequency than, and every earlier entry is strictly farther (first entry wins ties) |
| `Tuning.NearestIndexUnique` | static/script.js:184-192 | at most one table index satisfies the nearest-entry condition, so the match is determined by the frequency |
| `Tuning.ReferenceFrequenciesPositive` | static/script.js:2-9 | every reference frequency is positive, so the cents quotient is defined |
| `Tuning.Match104IsA2` | static/script.js:184-192 | 104 Hz matches A2 |
| `Tuning.Match220IsG3` | static/script.js:184-192 | 220 Hz matches G3 |
| `Tuning.TieGoesToEarlierString` | static/script.js:184-192 | half-way between E2 and A2 the two distances are equal, and E2, first in the table, is the match |
| `Smoothing.Insert` | static/script.js:206 | inserting into a sorted sequence keeps it sorted and adds exactly that element |
| `Smoothing.SortedCopy` | static/script.js:206 | the copy is sorted ascending and a permutation of the input |
| `Smoothing.SortedSameFirst` | static/script.js:206 | two sorted arrangements of the same values start with the same value |
| `Smoothing.SortedUnique` | static/script.js:206 | two sorted arrangements of the same values are equal, so the sorted copy is unique |
| `Smoothing.Median` | static/script.js:205-209 | the median lies between two of the inputs |
| `Smoothing.MedianOfArrangement` | static/script.js:205-209 | the median is the middle element of any ascending arrangement for an odd count, and the mean of the two middle elements for an even count |
| `Smoothing.MedianIgnoresOrder` | static/script.js:205-209 | the median depends only on the multiset of values, not their order |
| `Smoothing.MedianWithinBounds` | static/script.js:205-209 | if every value lies in [lo, hi], so does the median |
| `Smoothing.MedianOfFiveExample` | static/script.js:205-209 | the median of 100, 102, 98, 101, 99 is 100 |
| `Smoothing.MedianOfFourExample` | static/script.js:205-209 | the median of 102, 98, 100, 110 is 101, the mean of the middle two |
| `Smoothing.PushShift` | static/script.js:120-121 | a window of at most five stays at most five, and the new estimate is its last element |
| `Smoothing.PushShiftKeepsLastFive` | static/script.js:120-121 | push then shift-on-overflow turns the last five accepted estimates into the last five after the new one; the oldest is dropped first |
| `Smoothing.SixArrivalsKeepFive` | static/script.js:120-122 | pushing 1..6 through push-then-shift from an empty window leaves [2, 3, 4, 5, 6], whose median is 4 |
| `Display.Cents` | static/script.js:194-196 | for a positive frequency and a log2 that maps 1 to 0 and is increasing, the deviation is negative, zero or positive exactly when the frequency is below, at or above the reference |
| `Display.CentsIncreasing` | static/script.js:194-196 | the deviation strictly increases with the frequency |
| `Display.HintFor` | static/script.js:230-232 | flat iff cents < −3, sharp iff cents > 3, in tune iff −3 ≤ cents ≤ 3 |
| `Display.HintDirection` | static/script.js:230-232 | flat implies below the target and sharp implies above it; exactly on target is in tune |
| `Display.NeedleAngle` | static/script.js:200-201 | the angle is always within ±45°, proportional (0.9°/cent) within ±50 cents, saturates beyond, and has the deviation's sign |
| `Display.NeedleMonotone` | static/script.js:200-201 | a larger deviation never gives a smaller angle |
| `Display.JsRemainder` | static/script.js:241 | JavaScript's `%`: a non-negative dividend gives a remainder in [0, b), a negative one a remainder in (−b, 0], and a = q·b + r for some integer q |
| `Display.FreqToName` | static/script.js:237-245 | for n ≥ −1209 the name is the pitch class of MIDI note n+69; name and octave always rebuild n+69; below −1209 the truncating `%` gives a name only when n+1209 is a multiple of 12 |
| `Display.NameIndex` | static/script.js:241 | the index `(n + 9 + 1200) % 12` equals the pitch class (n+69) mod 12 for n ≥ −1209; below that it is in range of the name table only when n+1209 is a multiple of 12 |
| `Display.A4IsOrigin` | static/script.js:241 | offset 0 is A4 |
| `Display.OctaveStep` | static/script.js:241-243 | twelve semitones up keeps the name and raises the octave by one |
| `Display.OpenStringNames` | static/script.js:237-245 | the offsets of the six open strings name E2, A2, D3, G3, B3, E4 |
| `Tuner.TunerSession.constructor` | static/script.js:39-40 | a new session starts with an empty window and no history |
| `Tuner.TunerSession.Tick` | static/script.js:99-127 | a weak window (mean square < MIN_RMS²) gives "weak signal" before detection, with nothing changed; an absent or out-of-[60, 1000] estimate gives "unstable" with the window untouched; otherwise the estimate is appended to the history and the reading is the new window's median, in [60, 1000], with its nearest string, the cents against it, the hint and the needle angle |
| `Tuner.TunerSession.AcceptEstimate` | static/script.js:119-126 | an in-band estimate is appended to the history, the window stays the last five accepted, and the reading is the window's median (in [60, 1000]), the nearest string to it, the cents against that string, the hint and the needle angle |
| `Tuner.MeanSquareGateIsRmsGate` | static/script.js:105-108 | for any square root that is non-negative and squares back, sqrt(mean square) < MIN_RMS exactly when the mean square < MIN_RMS², so the model's gate decides as the source's |
| `Tuner.SilenceIsWeak` | static/script.js:105-108 | a silent window fails the RMS gate, so it never reaches the detector |
| `Tuner.ConstantWindowHasNoPitch` | static/script.js:141-161 | a constant window has no pitch once centred |
| `Tuner.WindowStaysInBand` | static/script.js:114-122 | the window holds at most five values, all in [60, 1000], and so does its median |

## Left out

- Microphone capture and the audio graph (`startTuner`, `static/script.js:51-77`). These are browser APIs; each window reaches `Tick` as an array parameter.
- The `requestAnimationFrame` re-arming, `cancelAnimationFrame`, the click handler and `stopTuner` (`static/script.js:43-49, 79-96, 100`). They are host scheduling and resource release. Their only effect on the core is that `lastFreqs` survives a stop.
- DOM writes in `showNoPitch`, `updateUI` and `rotateNeedle`, including the `toFixed` texts and the CSS transform. A tick yields an `Update` value instead.
- The string-versus-number test `freq.toFixed(2) >= 100`, which decides whether a note name is shown (`static/script.js:222`).
- Turning a note name and octave into one string in `freqToName`. The model returns the pair.
- `playSound` (`static/script.js:21-24`): audio playback.
- IEEE-754 and 32-bit float rounding, NaN and the infinities. Samples are exact reals.
- The exact values of `Math.log2`, `Math.sqrt` and `Math.round`.
- Accuracy claims about real signals, such as a 110 Hz sine being found within 1 Hz. They depend on floating-point signal behaviour.
- `app.py`: web routing, a chat bot and a background thread, with no analysis logic.
- Display.FreqToName: takes the rounded semitone offset as input, because `Math.round(12 * Math.log2(...))` is not computed.
- Tuner.TunerSession.Tick: cents are stated through the caller-supplied `log2`. Their sign and order need `Log2Like`; nothing further about base 2 is claimed.
