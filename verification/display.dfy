/** The numbers behind the display: the deviation in cents, the flat / sharp / in
    tune hint, the needle angle, and the rough note name of a frequency. */
module Display {
  import opened Wrappers
  import opened Signal

  /** What a base-2 logarithm is relied on for here: it maps 1 to 0 and is strictly
      increasing on the positive reals. */
  ghost predicate Log2Like(log2: real -> real)
  {
    && log2(1.0) == 0.0
    && forall x: real, y: real :: 0.0 < x < y ==> log2(x) < log2(y)
  }

  /** `centsDiff`: 1200 * log2(freq / ref), with the logarithm supplied by the caller.
      For a positive frequency it is negative, zero or positive exactly when the
      frequency is below, at or above the reference. */
  function Cents(log2: real -> real, freq: real, ref: real): (cents: real)
    requires ref > 0.0
    ensures Log2Like(log2) && freq > 0.0 ==>
            && (cents < 0.0 <==> freq < ref)
            && (cents == 0.0 <==> freq == ref)
            && (cents > 0.0 <==> freq > ref)
  {
    CentsSign(log2, freq, ref);
    1200.0 * log2(freq / ref)
  }

  /** The sign facts `Cents` relies on, for whatever logarithm it is given. */
  lemma CentsSign(log2: real -> real, freq: real, ref: real)
    requires ref > 0.0
    ensures Log2Like(log2) && freq > 0.0 ==> Log2SignOfRatio(log2, freq, ref)
  {
    if Log2Like(log2) && freq > 0.0 {
      RatioLog2Sign(log2, freq, ref);
    }
  }

  ghost predicate Log2SignOfRatio(log2: real -> real, freq: real, ref: real)
    requires ref > 0.0
  {
    && (log2(freq / ref) < 0.0 <==> freq < ref)
    && (log2(freq / ref) == 0.0 <==> freq == ref)
    && (log2(freq / ref) > 0.0 <==> freq > ref)
  }

  lemma RatioLog2Sign(log2: real -> real, freq: real, ref: real)
    requires Log2Like(log2)
    requires freq > 0.0 && ref > 0.0
    ensures Log2SignOfRatio(log2, freq, ref)
  {
    var q := freq / ref;
    QuotientVersusOne(freq, ref);
    if q < 1.0 {
      assert log2(q) < log2(1.0);
    } else if q > 1.0 {
      assert log2(1.0) < log2(q);
    }
  }

  lemma QuotientVersusOne(freq: real, ref: real)
    requires freq > 0.0 && ref > 0.0
    ensures freq / ref > 0.0
    ensures freq < ref <==> freq / ref < 1.0
    ensures freq == ref <==> freq / ref == 1.0
  {
    var q := freq / ref;
    assert q * ref == freq;
    assert (q - 1.0) * ref == freq - ref;
    SignOfProduct(q - 1.0, ref);
    SignOfProduct(q, ref);
  }

  /** A higher frequency is more cents away from below, for a fixed reference. */
  lemma CentsIncreasing(log2: real -> real, f1: real, f2: real, ref: real)
    requires Log2Like(log2)
    requires 0.0 < f1 < f2 && ref > 0.0
    ensures Cents(log2, f1, ref) < Cents(log2, f2, ref)
  {
    var q1, q2 := f1 / ref, f2 / ref;
    QuotientVersusOne(f1, ref);
    assert q1 * ref == f1 && q2 * ref == f2;
    assert (q2 - q1) * ref == f2 - f1;
    SignOfProduct(q2 - q1, ref);
    assert log2(q1) < log2(q2);
  }

  datatype Hint = Flat | Sharp | InTune

  /** Deviation (cents) beyond which the hint is flat or sharp. */
  const InTuneCents: real := 3.0

  /** The hint chosen in `updateUI`: flat below -3 cents, sharp above +3, in tune in
      between (both ends included). */
  function HintFor(cents: real): (h: Hint)
    ensures h == Flat <==> cents < -InTuneCents
    ensures h == Sharp <==> cents > InTuneCents
    ensures h == InTune <==> -InTuneCents <= cents <= InTuneCents
  {
    if cents < -InTuneCents then Flat
    else if cents > InTuneCents then Sharp
    else InTune
  }

  /** Flat means below the target, sharp above it, and a note exactly on the target is
      in tune. */
  lemma HintDirection(log2: real -> real, freq: real, ref: real)
    requires Log2Like(log2)
    requires freq > 0.0 && ref > 0.0
    ensures HintFor(Cents(log2, freq, ref)) == Flat ==> freq < ref
    ensures HintFor(Cents(log2, freq, ref)) == Sharp ==> freq > ref
    ensures freq == ref ==> HintFor(Cents(log2, freq, ref)) == InTune
  {
  }

  /** Full scale of the needle: +-50 cents shown as +-45 degrees. */
  const ScaleCents: real := 50.0
  const ScaleDegrees: real := 45.0

  /** `rotateNeedle`'s angle: the deviation clamped to +-50 cents, scaled to +-45
      degrees. Within the scale the angle is proportional to the deviation and
      keeps its sign. */
  function NeedleAngle(cents: real): (deg: real)
    ensures -ScaleDegrees <= deg <= ScaleDegrees
    ensures -ScaleCents <= cents <= ScaleCents ==> deg == cents * ScaleDegrees / ScaleCents
    ensures cents >= ScaleCents ==> deg == ScaleDegrees
    ensures cents <= -ScaleCents ==> deg == -ScaleDegrees
    ensures (deg < 0.0 <==> cents < 0.0) && (deg == 0.0 <==> cents == 0.0)
  {
    var clamped := Max(-ScaleCents, Min(ScaleCents, cents));
    (clamped / ScaleCents) * ScaleDegrees
  }

  function Max(a: real, b: real): real
  {
    if a >= b then a else b
  }

  function Min(a: real, b: real): real
  {
    if a <= b then a else b
  }

  /** A larger deviation never turns the needle the other way. */
  lemma NeedleMonotone(c1: real, c2: real)
    requires c1 <= c2
    ensures NeedleAngle(c1) <= NeedleAngle(c2)
  {
  }

  const NoteNames: seq<string> := ["C", "C#", "D", "D#", "E", "F", "F#", "G", "G#", "A", "A#", "B"]

  /** JavaScript's `%`: the remainder truncated toward zero, so it takes the sign of
      the dividend. */
  function JsRemainder(a: int, b: int): (r: int)
    requires b > 0
    ensures a >= 0 ==> 0 <= r < b
    ensures a < 0 ==> -b < r <= 0
    ensures exists q :: a == q * b + r
  {
    if a >= 0 then
      assert a == (a / b) * b + a % b;
      a % b
    else
      var m := (-a) % b;
      assert -a == ((-a) / b) * b + m;
      assert a == (-((-a) / b)) * b + (-m);
      -m
  }

  /** A note label: the name (None where the source indexes past the name table and
      gets `undefined`) and the octave number. */
  datatype NoteLabel = NoteLabel(name: Option<string>, octave: int)

  /** `freqToName` given n, the offset in semitones from A4 (440 Hz), which the source
      gets by rounding 12 * log2(freq / 440). Adding 1200 before the remainder keeps
      the table index in range for every n >= -1209; there the label names the MIDI
      note n + 69, pitch class and octave. */
  function FreqToName(n: int): (note: NoteLabel)
    ensures n >= -1209 ==> note.name == Some(NoteNames[(n + 69) % 12])
    ensures 12 * (note.octave + 1) + (n + 69) % 12 == n + 69
    ensures n < -1209 ==> (note.name.Some? <==> (n + 1209) % 12 == 0)
  {
    var index := JsRemainder(n + 9 + 1200, 12);
    NameIndex(n, index);
    var name := if 0 <= index < |NoteNames| then Some(NoteNames[index]) else None;
    var midi := n + 69;
    var octave := midi / 12 - 1;
    NoteLabel(name, octave)
  }

  /** The table index `freqToName` computes, against the pitch class of MIDI note
      n + 69: equal to it from -1209 up, and otherwise in range only when zero. */
  lemma NameIndex(n: int, index: int)
    requires index == JsRemainder(n + 9 + 1200, 12)
    ensures n >= -1209 ==> index == (n + 69) % 12
    ensures n < -1209 ==> (0 <= index < 12 <==> (n + 1209) % 12 == 0)
  {
    if n >= -1209 {
      assert n + 1209 == (n + 69) + 12 * 95;
    } else {
      var m := (-(n + 1209)) % 12;
      assert index == -m;
      assert -(n + 1209) == (-(n + 1209)) / 12 * 12 + m;
    }
  }

  /** A4 is the origin: offset 0 is named A in octave 4. */
  lemma A4IsOrigin()
    ensures FreqToName(0) == NoteLabel(Some("A"), 4)
  {
  }

  /** Twelve semitones up gives the same name one octave higher. */
  lemma OctaveStep(n: int)
    requires n >= -1209
    ensures FreqToName(n + 12).name == FreqToName(n).name
    ensures FreqToName(n + 12).octave == FreqToName(n).octave + 1
  {
    assert (n + 12 + 69) % 12 == (n + 69) % 12;
  }

  /** The offsets of the six open strings from A4 give the names of the tuning table. */
  lemma OpenStringNames()
    ensures FreqToName(-29) == NoteLabel(Some("E"), 2)
    ensures FreqToName(-24) == NoteLabel(Some("A"), 2)
    ensures FreqToName(-19) == NoteLabel(Some("D"), 3)
    ensures FreqToName(-14) == NoteLabel(Some("G"), 3)
    ensures FreqToName(-10) == NoteLabel(Some("B"), 3)
    ensures FreqToName(-5) == NoteLabel(Some("E"), 4)
  {
  }
}
