/** The record shapes of the looper: four effect stages, a track with an
    optional recorded buffer, and the truthiness rule the views apply to the
    selected-track id. */
module AudioTypes {

  datatype Option<+T> = None | Some(value: T)

  /** A recorded buffer. Nothing in the system reads its samples; only its
      size in bytes is observable. */
  datatype AudioBuffer = AudioBuffer(byteLength: nat)

  datatype ReverbFx = ReverbFx(enabled: bool, wet: real, decay: real)
  datatype DelayFx = DelayFx(enabled: bool, time: real, feedback: real)
  datatype EqFx = EqFx(enabled: bool, low: real, mid: real, high: real)
  datatype DistortionFx = DistortionFx(enabled: bool, amount: real)

  datatype TrackEffects = TrackEffects(
    reverb: ReverbFx,
    delay: DelayFx,
    eq: EqFx,
    distortion: DistortionFx)

  /** A track: `buffer` is None until a (simulated) recording attaches one. */
  datatype Track = Track(
    id: string,
    name: string,
    buffer: Option<AudioBuffer>,
    volume: real,
    effects: TrackEffects)

  /** `selectedTrackId` is `string | null`; the guards `if (!selectedTrackId)`
      treat both null and the empty string as "no selection". */
  function HasSelection(sel: Option<string>): (b: bool)
    ensures !b <==> sel == None || sel == Some("")
  {
    sel.Some? && sel.value != ""
  }

  /** The range of a slider widget. Every slider in the views has step 1
      and integer bounds, so the values it emits are the integers in
      [min, max]. */
  datatype SliderRange = SliderRange(min: int, max: int)

  predicate Emits(range: SliderRange, v: int)
  {
    range.min <= v <= range.max
  }

  /** Decimal rendering of a natural number, as a template literal prints
      it: digits only, and no leading zero. */
  function DecimalString(n: nat): (s: string)
    ensures |s| >= 1
    ensures forall i :: 0 <= i < |s| ==> '0' <= s[i] <= '9'
    ensures n < 10 <==> |s| == 1
    ensures n >= 10 ==> s[0] != '0'
  {
    if n < 10 then [Digit(n)] else DecimalString(n / 10) + [Digit(n % 10)]
  }

  function Digit(d: nat): (c: char)
    requires d < 10
    ensures '0' <= c <= '9'
    ensures DigitValue(c) == d
  {
    ['0', '1', '2', '3', '4', '5', '6', '7', '8', '9'][d]
  }

  /** The value of a decimal digit. */
  function DigitValue(c: char): nat
    requires '0' <= c <= '9'
  {
    (c as int - '0' as int) as nat
  }

  /** The number a string of decimal digits denotes, read left to right. */
  function DecimalValue(s: string): nat
    requires forall i :: 0 <= i < |s| ==> '0' <= s[i] <= '9'
    decreases |s|
  {
    if s == [] then 0 else 10 * DecimalValue(s[..|s| - 1]) + DigitValue(s[|s| - 1])
  }

  /** The rendered digits denote the number they render. */
  lemma {:induction false} DecimalStringValue(n: nat)
    ensures DecimalValue(DecimalString(n)) == n
    decreases n
  {
    var s := DecimalString(n);
    if n < 10 {
      assert s[..0] == [];
    } else {
      assert s[..|s| - 1] == DecimalString(n / 10);
      DecimalStringValue(n / 10);
    }
  }
}
