/** The single-field effect edits that the views build with object spread:
    `{ ...effects, [stage]: { ...effects[stage], enabled } }` and
    `{ ...effects, [stage]: { ...effects[stage], [param]: value } }`.
    A TrackEffects value is fully described by the `enabled` flag of each
    stage and the value of each numeric parameter, so the contracts below
    say exactly which of those change. */
module EffectEdits {
  import opened AudioTypes

  datatype Stage = Reverb | Delay | Eq | Distortion

  /** The numeric parameters, each belonging to one stage. */
  datatype Param = Wet | Decay | Time | Feedback | Low | Mid | High | Amount

  /** A call `updateTrackEffects(id, effects)` that a view issues. */
  datatype EffectsUpdate = EffectsUpdate(id: string, effects: TrackEffects)

  function StageOf(p: Param): Stage
  {
    match p
    case Wet | Decay => Reverb
    case Time | Feedback => Delay
    case Low | Mid | High => Eq
    case Amount => Distortion
  }

  function Enabled(e: TrackEffects, s: Stage): bool
  {
    match s
    case Reverb => e.reverb.enabled
    case Delay => e.delay.enabled
    case Eq => e.eq.enabled
    case Distortion => e.distortion.enabled
  }

  function ParamValue(e: TrackEffects, p: Param): real
  {
    match p
    case Wet => e.reverb.wet
    case Decay => e.reverb.decay
    case Time => e.delay.time
    case Feedback => e.delay.feedback
    case Low => e.eq.low
    case Mid => e.eq.mid
    case High => e.eq.high
    case Amount => e.distortion.amount
  }

  /** Two effect records that agree on every flag and every parameter are
      the same record: the observations above lose nothing. */
  lemma Extensionality(a: TrackEffects, b: TrackEffects)
    requires forall s: Stage :: Enabled(a, s) == Enabled(b, s)
    requires forall p: Param :: ParamValue(a, p) == ParamValue(b, p)
    ensures a == b
  {
    assert Enabled(a, Reverb) == Enabled(b, Reverb) && Enabled(a, Delay) == Enabled(b, Delay);
    assert Enabled(a, Eq) == Enabled(b, Eq) && Enabled(a, Distortion) == Enabled(b, Distortion);
    assert ParamValue(a, Wet) == ParamValue(b, Wet) && ParamValue(a, Decay) == ParamValue(b, Decay);
    assert ParamValue(a, Time) == ParamValue(b, Time) && ParamValue(a, Feedback) == ParamValue(b, Feedback);
    assert ParamValue(a, Low) == ParamValue(b, Low) && ParamValue(a, Mid) == ParamValue(b, Mid);
    assert ParamValue(a, High) == ParamValue(b, High) && ParamValue(a, Amount) == ParamValue(b, Amount);
  }

  /** Sets the `enabled` flag of one stage. */
  function WithEnabled(e: TrackEffects, s: Stage, enabled: bool): (r: TrackEffects)
    ensures Enabled(r, s) == enabled
    ensures forall s': Stage :: s' != s ==> Enabled(r, s') == Enabled(e, s')
    ensures forall p: Param :: ParamValue(r, p) == ParamValue(e, p)
  {
    match s
    case Reverb => e.(reverb := e.reverb.(enabled := enabled))
    case Delay => e.(delay := e.delay.(enabled := enabled))
    case Eq => e.(eq := e.eq.(enabled := enabled))
    case Distortion => e.(distortion := e.distortion.(enabled := enabled))
  }

  /** Sets parameter `p` inside stage `s`. When `p` is not a field of `s`
      the spread adds an extra key that none of the typed fields sees, so
      the typed record is unchanged. */
  function WithParam(e: TrackEffects, s: Stage, p: Param, value: real): (r: TrackEffects)
    ensures forall s': Stage :: Enabled(r, s') == Enabled(e, s')
    ensures ParamValue(r, p) == if StageOf(p) == s then value else ParamValue(e, p)
    ensures forall q: Param :: q != p ==> ParamValue(r, q) == ParamValue(e, q)
    ensures StageOf(p) != s ==> r == e
  {
    if StageOf(p) != s then e
    else
      match p
      case Wet => e.(reverb := e.reverb.(wet := value))
      case Decay => e.(reverb := e.reverb.(decay := value))
      case Time => e.(delay := e.delay.(time := value))
      case Feedback => e.(delay := e.delay.(feedback := value))
      case Low => e.(eq := e.eq.(low := value))
      case Mid => e.(eq := e.eq.(mid := value))
      case High => e.(eq := e.eq.(high := value))
      case Amount => e.(distortion := e.distortion.(amount := value))
  }

  /** Writing back the value a parameter already has changes nothing. */
  lemma WithParamCurrentValue(e: TrackEffects, p: Param)
    ensures WithParam(e, StageOf(p), p, ParamValue(e, p)) == e
  {
    Extensionality(WithParam(e, StageOf(p), p, ParamValue(e, p)), e);
  }

  /** Re-asserting the current flag of a stage changes nothing. */
  lemma WithEnabledCurrentValue(e: TrackEffects, s: Stage)
    ensures WithEnabled(e, s, Enabled(e, s)) == e
  {
    Extensionality(WithEnabled(e, s, Enabled(e, s)), e);
  }

  /** Toggling a stage and then restoring its old flag gives back the
      original record. */
  lemma WithEnabledUndo(e: TrackEffects, s: Stage, enabled: bool)
    ensures WithEnabled(WithEnabled(e, s, enabled), s, Enabled(e, s)) == e
  {
    Extensionality(WithEnabled(WithEnabled(e, s, enabled), s, Enabled(e, s)), e);
  }

  /** Setting a parameter and then writing back its old value gives back
      the original record. */
  lemma WithParamUndo(e: TrackEffects, p: Param, value: real)
    ensures WithParam(WithParam(e, StageOf(p), p, value), StageOf(p), p, ParamValue(e, p)) == e
  {
    Extensionality(WithParam(WithParam(e, StageOf(p), p, value), StageOf(p), p, ParamValue(e, p)), e);
  }
}
