/** The workspace: the master mute button, the circular knobs of the
    settings menu (their wheel step and the linear maps between knob
    position and parameter value) and the single-field edits the knobs and
    switches send for the selected track. */
module Workspace {
  import opened AudioTypes
  import opened EffectEdits
  import opened TrackEdits
  import opened AudioSession
  import opened EffectsPanel

  // ---------------------------------------------------------------------
  // Master mute

  /** The workspace's own state: `isMuted` and `previousVolume`. */
  datatype MuteState = MuteState(isMuted: bool, previousVolume: real)

  const InitialMute: MuteState := MuteState(false, 1.0)

  /** `handleMuteToggle` given the current master volume; the second
      component is the master volume it sets. Muting remembers the volume
      and sets 0; unmuting sets the remembered volume back. */
  function MuteToggleStep(m: MuteState, masterVolume: real): (r: (MuteState, real))
    ensures r.0.isMuted == !m.isMuted
    ensures !m.isMuted ==> r.0.previousVolume == masterVolume && r.1 == 0.0
    ensures m.isMuted ==> r.0.previousVolume == m.previousVolume && r.1 == m.previousVolume
  {
    if m.isMuted then (MuteState(false, m.previousVolume), m.previousVolume)
    else (MuteState(true, masterVolume), 0.0)
  }

  /** Muting and then unmuting gives the master volume back, and a second
      round does the same again. */
  lemma MuteThenUnmuteRestores(m: MuteState, masterVolume: real)
    requires !m.isMuted
    ensures var (m1, v1) := MuteToggleStep(m, masterVolume);
      var (m2, v2) := MuteToggleStep(m1, v1);
      && m1.isMuted && v1 == 0.0
      && !m2.isMuted && v2 == masterVolume && m2.previousVolume == masterVolume
      && MuteToggleStep(m2, v2) == (m1, v1)
  {
  }

  /** Whatever the master volume is set to while muted, unmuting restores
      the volume from before the mute. */
  lemma UnmuteIgnoresChangesWhileMuted(m: MuteState, masterVolume: real, changed: real)
    requires !m.isMuted
    ensures MuteToggleStep(MuteToggleStep(m, masterVolume).0, changed).1 == masterVolume
  {
  }

  // ---------------------------------------------------------------------
  // The knob's wheel step

  /** `Math.max(0, Math.min(100, v))` */
  function Clamp(v: real): (r: real)
    ensures 0.0 <= r <= 100.0
    ensures 0.0 <= v <= 100.0 ==> r == v
    ensures v < 0.0 ==> r == 0.0
    ensures v > 100.0 ==> r == 100.0
  {
    if v < 0.0 then 0.0 else if v > 100.0 then 100.0 else v
  }

  /** Scrolling down (positive `deltaY`) lowers the knob by 2, anything
      else raises it by 2. */
  function WheelDelta(deltaY: real): (d: real)
    ensures d == -2.0 || d == 2.0
    ensures d < 0.0 <==> deltaY > 0.0
  {
    if deltaY > 0.0 then -2.0 else 2.0
  }

  /** `handleWheel`: nothing unless the knob is hovered; otherwise the new
      position is the clamped sum, always within [0, 100] and at most 2
      away from a position that was in range. */
  function WheelStep(value: real, hovered: bool, deltaY: real): (r: Option<real>)
    ensures r.None? <==> !hovered
    ensures r.Some? ==> 0.0 <= r.value <= 100.0 && r.value == Clamp(value + WheelDelta(deltaY))
    ensures r.Some? && 0.0 <= value <= 100.0 && deltaY > 0.0 ==> value - 2.0 <= r.value <= value
    ensures r.Some? && 0.0 <= value <= 100.0 && !(deltaY > 0.0) ==> value <= r.value <= value + 2.0
  {
    if !hovered then None else Some(Clamp(value + WheelDelta(deltaY)))
  }

  /** `n` downward wheel steps on a hovered knob. */
  function WheelDown(value: real, n: nat): real
    decreases n
  {
    if n == 0 then value else WheelDown(WheelStep(value, true, 1.0).value, n - 1)
  }

  /** From a position in range, `n` downward steps reach `max(0, v - 2n)`:
      the knob walks down by 2 and then stays at 0. */
  lemma {:induction false} WheelDownReachesFloor(value: real, n: nat)
    requires 0.0 <= value <= 100.0
    ensures WheelDown(value, n) == if value - 2.0 * n as real < 0.0 then 0.0 else value - 2.0 * n as real
    decreases n
  {
    if n > 0 {
      var next := WheelStep(value, true, 1.0).value;
      WheelDownReachesFloor(next, n - 1);
    }
  }

  // ---------------------------------------------------------------------
  // Knob positions and parameter values

  /** The EQ knob's position for a gain: `((g + 12) / 24) * 100`. */
  function EqToPercent(g: real): (p: real)
    ensures -12.0 <= g <= 12.0 <==> 0.0 <= p <= 100.0
  {
    ((g + 12.0) / 24.0) * 100.0
  }

  /** The gain the EQ knob writes for a position: `(p / 100) * 24 - 12`. */
  function PercentToEq(p: real): (g: real)
    ensures 0.0 <= p <= 100.0 <==> -12.0 <= g <= 12.0
  {
    (p / 100.0) * 24.0 - 12.0
  }

  /** The two EQ maps are inverse to each other. */
  lemma EqMapsInverse(g: real, p: real)
    ensures PercentToEq(EqToPercent(g)) == g
    ensures EqToPercent(PercentToEq(p)) == p
  {
  }

  /** The knobs of the settings menu. */
  datatype Knob = TrackVolumeKnob | MasterVolumeKnob | EffectKnob(param: Param)

  /** The position a knob shows for a value: a value is in the knob's
      domain exactly when its position is in [0, 100]. */
  function KnobDisplay(k: Knob, x: real): (v: real)
    ensures KnobDomain(k, x) <==> 0.0 <= v <= 100.0
  {
    match k
    case EffectKnob(Decay) => x * 10.0
    case EffectKnob(Low) => EqToPercent(x)
    case EffectKnob(Mid) => EqToPercent(x)
    case EffectKnob(High) => EqToPercent(x)
    case _ => x * 100.0
  }

  /** The values a knob can write: a volume or a fraction in [0, 1], a
      decay in [0, 10] seconds, a gain in [-12, 12] decibels. */
  predicate KnobDomain(k: Knob, x: real)
  {
    match k
    case EffectKnob(Decay) => 0.0 <= x <= 10.0
    case EffectKnob(Low) => -12.0 <= x <= 12.0
    case EffectKnob(Mid) => -12.0 <= x <= 12.0
    case EffectKnob(High) => -12.0 <= x <= 12.0
    case _ => 0.0 <= x <= 1.0
  }

  /** The value a knob writes for a position; every position in [0, 100]
      writes a value in the knob's domain, and showing it gives the
      position back. */
  function KnobWrite(k: Knob, v: real): (x: real)
    ensures 0.0 <= v <= 100.0 <==> KnobDomain(k, x)
    ensures KnobDisplay(k, x) == v
  {
    match k
    case EffectKnob(Decay) => v / 10.0
    case EffectKnob(Low) => PercentToEq(v)
    case EffectKnob(Mid) => PercentToEq(v)
    case EffectKnob(High) => PercentToEq(v)
    case _ => v / 100.0
  }

  /** Showing a value and writing the shown position gives the value back. */
  lemma KnobDisplayThenWrite(k: Knob, x: real)
    ensures KnobWrite(k, KnobDisplay(k, x)) == x
  {
    if k.EffectKnob? && StageOf(k.param) == Eq {
      EqMapsInverse(x, 0.0);
    }
  }

  /** A wheel step never takes a knob out of its domain. */
  lemma WheelKeepsKnobInDomain(k: Knob, x: real, deltaY: real)
    ensures KnobDomain(k, KnobWrite(k, WheelStep(KnobDisplay(k, x), true, deltaY).value))
  {
  }

  /** The knobs reach values the effects panel's sliders cannot give: a
      feedback of 1 (the panel stops at 0.99), and a decay or a delay time
      of 0 (the panel starts at 0.1 and at 0.01). */
  lemma KnobsReachBeyondPanel()
    ensures KnobWrite(EffectKnob(Feedback), 100.0) == 1.0 && !InPanelDomain(Feedback, 1.0)
    ensures KnobWrite(EffectKnob(Decay), 0.0) == 0.0 && !InPanelDomain(Decay, 0.0)
    ensures KnobWrite(EffectKnob(Time), 0.0) == 0.0 && !InPanelDomain(Time, 0.0)
  {
  }

  // ---------------------------------------------------------------------
  // The settings menu's edits

  /** The track the settings menu edits: only with a selection, the first
      track with the selected id. */
  function SettingsTrack(tracks: seq<Track>, sel: Option<string>): (r: Option<Track>)
    ensures r.None? <==> !HasSelection(sel) || forall i :: 0 <= i < |tracks| ==> tracks[i].id != sel.value
    ensures r.Some? ==> r.value.id == sel.value && exists i :: FirstWithId(tracks, sel.value, i) && tracks[i] == r.value
  {
    if HasSelection(sel) then FindById(tracks, sel.value) else None
  }

  /** A stage switch: the flag of that stage becomes `checked` and nothing
      else in the track's effects changes. */
  function SettingsSwitch(tracks: seq<Track>, sel: Option<string>, stage: Stage, checked: bool): (u: Option<EffectsUpdate>)
    ensures u.None? <==> SettingsTrack(tracks, sel).None?
    ensures u.Some? ==>
      var e := SettingsTrack(tracks, sel).value.effects;
      && u.value.id == sel.value
      && Enabled(u.value.effects, stage) == checked
      && (forall s: Stage :: s != stage ==> Enabled(u.value.effects, s) == Enabled(e, s))
      && (forall p: Param :: ParamValue(u.value.effects, p) == ParamValue(e, p))
  {
    match SettingsTrack(tracks, sel)
    case None => None
    case Some(t) => Some(EffectsUpdate(sel.value, WithEnabled(t.effects, stage, checked)))
  }

  /** An effect knob moved to `position`: that parameter gets the knob's
      written value and nothing else in the track's effects changes. */
  function SettingsKnob(tracks: seq<Track>, sel: Option<string>, p: Param, position: real): (u: Option<EffectsUpdate>)
    ensures u.None? <==> SettingsTrack(tracks, sel).None?
    ensures u.Some? ==>
      var e := SettingsTrack(tracks, sel).value.effects;
      && u.value.id == sel.value
      && ParamValue(u.value.effects, p) == KnobWrite(EffectKnob(p), position)
      && (forall q: Param :: q != p ==> ParamValue(u.value.effects, q) == ParamValue(e, q))
      && (forall s: Stage :: Enabled(u.value.effects, s) == Enabled(e, s))
  {
    match SettingsTrack(tracks, sel)
    case None => None
    case Some(t) => Some(EffectsUpdate(sel.value, WithParam(t.effects, StageOf(p), p, KnobWrite(EffectKnob(p), position))))
  }

  /** An effect knob is drawn only for a found settings track, and only
      while the parameter's stage is enabled on it. */
  function KnobShown(tracks: seq<Track>, sel: Option<string>, p: Param): (b: bool)
    ensures b <==> SettingsTrack(tracks, sel).Some? && Enabled(SettingsTrack(tracks, sel).value.effects, StageOf(p))
  {
    match SettingsTrack(tracks, sel)
    case None => false
    case Some(t) => Enabled(t.effects, StageOf(p))
  }

  /** A knob is drawn exactly when turning it sends an update that keeps its
      stage enabled, and a drawn knob changes only parameters of enabled
      stages. */
  lemma KnobShownIffEdits(tracks: seq<Track>, sel: Option<string>, p: Param, position: real)
    ensures var u := SettingsKnob(tracks, sel, p, position);
      KnobShown(tracks, sel, p) <==> u.Some? && Enabled(u.value.effects, StageOf(p))
    ensures var u := SettingsKnob(tracks, sel, p, position);
      KnobShown(tracks, sel, p) ==>
        var e := SettingsTrack(tracks, sel).value.effects;
        forall q: Param :: ParamValue(u.value.effects, q) != ParamValue(e, q) ==> Enabled(e, StageOf(q))
  {
  }

  /** The track-volume knob: `updateTrackVolume(selectedTrackId, value / 100)`. */
  function SettingsVolume(tracks: seq<Track>, sel: Option<string>, position: real): (u: Option<(string, real)>)
    ensures u.None? <==> SettingsTrack(tracks, sel).None?
    ensures u.Some? ==> u.value.0 == sel.value && u.value.1 * 100.0 == position
    ensures u.Some? && 0.0 <= position <= 100.0 ==> 0.0 <= u.value.1 <= 1.0
  {
    match SettingsTrack(tracks, sel)
    case None => None
    case Some(_) => Some((sel.value, KnobWrite(TrackVolumeKnob, position)))
  }

  /** A knob left at the position it shows writes back the same effects. */
  lemma KnobAtShownPositionChangesNothing(tracks: seq<Track>, sel: Option<string>, p: Param)
    requires SettingsTrack(tracks, sel).Some?
    ensures var e := SettingsTrack(tracks, sel).value.effects;
      SettingsKnob(tracks, sel, p, KnobDisplay(EffectKnob(p), ParamValue(e, p))).value.effects == e
  {
    var e := SettingsTrack(tracks, sel).value.effects;
    KnobDisplayThenWrite(EffectKnob(p), ParamValue(e, p));
    WithParamCurrentValue(e, p);
  }

  // ---------------------------------------------------------------------
  // The workspace as an object with its own mute state

  class WorkspaceView {
    var isMuted: bool
    var previousVolume: real

    ghost function Mute(): MuteState
      reads this
    {
      MuteState(isMuted, previousVolume)
    }

    constructor ()
      ensures Mute() == InitialMute
    {
      isMuted, previousVolume := false, 1.0;
    }

    /** `handleMuteToggle` against the session: only the master volume of
        the session changes, to the value MuteToggleStep gives. */
    method HandleMuteToggle(session: Session)
      requires session.Valid()
      modifies this, session
      ensures session.Valid()
      ensures (Mute(), session.masterVolume) == MuteToggleStep(old(Mute()), old(session.masterVolume))
      ensures session.State() == old(session.State()).(masterVolume := session.masterVolume)
    {
      if isMuted {
        session.SetMasterVolume(previousVolume);
        isMuted := false;
      } else {
        previousVolume := session.masterVolume;
        session.SetMasterVolume(0.0);
        isMuted := true;
      }
    }

    /** The master-volume knob: `setMasterVolume(value / 100)`. */
    method HandleMasterKnob(session: Session, position: real)
      requires session.Valid()
      modifies session
      ensures session.Valid()
      ensures session.State() == old(session.State()).(masterVolume := KnobWrite(MasterVolumeKnob, position))
    {
      session.SetMasterVolume(position / 100.0);
    }
  }
}
