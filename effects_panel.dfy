/** The effects panel: the effects of the selected track (or the default
    settings when no track matches), the guarded edits it sends to the
    session, and the ranges and scales of its sliders. */
module EffectsPanel {
  import opened AudioTypes
  import opened EffectEdits
  import opened TrackEdits
  import opened AudioSession

  /** The effects the panel shows when no track matches the selection. */
  function PanelFallback(): (e: TrackEffects)
    ensures forall s: Stage :: !Enabled(e, s)
  {
    TrackEffects(
      ReverbFx(false, 0.3, 1.5),
      DelayFx(false, 0.3, 0.4),
      EqFx(false, 0.0, 0.0, 0.0),
      DistortionFx(false, 0.2))
  }

  /** The fallback is exactly what a new track starts with. */
  lemma FallbackIsNewTrackEffects()
    ensures PanelFallback() == AddTrackEffects()
  {
  }

  /** `tracks.find(track => track.id === selectedTrackId)`; a null
      selection matches no track. */
  function SelectedTrack(tracks: seq<Track>, sel: Option<string>): (r: Option<Track>)
    ensures sel.None? ==> r.None?
    ensures sel.Some? ==> r == FindById(tracks, sel.value)
  {
    if sel.None? then None else FindById(tracks, sel.value)
  }

  /** `selectedTrack?.effects || defaults` */
  function PanelEffects(tracks: seq<Track>, sel: Option<string>): (e: TrackEffects)
    ensures SelectedTrack(tracks, sel).Some? ==> e == SelectedTrack(tracks, sel).value.effects
    ensures SelectedTrack(tracks, sel).None? ==> e == PanelFallback()
  {
    match SelectedTrack(tracks, sel)
    case Some(t) => t.effects
    case None => PanelFallback()
  }

  /** The panel shows the effects of the first track with the selected
      id, and the defaults when none has it. */
  lemma PanelShowsSelectedTrack(tracks: seq<Track>, id: string)
    ensures (exists i :: FirstWithId(tracks, id, i)) ==>
      exists i :: FirstWithId(tracks, id, i) && PanelEffects(tracks, Some(id)) == tracks[i].effects
    ensures (forall i :: 0 <= i < |tracks| ==> tracks[i].id != id) ==>
      PanelEffects(tracks, Some(id)) == PanelFallback()
  {
    if exists i :: FirstWithId(tracks, id, i) {
      var i :| FirstWithId(tracks, id, i);
      assert tracks[i].id == id;
    }
  }

  /** `handleEffectToggle`: nothing without a selection; otherwise one
      update for the selected id that changes only the stage's flag of the
      effects shown. */
  function PanelToggle(tracks: seq<Track>, sel: Option<string>, stage: Stage, enabled: bool): (u: Option<EffectsUpdate>)
    ensures u.None? <==> !HasSelection(sel)
    ensures u.Some? ==>
      && u.value.id == sel.value
      && Enabled(u.value.effects, stage) == enabled
      && (forall s: Stage :: s != stage ==> Enabled(u.value.effects, s) == Enabled(PanelEffects(tracks, sel), s))
      && (forall p: Param :: ParamValue(u.value.effects, p) == ParamValue(PanelEffects(tracks, sel), p))
  {
    if !HasSelection(sel) then None
    else Some(EffectsUpdate(sel.value, WithEnabled(PanelEffects(tracks, sel), stage, enabled)))
  }

  /** `handleEffectParamChange`: nothing without a selection; otherwise one
      update for the selected id that changes only that parameter of the
      effects shown. */
  function PanelParamChange(tracks: seq<Track>, sel: Option<string>, stage: Stage, param: Param, value: real): (u: Option<EffectsUpdate>)
    ensures u.None? <==> !HasSelection(sel)
    ensures u.Some? ==>
      && u.value.id == sel.value
      && (forall s: Stage :: Enabled(u.value.effects, s) == Enabled(PanelEffects(tracks, sel), s))
      && (StageOf(param) == stage ==> ParamValue(u.value.effects, param) == value)
      && (forall p: Param :: p != param ==> ParamValue(u.value.effects, p) == ParamValue(PanelEffects(tracks, sel), p))
  {
    if !HasSelection(sel) then None
    else Some(EffectsUpdate(sel.value, WithParam(PanelEffects(tracks, sel), stage, param, value)))
  }

  /** A parameter slider is disabled with nothing selected or while the
      stage it belongs to is disabled in the effects shown. */
  function ParamSliderDisabled(tracks: seq<Track>, sel: Option<string>, p: Param): (d: bool)
    ensures !d <==> HasSelection(sel) && Enabled(PanelEffects(tracks, sel), StageOf(p))
  {
    !HasSelection(sel) || !Enabled(PanelEffects(tracks, sel), StageOf(p))
  }

  /** A parameter slider is enabled exactly when moving it sends an update
      that keeps its stage enabled. An enabled slider implies that the
      selected track exists, and its update changes only parameters of
      enabled stages. */
  lemma ParamSliderEnabledIffEdits(tracks: seq<Track>, sel: Option<string>, p: Param, value: real)
    ensures var u := PanelParamChange(tracks, sel, StageOf(p), p, value);
      !ParamSliderDisabled(tracks, sel, p) <==> u.Some? && Enabled(u.value.effects, StageOf(p))
    ensures !ParamSliderDisabled(tracks, sel, p) ==> SelectedTrack(tracks, sel).Some?
    ensures var u := PanelParamChange(tracks, sel, StageOf(p), p, value);
      var e := PanelEffects(tracks, sel);
      !ParamSliderDisabled(tracks, sel, p) ==>
        forall q: Param :: ParamValue(u.value.effects, q) != ParamValue(e, q) ==> Enabled(e, StageOf(q))
  {
  }

  /** The session after the panel's update is sent (if there is one). */
  function Send(s: SessionState, u: Option<EffectsUpdate>): (r: SessionState)
    ensures u.None? ==> r == s
    ensures u.Some? ==> r == UpdateEffectsStep(s, u.value.id, u.value.effects)
  {
    match u
    case None => s
    case Some(v) => UpdateEffectsStep(s, v.id, v.effects)
  }

  /** A toggle from the panel changes the selected track's effects in that
      stage's flag only: every other track and every other field stays. */
  lemma PanelToggleChangesOnlySelectedFlag(s: SessionState, stage: Stage, enabled: bool, i: int)
    requires HasSelection(s.selectedTrackId) && FirstWithId(s.tracks, s.selectedTrackId.value, i)
    ensures var r := Send(s, PanelToggle(s.tracks, s.selectedTrackId, stage, enabled));
      && |r.tracks| == |s.tracks|
      && r.tracks[i].effects == WithEnabled(s.tracks[i].effects, stage, enabled)
      && r.tracks[i].(effects := s.tracks[i].effects) == s.tracks[i]
      && (forall j :: 0 <= j < |s.tracks| && s.tracks[j].id != s.selectedTrackId.value ==> r.tracks[j] == s.tracks[j])
  {
    var id := s.selectedTrackId.value;
    var f := FindById(s.tracks, id);
    var k :| FirstWithId(s.tracks, id, k) && s.tracks[k] == f.value;
    assert k == i;
  }

  // ---------------------------------------------------------------------
  // Sliders

  /** The slider of each parameter: the positions between its bounds are
      exactly those shown for the values in the parameter's domain. */
  function PanelSlider(p: Param): (r: SliderRange)
    ensures forall x: real :: InPanelDomain(p, x) <==> r.min as real <= PanelDisplay(p, x) <= r.max as real
  {
    match p
    case Wet => SliderRange(0, 100)
    case Decay => SliderRange(1, 100)
    case Time => SliderRange(1, 100)
    case Feedback => SliderRange(0, 99)
    case Low | Mid | High => SliderRange(-12, 12)
    case Amount => SliderRange(0, 100)
  }

  /** How many slider units one unit of the parameter is: decay is shown in
      tenths, the EQ gains as they are, the rest in hundredths. */
  function PanelScale(p: Param): (k: real)
    ensures k > 0.0
  {
    match p
    case Decay => 10.0
    case Low | Mid | High => 1.0
    case _ => 100.0
  }

  /** The slider position shown for a parameter value (`value={[x * k]}`). */
  function PanelDisplay(p: Param, x: real): (v: real)
    ensures v / PanelScale(p) == x
  {
    x * PanelScale(p)
  }

  /** The value written for a slider position (`value[0] / k`). */
  function PanelWrite(p: Param, v: real): (x: real)
    ensures x * PanelScale(p) == v
  {
    v / PanelScale(p)
  }

  /** The values the panel's sliders can give each parameter. */
  predicate InPanelDomain(p: Param, x: real)
  {
    match p
    case Wet => 0.0 <= x <= 1.0
    case Decay => 0.1 <= x <= 10.0
    case Time => 0.01 <= x <= 1.0
    case Feedback => 0.0 <= x <= 0.99
    case Low | Mid | High => -12.0 <= x <= 12.0
    case Amount => 0.0 <= x <= 1.0
  }

  /** Every position a slider emits writes a value in the parameter's
      domain; the EQ sliders write whole decibels. */
  lemma SliderWritesInDomain(p: Param, v: int)
    requires Emits(PanelSlider(p), v)
    ensures InPanelDomain(p, PanelWrite(p, v as real))
    ensures StageOf(p) == Eq ==> PanelWrite(p, v as real) == v as real
  {
  }

  /** Showing and then writing gives the value back, and writing and then
      showing gives the position back. */
  lemma PanelDisplayWriteInverse(p: Param, x: real, v: real)
    ensures PanelWrite(p, PanelDisplay(p, x)) == x
    ensures PanelDisplay(p, PanelWrite(p, v)) == v
  {
  }
}
