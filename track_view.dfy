/** One track's controls: the derived flags, the colour it is drawn in, the
    record and play toggles, the mute button and the single-stage effect
    edits it hands to the session. */
module TrackView {
  import opened AudioTypes
  import opened EffectEdits
  import opened AudioSession

  /** `selectedTrackId === track.id` */
  predicate IsSelected(sel: Option<string>, track: Track)
  {
    sel == Some(track.id)
  }

  /** `isActiveTrack`: this track is the recording one. */
  function IsActiveTrack(isRecording: bool, sel: Option<string>, track: Track): (b: bool)
    ensures b <==> isRecording && sel == Some(track.id)
  {
    isRecording && IsSelected(sel, track)
  }

  /** `hasAudio`: the track has a buffer. */
  function HasAudio(track: Track): (b: bool)
    ensures b <==> track.buffer != None
  {
    track.buffer.Some?
  }

  // ---------------------------------------------------------------------
  // Colours

  datatype TrackColour = TrackColour(primary: string, secondary: string, glow: string)

  /** The eight colours tracks cycle through. */
  const Palette: seq<TrackColour> := [
    TrackColour("#00D4FF", "#0099CC", "rgba(0, 212, 255, 0.3)"),
    TrackColour("#FF6B6B", "#CC5555", "rgba(255, 107, 107, 0.3)"),
    TrackColour("#4ECDC4", "#3EA39C", "rgba(78, 205, 196, 0.3)"),
    TrackColour("#45B7D1", "#3692A7", "rgba(69, 183, 209, 0.3)"),
    TrackColour("#96CEB4", "#78A590", "rgba(150, 206, 180, 0.3)"),
    TrackColour("#FFEAA7", "#CCBB85", "rgba(255, 234, 167, 0.3)"),
    TrackColour("#DDA0DD", "#B180B1", "rgba(221, 160, 221, 0.3)"),
    TrackColour("#98D8C8", "#7AAD9F", "rgba(152, 216, 200, 0.3)")
  ]

  /** `colors[index % colors.length]`: always an entry of the palette, and
      the first eight tracks take the entries in order. */
  function ColourOf(index: nat): (c: TrackColour)
    ensures c in Palette
    ensures index < |Palette| ==> c == Palette[index]
  {
    Palette[index % |Palette|]
  }

  /** No two palette entries share a primary colour. */
  lemma PalettePrimariesDistinct()
    ensures forall a, b :: 0 <= a < b < |Palette| ==> Palette[a].primary != Palette[b].primary
  {
    var ps := seq(|Palette|, k requires 0 <= k < |Palette| => Palette[k].primary);
    assert ps == ["#00D4FF", "#FF6B6B", "#4ECDC4", "#45B7D1", "#96CEB4", "#FFEAA7", "#DDA0DD", "#98D8C8"];
    forall a, b | 0 <= a < b < |Palette| ensures Palette[a].primary != Palette[b].primary {
      assert ps[a] == Palette[a].primary && ps[b] == Palette[b].primary;
      assert ps[a][1..3] != ps[b][1..3] || ps[a][3..] != ps[b][3..];
    }
  }

  /** The colour repeats every eight tracks, and any eight consecutive
      tracks are drawn in eight different primary colours. */
  lemma ColoursCycleEveryEight(i: nat, j: nat)
    ensures ColourOf(i + 8) == ColourOf(i)
    ensures i < j < i + 8 ==> ColourOf(i).primary != ColourOf(j).primary
  {
    assert (i + 8) % 8 == i % 8;
    if i < j < i + 8 {
      assert i % 8 != j % 8;
      PalettePrimariesDistinct();
      if i % 8 < j % 8 {
        assert Palette[i % 8].primary != Palette[j % 8].primary;
      } else {
        assert Palette[j % 8].primary != Palette[i % 8].primary;
      }
    }
  }

  // ---------------------------------------------------------------------
  // The mute button and the effect edits

  /** `handleVolumeChange([v])`: the slider's percentage becomes a volume. */
  function VolumeFromPercent(v: real): (volume: real)
    ensures volume * 100.0 == v
  {
    v / 100.0
  }

  /** The mute button: `handleVolumeChange([track.volume === 0 ? 80 : 0])`.
      A silent track goes to 0.8, any other to 0. */
  function MuteButtonVolume(volume: real): (r: real)
    ensures r == 0.0 || r == 0.8
    ensures r == 0.0 <==> volume != 0.0
  {
    VolumeFromPercent(if volume == 0.0 then 80.0 else 0.0)
  }

  /** Two presses restore the volume exactly when it was 0 or 0.8. */
  lemma MuteButtonTwice(volume: real)
    ensures MuteButtonVolume(MuteButtonVolume(volume)) == volume <==> volume == 0.0 || volume == 0.8
  {
  }

  /** The mute button as a session change: every track with this track's
      id gets MuteButtonVolume of this track's volume. */
  function MuteButtonStep(s: SessionState, track: Track): (r: SessionState)
    ensures r.(tracks := s.tracks) == s && |r.tracks| == |s.tracks|
    ensures forall i :: 0 <= i < |s.tracks| && s.tracks[i] == track ==>
      r.tracks[i] == track.(volume := if track.volume == 0.0 then 0.8 else 0.0)
    ensures forall i :: 0 <= i < |s.tracks| && s.tracks[i].id == track.id ==>
      r.tracks[i] == s.tracks[i].(volume := MuteButtonVolume(track.volume))
    ensures forall i :: 0 <= i < |s.tracks| && s.tracks[i].id != track.id ==> r.tracks[i] == s.tracks[i]
  {
    UpdateVolumeStep(s, track.id, MuteButtonVolume(track.volume))
  }

  /** `handleEffectToggle(stage, enabled)`: the update for this track that
      changes only the `enabled` flag of that stage. */
  function EffectToggleUpdate(track: Track, stage: Stage, enabled: bool): (u: EffectsUpdate)
    ensures u.id == track.id
    ensures Enabled(u.effects, stage) == enabled
    ensures forall s: Stage :: s != stage ==> Enabled(u.effects, s) == Enabled(track.effects, s)
    ensures forall p: Param :: ParamValue(u.effects, p) == ParamValue(track.effects, p)
  {
    EffectsUpdate(track.id, WithEnabled(track.effects, stage, enabled))
  }

  /** `handleEffectParamChange(stage, param, value)`: the update for this
      track that changes only that parameter, and nothing when the parameter
      is not a field of the stage. */
  function EffectParamUpdate(track: Track, stage: Stage, param: Param, value: real): (u: EffectsUpdate)
    ensures u.id == track.id
    ensures forall s: Stage :: Enabled(u.effects, s) == Enabled(track.effects, s)
    ensures StageOf(param) == stage ==> ParamValue(u.effects, param) == value
    ensures forall p: Param :: p != param ==> ParamValue(u.effects, p) == ParamValue(track.effects, p)
    ensures StageOf(param) != stage ==> u.effects == track.effects
  {
    EffectsUpdate(track.id, WithParam(track.effects, stage, param, value))
  }

  /** Sending an edit to the session reaches this track's effects and no
      track with another id. */
  lemma EffectUpdateReachesOnlyThisTrack(s: SessionState, track: Track, stage: Stage, enabled: bool)
    ensures var u := EffectToggleUpdate(track, stage, enabled);
      var r := UpdateEffectsStep(s, u.id, u.effects);
      forall i :: 0 <= i < |s.tracks| ==>
        (s.tracks[i] == track ==> Enabled(r.tracks[i].effects, stage) == enabled) &&
        (s.tracks[i].id != track.id ==> r.tracks[i] == s.tracks[i])
  {
  }

  // ---------------------------------------------------------------------
  // The record toggle

  /** `handleRecordToggle` as the session sees it, with the microphone
      answer `deviceGranted`; the second component is the track the pending
      buffer is for. When this track is the active one it stops recording.
      Otherwise it selects this track and calls `startRecording`; that
      callback belongs to the render before the click, so it checks and
      records for the selection from before the click. */
  function RecordToggleStep(s: SessionState, track: Track, deviceGranted: bool): (r: (SessionState, Option<string>))
    ensures IsActiveTrack(s.isRecording, s.selectedTrackId, track) ==>
      r.0 == StopRecordingStep(s) && r.1 == None
    ensures !IsActiveTrack(s.isRecording, s.selectedTrackId, track) ==>
      && r.0.selectedTrackId == Some(track.id)
      && r.0.(selectedTrackId := s.selectedTrackId) == StartRecordingStep(s, deviceGranted)
      && r.1 == RecordingTarget(s, deviceGranted)
  {
    if IsActiveTrack(s.isRecording, s.selectedTrackId, track) then
      (StopRecordingStep(s), None)
    else
      (StartRecordingStep(s, deviceGranted).(selectedTrackId := Some(track.id)),
       RecordingTarget(s, deviceGranted))
  }

  /** Pressing record on the selected track with the microphone granted
      starts recording into this track, and pressing it again stops. */
  lemma RecordToggleOnSelectedTrack(s: SessionState, track: Track)
    requires s.selectedTrackId == Some(track.id) && track.id != "" && !s.isRecording
    ensures var (r, target) := RecordToggleStep(s, track, true);
      && r.isRecording && r.isPlaying && target == Some(track.id)
      && IsActiveTrack(r.isRecording, r.selectedTrackId, track)
      && RecordToggleStep(r, track, true) == (StopRecordingStep(r), None)
  {
  }

  /** The selection the record toggle makes arrives too late for the
      recording it starts. With nothing selected the press only selects the
      track; with another track selected, recording starts, the track shows
      as active, and the buffer goes to the track that was selected before. */
  lemma RecordToggleUsesPreviousSelection(s: SessionState, track: Track, other: string)
    ensures s.selectedTrackId == None ==>
      RecordToggleStep(s, track, true) == (s.(selectedTrackId := Some(track.id)), None)
    ensures s.selectedTrackId == Some(other) && other != "" && other != track.id ==>
      var (r, target) := RecordToggleStep(s, track, true);
      && IsActiveTrack(r.isRecording, r.selectedTrackId, track)
      && target == Some(other)
  {
  }

  // ---------------------------------------------------------------------
  // The view as an object with its own `isTrackPlaying` state

  class TrackView {
    var isTrackPlaying: bool

    constructor ()
      ensures !isTrackPlaying
    {
      isTrackPlaying := false;
    }

    /** `handlePlayToggle`: without audio nothing happens; with audio the
        local play flag flips and the track becomes the selection. */
    method HandlePlayToggle(session: Session, track: Track)
      requires session.Valid()
      modifies this, session
      ensures session.Valid()
      ensures HasAudio(track) ==>
        isTrackPlaying == !old(isTrackPlaying) &&
        session.State() == old(session.State()).(selectedTrackId := Some(track.id))
      ensures !HasAudio(track) ==>
        isTrackPlaying == old(isTrackPlaying) && session.State() == old(session.State())
    {
      if track.buffer.Some? {
        isTrackPlaying := !isTrackPlaying;
        session.SetSelectedTrackId(track.id);
      }
    }

    /** `handleRecordToggle` against the session. `startRecording` runs on
        the selection from before the click, so it is called first here and
        the selection is set after it; the two touch different state. */
    method HandleRecordToggle(session: Session, track: Track, deviceGranted: bool)
      returns (attachTo: Option<string>)
      requires session.Valid()
      modifies session
      ensures session.Valid()
      ensures (session.State(), attachTo) == RecordToggleStep(old(session.State()), track, deviceGranted)
    {
      if session.isRecording && session.selectedTrackId == Some(track.id) {
        session.StopRecording();
        attachTo := None;
      } else {
        attachTo := session.StartRecording(deviceGranted);
        session.SetSelectedTrackId(track.id);
      }
    }
  }
}
