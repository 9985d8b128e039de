# loop-craft session controller and control rules, in Dafny

loop-craft is a browser multi-track looper. Its audio provider holds the
session: the track list, the selected track, the master volume, the tempo,
the transport flags (playing, recording, metronome) and a linear undo/redo
history of track-list snapshots. The views around it read that state and
send it single-field edits: the transport bar (with a four-beat count-in
before recording), each track's record/play/mute buttons, the effects panel
and the workspace's settings knobs. There is no audio engine behind any of
it: the only recorded "buffer" is a 1000-byte placeholder.

The project models that controller and those rules:

- `audio_types.dfy` (module `AudioTypes`): the track and effect records, the
  way the views treat `selectedTrackId` as truthy or falsy,
  slider ranges, and the decimal rendering used in track names.
- `effect_edits.dfy` (`EffectEdits`): the object-spread edits that replace one
  stage's `enabled` flag or one parameter. Each is described by the flags
  and parameters it changes and the ones it keeps.
- `track_edits.dfy` (`TrackEdits`): the list updaters the provider passes to
  `setTracks`: filtering by id, mapping an edit over matching ids, and
  finding by id.
- `audio_session.dfy` (`AudioSession`): every provider action as a pure step
  over a `SessionState` value. The contract of each step says what changes
  and that nothing else changes. The class `Session` has the provider's state
  variables as fields. Each of its methods is proved to produce exactly a
  step function of the old state, or, for the plain setters
  `setSelectedTrackId` and `setMasterVolume`, a one-field update of it.
  Its invariant `Valid()` holds the history invariant and keeps the tempo
  within the tempo slider's range. The history-saving effect, which React runs after each
  change of the track list, is an explicit step: `SaveStep` /
  `Session.SaveSnapshot`.
- `transport_controls.dfy` (`TransportControls`): the count-in countdown (as
  pure functions and as the class `CountIn`), the enable rules of the
  transport buttons, and the tempo slider.
- `track_view.dfy` (`TrackView`): the derived flags of a track view, its
  colour, the mute button, the effect edits it sends, and the record and
  play toggles (the class `TrackView` holds `isTrackPlaying`).
- `effects_panel.dfy` (`EffectsPanel`): the default-effects fallback, the
  guarded edits, and the panel sliders' bounds and scales.
- `workspace.dfy` (`Workspace`): the master mute toggle (the class
  `WorkspaceView`), the knob wheel step and the maps between knob position
  and value, and the settings menu's edits.

Every source cell below is relative to the repository root. Volumes, effect
parameters and knob positions are exact `real`s, so the linear maps are
stated as exact identities. These are not floating-point claims.

## Model

| member | source | states |
|---|---|---|
| AudioTypes.HasSelection | features/audio/context/AudioContext.tsx:166 | the `!selectedTrackId` guards treat exactly null and the empty string as no selection |
| AudioTypes.DecimalString | features/audio/context/AudioContext.tsx:96 | the number inside a track name is a non-empty run of decimal digits, with no leading zero, one digit exactly below 10 |
| AudioTypes.DecimalStringValue | features/audio/context/AudioContext.tsx:96 | the digits rendered denote the number rendered |
| EffectEdits.Extensionality | features/audio/types.ts:1-23 | an effects record is determined by its four `enabled` flags and its eight numeric parameters |
| EffectEdits.WithEnabled | features/audio/components/Track.tsx:172-180 | the spread toggle sets only the named stage's flag; every other flag and every parameter is unchanged |
| EffectEdits.WithParam | features/audio/components/Track.tsx:182-190 | the spread edit sets only the named parameter, and only if it belongs to the named stage; all flags and other parameters are unchanged |
| EffectEdits.WithParamCurrentValue | features/audio/components/Track.tsx:182-190 | writing back a parameter's current value gives the same record |
| EffectEdits.WithEnabledCurrentValue | features/audio/components/Track.tsx:172-180 | re-setting a stage's current flag gives the same record |
| EffectEdits.WithEnabledUndo | features/audio/components/Track.tsx:172-180 | a toggle followed by restoring the old flag gives back the original record |
| EffectEdits.WithParamUndo | features/audio/components/Track.tsx:182-190 | a parameter edit followed by writing back the old value gives back the original record |
| TrackEdits.Edited | features/audio/context/AudioContext.tsx:133 | `{ ...track, field }` replaces that one field and keeps id, name and the other fields |
| TrackEdits.WithoutId | features/audio/context/AudioContext.tsx:118 | the filtered list holds exactly the tracks whose id differs, and is no longer than the input |
| TrackEdits.WithoutIdConcat | features/audio/context/AudioContext.tsx:118 | filtering distributes over concatenation, so the kept tracks stay in order |
| TrackEdits.WithoutIdAbsent | features/audio/context/AudioContext.tsx:118 | deleting an id that no track has returns the list unchanged |
| TrackEdits.WithoutIdIdempotent | features/audio/context/AudioContext.tsx:118 | deleting twice is the same as deleting once |
| TrackEdits.UpdateWhere | features/audio/context/AudioContext.tsx:133 | the mapped list has the same length, and a position is edited exactly when its id matches |
| TrackEdits.UpdateWhereIdempotent | features/audio/context/AudioContext.tsx:137 | applying the same update twice is the same as applying it once |
| TrackEdits.FindById | features/audio/components/EffectsPanel.tsx:11 | `find` returns None exactly when no track has the id, and otherwise the first track that has it |
| AudioSession.InitialIsValid | features/audio/context/AudioContext.tsx:43-53 | the initial state (index -1, empty history) satisfies the history invariant, its tempo 120 is within the tempo slider's range, and neither undo nor redo is possible |
| AudioSession.CanUndo | features/audio/context/AudioContext.tsx:278 | in a valid state, `canUndo` holds exactly when an entry exists before the current one |
| AudioSession.CanRedo | features/audio/context/AudioContext.tsx:279 | in a valid state, `canRedo` holds exactly when an entry exists after the current one |
| AudioSession.AddTrackStep | features/audio/context/AudioContext.tsx:93-108 | exactly one track is appended at the end. It has the fresh id, no buffer, volume 0.8, the listed defaults with every stage disabled, and the name "Track n", where n is the new number of tracks. It becomes the selection; nothing else changes |
| AudioSession.DeleteTrackStep | features/audio/context/AudioContext.tsx:116-122 | every track with the id is removed and the rest keep their order; the selection is cleared only if it was that id; nothing else changes |
| AudioSession.UpdateVolumeStep | features/audio/context/AudioContext.tsx:132-134 | only the volume of the tracks with the id changes; length, order, other tracks, other fields and the rest of the state stay |
| AudioSession.UpdateEffectsStep | features/audio/context/AudioContext.tsx:136-138 | only the effects of the tracks with the id change; everything else stays |
| AudioSession.AttachBufferStep | features/audio/context/AudioContext.tsx:195-204 | the simulated buffer goes to the tracks with the id and nowhere else; nothing else changes |
| AudioSession.TogglePlaybackStep | features/audio/context/AudioContext.tsx:145 | `isPlaying` is negated and nothing else changes |
| AudioSession.StopPlaybackStep | features/audio/context/AudioContext.tsx:155-157 | both `isPlaying` and `isRecording` become false and nothing else changes |
| AudioSession.StopRecordingStep | features/audio/context/AudioContext.tsx:216-217 | only `isRecording` is cleared; playback is untouched |
| AudioSession.SetTempoStep | features/audio/components/TransportControls.tsx:225-231 | the tempo becomes the slider's value, so it stays in [40, 240]; nothing else changes |
| AudioSession.ToggleMetronomeStep | features/audio/context/AudioContext.tsx:226 | `metronomeEnabled` is negated and nothing else changes |
| AudioSession.StartRecordingStep | features/audio/context/AudioContext.tsx:165-185 | with no selection, or with the microphone refused, nothing changes; otherwise `isRecording` and `isPlaying` are set and nothing else changes |
| AudioSession.RecordingTarget | features/audio/context/AudioContext.tsx:195-204 | a buffer is pending exactly when recording started, and it is for the selection at the moment of the call |
| AudioSession.RecordingAttachesToSelectedTrack | features/audio/context/AudioContext.tsx:165-204 | after a granted start and the timer step, the flags are set, and a track has a buffer exactly when it is the selected one or already had one |
| AudioSession.SaveStep | features/audio/context/AudioContext.tsx:83-91 | the effect saves only for a non-empty list at the last index. It then appends the list and advances the index. Otherwise nothing changes. It keeps the history invariant and never drops an entry |
| AudioSession.UndoStep | features/audio/context/AudioContext.tsx:234-244 | a no-op exactly when the index is not above 0; otherwise the index drops by one and the tracks become that entry. Only tracks and index change |
| AudioSession.RedoStep | features/audio/context/AudioContext.tsx:246-256 | a no-op exactly at the last entry; otherwise the index rises by one and the tracks become that entry. Only tracks and index change |
| AudioSession.EditAction | features/audio/context/AudioContext.tsx:83-91 | a track-list change followed by the save effect keeps the history invariant and leaves that list current |
| AudioSession.UndoAction | features/audio/context/AudioContext.tsx:234-244 | the save effect that follows an undo never records anything |
| AudioSession.RedoAction | features/audio/context/AudioContext.tsx:246-256 | a redo below the last entry records nothing. A redo that lands on the last entry is followed by a save that appends a copy of that entry |
| AudioSession.ApplyEdits | features/audio/context/AudioContext.tsx:83-91 | a sequence of saved changes keeps the history invariant |
| AudioSession.UndoTimes | features/audio/context/AudioContext.tsx:234-244 | repeated undos keep the history invariant |
| AudioSession.RedoTimes | features/audio/context/AudioContext.tsx:246-256 | repeated redos keep the history invariant |
| AudioSession.ApplyEditsRecords | features/audio/context/AudioContext.tsx:83-91 | at the last index, every non-empty change is appended in turn, and the index follows |
| AudioSession.UndoTimesWalksBack | features/audio/context/AudioContext.tsx:234-244 | n possible undos move the index back by n and load that entry; the history is untouched |
| AudioSession.RedoTimesWalksForward | features/audio/context/AudioContext.tsx:246-256 | n possible redos move the index forward by n and load that entry. Landing on the last entry appends one copy of it |
| AudioSession.UndoRedoRoundTrip | features/audio/context/AudioContext.tsx:234-256 | N recorded changes then N undos give back the starting track list and index. N redos then give back the last change, with one duplicate entry |
| AudioSession.UndoThenRedo | features/audio/context/AudioContext.tsx:234-256 | the raw undo then redo restores the state exactly. With the save effect this holds below the last entry; at the last entry the redo re-appends |
| AudioSession.EditAfterUndoIsNotRecorded | features/audio/context/AudioContext.tsx:83-91 | a change made after an undo leaves the history unchanged, and the next redo overwrites it with the old entry |
| AudioSession.MountRecordsFirstTrack | features/audio/context/AudioContext.tsx:63-64 | mounting adds "Track 1", and the save effect makes it the only history entry at index 0 |
| AudioSession.Session.constructor | features/audio/context/AudioContext.tsx:43-53 | the state variables start at their initial values |
| AudioSession.Session.AddTrack | features/audio/context/AudioContext.tsx:93-108 | the new state is AddTrackStep of the old |
| AudioSession.Session.DeleteTrack | features/audio/context/AudioContext.tsx:116-122 | the new state is DeleteTrackStep of the old |
| AudioSession.Session.SetSelectedTrackId | features/audio/context/AudioContext.tsx:46 | only the selection changes |
| AudioSession.Session.UpdateTrackVolume | features/audio/context/AudioContext.tsx:132-134 | the new state is UpdateVolumeStep of the old |
| AudioSession.Session.UpdateTrackEffects | features/audio/context/AudioContext.tsx:136-138 | the new state is UpdateEffectsStep of the old |
| AudioSession.Session.SetMasterVolume | features/audio/context/AudioContext.tsx:47 | only the master volume changes |
| AudioSession.Session.SetTempo | features/audio/components/TransportControls.tsx:225-231 | called with a value the slider emits, the new state is SetTempoStep of the old, and the invariant, including the tempo range, is kept |
| AudioSession.Session.TogglePlayback | features/audio/context/AudioContext.tsx:140-153 | the new state is TogglePlaybackStep of the old |
| AudioSession.Session.StopPlayback | features/audio/context/AudioContext.tsx:155-163 | the new state is StopPlaybackStep of the old |
| AudioSession.Session.StartRecording | features/audio/context/AudioContext.tsx:165-214 | the new state is StartRecordingStep of the old, and the returned id is RecordingTarget |
| AudioSession.Session.AttachSimulatedBuffer | features/audio/context/AudioContext.tsx:195-204 | the new state is AttachBufferStep of the old |
| AudioSession.Session.StopRecording | features/audio/context/AudioContext.tsx:216-223 | the new state is StopRecordingStep of the old |
| AudioSession.Session.ToggleMetronome | features/audio/context/AudioContext.tsx:225-232 | the new state is ToggleMetronomeStep of the old |
| AudioSession.Session.SaveSnapshot | features/audio/context/AudioContext.tsx:83-91 | the new state is SaveStep of the old, and the history invariant is kept |
| AudioSession.Session.Undo | features/audio/context/AudioContext.tsx:234-244 | the new state is UndoStep of the old |
| AudioSession.Session.Redo | features/audio/context/AudioContext.tsx:246-256 | the new state is RedoStep of the old |
| TransportControls.StartCountIn | features/audio/components/TransportControls.tsx:52-57 | with a selection the count-in starts at 4; without one nothing changes |
| TransportControls.Settle | features/audio/components/TransportControls.tsx:36-50 | the effect asks for recording exactly when counting in at a countdown of 0 or below; it then ends the count-in and clears the countdown, and otherwise changes nothing |
| TransportControls.Elapse | features/audio/components/TransportControls.tsx:37-43 | while counting in with a positive countdown, a beat lowers it by exactly 1; otherwise no timer is pending |
| TransportControls.Tick | features/audio/components/TransportControls.tsx:36-50 | a beat asks for recording exactly when counting in at a countdown of 1 or below, then ends the count-in; otherwise it lowers a positive countdown by one or changes nothing |
| TransportControls.Ticks | features/audio/components/TransportControls.tsx:36-50 | over any number of beats recording is asked for at most once, after which the count-in is over; beats after the count-in has ended do nothing |
| TransportControls.TicksFromCountdown | features/audio/components/TransportControls.tsx:36-50 | from a countdown v, beats before v only count down. Beat v ends the count-in and asks for recording, once in total |
| TransportControls.CountInRecordsOnceAfterFourBeats | features/audio/components/TransportControls.tsx:36-57 | from a started count-in, no beat before the fourth asks for recording. After four or more beats it has been asked for exactly once and the count-in is over |
| TransportControls.BeatPeriodMs | features/audio/components/TransportControls.tsx:41 | the beat period times the tempo is 60000 ms; over the slider's range it lies in [250, 1500] ms |
| TransportControls.StopDisabled | features/audio/components/TransportControls.tsx:93 | stop is enabled exactly when playing or recording |
| TransportControls.RecordDisabled | features/audio/components/TransportControls.tsx:106 | record is enabled exactly when not counting in and a track is selected |
| TransportControls.CountInDisabled | features/audio/components/TransportControls.tsx:143 | the count-in button is enabled exactly when record is enabled and not recording |
| TransportControls.StopEnabledIffEffective | features/audio/components/TransportControls.tsx:86-93 | stop is enabled exactly when pressing it changes the session |
| TransportControls.RecordEnabledIffStarts | features/audio/components/TransportControls.tsx:105-106 | record is enabled exactly when not counting in and a press with a granted microphone would start recording |
| TransportControls.CountInEnabledStarts | features/audio/components/TransportControls.tsx:142-143 | an enabled count-in button starts a count-in that was not running |
| TransportControls.UndoDisabled | features/audio/components/TransportControls.tsx:166 | undo is disabled exactly when pressing it would not change the session |
| TransportControls.RedoDisabled | features/audio/components/TransportControls.tsx:184 | redo is disabled exactly when pressing it would not change the session |
| TransportControls.ReachableBeatPeriod | features/audio/components/TransportControls.tsx:41 | in every state whose tempo is in the slider's range, which `Session.Valid()` keeps, the tempo is positive and the beat period lies in [250, 1500] ms |
| TransportControls.CountIn.constructor | features/audio/components/TransportControls.tsx:32-33 | the bar starts not counting, with no countdown |
| TransportControls.CountIn.HandleRecordWithCountIn | features/audio/components/TransportControls.tsx:52-57 | the new bar state is StartCountIn of the old |
| TransportControls.CountIn.RunEffect | features/audio/components/TransportControls.tsx:36-50 | the new bar state and the recording request are Settle of the old state |
| TransportControls.CountIn.Beat | features/audio/components/TransportControls.tsx:36-50 | a beat moves the bar as Tick does. When the effect fires, the session's `startRecording` runs; otherwise the session is untouched |
| TrackView.IsActiveTrack | features/audio/components/Track.tsx:39-40 | a track is active exactly when recording and it is the selection |
| TrackView.HasAudio | features/audio/components/Track.tsx:41 | a track has audio exactly when it has a buffer |
| TrackView.ColourOf | features/audio/components/Track.tsx:44-55 | a track's colour is always a palette entry, and the first eight tracks take the entries in order |
| TrackView.PalettePrimariesDistinct | features/audio/components/Track.tsx:44-53 | the eight primary colours are pairwise different |
| TrackView.ColoursCycleEveryEight | features/audio/components/Track.tsx:55 | colours repeat every eight tracks, and eight consecutive tracks get eight different primaries |
| TrackView.VolumeFromPercent | features/audio/components/Track.tsx:168-170 | the slider percentage is a hundred times the volume written |
| TrackView.MuteButtonVolume | features/audio/components/Track.tsx:310 | the mute button writes 0 or 0.8: 0.8 exactly when the volume was 0 |
| TrackView.MuteButtonTwice | features/audio/components/Track.tsx:310 | pressing mute twice restores the volume exactly when it was 0 or 0.8 |
| TrackView.MuteButtonStep | features/audio/components/Track.tsx:308-311 | every track with this id gets the volume computed from this track's volume, and only that field changes. Tracks with other ids are untouched, and nothing outside the track list changes |
| TrackView.EffectToggleUpdate | features/audio/components/Track.tsx:172-180 | the update is for this track and changes only the named stage's flag |
| TrackView.EffectParamUpdate | features/audio/components/Track.tsx:182-190 | the update is for this track and changes only the named parameter, and nothing when the parameter is not in the stage |
| TrackView.EffectUpdateReachesOnlyThisTrack | features/audio/components/Track.tsx:172-180 | sent to the session, the toggle sets the flag on this track and leaves tracks with other ids alone |
| TrackView.RecordToggleStep | features/audio/components/Track.tsx:152-159 | when active, the toggle stops recording. Otherwise it selects this track and starts recording with the selection from before the click |
| TrackView.RecordToggleOnSelectedTrack | features/audio/components/Track.tsx:152-159 | on the selected, idle track with a granted microphone, the toggle records into this track, and a second press stops |
| TrackView.RecordToggleUsesPreviousSelection | features/audio/components/Track.tsx:152-159 | with nothing selected the press only selects. With another track selected, recording starts and this track shows as active, but the buffer goes to the other track |
| TrackView.TrackView.constructor | features/audio/components/Track.tsx:31 | the track view starts not playing |
| TrackView.TrackView.HandlePlayToggle | features/audio/components/Track.tsx:161-166 | without audio nothing happens; with audio the play flag flips and only the selection of the session changes |
| TrackView.TrackView.HandleRecordToggle | features/audio/components/Track.tsx:152-159 | the session and the pending buffer target follow RecordToggleStep |
| EffectsPanel.PanelFallback | features/audio/components/EffectsPanel.tsx:12-17 | the fallback effects have every stage disabled |
| EffectsPanel.FallbackIsNewTrackEffects | features/audio/components/EffectsPanel.tsx:12-17 | the fallback equals the effects `addTrack` gives a new track |
| EffectsPanel.SelectedTrack | features/audio/components/EffectsPanel.tsx:11 | a null selection matches no track; otherwise it is `find` by id |
| EffectsPanel.PanelEffects | features/audio/components/EffectsPanel.tsx:11-17 | the panel shows the selected track's effects, and the fallback when none matches |
| EffectsPanel.PanelShowsSelectedTrack | features/audio/components/EffectsPanel.tsx:11-17 | for a selected id, the panel shows the effects of the first track with it, and the defaults when none has it |
| EffectsPanel.PanelToggle | features/audio/components/EffectsPanel.tsx:19-29 | without a selection nothing is sent. Otherwise one update for the selected id that changes only that stage's flag of the shown effects |
| EffectsPanel.PanelParamChange | features/audio/components/EffectsPanel.tsx:31-41 | without a selection nothing is sent. Otherwise one update for the selected id that changes only that parameter of the shown effects |
| EffectsPanel.ParamSliderDisabled | features/audio/components/EffectsPanel.tsx:83 | a parameter slider is enabled exactly when something is selected and the parameter's stage is enabled in the effects shown |
| EffectsPanel.ParamSliderEnabledIffEdits | features/audio/components/EffectsPanel.tsx:76-248 | a slider is enabled exactly when moving it sends an update that keeps its stage enabled; then the selected track exists and only parameters of enabled stages change |
| EffectsPanel.Send | features/audio/components/EffectsPanel.tsx:22 | an update, when there is one, is `updateTrackEffects` on the session |
| EffectsPanel.PanelToggleChangesOnlySelectedFlag | features/audio/components/EffectsPanel.tsx:19-29 | a panel toggle changes the selected track's effects in that flag only, and leaves tracks with other ids and other fields alone |
| EffectsPanel.PanelSlider | features/audio/components/EffectsPanel.tsx:76-245 | each slider's bounds are 0..100, 1..100, 1..100, 0..99, -12..12 and 0..100; the positions within them are exactly those shown for values in the parameter's domain |
| EffectsPanel.PanelScale | features/audio/components/EffectsPanel.tsx:78 | each slider's scale is positive |
| EffectsPanel.PanelDisplay | features/audio/components/EffectsPanel.tsx:78-94 | the slider position is the value times the parameter's scale |
| EffectsPanel.PanelWrite | features/audio/components/EffectsPanel.tsx:82-98 | the written value times the scale gives back the slider position |
| EffectsPanel.SliderWritesInDomain | features/audio/components/EffectsPanel.tsx:76-245 | every position a slider emits writes a value in bounds: wet and amount in [0,1], decay in [0.1,10], time in [0.01,1], feedback in [0,0.99]. The EQ gains are whole numbers in [-12,12] |
| EffectsPanel.PanelDisplayWriteInverse | features/audio/components/EffectsPanel.tsx:76-245 | showing a value and writing a position are inverse to each other |
| Workspace.MuteToggleStep | features/workspace/components/Workspace.tsx:18-27 | `isMuted` flips on every call. A mute stores the master volume and sets 0; an unmute sets the stored volume back |
| Workspace.MuteThenUnmuteRestores | features/workspace/components/Workspace.tsx:18-27 | mute then unmute returns the master volume to its prior value, and the cycle repeats |
| Workspace.UnmuteIgnoresChangesWhileMuted | features/workspace/components/Workspace.tsx:18-27 | whatever the master volume became while muted, unmuting restores the one from before the mute |
| Workspace.Clamp | features/workspace/components/Workspace.tsx:137 | the clamp lands in [0, 100], keeps values inside it and sends values outside it to the nearer bound |
| Workspace.WheelDelta | features/workspace/components/Workspace.tsx:136 | the step is -2 exactly when scrolling down (positive deltaY), else +2 |
| Workspace.WheelStep | features/workspace/components/Workspace.tsx:132-138 | nothing happens unless hovered. Otherwise the result is clamp(v ± 2, 0, 100): always in [0, 100], and at most 2 in the wheel's direction from a position in range |
| Workspace.WheelDownReachesFloor | features/workspace/components/Workspace.tsx:132-138 | n downward steps from a position in range reach max(0, v - 2n) |
| Workspace.EqToPercent | features/workspace/components/Workspace.tsx:575 | a gain is in [-12, 12] exactly when its knob position is in [0, 100] |
| Workspace.PercentToEq | features/workspace/components/Workspace.tsx:579 | a position is in [0, 100] exactly when the gain it writes is in [-12, 12] |
| Workspace.EqMapsInverse | features/workspace/components/Workspace.tsx:575-579 | the EQ display and write-back maps are mutual inverses |
| Workspace.KnobDisplay | features/workspace/components/Workspace.tsx:437-637 | a knob shows x·100, d·10 or the EQ percentage; a value is in the knob's domain exactly when its position is in [0, 100] |
| Workspace.KnobWrite | features/workspace/components/Workspace.tsx:437-438 | a knob position is in [0, 100] exactly when the value it writes is in the knob's domain, and showing that value gives the position back |
| Workspace.KnobDisplayThenWrite | features/workspace/components/Workspace.tsx:475-490 | showing a value and writing the shown position gives the value back: x·100 and p/100, d·10 and p/10, and the EQ maps |
| Workspace.WheelKeepsKnobInDomain | features/workspace/components/Workspace.tsx:132-138 | a wheel step never writes a value outside the knob's domain |
| Workspace.KnobsReachBeyondPanel | features/workspace/components/Workspace.tsx:537-542 | the knobs can write feedback 1 and decay or time 0, which the panel sliders cannot |
| Workspace.SettingsTrack | features/workspace/components/Workspace.tsx:410-427 | the settings menu edits a track only with a selection, and then the first track with the selected id |
| Workspace.SettingsSwitch | features/workspace/components/Workspace.tsx:455-462 | a stage switch sends nothing without a settings track. Otherwise an update for the selected id that changes only that stage's flag |
| Workspace.SettingsKnob | features/workspace/components/Workspace.tsx:474-481 | an effect knob sends nothing without a settings track. Otherwise an update that sets only that parameter, to the knob's written value |
| Workspace.KnobShown | features/workspace/components/Workspace.tsx:426-466 | an effect knob is drawn exactly when the settings track is found and the parameter's stage is enabled on it |
| Workspace.KnobShownIffEdits | features/workspace/components/Workspace.tsx:466-640 | a knob is drawn exactly when turning it sends an update that keeps its stage enabled; a drawn knob changes only parameters of enabled stages |
| Workspace.SettingsVolume | features/workspace/components/Workspace.tsx:436-438 | the volume knob writes position/100 for the selected id, a volume in [0, 1] for a position in [0, 100] |
| Workspace.KnobAtShownPositionChangesNothing | features/workspace/components/Workspace.tsx:474-490 | a knob moved to the position it already shows writes back the same effects |
| Workspace.WorkspaceView.constructor | features/workspace/components/Workspace.tsx:15-16 | the workspace starts unmuted with a stored volume of 1 |
| Workspace.WorkspaceView.HandleMuteToggle | features/workspace/components/Workspace.tsx:18-27 | the mute state and the master volume follow MuteToggleStep; nothing else in the session changes |
| Workspace.WorkspaceView.HandleMasterKnob | features/workspace/components/Workspace.tsx:658-660 | the master knob sets only the master volume, to position/100 |

## Observed behaviour

Modelling the code literally shows these consequences. The model keeps
them as written.

- The history is never truncated. The save effect only runs when the index
  is at the last entry, and there `slice(0, historyIndex + 1)` is the whole
  history (`SaveStep`: `r.history[..|s.history|] == s.history`).
- A change made after an undo is not recorded, and the next redo replaces
  it with the old entry (`EditAfterUndoIsNotRecorded`).
- A redo that lands on the last entry makes the save guard true again, so
  a copy of that entry is appended (`RedoAction`, `UndoThenRedo`,
  `UndoRedoRoundTrip`).
- A track's record button selects the track and then calls
  `startRecording`. That callback belongs to the render before the click,
  so it checks and records for the previous selection. With nothing
  selected, the first press only selects. With another track selected, the
  buffer goes to that other track (`RecordToggleUsesPreviousSelection`).
- The settings knobs can write values the effects panel's sliders never
  produce: feedback 1, decay 0 and delay time 0 (`KnobsReachBeyondPanel`).
- `startRecording` has no already-recording check: a second call sets
  both flags again and schedules another simulated buffer
  (AudioContext.tsx:183-184, 195-204; `StartRecordingStep`).
- `stopPlayback` only clears the two flags (AudioContext.tsx:156-157). A
  simulated buffer that is still pending arrives afterwards
  (`StopPlaybackStep`, `AttachBufferStep`).
- Play, stop and the other transport buttons do not touch `isCountingIn`
  or `countdownValue`. A running count-in goes on to call `startRecording`;
  only the two record buttons are disabled while it runs
  (TransportControls.tsx:106, 143; `CountInDisabled`).
- `stopRecording` leaves `isPlaying` as it was (AudioContext.tsx:217;
  `StopRecordingStep`).
- Each knob of the settings menu is a component declared inside the
  workspace's own body (Workspace.tsx:29). Reading the code, each
  re-render of the workspace gives it a new component, so its `isHovered`
  state starts again at false (:31). The next wheel event is then ignored
  (:133) until the pointer enters the knob again. `WheelDownReachesFloor`
  assumes a knob that stays hovered.

## Left out

- Web Audio initialisation, `resume` and `context.close`: the audio context is
  not part of the session state.
- `uuidv4()`: replaced by a `freshId` parameter that must be non-empty and
  unused (`FreshId`).
- `getUserMedia`: replaced by the `deviceGranted` input of
  `StartRecordingStep` / `Session.StartRecording`, the outcome of the request.
  That step joins the click and the asynchronous grant into one, so it
  leaves out what happens while the microphone prompt is open. In the code, a
  `stopPlayback` or a deletion made in that time does not stop the later
  grant from setting both flags (AudioContext.tsx:165-185).
- The 500 ms `setTimeout` that attaches the simulated buffer: an explicit
  step (`AttachBufferStep` / `Session.AttachSimulatedBuffer`), so its timing,
  and whatever happens between start and attach, is the caller's order of steps.
- The countdown `setTimeout`: one beat is an explicit step (`Tick`,
  `CountIn.Beat`). Its period is stated by `BeatPeriodMs`. The effect clears
  and restarts the beat timer whenever one of its dependencies changes
  (TransportControls.tsx:50). These are the tempo and also `startRecording`,
  whose identity changes with the selection (AudioContext.tsx:214). Those
  restarts only delay a beat. They are not modelled.
- The remounting of the knobs on re-render (see above): the hover state is
  an input of `WheelStep`.
- React's batching and scheduling of effects: the save effect is a step
  that the caller runs after each change of the track list.
- Toasts, `console.log`/`console.error`, and the rename handler
  `handleNameUpdate`, which only logs.
- All rendering: the canvas waveform and playhead, framer-motion, SVG, colours
  of buttons, the dynamic volume icon, theme colours.
- `getAngleFromEvent` (floating-point trigonometry over DOM rectangles),
  haptics, the click sound and the document event listeners. A knob position
  is taken as an input in [0, 100], the range that function and the wheel
  clamp produce.
- features/audio/components/TrackList.tsx, components/Header.tsx and
  app/page.tsx (rendering, theme toggle, a fake export timer, help text,
  a browser-support check).
- Extra keys: a spread edit whose parameter does not belong to the named
  stage, or a stage name outside the four, adds an untyped key
  (`[key: string]: any`). The typed record is unchanged, and only that is modelled.
- Floating-point numbers: volumes, effect parameters, knob positions and
  the beat period are exact reals; `tempo` is an integer, since its only
  setter is the step-1 slider (`SetTempoStep`, `TempoValid`).
- AudioSession.Session.AddTrack: requires an unused id, which `uuidv4` gives
  with overwhelming probability but does not guarantee.
- The mount effect's `addTrack` is stated as the lemma
  `MountRecordsFirstTrack`, not as a constructor call, because the
  constructor gives the state before any effect runs.
