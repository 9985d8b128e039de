/** The session controller (the audio provider): the track collection, the
    selection, the transport flags and the linear undo/redo history of
    track-list snapshots.

    Every state change is given twice: as a pure step function over a
    SessionState value, whose contract states what the change means, and
    as a method of the class Session, whose fields are the provider's state
    variables and whose contract ties the new state to that step function.
    The history-saving effect, which the provider runs after every change
    of the track list, is the explicit step SaveStep / Session.SaveSnapshot. */
module AudioSession {
  import opened AudioTypes
  import opened EffectEdits
  import opened TrackEdits

  /** The volume a new track starts with. */
  const NewTrackVolume: real := 0.8

  /** The placeholder buffer the simulated recording attaches (1000 bytes). */
  const SimulatedBuffer: AudioBuffer := AudioBuffer(1000)

  /** The effect settings `addTrack` gives a new track. */
  function AddTrackEffects(): TrackEffects
  {
    TrackEffects(
      ReverbFx(false, 0.3, 1.5),
      DelayFx(false, 0.3, 0.4),
      EqFx(false, 0.0, 0.0, 0.0),
      DistortionFx(false, 0.2))
  }

  /** The track `addTrack` creates when the list already holds `count` tracks. */
  function NewTrack(id: string, count: nat): Track
  {
    Track(id, "Track " + DecimalString(count + 1), None, NewTrackVolume, AddTrackEffects())
  }

  /** The provider's state variables (the audio-engine handle is left out). */
  datatype SessionState = SessionState(
    tracks: seq<Track>,
    selectedTrackId: Option<string>,
    masterVolume: real,
    tempo: int,
    metronomeEnabled: bool,
    isPlaying: bool,
    isRecording: bool,
    history: seq<seq<Track>>,
    historyIndex: int)

  /** The initial values of the state variables. */
  const Initial: SessionState := SessionState([], None, 1.0, 120, false, false, false, [], -1)

  /** What every reachable state satisfies: the index is -1 exactly when the
      history is empty and otherwise points at an entry, and every entry is
      a non-empty track list (the save effect skips empty lists). */
  predicate HistoryValid(s: SessionState)
  {
    && -1 <= s.historyIndex < |s.history|
    && (s.historyIndex == -1 <==> s.history == [])
    && forall k :: 0 <= k < |s.history| ==> s.history[k] != []
  }

  /** The transport bar's tempo slider, with step 1, is the only setter of
      the tempo, so a reachable tempo is an integer of its range. */
  const TempoSlider: SliderRange := SliderRange(40, 240)

  predicate TempoValid(s: SessionState)
  {
    Emits(TempoSlider, s.tempo)
  }

  /** `canUndo`: in a valid state, there is an entry before the current one. */
  function CanUndo(s: SessionState): (b: bool)
    ensures HistoryValid(s) ==> (b <==> 0 <= s.historyIndex - 1 && s.historyIndex < |s.history|)
  {
    s.historyIndex > 0
  }

  /** `canRedo`: in a valid state, there is an entry after the current one. */
  function CanRedo(s: SessionState): (b: bool)
    ensures HistoryValid(s) ==> (b <==> 0 <= s.historyIndex + 1 < |s.history|)
  {
    s.historyIndex < |s.history| - 1
  }

  /** The id a new track receives stands in for a fresh uuid: non-empty and
      used by no track, current or in the history. */
  predicate FreshId(s: SessionState, id: string)
  {
    && id != ""
    && (forall i :: 0 <= i < |s.tracks| ==> s.tracks[i].id != id)
    && (forall k, i :: 0 <= k < |s.history| && 0 <= i < |s.history[k]| ==> s.history[k][i].id != id)
  }

  lemma InitialIsValid()
    ensures HistoryValid(Initial) && TempoValid(Initial) && !CanUndo(Initial) && !CanRedo(Initial)
  {
  }

  // ---------------------------------------------------------------------
  // Track mutations

  /** `addTrack`: exactly one track is appended, at the end, with no buffer,
      volume 0.8, every stage disabled at the listed defaults and the name
      "Track n"; it becomes the selection; nothing else changes. */
  function AddTrackStep(s: SessionState, freshId: string): (r: SessionState)
    ensures |r.tracks| == |s.tracks| + 1 && r.tracks[..|s.tracks|] == s.tracks
    ensures r.tracks[|s.tracks|].id == freshId && r.tracks[|s.tracks|].buffer == None
    ensures r.tracks[|s.tracks|].volume == 0.8 && r.tracks[|s.tracks|].effects == AddTrackEffects()
    ensures r.tracks[|s.tracks|].name == "Track " + DecimalString(|s.tracks| + 1)
    ensures DecimalValue(r.tracks[|s.tracks|].name[6..]) == |s.tracks| + 1
    ensures forall st: Stage :: !Enabled(r.tracks[|s.tracks|].effects, st)
    ensures r.selectedTrackId == Some(freshId)
    ensures r.(tracks := s.tracks, selectedTrackId := s.selectedTrackId) == s
  {
    DecimalStringValue(|s.tracks| + 1);
    var t := NewTrack(freshId, |s.tracks|);
    assert t.name[6..] == DecimalString(|s.tracks| + 1);
    s.(tracks := s.tracks + [t], selectedTrackId := Some(freshId))
  }

  /** `deleteTrack(id)`: every track with that id goes and the others stay
      in order; the selection is cleared only when it was that id. */
  function DeleteTrackStep(s: SessionState, id: string): (r: SessionState)
    ensures forall t :: t in r.tracks <==> t in s.tracks && t.id != id
    ensures r.tracks == WithoutId(s.tracks, id)
    ensures s.selectedTrackId == Some(id) ==> r.selectedTrackId == None
    ensures s.selectedTrackId != Some(id) ==> r.selectedTrackId == s.selectedTrackId
    ensures r.(tracks := s.tracks, selectedTrackId := s.selectedTrackId) == s
  {
    s.(tracks := WithoutId(s.tracks, id),
       selectedTrackId := if s.selectedTrackId == Some(id) then None else s.selectedTrackId)
  }

  /** `updateTrackVolume(id, v)`: only the volume of the matching tracks
      changes; length, order, ids and every other field stay. */
  function UpdateVolumeStep(s: SessionState, id: string, volume: real): (r: SessionState)
    ensures |r.tracks| == |s.tracks|
    ensures forall i :: 0 <= i < |s.tracks| ==>
      && r.tracks[i].(volume := s.tracks[i].volume) == s.tracks[i]
      && r.tracks[i].volume == if s.tracks[i].id == id then volume else s.tracks[i].volume
    ensures r.(tracks := s.tracks) == s
  {
    s.(tracks := UpdateWhere(s.tracks, id, SetVolume(volume)))
  }

  /** `updateTrackEffects(id, e)`: only the effects of the matching tracks
      change; length, order, ids and every other field stay. */
  function UpdateEffectsStep(s: SessionState, id: string, effects: TrackEffects): (r: SessionState)
    ensures |r.tracks| == |s.tracks|
    ensures forall i :: 0 <= i < |s.tracks| ==>
      && r.tracks[i].(effects := s.tracks[i].effects) == s.tracks[i]
      && r.tracks[i].effects == if s.tracks[i].id == id then effects else s.tracks[i].effects
    ensures r.(tracks := s.tracks) == s
  {
    s.(tracks := UpdateWhere(s.tracks, id, SetEffects(effects)))
  }

  /** The simulated buffer arriving for `id` (the timer callback started by
      `startRecording`): only the matching tracks get a buffer, nothing else
      in them or in the state changes. */
  function AttachBufferStep(s: SessionState, id: string): (r: SessionState)
    ensures |r.tracks| == |s.tracks|
    ensures forall i :: 0 <= i < |s.tracks| ==>
      && r.tracks[i].(buffer := s.tracks[i].buffer) == s.tracks[i]
      && r.tracks[i].buffer == if s.tracks[i].id == id then Some(SimulatedBuffer) else s.tracks[i].buffer
    ensures r.(tracks := s.tracks) == s
  {
    s.(tracks := UpdateWhere(s.tracks, id, SetBuffer(Some(SimulatedBuffer))))
  }

  // ---------------------------------------------------------------------
  // Transport flags

  /** `togglePlayback`: negates `isPlaying` and nothing else. */
  function TogglePlaybackStep(s: SessionState): (r: SessionState)
    ensures r.isPlaying != s.isPlaying
    ensures r.(isPlaying := s.isPlaying) == s
  {
    s.(isPlaying := !s.isPlaying)
  }

  /** `stopPlayback`: clears both `isPlaying` and `isRecording`. */
  function StopPlaybackStep(s: SessionState): (r: SessionState)
    ensures !r.isPlaying && !r.isRecording
    ensures r.(isPlaying := s.isPlaying, isRecording := s.isRecording) == s
  {
    s.(isPlaying := false, isRecording := false)
  }

  /** `stopRecording`: clears only `isRecording`; playback goes on. */
  function StopRecordingStep(s: SessionState): (r: SessionState)
    ensures !r.isRecording && r.isPlaying == s.isPlaying
    ensures r.(isRecording := s.isRecording) == s
  {
    s.(isRecording := false)
  }

  /** `toggleMetronome`: negates `metronomeEnabled` and nothing else. */
  function ToggleMetronomeStep(s: SessionState): (r: SessionState)
    ensures r.metronomeEnabled != s.metronomeEnabled
    ensures r.(metronomeEnabled := s.metronomeEnabled) == s
  {
    s.(metronomeEnabled := !s.metronomeEnabled)
  }

  /** `setTempo` with a value of the tempo slider: the tempo becomes that
      value, so it stays within the slider's range, and nothing else
      changes. */
  function SetTempoStep(s: SessionState, bpm: int): (r: SessionState)
    requires Emits(TempoSlider, bpm)
    ensures r.tempo == bpm && TempoValid(r)
    ensures r.(tempo := s.tempo) == s
  {
    s.(tempo := bpm)
  }

  /** `startRecording` once the microphone request has settled with
      `deviceGranted`: with no selection, or with the request refused,
      nothing changes; otherwise both `isRecording` and `isPlaying` are set
      and nothing else changes (the buffer arrives later, see
      RecordingTarget and AttachBufferStep). */
  function StartRecordingStep(s: SessionState, deviceGranted: bool): (r: SessionState)
    ensures !HasSelection(s.selectedTrackId) ==> r == s
    ensures !deviceGranted ==> r == s
    ensures HasSelection(s.selectedTrackId) && deviceGranted ==>
      r.isRecording && r.isPlaying && r.(isRecording := s.isRecording, isPlaying := s.isPlaying) == s
  {
    if HasSelection(s.selectedTrackId) && deviceGranted then s.(isRecording := true, isPlaying := true) else s
  }

  /** The track id the pending simulated buffer is for: the selection at the
      moment `startRecording` was called, when recording actually started. */
  function RecordingTarget(s: SessionState, deviceGranted: bool): (r: Option<string>)
    ensures r.Some? <==> HasSelection(s.selectedTrackId) && deviceGranted
    ensures r.Some? ==> r == s.selectedTrackId && StartRecordingStep(s, deviceGranted).isRecording
  {
    if HasSelection(s.selectedTrackId) && deviceGranted then s.selectedTrackId else None
  }

  /** Recording with a granted device and then receiving the buffer leaves
      the flags set and gives a buffer to the selected track and to no
      other track that had none. */
  lemma RecordingAttachesToSelectedTrack(s: SessionState)
    requires HasSelection(s.selectedTrackId)
    ensures var r := AttachBufferStep(StartRecordingStep(s, true), RecordingTarget(s, true).value);
      && r.isRecording && r.isPlaying
      && |r.tracks| == |s.tracks|
      && forall i :: 0 <= i < |s.tracks| ==>
           (r.tracks[i].buffer.Some? <==> Some(s.tracks[i].id) == s.selectedTrackId || s.tracks[i].buffer.Some?)
  {
  }

  // ---------------------------------------------------------------------
  // History

  /** The history-saving effect: it saves only when the list is non-empty
      and the index is at the last entry. Under that guard the slice it keeps
      is the whole history, so a save appends the list and advances the
      index, and never drops an entry; otherwise nothing changes. */
  function SaveStep(s: SessionState): (r: SessionState)
    requires HistoryValid(s)
    ensures HistoryValid(r)
    ensures r.(history := s.history, historyIndex := s.historyIndex) == s
    ensures |s.tracks| > 0 && s.historyIndex == |s.history| - 1 ==>
      r.history == s.history + [s.tracks] && r.historyIndex == s.historyIndex + 1
    ensures !(|s.tracks| > 0 && s.historyIndex == |s.history| - 1) ==> r == s
    ensures r.history[..|s.history|] == s.history
  {
    if |s.tracks| > 0 && s.historyIndex == |s.history| - 1 then
      s.(history := s.history[..s.historyIndex + 1] + [s.tracks], historyIndex := s.historyIndex + 1)
    else
      s
  }

  /** `undo`: a no-op unless `canUndo`; otherwise the index moves back one
      entry and the track list becomes that entry. Only the track list and
      the index can change. */
  function UndoStep(s: SessionState): (r: SessionState)
    requires HistoryValid(s)
    ensures HistoryValid(r)
    ensures r.(tracks := s.tracks, historyIndex := s.historyIndex) == s
    ensures CanUndo(s) ==> r.historyIndex == s.historyIndex - 1 && r.tracks == s.history[r.historyIndex]
    ensures r == s <==> !CanUndo(s)
  {
    if s.historyIndex > 0 then
      s.(historyIndex := s.historyIndex - 1, tracks := s.history[s.historyIndex - 1])
    else
      s
  }

  /** `redo`: a no-op unless `canRedo`; otherwise the index moves forward
      one entry and the track list becomes that entry. */
  function RedoStep(s: SessionState): (r: SessionState)
    requires HistoryValid(s)
    ensures HistoryValid(r)
    ensures r.(tracks := s.tracks, historyIndex := s.historyIndex) == s
    ensures CanRedo(s) ==> r.historyIndex == s.historyIndex + 1 && r.tracks == s.history[r.historyIndex]
    ensures r == s <==> !CanRedo(s)
  {
    if s.historyIndex < |s.history| - 1 then
      s.(historyIndex := s.historyIndex + 1, tracks := s.history[s.historyIndex + 1])
    else
      s
  }

  /** A user action that leaves the track list `ts`, followed by the save
      effect that the change of the list triggers. */
  function EditAction(s: SessionState, ts: seq<Track>): (r: SessionState)
    requires HistoryValid(s)
    ensures HistoryValid(r) && r.tracks == ts
  {
    SaveStep(s.(tracks := ts))
  }

  /** Pressing undo, followed by the save effect its change of the list
      triggers; the effect never saves after an undo. */
  function UndoAction(s: SessionState): (r: SessionState)
    requires HistoryValid(s)
    ensures HistoryValid(r)
    ensures r == UndoStep(s)
  {
    if CanUndo(s) then SaveStep(UndoStep(s)) else s
  }

  /** Pressing redo, followed by the save effect. A redo that stops before
      the last entry saves nothing; one that lands on the last entry makes
      the guard true again, and a copy of that entry is appended. */
  function RedoAction(s: SessionState): (r: SessionState)
    requires HistoryValid(s)
    ensures HistoryValid(r)
    ensures !CanRedo(s) ==> r == s
    ensures CanRedo(s) && s.historyIndex + 1 < |s.history| - 1 ==> r == RedoStep(s)
    ensures CanRedo(s) && s.historyIndex + 1 == |s.history| - 1 ==>
      && r.tracks == s.history[|s.history| - 1]
      && r.history == s.history + [s.history[|s.history| - 1]]
      && r.historyIndex == |s.history|
      && r.(tracks := s.tracks, history := s.history, historyIndex := s.historyIndex) == s
  {
    if CanRedo(s) then SaveStep(RedoStep(s)) else s
  }

  /** A sequence of track-list changes, each followed by its save effect. */
  function ApplyEdits(s: SessionState, edits: seq<seq<Track>>): (r: SessionState)
    requires HistoryValid(s)
    ensures HistoryValid(r)
    decreases |edits|
  {
    if edits == [] then s else ApplyEdits(EditAction(s, edits[0]), edits[1..])
  }

  /** `n` presses of undo, each followed by its save effect. */
  function UndoTimes(s: SessionState, n: nat): (r: SessionState)
    requires HistoryValid(s)
    ensures HistoryValid(r)
    decreases n
  {
    if n == 0 then s else UndoTimes(UndoAction(s), n - 1)
  }

  /** `n` presses of redo, each followed by its save effect. */
  function RedoTimes(s: SessionState, n: nat): (r: SessionState)
    requires HistoryValid(s)
    ensures HistoryValid(r)
    decreases n
  {
    if n == 0 then s else RedoTimes(RedoAction(s), n - 1)
  }

  /** Changes made while the index is at the last entry are all recorded:
      each non-empty list is appended in turn and the index follows. */
  lemma {:induction false} ApplyEditsRecords(s: SessionState, edits: seq<seq<Track>>)
    requires HistoryValid(s) && s.historyIndex == |s.history| - 1
    requires forall k :: 0 <= k < |edits| ==> edits[k] != []
    ensures var r := ApplyEdits(s, edits);
      && r.history == s.history + edits
      && r.historyIndex == s.historyIndex + |edits|
      && (edits != [] ==> r.tracks == edits[|edits| - 1])
      && r.(tracks := s.tracks, history := s.history, historyIndex := s.historyIndex) == s
    decreases |edits|
  {
    if edits != [] {
      var s1 := EditAction(s, edits[0]);
      assert s1.history == s.history + [edits[0]];
      ApplyEditsRecords(s1, edits[1..]);
      assert s.history + [edits[0]] + edits[1..] == s.history + edits;
      if |edits| == 1 {
        assert edits[1..] == [];
      }
    }
  }

  /** `n` undos, possible while `n` does not exceed the index, walk the index
      back by `n` and load the entry they reach; the history is untouched. */
  lemma {:induction false} UndoTimesWalksBack(s: SessionState, n: nat)
    requires HistoryValid(s) && n <= s.historyIndex
    ensures var r := UndoTimes(s, n);
      && r.history == s.history
      && r.historyIndex == s.historyIndex - n
      && (n > 0 ==> r.tracks == s.history[r.historyIndex])
      && r.(tracks := s.tracks, historyIndex := s.historyIndex) == s
    decreases n
  {
    if n > 0 {
      UndoTimesWalksBack(UndoAction(s), n - 1);
    }
  }

  /** `n` redos walk the index forward by `n` and load the entry they reach;
      if the walk ends on the last entry, that entry is appended once more
      and the index points at the copy. */
  lemma {:induction false} RedoTimesWalksForward(s: SessionState, n: nat)
    requires HistoryValid(s) && 0 < n && s.historyIndex + n <= |s.history| - 1
    ensures var r := RedoTimes(s, n);
      && r.tracks == s.history[s.historyIndex + n]
      && (s.historyIndex + n < |s.history| - 1 ==>
            r.history == s.history && r.historyIndex == s.historyIndex + n)
      && (s.historyIndex + n == |s.history| - 1 ==>
            r.history == s.history + [s.history[|s.history| - 1]] && r.historyIndex == |s.history|)
      && r.(tracks := s.tracks, history := s.history, historyIndex := s.historyIndex) == s
    decreases n
  {
    if n > 1 {
      var s1 := RedoAction(s);
      assert s1 == RedoStep(s);
      RedoTimesWalksForward(s1, n - 1);
    }
  }

  /** Undo/redo round trip: starting in sync at the last entry, `N` recorded
      changes followed by `N` undos give back the starting track list and
      index, and `N` redos after that give back the last change, with one
      duplicate entry appended by the final redo. */
  lemma UndoRedoRoundTrip(s: SessionState, edits: seq<seq<Track>>)
    requires HistoryValid(s) && 0 <= s.historyIndex == |s.history| - 1
    requires s.tracks == s.history[s.historyIndex]
    requires edits != [] && forall k :: 0 <= k < |edits| ==> edits[k] != []
    ensures var u := UndoTimes(ApplyEdits(s, edits), |edits|);
      && u.tracks == s.tracks && u.historyIndex == s.historyIndex
      && u.history == s.history + edits
    ensures var r := RedoTimes(UndoTimes(ApplyEdits(s, edits), |edits|), |edits|);
      && r.tracks == edits[|edits| - 1]
      && r.history == s.history + edits + [edits[|edits| - 1]]
      && r.historyIndex == |s.history| + |edits|
  {
    var n := |edits|;
    var a := ApplyEdits(s, edits);
    ApplyEditsRecords(s, edits);
    var h := s.history + edits;
    assert a.history == h && a.historyIndex == s.historyIndex + n;
    var u := UndoTimes(a, n);
    UndoTimesWalksBack(a, n);
    assert u.history == h && u.historyIndex == s.historyIndex;
    assert h[s.historyIndex] == s.history[s.historyIndex];
    assert u.tracks == s.tracks;
    assert u.historyIndex + n == |h| - 1;
    RedoTimesWalksForward(u, n);
    assert h[|h| - 1] == edits[n - 1];
  }

  /** Undo then redo, in sync: the raw steps restore the state exactly; with
      the save effect this holds below the last entry, while from the last
      entry the redo re-appends a copy of it. */
  lemma UndoThenRedo(s: SessionState)
    requires HistoryValid(s) && CanUndo(s) && s.tracks == s.history[s.historyIndex]
    ensures RedoStep(UndoStep(s)) == s
    ensures s.historyIndex < |s.history| - 1 ==> RedoAction(UndoAction(s)) == s
    ensures s.historyIndex == |s.history| - 1 ==>
      RedoAction(UndoAction(s)) == s.(history := s.history + [s.tracks], historyIndex := s.historyIndex + 1)
  {
  }

  /** A change made after an undo is not recorded (the index is no longer at
      the last entry), and the next redo replaces it with the old entry. */
  lemma EditAfterUndoIsNotRecorded(s: SessionState, ts: seq<Track>)
    requires HistoryValid(s) && CanUndo(s)
    ensures var e := EditAction(UndoAction(s), ts);
      && e.tracks == ts
      && e.history == s.history
      && e.historyIndex == s.historyIndex - 1
      && RedoAction(e).tracks == s.history[s.historyIndex]
  {
  }

  /** Mounting the provider adds the first track and the effect saves it: a
      one-entry history at index 0, with neither undo nor redo possible. */
  lemma MountRecordsFirstTrack(freshId: string)
    ensures var r := SaveStep(AddTrackStep(Initial, freshId));
      && r.history == [r.tracks] && r.historyIndex == 0
      && |r.tracks| == 1 && r.tracks[0].name == "Track 1"
      && !CanUndo(r) && !CanRedo(r)
  {
    assert DecimalString(1) == "1";
  }

  // ---------------------------------------------------------------------
  // The provider as an object whose fields the actions assign

  class Session {
    var tracks: seq<Track>
    var selectedTrackId: Option<string>
    var masterVolume: real
    var tempo: int
    var metronomeEnabled: bool
    var isPlaying: bool
    var isRecording: bool
    var history: seq<seq<Track>>
    var historyIndex: int

    ghost function State(): SessionState
      reads this
    {
      SessionState(tracks, selectedTrackId, masterVolume, tempo, metronomeEnabled,
                   isPlaying, isRecording, history, historyIndex)
    }

    ghost predicate Valid()
      reads this
    {
      HistoryValid(State()) && TempoValid(State())
    }

    constructor ()
      ensures Valid() && State() == Initial
    {
      tracks, selectedTrackId := [], None;
      masterVolume, tempo, metronomeEnabled := 1.0, 120, false;
      isPlaying, isRecording := false, false;
      history, historyIndex := [], -1;
    }

    method AddTrack(freshId: string)
      requires Valid() && FreshId(State(), freshId)
      modifies this
      ensures Valid() && State() == AddTrackStep(old(State()), freshId)
    {
      tracks := tracks + [NewTrack(freshId, |tracks|)];
      selectedTrackId := Some(freshId);
    }

    method DeleteTrack(id: string)
      requires Valid()
      modifies this
      ensures Valid() && State() == DeleteTrackStep(old(State()), id)
    {
      tracks := WithoutId(tracks, id);
      if selectedTrackId == Some(id) {
        selectedTrackId := None;
      }
    }

    method SetSelectedTrackId(id: string)
      requires Valid()
      modifies this
      ensures Valid() && State() == old(State()).(selectedTrackId := Some(id))
    {
      selectedTrackId := Some(id);
    }

    method UpdateTrackVolume(id: string, volume: real)
      requires Valid()
      modifies this
      ensures Valid() && State() == UpdateVolumeStep(old(State()), id, volume)
    {
      tracks := UpdateWhere(tracks, id, SetVolume(volume));
    }

    method UpdateTrackEffects(id: string, effects: TrackEffects)
      requires Valid()
      modifies this
      ensures Valid() && State() == UpdateEffectsStep(old(State()), id, effects)
    {
      tracks := UpdateWhere(tracks, id, SetEffects(effects));
    }

    method SetMasterVolume(volume: real)
      requires Valid()
      modifies this
      ensures Valid() && State() == old(State()).(masterVolume := volume)
    {
      masterVolume := volume;
    }

    /** `setTempo(value[0])`, called with a value the tempo slider emits. */
    method SetTempo(bpm: int)
      requires Valid() && Emits(TempoSlider, bpm)
      modifies this
      ensures Valid() && State() == SetTempoStep(old(State()), bpm)
    {
      tempo := bpm;
    }

    method TogglePlayback()
      requires Valid()
      modifies this
      ensures Valid() && State() == TogglePlaybackStep(old(State()))
    {
      isPlaying := !isPlaying;
    }

    method StopPlayback()
      requires Valid()
      modifies this
      ensures Valid() && State() == StopPlaybackStep(old(State()))
    {
      isPlaying := false;
      isRecording := false;
    }

    /** Returns the id whose simulated buffer is now pending, if recording
        started; the caller later delivers it with AttachSimulatedBuffer. */
    method StartRecording(deviceGranted: bool) returns (attachTo: Option<string>)
      requires Valid()
      modifies this
      ensures Valid() && State() == StartRecordingStep(old(State()), deviceGranted)
      ensures attachTo == RecordingTarget(old(State()), deviceGranted)
    {
      attachTo := None;
      if selectedTrackId.Some? && selectedTrackId.value != "" {
        if deviceGranted {
          isRecording := true;
          isPlaying := true;
          attachTo := selectedTrackId;
        }
      }
    }

    method AttachSimulatedBuffer(id: string)
      requires Valid()
      modifies this
      ensures Valid() && State() == AttachBufferStep(old(State()), id)
    {
      tracks := UpdateWhere(tracks, id, SetBuffer(Some(SimulatedBuffer)));
    }

    method StopRecording()
      requires Valid()
      modifies this
      ensures Valid() && State() == StopRecordingStep(old(State()))
    {
      isRecording := false;
    }

    method ToggleMetronome()
      requires Valid()
      modifies this
      ensures Valid() && State() == ToggleMetronomeStep(old(State()))
    {
      metronomeEnabled := !metronomeEnabled;
    }

    /** The history-saving effect, run after each change of `tracks`. */
    method SaveSnapshot()
      requires Valid()
      modifies this
      ensures Valid() && State() == SaveStep(old(State()))
    {
      if |tracks| > 0 && historyIndex == |history| - 1 {
        history := history[..historyIndex + 1] + [tracks];
        historyIndex := historyIndex + 1;
      }
    }

    method Undo()
      requires Valid()
      modifies this
      ensures Valid() && State() == UndoStep(old(State()))
    {
      if historyIndex > 0 {
        historyIndex := historyIndex - 1;
        tracks := history[historyIndex];
      }
    }

    method Redo()
      requires Valid()
      modifies this
      ensures Valid() && State() == RedoStep(old(State()))
    {
      if historyIndex < |history| - 1 {
        historyIndex := historyIndex + 1;
        tracks := history[historyIndex];
      }
    }
  }
}
