/** The transport bar: the four-beat count-in before recording, the rules
    that enable its buttons, and the tempo slider. */
module TransportControls {
  import opened AudioTypes
  import opened AudioSession

  /** The number of beats counted before recording starts. */
  const CountInBeats: int := 4

  /** The bar's own state: `isCountingIn` and `countdownValue` (null as None). */
  datatype CountInState = CountInState(isCountingIn: bool, countdownValue: Option<int>)

  const NotCounting: CountInState := CountInState(false, None)

  /** `handleRecordWithCountIn`: with a track selected the countdown starts
      at 4; without one nothing happens. */
  function StartCountIn(c: CountInState, sel: Option<string>): (r: CountInState)
    ensures HasSelection(sel) ==> r.isCountingIn && r.countdownValue == Some(CountInBeats)
    ensures !HasSelection(sel) ==> r == c
  {
    if HasSelection(sel) then CountInState(true, Some(CountInBeats)) else c
  }

  /** A beat timer exists exactly while counting in with a positive countdown. */
  predicate TimerPending(c: CountInState)
  {
    c.isCountingIn && c.countdownValue.Some? && c.countdownValue.value > 0
  }

  /** The countdown effect, run after each render. Counting in with a
      countdown that has reached zero ends the count-in, clears the countdown
      and asks for `startRecording` (the second component); in every other
      state it changes nothing (it only schedules the beat timer). */
  function Settle(c: CountInState): (r: (CountInState, bool))
    ensures r.1 <==> c.isCountingIn && c.countdownValue.Some? && c.countdownValue.value <= 0
    ensures r.1 ==> r.0 == NotCounting
    ensures !r.1 ==> r.0 == c
  {
    if c.isCountingIn && c.countdownValue.Some? then
      if c.countdownValue.value > 0 then (c, false) else (NotCounting, true)
    else
      (c, false)
  }

  /** The beat timer firing: the countdown drops by exactly one; with no
      timer pending nothing happens. */
  function Elapse(c: CountInState): (r: CountInState)
    ensures TimerPending(c) ==> r.isCountingIn && r.countdownValue == Some(c.countdownValue.value - 1)
    ensures !TimerPending(c) ==> r == c
  {
    if TimerPending(c) then c.(countdownValue := Some(c.countdownValue.value - 1)) else c
  }

  /** One beat: the timer fires and the effect runs on the new countdown.
      Recording is asked for when the beat takes the countdown from 1 to 0,
      or when the countdown had already run out. */
  function Tick(c: CountInState): (r: (CountInState, bool))
    ensures r.1 <==> c.isCountingIn && c.countdownValue.Some? && c.countdownValue.value <= 1
    ensures r.1 ==> r.0 == NotCounting
    ensures TimerPending(c) && !r.1 ==> r.0 == CountInState(true, Some(c.countdownValue.value - 1))
    ensures !TimerPending(c) && !r.1 ==> r.0 == c
  {
    Settle(Elapse(c))
  }

  /** `n` beats: the final state and how many times `startRecording` was
      asked for. It is asked for at most once, and after that the count-in
      is over; beats after the count-in has ended do nothing. */
  function Ticks(c: CountInState, n: nat): (r: (CountInState, nat))
    ensures r.1 <= 1
    ensures r.1 == 1 ==> r.0 == NotCounting
    ensures c == NotCounting ==> r == (NotCounting, 0)
    decreases n
  {
    if n == 0 then (c, 0)
    else
      var (c1, fired) := Tick(c);
      var (c2, k) := Ticks(c1, n - 1);
      (c2, k + if fired then 1 else 0)
  }

  /** From a countdown of `v`, the first `v - 1` beats only count down, and
      beat `v` ends the count-in and asks for recording; that request is
      made once and never again. */
  lemma {:induction false} TicksFromCountdown(v: int, n: nat)
    requires v >= 1
    ensures n < v ==> Ticks(CountInState(true, Some(v)), n) == (CountInState(true, Some(v - n)), 0)
    ensures n >= v ==> Ticks(CountInState(true, Some(v)), n) == (NotCounting, 1)
    decreases n
  {
    if n > 0 {
      if v == 1 {
        assert Tick(CountInState(true, Some(1))) == (NotCounting, true);
      } else {
        assert Tick(CountInState(true, Some(v))) == (CountInState(true, Some(v - 1)), false);
        TicksFromCountdown(v - 1, n - 1);
      }
    }
  }

  /** The count-in from a selected track: the effect does not fire at the
      start, no beat before the fourth asks for recording, and after exactly
      four beats the count-in is over and recording was asked for once. */
  lemma CountInRecordsOnceAfterFourBeats(c: CountInState, sel: Option<string>)
    requires HasSelection(sel)
    ensures Settle(StartCountIn(c, sel)) == (CountInState(true, Some(4)), false)
    ensures forall n: nat :: n < 4 ==> Ticks(StartCountIn(c, sel), n).1 == 0
    ensures forall n: nat :: n >= 4 ==> Ticks(StartCountIn(c, sel), n) == (NotCounting, 1)
  {
    forall n: nat ensures Ticks(StartCountIn(c, sel), n) == if n < 4 then (CountInState(true, Some(4 - n)), 0) else (NotCounting, 1) {
      TicksFromCountdown(4, n);
    }
  }

  /** The beat period, `60000 / tempo` milliseconds. */
  function BeatPeriodMs(tempo: int): (ms: real)
    requires tempo > 0
    ensures ms * tempo as real == 60000.0
    ensures 40 <= tempo <= 240 ==> 250.0 <= ms <= 1500.0
  {
    var t := tempo as real;
    var ms := 60000.0 / t;
    assert ms * t == 60000.0;
    ms
  }

  // ---------------------------------------------------------------------
  // Buttons and the tempo slider

  /** Stop is disabled exactly when neither playing nor recording. */
  function StopDisabled(isPlaying: bool, isRecording: bool): (d: bool)
    ensures !d <==> isPlaying || isRecording
  {
    !isPlaying && !isRecording
  }

  /** Record is disabled while counting in or with nothing selected. */
  function RecordDisabled(isCountingIn: bool, sel: Option<string>): (d: bool)
    ensures !d <==> !isCountingIn && HasSelection(sel)
  {
    isCountingIn || !HasSelection(sel)
  }

  /** The count-in button is disabled while recording, while counting in
      or with nothing selected. */
  function CountInDisabled(isRecording: bool, isCountingIn: bool, sel: Option<string>): (d: bool)
    ensures !d <==> !isRecording && !RecordDisabled(isCountingIn, sel)
  {
    isRecording || isCountingIn || !HasSelection(sel)
  }

  /** Undo is disabled exactly when pressing it would change nothing. */
  function UndoDisabled(s: SessionState): (d: bool)
    ensures HistoryValid(s) ==> (d <==> UndoStep(s) == s)
  {
    !CanUndo(s)
  }

  /** Redo is disabled exactly when pressing it would change nothing. */
  function RedoDisabled(s: SessionState): (d: bool)
    ensures HistoryValid(s) ==> (d <==> RedoStep(s) == s)
  {
    !CanRedo(s)
  }

  /** Stop is enabled exactly when pressing it changes the session. */
  lemma StopEnabledIffEffective(s: SessionState)
    ensures !StopDisabled(s.isPlaying, s.isRecording) <==> StopPlaybackStep(s) != s
  {
  }

  /** Record is enabled exactly when not counting in and a press with a
      granted device would start recording. */
  lemma RecordEnabledIffStarts(s: SessionState, isCountingIn: bool)
    ensures !RecordDisabled(isCountingIn, s.selectedTrackId) <==>
              !isCountingIn && RecordingTarget(s, true).Some?
  {
  }

  /** The count-in button is enabled only when it would actually start a
      count-in. */
  lemma CountInEnabledStarts(s: SessionState, c: CountInState)
    requires !CountInDisabled(s.isRecording, c.isCountingIn, s.selectedTrackId)
    ensures StartCountIn(c, s.selectedTrackId).isCountingIn && !c.isCountingIn
  {
  }

  /** In every reachable session the tempo is one the slider emits, so
      the beat period lies in [250, 1500] ms. */
  lemma ReachableBeatPeriod(s: SessionState)
    requires TempoValid(s)
    ensures s.tempo > 0 && 250.0 <= BeatPeriodMs(s.tempo) <= 1500.0
  {
  }

  // ---------------------------------------------------------------------
  // The bar as an object whose fields the handlers assign

  class CountIn {
    var isCountingIn: bool
    var countdownValue: Option<int>

    ghost function State(): CountInState
      reads this
    {
      CountInState(isCountingIn, countdownValue)
    }

    constructor ()
      ensures State() == NotCounting
    {
      isCountingIn, countdownValue := false, None;
    }

    method HandleRecordWithCountIn(sel: Option<string>)
      modifies this
      ensures State() == StartCountIn(old(State()), sel)
    {
      if sel.Some? && sel.value != "" {
        isCountingIn := true;
        countdownValue := Some(CountInBeats);
      }
    }

    /** The countdown effect; returns whether it asks for `startRecording`. */
    method RunEffect() returns (startRecording: bool)
      modifies this
      ensures (State(), startRecording) == Settle(old(State()))
    {
      startRecording := false;
      if isCountingIn && countdownValue.Some? && countdownValue.value <= 0 {
        isCountingIn := false;
        countdownValue := None;
        startRecording := true;
      }
    }

    /** One beat against the session: the timer fires, the effect runs, and
        when it asks for recording the session's `startRecording` is called
        (with the microphone answer `deviceGranted`). */
    method Beat(session: Session, deviceGranted: bool) returns (attachTo: Option<string>)
      requires session.Valid()
      modifies this, session
      ensures session.Valid()
      ensures State() == Tick(old(State())).0
      ensures Tick(old(State())).1 ==>
        && session.State() == StartRecordingStep(old(session.State()), deviceGranted)
        && attachTo == RecordingTarget(old(session.State()), deviceGranted)
      ensures !Tick(old(State())).1 ==> session.State() == old(session.State()) && attachTo == None
    {
      if isCountingIn && countdownValue.Some? && countdownValue.value > 0 {
        countdownValue := Some(countdownValue.value - 1);
      }
      var fire := RunEffect();
      attachTo := None;
      if fire {
        attachTo := session.StartRecording(deviceGranted);
      }
    }
  }
}
