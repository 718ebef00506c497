/**
 * The voice recorder (app/components/VoiceRecorderView.tsx). On mount it
 * asks for the microphone and starts a recorder; a one-second interval
 * counts the elapsed time while recording; the stop button stops the
 * recorder, whose stop event turns the collected chunks into a blob; save
 * hands the blob and the `M:SS` duration upward.
 *
 * The microphone's answer, the recorder's data and stop events and the
 * interval are events of their own. Audio chunks are stood for by numbers.
 */
module VoiceRecorder {
  import opened Wrappers
  import opened Text
  import opened TimeFormat

  /** The `MediaRecorder` behind `mediaRecorderRef`, if one was created. */
  datatype Media = NoRecorder | Recording | Stopping | Inactive

  datatype Recorder = Recorder(
    micPending: bool,         // `getUserMedia` not yet answered
    media: Media,
    isRecording: bool,
    elapsedTime: nat,
    chunks: seq<nat>,         // `audioChunksRef`
    audioBlob: Option<seq<nat>>)

  /** Mounted: the microphone request is out, nothing recorded. */
  const Initial: Recorder := Recorder(true, NoRecorder, false, 0, [], None)

  datatype Event =
    | MicGranted              // `getUserMedia` resolves: the recorder starts
    | MicDenied               // `getUserMedia` rejects: logged, nothing else
    | DataAvailable(c: nat)   // `ondataavailable`
    | PressStop               // the stop button, shown while recording
    | RecorderStopped         // `onstop`
    | IntervalTick            // the one-second interval, set while recording
    | PressSave               // the save button, shown while not recording

  predicate Enabled(s: Recorder, e: Event) {
    match e
    case MicGranted => s.micPending
    case MicDenied => s.micPending
    case DataAvailable(_) => s.media == Recording || s.media == Stopping
    case PressStop => s.isRecording
    case RecorderStopped => s.media == Stopping
    case IntervalTick => s.isRecording
    case PressSave => !s.isRecording
  }

  function Step(s: Recorder, e: Event): Recorder {
    match e
    case MicGranted => s.(micPending := false, media := Recording, chunks := [], isRecording := true)
    case MicDenied => s.(micPending := false)
    case DataAvailable(c) => s.(chunks := s.chunks + [c])
    case PressStop =>
      if s.media != NoRecorder && s.isRecording then s.(media := Stopping, isRecording := false) else s
    case RecorderStopped => s.(media := Inactive, audioBlob := Some(s.chunks))
    case IntervalTick => s.(elapsedTime := s.elapsedTime + 1)
    case PressSave => s
  }

  /** What `onSave` receives, if `handleSave` calls it: the blob and the formatted duration. */
  function SaveOutput(s: Recorder): Option<(seq<nat>, string)> {
    if s.audioBlob.Some? then Some((s.audioBlob.value, MinSec(s.elapsedTime))) else None
  }

  function Run(t: seq<Event>): Recorder
    decreases |t|
  {
    if t == [] then Initial else Step(Run(t[..|t| - 1]), t[|t| - 1])
  }

  predicate ValidTrace(t: seq<Event>)
    decreases |t|
  {
    t == [] || (ValidTrace(t[..|t| - 1]) && Enabled(Run(t[..|t| - 1]), t[|t| - 1]))
  }

  function Count(t: seq<Event>, e: Event): nat
    decreases |t|
  {
    if t == [] then 0 else Count(t[..|t| - 1], e) + (if t[|t| - 1] == e then 1 else 0)
  }

  /**
   * What holds in every reachable state: recording exactly while the
   * recorder records, no recorder while the microphone request is out,
   * and a blob only once the recorder has stopped.
   */
  predicate Inv(s: Recorder) {
    && (s.isRecording <==> s.media == Recording)
    && (s.micPending ==> s.media == NoRecorder && s.elapsedTime == 0)
    && (s.audioBlob.Some? ==> s.media == Inactive)
    && (s.media == NoRecorder ==> s.elapsedTime == 0 && s.audioBlob == None)
  }

  lemma StepPreservesInv(s: Recorder, e: Event)
    requires Inv(s) && Enabled(s, e)
    ensures Inv(Step(s, e))
  {
  }

  /**
   * Along any trace: the invariant holds, the elapsed time is the number of
   * ticks, each of them taken while recording, and a blob exists only after
   * the stop button and exactly one stop event.
   */
  lemma {:induction false} TraceFacts(t: seq<Event>)
    requires ValidTrace(t)
    ensures var s := Run(t);
      && Inv(s)
      && s.elapsedTime == Count(t, IntervalTick)
      && Count(t, RecorderStopped) <= 1
      && (s.media == Stopping || s.media == Inactive ==> Count(t, PressStop) >= 1)
      && (s.audioBlob.Some? <==> Count(t, RecorderStopped) == 1)
  {
    if t != [] {
      var u := t[..|t| - 1];
      TraceFacts(u);
      StepPreservesInv(Run(u), t[|t| - 1]);
    }
  }

  /** Once stopped, recording never resumes and the elapsed time is frozen. */
  lemma StopIsFinal(s: Recorder, e: Event)
    requires Inv(s) && Enabled(s, e) && (s.media == Stopping || s.media == Inactive)
    ensures var s' := Step(s, e);
      (s'.media == Stopping || s'.media == Inactive) && !s'.isRecording && s'.elapsedTime == s.elapsedTime
  {
  }

  /**
   * `handleSave` reaches `onSave` exactly when a blob exists, and the
   * duration it passes reads back as the elapsed seconds.
   */
  lemma SavedDuration(s: Recorder)
    ensures SaveOutput(s).Some? <==> s.audioBlob.Some?
    ensures SaveOutput(s).Some? ==>
      var d := SaveOutput(s).value.1;
      IsClock(d) && ClockMinutes(d) * 60 + ClockSeconds(d) == s.elapsedTime
  {
    MinSecRoundTrip(s.elapsedTime);
  }

  /** A valid trace extended by one enabled event. */
  lemma Then(t: seq<Event>, e: Event) returns (t': seq<Event>)
    requires ValidTrace(t) && Enabled(Run(t), e)
    ensures t' == t + [e] && ValidTrace(t') && Run(t') == Step(Run(t), e)
  {
    t' := t + [e];
    assert t'[..|t'| - 1] == t;
  }

  /** Grant, record two seconds and a chunk, stop: save then passes that chunk and "0:02". */
  lemma SaveReachable()
    ensures exists t :: ValidTrace(t) && SaveOutput(Run(t)) == Some(([7], MinSec(2))) && MinSec(2) == "0:02"
  {
    var t0: seq<Event> := [];
    var t1 := Then(t0, MicGranted);
    var t2 := Then(t1, IntervalTick);
    var t3 := Then(t2, IntervalTick);
    var t4 := Then(t3, DataAvailable(7));
    assert Run(t4).chunks == [] + [7] == [7];
    var t5 := Then(t4, PressStop);
    var t6 := Then(t5, RecorderStopped);
    assert Run(t6).elapsedTime == 2 && Run(t6).audioBlob == Some([7]);
    MinSecTwo();
  }

  class VoiceRecorderView {
    var micPending: bool
    var media: Media
    var isRecording: bool
    var elapsedTime: nat
    var chunks: seq<nat>
    var audioBlob: Option<seq<nat>>

    function State(): Recorder
      reads this
    {
      Recorder(micPending, media, isRecording, elapsedTime, chunks, audioBlob)
    }

    constructor ()
      ensures State() == Initial
    {
      micPending := true;
      media := NoRecorder;
      isRecording := false;
      elapsedTime := 0;
      chunks := [];
      audioBlob := None;
    }

    /** The rest of `startRecording` once `getUserMedia` answers; a refusal is only logged. */
    method ResumeStart(granted: bool)
      requires micPending
      modifies this
      ensures State() == Step(old(State()), if granted then MicGranted else MicDenied)
    {
      micPending := false;
      if granted {
        media := Recording;
        chunks := [];
        isRecording := true;
      }
    }

    method OnDataAvailable(c: nat)
      requires Enabled(State(), DataAvailable(c))
      modifies this
      ensures State() == Step(old(State()), DataAvailable(c))
    {
      chunks := chunks + [c];
    }

    /** `stopRecording`: a no-op unless there is a recorder and it is recording. */
    method StopRecording()
      modifies this
      ensures State() == Step(old(State()), PressStop)
    {
      if media != NoRecorder && isRecording {
        media := Stopping;
        isRecording := false;
      }
    }

    /** `onstop`: the collected chunks become the blob. */
    method OnStop()
      requires Enabled(State(), RecorderStopped)
      modifies this
      ensures State() == Step(old(State()), RecorderStopped)
    {
      media := Inactive;
      audioBlob := Some(chunks);
    }

    /** The interval's updater, set only while recording. */
    method Tick()
      requires Enabled(State(), IntervalTick)
      modifies this
      ensures State() == Step(old(State()), IntervalTick)
      ensures elapsedTime == old(elapsedTime) + 1
    {
      elapsedTime := elapsedTime + 1;
    }

    /** `handleSave`: returns what `onSave` receives, if it is called; nothing changes. */
    method HandleSave() returns (saved: Option<(seq<nat>, string)>)
      ensures saved == SaveOutput(State())
    {
      if audioBlob.Some? {
        saved := Some((audioBlob.value, MinSec(elapsedTime)));
      } else {
        saved := None;
      }
    }
  }
}
