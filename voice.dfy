/** The push-to-talk speech capture of the client's voice recorder: a recording flag (held by the
    chat interface and set through its start/stop callbacks), a manual-stop flag, an always-current
    transcript cell and the displayed copy of it, and the recognition engine, which is only observed
    through the state it is in. Every voice result handed to the chat interface is recorded in
    `emitted`, in the order the calls happen.

    The transitions are total functions on RecorderState; the class VoiceRecorder at the end holds
    the same state in fields and each of its handlers is proved to perform its transition. */
module Voice {
  import opened Builtins

  /** One entry of a recognition result list: whether it is final, and the transcript of its
      first alternative. */
  datatype Segment = Segment(isFinal: bool, transcript: string)

  /** What the browser's recognition engine is doing: not capturing, capturing, or asked to stop
      and about to report its end. */
  datatype Engine = Idle | Listening | Stopping

  datatype RecorderState = RecorderState(
    supported: bool,        // a recognition engine was constructed when the recorder mounted
    recording: bool,        // the chat interface's isRecording
    manualStop: bool,       // manualStopRef.current
    transcriptRef: string,  // transcriptRef.current, read by the engine's callbacks
    transcript: string,     // the transcript preview state
    engine: Engine,
    emitted: seq<string>)   // the arguments of every onVoiceResult call so far

  function Initial(supported: bool): RecorderState {
    RecorderState(supported, false, false, "", "", Idle, [])
  }

  /** The transcripts of the segments whose isFinal flag is `final`, concatenated in order. */
  function Joined(segs: seq<Segment>, final: bool): string {
    if segs == [] then ""
    else
      var last := segs[|segs| - 1];
      Joined(segs[..|segs| - 1], final) + (if last.isFinal == final then last.transcript else "")
  }

  /** The segments a result event visits: those from its resultIndex on. */
  function Pending(results: seq<Segment>, resultIndex: nat): seq<Segment> {
    if resultIndex <= |results| then results[resultIndex..] else []
  }

  /** The text a result event leaves in the transcript: the final segments' text when it is not
      empty, and the interim segments' text otherwise. */
  function EventTranscript(results: seq<Segment>, resultIndex: nat): string {
    var finalText := Joined(Pending(results, resultIndex), true);
    if finalText != "" then finalText else Joined(Pending(results, resultIndex), false)
  }

  lemma {:induction false} JoinedEmptyIff(segs: seq<Segment>, final: bool)
    ensures Joined(segs, final) == ""
        <==> forall k :: 0 <= k < |segs| && segs[k].isFinal == final ==> segs[k].transcript == ""
  {
    if segs != [] {
      var init := segs[..|segs| - 1];
      JoinedEmptyIff(init, final);
      assert forall k :: 0 <= k < |init| ==> init[k] == segs[k];
    }
  }

  /** A result event leaves an empty transcript exactly when every segment it visits is empty. */
  lemma EventTranscriptEmptyIff(results: seq<Segment>, resultIndex: nat)
    ensures EventTranscript(results, resultIndex) == ""
        <==> forall k :: resultIndex <= k < |results| ==> results[k].transcript == ""
  {
    var segs := Pending(results, resultIndex);
    JoinedEmptyIff(segs, true);
    JoinedEmptyIff(segs, false);
    assert forall k :: resultIndex <= k < |results| ==> results[k] == segs[k - resultIndex];
  }

  /** A visited final segment with text wins over every interim segment. */
  lemma FinalTextWins(results: seq<Segment>, resultIndex: nat, k: nat)
    requires resultIndex <= k < |results| && results[k].isFinal && results[k].transcript != ""
    ensures EventTranscript(results, resultIndex) == Joined(Pending(results, resultIndex), true)
  {
    var segs := Pending(results, resultIndex);
    JoinedEmptyIff(segs, true);
    assert segs[k - resultIndex] == results[k];
  }

  /** The `for` loop of the result handler: gathers the final and the interim text of the segments
      from resultIndex on, and picks the final text unless it is empty. */
  method CurrentTranscript(results: seq<Segment>, resultIndex: nat) returns (current: string)
    ensures current == EventTranscript(results, resultIndex)
  {
    ghost var segs := Pending(results, resultIndex);
    var finalTranscript, interimTranscript := "", "";
    var i := resultIndex;
    while i < |results|
      invariant resultIndex <= i && i - resultIndex <= |segs|
      invariant i <= |results| || i == resultIndex
      invariant finalTranscript == Joined(segs[..i - resultIndex], true)
      invariant interimTranscript == Joined(segs[..i - resultIndex], false)
    {
      var transcript := results[i].transcript;
      if results[i].isFinal {
        finalTranscript := finalTranscript + transcript;
      } else {
        interimTranscript := interimTranscript + transcript;
      }
      assert segs[..i + 1 - resultIndex][..i - resultIndex] == segs[..i - resultIndex];
      assert segs[i - resultIndex] == results[i];
      i := i + 1;
    }
    assert segs[..i - resultIndex] == segs;
    current := if finalTranscript != "" then finalTranscript else interimTranscript;
  }

  // ---- transitions ----

  /** startRecording: only with an engine and while not recording. */
  function Start(s: RecorderState): RecorderState {
    if s.supported && !s.recording then s.(manualStop := false, recording := true, engine := Listening)
    else s
  }

  /** Hands the trimmed transcript to the chat interface when it is not blank, and clears both copies. */
  function Flush(s: RecorderState): RecorderState {
    var text := JsTrim(s.transcriptRef);
    if text != "" then s.(emitted := s.emitted + [text], transcript := "", transcriptRef := "") else s
  }

  /** stopRecording: only with an engine and while recording; asks the engine to stop and
      flushes at once, leaving the recording flag to the end event. */
  function Stop(s: RecorderState): RecorderState {
    if s.supported && s.recording then Flush(s.(manualStop := true, engine := Stopping)) else s
  }

  /** The result handler: both copies of the transcript are replaced by the event's text. */
  function OnResult(s: RecorderState, results: seq<Segment>, resultIndex: nat): RecorderState {
    var text := EventTranscript(results, resultIndex);
    s.(transcript := text, transcriptRef := text)
  }

  /** The end handler: restart when the engine stopped by itself during a recording; otherwise
      flush, report the recording as stopped and clear the manual-stop flag. */
  function OnEnd(s: RecorderState): RecorderState {
    if !s.manualStop && s.recording then s.(engine := Listening)
    else Flush(s).(recording := false, manualStop := false, engine := Idle)
  }

  /** The error handler: reports the recording as stopped and nothing else. */
  function OnError(s: RecorderState): RecorderState {
    s.(recording := false)
  }

  /** Holding Space starts a recording when none is running and recognition is available. */
  function KeyDown(s: RecorderState, code: string): RecorderState {
    if code == "Space" && !s.recording && s.supported then Start(s) else s
  }

  /** Releasing Space stops a running recording. */
  function KeyUp(s: RecorderState, code: string): RecorderState {
    if code == "Space" && s.recording then Stop(s) else s
  }

  /** The microphone button. */
  function Toggle(s: RecorderState): RecorderState {
    if s.recording then Stop(s) else Start(s)
  }

  // ---- one-step properties ----

  /** A start with an engine available and no recording running clears the manual-stop flag,
      marks the recording and starts the engine, touching neither transcript nor emitting. */
  lemma StartBegins(s: RecorderState)
    requires s.supported && !s.recording
    ensures var t := Start(s);
      t.recording && !t.manualStop && t.engine == Listening && t.emitted == s.emitted
      && t.transcriptRef == s.transcriptRef && t.transcript == s.transcript
  {
  }

  /** A result event replaces the transcript: what was there before plays no part, and the
      displayed copy and the always-current cell agree afterwards. */
  lemma ResultReplaces(s: RecorderState, t: RecorderState, results: seq<Segment>, resultIndex: nat)
    ensures OnResult(s, results, resultIndex).transcriptRef == OnResult(t, results, resultIndex).transcriptRef
    ensures OnResult(s, results, resultIndex).transcript == OnResult(s, results, resultIndex).transcriptRef
    ensures OnResult(s, results, resultIndex).emitted == s.emitted
  {
  }

  /** A manual stop hands over the trimmed transcript exactly once when it is not blank, and
      then clears both copies; a blank transcript is neither emitted nor cleared. */
  lemma StopFlushesOnce(s: RecorderState)
    requires s.supported && s.recording
    ensures var t := Stop(s);
      t.manualStop && t.engine == Stopping && t.recording
      && t.emitted == s.emitted + (if JsTrim(s.transcriptRef) == "" then [] else [JsTrim(s.transcriptRef)])
      && (JsTrim(s.transcriptRef) != "" ==> t.transcriptRef == "" && t.transcript == "")
      && (JsTrim(s.transcriptRef) == "" ==> t.transcriptRef == s.transcriptRef && t.transcript == s.transcript)
  {
  }

  /** An engine that ends by itself during a recording is restarted: nothing is emitted and the
      transcript survives. */
  lemma AutoRestartKeepsTranscript(s: RecorderState)
    requires !s.manualStop && s.recording
    ensures var t := OnEnd(s);
      t.recording && t.engine == Listening && t.emitted == s.emitted
      && t.transcriptRef == s.transcriptRef && t.transcript == s.transcript
  {
  }

  /** Any other end event flushes (emitting and clearing both copies only for a non-blank
      transcript), ends the recording and clears the manual-stop flag. */
  lemma EndFlushes(s: RecorderState)
    requires s.manualStop || !s.recording
    ensures var t := OnEnd(s);
      !t.recording && !t.manualStop && t.engine == Idle
      && t.emitted == s.emitted + (if JsTrim(s.transcriptRef) == "" then [] else [JsTrim(s.transcriptRef)])
      && (JsTrim(s.transcriptRef) != "" ==> t.transcriptRef == "" && t.transcript == "")
      && (JsTrim(s.transcriptRef) == "" ==> t.transcriptRef == s.transcriptRef && t.transcript == s.transcript)
  {
  }

  /** An error ends the recording without emitting and without touching the transcript. */
  lemma ErrorKeepsTranscript(s: RecorderState)
    ensures var t := OnError(s);
      !t.recording && t.emitted == s.emitted && t.transcriptRef == s.transcriptRef
      && t.transcript == s.transcript && t.manualStop == s.manualStop
  {
  }

  /** The Space-key guards: key-down acts only as a start while idle with recognition available,
      key-up only as a stop while recording; every other key is ignored. */
  lemma KeyGuards(s: RecorderState, code: string)
    ensures KeyDown(s, code) != s ==> code == "Space" && !s.recording && s.supported
    ensures KeyUp(s, code) != s ==> code == "Space" && s.recording
    ensures code == "Space" && !s.recording && s.supported ==> KeyDown(s, code).recording
    ensures code == "Space" && s.recording && s.supported ==> KeyUp(s, code).manualStop
  {
  }

  // ---- event orderings ----

  /** Stop followed by its end event: one emission of the trimmed transcript, or none when it
      was blank, and the recorder is idle. */
  lemma StopThenEnd(s: RecorderState)
    requires s.supported && s.recording
    ensures var t := OnEnd(Stop(s));
      !t.recording && !t.manualStop && t.engine == Idle
      && t.emitted == s.emitted + (if JsTrim(s.transcriptRef) == "" then [] else [JsTrim(s.transcriptRef)])
  {
  }

  /** A result event that lands between the stop and its end event refills the buffer, and the end
      event then emits a second time: one manual stop, two voice results. */
  lemma LateResultEmitsTwice(s: RecorderState, results: seq<Segment>, resultIndex: nat)
    requires s.supported && s.recording
    requires JsTrim(s.transcriptRef) != "" && JsTrim(EventTranscript(results, resultIndex)) != ""
    ensures OnEnd(OnResult(Stop(s), results, resultIndex)).emitted
         == s.emitted + [JsTrim(s.transcriptRef), JsTrim(EventTranscript(results, resultIndex))]
  {
  }

  /** An error clears the recording flag, so the end event that follows it takes the flushing
      branch: the transcript the error left in place is emitted after all. */
  lemma ErrorThenEndFlushes(s: RecorderState)
    requires JsTrim(s.transcriptRef) != ""
    ensures OnEnd(OnError(s)).emitted == s.emitted + [JsTrim(s.transcriptRef)]
    ensures !OnEnd(OnError(s)).recording
  {
  }

  // ---- traces ----

  /** What can happen to the recorder: user requests, key gestures and engine callbacks. */
  datatype Event =
    | StartRequest
    | StopRequest
    | ToggleRequest
    | KeyDownEvent(code: string)
    | KeyUpEvent(code: string)
    | EngineResult(results: seq<Segment>, resultIndex: nat)
    | EngineEnd
    | EngineError

  /** One event. The engine calls its handlers only while it is capturing or stopping. */
  function Step(s: RecorderState, e: Event): RecorderState {
    match e
    case StartRequest => Start(s)
    case StopRequest => Stop(s)
    case ToggleRequest => Toggle(s)
    case KeyDownEvent(code) => KeyDown(s, code)
    case KeyUpEvent(code) => KeyUp(s, code)
    case EngineResult(results, resultIndex) => if s.engine != Idle then OnResult(s, results, resultIndex) else s
    case EngineEnd => if s.engine != Idle then OnEnd(s) else s
    case EngineError => if s.engine != Idle then OnError(s) else s
  }

  function Run(s: RecorderState, events: seq<Event>): RecorderState
    decreases |events|
  {
    if events == [] then s else Run(Step(s, events[0]), events[1..])
  }

  /** The events that can hand a transcript over: the stop requests, the key releases and the
      end events. */
  function FlushPoints(events: seq<Event>): nat {
    if events == [] then 0
    else
      var e := events[0];
      (if e.StopRequest? || e.ToggleRequest? || e.KeyUpEvent? || e.EngineEnd? then 1 else 0)
      + FlushPoints(events[1..])
  }

  /** What holds after every event: the two copies of the transcript agree, every voice result is
      non-blank and already trimmed, a recording always has an engine that has not ended, and
      without recognition there is neither. */
  predicate Inv(s: RecorderState) {
    s.transcript == s.transcriptRef
    && (forall k :: 0 <= k < |s.emitted| ==> Trimmed(s.emitted[k], Js))
    && (s.recording ==> s.engine != Idle)
    && (!s.supported ==> s.engine == Idle && !s.recording)
  }

  lemma FlushPreservesEmitted(s: RecorderState)
    requires forall k :: 0 <= k < |s.emitted| ==> Trimmed(s.emitted[k], Js)
    ensures var t := Flush(s);
      forall k :: 0 <= k < |t.emitted| ==> Trimmed(t.emitted[k], Js)
  {
    TrimIdempotent(s.transcriptRef, Js);
  }

  lemma StepPreservesInv(s: RecorderState, e: Event)
    requires Inv(s)
    ensures Inv(Step(s, e))
    ensures s.emitted <= Step(s, e).emitted
    ensures |Step(s, e).emitted| <= |s.emitted| + FlushPoints([e])
  {
    var stopping := s.(manualStop := true, engine := Stopping);
    match e {
      case StopRequest => FlushPreservesEmitted(stopping);
      case ToggleRequest => FlushPreservesEmitted(stopping);
      case KeyUpEvent(_) => FlushPreservesEmitted(stopping);
      case EngineEnd => FlushPreservesEmitted(s);
      case _ =>
    }
  }

  /** Over any sequence of events the invariant holds, earlier voice results are never changed,
      and each event adds at most one, and only a stop, a key release or an end event adds one. */
  lemma {:induction false} RunPreservesInv(s: RecorderState, events: seq<Event>)
    requires Inv(s)
    ensures Inv(Run(s, events))
    ensures s.emitted <= Run(s, events).emitted
    ensures |Run(s, events).emitted| <= |s.emitted| + FlushPoints(events)
    decreases |events|
  {
    if events != [] {
      StepPreservesInv(s, events[0]);
      RunPreservesInv(Step(s, events[0]), events[1..]);
    }
  }

  /** From a freshly mounted recorder, every voice result ever handed over is non-blank and equal
      to its own trim. */
  lemma EmittedAreTrimmed(supported: bool, events: seq<Event>, k: nat)
    requires k < |Run(Initial(supported), events).emitted|
    ensures var text := Run(Initial(supported), events).emitted[k];
      text != "" && JsTrim(text) == text
  {
    RunPreservesInv(Initial(supported), events);
    TrimmedIff(Run(Initial(supported), events).emitted[k], Js);
  }

  /** Without speech recognition the recorder never leaves its initial state. */
  lemma {:induction false} UnsupportedIsInert(s: RecorderState, events: seq<Event>)
    requires !s.supported && Inv(s)
    ensures Run(s, events) == s
    decreases |events|
  {
    if events != [] {
      assert Step(s, events[0]) == s;
      UnsupportedIsInert(s, events[1..]);
    }
  }

  // ---- the component ----

  class VoiceRecorder {
    const supported: bool
    var recording: bool
    var manualStop: bool
    var transcriptRef: string
    var transcript: string
    ghost var engine: Engine
    var emitted: seq<string>

    ghost function State(): RecorderState
      reads this
    {
      RecorderState(supported, recording, manualStop, transcriptRef, transcript, engine, emitted)
    }

    /** Mounting: `supported` says whether the browser offers a recognition engine. */
    constructor (supported: bool)
      ensures State() == Initial(supported)
    {
      this.supported := supported;
      recording, manualStop := false, false;
      transcriptRef, transcript := "", "";
      engine := Idle;
      emitted := [];
    }

    method StartRecording()
      modifies this
      ensures State() == Start(old(State()))
    {
      if supported && !recording {
        manualStop := false;
        recording := true;    // onStartRecording
        engine := Listening;  // recognition.start()
      }
    }

    /** Emits and clears the trimmed transcript if it is not blank. */
    method FlushTranscript()
      modifies this
      ensures State() == Flush(old(State()))
    {
      var text := JsTrim(transcriptRef);
      if text != "" {
        emitted := emitted + [text];  // onVoiceResult
        transcript := "";
        transcriptRef := "";
      }
    }

    method StopRecording()
      modifies this
      ensures State() == Stop(old(State()))
    {
      if supported && recording {
        manualStop := true;
        engine := Stopping;  // recognition.stop()
        FlushTranscript();
      }
    }

    method ToggleRecording()
      modifies this
      ensures State() == Toggle(old(State()))
    {
      if recording {
        StopRecording();
      } else {
        StartRecording();
      }
    }

    // The engine callbacks below are delivered only by an engine that was started.

    method HandleResult(results: seq<Segment>, resultIndex: nat)
      requires engine != Idle
      modifies this
      ensures State() == OnResult(old(State()), results, resultIndex)
    {
      var current := CurrentTranscript(results, resultIndex);
      transcript := current;
      transcriptRef := current;
    }

    method HandleEnd()
      requires engine != Idle
      modifies this
      ensures State() == OnEnd(old(State()))
    {
      if !manualStop && recording {
        engine := Listening;  // recognition.start()
      } else {
        FlushTranscript();
        recording := false;   // onStopRecording
        manualStop := false;
        engine := Idle;
      }
    }

    method HandleError()
      requires engine != Idle
      modifies this
      ensures State() == OnError(old(State()))
    {
      recording := false;  // onStopRecording
    }

    /** Returns whether the key's default action was prevented. */
    method HandleKeyDown(code: string) returns (handled: bool)
      modifies this
      ensures handled <==> code == "Space" && !old(recording) && supported
      ensures State() == KeyDown(old(State()), code)
    {
      handled := code == "Space" && !recording && supported;
      if handled {
        StartRecording();
      }
    }

    method HandleKeyUp(code: string) returns (handled: bool)
      modifies this
      ensures handled <==> code == "Space" && old(recording)
      ensures State() == KeyUp(old(State()), code)
    {
      handled := code == "Space" && recording;
      if handled {
        StopRecording();
      }
    }
  }
}
