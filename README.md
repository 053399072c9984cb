# Voice chatbot: speech capture, chat thread and session table in Dafny

This project models the logic of a voice-enabled chat client and its backend:

- **Voice recorder** (`voice.dfy`, module `Voice`): the push-to-talk state machine. It holds the
  recording flag, the manual-stop flag, the always-current transcript cell, the displayed copy of
  the transcript, and the recognition engine's state (`Idle`, `Listening`, `Stopping`; ghost in the
  class). Its transitions are start, stop, result event, end event (auto-restart or flush), error
  event, the microphone toggle and the Space-key guards. `RecorderState` and its transition
  functions are the specification. Each handler of the class `VoiceRecorder` is proved to perform
  its transition. Every transcript handed to the chat interface is recorded in `emitted`.
- **Chat interface** (`chat.dfy`, module `Chat`): the message thread, the typing indicator, the
  connection status, the speaking flag and the shared audio element. It covers the health probe,
  `sendMessage` (one atomic step whose backend outcome is a parameter), automatic playback,
  `stopSpeaking`, Enter-to-send and the voice-result callback. The class `ChatInterface` holds the
  same state in fields.
- **Backend** (`backend.dfy`, module `Backend`): the `/api/chat` handler and its in-memory
  `user_contexts` table of per-session introductions. The language model and the speech synthesiser
  are function parameters: the model may raise (None) and the synthesiser may fail (None). The
  class `App` keeps the table in a `map` field.
- **Built-ins** (`builtins.dfy`, module `Builtins`): JavaScript's `trim` and Python's `strip`, each
  with its own white-space set. It also has `Number.prototype.toString` on non-negative integers
  (used for message ids and the session id) and POSIX `os.path.basename`.
- **End to end** (`end_to_end.dfy`, module `EndToEnd`): a client request sent through the backend
  handler and back into the thread.

Clock readings (`Date.now()`, `new Date()`) are parameters (`now`, `sentAt`, `repliedAt`). The
outcome of each fetch is a parameter too: `Reply` for a chat request, `Probe` for the health
probe. The recording flag belongs to the chat interface in the source; its two callbacks only set
it, so the model keeps it in the recorder state.

Some consequences of the code as written, each proved as a lemma:

- The error handler only reports the recording as stopped (`VoiceRecorder.tsx:64-67`); it leaves
  the transcript and the manual-stop flag alone. The end event that follows therefore takes the
  flushing branch (`VoiceRecorder.tsx:81-90`) and emits the transcript
  (`Voice.ErrorThenEndFlushes`).
- `stopRecording` flushes at once (`VoiceRecorder.tsx:133-137`), and the end event flushes again
  (`VoiceRecorder.tsx:83-87`); the comments at lines 82 and 132 say the transcript is to be sent on
  a manual stop. A result event that arrives between the stop and the end event therefore produces
  a second voice result (`Voice.LateResultEmitsTwice`). With no such event, a stop gives exactly
  one emission, or none for a blank transcript (`Voice.StopThenEnd`).
- The client and the backend use different white-space sets. The client tests blankness with
  JavaScript's `trim`; the backend uses Python's `strip`. A message such as U+001C passes the
  client's check and is refused by the backend with 400, and the thread then shows the "backend is
  not running" error text (`EndToEnd.SeparatorIsSentButRefused`).

## Model

| member | source | states |
|---|---|---|
| Builtins.IsJsSpace | src/components/ChatInterface.tsx:53 | the characters `String.prototype.trim` removes: WhiteSpace and LineTerminator of ECMA-262 (definition; compared with Python's set by `Builtins.SpaceSetsDiffer`) |
| Builtins.IsPySpace | backend/app.py:75 | the characters `str.strip()` removes, those for which `str.isspace` holds (definition; compared by `Builtins.SpaceSetsDiffer`) |
| Builtins.SpaceSetsDiffer | backend/app.py:75 | the two sets differ exactly in U+FEFF (JavaScript only) and U+001C..U+001F and U+0085 (Python only) |
| Builtins.JsTrim | src/components/ChatInterface.tsx:53 | `text.trim()`: leading and trailing JavaScript white space dropped (definition; its properties are the Trim lemmas below) |
| Builtins.PyStrip | backend/app.py:75 | `message.strip()`: leading and trailing Python white space dropped (definition; its properties are the Trim lemmas below) |
| Builtins.TrimStartSpec | src/components/ChatInterface.tsx:53 | trimming the front removes only white space, and stops at the first other character |
| Builtins.TrimEndSpec | src/components/ChatInterface.tsx:53 | trimming the back removes only white space, and stops at the last other character |
| Builtins.TrimIsSlice | src/components/ChatInterface.tsx:53 | a trim result is the slice of the input between its first and last non-space characters; only white space is cut on either side |
| Builtins.TrimEmptyIff | backend/app.py:75-80 | a string trims to empty exactly when every character is white space |
| Builtins.TrimIdempotent | src/components/VoiceRecorder.tsx:83-84 | trimming twice equals trimming once, and a non-empty result starts and ends with non-space |
| Builtins.TrimmedIff | src/components/VoiceRecorder.tsx:133-134 | "starts and ends with non-space" is exactly "non-empty and equal to its own trim" |
| Builtins.NatToString | src/components/ChatInterface.tsx:56 | an id is a non-empty string of decimal digits with no leading zero |
| Builtins.NatToStringRoundTrip | src/components/ChatInterface.tsx:56 | reading an id back as a decimal number gives the clock value it came from |
| Builtins.NatToStringInjective | src/components/ChatInterface.tsx:56 | different clock readings give different message ids |
| Builtins.Basename | backend/app.py:97 | the base name is the longest suffix of the path without '/', and what precedes it is '/' |
| Voice.JoinedEmptyIff | src/components/VoiceRecorder.tsx:43-50 | the joined final (or interim) text is empty exactly when every final (or interim) segment is empty |
| Voice.CurrentTranscript | src/components/VoiceRecorder.tsx:40-52 | the result loop joins final and interim segments from resultIndex on, and yields the final text unless it is empty, else the interim text |
| Voice.EventTranscriptEmptyIff | src/components/VoiceRecorder.tsx:39-54 | a result event leaves an empty transcript exactly when every segment it visits is empty |
| Voice.FinalTextWins | src/components/VoiceRecorder.tsx:52 | one visited final segment with text makes the final text the transcript, and interim text is ignored |
| Voice.Start | src/components/VoiceRecorder.tsx:120-126 | `startRecording` on values: with an engine and not recording, reset manual-stop, set recording, start the engine; otherwise nothing (definition; see `Voice.StartBegins`) |
| Voice.Stop | src/components/VoiceRecorder.tsx:128-139 | `stopRecording` on values: with an engine and recording, set manual-stop, stop the engine and flush; otherwise nothing (definition; see `Voice.StopFlushesOnce`) |
| Voice.Flush | src/components/VoiceRecorder.tsx:133-137 | the shared flush of lines 83-87 and 133-137 (definition; see `Voice.StopFlushesOnce`, `Voice.EndFlushes`) |
| Voice.OnResult | src/components/VoiceRecorder.tsx:39-54 | the result handler on values: both copies set to the event's transcript (definition; see `Voice.ResultReplaces`) |
| Voice.OnEnd | src/components/VoiceRecorder.tsx:78-91 | the end handler on values: restart, or flush and end the recording (definition; see `Voice.AutoRestartKeepsTranscript`, `Voice.EndFlushes`) |
| Voice.OnError | src/components/VoiceRecorder.tsx:64-67 | the error handler on values: only the recording flag clears (definition; see `Voice.ErrorKeepsTranscript`) |
| Voice.KeyDown | src/components/VoiceRecorder.tsx:97-102 | the Space key-down guard (definition; see `Voice.KeyGuards`) |
| Voice.KeyUp | src/components/VoiceRecorder.tsx:104-109 | the Space key-up guard (definition; see `Voice.KeyGuards`) |
| Voice.Toggle | src/components/VoiceRecorder.tsx:149-155 | the microphone button: stop while recording, start otherwise (definition; its invariant is `Voice.StepPreservesInv`) |
| Voice.StartBegins | src/components/VoiceRecorder.tsx:120-126 | a start with an engine and no recording clears manual-stop, sets recording, starts the engine, and neither emits nor touches the transcript |
| Voice.ResultReplaces | src/components/VoiceRecorder.tsx:52-54 | a result event's transcript does not depend on the earlier buffer; both copies agree afterwards; nothing is emitted |
| Voice.StopFlushesOnce | src/components/VoiceRecorder.tsx:128-139 | a stop sets manual-stop and stops the engine, but keeps the recording flag; a non-blank trimmed transcript is emitted once and both copies are cleared; a blank one is neither emitted nor cleared |
| Voice.AutoRestartKeepsTranscript | src/components/VoiceRecorder.tsx:78-80 | an engine that ends by itself while recording is restarted; nothing is emitted and the transcript is kept |
| Voice.EndFlushes | src/components/VoiceRecorder.tsx:81-90 | any other end event emits the trimmed transcript and clears both copies if it is not blank, leaves both copies alone if it is, clears the recording flag and resets manual-stop |
| Voice.ErrorKeepsTranscript | src/components/VoiceRecorder.tsx:64-67 | an error clears the recording flag; nothing is emitted and the transcript is untouched |
| Voice.KeyGuards | src/components/VoiceRecorder.tsx:97-109 | Space-down acts only when not recording and supported; Space-up acts only when recording; other keys do nothing |
| Voice.StopThenEnd | src/components/VoiceRecorder.tsx:78-91 | a stop followed by its end event emits the trimmed transcript exactly once (none if blank) and leaves the recorder idle |
| Voice.LateResultEmitsTwice | src/components/VoiceRecorder.tsx:83-87 | a non-blank result between a stop and its end event makes one manual stop emit twice |
| Voice.ErrorThenEndFlushes | src/components/VoiceRecorder.tsx:64-91 | after an error, the following end event emits the transcript the error left in place |
| Voice.StepPreservesInv | src/components/VoiceRecorder.tsx:39-139 | every event keeps both transcript copies equal and every voice result trimmed; a recording always has a live engine; each event adds at most one result and keeps earlier ones |
| Voice.RunPreservesInv | src/components/VoiceRecorder.tsx:39-139 | over any event sequence the invariant holds; results are only appended; their count grows by at most the number of stops, key releases and end events |
| Voice.EmittedAreTrimmed | src/components/VoiceRecorder.tsx:83-84 | every voice result ever emitted is non-empty and equal to its own trim |
| Voice.UnsupportedIsInert | src/components/VoiceRecorder.tsx:120-129 | without a recognition engine no event changes the recorder |
| Voice.VoiceRecorder.constructor | src/components/VoiceRecorder.tsx:18-22 | a mounted recorder is not recording, has no manual stop, and has empty transcripts |
| Voice.VoiceRecorder.StartRecording | src/components/VoiceRecorder.tsx:120-126 | with an engine and not recording: reset manual-stop, set recording, start the engine; otherwise nothing |
| Voice.VoiceRecorder.FlushTranscript | src/components/VoiceRecorder.tsx:133-137 | emit and clear the trimmed transcript when it is not blank |
| Voice.VoiceRecorder.StopRecording | src/components/VoiceRecorder.tsx:128-139 | with an engine and recording: set manual-stop, stop the engine, flush; otherwise nothing |
| Voice.VoiceRecorder.ToggleRecording | src/components/VoiceRecorder.tsx:149-155 | the button stops a running recording and starts otherwise |
| Voice.VoiceRecorder.HandleResult | src/components/VoiceRecorder.tsx:39-54 | both transcript copies are set to the event's transcript |
| Voice.VoiceRecorder.HandleEnd | src/components/VoiceRecorder.tsx:78-91 | restart, or flush, clear the recording flag and reset manual-stop |
| Voice.VoiceRecorder.HandleError | src/components/VoiceRecorder.tsx:64-67 | only the recording flag is cleared |
| Voice.VoiceRecorder.HandleKeyDown | src/components/VoiceRecorder.tsx:97-102 | the default action is prevented exactly for Space while idle and supported, and then a recording starts |
| Voice.VoiceRecorder.HandleKeyUp | src/components/VoiceRecorder.tsx:104-109 | the default action is prevented exactly for Space while recording, and then the recording stops |
| Chat.InitialState | src/components/ChatInterface.tsx:9-21 | on mount: one bot greeting with id "1"; disconnected, not typing, not speaking |
| Chat.HealthStatus | src/components/ChatInterface.tsx:39-50 | the probe gives connected exactly for an ok response; an error status or an exception gives disconnected; never connecting |
| Chat.Submit | src/components/ChatInterface.tsx:55-66 | the optimistic half of `sendMessage` (definition; see `Chat.SubmitIsOptimistic`) |
| Chat.Settle | src/components/ChatInterface.tsx:68-116 | the reply or error half of `sendMessage` (definition; see `Chat.SendSucceeds`, `Chat.SendFails`) |
| Chat.Send | src/components/ChatInterface.tsx:52-117 | `sendMessage` as one step: nothing for blank text, else submit then settle (definition; see `Chat.BlankSendIsNoop` and the send lemmas) |
| Chat.KeyPress | src/components/ChatInterface.tsx:159-164 | Enter without Shift sends the input text (definition; see `Chat.EnterSends`) |
| Chat.SessionIdsDistinct | src/components/ChatInterface.tsx:22 | components mounted at different clock readings get different "session_" ids |
| Chat.BlankSendIsNoop | src/components/ChatInterface.tsx:52-53 | whitespace-only text changes nothing: no message, no status change, no request |
| Chat.SubmitIsOptimistic | src/components/ChatInterface.tsx:55-66 | before the reply: the untrimmed user message with its voice flag is appended after all earlier ones; input cleared, typing on, status connecting, one request with the session id |
| Chat.SendSucceeds | src/components/ChatInterface.tsx:85-97 | success: N messages become N+2 (user, then bot with the response); hasAudio exactly when a non-empty audioUrl came back, resolved against the backend origin; connected; typing off |
| Chat.AutoPlayOnlyForVoice | src/components/ChatInterface.tsx:99-102 | playback starts exactly for a voice send whose reply has audio; otherwise the audio element and speaking flag are unchanged |
| Chat.SendFails | src/components/ChatInterface.tsx:103-113 | failure: user message plus exactly one error-flagged bot message with the fixed text; status disconnected; typing off |
| Chat.TypingEndsAfterSend | src/components/ChatInterface.tsx:114-116 | typing is off after every non-blank send, on either path; a blank send leaves it alone |
| Chat.StopSpeakingIdempotent | src/components/ChatInterface.tsx:144-153 | stopping leaves speaking off and audio paused; doing it twice equals doing it once; the thread and status are untouched |
| Chat.EnterSends | src/components/ChatInterface.tsx:159-164 | Enter without Shift sends the typed text as a non-voice message; any other key does nothing |
| Chat.HelloExample | src/components/ChatInterface.tsx:52-117 | "hello" answered with "hi there" and no audio gives greeting, user "hello", bot "hi there" without audio |
| Chat.VoiceExample | src/components/ChatInterface.tsx:87-102 | a voice reply with "/audio/1.mp3" gets hasAudio and "http://localhost:5000/audio/1.mp3", and plays it |
| Chat.SendKeepsThread | src/components/ChatInterface.tsx:52-117 | a send appends one request and its user and bot messages; earlier messages keep their order |
| Chat.StepKeepsThread | src/components/ChatInterface.tsx:52-164 | no user action reorders or removes messages; the thread keeps its greeting-then-pairs shape |
| Chat.RunKeepsThread | src/components/ChatInterface.tsx:52-164 | over a session the thread only grows; each request's user message is followed by exactly one bot message; the session id never changes |
| Chat.SessionThread | src/components/ChatInterface.tsx:9-22 | from mount the greeting stays first, and the session id is "session_" plus the mount time |
| Chat.ChatInterface.constructor | src/components/ChatInterface.tsx:9-24 | the fields start as the initial state |
| Chat.ChatInterface.CheckBackendHealth | src/components/ChatInterface.tsx:39-50 | only the status changes, to the probe's status |
| Chat.ChatInterface.PlayAudioResponse | src/components/ChatInterface.tsx:119-132 | speaking on, and the audio element playing the URL |
| Chat.ChatInterface.SendMessage | src/components/ChatInterface.tsx:52-117 | the fields become the send's result |
| Chat.ChatInterface.StopSpeaking | src/components/ChatInterface.tsx:144-153 | audio paused and speaking off |
| Chat.ChatInterface.HandleVoiceResult | src/components/ChatInterface.tsx:155-157 | a voice result is sent as a voice message |
| Chat.ChatInterface.SetInputText | src/components/ChatInterface.tsx:227 | only the input text changes |
| Chat.ChatInterface.HandleKeyPress | src/components/ChatInterface.tsx:159-164 | the default action is prevented exactly for Enter without Shift, which sends the input text |
| Backend.AudioUrl | backend/app.py:92-97 | the audio URL of a reply (definition; see `Backend.AudioUrlOnlyForVoice`) |
| Backend.HandleChat | backend/app.py:71-107 | `chat()` on values: the response and the new table (definition; its properties are the Backend lemmas) |
| Backend.BlankMessageRejected | backend/app.py:75-80 | a missing or whitespace-only message gets 400 "Message is required" and leaves the table unchanged |
| Backend.SessionEchoed | backend/app.py:77-103 | a successful response names the session used: the body's sessionId, or "default" when it is missing |
| Backend.FirstMessageIsIntroduction | backend/app.py:83-86 | an unseen session's first non-blank message is stored, stripped, as its introduction; the reply is the fixed thank-you text |
| Backend.KnownSessionAnswered | backend/app.py:87-90 | for a known session the table is unchanged; the reply is the model's answer to (introduction, message), or 500 when the model raises |
| Backend.AudioUrlOnlyForVoice | backend/app.py:92-97 | audioUrl is present exactly for voice requests whose audio file was written; it is "/api/audio/" plus a base name without '/' |
| Backend.TableOnlyGrows | backend/app.py:83-90 | no request removes or changes an entry; the only possible insertion is an unseen session's first message |
| Backend.HandleKeepsWellFormed | backend/app.py:75-85 | every stored introduction stays a non-blank stripped message |
| Backend.IntroductionIsPermanent | backend/app.py:41-90 | over any sequence of requests, a stored introduction is never overwritten or removed |
| Backend.App.constructor | backend/app.py:41 | the table starts empty |
| Backend.App.Chat | backend/app.py:71-107 | the response and the new table are the handler's outcome |
| EndToEnd.SpokenQuestionIsPlayed | backend/app.py:87-103 | a spoken question in an introduced session, with audio written, gets a bot message with hasAudio; it plays from the backend origin plus "/api/audio/" plus the file's base name |
| EndToEnd.SeparatorIsSentButRefused | backend/app.py:75-80 | U+001C passes the client's trim check, is refused by the backend with 400, and ends as an error message with status disconnected |

## Left out

- Rendering: message bubbles, the typing indicator, the app shell, the JSX of both components,
  and scrolling to the newest message.
- The fetch, HTTP and JSON plumbing. Each send is one atomic step and its outcome is a parameter.
  The interleaving of concurrent sends and late responses is not modelled, so the pending state
  (typing on, status connecting) is visible only in `Chat.Submit`.
- React effect re-registration and stale closures. The handlers read the current fields. In the
  source, a change of `isRecording` re-runs the effect (`VoiceRecorder.tsx:118`) and builds a new
  recognition object, which is not modelled. As written, the engine that `startRecording` starts
  (`VoiceRecorder.tsx:121-124`) was built while `isRecording` was false, so its `onend` (line 79)
  never takes the restart branch. The `stop()` in `stopRecording` (line 131) reaches the fresh,
  unstarted object built after the flag changed. `Voice.AutoRestartKeepsTranscript` therefore
  describes a branch the running engine never reaches; the model has one engine whose handlers
  see the current flags.
- The browser engines. Speech recognition is only its ghost state. Calling `start()` on an engine
  that is already running throws in the browser; the model does not capture that. Recognition
  alternatives other than the first are left out.
- `speechSynthesis` and `playBotResponse`. The component never calls `playBotResponse`. The
  message bubble speaks a message itself only when it has `hasAudio` but no `audioUrl`, and
  `ChatInterface.tsx:92-93` always sets the two together, so that branch is unreachable too. No
  synthesis utterance is ever in flight, and `cancel()` therefore has no modelled effect.
  `MessageBubble.tsx` is not part of this model.
- The audio element's playback position. The rewind in `stopSpeaking` is not modelled.
- The asynchronous end or failure of `play()`, which clears the speaking flag later.
- Message ids and timestamps. These come from clock parameters, and id uniqueness is not a
  property of the source.
- Backend: `speech_to_text` (foreign speech SDK and temporary files), `serve_audio` (file-system
  I/O), the health endpoint's body, and the Flask and environment setup. The prompt built in
  `azure_chatgpt_response` is only the opaque `answer` parameter.
- Backend: JSON values of the wrong type. A non-string `message` makes `.strip()` raise, so the
  handler answers 500; the model's `message` is always a string and does not capture that. A
  null, numeric or boolean `sessionId` does not raise: it becomes a table key and is echoed back
  with status 200. An array or object `sessionId` cannot be hashed, so the membership test at
  `app.py:83` raises and the handler answers 500 (a blank message still gets 400 first). A non-boolean `isVoice` is taken by its truthiness. Neither is modelled:
  both fields are typed (`string` and `bool`). A request without a JSON object is modelled as
  `None` and gets 500.
