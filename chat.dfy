/** The chat interface of the client: the message thread, the typing indicator, the connection
    status, the speaking flag and the shared audio element. One send is one atomic step whose
    backend outcome is given; the clock readings that become message ids and timestamps are
    parameters too. `requests` records the bodies posted to the backend. */
module Chat {
  import opened Builtins

  const BackendOrigin := "http://localhost:5000"
  const Greeting := "Hello! I'm your voice assistant. Please introduce yourself first, then you can ask me questions."
  const ErrorText := "Sorry, I encountered an error. Please make sure the backend server is running on http://localhost:5000"

  datatype Sender = User | Bot

  datatype Status = Connected | Connecting | Disconnected

  /** A message of the thread. The optional flags of the record read as false when they are absent. */
  datatype Message = Message(
    id: string,
    text: string,
    sender: Sender,
    timestamp: nat,
    isVoice: bool,
    hasAudio: bool,
    audioUrl: Option<string>,
    isError: bool)

  /** The JSON body posted to /api/chat. */
  datatype ChatRequest = ChatRequest(message: string, isVoice: bool, sessionId: string)

  /** How one exchange with the backend ends: an ok response with its `response` and `audioUrl`
      fields, or a failure (a status that is not ok, or an exception from the network). */
  datatype Reply = Answered(response: string, audioUrl: Option<string>) | Failed

  /** How the health probe ends: a response with its ok flag, or an exception. */
  datatype Probe = Responded(ok: bool) | Unreachable

  datatype InterfaceState = InterfaceState(
    messages: seq<Message>,
    inputText: string,
    isTyping: bool,
    status: Status,
    isSpeaking: bool,
    sessionId: string,
    requests: seq<ChatRequest>,
    audioSrc: string,     // the audio element's src
    audioPaused: bool)    // whether the audio element is paused

  function GreetingMessage(now: nat): Message {
    Message("1", Greeting, Bot, now, false, false, None, false)
  }

  /** The state on mount, `now` being the clock reading that also names the session. */
  function Initial(now: nat): InterfaceState {
    InterfaceState([GreetingMessage(now)], "", false, Disconnected, false,
                   "session_" + NatToString(now), [], "", true)
  }

  /** On mount the thread holds only the greeting, with id "1"; nothing is typing, speaking or
      connected, and nothing has been sent. */
  lemma InitialState(now: nat)
    ensures var s := Initial(now);
      |s.messages| == 1 && s.messages[0].id == "1" && s.messages[0].sender == Bot
      && s.messages[0].text == Greeting
      && s.status == Disconnected && !s.isTyping && !s.isSpeaking && s.requests == []
  {
  }

  /** The status the health probe sets. */
  function HealthStatus(probe: Probe): (r: Status)
    ensures r == Connected <==> probe.Responded? && probe.ok
    ensures r != Connecting
  {
    match probe
    case Responded(ok) => if ok then Connected else Disconnected
    case Unreachable => Disconnected
  }

  /** A relative audio URL made playable: a present, non-empty one is prefixed with the backend's
      origin; anything else counts as no audio. */
  function ResolvedUrl(audioUrl: Option<string>): Option<string> {
    if audioUrl.Some? && audioUrl.value != "" then Some(BackendOrigin + audioUrl.value) else None
  }

  function UserMessage(text: string, isVoice: bool, now: nat): Message {
    Message(NatToString(now), text, User, now, isVoice, false, None, false)
  }

  function BotResponse(response: string, audioUrl: Option<string>, now: nat): Message {
    var url := ResolvedUrl(audioUrl);
    Message(NatToString(now + 1), response, Bot, now, false, url.Some?, url, false)
  }

  function ErrorMessage(now: nat): Message {
    Message(NatToString(now + 1), ErrorText, Bot, now, false, false, None, true)
  }

  /** playAudioResponse: points the audio element at the URL and plays it. */
  function PlayAudio(s: InterfaceState, url: string): InterfaceState {
    s.(isSpeaking := true, audioSrc := url, audioPaused := false)
  }

  /** What stopSpeaking leaves: the audio element paused and the speaking flag off. */
  function Silenced(s: InterfaceState): InterfaceState {
    s.(audioPaused := true, isSpeaking := false)
  }

  /** The optimistic half of a send, before the request is answered. */
  function Submit(s: InterfaceState, text: string, isVoice: bool, now: nat): InterfaceState {
    s.(messages := s.messages + [UserMessage(text, isVoice, now)],
       inputText := "",
       isTyping := true,
       status := Connecting,
       requests := s.requests + [ChatRequest(text, isVoice, s.sessionId)])
  }

  /** The other half: the reply or the error lands in the thread, and typing ends. */
  function Settle(s: InterfaceState, reply: Reply, isVoice: bool, now: nat): InterfaceState {
    var t :=
      match reply
      case Answered(response, audioUrl) =>
        var bot := BotResponse(response, audioUrl, now);
        var u := s.(messages := s.messages + [bot], status := Connected);
        if bot.audioUrl.Some? && isVoice then PlayAudio(u, bot.audioUrl.value) else u
      case Failed =>
        s.(status := Disconnected, messages := s.messages + [ErrorMessage(now)]);
    t.(isTyping := false)
  }

  /** sendMessage: nothing at all for blank text. */
  function Send(s: InterfaceState, text: string, isVoice: bool, reply: Reply, sentAt: nat, repliedAt: nat): InterfaceState {
    if JsTrim(text) == "" then s else Settle(Submit(s, text, isVoice, sentAt), reply, isVoice, repliedAt)
  }

  /** Enter without Shift sends the typed text. */
  function KeyPress(s: InterfaceState, key: string, shiftKey: bool, reply: Reply, sentAt: nat, repliedAt: nat): InterfaceState {
    if key == "Enter" && !shiftKey then Send(s, s.inputText, false, reply, sentAt, repliedAt) else s
  }

  // ---- properties of one send ----

  /** Whitespace-only text changes nothing: no message, no status change, no request. */
  lemma BlankSendIsNoop(s: InterfaceState, text: string, isVoice: bool, reply: Reply, sentAt: nat, repliedAt: nat)
    requires forall k :: 0 <= k < |text| ==> IsSpace(Js, text[k])
    ensures Send(s, text, isVoice, reply, sentAt, repliedAt) == s
  {
    TrimEmptyIff(text, Js);
  }

  /** Before the reply: the user's message, untrimmed and with its voice flag, is appended after
      every earlier message, the input is cleared, typing shows and the status is connecting. */
  lemma SubmitIsOptimistic(s: InterfaceState, text: string, isVoice: bool, now: nat)
    ensures var t := Submit(s, text, isVoice, now);
      |t.messages| == |s.messages| + 1 && t.messages[..|s.messages|] == s.messages
      && t.messages[|s.messages|].sender == User && t.messages[|s.messages|].text == text
      && t.messages[|s.messages|].isVoice == isVoice
      && t.inputText == "" && t.isTyping && t.status == Connecting
      && t.requests == s.requests + [ChatRequest(text, isVoice, s.sessionId)]
  {
  }

  /** A successful exchange: N messages become N + 2, the last one the bot's reply, which carries
      audio exactly when the backend returned a non-empty audio URL, resolved against the backend's
      origin; the status is connected and typing has ended. */
  lemma SendSucceeds(s: InterfaceState, text: string, isVoice: bool, response: string, audioUrl: Option<string>, sentAt: nat, repliedAt: nat)
    requires JsTrim(text) != ""
    ensures var t := Send(s, text, isVoice, Answered(response, audioUrl), sentAt, repliedAt);
      var n := |s.messages|;
      |t.messages| == n + 2 && t.messages[..n] == s.messages
      && t.messages[n].sender == User && t.messages[n].text == text && t.messages[n].isVoice == isVoice
      && t.messages[n + 1].sender == Bot && t.messages[n + 1].text == response && !t.messages[n + 1].isError
      && (t.messages[n + 1].hasAudio <==> audioUrl.Some? && audioUrl.value != "")
      && (t.messages[n + 1].hasAudio ==> t.messages[n + 1].audioUrl == Some(BackendOrigin + audioUrl.value))
      && (!t.messages[n + 1].hasAudio ==> t.messages[n + 1].audioUrl == None)
      && t.status == Connected && !t.isTyping
      && t.requests == s.requests + [ChatRequest(text, isVoice, s.sessionId)]
  {
    assert (s.messages + [UserMessage(text, isVoice, sentAt)])[..|s.messages|] == s.messages;
  }

  /** The reply is played automatically exactly when it has audio and the message was spoken;
      otherwise the audio element and the speaking flag are as they were. */
  lemma AutoPlayOnlyForVoice(s: InterfaceState, text: string, isVoice: bool, reply: Reply, sentAt: nat, repliedAt: nat)
    requires JsTrim(text) != ""
    ensures var t := Send(s, text, isVoice, reply, sentAt, repliedAt);
      var plays := isVoice && reply.Answered? && reply.audioUrl.Some? && reply.audioUrl.value != "";
      (plays ==> t.isSpeaking && !t.audioPaused && t.audioSrc == BackendOrigin + reply.audioUrl.value)
      && (!plays ==> t.isSpeaking == s.isSpeaking && t.audioPaused == s.audioPaused && t.audioSrc == s.audioSrc)
  {
  }

  /** A failed exchange appends the user's message and one error-flagged bot message with the
      fixed guidance text, and leaves the status disconnected. */
  lemma SendFails(s: InterfaceState, text: string, isVoice: bool, sentAt: nat, repliedAt: nat)
    requires JsTrim(text) != ""
    ensures var t := Send(s, text, isVoice, Failed, sentAt, repliedAt);
      var n := |s.messages|;
      |t.messages| == n + 2 && t.messages[..n] == s.messages
      && t.messages[n].sender == User && t.messages[n].text == text
      && t.messages[n + 1].sender == Bot && t.messages[n + 1].isError && t.messages[n + 1].text == ErrorText
      && !t.messages[n + 1].hasAudio
      && t.status == Disconnected && !t.isTyping
      && t.isSpeaking == s.isSpeaking
  {
    assert (s.messages + [UserMessage(text, isVoice, sentAt)])[..|s.messages|] == s.messages;
  }

  /** Typing is off after every send that got past the blank check, whichever way it ended. */
  lemma TypingEndsAfterSend(s: InterfaceState, text: string, isVoice: bool, reply: Reply, sentAt: nat, repliedAt: nat)
    ensures JsTrim(text) != "" ==> !Send(s, text, isVoice, reply, sentAt, repliedAt).isTyping
    ensures JsTrim(text) == "" ==> Send(s, text, isVoice, reply, sentAt, repliedAt).isTyping == s.isTyping
  {
  }

  /** Stopping playback always leaves the speaking flag off, and doing it twice is doing it once. */
  lemma StopSpeakingIdempotent(s: InterfaceState)
    ensures !Silenced(s).isSpeaking && Silenced(s).audioPaused
    ensures Silenced(Silenced(s)) == Silenced(s)
    ensures Silenced(s).messages == s.messages && Silenced(s).status == s.status
  {
  }

  /** Enter without Shift sends the typed text as a non-voice message; any other key does nothing. */
  lemma EnterSends(s: InterfaceState, key: string, shiftKey: bool, reply: Reply, sentAt: nat, repliedAt: nat)
    ensures key == "Enter" && !shiftKey ==>
      KeyPress(s, key, shiftKey, reply, sentAt, repliedAt) == Send(s, s.inputText, false, reply, sentAt, repliedAt)
    ensures !(key == "Enter" && !shiftKey) ==> KeyPress(s, key, shiftKey, reply, sentAt, repliedAt) == s
  {
  }

  /** The first example exchange: after "hello" is answered with "hi there" and no audio, the
      thread holds the greeting, the user's "hello" and the bot's "hi there", without audio. */
  lemma HelloExample(now: nat, sentAt: nat, repliedAt: nat)
    ensures var t := Send(Initial(now), "hello", false, Answered("hi there", None), sentAt, repliedAt);
      |t.messages| == 3 && t.messages[0] == GreetingMessage(now)
      && t.messages[1].text == "hello" && t.messages[1].sender == User
      && t.messages[2].text == "hi there" && t.messages[2].sender == Bot
      && !t.messages[2].hasAudio && t.messages[2].audioUrl == None && !t.isSpeaking
  {
    TrimEmptyIff("hello", Js);
    assert !IsSpace(Js, "hello"[0]);
  }

  /** The second example: a spoken "what time is it" answered with audio gets a bot message whose
      audio URL is the backend's origin followed by the relative URL, and playback starts. */
  lemma VoiceExample(s: InterfaceState, sentAt: nat, repliedAt: nat)
    ensures var t := Send(s, "what time is it", true, Answered("3 PM", Some("/audio/1.mp3")), sentAt, repliedAt);
      var bot := t.messages[|t.messages| - 1];
      bot.text == "3 PM" && bot.hasAudio && bot.audioUrl == Some("http://localhost:5000/audio/1.mp3")
      && t.isSpeaking && t.audioSrc == "http://localhost:5000/audio/1.mp3"
  {
    TrimEmptyIff("what time is it", Js);
    assert !IsSpace(Js, "what time is it"[0]);
    assert BackendOrigin + "/audio/1.mp3" == "http://localhost:5000/audio/1.mp3";
  }

  // ---- the thread over a session ----

  /** What the user and the browser can do to the interface. */
  datatype Action =
    | TypeText(text: string)
    | SendButton(reply: Reply, sentAt: nat, repliedAt: nat)
    | PressKey(key: string, shiftKey: bool, reply: Reply, sentAt: nat, repliedAt: nat)
    | VoiceResult(transcript: string, reply: Reply, sentAt: nat, repliedAt: nat)
    | PressStopSpeaking
    | HealthCheck(probe: Probe)

  function Step(s: InterfaceState, a: Action): InterfaceState {
    match a
    case TypeText(text) => s.(inputText := text)
    case SendButton(reply, sentAt, repliedAt) => Send(s, s.inputText, false, reply, sentAt, repliedAt)
    case PressKey(key, shiftKey, reply, sentAt, repliedAt) => KeyPress(s, key, shiftKey, reply, sentAt, repliedAt)
    case VoiceResult(transcript, reply, sentAt, repliedAt) => Send(s, transcript, true, reply, sentAt, repliedAt)
    case PressStopSpeaking => Silenced(s)
    case HealthCheck(probe) => s.(status := HealthStatus(probe))
  }

  function Run(s: InterfaceState, actions: seq<Action>): InterfaceState
    decreases |actions|
  {
    if actions == [] then s else Run(Step(s, actions[0]), actions[1..])
  }

  /** The shape of the thread between sends: the greeting, then for every request its user
      message followed by exactly one bot message, and no typing indicator. */
  predicate Thread(s: InterfaceState) {
    |s.messages| == 2 * |s.requests| + 1
    && s.messages[0].id == "1" && s.messages[0].sender == Bot && s.messages[0].text == Greeting
    && (forall k :: 0 <= k < |s.requests| ==>
          s.messages[2 * k + 1].sender == User
          && s.messages[2 * k + 1].text == s.requests[k].message
          && s.messages[2 * k + 1].isVoice == s.requests[k].isVoice
          && s.messages[2 * k + 2].sender == Bot)
    && !s.isTyping
  }

  /** A send keeps the shape of the thread: it adds one request and its two messages at the end. */
  lemma SendKeepsThread(s: InterfaceState, text: string, isVoice: bool, reply: Reply, sentAt: nat, repliedAt: nat)
    requires Thread(s)
    ensures var t := Send(s, text, isVoice, reply, sentAt, repliedAt);
      Thread(t) && s.messages <= t.messages && s.requests <= t.requests && t.sessionId == s.sessionId
  {
    var t := Send(s, text, isVoice, reply, sentAt, repliedAt);
    if JsTrim(text) != "" {
      var n := |s.requests|;
      var user := UserMessage(text, isVoice, sentAt);
      var bot := t.messages[|s.messages| + 1];
      assert t.messages == s.messages + [user, bot];
      assert t.requests == s.requests + [ChatRequest(text, isVoice, s.sessionId)];
      forall k | 0 <= k < |t.requests|
        ensures t.messages[2 * k + 1].sender == User
        ensures t.messages[2 * k + 1].text == t.requests[k].message
        ensures t.messages[2 * k + 1].isVoice == t.requests[k].isVoice
        ensures t.messages[2 * k + 2].sender == Bot
      {
        if k < n {
          assert t.messages[2 * k + 1] == s.messages[2 * k + 1];
          assert t.messages[2 * k + 2] == s.messages[2 * k + 2];
          assert t.requests[k] == s.requests[k];
        }
      }
      assert t.messages[0] == s.messages[0];
    }
  }

  lemma StepKeepsThread(s: InterfaceState, a: Action)
    requires Thread(s)
    ensures Thread(Step(s, a))
    ensures s.messages <= Step(s, a).messages && s.requests <= Step(s, a).requests
    ensures Step(s, a).sessionId == s.sessionId
  {
    match a {
      case SendButton(reply, sentAt, repliedAt) =>
        SendKeepsThread(s, s.inputText, false, reply, sentAt, repliedAt);
      case PressKey(key, shiftKey, reply, sentAt, repliedAt) =>
        SendKeepsThread(s, s.inputText, false, reply, sentAt, repliedAt);
      case VoiceResult(transcript, reply, sentAt, repliedAt) =>
        SendKeepsThread(s, transcript, true, reply, sentAt, repliedAt);
      case _ =>
    }
  }

  /** Over a whole session the thread is only ever extended, never reordered or cut, every
      request is answered by exactly one bot message right after its user message, and the
      session id never changes. */
  lemma {:induction false} RunKeepsThread(s: InterfaceState, actions: seq<Action>)
    requires Thread(s)
    ensures Thread(Run(s, actions))
    ensures s.messages <= Run(s, actions).messages && s.requests <= Run(s, actions).requests
    ensures Run(s, actions).sessionId == s.sessionId
    decreases |actions|
  {
    if actions != [] {
      StepKeepsThread(s, actions[0]);
      RunKeepsThread(Step(s, actions[0]), actions[1..]);
    }
  }

  /** From mount on, the greeting stays first and every request gets its pair of messages. */
  lemma SessionThread(now: nat, actions: seq<Action>)
    ensures var t := Run(Initial(now), actions);
      Thread(t) && t.messages[0] == GreetingMessage(now)
      && t.sessionId == "session_" + NatToString(now)
  {
    RunKeepsThread(Initial(now), actions);
  }

  /** Components mounted at different clock readings get different session ids. */
  lemma SessionIdsDistinct(m: nat, n: nat)
    requires Initial(m).sessionId == Initial(n).sessionId
    ensures m == n
  {
    var p := "session_";
    assert NatToString(m) == Initial(m).sessionId[|p|..];
    assert NatToString(n) == Initial(n).sessionId[|p|..];
    NatToStringInjective(m, n);
  }

  // ---- the component ----

  class ChatInterface {
    var messages: seq<Message>
    var inputText: string
    var isTyping: bool
    var status: Status
    var isSpeaking: bool
    const sessionId: string
    ghost var requests: seq<ChatRequest>
    var audioSrc: string
    var audioPaused: bool

    ghost function State(): InterfaceState
      reads this
    {
      InterfaceState(messages, inputText, isTyping, status, isSpeaking, sessionId, requests, audioSrc, audioPaused)
    }

    constructor (now: nat)
      ensures State() == Initial(now)
    {
      messages := [GreetingMessage(now)];
      inputText := "";
      isTyping := false;
      status := Disconnected;
      isSpeaking := false;
      sessionId := "session_" + NatToString(now);
      requests := [];
      audioSrc := "";
      audioPaused := true;
    }

    method CheckBackendHealth(probe: Probe)
      modifies this
      ensures State() == old(State()).(status := HealthStatus(probe))
    {
      match probe {
        case Responded(ok) =>
          if ok {
            status := Connected;
          } else {
            status := Disconnected;
          }
        case Unreachable =>
          status := Disconnected;
      }
    }

    method PlayAudioResponse(url: string)
      modifies this
      ensures State() == PlayAudio(old(State()), url)
    {
      isSpeaking := true;
      audioSrc := url;
      audioPaused := false;
    }

    method SendMessage(text: string, isVoice: bool, reply: Reply, sentAt: nat, repliedAt: nat)
      modifies this
      ensures State() == Send(old(State()), text, isVoice, reply, sentAt, repliedAt)
    {
      if JsTrim(text) == "" {
        return;
      }
      messages := messages + [UserMessage(text, isVoice, sentAt)];
      inputText := "";
      isTyping := true;
      status := Connecting;
      requests := requests + [ChatRequest(text, isVoice, sessionId)];
      ghost var submitted := State();
      assert submitted == Submit(old(State()), text, isVoice, sentAt);
      match reply {
        case Answered(response, audioUrl) =>
          var botResponse := BotResponse(response, audioUrl, repliedAt);
          messages := messages + [botResponse];
          status := Connected;
          if botResponse.audioUrl.Some? && isVoice {
            PlayAudioResponse(botResponse.audioUrl.value);
          }
        case Failed =>
          status := Disconnected;
          messages := messages + [ErrorMessage(repliedAt)];
      }
      isTyping := false;
      assert State() == Settle(submitted, reply, isVoice, repliedAt);
    }

    method StopSpeaking()
      modifies this
      ensures State() == Silenced(old(State()))
    {
      audioPaused := true;
      isSpeaking := false;
    }

    method HandleVoiceResult(transcript: string, reply: Reply, sentAt: nat, repliedAt: nat)
      modifies this
      ensures State() == Send(old(State()), transcript, true, reply, sentAt, repliedAt)
    {
      SendMessage(transcript, true, reply, sentAt, repliedAt);
    }

    method SetInputText(text: string)
      modifies this
      ensures State() == old(State()).(inputText := text)
    {
      inputText := text;
    }

    /** Returns whether the key's default action was prevented. */
    method HandleKeyPress(key: string, shiftKey: bool, reply: Reply, sentAt: nat, repliedAt: nat) returns (handled: bool)
      modifies this
      ensures handled <==> key == "Enter" && !shiftKey
      ensures State() == KeyPress(old(State()), key, shiftKey, reply, sentAt, repliedAt)
    {
      handled := key == "Enter" && !shiftKey;
      if handled {
        SendMessage(inputText, false, reply, sentAt, repliedAt);
      }
    }
  }
}
