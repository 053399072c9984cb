/** The client and the backend together: what the client posts, what the backend answers, and
    what lands in the client's thread. */
module EndToEnd {
  import opened Builtins
  import Chat
  import Backend

  /** The JSON body the client posts, as the backend reads it. */
  function Body(request: Chat.ChatRequest): Backend.ChatBody {
    Backend.ChatBody(Some(request.message), request.isVoice, Some(request.sessionId))
  }

  /** How the client reads the backend's response: a 200 gives its `response` and `audioUrl`
      fields, an error status makes `response.ok` false. */
  function ToReply(r: Backend.Response): Chat.Reply {
    match r
    case Ok(text, audioUrl, _) => Chat.Answered(text, audioUrl)
    case Error(_, _) => Chat.Failed
  }

  /** A spoken question in a session that has introduced itself: when the model answers and the
      audio file is written, the bot message plays the file from the backend's audio route, and
      the backend never falls back to the "default" session. */
  lemma SpokenQuestionIsPlayed(s: Chat.InterfaceState, text: string, contexts: map<string, string>,
                               answer: (string, string) -> Option<string>,
                               createAudio: string -> Option<string>, sentAt: nat, repliedAt: nat)
    requires JsTrim(text) != "" && PyStrip(text) != ""
    requires s.sessionId in contexts
    requires answer(contexts[s.sessionId], PyStrip(text)).Some?
    requires var file := createAudio(answer(contexts[s.sessionId], PyStrip(text)).value);
      file.Some? && file.value != ""
    ensures var out := Backend.HandleChat(contexts, Some(Body(Chat.ChatRequest(text, true, s.sessionId))), answer, createAudio);
      var t := Chat.Send(s, text, true, ToReply(out.response), sentAt, repliedAt);
      var file := createAudio(answer(contexts[s.sessionId], PyStrip(text)).value).value;
      out.response.Ok? && out.response.sessionId == s.sessionId && out.contexts == contexts
      && t.messages[|t.messages| - 1].hasAudio
      && t.messages[|t.messages| - 1].audioUrl == Some(Chat.BackendOrigin + Backend.AudioRoute + Basename(file))
      && t.isSpeaking && t.audioSrc == Chat.BackendOrigin + Backend.AudioRoute + Basename(file)
  {
    var file := createAudio(answer(contexts[s.sessionId], PyStrip(text)).value).value;
    assert Chat.BackendOrigin + (Backend.AudioRoute + Basename(file))
        == Chat.BackendOrigin + Backend.AudioRoute + Basename(file);
  }

  /** The client and the backend disagree on white space: U+001C is not white space to
      JavaScript's trim but is to Python's strip, so the client sends it, the backend refuses it
      with 400, and the thread shows the error message as if the backend were down. */
  lemma SeparatorIsSentButRefused(s: Chat.InterfaceState, contexts: map<string, string>,
                                  answer: (string, string) -> Option<string>,
                                  createAudio: string -> Option<string>, sentAt: nat, repliedAt: nat)
    ensures var text := "\U{1C}";
      var out := Backend.HandleChat(contexts, Some(Body(Chat.ChatRequest(text, false, s.sessionId))), answer, createAudio);
      var t := Chat.Send(s, text, false, ToReply(out.response), sentAt, repliedAt);
      JsTrim(text) != "" && out.response == Backend.Error(400, Backend.MessageRequired)
      && |t.messages| == |s.messages| + 2 && t.messages[|s.messages| + 1].isError
      && t.status == Chat.Disconnected
  {
    var text := "\U{1C}";
    TrimEmptyIff(text, Js);
    TrimEmptyIff(text, Py);
    assert !IsSpace(Js, text[0]) && IsSpace(Py, text[0]);
  }
}
