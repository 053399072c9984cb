/** The backend's /api/chat handler and the table of per-session introductions it keeps in memory.
    The language model and the speech synthesiser are parameters: `answer(introduction, question)`
    is the model's reply, or None when the call raises; `createAudio(text)` is the path of the
    audio file written for `text`, or None when writing it failed. */
module Backend {
  import opened Builtins

  const Thanks := "Thank you for your introduction. You can now ask me questions."
  const AudioRoute := "/api/audio/"
  const DefaultSession := "default"
  const MessageRequired := "Message is required"
  const InternalError := "Internal server error"

  /** The JSON body's fields the handler reads; a missing `message` or `sessionId` is None and a
      missing `isVoice` reads as false. */
  datatype ChatBody = ChatBody(message: Option<string>, isVoice: bool, sessionId: Option<string>)

  /** A 200 response with its three JSON fields, or an error status with its error text. */
  datatype Response =
    | Ok(response: string, audioUrl: Option<string>, sessionId: string)
    | Error(status: nat, error: string)

  /** What one request returns, and the introduction table after it. */
  datatype Outcome = Outcome(response: Response, contexts: map<string, string>)

  /** The audio URL of a reply: only for voice requests whose audio file was written, and then the
      audio route followed by the file's base name. */
  function AudioUrl(text: string, isVoice: bool, createAudio: string -> Option<string>): Option<string> {
    if isVoice then
      var file := createAudio(text);
      if file.Some? && file.value != "" then Some(AudioRoute + Basename(file.value)) else None
    else None
  }

  /** chat(): `body` is None when the request carries no JSON object. */
  function HandleChat(contexts: map<string, string>, body: Option<ChatBody>,
                      answer: (string, string) -> Option<string>,
                      createAudio: string -> Option<string>): Outcome
  {
    if body.None? then Outcome(Error(500, InternalError), contexts)
    else
      var message := PyStrip(body.value.message.GetOr(""));
      var isVoice := body.value.isVoice;
      var sessionId := body.value.sessionId.GetOr(DefaultSession);
      if message == "" then Outcome(Error(400, MessageRequired), contexts)
      else if sessionId !in contexts then
        Outcome(Ok(Thanks, AudioUrl(Thanks, isVoice, createAudio), sessionId), contexts[sessionId := message])
      else
        match answer(contexts[sessionId], message)
        case None => Outcome(Error(500, InternalError), contexts)
        case Some(text) => Outcome(Ok(text, AudioUrl(text, isVoice, createAudio), sessionId), contexts)
  }

  // ---- properties of one request ----

  /** A message that is white space only, or missing, is refused with 400 and the table is left alone. */
  lemma BlankMessageRejected(contexts: map<string, string>, body: ChatBody,
                             answer: (string, string) -> Option<string>, createAudio: string -> Option<string>)
    requires forall k :: 0 <= k < |body.message.GetOr("")| ==> IsSpace(Py, body.message.GetOr("")[k])
    ensures HandleChat(contexts, Some(body), answer, createAudio) == Outcome(Error(400, MessageRequired), contexts)
  {
    TrimEmptyIff(body.message.GetOr(""), Py);
  }

  /** A successful response names the session it used: the one in the body, or "default". */
  lemma SessionEchoed(contexts: map<string, string>, body: ChatBody,
                      answer: (string, string) -> Option<string>, createAudio: string -> Option<string>)
    ensures var r := HandleChat(contexts, Some(body), answer, createAudio).response;
      r.Ok? ==> r.sessionId == (if body.sessionId.Some? then body.sessionId.value else "default")
  {
  }

  /** The first message of an unknown session becomes its introduction, stripped, and the reply is
      the fixed thank-you text. */
  lemma FirstMessageIsIntroduction(contexts: map<string, string>, body: ChatBody,
                                   answer: (string, string) -> Option<string>, createAudio: string -> Option<string>)
    requires PyStrip(body.message.GetOr("")) != ""
    requires body.sessionId.GetOr(DefaultSession) !in contexts
    ensures var out := HandleChat(contexts, Some(body), answer, createAudio);
      var sessionId := body.sessionId.GetOr(DefaultSession);
      out.contexts == contexts[sessionId := PyStrip(body.message.GetOr(""))]
      && out.response.Ok? && out.response.response == Thanks
  {
  }

  /** For a known session the introduction stays as it was, and the reply is the model's answer to
      the introduction and the stripped message (or 500 when the model call raises). */
  lemma KnownSessionAnswered(contexts: map<string, string>, body: ChatBody,
                             answer: (string, string) -> Option<string>, createAudio: string -> Option<string>)
    requires PyStrip(body.message.GetOr("")) != ""
    requires body.sessionId.GetOr(DefaultSession) in contexts
    ensures var out := HandleChat(contexts, Some(body), answer, createAudio);
      var reply := answer(contexts[body.sessionId.GetOr(DefaultSession)], PyStrip(body.message.GetOr("")));
      out.contexts == contexts
      && (reply.Some? ==> out.response.Ok? && out.response.response == reply.value)
      && (reply.None? ==> out.response == Error(500, InternalError))
  {
  }

  /** A reply carries an audio URL exactly when the request was a voice request and the audio file
      was written; the URL is then the audio route followed by a name without any '/'. */
  lemma AudioUrlOnlyForVoice(contexts: map<string, string>, body: ChatBody,
                             answer: (string, string) -> Option<string>, createAudio: string -> Option<string>)
    ensures var r := HandleChat(contexts, Some(body), answer, createAudio).response;
      r.Ok? ==>
        var file := createAudio(r.response);
        (r.audioUrl.Some? <==> body.isVoice && file.Some? && file.value != "")
        && (r.audioUrl.Some? ==> r.audioUrl == Some(AudioRoute + Basename(file.value))
                                 && '/' !in Basename(file.value))
  {
  }

  /** No request removes or changes an entry of the table; the only entry it can add is the one
      for its own session, when that session was unknown and the message was not blank. */
  lemma TableOnlyGrows(contexts: map<string, string>, body: Option<ChatBody>,
                       answer: (string, string) -> Option<string>, createAudio: string -> Option<string>)
    ensures var out := HandleChat(contexts, body, answer, createAudio);
      (forall k :: k in contexts ==> k in out.contexts && out.contexts[k] == contexts[k])
      && (out.contexts != contexts ==>
            body.Some? && var sessionId := body.value.sessionId.GetOr(DefaultSession);
            sessionId !in contexts && out.contexts == contexts[sessionId := PyStrip(body.value.message.GetOr(""))]
            && out.response.Ok? && out.response.response == Thanks)
  {
  }

  // ---- the table over many requests ----

  /** The table after serving `bodies` in order. */
  function Serve(contexts: map<string, string>, bodies: seq<Option<ChatBody>>,
                 answer: (string, string) -> Option<string>, createAudio: string -> Option<string>): map<string, string>
    decreases |bodies|
  {
    if bodies == [] then contexts
    else Serve(HandleChat(contexts, bodies[0], answer, createAudio).contexts, bodies[1..], answer, createAudio)
  }

  /** Every stored introduction is a non-blank, stripped message. */
  predicate WellFormed(contexts: map<string, string>) {
    forall k :: k in contexts ==> Trimmed(contexts[k], Py)
  }

  lemma HandleKeepsWellFormed(contexts: map<string, string>, body: Option<ChatBody>,
                              answer: (string, string) -> Option<string>, createAudio: string -> Option<string>)
    requires WellFormed(contexts)
    ensures WellFormed(HandleChat(contexts, body, answer, createAudio).contexts)
  {
    if body.Some? {
      TrimIdempotent(body.value.message.GetOr(""), Py);
    }
  }

  /** Once a session has an introduction, no later request changes it; and every introduction
      in the table is a non-blank, stripped message. */
  lemma {:induction false} IntroductionIsPermanent(contexts: map<string, string>, bodies: seq<Option<ChatBody>>,
                                                   answer: (string, string) -> Option<string>,
                                                   createAudio: string -> Option<string>)
    requires WellFormed(contexts)
    ensures var final := Serve(contexts, bodies, answer, createAudio);
      WellFormed(final) && forall k :: k in contexts ==> k in final && final[k] == contexts[k]
    decreases |bodies|
  {
    if bodies != [] {
      var next := HandleChat(contexts, bodies[0], answer, createAudio).contexts;
      TableOnlyGrows(contexts, bodies[0], answer, createAudio);
      HandleKeepsWellFormed(contexts, bodies[0], answer, createAudio);
      IntroductionIsPermanent(next, bodies[1..], answer, createAudio);
    }
  }

  // ---- the application ----

  class App {
    var userContexts: map<string, string>

    constructor ()
      ensures userContexts == map[]
    {
      userContexts := map[];
    }

    method Chat(body: Option<ChatBody>, answer: (string, string) -> Option<string>,
                createAudio: string -> Option<string>) returns (r: Response)
      modifies this
      ensures Outcome(r, userContexts) == HandleChat(old(userContexts), body, answer, createAudio)
    {
      if body.None? {
        return Error(500, InternalError);
      }
      var data := body.value;
      var message := PyStrip(data.message.GetOr(""));
      var isVoice := data.isVoice;
      var sessionId := data.sessionId.GetOr(DefaultSession);
      if message == "" {
        return Error(400, MessageRequired);
      }
      var responseText: string;
      if sessionId !in userContexts {
        userContexts := userContexts[sessionId := message];
        responseText := Thanks;
      } else {
        var userContext := userContexts[sessionId];
        var reply := answer(userContext, message);
        if reply.None? {
          return Error(500, InternalError);
        }
        responseText := reply.value;
      }
      var audioUrl := None;
      if isVoice {
        var audioFile := createAudio(responseText);
        if audioFile.Some? && audioFile.value != "" {
          audioUrl := Some(AudioRoute + Basename(audioFile.value));
        }
      }
      return Ok(responseText, audioUrl, sessionId);
    }
  }
}
