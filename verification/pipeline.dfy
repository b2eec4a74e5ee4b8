/**
 * `process_query` and its helpers: command detection, speech-to-chat rewriting,
 * context enhancement, backend selection and the text-to-speech decision.
 * Calls into the orchestrator, the speech recogniser, the model backends and
 * the voice database are replaced by the values they return (`PipelineEnv`).
 */
module QueryPipeline {
  import opened Wrappers
  import opened Text
  import opened MotherCommand

  /** The fields of an incoming query that the pipeline reads. */
  datatype Query = Query(
    prompt: string,
    queryType: string,
    modelType: string,
    modelName: string,
    audio: Option<string>,
    voiceOutput: Option<bool>)  // None when the query has no `voice_output` attribute

  /** What the collaborators of one `process_query` call return. */
  datatype PipelineEnv = PipelineEnv(
    motherPresent: bool,              // the orchestrator is initialised
    activeLlms: map<string, bool>,    // roster: LLM name to its voice_enabled flag
    transcription: string,            // speech-to-text result for the query's audio
    storedContext: Option<string>,    // what the orchestrator's context lookup returns
    backendResult: string,            // what the selected backend returns
    storedVoice: Option<string>,      // the `mother_voices` row for the LLM, if any
    maxBarkWords: int)                // MAX_BARK_WORDS

  /** The user identity `get_user_guid_from_context` supplies. */
  const UserGuid: string := "current_user_guid"

  const NotAvailableReply: string := "Error: MOTHER orchestration system is not available"
  const InvalidFormatReply: string := "Invalid MOTHER command format"
  /** The reply when `split(":", 1)[1]` raises IndexError on a prompt without `:`. */
  const IndexErrorReply: string := "Error processing MOTHER command: list index out of range"
  const ProcessedPrefix: string := "MOTHER command processed: "

  /** The voice used when the LLM has none stored. */
  const DefaultVoice: string := "v2/en_speaker_6"

  /** Header placed before the conversation history in an enhanced prompt. */
  const ContextHeader: string :=
    "\nThe following conversation history provides context for the current query:\n\n"
  /** Text between the history and the original prompt. */
  const QueryLabel: string := "\n\nCurrent query: "

  /** The reply to a command prompt, and the message forwarded to the orchestrator if any. */
  datatype CommandOutcome = CommandOutcome(reply: string, forwarded: Option<MotherMessage>)

  /** `process_mother_command` */
  function ProcessMotherCommand(motherPresent: bool, prompt: string): (r: CommandOutcome)
    ensures !motherPresent ==> r == CommandOutcome(NotAvailableReply, None)
    ensures r.forwarded.Some? <==> motherPresent && ParseCommand(prompt).Success?
    ensures r.forwarded.Some? ==>
      r.forwarded.value == MotherMessage(UserGuid, prompt, None, Some("system"))
    // `split(":", 1)[1]` raises IndexError without a `:`, and the reply carries its message
    ensures motherPresent && ':' !in prompt ==> r == CommandOutcome(IndexErrorReply, None)
    ensures motherPresent && ParseCommand(prompt) == Failure(MissingParen) ==>
      r.reply == InvalidFormatReply
    ensures motherPresent && ParseCommand(prompt).Success? ==>
      r.reply == ProcessedPrefix + ParseCommand(prompt).value.action + "("
                 + ParseCommand(prompt).value.params + ")"
  {
    if !motherPresent then CommandOutcome(NotAvailableReply, None)
    else
      match ParseCommand(prompt)
      case Failure(MissingColon) => CommandOutcome(IndexErrorReply, None)
      case Failure(MissingParen) => CommandOutcome(InvalidFormatReply, None)
      case Success(cmd) =>
        CommandOutcome(ProcessedPrefix + cmd.action + "(" + cmd.params + ")",
                       Some(MotherMessage(UserGuid, prompt, None, Some("system"))))
  }

  /**
   * A prompt routed as a command always has its `:`, so it either parses or lacks
   * a `(`; the IndexError path is never taken from `process_query`.
   */
  lemma CommandPromptHasColon(prompt: string)
    requires StartsWith(prompt, Prefix)
    ensures ParseCommand(prompt).Success? || ParseCommand(prompt) == Failure(MissingParen)
  {
    assert prompt[11] == Prefix[11] == ':';
  }

  /** Speech queries are answered in text: the prompt becomes the transcription and the type `chat`. */
  function RewriteSpeech(q: Query, transcription: string): (r: Query)
    ensures q.queryType == "speech" ==> r.prompt == transcription && r.queryType == "chat"
    ensures q.queryType != "speech" ==> r == q
    ensures r.modelType == q.modelType && r.modelName == q.modelName
    ensures r.voiceOutput == q.voiceOutput && r.audio == q.audio
  {
    if q.queryType == "speech" then q.(prompt := transcription, queryType := "chat") else q
  }

  /** The prompt sent to the backend: the original prompt, prefixed by non-empty history. */
  function EnhancePrompt(prompt: string, context: Option<string>): (r: string)
    ensures context.None? || context.value == "" ==> r == prompt
    ensures context.Some? && context.value != "" ==>
      StartsWith(r, ContextHeader + context.value)
      && EndsWith(r, "Current query: " + prompt + "\n")
  {
    if context.Some? && context.value != "" then
      ContextHeader + context.value + QueryLabel + prompt + "\n"
    else prompt
  }

  /** The original prompt can be read back from an enhanced one, so enhancement loses nothing. */
  lemma EnhanceInjective(p1: string, p2: string, context: Option<string>)
    requires EnhancePrompt(p1, context) == EnhancePrompt(p2, context)
    ensures p1 == p2
  {
    if context.Some? && context.value != "" {
      var e := EnhancePrompt(p1, context);
      var start := |ContextHeader + context.value + QueryLabel|;
      assert e == (ContextHeader + context.value + QueryLabel) + (p1 + "\n");
      assert e == (ContextHeader + context.value + QueryLabel) + (p2 + "\n");
      assert p1 == e[start..|e| - 1];
      assert p2 == e[start..|e| - 1];
    }
  }

  datatype Backend = HuggingFace | Claude | WorkerNode

  /** Backend choice on `model_type`: every model type goes to exactly one backend. */
  function SelectBackend(modelType: string): (b: Backend)
    ensures b == HuggingFace <==> modelType == "huggingface"
    ensures b == Claude <==> modelType == "claude"
    ensures b == WorkerNode <==> modelType != "huggingface" && modelType != "claude"
  {
    if modelType == "huggingface" then HuggingFace
    else if modelType == "claude" then Claude
    else WorkerNode
  }

  /** The backend a query goes to and the query as that backend receives it. */
  datatype BackendCall = BackendCall(backend: Backend, query: Query)

  /**
   * `process_query_with_context`: the backend is chosen by the literal model-type
   * strings, and it receives the query with only its prompt changed, and that only
   * when there is non-empty history.
   */
  function ProcessWithContext(q: Query, context: Option<string>): (c: BackendCall)
    ensures c.backend == HuggingFace <==> q.modelType == "huggingface"
    ensures c.backend == Claude <==> q.modelType == "claude"
    ensures c.backend == WorkerNode <==> q.modelType != "huggingface" && q.modelType != "claude"
    ensures c.query.(prompt := q.prompt) == q
    ensures context.None? || context.value == "" ==> c.query.prompt == q.prompt
    ensures context.Some? && context.value != "" ==>
      && StartsWith(c.query.prompt, ContextHeader + context.value)
      && EndsWith(c.query.prompt, "Current query: " + q.prompt + "\n")
  {
    BackendCall(SelectBackend(q.modelType), q.(prompt := EnhancePrompt(q.prompt, context)))
  }

  datatype TtsEngine = Bark | Pyttsx3

  /**
   * A text to speak, the voice chosen for it and the engine. Only BARK is given the
   * voice (as its history prompt); pyttsx3 speaks with its own voice.
   */
  datatype Speech = Speech(text: string, voice: string, engine: TtsEngine)

  /** `process_text_to_speech_with_voice` */
  function TextToSpeech(text: string, motherPresent: bool, storedVoice: Option<string>,
                        maxBarkWords: int): (s: Speech)
    ensures s.text == text
    ensures s.voice == DefaultVoice || (motherPresent && storedVoice == Some(s.voice))
    ensures motherPresent && storedVoice.Some? ==> s.voice == storedVoice.value
    ensures s.engine == Bark <==> |Words(text)| <= maxBarkWords
  {
    var voice := if motherPresent && storedVoice.Some? then storedVoice.value else DefaultVoice;
    Speech(text, voice, if |Words(text)| <= maxBarkWords then Bark else Pyttsx3)
  }

  /** What `process_query` returns. */
  datatype Reply =
    | CommandReply(outcome: CommandOutcome)
    | RawResult(call: BackendCall, result: string)
    | Audio(call: BackendCall, speech: Speech)

  /** The context `process_query` fetches: only with an orchestrator, a user and a known LLM. */
  function ContextFor(env: PipelineEnv, modelName: string): (c: Option<string>)
    ensures c.Some? ==> modelName in env.activeLlms && env.motherPresent
    ensures env.motherPresent && modelName in env.activeLlms ==> c == env.storedContext
  {
    if env.motherPresent && UserGuid != "" && modelName in env.activeLlms then env.storedContext
    else None
  }

  /** `process_query` */
  function ProcessQuery(q: Query, env: PipelineEnv): (r: Reply)
    ensures r.CommandReply? <==> StartsWith(q.prompt, Prefix)
    ensures r.CommandReply? ==> r.outcome == ProcessMotherCommand(env.motherPresent, q.prompt)
    ensures !r.CommandReply? ==> r.call.backend == SelectBackend(q.modelType)
    // the history is fetched only for an LLM in the roster, with an orchestrator present
    ensures (!r.CommandReply? && q.queryType != "speech"
             && (q.modelName !in env.activeLlms || !env.motherPresent)) ==> r.call.query == q
    // text-to-speech iff a speech model or requested voice output, except for imagine queries
    ensures !r.CommandReply? ==>
      (r.Audio? <==> (q.modelType == "speech" || q.voiceOutput == Some(true))
                     && q.queryType != "imagine")
    ensures r.Audio? ==>
      r.speech == TextToSpeech(env.backendResult, env.motherPresent, env.storedVoice,
                               env.maxBarkWords)
    ensures r.RawResult? ==> r.result == env.backendResult
    // the backend sees the query with only its prompt (and, for speech, its type) changed
    ensures (!r.CommandReply? && q.queryType != "speech") ==> r.call.query.(prompt := q.prompt) == q
    ensures (!r.CommandReply? && q.queryType == "speech") ==>
      r.call.query.(prompt := q.prompt, queryType := q.queryType) == q
    // the history fetched for a roster LLM is put in front of the prompt
    ensures (!r.CommandReply? && q.queryType != "speech" && env.motherPresent
             && q.modelName in env.activeLlms && env.storedContext.Some?
             && env.storedContext.value != "") ==>
      && StartsWith(r.call.query.prompt, ContextHeader + env.storedContext.value)
      && EndsWith(r.call.query.prompt, "Current query: " + q.prompt + "\n")
    // a speech query reaches its backend as a chat query about its transcription
    ensures (!r.CommandReply? && q.queryType == "speech") ==>
      && r.call.query.queryType == "chat"
      && (ContextFor(env, q.modelName) in {None, Some("")} ==> r.call.query.prompt == env.transcription)
      && (ContextFor(env, q.modelName) !in {None, Some("")} ==>
            && StartsWith(r.call.query.prompt, ContextHeader + ContextFor(env, q.modelName).value)
            && EndsWith(r.call.query.prompt, "Current query: " + env.transcription + "\n"))
  {
    if StartsWith(q.prompt, Prefix) then CommandReply(ProcessMotherCommand(env.motherPresent, q.prompt))
    else
      var q1 := RewriteSpeech(q, env.transcription);
      var call := ProcessWithContext(q1, ContextFor(env, q1.modelName));
      var voiceOutput := q1.voiceOutput.GetOr(false);
      if q1.modelType == "speech" || voiceOutput then
        if q1.queryType == "imagine" then RawResult(call, env.backendResult)
        else Audio(call, TextToSpeech(env.backendResult, env.motherPresent, env.storedVoice,
                                      env.maxBarkWords))
      else RawResult(call, env.backendResult)
  }

  /**
   * History is added to the prompt exactly when the orchestrator is present, the LLM
   * is in the roster and the orchestrator returns non-empty history for it.
   */
  lemma HistoryAddedIff(q: Query, env: PipelineEnv)
    requires !StartsWith(q.prompt, Prefix)
    ensures ProcessQuery(q, env).call.query.prompt != RewriteSpeech(q, env.transcription).prompt
      <==> env.motherPresent && q.modelName in env.activeLlms
           && env.storedContext.Some? && env.storedContext.value != ""
  {
  }
}
