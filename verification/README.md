# MOTHER web-GUI integration: command protocol and query routing

A Dafny model of the glue between the MOTHER orchestrator and the web GUI of the
multi-LLM assistant. It covers two source files:

- `webgui-integration.py`. The websocket receive loop dispatches each inbound message
  on its `type`. `_handle_query` sends `MOTHERREALM:` command prompts to the
  orchestrator and adds conversation context and the voice preference to queries for
  roster LLMs. `_should_use_voice_output` reads the roster's voice flag.
  `_handle_mother_message` sets an LLM's voice and enables agent-to-agent conversations
  by building a `MOTHERREALM:debugwindowoutONLYLLMONLYPRIVATECHAT(a,b,...)` command.
- `process-query-update.py`. `process_query` detects commands and rewrites speech
  queries into chat queries. It fetches context for roster LLMs, adds that history to
  the prompt, picks the backend from `model_type`, and decides whether the answer is
  spoken. `process_mother_command` parses commands into an action and parameters.
  `process_text_to_speech_with_voice` picks the voice and the BARK or pyttsx3 engine.

Modules:

- `Wrappers`: `Option` and `Result`.
- `Text`: Python's string operations as the handlers use them.
- `JsonValues`: websocket payloads as JSON values, with Python truthiness.
- `MotherCommand`: the command builder and parser, with their round trip.
- `WebGuiIntegrator`: the websocket side.
- `QueryPipeline`: `process_query`.

The orchestrator's internals are not part of the code modelled here. These are the
conversation manager, the context store, the voice registry and the broadcaster. The
model passes their answers in as parameters: `HandlerEnv` and `PipelineEnv` hold the
roster, the fetched context, the set-voice success flag, the key order of an `llms`
object and the stored voice. Calls to
the orchestrator show up as effects in the model.

The roster `active_llms` is a `map<string, bool>` from LLM name to its `voice_enabled`
flag. A handler that raises is caught by the receive loop. That `except` sits outside
the `while` loop, so one error reply is sent and the session ends. `RunSession` models
this.

## Model

| member | source | states |
|---|---|---|
| WebGuiIntegrator.RouteMessage | webgui-integration.py:93-103 | Type `submit_query` goes only to the query handler. Any other string type starting with `mother_` goes only to the MOTHER handler. Every other string type is ignored. A missing or non-string type raises. |
| WebGuiIntegrator.HandleMessage | webgui-integration.py:91-103 | A `submit_query` message goes to the query handler, and any other string type starting with `mother_` goes to the MOTHER handler. A missing or non-string `type` raises before anything happens, and any other string type does nothing. Queueing and the `mother_command_received` reply happen only for `submit_query`. Setting a voice and the `mother_voice_set` and `mother_conversation_enabled` replies happen only for `mother_` types. Whatever the type, only `MOTHERREALM:` commands are passed to `process_message`, and no handler sends the error reply itself. |
| WebGuiIntegrator.HandleQuery | webgui-integration.py:115-160 | A prompt starting with `MOTHERREALM:` is forwarded with the user as sender, the prompt as content and the raw `voice_output` operand, then acknowledged with `mother_command_received`. Nothing is queued in that case. Only commands are passed to `process_message`, and the acknowledgement is the only reply. A missing or non-object query raises, and so does a non-string prompt. Otherwise, with `model_name` defaulting to `""`: a list or object name raises, since it cannot be looked up. Any name that is not a roster string, including numbers, booleans and null, leaves the query queued unchanged. A roster name queues the context-aware query carrying the fetched context and the roster's `voice_enabled` flag; if that query cannot be built, the handler raises. |
| WebGuiIntegrator.VoiceOutputOperand | webgui-integration.py:126 | The `voice_output` given with a command is the query's own value when the key is present, and `False` otherwise. It is truthy exactly when the key is present and its value truthy. |
| WebGuiIntegrator.Enrich | webgui-integration.py:148-157 | The enriched query has exactly the context-aware fields. It keeps the four required fields and `image`/`audio` (null when absent), sets `context`, and overwrites `voice_output`. |
| WebGuiIntegrator.QueuedUnchangedIff | webgui-integration.py:140-160 | Whenever a query is queued, it is the client's query object unchanged exactly when its model name is not a roster string. A roster model's queued query always gains `context`. |
| WebGuiIntegrator.RosterQueryRaisesIff | webgui-integration.py:144-157 | For a roster model the handler raises exactly when `ContextAwareQuery(**q, context=...)` cannot be built. That is the case when `context` is already a key, a required field is missing or not a string, `image`/`audio` is neither a string nor null, or `voice_output` is not a boolean. Otherwise the enriched query is queued. |
| WebGuiIntegrator.ShouldUseVoiceOutput | webgui-integration.py:162-167 | Returns the roster entry's `voice_enabled` for a known model and false otherwise. |
| WebGuiIntegrator.HandleMotherMessage | webgui-integration.py:180-213 | Set-voice is called and `mother_voice_set` is sent only when `llm_name` and `voice_id` are both truthy; otherwise nothing happens. Enabling a conversation needs `llms` truthy and of length more than one, for lists, strings and objects alike: a one-character string or a one-key object enables nothing, as does a missing or empty `llms`. Past that guard, a value `join` accepts is forwarded as `BuildPrivateChat(names)` with type `system`, then acknowledged; an object's names are its keys in the order the message listed them. A list of more than one item with a non-string item makes `join` raise, and a truthy number or boolean makes `len` raise. Nothing is emitted unless the length exceeds one. Any other `mother_` type does nothing. Only `MOTHERREALM:` system commands are forwarded, and nothing is queued. |
| WebGuiIntegrator.Length | webgui-integration.py:201 | `len` is defined exactly for strings, lists and objects, and then it is positive iff the value is truthy. |
| WebGuiIntegrator.StringItems | webgui-integration.py:204 | The names given to `join` are the list's strings, position by position. The result is `None` only when some element is not a string. |
| WebGuiIntegrator.JoinedNames | webgui-integration.py:204 | In the model, `join` accepts a list, a string or an object, and raises on numbers, booleans and null. A list is joined only when every item is a string, and then the names are its strings position by position. A string gives one name per character. An object gives its keys in the order the message listed them. |
| WebGuiIntegrator.EnabledConversationParses | webgui-integration.py:201-208 | The command forwarded on conversation enabling parses to the private-chat action. Splitting its parameters on `,` gives back the names, as long as no name contains a comma and the join does not end in `)`. |
| WebGuiIntegrator.EnableConversation | webgui-integration.py:197-213 | A falsy `llms`, or one of length at most one, does nothing; a truthy value without a length raises; past the length guard a value `join` rejects raises, and any other is forwarded as a private-chat system command and acknowledged with the same `llms`. |
| WebGuiIntegrator.Loop | webgui-integration.py:91-109 | Over handler outcomes that never carry the error reply themselves, the loop sends the error reply exactly when some handler raised, and then it is the last effect. |
| WebGuiIntegrator.LoopStopsAt | webgui-integration.py:91-109 | At the first raising outcome the loop has emitted every earlier outcome's effects and that outcome's own, followed by the error reply. |
| WebGuiIntegrator.RunSession | webgui-integration.py:90-109 | The loop sends an error reply exactly when some handler raised, and that reply is the last thing the session does. When the first handler raises, its own effects are emitted and then the error reply. |
| WebGuiIntegrator.RunSessionCons | webgui-integration.py:91-103 | A first message whose handler does not raise has its effects emitted first, and then the loop handles the remaining messages. |
| WebGuiIntegrator.NoRaiseEmitsAll | webgui-integration.py:91-103 | Without a raise, the session emits every handler's effects, in message order. |
| WebGuiIntegrator.StopsAtFirstRaise | webgui-integration.py:91-109 | At the first message whose handler raises, the session is every handler's effects up to and including that message, followed by the error reply. |
| WebGuiIntegrator.NothingAfterRaise | webgui-integration.py:105-109 | Messages after one whose handler raised are never handled. |
| WebGuiIntegrator.SessionConcat | webgui-integration.py:91-103 | With no raise, handling two runs of messages gives the effects of the first run followed by those of the second. |
| JsonValues.TruthyIffNotFalsy | webgui-integration.py:189 | A JSON value is truthy exactly when it is not one of Python's falsy values: `None`, `False`, `0`, `""`, `[]` or `{}`. |
| MotherCommand.BuildPrivateChat | webgui-integration.py:201-205 | The built command starts with `MOTHERREALM:` and ends with `)`. |
| MotherCommand.ParseCommand | process-query-update.py:63-69 | The parse fails with `MissingColon` exactly when there is no `:`. It fails with `MissingParen` exactly when the text after the first `:` has no `(`. On success the action has no `(` and the params do not end in `)`. |
| MotherCommand.ParseFramed | process-query-update.py:64-69 | `head:action(params)` followed by any number of `)` parses to `(action, params)`, given that `head` has no `:`, `action` has no `(`, and `params` does not end in `)`. |
| MotherCommand.ParseIsFramed | process-query-update.py:64-69 | Every successful parse has that framing, so action is the text between the first `:` and the next `(`. Params is the rest with only trailing `)` removed, and interior `)` are kept. |
| MotherCommand.CommandRoundTrip | process-query-update.py:64-69 | For a head without `:` and an action without `(`, parsing `head:action(joined)` gives the action and `joined` with trailing `)` stripped. So the params are `joined` exactly when it does not end in `)`. |
| MotherCommand.BuildParseRoundTrip | webgui-integration.py:204 | Parsing the command built for conversation enabling gives the private-chat action and the comma-join with trailing `)` stripped. So the params equal the join exactly when the join does not end in `)`. |
| QueryPipeline.ProcessMotherCommand | process-query-update.py:56-86 | With no orchestrator, the not-available error comes back before any parsing. A prompt without `:` makes `split(":", 1)[1]` raise IndexError, and the reply carries that error. A prompt whose text after the first `:` has no `(` gets `Invalid MOTHER command format`. A parsed command is forwarded as a `system` message from the context user and answered with `MOTHER command processed: action(params)`. |
| QueryPipeline.CommandPromptHasColon | process-query-update.py:13-15 | A prompt routed as a command always has its `:`, so the IndexError path is never reached from `process_query`. |
| QueryPipeline.RewriteSpeech | process-query-update.py:18-21 | A speech query gets the transcription as its prompt and the type `chat`. Every other query is untouched. |
| QueryPipeline.EnhancePrompt | process-query-update.py:91-101 | An absent or empty context leaves the prompt unchanged. A non-empty context gives a prompt that starts with the header and the context and ends with `Current query: ` + prompt + newline. |
| QueryPipeline.EnhanceInjective | process-query-update.py:92-101 | Enhancement loses nothing: for a given context, two prompts that enhance to the same text are equal. |
| QueryPipeline.SelectBackend | process-query-update.py:104-110 | Backend choice is total and exclusive: `huggingface`, then `claude`, then the worker node for every other model type. |
| QueryPipeline.ProcessWithContext | process-query-update.py:88-114 | The backend is HuggingFace exactly for model type `huggingface`, Claude exactly for `claude`, and the worker node for every other model type. The backend gets the query with every field except the prompt unchanged. An absent or empty context keeps the prompt. A non-empty context gives a prompt that starts with the header and the context and ends with `Current query: ` + prompt + newline. |
| QueryPipeline.ContextFor | process-query-update.py:23-31 | Context is fetched only when an orchestrator is present and the model is in the roster. In that case it is the orchestrator's answer. |
| QueryPipeline.TextToSpeech | process-query-update.py:122-161 | The voice is `v2/en_speaker_6` unless the orchestrator is present and the lookup found a row, in which case it is that row's voice. BARK is used iff the whitespace word count is at most `MAX_BARK_WORDS`. |
| QueryPipeline.ProcessQuery | process-query-update.py:1-54 | The reply is a command reply iff the prompt starts with `MOTHERREALM:`. A non-speech query reaches its backend with every field except the prompt unchanged. A speech query reaches it as a chat query with every other field unchanged, and its prompt is the transcription, or ends with `Current query: ` + transcription + newline after history. A non-roster, non-speech query reaches its backend unchanged. For a roster LLM with non-empty stored context and an orchestrator, the prompt starts with the header and that context. Audio is produced iff the model type is `speech` or voice output was requested, except for `imagine` queries, which get the raw result. |
| QueryPipeline.HistoryAddedIff | process-query-update.py:23-35 | For a non-command query, the prompt reaching the backend differs from the (speech-rewritten) prompt exactly when an orchestrator is present, the model is in the roster and its stored context is non-empty. |
| Text.SplitOnce | process-query-update.py:64 | `split(c, 1)` has two parts exactly when `c` occurs. The first part has no `c`, and the parts rejoined around `c` give the input. |
| Text.SplitOnceAt | process-query-update.py:64 | The split happens at the first `c`, and nowhere else. |
| Text.RStrip | process-query-update.py:69 | `rstrip(")")` returns a prefix that does not end in `)`, and everything removed is `)`. |
| Text.RStripExact | process-query-update.py:69 | Stripping removes exactly a trailing run of the character and nothing before it. |
| Text.Join | webgui-integration.py:204 | A join of no names is empty. Otherwise it starts with the first name and ends with the last, and with more than one name the first is followed by the separator. |
| Text.SplitOnJoin | webgui-integration.py:204 | Splitting a comma-join on `,` gives back the names when none of them contains a comma. |
| Text.Words | process-query-update.py:147 | `text.split()` yields non-empty words with no whitespace. Together they hold exactly the non-whitespace characters of the text, in order, and there are no words exactly when the text is all whitespace. |
| Text.WordsCountWordEnds | process-query-update.py:147 | `text.split()` yields exactly one word per word end: a non-space character followed by whitespace or by the end of the text. So the number of words is the number of maximal runs of non-space characters, which fixes the count BARK is chosen by. |
| Text.CountWords | process-query-update.py:147 | The one-pass count equals the number of words `text.split()` gives, and the number of word ends in the text. |

## Left out

- Orchestrator behaviour (`mother_orchestrator`). This covers registration, `process_message`, `set_llm_voice`, `get_context`/`_get_context` and the conversation, context and voice stores. That code is not part of this model, so its results are parameters, and its calls appear as `Forward` and `SetLlmVoice` effects.
- Websocket I/O and the connection lifecycle: `receive_json`, `send_json` failures, `WebSocketDisconnect` and unregistering in `finally` (webgui-integration.py:80-113). `RunSession` models only the catch-all that ends the loop.
- Orchestrator start-up (`initialize`, `_register_existing_workers`), including the `pending_initialization` re-entrancy flag and its SQLite reads (webgui-integration.py:41-78). This is concurrency and start-up plumbing.
- The async queue processor `process_queue_with_mother` (webgui-integration.py:216-246). `Enqueue` stands for putting the query on the queue.
- SQLite access in `process_text_to_speech_with_voice`. The voice lookup is an `Option<string>` input meaning "a row was found".
- Speech-to-text, BARK and pyttsx3 synthesis, and the LLM backend calls are foreign calls. Their results are the `transcription` and `backendResult` parameters, and the engine is a tag. The fallback to `process_text_to_speech` when synthesis raises is not modelled.
- The `HTTPException` wrapping in `process_query`, and the error text of exceptions raised inside the orchestrator during `process_mother_command`.
- Enrich: checks field types strictly. Every required field must be a JSON string, `image`/`audio` must be a string or null, and `voice_output` must be a boolean. The pydantic model's lenient coercions, such as a number given as a string field, are not modelled.
- HandleQuery: the strict typing of `Enrich` also decides when the handler raises. For example, a roster query with `"voice_output": 1` or `"true"` raises in the model, where pydantic would coerce the value.
- RosterQueryRaisesIff: "cannot be built" means the strict typing above, not pydantic's coercing validation.
- HandleMotherMessage: JSON objects are unordered maps here, so the order in which an `llms` object's keys are joined is an input (`llmsKeyOrder`). The model does not check that this order lists exactly the object's keys.
- JSON numbers are integers only; floating-point values are not modelled.
- VoiceOutputOperand: the model forwards the raw `voice_output` operand. `MotherMessage` is imported from the orchestrator module (webgui-integration.py:17), which is not part of this model, so how it treats a `voice_output` that is not a boolean is unknown and not modelled.
- RouteMessage: every message is a JSON object. A message that is some other JSON value makes `data.get` raise at webgui-integration.py:93, which ends the session with an error reply. That case cannot be expressed in the model.
