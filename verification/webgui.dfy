/**
 * The websocket side of the integration: dispatch of inbound client messages,
 * `_handle_query` (command detection and context enrichment), the voice-output
 * preference and `_handle_mother_message` (set-voice and conversation enabling).
 * Orchestrator calls appear as effects (`Forward`, `SetLlmVoice`) and its answers
 * as parameters (`HandlerEnv`).
 */
module WebGuiIntegrator {
  import opened Wrappers
  import opened Text
  import opened JsonValues
  import opened MotherCommand

  /** The orchestrator's `active_llms`: LLM name to its voice_enabled flag. */
  type Roster = map<string, bool>

  /** What the orchestrator answers while one message is handled. */
  datatype HandlerEnv = HandlerEnv(
    userGuid: string,             // the connected user's guid
    activeLlms: Roster,
    context: Option<string>,      // what `get_context(user, model_name)` returns
    setVoiceSuccess: bool,        // what `set_llm_voice` returns
    llmsKeyOrder: seq<string>)    // the order an `llms` object's keys appear in, which a map does not keep

  /** Where `handle_websocket_connection` sends an inbound message. */
  datatype Route = ToQueryHandler | ToMotherHandler | Ignored | Raises

  /** Dispatch on the message's `type` field. */
  function RouteMessage(data: Dict): (r: Route)
    ensures r == ToQueryHandler <==> "type" in data && data["type"] == JStr("submit_query")
    ensures r == ToMotherHandler <==>
      "type" in data && data["type"].JStr? && data["type"].s != "submit_query"
      && StartsWith(data["type"].s, "mother_")
    ensures r == Ignored <==>
      "type" in data && data["type"].JStr? && data["type"].s != "submit_query"
      && !StartsWith(data["type"].s, "mother_")
    // a missing or non-string type has no `startswith`: the handler raises
    ensures r == Raises <==> "type" !in data || !data["type"].JStr?
  {
    match Get(data, "type", JNull)
    case JStr(t) =>
      if t == "submit_query" then ToQueryHandler
      else if StartsWith(t, "mother_") then ToMotherHandler
      else Ignored
    case _ => Raises
  }

  /** Messages sent back on the websocket. */
  datatype Outbound =
    | CommandReceived                          // "mother_command_received"
    | VoiceSet(success: bool, llmName: Json)   // "mother_voice_set"
    | ConversationEnabled(llms: Json)          // "mother_conversation_enabled"
    | ErrorReply                               // "error", sent when a handler raised

  /** One observable step of handling a message. */
  datatype Effect =
    | Forward(msg: MotherMessage)                // mother.process_message
    | SetLlmVoice(llmName: Json, voiceId: Json)  // mother.set_llm_voice
    | Send(reply: Outbound)                      // websocket.send_json
    | Enqueue(query: Dict)                       // _process_standard_query

  /** The effects of handling one message, and whether the handler then raised. */
  datatype Handled = Handled(effects: seq<Effect>, raised: bool)

  /** `_should_use_voice_output`: the roster's voice flag for a known model, false otherwise. */
  function ShouldUseVoiceOutput(roster: Roster, modelName: string): (b: bool)
    ensures b ==> modelName in roster && roster[modelName]
    ensures modelName in roster ==> b == roster[modelName]
  {
    if modelName in roster then roster[modelName] else false
  }

  /**
   * The value of `"voice_output" in q and q["voice_output"]`: Python's `and`
   * yields its right operand when the key is present, and `False` otherwise.
   */
  function VoiceOutputOperand(q: Dict): (v: Json)
    ensures "voice_output" !in q ==> v == JBool(false)
    ensures "voice_output" in q ==> v == q["voice_output"]
    ensures Truthy(v) <==> "voice_output" in q && Truthy(q["voice_output"])
  {
    if "voice_output" in q then q["voice_output"] else JBool(false)
  }

  /** `q[key]` exists and is a string. */
  predicate HasStr(q: Dict, key: string) {
    key in q && q[key].JStr?
  }

  /** `q[key]` is absent, a string or null. */
  predicate OptionalStr(q: Dict, key: string) {
    key !in q || q[key].JStr? || q[key].JNull?
  }

  /**
   * `ContextAwareQuery(**q, context=...)` can be built: no second `context`
   * argument, the four required string fields, and well-typed optional fields.
   */
  predicate BuildsContextAwareQuery(q: Dict) {
    && "context" !in q
    && HasStr(q, "prompt") && HasStr(q, "query_type")
    && HasStr(q, "model_type") && HasStr(q, "model_name")
    && OptionalStr(q, "image") && OptionalStr(q, "audio")
    && ("voice_output" !in q || q["voice_output"].JBool?)
  }

  /** The fields of a context-aware query's `.dict()`. */
  const ContextAwareFields: set<string> :=
    {"prompt", "query_type", "model_type", "model_name", "context", "image", "audio", "voice_output"}

  /** The JSON form of an optional string. */
  function OptionJson(o: Option<string>): (j: Json)
    ensures o.None? <==> j == JNull
    ensures o.Some? ==> j == JStr(o.value)
  {
    match o
    case None => JNull
    case Some(s) => JStr(s)
  }

  /**
   * `e` is `q` rewritten as a context-aware query carrying `context`, with its
   * voice flag overwritten by `voice`; every other key of `q` is dropped.
   */
  predicate IsEnrichment(q: Dict, e: Dict, context: Option<string>, voice: bool)
    requires BuildsContextAwareQuery(q)
  {
    && e.Keys == ContextAwareFields
    && e["prompt"] == q["prompt"] && e["query_type"] == q["query_type"]
    && e["model_type"] == q["model_type"] && e["model_name"] == q["model_name"]
    && e["image"] == Get(q, "image", JNull) && e["audio"] == Get(q, "audio", JNull)
    && e["context"] == OptionJson(context)
    && e["voice_output"] == JBool(voice)
  }

  /** The query after enrichment (`context_query.dict()` plus the voice flag). */
  function Enrich(q: Dict, context: Option<string>, voice: bool): (e: Dict)
    requires BuildsContextAwareQuery(q)
    ensures IsEnrichment(q, e, context, voice)
  {
    map[
      "prompt" := q["prompt"],
      "query_type" := q["query_type"],
      "model_type" := q["model_type"],
      "model_name" := q["model_name"],
      "context" := OptionJson(context),
      "image" := Get(q, "image", JNull),
      "audio" := Get(q, "audio", JNull),
      "voice_output" := JBool(voice)]
  }

  /** The query's prompt is a string that starts a command. */
  predicate IsCommandQuery(q: Dict) {
    "prompt" in q && q["prompt"].JStr? && StartsWith(q["prompt"].s, Prefix)
  }

  /** `_handle_query` */
  function HandleQuery(data: Dict, env: HandlerEnv): (h: Handled)
    // a command is forwarded with the raw `voice_output` operand and acknowledged;
    // the standard path is not reached
    ensures Get(data, "query", JObj(map[])).JObj? && IsCommandQuery(Get(data, "query", JObj(map[])).fields) ==>
      var q := Get(data, "query", JObj(map[])).fields;
      h == Handled([Forward(MotherMessage(env.userGuid, q["prompt"].s, Some(VoiceOutputOperand(q)), None)),
                    Send(CommandReceived)], false)
    // only commands are passed to `process_message`, and commands are never queued
    ensures forall i :: 0 <= i < |h.effects| && h.effects[i].Forward? ==>
      h.effects == [h.effects[i], Send(CommandReceived)]
    // the only reply is the command acknowledgement; voices are never set here
    ensures forall i :: 0 <= i < |h.effects| ==>
      h.effects[i].Forward? || h.effects[i].Enqueue? || h.effects[i] == Send(CommandReceived)
    ensures forall i :: 0 <= i < |h.effects| && h.effects[i].Forward? ==>
      StartsWith(h.effects[i].msg.content, Prefix)
    // the handler needs a query object
    ensures "query" !in data || !data["query"].JObj? ==> h == Handled([], true)
    // past the command check: an unhashable model name raises; a name that is not a
    // roster string leaves the query queued unchanged; a roster model's query is
    // queued enriched with the fetched context and the roster's voice flag, or the
    // handler raises when that query cannot be built
    ensures ("query" in data && data["query"].JObj? && !IsCommandQuery(data["query"].fields)
             && !("prompt" in data["query"].fields && !data["query"].fields["prompt"].JStr?)) ==>
      var q := data["query"].fields;
      var name := Get(q, "model_name", JStr(""));
      && (name.JList? || name.JObj? ==> h == Handled([], true))
      && (!name.JList? && !name.JObj? && !(name.JStr? && name.s in env.activeLlms) ==>
            h == Handled([Enqueue(q)], false))
      && (name.JStr? && name.s in env.activeLlms && BuildsContextAwareQuery(q) ==>
            && !h.raised && |h.effects| == 1 && h.effects[0].Enqueue?
            && IsEnrichment(q, h.effects[0].query, env.context, ShouldUseVoiceOutput(env.activeLlms, name.s))
            && h.effects[0].query["voice_output"] == JBool(env.activeLlms[name.s]))
      && (name.JStr? && name.s in env.activeLlms && !BuildsContextAwareQuery(q) ==> h == Handled([], true))
    // a prompt that is not a string has no `startswith`
    ensures ("query" in data && data["query"].JObj? && "prompt" in data["query"].fields
             && !data["query"].fields["prompt"].JStr?) ==> h == Handled([], true)
  {
    var qv := Get(data, "query", JObj(map[]));
    if !qv.JObj? then Handled([], true)
    else
      var q := qv.fields;
      if "prompt" in q && !q["prompt"].JStr? then Handled([], true)
      else if IsCommandQuery(q) then
        Handled([Forward(MotherMessage(env.userGuid, q["prompt"].s, Some(VoiceOutputOperand(q)), None)),
                 Send(CommandReceived)], false)
      else
        var name := Get(q, "model_name", JStr(""));
        if name.JList? || name.JObj? then Handled([], true)  // unhashable: `in` raises
        else if name.JStr? && name.s in env.activeLlms then
          if BuildsContextAwareQuery(q) then
            Handled([Enqueue(Enrich(q, env.context, ShouldUseVoiceOutput(env.activeLlms, name.s)))], false)
          else Handled([], true)
        else if "query" in data then Handled([Enqueue(q)], false)
        else Handled([], true)  // data["query"] raises KeyError
  }

  /** The number of elements `len(v)` reports, or `None` when `len` raises. */
  function Length(v: Json): (n: Option<nat>)
    ensures n.Some? <==> v.JStr? || v.JList? || v.JObj?
    ensures n.Some? ==> (n.value > 0 <==> Truthy(v))
  {
    match v
    case JStr(s) => Some(|s|)
    case JList(items) => Some(|items|)
    case JObj(fields) => Some(|fields|)
    case _ => None
  }

  /** The strings of a list, or `None` if one of them is not a string. */
  function StringItems(items: seq<Json>): (r: Option<seq<string>>)
    ensures r.Some? ==> |r.value| == |items|
    ensures r.Some? ==> forall i :: 0 <= i < |items| ==> items[i] == JStr(r.value[i])
    ensures r.None? ==> exists i :: 0 <= i < |items| && !items[i].JStr?
  {
    if |items| == 0 then Some([])
    else if !items[0].JStr? then None
    else
      match StringItems(items[1..])
      case None => None
      case Some(rest) => Some([items[0].s] + rest)
  }

  /**
   * The names `','.join(v)` joins: a list's strings, a string's characters, or an
   * object's keys in the order `keyOrder` gives.
   */
  function JoinedNames(v: Json, keyOrder: seq<string>): (r: Option<seq<string>>)
    // numbers, booleans and null cannot be iterated; a list fails only on a non-string item
    ensures r.None? ==> v.JList? || v.JNum? || v.JBool? || v.JNull?
    ensures v.JNum? || v.JBool? || v.JNull? ==> r.None?
    // a list joins its items, and only when every item is a string
    ensures v.JList? ==> (r.Some? <==> forall i :: 0 <= i < |v.items| ==> v.items[i].JStr?)
    ensures v.JList? && r.Some? ==>
      |r.value| == |v.items| && forall i :: 0 <= i < |v.items| ==> v.items[i] == JStr(r.value[i])
    // an object joins its keys, which the message lists in `keyOrder`
    ensures v.JObj? ==> r == Some(keyOrder)
    // a string joins its characters, one name each
    ensures v.JStr? ==> r.Some? && |r.value| == |v.s| && forall i :: 0 <= i < |v.s| ==> r.value[i] == [v.s[i]]
  {
    match v
    case JList(items) => StringItems(items)
    case JStr(s) => Some(seq(|s|, i requires 0 <= i < |s| => [s[i]]))
    case JObj(_) => Some(keyOrder)
    case _ => None
  }

  /** The `mother_enable_conversation` branch of `_handle_mother_message`, for the value of `llms`. */
  function EnableConversation(llms: Json, env: HandlerEnv): (h: Handled)
    ensures !Truthy(llms) ==> h == Handled([], false)
    ensures Length(llms).Some? && Length(llms).value <= 1 ==> h == Handled([], false)
    // a truthy value without a length (a number or boolean) raises
    ensures Truthy(llms) && Length(llms).None? ==> h == Handled([], true)
    // a longer one is joined; a join that fails (a non-string item) raises
    ensures Length(llms).Some? && Length(llms).value > 1 ==>
      match JoinedNames(llms, env.llmsKeyOrder)
      case None => h == Handled([], true)
      case Some(names) =>
        h == Handled([Forward(MotherMessage(env.userGuid, BuildPrivateChat(names), None, Some("system"))),
                      Send(ConversationEnabled(llms))], false)
  {
    if !Truthy(llms) then Handled([], false)
    else
      match Length(llms)
      case None => Handled([], true)  // `len` of a number or boolean raises
      case Some(n) =>
        if n <= 1 then Handled([], false)
        else
          match JoinedNames(llms, env.llmsKeyOrder)
          case None => Handled([], true)
          case Some(names) =>
            Handled([Forward(MotherMessage(env.userGuid, BuildPrivateChat(names), None, Some("system"))),
                     Send(ConversationEnabled(llms))], false)
  }

  /** `_handle_mother_message` */
  function HandleMotherMessage(data: Dict, env: HandlerEnv): (h: Handled)
    // set-voice happens, and is answered, only with a non-empty name and voice
    ensures Get(data, "type", JStr("")) == JStr("mother_set_voice") ==>
      var llm := Get(data, "llm_name", JNull);
      var voice := Get(data, "voice_id", JNull);
      && !h.raised
      && (Truthy(llm) && Truthy(voice) ==>
            h.effects == [SetLlmVoice(llm, voice), Send(VoiceSet(env.setVoiceSuccess, llm))])
      && (!(Truthy(llm) && Truthy(voice)) ==> h.effects == [])
    // a list of names is enabled as a private chat only when it has more than one name
    ensures Get(data, "type", JStr("")) == JStr("mother_enable_conversation")
            && "llms" in data && data["llms"].JList? ==>
      var items := data["llms"].items;
      && (|items| <= 1 ==> h == Handled([], false))
      && (|items| > 1 && StringItems(items).Some? ==>
            h == Handled([Forward(MotherMessage(env.userGuid, BuildPrivateChat(StringItems(items).value),
                                                None, Some("system"))),
                          Send(ConversationEnabled(data["llms"]))], false))
    // `len(llms) > 1` guards every kind of value: a shorter one enables nothing
    ensures Get(data, "type", JStr("")) == JStr("mother_enable_conversation") ==>
      var llms := Get(data, "llms", JList([]));
      && (Length(llms).Some? && Length(llms).value <= 1 ==> h == Handled([], false))
      // a longer one is joined; a join that fails (a non-string item) raises
      && (Length(llms).Some? && Length(llms).value > 1 ==>
            match JoinedNames(llms, env.llmsKeyOrder)
            case None => h == Handled([], true)
            case Some(names) =>
              h == Handled([Forward(MotherMessage(env.userGuid, BuildPrivateChat(names), None, Some("system"))),
                            Send(ConversationEnabled(llms))], false))
      && (h.effects != [] ==> Length(llms).Some? && Length(llms).value > 1)
    // an object's keys are joined in the order the message gave them
    ensures Get(data, "type", JStr("")) == JStr("mother_enable_conversation")
            && "llms" in data && data["llms"].JObj? && |data["llms"].fields| > 1 ==>
      h == Handled([Forward(MotherMessage(env.userGuid, BuildPrivateChat(env.llmsKeyOrder), None, Some("system"))),
                    Send(ConversationEnabled(data["llms"]))], false)
    // no names, or an empty value, enables nothing; `len` of a number or boolean raises
    ensures (Get(data, "type", JStr("")) == JStr("mother_enable_conversation")
             && !Truthy(Get(data, "llms", JList([])))) ==> h == Handled([], false)
    ensures Get(data, "type", JStr("")) == JStr("mother_enable_conversation")
            && "llms" in data && (data["llms"].JNum? || data["llms"].JBool?) && Truthy(data["llms"]) ==>
      h == Handled([], true)
    ensures Get(data, "type", JStr("")) !in {JStr("mother_set_voice"), JStr("mother_enable_conversation")} ==>
      h == Handled([], false)
    // nothing is queued or acknowledged as a command; what is forwarded is a system command
    ensures forall i :: 0 <= i < |h.effects| ==>
      || h.effects[i].SetLlmVoice? || h.effects[i].Forward?
      || (h.effects[i].Send? && (h.effects[i].reply.VoiceSet? || h.effects[i].reply.ConversationEnabled?))
    ensures forall i :: 0 <= i < |h.effects| && h.effects[i].Forward? ==>
      StartsWith(h.effects[i].msg.content, Prefix) && h.effects[i].msg.messageType == Some("system")
  {
    var t := Get(data, "type", JStr(""));
    if t == JStr("mother_set_voice") then
      var llm := Get(data, "llm_name", JNull);
      var voice := Get(data, "voice_id", JNull);
      if Truthy(llm) && Truthy(voice) then
        Handled([SetLlmVoice(llm, voice), Send(VoiceSet(env.setVoiceSuccess, llm))], false)
      else Handled([], false)
    else if t == JStr("mother_enable_conversation") then
      EnableConversation(Get(data, "llms", JList([])), env)
    else Handled([], false)
  }

  /**
   * The command forwarded when a conversation is enabled parses as the private-chat
   * action, and splitting its parameters on `,` gives back the names, provided no
   * name holds a comma and the join does not end in `)`.
   */
  lemma EnabledConversationParses(data: Dict, env: HandlerEnv, names: seq<string>)
    requires Get(data, "type", JStr("")) == JStr("mother_enable_conversation")
    requires "llms" in data && data["llms"].JList?
    requires StringItems(data["llms"].items) == Some(names) && |names| > 1
    requires forall i :: 0 <= i < |names| ==> ',' !in names[i]
    requires !LastIs(Join(names, ","), ')')
    ensures HandleMotherMessage(data, env).effects[0].Forward?
    ensures var content := HandleMotherMessage(data, env).effects[0].msg.content;
      && ParseCommand(content).Success?
      && ParseCommand(content).value.action == PrivateChatAction
      && SplitOn(ParseCommand(content).value.params, ',') == names
  {
    BuildParseRoundTrip(names);
    SplitOnJoin(names, ',');
  }

  /**
   * A queued query is the client's query object unchanged exactly when its model
   * name is not a roster string: a roster model's query always gains `context`.
   */
  lemma QueuedUnchangedIff(data: Dict, env: HandlerEnv)
    requires "query" in data && data["query"].JObj?
    requires |HandleQuery(data, env).effects| > 0 && HandleQuery(data, env).effects[0].Enqueue?
    ensures var q := data["query"].fields;
      var name := Get(q, "model_name", JStr(""));
      HandleQuery(data, env).effects[0].query == q <==> !(name.JStr? && name.s in env.activeLlms)
  {
  }

  /**
   * For a roster model the handler raises exactly when `ContextAwareQuery(**q,
   * context=...)` cannot be built; otherwise the enriched query is queued.
   */
  lemma RosterQueryRaisesIff(data: Dict, env: HandlerEnv)
    requires "query" in data && data["query"].JObj? && !IsCommandQuery(data["query"].fields)
    requires var q := data["query"].fields;
      && !("prompt" in q && !q["prompt"].JStr?)
      && Get(q, "model_name", JStr("")).JStr? && Get(q, "model_name", JStr("")).s in env.activeLlms
    ensures HandleQuery(data, env).raised <==> !BuildsContextAwareQuery(data["query"].fields)
    ensures !HandleQuery(data, env).raised ==>
      HandleQuery(data, env).effects
        == [Enqueue(Enrich(data["query"].fields, env.context,
                           env.activeLlms[data["query"].fields["model_name"].s]))]
  {
  }

  /** One iteration of the receive loop in `handle_websocket_connection`. */
  function HandleMessage(data: Dict, env: HandlerEnv): (h: Handled)
    // `submit_query` goes to the query handler, any other `mother_` type to the MOTHER handler
    ensures "type" in data && data["type"] == JStr("submit_query") ==> h == HandleQuery(data, env)
    ensures ("type" in data && data["type"].JStr? && data["type"].s != "submit_query"
             && StartsWith(data["type"].s, "mother_")) ==> h == HandleMotherMessage(data, env)
    // a missing or non-string type raises before anything happens
    ensures "type" !in data || !data["type"].JStr? ==> h == Handled([], true)
    // a string type that is neither `submit_query` nor `mother_...` is ignored
    ensures ("type" in data && data["type"].JStr? && data["type"].s != "submit_query"
             && !StartsWith(data["type"].s, "mother_")) ==> h == Handled([], false)
    // queueing and the command acknowledgement belong to `submit_query` alone
    ensures forall i :: 0 <= i < |h.effects| && (h.effects[i].Enqueue? || h.effects[i] == Send(CommandReceived)) ==>
      "type" in data && data["type"] == JStr("submit_query")
    // setting a voice and its replies belong to `mother_` types alone
    ensures forall i :: (0 <= i < |h.effects|
                         && (h.effects[i].SetLlmVoice?
                             || (h.effects[i].Send? && (h.effects[i].reply.VoiceSet? || h.effects[i].reply.ConversationEnabled?)))) ==>
      "type" in data && data["type"].JStr? && data["type"].s != "submit_query"
      && StartsWith(data["type"].s, "mother_")
    // whichever handler runs, only `MOTHERREALM:` commands reach the orchestrator
    ensures forall i :: 0 <= i < |h.effects| && h.effects[i].Forward? ==>
      StartsWith(h.effects[i].msg.content, Prefix)
    // no handler sends the error reply itself: that is the loop's job
    ensures Send(ErrorReply) !in h.effects
  {
    match RouteMessage(data)
    case ToQueryHandler => HandleQuery(data, env)
    case ToMotherHandler => HandleMotherMessage(data, env)
    case Ignored => Handled([], false)
    case Raises => Handled([], true)
  }

  /** An inbound message together with what the orchestrator answers while it is handled. */
  datatype Step = Step(data: Dict, env: HandlerEnv)

  predicate StepRaises(s: Step) {
    HandleMessage(s.data, s.env).raised
  }

  /** Some message of the sequence makes its handler raise. */
  predicate AnyRaises(steps: seq<Step>) {
    exists i :: 0 <= i < |steps| && StepRaises(steps[i])
  }

  /** Some handler outcome is a raise. */
  predicate SomeRaised(hs: seq<Handled>) {
    exists i :: 0 <= i < |hs| && hs[i].raised
  }

  /** No handler outcome carries the error reply: only the loop sends it. */
  predicate NoErrorReply(hs: seq<Handled>) {
    forall i :: 0 <= i < |hs| ==> Send(ErrorReply) !in hs[i].effects
  }

  /** Every outcome's effects, one after another. */
  function Flatten(hs: seq<Handled>): seq<Effect> {
    if |hs| == 0 then [] else hs[0].effects + Flatten(hs[1..])
  }

  /** Without its first outcome, a sequence has a raise exactly when it had one after the first. */
  lemma SomeRaisedTail(hs: seq<Handled>)
    requires |hs| > 0
    ensures SomeRaised(hs) <==> hs[0].raised || SomeRaised(hs[1..])
  {
    if SomeRaised(hs) && !hs[0].raised {
      var i :| 0 <= i < |hs| && hs[i].raised;
      assert hs[1..][i - 1].raised;
    }
    if SomeRaised(hs[1..]) {
      var i :| 0 <= i < |hs[1..]| && hs[1..][i].raised;
      assert hs[i + 1].raised;
    }
  }

  /**
   * The `while True` loop of `handle_websocket_connection` over the handlers'
   * outcomes in message order: effects accumulate, and the first raise is answered
   * with an error reply by the `except` outside the loop, which ends it.
   */
  function Loop(hs: seq<Handled>): (effects: seq<Effect>)
    ensures NoErrorReply(hs) ==> (Send(ErrorReply) in effects <==> SomeRaised(hs))
    ensures SomeRaised(hs) ==> |effects| > 0 && effects[|effects| - 1] == Send(ErrorReply)
  {
    if |hs| == 0 then []
    else
      SomeRaisedTail(hs);
      if hs[0].raised then hs[0].effects + [Send(ErrorReply)]
      else
        assert NoErrorReply(hs) ==> NoErrorReply(hs[1..]) by {
          if NoErrorReply(hs) {
            forall i | 0 <= i < |hs[1..]|
              ensures Send(ErrorReply) !in hs[1..][i].effects
            {
              assert hs[1..][i] == hs[i + 1];
            }
          }
        }
        hs[0].effects + Loop(hs[1..])
  }

  /** Without a raise, the loop emits every outcome's effects. */
  lemma {:induction false} LoopNoRaise(hs: seq<Handled>)
    requires !SomeRaised(hs)
    ensures Loop(hs) == Flatten(hs)
  {
    if |hs| > 0 {
      SomeRaisedTail(hs);
      LoopNoRaise(hs[1..]);
    }
  }

  /** At the first raise, the loop has emitted the effects up to it, then the error reply. */
  lemma {:induction false} LoopStopsAt(hs: seq<Handled>, k: nat)
    requires k < |hs| && hs[k].raised && !SomeRaised(hs[..k])
    ensures Loop(hs) == Flatten(hs[..k + 1]) + [Send(ErrorReply)]
  {
    assert hs[..k + 1][0] == hs[0];
    assert hs[..k + 1][1..] == hs[1..][..k];
    if k == 0 {
      assert hs[1..][..0] == [];
    } else {
      SomeRaisedTail(hs[..k]);
      assert hs[..k][0] == hs[0] && hs[..k][1..] == hs[1..][..k - 1];
      LoopStopsAt(hs[1..], k - 1);
    }
  }

  /** Outcomes after a raise never reach the loop. */
  lemma {:induction false} LoopNothingAfterRaise(hs: seq<Handled>, more: seq<Handled>)
    requires SomeRaised(hs)
    ensures Loop(hs + more) == Loop(hs)
  {
    SomeRaisedTail(hs);
    assert (hs + more)[0] == hs[0];
    if !hs[0].raised {
      assert (hs + more)[1..] == hs[1..] + more;
      LoopNothingAfterRaise(hs[1..], more);
    }
  }

  /** Without a raise in the first part, the loop runs the two parts one after the other. */
  lemma {:induction false} LoopConcat(hs: seq<Handled>, more: seq<Handled>)
    requires !SomeRaised(hs)
    ensures Loop(hs + more) == Loop(hs) + Loop(more)
  {
    if |hs| == 0 {
      assert hs + more == more;
    } else {
      SomeRaisedTail(hs);
      assert (hs + more)[0] == hs[0];
      assert (hs + more)[1..] == hs[1..] + more;
      LoopConcat(hs[1..], more);
    }
  }

  /** What the handlers do with each message of a sequence. */
  function Outcomes(steps: seq<Step>): (hs: seq<Handled>)
    ensures |hs| == |steps|
    ensures forall i :: 0 <= i < |steps| ==> hs[i] == HandleMessage(steps[i].data, steps[i].env)
    ensures NoErrorReply(hs)
    ensures SomeRaised(hs) <==> AnyRaises(steps)
  {
    var hs := seq(|steps|, i requires 0 <= i < |steps| => HandleMessage(steps[i].data, steps[i].env));
    assert SomeRaised(hs) ==> AnyRaises(steps) by {
      if SomeRaised(hs) {
        var i :| 0 <= i < |hs| && hs[i].raised;
        assert StepRaises(steps[i]);
      }
    }
    assert AnyRaises(steps) ==> SomeRaised(hs) by {
      if AnyRaises(steps) {
        var i :| 0 <= i < |steps| && StepRaises(steps[i]);
        assert hs[i].raised;
      }
    }
    hs
  }

  lemma OutcomesConcat(steps: seq<Step>, later: seq<Step>)
    ensures Outcomes(steps + later) == Outcomes(steps) + Outcomes(later)
  {
    var all := steps + later;
    forall i | 0 <= i < |all|
      ensures Outcomes(all)[i] == (Outcomes(steps) + Outcomes(later))[i]
    {
      if i < |steps| {
        assert all[i] == steps[i];
      } else {
        assert all[i] == later[i - |steps|];
      }
    }
  }

  lemma OutcomesSlice(steps: seq<Step>, lo: nat, hi: nat)
    requires lo <= hi <= |steps|
    ensures Outcomes(steps[lo..hi]) == Outcomes(steps)[lo..hi]
  {
    forall i | 0 <= i < hi - lo
      ensures Outcomes(steps[lo..hi])[i] == Outcomes(steps)[lo..hi][i]
    {
      assert steps[lo..hi][i] == steps[lo + i];
    }
  }

  /** The handlers' effects for every message, one after another, as if none raised. */
  function AllEffects(steps: seq<Step>): seq<Effect> {
    Flatten(Outcomes(steps))
  }

  /** The receive loop over a sequence of messages. */
  function RunSession(steps: seq<Step>): (effects: seq<Effect>)
    ensures Send(ErrorReply) in effects <==> AnyRaises(steps)
    ensures AnyRaises(steps) ==> effects[|effects| - 1] == Send(ErrorReply)
    // a first handler that raises still has its effects emitted, then the error reply ends the loop
    ensures |steps| > 0 && StepRaises(steps[0]) ==>
      effects == HandleMessage(steps[0].data, steps[0].env).effects + [Send(ErrorReply)]
  {
    Loop(Outcomes(steps))
  }

  /** A first message that does not raise contributes its effects, then the loop goes on. */
  lemma RunSessionCons(steps: seq<Step>)
    requires |steps| > 0 && !StepRaises(steps[0])
    ensures RunSession(steps) == HandleMessage(steps[0].data, steps[0].env).effects + RunSession(steps[1..])
  {
    var hs := Outcomes(steps);
    OutcomesSlice(steps, 1, |steps|);
    assert steps[1..|steps|] == steps[1..] && hs[1..|steps|] == hs[1..];
    assert !hs[0].raised;
    assert Loop(hs) == hs[0].effects + Loop(hs[1..]);
  }

  /** Without a raise, every handler's effects are emitted, in message order. */
  lemma NoRaiseEmitsAll(steps: seq<Step>)
    requires !AnyRaises(steps)
    ensures RunSession(steps) == AllEffects(steps)
  {
    LoopNoRaise(Outcomes(steps));
  }

  /**
   * At the first message whose handler raises, the session is every handler's
   * effects up to and including that message, then the error reply.
   */
  lemma StopsAtFirstRaise(steps: seq<Step>, k: nat)
    requires k < |steps| && StepRaises(steps[k]) && !AnyRaises(steps[..k])
    ensures RunSession(steps) == AllEffects(steps[..k + 1]) + [Send(ErrorReply)]
  {
    OutcomesSlice(steps, 0, k);
    OutcomesSlice(steps, 0, k + 1);
    assert steps[0..k] == steps[..k] && steps[0..k + 1] == steps[..k + 1];
    LoopStopsAt(Outcomes(steps), k);
  }

  /** Messages after one whose handler raised are never handled. */
  lemma NothingAfterRaise(steps: seq<Step>, later: seq<Step>)
    requires AnyRaises(steps)
    ensures RunSession(steps + later) == RunSession(steps)
  {
    OutcomesConcat(steps, later);
    LoopNothingAfterRaise(Outcomes(steps), Outcomes(later));
  }

  /** Without a raise, handling two sequences of messages is handling each in turn. */
  lemma SessionConcat(steps: seq<Step>, later: seq<Step>)
    requires !AnyRaises(steps)
    ensures RunSession(steps + later) == RunSession(steps) + RunSession(later)
  {
    OutcomesConcat(steps, later);
    LoopConcat(Outcomes(steps), Outcomes(later));
  }
}
