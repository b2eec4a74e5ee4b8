/**
 * The `MOTHERREALM:` command protocol: the builder used when a client enables an
 * agent-to-agent conversation, and the parser that splits a command prompt into
 * an action and its parameters.
 */
module MotherCommand {
  import opened Wrappers
  import opened Text
  import opened JsonValues

  /** Every command prompt starts with this marker. */
  const Prefix: string := "MOTHERREALM:"

  /** The action that opens a private, agent-only conversation. */
  const PrivateChatAction: string := "debugwindowoutONLYLLMONLYPRIVATECHAT"

  /**
   * A message handed to the orchestrator; absent fields keep the orchestrator's defaults.
   * `voiceOutput` is the value passed as is: how the orchestrator's message type
   * converts it is the orchestrator's business.
   */
  datatype MotherMessage = MotherMessage(
    sender: string,
    content: string,
    voiceOutput: Option<Json>,
    messageType: Option<string>)

  /** A parsed command: `action(params)`. */
  datatype Command = Command(action: string, params: string)

  /** Why a prompt is not a command: no `:` at all (Python raises IndexError), or no `(` after it. */
  datatype ParseError = MissingColon | MissingParen

  /**
   * The prompt that opens a private conversation among `llms`
   * (the names joined by commas inside the parentheses).
   */
  function BuildPrivateChat(llms: seq<string>): (r: string)
    ensures StartsWith(r, Prefix)
    ensures LastIs(r, ')')
  {
    Prefix + PrivateChatAction + "(" + Join(llms, ",") + ")"
  }

  /**
   * `prompt.split(":", 1)[1].split("(", 1)`, then `action = parts[0]` and
   * `params = parts[1].rstrip(")")`.
   */
  function ParseCommand(prompt: string): (r: Result<Command, ParseError>)
    ensures r == Failure(MissingColon) <==> ':' !in prompt
    ensures r == Failure(MissingParen) <==>
      ':' in prompt && '(' !in SplitOnce(prompt, ':').value.1
    ensures r.Success? ==> '(' !in r.value.action && !LastIs(r.value.params, ')')
  {
    match SplitOnce(prompt, ':')
    case None => Failure(MissingColon)
    case Some((_, rest)) =>
      match SplitOnce(rest, '(')
      case None => Failure(MissingParen)
      case Some((action, raw)) => Success(Command(action, RStrip(raw, ')')))
  }

  /**
   * `prompt` is `head:action(params)` followed by `closers` closing parentheses,
   * where `head` holds no `:`, `action` no `(`, and `params` does not end in `)`.
   */
  predicate Frames(prompt: string, head: string, cmd: Command, closers: nat) {
    && ':' !in head
    && '(' !in cmd.action
    && !LastIs(cmd.params, ')')
    && prompt == head + ":" + cmd.action + "(" + cmd.params + Repeat(')', closers)
  }

  /** Every framed prompt parses to its framed command. */
  lemma ParseFramed(prompt: string, head: string, cmd: Command, closers: nat)
    requires Frames(prompt, head, cmd, closers)
    ensures ParseCommand(prompt) == Success(cmd)
  {
    var raw := cmd.params + Repeat(')', closers);
    var rest := cmd.action + "(" + raw;
    assert prompt == head + [':'] + rest;
    SplitOnceAt(head, ':', rest);
    assert rest == cmd.action + ['('] + raw;
    SplitOnceAt(cmd.action, '(', raw);
    RStripExact(cmd.params, ')', closers);
  }

  /** The pieces the parser cuts a prompt into put it back together. */
  lemma Reassemble(prompt: string, head: string, rest: string, action: string,
                   raw: string, params: string, tail: string)
    requires prompt == head + [':'] + rest
    requires rest == action + ['('] + raw
    requires raw == params + tail
    ensures prompt == head + ":" + action + "(" + params + tail
  {}

  /** Every successful parse comes from a framed prompt, so `Frames` characterises the parser. */
  lemma ParseIsFramed(prompt: string)
    requires ParseCommand(prompt).Success?
    ensures exists head, closers :: Frames(prompt, head, ParseCommand(prompt).value, closers)
  {
    var (head, rest) := SplitOnce(prompt, ':').value;
    var (action, raw) := SplitOnce(rest, '(').value;
    var params := RStrip(raw, ')');
    var closers := |raw| - |params|;
    RStripSplit(raw, ')');
    Reassemble(prompt, head, rest, action, raw, params, Repeat(')', closers));
    assert Frames(prompt, head, Command(action, params), closers);
  }

  /** The prefix is a head without `:` followed by the `:` the parser splits on. */
  lemma PrefixPieces()
    ensures ':' !in "MOTHERREALM"
    ensures Prefix == "MOTHERREALM" + ":"
  {
  }

  /** The private-chat action holds no `(`, so the parser splits after it. */
  lemma ActionHasNoParen()
    ensures '(' !in PrivateChatAction
  {
  }

  /** A private-chat prompt, written as the pieces `CommandRoundTrip` takes. */
  lemma BuildPieces(llms: seq<string>)
    ensures BuildPrivateChat(llms) == "MOTHERREALM" + ":" + PrivateChatAction + "(" + Join(llms, ",") + ")"
  {
    PrefixPieces();
  }

  /**
   * Parsing `head:action(joined)` yields `action` and `joined` with its trailing `)`
   * stripped, so the parameters are `joined` exactly when it does not end in `)`.
   */
  lemma {:induction false} CommandRoundTrip(head: string, action: string, joined: string)
    requires ':' !in head && '(' !in action
    ensures ParseCommand(head + ":" + action + "(" + joined + ")")
      == Success(Command(action, RStrip(joined, ')')))
    ensures ParseCommand(head + ":" + action + "(" + joined + ")").value.params == joined
      <==> !LastIs(joined, ')')
  {
    var params := RStrip(joined, ')');
    var closers := |joined| - |params| + 1;
    RStripSplit(joined, ')');
    RepeatSnoc(')', closers - 1);
    assert joined + ")" == params + Repeat(')', closers);
    var prompt := head + ":" + action + "(" + joined + ")";
    assert prompt == head + ":" + action + "(" + params + Repeat(')', closers);
    ParseFramed(prompt, head, Command(action, params), closers);
  }

  /**
   * Parsing a built private-chat prompt yields the private-chat action and the
   * comma-joined names with trailing `)` stripped; so the parameters are the
   * join exactly when that join does not end in `)`.
   */
  lemma BuildParseRoundTrip(llms: seq<string>)
    ensures ParseCommand(BuildPrivateChat(llms))
      == Success(Command(PrivateChatAction, RStrip(Join(llms, ","), ')')))
    ensures ParseCommand(BuildPrivateChat(llms)).value.params == Join(llms, ",")
      <==> !LastIs(Join(llms, ","), ')')
  {
    PrefixPieces();
    ActionHasNoParen();
    BuildPieces(llms);
    CommandRoundTrip("MOTHERREALM", PrivateChatAction, Join(llms, ","));
  }
}
