/**
  The older `ask` module (modules/ask.py): the same reply-chain walk, role
  tagging and ordering as the current command, but every turn carries the
  message's full text, command word included.
 */
module LegacyAsk {
  import opened Wrappers
  import opened ReplyChain
  import Ask

  /**
    The system prompt, formatted with the `BOT_USERNAME` environment variable:
    the current handler's prompt without its closing note on the message limit.
   */
  function SystemPrompt(botUsername: string): (r: string)
    ensures Ask.SystemPrompt(botUsername) == r + Ask.LimitNote
    ensures |r| == |Ask.SystemPrompt(botUsername)| - |Ask.LimitNote|
  {
    Ask.PromptHead + botUsername + Ask.IgnoreNote
  }

  /** The body of the loop in `cmd_ask`, applied to the visited messages: one turn each, full text. */
  function CollectTurns(visited: seq<Msg>, botId: int): (r: seq<Turn>)
    ensures |r| == |visited|
    ensures forall i | 0 <= i < |visited| ::
      r[i].role == RoleOf(visited[i], botId) && r[i].content == visited[i].text
  {
    if |visited| == 0 then []
    else [Turn(RoleOf(visited[0], botId), visited[0].text)] + CollectTurns(visited[1..], botId)
  }

  /**
    The prompt list built from the visited messages (newest first) and the
    new message's text: the visited turns oldest first, then the new text as a
    user turn.
   */
  function PromptsFrom(visited: seq<Msg>, botId: int, text: string): (r: seq<Turn>)
    ensures |r| == |visited| + 1
    ensures r[|visited|] == Turn(User, text)
    ensures forall i | 0 <= i < |visited| ::
      && r[i].role == RoleOf(visited[|visited| - 1 - i], botId)
      && r[i].content == visited[|visited| - 1 - i].text
  {
    var previous := CollectTurns(visited, botId);
    var r := Reverse(previous) + [Turn(User, text)];
    assert forall i | 0 <= i < |previous| :: r[i] == previous[|previous| - 1 - i];
    r
  }

  /** The prompt list of `cmd_ask` for `message`, whose `parent` is the fetched chain. */
  function BuildPrompts(message: Msg, botId: int): (r: seq<Turn>)
    ensures |r| == |Chain(message.parent)| + 1
    ensures r[|r| - 1] == Turn(User, message.text)
  {
    PromptsFrom(Chain(message.parent), botId, message.text)
  }

  /** `system_prompt + user_prompts`. */
  function ResultantPrompt(prompts: seq<Turn>, botUsername: string): seq<Turn> {
    WithSystemTurn(SystemPrompt(botUsername), prompts)
  }

  /** `generate_response`: the completion's text, or its exception re-raised. */
  function GenerateResponse(prompts: seq<Turn>, botUsername: string, complete: Completer): (r: Result<string, string>)
    ensures var outcome := complete(ResultantPrompt(prompts, botUsername));
      && (r.Success? <==> outcome.Success?)
      && (r.Success? ==> r.value == outcome.value)
      && (r.Failure? ==> r.error == outcome.error)
  {
    match complete(ResultantPrompt(prompts, botUsername))
    case Success(text) => Success(text)
    case Failure(cause) => Failure(cause)
  }

  /**
    `cmd_ask` without its messaging side effects: the reply text, or the
    completion's exception. Nothing before the completion call can fail.
   */
  function CmdAsk(message: Msg, botId: int, botUsername: string, complete: Completer): (r: Result<string, string>)
    ensures var outcome := complete(ResultantPrompt(BuildPrompts(message, botId), botUsername));
      && (r.Success? <==> outcome.Success?)
      && (r.Success? ==> r.value == outcome.value)
      && (r.Failure? ==> r.error == outcome.error)
  {
    GenerateResponse(BuildPrompts(message, botId), botUsername, complete)
  }

  // ---------------------------------------------------------------------------
  // Properties

  /** The list sent to the model has one system turn, first, and ends with the new user turn. */
  lemma {:induction false} SentConversationIsWellFormed(message: Msg, botId: int, botUsername: string)
    ensures WellFormedConversation(ResultantPrompt(BuildPrompts(message, botId), botUsername))
  {
    var prompts := PromptsFrom(Chain(message.parent), botId, message.text);
    PromptsHaveNoSystemTurn(Chain(message.parent), botId, message.text);
    SystemFirstIsWellFormed(SystemPrompt(botUsername), prompts);
  }

  /** Every turn built from the chain is a user or assistant turn, and the last is a user turn. */
  lemma {:induction false} PromptsHaveNoSystemTurn(visited: seq<Msg>, botId: int, text: string)
    ensures var prompts := PromptsFrom(visited, botId, text);
      && prompts[|prompts| - 1].role == User
      && forall i | 0 <= i < |prompts| :: prompts[i].role != System
  {
    var prompts := PromptsFrom(visited, botId, text);
    forall i | 0 <= i < |prompts|
      ensures prompts[i].role != System
    {
      if i < |visited| {
        assert prompts[i].role == RoleOf(visited[|visited| - 1 - i], botId);
      }
    }
  }

  /**
    For the same fetched chain and bot id, the two handlers produce the same
    roles in the same order; each current turn is the older turn with its
    first word stripped.
   */
  lemma {:induction false} VariantsDifferOnlyInContent(message: Msg, botId: int)
    requires Ask.BuildPrompts(message, botId).Success?
    ensures var current := Ask.BuildPrompts(message, botId).value;
      var older := BuildPrompts(message, botId);
      && Roles(current) == Roles(older)
      && forall i | 0 <= i < |older| :: Ask.AfterFirstSpace(older[i].content) == Success(current[i].content)
  {
    var current := Ask.BuildPrompts(message, botId).value;
    var older := BuildPrompts(message, botId);
    var n := |older|;
    assert |current| == n;
    forall i | 0 <= i < n - 1
      ensures current[i].role == older[i].role
    {
      var m := Chain(message.parent)[n - 2 - i];
      assert current[i].role == RoleOf(m, botId);
      assert older[i].role == RoleOf(m, botId);
    }
    forall i | 0 <= i < n - 1
      ensures Ask.AfterFirstSpace(older[i].content) == Success(current[i].content)
    {
      var m := Chain(message.parent)[n - 2 - i];
      assert Ask.AfterFirstSpace(m.text) == Success(current[i].content);
      assert older[i].content == m.text;
    }
    assert current[n - 1].role == User == older[n - 1].role;
    assert Ask.AfterFirstSpace(older[n - 1].content) == Success(current[n - 1].content);
    assert forall i | 0 <= i < n :: current[i].role == older[i].role;
    assert Roles(current) == Roles(older);
  }
}
