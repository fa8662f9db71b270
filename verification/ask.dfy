/**
  The `ask` command (src/commands/AI/ask.py): it rebuilds the conversation
  from the fetched reply chain, strips the command word from every message,
  prepends the system prompt and hands the list to the completion call.
 */
module Ask {
  import opened Wrappers
  import opened PyValues
  import opened ReplyChain
  import Command

  /** The system prompt up to the bot's user name. */
  const PromptHead: string :=
    "You are YeetAIBot, designed to be multipurpose. You can answer math questions, general questions, and more. Ignore /ask or /ask@"

  /** The instruction to skip the command prefix, after the bot's user name. */
  const IgnoreNote: string :=
    " at the start of user's message. If the resulting message after ignoring those is empty, respond with 'Please give me a prompt!'"

  /** The closing note on Telegram's 4096-character message limit. */
  const LimitNote: string :=
    "Your response will be sent to telegram. Please limit your output to 4096 character otherwise the message will fail to send."

  /**
    The system prompt; `botUsername` is what the `BOT_USERNAME` environment
    variable formats as (the text "None" when it is unset).
   */
  function SystemPrompt(botUsername: string): (r: string)
    ensures |r| == |PromptHead| + |botUsername| + |IgnoreNote| + |LimitNote|
    ensures r[..|PromptHead|] == PromptHead
    ensures r[|PromptHead|..|PromptHead| + |botUsername|] == botUsername
    ensures r[|PromptHead| + |botUsername|..] == IgnoreNote + LimitNote
  {
    PromptHead + botUsername + IgnoreNote + LimitNote
  }

  /** What the handler can raise. */
  datatype AskError =
      /** `str.index(" ")` on a text without a space (`ValueError`). */
    | SubstringNotFound
      /** The completion call raised; the handler re-raises it unchanged. */
    | CompletionFailed(cause: string)

  /** `s.index(c)`: the position of the first `c`, or nothing when there is none. */
  function IndexOf(s: string, c: char): (r: Option<nat>)
    ensures r.None? <==> c !in s
    ensures r.Some? ==> r.value < |s| && s[r.value] == c && c !in s[..r.value]
  {
    if |s| == 0 then None
    else if s[0] == c then Some(0)
    else match IndexOf(s[1..], c)
      case None => None
      case Some(k) =>
        assert s[..k + 1] == [s[0]] + s[1..][..k];
        Some(k + 1)
  }

  /** `rest` is what follows the first space of `text`. */
  predicate SuffixAfterFirstSpace(text: string, rest: string) {
    && |rest| < |text|
    && text[|text| - |rest| - 1] == ' '
    && ' ' !in text[..|text| - |rest| - 1]
    && text[|text| - |rest|..] == rest
  }

  /**
    `text[text.index(" ") + 1:]`: the text after the first space, which drops
    the `/ask` word; a text without a space raises.
   */
  function AfterFirstSpace(text: string): (r: Result<string, AskError>)
    ensures r.Failure? <==> ' ' !in text
    ensures r.Failure? ==> r.error == SubstringNotFound
    ensures r.Success? ==> SuffixAfterFirstSpace(text, r.value)
  {
    match IndexOf(text, ' ')
    case None => Failure(SubstringNotFound)
    case Some(k) => Success(text[k + 1..])
  }

  /**
    The body of the loop in `execute`, applied to the visited messages in
    visiting order: each yields a turn tagged by its author and stripped of
    its first word, and the first text without a space raises.
   */
  function CollectTurns(visited: seq<Msg>, botId: int): (r: Result<seq<Turn>, AskError>)
    ensures r.Success? <==> forall i | 0 <= i < |visited| :: ' ' in visited[i].text
    ensures r.Failure? ==> r.error == SubstringNotFound
    ensures r.Success? ==> |r.value| == |visited|
    ensures r.Success? ==> forall i | 0 <= i < |visited| ::
      && r.value[i].role == RoleOf(visited[i], botId)
      && AfterFirstSpace(visited[i].text) == Success(r.value[i].content)
  {
    if |visited| == 0 then Success([])
    else
      var content :- AfterFirstSpace(visited[0].text);
      var rest :- CollectTurns(visited[1..], botId);
      Success([Turn(RoleOf(visited[0], botId), content)] + rest)
  }

  /**
    The prompt list built from the visited messages (newest first) and the
    new message's text: the visited turns oldest first, then the stripped new
    text as a user turn.
   */
  function PromptsFrom(visited: seq<Msg>, botId: int, text: string): (r: Result<seq<Turn>, AskError>)
    ensures r.Success? <==> ' ' in text && forall i | 0 <= i < |visited| :: ' ' in visited[i].text
    ensures r.Failure? ==> r.error == SubstringNotFound
    ensures r.Success? ==> |r.value| == |visited| + 1
    ensures r.Success? ==>
      r.value[|visited|].role == User && AfterFirstSpace(text) == Success(r.value[|visited|].content)
    ensures r.Success? ==> forall i | 0 <= i < |visited| ::
      && r.value[i].role == RoleOf(visited[|visited| - 1 - i], botId)
      && AfterFirstSpace(visited[|visited| - 1 - i].text) == Success(r.value[i].content)
  {
    match CollectTurns(visited, botId)
    case Failure(e) => Failure(e)
    case Success(previous) =>
      match AfterFirstSpace(text)
      case Failure(e) => Failure(e)
      case Success(content) =>
        var r := Reverse(previous) + [Turn(User, content)];
        assert forall i | 0 <= i < |previous| :: r[i] == previous[|previous| - 1 - i];
        Success(r)
  }

  /**
    The prompt list of `execute` for `message`, whose `parent` is the fetched
    chain: the chain turns oldest first, then the stripped new message as a
    user turn.
   */
  function BuildPrompts(message: Msg, botId: int): (r: Result<seq<Turn>, AskError>)
    ensures r.Success? <==> ' ' in message.text && forall m | m in Chain(message.parent) :: ' ' in m.text
    ensures r.Failure? ==> r.error == SubstringNotFound
    ensures r.Success? ==> |r.value| == |Chain(message.parent)| + 1
    ensures r.Success? ==> var last := r.value[|r.value| - 1];
      last.role == User && AfterFirstSpace(message.text) == Success(last.content)
  {
    var visited := Chain(message.parent);
    var r := PromptsFrom(visited, botId, message.text);
    assert (forall i | 0 <= i < |visited| :: ' ' in visited[i].text) <==> (forall m | m in visited :: ' ' in m.text);
    r
  }

  /** `system_prompt + user_prompts`: the list actually sent to the model. */
  function ResultantPrompt(prompts: seq<Turn>, botUsername: string): seq<Turn> {
    WithSystemTurn(SystemPrompt(botUsername), prompts)
  }

  /**
    `generate_response`: the completion's text, or its exception re-raised;
    a failure never becomes a response.
   */
  function GenerateResponse(prompts: seq<Turn>, botUsername: string, complete: Completer): (r: Result<string, AskError>)
    ensures var outcome := complete(ResultantPrompt(prompts, botUsername));
      && (r.Success? <==> outcome.Success?)
      && (r.Success? ==> r.value == outcome.value)
      && (r.Failure? ==> r.error == CompletionFailed(outcome.error))
  {
    match complete(ResultantPrompt(prompts, botUsername))
    case Success(text) => Success(text)
    case Failure(cause) => Failure(CompletionFailed(cause))
  }

  /**
    `execute` without its messaging side effects: the text the placeholder
    reply is edited to, or what the handler raises. A message without a space
    anywhere in the chain fails before the model is asked.
   */
  function Execute(message: Msg, botId: int, botUsername: string, complete: Completer): (r: Result<string, AskError>)
    ensures BuildPrompts(message, botId).Failure? ==> r == Failure(SubstringNotFound)
    ensures BuildPrompts(message, botId).Success? ==>
      var outcome := complete(ResultantPrompt(BuildPrompts(message, botId).value, botUsername));
      && (r.Success? <==> outcome.Success?)
      && (r.Success? ==> r.value == outcome.value)
      && (r.Failure? ==> r.error == CompletionFailed(outcome.error))
  {
    var prompts :- BuildPrompts(message, botId);
    GenerateResponse(prompts, botUsername, complete)
  }

  // ---------------------------------------------------------------------------
  // Bot answers kept whole

  /**
    The assembly the handler evidently intends: the command word is dropped
    from user messages only, while the bot's own answers, which start with
    no command word, are kept whole. The stripping at the head of each
    visited message otherwise matches `execute`.
   */
  function IntendedCollectTurns(visited: seq<Msg>, botId: int): (r: Result<seq<Turn>, AskError>)
    ensures r.Success? <==> forall i | 0 <= i < |visited| :: visited[i].authorId != botId ==> ' ' in visited[i].text
    ensures r.Failure? ==> r.error == SubstringNotFound
    ensures r.Success? ==> |r.value| == |visited|
    ensures r.Success? ==> forall i | 0 <= i < |visited| ::
      && r.value[i].role == RoleOf(visited[i], botId)
      && (visited[i].authorId == botId ==> r.value[i].content == visited[i].text)
      && (visited[i].authorId != botId ==> AfterFirstSpace(visited[i].text) == Success(r.value[i].content))
  {
    if |visited| == 0 then Success([])
    else
      var content :- if visited[0].authorId == botId then Success(visited[0].text) else AfterFirstSpace(visited[0].text);
      var rest :- IntendedCollectTurns(visited[1..], botId);
      Success([Turn(RoleOf(visited[0], botId), content)] + rest)
  }

  /** The intended prompt list: visited turns oldest first, then the stripped new text. */
  function IntendedPromptsFrom(visited: seq<Msg>, botId: int, text: string): (r: Result<seq<Turn>, AskError>)
    ensures r.Success? <==>
      ' ' in text && forall i | 0 <= i < |visited| :: visited[i].authorId != botId ==> ' ' in visited[i].text
    ensures r.Failure? ==> r.error == SubstringNotFound
    ensures r.Success? ==> |r.value| == |visited| + 1
    ensures r.Success? ==>
      r.value[|visited|].role == User && AfterFirstSpace(text) == Success(r.value[|visited|].content)
    ensures r.Success? ==> forall i | 0 <= i < |visited| ::
      && r.value[i].role == RoleOf(visited[|visited| - 1 - i], botId)
      && (r.value[i].role == Assistant ==> r.value[i].content == visited[|visited| - 1 - i].text)
      && (r.value[i].role == User ==> AfterFirstSpace(visited[|visited| - 1 - i].text) == Success(r.value[i].content))
  {
    match IntendedCollectTurns(visited, botId)
    case Failure(e) => Failure(e)
    case Success(previous) =>
      match AfterFirstSpace(text)
      case Failure(e) => Failure(e)
      case Success(content) =>
        var r := Reverse(previous) + [Turn(User, content)];
        assert forall i | 0 <= i < |previous| :: r[i] == previous[|previous| - 1 - i];
        Success(r)
  }

  /**
    Wherever the assembly as written succeeds, the intended one succeeds too,
    with the same roles and the same user turns; only bot answers differ.
   */
  lemma IntendedAgreesOnUserTurns(visited: seq<Msg>, botId: int, text: string)
    requires PromptsFrom(visited, botId, text).Success?
    ensures var written := PromptsFrom(visited, botId, text).value;
      && IntendedPromptsFrom(visited, botId, text).Success?
      && |IntendedPromptsFrom(visited, botId, text).value| == |written|
      && forall i | 0 <= i < |written| ::
           && IntendedPromptsFrom(visited, botId, text).value[i].role == written[i].role
           && (written[i].role == User ==> IntendedPromptsFrom(visited, botId, text).value[i] == written[i])
  {
    var written := PromptsFrom(visited, botId, text).value;
    var intended := IntendedPromptsFrom(visited, botId, text).value;
    forall i | 0 <= i < |written| && written[i].role == User
      ensures intended[i] == written[i]
    {
      if i < |visited| {
        assert AfterFirstSpace(visited[|visited| - 1 - i].text) == Success(intended[i].content);
      }
    }
  }

  /** A message from the bot with the given text, answering nothing. */
  function BotAnswer(text: string, botId: int): Msg {
    Msg(text, botId, None)
  }

  /**
    As written, a bot answer without a space breaks its thread: every later
    `/ask` replying to it raises `ValueError`, while the intended assembly
    sends the answer whole.
   */
  lemma BotAnswerWithoutSpaceBreaksThread(answer: string, query: string, botId: int, userId: int)
    requires ' ' !in answer && ' ' in query && userId != botId
    ensures BuildPrompts(Msg(query, userId, Some(BotAnswer(answer, botId))), botId) == Failure(SubstringNotFound)
    ensures IntendedPromptsFrom([BotAnswer(answer, botId)], botId, query)
      == Success([Turn(Assistant, answer), Turn(User, AfterFirstSpace(query).value)])
  {
    var message := Msg(query, userId, Some(BotAnswer(answer, botId)));
    assert BotAnswer(answer, botId) in Chain(message.parent);
    var visited := [BotAnswer(answer, botId)];
    assert visited[|visited| - 1 - 0] == BotAnswer(answer, botId);
    var r := IntendedPromptsFrom(visited, botId, query).value;
    assert r[0] == Turn(Assistant, answer);
    assert r[1] == Turn(User, AfterFirstSpace(query).value);
    assert r == [r[0], r[1]];
  }

  /** As written, a bot answer loses its first word when a later `/ask` replies to it. */
  lemma BotAnswerLosesFirstWord(answer: string, query: string, botId: int)
    requires ' ' in answer && ' ' in query
    ensures PromptsFrom([BotAnswer(answer, botId)], botId, query)
      == Success([Turn(Assistant, AfterFirstSpace(answer).value), Turn(User, AfterFirstSpace(query).value)])
  {
    var visited := [BotAnswer(answer, botId)];
    assert visited[|visited| - 1 - 0] == BotAnswer(answer, botId);
    var r := PromptsFrom(visited, botId, query).value;
    assert r[0] == Turn(Assistant, AfterFirstSpace(answer).value);
    assert r[1] == Turn(User, AfterFirstSpace(query).value);
    assert r == [r[0], r[1]];
  }

  /** For instance, the answer `Sure thing` is sent as `thing`. */
  lemma SureThingLosesSure()
    ensures AfterFirstSpace("Sure thing") == Success("thing")
  {
    var t := "Sure thing";
    assert t[4] == ' ' && ' ' !in t[..4];
    assert IndexOf(t, ' ') == Some(4);
    assert t[5..] == "thing";
  }

  /** The `data` dict the command file exports. */
  const Data: Command.Dict := map[
    "name" := PStr("ask"),
    "description" := PStr("Ask ChatGPT anything."),
    "alias" := PList([PStr("ai"), PStr("chatgpt")]),
    "usage" := PStr("/ask <query>"),
    "example" := PStr("/ask Hello there!"),
    "category" := PStr("AI"),
    "execute" := PFunc("src.commands.AI.ask.execute")
  ]

  // ---------------------------------------------------------------------------
  // Properties

  /** The command file's own `data` passes validation, with triggers `ask`, `ai`, `chatgpt`. */
  lemma DataIsValid(path: string)
    ensures Command.Construct(Data, path) == Success(Command.CommandData(Data, path))
    ensures Command.Triggers(Command.CommandData(Data, path)) == [PStr("ask"), PStr("ai"), PStr("chatgpt")]
  {
    assert Command.Get(Data, "name") == PStr("ask");
    assert Command.Get(Data, "description") == PStr("Ask ChatGPT anything.");
    assert Command.Get(Data, "usage") == PStr("/ask <query>");
    assert Command.Get(Data, "execute") == PFunc("src.commands.AI.ask.execute");
    assert Command.Get(Data, "alias") == PList([PStr("ai"), PStr("chatgpt")]);
    assert Command.Get(Data, "example") == PStr("/ask Hello there!");
    assert Command.Get(Data, "category") == PStr("AI");
    assert Command.Sane(Data);
  }

  /** Without a reply, the prompt list is the one stripped user turn. */
  lemma NoReplyIsOneUserTurn(message: Msg, botId: int)
    requires message.parent.None?
    requires ' ' in message.text
    ensures BuildPrompts(message, botId) == Success([Turn(User, AfterFirstSpace(message.text).value)])
  {
    assert CollectTurns(Chain(message.parent), botId) == Success([]);
    var content := AfterFirstSpace(message.text).value;
    assert Reverse<Turn>([]) + [Turn(User, content)] == [Turn(User, content)];
    assert BuildPrompts(message, botId) == Success(Reverse<Turn>([]) + [Turn(User, content)]);
  }

  /** The list sent to the model has exactly one system turn, first, and ends with the new user turn. */
  lemma {:induction false} SentConversationIsWellFormed(message: Msg, botId: int, botUsername: string)
    requires BuildPrompts(message, botId).Success?
    ensures WellFormedConversation(ResultantPrompt(BuildPrompts(message, botId).value, botUsername))
  {
    var prompts := PromptsFrom(Chain(message.parent), botId, message.text).value;
    PromptsHaveNoSystemTurn(Chain(message.parent), botId, message.text);
    SystemFirstIsWellFormed(SystemPrompt(botUsername), prompts);
  }

  /** Every turn built from the chain is a user or assistant turn, and the last is a user turn. */
  lemma {:induction false} PromptsHaveNoSystemTurn(visited: seq<Msg>, botId: int, text: string)
    requires PromptsFrom(visited, botId, text).Success?
    ensures var prompts := PromptsFrom(visited, botId, text).value;
      && prompts[|prompts| - 1].role == User
      && forall i | 0 <= i < |prompts| :: prompts[i].role != System
  {
    var prompts := PromptsFrom(visited, botId, text).value;
    forall i | 0 <= i < |prompts|
      ensures prompts[i].role != System
    {
      if i < |visited| {
        assert prompts[i].role == RoleOf(visited[|visited| - 1 - i], botId);
      }
    }
  }

  /**
    A chain written, oldest to newest, by a user, the bot, a user and the bot,
    answered by a new user message, becomes system, user, assistant, user,
    assistant, user, in that order.
   */
  lemma AlternatingChainOrder(m1: Msg, m2: Msg, m3: Msg, m4: Msg, incoming: Msg, bot: int, botUsername: string)
    requires m1.parent.None? && m2.parent == Some(m1) && m3.parent == Some(m2) && m4.parent == Some(m3)
    requires incoming.parent == Some(m4)
    requires m1.authorId != bot && m2.authorId == bot && m3.authorId != bot && m4.authorId == bot
    requires ' ' in m1.text && ' ' in m2.text && ' ' in m3.text && ' ' in m4.text && ' ' in incoming.text
    ensures BuildPrompts(incoming, bot).Success?
    ensures Roles(ResultantPrompt(BuildPrompts(incoming, bot).value, botUsername))
      == [System, User, Assistant, User, Assistant, User]
  {
    ChainOfFour(m1, m2, m3, m4, incoming);
    AlternatingTurns(m4, m3, m2, m1, bot, incoming.text);
    var p := PromptsFrom([m4, m3, m2, m1], bot, incoming.text).value;
    SystemTurnLeadsRoles(SystemPrompt(botUsername), p);
  }

  /** The roles of the prompt list for four visited messages, newest first, written by the bot, a user, the bot and a user. */
  lemma AlternatingTurns(m4: Msg, m3: Msg, m2: Msg, m1: Msg, bot: int, text: string)
    requires m1.authorId != bot && m2.authorId == bot && m3.authorId != bot && m4.authorId == bot
    requires ' ' in m1.text && ' ' in m2.text && ' ' in m3.text && ' ' in m4.text && ' ' in text
    ensures PromptsFrom([m4, m3, m2, m1], bot, text).Success?
    ensures Roles(PromptsFrom([m4, m3, m2, m1], bot, text).value) == [User, Assistant, User, Assistant, User]
  {
    var visited := [m4, m3, m2, m1];
    var p := PromptsFrom(visited, bot, text).value;
    assert |p| == 5;
    assert p[0].role == RoleOf(visited[3], bot) == User;
    assert p[1].role == RoleOf(visited[2], bot) == Assistant;
    assert p[2].role == RoleOf(visited[1], bot) == User;
    assert p[3].role == RoleOf(visited[0], bot) == Assistant;
  }

  /** The chain behind `incoming` in the scenario above, newest first. */
  lemma ChainOfFour(m1: Msg, m2: Msg, m3: Msg, m4: Msg, incoming: Msg)
    requires m1.parent.None? && m2.parent == Some(m1) && m3.parent == Some(m2) && m4.parent == Some(m3)
    requires incoming.parent == Some(m4)
    ensures Chain(incoming.parent) == [m4, m3, m2, m1]
  {
    assert Chain(Some(m1)) == [m1];
    assert Chain(Some(m2)) == [m2, m1];
    assert Chain(Some(m3)) == [m3, m2, m1];
  }
}
