# YeetAI bot core in Dafny

This project models the pure logic inside the YeetAI Telegram bot. The bot
answers slash commands and forwards `/ask` conversations to a language model.
The model covers three pieces of it:

- **Command-file descriptors** (`src/Command.py`). `CommandData` validates a
  command file's raw `data` dict against two field tables. Mandatory fields
  must be truthy and of exactly the required type. Optional fields are
  type-checked only when truthy. Its accessors read the dict back. The loader
  `load_commands` skips files without `data`, builds the handler's trigger
  list `[name] + alias`, and registers the first such file only, because it
  returns inside the loop (see Findings).
- **Reply-chain assembly of the current `ask` command**
  (`src/commands/AI/ask.py`). `execute` walks the fetched reply chain and tags
  each message `assistant` or `user` by its author. It keeps only the text
  after the first space, reverses the list to oldest-first, and appends the
  new message. `generate_response` then prepends the system turn and calls
  the model. The stripping applies to the bot's own answers too; beside the
  code as written, the model carries the evidently intended assembly, which
  keeps them whole (see Findings).
- **The older `ask` module** (`modules/ask.py`). It does the same walk,
  tagging and ordering, but keeps each message's full text.

Python values are the sum type `PyValues.PyVal`, with truthiness and exact
runtime type. A `data` dict is a `map<string, PyVal>`. Every exception on the
modelled paths becomes the error half of a `Result` or an `Outcome`. The
fetched reply chain is a recursive `Msg` value whose `parent` is the message
it replied to. The bot's id, the `BOT_USERNAME` value, the discovered command
files and the completion call are all parameters.

Modules:
- `Wrappers` provides `Option`, `Result` and `Outcome`.
- `PyValues` holds the Python values.
- `Command` holds validation, the accessors and the loader.
- `ReplyChain` holds the messages, turns, the chain walk and list helpers.
- `Ask` is the current handler; `LegacyAsk` is the older one.
- `Start` holds the `start` command's `data`.
- `CommandTree` runs the two real command files through the loader.

## Model

| member | source | states |
|---|---|---|
| Command.Subscript | src/Command.py:124-142 | `data[key]` succeeds exactly when the key is present and yields the stored value; an absent key raises `KeyError` naming the key |
| Command.IsCorrectType | src/Command.py:82-98 | passes exactly when `type(data.get(field))` is the required type; otherwise a wrong-type error carrying the command path, the field, the expected type and the actual type |
| Command.CheckMandatory | src/Command.py:103-111 | passes exactly when every mandatory field is truthy and of its type; otherwise the error belongs to the first failing field in table order: missing if that field is falsy, wrong type if it is truthy |
| Command.CheckOptional | src/Command.py:114-117 | passes exactly when every optional field is falsy or of its type; otherwise a wrong-type error for the first truthy, mistyped field |
| Command.SanityCheck | src/Command.py:100-117 | passes exactly when the dict satisfies both field tables; an error is never a `KeyError`, carries the command path, and names a mandatory field exactly when some mandatory field fails |
| Command.Construct | src/Command.py:68-80 | without a `"name"` key construction raises `KeyError("name")` before any check; otherwise it succeeds exactly when the dict is sane, stores the dict and path unchanged, and any error carries the path |
| Command.ConstructedAccessors | src/Command.py:76-80 | after a successful construction, `raw_data` is the input dict, and `name`, `description` and `usage` return the stored strings (the name is non-empty), while `execute` returns the stored function |
| Command.RawData | src/Command.py:119-122 | `raw_data` is the stored dict; for a sane descriptor it holds `name` and `execute` |
| Command.Name | src/Command.py:124-127 | `name` succeeds exactly when the key is present and returns the stored value; an absent key raises `KeyError("name")`; a sane descriptor's name is a non-empty string |
| Command.Description | src/Command.py:129-132 | `description` succeeds exactly when the key is present and returns the stored value, else `KeyError("description")`; on a sane descriptor it is a non-empty string |
| Command.Usage | src/Command.py:134-137 | `usage` succeeds exactly when the key is present and returns the stored value, else `KeyError("usage")`; on a sane descriptor it is a non-empty string |
| Command.Execute | src/Command.py:139-142 | `execute` succeeds exactly when the key is present and returns the stored value, else `KeyError("execute")`; on a sane descriptor it is a function |
| Command.Alias | src/Command.py:144-147 | an absent `alias` reads as `[]`, a present one as stored, even when falsy; on a sane descriptor a truthy alias is a list |
| Command.Example | src/Command.py:149-152 | an absent `example` reads as `""`, a present one as stored; on a sane descriptor a truthy example is a string |
| Command.Category | src/Command.py:154-157 | an absent `category` reads as `""`, a present one as stored; on a sane descriptor a truthy category is a string |
| Command.FirstFalsyMandatoryIsMissing | src/Command.py:103-108 | if the mandatory fields before field k pass and field k is falsy, construction raises "missing field k" with the command path |
| Command.FirstMistypedMandatoryIsWrongType | src/Command.py:94-98 | if the mandatory fields before field k pass and field k is truthy but of another type, the error names field k, the expected type and the actual type |
| Command.FirstMandatoryFailureDecides | src/Command.py:53-66 | the first failing mandatory field, in the order name, description, usage, execute, decides the error before any optional field is examined |
| Command.FalsyOptionalsAccepted | src/Command.py:114-117 | with the mandatory fields fine, falsy optional fields (`[]`, `None`, `0`, `""`, absent) never make construction fail |
| Command.FirstMistypedOptionalIsWrongType | src/Command.py:114-117 | with the mandatory fields fine, the first truthy optional field of the wrong type (say a non-empty string `alias`) is reported as a wrong-type error |
| Command.Triggers | src/Command.py:189-192 | the trigger list starts with the name; when `alias` is a list, the rest is its items in order; when `alias` is absent or falsy, the list is just the name |
| Command.HandlerOf | src/Command.py:189-195 | the handler registered for a sane descriptor runs its `execute` function, and its triggers are the descriptor's trigger list, headed by its `name` |
| Command.LoadCommands | src/Command.py:166-197 | the loader as written yields `None` exactly when no unit has `data`; otherwise, for the first unit with `data`, it fails exactly when that unit's dict is not sane, with the error its construction raises, and on success registers that unit's descriptor alone with its handler; later units are never validated |
| Command.RegisterFirst | src/Command.py:183-197 | the loop body for the first unit with `data`, up to its `return`: it fails exactly when that unit's dict is not sane, with the error construction raises, and otherwise registers that unit's descriptor alone, with its handler |
| Command.WithData | src/Command.py:177-183 | the units the loop keeps, as (file name, `data`) pairs: no more than there are units, and none exactly when no unit has `data` |
| Command.FirstDataExists | src/Command.py:168-183 | some unit has `data` exactly when there is a first unit with `data`, the one the loader as written stops at |
| Command.WithDataKeepsDataUnits | src/Command.py:177-183 | the units the loop does not skip are exactly the units that have `data` |
| Command.FirstInsaneExists | src/Command.py:168-183 | some found unit fails validation exactly when there is a first one, the one whose exception the loop raises |
| Command.RegisterAll | src/Command.py:183-195 | registering the found units succeeds exactly when each is sane, and otherwise raises the construction error of the first unit that is not; on success command i is the descriptor of unit i, and handler i is its `execute` with its triggers |
| Command.WithDataAppend | src/Command.py:168-183 | the loop treats each file on its own: the units kept from two runs of files, one after the other, are the units kept from each, in order |
| Command.LoadAllCommands | src/Command.py:166-197 | the full loop succeeds exactly when every unit with `data` is sane, and otherwise raises the construction error of the first such unit that is not; on success it registers one command and one handler per such unit, in discovery order, command i being unit i's descriptor and handler i its `execute` with its triggers; every unit with `data` is registered and every command comes from a unit; no unit with `data` gives empty lists |
| Command.FullLoopCoversDataUnits | src/Command.py:168-187 | registering the kept units succeeds exactly when each unit with `data` is sane, and then the registered descriptors and the units with `data` match in both directions |
| Command.AsWrittenKeepsFirstOfFullLoop | src/Command.py:187-197 | whenever every unit with `data` is sane, the loader as written returns only the full loop's first command and handler, or `None` when no unit has `data` |
| ReplyChain.Chain | src/commands/AI/ask.py:82-99 | the visited messages, newest first: empty without a reply, starting with the replied-to message, and ending at a message without a parent |
| ReplyChain.ChainFollowsParents | src/commands/AI/ask.py:89-99 | each visited message is the parent of the one visited before it, so the walk skips nothing |
| ReplyChain.RoleOf | src/commands/AI/ask.py:90-97 | a chain turn is `assistant` exactly when its author id equals the bot's id, otherwise `user`, and never `system` |
| ReplyChain.Reverse | src/commands/AI/ask.py:101 | `list.reverse()`: the same length, with element i taken from position length-1-i |
| ReplyChain.WithSystemTurn | src/commands/AI/ask.py:61-63 | `system_prompt + user_prompts` (also modules/ask.py:74-75): the sent list is one longer, starts with a system turn carrying the prompt, and continues with the prompt list unchanged |
| ReplyChain.SystemFirstIsWellFormed | src/commands/AI/ask.py:61-63 | putting a system turn in front of a list that has no system turns and ends with a user turn gives one system turn, first, and a user turn last |
| ReplyChain.SystemTurnLeadsRoles | src/commands/AI/ask.py:62-63 | the roles sent are `system` followed by the prompt list's roles |
| Ask.SystemPrompt | src/commands/AI/ask.py:26-32 | the system prompt is the fixed opening, the bot's user name, the note on ignoring `/ask` and the note on the 4096-character limit, each at its fixed offset |
| Ask.IndexOf | src/commands/AI/ask.py:92 | `str.index`: nothing exactly when the character is absent, else the position of its first occurrence |
| Ask.AfterFirstSpace | src/commands/AI/ask.py:92-102 | fails (`ValueError`) exactly when the text has no space; otherwise the result is everything after the first space |
| Ask.CollectTurns | src/commands/AI/ask.py:89-99 | succeeds exactly when every visited text has a space; then there is one turn per visited message, in visiting order, tagged by author and holding the stripped text |
| Ask.PromptsFrom | src/commands/AI/ask.py:89-102 | succeeds exactly when the new text and every chain text contain a space; then the length is chain length + 1, the chain turns come oldest first, and the last turn is `user` with the stripped new text |
| Ask.BuildPrompts | src/commands/AI/ask.py:82-102 | assembly succeeds exactly when the new text and every message in the reply chain contain a space, else `ValueError`; then there is one turn per chain message plus one, and the last is `user` with the new text after its first space |
| Ask.IntendedCollectTurns | src/commands/AI/ask.py:89-99 | the evidently intended loop body: succeeds exactly when every user message in the chain has a space; each turn is tagged by its author, a bot answer is kept whole and a user message loses its first word |
| Ask.IntendedPromptsFrom | src/commands/AI/ask.py:89-102 | the evidently intended prompt list: succeeds exactly when the new text and every user message in the chain have a space; the chain turns come oldest first, bot answers whole, and the last turn is `user` with the stripped new text |
| Ask.IntendedAgreesOnUserTurns | src/commands/AI/ask.py:89-102 | wherever the assembly as written succeeds the intended one does too, with the same roles and identical user turns |
| Ask.BotAnswerWithoutSpaceBreaksThread | src/commands/AI/ask.py:90-92 | an `/ask` replying to a bot answer without a space raises `ValueError` as written, while the intended assembly sends the answer whole |
| Ask.BotAnswerLosesFirstWord | src/commands/AI/ask.py:90-92 | as written, a bot answer with a space reaches the model without its first word |
| Ask.SureThingLosesSure | src/commands/AI/ask.py:92 | for instance, the bot answer `Sure thing` is sent as `thing` |
| Ask.GenerateResponse | src/commands/AI/ask.py:61-75 | succeeds exactly when the completion succeeds and returns its text; a completion failure is re-raised, never turned into a response |
| Ask.Execute | src/commands/AI/ask.py:78-107 | a text without a space anywhere fails with `ValueError` before the model is asked; otherwise it succeeds exactly when the completion on the assembled list succeeds, with its text, and a completion failure is re-raised unchanged |
| Ask.DataIsValid | src/commands/AI/ask.py:110-118 | the `ask` data dict passes validation, and its triggers are `ask`, `ai`, `chatgpt` |
| Ask.NoReplyIsOneUserTurn | src/commands/AI/ask.py:82-86 | without a reply the prompt list is the single `user` turn holding the stripped new text |
| Ask.PromptsHaveNoSystemTurn | src/commands/AI/ask.py:89-102 | no assembled turn is a system turn, and the last one is a user turn |
| Ask.SentConversationIsWellFormed | src/commands/AI/ask.py:61-63 | the list sent to the model has exactly one system turn, in first place, and ends with the new user turn |
| Ask.AlternatingChainOrder | src/commands/AI/ask.py:89-102 | a chain written user, bot, user, bot (oldest first), answered by a user, is sent as system, user, assistant, user, assistant, user |
| LegacyAsk.SystemPrompt | modules/ask.py:34-39 | the older system prompt is the current one without its closing note on the 4096-character limit |
| LegacyAsk.CollectTurns | modules/ask.py:103-109 | one turn per visited message, in visiting order, tagged by author and holding the full text |
| LegacyAsk.PromptsFrom | modules/ask.py:103-112 | the length is chain length + 1, the chain turns come oldest first with their full texts, and the last turn is `user` with the full new text |
| LegacyAsk.BuildPrompts | modules/ask.py:96-112 | the older assembly cannot fail: one turn per chain message plus one, the last being the new message's full text as a `user` turn |
| LegacyAsk.GenerateResponse | modules/ask.py:72-89 | succeeds exactly when the completion succeeds and returns its text; a failure is re-raised unchanged |
| LegacyAsk.CmdAsk | modules/ask.py:92-115 | nothing before the completion call can fail; the outcome is the completion's outcome on the assembled list |
| LegacyAsk.PromptsHaveNoSystemTurn | modules/ask.py:103-112 | no assembled turn is a system turn, and the last one is a user turn |
| LegacyAsk.SentConversationIsWellFormed | modules/ask.py:74-75 | the list sent has exactly one system turn, first, and ends with the new message as a user turn |
| LegacyAsk.VariantsDifferOnlyInContent | modules/ask.py:103-112 | for the same chain and bot id, the older and the current handler produce the same role sequence, and each current turn is the older turn's text after its first space |
| Start.DataIsValid | src/commands/Core/start.py:25-33 | the `start` data dict passes validation; without an alias its only trigger is `start` |
| CommandTree.AsWrittenRegistersOnlyFirst | src/Command.py:187-197 | run over `start.py` then `ask.py`, the loader as written registers only `start`, so the `ask` triggers are never registered |
| CommandTree.BrokenSecondFileUnnoticed | src/Command.py:183-197 | a `data` dict with no fields after `start.py` goes unnoticed by the loader as written, which succeeds, while the full loop fails with `KeyError("name")` |
| CommandTree.RegisterPair | src/Command.py:183-195 | two sane units are both registered, in order, each with its own handler |
| CommandTree.FullLoopRegistersBoth | src/Command.py:166-197 | the full loop registers `start` with trigger `start` and `ask` with triggers `ask`, `ai`, `chatgpt` |
| CommandTree.ClashIsValid | src/Command.py:100-117 | a descriptor whose alias repeats another command's name passes validation |
| CommandTree.CollidingTriggersAccepted | src/Command.py:189-195 | two commands that both claim the trigger `ask` are both registered: nothing looks for collisions |

## Left out

- Telegram I/O is not modelled: `get_me`, `get_messages`, `reply`, `edit_text`, `add_handler` and `filters.command`. The bot id and the fetched chain are inputs. Dispatching a message to a handler by its trigger is the client library's job.
- The language-model clients (`AsyncOpenAI`, the g4f `RetryProvider`, `run_in_executor`) become the `Completer` parameter. The model name, the provider list and the `choices[0].message.content` extraction live behind it.
- The "Generating response..." placeholder reply and its edit are messaging side effects. `Ask.Execute` returns the text the placeholder would be edited to.
- `start`'s `execute`, which only replies "Hello.", is a messaging side effect.
- Logging and `LoggedList` are not modelled. `LoggedList` behaves as a plain list, so it is a `seq`.
- `import_module`, `hasattr` and the `rglob` scan are not modelled. The scan is a sequence of `CommandUnit`s with an optional `data` dict, in discovery order. That order is the file system's; the `CommandTree` lemmas take `start.py` first, and with `ask.py` first the as-written loader would register only `ask`.
- A `data` attribute that is not a dict is not modelled.
- `src/Module.py`, `src/Bot.py`, the install hooks and the live provider tests are not part of this model. So is the older module's `on_load` registration of `cmd_ask` under `ask`.
- The 20-reply bound is a hint to the external fetch; the loop does not enforce it. Nothing here assumes a bound.
- A `None` message text and a missing `from_user` are not modelled; every `Msg` has a text and an author id. In the current handler a `None` text raises `AttributeError` at `.index` (src/commands/AI/ask.py:92, 96, 102). In the older module a `None` text goes into the turn unchanged and is sent as null content without raising (modules/ask.py:105, 107, 112). In both, a missing `from_user` raises `AttributeError` when the author id is read.
- `BOT_USERNAME` is read once, at import. It is a string parameter of `SystemPrompt` that reads "None" when the variable is unset.
- Trigger collisions, fetch-failure truncation and failure notices to the user are not implemented by the code, so they are not modelled. `CommandTree.CollidingTriggersAccepted` shows that collisions go through.
- Turn alternation is not enforced by the code. `ReplyChain.WellFormedConversation` does not require it.
- Command.Triggers: does not type-check the alias elements, because the code does not either. A list of non-strings is passed on as it is.
- Command.RawData: the model returns an equal dict, not the same object, because Dafny values have no identity.

## Findings

| source | as written | input that shows it | evidently intended | confidence | as-written member | corrected member |
|---|---|---|---|---|---|---|
| src/Command.py:197 | `return commands` is indented inside the `for` loop, so `load_commands` returns right after registering the first file that has `data`. With no such file it falls off the end and returns `None`, not a list. | the bot's own two command files: `start.py` is registered and `ask.py` never is (`CommandTree.AsWrittenRegistersOnlyFirst`); a broken second file is never validated (`CommandTree.BrokenSecondFileUnnoticed`) | register every command file with `data`, then return the list of all descriptors (`CommandTree.FullLoopRegistersBoth`) | medium, not executed | Command.LoadCommands | Command.LoadAllCommands |
| src/commands/AI/ask.py:92 | the assistant branch strips everything up to the first space, like the user branches, although a bot answer starts with no `/ask` command word | a reply to the bot answer `Sure thing` sends `thing` (`Ask.BotAnswerLosesFirstWord`, `Ask.SureThingLosesSure`); a reply to the answer `Hello!` raises `ValueError`, so the thread can never be continued (`Ask.BotAnswerWithoutSpaceBreaksThread`) | drop the command word from user messages only and send the bot's answers whole, as the system prompt's note on ignoring `/ask` in the user's message suggests | medium, not executed | Ask.BotAnswerWithoutSpaceBreaksThread | Ask.IntendedPromptsFrom |
