/**
  The bot's own command tree (src/commands/Core/start.py and
  src/commands/AI/ask.py) run through the loader: what the loader as written
  registers, what the full loop registers, and that nothing stops two
  commands from claiming one trigger.
 */
module CommandTree {
  import opened Wrappers
  import opened PyValues
  import opened Command
  import Start
  import Ask

  /** The two command files in discovery order. */
  const Units: seq<CommandUnit> := [
    CommandUnit("start.py", Some(Start.Data)),
    CommandUnit("ask.py", Some(Ask.Data))
  ]

  /**
    As written, the loader stops after `start.py`: only `start` is registered
    and the `ask`, `ai` and `chatgpt` triggers are never handed to the client.
   */
  lemma AsWrittenRegistersOnlyFirst()
    ensures LoadCommands(Units) == Success(Some(Registered(
      [CommandData(Start.Data, "start.py")],
      [Handler(PFunc("src.commands.Core.start.execute"), [PStr("start")])])))
  {
    Start.DataIsValid("start.py");
    assert Units[0].data == Some(Start.Data);
  }

  /** A command file whose `data` lacks every field. */
  const Broken: seq<CommandUnit> := [
    CommandUnit("start.py", Some(Start.Data)),
    CommandUnit("broken.py", Some(map[]))
  ]

  /**
    As written, a broken file after a valid one goes unnoticed: the loader
    registers `start` and succeeds, while the full loop rejects `broken.py`
    because it has no `name`.
   */
  lemma BrokenSecondFileUnnoticed()
    ensures LoadCommands(Broken).Success?
    ensures LoadAllCommands(Broken) == Failure(KeyError("name"))
  {
    Start.DataIsValid("start.py");
    assert Broken[0].data == Some(Start.Data);
    assert FirstDataAt(Broken, 0);
    assert Broken[1..] == [Broken[1]] && Broken[1..][1..] == [];
    assert WithData(Broken[1..]) == [("broken.py", map[])] + WithData([]);
    var found := WithData(Broken);
    assert found == [("start.py", Start.Data), ("broken.py", map[])];
    assert Construct(found[0].1, found[0].0).Success?;
    assert found[1..] == [("broken.py", map[])];
    assert Construct(found[1..][0].1, found[1..][0].0) == Failure(KeyError("name"));
    assert RegisterAll(found[1..]) == Failure(KeyError("name"));
  }

  /** Two found units that both pass validation are both registered, in order. */
  lemma RegisterPair(first: (string, Dict), second: (string, Dict))
    requires Sane(first.1) && Sane(second.1)
    ensures RegisterAll([first, second]) == Success(Registered(
      [CommandData(first.1, first.0), CommandData(second.1, second.0)],
      [HandlerOf(CommandData(first.1, first.0)), HandlerOf(CommandData(second.1, second.0))]))
  {
    var found := [first, second];
    assert found[0] == first && found[1] == second;
    assert RegisterAll(found).Success?;
    var r := RegisterAll(found).value;
    var c0, c1 := CommandData(first.1, first.0), CommandData(second.1, second.0);
    assert r.commands[0] == c0 && r.commands[1] == c1;
    assert r.handlers[0] == HandlerOf(c0) && r.handlers[1] == HandlerOf(c1);
    assert r.commands == [c0, c1];
    assert r.handlers == [HandlerOf(c0), HandlerOf(c1)];
  }

  /** The full loop registers both commands, each with its own triggers. */
  lemma FullLoopRegistersBoth()
    ensures LoadAllCommands(Units) == Success(Registered(
      [CommandData(Start.Data, "start.py"), CommandData(Ask.Data, "ask.py")],
      [Handler(PFunc("src.commands.Core.start.execute"), [PStr("start")]),
       Handler(PFunc("src.commands.AI.ask.execute"), [PStr("ask"), PStr("ai"), PStr("chatgpt")])]))
  {
    Start.DataIsValid("start.py");
    Ask.DataIsValid("ask.py");
    assert WithData(Units) == [("start.py", Start.Data), ("ask.py", Ask.Data)];
    RegisterPair(("start.py", Start.Data), ("ask.py", Ask.Data));
    assert Start.Data["execute"] == PFunc("src.commands.Core.start.execute");
    assert Ask.Data["execute"] == PFunc("src.commands.AI.ask.execute");
  }

  /** A second command whose alias is another command's name. */
  const Clash: Dict := Ask.Data["name" := PStr("ai2")]["alias" := PList([PStr("ask")])]

  /** The clashing descriptor passes validation, with triggers `ai2` and `ask`. */
  lemma ClashIsValid(path: string)
    ensures Sane(Clash)
    ensures Triggers(CommandData(Clash, path)) == [PStr("ai2"), PStr("ask")]
  {
    assert Get(Clash, "name") == PStr("ai2");
    assert Get(Clash, "description") == PStr("Ask ChatGPT anything.");
    assert Get(Clash, "usage") == PStr("/ask <query>");
    assert Get(Clash, "execute") == PFunc("src.commands.AI.ask.execute");
    assert Get(Clash, "alias") == PList([PStr("ask")]);
    assert Get(Clash, "example") == PStr("/ask Hello there!");
    assert Get(Clash, "category") == PStr("AI");
  }

  /**
    Two commands claiming the trigger `ask` are both registered: neither the
    descriptor check nor the loader looks for collisions.
   */
  lemma CollidingTriggersAccepted()
    ensures var units := [CommandUnit("ask.py", Some(Ask.Data)), CommandUnit("ai2.py", Some(Clash))];
      && LoadAllCommands(units).Success?
      && |LoadAllCommands(units).value.handlers| == 2
      && PStr("ask") in LoadAllCommands(units).value.handlers[0].triggers
      && PStr("ask") in LoadAllCommands(units).value.handlers[1].triggers
  {
    var units := [CommandUnit("ask.py", Some(Ask.Data)), CommandUnit("ai2.py", Some(Clash))];
    Ask.DataIsValid("ask.py");
    ClashIsValid("ai2.py");
    assert WithData(units) == [("ask.py", Ask.Data), ("ai2.py", Clash)];
    RegisterPair(("ask.py", Ask.Data), ("ai2.py", Clash));
    var r := LoadAllCommands(units).value;
    assert r.handlers[0].triggers[0] == PStr("ask");
    assert r.handlers[1].triggers[1] == PStr("ask");
  }
}
