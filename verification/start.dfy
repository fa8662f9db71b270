/** The `start` command file (src/commands/Core/start.py): only its `data` dict matters here. */
module Start {
  import opened Wrappers
  import opened PyValues
  import Command

  /** The `data` dict the command file exports; its `alias` line is commented out. */
  const Data: Command.Dict := map[
    "name" := PStr("start"),
    "description" := PStr("Starts the bot."),
    "usage" := PStr("/start"),
    "example" := PStr("/start"),
    "category" := PStr("Core"),
    "execute" := PFunc("src.commands.Core.start.execute")
  ]

  /** The dict passes validation; with no alias its only trigger is `start`. */
  lemma DataIsValid(path: string)
    ensures Command.Construct(Data, path) == Success(Command.CommandData(Data, path))
    ensures Command.Alias(Command.CommandData(Data, path)) == PList([])
    ensures Command.Triggers(Command.CommandData(Data, path)) == [PStr("start")]
  {
    assert Command.Get(Data, "name") == PStr("start");
    assert Command.Get(Data, "description") == PStr("Starts the bot.");
    assert Command.Get(Data, "usage") == PStr("/start");
    assert Command.Get(Data, "execute") == PFunc("src.commands.Core.start.execute");
    assert "alias" !in Data;
    assert Command.Get(Data, "example") == PStr("/start");
    assert Command.Get(Data, "category") == PStr("Core");
    assert Command.Sane(Data);
  }
}
