/**
 * The slash-command registry and the InteractionCreate dispatcher of
 * src/index.ts. The directory scan is replaced by a given list of command
 * modules in file order; whether a command's `execute` throws is an input.
 */
module Commands {
  import opened Wrappers
  import GenerateImage
  import Ship

  /** Which module's `execute` a registry entry runs. */
  datatype Handler = ImageGeneration | ShipCompatibility

  /** A loaded command file: its `data.name` and its `execute`. */
  datatype CommandModule = CommandModule(name: string, handler: Handler)

  /** The files of src/commands/ in directory order. */
  const CommandFiles: seq<CommandModule> :=
    [CommandModule(GenerateImage.CommandName, ImageGeneration), CommandModule(Ship.CommandName, ShipCompatibility)]

  /** The index of the last file that declares `name`, if any. */
  function LastIndex(modules: seq<CommandModule>, name: string): (r: Option<nat>)
    ensures r.None? <==> forall i :: 0 <= i < |modules| ==> modules[i].name != name
    ensures r.Some? ==> r.value < |modules| && modules[r.value].name == name
    ensures r.Some? ==> forall j :: r.value < j < |modules| ==> modules[j].name != name
  {
    if modules == [] then None
    else if modules[|modules| - 1].name == name then Some(|modules| - 1)
    else
      var init := modules[..|modules| - 1];
      assert forall i :: 0 <= i < |init| ==> init[i] == modules[i];
      LastIndex(init, name)
  }

  /** The module the registry keeps for `name`: the last file that declares it. */
  function LastNamed(modules: seq<CommandModule>, name: string): (r: Option<CommandModule>)
    ensures r.None? <==> forall i :: 0 <= i < |modules| ==> modules[i].name != name
    ensures r.Some? ==> r.value.name == name && r.value in modules
  {
    var k := LastIndex(modules, name);
    if k.Some? then Some(modules[k.value]) else None
  }

  /** The loop that fills the `commands` Collection: `commands.set(command.data.name, command)`. */
  method LoadCommands(modules: seq<CommandModule>) returns (commands: map<string, CommandModule>)
    ensures forall name :: name in commands <==> LastNamed(modules, name).Some?
    ensures forall name :: name in commands ==> commands[name] == LastNamed(modules, name).value
  {
    commands := map[];
    var i := 0;
    while i < |modules|
      invariant 0 <= i <= |modules|
      invariant forall name :: name in commands <==> LastNamed(modules[..i], name).Some?
      invariant forall name :: name in commands ==> commands[name] == LastNamed(modules[..i], name).value
    {
      assert modules[..i + 1][..i] == modules[..i];
      commands := commands[modules[i].name := modules[i]];
      i := i + 1;
    }
    assert modules[..i] == modules;
  }

  datatype Interaction = Interaction(isCommand: bool, commandName: string)

  datatype Event =
    | Execute(command: CommandModule)
    | Reply(content: string, ephemeral: bool)

  const ExecutionError: string := "There was an error while executing this command!"

  /**
   * The InteractionCreate handler: non-commands and unknown names are ignored;
   * a known command runs, and a throw from it becomes one ephemeral error reply.
   */
  function Dispatch(interaction: Interaction, commands: map<string, CommandModule>, executeThrows: bool)
    : (trace: seq<Event>)
    ensures !interaction.isCommand || interaction.commandName !in commands <==> trace == []
    ensures trace != [] ==> trace[0] == Execute(commands[interaction.commandName])
    ensures trace != [] ==> (|trace| == 2 <==> executeThrows)
    ensures |trace| == 2 ==> trace[1] == Reply(ExecutionError, true)
    ensures trace != [] ==> |trace| == if executeThrows then 2 else 1
  {
    if !interaction.isCommand then []
    else if interaction.commandName !in commands then []
    else
      var command := commands[interaction.commandName];
      if executeThrows then [Execute(command), Reply(ExecutionError, true)] else [Execute(command)]
  }

  /** A later file that declares the same name replaces the earlier one. */
  lemma {:induction false} LaterFileWins(modules: seq<CommandModule>, i: nat, j: nat)
    requires i < j < |modules| && modules[i].name == modules[j].name
    requires forall k :: j < k < |modules| ==> modules[k].name != modules[j].name
    ensures LastNamed(modules, modules[i].name) == Some(modules[j])
  {
    var name := modules[j].name;
    if j < |modules| - 1 {
      var init := modules[..|modules| - 1];
      assert init[i] == modules[i] && init[j] == modules[j];
      LaterFileWins(init, i, j);
    }
  }

  /** The shipped files register both commands under their own names. */
  lemma ShippedRegistry()
    ensures LastNamed(CommandFiles, "generate-image") == Some(CommandModule("generate-image", ImageGeneration))
    ensures LastNamed(CommandFiles, "ship") == Some(CommandModule("ship", ShipCompatibility))
  {
    assert CommandFiles == [CommandModule("generate-image", ImageGeneration), CommandModule("ship", ShipCompatibility)];
    assert CommandFiles[..1] == [CommandModule("generate-image", ImageGeneration)];
    assert LastIndex(CommandFiles[..1], "generate-image") == Some(0);
    assert "ship" != "generate-image";
  }
}
