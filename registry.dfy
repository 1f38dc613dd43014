/**
 * The command registry: every command module exports `data` (the slash
 * command builder, whose `data.name` is the command's name) and `run`. The
 * registry is a collection keyed by `data.name`, filled first from the user
 * command modules and then from the system command modules, one `set` per
 * module, so a later module with the same name replaces an earlier one.
 *
 * A module may also carry a top-level `name` property; the dispatcher's
 * long-running-filters exception reads that one. None of the repository's
 * command modules defines it, so `name` is `None` for them.
 */
module Registry {
  import opened Wrappers

  datatype CommandData = CommandData(name: string)

  datatype CommandModule = CommandModule(data: CommandData, name: Option<string>)

  /** The collection after `set(m.data.name, m)` for each module of `modules`, in order. */
  function Registered(modules: seq<CommandModule>): map<string, CommandModule>
  {
    if modules == [] then map[]
    else
      var last := modules[|modules| - 1];
      Registered(modules[..|modules| - 1])[last.data.name := last]
  }

  /** A name is registered exactly when some module declares it as `data.name`. */
  lemma {:induction false} RegisteredKeys(modules: seq<CommandModule>, key: string)
    ensures key in Registered(modules) <==> exists i | 0 <= i < |modules| :: modules[i].data.name == key
  {
    if modules != [] {
      var prefix := modules[..|modules| - 1];
      RegisteredKeys(prefix, key);
      if exists i | 0 <= i < |prefix| :: prefix[i].data.name == key {
        var i :| 0 <= i < |prefix| && prefix[i].data.name == key;
        assert modules[i] == prefix[i];
      }
      if exists i | 0 <= i < |modules| :: modules[i].data.name == key {
        var i :| 0 <= i < |modules| && modules[i].data.name == key;
        if i < |prefix| {
          assert prefix[i] == modules[i];
        }
      }
    }
  }

  /**
   * Every registered entry is one of the modules, stored under its own
   * `data.name`, and it is the LAST module declaring that name.
   */
  lemma {:induction false} RegisteredEntry(modules: seq<CommandModule>, key: string)
    requires key in Registered(modules)
    ensures exists i | 0 <= i < |modules| :: modules[i] == Registered(modules)[key] &&
              forall j | i < j < |modules| :: modules[j].data.name != key
    ensures Registered(modules)[key].data.name == key
  {
    var n := |modules|;
    var prefix := modules[..n - 1];
    var last := modules[n - 1];
    if last.data.name == key {
      assert modules[n - 1] == Registered(modules)[key];
    } else {
      RegisteredEntry(prefix, key);
      var i :| 0 <= i < |prefix| && prefix[i] == Registered(prefix)[key] &&
               forall j | i < j < |prefix| :: prefix[j].data.name != key;
      assert modules[i] == Registered(modules)[key];
      assert forall j | i < j < n :: modules[j].data.name != key by {
        forall j | i < j < n ensures modules[j].data.name != key {
          if j < n - 1 {
            assert modules[j] == prefix[j];
          }
        }
      }
    }
  }

  /** Loading two batches one after the other is the second batch's entries laid over the first's. */
  lemma {:induction false} RegisteredConcat(first: seq<CommandModule>, second: seq<CommandModule>)
    ensures Registered(first + second) == Registered(first) + Registered(second)
  {
    if second == [] {
      assert first + second == first;
    } else {
      var n := |second|;
      var last := second[n - 1];
      assert (first + second)[..|first + second| - 1] == first + second[..n - 1];
      assert (first + second)[|first + second| - 1] == last;
      RegisteredConcat(first, second[..n - 1]);
    }
  }

  /**
   * On a name collision the system command wins; names only the user commands
   * declare keep the user command.
   */
  lemma SystemCommandsOverride(userModules: seq<CommandModule>, systemModules: seq<CommandModule>, key: string)
    requires key in Registered(userModules) || key in Registered(systemModules)
    ensures key in Registered(userModules + systemModules)
    ensures Registered(userModules + systemModules)[key] ==
            if key in Registered(systemModules) then Registered(systemModules)[key]
            else Registered(userModules)[key]
  {
    RegisteredConcat(userModules, systemModules);
  }

  /**
   * The loading loops: the user command modules, then the system command
   * modules, each stored under its `data.name`.
   */
  method LoadCommands(commandFiles: seq<CommandModule>, systemCommandFiles: seq<CommandModule>)
    returns (commands: map<string, CommandModule>)
    ensures commands == Registered(commandFiles) + Registered(systemCommandFiles)
    ensures forall key | key in commands :: commands[key].data.name == key
  {
    commands := map[];
    for i := 0 to |commandFiles|
      invariant commands == Registered(commandFiles[..i])
    {
      var command := commandFiles[i];
      assert commandFiles[..i + 1][..i] == commandFiles[..i];
      commands := commands[command.data.name := command];
    }
    assert commandFiles[..|commandFiles|] == commandFiles;
    var userCommands := commands;
    for j := 0 to |systemCommandFiles|
      invariant commands == userCommands + Registered(systemCommandFiles[..j])
    {
      var systemCommand := systemCommandFiles[j];
      assert systemCommandFiles[..j + 1][..j] == systemCommandFiles[..j];
      commands := commands[systemCommand.data.name := systemCommand];
    }
    assert systemCommandFiles[..|systemCommandFiles|] == systemCommandFiles;
    forall key | key in commands ensures commands[key].data.name == key {
      RegisteredConcat(commandFiles, systemCommandFiles);
      RegisteredEntry(commandFiles + systemCommandFiles, key);
    }
  }
}
