/**
 * Command line dispatch (azurectl/cli.py): the service name, the global
 * arguments, and the one-shot loading of the command's task module.
 *
 * docopt's parse of the main usage text is the constructor's input; importing
 * a module is modelled by the set of module names that can be imported, and a
 * loaded module by its name.
 */
module AzureCli {
  import opened Wrappers
  import opened DocoptArgs
  import PyStr

  const ComputeService := "compute"
  const SetupService := "setup"
  const CommandKey := "<command>"
  const ArgsKey := "<args>"

  /** The exceptions cli.py raises, with the names their messages mention. */
  datatype CliError =
    | UnknownServiceName
    | CommandNotLoaded(requested: Option<string>)
    | LoadCommandUndefined(service: string)
    | UnknownCommand(command: string, service: string)

  /**
   * The entries cli.py reads from docopt's dictionary; docopt always returns
   * them for the main usage text.
   */
  predicate MainUsage(args: map<string, ArgValue>) {
    && ComputeService in args && SetupService in args
    && IsValue(args, CommandKey) && IsValues(args, ArgsKey)
  }

  /**
   * `get_servicename`: `compute` whenever its flag is set, `setup` only when
   * compute is not set and setup is, and an error otherwise.
   */
  function ServiceName(args: map<string, ArgValue>): (r: Result<string, CliError>)
    requires ComputeService in args && SetupService in args
    ensures r == Success(ComputeService) <==> Truthy(args[ComputeService])
    ensures r == Success(SetupService) <==> !Truthy(args[ComputeService]) && Truthy(args[SetupService])
    ensures r.Failure? <==> !Truthy(args[ComputeService]) && !Truthy(args[SetupService])
    ensures r.Failure? ==> r.error == UnknownServiceName
  {
    if Truthy(args[ComputeService]) then Success(ComputeService)
    else if Truthy(args[SetupService]) then Success(SetupService)
    else Failure(UnknownServiceName)
  }

  /** `get_command`: the `<command>` entry, `None` when docopt found none. */
  function Command(args: map<string, ArgValue>): (r: Option<string>)
    requires IsValue(args, CommandKey)
    ensures args[CommandKey] == Value(r)
  {
    args[CommandKey].text
  }

  /** The module `load_command` imports for a service and a command. */
  function ModuleName(service: string, command: string): string {
    "azurectl." + service + "_" + command + "_task"
  }

  /** What one call of `load_command` returns or raises, and the `loaded` field after it. */
  datatype LoadStep = LoadStep(outcome: Result<string, CliError>, loaded: Option<string>)

  /**
   * `load_command` as a transition of the `loaded` field: a loaded module is
   * returned from the cache; otherwise the service is resolved before the
   * command is checked, and the command's task module is imported.
   */
  function LoadTransition(args: map<string, ArgValue>, loaded: Option<string>, importable: set<string>): (s: LoadStep)
    requires MainUsage(args)
    ensures loaded.Some? ==> s == LoadStep(Success(loaded.value), loaded)
    ensures s.outcome.Failure? ==> s.loaded == loaded
    ensures s.outcome.Success? ==> s.loaded == Some(s.outcome.value)
    ensures loaded.None? && ServiceName(args).Failure? ==> s.outcome == Failure(UnknownServiceName)
    ensures loaded.None? && ServiceName(args).Success? && !PyStr.Truthy(Command(args))
      ==> s.outcome == Failure(LoadCommandUndefined(ServiceName(args).value))
    ensures loaded.None? && ServiceName(args).Success? && PyStr.Truthy(Command(args)) ==>
      var m := ModuleName(ServiceName(args).value, Command(args).value);
      (s.outcome.Success? <==> m in importable) && (s.outcome.Success? ==> s.outcome.value == m)
      && (s.outcome.Failure? ==> s.outcome.error == UnknownCommand(Command(args).value, ServiceName(args).value))
  {
    if loaded.Some? then LoadStep(Success(loaded.value), loaded)
    else
      var command := Command(args);
      match ServiceName(args)
      case Failure(e) => LoadStep(Failure(e), loaded)
      case Success(service) =>
        if !PyStr.Truthy(command) then LoadStep(Failure(LoadCommandUndefined(service)), loaded)
        else
          var m := ModuleName(service, command.value);
          if m in importable then LoadStep(Success(m), Some(m))
          else LoadStep(Failure(UnknownCommand(command.value, service)), loaded)
  }

  /**
   * `load_command` is idempotent: after a successful load, calling it again,
   * whatever can be imported by then, returns the same module and leaves
   * `loaded` as it is.
   */
  lemma LoadIdempotent(args: map<string, ArgValue>, loaded: Option<string>, first: set<string>, later: set<string>)
    requires MainUsage(args)
    requires LoadTransition(args, loaded, first).outcome.Success?
    ensures LoadTransition(args, LoadTransition(args, loaded, first).loaded, later) == LoadTransition(args, loaded, first)
  {
  }

  /** The command line object: docopt's parse of argv, and the cached task module. */
  class Cli {
    const allArgs: map<string, ArgValue>
    const commandArgs: seq<string>
    var loaded: Option<string>

    /** A loaded module is always the task module of this command line's service and command. */
    ghost predicate Valid()
      reads this
    {
      && MainUsage(allArgs)
      && commandArgs == allArgs[ArgsKey].items
      && (loaded.Some? ==>
            && ServiceName(allArgs).Success? && PyStr.Truthy(Command(allArgs))
            && loaded.value == ModuleName(ServiceName(allArgs).value, Command(allArgs).value))
    }

    /** `__init__`, with docopt's dictionary given. */
    constructor (allArgs: map<string, ArgValue>)
      requires MainUsage(allArgs)
      ensures Valid()
      ensures this.allArgs == allArgs && commandArgs == allArgs[ArgsKey].items && loaded == None
    {
      this.allArgs := allArgs;
      commandArgs := allArgs[ArgsKey].items;
      loaded := None;
    }

    /** `load_command`: one step of `LoadTransition` on the `loaded` field. */
    method LoadCommand(importable: set<string>) returns (r: Result<string, CliError>)
      requires Valid()
      modifies this
      ensures Valid()
      ensures LoadStep(r, loaded) == LoadTransition(allArgs, old(loaded), importable)
    {
      if loaded.Some? {
        return Success(loaded.value);
      }
      var command := Command(allArgs);
      var service := ServiceName(allArgs);
      if service.Failure? {
        return Failure(service.error);
      }
      if !PyStr.Truthy(command) {
        return Failure(LoadCommandUndefined(service.value));
      }
      var m := ModuleName(service.value, command.value);
      if m !in importable {
        return Failure(UnknownCommand(command.value, service.value));
      }
      loaded := Some(m);
      r := Success(m);
    }

    /**
     * The argv `__load_command_args` hands to docopt: the service name, then
     * the command, then the command's own arguments in their order.
     */
    function CommandArgv(): (argv: seq<string>)
      reads this
      requires Valid() && loaded.Some?
      ensures |argv| == |commandArgs| + 2
      ensures argv[0] == ServiceName(allArgs).value && Some(argv[1]) == Command(allArgs)
      ensures argv[2..] == commandArgs
    {
      [ServiceName(allArgs).value, Command(allArgs).value] + commandArgs
    }

    /**
     * `get_command_args`: an error while no module is loaded, otherwise the
     * loaded module's usage text (`parse`, docopt) applied to `CommandArgv`.
     */
    function GetCommandArgs(parse: (string, seq<string>) -> map<string, ArgValue>): (r: Result<map<string, ArgValue>, CliError>)
      reads this
      requires Valid()
      ensures r.Success? <==> loaded.Some?
      ensures loaded.None? ==> r == Failure(CommandNotLoaded(Command(allArgs)))
      ensures loaded.Some? ==> r == Success(parse(loaded.value, CommandArgv()))
    {
      if loaded.None? then Failure(CommandNotLoaded(Command(allArgs)))
      else Success(parse(loaded.value, CommandArgv()))
    }

    /**
     * `get_global_args`: copies docopt's dictionary entry by entry, leaving
     * out the command and its arguments.
     */
    method GetGlobalArgs() returns (result: map<string, ArgValue>)
      ensures forall k :: k in result <==> k in allArgs && k != CommandKey && k != ArgsKey
      ensures forall k :: k in result ==> result[k] == allArgs[k]
    {
      result := map[];
      var todo := allArgs.Keys;
      while todo != {}
        invariant todo <= allArgs.Keys
        invariant forall k :: k in result <==> k in allArgs && k !in todo && k != CommandKey && k != ArgsKey
        invariant forall k :: k in result ==> result[k] == allArgs[k]
        decreases todo
      {
        var arg :| arg in todo;
        if arg != CommandKey && arg != ArgsKey {
          result := result[arg := allArgs[arg]];
        }
        todo := todo - {arg};
      }
    }
  }
}
