/**
  The command dispatcher (`Shell.prototype._evaluateCommand`): a parsed command, or no
  parse at all, is turned into a synchronous error or into a promise that settles with
  the installer's outcome, updating the flags of loaded modules on success.
 */
module Dispatcher {
  import opened Wrappers

  /** A parsed command: its name and its argument tokens. */
  datatype Command = Command(name: string, args: seq<string>)

  /** The installer's completion: no error, or the error it reports. */
  datatype InstallOutcome = Installed | InstallFailed(error: string)

  /** A promise that resolves, a promise that rejects with an error, or a synchronous throw. */
  datatype DispatchResult = Resolved | Rejected(error: string) | Thrown(message: string)

  /** The one command name with a handler. */
  const ModuleCommand: string := "module"

  const InvalidSyntax: string := "Invalid command syntax."
  const ExpectedSingleModule: string := "Expected a single module name argument."

  /** `util.format('Unknown command "%s"', name)`. */
  function UnknownCommand(name: string): string {
    "Unknown command \"" + name + "\""
  }

  /** The three kinds of thrown message never collide, and the unknown-command one names its command. */
  lemma MessagesDistinct(a: string, b: string)
    ensures UnknownCommand(a) != InvalidSyntax
    ensures UnknownCommand(a) != ExpectedSingleModule
    ensures InvalidSyntax != ExpectedSingleModule
    ensures UnknownCommand(a) == UnknownCommand(b) ==> a == b
  {
    assert UnknownCommand(a)[0] == 'U';
    var prefix := "Unknown command \"";
    if UnknownCommand(a) == UnknownCommand(b) {
      var ua, ub := UnknownCommand(a), UnknownCommand(b);
      assert |a| == |b|;
      assert a == ua[|prefix|..|ua| - 1];
      assert b == ub[|prefix|..|ub| - 1];
    }
  }

  /** The installer only ever writes `true` into the flags. */
  predicate FlagsSet(loaded: map<string, bool>) {
    forall n :: n in loaded ==> loaded[n]
  }

  /** `command` is a `module` command with exactly one argument: the only case that installs. */
  predicate IsInstall(command: Option<Command>) {
    command.Some? && command.value.name == ModuleCommand && |command.value.args| == 1
  }

  /**
    Dispatch of a parse result against the loaded-module flags. `install` stands for the
    package manager's install of `args` into `modulesPath`, reduced to its outcome.
   */
  function Dispatch(loaded: map<string, bool>, modulesPath: string, command: Option<Command>,
                    install: (string, seq<string>) -> InstallOutcome): (out: (DispatchResult, map<string, bool>))
    ensures !out.0.Resolved? ==> out.1 == loaded
    ensures out.0.Resolved? <==>
      IsInstall(command) && install(modulesPath, command.value.args) == Installed
    ensures out.0.Resolved? ==> out.1 == loaded[command.value.args[0] := true]
    ensures out.0.Rejected? <==>
      IsInstall(command) && install(modulesPath, command.value.args).InstallFailed?
    ensures out.0.Rejected? ==> install(modulesPath, command.value.args) == InstallFailed(out.0.error)
    ensures FlagsSet(loaded) ==> FlagsSet(out.1)
  {
    if command.None? then (Thrown(InvalidSyntax), loaded)
    else if command.value.name == ModuleCommand then
      if |command.value.args| != 1 then (Thrown(ExpectedSingleModule), loaded)
      else
        match install(modulesPath, command.value.args)
        case InstallFailed(e) => (Rejected(e), loaded)
        case Installed => (Resolved, loaded[command.value.args[0] := true])
    else (Thrown(UnknownCommand(command.value.name)), loaded)
  }

  /**
    Error precedence: each thrown message identifies its cause. A missing parse is a
    syntax error before any name check, a `module` command of the wrong arity is an
    argument error, and any other name is an unknown command carrying that name.
   */
  lemma ThrownIdentifiesCause(loaded: map<string, bool>, modulesPath: string, command: Option<Command>,
                              install: (string, seq<string>) -> InstallOutcome, name: string)
    ensures var r := Dispatch(loaded, modulesPath, command, install).0;
      && (r == Thrown(InvalidSyntax) <==> command.None?)
      && (r == Thrown(ExpectedSingleModule) <==>
            command.Some? && command.value.name == ModuleCommand && |command.value.args| != 1)
      && (r == Thrown(UnknownCommand(name)) <==>
            command.Some? && command.value.name == name && name != ModuleCommand)
  {
    MessagesDistinct(name, name);
    if command.Some? {
      MessagesDistinct(name, command.value.name);
      MessagesDistinct(command.value.name, name);
    }
  }

  /** Outside a one-argument `module` command the installer is never consulted. */
  lemma InstallerOnlyForInstall(loaded: map<string, bool>, modulesPath: string, command: Option<Command>,
                                install1: (string, seq<string>) -> InstallOutcome,
                                install2: (string, seq<string>) -> InstallOutcome)
    requires !IsInstall(command)
    ensures Dispatch(loaded, modulesPath, command, install1) == Dispatch(loaded, modulesPath, command, install2)
    ensures Dispatch(loaded, modulesPath, command, install1).0.Thrown?
  {
  }

  /** A successful install sets exactly the flag of the installed module and no other. */
  lemma InstallChangesOneFlag(loaded: map<string, bool>, modulesPath: string, command: Option<Command>,
                              install: (string, seq<string>) -> InstallOutcome, other: string)
    requires IsInstall(command) && install(modulesPath, command.value.args) == Installed
    ensures var after := Dispatch(loaded, modulesPath, command, install).1;
      && after.Keys == loaded.Keys + {command.value.args[0]}
      && after[command.value.args[0]]
      && (other != command.value.args[0] && other in loaded ==> after[other] == loaded[other])
  {
  }
}
