/**
  The evaluation shell (`Shell` in shell.js): per-session state and the routing of each
  piece of input text to command dispatch or to code evaluation.
 */
module ShellEngine {
  import opened Wrappers
  import opened JsString
  import opened Trace
  import opened Resolver
  import opened Dispatcher

  /** The sigil that marks a shell command. */
  const CommandSigil: char := '%'

  /** What the sandbox produced for a piece of code: a value, or the error it threw. */
  datatype CodeOutcome = CodeValue(id: nat) | CodeError(message: string)

  /** What `evaluate` gives back: the code path's outcome or the command path's. */
  datatype EvalResult = CodeResult(outcome: CodeOutcome) | CommandResult(result: DispatchResult)

  /** `text.charAt(0) === '%'`: the empty text has no first character and is code. */
  predicate IsCommandText(text: string) {
    |text| > 0 && text[0] == CommandSigil
  }

  /** Routing depends on the first character alone: anything after the sigil is still a command. */
  lemma RoutingByFirstCharacter(text: string, rest: string)
    ensures IsCommandText([CommandSigil] + rest)
    ensures |text| > 0 ==> (IsCommandText(text + rest) <==> IsCommandText(text))
    ensures !IsCommandText("")
  {
  }

  /**
    `options.toString()`: `code[<evaluationId>]`, the filename the evaluation's options give
    when they are turned into text. It labels diagnostics only.
   */
  function CodeLabel(evaluationId: string): string {
    "code[" + evaluationId + "]"
  }

  class Shell {
    /** `config.modulesPath`: where the package manager installs modules. */
    const modulesPath: string
    /** `_requiredModules`: name to resolved module. */
    var requiredModules: map<string, ModuleValue>
    /** `_loadedModules`: names installed by a `module` command. */
    var loadedModules: map<string, bool>

    /** Only truthy modules are cached and only `true` flags are written. */
    ghost predicate Valid()
      reads this
    {
      CacheTruthy(requiredModules) && FlagsSet(loadedModules)
    }

    constructor (modulesPath: string)
      ensures Valid()
      ensures this.modulesPath == modulesPath
      ensures requiredModules == map[] && loadedModules == map[]
    {
      this.modulesPath := modulesPath;
      requiredModules := map[];
      loadedModules := map[];
    }

    /**
      `createTrace`: the lines of the error's stack (none is the empty text) up to the
      first shell frame; a `null` or `undefined` error throws on reading its stack.
     */
    method CreateTrace(error: ErrorValue) returns (r: TraceOutcome)
      ensures r.StackTypeError? <==> error.Nullish?
      ensures error.ErrorObject? ==> r.TraceLines?
      ensures r.TraceLines? ==> r.lines <= StackLines(error.stack)
      ensures r.TraceLines? ==> forall i :: 0 <= i < |r.lines| ==> !IsShellFrame(r.lines[i])
      ensures r.TraceLines? && |r.lines| < |StackLines(error.stack)| ==>
        IsShellFrame(StackLines(error.stack)[|r.lines|])
      ensures r.TraceLines? ==> r.lines == TrimTrace(StackLines(error.stack))
    {
      if error.Nullish? {
        return StackTypeError;
      }
      var lines := Split(error.stack.GetOr(""), '\n');
      var trace := [];
      var i := 0;
      while i < |lines|
        invariant 0 <= i <= |lines|
        invariant trace == lines[..i]
        invariant forall k :: 0 <= k < i ==> !IsShellFrame(lines[k])
      {
        if IndexOf(lines[i], ShellMarker) > 0 {
          break;
        }
        trace := trace + [lines[i]];
        i := i + 1;
      }
      TrimTraceUnique(lines, trace);
      r := TraceLines(trace);
    }

    /** `evaluate`: a command when the first character is the sigil, code otherwise. */
    method Evaluate(text: string, evaluationId: string, parse: string -> Option<Command>,
                    install: (string, seq<string>) -> InstallOutcome,
                    runCode: (string, string) -> CodeOutcome) returns (r: EvalResult)
      requires Valid()
      modifies this`loadedModules
      ensures Valid()
      ensures r.CommandResult? <==> IsCommandText(text)
      ensures r.CodeResult? ==>
        r.outcome == runCode(text, CodeLabel(evaluationId)) && loadedModules == old(loadedModules)
      ensures r.CommandResult? ==>
        (r.result, loadedModules) == Dispatch(old(loadedModules), modulesPath, parse(text), install)
    {
      if |text| > 0 && text[0] == CommandSigil {
        var result := EvaluateCommand(text, parse, install);
        r := CommandResult(result);
      } else {
        r := CodeResult(runCode(text, CodeLabel(evaluationId)));
      }
    }

    /**
      `_evaluateCommand`: parse, then check syntax, name and arity before installing; the
      flag of the module is set only once the install has succeeded.
     */
    method EvaluateCommand(text: string, parse: string -> Option<Command>,
                           install: (string, seq<string>) -> InstallOutcome) returns (r: DispatchResult)
      requires Valid()
      modifies this`loadedModules
      ensures Valid()
      ensures (r, loadedModules) == Dispatch(old(loadedModules), modulesPath, parse(text), install)
    {
      var command := parse(text);
      if command.None? {
        return Thrown(InvalidSyntax);
      }
      if command.value.name == ModuleCommand {
        if |command.value.args| != 1 {
          return Thrown(ExpectedSingleModule);
        }
        var outcome := install(modulesPath, command.value.args);
        if outcome.InstallFailed? {
          return Rejected(outcome.error);
        }
        loadedModules := loadedModules[command.value.args[0] := true];
        return Resolved;
      }
      return Thrown(UnknownCommand(command.value.name));
    }

    /**
      `_require`: a cached truthy module is returned as it is; otherwise the module is
      loaded from its target and cached if truthy. A load error propagates.
     */
    method Require(name: string, load: string -> LoadResult) returns (r: RequireResult)
      requires Valid()
      modifies this`requiredModules
      ensures Valid()
      ensures (r, requiredModules) == RequireStep(old(requiredModules), modulesPath, name, load)
    {
      if name in requiredModules && Truthy(requiredModules[name]) {
        return Returned(requiredModules[name]);
      }
      var target := if IsKnown(name) then name else InstalledPath(modulesPath, name);
      var loaded := load(target);
      if loaded.LoadFailed? {
        return Threw(loaded.error);
      }
      var value := loaded.value;
      if Truthy(value) {
        requiredModules := requiredModules[name := value];
      }
      return Returned(value);
    }
  }
}
