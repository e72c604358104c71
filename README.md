# Evaluation shell: a Dafny model

This project models the decision and bookkeeping layer of an embeddable code-evaluation
shell (`src/evaluator/shell.js`). Each piece of input text is routed by its first
character. Text that starts with `%` is a shell command: it is parsed and dispatched,
and the only handler, `module`, installs a package and records it in the loaded-module
flags. Any other text is code and runs in the persistent sandbox. The shell also keeps a
memoising module resolver behind the sandbox's `require`. That resolver holds a fixed
table of fourteen known modules that are loaded by bare name, and it resolves any other name under
`<modulesPath>/node_modules/`. Finally, the shell trims an error's stack trace down to
the frames above its own.

The collaborators are parameters:
- `load` is the host's `require`. It returns a module value or the error it throws.
- `install` is the package manager's install, reduced to "no error" or "error".
- `parse` is the command parser. Its source is not part of this model, so its result
  (a command or none) is an input.
- `runCode` is the sandbox's code evaluation. It returns an opaque outcome.

Files:
- `wrappers.dfy`: `Option`.
- `jsstring.dfy`: JavaScript's `indexOf` and `split`, with `Join` as the inverse of
  `split`.
- `trace.dfy`: stack-trace trimming as a specification function.
- `resolver.dfy`: the known-module table, load targets and one `_require` step over the
  cache.
- `dispatcher.dfy`: the command state machine as a specification function.
- `shell.dfy`: the `Shell` class. Its fields are `requiredModules`, `loadedModules` and
  the modules path. Its imperative methods are proved equal to those specification
  functions.

JavaScript details made explicit:
- Module values carry their truthiness: `TruthyValue` stands for any truthy export
  (object, function, non-empty string, non-zero number, `true`) and `FalsyValue` for any
  falsy one. A falsy load is returned but never cached.
- `indexOf` is the first occurrence. A stack line whose first `Shell.` is at index 0 is
  therefore not a shell frame, even when `Shell.` occurs again later in the line.
- `charAt(0)` of the empty text is `''`, so the empty text is code. The sigil is ASCII,
  so comparing the first Dafny character gives the same routing as comparing the first
  UTF-16 unit.
- "The loader or installer is not called" is stated as "the result does not depend on
  it".

## Model

| member | source | states |
|---|---|---|
| `JsString.IndexOf` | src/evaluator/shell.js:69 | the result is the first index where the pattern occurs, or -1 exactly when it occurs nowhere |
| `JsString.IndexFrom` | src/evaluator/shell.js:69 | the first occurrence at or after a start index, or -1 when there is none from there on |
| `JsString.Split` | src/evaluator/shell.js:65 | `split('\n')` yields at least one piece, and no piece contains the separator |
| `JsString.JoinSplit` | src/evaluator/shell.js:65 | joining the pieces of a split gives back the original text |
| `JsString.SplitJoin` | src/evaluator/shell.js:65 | splitting a join of separator-free pieces gives back those pieces, so `Split` is determined by its pieces |
| `Trace.ShellFrameMeaning` | src/evaluator/shell.js:69 | a line counts as a shell frame iff `Shell.` occurs past its start and not at index 0 |
| `Trace.StackLines` | src/evaluator/shell.js:65 | the lines of `error.stack \|\| ''`: at least one line, none holds a newline, and together they rejoin to the stack (or to the empty text when the stack is missing) |
| `Trace.TrimTrace` | src/evaluator/shell.js:64-76 | the trace is a prefix of the lines, holds no shell frame, and when it is shorter than the lines the next line is a shell frame |
| `Trace.TrimTraceUnique` | src/evaluator/shell.js:64-76 | any prefix with those three properties is the trimmed trace |
| `Trace.TrimTraceKeepsUnmarked` | src/evaluator/shell.js:68-73 | a stack without shell frames is kept whole |
| `Trace.MissingStackTrace` | src/evaluator/shell.js:65 | a missing stack yields `['']` |
| `ShellEngine.Shell.CreateTrace` | src/evaluator/shell.js:64-76 | a `null` or `undefined` error throws a TypeError, and only it; for any other value the loop that pushes lines until the first shell frame returns exactly the trimmed trace, with its three properties |
| `Resolver.KnownTable` | src/evaluator/shell.js:12-27 | every table entry maps a name without `/` to itself, so a name is known exactly when it is a key |
| `Resolver.KnownTableSize` | src/evaluator/shell.js:12-27 | the table has 14 entries |
| `Resolver.ResolveTarget` | src/evaluator/shell.js:132-138 | the target is the bare name exactly for known names; for any other name it is the modules path, then `/node_modules/`, then the name |
| `Resolver.ResolveTargetInjective` | src/evaluator/shell.js:132-138 | two different names never get the same unnormalised load target |
| `Resolver.RequireStep` | src/evaluator/shell.js:126-145 | a cache hit returns the cached module and leaves the cache unchanged; otherwise the loader's value or error is passed through, only a truthy value is stored under the name, and an error or a falsy value leaves the cache unchanged; an all-truthy cache stays all-truthy |
| `Resolver.CachedIgnoresLoader` | src/evaluator/shell.js:127-130 | on a cache hit the result does not depend on the loader |
| `Resolver.RequireIdempotent` | src/evaluator/shell.js:127-130 | after a call returns a truthy module, a second call returns the same module, keeps the cache and does not use the loader |
| `Resolver.RequireKeepsOthers` | src/evaluator/shell.js:140-142 | resolving one name never changes another name's cached module |
| `ShellEngine.Shell.Require` | src/evaluator/shell.js:126-145 | the method's result and new cache are those of `RequireStep`, and the cache stays all-truthy |
| `Dispatcher.MessagesDistinct` | src/evaluator/shell.js:99-123 | the syntax, arity and unknown-command messages never coincide, and the unknown-command message determines the name |
| `Dispatcher.Dispatch` | src/evaluator/shell.js:96-124 | the promise resolves iff the command is a one-argument `module` whose install succeeds, and then exactly that name's flag is set; it rejects iff that install fails, with the install's error; every other outcome leaves the flags unchanged; flags stay all-`true` |
| `Dispatcher.ThrownIdentifiesCause` | src/evaluator/shell.js:97-123 | a throw of "Invalid command syntax." happens iff there is no parse; "Expected a single module name argument." iff `module` has the wrong arity; `Unknown command "<name>"` iff the name is some other name |
| `Dispatcher.InstallerOnlyForInstall` | src/evaluator/shell.js:103-111 | outside a one-argument `module` command the outcome is a throw and does not depend on the installer |
| `Dispatcher.InstallChangesOneFlag` | src/evaluator/shell.js:111-118 | a successful install adds the module's name with `true` and no other key changes |
| `ShellEngine.Shell.EvaluateCommand` | src/evaluator/shell.js:96-124 | the method's result and new flags are those of `Dispatch` applied to the parse of the text |
| `ShellEngine.RoutingByFirstCharacter` | src/evaluator/shell.js:79 | text starting with `%` is a command whatever follows; routing depends on the first character only; the empty text is code |
| `ShellEngine.Shell.Evaluate` | src/evaluator/shell.js:78-85 | the command path is taken iff the first character is `%`; the code path returns the sandbox's outcome for the text under its label and changes no flag; the command path is `Dispatch` |
| `ShellEngine.Shell.constructor` | src/evaluator/shell.js:56-62 | a new shell has an empty module cache and no loaded flags |

## Left out

- The sandbox itself (`vm.createContext`, `vm.runInContext`), including the persistence of its context between evaluations. Code evaluation is the `runCode` parameter. It receives the `code[<id>]` label of the options' `toString`; a host that reads the options object's `filename` sees `code` for every evaluation.
- ShellEngine.Shell.Evaluate: code that runs in the sandbox can call `require` and so reach `_require`. The model's code path does not interleave those calls, so evaluating code never changes `requiredModules` here.
- `createGlobals` (`Buffer`, `console`, the `global` self-reference, the `require` pass-through) and the `runAsync` deferred bridge. These are host objects and promise scheduling with no decisions of their own.
- `createShell` and `npm.load`: package-manager bootstrap I/O.
- The asynchrony of installs. The install callback runs later in the source; the model applies its outcome at once and reports the promise as `Resolved` or `Rejected`.
- `commands.parse`, the command parser. Its source is not part of this model, so the parse result is an input. The command payload is not used by dispatch and is not modelled.
- Resolver.ResolveTargetInjective: holds only for the unnormalised target; `path.join` sends different names to one target (`x`, `./x` and `a/../x` all reach `<modulesPath>/node_modules/x`, and a name climbing out of the modules path can reach the bare target of a known name), so the real shell can cache one module under several names.
- Resolver.ResolveTarget: `path.join` normalisation (`..`, doubled separators) is not modelled; the target is the plain concatenation `modulesPath + "/node_modules/" + name`.
- `util.format` is modelled only for the one `%s` it is given, a string argument.
- The `trace = false` mark on created errors: a thrown outcome carries only its message.
- The plain-object quirks of JavaScript lookups (inherited keys such as `constructor`): the table and the cache are finite maps.
- ShellEngine.Shell.CreateTrace: where `error.stack` is set but is not a string (or is a truthy non-string), the model does not follow it: the stack is optional text. The TypeError of a nullish error is reported as `StackTypeError`, without its host message.
