/**
  The memoising module resolver behind the sandbox's `require` (`Shell.prototype._require`):
  a fixed table of known host modules, the load target of a name, and one resolution
  step over the name-to-module cache.
 */
module Resolver {

  /**
    What a module load produces, as JavaScript's truthiness test sees it: any truthy export
    (an object, a function, a non-empty string, a non-zero number, `true`) or a falsy one
    (`undefined`, `null`, `false`, `0`, `''`). A falsy export is returned but never cached.
   */
  datatype ModuleValue = FalsyValue(tag: nat) | TruthyValue(id: nat)

  predicate Truthy(v: ModuleValue) {
    v.TruthyValue?
  }

  /** The host loader's answer for one target: a value, or the error it throws. */
  datatype LoadResult = Loaded(value: ModuleValue) | LoadFailed(error: string)

  /** What `_require` gives its caller: a value, or the loader's error rethrown unmodified. */
  datatype RequireResult = Returned(value: ModuleValue) | Threw(error: string)

  /** `_knownModules`: modules loaded by their bare name. Every value is the (non-empty) name itself. */
  const KnownModules: map<string, string> := map[
    "async" := "async",
    "crypto" := "crypto",
    "events" := "events",
    "fs" := "fs",
    "http" := "http",
    "https" := "https",
    "net" := "net",
    "os" := "os",
    "path" := "path",
    "stream" := "stream",
    "querystring" := "querystring",
    "url" := "url",
    "util" := "util",
    "zlib" := "zlib"
  ]

  /** `_knownModules[name]` is truthy. */
  predicate IsKnown(name: string) {
    name in KnownModules && KnownModules[name] != ""
  }

  /** Every entry maps a name without a path separator to itself, so it is truthy. */
  lemma KnownTable()
    ensures forall n :: n in KnownModules ==> KnownModules[n] == n && '/' !in n
    ensures forall n :: IsKnown(n) <==> n in KnownModules
  {
  }

  /** The table has fourteen distinct entries. */
  lemma KnownTableSize()
    ensures |KnownModules| == 14
  {
  }

  /** The directory, below the shell's modules path, that installed packages live in. */
  const PackageRoot: string := "node_modules"

  /** `path.join(modulesPath, 'node_modules', name)`, without normalisation. */
  function InstalledPath(modulesPath: string, name: string): string {
    modulesPath + "/" + PackageRoot + "/" + name
  }

  /**
    What `require` is called with for `name`: known names load by bare name, any other
    name from the shell's package directory.
   */
  function ResolveTarget(modulesPath: string, name: string): (target: string)
    ensures target == name <==> IsKnown(name)
    ensures !IsKnown(name) ==>
      && |target| == |modulesPath| + |PackageRoot| + 2 + |name|
      && target[..|modulesPath|] == modulesPath
      && target[|modulesPath|..|modulesPath| + |PackageRoot| + 2] == "/" + PackageRoot + "/"
      && target[|target| - |name|..] == name
  {
    if IsKnown(name) then name else InstalledPath(modulesPath, name)
  }

  /**
    Different names never share an unnormalised load target: the known table and the
    package directory cannot both claim one target, and two installed names differ in it.
   */
  lemma ResolveTargetInjective(modulesPath: string, a: string, b: string)
    requires ResolveTarget(modulesPath, a) == ResolveTarget(modulesPath, b)
    ensures a == b
  {
  }

  /** Every cached module is truthy: only truthy loads are ever stored. */
  predicate CacheTruthy(cache: map<string, ModuleValue>) {
    forall n :: n in cache ==> Truthy(cache[n])
  }

  /** `_require` goes to the loader exactly when the cache has no truthy entry for `name`. */
  predicate ConsultsLoader(cache: map<string, ModuleValue>, name: string) {
    !(name in cache && Truthy(cache[name]))
  }

  /**
    One call of `_require(name)` against `cache`, with `load` standing for the host's `require`:
    the result and the cache afterwards.
   */
  function RequireStep(cache: map<string, ModuleValue>, modulesPath: string, name: string,
                       load: string -> LoadResult): (out: (RequireResult, map<string, ModuleValue>))
    ensures !ConsultsLoader(cache, name) ==> out == (Returned(cache[name]), cache)
    ensures ConsultsLoader(cache, name) ==>
      match load(ResolveTarget(modulesPath, name))
      case LoadFailed(e) => out.0 == Threw(e)
      case Loaded(v) => out.0 == Returned(v)
    ensures out.0.Threw? || !Truthy(out.0.value) ==> out.1 == cache
    ensures out.0.Returned? && Truthy(out.0.value) ==> out.1 == cache[name := out.0.value]
    ensures CacheTruthy(cache) ==> CacheTruthy(out.1)
  {
    if !ConsultsLoader(cache, name) then (Returned(cache[name]), cache)
    else
      match load(ResolveTarget(modulesPath, name))
      case LoadFailed(e) => (Threw(e), cache)
      case Loaded(v) => (Returned(v), if Truthy(v) then cache[name := v] else cache)
  }

  /** A cache hit does not depend on the loader at all: the loader is not called. */
  lemma CachedIgnoresLoader(cache: map<string, ModuleValue>, modulesPath: string, name: string,
                            load1: string -> LoadResult, load2: string -> LoadResult)
    requires !ConsultsLoader(cache, name)
    ensures RequireStep(cache, modulesPath, name, load1) == RequireStep(cache, modulesPath, name, load2)
  {
  }

  /**
    Idempotence: once a call returns a truthy module, every later call with the same name
    returns that very module, leaves the cache as it is, and does not use the loader.
   */
  lemma RequireIdempotent(cache: map<string, ModuleValue>, modulesPath: string, name: string,
                          load1: string -> LoadResult, load2: string -> LoadResult)
    requires RequireStep(cache, modulesPath, name, load1).0.Returned?
    requires Truthy(RequireStep(cache, modulesPath, name, load1).0.value)
    ensures var first := RequireStep(cache, modulesPath, name, load1);
      !ConsultsLoader(first.1, name) && RequireStep(first.1, modulesPath, name, load2) == first
  {
  }

  /** A resolved name keeps its module while other names are resolved. */
  lemma RequireKeepsOthers(cache: map<string, ModuleValue>, modulesPath: string, name: string,
                           other: string, load: string -> LoadResult)
    requires !ConsultsLoader(cache, other)
    ensures var after := RequireStep(cache, modulesPath, name, load).1;
      other in after && after[other] == cache[other]
  {
  }
}
