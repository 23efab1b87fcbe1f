/**
 * Everything the pipeline calls but does not implement, as values passed in: the foreign
 * libraries (`Libraries`) and the operating system as one invocation sees it (`Machine`).
 * Each field is an uninterpreted function; the model assumes nothing about it.
 */
module Externals {
  import opened Wrappers
  import opened Values
  import opened Errors

  newtype byte = x: int | 0 <= x < 256

  /** The parts of a `*url.URL` the pipeline reads. */
  datatype Url = Url(scheme: string, host: string, path: string, fragment: string)

  /** One `key.path=value` assignment of an override string, its value still as text. */
  datatype Assignment = Assignment(key: KeyPath, raw: string)

  /** How a template is parsed and executed: which function table, and what a missing key does. */
  datatype Dialect =
    | EngineStrict   // pkg/engine: sprig, chartutil and the strict env/expandenv; missingkey=error
    | LegacyLenient  // pkg/template readYaml: sprig and chartutil; missing keys print "<no value>"
    | LegacyStrict   // pkg/template Build: sprig and chartutil; missingkey=error

  /** One call of the `filepath.Walk` callback: a visited path, or an error for it. */
  datatype WalkEvent = Visited(path: string, isDir: bool) | WalkFailed(path: string)

  datatype Libraries = Libraries(
    parseUrl: string -> Result<Url, string>,                      // net/url.Parse
    parseSet: string -> Result<seq<Assignment>, string>,          // helm strvals grammar
    typedValue: string -> Value,                                   // strvals type inference
    execute: (Dialect, string, Value) -> Result<string, string>,   // text/template parse and execute
    emptyLines: string -> string,                                  // the emptyLines regexp, replaced by ""
    expandEnv: (string, map<string, string>) -> string,            // os.ExpandEnv over an environment
    sha256: string -> seq<byte>,                                   // crypto/sha256 over the bytes written
    parseYaml: string -> Result<map<string, Value>, string>)       // yaml.Unmarshal into a map

  datatype Machine = Machine(
    cwd: Result<string, string>,                          // os.Getwd
    home: Result<string, string>,                         // homedir.Dir
    tempDir: Result<string, string>,                      // ioutil.TempDir("", "rig")
    stat: string -> Result<bool, string>,                 // os.Stat: whether the path is a directory
    glob: string -> Result<seq<string>, string>,          // filepath.Glob
    readFile: string -> Result<string, string>,           // ioutil.ReadFile
    walk: string -> seq<WalkEvent>,                       // the callbacks filepath.Walk makes, in order
    sync: (string, string, string) -> Option<string>,     // git.Sync(ownerDir, repoDir, url): its error text
    checkout: (string, string, string, string) -> Option<string>) // git.Checkout(repoDir, dir, ref, path)

  /** A failed OS call surfaces its own error text. */
  function Lift<T>(r: Result<T, string>): Result<T, Error> {
    match r
    case Ok(v) => Ok(v)
    case Err(e) => Err(Io(e))
  }

  /** A git call that printed `Some(output)` failed with that output as its error. */
  function Ran(outcome: Option<string>): Result<bool, Error> {
    match outcome
    case None => Ok(true)
    case Some(output) => Err(Io(output))
  }
}
