/** The errors the pipeline returns, with the exact texts the Go code formats for them. */
module Errors {

  /** Which override list an assignment string came from. */
  datatype ValueList = ValueFlag | StringValueFlag

  datatype Error =
    | UrlUnparsable(reason: string)      // url.Parse failed; its message verbatim
    | NoScheme(url: string)
    | NoHost(url: string)
    | NoPath(url: string)
    | InvalidRepoUrl(path: string)
    | TemplateUnparsable(file: string)   // no `template` map in the file
    | NoPathOrUrlAndGitref(file: string)
    | NoUrlOrPath(file: string)
    | NoUrl
    | NoOwnerDir
    | NoRepoDir
    | DigestMismatch(computed: string)
    | ValueParse(list: ValueList, reason: string)
    | RenderFailed(reason: string)       // template parse or execute error
    | EnvUnset(name: string)
    | Io(reason: string)                 // OS, YAML or git failure; its text verbatim

  function FlagName(list: ValueList): string {
    match list
    case ValueFlag => "--value"
    case StringValueFlag => "--string-value"
  }

  /** What `err.Error()` prints for each error. */
  function Message(e: Error): string {
    match e
    case UrlUnparsable(reason) => reason
    case NoScheme(url) => "Unable to parse url scheme: " + url
    case NoHost(url) => "Unable to parse url host: " + url
    case NoPath(url) => "Unable to parse url path: " + url
    case InvalidRepoUrl(path) => "Invalid git repository url: " + path
    case TemplateUnparsable(file) => file + " is malformed: could not parse template"
    case NoPathOrUrlAndGitref(file) => file + " is malformed: does not contain path or url and gitref"
    case NoUrlOrPath(file) => file + " is malformed: does not contain url or path"
    case NoUrl => "Context contains no URL"
    case NoOwnerDir => "Can not resolve owner dir since context has no URL"
    case NoRepoDir => "Can not resolve repo dir since context has no URL"
    case DigestMismatch(computed) => "Template digest does not match: " + computed
    case ValueParse(list, reason) => "failed parsing " + FlagName(list) + " data: " + reason
    case RenderFailed(reason) => reason
    case EnvUnset(name) => "Environment variable '" + name + "' does not exists"
    case Io(reason) => reason
  }
}
