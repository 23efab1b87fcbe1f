/**
 * The template reference grammar shared by pkg/context and pkg/template:
 * `scheme://host/owner/repo[/path...][#gitref]`, and the `template` section of a rig file.
 */
module Reference {
  import opened Wrappers
  import opened Values
  import opened Errors
  import opened Externals
  import opened GoStrings

  /** Where a template lives; an empty scheme means a local path. */
  datatype Location = Location(
    scheme: string, host: string, owner: string, repo: string, path: string, gitref: string)

  const DefaultGitref: string := "master"

  /**
   * Checks the parsed URL's scheme, host and path in that order, defaults the gitref to
   * `master`, and splits the path at "/" into owner, repository and sub-path.
   */
  function Parse(raw: string, lib: Libraries): (r: Result<Location, Error>)
    ensures r.Ok? ==> r.value.scheme != "" && r.value.host != "" && r.value.gitref != ""
  {
    match lib.parseUrl(raw)
    case Err(reason) => Err(UrlUnparsable(reason))
    case Ok(u) =>
      if u.scheme == "" then Err(NoScheme(raw))
      else if u.host == "" then Err(NoHost(raw))
      else if u.path == "" then Err(NoPath(raw))
      else
        var gitref := if u.fragment == "" then DefaultGitref else u.fragment;
        var segs := Split(u.path, '/');
        if |segs| < 3 then Err(InvalidRepoUrl(u.path))
        else Ok(Location(u.scheme, u.host, segs[1], segs[2], JoinSep(segs[3..], "/"), gitref))
  }

  /** Exactly which parsed URLs are accepted, and which of the four errors the others get. */
  lemma ParseOutcome(raw: string, lib: Libraries, u: Url)
    requires lib.parseUrl(raw) == Ok(u)
    ensures u.scheme == "" ==> Parse(raw, lib) == Err(NoScheme(raw))
    ensures u.scheme != "" && u.host == "" ==> Parse(raw, lib) == Err(NoHost(raw))
    ensures u.scheme != "" && u.host != "" && u.path == "" ==> Parse(raw, lib) == Err(NoPath(raw))
    ensures u.scheme != "" && u.host != "" && u.path != "" && |Split(u.path, '/')| < 3 ==>
      Parse(raw, lib) == Err(InvalidRepoUrl(u.path))
    ensures Parse(raw, lib).Ok? <==>
      u.scheme != "" && u.host != "" && u.path != "" && |Split(u.path, '/')| >= 3
    ensures Parse(raw, lib).Ok? ==>
      Parse(raw, lib).value.scheme == u.scheme && Parse(raw, lib).value.host == u.host &&
      Parse(raw, lib).value.gitref == (if u.fragment == "" then "master" else u.fragment)
    ensures Parse(raw, lib).Ok? ==>
      var segs := Split(u.path, '/');
      Parse(raw, lib).value.owner == segs[1] && Parse(raw, lib).value.repo == segs[2] &&
      Parse(raw, lib).value.path == JoinSep(segs[3..], "/")
  {
  }

  /**
   * The split loses nothing: the first segment, owner and repository joined with "/",
   * followed by "/" and the sub-path when there were more than three segments, is the
   * URL's path again.
   */
  lemma ParseRejoins(raw: string, lib: Libraries, u: Url)
    requires lib.parseUrl(raw) == Ok(u) && Parse(raw, lib).Ok?
    ensures var loc := Parse(raw, lib).value;
      var segs := Split(u.path, '/');
      u.path == JoinSep([segs[0], loc.owner, loc.repo], "/")
                + (if |segs| > 3 then "/" + loc.path else "")
  {
    var segs := Split(u.path, '/');
    JoinSplit(u.path, '/');
    assert segs == segs[..3] + segs[3..];
    assert segs[..3] == [segs[0], segs[1], segs[2]];
    if |segs| > 3 {
      JoinSepAppend(segs[..3], segs[3..], "/");
    } else {
      assert segs == segs[..3];
    }
  }

  /** The rig-file `template` keys a reader needs to be non-empty strings. */
  predicate Located(t: map<string, Value>) {
    StringAt(t, "path").GetOr("") != "" || StringAt(t, "url").GetOr("") != ""
    || StringAt(t, "gitref").GetOr("") != ""
  }

  /** The `template` map of a rig file, rejected when absent or when it names no location. */
  function Section(filePath: string, file: map<string, Value>): (r: Result<map<string, Value>, Error>)
    ensures MapAt(file, "template").None? ==> r == Err(TemplateUnparsable(filePath))
    ensures MapAt(file, "template").Some? ==>
      r == if Located(MapAt(file, "template").value) then Ok(MapAt(file, "template").value)
           else Err(NoPathOrUrlAndGitref(filePath))
  {
    match MapAt(file, "template")
    case None => Err(TemplateUnparsable(filePath))
    case Some(t) => if Located(t) then Ok(t) else Err(NoPathOrUrlAndGitref(filePath))
  }
}
