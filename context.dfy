/** pkg/context: where a rig file's template lives, and the directories it is cached in. */
module Context {
  import opened Wrappers
  import opened V = Values
  import opened Errors
  import opened Externals
  import opened GoStrings
  import opened Reference
  import GoPath
  import Fs

  /** A context; `values` is None for one made from a URL (Go's nil map). */
  datatype Ctx = Ctx(
    scheme: string, host: string, owner: string, repo: string, path: string,
    gitref: string, digest: string, values: Option<map<string, Value>>)

  function FromURL(urlString: string, lib: Libraries): (r: Result<Ctx, Error>)
    ensures r.Ok? <==> Parse(urlString, lib).Ok?
    ensures r.Err? ==> r.error == Parse(urlString, lib).error
    ensures r.Ok? ==> var loc := Parse(urlString, lib).value;
      r.value == Ctx(loc.scheme, loc.host, loc.owner, loc.repo, loc.path, loc.gitref, "", None)
  {
    var loc :- Parse(urlString, lib);
    Ok(Ctx(loc.scheme, loc.host, loc.owner, loc.repo, loc.path, loc.gitref, "", None))
  }

  /** A rig file's `values` map, or an empty one. */
  function FileValues(file: map<string, Value>): map<string, Value> {
    MapAt(file, "values").GetOr(map[])
  }

  /**
   * A context from a rig file, as written: with a string `url` its location, gitref
   * included, comes from that URL, and the file's own `gitref` is never read; otherwise it is
   * the local `path`.
   */
  function FromFile(filePath: string, m: Machine, lib: Libraries): Result<Ctx, Error> {
    var file :- Fs.UnmarshalYaml(filePath, m, lib);
    var template :- Section(filePath, file);
    var digest := StringAt(template, "digest").GetOr("");
    var values := FileValues(file);
    match StringAt(template, "url")
    case Some(u) =>
      var ctx :- FromURL(u, lib);
      Ok(ctx.(digest := digest, values := Some(values)))
    case None =>
      Ok(Ctx("", "", "", "", StringAt(template, "path").GetOr(""), "", "", Some(values)))
  }

  /**
   * The corrected reader: as `FromFile`, except that a non-empty `gitref` in the file pins
   * the remote template to that revision, as `rig install` writes it.
   */
  function FromFilePinned(filePath: string, m: Machine, lib: Libraries): Result<Ctx, Error> {
    var file :- Fs.UnmarshalYaml(filePath, m, lib);
    var template :- Section(filePath, file);
    var digest := StringAt(template, "digest").GetOr("");
    var pinned := StringAt(template, "gitref").GetOr("");
    var values := FileValues(file);
    match StringAt(template, "url")
    case Some(u) =>
      var ctx :- FromURL(u, lib);
      Ok(ctx.(gitref := if pinned != "" then pinned else ctx.gitref, digest := digest, values := Some(values)))
    case None =>
      Ok(Ctx("", "", "", "", StringAt(template, "path").GetOr(""), "", "", Some(values)))
  }

  /** How the rig file readers decide, once the file has been read. */
  lemma FromFileOutcome(filePath: string, m: Machine, lib: Libraries, file: map<string, Value>)
    requires Fs.UnmarshalYaml(filePath, m, lib) == Ok(file)
    ensures Section(filePath, file).Err? ==>
      FromFile(filePath, m, lib) == Section(filePath, file).PropagateFailure()
      && FromFilePinned(filePath, m, lib) == FromFile(filePath, m, lib)
    ensures Section(filePath, file).Ok? && StringAt(Section(filePath, file).value, "url").None? ==>
      var t := Section(filePath, file).value;
      FromFile(filePath, m, lib) == Ok(Ctx("", "", "", "", StringAt(t, "path").GetOr(""), "", "", Some(FileValues(file))))
      && FromFilePinned(filePath, m, lib) == FromFile(filePath, m, lib)
    ensures Section(filePath, file).Ok? && StringAt(Section(filePath, file).value, "url").Some? ==>
      var t := Section(filePath, file).value;
      var c := FromURL(StringAt(t, "url").value, lib);
      (c.Err? ==> FromFile(filePath, m, lib) == Err(c.error) && FromFilePinned(filePath, m, lib) == Err(c.error))
      && (c.Ok? ==>
            FromFile(filePath, m, lib) ==
            Ok(c.value.(digest := StringAt(t, "digest").GetOr(""), values := Some(FileValues(file)))))
  {
  }

  /** The corrected reader keeps a pinned gitref, and falls back to the URL's otherwise. */
  lemma FromFilePinnedGitref(filePath: string, m: Machine, lib: Libraries, file: map<string, Value>)
    requires Fs.UnmarshalYaml(filePath, m, lib) == Ok(file)
    requires FromFilePinned(filePath, m, lib).Ok? && FromFilePinned(filePath, m, lib).value.scheme != ""
    ensures var t := Section(filePath, file).value;
      var pinned := StringAt(t, "gitref").GetOr("");
      var c := FromFile(filePath, m, lib);
      c.Ok? && FromFilePinned(filePath, m, lib) == Ok(c.value.(gitref := if pinned != "" then pinned else c.value.gitref))
  {
  }

  /**
   * The two readers fail together and agree on everything but the gitref; on a local rig
   * file they agree outright.
   */
  lemma FromFileReadersDifferInGitref(filePath: string, m: Machine, lib: Libraries)
    ensures FromFilePinned(filePath, m, lib).Ok? <==> FromFile(filePath, m, lib).Ok?
    ensures FromFile(filePath, m, lib).Err? ==> FromFilePinned(filePath, m, lib) == FromFile(filePath, m, lib)
    ensures FromFile(filePath, m, lib).Ok? ==>
      FromFilePinned(filePath, m, lib).value
      == FromFile(filePath, m, lib).value.(gitref := FromFilePinned(filePath, m, lib).value.gitref)
    ensures FromFile(filePath, m, lib).Ok? && FromFile(filePath, m, lib).value.scheme == "" ==>
      FromFilePinned(filePath, m, lib) == FromFile(filePath, m, lib)
  {
    match Fs.UnmarshalYaml(filePath, m, lib)
    case Err(_) =>
    case Ok(file) =>
      FromFileOutcome(filePath, m, lib, file);
  }

  /**
   * What `rig install` writes (the URL without a fragment and `gitref: v1`) is built from
   * `master` when read as written, and from `v1` when corrected.
   */
  lemma FromFileIgnoresGitref(filePath: string, m: Machine, lib: Libraries, u: string)
    requires lib.parseUrl(u) == Ok(Url("https", "github.com", "/o/r", ""))
    requires Fs.UnmarshalYaml(filePath, m, lib) ==
      Ok(map["template" := Object(map["url" := Str(u), "gitref" := Str("v1")])])
    ensures FromFile(filePath, m, lib).Ok? && FromFile(filePath, m, lib).value.gitref == "master"
    ensures FromFilePinned(filePath, m, lib).Ok? && FromFilePinned(filePath, m, lib).value.gitref == "v1"
  {
    var t := map["url" := Str(u), "gitref" := Str("v1")];
    var file := map["template" := Object(t)];
    assert MapAt(file, "template") == Some(t);
    assert StringAt(t, "url") == Some(u);
    assert StringAt(t, "gitref") == Some("v1");
    assert Section(filePath, file) == Ok(t);
    ParseOutcome(u, lib, Url("https", "github.com", "/o/r", ""));
    ParseOwnerRepo(u, lib);
  }

  lemma ParseOwnerRepo(u: string, lib: Libraries)
    requires lib.parseUrl(u) == Ok(Url("https", "github.com", "/o/r", ""))
    ensures Parse(u, lib) == Ok(Location("https", "github.com", "o", "r", "", "master"))
  {
    SplitOwnerRepo();
  }

  lemma SplitOwnerRepo()
    ensures Split("/o/r", '/') == ["", "o", "r"]
  {
    SplitWithoutSeparator("o", '/');
    SplitWithoutSeparator("r", '/');
    SplitAround("o", "r", '/');
    assert "o/r" == "o" + ['/'] + "r";
    GoPath.SplitAfterSlash("o/r");
    assert "/o/r" == "/" + "o/r";
  }

  function URL(c: Ctx): (r: Result<string, Error>)
    ensures r.Err? <==> c.scheme == ""
    ensures r.Err? ==> r.error == NoUrl
  {
    if c.scheme == "" then Err(NoUrl)
    else
      var url := c.scheme + "://" + c.host + "/" + c.owner + "/" + c.repo;
      Ok(if c.path != "" then url + "/" + c.path else url)
  }

  function RepoURL(c: Ctx): (r: Result<string, Error>)
    ensures r.Err? <==> c.scheme == ""
    ensures r.Err? ==> r.error == NoUrl
  {
    if c.scheme == "" then Err(NoUrl)
    else Ok(c.scheme + "://" + c.host + "/" + c.owner + "/" + c.repo)
  }

  /** The repository URL is the template URL without its sub-path, whatever that path is. */
  lemma URLExtendsRepoURL(c: Ctx, p: string)
    requires c.scheme != ""
    ensures RepoURL(c) == RepoURL(c.(path := p))
    ensures URL(c) == Ok(if c.path != "" then RepoURL(c).value + "/" + c.path else RepoURL(c).value)
  {
  }

  /**
   * A URL whose path starts with "/" and does not end with "/" comes back from its context
   * as `scheme://host` followed by that path: nothing but the fragment is lost.
   */
  lemma URLRoundTrip(urlString: string, lib: Libraries, u: Url)
    requires lib.parseUrl(urlString) == Ok(u) && FromURL(urlString, lib).Ok?
    requires u.path[0] == '/' && u.path[|u.path| - 1] != '/'
    ensures URL(FromURL(urlString, lib).value) == Ok(u.scheme + "://" + u.host + u.path)
  {
    var c := FromURL(urlString, lib).value;
    ParseOutcome(urlString, lib, u);
    AbsolutePathRejoins(u.path);
    var segs := Split(u.path, '/');
    assert c.scheme == u.scheme && c.host == u.host;
    assert c.owner == segs[1] && c.repo == segs[2] && c.path == JoinSep(segs[3..], "/");
    var repoUrl := c.scheme + "://" + c.host + "/" + c.owner + "/" + c.repo;
    var tail := if c.path != "" then "/" + c.path else "";
    assert u.path == "/" + c.owner + "/" + c.repo + tail;
    if c.path != "" {
      assert URL(c) == Ok(repoUrl + "/" + c.path);
      assert repoUrl + "/" + c.path == repoUrl + tail;
    } else {
      assert repoUrl + tail == repoUrl;
    }
    UrlShape(c.scheme, c.host, c.owner, c.repo, tail);
  }

  lemma UrlShape(scheme: string, host: string, owner: string, repo: string, tail: string)
    ensures scheme + "://" + host + "/" + owner + "/" + repo + tail
         == scheme + "://" + host + ("/" + owner + "/" + repo + tail)
  {
  }

  /** An absolute path not ending in "/" is "/", owner, "/", repository and the "/"-led sub-path, if any. */
  lemma AbsolutePathRejoins(path: string)
    requires path != [] && path[0] == '/' && path[|path| - 1] != '/' && |Split(path, '/')| >= 3
    ensures var segs := Split(path, '/');
      var sub := JoinSep(segs[3..], "/");
      path == "/" + segs[1] + "/" + segs[2] + (if sub != "" then "/" + sub else "")
  {
    var segs := Split(path, '/');
    JoinSplit(path, '/');
    assert path == "/" + path[1..];
    GoPath.SplitAfterSlash(path[1..]);
    assert segs[..3] == ["", segs[1], segs[2]];
    RootedHead(segs[1], segs[2]);
    if |segs| > 3 {
      assert segs == segs[..3] + segs[3..];
      JoinSepAppend(segs[..3], segs[3..], "/");
      SubPathNonEmpty(path);
    } else {
      assert segs == segs[..3];
      assert segs[3..] == [];
    }
  }

  lemma RootedHead(owner: string, repo: string)
    ensures JoinSep(["", owner, repo], "/") == "/" + owner + "/" + repo
  {
    assert ["", owner, repo][1..] == [owner, repo];
    assert [owner, repo][1..] == [repo];
    assert JoinSep([owner, repo], "/") == owner + "/" + repo;
  }

  lemma SubPathNonEmpty(path: string)
    requires path != [] && path[|path| - 1] != '/' && |Split(path, '/')| > 3
    ensures JoinSep(Split(path, '/')[3..], "/") != ""
  {
    var segs := Split(path, '/');
    SplitLastNonEmpty(path, '/');
    assert segs[3..][|segs[3..]| - 1] == segs[|segs| - 1];
    JoinSepLastNonEmpty(segs[3..], "/");
  }

  /** The rig file's values, or an empty map for a context without any. */
  function Values(c: Ctx): (r: map<string, Value>)
    ensures c.values.Some? ==> r == c.values.value
    ensures c.values.None? ==> r == map[]
  {
    c.values.GetOr(map[])
  }

  /** `<home>/.rig/<host>/<owner>`. */
  function OwnerDir(c: Ctx, m: Machine): (r: Result<string, Error>)
    ensures c.scheme == "" ==> r == Err(NoOwnerDir)
    ensures c.scheme != "" && m.home.Err? ==> r == Err(Io(m.home.error))
  {
    if c.scheme == "" then Err(NoOwnerDir)
    else
      var home :- Lift(m.home);
      Ok(GoPath.Join([GoPath.Join([home, ".rig"]), c.host, c.owner]))
  }

  /** `<owner dir>/<repo>`. */
  function RepoDir(c: Ctx, m: Machine): (r: Result<string, Error>)
    ensures c.scheme == "" ==> r == Err(NoRepoDir)
    ensures c.scheme != "" && m.home.Err? ==> r == Err(Io(m.home.error))
  {
    if c.scheme == "" then Err(NoRepoDir)
    else
      var ownerDir :- OwnerDir(c, m);
      Ok(GoPath.Join([ownerDir, c.repo]))
  }

  /**
   * With an absolute home directory made of plain names, and a plain host and owner, the
   * owner's cache directory is `<home>/.rig/<host>/<owner>`.
   */
  lemma OwnerDirUnderHome(c: Ctx, m: Machine, hs: seq<string>)
    requires c.scheme != ""
    requires |hs| >= 1 && forall i :: 0 <= i < |hs| ==> GoPath.SimpleName(hs[i])
    requires m.home == Ok(GoPath.Rooted(hs))
    requires GoPath.SimpleName(c.host) && GoPath.SimpleName(c.owner)
    ensures OwnerDir(c, m) == Ok(GoPath.Rooted(hs + [".rig", c.host, c.owner]))
    ensures OwnerDir(c, m) == Ok(m.home.value + "/.rig/" + c.host + "/" + c.owner)
  {
    var rig := hs + [".rig"];
    assert [m.home.value, ".rig"] == [GoPath.Rooted(hs)] + [".rig"];
    GoPath.JoinUnder(hs, [".rig"]);
    assert forall i :: 0 <= i < |rig| ==> GoPath.SimpleName(rig[i]);
    assert [GoPath.Rooted(rig), c.host, c.owner] == [GoPath.Rooted(rig)] + [c.host, c.owner];
    GoPath.JoinUnder(rig, [c.host, c.owner]);
    assert rig + [c.host, c.owner] == hs + [".rig", c.host, c.owner];
    CacheTail(hs, c.host, c.owner);
  }

  lemma CacheTail(hs: seq<string>, host: string, owner: string)
    requires |hs| >= 1
    ensures GoPath.Rooted(hs + [".rig", host, owner]) == GoPath.Rooted(hs) + "/.rig/" + host + "/" + owner
  {
    GoPath.RootedAppend(hs, [".rig", host, owner]);
    assert [".rig", host, owner][1..] == [host, owner];
    assert [host, owner][1..] == [owner];
    assert JoinSep([host, owner], "/") == host + "/" + owner;
    var home, tail := GoPath.Rooted(hs), ".rig" + "/" + (host + "/" + owner);
    assert JoinSep([".rig", host, owner], "/") == tail;
    var x := "/.rig/" + host + "/" + owner;
    assert "/" + tail == x;
    assert home + "/" + tail == home + x;
    assert home + x == home + "/.rig/" + host + "/" + owner;
  }

  /** Under the same conditions, with a plain repository name, the repository's cache is `<owner dir>/<repo>`. */
  lemma RepoDirUnderOwnerDir(c: Ctx, m: Machine, hs: seq<string>)
    requires c.scheme != ""
    requires |hs| >= 1 && forall i :: 0 <= i < |hs| ==> GoPath.SimpleName(hs[i])
    requires m.home == Ok(GoPath.Rooted(hs))
    requires GoPath.SimpleName(c.host) && GoPath.SimpleName(c.owner) && GoPath.SimpleName(c.repo)
    ensures RepoDir(c, m) == Ok(OwnerDir(c, m).value + "/" + c.repo)
  {
    OwnerDirUnderHome(c, m, hs);
    var owner := hs + [".rig", c.host, c.owner];
    assert forall i :: 0 <= i < |owner| ==> GoPath.SimpleName(owner[i]);
    assert [GoPath.Rooted(owner), c.repo] == [GoPath.Rooted(owner)] + [c.repo];
    GoPath.JoinUnder(owner, [c.repo]);
    GoPath.RootedAppend(owner, [c.repo]);
  }
}
