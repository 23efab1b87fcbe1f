/**
 * pkg/template: the older template reader and builder that pkg/context and pkg/build
 * replaced. It parses references with the same grammar, reads rig files with its own YAML
 * reader, and merges the overrides into the file it read.
 */
module Template {
  import opened Wrappers
  import opened Values
  import opened Errors
  import opened Externals
  import opened GoStrings
  import opened Reference
  import GoPath
  import Engine
  import Fs
  import Overrides
  import Context
  import Build

  /** A template is a location: `scheme`, `host`, `owner`, `repo`, `path` and `gitref`. */
  type Tmpl = Location

  /**
   * `NewFromURL`. Its Go body performs the same checks, in the same order and with the same
   * messages, as `context.FromURL`; that reading of the two functions is what this shared
   * definition claims, and it is not proved.
   */
  function NewFromURL(uri: string, lib: Libraries): Result<Tmpl, Error> {
    Parse(uri, lib)
  }

  /**
   * With the shared definition, the template parser agrees field by field with the context
   * a URL gives. This holds by construction; it records what the two readers share.
   */
  lemma NewFromURLAgrees(uri: string, lib: Libraries)
    ensures NewFromURL(uri, lib).Ok? <==> Context.FromURL(uri, lib).Ok?
    ensures NewFromURL(uri, lib).Err? ==> NewFromURL(uri, lib).error == Context.FromURL(uri, lib).error
    ensures NewFromURL(uri, lib).Ok? ==>
      var t, c := NewFromURL(uri, lib).value, Context.FromURL(uri, lib).value;
      t.scheme == c.scheme && t.host == c.host && t.owner == c.owner && t.repo == c.repo
      && t.path == c.path && t.gitref == c.gitref
  {
  }

  /** `NewFromPath`: a local template; only its path is set. */
  function NewFromPath(path: string): (r: Tmpl)
    ensures r.path == path
    ensures r.scheme == "" && r.host == "" && r.owner == "" && r.repo == "" && r.gitref == ""
  {
    Location("", "", "", "", path, "")
  }

  /**
   * `readYaml`: the file's bytes with non-ASCII characters removed, executed as a template
   * with no data (a missing key prints `<no value>` and is left in), parsed as YAML.
   */
  function ReadYaml(path: string, m: Machine, lib: Libraries): (r: Result<map<string, Value>, Error>)
    ensures m.readFile(path).Err? ==> r == Err(Io(m.readFile(path).error))
    ensures m.readFile(path).Ok? ==>
      var run := lib.execute(LegacyLenient, Engine.StripNonAscii(m.readFile(path).value), Null);
      r == if run.Err? then Err(RenderFailed(run.error)) else Lift(lib.parseYaml(run.value))
  {
    var content :- Lift(m.readFile(path));
    match lib.execute(LegacyLenient, Engine.StripNonAscii(content), Null)
    case Err(reason) => Err(RenderFailed(reason))
    case Ok(out) => Lift(lib.parseYaml(out))
  }

  /** Only the ASCII characters of a rig file matter to the reader. */
  lemma ReadYamlSeesOnlyAscii(path: string, m: Machine, lib: Libraries, content: string)
    requires m.readFile(path) == Ok(content)
    ensures ReadYaml(path, m, lib)
         == ReadYaml(path, m.(readFile := p => if p == path then Ok(Engine.StripNonAscii(content)) else m.readFile(p)), lib)
  {
    Engine.StripNonAsciiIdempotent(content);
  }

  /**
   * `NewFromFile`: a non-empty `path` gives a local template; otherwise the `url` and the
   * `gitref` are parsed together as `url#gitref`.
   */
  function NewFromFile(filePath: string, m: Machine, lib: Libraries): Result<Tmpl, Error> {
    var file :- ReadYaml(filePath, m, lib);
    var template :- Section(filePath, file);
    var templatePath := StringAt(template, "path").GetOr("");
    if templatePath != "" then Ok(NewFromPath(templatePath))
    else NewFromURL(StringAt(template, "url").GetOr("") + "#" + StringAt(template, "gitref").GetOr(""), lib)
  }

  /**
   * Which rig files are refused, and that a non-empty path wins over any URL: the same
   * errors, in the same order, as the context reader.
   */
  lemma NewFromFileOutcome(filePath: string, m: Machine, lib: Libraries, file: map<string, Value>)
    requires ReadYaml(filePath, m, lib) == Ok(file)
    ensures MapAt(file, "template").None? ==> NewFromFile(filePath, m, lib) == Err(TemplateUnparsable(filePath))
    ensures MapAt(file, "template").Some? && !Located(MapAt(file, "template").value) ==>
      NewFromFile(filePath, m, lib) == Err(NoPathOrUrlAndGitref(filePath))
    ensures MapAt(file, "template").Some? && StringAt(MapAt(file, "template").value, "path").GetOr("") != "" ==>
      NewFromFile(filePath, m, lib) == Ok(NewFromPath(StringAt(MapAt(file, "template").value, "path").value))
  {
  }

  /**
   * With no path, the file's `gitref` becomes the revision: whenever the URL parser reads
   * `url#gitref` with that gitref as its fragment, the template is pinned to it. This is
   * the behaviour the newer context reader lost.
   */
  lemma NewFromFilePinsGitref(filePath: string, m: Machine, lib: Libraries, file: map<string, Value>, u: Url)
    requires ReadYaml(filePath, m, lib) == Ok(file)
    requires MapAt(file, "template").Some?
    requires var t := MapAt(file, "template").value;
      StringAt(t, "path").GetOr("") == "" && StringAt(t, "gitref").GetOr("") != ""
      && lib.parseUrl(StringAt(t, "url").GetOr("") + "#" + StringAt(t, "gitref").value) == Ok(u)
      && u.fragment == StringAt(t, "gitref").value
    ensures NewFromFile(filePath, m, lib).Ok? ==>
      NewFromFile(filePath, m, lib).value.gitref == StringAt(MapAt(file, "template").value, "gitref").value
  {
  }

  /** `ownerDir`: `<home>/.rig/<host>/<owner>`; unlike the context's, it does not check the scheme. */
  function OwnerDir(t: Tmpl, m: Machine): (r: Result<string, Error>)
    ensures r.Ok? <==> m.home.Ok?
    ensures m.home.Err? ==> r == Err(Io(m.home.error))
  {
    var home :- Lift(m.home);
    Ok(GoPath.Join([GoPath.Join([home, ".rig"]), t.host, t.owner]))
  }

  /** `repoDir`: `<owner dir>/<repo>`. */
  function RepoDir(t: Tmpl, m: Machine): (r: Result<string, Error>)
    ensures r.Ok? <==> m.home.Ok?
    ensures m.home.Err? ==> r == Err(Io(m.home.error))
  {
    var ownerDir :- OwnerDir(t, m);
    Ok(GoPath.Join([ownerDir, t.repo]))
  }

  /** The context with a template's location, as the newer reader would build it. */
  function AsContext(t: Tmpl): Context.Ctx {
    Context.Ctx(t.scheme, t.host, t.owner, t.repo, t.path, t.gitref, "", None)
  }

  /** For a remote template the cache directories are the context's; a local one still gets some. */
  lemma CacheDirsAgree(t: Tmpl, m: Machine)
    ensures t.scheme != "" ==>
      OwnerDir(t, m) == Context.OwnerDir(AsContext(t), m) && RepoDir(t, m) == Context.RepoDir(AsContext(t), m)
    ensures t.scheme == "" && m.home.Ok? ==>
      OwnerDir(t, m).Ok? && RepoDir(t, m).Ok? && Context.OwnerDir(AsContext(t), m) == Err(NoOwnerDir)
  {
  }

  /** `gitSCPURI`. */
  function GitSCPURI(t: Tmpl): string {
    "git@" + t.host + ":" + t.owner + "/" + t.repo
  }

  /** `gitURL`. */
  function GitURL(t: Tmpl): string {
    t.scheme + "://" + t.host + "/" + t.owner + "/" + t.repo
  }

  /** `templateURL`. */
  function TemplateURL(t: Tmpl): string {
    var url := t.scheme + "://" + t.host + "/" + t.owner + "/" + t.repo;
    if t.path != "" then url + "/" + t.path else url
  }

  /**
   * The SCP form and the URL form name the same `owner/repo` on the same host; the template
   * URL extends the git URL by `/path` exactly when there is a path; and for a remote
   * template both agree with the context's URLs.
   */
  lemma UrlForms(t: Tmpl)
    ensures var ownerRepo := t.owner + "/" + t.repo;
      GitSCPURI(t) == "git@" + t.host + ":" + ownerRepo
      && GitURL(t) == t.scheme + "://" + t.host + "/" + ownerRepo
    ensures TemplateURL(t) == if t.path != "" then GitURL(t) + "/" + t.path else GitURL(t)
    ensures t.scheme != "" ==>
      Context.RepoURL(AsContext(t)) == Ok(GitURL(t)) && Context.URL(AsContext(t)) == Ok(TemplateURL(t))
  {
    var ownerRepo := t.owner + "/" + t.repo;
    assert GitSCPURI(t) == "git@" + t.host + ":" + ownerRepo;
    assert GitURL(t) == t.scheme + "://" + t.host + "/" + ownerRepo;
  }

  // ---------------------------------------------------------------------------------------
  // `mergeValues`: the overrides are parsed into the file's own `values` map when it has one.
  // Go maps are references, so the updates then show in the file that is returned; into a
  // fresh map otherwise, which nothing returns.

  /** The merge as written: the overrides reach the file only through an existing `values` map. */
  function MergedFile(file: map<string, Value>, values: seq<string>, stringValues: seq<string>, lib: Libraries)
    : Result<map<string, Value>, Error>
  {
    var base := MapAt(file, "values");
    var vals :- Overrides.ApplyAll(base.GetOr(map[]), values, stringValues, lib);
    Ok(if base.Some? then file["values" := Object(vals)] else file)
  }

  /** The merge as intended: the overridden values always end up under `values`. */
  function MergedFileFixed(file: map<string, Value>, values: seq<string>, stringValues: seq<string>,
                           lib: Libraries): Result<map<string, Value>, Error>
  {
    var vals :- Overrides.ApplyAll(MapAt(file, "values").GetOr(map[]), values, stringValues, lib);
    Ok(file["values" := Object(vals)])
  }

  /**
   * Both merges fail exactly when an override fails, and agree whenever the file has a
   * `values` map; without one, the merge as written returns the file untouched.
   */
  lemma MergeAgreement(file: map<string, Value>, values: seq<string>, stringValues: seq<string>, lib: Libraries)
    ensures MergedFile(file, values, stringValues, lib).Err? <==>
      Overrides.ApplyAll(MapAt(file, "values").GetOr(map[]), values, stringValues, lib).Err?
    ensures MergedFile(file, values, stringValues, lib).Err? ==>
      MergedFile(file, values, stringValues, lib) == MergedFileFixed(file, values, stringValues, lib)
    ensures MapAt(file, "values").Some? ==>
      MergedFile(file, values, stringValues, lib) == MergedFileFixed(file, values, stringValues, lib)
    ensures MapAt(file, "values").None? && MergedFile(file, values, stringValues, lib).Ok? ==>
      MergedFile(file, values, stringValues, lib) == Ok(file)
  {
  }

  /**
   * The corrected merge keeps every other entry of the file, and the last assignment of
   * the last `--string-value` decides the value at its key.
   */
  lemma MergedFixedKeepsOverrides(file: map<string, Value>, values: seq<string>, stringValues: seq<string>,
                                  lib: Libraries, a: Assignment)
    requires MergedFileFixed(file, values, stringValues, lib).Ok?
    requires stringValues != [] && lib.parseSet(stringValues[|stringValues| - 1]).Ok?
    requires var last := lib.parseSet(stringValues[|stringValues| - 1]).value;
      last != [] && a == last[|last| - 1]
    ensures var r := MergedFileFixed(file, values, stringValues, lib).value;
      r.Keys == file.Keys + {"values"}
      && (forall k :: k in file && k != "values" ==> r[k] == file[k])
      && Lookup(r, ["values"] + a.key) == Some(Str(a.raw))
  {
    var vals := Overrides.ApplyAll(MapAt(file, "values").GetOr(map[]), values, stringValues, lib).value;
    Overrides.LastStringValueWins(MapAt(file, "values").GetOr(map[]), values, stringValues, lib, a);
    var r := file["values" := Object(vals)];
    assert (["values"] + a.key)[1..] == a.key;
    assert Lookup(r, ["values"] + a.key) == Lookup(vals, a.key);
  }

  /**
   * A rig file with no `values` map and a `--value a=1` override: the merge as written
   * returns the file without the override; the corrected one has `values.a`.
   */
  lemma MergeDropsOverrides(file: map<string, Value>, lib: Libraries)
    requires "values" !in file
    requires lib.parseSet("a=1") == Ok([Assignment(["a"], "1")])
    ensures MergedFile(file, ["a=1"], [], lib) == Ok(file)
    ensures MergedFileFixed(file, ["a=1"], [], lib).Ok?
    ensures Lookup(MergedFileFixed(file, ["a=1"], [], lib).value, ["values", "a"]) == Some(lib.typedValue("1"))
  {
    var vals := map["a" := lib.typedValue("1")];
    assert ["a=1"][..0] == [];
    assert Overrides.Assign(map[], [Assignment(["a"], "1")], ValueFlag, lib) == vals by {
      assert [Assignment(["a"], "1")][..0] == [];
    }
    assert Overrides.ApplyAll(map[], ["a=1"], [], lib) == Ok(vals);
    var r := file["values" := Object(vals)];
    assert MergedFileFixed(file, ["a=1"], [], lib) == Ok(r);
    assert ["values", "a"][1..] == ["a"];
  }

  /** `mergeValues` as written: the rig file with the overrides merged, read afresh from disk. */
  function MergedValues(filePath: string, values: seq<string>, stringValues: seq<string>, m: Machine,
                        lib: Libraries): Result<map<string, Value>, Error>
  {
    var file :- ReadYaml(filePath, m, lib);
    MergedFile(file, values, stringValues, lib)
  }

  /** The corrected `mergeValues`. */
  function MergedValuesFixed(filePath: string, values: seq<string>, stringValues: seq<string>, m: Machine,
                             lib: Libraries): Result<map<string, Value>, Error>
  {
    var file :- ReadYaml(filePath, m, lib);
    MergedFileFixed(file, values, stringValues, lib)
  }

  /**
   * `mergeValues` as written. `shared` records whether `vals` is the file's own map, so
   * that the parser's updates to it are updates to the file.
   */
  method MergeValues(filePath: string, values: seq<string>, stringValues: seq<string>, m: Machine, lib: Libraries)
    returns (r: Result<map<string, Value>, Error>)
    ensures r == MergedValues(filePath, values, stringValues, m, lib)
  {
    var file :- ReadYaml(filePath, m, lib);
    var vals: map<string, Value>;
    var shared: bool;
    match MapAt(file, "values") {
      case Some(v) => vals, shared := v, true;
      case None => vals, shared := map[], false;
    }
    vals :- Overrides.ParseAllInto(vals, values, ValueFlag, lib);
    vals :- Overrides.ParseAllInto(vals, stringValues, StringValueFlag, lib);
    r := Ok(if shared then file["values" := Object(vals)] else file);
  }

  /** The corrected `mergeValues`: the merged map is stored in the file whether or not it was there. */
  method MergeValuesFixed(filePath: string, values: seq<string>, stringValues: seq<string>, m: Machine,
                          lib: Libraries) returns (r: Result<map<string, Value>, Error>)
    ensures r == MergedValuesFixed(filePath, values, stringValues, m, lib)
  {
    var file :- ReadYaml(filePath, m, lib);
    var vals := MapAt(file, "values").GetOr(map[]);
    vals :- Overrides.ParseAllInto(vals, values, ValueFlag, lib);
    vals :- Overrides.ParseAllInto(vals, stringValues, StringValueFlag, lib);
    r := Ok(file["values" := Object(vals)]);
  }

  // ---------------------------------------------------------------------------------------
  // `Build`.

  /** One template file: read, stripped of non-ASCII characters, executed with the merged file. */
  function RenderFile(path: string, vals: map<string, Value>, m: Machine, lib: Libraries): Result<string, Error> {
    var content :- Lift(m.readFile(path));
    match lib.execute(LegacyStrict, Engine.StripNonAscii(content), Object(vals))
    case Err(reason) => Err(RenderFailed(reason))
    case Ok(out) => Ok(out)
  }

  function Renderer(vals: map<string, Value>, m: Machine, lib: Libraries): string -> Result<string, Error> {
    path => RenderFile(path, vals, m, lib)
  }

  /** The files to build: the rig file's local path, or the checked-out remote templates. */
  function FilePaths(t: Tmpl, filePath: string, template: map<string, Value>, m: Machine, lib: Libraries)
    : Result<seq<string>, Error>
  {
    var templatePath := StringAt(template, "path").GetOr("");
    if templatePath != "" then
      var wd :- Lift(m.cwd);
      Lift(m.glob(GoPath.Join([wd, templatePath, "*"])))
    else
      var repoDir :- RepoDir(t, m);
      var tmpDir :- Lift(m.tempDir);
      var checkedOut :- Ran(m.checkout(repoDir, tmpDir, t.gitref, t.path));
      var digest := StringAt(template, "digest").GetOr("");
      var newDigest := Fs.DigestOf(m.walk(GoPath.Join([tmpDir, t.path, "templates"])), m.readFile, lib.sha256);
      if digest != "" && digest != newDigest then Err(DigestMismatch(newDigest))
      else Lift(m.glob(GoPath.Join([tmpDir, t.path, "templates", "*"])))
  }

  /**
   * What `Build` does once the rig file and the merged values are in hand: the rendered
   * files holding a non-whitespace character, in file order, joined with the separator,
   * and the empty lines removed.
   */
  function BuildWith(t: Tmpl, filePath: string, file: map<string, Value>, vals: map<string, Value>,
                     m: Machine, lib: Libraries): Result<string, Error>
  {
    match MapAt(file, "template")
    case None => Err(TemplateUnparsable(filePath))
    case Some(template) =>
      if StringAt(template, "path").GetOr("") == "" && StringAt(template, "url").GetOr("") == "" then
        Err(NoUrlOrPath(filePath))
      else
        var paths :- FilePaths(t, filePath, template, m, lib);
        var outs :- Build.RenderEach(paths, Renderer(vals, m, lib));
        Ok(lib.emptyLines(JoinSep(Build.Kept(outs), Build.Separator)))
  }

  /** `Build` as written: the templates are executed with what `mergeValues` returns. */
  function BuildOutput(t: Tmpl, filePath: string, values: seq<string>, stringValues: seq<string>,
                       m: Machine, lib: Libraries): Result<string, Error>
  {
    var file :- ReadYaml(filePath, m, lib);
    var vals :- MergedValues(filePath, values, stringValues, m, lib);
    BuildWith(t, filePath, file, vals, m, lib)
  }

  /** `Build` with the corrected merge. */
  function BuildOutputFixed(t: Tmpl, filePath: string, values: seq<string>, stringValues: seq<string>,
                            m: Machine, lib: Libraries): Result<string, Error>
  {
    var file :- ReadYaml(filePath, m, lib);
    var vals :- MergedValuesFixed(filePath, values, stringValues, m, lib);
    BuildWith(t, filePath, file, vals, m, lib)
  }

  /**
   * The two builds differ only through the merge: they fail together on an unreadable rig
   * file or a bad override, and agree whenever the rig file has a `values` map.
   */
  lemma BuildFixedAgreesWithValues(t: Tmpl, filePath: string, values: seq<string>, stringValues: seq<string>,
                                   m: Machine, lib: Libraries)
    ensures ReadYaml(filePath, m, lib).Err? ==>
      BuildOutput(t, filePath, values, stringValues, m, lib) == ReadYaml(filePath, m, lib).PropagateFailure()
      && BuildOutputFixed(t, filePath, values, stringValues, m, lib) == BuildOutput(t, filePath, values, stringValues, m, lib)
    ensures ReadYaml(filePath, m, lib).Ok? && MergedValues(filePath, values, stringValues, m, lib).Err? ==>
      BuildOutputFixed(t, filePath, values, stringValues, m, lib) == BuildOutput(t, filePath, values, stringValues, m, lib)
    ensures ReadYaml(filePath, m, lib).Ok? && MapAt(ReadYaml(filePath, m, lib).value, "values").Some? ==>
      BuildOutputFixed(t, filePath, values, stringValues, m, lib) == BuildOutput(t, filePath, values, stringValues, m, lib)
  {
    if ReadYaml(filePath, m, lib).Ok? {
      MergeAgreement(ReadYaml(filePath, m, lib).value, values, stringValues, lib);
    }
  }

  /** The files of a remote template, with the digest checked only when one is pinned. */
  method FindFiles(t: Tmpl, filePath: string, template: map<string, Value>, m: Machine, lib: Libraries)
    returns (r: Result<seq<string>, Error>)
    ensures r == FilePaths(t, filePath, template, m, lib)
  {
    var templatePath := StringAt(template, "path").GetOr("");
    if templatePath != "" {
      var wd :- Lift(m.cwd);
      return Lift(m.glob(GoPath.Join([wd, templatePath, "*"])));
    }
    var repoDir :- RepoDir(t, m);
    var tmpDir :- Lift(m.tempDir);
    var checkedOut :- Ran(m.checkout(repoDir, tmpDir, t.gitref, t.path));
    var digest := StringAt(template, "digest").GetOr("");
    if digest != "" {
      var newDigest := Fs.DirectoryDigest(GoPath.Join([tmpDir, t.path, "templates"]), m, lib);
      if digest != newDigest {
        return Err(DigestMismatch(newDigest));
      }
    }
    r := Lift(m.glob(GoPath.Join([tmpDir, t.path, "templates", "*"])));
  }

  /** `Build`: the render loop over the files found, then the join and the empty-line removal. */
  method BuildTemplate(t: Tmpl, filePath: string, values: seq<string>, stringValues: seq<string>,
                       m: Machine, lib: Libraries) returns (r: Result<string, Error>)
    ensures r == BuildOutput(t, filePath, values, stringValues, m, lib)
  {
    var file :- ReadYaml(filePath, m, lib);
    var vals :- MergeValues(filePath, values, stringValues, m, lib);
    if MapAt(file, "template").None? {
      return Err(TemplateUnparsable(filePath));
    }
    var template := MapAt(file, "template").value;
    if StringAt(template, "path").GetOr("") == "" && StringAt(template, "url").GetOr("") == "" {
      return Err(NoUrlOrPath(filePath));
    }
    var paths :- FindFiles(t, filePath, template, m, lib);
    ghost var render := Renderer(vals, m, lib);
    var strs: seq<string> := [];
    ghost var outs: seq<string> := [];
    var i := 0;
    while i < |paths|
      invariant 0 <= i <= |paths|
      invariant Build.RenderEach(paths[..i], render) == Ok(outs)
      invariant strs == Build.Kept(outs)
    {
      var str := RenderFile(paths[i], vals, m, lib);
      assert str == render(paths[i]);
      Build.RenderEachStep(paths, render, i, outs);
      if str.Err? {
        Build.RenderEachStops(paths, render, i + 1);
        return Err(str.error);
      }
      Build.KeptStep(outs, str.value);
      outs := outs + [str.value];
      if ContainsNonWhitespace(str.value) {
        strs := strs + [str.value];
      }
      i := i + 1;
    }
    assert paths[..i] == paths;
    r := Ok(lib.emptyLines(JoinSep(strs, Build.Separator)));
  }

  /** A rig file whose template names neither a path nor a URL is refused, whatever its gitref. */
  lemma BuildNeedsPathOrUrl(t: Tmpl, filePath: string, values: seq<string>, stringValues: seq<string>,
                            m: Machine, lib: Libraries, file: map<string, Value>)
    requires ReadYaml(filePath, m, lib) == Ok(file)
    requires MergedValues(filePath, values, stringValues, m, lib).Ok?
    requires MapAt(file, "template").Some?
    requires var tm := MapAt(file, "template").value;
      StringAt(tm, "path").GetOr("") == "" && StringAt(tm, "url").GetOr("") == ""
    ensures BuildOutput(t, filePath, values, stringValues, m, lib) == Err(NoUrlOrPath(filePath))
  {
  }

  /**
   * The digest of the checked-out templates is compared only when the rig file pins a
   * non-empty one, and a different digest fails the build naming the new digest.
   */
  lemma DigestCheckedOnlyWhenPinned(t: Tmpl, filePath: string, template: map<string, Value>, m: Machine,
                                    lib: Libraries)
    requires StringAt(template, "path").GetOr("") == ""
    requires RepoDir(t, m).Ok? && m.tempDir.Ok?
    requires m.checkout(RepoDir(t, m).value, m.tempDir.value, t.gitref, t.path).None?
    ensures var newDigest := Fs.DigestOf(m.walk(GoPath.Join([m.tempDir.value, t.path, "templates"])),
                                         m.readFile, lib.sha256);
      var digest := StringAt(template, "digest").GetOr("");
      FilePaths(t, filePath, template, m, lib) ==
        if digest != "" && digest != newDigest then Err(DigestMismatch(newDigest))
        else Lift(m.glob(GoPath.Join([m.tempDir.value, t.path, "templates", "*"])))
  {
  }

  /**
   * Once the files are found and all render, the output is the non-whitespace renderings
   * in order, joined with the separator, with empty lines removed; the first file that
   * fails aborts the build with its error.
   */
  lemma BuildJoinsInOrder(t: Tmpl, filePath: string, values: seq<string>, stringValues: seq<string>,
                          m: Machine, lib: Libraries, file: map<string, Value>, paths: seq<string>, k: nat)
    requires ReadYaml(filePath, m, lib) == Ok(file)
    requires MergedValues(filePath, values, stringValues, m, lib).Ok?
    requires MapAt(file, "template").Some?
    requires var tm := MapAt(file, "template").value;
      (StringAt(tm, "path").GetOr("") != "" || StringAt(tm, "url").GetOr("") != "")
      && FilePaths(t, filePath, tm, m, lib) == Ok(paths)
    requires k <= |paths|
    requires var vals := MergedValues(filePath, values, stringValues, m, lib).value;
      forall i :: 0 <= i < k ==> RenderFile(paths[i], vals, m, lib).Ok?
    ensures var vals := MergedValues(filePath, values, stringValues, m, lib).value;
      var outs := seq(k, i requires 0 <= i < k => RenderFile(paths[i], vals, m, lib).value);
      (k == |paths| ==>
         BuildOutput(t, filePath, values, stringValues, m, lib)
         == Ok(lib.emptyLines(JoinSep(Build.Kept(outs), Build.Separator))))
      && (k < |paths| && RenderFile(paths[k], vals, m, lib).Err? ==>
         BuildOutput(t, filePath, values, stringValues, m, lib) == Err(RenderFile(paths[k], vals, m, lib).error))
  {
    var vals := MergedValues(filePath, values, stringValues, m, lib).value;
    var render := Renderer(vals, m, lib);
    var prefix := paths[..k];
    assert forall i :: 0 <= i < k ==> render(prefix[i]).Ok? by {
      forall i | 0 <= i < k ensures render(prefix[i]).Ok? {
        assert prefix[i] == paths[i];
      }
    }
    Build.RenderEachSucceeds(prefix, render);
    Build.RenderEachOutputs(prefix, render);
    assert Build.RenderEach(prefix, render).value
        == seq(k, i requires 0 <= i < k => RenderFile(paths[i], vals, m, lib).value);
    if k == |paths| {
      assert prefix == paths;
    } else if RenderFile(paths[k], vals, m, lib).Err? {
      Build.RenderEachStep(paths, render, k, Build.RenderEach(prefix, render).value);
      Build.RenderEachStops(paths, render, k + 1);
    }
  }
}
