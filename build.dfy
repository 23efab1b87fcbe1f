/** pkg/build/build.go: render a local template directory, or the one a rig file points at. */
module Build {
  import opened Wrappers
  import opened Values
  import opened Errors
  import opened Externals
  import opened GoStrings
  import GoPath
  import Engine
  import Fs
  import Context
  import BuildValues

  /** What goes between two rendered documents. */
  const Separator: string := "\n---\n"

  /** One template file, rendered with the merged values and trimmed. */
  function StringOutput(str: string, valueMap: Option<map<string, Value>>, values: seq<string>,
                      stringValues: seq<string>, removeEmptyLines: bool, lib: Libraries): (r: Result<string, Error>)
    ensures r.Ok? ==> IsTrimmed(r.value)
  {
    var vals :- BuildValues.ValueMap(valueMap, values, stringValues, lib);
    var out :- Engine.Render(str, Object(vals), removeEmptyLines, lib);
    Ok(TrimSpace(out))
  }

  /** Go's `FromString`: merges the values afresh for each file, then renders and trims. */
  method FromString(str: string, valueMap: Option<map<string, Value>>, values: seq<string>,
                    stringValues: seq<string>, removeEmptyLines: bool, lib: Libraries) returns (r: Result<string, Error>)
    ensures r == StringOutput(str, valueMap, values, stringValues, removeEmptyLines, lib)
  {
    var vals :- BuildValues.CreateValueMap(valueMap, values, stringValues, lib);
    var out :- Engine.Render(str, Object(vals), removeEmptyLines, lib);
    r := Ok(TrimSpace(out));
  }

  /** The rendering `FromString` performs, as a function of the file's text. */
  function Renderer(valueMap: Option<map<string, Value>>, values: seq<string>, stringValues: seq<string>,
                    removeEmptyLines: bool, lib: Libraries): string -> Result<string, Error>
  {
    str => StringOutput(str, valueMap, values, stringValues, removeEmptyLines, lib)
  }

  /** Every file rendered, in order, stopping at the first that fails. */
  function RenderEach(files: seq<string>, render: string -> Result<string, Error>): Result<seq<string>, Error>
    decreases |files|
  {
    if files == [] then Ok([])
    else
      var init :- RenderEach(files[..|files| - 1], render);
      var str :- render(files[|files| - 1]);
      Ok(init + [str])
  }

  /** The outputs holding a non-whitespace character, in order. */
  function Kept(outs: seq<string>): seq<string>
    decreases |outs|
  {
    if outs == [] then []
    else Kept(outs[..|outs| - 1]) + (if ContainsNonWhitespace(outs[|outs| - 1]) then [outs[|outs| - 1]] else [])
  }

  /** The kept pieces joined with the separator, and trimmed. */
  function Assemble(files: seq<string>, valueMap: Option<map<string, Value>>, values: seq<string>,
                    stringValues: seq<string>, removeEmptyLines: bool, lib: Libraries): Result<string, Error>
  {
    var outs :- RenderEach(files, Renderer(valueMap, values, stringValues, removeEmptyLines, lib));
    Ok(TrimSpace(JoinSep(Kept(outs), Separator)))
  }

  /** One output per file, each the rendering of that file. */
  lemma {:induction false} RenderEachOutputs(files: seq<string>, render: string -> Result<string, Error>)
    requires RenderEach(files, render).Ok?
    ensures var outs := RenderEach(files, render).value;
      |outs| == |files| && forall i :: 0 <= i < |files| ==> render(files[i]) == Ok(outs[i])
    decreases |files|
  {
    if files != [] {
      var init := files[..|files| - 1];
      RenderEachOutputs(init, render);
      assert forall i :: 0 <= i < |init| ==> init[i] == files[i];
    }
  }

  /** Rendering every file succeeds exactly when each one does. */
  lemma {:induction false} RenderEachSucceeds(files: seq<string>, render: string -> Result<string, Error>)
    ensures RenderEach(files, render).Ok? <==> forall i :: 0 <= i < |files| ==> render(files[i]).Ok?
    decreases |files|
  {
    if files != [] {
      var init := files[..|files| - 1];
      RenderEachSucceeds(init, render);
      assert forall i :: 0 <= i < |init| ==> init[i] == files[i];
      if RenderEach(files, render).Ok? {
        RenderEachOutputs(files, render);
      }
    }
  }

  /** A failure in a prefix of the files is the failure of the whole build. */
  lemma {:induction false} RenderEachStops(files: seq<string>, render: string -> Result<string, Error>, k: nat)
    requires k <= |files| && RenderEach(files[..k], render).Err?
    ensures RenderEach(files, render) == RenderEach(files[..k], render)
    decreases |files| - k
  {
    if k < |files| {
      var init := files[..|files| - 1];
      assert init[..k] == files[..k];
      RenderEachStops(init, render, k);
    } else {
      assert files[..k] == files;
    }
  }

  /** The first file that fails to render aborts the build with its error. */
  lemma FirstFailureAborts(files: seq<string>, valueMap: Option<map<string, Value>>, values: seq<string>,
                           stringValues: seq<string>, removeEmptyLines: bool, lib: Libraries, k: nat)
    requires k < |files| && StringOutput(files[k], valueMap, values, stringValues, removeEmptyLines, lib).Err?
    requires forall i :: 0 <= i < k ==>
      StringOutput(files[i], valueMap, values, stringValues, removeEmptyLines, lib).Ok?
    ensures Assemble(files, valueMap, values, stringValues, removeEmptyLines, lib)
         == Err(StringOutput(files[k], valueMap, values, stringValues, removeEmptyLines, lib).error)
  {
    var render := Renderer(valueMap, values, stringValues, removeEmptyLines, lib);
    var prefix := files[..k];
    assert forall i :: 0 <= i < k ==> render(prefix[i]).Ok? by {
      forall i | 0 <= i < k ensures render(prefix[i]).Ok? {
        assert prefix[i] == files[i];
      }
    }
    RenderEachSucceeds(prefix, render);
    RenderEachStep(files, render, k, RenderEach(prefix, render).value);
    RenderEachStops(files, render, k + 1);
  }

  /** The non-empty strings of `xs`, in order. */
  function NonEmpty(xs: seq<string>): seq<string>
    decreases |xs|
  {
    if xs == [] then []
    else NonEmpty(xs[..|xs| - 1]) + (if xs[|xs| - 1] != "" then [xs[|xs| - 1]] else [])
  }

  /** Rendered files are already trimmed, so the whitespace filter keeps exactly the non-empty ones. */
  lemma {:induction false} KeptTrimmed(outs: seq<string>)
    requires forall i :: 0 <= i < |outs| ==> IsTrimmed(outs[i])
    ensures Kept(outs) == NonEmpty(outs)
    ensures forall i :: 0 <= i < |Kept(outs)| ==> Kept(outs)[i] != "" && IsTrimmed(Kept(outs)[i])
    decreases |outs|
  {
    if outs != [] {
      var init := outs[..|outs| - 1];
      assert forall i :: 0 <= i < |init| ==> init[i] == outs[i];
      KeptTrimmed(init);
      TrimmedHasNonWhitespace(outs[|outs| - 1]);
    }
  }

  /** A join of non-empty trimmed pieces is trimmed, so the final trim changes nothing. */
  lemma JoinedTrimmed(kept: seq<string>)
    requires forall i :: 0 <= i < |kept| ==> kept[i] != "" && IsTrimmed(kept[i])
    ensures IsTrimmed(JoinSep(kept, Separator))
  {
    if kept != [] {
      JoinSepEnds(kept, Separator);
    }
  }

  /**
   * A build whose files all render is the non-empty outputs joined with the separator, in
   * file order, with nothing left for the final trim to do; no such outputs give "".
   */
  lemma AssembleJoins(files: seq<string>, valueMap: Option<map<string, Value>>, values: seq<string>,
                      stringValues: seq<string>, removeEmptyLines: bool, lib: Libraries)
    requires forall i :: 0 <= i < |files| ==>
      StringOutput(files[i], valueMap, values, stringValues, removeEmptyLines, lib).Ok?
    ensures var outs := seq(|files|, i requires 0 <= i < |files| =>
      StringOutput(files[i], valueMap, values, stringValues, removeEmptyLines, lib).value);
      && Assemble(files, valueMap, values, stringValues, removeEmptyLines, lib) == Ok(JoinSep(NonEmpty(outs), Separator))
      && (NonEmpty(outs) == [] ==> Assemble(files, valueMap, values, stringValues, removeEmptyLines, lib) == Ok(""))
  {
    var render := Renderer(valueMap, values, stringValues, removeEmptyLines, lib);
    assert forall i :: 0 <= i < |files| ==> render(files[i]).Ok?;
    RenderEachSucceeds(files, render);
    var outs := RenderEach(files, render).value;
    RenderEachOutputs(files, render);
    assert forall i :: 0 <= i < |outs| ==> IsTrimmed(outs[i]) by {
      forall i | 0 <= i < |outs| ensures IsTrimmed(outs[i]) {
        assert render(files[i]) == Ok(outs[i]);
      }
    }
    assert outs == seq(|files|, i requires 0 <= i < |files| =>
      StringOutput(files[i], valueMap, values, stringValues, removeEmptyLines, lib).value);
    KeptTrimmed(outs);
    JoinedTrimmed(Kept(outs));
  }

  /** Two documents are joined with the separator; a file rendering to whitespace only is dropped. */
  lemma TwoDocuments(outs: seq<string>)
    requires |outs| == 2 && outs[0] == "A" && (outs[1] == "" || outs[1] == "B")
    ensures JoinSep(NonEmpty(outs), Separator) == if outs[1] == "" then "A" else "A\n---\nB"
  {
    assert outs[..1] == ["A"];
    assert NonEmpty(outs[..1]) == ["A"];
  }

  lemma RenderEachStep(files: seq<string>, render: string -> Result<string, Error>, i: nat, outs: seq<string>)
    requires i < |files| && RenderEach(files[..i], render) == Ok(outs)
    ensures RenderEach(files[..i + 1], render)
         == if render(files[i]).Err? then Err(render(files[i]).error) else Ok(outs + [render(files[i]).value])
  {
    assert files[..i + 1][..i] == files[..i];
  }

  lemma KeptStep(outs: seq<string>, x: string)
    ensures Kept(outs + [x]) == Kept(outs) + (if ContainsNonWhitespace(x) then [x] else [])
  {
    assert (outs + [x])[..|outs|] == outs;
  }

  lemma AssembleStops(files: seq<string>, valueMap: Option<map<string, Value>>, values: seq<string>,
                      stringValues: seq<string>, removeEmptyLines: bool, lib: Libraries, k: nat)
    requires k <= |files|
    requires RenderEach(files[..k], Renderer(valueMap, values, stringValues, removeEmptyLines, lib)).Err?
    ensures Assemble(files, valueMap, values, stringValues, removeEmptyLines, lib)
         == Err(RenderEach(files[..k], Renderer(valueMap, values, stringValues, removeEmptyLines, lib)).error)
  {
    RenderEachStops(files, Renderer(valueMap, values, stringValues, removeEmptyLines, lib), k);
  }

  /** The Go loop over the rendered files: filter, join with the separator, trim. */
  method RenderAll(files: seq<string>, valueMap: Option<map<string, Value>>, values: seq<string>,
                   stringValues: seq<string>, removeEmptyLines: bool, lib: Libraries)
    returns (r: Result<string, Error>)
    ensures r == Assemble(files, valueMap, values, stringValues, removeEmptyLines, lib)
  {
    ghost var render := Renderer(valueMap, values, stringValues, removeEmptyLines, lib);
    var rendered: seq<string> := [];
    ghost var outs: seq<string> := [];
    var i := 0;
    while i < |files|
      invariant 0 <= i <= |files|
      invariant RenderEach(files[..i], render) == Ok(outs)
      invariant rendered == Kept(outs)
    {
      var str := FromString(files[i], valueMap, values, stringValues, removeEmptyLines, lib);
      assert str == render(files[i]);
      RenderEachStep(files, render, i, outs);
      if str.Err? {
        AssembleStops(files, valueMap, values, stringValues, removeEmptyLines, lib, i + 1);
        return Err(str.error);
      }
      KeptStep(outs, str.value);
      outs := outs + [str.value];
      if ContainsNonWhitespace(str.value) {
        rendered := rendered + [str.value];
      }
      i := i + 1;
    }
    assert files[..i] == files;
    r := Ok(TrimSpace(JoinSep(rendered, Separator)));
  }

  /** The files of `templatesPath` (a file or a directory), relative to the working directory. */
  function TemplatesPathOutput(templatesPath: string, valueMap: Option<map<string, Value>>, values: seq<string>,
                               stringValues: seq<string>, removeEmptyLines: bool, m: Machine, lib: Libraries)
    : Result<string, Error>
  {
    var wd :- Lift(m.cwd);
    var files :- Fs.ReadFilesOf(GoPath.Join([wd, templatesPath]), m);
    Assemble(files, valueMap, values, stringValues, removeEmptyLines, lib)
  }

  method FromTemplatesPath(templatesPath: string, valueMap: Option<map<string, Value>>, values: seq<string>,
                           stringValues: seq<string>, removeEmptyLines: bool, m: Machine, lib: Libraries)
    returns (r: Result<string, Error>)
    ensures r == TemplatesPathOutput(templatesPath, valueMap, values, stringValues, removeEmptyLines, m, lib)
  {
    var wd :- Lift(m.cwd);
    var files :- Fs.ReadFiles(GoPath.Join([wd, templatesPath]), m);
    r := RenderAll(files, valueMap, values, stringValues, removeEmptyLines, lib);
  }

  /** The templates directory of a checked-out remote template. */
  function TemplatesDir(tmpDir: string, ctx: Context.Ctx): string {
    GoPath.Join([tmpDir, ctx.path, "templates"])
  }

  /**
   * A remote template: synced into the cache, checked out at its gitref into the temporary
   * directory, checked against the pinned digest when there is one, and rendered from its
   * templates directory.
   */
  function RemoteOutput(ctx: Context.Ctx, values: seq<string>, stringValues: seq<string>,
                        removeEmptyLines: bool, m: Machine, lib: Libraries): Result<string, Error>
  {
    var ownerDir :- Context.OwnerDir(ctx, m);
    // Once the owner directory is found the repository directory and URL are too.
    var repoDir := Context.RepoDir(ctx, m).value;
    var gitURL := Context.RepoURL(ctx).value;
    var synced :- Ran(m.sync(ownerDir, repoDir, gitURL));
    var tmpDir :- Lift(m.tempDir);
    var checkedOut :- Ran(m.checkout(repoDir, tmpDir, ctx.gitref, ctx.path));
    var newDigest := Fs.DigestOf(m.walk(TemplatesDir(tmpDir, ctx)), m.readFile, lib.sha256);
    if ctx.digest != "" && ctx.digest != newDigest then Err(DigestMismatch(newDigest))
    else
      var files :- Fs.ReadFilesOf(GoPath.Join([TemplatesDir(tmpDir, ctx)]), m);
      Assemble(files, Some(Context.Values(ctx)), values, stringValues, removeEmptyLines, lib)
  }

  /** A built context: a local template from its path with its values, or a remote one. */
  function ContextOutput(ctx: Context.Ctx, values: seq<string>, stringValues: seq<string>,
                         removeEmptyLines: bool, m: Machine, lib: Libraries): Result<string, Error>
  {
    if ctx.scheme == "" then
      TemplatesPathOutput(ctx.path, Some(Context.Values(ctx)), values, stringValues, removeEmptyLines, m, lib)
    else
      RemoteOutput(ctx, values, stringValues, removeEmptyLines, m, lib)
  }

  /** `FromRigFile`: the rig file read by `context.FromFile`, then built. */
  function RigFileOutput(filePath: string, values: seq<string>, stringValues: seq<string>,
                         removeEmptyLines: bool, m: Machine, lib: Libraries): Result<string, Error>
  {
    var ctx :- Context.FromFile(filePath, m, lib);
    ContextOutput(ctx, values, stringValues, removeEmptyLines, m, lib)
  }

  /** The same build with the rig file read by the corrected reader, which keeps a pinned gitref. */
  function RigFileOutputPinned(filePath: string, values: seq<string>, stringValues: seq<string>,
                               removeEmptyLines: bool, m: Machine, lib: Libraries): Result<string, Error>
  {
    var ctx :- Context.FromFilePinned(filePath, m, lib);
    ContextOutput(ctx, values, stringValues, removeEmptyLines, m, lib)
  }

  /**
   * The corrected build differs from the build as written only in the revision a remote
   * template is checked out at: a failed read or a local rig file builds the same.
   */
  lemma PinnedBuildDiffersInGitref(filePath: string, values: seq<string>, stringValues: seq<string>,
                                   removeEmptyLines: bool, m: Machine, lib: Libraries)
    ensures Context.FromFile(filePath, m, lib).Err? || Context.FromFile(filePath, m, lib).value.scheme == "" ==>
      RigFileOutputPinned(filePath, values, stringValues, removeEmptyLines, m, lib)
      == RigFileOutput(filePath, values, stringValues, removeEmptyLines, m, lib)
    ensures Context.FromFile(filePath, m, lib).Ok? && Context.FromFile(filePath, m, lib).value.scheme != "" ==>
      var ctx := Context.FromFile(filePath, m, lib).value;
      && RigFileOutput(filePath, values, stringValues, removeEmptyLines, m, lib)
         == RemoteOutput(ctx, values, stringValues, removeEmptyLines, m, lib)
      && RigFileOutputPinned(filePath, values, stringValues, removeEmptyLines, m, lib)
         == RemoteOutput(ctx.(gitref := Context.FromFilePinned(filePath, m, lib).value.gitref),
                         values, stringValues, removeEmptyLines, m, lib)
  {
    Context.FromFileReadersDifferInGitref(filePath, m, lib);
  }

  method FromRigFile(filePath: string, values: seq<string>, stringValues: seq<string>,
                     removeEmptyLines: bool, m: Machine, lib: Libraries) returns (r: Result<string, Error>)
    ensures r == RigFileOutput(filePath, values, stringValues, removeEmptyLines, m, lib)
  {
    var ctx :- Context.FromFile(filePath, m, lib);
    if ctx.scheme == "" {
      r := FromTemplatesPath(ctx.path, Some(Context.Values(ctx)), values, stringValues, removeEmptyLines, m, lib);
      return;
    }
    var ownerDir :- Context.OwnerDir(ctx, m);
    var repoDir := Context.RepoDir(ctx, m).value;
    var gitURL := Context.RepoURL(ctx).value;
    var synced :- Ran(m.sync(ownerDir, repoDir, gitURL));
    var tmpDir :- Lift(m.tempDir);
    var checkedOut :- Ran(m.checkout(repoDir, tmpDir, ctx.gitref, ctx.path));
    if ctx.digest != "" {
      var newDigest := Fs.DirectoryDigest(TemplatesDir(tmpDir, ctx), m, lib);
      if ctx.digest != newDigest {
        return Err(DigestMismatch(newDigest));
      }
    }
    var files :- Fs.ReadFiles(GoPath.Join([TemplatesDir(tmpDir, ctx)]), m);
    r := RenderAll(files, Some(Context.Values(ctx)), values, stringValues, removeEmptyLines, lib);
  }

  /**
   * A local rig file is built from its path with its values, and never touches the home
   * directory, git, the temporary directory or the digest walk: replacing all of them
   * leaves the output as it is.
   */
  lemma LocalBuild(filePath: string, values: seq<string>, stringValues: seq<string>,
                   removeEmptyLines: bool, m: Machine, lib: Libraries,
                   home: Result<string, string>, tempDir: Result<string, string>, walk: string -> seq<WalkEvent>,
                   sync: (string, string, string) -> Option<string>,
                   checkout: (string, string, string, string) -> Option<string>)
    requires Context.FromFile(filePath, m, lib).Ok?
    requires Context.FromFile(filePath, m, lib).value.scheme == ""
    ensures var ctx := Context.FromFile(filePath, m, lib).value;
      RigFileOutput(filePath, values, stringValues, removeEmptyLines, m, lib)
      == TemplatesPathOutput(ctx.path, Some(Context.Values(ctx)), values, stringValues, removeEmptyLines, m, lib)
    ensures RigFileOutput(filePath, values, stringValues, removeEmptyLines, m, lib)
         == RigFileOutput(filePath, values, stringValues, removeEmptyLines,
                          m.(home := home, tempDir := tempDir, walk := walk, sync := sync, checkout := checkout), lib)
  {
    var n := m.(home := home, tempDir := tempDir, walk := walk, sync := sync, checkout := checkout);
    var ctx := Context.FromFile(filePath, m, lib).value;
    assert Fs.UnmarshalYaml(filePath, m, lib) == Fs.UnmarshalYaml(filePath, n, lib);
    assert Context.FromFile(filePath, n, lib) == Context.FromFile(filePath, m, lib);
    if m.cwd.Ok? {
      var p := GoPath.Join([m.cwd.value, ctx.path]);
      assert Fs.Targets(p, m) == Fs.Targets(p, n);
      assert Fs.ReadFilesOf(p, m) == Fs.ReadFilesOf(p, n);
    }
  }

  /** The steps of a remote build up to and including the checkout, all successful. */
  predicate CheckedOut(ctx: Context.Ctx, m: Machine) {
    && ctx.scheme != ""
    && m.home.Ok? && m.tempDir.Ok?
    && m.sync(Context.OwnerDir(ctx, m).value, Context.RepoDir(ctx, m).value, Context.RepoURL(ctx).value).None?
    && m.checkout(Context.RepoDir(ctx, m).value, m.tempDir.value, ctx.gitref, ctx.path).None?
  }

  /**
   * A pinned digest that differs from the checked-out templates' digest fails the build with
   * an error naming the new digest; an unpinned build never looks at the digest.
   */
  lemma RemoteDigestCheck(filePath: string, values: seq<string>, stringValues: seq<string>,
                          removeEmptyLines: bool, m: Machine, lib: Libraries)
    requires Context.FromFile(filePath, m, lib).Ok?
    requires CheckedOut(Context.FromFile(filePath, m, lib).value, m)
    ensures var ctx := Context.FromFile(filePath, m, lib).value;
      var dir := TemplatesDir(m.tempDir.value, ctx);
      var newDigest := Fs.DigestOf(m.walk(dir), m.readFile, lib.sha256);
      var rendered := (var files :- Fs.ReadFilesOf(GoPath.Join([dir]), m);
                       Assemble(files, Some(Context.Values(ctx)), values, stringValues, removeEmptyLines, lib));
      RigFileOutput(filePath, values, stringValues, removeEmptyLines, m, lib)
      == if ctx.digest != "" && ctx.digest != newDigest then Err(DigestMismatch(newDigest)) else rendered
  {
  }

  /** An unpinned remote build does not depend on what the walk of the templates directory reports. */
  lemma UnpinnedIgnoresWalk(filePath: string, values: seq<string>, stringValues: seq<string>,
                            removeEmptyLines: bool, m: Machine, lib: Libraries, walk: string -> seq<WalkEvent>)
    requires Context.FromFile(filePath, m, lib).Ok?
    requires Context.FromFile(filePath, m, lib).value.digest == ""
    ensures RigFileOutput(filePath, values, stringValues, removeEmptyLines, m, lib)
         == RigFileOutput(filePath, values, stringValues, removeEmptyLines, m.(walk := walk), lib)
  {
    var n := m.(walk := walk);
    assert Fs.UnmarshalYaml(filePath, m, lib) == Fs.UnmarshalYaml(filePath, n, lib);
    assert Context.FromFile(filePath, n, lib) == Context.FromFile(filePath, m, lib);
    var ctx := Context.FromFile(filePath, m, lib).value;
    if m.cwd.Ok? {
      var p := GoPath.Join([m.cwd.value, ctx.path]);
      assert Fs.ReadFilesOf(p, m) == Fs.ReadFilesOf(p, n);
    }
    RemoteIgnoresWalk(ctx, values, stringValues, removeEmptyLines, m, lib, walk);
  }

  lemma RemoteIgnoresWalk(ctx: Context.Ctx, values: seq<string>, stringValues: seq<string>,
                          removeEmptyLines: bool, m: Machine, lib: Libraries, walk: string -> seq<WalkEvent>)
    requires ctx.digest == ""
    ensures RemoteOutput(ctx, values, stringValues, removeEmptyLines, m, lib)
         == RemoteOutput(ctx, values, stringValues, removeEmptyLines, m.(walk := walk), lib)
  {
    var n := m.(walk := walk);
    assert Context.OwnerDir(ctx, m) == Context.OwnerDir(ctx, n);
    assert Context.RepoDir(ctx, m) == Context.RepoDir(ctx, n);
    if m.tempDir.Ok? {
      var p := GoPath.Join([TemplatesDir(m.tempDir.value, ctx)]);
      assert Fs.ReadFilesOf(p, m) == Fs.ReadFilesOf(p, n);
    }
  }
}
