/** lib/cmds/breakout/config.js: the options of `breakout`, from the input file name, an output directory and the flags. */
module BreakoutConfig {
  import opened Wrappers
  import opened Js
  import Constants

  /** An entry of `FILE_CONFIGS`. */
  datatype FileConfig = FileConfig(code: string, schemaFilePath: string, templateDirPath: string)

  /** The object `configFrom` returns; a property copied from the table that it lacks is `None`. */
  datatype Options = Options(
    code: Option<string>,
    schemaFilePath: Option<string>,
    templateDirPath: Option<string>,
    fileNamePath: string,
    outputDirPath: JsValue,
    keepInputFile: JsValue)

  /** `FILE_CONFIGS`: the kind, schema and template directory of each known input file name. */
  const FileConfigs: map<string, FileConfig> := map[
    "build.yaml" := FileConfig("build", "./templates/build/schema.json", "./templates/build/files"),
    "k8s.yaml" := FileConfig("k8s", "./templates/k8s/schema.json", "./templates/k8s/files")]

  function UnknownFileType(fileNamePath: string): Thrown {
    Error("Unknown file type: " + fileNamePath)
  }

  /**
   * The check and the `Object.assign` into a fresh object that follow the table lookup;
   * `flags.k` is read while the object literal is built, after the check.
   */
  function Make(found: Lookup<FileConfig>, fileNamePath: string, outputDirPath: JsValue, flags: JsValue)
    : Result<Options, Thrown>
  {
    if !Found(found) then Err(UnknownFileType(fileNamePath))
    else
      var k :- Prop(flags, "k");
      Ok(Options(
        Copied(found, (e: FileConfig) => e.code),
        Copied(found, (e: FileConfig) => e.schemaFilePath),
        Copied(found, (e: FileConfig) => e.templateDirPath),
        fileNamePath, Or(outputDirPath, Str(".")), Or(k, Bool(false))))
  }

  /** `configFrom` as written: the lookup also finds the names every object inherits. */
  function ConfigFrom(fileNamePath: JsValue, outputDirPath: JsValue, flags: JsValue): Result<Options, Thrown> {
    if !fileNamePath.Str? then Err(TypeError)
    else Make(Member(FileConfigs, Basename(fileNamePath.s)), fileNamePath.s, outputDirPath, flags)
  }

  /** `configFrom` with the table consulted for its own entries only. */
  function ConfigFromOwn(fileNamePath: JsValue, outputDirPath: JsValue, flags: JsValue): Result<Options, Thrown> {
    if !fileNamePath.Str? then Err(TypeError)
    else Make(OwnMember(FileConfigs, Basename(fileNamePath.s)), fileNamePath.s, outputDirPath, flags)
  }

  /**
   * Exactly the base names `build.yaml` and `k8s.yaml` are known; for one of them, reading
   * `flags.k` throws a `TypeError` when there are no flags.
   */
  lemma ConfigFromOwnErrors(fileNamePath: string, outputDirPath: JsValue, flags: JsValue)
    ensures var b := Basename(fileNamePath);
      var known := b == "build.yaml" || b == "k8s.yaml";
      var r := ConfigFromOwn(Str(fileNamePath), outputDirPath, flags);
      (!known ==> r == Err(UnknownFileType(fileNamePath)))
      && (known && (flags == Undefined || flags == Null) ==> r == Err(TypeError))
      && (r.Ok? <==> known && flags != Undefined && flags != Null)
  {
    MakeErrors(OwnMember(FileConfigs, Basename(fileNamePath)), fileNamePath, outputDirPath, flags);
  }

  lemma MakeErrors(found: Lookup<FileConfig>, fileNamePath: string, outputDirPath: JsValue, flags: JsValue)
    ensures var r := Make(found, fileNamePath, outputDirPath, flags);
      (!Found(found) ==> r == Err(UnknownFileType(fileNamePath)))
      && (Found(found) && (flags == Undefined || flags == Null) ==> r == Err(TypeError))
      && (r.Ok? <==> Found(found) && flags != Undefined && flags != Null)
  {
  }

  /**
   * A configuration carries the matched entry's code, schema and template directory, the
   * file name unchanged, the output directory when truthy and "." otherwise, and `flags.k`
   * when truthy and `false` otherwise.
   */
  lemma ConfigFromOwnContents(fileNamePath: string, outputDirPath: JsValue, flags: JsValue)
    requires ConfigFromOwn(Str(fileNamePath), outputDirPath, flags).Ok?
    ensures Basename(fileNamePath) in FileConfigs
    ensures var e := FileConfigs[Basename(fileNamePath)];
      var k := Prop(flags, "k").value;
      ConfigFromOwn(Str(fileNamePath), outputDirPath, flags).value == Options(
        Some(e.code), Some(e.schemaFilePath), Some(e.templateDirPath), fileNamePath,
        if Truthy(outputDirPath) then outputDirPath else Str("."),
        if Truthy(k) then k else Bool(false))
  {
  }

  /** The table agrees with `TYPES`: each kind's default file maps to that kind's code, schema and templates. */
  lemma TableMatchesTypes(name: string)
    requires name in Constants.Types
    ensures var t := Constants.Types[name];
      t.defaultFilePath in FileConfigs
      && FileConfigs[t.defaultFilePath] == FileConfig(t.code, t.schemaFilePath, t.templateDirPath)
  {
  }

  /** The two lookups agree on every file name but the inherited ones. */
  lemma ConfigFromAgrees(fileNamePath: string, outputDirPath: JsValue, flags: JsValue)
    requires Basename(fileNamePath) !in ObjectPrototype
    ensures ConfigFrom(Str(fileNamePath), outputDirPath, flags) == ConfigFromOwn(Str(fileNamePath), outputDirPath, flags)
  {
    MemberVersusOwn(FileConfigs, Basename(fileNamePath));
  }

  /**
   * A file whose base name is inherited from `Object.prototype` passes the check as
   * written and yields a configuration with no code, schema or template directory; the
   * own-entry lookup rejects it.
   */
  lemma InheritedNameAccepted(fileNamePath: string, outputDirPath: JsValue, flags: JsValue)
    requires Basename(fileNamePath) in ObjectPrototype
    requires flags != Undefined && flags != Null
    ensures var r := ConfigFrom(Str(fileNamePath), outputDirPath, flags);
      r.Ok? && r.value.code == None && r.value.schemaFilePath == None && r.value.templateDirPath == None
    ensures ConfigFromOwn(Str(fileNamePath), outputDirPath, flags) == Err(UnknownFileType(fileNamePath))
  {
    var b := Basename(fileNamePath);
    MemberVersusOwn(FileConfigs, b);
    InheritedMemberCopiesNothing(Member(FileConfigs, b), fileNamePath, outputDirPath, flags);
  }

  lemma InheritedMemberCopiesNothing(found: Lookup<FileConfig>, fileNamePath: string, outputDirPath: JsValue, flags: JsValue)
    requires found.Inherited?
    requires flags != Undefined && flags != Null
    ensures var r := Make(found, fileNamePath, outputDirPath, flags);
      r.Ok? && r.value.code == None && r.value.schemaFilePath == None && r.value.templateDirPath == None
  {
  }

  /** The file `constructor` is accepted as written and rejected by the own-entry lookup. */
  lemma ConstructorAccepted()
    ensures var r := ConfigFrom(Str("constructor"), Undefined, Obj(map[]));
      r.Ok? && r.value.code == None && r.value.outputDirPath == Str(".")
    ensures ConfigFromOwn(Str("constructor"), Undefined, Obj(map[])) == Err(UnknownFileType("constructor"))
  {
    ConstructorBasename();
    InheritedNameAccepted("constructor", Undefined, Obj(map[]));
  }
}
