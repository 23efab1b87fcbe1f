/** lib/cmds/validate/config.js: the options of `validate`, from the input file name. */
module ValidateConfig {
  import opened Wrappers
  import opened Js
  import Constants

  /** An entry of `FILE_CONFIGS`. */
  datatype FileConfig = FileConfig(schemaFilePath: string)

  /** The object `configFrom` returns; a schema path it lacks is `None`. */
  datatype Options = Options(schemaFilePath: Option<string>, fileNamePath: string)

  /** `FILE_CONFIGS`: the schema each known input file name is validated against. */
  const FileConfigs: map<string, FileConfig> := map[
    "build.yaml" := FileConfig("./templates/build/schema.json"),
    "k8s.yaml" := FileConfig("./templates/k8s/schema.json")]

  function UnknownFileType(fileNamePath: string): Thrown {
    Error("Unknown file type: " + fileNamePath)
  }

  /** The check and the `Object.assign` into a fresh object that follow the table lookup. */
  function Make(found: Lookup<FileConfig>, fileNamePath: string): Result<Options, Thrown> {
    if !Found(found) then Err(UnknownFileType(fileNamePath))
    else Ok(Options(Copied(found, (e: FileConfig) => e.schemaFilePath), fileNamePath))
  }

  /** `configFrom` as written: the lookup also finds the names every object inherits. */
  function ConfigFrom(fileNamePath: JsValue): Result<Options, Thrown> {
    if !fileNamePath.Str? then Err(TypeError)
    else Make(Member(FileConfigs, Basename(fileNamePath.s)), fileNamePath.s)
  }

  /** `configFrom` with the table consulted for its own entries only. */
  function ConfigFromOwn(fileNamePath: JsValue): Result<Options, Thrown> {
    if !fileNamePath.Str? then Err(TypeError)
    else Make(OwnMember(FileConfigs, Basename(fileNamePath.s)), fileNamePath.s)
  }

  /**
   * Exactly the base names `build.yaml` and `k8s.yaml` are accepted, and anything else
   * throws "Unknown file type"; the configuration is the schema of the matched entry and
   * the file name unchanged.
   */
  lemma ConfigFromOwnOutcome(fileNamePath: string)
    ensures var b := Basename(fileNamePath);
      var r := ConfigFromOwn(Str(fileNamePath));
      (b != "build.yaml" && b != "k8s.yaml" ==> r == Err(UnknownFileType(fileNamePath)))
      && (r.Ok? <==> b == "build.yaml" || b == "k8s.yaml")
      && (r.Ok? ==> r.value == Options(Some(FileConfigs[b].schemaFilePath), fileNamePath))
  {
  }

  /** The table agrees with `TYPES`: each kind's default file is validated against that kind's schema. */
  lemma TableMatchesTypes(name: string)
    requires name in Constants.Types
    ensures var t := Constants.Types[name];
      t.defaultFilePath in FileConfigs && FileConfigs[t.defaultFilePath].schemaFilePath == t.schemaFilePath
  {
  }

  /** The two lookups agree on every file name but the inherited ones. */
  lemma ConfigFromAgrees(fileNamePath: string)
    requires Basename(fileNamePath) !in ObjectPrototype
    ensures ConfigFrom(Str(fileNamePath)) == ConfigFromOwn(Str(fileNamePath))
  {
    MemberVersusOwn(FileConfigs, Basename(fileNamePath));
  }

  /**
   * A file whose base name is inherited from `Object.prototype` is accepted as written with
   * no schema to validate against; the own-entry lookup rejects it.
   */
  lemma InheritedNameAccepted(fileNamePath: string)
    requires Basename(fileNamePath) in ObjectPrototype
    ensures ConfigFrom(Str(fileNamePath)) == Ok(Options(None, fileNamePath))
    ensures ConfigFromOwn(Str(fileNamePath)) == Err(UnknownFileType(fileNamePath))
  {
    MemberVersusOwn(FileConfigs, Basename(fileNamePath));
  }

  /** The file `constructor` is accepted as written and rejected by the own-entry lookup. */
  lemma ConstructorAccepted()
    ensures ConfigFrom(Str("constructor")) == Ok(Options(None, "constructor"))
    ensures ConfigFromOwn(Str("constructor")) == Err(UnknownFileType("constructor"))
  {
    ConstructorBasename();
    InheritedNameAccepted("constructor");
  }
}
