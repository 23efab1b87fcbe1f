/** lib/cmds/build/config.js: the options of `build`, from the input file name, cluster and image tag. */
module BuildConfig {
  import opened Wrappers
  import opened Js

  /** An entry of `FILE_CONFIGS`. */
  datatype FileConfig = FileConfig(schemaFilePath: string, templateFilePath: string)

  /** The object `configFrom` returns; a path property it lacks is `None`. */
  datatype Options = Options(
    schemaFilePath: Option<string>,
    templateFilePath: Option<string>,
    fileNamePath: string,
    cluster: JsValue,
    imageTag: JsValue)

  /** `FILE_CONFIGS`: what each known input file name builds from. */
  const FileConfigs: map<string, FileConfig> :=
    map["k8s.yaml" := FileConfig("./templates/k8s/schema.json", "./templates/k8s/manifests.yaml")]

  /** The clusters a build may target (compared with `!==`). */
  predicate KnownCluster(cluster: JsValue) {
    cluster == Str("dev") || cluster == Str("int") || cluster == Str("prod")
  }

  const UnknownCluster: Thrown := Error("Cluster must be one of: int, dev or prod.")
  const NoImageTag: Thrown := Error("No image tag provided.")

  function UnknownFileType(fileNamePath: string): Thrown {
    Error("Unknown file type: " + fileNamePath)
  }

  /** The checks and the `Object.assign` into a fresh object that follow the table lookup. */
  function Make(found: Lookup<FileConfig>, fileNamePath: string, cluster: JsValue, imageTag: JsValue)
    : Result<Options, Thrown>
  {
    if !Found(found) then Err(UnknownFileType(fileNamePath))
    else if !KnownCluster(cluster) then Err(UnknownCluster)
    else if !Truthy(imageTag) then Err(NoImageTag)
    else Ok(Options(
      Copied(found, (e: FileConfig) => e.schemaFilePath),
      Copied(found, (e: FileConfig) => e.templateFilePath),
      fileNamePath, cluster, imageTag))
  }

  /**
   * `configFrom` as written: `FILE_CONFIGS[path.basename(fileNamePath)]` also finds the
   * names every object inherits. `path.basename` throws on a path that is not a string.
   */
  function ConfigFrom(fileNamePath: JsValue, cluster: JsValue, imageTag: JsValue): Result<Options, Thrown> {
    if !fileNamePath.Str? then Err(TypeError)
    else Make(Member(FileConfigs, Basename(fileNamePath.s)), fileNamePath.s, cluster, imageTag)
  }

  /** `configFrom` with the table consulted for its own entries only. */
  function ConfigFromOwn(fileNamePath: JsValue, cluster: JsValue, imageTag: JsValue): Result<Options, Thrown> {
    if !fileNamePath.Str? then Err(TypeError)
    else Make(OwnMember(FileConfigs, Basename(fileNamePath.s)), fileNamePath.s, cluster, imageTag)
  }

  /**
   * The checks run in the order file type, cluster, image tag, and a configuration is made
   * exactly when all pass. Only a `k8s.yaml` file is known, whatever its directory.
   */
  lemma ConfigFromOwnErrors(fileNamePath: string, cluster: JsValue, imageTag: JsValue)
    ensures var known := Basename(fileNamePath) == "k8s.yaml";
      var r := ConfigFromOwn(Str(fileNamePath), cluster, imageTag);
      (!known ==> r == Err(UnknownFileType(fileNamePath)))
      && (known && !KnownCluster(cluster) ==> r == Err(UnknownCluster))
      && (known && KnownCluster(cluster) && !Truthy(imageTag) ==> r == Err(NoImageTag))
      && (r.Ok? <==> known && KnownCluster(cluster) && Truthy(imageTag))
  {
    MakeErrors(OwnMember(FileConfigs, Basename(fileNamePath)), fileNamePath, cluster, imageTag);
  }

  lemma MakeErrors(found: Lookup<FileConfig>, fileNamePath: string, cluster: JsValue, imageTag: JsValue)
    ensures var r := Make(found, fileNamePath, cluster, imageTag);
      (!Found(found) ==> r == Err(UnknownFileType(fileNamePath)))
      && (Found(found) && !KnownCluster(cluster) ==> r == Err(UnknownCluster))
      && (Found(found) && KnownCluster(cluster) && !Truthy(imageTag) ==> r == Err(NoImageTag))
      && (r.Ok? <==> Found(found) && KnownCluster(cluster) && Truthy(imageTag))
  {
  }

  /** A configuration holds the k8s schema and manifest paths and the three inputs unchanged. */
  lemma ConfigFromOwnContents(fileNamePath: string, cluster: JsValue, imageTag: JsValue)
    requires ConfigFromOwn(Str(fileNamePath), cluster, imageTag).Ok?
    ensures ConfigFromOwn(Str(fileNamePath), cluster, imageTag).value
         == Options(Some("./templates/k8s/schema.json"), Some("./templates/k8s/manifests.yaml"),
                    fileNamePath, cluster, imageTag)
  {
  }

  /**
   * Leading directories are ignored: `dir/name` is accepted exactly when `name` is.
   */
  lemma DirectoryIgnored(dir: string, name: string, cluster: JsValue, imageTag: JsValue)
    requires name != [] && '/' !in name
    ensures var r := ConfigFromOwn(Str(dir + "/" + name), cluster, imageTag);
      var s := ConfigFromOwn(Str(name), cluster, imageTag);
      r.Ok? <==> s.Ok?
  {
    var p := dir + "/" + name;
    BasenameOfPath(dir, name, 0);
    assert p + seq(0, _ => '/') == p;
    MakeErrors(OwnMember(FileConfigs, name), p, cluster, imageTag);
    MakeErrors(OwnMember(FileConfigs, name), name, cluster, imageTag);
  }

  /** The two lookups agree on every file name but the inherited ones. */
  lemma ConfigFromAgrees(fileNamePath: string, cluster: JsValue, imageTag: JsValue)
    requires Basename(fileNamePath) !in ObjectPrototype
    ensures ConfigFrom(Str(fileNamePath), cluster, imageTag) == ConfigFromOwn(Str(fileNamePath), cluster, imageTag)
  {
    MemberVersusOwn(FileConfigs, Basename(fileNamePath));
  }

  /**
   * A file whose base name is inherited from `Object.prototype` (such as a file named
   * `constructor`) passes the file-type check as written and yields a configuration with
   * no schema or template path; the own-entry lookup rejects it.
   */
  lemma InheritedNameAccepted(fileNamePath: string, cluster: JsValue, imageTag: JsValue)
    requires Basename(fileNamePath) in ObjectPrototype
    requires KnownCluster(cluster) && Truthy(imageTag)
    ensures ConfigFrom(Str(fileNamePath), cluster, imageTag) == Ok(Options(None, None, fileNamePath, cluster, imageTag))
    ensures ConfigFromOwn(Str(fileNamePath), cluster, imageTag) == Err(UnknownFileType(fileNamePath))
  {
    MemberVersusOwn(FileConfigs, Basename(fileNamePath));
  }

  /** The file `constructor`, for the dev cluster and tag `v1`, is accepted as written. */
  lemma ConstructorAccepted()
    ensures ConfigFrom(Str("constructor"), Str("dev"), Str("v1")) == Ok(Options(None, None, "constructor", Str("dev"), Str("v1")))
    ensures ConfigFromOwn(Str("constructor"), Str("dev"), Str("v1")) == Err(UnknownFileType("constructor"))
  {
    ConstructorBasename();
    InheritedNameAccepted("constructor", Str("dev"), Str("v1"));
  }
}
