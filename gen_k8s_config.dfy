/** lib/cmds/gen-k8s/config.js: the options of `gen-k8s`, from a file name, cluster and image tag. */
module GenK8sConfig {
  import opened Wrappers
  import opened Js
  import BuildConfig

  /** The object `configFrom` returns. */
  datatype Options = Options(
    schemaFilePath: string,
    templateFilePath: string,
    fileNamePath: JsValue,
    cluster: JsValue,
    imageTag: JsValue)

  const SchemaFilePath := "./templates/k8s.yaml/schema.json"
  const TemplateFilePath := "./templates/k8s.yaml/manifests.yaml"

  /**
   * `configFrom`: the cluster and image tag checks of `build` (with the same messages), in that
   * order; the file name is not looked at.
   */
  function ConfigFrom(fileNamePath: JsValue, cluster: JsValue, imageTag: JsValue): Result<Options, Thrown> {
    if !BuildConfig.KnownCluster(cluster) then Err(BuildConfig.UnknownCluster)
    else if !Truthy(imageTag) then Err(BuildConfig.NoImageTag)
    else Ok(Options(SchemaFilePath, TemplateFilePath, fileNamePath, cluster, imageTag))
  }

  /**
   * A cluster outside dev, int and prod throws whatever the tag, a falsy tag throws next,
   * and otherwise the configuration is made.
   */
  lemma ConfigFromErrors(fileNamePath: JsValue, cluster: JsValue, imageTag: JsValue)
    ensures var r := ConfigFrom(fileNamePath, cluster, imageTag);
      (!BuildConfig.KnownCluster(cluster) ==> r == Err(BuildConfig.UnknownCluster))
      && (BuildConfig.KnownCluster(cluster) && !Truthy(imageTag) ==> r == Err(BuildConfig.NoImageTag))
      && (r.Ok? <==> BuildConfig.KnownCluster(cluster) && Truthy(imageTag))
  {
  }

  /**
   * The schema and template paths are the same for every input, and the file name,
   * cluster and tag are passed through unchanged, whatever the file name is.
   */
  lemma ConfigFromContents(fileNamePath: JsValue, cluster: JsValue, imageTag: JsValue)
    requires ConfigFrom(fileNamePath, cluster, imageTag).Ok?
    ensures var o := ConfigFrom(fileNamePath, cluster, imageTag).value;
      o.schemaFilePath == "./templates/k8s.yaml/schema.json"
      && o.templateFilePath == "./templates/k8s.yaml/manifests.yaml"
      && o.fileNamePath == fileNamePath && o.cluster == cluster && o.imageTag == imageTag
  {
  }

  /** The file name is not validated: any value, even one that is not a string, gives the same outcome. */
  lemma FileNameNotValidated(p: JsValue, q: JsValue, cluster: JsValue, imageTag: JsValue)
    ensures ConfigFrom(p, cluster, imageTag).Ok? <==> ConfigFrom(q, cluster, imageTag).Ok?
    ensures ConfigFrom(p, cluster, imageTag).Ok? ==>
      ConfigFrom(q, cluster, imageTag).value == ConfigFrom(p, cluster, imageTag).value.(fileNamePath := q)
  {
  }
}
