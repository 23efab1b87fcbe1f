/** lib/constants.js: the two kinds of rig file, and the lookup of a kind by name. */
module Constants {
  import opened Wrappers
  import opened Js

  /** An entry of `TYPES`. */
  datatype Type = Type(code: string, defaultFilePath: string, schemaFilePath: string, templateDirPath: string)

  /** `TYPES`. */
  const Types: map<string, Type> := map[
    "build" := Type("build", "build.yaml", "./templates/build/schema.json", "./templates/build/files"),
    "k8s" := Type("k8s", "k8s.yaml", "./templates/k8s/schema.json", "./templates/k8s/files")]

  const UnknownType: Thrown := Error("Unknown type")

  /** `typeFrom`: a `switch` on the name, compared with `===`. */
  function TypeFrom(t: JsValue): (r: Result<Type, Thrown>)
    ensures r.Ok? <==> t == Str("build") || t == Str("k8s")
    ensures r.Err? ==> r.error == UnknownType
  {
    match t
    case Str("build") => Ok(Types["build"])
    case Str("k8s") => Ok(Types["k8s"])
    case _ => Err(UnknownType)
  }

  /** `typeFrom` returns the entry of `TYPES` named by its argument. */
  lemma TypeFromFindsEntry(name: string)
    requires name in Types
    ensures TypeFrom(Str(name)) == Ok(Types[name])
  {
  }

  /** `s` starts with `prefix` and goes on after it. */
  predicate Under(s: string, prefix: string) {
    |prefix| < |s| && s[..|prefix|] == prefix
  }

  lemma UnderConcat(prefix: string, rest: string)
    requires rest != []
    ensures Under(prefix + rest, prefix)
  {
    assert (prefix + rest)[..|prefix|] == prefix;
  }

  /**
   * Each kind's code is its key, its default file is the code followed by ".yaml", and its
   * schema and templates lie under `./templates/<code>/`.
   */
  lemma TypesWellFormed(name: string)
    requires name in Types
    ensures Types[name].code == name
    ensures Types[name].defaultFilePath == name + ".yaml"
    ensures Under(Types[name].schemaFilePath, "./templates/" + name + "/")
    ensures Under(Types[name].templateDirPath, "./templates/" + name + "/")
  {
    var dir := "./templates/" + name + "/";
    UnderConcat(dir, "schema.json");
    UnderConcat(dir, "files");
  }
}
