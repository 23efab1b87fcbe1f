/** lib/config.js: the options shared by the commands, from a kind of rig file and the command-line flags. */
module CliConfig {
  import opened Wrappers
  import opened Js
  import Constants

  /** The object `config` returns; `kind` is its `type` property. */
  datatype Options = Options(kind: Constants.Type, filePath: JsValue, keepInputFile: JsValue)

  /**
   * `config(type, flags)`, for a `type` that `typeFrom` returned: the object literal reads
   * `flags.f`, then (when that is falsy) `type.defaultFilePath`, then `flags.k`.
   */
  function Config(kind: Constants.Type, flags: JsValue): Result<Options, Thrown> {
    var f :- Prop(flags, "f");
    var k := Prop(flags, "k").value;   // cannot throw once reading `flags.f` did not
    Ok(Options(kind, Or(f, Str(kind.defaultFilePath)), Or(k, Bool(false))))
  }

  /**
   * Reading a flag throws exactly when there are no flags; otherwise the kind is returned
   * unchanged, the file is `-f` when truthy and the kind's default file otherwise, and
   * `keepInputFile` is `-k` when truthy and `false` otherwise.
   */
  lemma ConfigOutcome(kind: Constants.Type, flags: JsValue)
    ensures var r := Config(kind, flags);
      (r.Err? <==> flags == Undefined || flags == Null)
      && (r.Err? ==> r.error == TypeError)
      && (r.Ok? ==>
            var f := Prop(flags, "f").value;
            var k := Prop(flags, "k").value;
            r.value.kind == kind
            && r.value.filePath == (if Truthy(f) then f else Str(kind.defaultFilePath))
            && r.value.keepInputFile == (if Truthy(k) then k else Bool(false)))
  {
  }

  /** With no `-f` flag, the file of kind `t` is `t.yaml`. */
  lemma DefaultFilePath(t: string, flags: JsValue)
    requires Constants.TypeFrom(Str(t)).Ok?
    requires flags.Obj? && "f" !in flags.props
    ensures Config(Constants.TypeFrom(Str(t)).value, flags).Ok?
    ensures Config(Constants.TypeFrom(Str(t)).value, flags).value.filePath == Str(t + ".yaml")
  {
    Constants.TypeFromFindsEntry(t);
    Constants.TypesWellFormed(t);
    assert "f" !in ObjectPrototype;
  }
}
