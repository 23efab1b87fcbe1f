/** pkg/build/values.go: the data a template is rendered with. */
module BuildValues {
  import opened Wrappers
  import opened Values
  import opened Errors
  import opened Externals
  import opened Overrides

  /**
   * The base map (nil as empty), then the `--value` and `--string-value` overrides, wrapped
   * under the single key "values".
   */
  function ValueMap(valueMap: Option<map<string, Value>>, values: seq<string>, stringValues: seq<string>,
                    lib: Libraries): Result<map<string, Value>, Error>
  {
    var vals :- ApplyAll(valueMap.GetOr(map[]), values, stringValues, lib);
    Ok(map["values" := Object(vals)])
  }

  /** `createValueMap`: copies the base map into a fresh one, then applies both override lists. */
  method CreateValueMap(valueMap: Option<map<string, Value>>, values: seq<string>, stringValues: seq<string>,
                        lib: Libraries) returns (r: Result<map<string, Value>, Error>)
    ensures r == ValueMap(valueMap, values, stringValues, lib)
  {
    var vals: map<string, Value> := map[];
    if valueMap.Some? {
      var base := valueMap.value;
      var todo := base.Keys;
      while todo != {}
        invariant todo <= base.Keys
        invariant vals.Keys == base.Keys - todo
        invariant forall k :: k in vals ==> vals[k] == base[k]
        decreases |todo|
      {
        var k :| k in todo;
        vals := vals[k := base[k]];
        todo := todo - {k};
      }
      assert vals == base;
    }
    var typed :- ParseAllInto(vals, values, ValueFlag, lib);
    var all :- ParseAllInto(typed, stringValues, StringValueFlag, lib);
    r := Ok(map["values" := Object(all)]);
  }

  /** A successful result has exactly one key, "values", holding a map. */
  lemma ValueMapShape(valueMap: Option<map<string, Value>>, values: seq<string>, stringValues: seq<string>,
                      lib: Libraries)
    requires ValueMap(valueMap, values, stringValues, lib).Ok?
    ensures var r := ValueMap(valueMap, values, stringValues, lib).value;
      r.Keys == {"values"} && r["values"].Object?
  {
  }

  /** A nil base map behaves as an empty one; with no overrides the base map comes back as it is. */
  lemma ValueMapBase(base: map<string, Value>, values: seq<string>, stringValues: seq<string>, lib: Libraries)
    ensures ValueMap(None, values, stringValues, lib) == ValueMap(Some(map[]), values, stringValues, lib)
    ensures ValueMap(Some(base), [], [], lib) == Ok(map["values" := Object(base)])
  {
  }

  /**
   * When every override parses, "values" holds the base entries no override touches, as they
   * were, plus exactly the top-level keys the overrides write.
   */
  lemma ValueMapFrame(base: map<string, Value>, values: seq<string>, stringValues: seq<string>, lib: Libraries)
    requires forall i :: 0 <= i < |values| ==> lib.parseSet(values[i]).Ok?
    requires forall i :: 0 <= i < |stringValues| ==> lib.parseSet(stringValues[i]).Ok?
    ensures ValueMap(Some(base), values, stringValues, lib).Ok?
    ensures var vals := ValueMap(Some(base), values, stringValues, lib).value["values"].fields;
      vals.Keys == base.Keys + ListHeads(values, lib) + ListHeads(stringValues, lib)
      && forall k :: k in base && k !in ListHeads(values, lib) && k !in ListHeads(stringValues, lib) ==>
           vals[k] == base[k]
  {
    ApplyListFrame(base, values, ValueFlag, lib);
    ApplyListFrame(ApplyList(base, values, ValueFlag, lib).value, stringValues, StringValueFlag, lib);
  }

  /**
   * A malformed override gives the error of the first string that does not parse, tagged with
   * its flag, and no map; `--value` strings are checked before any `--string-value` string.
   */
  lemma ValueMapFirstError(valueMap: Option<map<string, Value>>, values: seq<string>, stringValues: seq<string>,
                           lib: Libraries, k: nat)
    requires k < |values| && lib.parseSet(values[k]).Err?
    requires forall i :: 0 <= i < k ==> lib.parseSet(values[i]).Ok?
    ensures ValueMap(valueMap, values, stringValues, lib) == Err(ValueParse(ValueFlag, lib.parseSet(values[k]).error))
  {
    ApplyListFirstError(valueMap.GetOr(map[]), values, ValueFlag, lib, k);
  }

  lemma StringValueFirstError(valueMap: Option<map<string, Value>>, values: seq<string>, stringValues: seq<string>,
                              lib: Libraries, k: nat)
    requires forall i :: 0 <= i < |values| ==> lib.parseSet(values[i]).Ok?
    requires k < |stringValues| && lib.parseSet(stringValues[k]).Err?
    requires forall i :: 0 <= i < k ==> lib.parseSet(stringValues[i]).Ok?
    ensures ValueMap(valueMap, values, stringValues, lib)
         == Err(ValueParse(StringValueFlag, lib.parseSet(stringValues[k]).error))
  {
    ApplyListFrame(valueMap.GetOr(map[]), values, ValueFlag, lib);
    ApplyListFirstError(ApplyList(valueMap.GetOr(map[]), values, ValueFlag, lib).value, stringValues,
                        StringValueFlag, lib, k);
  }
}
