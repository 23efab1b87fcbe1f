/**
 * `strvals.ParseInto` and `strvals.ParseIntoString` applied to a values map, one override
 * string after another, as `createValueMap` and `mergeValues` do.
 */
module Overrides {
  import opened Wrappers
  import opened Values
  import opened Errors
  import opened Externals

  /** `--value` text gets the type strvals infers for it; `--string-value` text stays a string. */
  function Coerce(list: ValueList, raw: string, lib: Libraries): (v: Value)
    ensures list == StringValueFlag ==> v == Str(raw)
    ensures list == ValueFlag ==> v == lib.typedValue(raw)
  {
    match list
    case ValueFlag => lib.typedValue(raw)
    case StringValueFlag => Str(raw)
  }

  /** The top-level keys a list of assignments writes. */
  function Heads(assignments: seq<Assignment>): set<string> {
    set i | 0 <= i < |assignments| :: assignments[i].key[0]
  }

  /** The assignments of one override string, applied in order. */
  function Assign(vals: map<string, Value>, assignments: seq<Assignment>, list: ValueList,
                  lib: Libraries): map<string, Value>
    decreases |assignments|
  {
    if assignments == [] then vals
    else
      var a := assignments[|assignments| - 1];
      SetPath(Assign(vals, assignments[..|assignments| - 1], list, lib), a.key, Coerce(list, a.raw, lib))
  }

  /** Assignments add exactly their top-level keys and leave every other entry alone. */
  lemma {:induction false} AssignFrame(vals: map<string, Value>, assignments: seq<Assignment>,
                                       list: ValueList, lib: Libraries)
    ensures Assign(vals, assignments, list, lib).Keys == vals.Keys + Heads(assignments)
    ensures forall k :: k in vals && k !in Heads(assignments) ==>
      Assign(vals, assignments, list, lib)[k] == vals[k]
    decreases |assignments|
  {
    if assignments != [] {
      var init := assignments[..|assignments| - 1];
      AssignFrame(vals, init, list, lib);
      HeadsStep(assignments);
    }
  }

  lemma HeadsStep(assignments: seq<Assignment>)
    requires assignments != []
    ensures Heads(assignments)
         == Heads(assignments[..|assignments| - 1]) + {assignments[|assignments| - 1].key[0]}
  {
    var init := assignments[..|assignments| - 1];
    assert forall i :: 0 <= i < |init| ==> init[i] == assignments[i];
  }

  /** The last assignment to a key path decides its value. */
  lemma LastAssignmentWins(vals: map<string, Value>, assignments: seq<Assignment>, list: ValueList,
                           lib: Libraries)
    requires assignments != []
    ensures var a := assignments[|assignments| - 1];
      Lookup(Assign(vals, assignments, list, lib), a.key) == Some(Coerce(list, a.raw, lib))
  {
  }

  /** One override string: parsed, then applied, or an error naming the flag it came from. */
  function ParseInto(s: string, vals: map<string, Value>, list: ValueList, lib: Libraries)
    : (r: Result<map<string, Value>, Error>)
    ensures lib.parseSet(s).Err? ==> r == Err(ValueParse(list, lib.parseSet(s).error))
    ensures lib.parseSet(s).Ok? ==> r == Ok(Assign(vals, lib.parseSet(s).value, list, lib))
  {
    match lib.parseSet(s)
    case Err(reason) => Err(ValueParse(list, reason))
    case Ok(assignments) => Ok(Assign(vals, assignments, list, lib))
  }

  /** Every string of one flag's list, in order, stopping at the first that does not parse. */
  function ApplyList(vals: map<string, Value>, strs: seq<string>, list: ValueList, lib: Libraries)
    : Result<map<string, Value>, Error>
    decreases |strs|
  {
    if strs == [] then Ok(vals)
    else
      var init :- ApplyList(vals, strs[..|strs| - 1], list, lib);
      ParseInto(strs[|strs| - 1], init, list, lib)
  }

  /** A failure in a prefix is the failure of the whole list. */
  lemma {:induction false} ApplyListStops(vals: map<string, Value>, strs: seq<string>, list: ValueList,
                                          lib: Libraries, k: nat)
    requires k <= |strs| && ApplyList(vals, strs[..k], list, lib).Err?
    ensures ApplyList(vals, strs, list, lib) == ApplyList(vals, strs[..k], list, lib)
    decreases |strs| - k
  {
    if k < |strs| {
      var init := strs[..|strs| - 1];
      assert init[..k] == strs[..k];
      ApplyListStops(vals, init, list, lib, k);
    } else {
      assert strs[..k] == strs;
    }
  }

  /** The list applies exactly when every string parses. */
  lemma {:induction false} ApplyListSucceeds(vals: map<string, Value>, strs: seq<string>, list: ValueList,
                                             lib: Libraries)
    ensures ApplyList(vals, strs, list, lib).Ok? <==> forall i :: 0 <= i < |strs| ==> lib.parseSet(strs[i]).Ok?
    decreases |strs|
  {
    if strs != [] {
      var init := strs[..|strs| - 1];
      ApplyListSucceeds(vals, init, list, lib);
      assert forall i :: 0 <= i < |init| ==> init[i] == strs[i];
    }
  }

  /** The error is that of the first string that does not parse, tagged with the flag's name. */
  lemma {:induction false} ApplyListFirstError(vals: map<string, Value>, strs: seq<string>, list: ValueList,
                                               lib: Libraries, k: nat)
    requires k < |strs| && lib.parseSet(strs[k]).Err?
    requires forall i :: 0 <= i < k ==> lib.parseSet(strs[i]).Ok?
    ensures ApplyList(vals, strs, list, lib) == Err(ValueParse(list, lib.parseSet(strs[k]).error))
  {
    var prefix := strs[..k];
    assert forall i :: 0 <= i < k ==> prefix[i] == strs[i];
    ApplyListSucceeds(vals, prefix, list, lib);
    assert strs[..k + 1][..k] == prefix;
    ApplyListStops(vals, strs, list, lib, k + 1);
  }

  /** The top-level keys any string of a list writes, given that all of them parse. */
  function ListHeads(strs: seq<string>, lib: Libraries): set<string>
    requires forall i :: 0 <= i < |strs| ==> lib.parseSet(strs[i]).Ok?
    decreases |strs|
  {
    if strs == [] then {}
    else ListHeads(strs[..|strs| - 1], lib) + Heads(lib.parseSet(strs[|strs| - 1]).value)
  }

  /** Applying a list adds exactly the keys it writes, and leaves every other entry as it was. */
  lemma {:induction false} ApplyListFrame(vals: map<string, Value>, strs: seq<string>, list: ValueList,
                                          lib: Libraries)
    requires forall i :: 0 <= i < |strs| ==> lib.parseSet(strs[i]).Ok?
    ensures ApplyList(vals, strs, list, lib).Ok?
    ensures ApplyList(vals, strs, list, lib).value.Keys == vals.Keys + ListHeads(strs, lib)
    ensures forall k :: k in vals && k !in ListHeads(strs, lib) ==>
      ApplyList(vals, strs, list, lib).value[k] == vals[k]
    decreases |strs|
  {
    if strs != [] {
      var init := strs[..|strs| - 1];
      assert forall i :: 0 <= i < |init| ==> init[i] == strs[i];
      ApplyListFrame(vals, init, list, lib);
      var mid := ApplyList(vals, init, list, lib).value;
      AssignFrame(mid, lib.parseSet(strs[|strs| - 1]).value, list, lib);
    }
  }

  /**
   * `strvals.ParseInto` (or `ParseIntoString`) of each string of one list into `vals`, in
   * order, stopping at the first error.
   */
  method ParseAllInto(vals: map<string, Value>, strs: seq<string>, list: ValueList, lib: Libraries)
    returns (r: Result<map<string, Value>, Error>)
    ensures r == ApplyList(vals, strs, list, lib)
  {
    var acc := vals;
    var i := 0;
    while i < |strs|
      invariant 0 <= i <= |strs|
      invariant ApplyList(vals, strs[..i], list, lib) == Ok(acc)
    {
      assert strs[..i + 1][..i] == strs[..i];
      var parsed := ParseInto(strs[i], acc, list, lib);
      if parsed.Err? {
        ApplyListStops(vals, strs, list, lib, i + 1);
        return parsed;
      }
      acc := parsed.value;
      i := i + 1;
    }
    assert strs[..i] == strs;
    r := Ok(acc);
  }

  /** All `--value` strings, then all `--string-value` strings. */
  function ApplyAll(vals: map<string, Value>, values: seq<string>, stringValues: seq<string>, lib: Libraries)
    : Result<map<string, Value>, Error>
  {
    var typed :- ApplyList(vals, values, ValueFlag, lib);
    ApplyList(typed, stringValues, StringValueFlag, lib)
  }

  /** Every failure is a parse error of one of the two lists, reported with that list's flag. */
  lemma ApplyAllErrors(vals: map<string, Value>, values: seq<string>, stringValues: seq<string>, lib: Libraries)
    ensures ApplyAll(vals, values, stringValues, lib).Err? ==>
      ApplyAll(vals, values, stringValues, lib).error.ValueParse?
    ensures ApplyList(vals, values, ValueFlag, lib).Err? ==>
      ApplyAll(vals, values, stringValues, lib) == ApplyList(vals, values, ValueFlag, lib).PropagateFailure()
      && ApplyAll(vals, values, stringValues, lib).error.list == ValueFlag
    ensures ApplyList(vals, values, ValueFlag, lib).Ok? && ApplyAll(vals, values, stringValues, lib).Err? ==>
      ApplyAll(vals, values, stringValues, lib).error.list == StringValueFlag
  {
    ListErrorsTagged(vals, values, ValueFlag, lib);
    if ApplyList(vals, values, ValueFlag, lib).Ok? {
      ListErrorsTagged(ApplyList(vals, values, ValueFlag, lib).value, stringValues, StringValueFlag, lib);
    }
  }

  lemma {:induction false} ListErrorsTagged(vals: map<string, Value>, strs: seq<string>, list: ValueList,
                                            lib: Libraries)
    ensures ApplyList(vals, strs, list, lib).Err? ==>
      ApplyList(vals, strs, list, lib).error.ValueParse? && ApplyList(vals, strs, list, lib).error.list == list
    decreases |strs|
  {
    if strs != [] {
      ListErrorsTagged(vals, strs[..|strs| - 1], list, lib);
    }
  }

  /**
   * A `--string-value` given the same key as a `--value` wins, and stores the text as a
   * string: `port=8080` stays `"8080"`.
   */
  lemma StringValueWins(vals: map<string, Value>, s: string, t: string, key: KeyPath, raw: string,
                        other: string, lib: Libraries)
    requires lib.parseSet(s) == Ok([Assignment(key, other)])
    requires lib.parseSet(t) == Ok([Assignment(key, raw)])
    ensures ApplyAll(vals, [s], [t], lib).Ok?
    ensures Lookup(ApplyAll(vals, [s], [t], lib).value, key) == Some(Str(raw))
  {
    assert [s][..0] == [] && [t][..0] == [];
    var typed := Assign(vals, [Assignment(key, other)], ValueFlag, lib);
    assert ApplyList(vals, [s], ValueFlag, lib) == Ok(typed);
    assert ApplyList(typed, [t], StringValueFlag, lib) == Ok(Assign(typed, [Assignment(key, raw)], StringValueFlag, lib));
    LastAssignmentWins(typed, [Assignment(key, raw)], StringValueFlag, lib);
  }

  /**
   * Whatever came before, the last assignment of the last `--string-value` decides the
   * value at its key, stored as a string.
   */
  lemma LastStringValueWins(vals: map<string, Value>, values: seq<string>, stringValues: seq<string>,
                            lib: Libraries, a: Assignment)
    requires ApplyAll(vals, values, stringValues, lib).Ok?
    requires stringValues != [] && lib.parseSet(stringValues[|stringValues| - 1]).Ok?
    requires var last := lib.parseSet(stringValues[|stringValues| - 1]).value;
      last != [] && a == last[|last| - 1]
    ensures Lookup(ApplyAll(vals, values, stringValues, lib).value, a.key) == Some(Str(a.raw))
  {
    var typed := ApplyList(vals, values, ValueFlag, lib).value;
    var mid := ApplyList(typed, stringValues[..|stringValues| - 1], StringValueFlag, lib).value;
    var last := lib.parseSet(stringValues[|stringValues| - 1]).value;
    assert ApplyAll(vals, values, stringValues, lib).value == Assign(mid, last, StringValueFlag, lib);
    LastAssignmentWins(mid, last, StringValueFlag, lib);
  }
}
