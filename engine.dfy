/** pkg/engine: render one template string. */
module Engine {
  import opened Wrappers
  import opened Values
  import opened Errors
  import opened Externals
  import opened GoStrings

  predicate IsAscii(ch: char) {
    ch as int < 128
  }

  /** The `[[:^ascii:]]` replacement: every character outside ASCII is removed. */
  function StripNonAscii(s: string): (r: string)
    ensures |r| <= |s|
    ensures forall i :: 0 <= i < |r| ==> IsAscii(r[i])
  {
    if s == [] then []
    else if IsAscii(s[0]) then [s[0]] + StripNonAscii(s[1..])
    else StripNonAscii(s[1..])
  }

  /** Exactly the ASCII characters survive, and ASCII text is left as it is. */
  lemma {:induction false} StripNonAsciiKeeps(s: string)
    ensures forall ch :: ch in StripNonAscii(s) <==> ch in s && IsAscii(ch)
    ensures (forall i :: 0 <= i < |s| ==> IsAscii(s[i])) ==> StripNonAscii(s) == s
    decreases |s|
  {
    if s != [] {
      StripNonAsciiKeeps(s[1..]);
      assert forall ch :: ch in s <==> ch == s[0] || ch in s[1..];
      if forall i :: 0 <= i < |s| ==> IsAscii(s[i]) {
        assert forall i :: 0 <= i < |s[1..]| ==> IsAscii(s[1..][i]) by {
          forall i | 0 <= i < |s[1..]| ensures IsAscii(s[1..][i]) {
            assert s[1..][i] == s[i + 1];
          }
        }
        assert s == [s[0]] + s[1..];
      }
    }
  }

  /** Stripping twice is stripping once. */
  lemma StripNonAsciiIdempotent(s: string)
    ensures StripNonAscii(StripNonAscii(s)) == StripNonAscii(s)
  {
    StripNonAsciiKeeps(StripNonAscii(s));
  }

  lemma StripCons(x: char, t: string)
    ensures StripNonAscii([x] + t) == (if IsAscii(x) then [x] else []) + StripNonAscii(t)
  {
    assert ([x] + t)[0] == x && ([x] + t)[1..] == t;
  }

  /** Stripping works character by character, so it distributes over concatenation. */
  lemma {:induction false} StripNonAsciiConcat(a: string, b: string)
    ensures StripNonAscii(a + b) == StripNonAscii(a) + StripNonAscii(b)
  {
    if a == [] {
      assert a + b == b;
    } else {
      var head := if IsAscii(a[0]) then [a[0]] else [];
      assert a + b == [a[0]] + (a[1..] + b);
      assert a == [a[0]] + a[1..];
      StripNonAsciiConcat(a[1..], b);
      StripCons(a[0], a[1..] + b);
      StripCons(a[0], a[1..]);
      assert head + (StripNonAscii(a[1..]) + StripNonAscii(b))
          == (head + StripNonAscii(a[1..])) + StripNonAscii(b);
    }
  }

  /** What a key missing from the values renders as; it is removed from the output. */
  const NoValue: string := "<no value>"

  /**
   * Strips non-ASCII characters, parses and executes the template with the rig function
   * table and `missingkey=error`, removes every `<no value>`, and removes empty lines when
   * asked to.
   */
  function Render(str: string, vals: Value, removeEmptyLines: bool, lib: Libraries): (r: Result<string, Error>)
    ensures r.Err? <==> lib.execute(EngineStrict, StripNonAscii(str), vals).Err?
    ensures r.Ok? && !removeEmptyLines ==> |r.value| <= |lib.execute(EngineStrict, StripNonAscii(str), vals).value|
  {
    match lib.execute(EngineStrict, StripNonAscii(str), vals)
    case Err(reason) => Err(RenderFailed(reason))
    case Ok(out) =>
      var cleaned := RemoveAll(out, NoValue);
      Ok(if removeEmptyLines then lib.emptyLines(cleaned) else cleaned)
  }

  /** Rendering fails exactly when the template fails to parse or execute, with its error. */
  lemma RenderFails(str: string, vals: Value, removeEmptyLines: bool, lib: Libraries)
    ensures Render(str, vals, removeEmptyLines, lib).Err? <==>
      lib.execute(EngineStrict, StripNonAscii(str), vals).Err?
    ensures Render(str, vals, removeEmptyLines, lib).Err? ==>
      Render(str, vals, removeEmptyLines, lib)
      == Err(RenderFailed(lib.execute(EngineStrict, StripNonAscii(str), vals).error))
  {
  }

  /** The template only ever sees ASCII text: stripping beforehand changes nothing. */
  lemma RenderSeesOnlyAscii(str: string, vals: Value, removeEmptyLines: bool, lib: Libraries)
    ensures Render(StripNonAscii(str), vals, removeEmptyLines, lib) == Render(str, vals, removeEmptyLines, lib)
  {
    StripNonAsciiIdempotent(str);
  }

  /** Output without the marker passes through unchanged when empty lines are kept. */
  lemma RenderPlain(str: string, vals: Value, lib: Libraries, out: string)
    requires lib.execute(EngineStrict, StripNonAscii(str), vals) == Ok(out)
    requires !Contains(out, NoValue)
    ensures Render(str, vals, false, lib) == Ok(out)
  {
    RemoveAllAbsent(out, NoValue);
  }

  /** Output holding the marker loses at least the marker's ten characters. */
  lemma RenderRemovesMarker(str: string, vals: Value, lib: Libraries, out: string)
    requires lib.execute(EngineStrict, StripNonAscii(str), vals) == Ok(out)
    requires Contains(out, NoValue)
    ensures Render(str, vals, false, lib).Ok?
    ensures |Render(str, vals, false, lib).value| <= |out| - 10
  {
    RemoveAllShrinks(out, NoValue);
  }

  /**
   * Removing empty lines is a last pass over the rendering with them kept: the same error
   * when rendering fails, the same text with the empty lines removed otherwise.
   */
  lemma RenderRemovesEmptyLinesOnRequest(str: string, vals: Value, lib: Libraries)
    ensures Render(str, vals, true, lib)
         == (var r := Render(str, vals, false, lib); if r.Ok? then Ok(lib.emptyLines(r.value)) else r)
  {
  }

  function Getenv(env: map<string, string>, name: string): string {
    if name in env then env[name] else ""
  }

  /** The template function `env`: an unset or empty variable is an error. */
  function EnvFunc(env: map<string, string>, name: string): (r: Result<string, Error>)
    ensures r.Ok? <==> name in env && env[name] != ""
    ensures r.Ok? ==> r.value == env[name]
    ensures r.Err? ==> r == Err(EnvUnset(name))
  {
    var e := Getenv(env, name);
    if e == "" then Err(EnvUnset(name)) else Ok(e)
  }

  /**
   * The template function `expandenv`: an error when the whole expansion is empty; the
   * error names the argument, not a variable.
   */
  function ExpandEnvFunc(env: map<string, string>, s: string, lib: Libraries): (r: Result<string, Error>)
    ensures r.Ok? <==> lib.expandEnv(s, env) != ""
    ensures r.Ok? ==> r.value == lib.expandEnv(s, env)
    ensures r.Err? ==> r == Err(EnvUnset(s))
  {
    var e := lib.expandEnv(s, env);
    if e == "" then Err(EnvUnset(s)) else Ok(e)
  }
}
