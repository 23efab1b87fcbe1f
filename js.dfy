/**
 * The few JavaScript semantics the legacy command configuration relies on: truthiness and
 * `||`, property access through `Object.prototype`, and Node's POSIX `path.basename`.
 */
module Js {
  import opened Wrappers

  /** A JavaScript value; an object is its own properties. */
  datatype JsValue =
    | Undefined
    | Null
    | Bool(b: bool)
    | Num(n: real)
    | NaN
    | Str(s: string)
    | Obj(props: map<string, JsValue>)
    | Func(name: string)   // a built-in function, known by its name

  /** What a `throw` carries: a `TypeError` from the runtime, or an `Error` of the program. */
  datatype Thrown = TypeError | Error(message: string)

  predicate Truthy(v: JsValue) {
    match v
    case Undefined => false
    case Null => false
    case Bool(b) => b
    case Num(n) => n != 0.0
    case NaN => false
    case Str(s) => s != ""
    case Obj(_) => true
    case Func(_) => true
  }

  /** `a || b`. */
  function Or(a: JsValue, b: JsValue): JsValue {
    if Truthy(a) then a else b
  }

  /** `a || b` is truthy exactly when one of them is, and is `a` whenever `a` is truthy. */
  lemma OrTruthy(a: JsValue, b: JsValue)
    ensures Truthy(Or(a, b)) <==> Truthy(a) || Truthy(b)
    ensures Truthy(a) ==> Or(a, b) == a
    ensures !Truthy(a) ==> Or(a, b) == b
  {
  }

  /** The properties every object inherits from `Object.prototype`. */
  const ObjectPrototype: set<string> := {
    "constructor", "hasOwnProperty", "isPrototypeOf", "propertyIsEnumerable", "toLocaleString",
    "toString", "valueOf", "__proto__", "__defineGetter__", "__defineSetter__",
    "__lookupGetter__", "__lookupSetter__"}

  /** What an inherited `Object.prototype` property is: `__proto__` is the prototype object itself. */
  function InheritedValue(key: string): JsValue
    requires key in ObjectPrototype
  {
    if key == "__proto__" then Obj(map[]) else Func(key)
  }

  /**
   * What `table[key]` finds in an object literal whose entries are records: an own entry,
   * a property inherited from `Object.prototype`, or nothing (`undefined`).
   */
  datatype Lookup<E> = Own(entry: E) | Inherited(name: string) | Absent

  /** `table[key]`: an own entry, else an inherited `Object.prototype` property, else `undefined`. */
  function Member<E>(table: map<string, E>, key: string): (r: Lookup<E>)
    ensures key in table <==> r.Own?
    ensures r.Own? ==> r.entry == table[key]
    ensures r.Absent? <==> key !in table && key !in ObjectPrototype
  {
    if key in table then Own(table[key])
    else if key in ObjectPrototype then Inherited(key)
    else Absent
  }

  /** `Object.prototype.hasOwnProperty.call(table, key) ? table[key] : undefined`. */
  function OwnMember<E>(table: map<string, E>, key: string): (r: Lookup<E>)
    ensures key in table <==> r.Own?
    ensures r.Own? ==> r.entry == table[key]
    ensures !r.Inherited?
  {
    if key in table then Own(table[key]) else Absent
  }

  /**
   * Only `undefined` is falsy: an entry is an object, and so is every inherited
   * `Object.prototype` property, a function or the prototype itself.
   */
  predicate Found<E>(l: Lookup<E>) {
    !l.Absent?
  }

  /**
   * The value `Object.assign` copies for one property of what `table[key]` found: the
   * entry's own property; an inherited member has no own enumerable properties.
   */
  function Copied<E, T>(found: Lookup<E>, property: E -> T): (r: Option<T>)
    ensures r.Some? <==> found.Own?
  {
    if found.Own? then Some(property(found.entry)) else None
  }

  /**
   * The two lookups differ exactly on the inherited names, where `table[key]` is found
   * but is not an entry of the table.
   */
  lemma MemberVersusOwn<E>(table: map<string, E>, key: string)
    ensures key in table || key !in ObjectPrototype ==> Member(table, key) == OwnMember(table, key)
    ensures key !in table && key in ObjectPrototype ==>
      Found(Member(table, key)) && !Member(table, key).Own? && !Found(OwnMember(table, key))
  {
  }

  /**
   * `v.key`, for keys that no built-in prototype other than `Object.prototype` defines:
   * reading a property of `undefined` or `null` throws a `TypeError`.
   */
  function Prop(v: JsValue, key: string): (r: Result<JsValue, Thrown>)
    ensures r.Err? <==> v == Undefined || v == Null
    ensures r.Err? ==> r.error == TypeError
    ensures v.Obj? && key in v.props ==> r == Ok(v.props[key])
  {
    if v == Undefined || v == Null then Err(TypeError)
    else if v.Obj? && key in v.props then Ok(v.props[key])
    else Ok(Missing(key))
  }

  /** A property a value does not have itself: inherited from `Object.prototype`, or `undefined`. */
  function Missing(key: string): JsValue {
    if key in ObjectPrototype then InheritedValue(key) else Undefined
  }

  // ---------------------------------------------------------------------------------------
  // `path.basename` on POSIX.

  function TrimTrailingSlashes(p: string): (r: string)
    ensures |r| <= |p| && r == p[..|r|]
    ensures r == [] || r[|r| - 1] != '/'
    decreases |p|
  {
    if p != [] && p[|p| - 1] == '/' then TrimTrailingSlashes(p[..|p| - 1]) else p
  }

  /** The characters after the last "/". */
  function AfterLastSlash(p: string): (r: string)
    ensures '/' !in r
    ensures |r| <= |p| && r == p[|p| - |r|..]
    decreases |p|
  {
    if p == [] || p[|p| - 1] == '/' then [] else AfterLastSlash(p[..|p| - 1]) + [p[|p| - 1]]
  }

  /** `path.basename(p)`: the last segment, ignoring trailing slashes. */
  function Basename(p: string): (r: string)
    ensures '/' !in r
  {
    AfterLastSlash(TrimTrailingSlashes(p))
  }

  lemma {:induction false} AfterLastSlashPlain(dir: string, name: string)
    requires '/' !in name
    ensures AfterLastSlash(dir + name) == (if dir == [] || dir[|dir| - 1] == '/' then name else AfterLastSlash(dir) + name)
    decreases |name|
  {
    if name != [] {
      var init := name[..|name| - 1];
      assert (dir + name)[..|dir + name| - 1] == dir + init;
      assert name == init + [name[|name| - 1]];
      AfterLastSlashPlain(dir, init);
    } else {
      assert dir + name == dir;
      if dir != [] && dir[|dir| - 1] != '/' {
        assert AfterLastSlash(dir) == AfterLastSlash(dir) + name;
      }
    }
  }

  /** Leading directories and trailing slashes are ignored: the basename of `dir/name/` is `name`. */
  lemma BasenameOfPath(dir: string, name: string, trailing: nat)
    requires name != [] && '/' !in name
    ensures Basename(name) == name
    ensures Basename(dir + "/" + name + seq(trailing, _ => '/')) == name
  {
    TrailingSlashesTrimmed(dir + "/" + name, trailing);
    assert '/' !in name;
    AfterLastSlashPlain([], name);
    assert [] + name == name;
    AfterLastSlashPlain(dir + "/", name);
    assert TrimTrailingSlashes(name) == name;
  }

  lemma {:induction false} TrailingSlashesTrimmed(p: string, n: nat)
    requires p != [] && p[|p| - 1] != '/'
    ensures TrimTrailingSlashes(p + seq(n, _ => '/')) == p
    decreases n
  {
    if n == 0 {
      assert p + seq(0, _ => '/') == p;
    } else {
      var q := p + seq(n, _ => '/');
      assert q[|q| - 1] == '/';
      assert q[..|q| - 1] == p + seq(n - 1, _ => '/');
      TrailingSlashesTrimmed(p, n - 1);
    }
  }

  /** A file named `constructor` has an `Object.prototype` property name as its base name. */
  lemma ConstructorBasename()
    ensures Basename("constructor") == "constructor"
    ensures "constructor" in ObjectPrototype
  {
    BasenameOfPath("", "constructor", 0);
  }
}
