/** The untyped values the two services receive in their request dictionaries
    and get back from the JSON decoder, with the Python behaviour the services
    depend on: truthiness, `str()`, iteration, `dict.get` and `", ".join`. */
module PyValue {
  import opened Wrappers
  import opened PyStr

  /** A Python value as decoded from JSON: `None`, `bool`, `int`, `str`, `list`
      and `dict` (whose entries keep their insertion order). */
  datatype Value =
    | Null
    | Bool(b: bool)
    | Int(i: int)
    | Str(s: string)
    | List(items: seq<Value>)
    | Dict(entries: seq<(string, Value)>)

  /** A request dictionary passed as keyword arguments. */
  type Input = map<string, Value>

  /** Python truthiness: `None`, `False`, `0`, `''`, `[]` and `{}` are false. */
  predicate Truthy(v: Value) {
    match v
    case Null => false
    case Bool(b) => b
    case Int(i) => i != 0
    case Str(s) => s != ""
    case List(items) => items != []
    case Dict(entries) => entries != []
  }

  /** Python's `str(v)` (`quoted` = false) and `repr(v)` (`quoted` = true), which
      is how `str` shows the elements of a list or a dict. */
  function Render(v: Value, quoted: bool): (r: string)
    ensures v != Str("") ==> |r| > 0
    decreases v
  {
    match v
    case Null => "None"
    case Bool(b) => if b then "True" else "False"
    case Int(i) => IntToStr(i)
    case Str(s) => if quoted then "'" + s + "'" else s
    case List(items) =>
      "[" + Join(", ", seq(|items|, k requires 0 <= k < |items| => Render(items[k], true))) + "]"
    case Dict(entries) =>
      "{" + Join(", ", seq(|entries|, k requires 0 <= k < |entries| =>
                             "'" + entries[k].0 + "': " + Render(entries[k].1, true))) + "}"
  }

  /** Python's `str(v)`, also what an f-string `{v}` inserts. */
  function Show(v: Value): (r: string)
    ensures Truthy(v) ==> |r| > 0
    ensures v.Str? ==> r == v.s
  {
    Render(v, false)
  }

  /** Python's `dict.get(key, default)`. */
  function Get(m: Input, key: string, default: Value): (r: Value)
    ensures key in m ==> r == m[key]
    ensures key !in m ==> r == default
  {
    if key in m then m[key] else default
  }

  /** An alias table entry: the first of `keys` present in `m` (by presence, not
      truthiness) supplies the value, and `default` is used when none is. */
  function Resolve(m: Input, keys: seq<string>, default: Value): Value
  {
    if keys == [] then default
    else if keys[0] in m then m[keys[0]]
    else Resolve(m, keys[1..], default)
  }

  /** What the alias table means: the value of the first key present, whatever
      that value is, and the default exactly when no key is present. */
  lemma {:induction false} ResolveFirstPresent(m: Input, keys: seq<string>, default: Value, i: nat)
    requires i < |keys| && keys[i] in m
    requires forall j :: 0 <= j < i ==> keys[j] !in m
    ensures Resolve(m, keys, default) == m[keys[i]]
  {
    if i > 0 {
      ResolveFirstPresent(m, keys[1..], default, i - 1);
    }
  }

  lemma {:induction false} ResolveNonePresent(m: Input, keys: seq<string>, default: Value)
    requires forall j :: 0 <= j < |keys| ==> keys[j] !in m
    ensures Resolve(m, keys, default) == default
  {
    if keys != [] {
      ResolveNonePresent(m, keys[1..], default);
    }
  }

  /** Nested `dict.get` calls, as the services write them, resolve the alias table. */
  lemma GetAlias(m: Input, key: string, alias: string, default: Value)
    ensures Get(m, key, Get(m, alias, default)) == Resolve(m, [key, alias], default)
  {
    assert [key, alias][1..] == [alias];
    if key !in m {
      assert Resolve(m, [key, alias], default) == Resolve(m, [alias], default);
      GetSingle(m, alias, default);
    }
  }

  lemma GetSingle(m: Input, key: string, default: Value)
    ensures Get(m, key, default) == Resolve(m, [key], default)
  {
    assert [key][1..] == [];
  }

  /** The entry `key` of a decoded dict, if present: `d.get(key)`. Decoded dicts
      have distinct keys; the first entry with the key is the one returned. */
  function Lookup(entries: seq<(string, Value)>, key: string): (r: Option<Value>)
    ensures r.Some? ==> exists k :: 0 <= k < |entries| && entries[k] == (key, r.value)
    ensures r.None? <==> forall k :: 0 <= k < |entries| ==> entries[k].0 != key
  {
    if entries == [] then None
    else if entries[0].0 == key then Some(entries[0].1)
    else
      var r := Lookup(entries[1..], key);
      assert forall k :: 1 <= k < |entries| ==> entries[k] == entries[1..][k - 1];
      r
  }

  /** `for x in v`: a string yields its characters, a list its items, a dict its
      keys; any other value raises TypeError (not iterable). */
  function Iterate(v: Value): (r: Result<seq<Value>>)
    ensures r.Success? <==> v.Str? || v.List? || v.Dict?
    ensures r.Success? ==> (Truthy(v) <==> r.value != [])
  {
    match v
    case Str(s) => Success(seq(|s|, k requires 0 <= k < |s| => Str([s[k]])))
    case List(items) => Success(items)
    case Dict(entries) => Success(seq(|entries|, k requires 0 <= k < |entries| => Str(entries[k].0)))
    case _ => Failure(TypeError)
  }

  /** The strings of a sequence of values, or None when one of them is not a string. */
  function Strings(vs: seq<Value>): (r: Option<seq<string>>)
    ensures r.Some? <==> forall k :: 0 <= k < |vs| ==> vs[k].Str?
    ensures r.Some? ==> |r.value| == |vs| && forall k :: 0 <= k < |vs| ==> r.value[k] == vs[k].s
  {
    if vs == [] then Some([])
    else match Strings(vs[1..])
      case None =>
        assert exists k :: 1 <= k < |vs| && !vs[k].Str? by {
          var k :| 0 <= k < |vs[1..]| && !vs[1..][k].Str?;
          assert vs[k + 1] == vs[1..][k];
        }
        None
      case Some(rest) =>
        if vs[0].Str? then
          var r := [vs[0].s] + rest;
          assert forall k :: 1 <= k < |vs| ==> r[k] == rest[k - 1] && vs[k] == vs[1..][k - 1];
          Some(r)
        else None
  }

  /** Python's `sep.join(v)`: the items of `v` must all be strings (TypeError otherwise). */
  function JoinValue(sep: string, v: Value): (r: Result<string>)
    ensures r.Success? ==> (v.Str? || v.List? || v.Dict?)
  {
    var items :- Iterate(v);
    match Strings(items)
    case None => Failure(TypeError)
    case Some(ss) => Success(Join(sep, ss))
  }

  /** `[str(x) for x in items]`. */
  function ShownItems(items: seq<Value>): (r: seq<string>)
    ensures |r| == |items| && forall k :: 0 <= k < |items| ==> r[k] == Show(items[k])
  {
    seq(|items|, k requires 0 <= k < |items| => Show(items[k]))
  }

  /** `sep.join(str(x) for x in v)`: never fails on an iterable value, and a
      list gives the join of its items' `str()`. */
  function JoinShown(sep: string, v: Value): (r: Result<string>)
    ensures r.Success? <==> (v.Str? || v.List? || v.Dict?)
    ensures v.List? ==> r == Success(Join(sep, ShownItems(v.items)))
  {
    var items :- Iterate(v);
    Success(Join(sep, ShownItems(items)))
  }

  /** Python's `format(v, ",.2f")`: integers (and booleans, which are integers)
      format; a string raises ValueError, any other value TypeError. */
  function Money(v: Value): (r: Result<string>)
    ensures r.Success? <==> v.Int? || v.Bool?
    ensures v.Int? ==> r == Success(MoneyOfInt(v.i))
  {
    match v
    case Int(i) => Success(MoneyOfInt(i))
    case Bool(b) => Success(MoneyOfInt(if b then 1 else 0))
    case Str(_) => Failure(ValueError)
    case _ => Failure(TypeError)
  }
}
