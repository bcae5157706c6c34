/** The Python objects that `json.loads` produces, and the handful of
    operations the daemon performs on them: `d.get(k, default)`, `d[k]`,
    `len(x)`, truth testing, `str(x)`, and redis-py's encoding of a value it is
    asked to store. */
module PyJson {
  import opened Py

  /** A parsed JSON document. An object keeps its keys in insertion order, as a
      Python dict does; `json.loads` leaves no key twice, and the lookups below
      take the first binding. Numbers are integers. */
  datatype Json =
    | Null
    | Bool(b: bool)
    | Num(n: int)
    | Str(s: string)
    | Arr(items: seq<Json>)
    | Obj(fields: seq<(string, Json)>)

  const EmptyObj: Json := Obj([])

  /** The literal `"N/A"` used for a missing field. */
  const NA: Json := Str("N/A")

  /** The value of the first binding of `key`, if any. */
  function Lookup(fields: seq<(string, Json)>, key: string): (r: Option<Json>)
    ensures r.None? <==> forall i :: 0 <= i < |fields| ==> fields[i].0 != key
    ensures r.Some? ==>
      exists i :: 0 <= i < |fields| && fields[i] == (key, r.value) && forall j :: 0 <= j < i ==> fields[j].0 != key
  {
    if fields == [] then None
    else if fields[0].0 == key then Some(fields[0].1)
    else Lookup(fields[1..], key)
  }

  /** The bindings of `x`, which must be a dict for `x.get(...)` to exist. */
  function AsDict(x: Json): (r: Result<seq<(string, Json)>>)
    ensures r.Ok? <==> x.Obj?
    ensures r.Ok? ==> r.value == x.fields
    ensures r.Err? ==> r.error == AttributeError
  {
    if x.Obj? then Ok(x.fields) else Err(AttributeError)
  }

  /** `d.get(key, default)` on a dict. */
  function GetOr(fields: seq<(string, Json)>, key: string, default: Json): (r: Json)
    ensures Lookup(fields, key).None? ==> r == default
    ensures Lookup(fields, key).Some? ==> r == Lookup(fields, key).value
  {
    match Lookup(fields, key)
    case Some(v) => v
    case None => default
  }

  /** `d[key]` with a string key. */
  function Index(d: Json, key: string): (r: Result<Json>)
    ensures r.Ok? ==> d.Obj? && Lookup(d.fields, key) == Some(r.value)
    ensures d.Obj? && Lookup(d.fields, key).None? ==> r == Err(KeyError)
    ensures !d.Obj? ==> r == Err(TypeError)
  {
    match d
    case Obj(fields) =>
      (match Lookup(fields, key)
       case Some(v) => Ok(v)
       case None => Err(KeyError))
    case _ => Err(TypeError)
  }

  /** `len(x)`: the length of a string, list or dict; anything else has no
      length. */
  function Len(j: Json): (r: Result<nat>)
    ensures r.Ok? <==> j.Str? || j.Arr? || j.Obj?
    ensures j.Str? ==> r == Ok(|j.s|)
    ensures j.Arr? ==> r == Ok(|j.items|)
    ensures j.Obj? ==> r == Ok(|j.fields|)
    ensures r.Err? ==> r.error == TypeError
  {
    match j
    case Str(s) => Ok(|s|)
    case Arr(items) => Ok(|items|)
    case Obj(fields) => Ok(|fields|)
    case _ => Err(TypeError)
  }

  /** `bool(x)` */
  predicate Truthy(j: Json) {
    match j
    case Null => false
    case Bool(b) => b
    case Num(n) => n != 0
    case Str(s) => s != ""
    case Arr(items) => items != []
    case Obj(fields) => fields != []
  }

  /** `str(x)`, which is also what an f-string inserts: a string is itself,
      `None`, `True` and `False` are their names, an integer is its decimal
      text, and a list or dict is bracketed. Strings inside a list or dict are
      quoted with `'` and not escaped. */
  function PyStr(j: Json): (r: string)
    ensures j.Str? ==> r == j.s
    ensures j.Null? ==> r == "None"
    ensures j.Bool? ==> r == (if j.b then "True" else "False")
    ensures j.Num? ==> r == IntToString(j.n)
    ensures j.Arr? ==> r != [] && r[0] == '[' && r[|r| - 1] == ']'
    ensures j.Obj? ==> r != [] && r[0] == '{' && r[|r| - 1] == '}'
    decreases j, 1
  {
    match j
    case Str(s) => s
    case _ => Repr(j)
  }

  /** `repr(x)` */
  function Repr(j: Json): string
    decreases j, 0
  {
    match j
    case Null => "None"
    case Bool(b) => if b then "True" else "False"
    case Num(n) => IntToString(n)
    case Str(s) => "'" + s + "'"
    case Arr(items) =>
      "[" + Join(seq(|items|, i requires 0 <= i < |items| => Repr(items[i])), ", ") + "]"
    case Obj(fields) =>
      "{" + Join(seq(|fields|, i requires 0 <= i < |fields| => FieldRepr(j, i)), ", ") + "}"
  }

  function FieldRepr(j: Json, i: nat): string
    requires j.Obj? && i < |j.fields|
    decreases j, 0, i
  {
    var (k, v) := j.fields[i];
    assert v < j;
    "'" + k + "': " + Repr(v)
  }

  /** `j[path[0]][path[1]]...`: every key must be present in a dict. */
  function IndexPath(j: Json, path: seq<string>): Result<Json>
    decreases |path|
  {
    if path == [] then Ok(j)
    else
      var child :- Index(j, path[0]);
      IndexPath(child, path[1..])
  }

  /** The value reached by following `path` through nested dicts, or
      `default` when some key on the way is missing; what a chain of
      `.get(key, {})` ending in `.get(key, default)` reads when it does not
      raise. */
  function GetPath(j: Json, path: seq<string>, default: Json): Json
    decreases |path|
  {
    if path == [] then j
    else
      match j
      case Obj(fields) =>
        (match Lookup(fields, path[0])
         case Some(v) => GetPath(v, path[1..], default)
         case None => default)
      case _ => default
  }

  /** A chain `x.get(k1, {}).get(k2, {})...` over `path` does not raise:
      `x` is a dict, and so is every value the chain finds present on the
      way (a missing key gives `{}`, which is one). */
  predicate DictsAlong(j: Json, path: seq<string>)
    decreases |path|
  {
    && j.Obj?
    && (path == [] ||
        match Lookup(j.fields, path[0])
        case None => true
        case Some(v) => DictsAlong(v, path[1..]))
  }

  /** One `.get(k, {})` on a dict, then a call on what it returns. */
  lemma DictsAlong1(j: Json, k: string)
    ensures DictsAlong(j, [k]) <==> j.Obj? && GetOr(j.fields, k, EmptyObj).Obj?
  {
    assert [k][1..] == [];
  }

  /** Two chained `.get(k, {})` calls, then a call on what they return. */
  lemma DictsAlong2(j: Json, k1: string, k2: string)
    ensures DictsAlong(j, [k1, k2]) <==>
      && j.Obj? && GetOr(j.fields, k1, EmptyObj).Obj?
      && GetOr(GetOr(j.fields, k1, EmptyObj).fields, k2, EmptyObj).Obj?
  {
    assert [k1, k2][1..] == [k2];
    if j.Obj? {
      DictsAlong1(GetOr(j.fields, k1, EmptyObj), k2);
    }
  }

  /** A two-key path is two subscripts. */
  lemma IndexPath2(j: Json, k1: string, k2: string)
    ensures IndexPath(j, [k1, k2])
      == if Index(j, k1).Err? then Err(Index(j, k1).error) else Index(Index(j, k1).value, k2)
  {
    assert [k1, k2][1..] == [k2] && [k2][1..] == [];
    if Index(j, k1).Ok? {
      var child := Index(j, k1).value;
      assert IndexPath(child, [k2]) == Index(child, k2) by {
        if Index(child, k2).Ok? {
          assert IndexPath(Index(child, k2).value, []) == Ok(Index(child, k2).value);
        }
      }
    }
  }

  /** A three-key path is a subscript followed by a two-key path. */
  lemma IndexPath3(j: Json, k1: string, k2: string, k3: string)
    ensures IndexPath(j, [k1, k2, k3])
      == if Index(j, k1).Err? then Err(Index(j, k1).error) else IndexPath(Index(j, k1).value, [k2, k3])
  {
    assert [k1, k2, k3][1..] == [k2, k3];
  }

  /** A four-key path is a subscript followed by a three-key path. */
  lemma IndexPath4(j: Json, k1: string, k2: string, k3: string, k4: string)
    ensures IndexPath(j, [k1, k2, k3, k4])
      == if Index(j, k1).Err? then Err(Index(j, k1).error) else IndexPath(Index(j, k1).value, [k2, k3, k4])
  {
    assert [k1, k2, k3, k4][1..] == [k2, k3, k4];
  }

  /** A one-key path reads what `.get` reads. */
  lemma GetPath1(fields: seq<(string, Json)>, k: string, default: Json)
    ensures GetPath(Obj(fields), [k], default) == GetOr(fields, k, default)
  {
    assert [k][1..] == [];
  }

  /** A path whose first key is missing reads the default. */
  lemma GetPathMissing(fields: seq<(string, Json)>, path: seq<string>, default: Json)
    requires path != [] && Lookup(fields, path[0]).None?
    ensures GetPath(Obj(fields), path, default) == default
  {
  }

  /** A two-key path through dicts reads what the nested `.get` calls read. */
  lemma GetPath2(fields: seq<(string, Json)>, k1: string, k2: string, default: Json)
    requires GetOr(fields, k1, EmptyObj).Obj?
    ensures GetPath(Obj(fields), [k1, k2], default) == GetOr(GetOr(fields, k1, EmptyObj).fields, k2, default)
  {
    assert [k1, k2][1..] == [k2] && [k2][1..] == [];
    var child := GetOr(fields, k1, EmptyObj);
    if Lookup(fields, k1).Some? {
      assert GetPath(Obj(fields), [k1, k2], default) == GetPath(child, [k2], default);
    }
    assert GetPath(child, [k2], default) == GetOr(child.fields, k2, default) by {
      assert GetPath(child, [k2], default)
        == match Lookup(child.fields, k2) case Some(v) => GetPath(v, [], default) case None => default;
    }
  }

  /** A three-key path through dicts reads what the nested `.get` calls read. */
  lemma GetPath3(fields: seq<(string, Json)>, k1: string, k2: string, k3: string, default: Json)
    requires GetOr(fields, k1, EmptyObj).Obj?
    requires GetOr(GetOr(fields, k1, EmptyObj).fields, k2, EmptyObj).Obj?
    ensures GetPath(Obj(fields), [k1, k2, k3], default)
      == GetOr(GetOr(GetOr(fields, k1, EmptyObj).fields, k2, EmptyObj).fields, k3, default)
  {
    assert [k1, k2, k3][1..] == [k2, k3];
    GetPath2(GetOr(fields, k1, EmptyObj).fields, k2, k3, default);
  }

  /** How redis-py turns a value it is asked to store into text: strings as
      they are, integers in decimal; booleans, None, lists and dicts are
      refused with a DataError before anything is sent. */
  function RedisEncode(j: Json): (r: Result<string>)
    ensures r.Ok? <==> j.Str? || j.Num?
    ensures j.Str? ==> r == Ok(j.s)
    ensures r.Err? ==> r.error == DataError
  {
    match j
    case Str(s) => Ok(s)
    case Num(n) => Ok(IntToString(n))
    case _ => Err(DataError)
  }
}
