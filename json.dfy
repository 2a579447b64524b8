/**
 * JSON values as Python's `json` module hands them to the program, and the
 * Python operations the core performs on them (`d[k]`, `d[k] = v`,
 * `del d[k]`, `x in v`, iteration, `list.append`, `list(map(f, xs))`),
 * each with the exception Python raises where it raises one.
 */
module Json {
  import opened Wrappers
  import Strings

  /** A JSON value; an object keeps its keys in insertion order, like a Python dict. */
  datatype Json =
    | Null
    | Bool(b: bool)
    | Num(n: int)
    | Str(s: string)
    | Arr(items: seq<Json>)
    | Obj(fields: seq<Field>)

  datatype Field = Field(key: string, value: Json)

  /** The exceptions the core can raise. */
  datatype Error =
    | KeyError(key: string)
    | TypeError
    | AttributeError
    | DecodeError(path: string)
    | IsADirectoryError(path: string)
    | NotADirectoryError(path: string)
    | FileExistsError(path: string)
    | FileNotFoundError(path: string)
    | ValueError
    | UpstreamError

  /** The keys of an object, in order. */
  function Keys(fields: seq<Field>): (ks: seq<string>)
    ensures |ks| == |fields|
  {
    seq(|fields|, i requires 0 <= i < |fields| => fields[i].key)
  }

  lemma KeysCons(fields: seq<Field>)
    requires fields != []
    ensures Keys(fields) == [fields[0].key] + Keys(fields[1..])
  {
  }

  /** The value stored under `k` (the first one, should keys repeat). */
  function Lookup(fields: seq<Field>, k: string): (r: Option<Json>)
    ensures r.Some? <==> k in Keys(fields)
    ensures r.Some? ==> Field(k, r.value) in fields
  {
    if fields == [] then None
    else
      KeysCons(fields);
      if fields[0].key == k then Some(fields[0].value)
      else Lookup(fields[1..], k)
  }

  /** No key occurs twice. */
  predicate DistinctKeys(fields: seq<Field>)
  {
    forall i, j :: 0 <= i < j < |fields| ==> fields[i].key != fields[j].key
  }

  /** In an object without repeated keys, each key looks up its own value. */
  lemma {:induction false} LookupDistinct(fields: seq<Field>, i: nat)
    requires DistinctKeys(fields) && i < |fields|
    ensures Lookup(fields, fields[i].key) == Some(fields[i].value)
  {
    if i > 0 {
      assert fields[0].key != fields[i].key;
      assert fields[1..][i - 1] == fields[i];
      LookupDistinct(fields[1..], i - 1);
    }
  }

  /** A key no earlier field carries looks up its own field's value. */
  lemma {:induction false} LookupFirst(fields: seq<Field>, i: nat)
    requires i < |fields| && forall j :: 0 <= j < i ==> fields[j].key != fields[i].key
    ensures Lookup(fields, fields[i].key) == Some(fields[i].value)
  {
    if i > 0 {
      assert fields[1..][i - 1] == fields[i];
      assert forall j :: 0 <= j < i - 1 ==> fields[1..][j] == fields[j + 1];
      LookupFirst(fields[1..], i - 1);
    }
  }

  /**
   * `d[k] = v`: an existing key keeps its position and takes the new value;
   * a new key goes at the end.
   */
  function Put(fields: seq<Field>, k: string, v: Json): (r: seq<Field>)
    ensures Lookup(r, k) == Some(v)
    ensures forall k' :: k' != k ==> Lookup(r, k') == Lookup(fields, k')
  {
    if fields == [] then [Field(k, v)]
    else if fields[0].key == k then
      var r := [Field(k, v)] + fields[1..];
      assert r[1..] == fields[1..];
      KeysCons(fields);
      KeysCons(r);
      r
    else
      var r := [fields[0]] + Put(fields[1..], k, v);
      assert r[1..] == Put(fields[1..], k, v);
      KeysCons(fields);
      KeysCons(r);
      r
  }

  /** An existing key keeps its place; a new key goes last. */
  lemma {:induction false} PutKeys(fields: seq<Field>, k: string, v: Json)
    ensures k in Keys(fields) ==> Keys(Put(fields, k, v)) == Keys(fields)
    ensures k !in Keys(fields) ==> Keys(Put(fields, k, v)) == Keys(fields) + [k]
  {
    if fields != [] {
      var r := Put(fields, k, v);
      KeysCons(fields);
      KeysCons(r);
      if fields[0].key == k {
        assert r[1..] == fields[1..];
      } else {
        assert r[1..] == Put(fields[1..], k, v);
        assert k in Keys(fields) <==> k in Keys(fields[1..]);
        PutKeys(fields[1..], k, v);
      }
    }
  }

  /** A new key is appended at the end. */
  lemma {:induction false} PutAbsent(fields: seq<Field>, k: string, v: Json)
    requires k !in Keys(fields)
    ensures Put(fields, k, v) == fields + [Field(k, v)]
  {
    if fields != [] {
      KeysCons(fields);
      PutAbsent(fields[1..], k, v);
      assert [fields[0]] + (fields[1..] + [Field(k, v)]) == fields + [Field(k, v)];
    }
  }

  /** `del d[k]` (every occurrence, should keys repeat). */
  function Remove(fields: seq<Field>, k: string): (r: seq<Field>)
    ensures k !in Keys(r)
    ensures forall k' :: k' != k ==> Lookup(r, k') == Lookup(fields, k')
    ensures |r| <= |fields|
  {
    if fields == [] then []
    else if fields[0].key == k then Remove(fields[1..], k)
    else
      var r := [fields[0]] + Remove(fields[1..], k);
      assert r[1..] == Remove(fields[1..], k);
      KeysCons(r);
      r
  }

  /** `v[k]` with a string key. */
  function GetItem(v: Json, k: string): (r: Result<Json, Error>)
    ensures r.Ok? <==> v.Obj? && k in Keys(v.fields)
    ensures r.Ok? ==> Lookup(v.fields, k) == Some(r.value)
    ensures r.Err? ==> r.error == if v.Obj? then KeyError(k) else TypeError
  {
    match v
    case Obj(fields) =>
      (match Lookup(fields, k)
       case Some(x) => Ok(x)
       case None => Err(KeyError(k)))
    case _ => Err(TypeError)
  }

  /** `v[k] = x`: only a dict accepts a string key. */
  function SetItem(v: Json, k: string, x: Json): (r: Result<Json, Error>)
    ensures r.Ok? <==> v.Obj?
    ensures r.Ok? ==> r.value.Obj? && r.value.fields == Put(v.fields, k, x)
    ensures r.Err? ==> r.error == TypeError
  {
    match v
    case Obj(fields) => Ok(Obj(Put(fields, k, x)))
    case _ => Err(TypeError)
  }

  /**
   * `x in v`: element equality for a list, key membership for a dict (an
   * unhashable `x` raises), substring search for a string; anything else
   * raises.
   */
  function Contains(v: Json, x: Json): (r: Result<bool, Error>)
    ensures v.Arr? ==> r == Ok(x in v.items)
  {
    match v
    case Arr(items) => Ok(x in items)
    case Obj(fields) =>
      if x.Arr? || x.Obj? then Err(TypeError) else Ok(x.Str? && x.s in Keys(fields))
    case Str(s) =>
      if x.Str? then Ok(Strings.IsSubstring(x.s, s)) else Err(TypeError)
    case _ => Err(TypeError)
  }

  /** `list(v)`: the elements of a list, the keys of a dict, the characters of a string. */
  function Iterate(v: Json): (r: Result<seq<Json>, Error>)
    ensures v.Arr? ==> r == Ok(v.items)
    ensures r.Err? <==> v.Null? || v.Bool? || v.Num?
  {
    match v
    case Arr(items) => Ok(items)
    case Obj(fields) => Ok(seq(|fields|, i requires 0 <= i < |fields| => Str(fields[i].key)))
    case Str(s) => Ok(seq(|s|, i requires 0 <= i < |s| => Str([s[i]])))
    case _ => Err(TypeError)
  }

  /** `v.append(x)`: only a list has `append`. */
  function Append(v: Json, x: Json): (r: Result<Json, Error>)
    ensures r.Ok? <==> v.Arr?
    ensures r.Ok? ==> r.value == Arr(v.items + [x])
    ensures r.Err? ==> r.error == AttributeError
  {
    match v
    case Arr(items) => Ok(Arr(items + [x]))
    case _ => Err(AttributeError)
  }

  /** A value Python compares and adds as an integer (`bool` is a subclass of `int`). */
  function AsInt(v: Json): (r: Option<int>)
    ensures r.Some? <==> v.Num? || v.Bool?
    ensures v.Num? ==> r == Some(v.n)
  {
    match v
    case Num(n) => Some(n)
    case Bool(b) => Some(if b then 1 else 0)
    case _ => None
  }

  /** A value used where the source formats it into a path or splits it. */
  function AsString(v: Json): (r: Result<string, Error>)
    ensures r.Ok? <==> v.Str?
    ensures r.Ok? ==> r.value == v.s
  {
    if v.Str? then Ok(v.s) else Err(TypeError)
  }

  /**
   * `list(map(f, xs))` where `f` may raise: every element mapped in order,
   * or the exception of the first element on which `f` raises.
   */
  function MapAll<T>(xs: seq<Json>, f: Json -> Result<T, Error>): (r: Result<seq<T>, Error>)
    ensures r.Ok? <==> forall i :: 0 <= i < |xs| ==> f(xs[i]).Ok?
    ensures r.Ok? ==> |r.value| == |xs| && forall i :: 0 <= i < |xs| ==> f(xs[i]) == Ok(r.value[i])
    ensures r.Err? ==> exists i :: 0 <= i < |xs| && f(xs[i]) == Err(r.error)
                                   && forall j :: 0 <= j < i ==> f(xs[j]).Ok?
  {
    if xs == [] then Ok([])
    else
      var head :- f(xs[0]);
      var tail :- MapAll(xs[1..], f);
      assert forall i :: 1 <= i < |xs| ==> xs[i] == xs[1..][i - 1];
      Ok([head] + tail)
  }
}
