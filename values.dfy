/** The resume record as the engine sees it: a tree of strings, lists and
    objects parsed from JSON. Objects keep their keys in insertion order,
    because the renderers walk them in that order. The Python operations
    the renderers apply to such values (truthiness, `.get`, `or`, `in`,
    iteration and `str`) are defined here. */
module SectionValues {
  import opened Strings

  datatype Value =
    | Text(s: string)
    | List(items: seq<Value>)
    | Record(fields: seq<(string, Value)>)

  /** Python truthiness: empty strings, lists and objects are false. */
  predicate Truthy(v: Value)
  {
    match v
    case Text(s) => s != ""
    case List(xs) => xs != []
    case Record(fs) => fs != []
  }

  /** The value stored under `key`: the first pair with that key. */
  function Lookup(fields: seq<(string, Value)>, key: string): (r: Option<Value>)
    ensures r.None? <==> forall i :: 0 <= i < |fields| ==> fields[i].0 != key
    ensures r.Some? ==> exists i :: 0 <= i < |fields| && fields[i] == (key, r.value)
                                 && forall j :: 0 <= j < i ==> fields[j].0 != key
  {
    if fields == [] then None
    else if fields[0].0 == key then (assert fields[0] == (key, fields[0].1); Some(fields[0].1))
    else
      var r := Lookup(fields[1..], key);
      assert forall i :: 0 < i < |fields| ==> fields[i] == fields[1..][i - 1];
      r
  }

  /** The key/value pairs of an object; other shapes have none. */
  function Fields(v: Value): seq<(string, Value)>
  {
    if v.Record? then v.fields else []
  }

  /** The key set of an object. */
  function Keys(v: Value): (ks: set<string>)
    ensures forall k :: k in ks <==> Lookup(Fields(v), k).Some?
  {
    set i | 0 <= i < |Fields(v)| :: Fields(v)[i].0
  }

  /** `key in obj` for an object. */
  predicate HasKey(v: Value, key: string)
  {
    Lookup(Fields(v), key).Some?
  }

  /** `obj.get(key)`: `None` when absent. */
  function Get(v: Value, key: string): Option<Value>
  {
    Lookup(Fields(v), key)
  }

  /** `obj.get(key, default)`. */
  function GetOr(v: Value, key: string, default: Value): (r: Value)
    ensures HasKey(v, key) ==> Some(r) == Get(v, key)
    ensures !HasKey(v, key) ==> r == default
  {
    match Get(v, key)
    case Some(x) => x
    case None => default
  }

  /** Python `a or b` where `a` may be `None`. */
  function OrElse(a: Option<Value>, b: Value): (r: Value)
    ensures a.Some? && Truthy(a.value) ==> r == a.value
    ensures !(a.Some? && Truthy(a.value)) ==> r == b
  {
    if a.Some? && Truthy(a.value) then a.value else b
  }

  /** What `for x in v` visits: the elements of a list, the characters of a
      string, the keys of an object. */
  function Iter(v: Value): (xs: seq<Value>)
    ensures v.List? ==> xs == v.items
    ensures |xs| == match v case Text(s) => |s| case List(ys) => |ys| case Record(fs) => |fs|
  {
    match v
    case Text(s) => seq(|s|, i requires 0 <= i < |s| => Text([s[i]]))
    case List(ys) => ys
    case Record(fs) => seq(|fs|, i requires 0 <= i < |fs| => Text(fs[i].0))
  }

  /** Python `str(v)`: a string is itself; lists and objects are shown the
      way Python prints them, with strings in single quotes. */
  function Str(v: Value): string
    decreases v, 0
  {
    match v
    case Text(s) => s
    case List(xs) => "[" + Join(", ", ReprAll(xs)) + "]"
    case Record(fs) => "{" + Join(", ", ReprFields(fs)) + "}"
  }

  function Repr(v: Value): string
    decreases v, 1
  {
    match v
    case Text(s) => "'" + s + "'"
    case _ => Str(v)
  }

  function ReprAll(xs: seq<Value>): (r: seq<string>)
    decreases xs
    ensures |r| == |xs|
  {
    if xs == [] then [] else [Repr(xs[0])] + ReprAll(xs[1..])
  }

  function ReprFields(fs: seq<(string, Value)>): (r: seq<string>)
    decreases fs
    ensures |r| == |fs|
  {
    if fs == [] then [] else
      var (k, x) := fs[0];
      assert x < fs[0];
      ["'" + k + "': " + Repr(x)] + ReprFields(fs[1..])
  }
}
