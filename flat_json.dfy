/** The generic values a Docker Hub page payload decodes to, and the Python
    value tests that the crawler's decoders apply to the elements of the
    flattened, reference-indexed array. */
module FlatJson {

  datatype Option<+T> = None | Some(value: T)

  /** A decoded JSON value, as Python's json module returns it. */
  datatype Value =
    | Null
    | Bool(b: bool)
    | Int(i: int)
    | Float(f: real)
    | Str(s: string)
    | Arr(elems: seq<Value>)
    | Obj(fields: map<string, Value>)

  /** A key that starts with an underscore: the format's sentinel prefix. */
  predicate IsSentinelKey(k: string) {
    |k| > 0 && k[0] == '_'
  }

  /** A marker object: a dict with some key starting with '_'. It stands for
      "a referenced node starts here", whatever its other keys are. A marker
      is a non-empty dict, so it is truthy wherever the decoders test a
      matched marker with `not`. */
  predicate IsMarker(v: Value)
    ensures IsMarker(v) ==> v.Obj? && |v.fields| > 0
  {
    v.Obj? && exists k :: k in v.fields && IsSentinelKey(k)
  }

  /** The test is structural: two dicts with the same keys are both markers
      or neither, whatever values they hold. */
  lemma MarkerDependsOnKeysOnly(a: map<string, Value>, b: map<string, Value>)
    requires a.Keys == b.Keys
    ensures IsMarker(Obj(a)) == IsMarker(Obj(b))
  {
    if IsMarker(Obj(a)) {
      var k :| k in a && IsSentinelKey(k);
      assert k in b.Keys;
    }
    if IsMarker(Obj(b)) {
      var k :| k in b && IsSentinelKey(k);
      assert k in a.Keys;
    }
  }

  /** Python's isinstance(v, int). bool is a subclass of int, so True and
      False pass the test too. */
  predicate IsPyInt(v: Value) {
    v.Int? || v.Bool?
  }

  /** The integer a value passing IsPyInt stands for in arithmetic,
      comparison and indexing: True is 1 and False is 0. */
  function PyIntValue(v: Value): (n: int)
    requires IsPyInt(v)
    ensures v.Int? ==> n == v.i
    ensures v.Bool? ==> (n == 1 <==> v.b) && (n == 0 <==> !v.b)
  {
    if v.Int? then v.i else if v.b then 1 else 0
  }

  /** The position Python's seq[n] reads for a length `len` sequence:
      a negative n counts from the end. Below -len Python raises IndexError,
      which the callers model before indexing. */
  function PyIndex(n: int, len: nat): (k: nat)
    requires n < len && n + len >= 0
    ensures k < len
    ensures n >= 0 ==> k == n
    ensures n < 0 ==> k + (-n) == len
  {
    if n >= 0 then n else len + n
  }

  /** The first position at or after `from` holding exactly `key`, if any. */
  function IndexOf(data: seq<Value>, key: Value, from: nat): (r: Option<nat>)
    decreases |data| - from
    ensures r.Some? ==> from <= r.value < |data| && data[r.value] == key
    ensures r.Some? ==> forall k :: from <= k < r.value ==> data[k] != key
    ensures r.None? <==> forall k :: from <= k < |data| ==> data[k] != key
  {
    if from >= |data| then None
    else if data[from] == key then Some(from)
    else IndexOf(data, key, from + 1)
  }

  /** The `for i, item in enumerate(data_array)` scan for the first string
      equal to `key`, with -1 when there is none. */
  method FindFirst(data: seq<Value>, key: string) returns (idx: int)
    ensures idx == -1 <==> forall k :: 0 <= k < |data| ==> data[k] != Str(key)
    ensures idx != -1 ==> 0 <= idx < |data| && data[idx] == Str(key)
    ensures idx != -1 ==> forall k :: 0 <= k < idx ==> data[k] != Str(key)
    ensures idx != -1 ==> IndexOf(data, Str(key), 0) == Some(idx)
  {
    idx := -1;
    var i := 0;
    while i < |data|
      invariant 0 <= i <= |data|
      invariant forall k :: 0 <= k < i ==> data[k] != Str(key)
    {
      if data[i].Str? && data[i].s == key {
        idx := i;
        return;
      }
      i := i + 1;
    }
  }
}
