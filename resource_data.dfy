/** Values, configuration lookups and the result both resource variants share:
    the values of the "source" and "params" hashes from the pipeline's JSON,
    the name/value pairs of the metadata, and the placeholder version. */
module ResourceData {
  import opened Outcomes

  /** The JSON values a "source" or "params" entry can hold (numbers, arrays
      and objects are not part of this model). */
  datatype Value = Null | Bool(b: bool) | Str(s: string)

  /** Ruby's `to_s` on such a value. */
  function ToS(v: Value): string {
    match v
    case Null => ""
    case Bool(b) => if b then "true" else "false"
    case Str(s) => s
  }

  /** Ruby truthiness: only nil and false are false. */
  predicate Truthy(v: Value) {
    !(v.Null? || v == Bool(false))
  }

  /** The "source" hash of the pipeline configuration. */
  type Source = map<string, Value>

  /** Hash#fetch(key): the value, or KeyError naming the key. */
  function Fetch(source: Source, key: string): (r: Result<Value>)
    ensures r.Success? <==> key in source
    ensures r.Success? ==> r.value == source[key]
    ensures r.Failure? ==> r.error == KeyError("key not found: \"" + key + "\"")
  {
    if key in source then Success(source[key])
    else Failure(KeyError("key not found: \"" + key + "\""))
  }

  /** Hash#fetch(key, default). */
  function FetchOr(source: Source, key: string, default: Value): (v: Value)
    ensures key in source ==> v == source[key]
    ensures key !in source ==> v == default
  {
    if key in source then source[key] else default
  }

  /** One metadata entry, `{"name" => ..., "value" => ...}`. */
  datatype Pair = Pair(name: string, value: Value)

  /** The names of the metadata entries, in order. */
  function Names(metadata: seq<Pair>): (names: seq<string>)
    ensures |names| == |metadata|
    ensures forall i :: 0 <= i < |metadata| ==> names[i] == metadata[i].name
  {
    if metadata == [] then [] else [metadata[0].name] + Names(metadata[1..])
  }

  /** What `out` returns: `{"version" => ..., "metadata" => [...]}`. */
  datatype OutResult = OutResult(version: map<string, string>, metadata: seq<Pair>)

  /** The version every result carries, `{"ref" => "none"}`. */
  const PlaceholderVersion: map<string, string> := map["ref" := "none"]
}
