/** Parsed YAML/JSON documents as the tool sees them after loading, and the
    few Python value operations the core relies on: truthiness, `dict.get`,
    `key in dict` and `str()`. */
module Values {

  datatype Option<+T> = None | Some(value: T)

  /** The exceptions the core can raise on malformed input, as error values. */
  datatype Failure =
    | NotADict             // `.items()` or `.values()` on something that is not a dict
    | MissingKey           // `d[key]` on a dict without `key`
    | BadTimestamp         // `datetime.fromisoformat` rejects the `timestamp` value
    | MissingTimestamp     // `ev['timestamp']` on an event without one
    | PathNotString        // alias lookup or `str.replace` on a `path` that is not a string

  datatype Result<+T> = Ok(value: T) | Err(failure: Failure)

  /** A parsed document value. `Scalar` stands for every non-string scalar
      (None, booleans, numbers): the model keeps only what the core uses of
      them, the text `str()` gives and the Python truthiness. The entries of a
      `Dict` are in insertion order, as Python dicts iterate. */
  datatype Value =
    | Str(s: string)
    | Scalar(text: string, truthy: bool)
    | List(items: seq<Value>)
    | Dict(entries: seq<(string, Value)>)

  /** Python truthiness: empty strings, empty containers, None, False and zero are false. */
  predicate Truthy(v: Value) {
    match v
    case Str(s) => s != ""
    case Scalar(_, t) => t
    case List(items) => items != []
    case Dict(entries) => entries != []
  }

  /** `key in d` for a dict given by its entries. */
  predicate HasKey(entries: seq<(string, Value)>, key: string) {
    exists i :: 0 <= i < |entries| && entries[i].0 == key
  }

  /** `d.get(key)`: the value stored under `key`, if any. Keys of a Python dict
      are distinct; on a sequence with repeated keys the first one is taken. */
  function Lookup(entries: seq<(string, Value)>, key: string): Option<Value> {
    if entries == [] then None
    else if entries[0].0 == key then Some(entries[0].1)
    else Lookup(entries[1..], key)
  }

  /** `d.get(key)` finds a value exactly when the key is present, and the
      value it finds is one stored under that key. */
  lemma {:induction false} LookupFinds(entries: seq<(string, Value)>, key: string)
    ensures Lookup(entries, key).Some? <==> HasKey(entries, key)
    ensures Lookup(entries, key).Some? ==> (key, Lookup(entries, key).value) in entries
    decreases |entries|
  {
    if entries != [] && entries[0].0 != key {
      var rest := entries[1..];
      LookupFinds(rest, key);
      if HasKey(entries, key) {
        var i :| 0 <= i < |entries| && entries[i].0 == key;
        assert rest[i - 1].0 == key;
      }
      if HasKey(rest, key) {
        var i :| 0 <= i < |rest| && rest[i].0 == key;
        assert entries[i + 1].0 == key;
      }
    } else if entries != [] {
      assert entries[0].0 == key;
    }
  }

  /** `d.get(key, default)`. */
  function LookupOr(entries: seq<(string, Value)>, key: string, default: Value): Value {
    match Lookup(entries, key)
    case Some(v) => v
    case None => default
  }

  /** The empty dict `{}`, the default of `ev.get('result', {})`. */
  const EmptyDict: Value := Dict([])

  /** `str(v)`: strings are themselves, scalars their text; lists and dicts are
      rendered by Python's `repr`, which is passed in as `repr`. */
  function Show(v: Value, repr: Value -> string): string {
    match v
    case Str(s) => s
    case Scalar(text, _) => text
    case _ => repr(v)
  }
}
