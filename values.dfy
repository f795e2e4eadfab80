/**
 * The loosely typed values the command line tool passes around: the keyword
 * argument dictionary Click hands to `gll` holds Python `None`, strings and
 * boolean flags, and every decision the tool takes on them uses Python
 * truthiness.
 */
module Values {

  /** A value in the keyword argument dictionary. */
  datatype Value = Null | Str(text: string) | Flag(on: bool)

  /** Python truthiness: `None`, `""` and `False` are falsy, everything else is truthy. */
  predicate Truthy(v: Value) {
    match v
    case Null => false
    case Str(s) => s != ""
    case Flag(b) => b
  }

  /** `d.get(key)`: the stored value, or `None` when the key is missing. */
  function Get(d: map<string, Value>, key: string): Value {
    if key in d then d[key] else Null
  }

  /**
   * `os.environ.get(name)` in a boolean context: the variable is set and not
   * empty. An environment holds only strings, so `get` yields a string or `None`.
   */
  predicate EnvSet(env: map<string, string>, name: string) {
    name in env && env[name] != ""
  }

  /** How an f-string renders a value (`str(v)`). */
  function Render(v: Value): string {
    match v
    case Null => "None"
    case Str(s) => s
    case Flag(b) => if b then "True" else "False"
  }

  /** Both dictionaries hold `key` or neither does, and with the same value. */
  predicate SameEntry(a: map<string, Value>, b: map<string, Value>, key: string) {
    (key in a <==> key in b) && (key in a ==> a[key] == b[key])
  }
}
