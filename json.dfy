/** The JSON values that the client reads from and writes to its files and
    the backend, with JavaScript's truthiness rule. */
module Json {
  import opened Wrappers

  datatype Value =
    | Null
    | Bool(b: bool)
    | Num(n: int)
    | Str(s: string)
    | Obj(fields: map<string, Value>)

  /** JavaScript truthiness: `false`, `0`, `""` and `null` are falsy. */
  predicate Truthy(v: Value) {
    match v
    case Null => false
    case Bool(b) => b
    case Num(n) => n != 0
    case Str(s) => s != ""
    case Obj(_) => true
  }

  /** `o[k]`, where an absent key is JavaScript's `undefined`. */
  function Field(o: map<string, Value>, k: string): Option<Value> {
    if k in o then Some(o[k]) else None
  }

  /** True when `o[k]` is truthy (an absent key is `undefined`, which is falsy). */
  predicate TruthyField(o: map<string, Value>, k: string) {
    k in o && Truthy(o[k])
  }

  /** `o[k] as string` where it is used in a truthy test: the non-empty string
      stored under `k`, or `None` when the key is absent or falsy. */
  function TruthyString(o: map<string, Value>, k: string): (r: Option<string>)
    ensures r.Some? <==> k in o && o[k].Str? && o[k].s != ""
    ensures r.Some? ==> o[k] == Str(r.value)
  {
    if k in o && o[k].Str? && o[k].s != "" then Some(o[k].s) else None
  }

  /** `o[k] as string | undefined`: the string stored under `k` (empty or not). */
  function StringField(o: map<string, Value>, k: string): (r: Option<string>)
    ensures r.Some? <==> k in o && o[k].Str?
    ensures r.Some? ==> o[k] == Str(r.value)
  {
    if k in o && o[k].Str? then Some(o[k].s) else None
  }

  /** `a || b || fallback` over two optional string fields. */
  function FirstTruthyString(o: map<string, Value>, a: string, b: string, fallback: string): (r: string)
    ensures TruthyString(o, a).Some? ==> r == TruthyString(o, a).value
    ensures TruthyString(o, a).None? && TruthyString(o, b).Some? ==> r == TruthyString(o, b).value
    ensures TruthyString(o, a).None? && TruthyString(o, b).None? ==> r == fallback
  {
    match TruthyString(o, a)
    case Some(x) => x
    case None => TruthyString(o, b).GetOr(fallback)
  }

  /** Decimal digits of a natural number, as `String(n)` writes them. */
  function NatToText(n: nat): (r: string)
    ensures |r| >= 1
    ensures forall i :: 0 <= i < |r| ==> '0' <= r[i] <= '9'
    decreases n
  {
    var digit := ['0' + (n % 10) as char];
    if n < 10 then digit else NatToText(n / 10) + digit
  }

  /** `String(v)`, the text that `new Error(v)` or a URL parameter takes from
      a value (an object renders as `[object Object]`). */
  function ToText(v: Value): (r: string)
    ensures v.Str? ==> r == v.s
  {
    match v
    case Null => "null"
    case Bool(b) => if b then "true" else "false"
    case Num(n) => if n < 0 then "-" + NatToText(-n) else NatToText(n)
    case Str(s) => s
    case Obj(_) => "[object Object]"
  }
}
