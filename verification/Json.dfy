/** JSON values as the assistant and the provider clients exchange them. */
module Json {
  import opened Prelude

  /** Object keys. Those the turn loop and the translator read or write have a constructor
      each; `Other` stands for every remaining key. */
  datatype Key =
    | Role | Content | ToolCalls | ToolCallId | Id | Type | Function | Name | Arguments
    | Text | Input | ToolUseId | ImageUrl | Url | Source | MediaType | Data
    | Model | ContentRaw | Reasoning | AssistantMessage | AssistantText
    | Other(name: string)

  /** A number is read either as an unsigned 64-bit integer or in some other way. */
  datatype Numeral = Unsigned(value: nat) | OtherNumber(digits: string)

  datatype Value =
    | Null
    | Bool(b: bool)
    | Number(number: Numeral)
    | Str(s: string)
    | Array(items: seq<Value>)
    | Object(fields: map<Key, Value>)

  /** `value.get(key)`: only an object has members. */
  function Get(v: Value, key: Key): Option<Value> {
    if v.Object? && key in v.fields then Some(v.fields[key]) else None
  }

  /** `value.pointer("/outer/inner")` for object members. */
  function Get2(v: Value, outer: Key, inner: Key): Option<Value> {
    match Get(v, outer)
    case Some(o) => Get(o, inner)
    case None => None
  }

  /** `.and_then(Value::as_str).unwrap_or(default)` */
  function StrOr(v: Option<Value>, default: string): string {
    if v.Some? && v.value.Str? then v.value.s else default
  }

  /** `.and_then(Value::as_u64).unwrap_or(0)` */
  function U64OrZero(v: Option<Value>): nat {
    if v.Some? && v.value.Number? && v.value.number.Unsigned? then v.value.number.value else 0
  }

  /** `.and_then(Value::as_array).cloned().unwrap_or_default()` */
  function ItemsOf(v: Option<Value>): seq<Value> {
    if v.Some? && v.value.Array? then v.value.items else []
  }

  /** JSON text is not modelled: printing and parsing are parameters that satisfy the laws of
      `serde_json` the source relies on. */
  datatype Codec = Codec(encode: Value -> string, decode: string -> Option<Value>) {
    ghost predicate Lawful() {
      && (forall v :: decode(encode(v)) == Some(v))
      && (forall v :: !IsBlank(encode(v)))
    }

    /** Compact JSON: a newline inside a string is escaped, and there are none outside. */
    ghost predicate OneLine() {
      forall v :: '\n' !in encode(v)
    }
  }
}
