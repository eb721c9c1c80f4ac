/** The part of serde_json's `Value` the adapter looks at. Parsing and
    printing text are NOT defined here: every member that needs them takes
    them as function-valued parameters, so nothing below depends on how
    serde_json lays out bytes. */
module Json {
  import opened Wrappers

  /** An f64 carried as its bits; the adapter never computes with one. */
  datatype F64 = F64(bits: bv64)

  /** serde_json's `Number` is either an integer or a float; `Object` is a
      map from keys to values. */
  datatype Json =
    | JNull
    | JBool(b: bool)
    | JInt(i: int)
    | JFloat(f: F64)
    | JStr(s: string)
    | JArr(elems: seq<Json>)
    | JObj(fields: map<string, Json>)
  {
    /** `Value::is_object`. */
    predicate IsObject() {
      JObj?
    }

    /** `Value::get(key)`: the field of an object; None for a missing key and
        for anything that is not an object. */
    function Get(key: string): Option<Json> {
      if JObj? && key in fields then Some(fields[key]) else None
    }
  }

  const U64_LIMIT: int := 0x1_0000_0000_0000_0000
  const U32_LIMIT: int := 0x1_0000_0000

  /** `Value::as_u64`: an integer that fits in 64 unsigned bits; floats,
      negative or larger integers and non-numbers give None. */
  function AsU64(v: Json): Option<nat> {
    match v
    case JInt(i) => if 0 <= i < U64_LIMIT then Some(i) else None
    case _ => None
  }

  /** Text-level serde_json, supplied from outside: `from_str::<Value>` and
      `to_string(&Value)`; an `Err` carries serde's message. */
  type ValueParser = string -> Result<Json, string>
  type ValuePrinter = Json -> Result<string, string>

  /** The round trip every sound serde_json pair satisfies for `v`: printing
      succeeds and parsing the text gives `v` back. */
  predicate PrintsAndParsesBack(parse: ValueParser, show: ValuePrinter, v: Json) {
    show(v).Success? && parse(show(v).value) == Success(v)
  }
}
