/** The dynamically typed values (`interface{}`) that responses and message
    parts arrive as: decoded JSON, typed vendor-SDK responses, or objects
    offering a `GetTokenCount()` accessor. */
module Json {
  import opened Wrappers

  /** Token figures a vendor SDK response carries in its usage block. */
  datatype SdkUsage = SdkUsage(prompt: int, completion: int, total: int)

  /** A dynamic value.
      - `JNull` is nil; `JStr`, `JNum` and `JMap` are decoded JSON strings,
        numbers (`float64` in Go, integral here) and objects;
      - `JInt` is a Go `int` and `JStrs` a `[]string`, both only ever
        written by the library, never parsed;
      - `JOther` is any other value (a bool, another slice, ...);
      - `SdkTyped` stands for a typed SDK response (`*anthropic.Message`,
        `*openai.ChatCompletion`, `*genai.GenerateContentResponse`) or a
        reflection-read mock of one, reduced to the fields the adapters read;
        `usage` is `None` when the usage block is absent;
      - `WithTokenCount` is any object with a `GetTokenCount() int` method.
      Each non-JSON value carries its Go dynamic type name, as `%T` prints it. */
  datatype Value =
    | JNull
    | JStr(str: string)
    | JNum(num: int)
    | JMap(fields: map<string, Value>)
    | JInt(intValue: int)
    | JStrs(strs: seq<string>)
    | JOther(otherType: string)
    | SdkTyped(sdkType: string, id: string, model: string, fingerprint: string, usage: Option<SdkUsage>)
    | WithTokenCount(countType: string, tokenCount: int)

  /** The dynamic type name `%T` prints for a value. */
  function TypeName(v: Value): string
  {
    match v
    case JNull => "<nil>"
    case JStr(_) => "string"
    case JNum(_) => "float64"
    case JMap(_) => "map[string]interface {}"
    case JInt(_) => "int"
    case JStrs(_) => "[]string"
    case JOther(t) => t
    case SdkTyped(t, _, _, _, _) => t
    case WithTokenCount(t, _) => t
  }

  /** `m[key].(string)`: present only when the entry exists and is a string. */
  function StrField(m: map<string, Value>, key: string): (r: Option<string>)
    ensures r.Some? <==> key in m && m[key].JStr?
    ensures r.Some? ==> m[key] == JStr(r.value)
  {
    if key in m && m[key].JStr? then Some(m[key].str) else None
  }

  /** `m[key].(float64)`: present only when the entry exists and is a number. */
  function NumField(m: map<string, Value>, key: string): (r: Option<int>)
    ensures r.Some? <==> key in m && m[key].JNum?
    ensures r.Some? ==> m[key] == JNum(r.value)
  {
    if key in m && m[key].JNum? then Some(m[key].num) else None
  }

  /** `m[key].(map[string]interface{})`: present only for an object entry. */
  function MapField(m: map<string, Value>, key: string): (r: Option<map<string, Value>>)
    ensures r.Some? <==> key in m && m[key].JMap?
    ensures r.Some? ==> m[key] == JMap(r.value)
  {
    if key in m && m[key].JMap? then Some(m[key].fields) else None
  }
}
