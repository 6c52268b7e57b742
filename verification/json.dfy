/**
 * JSON values as Gson hands them to the core: a `functionCall.args` object decoded into
 * a `Map<String, Object>`, whose numbers are `java.lang.Number`s.
 */
module JsonValues {

  datatype Json =
    | JNull
    | JBool(b: bool)
    | JNum(n: int)
    | JStr(s: string)
    | JArr(elems: seq<Json>)
    | JObj(fields: map<string, Json>)

  /** The Java class Gson decodes each kind of JSON value into. */
  function JavaClassName(v: Json): string {
    match v
    case JNull => "null"
    case JBool(_) => "java.lang.Boolean"
    case JNum(_) => "java.lang.Double"
    case JStr(_) => "java.lang.String"
    case JArr(_) => "java.util.ArrayList"
    case JObj(_) => "com.google.gson.internal.LinkedTreeMap"
  }
}
