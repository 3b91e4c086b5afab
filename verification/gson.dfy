/** The few Gson operations the Android signalling clients rely on, with the
    exceptions they throw: parsing a frame into a JsonObject, reading a member
    as a string, and JsonElement.toString. */
module Gson {
  import opened Json

  /** The exceptions the clients' handleMessage can meet while decoding. */
  datatype Exception =
    | JsonSyntax                            // fromJson on text that is not one JSON object
    | NullPointer                           // a member read on the null fromJson returns for blank text
    | UnsupportedOperation(element: string) // getAsString on JsonNull or JsonObject
    | IllegalState                          // getAsString on an array without exactly one element

  /** Stands for `e.getMessage()`: the exception's class name, since the exact
      text Gson and the JVM put there is not part of this model. */
  function Detail(e: Exception): string
  {
    match e
    case JsonSyntax => "JsonSyntaxException"
    case NullPointer => "NullPointerException"
    case UnsupportedOperation(element) => element
    case IllegalState => "IllegalStateException"
  }

  /** `gson.fromJson(text, JsonObject::class.java)` followed by a first member
      read: a blank frame yields null and the read throws. */
  function ReadObject(text: Text): (r: Result<seq<(string, Json)>, Exception>)
    ensures r.Success? <==> text.Doc? && text.value.JObj?
    ensures r.Success? ==> r.value == text.value.fields
    ensures text.Blank? ==> r == Failure(NullPointer)
  {
    match text
    case Blank => Failure(NullPointer)
    case Garbage => Failure(JsonSyntax)
    case Doc(j) => if j.JObj? then Success(j.fields) else Failure(JsonSyntax)
  }

  /** JsonElement.getAsString. */
  function AsString(j: Json): (r: Result<string, Exception>)
    ensures j.JStr? ==> r == Success(j.s)
    ensures j.JNull? || j.JObj? ==> r.Failure?
    ensures j.JNum? || j.JBool? ==> r.Success?
  {
    match j
    case JStr(s) => Success(s)
    case JNum(n) => Success(IntToString(n))
    case JBool(b) => Success(if b then "true" else "false")
    case JNull => Failure(UnsupportedOperation("JsonNull"))
    case JObj(_) => Failure(UnsupportedOperation("JsonObject"))
    case JArr(items) => if |items| == 1 then AsString(items[0]) else Failure(IllegalState)
  }

  /** `json.get(key)?.asString` (Kotlin) and `json.has(key) ? json.get(key).getAsString() : null`
      (Java): absent gives null, a present JSON null throws. */
  function MemberString(fields: seq<(string, Json)>, key: string): (r: Result<Option<string>, Exception>)
    ensures Get(fields, key).None? ==> r == Success(None)
    ensures Get(fields, key) == Some(JNull) ==> r.Failure?
    ensures forall s :: Get(fields, key) == Some(JStr(s)) ==> r == Success(Some(s))
  {
    match Get(fields, key)
    case None => Success(None)
    case Some(j) =>
      match AsString(j)
      case Success(s) => Success(Some(s))
      case Failure(e) => Failure(e)
  }
}
