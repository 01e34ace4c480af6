/** JavaScript values as the routes, hooks and pages see them: optional values,
    parsed JSON request bodies, truthiness, thrown errors and HTTP responses. */
module Js {

  datatype Option<T> = None | Some(value: T)

  /** A value that either was produced or was thrown as an `Error` with a message. */
  datatype Result<T> = Ok(value: T) | Err(message: string)

  /** A parsed JSON request body, or a property read from one. `Undefined` is a
      property the body does not have. JSON numbers are integers here. */
  datatype Json =
    | Undefined
    | Null
    | Bool(b: bool)
    | Num(n: int)
    | Str(s: string)
    | Array(items: seq<Json>)
    | Object(fields: map<string, Json>)

  /** JavaScript falsiness of a JSON value: undefined, null, false, 0 and "". */
  predicate Falsy(v: Json) {
    v.Undefined? || v.Null? || v == Bool(false) || v == Num(0) || v == Str("")
  }

  /** `body.key`, for a body that is not null or undefined. */
  function Field(body: Json, key: string): Json {
    if body.Object? && key in body.fields then body.fields[key] else Undefined
  }

  /** Destructuring `const { key } = body` throws a TypeError exactly when the body is null or undefined. */
  predicate Destructurable(body: Json) {
    !body.Null? && !body.Undefined?
  }

  /** `v || null` */
  function OrNull(v: Json): (r: Json)
    ensures Falsy(v) <==> r == Null
    ensures !Falsy(v) ==> r == v
  {
    if Falsy(v) then Null else v
  }

  /** A string-or-null value is truthy when it is present and not empty. */
  predicate Truthy(s: Option<string>) {
    s.Some? && s.value != ""
  }

  /** `x || null` on a value declared `string | null`. */
  function StringOrNull(s: Option<string>): (r: Option<string>)
    ensures r.Some? <==> Truthy(s)
    ensures r.Some? ==> r == s
  {
    if Truthy(s) then s else None
  }

  /** `x || null` on a value declared `number | null`. */
  function NumberOrNull(n: Option<int>): (r: Option<int>)
    ensures r.Some? <==> n.Some? && n.value != 0
    ensures r.Some? ==> r == n
  {
    if n.Some? && n.value != 0 then n else None
  }

  /** The whitespace characters of the ECMAScript `\s` class, which are also
      the ones `String.prototype.trim` removes. */
  predicate IsSpace(c: char) {
    c == '\t' || c == '\n' || c == '\U{000B}' || c == '\U{000C}' || c == '\r' || c == ' '
    || c == '\U{00A0}' || c == '\U{1680}' || ('\U{2000}' <= c <= '\U{200A}')
    || c == '\U{2028}' || c == '\U{2029}' || c == '\U{202F}' || c == '\U{205F}'
    || c == '\U{3000}' || c == '\U{FEFF}'
  }

  /** The body of a JSON response: `{ error }`, `{ success: true, data? }` or `{ success: false, error }`. */
  datatype Body<T> = ErrorOnly(error: string) | Succeeded(data: Option<T>) | Failed(error: string)

  datatype Response<T> = Response(status: int, body: Body<T>)

  /** `{ error: "Unauthorized" }` with status 401, the answer of every route without a session user. */
  function Unauthorized<T>(): Response<T> {
    Response(401, ErrorOnly("Unauthorized"))
  }
}
