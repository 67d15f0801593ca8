/**
 * What crosses the boundary between the front end and the network: the
 * requests handed to `fetch`, the responses it resolves with, and the errors
 * the session core throws.
 */
module Http {
  import opened Wrappers
  import opened Js

  datatype Method = GET | POST | PUT | PATCH | DELETE

  const JsonContentType := "application/json"

  /** The two headers the gateway ever sets; `None` means the header is not sent. */
  datatype Headers = Headers(authorization: Option<string>, contentType: Option<string>)

  /** A file picked by the user; the model never looks inside it. */
  datatype File = File(name: string)

  /** A `FormData` value: a `Blob`/`File` is kept as is, anything else becomes a string. */
  datatype FormValue = FileValue(file: File) | Text(text: string)

  datatype FormEntry = FormEntry(name: string, value: FormValue)

  /** The request body: none, `JSON.stringify` of an object (members in key order), or multipart. */
  datatype Body = NoBody | JsonBody(members: seq<(string, JsValue)>) | FormBody(entries: seq<FormEntry>)

  /** A request handed to `fetch`; `query` lists the appended search parameters in order. */
  datatype Request = Request(verb: Method, url: string, query: seq<(string, string)>, headers: Headers, body: Body)

  /**
   * A parsed JSON body: an object (its members with scalar values), the literal
   * `null`, on which reading any property throws a `TypeError`, or any other JSON
   * value (a string, a number, a boolean, an array), whose properties the code
   * reads all come out `undefined`.
   */
  datatype Json = Object(members: map<string, JsValue>) | JsonNull | OtherJson(text: string)

  /** Property access `data.key` on a parsed body; `None` when it throws, that is on `null`. */
  function Member(j: Json, key: string): (v: Option<JsValue>)
    ensures v.None? <==> j.JsonNull?
    ensures v.Some? && v.value != Undefined ==> j.Object? && key in j.members && j.members[key] == v.value
  {
    match j
    case Object(m) => Some(if key in m then m[key] else Undefined)
    case JsonNull => None
    case OtherJson(_) => Some(Undefined)
  }

  /**
   * A response: its status, its body parsed as JSON (`None` when `response.json()`
   * rejects), and the non-standard `response.request` property read by the
   * refresh-and-retry path (`None` for every standard fetch response).
   */
  datatype Response = Response(status: int, json: Option<Json>, request: Option<Request>)

  /** `response.ok`. */
  predicate IsOk(status: int)
  {
    200 <= status <= 299
  }

  /** What one `fetch` call settles to: a response, or a rejection of the promise. */
  datatype Transport = Delivered(response: Response) | NetworkFailure

  /**
   * The outcomes of the at most three fetches one gateway call can make: the
   * request itself, the token renewal, and the single retry.
   */
  datatype Exchange = Exchange(first: Transport, refresh: Transport, retry: Transport)

  /** The errors the session core throws. */
  datatype ApiError =
    | InvalidCredentials
    | MissingRefreshToken
    | RefreshRejected
    | SessionExpired
    | RequestFailed(message: string)
    | NetworkError
    | MalformedBody
    | NullBodyProperty

  /** The message of the `Error` the core throws; `None` for errors the browser itself raises. */
  function Message(e: ApiError): Option<string>
  {
    match e
    case InvalidCredentials => Some("Credenciais inválidas")
    case MissingRefreshToken => Some("Refresh token não encontrado")
    case RefreshRejected => Some("Falha ao renovar token")
    case SessionExpired => Some("Sessão expirada. Por favor, faça login novamente.")
    case RequestFailed(m) => Some(m)
    case NetworkError => None
    case MalformedBody => None
    case NullBodyProperty => None
  }

  /**
   * The core's own messages tell its errors apart: two errors thrown by the
   * core with the same message are the same error, unless one of them carries
   * a text the server chose.
   */
  lemma MessageIdentifiesError(e1: ApiError, e2: ApiError)
    requires !e1.RequestFailed? && !e2.RequestFailed?
    requires Message(e1).Some? && Message(e1) == Message(e2)
    ensures e1 == e2
  {
  }

  /** What a gateway call resolves with: a parsed body, or the raw response of the retry. */
  datatype Reply = Payload(json: Json) | Raw(response: Response)

  const GenericRequestError := "Erro na requisição"

  /**
   * The message of a rejected request: `error.detail || 'Erro na requisição'`.
   * It is never empty, and it is the generic text exactly when the server gave
   * no usable detail or gave that very text.
   */
  function DetailMessage(detail: JsValue): (m: string)
    ensures m != ""
    ensures Truthy(detail) ==> m == ToStr(detail)
    ensures m == GenericRequestError <==> !Truthy(detail) || ToStr(detail) == GenericRequestError
  {
    if Truthy(detail) then ToStr(detail) else GenericRequestError
  }
}
