# Efata Prime front end: session core, API gateway and page helpers in Dafny

This project models the browser-side core of the Efata Prime Elevadores web
front end. That front end talks to a Django REST back end and keeps its
JWT pair in `localStorage`. The model has three parts:

- **Session and gateway** (`assets/js/api.js`):
  - `AuthService`: token storage, login, renewal, logout and the current user.
  - `ApiService`: the authorization headers, the response handler with its
    single refresh-and-retry on HTTP 401, the query-string loop of `get`, and
    `post`, `put`, `patch`, `delete` and `uploadFile`.
  - The per-entity services: the fixed endpoint paths, and the multipart forms
    of the two photo uploads.
- **Dashboard helpers** (`assets/js/dashboard.js`):
  - label lookups with a fallback;
  - the stat-card and pie-chart arithmetic;
  - the displayed user name;
  - the permission decision;
  - the unread-notification count.
- **Site helpers** (`assets/js/main.js`): the phone-number pattern
  `isValidPhone` and the demonstration login `simulateLogin`.

Layout:

| file | module | contents |
|---|---|---|
| `wrappers.dfy` | `Wrappers` | `Option`, `Result` |
| `js.dfy` | `Js` | the JavaScript values that reach the core: truthiness, `String(v)`, default parameters |
| `http.dfy` | `Http` | requests, headers, multipart entries, responses, fetch outcomes, the thrown errors and their messages |
| `query.dfy` | `Query` | the search parameters of `get`, as a function and as the loop that builds them |
| `forms.dfy` | `Forms` | the photo-upload bodies, as functions and as the loops that build them |
| `facades.dfy` | `Facades` | every service operation and the gateway call it makes |
| `session.dfy` | `Session` | each `AuthService`/`ApiService` operation as a function from state to new state and outcome |
| `browser.dfy` | `Api` | class `Browser`: the same operations as methods that update the token entries, the location and the sent-request log in place, each proved equal to its `Session` function |
| `scenarios.dfy` | `Scenarios` | worked token-flow scenarios; refresh-token lifetime over any sequence of calls |
| `dashboard.dfy` | `Dashboard` | the dashboard helpers |
| `phone.dfy` | `Phone` | the `isValidPhone` recognizer, a grammar of phone shapes, and proofs that both accept the same strings |
| `demo_login.dfy` | `DemoLogin` | `simulateLogin` against its table of demonstration accounts |

The network is an input. Each `fetch` a gateway call can make is given as a
`Transport`: a `Response` (status, parsed JSON body, and the non-standard
`response.request`) or a rejected promise. One gateway call makes at most
three: the request, the renewal and the retry, bundled as an `Exchange`. The
state is `Env`, mirrored by the fields of `Api.Browser`:
- the `access_token` and `refresh_token` entries;
- the page the window was sent to;
- the log of every request handed to `fetch`.

### Where the code does not do what its comments announce

The comments of `handleResponse` announce that a 401 tries a refresh ("Token
expirado, tentar refresh", `assets/js/api.js:127`) and then recreates the
headers with the new token ("Recriar headers com novo token", `:130`) to send
the original request again. The model follows the code (`assets/js/api.js:125-147`),
which behaves differently:

- The original request is read from `response.request`. A standard fetch
  `Response` has no such property, so setting its `headers` throws inside the
  `try`. The user is then logged out with "Sessão expirada", even though the
  renewal succeeded. `Scenarios.StandardResponseNeverRetried` proves this.
  No JavaScript value makes the retry branch happen as the comments intend
  (see "## Left out"); `Session.HandleSpec` models that intended retry for a
  hypothetical response carrying its request.
- The retry is `return fetch(...)` without `await`. A network failure of the
  retry therefore escapes the `catch`: there is no logout, and the caller sees
  the raw rejection.
- A retry that completes is not handled again: the caller receives the raw
  `Response` (`Reply.Raw`), not the parsed body.
- Renewal clears both tokens on any failure, but only when a refresh token was
  present. Without one it throws before any request and before clearing
  anything; `handleResponse` then still logs out.

## Model

| member | source | states |
|---|---|---|
| Http.DetailMessage | assets/js/api.js:141-144 | the message of a rejected request is never empty; it is `String(detail)` for a truthy `detail`, and "Erro na requisição" exactly when `detail` is falsy or is that very text |
| Http.MessageIdentifiesError | assets/js/api.js:51-137 | the messages the core throws itself tell its errors apart: two such errors with the same message are the same error |
| Session.SameHeadersIffSameToken | assets/js/api.js:116-122 | two states send the same JSON headers iff their stored access tokens print the same: the same entry, or one absent and the other "null" |
| Session.UploadHeaders | assets/js/api.js:237-243 | the same credential as the JSON headers and no content type, so the browser sets the multipart boundary |
| Session.BearerDistinguishes | assets/js/api.js:119 | two different stored tokens never yield the same Authorization header |
| Session.MissingTokenSentAsNull | assets/js/api.js:117-119 | with no stored token the header is `Bearer null`, the same as a stored token "null" |
| Session.UnauthenticatedStillSendsHeader | assets/js/api.js:35-37 | when `isAuthenticated()` is false, requests still carry `Bearer null` or `Bearer ` |
| Session.LoginSpec | assets/js/api.js:40-61 | one `POST /token/` is sent. Success iff the response is 2xx with a parseable body other than `null`; then both entries become `String(data.access)` and `String(data.refresh)`. Any failure leaves both entries unchanged: a non-2xx status gives "Credenciais inválidas", a rejected fetch gives a network error, a `null` body the `TypeError` of reading `data.access` |
| Session.RefreshSpec | assets/js/api.js:64-93 | no non-empty refresh token: throws before sending anything and changes nothing. Otherwise one `POST /token/refresh/` is sent. Success iff 2xx with a body other than `null`; it then replaces only the access token. Every failure clears both tokens; a non-2xx status gives "Falha ao renovar token" |
| Session.LogoutSpec | assets/js/api.js:96-99 | both tokens removed, not authenticated, location set to the login page, nothing sent |
| Session.HandleSpec | assets/js/api.js:125-147 | non-401: state unchanged; 2xx gives the body, other statuses give the `detail` message, or the `TypeError` of reading `detail` of a `null` body; an unparseable body gives an error. 401: "Sessão expirada" iff the renewal fails or the response has no request; then the session is logged out. Otherwise exactly the renewal and one retry with the new token are sent, and the retry's raw response or network error is returned |
| Session.SendSpec | assets/js/api.js:160-166 | the request is sent first and at most two more follow; a rejected fetch is rethrown with the state untouched beyond the log; a non-401 response leaves the tokens alone |
| Api.Browser.constructor | assets/js/api.js:19-26 | a page load: the stored entries are what `getItem` reads; no location set, nothing sent |
| Api.Browser.SetTokens | assets/js/api.js:13-16 | both entries hold `String(value)` of the arguments; location and request log untouched |
| Api.Browser.ClearTokens | assets/js/api.js:29-32 | both entries removed, so the browser is not authenticated; location and log untouched |
| Api.Browser.Login | assets/js/api.js:40-61 | the in-place login leaves exactly the state and result of `Session.LoginSpec` |
| Api.Browser.RefreshToken | assets/js/api.js:64-93 | the in-place renewal leaves exactly the state and result of `Session.RefreshSpec` |
| Api.Browser.Logout | assets/js/api.js:96-99 | the in-place logout leaves exactly the state of `Session.LogoutSpec` |
| Api.Browser.HandleResponse | assets/js/api.js:125-147 | the in-place handler leaves exactly the state and result of `Session.HandleSpec` |
| Api.Browser.Send | assets/js/api.js:160-166 | fetch followed by `handleResponse` leaves exactly the state and result of `Session.SendSpec` |
| Api.Browser.Get | assets/js/api.js:150-171 | sends a GET whose query is `Query.QueryOf(params)`, built by the loop, with the current headers |
| Api.Browser.Post | assets/js/api.js:174-187 | sends a POST with the data as JSON body and the current headers |
| Api.Browser.Put | assets/js/api.js:190-203 | sends a PUT with the data as JSON body |
| Api.Browser.Patch | assets/js/api.js:206-219 | sends a PATCH with the data as JSON body |
| Api.Browser.Delete | assets/js/api.js:222-234 | sends a DELETE with no body |
| Api.Browser.UploadFile | assets/js/api.js:237-256 | sends a POST with the form as body and the upload headers (no content type) |
| Api.Browser.GetCurrentUser | assets/js/api.js:102-110 | an authenticated GET of `/me/` with no parameters |
| Api.Browser.Perform | assets/js/api.js:260-447 | a service operation's gateway call is dispatched to the `ApiService` method it names |
| Api.Browser.UploadInspectionPhotos | assets/js/api.js:329-340 | sends exactly the request of `Facades.Route` for the inspection upload: the loop-built form, posted below `/upload-foto-vistoria/` |
| Api.Browser.UploadOrderPhotos | assets/js/api.js:372-384 | the same for service orders, below `/upload-foto-ordem-servico/` |
| Query.BuildQuery | assets/js/api.js:154-158 | the `forEach` loop appends exactly `QueryOf(params)` |
| Query.QueryOfAppend | assets/js/api.js:154-158 | search parameters keep the order of `params` |
| Query.QueryOfMembers | assets/js/api.js:154-158 | a (key, text) pair is appended iff some parameter with that key holds a value that is neither undefined nor null and whose `String` is the text |
| Query.QueryOfExtremes | assets/js/api.js:154-158 | no defined parameter: empty query; all defined: one pair per parameter, in order |
| Forms.PhotoEntries | assets/js/api.js:333-335 | one `fotos` entry per file, at the same position |
| Forms.BuildInspectionPhotoForm | assets/js/api.js:329-337 | the loop builds exactly the inspection form: the photos, then `descricao` (default '') |
| Forms.BuildOrderPhotoForm | assets/js/api.js:372-381 | the loop builds exactly the service-order form: the photos, `descricao`, then `antes_servico` (default true) |
| Forms.PhotoEntriesCarryFiles | assets/js/api.js:333-335 | the files read back from the `fotos` entries are exactly the chosen files |
| Forms.PhotoFormsCarryFiles | assets/js/api.js:372-381 | both bodies carry exactly the chosen files in order. Then come one and two trailing fields; omitted arguments give '' and "true" |
| Facades.Below | assets/js/api.js:265-267 | `${prefix}${id}/` is an absolute, slash-terminated path |
| Facades.CrudRoute | assets/js/api.js:260-280 | list and get use GET, delete uses DELETE, nothing uploads; all paths absolute and slash-terminated |
| Facades.ServiceRoute | assets/js/api.js:303-447 | the other operations: GET exactly for the reading ones, multipart upload exactly for the two photo uploads, never DELETE |
| Facades.Route | assets/js/api.js:260-447 | every service operation: GET iff it only reads, DELETE iff it is `excluir`, upload iff it is a photo upload |
| Facades.EntityPathsDistinct | assets/js/api.js:260-414 | no two entities share a collection path, and no item path, whatever its id, equals any collection path |
| Facades.CrudEndpoint | assets/js/api.js:260-414 | list and create address the entity's collection path; get, update and delete the item path below it |
| Facades.RouteIdentifiesOperation | assets/js/api.js:260-414 | two list/get/create/update/delete operations with the same gateway call act on the same entity and are the same kind of operation |
| Facades.ItemPathExtendsCollection | assets/js/api.js:265-267 | the item path is the collection path, then `String(id)`, then "/" |
| Scenarios.LoginStoresPair | assets/js/api.js:54-55 | a login answered with `{access: "A1", refresh: "R1"}` stores that pair and authenticates |
| Scenarios.NullBodyStoresNothing | assets/js/api.js:54-59 | a 2xx login answer with body `null` fails with a `TypeError` and leaves both entries as they were; a renewal answered so clears both tokens (`:85-89`) |
| Scenarios.RetryCarriesRenewedToken | assets/js/api.js:125-133 | a 401 with a carried request, renewal answered `{access: "A2"}`: one retry of the same URL goes out with `Bearer A2`, and its response is returned raw |
| Scenarios.RejectedRenewalExpiresSession | assets/js/api.js:80-83 | a renewal answered 400 empties the store, sends the window to the login page and fails with "Sessão expirada" |
| Scenarios.StandardResponseNeverRetried | assets/js/api.js:131-133 | for a standard response, even a successful renewal ends in logout; the new token is discarded and no retry is sent |
| Scenarios.SendKeepsOrDropsRefresh | assets/js/api.js:64-93 | one gateway call keeps the refresh token or removes it, never writes another |
| Scenarios.RunKeepsOrDropsRefresh | assets/js/api.js:64-93 | over any sequence of gateway calls, the refresh token is the one stored at login or absent |
| Scenarios.NoRefreshNoRevival | assets/js/api.js:64-69 | once both tokens are gone, no sequence of gateway calls authenticates again |
| Dashboard.OrFallbackAgrees | assets/js/dashboard.js:87 | the as-written lookup shows what the intended one returns, except for keys naming inherited members |
| Dashboard.TipoUsuarioFormatado | assets/js/dashboard.js:79-88 | the four roles get their Portuguese label; any other `tipo` is shown unchanged |
| Dashboard.StatusClass | assets/js/dashboard.js:349-360 | `agendada` and `aberta` give `pending`; the other four known statuses get their class; an unknown status gives `default` |
| Dashboard.StatusText | assets/js/dashboard.js:363-374 | a known status gets a label different from itself; an unknown one is shown unchanged |
| Dashboard.StatusTablesAgree | assets/js/dashboard.js:349-374 | a status has a text iff its class is not `default` |
| Dashboard.PrototypeKeyLeaks | assets/js/dashboard.js:87 | as written, `constructor`, `toString` and `valueOf` display an inherited `Object.prototype` member instead of the fallback |
| Dashboard.LookupsAgreeOutsidePrototype | assets/js/dashboard.js:79-88 | for every key not naming an inherited member, the as-written lookups equal the intended ones |
| Dashboard.OrderSlices | assets/js/dashboard.js:212-218 | the four slices sum to the total number of orders; the completed slice is negative iff the three counted statuses exceed the total |
| Dashboard.InspectionSlices | assets/js/dashboard.js:244-247 | two slices summing to the total; the second is negative iff pending exceeds the total |
| Dashboard.ActiveCardMatchesPie | assets/js/dashboard.js:177-218 | the active-orders card (open plus in progress) plus the waiting and completed slices of the pie is the total number of orders |
| Dashboard.DisplayName | assets/js/dashboard.js:57 | a truthy first name gives "first last" (a space between, `String` of each); otherwise the username itself |
| Dashboard.PermissionsOutcome | assets/js/dashboard.js:91-107 | an administrator's page is left as it is; only elements of the two role classes change; a technician sees every technician item, even one also marked admin-only, since that update runs last; every other admin-only item is hidden from non-administrators |
| Dashboard.ApplyPermissions | assets/js/dashboard.js:91-107 | the two `forEach` loops update the page in place so that every element ends as `PermissionsOutcome` describes: hidden first, then shown |
| Dashboard.UnreadCountAppend | assets/js/dashboard.js:447 | the unread count of a concatenation is the sum of the counts |
| Dashboard.UnreadCountBounds | assets/js/dashboard.js:447 | the count is at most the list length; it equals the length iff nothing is read, and is zero iff everything is read |
| Dashboard.StaticBadge | assets/js/dashboard.js:419-451 | the placeholder list yields a badge of 3, displayed |
| Phone.ShapeAccepted | assets/js/main.js:182-186 | every phone the grammar produces passes `isValidPhone` |
| Phone.Parse | assets/js/main.js:182-186 | every accepted phone is read back as a well-formed shape that renders to it |
| Phone.AcceptedIffShaped | assets/js/main.js:182-186 | `isValidPhone` accepts exactly the strings produced by the grammar |
| Phone.ValidPhoneDigits | assets/js/main.js:182-186 | an accepted phone has 8 to 11 digits. At 9 digits the first is a 9; at 11 the third is |
| Phone.ValidPhoneLayout | assets/js/main.js:182-186 | an accepted phone is at least 8 characters of digits, parentheses, hyphen and whitespace. A hyphen appears only before the last four digits, `(` only first, and at most one whitespace character |
| Phone.DocumentedFormatWithArea | assets/js/main.js:184 | "(11) 99999-9999" is accepted |
| Phone.DocumentedFormatDigitsOnly | assets/js/main.js:184 | "11999999999" is accepted |
| Phone.OpeningParenthesisAlone | assets/js/main.js:185 | "(11 9999-9999" is accepted: the parentheses are independent |
| Phone.ClosingParenthesisAlone | assets/js/main.js:185 | "11) 9999-9999" is accepted |
| Phone.NineDigitsNeedLeadingNine | assets/js/main.js:185 | "123456789" is rejected |
| Phone.TwoSpacesRejected | assets/js/main.js:185 | "(11)  9999-9999" is rejected |
| DemoLogin.SimulateLogin | assets/js/main.js:308-345 | accepted iff the pair is one of the three accounts; the user is that account's name, e-mail and role; otherwise "Email ou senha incorretos" |
| DemoLogin.AccountsDistinct | assets/js/main.js:312-336 | the three accounts have distinct e-mails and distinct roles |
| DemoLogin.OnlyOwnPassword | assets/js/main.js:312-344 | a known e-mail is accepted only with its own password, and the role is fixed by the e-mail |

## Findings

| source | as written | input that shows it | evidently intended | confidence | as-written member | corrected member |
|---|---|---|---|---|---|---|
| assets/js/dashboard.js:87 | `tipos[tipo] \|\| tipo` looks up an object literal, which also holds the inherited `Object.prototype` members; the same holds for `getStatusClass` (line 359) and `getStatusText` (line 373) | `tipo = "constructor"` displays the `Object` function; `status = "toString"` gives a function as CSS class | only the listed keys map to labels; every other key falls back | not executed | Dashboard.PrototypeKeyLeaks | Dashboard.TipoUsuarioFormatado |

`Dashboard.TipoUsuarioFormatadoAsWritten`, `Dashboard.StatusClassAsWritten` and
`Dashboard.StatusTextAsWritten` model the lookups as written.
`Dashboard.TipoUsuarioFormatado`, `Dashboard.StatusClass` and
`Dashboard.StatusText` are the corrected lookups, with their contracts proved.
`Dashboard.LookupsAgreeOutsidePrototype` proves that the two versions differ
only on the inherited member names.

## Left out

- I/O: `fetch`, `response.json()` parsing, `JSON.stringify`, and the URL
  encoding of `URLSearchParams`. Responses arrive already parsed (`Option<Json>`),
  and request bodies stay as key/value lists.
- Session.HandleSpec: the retry branch (`response.request` present) models the
  retry the comments at `assets/js/api.js:127-130` intend, for a hypothetical
  `request` object whose headers can be replaced. No JavaScript value behaves so:
  a real `Request` has a read-only `headers`, so the assignment throws in the
  class's strict-mode code and the call ends in logout as when `request` is
  missing; a plain object is turned by `fetch` into the URL "[object Object]"
  and sent as a header-less GET. `Session.Retried` is that intended request.
- Session.LoginSpec, Session.RefreshSpec, Session.HandleSpec: a JSON string,
  number, boolean or array body reads every property the code uses as
  `undefined`; a `null` body throws. Properties of string or array bodies
  that exist (`length`) are never read by the code.
- Non-scalar JSON members (nested objects and arrays) and non-integer numbers:
  `JsValue` covers undefined, null, booleans, integers and strings. `String(v)`
  of a fractional or exponent-notation number is not modelled.
- Console logging in every `catch`: it has no effect on state or results.
- Concurrency between overlapping requests: each gateway call is applied
  atomically, in the order of the sequence.
- `Object.keys` order: `params` is given as a list already in key order. The
  rule that integer-like keys come first is not modelled.
- `Message`: the errors the browser itself raises (a rejected fetch, an
  unparseable body) have no modelled message text.
- The DOM and Chart.js: element updates, the `user_data` cache, and the
  'Sessão expirada' check in `loadUserData` are page plumbing around the
  modelled functions. The numbers and strings they display are the modelled
  ones.
- Dashboard.StatCards: the stat-card sum `abertas + em_andamento` is modelled on
  integers. String concatenation, when the back end sends strings, is not
  modelled.
- Dashboard.ApplyPermissions: the page is an array of the elements the two
  selectors can match, each reduced to its two role classes and its inline
  `display`; the rest of the DOM is not modelled.
- DemoLogin.SimulateLogin: e-mail and password are strings. The strict equality
  with a non-string argument, which is always false, is not modelled.
- Phone: `re.test` converts a non-string argument with `String()`; the model
  takes a string. Characters are Unicode scalar values rather than UTF-16 code
  units, which makes no difference to this pattern.
- `isValidEmail`, `login.js`, form-validation display and the other page
  scripts are not part of this model.
