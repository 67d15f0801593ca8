/**
 * `AuthService` and `ApiService` as operations on the browser state they share:
 * the two `localStorage` entries, the window location, and the requests handed
 * to `fetch`. Every method is proved to agree with its function in `Session`.
 */
module Api {
  import opened Wrappers
  import opened Js
  import opened Http
  import opened Session
  import Query
  import Forms
  import Facades

  class Browser {
    /** `localStorage['access_token']`. */
    var access: Option<string>
    /** `localStorage['refresh_token']`. */
    var refresh: Option<string>
    /** The page `window.location.href` was last set to by the core. */
    var location: Option<string>
    /** Every request handed to `fetch`, oldest first. */
    var sent: seq<Request>

    function State(): Env
      reads this
    {
      Env(access, refresh, location, sent)
    }

    /** A page load: the stored entries survive from earlier visits; nothing was sent yet. */
    constructor (storedAccess: Option<string>, storedRefresh: Option<string>)
      ensures State() == Env(storedAccess, storedRefresh, None, [])
    {
      access, refresh, location, sent := storedAccess, storedRefresh, None, [];
    }

    /** `getAccessToken()`: the entry, or `null` when it was never set or was removed. */
    function GetAccessToken(): Option<string>
      reads this
    {
      access
    }

    /** `getRefreshToken()`. */
    function GetRefreshToken(): Option<string>
      reads this
    {
      refresh
    }

    /** `isAuthenticated()`. */
    predicate IsAuthenticated()
      reads this
    {
      Session.IsAuthenticated(State())
    }

    /** `setTokens(access, refresh)`: both entries overwritten with `String(value)`. */
    method SetTokens(newAccess: JsValue, newRefresh: JsValue)
      modifies this
      ensures GetAccessToken() == Some(ToStr(newAccess)) && GetRefreshToken() == Some(ToStr(newRefresh))
      ensures location == old(location) && sent == old(sent)
    {
      access := Some(ToStr(newAccess));
      refresh := Some(ToStr(newRefresh));
    }

    /** `clearTokens()`: both entries removed; calling it again changes nothing. */
    method ClearTokens()
      modifies this
      ensures GetAccessToken().None? && GetRefreshToken().None? && !IsAuthenticated()
      ensures location == old(location) && sent == old(sent)
    {
      access := None;
      refresh := None;
    }

    /** `login(username, password)`. */
    method Login(username: string, password: string, reply: Transport) returns (r: Result<Json, ApiError>)
      modifies this
      ensures State() == LoginSpec(old(State()), username, password, reply).env
      ensures r == LoginSpec(old(State()), username, password, reply).result
    {
      sent := sent + [LoginRequest(username, password)];
      match reply {
        case NetworkFailure =>
          r := Failure(NetworkError);
        case Delivered(response) =>
          if !IsOk(response.status) {
            r := Failure(InvalidCredentials);
            return;
          }
          match response.json {
            case None =>
              r := Failure(MalformedBody);
            case Some(data) =>
              if data.JsonNull? {
                r := Failure(NullBodyProperty);
                return;
              }
              SetTokens(Member(data, "access").value, Member(data, "refresh").value);
              r := Success(data);
          }
      }
    }

    /** `refreshToken()`. */
    method RefreshToken(reply: Transport) returns (r: Result<Json, ApiError>)
      modifies this
      ensures State() == RefreshSpec(old(State()), reply).env
      ensures r == RefreshSpec(old(State()), reply).result
    {
      var token := GetRefreshToken();
      if !Present(token) {
        return Failure(MissingRefreshToken);
      }
      sent := sent + [RefreshRequest(token.value)];
      match reply {
        case NetworkFailure =>
          ClearTokens();
          r := Failure(NetworkError);
        case Delivered(response) =>
          if !IsOk(response.status) {
            ClearTokens();
            r := Failure(RefreshRejected);
            return;
          }
          match response.json {
            case None =>
              ClearTokens();
              r := Failure(MalformedBody);
            case Some(data) =>
              if data.JsonNull? {
                ClearTokens();
                r := Failure(NullBodyProperty);
                return;
              }
              access := Some(ToStr(Member(data, "access").value));
              r := Success(data);
          }
      }
    }

    /** `logout()`. */
    method Logout()
      modifies this
      ensures State() == LogoutSpec(old(State()))
    {
      ClearTokens();
      location := Some(LoginPage);
    }

    /** `handleResponse(response)`, with the outcomes of the renewal and of the retry as inputs. */
    method HandleResponse(response: Response, refreshReply: Transport, retryReply: Transport)
      returns (r: Result<Reply, ApiError>)
      modifies this
      ensures State() == HandleSpec(old(State()), response, refreshReply, retryReply).env
      ensures r == HandleSpec(old(State()), response, refreshReply, retryReply).result
    {
      if response.status == 401 {
        var renewed := RefreshToken(refreshReply);
        if renewed.Failure? || response.request.None? {
          Logout();
          return Failure(SessionExpired);
        }
        var again := Retried(response.request.value, State());
        sent := sent + [again];
        match retryReply {
          case NetworkFailure => r := Failure(NetworkError);
          case Delivered(next) => r := Success(Raw(next));
        }
        return;
      }
      match response.json {
        case None =>
          r := Failure(MalformedBody);
        case Some(j) =>
          if !IsOk(response.status) {
            if j.JsonNull? {
              r := Failure(NullBodyProperty);
            } else {
              r := Failure(RequestFailed(DetailMessage(Member(j, "detail").value)));
            }
          } else {
            r := Success(Payload(j));
          }
      }
    }

    /** The common part of every gateway method: `fetch`, then `handleResponse`. */
    method Send(request: Request, net: Exchange) returns (r: Result<Reply, ApiError>)
      modifies this
      ensures State() == SendSpec(old(State()), request, net).env
      ensures r == SendSpec(old(State()), request, net).result
    {
      sent := sent + [request];
      match net.first {
        case NetworkFailure =>
          r := Failure(NetworkError);
        case Delivered(response) =>
          r := HandleResponse(response, net.refresh, net.retry);
      }
    }

    /** `get(endpoint, params)`. */
    method Get(endpoint: string, params: seq<(string, JsValue)>, net: Exchange) returns (r: Result<Reply, ApiError>)
      modifies this
      ensures State() == SendSpec(old(State()), GetRequest(old(State()), endpoint, Query.QueryOf(params)), net).env
      ensures r == SendSpec(old(State()), GetRequest(old(State()), endpoint, Query.QueryOf(params)), net).result
    {
      var query := Query.BuildQuery(params);
      r := Send(GetRequest(State(), endpoint, query), net);
    }

    /** `post(endpoint, data)`. */
    method Post(endpoint: string, data: seq<(string, JsValue)>, net: Exchange) returns (r: Result<Reply, ApiError>)
      modifies this
      ensures State() == SendSpec(old(State()), JsonRequest(old(State()), POST, endpoint, data), net).env
      ensures r == SendSpec(old(State()), JsonRequest(old(State()), POST, endpoint, data), net).result
    {
      r := Send(JsonRequest(State(), POST, endpoint, data), net);
    }

    /** `put(endpoint, data)`. */
    method Put(endpoint: string, data: seq<(string, JsValue)>, net: Exchange) returns (r: Result<Reply, ApiError>)
      modifies this
      ensures State() == SendSpec(old(State()), JsonRequest(old(State()), PUT, endpoint, data), net).env
      ensures r == SendSpec(old(State()), JsonRequest(old(State()), PUT, endpoint, data), net).result
    {
      r := Send(JsonRequest(State(), PUT, endpoint, data), net);
    }

    /** `patch(endpoint, data)`. */
    method Patch(endpoint: string, data: seq<(string, JsValue)>, net: Exchange) returns (r: Result<Reply, ApiError>)
      modifies this
      ensures State() == SendSpec(old(State()), JsonRequest(old(State()), PATCH, endpoint, data), net).env
      ensures r == SendSpec(old(State()), JsonRequest(old(State()), PATCH, endpoint, data), net).result
    {
      r := Send(JsonRequest(State(), PATCH, endpoint, data), net);
    }

    /** `delete(endpoint)`. */
    method Delete(endpoint: string, net: Exchange) returns (r: Result<Reply, ApiError>)
      modifies this
      ensures State() == SendSpec(old(State()), DeleteRequest(old(State()), endpoint), net).env
      ensures r == SendSpec(old(State()), DeleteRequest(old(State()), endpoint), net).result
    {
      r := Send(DeleteRequest(State(), endpoint), net);
    }

    /** `uploadFile(endpoint, formData)`. */
    method UploadFile(endpoint: string, form: seq<FormEntry>, net: Exchange) returns (r: Result<Reply, ApiError>)
      modifies this
      ensures State() == SendSpec(old(State()), UploadRequest(old(State()), endpoint, form), net).env
      ensures r == SendSpec(old(State()), UploadRequest(old(State()), endpoint, form), net).result
    {
      r := Send(UploadRequest(State(), endpoint, form), net);
    }

    /** `getCurrentUser()`: an authenticated GET of `/me/`. */
    method GetCurrentUser(net: Exchange) returns (r: Result<Reply, ApiError>)
      modifies this
      ensures State() == SendSpec(old(State()), GetRequest(old(State()), "/me/", []), net).env
      ensures r == SendSpec(old(State()), GetRequest(old(State()), "/me/", []), net).result
    {
      r := Get("/me/", [], net);
    }

    /** A service operation: its gateway call, dispatched to the matching `ApiService` method. */
    method Perform(call: Facades.Call, net: Exchange) returns (r: Result<Reply, ApiError>)
      modifies this
      ensures State() == SendSpec(old(State()), CallRequest(old(State()), call), net).env
      ensures r == SendSpec(old(State()), CallRequest(old(State()), call), net).result
    {
      match call {
        case GetCall(endpoint, params) => r := Get(endpoint, params, net);
        case PostCall(endpoint, data) => r := Post(endpoint, data, net);
        case PutCall(endpoint, data) => r := Put(endpoint, data, net);
        case DeleteCall(endpoint) => r := Delete(endpoint, net);
        case UploadCall(endpoint, form) => r := UploadFile(endpoint, form, net);
      }
    }

    /** `VistoriaService.uploadFotos(vistoriaId, fotos, descricao)`. */
    method UploadInspectionPhotos(vistoriaId: JsValue, files: seq<File>, descricao: JsValue, net: Exchange)
      returns (r: Result<Reply, ApiError>)
      modifies this
      ensures var call := Facades.Route(Facades.UploadFotosVistoria(vistoriaId, files, descricao));
        && State() == SendSpec(old(State()), CallRequest(old(State()), call), net).env
        && r == SendSpec(old(State()), CallRequest(old(State()), call), net).result
    {
      var form := Forms.BuildInspectionPhotoForm(files, descricao);
      r := UploadFile(Facades.Below("/upload-foto-vistoria/", vistoriaId), form, net);
    }

    /** `OrdemServicoService.uploadFotos(ordemServicoId, fotos, descricao, antesServico)`. */
    method UploadOrderPhotos(ordemServicoId: JsValue, files: seq<File>, descricao: JsValue, antesServico: JsValue,
                             net: Exchange)
      returns (r: Result<Reply, ApiError>)
      modifies this
      ensures var call := Facades.Route(Facades.UploadFotosOrdemServico(ordemServicoId, files, descricao, antesServico));
        && State() == SendSpec(old(State()), CallRequest(old(State()), call), net).env
        && r == SendSpec(old(State()), CallRequest(old(State()), call), net).result
    {
      var form := Forms.BuildOrderPhotoForm(files, descricao, antesServico);
      r := UploadFile(Facades.Below("/upload-foto-ordem-servico/", ordemServicoId), form, net);
    }
  }

  /** The request a service call sends from state `e`. */
  function CallRequest(e: Env, call: Facades.Call): Request
  {
    match call
    case GetCall(endpoint, params) => GetRequest(e, endpoint, Query.QueryOf(params))
    case PostCall(endpoint, data) => JsonRequest(e, POST, endpoint, data)
    case PutCall(endpoint, data) => JsonRequest(e, PUT, endpoint, data)
    case DeleteCall(endpoint) => DeleteRequest(e, endpoint)
    case UploadCall(endpoint, form) => UploadRequest(e, endpoint, form)
  }
}
