/**
 * The API client's two interceptors: the Authorization header added to each
 * request, and the classification of a failed response into the error the
 * callers receive. The device storage is a map from keys to strings.
 */
module ApiClient {
  import opened Wrappers

  const UserTokenKey := "@siaoplay:user_token"
  const UserDataKey := "@siaoplay:user_data"

  const UnknownErrorMessage := "Erro desconhecido"
  const ForbiddenMessage := "Acesso negado. Você não tem permissão para esta ação."
  const NotFoundMessage := "Recurso não encontrado."
  const ServerErrorMessage := "Erro interno do servidor. Tente novamente mais tarde."
  const ConnectionMessage := "Erro de conexão. Verifique sua internet."

  /** A response: its status and the `message` field of its body, if any. */
  datatype Response = Response(status: int, bodyMessage: Option<string>)

  /** A failed request: the transport's message and code, and the response when there was one. */
  datatype Failure = Failure(message: Option<string>, code: Option<string>, response: Option<Response>)

  datatype ApiError = ApiError(message: string, code: Option<string>, status: Option<int>)

  function StatusOf(f: Failure): Option<int> {
    if f.response.Some? then Some(f.response.value.status) else None
  }

  /** The body's message, else the transport's message, else "Erro desconhecido". */
  function BaseMessage(f: Failure): (r: string)
    ensures r != ""
    ensures f.response.Some? && Truthy(f.response.value.bodyMessage) ==> r == f.response.value.bodyMessage.value
    ensures !(f.response.Some? && Truthy(f.response.value.bodyMessage)) && Truthy(f.message) ==> r == f.message.value
    ensures !(f.response.Some? && Truthy(f.response.value.bodyMessage)) && !Truthy(f.message) ==> r == UnknownErrorMessage
  {
    var body := if f.response.Some? then f.response.value.bodyMessage else None;
    OrElse(Or(body, f.message), UnknownErrorMessage)
  }

  /**
   * The error rejected to the caller: code and status copied; without a
   * response the connection text; 403, 404 and 500 their fixed texts; any
   * other status (401 included) the base message.
   */
  function Classify(f: Failure): (r: ApiError)
    ensures r.code == f.code && r.status == StatusOf(f)
    ensures f.response.None? ==> r.message == ConnectionMessage
    ensures StatusOf(f) == Some(403) ==> r.message == ForbiddenMessage
    ensures StatusOf(f) == Some(404) ==> r.message == NotFoundMessage
    ensures StatusOf(f) == Some(500) ==> r.message == ServerErrorMessage
    ensures f.response.Some? && f.response.value.status !in {403, 404, 500} ==> r.message == BaseMessage(f)
  {
    var message :=
      if f.response.None? then ConnectionMessage
      else if f.response.value.status == 403 then ForbiddenMessage
      else if f.response.value.status == 404 then NotFoundMessage
      else if f.response.value.status == 500 then ServerErrorMessage
      else BaseMessage(f);
    ApiError(message, f.code, StatusOf(f))
  }

  /** The message a caller sees is never empty, and a fixed text is used exactly for the listed cases. */
  lemma ClassifiedMessageCases(f: Failure)
    ensures Classify(f).message != ""
    ensures Classify(f).message == BaseMessage(f) || Classify(f).message in
      {ConnectionMessage, ForbiddenMessage, NotFoundMessage, ServerErrorMessage}
  {
  }

  /** A request's headers; `None` when the configuration has no header object. */
  class RequestConfig {
    var headers: Option<map<string, string>>

    constructor (headers: Option<map<string, string>>)
      ensures this.headers == headers
    {
      this.headers := headers;
    }
  }

  class Client {
    var storage: map<string, string>

    constructor (storage: map<string, string>)
      ensures this.storage == storage
    {
      this.storage := storage;
    }

    /**
     * The request interceptor: with a non-empty stored token and a header
     * object, sets `Authorization: Bearer <token>`; otherwise leaves the
     * request as it is.
     */
    method AuthorizeRequest(config: RequestConfig)
      modifies config
      ensures var token := if UserTokenKey in storage then storage[UserTokenKey] else "";
        if token != "" && old(config.headers).Some?
        then config.headers == Some(old(config.headers).value["Authorization" := "Bearer " + token])
        else config.headers == old(config.headers)
    {
      if UserTokenKey in storage && storage[UserTokenKey] != "" && config.headers.Some? {
        config.headers := Some(config.headers.value["Authorization" := "Bearer " + storage[UserTokenKey]]);
      }
    }

    /**
     * The response error interceptor: a 401 removes the stored token and user
     * data; then the message is overwritten by each matching status check in turn.
     */
    method OnResponseError(f: Failure) returns (e: ApiError)
      modifies this
      ensures e == Classify(f)
      ensures StatusOf(f) == Some(401) ==> storage == old(storage) - {UserTokenKey, UserDataKey}
      ensures StatusOf(f) != Some(401) ==> storage == old(storage)
    {
      e := ApiError(BaseMessage(f), f.code, StatusOf(f));
      var status := StatusOf(f);
      if status == Some(401) {
        storage := storage - {UserTokenKey};
        storage := storage - {UserDataKey};
      }
      if status == Some(403) {
        e := e.(message := ForbiddenMessage);
      }
      if status == Some(404) {
        e := e.(message := NotFoundMessage);
      }
      if status == Some(500) {
        e := e.(message := ServerErrorMessage);
      }
      if f.response.None? {
        e := e.(message := ConnectionMessage);
      }
    }
  }
}
