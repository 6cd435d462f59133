/**
 * The `ErrorMessage` alert: which text it shows for an error, which hint it
 * adds below that text according to the error's status, and which of its two
 * buttons appear.
 */
module ErrorMessage {
  import opened Common
  import Api

  /** The `error` prop: a plain string, or an error thrown by the service layer. */
  datatype ShownError = Text(text: string) | Thrown(err: Api.ApiError)

  const FallbackMessage: string := "Ocorreu um erro inesperado"
  const OfflineDetail: string := "Verifique se a API está rodando em http://localhost:8080"
  const ServerDetail: string := "Erro interno do servidor. Tente novamente em alguns instantes."
  const NotFoundDetail: string := "Recurso não encontrado."
  const ClientDetail: string := "Verifique os dados informados."

  /** `error.status`; a string has none. */
  function StatusOf(e: ShownError): Option<int> {
    match e
    case Text(_) => None
    case Thrown(err) => err.status
  }

  /** `getErrorMessage`: the string itself, else a non-empty `message`, else the fallback. */
  function Message(e: ShownError): (m: string)
    ensures e.Text? ==> m == e.text
    ensures e.Thrown? && e.err.message != "" ==> m == e.err.message
    ensures e.Thrown? && e.err.message == "" ==> m == FallbackMessage
  {
    match e
    case Text(s) => s
    case Thrown(err) => if err.message != "" then err.message else FallbackMessage
  }

  /**
   * `getErrorDetails`. The chain tests 0, then >= 500, then 404, then [400, 500),
   * so each hint belongs to exactly the statuses listed in its clause below.
   */
  function Details(status: Option<int>): (d: Option<string>)
    ensures d == Some(OfflineDetail) <==> status == Some(0)
    ensures d == Some(ServerDetail) <==> status.Some? && status.value >= 500
    ensures d == Some(NotFoundDetail) <==> status == Some(404)
    ensures d == Some(ClientDetail) <==> status.Some? && 400 <= status.value < 500 && status.value != 404
    ensures d.None? <==> status.None? || (status.value != 0 && status.value < 400)
  {
    match status
    case None => None
    case Some(s) =>
      if s == 0 then Some(OfflineDetail)
      else if s >= 500 then Some(ServerDetail)
      else if s == 404 then Some(NotFoundDetail)
      else if s >= 400 && s < 500 then Some(ClientDetail)
      else None
  }

  /** What the alert shows. */
  datatype Alert = Alert(message: string, details: Option<string>, retryButton: bool, dismissButton: bool)

  /**
   * The component: nothing for a falsy error, otherwise the alert. An omitted
   * `dismissible` prop defaults to true.
   */
  function Render(error: Option<ShownError>, hasOnRetry: bool, hasOnDismiss: bool, dismissible: Option<bool>): (r: Option<Alert>)
    ensures r.None? <==> error.None? || error == Some(Text(""))
    ensures r.Some? ==> r.value.message == Message(error.value)
    ensures r.Some? ==> r.value.details == Details(StatusOf(error.value))
    ensures r.Some? ==> (r.value.retryButton <==> hasOnRetry)
    ensures r.Some? && dismissible.None? ==> (r.value.dismissButton <==> hasOnDismiss)
    ensures r.Some? && dismissible.Some? ==> (r.value.dismissButton <==> dismissible.value && hasOnDismiss)
  {
    match error
    case None => None
    case Some(e) =>
      if e == Text("") then None
      else Some(Alert(Message(e), Details(StatusOf(e)), hasOnRetry, dismissible.GetOr(true) && hasOnDismiss))
  }

  /**
   * The pages pass an error, a retry handler and a dismiss handler and leave
   * `dismissible` out: their alert always has both buttons.
   */
  lemma PageAlertHasBothButtons(e: ShownError)
    requires e != Text("")
    ensures var r := Render(Some(e), true, true, None);
            r.Some? && r.value.retryButton && r.value.dismissButton
  {
  }

  /** A string error never carries a hint, whatever its text. */
  lemma TextHasNoDetails(s: string)
    ensures Details(StatusOf(Text(s))).None?
  {
  }

  /**
   * Errors produced by the interceptor always have a non-empty message, so the
   * alert shows that message and never its own fallback.
   */
  lemma ClassifiedMessageShown(e: Api.AxiosError)
    ensures Message(Thrown(Api.Classify(e))) == Api.Classify(e).message
  {
    Api.ClassifiedMessageNonEmpty(e);
  }

  /**
   * The hint each kind of interceptor failure gets: a network failure the
   * "is the API running" hint, an unexpected failure none, and a response the
   * hint of its HTTP status.
   */
  lemma ClassifiedDetails(e: Api.AxiosError)
    ensures e.response.None? && e.requestSent ==> Details(StatusOf(Thrown(Api.Classify(e)))) == Some(OfflineDetail)
    ensures e.response.None? && !e.requestSent ==> Details(StatusOf(Thrown(Api.Classify(e)))).None?
    ensures e.response.Some? ==>
              Details(StatusOf(Thrown(Api.Classify(e)))) == Details(Some(e.response.value.status))
  {
  }
}
