/**
 * The HTTP client wrapper: the response interceptor that turns every failed
 * request into one error value, and the `PessoaService` operations, each a
 * fixed method and path whose result is either the response body or that
 * error, rethrown unchanged.
 *
 * The transport itself (base URL, headers, the 10 s timeout) is not modelled:
 * a call is given as its already-settled outcome, a response or an axios error.
 */
module Api {
  import opened Common
  import opened Pessoas

  // ---------------------------------------------------------------------------
  // What axios hands to the interceptor

  /** The part of an error response body the interceptor reads: its `message`. */
  datatype ErrorBody = ErrorBody(message: Option<string>)

  datatype ErrorResponse = ErrorResponse(status: int, statusText: string, data: Option<ErrorBody>)

  /** An axios failure: the response, if one arrived, and whether a request went out. */
  datatype AxiosError = AxiosError(response: Option<ErrorResponse>, requestSent: bool)

  /** A successful response; only `data` is passed on to callers. */
  datatype HttpResponse<T> = HttpResponse(status: int, data: T)

  // ---------------------------------------------------------------------------
  // What the interceptor throws

  /** The error every failed call rethrows: `status` is unset for unexpected failures. */
  datatype ApiError = ApiError(message: string, status: Option<int>, data: Option<ErrorBody>)

  const NetworkMessage: string :=
    "Erro de conexão. Verifique se a API está rodando em http://localhost:8080"
  const UnexpectedMessage: string := "Erro inesperado. Tente novamente."

  /** `data?.message || \`Erro ${status}: ${statusText}\`` */
  function ResponseMessage(r: ErrorResponse): (m: string)
    ensures r.data.Some? && r.data.value.message.Some? && r.data.value.message.value != ""
            ==> m == r.data.value.message.value
    ensures !(r.data.Some? && r.data.value.message.Some? && r.data.value.message.value != "")
            ==> m == "Erro " + IntToString(r.status) + ": " + r.statusText
  {
    var serverText := if r.data.Some? then r.data.value.message.GetOr("") else "";
    if serverText != "" then serverText
    else "Erro " + IntToString(r.status) + ": " + r.statusText
  }

  /** The rejection handler of the response interceptor. */
  function Classify(e: AxiosError): (r: ApiError)
    ensures e.response.Some? ==>
              r.message == ResponseMessage(e.response.value)
              && r.status == Some(e.response.value.status) && r.data == e.response.value.data
    ensures e.response.None? && e.requestSent ==> r == ApiError(NetworkMessage, Some(0), None)
    ensures e.response.None? && !e.requestSent ==> r == ApiError(UnexpectedMessage, None, None)
  {
    match e.response
    case Some(resp) => ApiError(ResponseMessage(resp), Some(resp.status), resp.data)
    case None =>
      if e.requestSent then ApiError(NetworkMessage, Some(0), None)
      else ApiError(UnexpectedMessage, None, None)
  }

  /** The interceptor as a whole: responses pass through, failures are classified. */
  function Intercept<T>(outcome: Result<HttpResponse<T>, AxiosError>): (r: Result<HttpResponse<T>, ApiError>)
    ensures outcome.Ok? <==> r.Ok?
    ensures outcome.Ok? ==> r.value == outcome.value
    ensures outcome.Err? ==> r.error == Classify(outcome.error)
  {
    match outcome
    case Ok(resp) => Ok(resp)
    case Err(e) => Err(Classify(e))
  }

  /** A response wins over a sent request: the network branch needs both "no response" and "request sent". */
  lemma ResponseTakesPrecedence(resp: ErrorResponse)
    ensures Classify(AxiosError(Some(resp), true)) == Classify(AxiosError(Some(resp), false))
    ensures Classify(AxiosError(Some(resp), true)).message == ResponseMessage(resp)
  {
  }

  /** A server-supplied `{message: "X"}` is surfaced verbatim, whatever the status. */
  lemma ServerMessagePreferred(status: int, statusText: string, x: string, sent: bool)
    requires x != ""
    ensures Classify(AxiosError(Some(ErrorResponse(status, statusText, Some(ErrorBody(Some(x))))), sent)).message == x
  {
  }

  /** Status 0 means "no response": it is produced for a sent request without reply, and otherwise only by a response whose status is 0. */
  lemma StatusZeroMeansNoResponse(e: AxiosError)
    ensures Classify(e).status == Some(0) <==>
              (e.response.None? && e.requestSent) || (e.response.Some? && e.response.value.status == 0)
  {
  }

  /** The status is unset exactly for the "unexpected" branch. */
  lemma StatusUnsetMeansUnexpected(e: AxiosError)
    ensures Classify(e).status.None? <==> e.response.None? && !e.requestSent
    ensures Classify(e).status.None? ==> Classify(e).message == UnexpectedMessage
  {
  }

  /** Every classified error has a non-empty message. */
  lemma ClassifiedMessageNonEmpty(e: AxiosError)
    ensures Classify(e).message != ""
  {
    if e.response.Some? {
      var r := e.response.value;
      var fallback := "Erro " + IntToString(r.status) + ": " + r.statusText;
      assert fallback[0] == 'E';
    }
  }

  /**
   * The fallback message names the HTTP status: the number after "Erro " reads
   * back as the status.
   */
  lemma {:induction false} FallbackNamesStatus(r: ErrorResponse)
    requires r.data.None? || r.data.value.message.None? || r.data.value.message.value == ""
    ensures var m := ResponseMessage(r);
            var digits := IntToString(r.status);
            |m| >= 5 + |digits| && m[..5] == "Erro " && ParseInt(m[5..5 + |digits|]) == Some(r.status)
  {
    var digits := IntToString(r.status);
    var m := ResponseMessage(r);
    assert m == "Erro " + digits + ": " + r.statusText;
    assert m[5..5 + |digits|] == digits;
    IntToStringRoundTrip(r.status);
  }

  // ---------------------------------------------------------------------------
  // The PessoaService operations

  datatype Method = GET | POST | PUT | DELETE

  /**
   * One call of `PessoaService`. Ids enter the path through a template literal,
   * so they are carried here as the text that ends up in the URL.
   */
  datatype Operation =
    | ListarPessoas
    | BuscarPessoa(id: string)
    | CriarPessoa(pessoa: Pessoa)
    | AtualizarPessoa(id: string, pessoa: Pessoa)
    | RemoverPessoa(id: string)
    | VerificarHealth

  datatype Request = Request(verb: Method, path: string, body: Option<Pessoa>)

  const Collection: string := "/pessoas"
  const ItemPrefix: string := "/pessoas/"
  const HealthPath: string := "/health"

  /** The request each operation issues against the base URL. */
  function RequestOf(op: Operation): (r: Request)
    ensures r.verb == GET <==> op.ListarPessoas? || op.BuscarPessoa? || op.VerificarHealth?
    ensures r.body.Some? <==> op.CriarPessoa? || op.AtualizarPessoa?
    ensures op.BuscarPessoa? || op.AtualizarPessoa? || op.RemoverPessoa? ==>
              |r.path| >= |ItemPrefix| && r.path[..|ItemPrefix|] == ItemPrefix && r.path[|ItemPrefix|..] == op.id
  {
    match op
    case ListarPessoas => Request(GET, Collection, None)
    case BuscarPessoa(id) => Request(GET, ItemPrefix + id, None)
    case CriarPessoa(p) => Request(POST, Collection, Some(p))
    case AtualizarPessoa(id, p) => Request(PUT, ItemPrefix + id, Some(p))
    case RemoverPessoa(id) => Request(DELETE, ItemPrefix + id, None)
    case VerificarHealth => Request(GET, HealthPath, None)
  }

  predicate IsItemPath(path: string) {
    |path| >= |ItemPrefix| && path[..|ItemPrefix|] == ItemPrefix
  }

  /** The route table read backwards: which operation a request is. */
  function Dispatch(r: Request): Option<Operation> {
    match r.verb
    case GET =>
      if r.body.Some? then None
      else if r.path == Collection then Some(ListarPessoas)
      else if r.path == HealthPath then Some(VerificarHealth)
      else if IsItemPath(r.path) then Some(BuscarPessoa(r.path[|ItemPrefix|..]))
      else None
    case POST =>
      if r.path == Collection && r.body.Some? then Some(CriarPessoa(r.body.value)) else None
    case PUT =>
      if IsItemPath(r.path) && r.body.Some? then Some(AtualizarPessoa(r.path[|ItemPrefix|..], r.body.value))
      else None
    case DELETE =>
      if IsItemPath(r.path) && r.body.None? then Some(RemoverPessoa(r.path[|ItemPrefix|..])) else None
  }

  /** No two operations share a request: the route table is one-to-one. */
  lemma {:induction false} RouteRoundTrip(op: Operation)
    ensures Dispatch(RequestOf(op)) == Some(op)
  {
    match op
    case ListarPessoas =>
    case VerificarHealth =>
      assert HealthPath != Collection;
    case CriarPessoa(_) =>
    case BuscarPessoa(id) =>
      var path := ItemPrefix + id;
      assert path[..|ItemPrefix|] == ItemPrefix && path[|ItemPrefix|..] == id;
      assert |path| != |Collection| && |path| != |HealthPath|;
    case AtualizarPessoa(id, _) =>
      var path := ItemPrefix + id;
      assert path[..|ItemPrefix|] == ItemPrefix && path[|ItemPrefix|..] == id;
    case RemoverPessoa(id) =>
      var path := ItemPrefix + id;
      assert path[..|ItemPrefix|] == ItemPrefix && path[|ItemPrefix|..] == id;
  }

  /** Deleting a person by numeric id targets a URL from which that id reads back. */
  lemma DeletePathNamesId(id: int)
    ensures var r := RequestOf(RemoverPessoa(IntToString(id)));
            r.verb == DELETE && IsItemPath(r.path) && ParseInt(r.path[|ItemPrefix|..]) == Some(id)
  {
    IntToStringRoundTrip(id);
  }

  /**
   * A service method that returns `response.data`: the body on success, the
   * interceptor's error, rethrown unchanged, on failure.
   */
  function Perform<T>(outcome: Result<HttpResponse<T>, AxiosError>): (r: Result<T, ApiError>)
    ensures outcome.Ok? <==> r.Ok?
    ensures outcome.Ok? ==> r.value == outcome.value.data
    ensures outcome.Err? ==> r.error == Classify(outcome.error)
  {
    match Intercept(outcome)
    case Ok(resp) => Ok(resp.data)
    case Err(e) => Err(e)
  }

  /** `removerPessoa`: nothing is returned on success; failures are rethrown like the others. */
  function PerformRemove<T>(outcome: Result<HttpResponse<T>, AxiosError>): (r: Result<(), ApiError>)
    ensures outcome.Ok? <==> r.Ok?
    ensures outcome.Err? ==> r.error == Classify(outcome.error)
  {
    match Intercept(outcome)
    case Ok(_) => Ok(())
    case Err(e) => Err(e)
  }
}
