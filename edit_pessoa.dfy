/**
 * The edit page: loading one person by the id in the URL (with a redirect to
 * the list when the person does not exist), saving the edited record, and the
 * choice between spinner, error view and editor.
 *
 * As on the list page, each asynchronous handler is a `Begin` step up to its
 * `await` and an `End` step that receives the call's outcome.
 */
module EditPessoa {
  import opened Common
  import opened Pessoas
  import Api
  import opened Effects
  import Toasts

  const NotFoundToast: string := "Pessoa não encontrada"
  const LoadFailedToast: string := "Erro ao carregar dados da pessoa"
  const SaveFailedFallback: string := "Erro ao atualizar pessoa. Tente novamente."

  /** What a failed load emits: a 404 is reported and sends the user back to the list; anything else is only reported. */
  function LoadFailureEffects(e: Api.ApiError): (r: seq<Effect>)
    ensures Navigate(ListRoute) in r <==> e.status == Some(404)
    ensures e.status == Some(404) ==> r == [ShowToast(Toasts.Error, NotFoundToast), Navigate(ListRoute)]
    ensures e.status != Some(404) ==> r == [ShowToast(Toasts.Error, LoadFailedToast)]
  {
    if e.status == Some(404) then [ShowToast(Toasts.Error, NotFoundToast), Navigate(ListRoute)]
    else [ShowToast(Toasts.Error, LoadFailedToast)]
  }

  /** The text of the toast after a failed save: the error's message, or the fallback when it is empty. */
  function SaveFailureMessage(e: Api.ApiError): (m: string)
    ensures m != ""
    ensures e.message != "" ==> m == e.message
    ensures e.message == "" ==> m == SaveFailedFallback
  {
    if e.message != "" then e.message else SaveFailedFallback
  }

  /** What a successful save emits: a success toast naming the saved person, then the list. */
  function SaveSuccessEffects(saved: Pessoa): (r: seq<Effect>)
    ensures |r| == 2 && r[1] == Navigate(ListRoute)
    ensures r[0] == ShowToast(Toasts.Success, saved.nome + " foi atualizado(a) com sucesso!")
  {
    [ShowToast(Toasts.Success, saved.nome + " foi atualizado(a) com sucesso!"), Navigate(ListRoute)]
  }

  /** The three things the page can render. */
  datatype View = Spinner | ErrorView | Editor(showsForm: bool)

  /** `if (loading) ...; if (error && !pessoa) ...; return <page with {pessoa && <PersonForm/>}>` */
  function ViewOf(loading: bool, error: Option<Api.ApiError>, pessoa: Option<Pessoa>): (v: View)
    ensures v == Spinner <==> loading
    ensures v == ErrorView <==> !loading && error.Some? && pessoa.None?
    ensures v.Editor? ==> (v.showsForm <==> pessoa.Some?)
  {
    if loading then Spinner
    else if error.Some? && pessoa.None? then ErrorView
    else Editor(pessoa.Some?)
  }

  /** A 404 from the server, as classified by the interceptor, redirects to the list. */
  lemma NotFoundRedirects(e: Api.AxiosError)
    requires e.response.Some? && e.response.value.status == 404
    ensures Navigate(ListRoute) in LoadFailureEffects(Api.Classify(e))
  {
  }

  /** A network failure or any status other than 404 never redirects. */
  lemma OtherFailuresStay(e: Api.AxiosError)
    requires e.response.None? || e.response.value.status != 404
    ensures Navigate(ListRoute) !in LoadFailureEffects(Api.Classify(e))
    ensures LoadFailureEffects(Api.Classify(e)) == [ShowToast(Toasts.Error, LoadFailedToast)]
  {
  }

  /** For errors from the interceptor the save toast is always the error's own message. */
  lemma SaveFailureShowsClassifiedMessage(e: Api.AxiosError)
    ensures SaveFailureMessage(Api.Classify(e)) == Api.Classify(e).message
  {
    Api.ClassifiedMessageNonEmpty(e);
  }

  class Page {
    const id: string
    var pessoa: Option<Pessoa>
    var loading: bool
    var saving: bool
    var error: Option<Api.ApiError>
    var effects: seq<Effect>

    /** The initial state for the person whose id is in the URL. */
    constructor (id: string)
      ensures this.id == id
      ensures pessoa.None? && loading && !saving && error.None? && effects == []
    {
      this.id := id;
      pessoa := None;
      loading := true;
      saving := false;
      error := None;
      effects := [];
    }

    /** The branch the page renders in its current state. */
    function View(): View
      reads this
    {
      ViewOf(loading, error, pessoa)
    }

    /** `carregarPessoa` up to the call: loading, no error, and the request for this id. */
    method BeginCarregar() returns (op: Api.Operation)
      modifies this`loading, this`error
      ensures loading && error.None?
      ensures op == Api.BuscarPessoa(id)
    {
      loading := true;
      error := None;
      op := Api.BuscarPessoa(id);
    }

    /**
     * `carregarPessoa` after the call: the person is stored, or the error is
     * kept and its effects emitted; loading ends either way.
     */
    method EndCarregar(outcome: Result<Pessoa, Api.ApiError>)
      modifies this`pessoa, this`error, this`loading, this`effects
      ensures !loading
      ensures outcome.Ok? ==>
                pessoa == Some(outcome.value) && error == old(error) && effects == old(effects)
      ensures outcome.Err? ==>
                pessoa == old(pessoa) && error == Some(outcome.error)
                && effects == old(effects) + LoadFailureEffects(outcome.error)
    {
      match outcome {
        case Ok(p) =>
          pessoa := Some(p);
        case Err(err) =>
          error := Some(err);
          effects := effects + LoadFailureEffects(err);
      }
      loading := false;
    }

    /** `carregarPessoa` as one step (on mount and on retry). */
    method CarregarPessoa(outcome: Result<Pessoa, Api.ApiError>) returns (op: Api.Operation)
      modifies this`pessoa, this`error, this`loading, this`effects
      ensures op == Api.BuscarPessoa(id) && !loading
      ensures outcome.Ok? ==>
                pessoa == Some(outcome.value) && error.None? && effects == old(effects)
                && View() == Editor(true)
      ensures outcome.Err? ==>
                pessoa == old(pessoa) && error == Some(outcome.error)
                && effects == old(effects) + LoadFailureEffects(outcome.error)
                && (old(pessoa).None? ==> View() == ErrorView)
    {
      op := BeginCarregar();
      EndCarregar(outcome);
    }

    /** `handleSubmit` up to the call: saving, and the update request for this id. */
    method BeginSave(data: Pessoa) returns (op: Api.Operation)
      modifies this`saving
      ensures saving
      ensures op == Api.AtualizarPessoa(id, data)
    {
      saving := true;
      op := Api.AtualizarPessoa(id, data);
    }

    /**
     * `handleSubmit` after the call: a success toast naming the saved person
     * and a redirect, or an error toast and no redirect; saving ends.
     */
    method EndSave(outcome: Result<Pessoa, Api.ApiError>)
      modifies this`saving, this`effects
      ensures !saving
      ensures outcome.Ok? ==> effects == old(effects) + SaveSuccessEffects(outcome.value)
      ensures outcome.Err? ==>
                effects == old(effects) + [ShowToast(Toasts.Error, SaveFailureMessage(outcome.error))]
    {
      match outcome {
        case Ok(saved) =>
          effects := effects + SaveSuccessEffects(saved);
        case Err(err) =>
          effects := effects + [ShowToast(Toasts.Error, SaveFailureMessage(err))];
      }
      saving := false;
    }

    /** `handleSubmit(data)` as one step. */
    method HandleSubmit(data: Pessoa, outcome: Result<Pessoa, Api.ApiError>) returns (op: Api.Operation)
      modifies this`saving, this`effects
      ensures op == Api.AtualizarPessoa(id, data) && !saving
      ensures outcome.Ok? ==> effects == old(effects) + SaveSuccessEffects(outcome.value)
      ensures outcome.Err? ==>
                effects == old(effects) + [ShowToast(Toasts.Error, SaveFailureMessage(outcome.error))]
    {
      op := BeginSave(data);
      EndSave(outcome);
    }

    /** `handleCancel`: back to the list. */
    method HandleCancel()
      modifies this`effects
      ensures effects == old(effects) + [Navigate(ListRoute)]
    {
      effects := effects + [Navigate(ListRoute)];
    }

    /** The `onDismiss` of the error view. */
    method DismissError()
      modifies this`error
      ensures error.None?
    {
      error := None;
    }
  }
}
