/**
 * The person list page: loading the collection, the delete confirmation
 * dialog, deleting one person, and the subtitle that counts the people shown.
 *
 * Each asynchronous handler is split at its `await`: a `Begin` step makes the
 * state changes that precede the call and returns the service operation it
 * issues; an `End` step receives the settled outcome of that call. The
 * handler as a whole is `Begin` followed by `End`.
 */
module ListPessoas {
  import opened Common
  import opened Pessoas
  import Api
  import opened Effects
  import Toasts

  const EmptySubtitle: string := "Nenhuma pessoa cadastrada"
  const LoadFailedMessage: string := "Erro ao carregar lista de pessoas"

  /** `${n} pessoa${n !== 1 ? 's' : ''} encontrada${n !== 1 ? 's' : ''}`, or the empty text. */
  function Subtitle(n: nat): (s: string)
    ensures n == 0 ==> s == EmptySubtitle
    ensures n == 1 ==> s == "1 pessoa encontrada"
    ensures n > 1 ==> s == IntToString(n) + " pessoas encontradas"
  {
    if n == 0 then EmptySubtitle
    else
      var plural := if n != 1 then "s" else "";
      IntToString(n) + " pessoa" + plural + " encontrada" + plural
  }

  /** The subtitle says "nobody" exactly for the empty list. */
  lemma SubtitleEmptyIff(n: nat)
    ensures Subtitle(n) == EmptySubtitle <==> n == 0
  {
    if n > 0 {
      var digits := IntToString(n);
      assert digits == NatToString(n);
      assert IsDigit(Subtitle(n)[0]) by {
        assert Subtitle(n)[0] == digits[0];
      }
    }
  }

  /** Different list sizes never share a subtitle: the subtitle tells the size exactly. */
  lemma SubtitleInjective(m: nat, n: nat)
    requires Subtitle(m) == Subtitle(n)
    ensures m == n
  {
    SubtitleEmptyIff(m);
    SubtitleEmptyIff(n);
    var suffix := " pessoas encontradas";
    if m > 1 && n > 1 {
      var s := Subtitle(m);
      var dm := IntToString(m);
      var dn := IntToString(n);
      assert |dm| == |dn| by {
        assert |s| == |dm| + |suffix| == |dn| + |suffix|;
      }
      assert dm == s[..|dm|];
      assert dn == s[..|dn|];
      IntToStringInjective(m, n);
    }
  }

  function IdOf(p: Pessoa): Option<int> {
    p.id
  }

  /** `pessoas.filter(p => p.id !== id)` */
  function RemoveById(ps: seq<Pessoa>, id: Option<int>): (r: seq<Pessoa>)
    ensures forall i :: 0 <= i < |r| ==> r[i] in ps && r[i].id != id
  {
    RemoveByKey(ps, IdOf, id)
  }

  /**
   * Deleting removes every entry with the id and nothing else: each other
   * entry keeps its number of occurrences, and the survivors keep their order.
   */
  lemma RemoveByIdExact(ps: seq<Pessoa>, id: Option<int>)
    ensures forall p :: p in RemoveById(ps, id) ==> p.id != id
    ensures forall p: Pessoa :: p.id != id ==> multiset(RemoveById(ps, id))[p] == multiset(ps)[p]
    ensures forall a, b :: ps == a + b ==> RemoveById(ps, id) == RemoveById(a, id) + RemoveById(b, id)
  {
    forall p: Pessoa | p.id != id
      ensures multiset(RemoveById(ps, id))[p] == multiset(ps)[p]
    {
      RemoveByKeyKeepsOthers(ps, IdOf, id, p);
    }
    forall a, b | ps == a + b
      ensures RemoveById(ps, id) == RemoveById(a, id) + RemoveById(b, id)
    {
      RemoveByKeyAppend(a, b, IdOf, id);
    }
  }

  class Page {
    var pessoas: seq<Pessoa>
    var loading: bool
    var error: Option<Api.ApiError>
    var dialogShow: bool
    var dialogPessoa: Option<Pessoa>
    var deletingId: Option<int>
    var effects: seq<Effect>

    /** The initial state of every `useState`. */
    constructor ()
      ensures pessoas == [] && loading && error.None?
      ensures !dialogShow && dialogPessoa.None? && deletingId.None?
      ensures effects == []
    {
      pessoas := [];
      loading := true;
      error := None;
      dialogShow := false;
      dialogPessoa := None;
      deletingId := None;
      effects := [];
    }

    /** `loading={deletingId === pessoa.id}` on a card: exactly the cards of the person whose id is being deleted. */
    predicate CardLoading(p: Pessoa)
      reads this
      ensures CardLoading(p) <==> p.id.Some? && p.id == deletingId
    {
      deletingId.Some? && p.id == deletingId
    }

    /** `loading={deletingId !== null}` on the dialog: it loads whenever some card does. */
    predicate DialogLoading()
      reads this
      ensures DialogLoading() <==> deletingId.Some?
      ensures forall p :: CardLoading(p) ==> DialogLoading()
    {
      deletingId.Some?
    }

    /** `carregarPessoas` up to the call: loading, no error, and the list request. */
    method BeginCarregar() returns (op: Api.Operation)
      modifies this`loading, this`error
      ensures loading && error.None?
      ensures op == Api.ListarPessoas
    {
      loading := true;
      error := None;
      op := Api.ListarPessoas;
    }

    /**
     * `carregarPessoas` after the call: the data replaces the list, or the
     * error is kept and a toast reports it with the list unchanged; loading ends.
     */
    method EndCarregar(outcome: Result<seq<Pessoa>, Api.ApiError>)
      modifies this`pessoas, this`error, this`loading, this`effects
      ensures !loading
      ensures outcome.Ok? ==> pessoas == outcome.value && error == old(error) && effects == old(effects)
      ensures outcome.Err? ==>
                pessoas == old(pessoas) && error == Some(outcome.error)
                && effects == old(effects) + [ShowToast(Toasts.Error, LoadFailedMessage)]
    {
      match outcome {
        case Ok(data) =>
          pessoas := data;
        case Err(err) =>
          error := Some(err);
          effects := effects + [ShowToast(Toasts.Error, LoadFailedMessage)];
      }
      loading := false;
    }

    /** `carregarPessoas` as one step (on mount and on retry). */
    method CarregarPessoas(outcome: Result<seq<Pessoa>, Api.ApiError>) returns (op: Api.Operation)
      modifies this`pessoas, this`error, this`loading, this`effects
      ensures op == Api.ListarPessoas && !loading
      ensures outcome.Ok? ==> pessoas == outcome.value && error.None? && effects == old(effects)
      ensures outcome.Err? ==>
                pessoas == old(pessoas) && error == Some(outcome.error)
                && effects == old(effects) + [ShowToast(Toasts.Error, LoadFailedMessage)]
    {
      op := BeginCarregar();
      EndCarregar(outcome);
    }

    /** The `onDismiss` of the error alert. */
    method DismissError()
      modifies this`error
      ensures error.None?
    {
      error := None;
    }

    /** `handleDeleteClick(p)`: the dialog opens holding exactly `p`. */
    method HandleDeleteClick(p: Pessoa)
      modifies this`dialogShow, this`dialogPessoa
      ensures dialogShow && dialogPessoa == Some(p)
    {
      dialogShow := true;
      dialogPessoa := Some(p);
    }

    /** `handleDeleteCancel`: the dialog closes and lets go of the person. */
    method HandleDeleteCancel()
      modifies this`dialogShow, this`dialogPessoa
      ensures !dialogShow && dialogPessoa.None?
    {
      dialogShow := false;
      dialogPessoa := None;
    }

    /**
     * `handleDeleteConfirm` up to the call: the held person's id becomes
     * `deletingId`, so exactly that person's cards and the dialog show the
     * loading state, and the delete request for that id goes out.
     */
    method BeginDeleteConfirm() returns (op: Api.Operation)
      requires dialogPessoa.Some? && dialogPessoa.value.id.Some?
      modifies this`deletingId
      ensures deletingId == dialogPessoa.value.id
      ensures op == Api.RemoverPessoa(IntToString(dialogPessoa.value.id.value))
      ensures DialogLoading()
      ensures forall p :: CardLoading(p) <==> p.id == dialogPessoa.value.id
    {
      deletingId := dialogPessoa.value.id;
      op := Api.RemoverPessoa(IntToString(dialogPessoa.value.id.value));
    }

    /**
     * `handleDeleteConfirm` after the call, for the person `target` it
     * captured: on success the person leaves the list, a success toast names
     * them and the dialog closes; on failure an error toast names them and the
     * list and the dialog stay. Either way nothing is loading any more.
     */
    method EndDeleteConfirm(target: Pessoa, outcome: Result<(), Api.ApiError>)
      modifies this`pessoas, this`effects, this`dialogShow, this`dialogPessoa, this`deletingId
      ensures deletingId.None? && !DialogLoading() && forall p :: !CardLoading(p)
      ensures outcome.Ok? ==>
                pessoas == RemoveById(old(pessoas), target.id)
                && !dialogShow && dialogPessoa.None?
                && effects == old(effects) + [ShowToast(Toasts.Success, target.nome + " foi removido(a) com sucesso")]
      ensures outcome.Err? ==>
                pessoas == old(pessoas)
                && dialogShow == old(dialogShow) && dialogPessoa == old(dialogPessoa)
                && effects == old(effects) + [ShowToast(Toasts.Error, "Erro ao remover " + target.nome)]
    {
      if outcome.Ok? {
        pessoas := RemoveById(pessoas, target.id);
        effects := effects + [ShowToast(Toasts.Success, target.nome + " foi removido(a) com sucesso")];
        dialogShow := false;
        dialogPessoa := None;
      } else {
        effects := effects + [ShowToast(Toasts.Error, "Erro ao remover " + target.nome)];
      }
      deletingId := None;
    }

    /** `handleDeleteConfirm` as one step. */
    method HandleDeleteConfirm(outcome: Result<(), Api.ApiError>) returns (op: Api.Operation)
      requires dialogPessoa.Some? && dialogPessoa.value.id.Some?
      modifies this`pessoas, this`effects, this`dialogShow, this`dialogPessoa, this`deletingId
      ensures op == Api.RemoverPessoa(IntToString(old(dialogPessoa).value.id.value))
      ensures deletingId.None?
      ensures outcome.Ok? ==>
                pessoas == RemoveById(old(pessoas), old(dialogPessoa).value.id)
                && !dialogShow && dialogPessoa.None?
                && effects == old(effects)
                     + [ShowToast(Toasts.Success, old(dialogPessoa).value.nome + " foi removido(a) com sucesso")]
      ensures outcome.Err? ==>
                pessoas == old(pessoas) && dialogShow == old(dialogShow) && dialogPessoa == old(dialogPessoa)
                && effects == old(effects) + [ShowToast(Toasts.Error, "Erro ao remover " + old(dialogPessoa).value.nome)]
    {
      var target := dialogPessoa.value;
      op := BeginDeleteConfirm();
      EndDeleteConfirm(target, outcome);
    }
  }
}
