/**
 * The person form: the record being edited, the validator's error map, and
 * the set of fields the user has touched; the handlers that change them; and
 * the predicates that decide which error a field shows and whether the submit
 * button is enabled.
 *
 * The validator (`validarPessoa`) and the phone mask (`aplicarMascaraTelefone`)
 * are not part of this model: the form receives them as functions and nothing
 * is assumed about what they compute.
 */
module PersonForm {
  import opened Common
  import opened Pessoas

  /** The validator's result: an error message per invalid field. */
  type Errors = map<Field, string>

  /**
   * `isFieldInvalid(f)`: drives the red outline of an input. A field is
   * outlined exactly when the warning box lists a non-empty error for it.
   */
  predicate IsFieldInvalid(touched: set<Field>, errors: Errors, f: Field)
    ensures IsFieldInvalid(touched, errors, f) <==>
              f in SummaryEntries(errors, touched) && SummaryEntries(errors, touched)[f] != ""
  {
    f in touched && f in errors && errors[f] != ""
  }

  /** `getFieldError(f)`: under an outlined field, its error; otherwise nothing. */
  function FieldError(touched: set<Field>, errors: Errors, f: Field): (r: Option<string>)
    ensures r.Some? <==> IsFieldInvalid(touched, errors, f)
    ensures r.Some? ==> r.value == errors[f] && r.value != ""
  {
    if IsFieldInvalid(touched, errors, f) then Some(errors[f]) else None
  }

  /** The fields the form marks as required: all but the phone. */
  const RequiredFields: seq<Field> := [Nome, Email, Genero, DataNascimento]

  /**
   * `isFormValid()`: no error at all, and the four required fields filled in.
   * The phone is optional and is not looked at. The displayed error map of a
   * valid form passes the submit check; the handler itself validates afresh,
   * so the two agree only while the errors are in sync.
   */
  predicate IsFormValid(formData: Pessoa, errors: Errors)
    ensures IsFormValid(formData, errors) ==> SubmitOutcome(formData, errors) == Some(formData)
  {
    && |errors| == 0
    && formData.nome != ""
    && formData.email != ""
    && formData.genero != ""
    && formData.dataNascimento != ""
  }

  /** `disabled={loading || !isFormValid()}` on the submit button. */
  function SubmitDisabled(loading: bool, formData: Pessoa, errors: Errors): (r: bool)
    ensures !r <==> !loading && |errors| == 0 && formData.nome != "" && formData.email != ""
                    && formData.genero != "" && formData.dataNascimento != ""
  {
    loading || !IsFormValid(formData, errors)
  }

  /** A valid form is one without errors whose required fields are all filled in; the phone may stay empty. */
  lemma FormValidIffRequiredFilled(formData: Pessoa, errors: Errors)
    ensures IsFormValid(formData, errors) <==>
              |errors| == 0 && forall f :: f in RequiredFields ==> Get(formData, f) != ""
    ensures IsFormValid(formData, errors) ==> IsFormValid(Set(formData, Telefone, ""), errors)
  {
    assert Get(formData, Nome) == formData.nome && Get(formData, Email) == formData.email;
    assert Get(formData, Genero) == formData.genero && Get(formData, DataNascimento) == formData.dataNascimento;
  }

  /**
   * The warning box: shown when some field has an error and some field was
   * touched. Whenever it has an entry to list it is shown; it can also be
   * shown with no entry, when only untouched fields have errors.
   */
  predicate ShowsErrorSummary(errors: Errors, touched: set<Field>)
    ensures SummaryEntries(errors, touched) != map[] ==> ShowsErrorSummary(errors, touched)
    ensures ShowsErrorSummary(errors, touched) ==> errors != map[] && touched != {}
  {
    |errors| > 0 && |touched| > 0
  }

  /** The entries listed in the warning box: the errors of touched fields. */
  function SummaryEntries(errors: Errors, touched: set<Field>): (r: Errors)
    ensures forall f :: f in r <==> f in errors && f in touched
    ensures forall f :: f in r ==> r[f] == errors[f]
  {
    map f | f in errors && f in touched :: errors[f]
  }

  /** What the submit handler does with the record: hand it over only if the validator finds nothing. */
  function SubmitOutcome(formData: Pessoa, formErrors: Errors): (r: Option<Pessoa>)
    ensures r.Some? <==> |formErrors| == 0
    ensures r.Some? ==> r.value == formData
  {
    if |formErrors| == 0 then Some(formData) else None
  }

  /** The `forEach` of the submit handler: every listed field becomes touched. */
  method MarkTouched(fields: seq<Field>) returns (t: set<Field>)
    ensures forall f :: f in t <==> f in fields
  {
    t := {};
    var i := 0;
    while i < |fields|
      invariant 0 <= i <= |fields|
      invariant forall f :: f in t <==> f in fields[..i]
    {
      t := t + {fields[i]};
      i := i + 1;
    }
    assert fields[..i] == fields;
  }

  class FormState {
    var formData: Pessoa
    var errors: Errors
    var touched: set<Field>
    const validate: Pessoa -> Errors
    const mask: string -> string

    /**
     * The first render: the `pessoa` prop, or the empty person when there is
     * none; no errors yet (the validation effect has not run) and nothing touched.
     */
    constructor (pessoa: Option<Pessoa>, empty: Pessoa, validate: Pessoa -> Errors, mask: string -> string)
      ensures formData == (if pessoa.Some? then pessoa.value else empty)
      ensures errors == map[] && touched == {}
      ensures this.validate == validate && this.mask == mask
    {
      formData := if pessoa.Some? then pessoa.value else empty;
      errors := map[];
      touched := {};
      this.validate := validate;
      this.mask := mask;
    }

    /** The errors are those of the current record. */
    predicate Synced()
      reads this
    {
      errors == validate(formData)
    }

    /** The validation effect, which runs after every change of `formData`. */
    method Revalidate()
      modifies this`errors
      ensures Synced()
    {
      errors := validate(formData);
    }

    /** The effect on the `pessoa` prop: a present person replaces the record, which is then revalidated. */
    method SyncPessoa(pessoa: Option<Pessoa>)
      modifies this`formData, this`errors
      ensures formData == (if pessoa.Some? then pessoa.value else old(formData))
      ensures pessoa.Some? ==> Synced()
      ensures pessoa.None? ==> errors == old(errors)
    {
      if pessoa.Some? {
        formData := pessoa.value;
        Revalidate();
      }
    }

    /**
     * `handleInputChange(f, v)` followed by the validation effect it triggers:
     * only field `f` changes, `f` becomes touched, and the errors are recomputed.
     */
    method HandleInputChange(f: Field, v: string)
      modifies this`formData, this`errors, this`touched
      ensures formData == Set(old(formData), f, v)
      ensures touched == old(touched) + {f}
      ensures Synced()
    {
      formData := Set(formData, f, v);
      touched := touched + {f};
      Revalidate();
    }

    /** `handleTelefoneChange`: the masked text is stored, never the raw keystrokes. */
    method HandleTelefoneChange(raw: string)
      modifies this`formData, this`errors, this`touched
      ensures formData == Set(old(formData), Telefone, mask(raw))
      ensures touched == old(touched) + {Telefone}
      ensures Synced()
    {
      HandleInputChange(Telefone, mask(raw));
    }

    /** The `onBlur` of an input: the field becomes touched, nothing else changes. */
    method HandleBlur(f: Field)
      modifies this`touched
      ensures touched == old(touched) + {f}
    {
      touched := touched + {f};
    }

    /**
     * `handleSubmit`: all five fields become touched (replacing the previous
     * set), and `onSubmit(formData)` is called, returned here as `submitted`,
     * exactly when a fresh validation of the record finds no error.
     */
    method HandleSubmit() returns (submitted: Option<Pessoa>)
      modifies this`touched
      ensures forall f :: f in touched
      ensures submitted == SubmitOutcome(formData, validate(formData))
    {
      var newTouched := MarkTouched(AllFields);
      touched := newTouched;
      forall f: Field ensures f in touched {
        AllFieldsComplete(f);
      }
      var formErrors := validate(formData);
      submitted := SubmitOutcome(formData, formErrors);
    }
  }

  // ---------------------------------------------------------------------------
  // How the predicates and the handlers fit together

  /** After a submit every field is touched, so each shows its own error, if any. */
  lemma SubmitRevealsErrors(touched: set<Field>, errors: Errors, f: Field)
    requires forall g :: g in touched
    ensures FieldError(touched, errors, f) == (if f in errors && errors[f] != "" then Some(errors[f]) else None)
  {
  }

  /** After a submit the warning box appears exactly when there is an error, and lists every error. */
  lemma SummaryAfterSubmit(errors: Errors, touched: set<Field>)
    requires forall g :: g in touched
    ensures ShowsErrorSummary(errors, touched) <==> |errors| > 0
    ensures SummaryEntries(errors, touched) == errors
  {
    assert Nome in touched;
  }

  /** While the errors are in sync, an enabled submit button means the submit handler passes the record on. */
  lemma EnabledButtonSubmits(formData: Pessoa, validate: Pessoa -> Errors, loading: bool)
    requires !SubmitDisabled(loading, formData, validate(formData))
    ensures SubmitOutcome(formData, validate(formData)) == Some(formData)
  {
  }

  /**
   * The submit handler does not check the required fields itself: if the
   * validator accepts a record whose name is empty, the handler passes it on
   * although the button for it is disabled.
   */
  lemma SubmitGateIgnoresRequiredFields(formData: Pessoa, validate: Pessoa -> Errors)
    requires validate(formData) == map[]
    requires formData.nome == ""
    ensures SubmitOutcome(formData, validate(formData)) == Some(formData)
    ensures SubmitDisabled(false, formData, validate(formData))
  {
  }
}
