/**
 * The person record that the pages exchange with the REST collection and that
 * the form edits field by field. Every text field is kept as a string; a field
 * that is missing, `null` or `undefined` in the JSON is the empty string here,
 * which has the same (falsy) truth value in every test the code makes.
 */
module Pessoas {
  import opened Common

  datatype Pessoa = Pessoa(
    id: Option<int>,          // assigned by the collection; absent before creation
    nome: string,
    email: string,
    telefone: string,
    genero: string,
    dataNascimento: string)

  /** The five editable fields, named as the form names them. */
  datatype Field = Nome | Email | Telefone | Genero | DataNascimento

  /** The list the submit handler marks as touched, in its order. */
  const AllFields: seq<Field> := [Nome, Email, Telefone, Genero, DataNascimento]

  function Get(p: Pessoa, f: Field): string {
    match f
    case Nome => p.nome
    case Email => p.email
    case Telefone => p.telefone
    case Genero => p.genero
    case DataNascimento => p.dataNascimento
  }

  /** `{ ...p, [f]: v }`: field `f` replaced, every other field as it was. */
  function Set(p: Pessoa, f: Field, v: string): (r: Pessoa)
    ensures Get(r, f) == v
    ensures forall g :: g != f ==> Get(r, g) == Get(p, g)
    ensures r.id == p.id
  {
    match f
    case Nome => p.(nome := v)
    case Email => p.(email := v)
    case Telefone => p.(telefone := v)
    case Genero => p.(genero := v)
    case DataNascimento => p.(dataNascimento := v)
  }

  /** Writing back a field's own value is no change. */
  lemma SetGet(p: Pessoa, f: Field)
    ensures Set(p, f, Get(p, f)) == p
  {
  }

  /** The last of two writes to the same field wins. */
  lemma SetSet(p: Pessoa, f: Field, v: string, w: string)
    ensures Set(Set(p, f, v), f, w) == Set(p, f, w)
  {
  }

  /** Every field is one of the five that the submit handler lists. */
  lemma AllFieldsComplete(f: Field)
    ensures f in AllFields
  {
  }
}
