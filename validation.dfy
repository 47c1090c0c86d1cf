/**
 * The field rules a contact must satisfy before it is stored (main.js:94-112).
 *
 * The e-mail and mobile-phone checks belong to the `validator` package and are
 * not part of this model: they are carried as the two functions of a `Library`
 * value, so every fact proved here holds whatever those functions accept.
 */
module Validation {

  /** The two checks the rules borrow from the `validator` package. */
  datatype Library = Library(isEmail: string -> bool, isMobilePhone: string -> bool)

  const MinNome: nat := 3
  const MaxNome: nat := 255
  const MaxTelefone: nat := 30
  const MaxDescricao: nat := 50

  /**
   * `validaRegistroContato`: the checks run in the source's order, each failing
   * one returning false at once. JavaScript's `.length` is `|s|` here.
   * The result is true exactly when all four field rules hold together; in
   * particular a phone longer than 30 characters is refused even when the
   * mobile-phone check accepts it.
   */
  function ValidaRegistroContato(lib: Library, nome: string, email: string, telefone: string, descricao: string): (ok: bool)
    ensures ok <==>
      && MinNome <= |nome| <= MaxNome
      && lib.isEmail(email)
      && lib.isMobilePhone(telefone) && |telefone| <= MaxTelefone
      && |descricao| <= MaxDescricao
  {
    if |nome| < MinNome || |nome| > MaxNome then false
    else if !lib.isEmail(email) then false
    else if !lib.isMobilePhone(telefone) || |telefone| > MaxTelefone then false
    else if |descricao| > MaxDescricao then false
    else true
  }
}
