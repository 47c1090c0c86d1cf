/**
 * The `Contato` table and the three operations the window may call on it
 * (main.js:82-91, 116-158). The SQLite file is modelled as the rows it holds in
 * rowid order together with the AUTOINCREMENT counter (SQLite's
 * `sqlite_sequence` entry for the table); SQL text and the driver are not.
 */
module ContactStore {
  import opened Wrappers
  import opened Validation
  import opened Ids

  /** One row of `Contato`: the auto-assigned id and the four text columns. */
  datatype Contato = Contato(id: nat, nome: string, email: string, telefone: string, descricao: string)

  /** The table as found on disk when the program starts. */
  datatype Table = Table(rows: seq<Contato>, lastId: nat)

  /** `{sucesso, mensagem}` returned by `registraContato`. */
  datatype Registro = Registro(sucesso: bool, mensagem: string)

  /** `{sucesso, contatos}` returned by `obterContatos`. */
  datatype Listagem = Listagem(sucesso: bool, contatos: seq<Contato>)

  /** The `contato` field of a lookup: a row, `undefined` (no such id) or `{}` (id refused). */
  datatype Slot = Found(row: Contato) | Undefined | EmptyObject

  /** `{sucesso, contato}` returned by `obterContatoPorID`. */
  datatype Consulta = Consulta(sucesso: bool, contato: Slot)

  /** The statements the driver executes, as its `verbose` trace reports them. */
  datatype Statement =
    | CreateTable
    | InsertRow(nome: string, email: string, telefone: string, descricao: string)
    | SelectAll
    | SelectById(key: string)

  /** The largest rowid SQLite hands out, 2^63 - 1. */
  const MaxRowId: nat := 0x7FFF_FFFF_FFFF_FFFF

  const MsgDadosInvalidos := "Dados inválidos para o contato."
  const MsgInserido := "Contato inserido com sucesso."
  const MsgErroInsercao := "Erro ao inserir contato: "
  /** SQLite's message for SQLITE_FULL, raised once AUTOINCREMENT has used the largest rowid. */
  const MsgBancoCheio := "database or disk is full"

  /**
   * What AUTOINCREMENT guarantees of a table nothing is deleted from: ids are
   * positive, strictly increase in rowid order, and never exceed the counter.
   */
  ghost predicate IdsAscending(rows: seq<Contato>, lastId: nat) {
    && lastId <= MaxRowId
    && (forall i :: 0 <= i < |rows| ==> 1 <= rows[i].id <= lastId)
    && (forall i, j :: 0 <= i < j < |rows| ==> rows[i].id < rows[j].id)
  }

  /** Every stored row passed `validaRegistroContato`. */
  ghost predicate AllAdmitted(lib: Library, rows: seq<Contato>) {
    forall i :: 0 <= i < |rows| ==>
      ValidaRegistroContato(lib, rows[i].nome, rows[i].email, rows[i].telefone, rows[i].descricao)
  }

  /** `SELECT * FROM Contato WHERE id = ?` with `.get`: the first row with that id, if any. */
  function FindById(rows: seq<Contato>, key: nat): (r: Option<Contato>)
    ensures r.Some? ==> r.value in rows && r.value.id == key
    ensures r.None? ==> forall i :: 0 <= i < |rows| ==> rows[i].id != key
  {
    if rows == [] then None
    else if rows[0].id == key then Some(rows[0])
    else FindById(rows[1..], key)
  }

  /** Ids are a key: looking up the id of any stored row yields that very row. */
  lemma FindByIdExact(rows: seq<Contato>, lastId: nat, k: nat)
    requires IdsAscending(rows, lastId) && k < |rows|
    ensures FindById(rows, rows[k].id) == Some(rows[k])
  {
  }

  /** Appending a row whose id is above every stored id keeps the table well formed. */
  lemma AppendFresh(rows: seq<Contato>, lastId: nat, c: Contato)
    requires IdsAscending(rows, lastId) && c.id == lastId + 1 && c.id <= MaxRowId
    ensures IdsAscending(rows + [c], c.id)
    ensures forall i :: 0 <= i < |rows| ==> rows[i].id < c.id
  {
  }

  /**
   * The database handle `db` of main.js:81 with its one table. `hasTable` says
   * whether `Contato` exists yet; `lastId` is the largest id ever handed out.
   */
  class Database {
    const lib: Library
    var hasTable: bool
    var rows: seq<Contato>
    var lastId: nat
    ghost var log: seq<Statement>

    ghost predicate Valid()
      reads this
    {
      && IdsAscending(rows, lastId)
      && AllAdmitted(lib, rows)
      && (!hasTable ==> rows == [] && lastId == 0)
    }

    /**
     * Opening `./database/sqlite3.db` (main.js:81): either a new file without
     * the table, or one that earlier runs of the program wrote.
     */
    constructor Open(lib: Library, disk: Option<Table>)
      requires disk.Some? ==> IdsAscending(disk.value.rows, disk.value.lastId)
      requires disk.Some? ==> AllAdmitted(lib, disk.value.rows)
      ensures Valid()
      ensures this.lib == lib && hasTable == disk.Some? && log == []
      ensures disk.Some? ==> rows == disk.value.rows && lastId == disk.value.lastId
    {
      this.lib := lib;
      if disk.Some? {
        hasTable, rows, lastId := true, disk.value.rows, disk.value.lastId;
      } else {
        hasTable, rows, lastId := false, [], 0;
      }
      log := [];
    }

    /** `CREATE TABLE IF NOT EXISTS Contato (...)` (main.js:82-91): an existing table is left as it is. */
    method CriarTabelaContato()
      requires Valid()
      modifies this
      ensures Valid() && hasTable
      ensures log == old(log) + [CreateTable]
      ensures old(hasTable) ==> rows == old(rows) && lastId == old(lastId)
      ensures !old(hasTable) ==> rows == [] && lastId == 0
    {
      hasTable := true;
      log := log + [CreateTable];
    }

    /**
     * `registraContato` (main.js:116-131). `fault` stands for an error the
     * driver raises for reasons outside this model (a locked or unreadable
     * file); the other way the insert fails is an exhausted AUTOINCREMENT.
     * Either failure leaves the table as it was.
     */
    method RegistraContato(nome: string, email: string, telefone: string, descricao: string, fault: Option<string>)
      returns (r: Registro)
      requires Valid() && hasTable
      modifies this
      ensures Valid() && hasTable
      ensures !ValidaRegistroContato(lib, nome, email, telefone, descricao) ==>
        r == Registro(false, MsgDadosInvalidos) && log == old(log)
      ensures ValidaRegistroContato(lib, nome, email, telefone, descricao) ==>
        log == old(log) + [InsertRow(nome, email, telefone, descricao)]
      ensures r.sucesso <==>
        ValidaRegistroContato(lib, nome, email, telefone, descricao) && fault.None? && old(lastId) < MaxRowId
      ensures r.sucesso ==>
        && r.mensagem == MsgInserido
        && lastId == old(lastId) + 1
        && rows == old(rows) + [Contato(lastId, nome, email, telefone, descricao)]
        && (forall i :: 0 <= i < |old(rows)| ==> old(rows)[i].id < lastId)
      ensures !r.sucesso ==> rows == old(rows) && lastId == old(lastId)
      ensures ValidaRegistroContato(lib, nome, email, telefone, descricao) && fault.Some? ==>
        r.mensagem == MsgErroInsercao + fault.value
      ensures ValidaRegistroContato(lib, nome, email, telefone, descricao) && fault.None? && old(lastId) == MaxRowId ==>
        r.mensagem == MsgErroInsercao + MsgBancoCheio
    {
      if !ValidaRegistroContato(lib, nome, email, telefone, descricao) {
        return Registro(false, MsgDadosInvalidos);
      }
      log := log + [InsertRow(nome, email, telefone, descricao)];
      if fault.Some? {
        return Registro(false, MsgErroInsercao + fault.value);
      }
      if lastId == MaxRowId {
        return Registro(false, MsgErroInsercao + MsgBancoCheio);
      }
      var c := Contato(lastId + 1, nome, email, telefone, descricao);
      AppendFresh(rows, lastId, c);
      rows, lastId := rows + [c], lastId + 1;
      r := Registro(true, MsgInserido);
    }

    /** `obterContatos` (main.js:135-141): every row, in rowid order; nothing is changed. */
    method ObterContatos() returns (r: Listagem)
      requires Valid() && hasTable
      modifies this`log
      ensures Valid()
      ensures r.sucesso && r.contatos == rows
      ensures rows == old(rows) && lastId == old(lastId)
      ensures log == old(log) + [SelectAll]
    {
      log := log + [SelectAll];
      r := Listagem(true, rows);
    }

    /**
     * `obterContatoPorID` (main.js:150-158). A key that fails `idValido`
     * is answered with `{}` and never reaches the database; any other key
     * finds exactly the row whose id is the number it spells, or `undefined`.
     */
    method ObterContatoPorId(id: string) returns (r: Consulta)
      requires Valid() && hasTable
      modifies this`log
      ensures Valid()
      ensures rows == old(rows) && lastId == old(lastId)
      ensures r.sucesso == IdValido(id)
      ensures !IdValido(id) ==> r.contato == EmptyObject && log == old(log)
      ensures IdValido(id) ==> log == old(log) + [SelectById(id)]
      ensures IdValido(id) ==>
        (r.contato.Found? <==> exists i :: 0 <= i < |rows| && rows[i].id == ParseId(id))
      ensures IdValido(id) && r.contato.Found? ==>
        r.contato.row in rows && r.contato.row.id == ParseId(id)
      ensures IdValido(id) && !r.contato.Found? ==> r.contato == Undefined
    {
      if IdValido(id) {
        log := log + [SelectById(id)];
        var found := FindById(rows, ParseId(id));
        r := Consulta(true, if found.Some? then Found(found.value) else Undefined);
      } else {
        r := Consulta(false, EmptyObject);
      }
    }
  }

  /**
   * Registering a valid contact and then asking for it by its new id, given as
   * its decimal text, yields exactly the four fields that were stored.
   */
  method RegisterThenLookUp(db: Database, nome: string, email: string, telefone: string, descricao: string)
    returns (r: Consulta)
    requires db.Valid() && db.hasTable && db.lastId < MaxRowId
    requires ValidaRegistroContato(db.lib, nome, email, telefone, descricao)
    modifies db
    ensures db.Valid()
    ensures r == Consulta(true, Found(Contato(db.lastId, nome, email, telefone, descricao)))
  {
    var reg := db.RegistraContato(nome, email, telefone, descricao, None);
    ParseShowNat(db.lastId);
    FindByIdExact(db.rows, db.lastId, |db.rows| - 1);
    r := db.ObterContatoPorId(ShowNat(db.lastId));
  }

  /**
   * A first run against a new file: a valid contact is stored with id 1, a
   * short name is refused, and a key carrying SQL is refused without a query.
   */
  method FirstRun(lib: Library) returns (a: Registro, b: Registro, c: Consulta, all: Listagem)
    requires lib.isEmail("ana@example.com") && lib.isMobilePhone("+5511987654321")
    ensures a == Registro(true, MsgInserido)
    ensures b == Registro(false, MsgDadosInvalidos)
    ensures c == Consulta(false, EmptyObject)
    ensures all == Listagem(true, [Contato(1, "Ana Silva", "ana@example.com", "+5511987654321", "friend")])
  {
    var db := new Database.Open(lib, None);
    db.CriarTabelaContato();
    a := db.RegistraContato("Ana Silva", "ana@example.com", "+5511987654321", "friend", None);
    b := db.RegistraContato("Al", "x@x", "123", "", None);
    c := db.ObterContatoPorId("1; DROP TABLE Contato");
    all := db.ObterContatos();
  }
}
