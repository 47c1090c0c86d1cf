# Contact agenda core, modelled in Dafny

The agenda is a desktop application that registers and lists contacts kept in
a local SQLite table `Contato`. Its logic lives in `main.js`: a validator for
the four text fields of a contact, a syntax check for contact ids, and three
operations on the table. The operations register a contact, list every
contact, and fetch one contact by id. This project models that logic and
proves what it promises.

- `validation.dfy` (module `Validation`): `validaRegistroContato`. The two
  checks it borrows from the `validator` package (`isEmail`, `isMobilePhone`)
  are the two functions of a `Library` value passed in. Every result holds for
  whatever those functions accept.
- `ids.dfy` (module `Ids`): `idValido`, read the way the pattern `/^\d+$/` is
  built. It also holds the reading of a digit string as the number SQLite
  compares with the INTEGER primary key (`ParseId`). Its inverse `ShowNat` is
  the decimal text JavaScript produces when the window passes a numeric id.
- `store.dfy` (module `ContactStore`): the database handle as a class
  `Database`. It holds the rows in rowid order, `lastId` (the AUTOINCREMENT
  counter SQLite keeps in `sqlite_sequence`), whether the table exists yet, and
  a ghost trace of the statements executed. The trace stands for the driver's
  `verbose` log. It lets the model state that a refused id or refused contact
  never reaches the database.
- `wrappers.dfy`: the `Option` type.

The invariant `Database.Valid` says five things:

- every id is positive;
- ids strictly increase along the table;
- no id exceeds the counter, and the counter never exceeds 2^63-1;
- every stored row passed `validaRegistroContato`;
- while the table does not exist there are no rows and the counter is 0.

An insert can fail in two ways. One is the `fault` parameter, which stands for
any error the driver raises for reasons outside the model, such as a locked
or unreadable file. The other is the one failure SQLite's own rules cause
here: AUTOINCREMENT never reuses an id, so once id 2^63-1 has been handed out
every later insert fails with "database or disk is full". In both cases the
result carries the prefix `Erro ao inserir contato: ` and the table is
unchanged. The messages are the program's own, in Portuguese, with that
prefix.

## Model

| member | source | states |
|---|---|---|
| Validation.ValidaRegistroContato | main.js:94-112 | true exactly when the name has 3 to 255 characters, the e-mail check accepts, the phone check accepts and the phone has at most 30 characters, and the description has at most 50. So a bad name length, a phone over 30 characters (even one the phone check accepts) or a description over 50 each make it false, whatever the other fields are |
| Ids.IdValido | main.js:144-147 | `/^\d+$/` accepts exactly the non-empty strings made only of the ASCII digits 0 to 9 |
| Ids.ParseId | main.js:152 | the number SQLite compares with the INTEGER key: the decimal value of the digits, leading zeros ignored, and below 10^n for n digits (so at most 18 digits always fit a 64-bit key) |
| Ids.ShowNat | main.js:146 | the text of a numeric id is non-empty, all digits, and has no leading zero unless the number is 0 |
| Ids.ParseShowNat | main.js:144-152 | a numeric id always passes `idValido` and reads back as the same number in the lookup |
| Ids.ShowParseId | main.js:152 | a digit string without superfluous leading zeros is the text of the number it reads as |
| Ids.LeadingZero | main.js:152 | a leading zero does not change the id looked up ("007" and "7" find the same row) |
| ContactStore.FindById | main.js:152 | the lookup yields a stored row carrying the key, or nothing when no stored row carries it |
| ContactStore.FindByIdExact | main.js:84 | with AUTOINCREMENT ids, looking up the id of any stored row yields that very row |
| ContactStore.AppendFresh | main.js:84 | a row given the next counter value has an id above every stored id, and the table stays ordered |
| ContactStore.Database.Open | main.js:76-81 | opening the file yields either no table (new file) or the rows and counter an earlier run left |
| ContactStore.Database.CriarTabelaContato | main.js:82-91 | afterwards the table exists; an existing table keeps its rows and counter, a new one is empty with counter 0 |
| ContactStore.Database.RegistraContato | main.js:116-131 | invalid fields: the invalid-data message, nothing executed, table unchanged. Valid fields: succeeds exactly when the driver raises nothing and ids are not exhausted, appending one row with the four fields and a fresh id above every earlier one. Otherwise the error message is returned and the table is unchanged |
| ContactStore.Database.ObterContatos | main.js:135-141 | succeeds with every row, in rowid order; the table is unchanged |
| ContactStore.Database.ObterContatoPorId | main.js:143-158 | success exactly when the id passes `idValido`. A refused id gets `{}` and no query. A valid id gets the row whose id is the number it spells, or `undefined` when there is none. The table is unchanged |
| ContactStore.RegisterThenLookUp | main.js:116-158 | registering a valid contact and then looking up its new id, given as its decimal text, yields a row with exactly the four fields stored |
| ContactStore.FirstRun | main.js:82-158 | on a new file, a valid contact gets id 1 and is the one listed row. A two-character name is refused. The key `1; DROP TABLE Contato` is refused with `{}` |

## Left out

- Window creation, navigation and new-window blocking, and the application lifecycle (main.js:15-58). They are user-interface plumbing.
- The IPC handlers (main.js:61-71) and the renderer bridge in `preload.js`. Each handler forwards its arguments unchanged to the operation of the same name, so the model calls the operations directly.
- Creating the `./database` directory and opening the file (main.js:76-81). This is file-system I/O. `Database.Open` takes what the file holds as a parameter.
- The rules inside `validator.isEmail` and `validator.isMobilePhone`. That code is not part of this model. The phone rules depend on a locale.
- Console output: the `isDev` logging, and the `verbose` trace beyond its ghost record of the statements executed.
- Arguments that are not strings. The model takes four strings. In the source, each check runs only if the earlier ones passed. `undefined` or `null` as `nome` throws at `.length` (main.js:95), and as `descricao` it throws at main.js:107 when that line is reached. A non-string `email` or `telefone` (`undefined` and `null` included) throws inside the `validator` functions (main.js:99, 103). A number or bigint as `nome` or `descricao` has no `.length`, so the comparisons with `undefined` are all false and the length rules pass. The value is then stored (`nome = 12` with valid other fields is accepted). A boolean or plain object passes those rules too, but the driver cannot bind it at main.js:126, so the catch at main.js:128-129 returns the insert-error result and nothing is stored.
- Numeric ids. `regex.test` turns a number into its text first. For a non-negative integer up to 2^53-1 that text is `ShowNat` of it, so `ParseShowNat` covers such ids. Larger ids cannot be held exactly by a JavaScript number, so the round-trip of `RegisterThenLookUp` holds only for an id given as its decimal text. Negative and fractional numbers give text with a `-` or `.`, which `idValido` refuses.
- String length counts UTF-16 code units in JavaScript; the model counts characters of `seq<char>`.
- Id keys whose value exceeds SQLite's 64-bit integers (some keys of 19 digits and more). SQLite then does not read the key as an integer, so its rowid seek finds no row. The model reads any digit string as an unbounded number, and it finds no row either, because `Valid` keeps every stored id at most 2^63-1. The two agree on what is returned.
- The `VARCHAR(n)` sizes of the schema. SQLite does not enforce them, so they cause no failure; only the validator bounds the lengths.
- `db.prepare` runs outside the `try` block in `registraContato`, and the read queries are not guarded at all. An error there (a missing table) would propagate. The operations therefore require that the table exists, which the start-up code ensures before any handler can run.
- Row order of `SELECT *` without `ORDER BY`. The model returns rowid order, which is what SQLite yields for this table.
