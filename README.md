# Client registry: record model and store

A Dafny model of the persistence-and-domain layer of a small desktop client
registry. Operators register, edit, delete and list clients. The clients are
kept in a SQLite table and can be exported to JSON and CSV backups.

- `models.dfy` (module `Models`) models `models.py`.
  - `Cliente` is a class. Its email and phone change only through validating
    setters, so no object ever holds values that fail them.
  - `Cliente.Create` is the Python constructor. It runs the email setter and
    then the phone setter, and returns the `ValueError` of the first one that
    fails instead of an object.
  - The three subclasses are the `Variant` datatype: `Regular`,
    `Premium(descuento)` with a default of 15, and `Corporativo(empresa)`.
    `Base` stands for a plain `Cliente`.
  - The email rule is the regular expression `[^@]+@[^@]+\.[^@]+` applied with
    `re.match`. `EmailPattern` states it as "some prefix of the text matches
    the whole pattern". `EmailAccepted` is the scan the setter performs, and
    `EmailAcceptedIff` proves the two agree.
  - The phone rule: only the digits `0`-`9`, and at least seven of them.
  - `ObtenerBeneficio` gives each class's benefit text. `Equals` is `__eq__`,
    which compares ids only.
- `store.dfy` (module `Store`) models `database.py`.
  - `DatabaseManager` is a class holding the table's `columns` and `rows`. Its
    invariant `Valid()` says the schema is one the program can produce and the
    ids are unique.
  - Each public method changes that state in place, as the SQL statement
    would, and its contract gives the new state as a function of the old one.
  - The `tipo`/`extra` columns are derived by the pure functions `TipoNombre`
    and `Extra`. `DecodeVariant` reads them back, which shows that the two
    columns lose nothing.
- `text.dfy` (module `Text`) holds Python's `str()` on integers, which the
  discount texts embed, its inverse, and substring containment.
- `results.dfy` (module `Results`) holds the `Option`, `Result` and `Outcome`
  values that stand for exceptions and absent results.
- `scenarios.dfy` (module `Scenarios`) replays the scenarios of `tests.py`
  against the contracts alone: the invalid email and phone, the duplicate id,
  update then list, and delete.

Errors the SQL engine may raise for reasons outside the model are a
`fault: bool` parameter of each store operation. Examples are an unwritable
file, a lock or corruption. Each operation handles that error exactly as the
source does:
- `crear_tabla` swallows it.
- `eliminar_cliente_db` returns False.
- `guardar_cliente` and `actualizar_cliente` re-raise it.
- `obtener_todos` returns `[]`.
- `exportar_datos` writes nothing.

Errors caused by the schema are modelled from `columns`. A missing table or a
missing `telefono` column makes a statement fail in the same way.

Notes on the code's behaviour, which the model follows:
- `actualizar_cliente` returns True even when no row has the id, and then
  changes nothing.
- No name check exists in the record model. The form layer checks for empty
  fields.
- A phone of exactly seven digits is accepted, although the error text says
  "mayor a 7".
- The backup's columns are in schema order, so `telefono` comes last in a
  migrated table.
- Update may change a client's class, because `tipo` is re-derived from the
  object passed in.

## Model

| member | source | states |
|---|---|---|
| `Models.EmailAcceptedIff` | models.py:21-23 | the setter's scan accepts an email exactly when some prefix of it matches `[^@]+@[^@]+\.[^@]+` (what `re.match` decides) |
| `Models.EmailPattern` | models.py:21-22 | an email is accepted when some prefix of it is a non-empty `@`-free run, `@`, a non-empty `@`-free run, `.` and a non-empty `@`-free run (`re.match` anchors at the start only) |
| `Models.EmailAccepted` | models.py:21-22 | the scan the setter's check amounts to: split at the first `@`, require a non-empty local part and a `.` with a character on each side before the next `@`; `EmailAcceptedIff` proves it equal to `EmailPattern` |
| `Models.EmailAcceptedMatches` | models.py:21-22 | every email the scan accepts has a prefix matching the whole pattern |
| `Models.EmailMatchAccepted` | models.py:21-22 | every email with a prefix matching the whole pattern is accepted by the scan |
| `Models.FirstAt` | models.py:21 | the index the scan splits at is the first `@`: nothing before it is `@` |
| `Models.EmailFromParts` | models.py:21-22 | every `local@domain.tld` whose three parts are non-empty and free of `@` is accepted |
| `Models.EmailSuffixIgnored` | models.py:22 | text after a matching prefix is never checked: appending anything to an accepted email keeps it accepted |
| `Models.EmailWithoutAtOrDotRejected` | models.py:21-23 | an email with no `@`, or with no `.` after its first `@`, is rejected |
| `Models.CheckEmail` | models.py:18-24 | the email setter passes exactly the emails matching the pattern and otherwise fails with the invalid-email error carrying the value |
| `Models.PhoneAccepted` | models.py:33-34 | a phone is accepted when it is all digits `0`-`9` and at least seven characters long; `Scenarios.RejectedValues` shows the seven-digit boundary |
| `Models.CheckTelefono` | models.py:31-36 | the phone setter passes exactly the all-digit phones of length at least 7 and otherwise fails with the invalid-phone error carrying the value |
| `Models.Message` | models.py:23-35 | the email error's text ends with the rejected value; the phone error's text is the fixed "mayor a 7 dígitos" text |
| `Models.MessageIdentifiesError` | models.py:23-35 | an email error's text determines the error: two rejected emails give different texts, and no email error has the phone error's text |
| `Models.Validate` | models.py:6-36 | construction succeeds iff email and phone are valid; an invalid email is reported even when the phone is invalid too; a valid email with an invalid phone reports the phone |
| `Models.Cliente.constructor` | models.py:6-11 | an object is only ever built from an email and phone that passed both checks; it holds exactly the given attributes |
| `Models.Cliente.Create` | models.py:6-11 | construction produces a fresh, valid object with the given attributes iff both checks pass, and otherwise the error of the first failing setter and no object |
| `Models.Cliente.SetEmail` | models.py:18-24 | the setter stores a matching email, keeps the old one and reports the invalid-email error otherwise; the object stays valid |
| `Models.Cliente.SetTelefono` | models.py:31-36 | the setter stores an all-digit phone of length at least 7, keeps the old one and reports the invalid-phone error otherwise; the object stays valid |
| `Models.PremiumBenefitShowsDiscount` | models.py:62-64 | a premium client's benefit text contains its discount followed by `%` |
| `Models.PremiumDefaultAndExample` | models.py:57-64 | the default discount is 15, and a discount of 25 gives a text containing "25%" |
| `Models.CorporativoBenefitShowsEmpresa` | models.py:71-73 | a corporate client's benefit text contains its company |
| `Models.ObtenerBeneficio` | models.py:38-73 | the benefit text of each class (base, regular, premium with its discount, corporate with its company); its ninth character is `á`, `R`, `P` or `C` by class, so no class shares another's text |
| `Models.BenefitDeterminesVariant` | models.py:38-73 | equal benefit texts mean the same class with the same discount or company |
| `Models.Equals` | models.py:46-49 | `__eq__`: the other value is a client and has the same id; `EqualsIsIdentityOfId` proves what follows from that |
| `Models.EqualsIsIdentityOfId` | models.py:46-49 | two clients are equal iff their ids are equal, whatever their other fields; a non-client is never equal; equality is reflexive, symmetric and transitive |
| `Text.IntToString` | models.py:64 | Python's `str()` of an integer as used in the premium text and at database.py:55: non-empty, starting with `-` exactly for negative numbers; `Text.ParseIntOfIntToString` proves it loses nothing |
| `Text.NatToString` | models.py:64 | the decimal text of a number is a non-empty string of digits without a leading zero |
| `Text.DigitsValueOfNatToString` | models.py:64 | the decimal digits of a natural number read back as that number |
| `Text.ParseIntOfIntToString` | database.py:55 | `str()` of an integer, sign included, parses back to the same integer |
| `Text.IntToStringInjective` | database.py:55 | different integers have different texts |
| `Store.TipoNombre` | database.py:59 | the `tipo` column is the class name: `Cliente`, `ClienteRegular`, `ClientePremium` or `ClienteCorporativo` |
| `Store.Extra` | database.py:54-56 | the `extra` column is `Descuento: <n>%` for a premium client, `Empresa: <name>` for a corporate one and empty otherwise |
| `Store.DecodeVariantRoundTrip` | database.py:54-59 | `tipo` and `extra` determine the client's class, discount and company: decoding the pair gives the variant back |
| `Store.RowOfRoundTrip` | database.py:64-65 | the row written for a client determines the client: decoding it gives back id, name, email, phone and variant |
| `Store.RowOf` | database.py:64-65 | the six values the insert and the update bind: id, name, email, phone, `tipo` and `extra`; `Store.RowOfRoundTrip` proves they determine the client |
| `Store.InsertKeepsUnique` | database.py:64-71 | appending a row whose id is not in the table keeps the ids unique |
| `Store.ReplaceById` | database.py:87-90 | the update leaves the number of rows unchanged; each row whose id matches becomes the new row; every other row is unchanged, in place |
| `Store.ReplaceByIdProperties` | database.py:87-94 | the update keeps each row's id and the key; with no matching id it changes nothing; otherwise the new row is in the table |
| `Store.RemoveById` | database.py:40 | the rows left by the delete are exactly the old rows whose id differs |
| `Store.UniqueIdsTail` | database.py:21 | the rows after the first keep the key and do not repeat the first row's id |
| `Store.HasIdCons` | database.py:40 | an id is in the table iff it is the first row's id or it occurs in the rest |
| `Store.RemoveByIdUnique` | database.py:40 | deleting by id keeps the ids unique |
| `Store.RemoveByIdCount` | database.py:40-45 | deleting removes exactly one row when the id is present and none, leaving the table unchanged, when it is absent |
| `Store.RemoveByIdProperties` | database.py:40-45 | after deleting an id the table keeps the key, no longer has the id, and is one row shorter iff the id was present |
| `Store.MigrateColumns` | database.py:20-29 | the columns after `CREATE TABLE IF NOT EXISTS` and, when `telefono` is missing, `ADD COLUMN telefono` |
| `Store.MigrateRows` | database.py:29 | rows present when `telefono` is added get the default "Sin Teléfono"; otherwise rows are unchanged |
| `Store.MigrationProperties` | database.py:20-29 | the migration ends with every column including `telefono`, only appends columns, changes no row's other fields, and a second run changes nothing |
| `Store.RowDict` | database.py:117 | the record exported for a row has exactly the table's columns as keys |
| `Store.DatabaseManager.constructor` | database.py:10-12 | opening the file runs the migration: the store is valid and holds the migrated table, or the table as found when the engine fails |
| `Store.DatabaseManager.CrearTabla` | database.py:14-33 | creates the table if absent and adds `telefono` with its default to existing rows; an engine error leaves everything unchanged; the key invariant holds |
| `Store.DatabaseManager.EliminarClienteDb` | database.py:35-48 | returns True iff a row with the id existed, and then removes it; an absent id, a missing table or an engine error gives False with the table unchanged |
| `Store.DatabaseManager.GuardarCliente` | database.py:50-74 | a fresh id adds exactly the row (id, nombre, email, telefono, tipo, extra) after the existing ones; a taken id gives the "ya existe" error and an engine error is re-raised, both leaving the table unchanged |
| `Store.DatabaseManager.ActualizarCliente` | database.py:76-97 | replaces nombre, email, telefono, tipo and extra of the row with the client's id, so the class can change; returns True, also when no row matched (then the table is unchanged); an engine error is re-raised |
| `Store.DatabaseManager.ObtenerTodos` | database.py:99-108 | one tuple per row, in table order, with the fields (id, nombre, email, telefono, tipo, extra); `[]` on an engine error or a table without those columns |
| `Store.DatabaseManager.ExportarDatos` | database.py:110-136 | an empty table, a missing table or an error writes nothing; otherwise one JSON object and one CSV line per row, with the table's columns as header and as the keys of the first row's object |
| `Store.DuplicateMessageSaysExists` | database.py:69-71 | the duplicate-id error message contains "ya existe" |
| `Scenarios.RejectedValues` | tests.py:37-45 | "email_incorrecto" and the phone "123" are rejected; seven digits are accepted |
| `Scenarios.TesterEmailAccepted` | tests.py:20 | the email used by the tests is accepted |
| `Scenarios.FreshStore` | database.py:10-33 | a new file, once `crear_tabla` has run, holds an empty table with every column |

## Left out

- gui.py is not part of this model. It is the Tkinter form and table view. Its required-field check and its mapping from the selector to a subclass are form glue.
- services.py is not part of this model. It holds simulated network calls built on sleeps and logging.
- logger.py and main.py are not part of this model. They hold logging setup and application start-up.
- The log lines every operation writes are not modelled. They are side effects with no effect on the table.
- `Cliente.__str__` (models.py:42-44) is not modelled. It only formats text for display.
- `str.isdigit` also accepts non-ASCII digits. The model accepts only `0`-`9`.
- The phone setter also accepts a non-string value through `str(valor)`, such as an integer. The model takes phones as text.
- `descuento` may be any Python value. The model takes an integer.
- Python lets any attribute be reassigned. The model fixes the id and the subclass at construction, as no code reassigns them.
- A Premium or Corporativo object gets its attribute after the base constructor has run. The model builds the object in one step, which gives the same result.
- SQLite itself is not modelled: type affinity, connections, transactions, and row order without `ORDER BY`. Rows are a sequence in insertion order.
- Store.DatabaseManager.CrearTabla: an engine error is modelled as leaving the file unchanged. In the source, a failure after `CREATE TABLE` but before `ALTER TABLE` leaves the table without `telefono`. The schema invariant admits that table, and the constructor accepts it as an existing file.
- Store.DatabaseManager.ExportarDatos: a failure after the JSON file is written but before the CSV file is not modelled. Such a failure leaves only one of the two files.
- Store.DatabaseManager.ExportarDatos: the byte formats are not modelled. That covers indentation, CSV quoting and UTF-8. The files are also not modelled as overwriting earlier backups.
- The constructor takes the table found in the file as parameters. It requires that table to have a schema the program produces and unique ids, which the primary key guarantees.
