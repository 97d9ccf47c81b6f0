/** The store of database.py: the `clientes` table held by `DatabaseManager`,
    its additive migration, insert, update, delete, listing and backup export.
    The SQL engine is reduced to what these statements do to the table; a
    storage failure the engine may report at any time (unwritable file, lock,
    corruption) is the `fault` parameter of each operation. */
module Store {
  import opened Results
  import opened Text
  import opened Models

  /** One row of `clientes`, one field per column. */
  datatype Row = Row(id: string, nombre: string, email: string, telefono: string, tipo: string, extra: string)

  /** A row as `obtener_todos` returns it: (id, nombre, email, telefono, tipo, extra). */
  type Tuple6 = (string, string, string, string, string, string)

  /** The columns `CREATE TABLE` gives the table, in order. */
  const BaseColumns: seq<string> := ["id", "nombre", "email", "tipo", "extra"]
  const TelefonoColumn := "telefono"
  /** The value `ALTER TABLE ... ADD COLUMN` gives the rows already present. */
  const TelefonoDefault := "Sin Teléfono"
  const DuplicateMessage := "El ID del cliente ya existe en el sistema."

  /** What `guardar_cliente` and `actualizar_cliente` raise: the `ValueError` for
      a duplicate id, or the engine's own error re-raised. */
  datatype StoreError = DuplicateId(message: string) | StorageError

  // ---------------------------------------------------------------------------
  // The `tipo` and `extra` columns

  /** `type(cliente).__name__`. */
  function TipoNombre(v: Variant): string {
    match v
    case Base => "Cliente"
    case Regular => "ClienteRegular"
    case Premium(_) => "ClientePremium"
    case Corporativo(_) => "ClienteCorporativo"
  }

  const DescuentoLead := "Descuento: "
  const EmpresaLead := "Empresa: "

  /** The detail column: the discount if the object has `descuento`, else the
      company if it has `empresa`, else empty. */
  function Extra(v: Variant): string {
    match v
    case Premium(d) => DescuentoLead + IntToString(d) + "%"
    case Corporativo(e) => EmpresaLead + e
    case _ => ""
  }

  /** The row `guardar_cliente` and `actualizar_cliente` write for a client. */
  function RowOf(c: Record): Row {
    Row(c.idCliente, c.nombre, c.email, c.telefono, TipoNombre(c.variant), Extra(c.variant))
  }

  /** Reads a class and its attribute back from the two columns. */
  function DecodeVariant(tipo: string, extra: string): Option<Variant> {
    if tipo == "Cliente" && extra == "" then Some(Base)
    else if tipo == "ClienteRegular" && extra == "" then Some(Regular)
    else if tipo == "ClientePremium" && |extra| > |DescuentoLead| && extra[..|DescuentoLead|] == DescuentoLead
            && extra[|extra| - 1] == '%' then
      match ParseInt(extra[|DescuentoLead|..|extra| - 1])
      case Some(d) => Some(Premium(d))
      case None => None
    else if tipo == "ClienteCorporativo" && |extra| >= |EmpresaLead| && extra[..|EmpresaLead|] == EmpresaLead then
      Some(Corporativo(extra[|EmpresaLead|..]))
    else None
  }

  /** The two columns lose nothing: class, discount and company come back. */
  lemma DecodeVariantRoundTrip(v: Variant)
    ensures DecodeVariant(TipoNombre(v), Extra(v)) == Some(v)
  {
    match v
    case Base =>
    case Regular =>
    case Premium(d) =>
      var x := Extra(v);
      assert x[..|DescuentoLead|] == DescuentoLead;
      assert x[|DescuentoLead|..|x| - 1] == IntToString(d);
      ParseIntOfIntToString(d);
    case Corporativo(e) =>
      var x := Extra(v);
      assert x[..|EmpresaLead|] == EmpresaLead;
      assert x[|EmpresaLead|..] == e;
  }

  function RecordOfRow(r: Row): Option<Record> {
    match DecodeVariant(r.tipo, r.extra)
    case Some(v) => Some(Record(r.id, r.nombre, r.email, r.telefono, v))
    case None => None
  }

  /** A stored row determines the client it was written from. */
  lemma RowOfRoundTrip(c: Record)
    ensures RecordOfRow(RowOf(c)) == Some(c)
  {
    DecodeVariantRoundTrip(c.variant);
  }

  // ---------------------------------------------------------------------------
  // Rows keyed on id

  predicate HasId(rows: seq<Row>, id: string) {
    exists k :: 0 <= k < |rows| && rows[k].id == id
  }

  /** The primary-key constraint on `id`. */
  predicate UniqueIds(rows: seq<Row>) {
    forall a, b :: 0 <= a < b < |rows| ==> rows[a].id != rows[b].id
  }

  /** `UPDATE clientes SET ... WHERE id = ?`: every row with the new row's id
      is replaced by it, in place. */
  function ReplaceById(rows: seq<Row>, row: Row): (r: seq<Row>)
    ensures |r| == |rows|
    ensures forall k :: 0 <= k < |rows| ==> r[k] == if rows[k].id == row.id then row else rows[k]
  {
    if rows == [] then []
    else [if rows[0].id == row.id then row else rows[0]] + ReplaceById(rows[1..], row)
  }

  /** `DELETE FROM clientes WHERE id = ?`: the other rows, in their order. */
  function RemoveById(rows: seq<Row>, id: string): (r: seq<Row>)
    ensures forall x :: x in r <==> x in rows && x.id != id
  {
    if rows == [] then []
    else if rows[0].id == id then RemoveById(rows[1..], id)
    else [rows[0]] + RemoveById(rows[1..], id)
  }

  /** A fresh id can be appended without breaking the key. */
  lemma InsertKeepsUnique(rows: seq<Row>, row: Row)
    requires UniqueIds(rows) && !HasId(rows, row.id)
    ensures UniqueIds(rows + [row])
  {
    var r := rows + [row];
    forall a, b | 0 <= a < b < |r|
      ensures r[a].id != r[b].id
    {
      if b == |rows| {
        assert rows[a].id != row.id;
      }
    }
  }

  /** Update keeps every id where it was, so it keeps the key; with no row
      of that id it changes nothing; otherwise the row of that id now holds
      the new values. */
  lemma ReplaceByIdProperties(rows: seq<Row>, row: Row)
    requires UniqueIds(rows)
    ensures UniqueIds(ReplaceById(rows, row))
    ensures forall k :: 0 <= k < |rows| ==> ReplaceById(rows, row)[k].id == rows[k].id
    ensures !HasId(rows, row.id) ==> ReplaceById(rows, row) == rows
    ensures HasId(rows, row.id) ==> row in ReplaceById(rows, row)
  {
    var r := ReplaceById(rows, row);
    forall k | 0 <= k < |rows| ensures r[k].id == rows[k].id {
    }
    forall a, b | 0 <= a < b < |r| ensures r[a].id != r[b].id {
      assert r[a].id == rows[a].id && r[b].id == rows[b].id;
    }
    if HasId(rows, row.id) {
      var k :| 0 <= k < |rows| && rows[k].id == row.id;
      assert r[k] == row;
    } else {
      forall k | 0 <= k < |rows| ensures r[k] == rows[k] {
        assert rows[k].id != row.id;
      }
      assert r == rows;
    }
  }

  lemma UniqueIdsTail(rows: seq<Row>)
    requires rows != [] && UniqueIds(rows)
    ensures UniqueIds(rows[1..]) && !HasId(rows[1..], rows[0].id)
  {
    var tail := rows[1..];
    forall a, b | 0 <= a < b < |tail| ensures tail[a].id != tail[b].id {
      assert tail[a] == rows[a + 1] && tail[b] == rows[b + 1];
    }
  }

  lemma HasIdCons(rows: seq<Row>, id: string)
    requires rows != []
    ensures HasId(rows, id) <==> rows[0].id == id || HasId(rows[1..], id)
  {
    if HasId(rows, id) {
      var k :| 0 <= k < |rows| && rows[k].id == id;
      if k > 0 {
        assert rows[1..][k - 1].id == id;
      }
    }
    if HasId(rows[1..], id) {
      var k :| 0 <= k < |rows[1..]| && rows[1..][k].id == id;
      assert rows[k + 1].id == id;
    }
  }

  /** Putting a row in front of rows with unique ids keeps them unique when
      its id is new. */
  lemma ConsKeepsUnique(row: Row, rest: seq<Row>)
    requires UniqueIds(rest) && !HasId(rest, row.id)
    ensures UniqueIds([row] + rest)
  {
    var r := [row] + rest;
    forall a, b | 0 <= a < b < |r| ensures r[a].id != r[b].id {
      assert r[b] == rest[b - 1];
      if a > 0 {
        assert r[a] == rest[a - 1];
      }
    }
  }

  lemma {:induction false} RemoveByIdUnique(rows: seq<Row>, id: string)
    requires UniqueIds(rows)
    ensures UniqueIds(RemoveById(rows, id))
  {
    if rows != [] {
      var tail := rows[1..];
      UniqueIdsTail(rows);
      RemoveByIdUnique(tail, id);
      if rows[0].id != id {
        var rest := RemoveById(tail, id);
        forall k | 0 <= k < |rest| ensures rest[k].id != rows[0].id {
          assert rest[k] in tail;
        }
        ConsKeepsUnique(rows[0], rest);
      }
    }
  }

  lemma {:induction false} RemoveByIdCount(rows: seq<Row>, id: string)
    requires UniqueIds(rows)
    ensures |RemoveById(rows, id)| == if HasId(rows, id) then |rows| - 1 else |rows|
    ensures !HasId(rows, id) ==> RemoveById(rows, id) == rows
  {
    if rows != [] {
      var tail := rows[1..];
      UniqueIdsTail(rows);
      HasIdCons(rows, id);
      RemoveByIdCount(tail, id);
      if rows[0].id != id {
        assert RemoveById(rows, id) == [rows[0]] + RemoveById(tail, id);
        assert [rows[0]] + tail == rows;
      }
    }
  }

  /** Delete keeps the key, and removes exactly one row when the id is
      present and none when it is absent. */
  lemma RemoveByIdProperties(rows: seq<Row>, id: string)
    requires UniqueIds(rows)
    ensures UniqueIds(RemoveById(rows, id))
    ensures !HasId(RemoveById(rows, id), id)
    ensures |RemoveById(rows, id)| == if HasId(rows, id) then |rows| - 1 else |rows|
    ensures !HasId(rows, id) ==> RemoveById(rows, id) == rows
  {
    RemoveByIdUnique(rows, id);
    RemoveByIdCount(rows, id);
  }

  // ---------------------------------------------------------------------------
  // The schema and its migration

  /** The schemas the program can leave in the file: no table yet, the table
      as `CREATE TABLE` makes it, and the table after the `telefono` column
      was added. */
  predicate WellFormedSchema(columns: seq<string>) {
    columns == [] || columns == BaseColumns || columns == BaseColumns + [TelefonoColumn]
  }

  /** The table exists and has every column the insert, update and listing
      name. */
  predicate Migrated(columns: seq<string>) {
    columns != [] && TelefonoColumn in columns
  }

  /** `CREATE TABLE IF NOT EXISTS`, then `ADD COLUMN telefono` when the
      column is missing. */
  function MigrateColumns(columns: seq<string>): seq<string> {
    var created := if columns == [] then BaseColumns else columns;
    if TelefonoColumn in created then created else created + [TelefonoColumn]
  }

  /** Rows present when the column is added get its default. */
  function MigrateRows(columns: seq<string>, rows: seq<Row>): seq<Row> {
    if columns != [] && TelefonoColumn !in columns then
      seq(|rows|, k requires 0 <= k < |rows| => rows[k].(telefono := TelefonoDefault))
    else rows
  }

  /** The migration leaves the full schema, only appends columns, keeps every
      row's other fields, and a second run changes nothing. */
  lemma MigrationProperties(columns: seq<string>, rows: seq<Row>)
    requires WellFormedSchema(columns)
    ensures MigrateColumns(columns) == BaseColumns + [TelefonoColumn]
    ensures Migrated(MigrateColumns(columns))
    ensures columns <= MigrateColumns(columns)
    ensures |MigrateRows(columns, rows)| == |rows|
    ensures forall k :: 0 <= k < |rows| ==> MigrateRows(columns, rows)[k].(telefono := "") == rows[k].(telefono := "")
    ensures MigrateColumns(MigrateColumns(columns)) == MigrateColumns(columns)
    ensures MigrateRows(MigrateColumns(columns), MigrateRows(columns, rows)) == MigrateRows(columns, rows)
  {
    assert TelefonoColumn !in BaseColumns;
    assert (BaseColumns + [TelefonoColumn])[5] == TelefonoColumn;
  }

  // ---------------------------------------------------------------------------
  // Reading and exporting

  /** The value of a row in the named column. */
  function Cell(r: Row, column: string): string {
    match column
    case "id" => r.id
    case "nombre" => r.nombre
    case "email" => r.email
    case "telefono" => r.telefono
    case "tipo" => r.tipo
    case "extra" => r.extra
    case _ => ""
  }

  function AsTuple(r: Row): Tuple6 {
    (r.id, r.nombre, r.email, r.telefono, r.tipo, r.extra)
  }

  /** `dict(row)` for a row read with `SELECT *`: column name to value. */
  function RowDict(columns: seq<string>, r: Row): (d: map<string, string>)
    ensures d.Keys == set c | c in columns
  {
    map c | c in columns :: Cell(r, c)
  }

  /** Every column of the table is a key of the exported record, holding the
      row's value in that column. */
  lemma RowDictCells(columns: seq<string>, r: Row)
    ensures forall n :: 0 <= n < |columns| ==>
              columns[n] in RowDict(columns, r) && RowDict(columns, r)[columns[n]] == Cell(r, columns[n])
  {
  }

  /** What the backup files hold: the JSON array of row objects, and the CSV
      header with one line of values per row. */
  datatype Backup = Backup(json: seq<map<string, string>>, csvHeader: seq<string>, csvRows: seq<seq<string>>)

  // ---------------------------------------------------------------------------
  // DatabaseManager

  class DatabaseManager {
    /** The table's columns in order; empty while the file has no table. */
    var columns: seq<string>
    /** The table's rows in insertion order. */
    var rows: seq<Row>

    ghost predicate Valid()
      reads this
    {
      && WellFormedSchema(columns)
      && (columns == [] ==> rows == [])
      && UniqueIds(rows)
    }

    /** Opens the file as found, with its table if it has one, and runs
        `crear_tabla`. */
    constructor (existingColumns: seq<string>, existingRows: seq<Row>, fault: bool)
      requires WellFormedSchema(existingColumns)
      requires existingColumns == [] ==> existingRows == []
      requires UniqueIds(existingRows)
      ensures Valid()
      ensures fault ==> columns == existingColumns && rows == existingRows
      ensures !fault ==> columns == MigrateColumns(existingColumns)
      ensures !fault ==> rows == MigrateRows(existingColumns, existingRows)
    {
      columns := existingColumns;
      rows := existingRows;
      new;
      CrearTabla(fault);
    }

    /** `crear_tabla`: creates the table if absent and adds `telefono` if
        missing; an engine error is logged and swallowed. */
    method CrearTabla(fault: bool)
      requires Valid()
      modifies this
      ensures Valid()
      ensures fault ==> columns == old(columns) && rows == old(rows)
      ensures !fault ==> columns == MigrateColumns(old(columns))
      ensures !fault ==> rows == MigrateRows(old(columns), old(rows))
    {
      if fault {
        return;
      }
      var r := MigrateRows(columns, rows);
      assert forall k :: 0 <= k < |rows| ==> r[k].id == rows[k].id;
      columns, rows := MigrateColumns(columns), r;
    }

    /** `eliminar_cliente_db`: True iff a row was deleted; an absent id or an
        engine error gives False. */
    method EliminarClienteDb(idCliente: string, fault: bool) returns (removed: bool)
      requires Valid()
      modifies this
      ensures Valid() && columns == old(columns)
      ensures fault || old(columns) == [] ==> !removed && rows == old(rows)
      ensures !fault && old(columns) != [] ==> removed == HasId(old(rows), idCliente)
      ensures !fault && old(columns) != [] ==> rows == RemoveById(old(rows), idCliente)
    {
      if fault || columns == [] {
        return false;
      }
      RemoveByIdProperties(rows, idCliente);
      var before := |rows|;
      rows := RemoveById(rows, idCliente);
      removed := |rows| < before;
    }

    /** `guardar_cliente`: appends the client's row; a taken id raises the
        duplicate `ValueError`, an engine error is re-raised, and in both
        cases the table is unchanged. */
    method GuardarCliente(cliente: Cliente, fault: bool) returns (o: Outcome<StoreError>)
      requires Valid()
      modifies this
      ensures Valid() && columns == old(columns)
      ensures fault || !Migrated(old(columns)) ==> o == Fail(StorageError) && rows == old(rows)
      ensures !fault && Migrated(old(columns)) && HasId(old(rows), cliente.idCliente) ==>
                o == Fail(DuplicateId(DuplicateMessage)) && rows == old(rows)
      ensures !fault && Migrated(old(columns)) && !HasId(old(rows), cliente.idCliente) ==>
                o == Pass && rows == old(rows) + [RowOf(cliente.Snapshot())]
    {
      var row := RowOf(cliente.Snapshot());
      if fault || !Migrated(columns) {
        return Fail(StorageError);
      }
      if HasId(rows, row.id) {
        return Fail(DuplicateId(DuplicateMessage));
      }
      InsertKeepsUnique(rows, row);
      rows := rows + [row];
      o := Pass;
    }

    /** `actualizar_cliente`: overwrites nombre, email, telefono, tipo and
        extra of the row with the client's id and returns True, also when no
        row has that id; an engine error is re-raised. */
    method ActualizarCliente(cliente: Cliente, fault: bool) returns (r: Result<bool, StoreError>)
      requires Valid()
      modifies this
      ensures Valid() && columns == old(columns)
      ensures fault || !Migrated(old(columns)) ==> r == Err(StorageError) && rows == old(rows)
      ensures !fault && Migrated(old(columns)) ==>
                r == Ok(true) && rows == ReplaceById(old(rows), RowOf(cliente.Snapshot()))
    {
      var row := RowOf(cliente.Snapshot());
      if fault || !Migrated(columns) {
        return Err(StorageError);
      }
      ReplaceByIdProperties(rows, row);
      rows := ReplaceById(rows, row);
      r := Ok(true);
    }

    /** `obtener_todos`: one tuple per row, in table order; an engine error
        (or a table without the listed columns) gives the empty list. */
    method ObtenerTodos(fault: bool) returns (t: seq<Tuple6>)
      ensures fault || !Migrated(columns) ==> t == []
      ensures !fault && Migrated(columns) ==> |t| == |rows|
      ensures !fault && Migrated(columns) ==>
                forall k :: 0 <= k < |rows| ==> t[k] == AsTuple(rows[k])
    {
      if fault || !Migrated(columns) {
        return [];
      }
      t := seq(|rows|, k requires 0 <= k < |rows| reads this => AsTuple(rows[k]));
    }

    /** `exportar_datos`: reads every row with `SELECT *`; with no rows nothing
        is written; otherwise the JSON array gets one object per row and the
        CSV, under the first row's keys as header, one line per row. Every
        error is logged and swallowed, and then nothing is written. */
    method ExportarDatos(fault: bool) returns (backup: Option<Backup>)
      ensures fault || columns == [] || rows == [] ==> backup == None
      ensures !fault && columns != [] && rows != [] ==> backup.Some?
      ensures backup.Some? ==>
                && |backup.value.json| == |rows| && |backup.value.csvRows| == |rows|
                && backup.value.csvHeader == columns
                && (forall c :: c in backup.value.csvHeader <==> c in backup.value.json[0])
                && (forall k :: 0 <= k < |rows| ==> backup.value.json[k] == RowDict(columns, rows[k]))
                && (forall k :: 0 <= k < |rows| ==>
                      |backup.value.csvRows[k]| == |backup.value.csvHeader|
                      && forall n :: 0 <= n < |backup.value.csvHeader| ==>
                           backup.value.csvRows[k][n] == Cell(rows[k], backup.value.csvHeader[n]))
    {
      if fault || columns == [] {
        return None;
      }
      var filas: seq<map<string, string>> := [];
      var i := 0;
      while i < |rows|
        invariant 0 <= i <= |rows|
        invariant |filas| == i
        invariant forall k :: 0 <= k < i ==> filas[k] == RowDict(columns, rows[k])
      {
        filas := filas + [RowDict(columns, rows[i])];
        i := i + 1;
      }
      if filas == [] {
        return None;
      }
      var keys := columns;
      var lines: seq<seq<string>> := [];
      i := 0;
      while i < |filas|
        invariant 0 <= i <= |filas|
        invariant |lines| == i
        invariant forall k :: 0 <= k < i ==>
                    |lines[k]| == |keys| && forall n :: 0 <= n < |keys| ==> lines[k][n] == Cell(rows[k], keys[n])
      {
        var fila := filas[i];
        assert fila == RowDict(columns, rows[i]);
        RowDictCells(columns, rows[i]);
        var line := seq(|keys|, n requires 0 <= n < |keys| => fila[keys[n]]);
        assert forall n :: 0 <= n < |keys| ==> line[n] == Cell(rows[i], keys[n]);
        lines := lines + [line];
        i := i + 1;
      }
      backup := Some(Backup(filas, keys, lines));
    }
  }

  /** The duplicate-id error says the id already exists. */
  lemma DuplicateMessageSaysExists()
    ensures Contains(DuplicateMessage, "ya existe")
  {
    assert DuplicateMessage == "El ID del cliente " + "ya existe" + " en el sistema.";
    ContainsMiddle("El ID del cliente ", "ya existe", " en el sistema.");
  }
}
