/** The scenarios of tests.py, run against the contracts of the model: what a
    caller can conclude from the specifications alone. */
module Scenarios {
  import opened Results
  import opened Models
  import opened Store

  /** test_validaciones_avanzadas: an email without `@` and a three-digit
      phone are both refused; seven digits are enough. */
  lemma RejectedValues()
    ensures !EmailPattern("email_incorrecto")
    ensures !PhoneAccepted("123")
    ensures PhoneAccepted("1234567")
  {
    var s := "email_incorrecto";
    assert '@' !in s;
    EmailWithoutAtOrDotRejected(s);
  }

  /** The valid email the tests use. */
  lemma TesterEmailAccepted()
    ensures EmailPattern("tester@solutiontech.com")
  {
    assert "tester@solutiontech.com" == "tester" + "@" + "solutiontech" + "." + "com";
    EmailFromParts("tester", "solutiontech", "com");
  }

  /** A fresh file, after `crear_tabla`, holds an empty migrated table. */
  method FreshStore() returns (db: DatabaseManager)
    ensures fresh(db) && db.Valid() && Migrated(db.columns) && db.rows == []
  {
    db := new DatabaseManager([], [], false);
    MigrationProperties([], []);
  }

  /** test_persistencia_y_duplicados: the second save of an id is refused with
      the duplicate error and leaves the first row as it was. */
  method SaveTwice()
  {
    TesterEmailAccepted();
    assert PhoneAccepted("12345678");
    var db := FreshStore();
    var r1 := Cliente.Create("ID_UNICO", "Juan Perez", "tester@solutiontech.com", "12345678", Regular);
    var c1 := r1.value;
    var o1 := db.GuardarCliente(c1, false);
    assert db.rows == [RowOf(c1.Snapshot())];
    var r2 := Cliente.Create("ID_UNICO", "Otro Nombre", "tester@solutiontech.com", "12345678", Regular);
    assert HasId(db.rows, r2.value.idCliente) by {
      assert db.rows[0].id == "ID_UNICO";
    }
    var o2 := db.GuardarCliente(r2.value, false);
    assert o2 == Fail(DuplicateId(DuplicateMessage));
    assert db.rows == [RowOf(c1.Snapshot())];
  }

  /** test_actualizacion_cliente: after an update with a new name, the listing
      shows that name under the same id. */
  method SaveThenUpdate()
  {
    TesterEmailAccepted();
    assert PhoneAccepted("12345678") && PhoneAccepted("99999999");
    var db := FreshStore();
    var r1 := Cliente.Create("ACT-01", "Original", "tester@solutiontech.com", "12345678", Regular);
    var o1 := db.GuardarCliente(r1.value, false);
    var r2 := Cliente.Create("ACT-01", "Editado", "tester@solutiontech.com", "99999999", Regular);
    var u := db.ActualizarCliente(r2.value, false);
    assert u == Ok(true);
    var todos := db.ObtenerTodos(false);
    assert |todos| == 1 && todos[0].0 == "ACT-01" && todos[0].1 == "Editado";
  }

  /** Deleting an id that was never saved reports False; deleting a saved id
      reports True and the listing no longer shows it. */
  method SaveThenDelete()
  {
    TesterEmailAccepted();
    assert PhoneAccepted("12345678");
    var db := FreshStore();
    var gone := db.EliminarClienteDb("P01", false);
    assert !gone;
    var r := Cliente.Create("P01", "Ana", "tester@solutiontech.com", "12345678", Premium(25));
    var o := db.GuardarCliente(r.value, false);
    assert db.rows[0].id == "P01";
    gone := db.EliminarClienteDb("P01", false);
    assert gone;
    var todos := db.ObtenerTodos(false);
    assert todos == [];
  }
}
