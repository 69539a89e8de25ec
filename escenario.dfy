/** A client of the handlers: what a caller can conclude from their contracts alone. */
module Escenario {
  import opened Base
  import opened Db
  import opened Transacciones

  /** A holds 100 and B holds 0. A sends 30 to B, then tries to send 100 more. */
  method TransferenciaYConsulta()
  {
    var a, b := Str("A"), Str("B");
    var vacio := Usuario(None, 0, 0, None, 0, Missing, Missing);
    var db := new Database(map[a := vacio.(saldo := 100), b := vacio], []);

    var r := EjecutarTransaccion(db, Some("A"), "B", 30, "transferencia", None, None, 1);
    assert r == Ok(0);
    assert db.usuarios[a].saldo == 70 && db.usuarios[b].saldo == 30;
    assert db.transacciones == [Registro(None, Some("A"), Some("B"), 30, 1, "transferencia", None, None)];

    var saldo := ObtenerSaldo(db.usuarios, "A");
    assert saldo == Ok(70);

    var h := HistorialTransacciones(db, "B");
    assert Entrada(0, db.transacciones[0]) in h;

    r := EjecutarTransaccion(db, Some("A"), "B", 100, "transferencia", None, None, 2);
    assert r == Err(ValueError("Saldo insuficiente"));
    assert db.usuarios[a].saldo == 70 && |db.transacciones| == 1;
  }
}
