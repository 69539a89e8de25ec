/** The two collections the handlers share: the user accounts (`usuarios`) and
    the append-only log of movements (`transacciones_moneda`), with the document
    operations the handlers use on them (`find_one`, `update_one` with `$inc` or
    `$set`, `insert_one`). */
module Db {
  import opened Base

  /** The value an `_id` query compares with: an ObjectId built from a hex string,
      or a plain string. An ObjectId and a string never match each other. */
  datatype DocId = ObjectId(hex: string) | Str(s: string)

  /** A user account document. A balance field that is absent reads as 0, as
      every `$inc` and `.get(..., 0)` in the handlers treats it. */
  datatype Usuario = Usuario(
    rol: Option<string>,                 // "rol"
    saldo: int,                          // "saldo"
    monedaSaldo: int,                    // "moneda_virtual.saldo"
    ultimaActualizacion: Option<int>,    // "moneda_virtual.ultima_actualizacion"
    saldoCreditos: int,                  // "saldo_creditos"
    nombres: Field<Option<string>>,      // "nombres": Missing when the key is absent, Given(None) when null
    apellidos: Field<Option<string>>)    // "apellidos", likewise

  /** A document of the movement log. A key that an insert leaves out reads as `None`. */
  datatype Registro = Registro(
    idServicio: Option<string>,
    idEmisor: Option<string>,
    idReceptor: Option<string>,
    monto: int,
    fecha: int,
    tipo: string,
    estado: Option<string>,
    justificacion: Option<string>)

  type Usuarios = map<DocId, Usuario>

  /** The three balance fields an account carries. */
  datatype Campo = Saldo | MonedaSaldo | SaldoCreditos

  function Balance(u: Usuario, c: Campo): int
  {
    match c
    case Saldo => u.saldo
    case MonedaSaldo => u.monedaSaldo
    case SaldoCreditos => u.saldoCreditos
  }

  /** The sum of balance field c over every account. */
  ghost function Total(us: Usuarios, c: Campo): int
    decreases |us|
  {
    if us == map[] then 0
    else
      var k :| k in us;
      assert |us - {k}| < |us| by { assert (us - {k}).Keys == us.Keys - {k}; }
      Balance(us[k], c) + Total(us - {k}, c)
  }

  /** No account holds a negative amount in balance field c. */
  ghost predicate NoNegativos(us: Usuarios, c: Campo)
  {
    forall k :: k in us ==> Balance(us[k], c) >= 0
  }

  /** Any account can be taken out of the sum first. */
  lemma {:induction false} TotalSin(us: Usuarios, k: DocId, c: Campo)
    requires k in us
    ensures Total(us, c) == Balance(us[k], c) + Total(us - {k}, c)
    decreases |us|
  {
    var j :| j in us && Total(us, c) == Balance(us[j], c) + Total(us - {j}, c);
    if j != k {
      var rest := us - {j};
      assert |rest| < |us| by { assert rest.Keys == us.Keys - {j}; }
      TotalSin(rest, k, c);
      var other := us - {k};
      assert |other| < |us| by { assert other.Keys == us.Keys - {k}; }
      TotalSin(other, j, c);
      assert rest - {k} == other - {j};
    }
  }

  /** Replacing one account changes the sum by the change in that account's field. */
  lemma TotalActualizar(us: Usuarios, k: DocId, u: Usuario, c: Campo)
    requires k in us
    ensures Total(us[k := u], c) == Total(us, c) - Balance(us[k], c) + Balance(u, c)
  {
    TotalSin(us, k, c);
    TotalSin(us[k := u], k, c);
    assert us[k := u] - {k} == us - {k};
  }

  /** `update_one({"_id": k}, {"$inc": {"saldo": delta}})`. There is no upsert:
      a k that matches no account changes nothing. */
  function IncSaldo(us: Usuarios, k: DocId, delta: int): Usuarios
  {
    if k in us then us[k := us[k].(saldo := us[k].saldo + delta)] else us
  }

  /** `update_one` with `$set` of `moneda_virtual.saldo` and `moneda_virtual.ultima_actualizacion`. */
  function SetMoneda(us: Usuarios, k: DocId, saldo: int, now: int): Usuarios
  {
    if k in us then us[k := us[k].(monedaSaldo := saldo, ultimaActualizacion := Some(now))] else us
  }

  /** `update_one` with `$set` of `saldo_creditos` and `moneda_virtual.ultima_actualizacion`. */
  function SetCreditos(us: Usuarios, k: DocId, saldoCreditos: int, now: int): Usuarios
  {
    if k in us then us[k := us[k].(saldoCreditos := saldoCreditos, ultimaActualizacion := Some(now))] else us
  }

  /** `$inc` changes the sum of `saldo` by delta when k matches an account, and
      no other balance field. */
  lemma TotalIncSaldo(us: Usuarios, k: DocId, delta: int)
    ensures Total(IncSaldo(us, k, delta), Saldo) == Total(us, Saldo) + (if k in us then delta else 0)
  {
    if k in us {
      TotalActualizar(us, k, us[k].(saldo := us[k].saldo + delta), Saldo);
    }
  }

  /** The two collections. Both handlers' modules update them in place. */
  class Database {
    var usuarios: Usuarios
    var transacciones: seq<Registro>

    constructor (usuarios: Usuarios, transacciones: seq<Registro>)
      ensures this.usuarios == usuarios && this.transacciones == transacciones
    {
      this.usuarios := usuarios;
      this.transacciones := transacciones;
    }

    /** `insert_one`: appends the document; its `_id` is its position in the log. */
    method InsertOne(r: Registro) returns (id: nat)
      modifies this
      ensures transacciones == old(transacciones) + [r]
      ensures id == |old(transacciones)| && transacciones[id] == r
      ensures usuarios == old(usuarios)
    {
      id := |transacciones|;
      transacciones := transacciones + [r];
    }

    /** `update_one` with `$inc` on `saldo`. */
    method UpdateIncSaldo(k: DocId, delta: int)
      modifies this
      ensures usuarios == IncSaldo(old(usuarios), k, delta)
      ensures usuarios.Keys == old(usuarios).Keys
      ensures transacciones == old(transacciones)
    {
      usuarios := IncSaldo(usuarios, k, delta);
    }

    /** `update_one` with `$set` on `moneda_virtual`. */
    method UpdateSetMoneda(k: DocId, saldo: int, now: int)
      modifies this
      ensures usuarios == SetMoneda(old(usuarios), k, saldo, now)
      ensures usuarios.Keys == old(usuarios).Keys
      ensures transacciones == old(transacciones)
    {
      usuarios := SetMoneda(usuarios, k, saldo, now);
    }

    /** `update_one` with `$set` on `saldo_creditos`. */
    method UpdateSetCreditos(k: DocId, saldoCreditos: int, now: int)
      modifies this
      ensures usuarios == SetCreditos(old(usuarios), k, saldoCreditos, now)
      ensures usuarios.Keys == old(usuarios).Keys
      ensures transacciones == old(transacciones)
    {
      usuarios := SetCreditos(usuarios, k, saldoCreditos, now);
    }
  }
}
