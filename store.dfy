/** The ledger the controllers read and write through `executeQuery`: five
    tables, and one method per handler that says which rows it appends,
    overwrites or deletes and what it answers. Each handler issues its
    statements one after another; nothing here is a database transaction. */
module Store {
  import opened Common
  import opened Cuentas
  import opened Transacciones
  import opened Cripto
  import opened Deudas
  import opened Consultas

  class Ledger {
    var cuentas: map<Id, Account>
    var transacciones: map<Id, Transaction>
    var criptos: map<Id, CryptoAsset>
    var transaccionesCripto: seq<CryptoTrade>
    var deudas: map<Id, Debt>
    /** The identifier oracle standing for `uuidv4`: no id at or above it is
        used in the tables it fills. */
    var nextId: Id

    ghost predicate Valid()
      reads this
    {
      && (forall k :: k in cuentas ==> k < nextId)
      && (forall k :: k in transacciones ==> k < nextId)
      && (forall k :: k in deudas ==> k < nextId)
    }

    /** A ledger with the given crypto assets (no handler here creates them)
        and every other table empty. */
    constructor (assets: map<Id, CryptoAsset>)
      ensures Valid()
      ensures cuentas == map[] && transacciones == map[] && deudas == map[]
      ensures criptos == assets && transaccionesCripto == []
    {
      cuentas, transacciones, criptos, transaccionesCripto, deudas := map[], map[], assets, [], map[];
      nextId := 0;
    }

    /** Draws a fresh identifier. */
    method FreshId() returns (id: Id)
      requires Valid()
      modifies this`nextId
      ensures Valid()
      ensures id == old(nextId) && nextId == old(nextId) + 1
      ensures id !in cuentas && id !in transacciones && id !in deudas
    {
      id := nextId;
      nextId := nextId + 1;
    }

    // ---------------------------------------------------------------------
    // src/controllers/CriptoController.ts

    /** `crearTransaccionCripto`: validate, look the asset up, compute the
        new holding, append one trade row and overwrite the asset's
        quantity, average and timestamp; answer the new holding. */
    method CrearTransaccionCripto(criptoId: Option<Id>, tipo: Option<string>, cantidad: Option<real>,
                                  precioUnitario: Option<real>, now: string)
      returns (r: Response<Position>)
      requires Valid()
      modifies this
      ensures Valid()
      ensures cuentas == old(cuentas) && transacciones == old(transacciones) && deudas == old(deudas)
      ensures nextId == old(nextId)
      ensures !r.Ok? ==> criptos == old(criptos) && transaccionesCripto == old(transaccionesCripto)
      ensures ValidateTrade(criptoId, tipo, cantidad, precioUnitario).None? ==> r == BadRequest
      ensures var req := ValidateTrade(criptoId, tipo, cantidad, precioUnitario);
              req.Some? && req.value.criptoId !in old(criptos) ==> r == NotFound
      ensures var req := ValidateTrade(criptoId, tipo, cantidad, precioUnitario);
              req.Some? && req.value.criptoId in old(criptos) ==>
                var t := req.value;
                var asset := old(criptos)[t.criptoId];
                var next := ApplyTrade(t.kind, Held(asset), t.cantidad, OrZero(t.precio));
                && (next.None? ==> r == BadRequest)
                && (next.Some? ==>
                      && r == Ok(next.value)
                      && transaccionesCripto == old(transaccionesCripto) +
                           [CryptoTrade(t.criptoId, t.kind, t.cantidad, RecordedPrice(t.kind, t.precio),
                                        TotalUsd(t.kind, t.cantidad, t.precio))]
                      && criptos == old(criptos)[t.criptoId := asset.(cantidad := Some(next.value.cantidad),
                                                                       precioPromedio := Some(next.value.precioPromedio),
                                                                       fechaActualizacion := now)])
    {
      ghost var req := ValidateTrade(criptoId, tipo, cantidad, precioUnitario);
      if criptoId.None? || !GivenText(tipo) || !GivenNumber(cantidad) || cantidad.value <= 0.0 {
        return BadRequest;
      }
      var kind := ParseTipo(tipo.value);
      if kind.None? {
        return BadRequest;
      }
      var id, k, qty := criptoId.value, kind.value, cantidad.value;
      var totalUsd := if k == Earn then 0.0 else qty * OrZero(precioUnitario);
      assert req == Some(TradeRequest(id, k, qty, precioUnitario));
      assert totalUsd == TotalUsd(k, qty, precioUnitario);

      if id !in criptos {
        return NotFound;
      }
      var cantidadActual := OrZero(criptos[id].cantidad);
      var precioPromedioActual := OrZero(criptos[id].precioPromedio);
      var nuevaCantidad := cantidadActual;
      var nuevoPrecioPromedio := precioPromedioActual;

      if k == Compra {
        var costoActual := cantidadActual * precioPromedioActual;
        var costoCompra := qty * OrZero(precioUnitario);
        nuevaCantidad := cantidadActual + qty;
        nuevoPrecioPromedio := BuyAverage(costoActual, costoCompra, nuevaCantidad);
      }
      if k == Venta {
        if qty > cantidadActual {
          return BadRequest;
        }
        nuevaCantidad := cantidadActual - qty;
      }
      if k == Earn {
        nuevaCantidad := cantidadActual + qty;
      }

      ghost var held := Held(criptos[id]);
      ghost var next := ApplyTrade(k, held, qty, OrZero(precioUnitario));
      assert next.value.cantidad == nuevaCantidad;
      assert next.value.precioPromedio == nuevoPrecioPromedio;
      assert next == Some(Position(nuevaCantidad, nuevoPrecioPromedio));
      transaccionesCripto := transaccionesCripto +
        [CryptoTrade(id, k, qty, if k == Earn then Some(0.0) else precioUnitario, totalUsd)];
      assert transaccionesCripto == old(transaccionesCripto) +
        [CryptoTrade(id, k, qty, RecordedPrice(k, precioUnitario), TotalUsd(k, qty, precioUnitario))];
      criptos := criptos[id := criptos[id].(cantidad := Some(nuevaCantidad),
                                            precioPromedio := Some(nuevoPrecioPromedio),
                                            fechaActualizacion := now)];
      r := Ok(Position(nuevaCantidad, nuevoPrecioPromedio));
    }

    // ---------------------------------------------------------------------
    // src/controllers/deudasController.ts

    /** `crearDeuda`: validate, then insert one open debt under a fresh id
        and answer that id. */
    method CrearDeuda(monto: Option<real>, descripcion: Option<string>) returns (r: Response<Id>)
      requires Valid()
      modifies this
      ensures Valid()
      ensures cuentas == old(cuentas) && transacciones == old(transacciones)
      ensures criptos == old(criptos) && transaccionesCripto == old(transaccionesCripto)
      ensures r.Ok? || r.BadRequest?
      ensures r.BadRequest? <==> !ValidDebtRequest(monto, descripcion)
      ensures r.BadRequest? ==> deudas == old(deudas) && nextId == old(nextId)
      ensures r.Ok? ==>
                && r.value == old(nextId) && r.value !in old(deudas)
                && deudas == old(deudas)[r.value := Debt(monto.value, descripcion.value, Pendiente)]
                && nextId == old(nextId) + 1
    {
      if !GivenNumber(monto) || monto.value <= 0.0 || !GivenText(descripcion) {
        return BadRequest;
      }
      var id := FreshId();
      deudas := deudas[id := Debt(monto.value, descripcion.value, Pendiente)];
      r := Ok(id);
    }

    /** `pagarDeuda`: the checks run in a fixed order (ids present, debt
        known, debt still open, account known, balance covers the debt);
        then one expense row for the full amount, the account debited by
        that amount and the debt marked paid at `now`. */
    method PagarDeuda(deudaId: Option<Id>, cuentaId: Option<Id>, now: string) returns (r: Response<()>)
      requires Valid()
      modifies this
      ensures Valid()
      ensures criptos == old(criptos) && transaccionesCripto == old(transaccionesCripto)
      ensures deudaId.None? || cuentaId.None? ==> r == BadRequest
      ensures deudaId.Some? && cuentaId.Some? ==>
                var d, c := deudaId.value, cuentaId.value;
                r == if d !in old(deudas) then NotFound
                     else if old(deudas)[d].estado.Pagado? then BadRequest
                     else if c !in old(cuentas) then NotFound
                     else if old(cuentas)[c].saldo < old(deudas)[d].monto then BadRequest
                     else Ok(())
      ensures !r.Ok? ==>
                && cuentas == old(cuentas) && transacciones == old(transacciones)
                && deudas == old(deudas) && nextId == old(nextId)
      ensures r.Ok? ==>
                var d, c := deudaId.value, cuentaId.value;
                var debt := old(deudas)[d];
                && transacciones == old(transacciones)[old(nextId) :=
                     Transaction(debt.monto, PaymentDescription(debt), Gastos, None, c, None)]
                && old(nextId) !in old(transacciones) && nextId == old(nextId) + 1
                && cuentas == old(cuentas)[c := old(cuentas)[c].(saldo := old(cuentas)[c].saldo - debt.monto)]
                && debt.monto <= old(cuentas)[c].saldo && cuentas[c].saldo >= 0.0
                && deudas == old(deudas)[d := debt.(estado := Pagado(now))]
      ensures r.Ok? ==>
                var before := BalanceIngresosYGastos(old(cuentas), old(transacciones));
                var after := BalanceIngresosYGastos(cuentas, transacciones);
                var monto := old(deudas)[deudaId.value].monto;
                && after.balanceTotal == before.balanceTotal - monto
                && after.totalGastos == before.totalGastos + monto
                && after.totalIngresos == before.totalIngresos
    {
      if deudaId.None? || cuentaId.None? {
        return BadRequest;
      }
      var d, c := deudaId.value, cuentaId.value;
      if d !in deudas {
        return NotFound;
      }
      var deuda := deudas[d];
      if deuda.estado.Pagado? {
        return BadRequest;
      }
      if c !in cuentas {
        return NotFound;
      }
      var saldoCuenta := cuentas[c].saldo;
      if saldoCuenta < deuda.monto {
        return BadRequest;
      }

      var transaccionId := FreshId();
      DebtPaymentEffect(cuentas, transacciones, c, transaccionId, deuda.monto, PaymentDescription(deuda));
      transacciones := transacciones[transaccionId :=
        Transaction(deuda.monto, PaymentDescription(deuda), Gastos, None, c, None)];
      cuentas := cuentas[c := cuentas[c].(saldo := cuentas[c].saldo - deuda.monto)];
      deudas := deudas[d := deuda.(estado := Pagado(now))];
      r := Ok(());
    }

    // ---------------------------------------------------------------------
    // src/controllers/transaccionController.ts

    /** `getTransaccionPorId`: the row with that id, or 404. */
    method GetTransaccionPorId(id: Id) returns (r: Response<Transaction>)
      ensures r.Ok? || r.NotFound?
      ensures r.NotFound? <==> id !in transacciones
      ensures r.Ok? ==> id in transacciones && r.value == transacciones[id]
    {
      if id in transacciones {
        r := Ok(transacciones[id]);
      } else {
        r := NotFound;
      }
    }

    /** `crearTransaccion`: validate, upload the receipt if a file was sent,
        then insert one row under a fresh id. No account balance changes. */
    method CrearTransaccion(monto: Option<real>, descripcion: Option<string>, tipo: Option<string>,
                            fecha: Option<string>, cuentaId: Option<Id>, archivo: Option<Upload>)
      returns (r: Response<()>)
      requires Valid()
      modifies this
      ensures Valid()
      ensures cuentas == old(cuentas) && deudas == old(deudas)
      ensures criptos == old(criptos) && transaccionesCripto == old(transaccionesCripto)
      ensures r.BadRequest? <==> !ValidTransactionRequest(monto, descripcion, tipo, fecha, cuentaId)
      ensures r.Internal? <==>
                ValidTransactionRequest(monto, descripcion, tipo, fecha, cuentaId) && archivo == Some(UploadFailed)
      ensures r.Ok? || r.BadRequest? || r.Internal?
      ensures !r.Ok? ==> transacciones == old(transacciones) && nextId == old(nextId)
      ensures r.Ok? ==>
                && old(nextId) !in old(transacciones) && nextId == old(nextId) + 1
                && transacciones == old(transacciones)[old(nextId) :=
                     Transaction(monto.value, descripcion.value, tipo.value, Some(fecha.value), cuentaId.value,
                                 Some(Receipt(archivo)))]
      ensures r.Ok? ==>
                var t := transacciones[old(nextId)];
                var before := BalanceIngresosYGastos(old(cuentas), old(transacciones));
                var after := BalanceIngresosYGastos(cuentas, transacciones);
                && after.balanceTotal == before.balanceTotal
                && after.totalIngresos == before.totalIngresos + Income(t)
                && after.totalGastos == before.totalGastos + Expense(t)
    {
      if !GivenNumber(monto) || !GivenText(descripcion) || !GivenText(tipo) || !GivenText(fecha)
         || cuentaId.None? {
        return BadRequest;
      }
      var imageUrl := "";
      if archivo.Some? {
        match archivo.value
        case UploadFailed =>
          return Internal;
        case Uploaded(url) =>
          imageUrl := url;
      }
      var id := FreshId();
      var t := Transaction(monto.value, descripcion.value, tipo.value, Some(fecha.value), cuentaId.value,
                           Some(imageUrl));
      InsertTransactionEffect(cuentas, transacciones, id, t);
      transacciones := transacciones[id := t];
      r := Ok(());
    }

    /** `transferirFondos`: validate, refuse equal accounts, then insert an
        expense on the source and an income on the destination under two
        fresh ids. Account balances are not touched. */
    method TransferirFondos(monto: Option<real>, descripcion: Option<string>, origen: Option<Id>,
                            destino: Option<Id>, fecha: Option<string>)
      returns (r: Response<()>)
      requires Valid()
      modifies this
      ensures Valid()
      ensures cuentas == old(cuentas) && deudas == old(deudas)
      ensures criptos == old(criptos) && transaccionesCripto == old(transaccionesCripto)
      ensures r.Ok? || r.BadRequest?
      ensures r.BadRequest? <==>
                !ValidTransferRequest(monto, descripcion, origen, destino, fecha) || origen.value == destino.value
      ensures r.BadRequest? ==> transacciones == old(transacciones) && nextId == old(nextId)
      ensures r.Ok? ==>
                var rows := TransferRows(monto.value, descripcion.value, origen.value, destino.value, fecha.value);
                && old(nextId) !in old(transacciones) && old(nextId) + 1 !in old(transacciones)
                && nextId == old(nextId) + 2
                && transacciones == old(transacciones)[old(nextId) := rows.0][old(nextId) + 1 := rows.1]
      ensures r.Ok? ==>
                var before := BalanceIngresosYGastos(old(cuentas), old(transacciones));
                var after := BalanceIngresosYGastos(cuentas, transacciones);
                && after.balanceTotal == before.balanceTotal
                && after.totalIngresos == before.totalIngresos + monto.value
                && after.totalGastos == before.totalGastos + monto.value
    {
      if !GivenNumber(monto) || !GivenText(descripcion) || origen.None? || destino.None? || !GivenText(fecha) {
        return BadRequest;
      }
      if origen.value == destino.value {
        return BadRequest;
      }
      var rows := TransferRows(monto.value, descripcion.value, origen.value, destino.value, fecha.value);
      var idGasto := FreshId();
      transacciones := transacciones[idGasto := rows.0];
      var idIngreso := FreshId();
      transacciones := transacciones[idIngreso := rows.1];
      TransferEffect(cuentas, old(transacciones), idGasto, idIngreso, monto.value, descripcion.value,
                     origen.value, destino.value, fecha.value);
      r := Ok(());
    }

    /** `actualizarTransaccion`: overwrite monto, descripcion, tipo and fecha
        of the row with that id, and recibo only when one is supplied. An
        unknown id changes nothing; the answer is 200 either way. */
    method ActualizarTransaccion(id: Id, monto: real, descripcion: string, tipo: string, fecha: string,
                                 recibo: Option<string>)
      returns (r: Response<()>)
      requires Valid()
      modifies this
      ensures Valid()
      ensures r == Ok(())
      ensures cuentas == old(cuentas) && deudas == old(deudas) && nextId == old(nextId)
      ensures criptos == old(criptos) && transaccionesCripto == old(transaccionesCripto)
      ensures id !in old(transacciones) ==> transacciones == old(transacciones)
      ensures id in old(transacciones) ==>
                transacciones == old(transacciones)[id :=
                  UpdatedTransaction(old(transacciones)[id], monto, descripcion, tipo, fecha, recibo)]
      ensures id in old(transacciones) ==>
                var before := BalanceIngresosYGastos(old(cuentas), old(transacciones));
                var after := BalanceIngresosYGastos(cuentas, transacciones);
                && after.balanceTotal == before.balanceTotal
                && after.totalIngresos == before.totalIngresos - Income(old(transacciones)[id]) + Income(transacciones[id])
                && after.totalGastos == before.totalGastos - Expense(old(transacciones)[id]) + Expense(transacciones[id])
    {
      if id in transacciones {
        var t := UpdatedTransaction(transacciones[id], monto, descripcion, tipo, fecha, recibo);
        ReplaceTransactionEffect(cuentas, transacciones, id, t);
        transacciones := transacciones[id := t];
      }
      r := Ok(());
    }

    /** `eliminarTransaccion`: delete the row with that id, if any; the
        answer is 200 either way. */
    method EliminarTransaccion(id: Id) returns (r: Response<()>)
      requires Valid()
      modifies this
      ensures Valid()
      ensures r == Ok(())
      ensures transacciones == old(transacciones) - {id}
      ensures cuentas == old(cuentas) && deudas == old(deudas) && nextId == old(nextId)
      ensures criptos == old(criptos) && transaccionesCripto == old(transaccionesCripto)
      ensures var before := BalanceIngresosYGastos(old(cuentas), old(transacciones));
              var after := BalanceIngresosYGastos(cuentas, transacciones);
              && after.balanceTotal == before.balanceTotal
              && (id in old(transacciones) ==>
                    && after.totalIngresos == before.totalIngresos - Income(old(transacciones)[id])
                    && after.totalGastos == before.totalGastos - Expense(old(transacciones)[id]))
              && (id !in old(transacciones) ==> after == before)
    {
      DeleteTransactionEffect(cuentas, transacciones, id);
      transacciones := transacciones - {id};
      r := Ok(());
    }

    // ---------------------------------------------------------------------
    // src/controllers/cuentaController.ts

    /** `getCuentaPorId`: the account with that id, or 404. */
    method GetCuentaPorId(id: Id) returns (r: Response<Account>)
      ensures r.Ok? || r.NotFound?
      ensures r.NotFound? <==> id !in cuentas
      ensures r.Ok? ==> id in cuentas && r.value == cuentas[id]
    {
      if id in cuentas {
        r := Ok(cuentas[id]);
      } else {
        r := NotFound;
      }
    }

    /** `crearCuenta`: validate the fields, demand a file, upload it, then
        insert one account under a fresh id with the upload's URL as its
        image. */
    method CrearCuenta(nombre: Option<string>, saldo: Option<real>, numeroCuenta: Option<string>,
                       archivo: Option<Upload>)
      returns (r: Response<()>)
      requires Valid()
      modifies this
      ensures Valid()
      ensures transacciones == old(transacciones) && deudas == old(deudas)
      ensures criptos == old(criptos) && transaccionesCripto == old(transaccionesCripto)
      ensures r.Ok? || r.BadRequest? || r.Internal?
      ensures r.BadRequest? <==> !ValidAccountRequest(nombre, saldo, numeroCuenta) || archivo.None?
      ensures r.Internal? <==> ValidAccountRequest(nombre, saldo, numeroCuenta) && archivo == Some(UploadFailed)
      ensures !r.Ok? ==> cuentas == old(cuentas) && nextId == old(nextId)
      ensures r.Ok? ==>
                && old(nextId) !in old(cuentas) && nextId == old(nextId) + 1
                && cuentas == old(cuentas)[old(nextId) :=
                     Account(nombre.value, saldo.value, numeroCuenta.value, archivo.value.url)]
      ensures r.Ok? ==>
                BalanceIngresosYGastos(cuentas, transacciones).balanceTotal ==
                BalanceIngresosYGastos(old(cuentas), old(transacciones)).balanceTotal + saldo.value
    {
      if !GivenText(nombre) || !GivenNumber(saldo) || !GivenText(numeroCuenta) {
        return BadRequest;
      }
      if archivo.None? {
        return BadRequest;
      }
      if archivo.value.UploadFailed? {
        return Internal;
      }
      var imageUrl := archivo.value.url;
      var id := FreshId();
      var a := Account(nombre.value, saldo.value, numeroCuenta.value, imageUrl);
      InsertAccountEffect(cuentas, transacciones, id, a);
      cuentas := cuentas[id := a];
      r := Ok(());
    }

    /** `actualizarCuenta`: overwrite nombre, saldo and numero_cuenta of the
        account with that id, and imagen only when one is supplied. An
        unknown id changes nothing; the answer is 200 either way. */
    method ActualizarCuenta(id: Id, nombre: string, saldo: real, numeroCuenta: string, imagen: Option<string>)
      returns (r: Response<()>)
      requires Valid()
      modifies this
      ensures Valid()
      ensures r == Ok(())
      ensures transacciones == old(transacciones) && deudas == old(deudas) && nextId == old(nextId)
      ensures criptos == old(criptos) && transaccionesCripto == old(transaccionesCripto)
      ensures id !in old(cuentas) ==> cuentas == old(cuentas)
      ensures id in old(cuentas) ==>
                cuentas == old(cuentas)[id := UpdatedAccount(old(cuentas)[id], nombre, saldo, numeroCuenta, imagen)]
      ensures id in old(cuentas) ==>
                BalanceIngresosYGastos(cuentas, transacciones).balanceTotal ==
                BalanceIngresosYGastos(old(cuentas), old(transacciones)).balanceTotal - old(cuentas)[id].saldo + saldo
    {
      if id in cuentas {
        var a := UpdatedAccount(cuentas[id], nombre, saldo, numeroCuenta, imagen);
        ReplaceAccountEffect(cuentas, transacciones, id, a);
        cuentas := cuentas[id := a];
      }
      r := Ok(());
    }

    /** `eliminarCuenta`: delete the account with that id, if any; the
        answer is 200 either way. Only the accounts table changes. */
    method EliminarCuenta(id: Id) returns (r: Response<()>)
      requires Valid()
      modifies this
      ensures Valid()
      ensures r == Ok(())
      ensures cuentas == old(cuentas) - {id}
      ensures transacciones == old(transacciones) && deudas == old(deudas) && nextId == old(nextId)
      ensures criptos == old(criptos) && transaccionesCripto == old(transaccionesCripto)
      ensures id in old(cuentas) ==>
                BalanceIngresosYGastos(cuentas, transacciones).balanceTotal ==
                BalanceIngresosYGastos(old(cuentas), old(transacciones)).balanceTotal - old(cuentas)[id].saldo
    {
      DeleteAccountEffect(cuentas, transacciones, id);
      cuentas := cuentas - {id};
      r := Ok(());
    }
  }

  /** A paid debt is terminal: after a successful `pagarDeuda`, paying the
      same debt again, from any account, is answered 400 and writes
      nothing: the ledger ends as the first payment left it. */
  method PayTwice(l: Ledger, deudaId: Id, cuentaId: Id, otraCuenta: Option<Id>, now: string, later: string)
    returns (first: Response<()>, second: Response<()>)
    requires l.Valid()
    modifies l
    ensures l.Valid()
    ensures first.Ok? ==> second == BadRequest
    ensures first.Ok? ==> deudaId in l.deudas && l.deudas[deudaId].estado == Pagado(now)
    ensures l.criptos == old(l.criptos) && l.transaccionesCripto == old(l.transaccionesCripto)
    ensures first.Ok? ==> deudaId in old(l.deudas) && cuentaId in old(l.cuentas)
    ensures first.Ok? ==>
              var debt := old(l.deudas)[deudaId];
              var c := old(l.cuentas)[cuentaId];
              && l.nextId == old(l.nextId) + 1
              && l.transacciones == old(l.transacciones)[old(l.nextId) :=
                   Transaction(debt.monto, PaymentDescription(debt), Gastos, None, cuentaId, None)]
              && l.cuentas == old(l.cuentas)[cuentaId := c.(saldo := c.saldo - debt.monto)]
              && l.deudas == old(l.deudas)[deudaId := debt.(estado := Pagado(now))]
  {
    first := l.PagarDeuda(Some(deudaId), Some(cuentaId), now);
    ghost var paid := l.deudas;
    assert first.Ok? ==> deudaId in paid && paid[deudaId].estado == Pagado(now);
    second := l.PagarDeuda(Some(deudaId), otraCuenta, later);
  }
}
