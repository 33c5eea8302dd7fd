/** Rows of the `transacciones` table (src/controllers/transaccionController.ts). */
module Transacciones {
  import opened Common

  /** A cash transaction. `tipo` is free text: the handlers write `ingresos`
      and `gastos`, but `crearTransaccion` stores whatever it is given.
      `fecha` and `recibo` are None when the insert leaves the column to the
      table's default. */
  datatype Transaction = Transaction(monto: real, descripcion: string, tipo: string,
                                     fecha: Option<string>, cuentaId: Id, recibo: Option<string>)

  const Ingresos: string := "ingresos"
  const Gastos: string := "gastos"

  /** The five fields `crearTransaccion` demands, each truthy. */
  predicate ValidTransactionRequest(monto: Option<real>, descripcion: Option<string>, tipo: Option<string>,
                                    fecha: Option<string>, cuentaId: Option<Id>)
  {
    GivenNumber(monto) && GivenText(descripcion) && GivenText(tipo) && GivenText(fecha) && cuentaId.Some?
  }

  /** The five fields `transferirFondos` demands, each truthy. The sign of
      the amount is not checked. */
  predicate ValidTransferRequest(monto: Option<real>, descripcion: Option<string>, origen: Option<Id>,
                                 destino: Option<Id>, fecha: Option<string>)
  {
    GivenNumber(monto) && GivenText(descripcion) && origen.Some? && destino.Some? && GivenText(fecha)
  }

  /** The receipt `crearTransaccion` stores: the uploaded URL when a file was
      sent, otherwise the empty string. */
  function Receipt(archivo: Option<Upload>): (r: string)
    requires archivo != Some(UploadFailed)
    ensures archivo.None? ==> r == ""
    ensures archivo.Some? ==> r == archivo.value.url
  {
    if archivo.Some? then archivo.value.url else ""
  }

  /** The two rows of a transfer: an expense on the source account and an
      income on the destination, with the same amount, description and date
      and no receipt. */
  function TransferRows(monto: real, descripcion: string, origen: Id, destino: Id, fecha: string)
    : (r: (Transaction, Transaction))
    ensures r.0.monto == r.1.monto == monto
    ensures r.0.descripcion == r.1.descripcion == descripcion
    ensures r.0.fecha == r.1.fecha == Some(fecha)
    ensures r.0.tipo == Gastos && r.0.cuentaId == origen
    ensures r.1.tipo == Ingresos && r.1.cuentaId == destino
    ensures r.0.recibo == r.1.recibo == None
  {
    (Transaction(monto, descripcion, Gastos, Some(fecha), origen, None),
     Transaction(monto, descripcion, Ingresos, Some(fecha), destino, None))
  }

  /** The row `actualizarTransaccion` writes over `prev`: monto, descripcion,
      tipo and fecha are always overwritten, recibo only when a truthy one is
      supplied; the account stays the same. */
  function UpdatedTransaction(prev: Transaction, monto: real, descripcion: string, tipo: string,
                              fecha: string, recibo: Option<string>): (r: Transaction)
    ensures r.monto == monto && r.descripcion == descripcion && r.tipo == tipo && r.fecha == Some(fecha)
    ensures r.cuentaId == prev.cuentaId
    ensures GivenText(recibo) ==> r.recibo == recibo
    ensures !GivenText(recibo) ==> r.recibo == prev.recibo
  {
    Transaction(monto, descripcion, tipo, Some(fecha), prev.cuentaId,
                if GivenText(recibo) then recibo else prev.recibo)
  }
}
