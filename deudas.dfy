/** Rows of the `deudas` table (src/controllers/deudasController.ts). */
module Deudas {
  import opened Common

  /** A debt is open until it is paid; paying records the payment date, and
      nothing in the code moves a paid debt back. */
  datatype DebtStatus = Pendiente | Pagado(fechaPago: string)

  /** A debt: the full amount owed, its description and its status. There is
      no pending remainder: a payment always settles the whole amount. */
  datatype Debt = Debt(monto: real, descripcion: string, estado: DebtStatus)

  /** The fields `crearDeuda` demands: a truthy, positive amount and a
      truthy description. */
  predicate ValidDebtRequest(monto: Option<real>, descripcion: Option<string>)
  {
    GivenNumber(monto) && monto.value > 0.0 && GivenText(descripcion)
  }

  const PaymentPrefix: string := "Pago de deuda: "

  /** The description of the expense that pays a debt. */
  function PaymentDescription(d: Debt): (s: string)
    ensures |s| == |PaymentPrefix| + |d.descripcion|
    ensures s[..|PaymentPrefix|] == PaymentPrefix && s[|PaymentPrefix|..] == d.descripcion
  {
    PaymentPrefix + d.descripcion
  }
}
