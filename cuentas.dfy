/** Rows of the `cuentas` table (src/controllers/cuentaController.ts). */
module Cuentas {
  import opened Common

  /** An account: its name, its balance, its account number and the URL of
      its image. */
  datatype Account = Account(nombre: string, saldo: real, numeroCuenta: string, imagen: string)

  /** The three fields `crearCuenta` demands, each truthy. A balance of 0 is
      falsy and therefore rejected. */
  predicate ValidAccountRequest(nombre: Option<string>, saldo: Option<real>, numeroCuenta: Option<string>)
  {
    GivenText(nombre) && GivenNumber(saldo) && GivenText(numeroCuenta)
  }

  /** The row `actualizarCuenta` writes over `prev`: nombre, saldo and
      numero_cuenta are always overwritten, imagen only when a truthy one is
      supplied. */
  function UpdatedAccount(prev: Account, nombre: string, saldo: real, numeroCuenta: string,
                          imagen: Option<string>): (r: Account)
    ensures r.nombre == nombre && r.saldo == saldo && r.numeroCuenta == numeroCuenta
    ensures GivenText(imagen) ==> r.imagen == imagen.value
    ensures !GivenText(imagen) ==> r.imagen == prev.imagen
  {
    Account(nombre, saldo, numeroCuenta, if GivenText(imagen) then imagen.value else prev.imagen)
  }
}
