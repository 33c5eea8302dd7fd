/** The read-only aggregates of src/controllers/otrasConsultasController.ts:
    total balance over `cuentas`, and total income and total expense over
    `transacciones`, each a SUM that defaults to 0; and how each write of the
    other handlers moves them. */
module Consultas {
  import opened Common
  import opened Cuentas
  import opened Transacciones

  /** The sum of `f` over the rows of a table, in no particular order. */
  ghost function SumOver<K, V>(m: map<K, V>, f: V -> real): real
    decreases m.Keys
  {
    if m.Keys == {} then 0.0
    else
      var k :| k in m.Keys;
      f(m[k]) + SumOver(m - {k}, f)
  }

  /** The sum does not depend on the order of the rows: any row can be taken
      out first. */
  lemma {:induction false} SumRemove<K, V>(m: map<K, V>, k: K, f: V -> real)
    requires k in m
    ensures SumOver(m, f) == f(m[k]) + SumOver(m - {k}, f)
    decreases m.Keys
  {
    var j :| j in m.Keys && SumOver(m, f) == f(m[j]) + SumOver(m - {j}, f);
    if j != k {
      SumRemove(m - {j}, k, f);
      SumRemove(m - {k}, j, f);
      assert m - {j} - {k} == m - {k} - {j};
    }
  }

  /** Inserting a row under a fresh key adds its value. */
  lemma SumInsert<K, V>(m: map<K, V>, k: K, v: V, f: V -> real)
    requires k !in m
    ensures SumOver(m[k := v], f) == SumOver(m, f) + f(v)
  {
    SumRemove(m[k := v], k, f);
    assert m[k := v] - {k} == m;
  }

  /** Overwriting a row swaps its old value for the new one. */
  lemma SumReplace<K, V>(m: map<K, V>, k: K, v: V, f: V -> real)
    requires k in m
    ensures SumOver(m[k := v], f) == SumOver(m, f) - f(m[k]) + f(v)
  {
    SumRemove(m[k := v], k, f);
    SumRemove(m, k, f);
    assert m[k := v] - {k} == m - {k};
  }

  /** Deleting a key takes its row's value out, if there was a row. */
  lemma SumDelete<K, V>(m: map<K, V>, k: K, f: V -> real)
    ensures k in m ==> SumOver(m - {k}, f) == SumOver(m, f) - f(m[k])
    ensures k !in m ==> SumOver(m - {k}, f) == SumOver(m, f)
  {
    if k in m {
      SumRemove(m, k, f);
    } else {
      assert m - {k} == m;
    }
  }

  /** A table whose rows all contribute 0 sums to 0. */
  lemma {:induction false} SumOfZeros<K, V>(m: map<K, V>, f: V -> real)
    requires forall k :: k in m ==> f(m[k]) == 0.0
    ensures SumOver(m, f) == 0.0
    decreases m.Keys
  {
    if m.Keys != {} {
      var k :| k in m.Keys;
      SumRemove(m, k, f);
      SumOfZeros(m - {k}, f);
    }
  }

  function Saldo(a: Account): real
  {
    a.saldo
  }

  /** What a row adds to `total_ingresos`: its amount when its tipo is
      `ingresos`, otherwise nothing. */
  function Income(t: Transaction): real
  {
    if t.tipo == Ingresos then t.monto else 0.0
  }

  /** What a row adds to `total_gastos`: its amount when its tipo is
      `gastos`, otherwise nothing. */
  function Expense(t: Transaction): real
  {
    if t.tipo == Gastos then t.monto else 0.0
  }

  datatype Summary = Summary(balanceTotal: real, totalIngresos: real, totalGastos: real)

  /** `obtenerBalanceIngresosYGastos`: three SUMs, each 0 on no rows. It takes
      the tables as values and writes nothing. */
  ghost function BalanceIngresosYGastos(cuentas: map<Id, Account>, transacciones: map<Id, Transaction>): (r: Summary)
    ensures cuentas == map[] ==> r.balanceTotal == 0.0
    ensures transacciones == map[] ==> r.totalIngresos == 0.0 && r.totalGastos == 0.0
  {
    Summary(SumOver(cuentas, Saldo), SumOver(transacciones, Income), SumOver(transacciones, Expense))
  }

  /** The `|| 0` defaults: no accounts gives a balance of 0, and no row of
      tipo `ingresos` (resp. `gastos`) gives a total of 0. */
  lemma TotalsDefaultToZero(cuentas: map<Id, Account>, transacciones: map<Id, Transaction>)
    ensures cuentas == map[] ==> BalanceIngresosYGastos(cuentas, transacciones).balanceTotal == 0.0
    ensures (forall k :: k in transacciones ==> transacciones[k].tipo != Ingresos) ==>
              BalanceIngresosYGastos(cuentas, transacciones).totalIngresos == 0.0
    ensures (forall k :: k in transacciones ==> transacciones[k].tipo != Gastos) ==>
              BalanceIngresosYGastos(cuentas, transacciones).totalGastos == 0.0
  {
    if forall k :: k in transacciones ==> transacciones[k].tipo != Ingresos {
      SumOfZeros(transacciones, Income);
    }
    if forall k :: k in transacciones ==> transacciones[k].tipo != Gastos {
      SumOfZeros(transacciones, Expense);
    }
  }

  /** Rows whose tipo is neither `ingresos` nor `gastos` count in neither
      total: adding one leaves the whole summary as it was. */
  lemma OtherTipoCountsInNeither(cuentas: map<Id, Account>, transacciones: map<Id, Transaction>,
                                 k: Id, t: Transaction)
    requires k !in transacciones && t.tipo != Ingresos && t.tipo != Gastos
    ensures BalanceIngresosYGastos(cuentas, transacciones[k := t]) == BalanceIngresosYGastos(cuentas, transacciones)
  {
    SumInsert(transacciones, k, t, Income);
    SumInsert(transacciones, k, t, Expense);
  }

  /** Inserting a transaction under a fresh id adds its income and its
      expense to the totals and leaves the balance alone. */
  lemma InsertTransactionEffect(cuentas: map<Id, Account>, transacciones: map<Id, Transaction>,
                                k: Id, t: Transaction)
    requires k !in transacciones
    ensures var before := BalanceIngresosYGastos(cuentas, transacciones);
            var after := BalanceIngresosYGastos(cuentas, transacciones[k := t]);
            && after.balanceTotal == before.balanceTotal
            && after.totalIngresos == before.totalIngresos + Income(t)
            && after.totalGastos == before.totalGastos + Expense(t)
  {
    SumInsert(transacciones, k, t, Income);
    SumInsert(transacciones, k, t, Expense);
  }

  /** A transfer of `monto` (two fresh rows, an expense and an income of the
      same amount) raises both totals by `monto`, so income minus expense is
      unchanged, and leaves the balance alone. */
  lemma TransferEffect(cuentas: map<Id, Account>, transacciones: map<Id, Transaction>,
                       kGasto: Id, kIngreso: Id, monto: real, descripcion: string,
                       origen: Id, destino: Id, fecha: string)
    requires kGasto !in transacciones && kIngreso !in transacciones && kGasto != kIngreso
    ensures var rows := TransferRows(monto, descripcion, origen, destino, fecha);
            var before := BalanceIngresosYGastos(cuentas, transacciones);
            var after := BalanceIngresosYGastos(cuentas, transacciones[kGasto := rows.0][kIngreso := rows.1]);
            && after.balanceTotal == before.balanceTotal
            && after.totalIngresos == before.totalIngresos + monto
            && after.totalGastos == before.totalGastos + monto
            && after.totalIngresos - after.totalGastos == before.totalIngresos - before.totalGastos
  {
    var rows := TransferRows(monto, descripcion, origen, destino, fecha);
    InsertTransactionEffect(cuentas, transacciones, kGasto, rows.0);
    InsertTransactionEffect(cuentas, transacciones[kGasto := rows.0], kIngreso, rows.1);
  }

  /** Overwriting a transaction swaps its old contribution to the totals for
      the new one. */
  lemma ReplaceTransactionEffect(cuentas: map<Id, Account>, transacciones: map<Id, Transaction>,
                                 k: Id, t: Transaction)
    requires k in transacciones
    ensures var before := BalanceIngresosYGastos(cuentas, transacciones);
            var after := BalanceIngresosYGastos(cuentas, transacciones[k := t]);
            && after.balanceTotal == before.balanceTotal
            && after.totalIngresos == before.totalIngresos - Income(transacciones[k]) + Income(t)
            && after.totalGastos == before.totalGastos - Expense(transacciones[k]) + Expense(t)
  {
    SumReplace(transacciones, k, t, Income);
    SumReplace(transacciones, k, t, Expense);
  }

  /** Deleting a transaction takes its contribution out of the totals
      (nothing, if the id is absent). */
  lemma DeleteTransactionEffect(cuentas: map<Id, Account>, transacciones: map<Id, Transaction>, k: Id)
    ensures var before := BalanceIngresosYGastos(cuentas, transacciones);
            var after := BalanceIngresosYGastos(cuentas, transacciones - {k});
            && after.balanceTotal == before.balanceTotal
            && (k in transacciones ==>
                  && after.totalIngresos == before.totalIngresos - Income(transacciones[k])
                  && after.totalGastos == before.totalGastos - Expense(transacciones[k]))
            && (k !in transacciones ==> after == before)
  {
    SumDelete(transacciones, k, Income);
    SumDelete(transacciones, k, Expense);
  }

  /** Inserting an account under a fresh id adds its balance to the total. */
  lemma InsertAccountEffect(cuentas: map<Id, Account>, transacciones: map<Id, Transaction>,
                            k: Id, a: Account)
    requires k !in cuentas
    ensures var before := BalanceIngresosYGastos(cuentas, transacciones);
            var after := BalanceIngresosYGastos(cuentas[k := a], transacciones);
            && after.balanceTotal == before.balanceTotal + a.saldo
            && after.totalIngresos == before.totalIngresos && after.totalGastos == before.totalGastos
  {
    SumInsert(cuentas, k, a, Saldo);
  }

  /** Overwriting an account swaps its old balance for the new one in the
      total. */
  lemma ReplaceAccountEffect(cuentas: map<Id, Account>, transacciones: map<Id, Transaction>,
                             k: Id, a: Account)
    requires k in cuentas
    ensures var before := BalanceIngresosYGastos(cuentas, transacciones);
            var after := BalanceIngresosYGastos(cuentas[k := a], transacciones);
            && after.balanceTotal == before.balanceTotal - cuentas[k].saldo + a.saldo
            && after.totalIngresos == before.totalIngresos && after.totalGastos == before.totalGastos
  {
    SumReplace(cuentas, k, a, Saldo);
  }

  /** Deleting an account takes its balance out of the total (nothing, if
      the id is absent). */
  lemma DeleteAccountEffect(cuentas: map<Id, Account>, transacciones: map<Id, Transaction>, k: Id)
    ensures var before := BalanceIngresosYGastos(cuentas, transacciones);
            var after := BalanceIngresosYGastos(cuentas - {k}, transacciones);
            && (k in cuentas ==> after.balanceTotal == before.balanceTotal - cuentas[k].saldo)
            && (k !in cuentas ==> after.balanceTotal == before.balanceTotal)
            && after.totalIngresos == before.totalIngresos && after.totalGastos == before.totalGastos
  {
    SumDelete(cuentas, k, Saldo);
  }

  /** Paying a debt of `monto` from account `c` (an expense row under a
      fresh id and the account debited by `monto`) lowers the balance by
      `monto`, raises total expense by `monto` and leaves total income
      alone. */
  lemma DebtPaymentEffect(cuentas: map<Id, Account>, transacciones: map<Id, Transaction>,
                          c: Id, kGasto: Id, monto: real, descripcion: string)
    requires c in cuentas && kGasto !in transacciones
    ensures var before := BalanceIngresosYGastos(cuentas, transacciones);
            var after := BalanceIngresosYGastos(
                           cuentas[c := cuentas[c].(saldo := cuentas[c].saldo - monto)],
                           transacciones[kGasto := Transaction(monto, descripcion, Gastos, None, c, None)]);
            && after.balanceTotal == before.balanceTotal - monto
            && after.totalIngresos == before.totalIngresos
            && after.totalGastos == before.totalGastos + monto
  {
    SumReplace(cuentas, c, cuentas[c].(saldo := cuentas[c].saldo - monto), Saldo);
    InsertTransactionEffect(cuentas, transacciones, kGasto, Transaction(monto, descripcion, Gastos, None, c, None));
  }
}
