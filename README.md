# Personal-finance ledger: a Dafny model of its handlers

This project models the ledger behind a personal-finance backend. The
controllers read and write five tables through `executeQuery`:

- accounts (`cuentas`)
- cash transactions (`transacciones`)
- crypto positions (`criptos`)
- the crypto trade log (`transaccionesCripto`)
- debts (`deudas`)

The store is the class `Store.Ledger` (`store.dfy`). Its fields are the five
tables: four maps keyed by row id and one sequence for the append-only trade
log. Each handler that reads or writes a row is a method of it; the
aggregate query `obtenerBalanceIngresosYGastos` is the function
`Consultas.BalanceIngresosYGastos` of the two tables. A method answers `Ok`, `BadRequest`
(400), `NotFound` (404) or `Internal` (500), and its postconditions state the
whole new state: which rows it appends, overwrites or deletes, and that every
other table stays as it was. `Valid()` is the one object invariant: every id
in the tables that `uuidv4` fills lies below the id oracle `nextId`, so fresh
ids never collide.

The pure parts sit in one module per controller:

- `Cripto` (`cripto.dfy`): the weighted-average cost-basis arithmetic
  (`ApplyTrade`) and the lemmas about it.
- `Deudas` (`deudas.dfy`): the debt row, its open/paid status and the payment
  description.
- `Transacciones` (`transacciones.dfy`) and `Cuentas` (`cuentas.dfy`): their
  rows, request validation and partial overwrite.
- `Consultas` (`consultas.dfy`): the three SUM aggregates. It also holds
  lemmas that say how every write of the other handlers moves them. The
  handlers' postconditions use these lemmas.

`Common` (`common.dfy`) holds the shared vocabulary. JavaScript truthiness
(`!x`) of a request field is written out: a text field counts only when it is
present and non-empty, and a number only when it is present and non-zero.

Oracles:

- `uuidv4` is the counter `nextId`. `Store.Ledger.FreshId` draws from it.
- `CURRENT_TIMESTAMP` and `datetime('now')` become a `now: string` parameter.
- The object-storage upload `subiryConvetirR2` becomes a parameter of type
  `Option<Upload>`. None means no file was sent. `Uploaded(url)` means the
  upload returned `url`. `UploadFailed` means it threw, which is answered 500.

The model follows the code where a textbook ledger would do otherwise.
A transfer changes no account balance. A debt has no pending remainder and is
always paid in full. Nothing is wrapped in a database transaction. The unit
price of a trade is not checked for sign.

## Model

| member | source | states |
|---|---|---|
| `Cripto.ParseTipo` | src/controllers/CriptoController.ts:43-46 | accepts exactly `COMPRA`, `VENTA`, `EARN` and returns the kind whose text was given |
| `Cripto.TipoRoundTrip` | src/controllers/CriptoController.ts:43-46 | the text of each kind is accepted and parses back to that kind |
| `Cripto.ValidateTrade` | src/controllers/CriptoController.ts:38-46 | a request passes exactly when id and type are present, the quantity is present and positive, and the type is one of the three; the passed request carries those values |
| `Cripto.ApplyTrade` | src/controllers/CriptoController.ts:66-89 | a trade is refused exactly when it is a sale of more than is held |
| `Cripto.BuyConservesCost` | src/controllers/CriptoController.ts:70-77 | after a buy, new quantity = old + bought, and new quantity × new average = old cost + quantity × price |
| `Cripto.BuyTotalIsAddedCost` | src/controllers/CriptoController.ts:48-77 | after a buy, the position's cost (quantity × average) rises by exactly the total_usd recorded in the trade row |
| `Cripto.BuyAverageBetween` | src/controllers/CriptoController.ts:70-77 | from a non-negative holding, the new average lies between the old average and the purchase price |
| `Cripto.BuyFromEmpty` | src/controllers/CriptoController.ts:70-77 | buying into quantity 0 gives quantity `qty` at average `price`, whatever the old average |
| `Cripto.SellKeepsAverage` | src/controllers/CriptoController.ts:79-85 | a sale fails exactly when qty > held; otherwise new quantity = held − qty ≥ 0 with the average kept; selling everything leaves 0 at the same average |
| `Cripto.EarnIsFree` | src/controllers/CriptoController.ts:87-104 | EARN adds qty, keeps the average, and the trade row records unit price 0 and total 0 |
| `Cripto.TradeTotal` | src/controllers/CriptoController.ts:48 | for COMPRA and VENTA, total_usd = quantity × unit price, and 0 when the price is missing |
| `Cripto.TradeKeepsPositionNonNegative` | src/controllers/CriptoController.ts:66-89 | a positive trade on a non-negative holding keeps quantity ≥ 0, and keeps the average ≥ 0 when the price is ≥ 0 |
| `Cripto.WeightedAverageExample` | src/controllers/CriptoController.ts:70-77 | 2 @ 100 from empty gives (2, 100); then 3 @ 200 gives (5, 160) |
| `Store.Ledger.CrearTransaccionCripto` | src/controllers/CriptoController.ts:31-126 | invalid request: 400; unknown asset: 404; oversell: 400, all with no writes. On success it appends exactly one trade row and overwrites only the target asset's quantity, average and timestamp with `ApplyTrade`'s result, which is also what it answers |
| `Deudas.PaymentDescription` | src/controllers/deudasController.ts:76-80 | the expense description is "Pago de deuda: " followed by the debt's description |
| `Store.Ledger.CrearDeuda` | src/controllers/deudasController.ts:5-25 | 400 exactly when the amount is missing or not positive or the description is missing, with nothing inserted; otherwise one open debt under a fresh id, with that id answered |
| `Store.Ledger.PagarDeuda` | src/controllers/deudasController.ts:37-95 | checks in order: 400 missing id, 404 unknown debt, 400 already paid, 404 unknown account, 400 balance < amount; every error writes nothing. Success appends one `gastos` row for the full amount on that account, debits only that account by the amount (leaving it ≥ 0), marks the debt paid at `now`, lowers balance_total and raises total_gastos by the amount |
| `Store.PayTwice` | src/controllers/deudasController.ts:55-58 | after a successful payment the debt is paid, and a second payment of it is answered 400 |
| `Store.Ledger.GetTransaccionPorId` | src/controllers/transaccionController.ts:26-45 | answers the stored row, or 404 exactly when the id is absent |
| `Transacciones.Receipt` | src/controllers/transaccionController.ts:58-68 | the stored receipt is the upload URL when a file was sent, else '' |
| `Store.Ledger.CrearTransaccion` | src/controllers/transaccionController.ts:48-79 | 400 exactly when a field is falsy; 500 exactly when the upload fails; otherwise one row under a fresh id with the given fields and receipt. No balance changes; the totals move by that row's income and expense |
| `Transacciones.TransferRows` | src/controllers/transaccionController.ts:95-107 | the pair has equal amount, description and date: a `gastos` row on the source and an `ingresos` row on the destination |
| `Store.Ledger.TransferirFondos` | src/controllers/transaccionController.ts:82-117 | 400 exactly when a field is falsy or source = destination, with nothing inserted (the amount's sign is not checked); otherwise two rows under two distinct fresh ids, and no account or other row changes. Both totals rise by the amount and balance_total is unchanged |
| `Transacciones.UpdatedTransaction` | src/controllers/transaccionController.ts:125-128 | monto, descripcion, tipo and fecha are overwritten, recibo only when a truthy one is given, and the account is kept |
| `Store.Ledger.ActualizarTransaccion` | src/controllers/transaccionController.ts:120-143 | overwrites only the row with that id (an unknown id changes nothing) and answers 200; the totals swap the old row's contribution for the new |
| `Store.Ledger.EliminarTransaccion` | src/controllers/transaccionController.ts:146-155 | removes only that id and answers 200; the totals drop by the row's contribution |
| `Store.Ledger.GetCuentaPorId` | src/controllers/cuentaController.ts:18-37 | answers the stored account, or 404 exactly when the id is absent |
| `Store.Ledger.CrearCuenta` | src/controllers/cuentaController.ts:40-69 | 400 exactly when nombre, saldo or numero_cuenta is falsy or no file is sent; 500 exactly when the upload fails; otherwise one account under a fresh id with the upload URL as image, raising balance_total by its saldo |
| `Cuentas.UpdatedAccount` | src/controllers/cuentaController.ts:77-80 | nombre, saldo and numero_cuenta are overwritten; imagen is replaced only when a truthy one is given |
| `Store.Ledger.ActualizarCuenta` | src/controllers/cuentaController.ts:72-95 | overwrites only that account (an unknown id changes nothing) and answers 200; balance_total moves by new − old saldo |
| `Store.Ledger.EliminarCuenta` | src/controllers/cuentaController.ts:98-107 | removes only that id and answers 200; balance_total drops by its saldo |
| `Consultas.BalanceIngresosYGastos` | src/controllers/otrasConsultasController.ts:9-18 | the three totals of the two tables; on an empty accounts table balance_total is 0, and on an empty transactions table both totals are 0 |
| `Consultas.SumRemove` | src/controllers/otrasConsultasController.ts:9-18 | a SUM does not depend on row order: any row can be taken out first |
| `Consultas.TotalsDefaultToZero` | src/controllers/otrasConsultasController.ts:9-18 | no accounts gives balance_total 0; no `ingresos` rows gives total_ingresos 0; no `gastos` rows gives total_gastos 0 |
| `Consultas.OtherTipoCountsInNeither` | src/controllers/otrasConsultasController.ts:13-18 | a row whose tipo is neither `ingresos` nor `gastos` changes no total |
| `Consultas.InsertTransactionEffect` | src/controllers/otrasConsultasController.ts:13-18 | a new transaction adds its income and its expense to the totals and leaves balance_total unchanged |
| `Consultas.TransferEffect` | src/controllers/transaccionController.ts:95-107 | a transfer of m raises total_ingresos and total_gastos by m and changes neither balance_total nor income − expense |
| `Consultas.ReplaceTransactionEffect` | src/controllers/otrasConsultasController.ts:13-18 | overwriting a row swaps its old contribution to the totals for the new one |
| `Consultas.DeleteTransactionEffect` | src/controllers/otrasConsultasController.ts:13-18 | deleting a row takes its contribution out of the totals; deleting an absent id changes nothing |
| `Consultas.InsertAccountEffect` | src/controllers/otrasConsultasController.ts:9-10 | a new account adds its saldo to balance_total |
| `Consultas.ReplaceAccountEffect` | src/controllers/otrasConsultasController.ts:9-10 | overwriting an account moves balance_total by new − old saldo |
| `Consultas.DeleteAccountEffect` | src/controllers/otrasConsultasController.ts:9-10 | deleting an account takes its saldo out of balance_total |
| `Consultas.DebtPaymentEffect` | src/controllers/deudasController.ts:76-83 | an expense row of m plus a debit of m on the account lower balance_total by m, raise total_gastos by m and leave total_ingresos unchanged |

## Left out

- HTTP plumbing: routing, body parsing, file handling, response bodies,
  messages and logging. Only the kind of answer is kept.
- The SQL driver. Tables are maps and a sequence. The model claims no
  atomicity and no rollback. A failure of `executeQuery` between two
  statements, and the 500 it would give, is not modelled. The only 500
  modelled is a failed upload.
- Concurrency and read-then-write races between requests. The model is
  sequential.
- `getTransacciones`, `getCuentas`, `getCriptos`, `getTransaccionesCripto`
  and `obtenerDeudas` are plain listings with SQL ordering and a JOIN. They
  are not modelled.
- Floating-point rounding, `Number(...)` conversion and string-to-number
  coercion of multipart fields. Amounts are `real`. Truthiness is written as
  "absent, zero or empty".
- Store.Ledger.CrearCuenta: reads saldo as a number, so a saldo of 0 is
  refused. The handler demands a file, so a request that can succeed is
  multipart, and there every field arrives as text: the text "0" is truthy,
  and the source accepts and stores it.
- Store.Ledger.CrearTransaccion: reads monto as a number, so a monto of 0 is
  refused. When a receipt file is sent the body is multipart, monto arrives
  as the text "0", which is truthy, and the source accepts and stores it.
- Store.Ledger.CrearTransaccionCripto: reads cantidad as a number. Were it
  sent as text, `cantidadActualNum + cantidad` (CriptoController.ts lines 74
  and 88) would join two strings rather than add; that case is not modelled.
- Store.Ledger.ActualizarTransaccion: takes monto, descripcion, tipo and
  fecha as given values. A body that omits one of them passes `undefined` to
  `executeQuery`, which is not part of this model (it may bind NULL or fail
  with a 500), and that case is not modelled.
- Store.Ledger.ActualizarCuenta: takes nombre, saldo and numero_cuenta as
  given values. A body that omits one of them is likewise not modelled.
- Columns left to the table's default are shown as `None`: the date of a
  transfer's or a payment's receipt, and the date of the payment's
  transaction. A new debt's status is `Pendiente`; the table's actual default
  is not visible here, and the model only relies on it not being `pagado`.
  The tables' schema is not part of this model.
- Store.Ledger.EliminarCuenta: deletes the account alone and keeps its
  transactions. Whether a foreign key would cascade the delete to them, or
  block it, depends on the schema, which is not part of this model.
- The crypto table's rows are created outside the modelled handlers, so the
  ledger is built with them given.
- The `deudas.monto ?? 0` default: a debt's amount is never NULL here,
  because `crearDeuda` always stores one.
- uuidv4 is modelled as a counter that never repeats an id; its randomness
  is not modelled.
