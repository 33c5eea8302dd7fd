/** The crypto position accountant (src/controllers/CriptoController.ts):
    rows of `criptos` and `transaccionesCripto`, request validation and the
    weighted-average cost basis under the three trade kinds. */
module Cripto {
  import opened Common

  datatype TradeKind = Compra | Venta | Earn

  /** The `tipo` text of each trade kind. */
  function TipoName(k: TradeKind): string
  {
    match k
    case Compra => "COMPRA"
    case Venta => "VENTA"
    case Earn => "EARN"
  }

  /** Accepts exactly the three `tipo` texts and gives back the kind whose
      text it was. */
  function ParseTipo(s: string): (r: Option<TradeKind>)
    ensures r.Some? <==> s == "COMPRA" || s == "VENTA" || s == "EARN"
    ensures r.Some? ==> TipoName(r.value) == s
  {
    if s == "COMPRA" then Some(Compra)
    else if s == "VENTA" then Some(Venta)
    else if s == "EARN" then Some(Earn)
    else None
  }

  /** The other direction of `ParseTipo`: the text of a kind parses back
      to that kind. */
  lemma TipoRoundTrip(k: TradeKind)
    ensures ParseTipo(TipoName(k)) == Some(k)
  {
  }

  /** A row of `criptos`. Quantity and average price may be NULL in the
      table; the handler reads them as 0. */
  datatype CryptoAsset = CryptoAsset(nombre: string, cantidad: Option<real>, precioPromedio: Option<real>,
                                     fechaActualizacion: string)

  /** A row of the trade log `transaccionesCripto`. */
  datatype CryptoTrade = CryptoTrade(criptoId: Id, tipo: TradeKind, cantidad: real,
                                     precioUnitario: Option<real>, totalUsd: real)

  /** A holding: quantity and weighted-average unit cost. */
  datatype Position = Position(cantidad: real, precioPromedio: real)

  /** The holding as the handler reads it, NULL columns counting as 0. */
  function Held(a: CryptoAsset): Position
  {
    Position(OrZero(a.cantidad), OrZero(a.precioPromedio))
  }

  /** A trade request that passed validation. */
  datatype TradeRequest = TradeRequest(criptoId: Id, kind: TradeKind, cantidad: real, precio: Option<real>)

  /** The two validation steps of the handler: the id, the type and a
      positive quantity must be present, and the type must be one of the
      three kinds. */
  function ValidateTrade(criptoId: Option<Id>, tipo: Option<string>, cantidad: Option<real>,
                         precio: Option<real>): (r: Option<TradeRequest>)
    ensures r.Some? <==>
              && criptoId.Some? && GivenText(tipo) && cantidad.Some? && cantidad.value > 0.0
              && (tipo.value == "COMPRA" || tipo.value == "VENTA" || tipo.value == "EARN")
    ensures r.Some? ==>
              && r.value.criptoId == criptoId.value && TipoName(r.value.kind) == tipo.value
              && r.value.cantidad == cantidad.value && r.value.cantidad > 0.0 && r.value.precio == precio
  {
    if criptoId.None? || !GivenText(tipo) || !GivenNumber(cantidad) || cantidad.value <= 0.0 then None
    else
      match ParseTipo(tipo.value)
      case None => None
      case Some(k) => Some(TradeRequest(criptoId.value, k, cantidad.value, precio))
  }

  /** `total_usd` of the trade row: 0 for EARN, otherwise quantity times unit
      price with a missing price counting as 0. */
  function TotalUsd(k: TradeKind, cantidad: real, precio: Option<real>): real
  {
    if k == Earn then 0.0 else cantidad * OrZero(precio)
  }

  /** The unit price written to the trade row: 0 for EARN, otherwise the
      price as given (possibly missing). */
  function RecordedPrice(k: TradeKind, precio: Option<real>): Option<real>
  {
    if k == Earn then Some(0.0) else precio
  }

  /** The weighted average after a purchase: total cost over total
      quantity, or 0 when the new quantity is not positive. */
  function BuyAverage(costoActual: real, costoCompra: real, nuevaCantidad: real): real
  {
    if nuevaCantidad > 0.0 then (costoActual + costoCompra) / nuevaCantidad else 0.0
  }

  /** The new holding after a trade of `qty` at unit price `price`, or None
      when a sale asks for more than is held. A buy recomputes the weighted
      average (0 if the new quantity is not positive); a sale and an earn
      keep it. */
  function ApplyTrade(k: TradeKind, held: Position, qty: real, price: real): (r: Option<Position>)
    ensures r.None? <==> k == Venta && qty > held.cantidad
  {
    match k
    case Compra =>
      var q := held.cantidad + qty;
      Some(Position(q, BuyAverage(held.cantidad * held.precioPromedio, qty * price, q)))
    case Venta =>
      if qty > held.cantidad then None else Some(Position(held.cantidad - qty, held.precioPromedio))
    case Earn =>
      Some(Position(held.cantidad + qty, held.precioPromedio))
  }

  /** Buying conserves cost: the new quantity is the sum of the quantities,
      and the new quantity times the new average is the old cost plus the
      cost of the purchase. */
  lemma BuyConservesCost(held: Position, qty: real, price: real)
    requires held.cantidad + qty > 0.0
    ensures ApplyTrade(Compra, held, qty, price).Some?
    ensures var p := ApplyTrade(Compra, held, qty, price).value;
            && p.cantidad == held.cantidad + qty
            && p.cantidad * p.precioPromedio == held.cantidad * held.precioPromedio + qty * price
  {
    var q := held.cantidad + qty;
    var cost := held.cantidad * held.precioPromedio + qty * price;
    assert (cost / q) * q == cost;
  }

  /** The cost a buy adds to the position is the total the trade row
      records: the position's cost rises by exactly `total_usd`. */
  lemma BuyTotalIsAddedCost(held: Position, qty: real, precio: Option<real>)
    requires held.cantidad + qty > 0.0
    ensures ApplyTrade(Compra, held, qty, OrZero(precio)).Some?
    ensures var p := ApplyTrade(Compra, held, qty, OrZero(precio)).value;
            p.cantidad * p.precioPromedio == held.cantidad * held.precioPromedio + TotalUsd(Compra, qty, precio)
  {
    BuyConservesCost(held, qty, OrZero(precio));
  }

  /** A product with a positive factor has the sign of the other factor. */
  lemma SignOfScaled(x: real, q: real)
    requires q > 0.0
    ensures x * q >= 0.0 ==> x >= 0.0
    ensures x * q <= 0.0 ==> x <= 0.0
  {
  }

  /** From a non-negative holding, a purchase moves the average to a value
      between the old average and the purchase price. */
  lemma BuyAverageBetween(held: Position, qty: real, price: real)
    requires held.cantidad >= 0.0 && qty > 0.0
    ensures var avg := ApplyTrade(Compra, held, qty, price).value.precioPromedio;
            && (held.precioPromedio <= price ==> held.precioPromedio <= avg <= price)
            && (price <= held.precioPromedio ==> price <= avg <= held.precioPromedio)
  {
    var q0, a0 := held.cantidad, held.precioPromedio;
    var q := q0 + qty;
    BuyConservesCost(held, qty, price);
    var avg := ApplyTrade(Compra, held, qty, price).value.precioPromedio;
    assert avg * q == q0 * a0 + qty * price;
    // avg - a0 and price - avg are the shares of (price - a0) carried by the
    // purchase and by the old holding
    calc {
      (avg - a0) * q;
      avg * q - a0 * q;
      q0 * a0 + qty * price - a0 * (q0 + qty);
      qty * (price - a0);
    }
    calc {
      (price - avg) * q;
      price * q - avg * q;
      price * (q0 + qty) - (q0 * a0 + qty * price);
      q0 * (price - a0);
    }
    if a0 <= price {
      assert qty * (price - a0) >= 0.0 && q0 * (price - a0) >= 0.0;
    } else {
      assert qty * (price - a0) <= 0.0 && q0 * (price - a0) <= 0.0;
    }
    SignOfScaled(avg - a0, q);
    SignOfScaled(price - avg, q);
  }

  /** Buying into an empty holding sets the average to the purchase price. */
  lemma BuyFromEmpty(held: Position, qty: real, price: real)
    requires held.cantidad == 0.0 && qty > 0.0
    ensures ApplyTrade(Compra, held, qty, price) == Some(Position(qty, price))
  {
    assert held.cantidad * held.precioPromedio == 0.0;
    assert (qty * price) / qty == price;
  }

  /** A sale is refused exactly when it asks for more than is held;
      otherwise it lowers the quantity by `qty`, never below 0, and keeps
      the average, so selling everything leaves 0 at the same average. */
  lemma SellKeepsAverage(held: Position, qty: real, price: real)
    ensures ApplyTrade(Venta, held, qty, price).None? <==> qty > held.cantidad
    ensures qty <= held.cantidad ==>
              var p := ApplyTrade(Venta, held, qty, price).value;
              && p.cantidad == held.cantidad - qty && p.cantidad >= 0.0
              && p.precioPromedio == held.precioPromedio
    ensures qty == held.cantidad ==> ApplyTrade(Venta, held, qty, price) == Some(Position(0.0, held.precioPromedio))
  {
  }

  /** EARN adds `qty` at no cost: the average is kept, and the trade row
      records a unit price of 0 and a total of 0. */
  lemma EarnIsFree(held: Position, qty: real, price: real, precio: Option<real>)
    ensures ApplyTrade(Earn, held, qty, price) == Some(Position(held.cantidad + qty, held.precioPromedio))
    ensures RecordedPrice(Earn, precio) == Some(0.0) && TotalUsd(Earn, qty, precio) == 0.0
  {
  }

  /** For a buy or a sale the total is the quantity times the unit price, a
      missing price counting as 0. */
  lemma TradeTotal(k: TradeKind, qty: real, precio: Option<real>)
    requires k != Earn
    ensures precio.Some? ==> TotalUsd(k, qty, precio) == qty * precio.value
    ensures precio.None? ==> TotalUsd(k, qty, precio) == 0.0
  {
  }

  /** The position invariant the handler keeps: a trade of positive quantity
      on a non-negative holding leaves the quantity non-negative, and, when
      the price is not negative, the average non-negative too. */
  lemma TradeKeepsPositionNonNegative(k: TradeKind, held: Position, qty: real, price: real)
    requires held.cantidad >= 0.0 && held.precioPromedio >= 0.0 && qty > 0.0 && price >= 0.0
    ensures var r := ApplyTrade(k, held, qty, price);
            r.Some? ==> r.value.cantidad >= 0.0 && r.value.precioPromedio >= 0.0
  {
    if k == Compra {
      BuyAverageBetween(held, qty, price);
    }
  }

  /** Two purchases from an empty holding: 2 units at 100, then 3 at 200,
      leave 5 units at an average of 160. */
  lemma WeightedAverageExample()
    ensures ApplyTrade(Compra, Position(0.0, 0.0), 2.0, 100.0) == Some(Position(2.0, 100.0))
    ensures ApplyTrade(Compra, Position(2.0, 100.0), 3.0, 200.0) == Some(Position(5.0, 160.0))
  {
  }
}
