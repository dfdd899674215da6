/** The simulated broker: orders fill at once, positions are kept per symbol across strategies. */
module PaperBroker {
  import opened Collections
  import opened Ledger

  datatype OrderType = MARKET | LIMIT | STOP_LIMIT | STOP_MARKET

  datatype BrokerOrder = BrokerOrder(id: string, symbol: string, side: Side, quantity: int, orderType: OrderType,
                                     averagePrice: real, filledQuantity: int, status: string)

  datatype BrokerFill = BrokerFill(symbol: string, lot: Lot)

  datatype PaperPosition = PaperPosition(symbol: string, quantity: int, average: real, pnl: real) {
    function Holding(): Ledger.Holding { Ledger.Holding(quantity, average, pnl) }
  }

  type Register = OrderedDict<string, PaperPosition>

  const MAX_ORDER_HISTORY := 5000

  ghost function SymbolLots(history: seq<BrokerFill>, symbol: string): seq<Lot> {
    if history == [] then [] else
      var rest, last := SymbolLots(history[..|history| - 1], symbol), history[|history| - 1];
      if last.symbol == symbol then rest + [last.lot] else rest
  }

  lemma SymbolLotsGrow(history: seq<BrokerFill>, f: BrokerFill, symbol: string)
    ensures SymbolLots(history + [f], symbol) ==
            if f.symbol == symbol then SymbolLots(history, symbol) + [f.lot] else SymbolLots(history, symbol)
  {
    assert (history + [f])[..|history|] == history;
  }

  /** The price at which an order fills: its own limit, else the cached price; market orders slip by 0.05%. */
  function FillPrice(orderType: OrderType, side: Side, price: real, cached: real): real {
    var quoted := if price > 0.0 then price else cached;
    if orderType == MARKET then quoted * (if side == BUY then 1.0005 else 0.9995) else quoted
  }

  /** An order is filled at its own price, or at the last traded price when it names none. A market order fills worse than
      that by a two-thousandth, whichever side it is on, so that buying and selling back at once costs a thousandth. */
  ghost predicate FilledFairly(fill: Lot, orderType: OrderType, price: real, ltp: real) {
    var quoted := if price > 0.0 then price else ltp;
    if orderType == MARKET then (fill.price - quoted) * fill.signed as real == quoted / 2000.0 * Abs(fill.signed) as real
    else fill.price == quoted
  }

  lemma FillIsFair(orderType: OrderType, side: Side, quantity: int, price: real, ltp: real)
    requires quantity > 0
    ensures FilledFairly(Lot(Signed(side, quantity), FillPrice(orderType, side, price, ltp)), orderType, price, ltp)
  {
    var quoted, q := if price > 0.0 then price else ltp, quantity as real;
    var slip := quoted / 2000.0;
    if orderType == MARKET {
      if side == BUY {
        assert FillPrice(orderType, side, price, ltp) - quoted == slip;
      } else {
        assert FillPrice(orderType, side, price, ltp) - quoted == -slip;
        assert (-quantity) as real == -q;
        assert -slip * -q == slip * q;
      }
    }
  }

  /** Buying at market and selling back at the same last traded price loses a thousandth of it a unit. */
  lemma RoundTripCostsSlippage(quantity: int, ltp: real)
    requires quantity > 0 && ltp > 0.0
    ensures CashFlow([Lot(Signed(BUY, quantity), FillPrice(MARKET, BUY, 0.0, ltp)),
                      Lot(Signed(SELL, quantity), FillPrice(MARKET, SELL, 0.0, ltp))]) == -(quantity as real * ltp / 1000.0)
  {
    var q := quantity as real;
    var buy, sell := Lot(quantity, ltp * 1.0005), Lot(-quantity, ltp * 0.9995);
    var lots := [buy, sell];
    assert lots[..1] == [buy] && [buy][..0] == [];
    assert CashFlow([buy]) == -(q * buy.price);
    assert (-quantity) as real == -q;
    assert CashFlow(lots) == CashFlow([buy]) - -q * sell.price;
    assert q * (ltp * 1.0005) - q * (ltp * 0.9995) == q * ltp / 1000.0;
  }

  ghost predicate Consistent(positions: Register, history: seq<BrokerFill>) {
    forall s :: ConsistentAt(positions, history, s)
  }

  ghost predicate ConsistentAt(positions: Register, history: seq<BrokerFill>, s: string) {
    && (s in positions.entries <==> SymbolLots(history, s) != [])
    && (s in positions.entries ==>
         positions.entries[s].symbol == s && positions.entries[s].Holding() == Replay(SymbolLots(history, s)))
  }

  ghost function Held(positions: Register, symbol: string): Holding {
    if symbol in positions.entries then positions.entries[symbol].Holding() else FLAT
  }

  lemma FillKeepsConsistency(positions: Register, history: seq<BrokerFill>, f: BrokerFill, pos: PaperPosition)
    requires Consistent(positions, history) && f.lot.signed != 0
    requires pos.symbol == f.symbol && pos.Holding() == Settle(Held(positions, f.symbol), f.lot)
    ensures Consistent(positions.Put(f.symbol, pos), history + [f])
  {
    forall s ensures ConsistentAt(positions.Put(f.symbol, pos), history + [f], s) {
      assert ConsistentAt(positions, history, s);
      SymbolLotsGrow(history, f, s);
      if s == f.symbol {
        var lots := SymbolLots(history, s) + [f.lot];
        assert lots[..|lots| - 1] == SymbolLots(history, s);
      }
    }
  }

  /** The broker's own arithmetic for one fill; it obeys the same law as the internal book. */
  method Amend(before: PaperPosition, side: Side, quantity: int, price: real) returns (pos: PaperPosition)
    requires quantity > 0
    ensures Settles(before.Holding(), Lot(Signed(side, quantity), price), pos.Holding())
    ensures pos.symbol == before.symbol
  {
    pos := before;
    var signed := if side == BUY then quantity else -quantity;
    if pos.quantity == 0 {
      pos := pos.(quantity := signed, average := price);
    } else if (pos.quantity > 0 && side == BUY) || (pos.quantity < 0 && side == SELL) {
      var total := Abs(pos.quantity) as real * pos.average + quantity as real * price;
      pos := pos.(quantity := pos.quantity + signed);
      if pos.quantity != 0 {
        pos := pos.(average := total / Abs(pos.quantity) as real);
      }
    } else {
      var closeQty := Min(Abs(pos.quantity), quantity);
      if pos.quantity > 0 {
        pos := pos.(pnl := pos.pnl + closeQty as real * (price - pos.average));
      } else {
        pos := pos.(pnl := pos.pnl + closeQty as real * (pos.average - price));
      }
      pos := pos.(quantity := pos.quantity + signed);
      if pos.quantity == 0 {
        pos := pos.(average := 0.0);
      } else if Abs(signed) > Abs(pos.quantity - signed) {
        pos := pos.(average := price);
      }
    }
  }

  class PaperBrokerClient {
    var orders: seq<BrokerOrder>
    var positions: Register
    var ltpCache: map<string, real>
    ghost var history: seq<BrokerFill>

    ghost predicate Valid()
      reads this
    {
      positions.Valid() && Consistent(positions, history)
    }

    constructor ()
      ensures Valid() && history == [] && orders == [] && ltpCache == map[] && positions.entries == map[]
    {
      orders := [];
      positions := OrderedDict([], map[]);
      ltpCache := map[];
      history := [];
    }

    method SetLtp(symbol: string, price: real)
      requires Valid()
      modifies this`ltpCache
      ensures Valid() && ltpCache == old(ltpCache)[symbol := price]
    {
      ltpCache := ltpCache[symbol := price];
    }

    function Cached(symbol: string): real
      reads this
    {
      if symbol in ltpCache then ltpCache[symbol] else 0.0
    }

    /** Fills the whole order at once, or refuses it, leaving no trace, when no price is known. */
    method PlaceOrder(id: string, symbol: string, side: Side, quantity: int, orderType: OrderType, price: real)
      returns (r: Result<string, string>)
      requires Valid() && quantity > 0
      modifies this`orders, this`positions, this`history
      ensures Valid()
      ensures r.Ok? <==> price > 0.0 || (symbol in ltpCache && ltpCache[symbol] > 0.0)
      ensures r.Err? ==> history == old(history) && orders == old(orders) && positions == old(positions)
      ensures r.Ok? ==>
        var fill := FillPrice(orderType, side, price, Cached(symbol));
        && r.value == id && fill > 0.0
        && FilledFairly(Lot(Signed(side, quantity), fill), orderType, price, Cached(symbol))
        && history == old(history) + [BrokerFill(symbol, Lot(Signed(side, quantity), fill))]
        && orders == Newest(old(orders) + [BrokerOrder(id, symbol, side, quantity, orderType, fill, quantity, "COMPLETE")],
                            5000)
        && symbol in positions.entries
        && positions == old(positions).Put(symbol, positions.entries[symbol])
        && Settles(old(Held(positions, symbol)), Lot(Signed(side, quantity), fill), positions.entries[symbol].Holding())
    {
      var fillPrice := if price > 0.0 then price else Cached(symbol);
      if fillPrice <= 0.0 {
        return Err("No LTP available for " + symbol);
      }
      if orderType == MARKET {
        var slippage := if side == BUY then 1.0005 else 0.9995;
        fillPrice := fillPrice * slippage;
      }
      FillIsFair(orderType, side, quantity, price, Cached(symbol));
      orders := orders + [BrokerOrder(id, symbol, side, quantity, orderType, fillPrice, quantity, "COMPLETE")];
      if |orders| > MAX_ORDER_HISTORY {
        orders := orders[|orders| - MAX_ORDER_HISTORY..];
      }
      UpdatePosition(symbol, side, quantity, fillPrice);
      r := Ok(id);
    }

    method UpdatePosition(symbol: string, side: Side, quantity: int, price: real)
      requires Valid() && quantity > 0
      modifies this`positions, this`history
      ensures Valid()
      ensures var lot := Lot(Signed(side, quantity), price);
        && history == old(history) + [BrokerFill(symbol, lot)]
        && symbol in positions.entries
        && positions == old(positions).Put(symbol, positions.entries[symbol])
        && Settles(old(Held(positions, symbol)), lot, positions.entries[symbol].Holding())
    {
      ghost var positions0 := positions;
      assert ConsistentAt(positions, history, symbol);
      if symbol !in positions.entries {
        positions := positions.Put(symbol, PaperPosition(symbol, 0, 0.0, 0.0));
      }
      var pos := Amend(positions.entries[symbol], side, quantity, price);
      positions := positions.Put(symbol, pos);

      ghost var f := BrokerFill(symbol, Lot(Signed(side, quantity), price));
      assert positions == positions0.Put(symbol, pos);
      positions0.PutKeepsOrder(symbol, pos);
      SettledHolding(Held(positions0, symbol), f.lot, pos.Holding());
      FillKeepsConsistency(positions0, history, f, pos);
      history := history + [f];
    }

    /** Every order of that id reads CANCELLED afterwards; positions are not undone. */
    method CancelOrder(id: string)
      requires Valid()
      modifies this`orders
      ensures Valid() && |orders| == |old(orders)|
      ensures forall i :: 0 <= i < |orders| ==>
        orders[i] == if old(orders)[i].id == id then old(orders)[i].(status := "CANCELLED") else old(orders)[i]
    {
      var i := 0;
      while i < |orders|
        invariant 0 <= i <= |orders| == |old(orders)|
        invariant forall j :: 0 <= j < |orders| ==>
          orders[j] == if j < i && old(orders)[j].id == id then old(orders)[j].(status := "CANCELLED") else old(orders)[j]
      {
        if orders[i].id == id {
          orders := orders[i := orders[i].(status := "CANCELLED")];
        }
        i := i + 1;
      }
    }

    /** The net positions in the order in which their symbols first traded, flat ones included. */
    function GetPositions(): seq<PaperPosition>
      requires Valid()
      reads this
    {
      seq(|positions.order|,
          i requires 0 <= i < |positions.order| && positions.Valid() reads this => positions.entries[positions.order[i]])
    }
  }

  /** A paper order is bought, filled and then cancelled: it reads CANCELLED, and the unit bought is still held. */
  method CancelAfterFill() returns (status: string, quantity: int)
    ensures status == "CANCELLED" && quantity == 1
  {
    var broker := new PaperBrokerClient();
    broker.SetLtp("X", 100.0);
    var r := broker.PlaceOrder("1", "X", BUY, 1, MARKET, 0.0);
    broker.CancelOrder("1");
    status, quantity := broker.orders[0].status, broker.positions.entries["X"].quantity;
  }
}
