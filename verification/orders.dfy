/** The backtest order book (backtest/order.py): simulated market orders kept by sequential id. */
module Orders {
  import opened Events

  /** `profit_pip(instrument, open_price, price, side)`: external, the profit of a move in pips. */
  type ProfitPipFn = (string, Price, Price, Side) -> real

  /** A take-profit or stop-loss argument as the caller passes it: absent (`None`), or a number
      with the text `str()` gives of it. */
  datatype Level = NoLevel | Level(text: string, amount: real)

  /** `calculate_price(open_price, side, level, instrument)`: external, the absolute price a pip
      offset stands for. */
  type CalculatePriceFn = (Price, Side, Level, string) -> real

  /** The text `str()` gives of a level; `str(None)` is "None". */
  function TextOf(l: Level): string
  {
    match l
    case NoLevel => "None"
    case Level(text, _) => text
  }

  /** A level is read as a pip offset exactly when its text holds no '.'. */
  predicate IsPipOffset(l: Level)
  {
    '.' !in TextOf(l)
  }

  /** The stored take-profit or stop-loss: converted from pips on `side`, or kept as given. */
  function ResolveLevel(l: Level, openPrice: Price, side: Side, instrument: string, calculatePrice: CalculatePriceFn): (r: real)
    ensures IsPipOffset(l) ==> r == calculatePrice(openPrice, side, l, instrument)
    ensures !IsPipOffset(l) ==> l.Level? && r == l.amount
  {
    if IsPipOffset(l) then calculatePrice(openPrice, side, l, instrument) else l.amount
  }

  /** An absent level is always passed on to the conversion. */
  lemma NoLevelIsPips()
    ensures IsPipOffset(NoLevel)
  {
    assert TextOf(NoLevel) == ['N', 'o', 'n', 'e'];
  }

  /** `BacktestOrder`. Prices are exact decimals; `None` is `Option.None`. */
  class BacktestOrder {
    const orderId: nat
    const instrument: string
    const openTime: Time
    const side: Side
    const lots: real
    const openPrice: Price
    const takeProfit: real
    const stopLoss: real
    var currentPrice: Price
    var closePrice: Option<Price>
    var closeTime: Option<Time>
    var maxProfit: real
    var minProfit: real
    var profitTime: int

    constructor (orderId: nat, instrument: string, openTime: Time, side: Side, lots: real,
                 openPrice: Price, takeProfit: real, stopLoss: real)
      ensures this.orderId == orderId && this.instrument == instrument && this.openTime == openTime
      ensures this.side == side && this.lots == lots && this.openPrice == openPrice
      ensures this.takeProfit == takeProfit && this.stopLoss == stopLoss
      ensures currentPrice == openPrice && closePrice == None && closeTime == None
      ensures maxProfit == 0.0 && minProfit == 0.0 && profitTime == 0
    {
      this.orderId := orderId;
      this.instrument := instrument;
      this.openTime := openTime;
      this.side := side;
      this.lots := lots;
      this.openPrice := openPrice;
      this.takeProfit := takeProfit;
      this.stopLoss := stopLoss;
      currentPrice := openPrice;
      closePrice := None;
      closeTime := None;
      maxProfit := 0.0;
      minProfit := 0.0;
      profitTime := 0;
    }

    /** `is_closed`: `bool(close_price)`, so a close price of zero reads as still open. */
    predicate IsClosed()
      reads this
    {
      closePrice.Some? && closePrice.value != 0.0
    }

    /** `pips`: the profit of the move to the close price when closed, else to the current price. */
    function Pips(profitPip: ProfitPipFn): (r: real)
      reads this
      ensures IsClosed() ==> r == profitPip(instrument, openPrice, closePrice.value, side)
      ensures !IsClosed() ==> r == profitPip(instrument, openPrice, currentPrice, side)
    {
      if closePrice.Some? && closePrice.value != 0.0 then profitPip(instrument, openPrice, closePrice.value, side)
      else profitPip(instrument, openPrice, currentPrice, side)
    }

    /** `profit`: `None` while open, `pips * lots * 10` once closed. */
    function Profit(profitPip: ProfitPipFn): (r: Option<real>)
      reads this
      ensures r.Some? <==> IsClosed()
      ensures r.Some? ==> r.value == Pips(profitPip) * lots * 10.0
    {
      if IsClosed() then Some(Pips(profitPip) * lots * 10.0) else None
    }

    /** `update_price`: only the current price changes. */
    method UpdatePrice(newPrice: Price)
      modifies this`currentPrice
      ensures currentPrice == newPrice
    {
      currentPrice := newPrice;
    }
  }

  /** A freshly built order is open, has no profit yet, and its pips are those of a move from
      the open price to itself (zero for any `profit_pip` that gives zero on no move). */
  lemma FreshOrderFigures(o: BacktestOrder, profitPip: ProfitPipFn)
    requires o.currentPrice == o.openPrice && o.closePrice == None
    ensures !o.IsClosed() && o.Profit(profitPip) == None
    ensures o.Pips(profitPip) == profitPip(o.instrument, o.openPrice, o.openPrice, o.side)
    ensures profitPip(o.instrument, o.openPrice, o.openPrice, o.side) == 0.0 ==> o.Pips(profitPip) == 0.0
  {
  }

  /** The market-order part of the account (`BacktestOrderMixin`). */
  class BacktestAccount {
    var orderSequence: nat
    var orders: map<int, BacktestOrder>

    /** Every stored order sits under its own id, and ids are 1 .. the sequence value. */
    ghost predicate Valid()
      reads this
    {
      forall id :: id in orders ==> 1 <= id <= orderSequence && orders[id].orderId == id
    }

    constructor ()
      ensures Valid() && orderSequence == 0 && orders == map[]
    {
      orderSequence := 0;
      orders := map[];
    }

    /** `_generate_order_id`: the previous sequence value plus one. */
    method GenerateOrderId() returns (id: nat)
      requires Valid()
      modifies this`orderSequence
      ensures Valid()
      ensures id == old(orderSequence) + 1 && orderSequence == id
      ensures id !in orders
    {
      orderSequence := orderSequence + 1;
      id := orderSequence;
    }

    /** `market_order`: fill at the ask for a buy and at the bid for a sell, resolve take-profit on
        the order's side and stop-loss on the reversed side, and store the order under a new id. */
    method MarketOrder(instrument: string, side: Side, lots: real, takeProfit: Level, stopLoss: Level,
                       tick: Event, calculatePrice: CalculatePriceFn) returns (order: BacktestOrder)
      requires Valid() && tick.TickPrice?
      modifies this
      ensures Valid() && fresh(order)
      ensures orderSequence == old(orderSequence) + 1 && order.orderId == orderSequence
      ensures old(orderSequence) + 1 !in old(orders)
      ensures orders == old(orders)[order.orderId := order]
      ensures order.instrument == instrument && order.side == side && order.lots == lots
      ensures order.openTime == tick.time
      ensures order.openPrice == (if side == Buy then tick.ask else tick.bid)
      ensures order.takeProfit == ResolveLevel(takeProfit, order.openPrice, side, instrument, calculatePrice)
      ensures order.stopLoss == ResolveLevel(stopLoss, order.openPrice, Reverse(side), instrument, calculatePrice)
      ensures order.currentPrice == order.openPrice && order.closePrice == None
    {
      var orderId := GenerateOrderId();
      var openTime := tick.time;
      var openPrice := if side == Buy then tick.ask else tick.bid;
      var tp: real, sl: real;
      if '.' !in TextOf(takeProfit) {
        tp := calculatePrice(openPrice, side, takeProfit, instrument);
      } else {
        tp := takeProfit.amount;
      }
      if '.' !in TextOf(stopLoss) {
        sl := calculatePrice(openPrice, Reverse(side), stopLoss, instrument);
      } else {
        sl := stopLoss.amount;
      }
      order := new BacktestOrder(orderId, instrument, openTime, side, lots, openPrice, tp, sl);
      orders := orders[orderId := order];
    }

    /** `get_order`: the order stored under `orderId`, if any. */
    function GetOrder(orderId: int): (r: Option<BacktestOrder>)
      reads this
      ensures r.Some? <==> orderId in orders
      ensures r.Some? ==> r.value == orders[orderId]
    {
      if orderId in orders then Some(orders[orderId]) else None
    }

    /** `list_pending_order`: market orders fill at once, so nothing is ever pending. */
    function ListPendingOrder(): (r: map<int, BacktestOrder>)
      ensures r == map[]
    {
      map[]
    }
  }
}
