/**
 * The decision logic of `TestStrategy`: one pending-order slot, the entry
 * price and commission of the last completed buy, the remembered order
 * size, and an append-only decision log. Broker cash, the crossover value
 * and whether a position is held are inputs supplied bar by bar.
 */
module Strategy {
  import opened Wrappers

  /** An ISO calendar date, as `date.isoformat()` writes it. */
  type Date = string

  datatype Side = Buy | Sell

  /** An order handed to the broker and kept in the pending slot. */
  datatype Order = Order(side: Side, size: int)

  /** The statuses a broker reports through `notify_order`. */
  datatype Status = Created | Submitted | Accepted | Partial | Completed
                  | Canceled | Expired | Margin | Rejected
  {
    /** Still with the broker: `notify_order` returns at once. */
    predicate InFlight() { Submitted? || Accepted? }
    /** The statuses logged as canceled, margin or rejected. */
    predicate Failed() { Canceled? || Margin? || Rejected? }
  }

  /** What the broker reports as executed for an order. */
  datatype Execution = Execution(size: real, price: real, value: real, comm: real)

  /** The decision log's messages; each is one formatted text in the source. */
  datatype Message =
    | BuyCreate(close: real)
    | SellCreate(close: real)
    | BuyExecuted(executed: Execution)
    | SellExecuted(executed: Execution)
    | OrderCanceledMarginRejected
    | OperationProfit(gross: real, net: real)

  /** One row of the log frame: its `Date` and `Log` columns. */
  datatype LogRow = LogRow(date: Date, message: Message)

  /** Why `next` raised instead of returning. */
  datatype Fault =
    | ZeroClose        // `cash / close` with close 0 (raises)
    | EntryPriceUnset  // in position while `buyprice` is still None (raises)
    | SizeUnset        // selling before any buy has set `self.size` (raises)

  /**
   * Order size of a buy: `floor(cash / close)`. When the close is positive
   * it is the largest whole number of shares the cash pays for, before
   * commission.
   */
  function BuySize(cash: real, close: real): (n: int)
    requires close != 0.0
    ensures n as real <= cash / close < n as real + 1.0
    ensures close > 0.0 ==> n as real * close <= cash < (n as real + 1.0) * close
    ensures close > 0.0 && cash >= 0.0 ==> n >= 0
  {
    var q := cash / close;
    var n := q.Floor;
    if close > 0.0 then
      var m := n as real + 1.0;
      assert n as real <= q < m;
      assert cash == q * close;
      assert n as real * close <= q * close;
      assert m * close - q * close == (m - q) * close;
      assert (m - q) * close > 0.0;
      assert m * close > cash;
      n
    else
      n
  }

  /** The close at which a position bought at `buyPrice` is sold: `buyPrice * (1 + percent/100)`. */
  function TakeProfitPrice(buyPrice: real, percent: int): (t: real)
    ensures t - buyPrice == buyPrice * (percent as real) / 100.0
    ensures buyPrice > 0.0 ==> (t > buyPrice <==> percent > 0)
  {
    buyPrice * (1.0 + percent as real / 100.0)
  }

  class TestStrategy {
    /** The pending-order slot (`self.order`). */
    var order: Option<Order>
    /** Price and commission of the last completed buy. */
    var buyPrice: Option<real>
    var buyComm: Option<real>
    /** Size of the last buy created (`self.size`); unset until then. */
    var size: Option<int>
    /** Bar count at the last completed order (`self.bar_executed`). */
    var barExecuted: Option<nat>
    /** The decision log, oldest row first. */
    var logs: seq<LogRow>
    /** Take-profit percentage, read once from the page's slider value. */
    const takeProfitPercent: int

    /**
     * Entry price and entry commission are recorded together, and only by
     * a completed buy, which also records its bar count.
     */
    predicate Valid()
      reads this
    {
      && (buyPrice.Some? <==> buyComm.Some?)
      && (buyPrice.Some? ==> barExecuted.Some?)
    }

    constructor (takeProfitPercent: int)
      ensures Valid()
      ensures this.takeProfitPercent == takeProfitPercent
      ensures order == None && buyPrice == None && buyComm == None
      ensures size == None && barExecuted == None && logs == []
    {
      this.takeProfitPercent := takeProfitPercent;
      order, buyPrice, buyComm := None, None, None;
      size, barExecuted, logs := None, None, [];
    }

    /** Appends exactly one row and keeps the earlier rows as they were. */
    method Log(date: Date, message: Message)
      modifies this`logs
      ensures logs == old(logs) + [LogRow(date, message)]
    {
      logs := logs + [LogRow(date, message)];
    }

    /**
     * The broker reports `status` for an order. In-flight statuses change
     * nothing. Every other status clears the pending slot; a completed buy
     * records its executed price and commission, a completed sell keeps
     * them, and canceled, margin and rejected orders add one log row.
     */
    method NotifyOrder(date: Date, bars: nat, status: Status, isBuy: bool, executed: Execution)
      requires Valid()
      modifies this
      ensures Valid() && size == old(size)
      ensures status.InFlight() ==>
        order == old(order) && buyPrice == old(buyPrice) && buyComm == old(buyComm)
        && barExecuted == old(barExecuted) && logs == old(logs)
      ensures !status.InFlight() ==> order == None
      ensures status.Completed? && isBuy ==>
        && buyPrice == Some(executed.price) && buyComm == Some(executed.comm)
        && barExecuted == Some(bars)
        && logs == old(logs) + [LogRow(date, BuyExecuted(executed))]
      ensures status.Completed? && !isBuy ==>
        && buyPrice == old(buyPrice) && buyComm == old(buyComm)
        && barExecuted == Some(bars)
        && logs == old(logs) + [LogRow(date, SellExecuted(executed))]
      ensures status.Failed() ==>
        && buyPrice == old(buyPrice) && buyComm == old(buyComm)
        && barExecuted == old(barExecuted)
        && logs == old(logs) + [LogRow(date, OrderCanceledMarginRejected)]
      ensures (status.Created? || status.Partial? || status.Expired?) ==>
        && buyPrice == old(buyPrice) && buyComm == old(buyComm)
        && barExecuted == old(barExecuted) && logs == old(logs)
    {
      if status.InFlight() {
        return;
      }
      if status.Completed? {
        if isBuy {
          Log(date, BuyExecuted(executed));
          buyPrice := Some(executed.price);
          buyComm := Some(executed.comm);
        } else {
          Log(date, SellExecuted(executed));
        }
        barExecuted := Some(bars);
      } else if status.Failed() {
        Log(date, OrderCanceledMarginRejected);
      }
      order := None;
    }

    /** A closed trade adds one profit row; an open one changes nothing. */
    method NotifyTrade(date: Date, isClosed: bool, pnl: real, pnlComm: real)
      modifies this`logs
      ensures logs == if isClosed then old(logs) + [LogRow(date, OperationProfit(pnl, pnlComm))]
                      else old(logs)
    {
      if !isClosed {
        return;
      }
      Log(date, OperationProfit(pnl, pnlComm));
    }

    /**
     * One bar. With an order pending nothing happens. While flat, a
     * negative crossover logs a buy and fills the slot with a buy of
     * `BuySize(cash, close)` shares, remembered in `size` (a size of 0 is
     * still ordered). While in position, a close at or above the
     * take-profit price logs a sell and fills the slot with a sell of the
     * remembered size. No other case creates an order. The entry price,
     * commission and bar count are never changed here.
     */
    method Next(date: Date, close: real, crossover: int, cash: real, inPosition: bool)
      returns (raised: Option<Fault>)
      requires Valid()
      modifies this
      ensures Valid()
      ensures buyPrice == old(buyPrice) && buyComm == old(buyComm) && barExecuted == old(barExecuted)
      ensures old(order).Some? ==>
        raised == None && order == old(order) && size == old(size) && logs == old(logs)
      ensures old(order).None? && !inPosition && crossover >= 0 ==>
        raised == None && order == None && size == old(size) && logs == old(logs)
      ensures old(order).None? && !inPosition && crossover < 0 ==>
        && logs == old(logs) + [LogRow(date, BuyCreate(close))]
        && (close == 0.0 ==> raised == Some(ZeroClose) && order == None && size == old(size))
        && (close != 0.0 ==> raised == None
                             && order == Some(Order(Buy, BuySize(cash, close)))
                             && size == Some(BuySize(cash, close)))
      ensures old(order).None? && inPosition && old(buyPrice).None? ==>
        raised == Some(EntryPriceUnset) && order == None && size == old(size) && logs == old(logs)
      ensures old(order).None? && inPosition && old(buyPrice).Some?
              && close < TakeProfitPrice(old(buyPrice).value, takeProfitPercent) ==>
        raised == None && order == None && size == old(size) && logs == old(logs)
      ensures old(order).None? && inPosition && old(buyPrice).Some?
              && close >= TakeProfitPrice(old(buyPrice).value, takeProfitPercent) ==>
        && logs == old(logs) + [LogRow(date, SellCreate(close))]
        && size == old(size)
        && (old(size).None? ==> raised == Some(SizeUnset) && order == None)
        && (old(size).Some? ==> raised == None && order == Some(Order(Sell, old(size).value)))
    {
      if order.Some? {
        return None;
      }
      if !inPosition {
        if crossover < 0 {
          Log(date, BuyCreate(close));
          if close == 0.0 {
            return Some(ZeroClose);
          }
          var n := BuySize(cash, close);
          size := Some(n);
          order := Some(Order(Buy, n));
        }
      } else {
        if buyPrice.None? {
          return Some(EntryPriceUnset);
        }
        if close >= TakeProfitPrice(buyPrice.value, takeProfitPercent) {
          Log(date, SellCreate(close));
          if size.None? {
            return Some(SizeUnset);
          }
          order := Some(Order(Sell, size.value));
        }
      }
      return None;
    }
  }

  /**
   * A buy at 100 with a 20% take-profit: a close of 119.99 creates no
   * order, a close of exactly 120 creates a sell of the bought size.
   */
  method TakeProfitBoundary()
  {
    var s := new TestStrategy(20);
    var r := s.Next("2024-01-02", 100.0, -1, 1000.0, false);
    assert r == None && s.order == Some(Order(Buy, 10)) && s.size == Some(10);
    s.NotifyOrder("2024-01-03", 2, Completed, true, Execution(10.0, 100.0, 1000.0, 5.0));
    assert s.order == None && s.buyPrice == Some(100.0);
    r := s.Next("2024-01-03", 119.99, 1, 0.0, true);
    assert r == None && s.order == None;
    r := s.Next("2024-01-04", 120.0, 0, 0.0, true);
    assert r == None && s.order == Some(Order(Sell, 10));
    assert |s.logs| == 3;
  }
}
