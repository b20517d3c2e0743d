/**
 * The inventory-capped market maker of src/main.py.
 *
 * The maker quotes a bid and an ask one spread apart, centred on a
 * theoretical price: the market price shifted down by half a spread times
 * the fraction of the inventory cap it holds. It re-quotes only every
 * `updateInterval` calls. A trade buys one unit at the bid when the market
 * price falls to the bid, or else sells one unit at the ask when the market
 * price rises to the ask, and never takes the inventory past
 * +/- `maxInventory`. PnL marks the inventory at a given price.
 *
 * Prices and cash are exact reals; the inventory is an integer number of
 * units.
 */
module SimpleMarketMaker {

  import opened Arithmetic

  datatype Option<T> = None | Some(value: T)

  /** The maker's holdings: units of stock and cash. */
  datatype Position = Position(inventory: int, cash: real)

  /** A bid and an ask. */
  datatype Quotes = Quotes(bid: real, ask: real)

  /**
   * The price the quotes are centred on: the market price less half a spread
   * scaled by inventory / maxInventory.
   */
  function TheoreticalPrice(marketPrice: real, inventory: int, maxInventory: int, spread: real): real
    requires maxInventory > 0
  {
    marketPrice - (inventory as real / maxInventory as real) * spread / 2.0
  }

  /** The quotes set at a refresh: half a spread either side of the theoretical price. */
  function Refresh(marketPrice: real, inventory: int, maxInventory: int, spread: real): (qt: Quotes)
    requires maxInventory > 0
    ensures qt.ask - qt.bid == spread
    ensures qt.ask - TheoreticalPrice(marketPrice, inventory, maxInventory, spread)
         == TheoreticalPrice(marketPrice, inventory, maxInventory, spread) - qt.bid
  {
    var theoretical := TheoreticalPrice(marketPrice, inventory, maxInventory, spread);
    Quotes(theoretical - spread / 2.0, theoretical + spread / 2.0)
  }

  /** Whether the call made at step `step` re-quotes: every `updateInterval` steps, starting with step 0. */
  predicate Requotes(step: nat, updateInterval: int)
    requires updateInterval > 0
  {
    step % updateInterval == 0
  }

  /** The market price has fallen to the bid and the maker may still buy. */
  predicate Buys(p: Position, qt: Quotes, marketPrice: real, maxInventory: int)
  {
    marketPrice <= qt.bid && p.inventory < maxInventory
  }

  /** The maker does not buy, the market price has risen to the ask and the maker may still sell. */
  predicate Sells(p: Position, qt: Quotes, marketPrice: real, maxInventory: int)
  {
    !Buys(p, qt, marketPrice, maxInventory) && marketPrice >= qt.ask && p.inventory > -maxInventory
  }

  /**
   * The position after one trade decision at the market price: a buy of one
   * unit at the bid, or else a sell of one unit at the ask, or nothing.
   */
  function Trade(p: Position, qt: Quotes, marketPrice: real, maxInventory: int): (p': Position)
    ensures -1 <= p'.inventory - p.inventory <= 1
    ensures p'.inventory == p.inventory + 1 <==> Buys(p, qt, marketPrice, maxInventory)
    ensures p'.inventory == p.inventory - 1 <==> Sells(p, qt, marketPrice, maxInventory)
    ensures p'.inventory == p.inventory + 1 ==> p'.cash == p.cash - qt.bid
    ensures p'.inventory == p.inventory - 1 ==> p'.cash == p.cash + qt.ask
    ensures p'.inventory == p.inventory ==> p' == p
    ensures -maxInventory <= p.inventory <= maxInventory ==> -maxInventory <= p'.inventory <= maxInventory
    ensures qt.bid < marketPrice < qt.ask ==> p' == p
  {
    if Buys(p, qt, marketPrice, maxInventory) then
      Position(p.inventory + 1, p.cash - qt.bid)
    else if Sells(p, qt, marketPrice, maxInventory) then
      Position(p.inventory - 1, p.cash + qt.ask)
    else
      p
  }

  /** The unrealised PnL of a position: its cash plus its inventory valued at `price`. */
  function MarkToMarket(p: Position, price: real): real
  {
    p.cash + price * p.inventory as real
  }

  /**
   * The maker's state. The constants are the constructor's arguments; the
   * quotes are absent until the first `UpdatePrices`.
   */
  class MarketMaker {
    const spread: real
    const updateInterval: int
    const maxInventory: int
    var inventory: int
    var cash: real
    var bidPrice: Option<real>
    var askPrice: Option<real>
    var currentStep: nat

    /**
     * The inventory stays within +/- maxInventory; quotes exist exactly once
     * a step has been taken, and then lie one spread apart.
     */
    ghost predicate Valid()
      reads this
    {
      && updateInterval > 0
      && maxInventory > 0
      && -maxInventory <= inventory <= maxInventory
      && (bidPrice.Some? <==> currentStep > 0)
      && (askPrice.Some? <==> currentStep > 0)
      && (currentStep > 0 ==> askPrice.value - bidPrice.value == spread)
    }

    /** The holdings as a `Position`. */
    function Holdings(): Position
      reads this
    {
      Position(inventory, cash)
    }

    constructor(spread: real := 1.0, updateInterval: int := 4, maxInventory: int := 100)
      requires updateInterval > 0 && maxInventory > 0
      ensures Valid()
      ensures this.spread == spread && this.updateInterval == updateInterval && this.maxInventory == maxInventory
      ensures Holdings() == Position(0, 0.0)
      ensures bidPrice == None && askPrice == None && currentStep == 0
    {
      this.spread := spread;
      this.updateInterval := updateInterval;
      this.maxInventory := maxInventory;
      inventory := 0;
      cash := 0.0;
      bidPrice := None;
      askPrice := None;
      currentStep := 0;
    }

    /**
     * Re-quotes around the inventory-skewed theoretical price when the step
     * counter is a multiple of the update interval, and advances the counter.
     */
    method UpdatePrices(marketPrice: real)
      requires Valid()
      modifies this
      ensures Valid()
      ensures currentStep == old(currentStep) + 1
      ensures Holdings() == old(Holdings())
      ensures Requotes(old(currentStep), updateInterval) ==>
        bidPrice == Some(Refresh(marketPrice, inventory, maxInventory, spread).bid)
        && askPrice == Some(Refresh(marketPrice, inventory, maxInventory, spread).ask)
      ensures !Requotes(old(currentStep), updateInterval) ==>
        bidPrice == old(bidPrice) && askPrice == old(askPrice)
    {
      var inventoryFactor := inventory as real / maxInventory as real;
      var shift := inventoryFactor * spread / 2.0;
      var theoreticalPrice := marketPrice - shift;
      assert theoreticalPrice == TheoreticalPrice(marketPrice, inventory, maxInventory, spread);
      if currentStep % updateInterval == 0 {
        bidPrice := Some(theoreticalPrice - spread / 2.0);
        askPrice := Some(theoreticalPrice + spread / 2.0);
      }
      currentStep := currentStep + 1;
    }

    /**
     * Buys one unit at the bid when the market price is at or below it and
     * the cap allows, or else sells one unit at the ask when the market price
     * is at or above it and the cap allows. Needs quotes, that is, at least
     * one `UpdatePrices` before.
     */
    method ExecuteTrade(marketPrice: real)
      requires Valid() && currentStep > 0
      modifies this
      ensures Valid()
      ensures bidPrice == old(bidPrice) && askPrice == old(askPrice) && currentStep == old(currentStep)
      ensures Holdings() == Trade(old(Holdings()), Quotes(bidPrice.value, askPrice.value), marketPrice, maxInventory)
      ensures Buys(old(Holdings()), Quotes(bidPrice.value, askPrice.value), marketPrice, maxInventory) ==>
        Pnl(marketPrice) == old(Pnl(marketPrice)) - (bidPrice.value - marketPrice)
      ensures Sells(old(Holdings()), Quotes(bidPrice.value, askPrice.value), marketPrice, maxInventory) ==>
        Pnl(marketPrice) == old(Pnl(marketPrice)) - (marketPrice - askPrice.value)
      ensures Pnl(marketPrice) <= old(Pnl(marketPrice))
    {
      ghost var before := Holdings();
      if marketPrice <= bidPrice.value && inventory < maxInventory {
        inventory := inventory + 1;
        cash := cash - bidPrice.value;
      } else if marketPrice >= askPrice.value && inventory > -maxInventory {
        inventory := inventory - 1;
        cash := cash + askPrice.value;
      }
      TradeMarkedAtTrigger(before, Quotes(bidPrice.value, askPrice.value), marketPrice, maxInventory);
    }

    /**
     * The current unrealised PnL at `price`. As the inventory stays within the
     * cap, it lies within `maxInventory` units' worth of the cash at any
     * non-negative price.
     */
    function Pnl(price: real): (v: real)
      reads this
      ensures v == MarkToMarket(Holdings(), price)
      ensures Valid() && price >= 0.0 ==>
        cash - maxInventory as real * price <= v <= cash + maxInventory as real * price
    {
      ScaledWithin(inventory, maxInventory, price);
      cash + price * inventory as real
    }
  }

  // ---------------------------------------------------------------------
  // Properties
  // ---------------------------------------------------------------------

  /**
   * Inventory skews both quotes the same way: a long maker quotes both sides
   * lower than a flat one would, a short maker both sides higher, and a flat
   * maker quotes symmetrically around the market price.
   */
  lemma RefreshSkew(marketPrice: real, inventory: int, maxInventory: int, spread: real)
    requires maxInventory > 0 && spread > 0.0
    ensures var qt := Refresh(marketPrice, inventory, maxInventory, spread);
      && (inventory > 0 ==> qt.bid < marketPrice - spread / 2.0 && qt.ask < marketPrice + spread / 2.0)
      && (inventory < 0 ==> qt.bid > marketPrice - spread / 2.0 && qt.ask > marketPrice + spread / 2.0)
      && (inventory == 0 ==> qt.bid == marketPrice - spread / 2.0 && qt.ask == marketPrice + spread / 2.0)
  {
  }

  /**
   * Within the cap, the quotes set at a refresh bracket the market price they
   * were computed from; strictly so below the cap.
   */
  lemma RefreshBrackets(marketPrice: real, inventory: int, maxInventory: int, spread: real)
    requires maxInventory > 0 && spread > 0.0 && -maxInventory <= inventory <= maxInventory
    ensures var qt := Refresh(marketPrice, inventory, maxInventory, spread);
      qt.bid <= marketPrice <= qt.ask
    ensures var qt := Refresh(marketPrice, inventory, maxInventory, spread);
      -maxInventory < inventory < maxInventory ==> qt.bid < marketPrice < qt.ask
  {
  }

  /**
   * A trade at the price the quotes were just refreshed at happens only at
   * the cap: a maker at +maxInventory sells, one at -maxInventory buys, and
   * one strictly inside the cap does nothing.
   */
  lemma RefreshThenTrade(p: Position, marketPrice: real, maxInventory: int, spread: real)
    requires maxInventory > 0 && spread > 0.0 && -maxInventory <= p.inventory <= maxInventory
    ensures var p' := Trade(p, Refresh(marketPrice, p.inventory, maxInventory, spread), marketPrice, maxInventory);
      && (p.inventory == maxInventory ==> p'.inventory == p.inventory - 1)
      && (p.inventory == -maxInventory ==> p'.inventory == p.inventory + 1)
      && (-maxInventory < p.inventory < maxInventory ==> p' == p)
  {
    var qt := Refresh(marketPrice, p.inventory, maxInventory, spread);
    RefreshBrackets(marketPrice, p.inventory, maxInventory, spread);
    if p.inventory == maxInventory {
      assert p.inventory as real / maxInventory as real == 1.0;
      assert qt.ask == marketPrice;
    } else if p.inventory == -maxInventory {
      assert p.inventory as real / maxInventory as real == -1.0;
      assert qt.bid == marketPrice;
    }
  }

  /**
   * A trade never raises the PnL marked at the price that triggered it: a buy
   * pays the bid for a unit worth the (lower or equal) market price, a sell
   * receives the ask for a unit worth the (higher or equal) market price.
   */
  lemma TradeMarkedAtTrigger(p: Position, qt: Quotes, marketPrice: real, maxInventory: int)
    ensures var p' := Trade(p, qt, marketPrice, maxInventory);
      && (Buys(p, qt, marketPrice, maxInventory) ==>
            MarkToMarket(p', marketPrice) == MarkToMarket(p, marketPrice) - (qt.bid - marketPrice))
      && (Sells(p, qt, marketPrice, maxInventory) ==>
            MarkToMarket(p', marketPrice) == MarkToMarket(p, marketPrice) - (marketPrice - qt.ask))
      && MarkToMarket(p', marketPrice) <= MarkToMarket(p, marketPrice)
  {
  }

  /**
   * Re-quoting runs on a fixed cadence: a re-quoting step is followed by
   * exactly `updateInterval - 1` steps that keep the quotes, and the next
   * re-quote comes `updateInterval` steps later.
   */
  lemma RequoteCadence(step: nat, updateInterval: int)
    requires updateInterval > 0 && Requotes(step, updateInterval)
    ensures Requotes(step + updateInterval, updateInterval)
    ensures forall j: nat :: step < j < step + updateInterval ==> !Requotes(j, updateInterval)
  {
    var c := step / updateInterval;
    assert step == c * updateInterval + step % updateInterval;
    ModOf(c + 1, updateInterval, 0);
    assert step + updateInterval == (c + 1) * updateInterval + 0;
    forall j: nat | step < j < step + updateInterval
      ensures !Requotes(j, updateInterval)
    {
      ModOf(c, updateInterval, j - step);
      assert j == c * updateInterval + (j - step);
    }
  }
}
