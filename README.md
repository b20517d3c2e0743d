# Market makers, modelled in Dafny

This project models the two market makers of the repository and proves
their bookkeeping.

- **`AvellanedaStoikov`** (`avellaneda_stoikov.dfy`) models the
  Avellaneda–Stoikov simulator of `src/marketmaker.py`. At each step of a
  price path the maker does four things:
  - it computes a reserve price, which is the price skewed by inventory
    times gamma * sigma^2 times the remaining time;
  - it quotes an ask and a bid half a constant spread either side of the
    reserve price;
  - it decides each side's fill by comparing a uniform draw with the
    execution probability 1 - exp(-lambda * dt), where
    lambda = A * exp(-k * delta);
  - it writes the next inventory, cash and PnL into arrays.

  The class `MarketMaker` keeps the constructor's constants (`M`, `A`);
  `Transition` computes the intensities from the stored `A`.
  Its `Run` fills fresh arrays in a loop. The loop body is the method
  `Advance`, which is built from `QuoteStep` (lines 87-93 of the source)
  and `Transition` (lines 95-119). `Run` is proved against the recursive
  specification `BookAt` / `PnlAt`, which gives the inventory and cash at
  step `i`. The lemmas prove the properties of the run: constant spread,
  positive spread, reserve skew, probability bounds, quote distances,
  exact accounting, whole and bounded inventory, PnL attribution and the
  no-fill baseline.
- **`SimpleMarketMaker`** (`simple_market_maker.dfy`) models the
  inventory-capped maker of `src/main.py`. It is a class whose methods
  `UpdatePrices` and `ExecuteTrade` change its fields. Each method is
  proved against the pure functions `Refresh` and `Trade`. The class
  invariant `Valid()` keeps the inventory within +/- `maxInventory` and the
  quotes one spread apart.
- **`Arithmetic`** (`arithmetic.dfy`) holds four small arithmetic facts
  that both modules use.

PnL at step `i + 1` is the book of step `i + 1` marked at the price of
step `i` (src/marketmaker.py:120), not at `s[i + 1]`. `PnlAt` and
`PnlIncrement` follow that.

## Model

| member | source | states |
|---|---|---|
| AvellanedaStoikov.IntensityScale | src/marketmaker.py:46-47 | the intensity scale A = 1 / dt / exp(k * M / 2) is positive |
| AvellanedaStoikov.MarketMaker.constructor | src/marketmaker.py:34-47 | the maker keeps the path, k and gamma; M is 1 and A is the positive intensity scale |
| AvellanedaStoikov.Quotes | src/marketmaker.py:89-93 | the ask minus the bid is the spread (2 / gamma) * ln(1 + gamma / k), and the quotes lie symmetrically about the reserve price |
| AvellanedaStoikov.ExecProbability | src/marketmaker.py:103-107 | with a positive exponential, the execution probability is below 1 for every quote distance |
| AvellanedaStoikov.ExecProbabilityBounds | src/marketmaker.py:103-107 | with an exponential that is positive and at most 1 at and below 0, the execution probability lies in [0, 1) for every quote distance |
| AvellanedaStoikov.MarketMaker.QuoteStep | src/marketmaker.py:87-93 | the computed reserve price is s[i] - q * gamma * sigma^2 * (T - dt * i), and the quotes are half a spread either side of it |
| AvellanedaStoikov.MarketMaker.Transition | src/marketmaker.py:95-119 | the deltas, the intensities A * exp(-k * delta) from the stored A, the execution probabilities and the fill flags give exactly the next book of the specification step |
| AvellanedaStoikov.MarketMaker.Advance | src/marketmaker.py:85-120 | one loop pass records step i's reserve price and quotes, and step i + 1's inventory, cash and PnL, as the specification gives them |
| AvellanedaStoikov.MarketMaker.Run | src/marketmaker.py:64-122 | the arrays have length n, inventory and PnL start at 0, every entry equals the specified run, and at every step ask - bid is the spread, centred on the reserve price; with a logarithm positive above 1, every ask lies above its bid |
| AvellanedaStoikov.InventoryRiskPositive | src/marketmaker.py:87-88 | with non-zero volatility, gamma * sigma^2 * (T - dt * i) is positive at every step |
| AvellanedaStoikov.ReserveSkew | src/marketmaker.py:87-88 | the reserve price equals the price at zero inventory, is below it when long and above it when short |
| AvellanedaStoikov.SpreadPositive | src/marketmaker.py:89-93 | with a logarithm positive above 1, the spread is positive and the ask lies above the bid |
| AvellanedaStoikov.QuoteDistances | src/marketmaker.py:100-101 | delta_a + delta_b equals the spread, and each is half of it at zero inventory |
| AvellanedaStoikov.TransitionAccounting | src/marketmaker.py:110-119 | inventory moves by -1, 0 or +1, as bid fill minus ask fill; cash moves by exactly the ask received and the bid paid; a double fill leaves inventory unchanged and earns the spread |
| AvellanedaStoikov.InventoryWithinSteps | src/marketmaker.py:110-118 | after i steps the inventory is a whole number between -i and i |
| AvellanedaStoikov.FillGain | src/marketmaker.py:118-120 | the book after a step's fills, marked at the new price, gains the inventory's revaluation plus each filled quote's distance from that price |
| AvellanedaStoikov.PnlIncrement | src/marketmaker.py:117-120 | PnL changes from step i to i + 1 by the inventory's revaluation from s[i-1] to s[i], plus the distance of each filled quote from s[i] |
| AvellanedaStoikov.NoFillsStayFlat | src/marketmaker.py:110-120 | without fills before step i, inventory, cash and PnL are 0 there, and the reserve price is the price |
| AvellanedaStoikov.HighDrawsNeverTrade | src/marketmaker.py:106-115 | draws of 1 or more never fill, so the run stays flat at every step |
| SimpleMarketMaker.Refresh | src/main.py:17-25 | refreshed quotes are one spread apart and centred on the inventory-skewed theoretical price |
| SimpleMarketMaker.Trade | src/main.py:28-37 | at most one unit trades; a buy happens exactly when the price is at or below the bid under the cap, a sell exactly when not buying and the price is at or above the ask above the floor; a buy pays the bid, a sell receives the ask; the cap is kept; nothing happens strictly inside the quotes |
| SimpleMarketMaker.MarketMaker.constructor | src/main.py:5-13 | the defaults are spread 1, update interval 4 and cap 100; the maker starts flat, with no quotes and at step 0 |
| SimpleMarketMaker.MarketMaker.UpdatePrices | src/main.py:15-26 | the step counter always advances by 1; the quotes are refreshed exactly on re-quoting steps and kept otherwise; holdings are untouched; the invariant is kept |
| SimpleMarketMaker.MarketMaker.ExecuteTrade | src/main.py:28-37 | the holdings move as `Trade` says at the current quotes; quotes and step are untouched; the inventory cap is kept; the PnL at the trade's price never rises, falling by the bid's excess over the price on a buy and by the price's excess over the ask on a sell |
| SimpleMarketMaker.MarketMaker.Pnl | src/main.py:39-41 | the PnL is the cash plus the inventory marked to market at the given price; under the invariant and at a non-negative price it lies within `maxInventory` units' worth of the cash |
| SimpleMarketMaker.RefreshSkew | src/main.py:17-25 | a long maker quotes both sides lower than a flat one, a short maker both sides higher, and a flat maker symmetrically around the price |
| SimpleMarketMaker.RefreshBrackets | src/main.py:17-25 | within the cap, refreshed quotes bracket the market price, and strictly so inside the cap |
| SimpleMarketMaker.RefreshThenTrade | src/main.py:15-37 | trading at the price just quoted sells at +cap, buys at -cap, and does nothing inside the cap |
| SimpleMarketMaker.TradeMarkedAtTrigger | src/main.py:28-41 | a trade never raises the PnL marked at its trigger price; a buy loses the bid's excess over the price, a sell the price's excess over the ask |
| SimpleMarketMaker.RequoteCadence | src/main.py:22-26 | after a re-quoting step, the next updateInterval - 1 steps keep the quotes, and the step updateInterval later re-quotes |

## Left out

- src/brownian.py is not part of this model: it generates the price path from normal draws and trigonometric and square-root numerics. The path is an input (`Path`).
- src/database.py (SQLite I/O) and src/plot.py (plotting) are not part of this model.
- The `__main__` driver of src/main.py (lines 44-52) is not modelled. It only wires a price series through `update_prices`, `execute_trade` and `pnl` and prints the result.
- The time grid `t` (the `np.linspace` on src/marketmaker.py:43) is not modelled. So `Run` returns the five computed arrays, and neither `t` nor the input price path.
- `np.exp` and `np.log` are parameters of `Market` (`exp`, `ln`). Properties that need them hold only under stated assumptions: `ExpPositive` for `ExecProbability` and `HighDrawsNeverTrade`, `ExpAtMostOneBelowZero` as well for `ExecProbabilityBounds`, `LogPositiveAboveOne` for `SpreadPositive` and for the ask-above-bid clause of `Run`.
- AvellanedaStoikov.ExecProbability: its own contract gives only the upper bound below 1. Without `ExpAtMostOneBelowZero` an arbitrary `exp` parameter can make it negative, so the lower bound 0 is stated separately, in `ExecProbabilityBounds`.
- The source draws from `random()`, whose values lie in [0, 1). The draws are not constrained to that range, so `HighDrawsNeverTrade` covers draws of 1 or more: a generator replaced by one that never reports a hit.
- The two `random()` calls per step (src/marketmaker.py:112-115) are inputs: `Draws.ask[i]` and `Draws.bid[i]`, in the order the source draws them.
- Floating-point rounding is not modelled: prices, cash and PnL are exact reals, so the accounting identities hold exactly.
- In `AvellanedaStoikov` the inventory is a real, as in the source's float array. `InventoryWithinSteps` proves that it is always whole.
- `AvellanedaStoikov.WellFormed` is a chosen precondition, stronger than what the source needs in order not to fail. The source fails only with n = 0 (line 69 indexes position 0) or too few prices. A zero dt, gamma, k or exp(k * M / 2) is a divisor on lines 47 and 89, so it raises on Python floats or gives non-finite values on numpy floats. The model asks for n >= 1, a price for every step, positive dt, gamma and k, and a positive exp(k * M / 2). It does not cover negative parameters, for which the source runs but the quotes lose their meaning. The source checks none of these.
- SimpleMarketMaker.MarketMaker.constructor: requires `updateInterval > 0` and `maxInventory > 0`. The source divides by `max_inventory` and takes the remainder by `update_interval`, so 0 fails there. The model does not cover negative values.
- SimpleMarketMaker.MarketMaker.ExecuteTrade: requires quotes, that is at least one `UpdatePrices` before. Before that the source compares the price with `None` and raises a `TypeError`.
- In `SimpleMarketMaker` the spread is a real. The source's default `spread=1` is an integer, which the divisions turn into floats.
