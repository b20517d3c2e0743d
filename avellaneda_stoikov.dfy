/**
 * The Avellaneda–Stoikov market maker of src/marketmaker.py.
 *
 * At every time step the maker computes a reserve price from the current
 * price, its inventory and the remaining trading time, quotes an ask and a bid
 * a constant half-spread either side of it, and (except at the last step)
 * decides independently whether each side was hit: a side fills when a
 * uniform draw falls below the execution probability 1 - exp(-lambda*dt),
 * where lambda = A*exp(-k*delta) decays with the quote's distance delta from
 * the price. Fills move inventory by one unit and cash by the quote price, and
 * PnL marks the inventory at the step's price.
 *
 * Prices, cash and PnL are exact reals. The exponential and the natural
 * logarithm are parameters of the model (any functions with the properties
 * stated where they are needed); the uniform draws are inputs, one per side
 * per transition.
 */
module AvellanedaStoikov {

  import opened Arithmetic

  /** A sampled price process: prices `s`, number of steps `n`, time increment `dt`, volatility `sigma`. */
  datatype Path = Path(s: seq<real>, n: nat, dt: real, sigma: real)

  /** The fixed normalisation constant of the arrival intensity. */
  const IntensityNorm: real := 1.0

  /**
   * Everything a run depends on apart from the random draws: the price path,
   * the market-impact parameter `k`, the risk-aversion parameter `gamma`, and
   * the exponential and logarithm the formulas call.
   */
  datatype Market = Market(bm: Path, k: real, gamma: real, exp: real -> real, ln: real -> real)

  /** The uniform draws that decide the fills: `ask[i]` and `bid[i]` are drawn at step `i`. */
  datatype Draws = Draws(ask: seq<real>, bid: seq<real>)

  /** Inventory and cash of the maker at one step (the source keeps both in float arrays). */
  datatype Book = Book(q: real, cash: real)

  /** Ask and bid quoted at one step. */
  datatype Quote = Quote(ask: real, bid: real)

  /**
   * What a run needs of its parameters: at least one step, a price for every
   * step, a positive time increment, positive gamma and k, and a positive
   * exp(k * M / 2) (the intensity scale divides by it).
   */
  ghost predicate WellFormed(m: Market)
  {
    && m.bm.n >= 1
    && |m.bm.s| >= m.bm.n
    && m.bm.dt > 0.0
    && m.gamma > 0.0
    && m.k > 0.0
    && m.exp(m.k * IntensityNorm / 2.0) > 0.0
  }

  /** The exponential is positive everywhere. */
  ghost predicate ExpPositive(exp: real -> real)
  {
    forall x :: exp(x) > 0.0
  }

  /** One ask draw and one bid draw for each of the n - 1 transitions. */
  ghost predicate Covers(m: Market, d: Draws)
  {
    |d.ask| >= m.bm.n - 1 && |d.bid| >= m.bm.n - 1
  }

  /** The exponential is at most 1 at and below 0. */
  ghost predicate ExpAtMostOneBelowZero(exp: real -> real)
  {
    forall x :: x <= 0.0 ==> exp(x) <= 1.0
  }

  /** The natural logarithm is positive above 1. */
  ghost predicate LogPositiveAboveOne(ln: real -> real)
  {
    forall x :: x > 1.0 ==> ln(x) > 0.0
  }

  /** The trading horizon T = n * dt. */
  function Horizon(m: Market): real
  {
    m.bm.n as real * m.bm.dt
  }

  /** The quoted spread (2 / gamma) * ln(1 + gamma / k); it depends on neither the step nor the inventory. */
  function Spread(m: Market): real
    requires m.gamma > 0.0 && m.k > 0.0
  {
    2.0 / m.gamma * m.ln(1.0 + m.gamma / m.k)
  }

  /** The intensity scale A = 1 / dt / exp(k * M / 2). */
  function IntensityScale(m: Market): (a: real)
    requires WellFormed(m)
    ensures a > 0.0
  {
    1.0 / m.bm.dt / m.exp(m.k * IntensityNorm / 2.0)
  }

  /** How far one unit of inventory moves the reserve price at step `i`: gamma * sigma^2 * (T - dt * i). */
  function InventoryRisk(m: Market, i: nat): real
  {
    m.gamma * (m.bm.sigma * m.bm.sigma) * (Horizon(m) - m.bm.dt * i as real)
  }

  /** The reserve price at step `i` with inventory `q`: s[i] - q * gamma * sigma^2 * (T - dt * i). */
  function Reserve(m: Market, i: nat, q: real): real
    requires WellFormed(m) && i < m.bm.n
  {
    m.bm.s[i] - q * InventoryRisk(m, i)
  }

  /** The quotes at step `i` with inventory `q`: half a spread either side of the reserve price. */
  function Quotes(m: Market, i: nat, q: real): (qt: Quote)
    requires WellFormed(m) && i < m.bm.n
    ensures qt.ask - qt.bid == Spread(m)
    ensures qt.ask - Reserve(m, i, q) == Reserve(m, i, q) - qt.bid
  {
    Quote(Reserve(m, i, q) + Spread(m) / 2.0, Reserve(m, i, q) - Spread(m) / 2.0)
  }

  /** Distance of the ask above the price at step `i`. */
  function AskDelta(m: Market, i: nat, q: real): real
    requires WellFormed(m) && i < m.bm.n
  {
    Quotes(m, i, q).ask - m.bm.s[i]
  }

  /** Distance of the bid below the price at step `i`. */
  function BidDelta(m: Market, i: nat, q: real): real
    requires WellFormed(m) && i < m.bm.n
  {
    m.bm.s[i] - Quotes(m, i, q).bid
  }

  /**
   * Probability that a quote at distance `delta` is hit within one step:
   * 1 - exp(-lambda * dt) with intensity lambda = A * exp(-k * delta). As the
   * exponential is positive, it is below 1 whatever the distance, so a draw
   * of 1 or more never fills.
   */
  function ExecProbability(m: Market, delta: real): (p: real)
    requires WellFormed(m)
    ensures ExpPositive(m.exp) ==> p < 1.0
  {
    HitProbability(m, Intensity(m, delta))
  }

  /** Probability 1 - exp(-lambda * dt) of at least one arrival within one step at intensity `lambda`. */
  function HitProbability(m: Market, lambda: real): real
  {
    1.0 - m.exp(-lambda * m.bm.dt)
  }

  /** The arrival intensity A * exp(-k * delta) of a quote at distance `delta`. */
  function Intensity(m: Market, delta: real): real
    requires WellFormed(m)
  {
    IntensityScale(m) * Decay(m, delta)
  }

  /** How the intensity decays with the distance `delta`: exp(-k * delta). */
  function Decay(m: Market, delta: real): real
  {
    m.exp(-m.k * delta)
  }

  /** The ask side at step `i` is hit when its draw falls below the ask's execution probability. */
  predicate AskFilled(m: Market, d: Draws, i: nat, q: real)
    requires WellFormed(m) && Covers(m, d) && i < m.bm.n - 1
  {
    d.ask[i] < ExecProbability(m, AskDelta(m, i, q))
  }

  /** The bid side at step `i` is hit when its draw falls below the bid's execution probability. */
  predicate BidFilled(m: Market, d: Draws, i: nat, q: real)
    requires WellFormed(m) && Covers(m, d) && i < m.bm.n - 1
  {
    d.bid[i] < ExecProbability(m, BidDelta(m, i, q))
  }

  /** 1 for a filled side, 0 otherwise. */
  function Unit(filled: bool): real
  {
    if filled then 1.0 else 0.0
  }

  /**
   * The book after one step's fills at the quotes `qt`: selling at the ask
   * gives up one unit for the ask price, buying at the bid takes one unit for
   * the bid price; both may happen.
   */
  function Fill(b: Book, qt: Quote, sold: bool, bought: bool): Book
  {
    Book(b.q - Unit(sold) + Unit(bought), b.cash + qt.ask * Unit(sold) - qt.bid * Unit(bought))
  }

  /** The transition from step `i` to step `i + 1`: each side fills on its own draw. */
  function Step(m: Market, d: Draws, i: nat, b: Book): Book
    requires WellFormed(m) && Covers(m, d) && i < m.bm.n - 1
  {
    Fill(b, Quotes(m, i, b.q), AskFilled(m, d, i, b.q), BidFilled(m, d, i, b.q))
  }

  /** Inventory and cash at step `i` of the run: flat at step 0, then one `Step` per transition. */
  function BookAt(m: Market, d: Draws, i: nat): Book
    requires WellFormed(m) && Covers(m, d) && i < m.bm.n
  {
    if i == 0 then Book(0.0, 0.0) else Step(m, d, i - 1, BookAt(m, d, i - 1))
  }

  /** The change in value of `q` units when the price moves from `from` to `to`. */
  function Revaluation(q: real, from: real, to: real): real
  {
    q * (to - from)
  }

  /** The value of a book at the given price: its cash plus its inventory marked at that price. */
  function Marked(b: Book, price: real): real
  {
    b.cash + b.q * price
  }

  /** The value of the book held at step `i` (`i` >= 1), marked at the price of the previous step. */
  function MarkedAt(m: Market, b: Book, i: nat): real
    requires 1 <= i <= |m.bm.s|
  {
    Marked(b, m.bm.s[i - 1])
  }

  /** PnL at step `i`: 0 at the start, then the book marked at the price of the previous step. */
  function PnlAt(m: Market, d: Draws, i: nat): real
    requires WellFormed(m) && Covers(m, d) && i < m.bm.n
  {
    if i == 0 then 0.0 else MarkedAt(m, BookAt(m, d, i), i)
  }

  /** The side hit at step `i` of the run, judged against the inventory held then. */
  predicate AskFilledAt(m: Market, d: Draws, i: nat)
    requires WellFormed(m) && Covers(m, d) && i < m.bm.n - 1
  {
    AskFilled(m, d, i, BookAt(m, d, i).q)
  }

  predicate BidFilledAt(m: Market, d: Draws, i: nat)
    requires WellFormed(m) && Covers(m, d) && i < m.bm.n - 1
  {
    BidFilled(m, d, i, BookAt(m, d, i).q)
  }

  /** No side was hit at any transition before step `i`. */
  ghost predicate NoFillBefore(m: Market, d: Draws, i: nat)
    requires WellFormed(m) && Covers(m, d) && i < m.bm.n
  {
    forall j :: 0 <= j < i ==> !AskFilledAt(m, d, j) && !BidFilledAt(m, d, j)
  }

  /**
   * The arrays of a run in progress: the reserve prices and quotes of the
   * steps before `nq`, and the inventory, cash and PnL of the steps before
   * `nb`, are those of the run on the draws `d`.
   */
  ghost predicate Recorded(m: Market, d: Draws, nq: nat, nb: nat,
                           r: seq<real>, ra: seq<real>, rb: seq<real>, q: seq<real>, cash: seq<real>, pnl: seq<real>)
    requires WellFormed(m) && Covers(m, d)
  {
    && |r| == |ra| == |rb| == |q| == |cash| == |pnl| == m.bm.n
    && nq <= nb <= m.bm.n
    && (forall j {:trigger BookAt(m, d, j)} :: 0 <= j < nb ==>
          Book(q[j], cash[j]) == BookAt(m, d, j) && pnl[j] == PnlAt(m, d, j))
    && (forall j {:trigger Reserve(m, j, BookAt(m, d, j).q)} :: 0 <= j < nq ==>
          r[j] == Reserve(m, j, BookAt(m, d, j).q) && Quote(ra[j], rb[j]) == Quotes(m, j, BookAt(m, d, j).q))
  }

  /** Recording the reserve price and quotes of step `nq`, computed from its inventory, extends the record. */
  lemma RecordQuote(m: Market, d: Draws, nq: nat, nb: nat,
                    r: seq<real>, ra: seq<real>, rb: seq<real>, q: seq<real>, cash: seq<real>, pnl: seq<real>,
                    ri: real, ai: real, bi: real)
    requires WellFormed(m) && Covers(m, d) && Recorded(m, d, nq, nb, r, ra, rb, q, cash, pnl) && nq < nb
    requires ri == Reserve(m, nq, q[nq]) && Quote(ai, bi) == Quotes(m, nq, q[nq])
    ensures Recorded(m, d, nq + 1, nb, r[nq := ri], ra[nq := ai], rb[nq := bi], q, cash, pnl)
  {
  }

  /** Recording the book after transition `nb - 1`, and its PnL, extends the record. */
  lemma RecordStep(m: Market, d: Draws, nq: nat, nb: nat,
                   r: seq<real>, ra: seq<real>, rb: seq<real>, q: seq<real>, cash: seq<real>, pnl: seq<real>,
                   next: Book)
    requires WellFormed(m) && Covers(m, d) && Recorded(m, d, nq, nb, r, ra, rb, q, cash, pnl) && 1 <= nb < m.bm.n
    requires next == Step(m, d, nb - 1, Book(q[nb - 1], cash[nb - 1]))
    ensures Recorded(m, d, nq, nb + 1, r, ra, rb, q[nb := next.q], cash[nb := next.cash], pnl[nb := Marked(next, m.bm.s[nb - 1])])
  {
  }

  /**
   * The maker of src/marketmaker.py. The constructor fixes the market (price
   * path, k, gamma and the exponential and logarithm), the constant M and the
   * intensity scale A; `Run` fills the arrays of reserve prices, quotes,
   * inventory and PnL.
   */
  class MarketMaker {
    const market: Market
    const M: real
    const A: real

    ghost predicate Valid()
    {
      WellFormed(market) && M == IntensityNorm && A == IntensityScale(market)
    }

    constructor (bm: Path, k: real, gamma: real, exp: real -> real, ln: real -> real)
      requires WellFormed(Market(bm, k, gamma, exp, ln))
      ensures Valid()
      ensures market == Market(bm, k, gamma, exp, ln)
      ensures M == 1.0 && A > 0.0
    {
      market := Market(bm, k, gamma, exp, ln);
      M := IntensityNorm;
      A := 1.0 / bm.dt / exp(k * IntensityNorm / 2.0);
    }

    /** The reserve price and the two quotes at step `i` when the inventory is `qi`. */
    method QuoteStep(i: nat, qi: real) returns (ri: real, ai: real, bi: real)
      requires Valid() && i < market.bm.n
      ensures ri == Reserve(market, i, qi)
      ensures Quote(ai, bi) == Quotes(market, i, qi)
    {
      var horizon := market.bm.n as real * market.bm.dt;
      ri := market.bm.s[i] - qi * market.gamma * (market.bm.sigma * market.bm.sigma) * (horizon - market.bm.dt * i as real);
      var spread := 2.0 / market.gamma * market.ln(1.0 + market.gamma / market.k);
      ai := ri + spread / 2.0;
      bi := ri - spread / 2.0;
    }

    /**
     * The fills of step `i` against the quotes `ai` and `bi`, and the book they
     * leave for step `i + 1`.
     */
    method Transition(d: Draws, i: nat, b: Book, ai: real, bi: real) returns (next: Book)
      requires Valid() && Covers(market, d) && i < market.bm.n - 1
      requires Quote(ai, bi) == Quotes(market, i, b.q)
      ensures next == Step(market, d, i, b)
    {
      var deltaA := ai - market.bm.s[i];
      var deltaB := market.bm.s[i] - bi;
      assert deltaA == AskDelta(market, i, b.q) && deltaB == BidDelta(market, i, b.q);
      var lambdaA := A * Decay(market, deltaA);
      var lambdaB := A * Decay(market, deltaB);
      assert lambdaA == Intensity(market, deltaA) && lambdaB == Intensity(market, deltaB);
      var pExecA := HitProbability(market, lambdaA);
      var pExecB := HitProbability(market, lambdaB);
      var executedA := 0.0;
      var executedB := 0.0;
      if d.ask[i] < pExecA {
        executedA := 1.0;
      }
      if d.bid[i] < pExecB {
        executedB := 1.0;
      }
      next := Book(b.q - executedA + executedB, b.cash + ai * executedA - bi * executedB);
    }

    /** One pass of the loop body in `run`: quote at step `i`, then book the fills into step `i + 1`. */
    method Advance(d: Draws, i: nat, r: array<real>, ra: array<real>, rb: array<real>, q: array<real>, cash: array<real>, pnl: array<real>)
      requires Valid() && Covers(market, d) && i < market.bm.n
      requires r != ra && r != rb && ra != rb && q != cash && q != pnl && cash != pnl
      requires r != q && r != cash && r != pnl && ra != q && ra != cash && ra != pnl && rb != q && rb != cash && rb != pnl
      requires Recorded(market, d, i, i + 1, r[..], ra[..], rb[..], q[..], cash[..], pnl[..])
      modifies r, ra, rb, q, cash, pnl
      ensures Recorded(market, d, i + 1, if i + 1 < market.bm.n then i + 2 else market.bm.n, r[..], ra[..], rb[..], q[..], cash[..], pnl[..])
    {
      ghost var r0, ra0, rb0, q0, cash0, pnl0 := r[..], ra[..], rb[..], q[..], cash[..], pnl[..];
      var qi, cashi := q[i], cash[i];
      var ri, ai, bi := QuoteStep(i, qi);
      RecordQuote(market, d, i, i + 1, r0, ra0, rb0, q0, cash0, pnl0, ri, ai, bi);
      r[i], ra[i], rb[i] := ri, ai, bi;
      if i < market.bm.n - 1 {
        var next := Transition(d, i, Book(qi, cashi), ai, bi);
        RecordStep(market, d, i + 1, i + 1, r0[i := ri], ra0[i := ai], rb0[i := bi], q0, cash0, pnl0, next);
        q[i + 1] := next.q;
        cash[i + 1] := next.cash;
        pnl[i + 1] := Marked(next, market.bm.s[i]);
        assert q[..] == q0[i + 1 := next.q] && cash[..] == cash0[i + 1 := next.cash] && pnl[..] == pnl0[i + 1 := Marked(next, market.bm.s[i])];
      }
      assert r[..] == r0[i := ri] && ra[..] == ra0[i := ai] && rb[..] == rb0[i := bi];
    }

    /**
     * One simulation run on the draws `d`. Every returned array has one entry
     * per step; inventory and PnL start at 0; the quotes straddle the reserve
     * price at a constant spread; inventory and PnL follow `BookAt` and `PnlAt`.
     */
    method Run(d: Draws) returns (r: array<real>, ra: array<real>, rb: array<real>, q: array<real>, pnl: array<real>)
      requires Valid() && Covers(market, d)
      ensures fresh(r) && fresh(ra) && fresh(rb) && fresh(q) && fresh(pnl)
      ensures r.Length == ra.Length == rb.Length == q.Length == pnl.Length == market.bm.n
      ensures q[0] == 0.0 && pnl[0] == 0.0
      ensures forall i :: 0 <= i < market.bm.n ==> q[i] == BookAt(market, d, i).q && pnl[i] == PnlAt(market, d, i)
      ensures forall i :: 0 <= i < market.bm.n ==> r[i] == Reserve(market, i, BookAt(market, d, i).q)
      ensures forall i :: 0 <= i < market.bm.n ==> Quote(ra[i], rb[i]) == Quotes(market, i, BookAt(market, d, i).q)
      ensures forall i :: 0 <= i < market.bm.n ==> ra[i] - rb[i] == Spread(market) && ra[i] - r[i] == r[i] - rb[i]
      ensures LogPositiveAboveOne(market.ln) ==> forall i :: 0 <= i < market.bm.n ==> ra[i] > rb[i]
    {
      var n := market.bm.n;
      var cash := new real[n];
      cash[0] := 0.0;
      q := new real[n];
      q[0] := 0.0;
      pnl := new real[n];
      pnl[0] := 0.0;
      r := new real[n];
      ra := new real[n];
      rb := new real[n];
      assert BookAt(market, d, 0) == Book(0.0, 0.0) && PnlAt(market, d, 0) == 0.0;
      for i := 0 to n
        invariant fresh(r) && fresh(ra) && fresh(rb) && fresh(q) && fresh(cash) && fresh(pnl)
        invariant Recorded(market, d, i, if i < n then i + 1 else n, r[..], ra[..], rb[..], q[..], cash[..], pnl[..])
      {
        Advance(d, i, r, ra, rb, q, cash, pnl);
      }
      forall j | 0 <= j < n
        ensures q[j] == BookAt(market, d, j).q && pnl[j] == PnlAt(market, d, j)
        ensures r[j] == Reserve(market, j, BookAt(market, d, j).q) && Quote(ra[j], rb[j]) == Quotes(market, j, BookAt(market, d, j).q)
      {
        assert q[j] == q[..][j] && pnl[j] == pnl[..][j] && r[j] == r[..][j] && ra[j] == ra[..][j] && rb[j] == rb[..][j];
      }
      if LogPositiveAboveOne(market.ln) {
        SpreadPositive(market, 0, 0.0);
      }
    }
  }

  // ---------------------------------------------------------------------
  // Properties of the run
  // ---------------------------------------------------------------------

  /** The inventory risk gamma * sigma^2 * (T - dt * i) is positive at every step when the volatility is not 0. */
  lemma InventoryRiskPositive(m: Market, i: nat)
    requires WellFormed(m) && i < m.bm.n && m.bm.sigma != 0.0
    ensures InventoryRisk(m, i) > 0.0
  {
    var remaining := Horizon(m) - m.bm.dt * i as real;
    assert remaining == (m.bm.n - i) as real * m.bm.dt;
    ProductPositive((m.bm.n - i) as real, m.bm.dt);
    var size := if m.bm.sigma < 0.0 then -m.bm.sigma else m.bm.sigma;
    ProductPositive(m.gamma, size);
    ProductPositive(m.gamma * size, size);
    assert m.gamma * size * size == m.gamma * (m.bm.sigma * m.bm.sigma);
    ProductPositive(m.gamma * size * size, remaining);
  }

  /**
   * The reserve price equals the price at zero inventory, lies below it when
   * the maker is long and above it when short (for non-zero volatility),
   * because the remaining time T - dt * i is positive at every step.
   */
  lemma ReserveSkew(m: Market, i: nat, q: real)
    requires WellFormed(m) && i < m.bm.n
    ensures q == 0.0 ==> Reserve(m, i, q) == m.bm.s[i]
    ensures q > 0.0 && m.bm.sigma != 0.0 ==> Reserve(m, i, q) < m.bm.s[i]
    ensures q < 0.0 && m.bm.sigma != 0.0 ==> Reserve(m, i, q) > m.bm.s[i]
  {
    if m.bm.sigma != 0.0 {
      InventoryRiskPositive(m, i);
      if q > 0.0 {
        ProductPositive(q, InventoryRisk(m, i));
      } else if q < 0.0 {
        ProductPositive(-q, InventoryRisk(m, i));
      }
    }
  }

  /**
   * With a logarithm that is positive above 1, the spread is positive, so
   * every ask lies strictly above its bid.
   */
  lemma SpreadPositive(m: Market, i: nat, q: real)
    requires WellFormed(m) && LogPositiveAboveOne(m.ln) && i < m.bm.n
    ensures Spread(m) > 0.0
    ensures Quotes(m, i, q).ask > Quotes(m, i, q).bid
  {
    assert m.gamma / m.k > 0.0;
    assert m.ln(1.0 + m.gamma / m.k) > 0.0;
    ProductPositive(2.0 / m.gamma, m.ln(1.0 + m.gamma / m.k));
  }

  /**
   * With an exponential that is positive and at most 1 at and below 0, every
   * execution probability lies in [0, 1): the intensity and dt are positive,
   * so the exponent -lambda * dt is negative.
   */
  lemma ExecProbabilityBounds(m: Market, delta: real)
    requires WellFormed(m) && ExpPositive(m.exp) && ExpAtMostOneBelowZero(m.exp)
    ensures 0.0 <= ExecProbability(m, delta) < 1.0
  {
    assert m.exp(-m.k * delta) > 0.0;
    ProductPositive(IntensityScale(m), m.exp(-m.k * delta));
    ProductPositive(Intensity(m, delta), m.bm.dt);
    assert m.exp(-Intensity(m, delta) * m.bm.dt) <= 1.0;
  }

  /**
   * The two quote distances add up to the spread at every step, and split it
   * evenly when the maker holds no inventory.
   */
  lemma QuoteDistances(m: Market, i: nat, q: real)
    requires WellFormed(m) && i < m.bm.n
    ensures AskDelta(m, i, q) + BidDelta(m, i, q) == Spread(m)
    ensures q == 0.0 ==> AskDelta(m, i, q) == BidDelta(m, i, q) == Spread(m) / 2.0
  {
  }

  /**
   * Each transition moves inventory by the bid fill minus the ask fill, so by
   * -1, 0 or +1, and moves cash by exactly the ask price received and the bid
   * price paid. When both sides fill, inventory is unchanged and cash grows by
   * exactly the spread.
   */
  lemma TransitionAccounting(m: Market, d: Draws, i: nat)
    requires WellFormed(m) && Covers(m, d) && i < m.bm.n - 1
    ensures var b, b' := BookAt(m, d, i), BookAt(m, d, i + 1);
      && -1.0 <= b'.q - b.q <= 1.0
      && b'.q == b.q - Unit(AskFilledAt(m, d, i)) + Unit(BidFilledAt(m, d, i))
      && b'.cash == b.cash + Quotes(m, i, b.q).ask * Unit(AskFilledAt(m, d, i))
                           - Quotes(m, i, b.q).bid * Unit(BidFilledAt(m, d, i))
    ensures AskFilledAt(m, d, i) && BidFilledAt(m, d, i) ==>
      BookAt(m, d, i + 1).q == BookAt(m, d, i).q && BookAt(m, d, i + 1).cash == BookAt(m, d, i).cash + Spread(m)
  {
  }

  /** A real number with no fractional part. */
  ghost predicate Whole(x: real)
  {
    x.Floor as real == x
  }

  /** After `i` steps the inventory is a whole number of units, at most `i` long or short. */
  lemma {:induction false} InventoryWithinSteps(m: Market, d: Draws, i: nat)
    requires WellFormed(m) && Covers(m, d) && i < m.bm.n
    ensures Whole(BookAt(m, d, i).q)
    ensures -(i as real) <= BookAt(m, d, i).q <= i as real
  {
    if i > 0 {
      InventoryWithinSteps(m, d, i - 1);
      TransitionAccounting(m, d, i - 1);
      var q0 := BookAt(m, d, i - 1).q;
      var z := q0.Floor;
      var delta := Unit(BidFilledAt(m, d, i - 1)) - Unit(AskFilledAt(m, d, i - 1));
      var w: int := if delta == 1.0 then 1 else if delta == -1.0 then -1 else 0;
      assert BookAt(m, d, i).q == (z + w) as real;
    }
  }

  /**
   * The gain in value over one step's fills: the filled book marked at `s`,
   * against the book before marked at an earlier price `p`, gains the
   * inventory's price move plus, for each side filled, that quote's distance
   * from `s`.
   */
  lemma FillGain(b: Book, qt: Quote, sold: bool, bought: bool, p: real, s: real)
    ensures Marked(Fill(b, qt, sold, bought), s) - Marked(b, p)
         == Revaluation(b.q, p, s) + (if sold then qt.ask - s else 0.0) + (if bought then s - qt.bid else 0.0)
  {
  }

  /**
   * PnL attribution: from one step to the next, PnL changes by the
   * mark-to-market gain of the inventory held (from the previous price to the
   * current one) plus, for each side filled, that quote's distance from the
   * current price.
   */
  lemma PnlIncrement(m: Market, d: Draws, i: nat)
    requires WellFormed(m) && Covers(m, d) && 1 <= i < m.bm.n - 1
    ensures var qi := BookAt(m, d, i).q;
      PnlAt(m, d, i + 1) - PnlAt(m, d, i)
      == Revaluation(qi, m.bm.s[i - 1], m.bm.s[i])
       + (if AskFilledAt(m, d, i) then AskDelta(m, i, qi) else 0.0)
       + (if BidFilledAt(m, d, i) then BidDelta(m, i, qi) else 0.0)
  {
    var b := BookAt(m, d, i);
    var qt := Quotes(m, i, b.q);
    assert PnlAt(m, d, i) == Marked(b, m.bm.s[i - 1]);
    assert PnlAt(m, d, i + 1) == Marked(Fill(b, qt, AskFilledAt(m, d, i), BidFilledAt(m, d, i)), m.bm.s[i]);
    FillGain(b, qt, AskFilledAt(m, d, i), BidFilledAt(m, d, i), m.bm.s[i - 1], m.bm.s[i]);
  }

  /**
   * When no side is hit before step `i`, the maker is still flat there:
   * inventory, cash and PnL are 0 and the reserve price is the price itself.
   */
  lemma {:induction false} NoFillsStayFlat(m: Market, d: Draws, i: nat)
    requires WellFormed(m) && Covers(m, d) && i < m.bm.n
    requires NoFillBefore(m, d, i)
    ensures BookAt(m, d, i) == Book(0.0, 0.0)
    ensures PnlAt(m, d, i) == 0.0
    ensures Reserve(m, i, BookAt(m, d, i).q) == m.bm.s[i]
  {
    if i > 0 {
      assert NoFillBefore(m, d, i - 1);
      NoFillsStayFlat(m, d, i - 1);
      assert !AskFilledAt(m, d, i - 1) && !BidFilledAt(m, d, i - 1);
    }
    ReserveSkew(m, i, BookAt(m, d, i).q);
  }

  /**
   * Draws of 1 or more are never below an execution probability, so a run on
   * such draws never trades and stays flat at every step. The source draws
   * from random(), whose values lie in [0, 1); draws of 1 or more stand for a
   * generator replaced by one that never reports a hit.
   */
  lemma HighDrawsNeverTrade(m: Market, d: Draws, i: nat)
    requires WellFormed(m) && ExpPositive(m.exp) && Covers(m, d) && i < m.bm.n
    requires forall j :: 0 <= j < m.bm.n - 1 ==> d.ask[j] >= 1.0 && d.bid[j] >= 1.0
    ensures NoFillBefore(m, d, i)
    ensures BookAt(m, d, i) == Book(0.0, 0.0) && PnlAt(m, d, i) == 0.0
  {
  }
}
