/**
 The boundedly-rational investor of the market simulation.

 An investor carries a decision threshold, a strategy in {-1, 0, 1}
 (sell, inactive, buy) and an integer count of held assets. Every step the
 market drives it through three operations in a fixed order: the threshold
 rule turns the shared signal into a strategy, the trade moves the holdings
 by that strategy, and the threshold adaptation may replace the threshold by
 the size of the latest price change.

 Random draws are inputs here: the uniform draw that initialises the
 threshold, and the per-step uniform "coin" that decides whether the
 threshold adapts.
 */
module InvestorAgent {

  /** Asset holdings every investor starts with. */
  const InitialHoldings: int := 100

  /** Sell, inactive or buy. */
  predicate ValidStrategy(s: int) {
    s == -1 || s == 0 || s == 1
  }

  function Abs(x: real): (r: real)
    ensures r >= 0.0
    ensures r == x || r == -x
  {
    if x < 0.0 then -x else x
  }

  /** The sign of a real, as an integer strategy; zero has sign 0. */
  function Sign(x: real): (r: int)
    ensures ValidStrategy(r)
    ensures r == 1 <==> x > 0.0
    ensures r == -1 <==> x < 0.0
  {
    if x > 0.0 then 1 else if x < 0.0 then -1 else 0
  }

  datatype Investor = Investor(threshold: real, strategy: int, holdings: int)

  /** The state every investor keeps between steps: a strategy in the
      three-valued domain and a non-negative threshold. */
  predicate Sane(a: Investor) {
    ValidStrategy(a.strategy) && a.threshold >= 0.0
  }

  /** A new investor; `u` is its draw from the uniform distribution on [0, 1). */
  function Setup(u: real): (a: Investor)
    requires 0.0 <= u < 1.0
    ensures Sane(a)
    ensures 0.0 <= a.threshold < 1.0 && a.threshold == u
    ensures a.strategy == 0 && a.holdings == InitialHoldings
  {
    Investor(u, 0, InitialHoldings)
  }

  /** The threshold rule: trade in the direction of the signal when its
      magnitude strictly exceeds the threshold, otherwise stay inactive. */
  function UpdateStrategy(a: Investor, signal: real): (r: Investor)
    ensures ValidStrategy(r.strategy)
    // buying and selling characterised without the absolute value
    ensures r.strategy == 1 <==> signal > 0.0 && signal > a.threshold
    ensures r.strategy == -1 <==> signal < 0.0 && -signal > a.threshold
    // equality with the threshold means inactive
    ensures Abs(signal) <= a.threshold ==> r.strategy == 0
    ensures r.threshold == a.threshold && r.holdings == a.holdings
  {
    if Abs(signal) > a.threshold then a.(strategy := Sign(signal))
    else a.(strategy := 0)
  }

  /** Buying adds one asset, selling removes one; any other strategy value
      leaves the holdings alone. */
  function Trade(a: Investor): (r: Investor)
    ensures ValidStrategy(a.strategy) ==> r.holdings == a.holdings + a.strategy
    ensures !ValidStrategy(a.strategy) ==> r.holdings == a.holdings
    ensures -1 <= r.holdings - a.holdings <= 1
    ensures r.threshold == a.threshold && r.strategy == a.strategy
  {
    if a.strategy == 1 then a.(holdings := a.holdings + 1)
    else if a.strategy == -1 then a.(holdings := a.holdings - 1)
    else a
  }

  /** With the uniform draw `coin` below the adaptation probability `s`, the
      threshold becomes the magnitude of the latest price change. */
  function UpdateThreshold(a: Investor, priceChange: real, coin: real, s: real): (r: Investor)
    ensures coin < s ==> r.threshold == Abs(priceChange)
    ensures coin >= s ==> r == a
    ensures a.threshold >= 0.0 ==> r.threshold >= 0.0
    ensures r.strategy == a.strategy && r.holdings == a.holdings
  {
    if coin < s then a.(threshold := Abs(priceChange)) else a
  }

  /** One step as seen by a single investor: the strategy is decided with the
      threshold from the previous step, the trade follows, and the threshold
      adapts to the price change the market computed in between. */
  function AgentStep(a: Investor, signal: real, priceChange: real, coin: real, s: real): (r: Investor)
    ensures ValidStrategy(r.strategy)
    ensures r.strategy == UpdateStrategy(a, signal).strategy
    ensures r.holdings == a.holdings + r.strategy
    ensures r.threshold == if coin < s then Abs(priceChange) else a.threshold
    ensures a.threshold >= 0.0 ==> Sane(r)
  {
    UpdateThreshold(Trade(UpdateStrategy(a, signal)), priceChange, coin, s)
  }

  /** What one investor observes in one step: the shared signal, the price
      change the market computed, and its own adaptation coin. */
  datatype Tick = Tick(signal: real, priceChange: real, coin: real)

  /** The investor after living through `ticks` in order. */
  function Live(a: Investor, ticks: seq<Tick>, s: real): Investor
    decreases |ticks|
  {
    if |ticks| == 0 then a
    else
      var t := ticks[|ticks| - 1];
      AgentStep(Live(a, ticks[..|ticks| - 1], s), t.signal, t.priceChange, t.coin, s)
  }

  /** The strategies the investor used, one per tick. */
  function Strategies(a: Investor, ticks: seq<Tick>, s: real): (r: seq<int>)
    ensures |r| == |ticks|
    decreases |ticks|
  {
    if |ticks| == 0 then []
    else Strategies(a, ticks[..|ticks| - 1], s) + [Live(a, ticks, s).strategy]
  }

  function Sum(xs: seq<int>): int
    decreases |xs|
  {
    if |xs| == 0 then 0 else Sum(xs[..|xs| - 1]) + xs[|xs| - 1]
  }

  /** Holdings conservation: after any number of steps the holdings equal the
      starting holdings plus the sum of the strategies used. */
  lemma {:induction false} HoldingsConservation(a: Investor, ticks: seq<Tick>, s: real)
    ensures Live(a, ticks, s).holdings == a.holdings + Sum(Strategies(a, ticks, s))
    decreases |ticks|
  {
    if |ticks| > 0 {
      var prefix := ticks[..|ticks| - 1];
      HoldingsConservation(a, prefix, s);
      var xs := Strategies(a, ticks, s);
      assert xs[..|xs| - 1] == Strategies(a, prefix, s);
    }
  }

  /** The j-th strategy used is the strategy after living the first j + 1 ticks. */
  lemma {:induction false} StrategiesAreLive(a: Investor, ticks: seq<Tick>, s: real, j: nat)
    requires j < |ticks|
    ensures Strategies(a, ticks, s)[j] == Live(a, ticks[..j + 1], s).strategy
    decreases |ticks|
  {
    var prefix := ticks[..|ticks| - 1];
    if j == |ticks| - 1 {
      assert ticks[..j + 1] == ticks;
    } else {
      StrategiesAreLive(a, prefix, s, j);
      assert prefix[..j + 1] == ticks[..j + 1];
    }
  }

  /** A freshly set-up investor starts its history with holdings 100. */
  lemma {:induction false} FreshHoldings(u: real, ticks: seq<Tick>, s: real)
    requires 0.0 <= u < 1.0
    ensures Live(Setup(u), ticks, s).holdings == InitialHoldings + Sum(Strategies(Setup(u), ticks, s))
  {
    HoldingsConservation(Setup(u), ticks, s);
  }

  /** Strategies stay in {-1, 0, 1} and thresholds stay non-negative over any
      history that starts from a non-negative threshold. */
  lemma {:induction false} LiveStaysSane(a: Investor, ticks: seq<Tick>, s: real)
    requires a.threshold >= 0.0
    ensures Live(a, ticks, s).threshold >= 0.0
    ensures |ticks| > 0 ==> Sane(Live(a, ticks, s))
    decreases |ticks|
  {
    if |ticks| > 0 {
      LiveStaysSane(a, ticks[..|ticks| - 1], s);
    }
  }
}
