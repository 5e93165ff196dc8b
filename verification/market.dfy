/**
 The market: a fixed population of investors, a shared signal, the latest
 price change and the asset price, advanced one step at a time.

 A step runs six phases in a fixed order: the signal is drawn, every
 investor updates its strategy, every investor trades, the price change is
 computed from the excess demand with the linear price-impact law
 r = Z / (N * lambda) and the price moves to p * exp(r), every investor may
 adapt its threshold, and the aggregates are recorded.

 The Gaussian signal, the uniform coins and the setup draws are inputs; the
 exponential is a parameter constrained by `ExpLaw`.
 */
module MarketModel {
  import opened InvestorAgent

  /** Run parameters: population size, noise standard deviation, adaptation
      probability, market depth and the number of tracked investors. */
  datatype Config = Config(n: nat, d: real, s: real, lambda: real, numTrack: int)

  datatype Market = Market(
    agents: seq<Investor>,
    signal: real,
    priceChange: real,
    price: real,
    tracked: seq<nat>)

  /** The values recorded after each step. */
  datatype Record = Record(
    trackedHoldings: seq<int>,
    price: real,
    priceChange: real,
    excessDemand: int,
    averageThreshold: real,
    tradingVolume: nat)

  datatype SetupError = NegativeTrackCount | TooManyTracked

  datatype SetupOutcome = Built(market: Market) | Rejected(reason: SetupError)

  /** What the exponential is assumed to satisfy. */
  ghost predicate ExpLaw(exp: real -> real) {
    && exp(0.0) == 1.0
    && (forall x :: exp(x) > 0.0)
    && (forall x, y :: x < y ==> exp(x) < exp(y))
  }

  // ---------------------------------------------------------------------
  // Population predicates and aggregates

  predicate AllValidStrategies(agents: seq<Investor>) {
    forall i :: 0 <= i < |agents| ==> ValidStrategy(agents[i].strategy)
  }

  predicate AllThresholdsNonNegative(agents: seq<Investor>) {
    forall i :: 0 <= i < |agents| ==> agents[i].threshold >= 0.0
  }

  predicate TrackedInRange(tracked: seq<nat>, n: nat) {
    forall j :: 0 <= j < |tracked| ==> tracked[j] < n
  }

  predicate Distinct(xs: seq<nat>) {
    forall j, k :: 0 <= j < k < |xs| ==> xs[j] != xs[k]
  }

  /** `order` lists each index of a population of `n` exactly once. */
  predicate IsPermutation(order: seq<nat>, n: nat) {
    |order| == n && TrackedInRange(order, n) && Distinct(order)
  }

  /** The sum of the strategies of the first `k` investors. */
  function DemandUpTo(agents: seq<Investor>, k: nat): int
    requires k <= |agents|
    decreases k
  {
    if k == 0 then 0 else DemandUpTo(agents, k - 1) + agents[k - 1].strategy
  }

  /** Excess demand: the sum of all strategies. */
  function ExcessDemand(agents: seq<Investor>): int {
    DemandUpTo(agents, |agents|)
  }

  /** The number of investors among the first `k` with a nonzero strategy. */
  function VolumeUpTo(agents: seq<Investor>, k: nat): (v: nat)
    requires k <= |agents|
    ensures v <= k
    decreases k
  {
    if k == 0 then 0
    else VolumeUpTo(agents, k - 1) + (if agents[k - 1].strategy != 0 then 1 else 0)
  }

  /** Trading volume: the number of investors with a nonzero strategy. */
  function TradingVolume(agents: seq<Investor>): (v: nat)
    ensures v <= |agents|
  {
    VolumeUpTo(agents, |agents|)
  }

  /** The sum of the thresholds of the first `k` investors. */
  function ThresholdsUpTo(agents: seq<Investor>, k: nat): real
    requires k <= |agents|
    decreases k
  {
    if k == 0 then 0.0 else ThresholdsUpTo(agents, k - 1) + agents[k - 1].threshold
  }

  function SumThresholds(agents: seq<Investor>): real {
    ThresholdsUpTo(agents, |agents|)
  }

  /** With every strategy in {-1, 0, 1} the excess demand of the first `k`
      investors lies in [-k, k]. */
  lemma {:induction false} DemandBounds(agents: seq<Investor>, k: nat)
    requires k <= |agents| && AllValidStrategies(agents)
    ensures -(k as int) <= DemandUpTo(agents, k) <= k
    decreases k
  {
    if k > 0 {
      DemandBounds(agents, k - 1);
      assert ValidStrategy(agents[k - 1].strategy);
    }
  }

  /** The volume of the first `k` investors is zero exactly when none of them
      is active. */
  lemma {:induction false} NoVolumeIffInactive(agents: seq<Investor>, k: nat)
    requires k <= |agents|
    ensures VolumeUpTo(agents, k) == 0 <==> forall i :: 0 <= i < k ==> agents[i].strategy == 0
    decreases k
  {
    if k > 0 {
      NoVolumeIffInactive(agents, k - 1);
    }
  }

  /** The number of investors among the first `k` whose strategy is `v`. */
  function CountUpTo(agents: seq<Investor>, v: int, k: nat): nat
    requires k <= |agents|
    decreases k
  {
    if k == 0 then 0 else CountUpTo(agents, v, k - 1) + (if agents[k - 1].strategy == v then 1 else 0)
  }

  /** With strategies in {-1, 0, 1}, the excess demand of the first `k`
      investors is the number of buyers minus the number of sellers, and
      their volume is the number of buyers plus the number of sellers. */
  lemma {:induction false} DemandCounts(agents: seq<Investor>, k: nat)
    requires k <= |agents| && AllValidStrategies(agents)
    ensures DemandUpTo(agents, k) == CountUpTo(agents, 1, k) - CountUpTo(agents, -1, k)
    ensures VolumeUpTo(agents, k) == CountUpTo(agents, 1, k) + CountUpTo(agents, -1, k)
    decreases k
  {
    if k > 0 {
      DemandCounts(agents, k - 1);
      assert ValidStrategy(agents[k - 1].strategy);
    }
  }

  /** Excess demand is buyers minus sellers; trading volume is buyers plus sellers. */
  lemma ExcessDemandCounts(agents: seq<Investor>)
    requires AllValidStrategies(agents)
    ensures ExcessDemand(agents) == CountUpTo(agents, 1, |agents|) - CountUpTo(agents, -1, |agents|)
    ensures TradingVolume(agents) == CountUpTo(agents, 1, |agents|) + CountUpTo(agents, -1, |agents|)
  {
    DemandCounts(agents, |agents|);
  }

  /** Non-negative thresholds have a non-negative sum. */
  lemma {:induction false} ThresholdSumNonNegative(agents: seq<Investor>, k: nat)
    requires k <= |agents| && AllThresholdsNonNegative(agents)
    ensures ThresholdsUpTo(agents, k) >= 0.0
    decreases k
  {
    if k > 0 {
      ThresholdSumNonNegative(agents, k - 1);
      assert agents[k - 1].threshold >= 0.0;
    }
  }

  /** The mean threshold of a non-empty population. */
  function AverageThreshold(agents: seq<Investor>): (m: real)
    requires |agents| >= 1
    ensures m * (|agents| as real) == SumThresholds(agents)
    ensures AllThresholdsNonNegative(agents) ==> m >= 0.0
  {
    assert AllThresholdsNonNegative(agents) ==> SumThresholds(agents) >= 0.0 by {
      if AllThresholdsNonNegative(agents) { ThresholdSumNonNegative(agents, |agents|); }
    }
    SumThresholds(agents) / (|agents| as real)
  }

  // ---------------------------------------------------------------------
  // Price impact

  /** The linear price-impact law: the rate of return is the average excess
      demand divided by the market depth. */
  function PriceChange(z: int, n: nat, lambda: real): (r: real)
    requires n >= 1 && lambda != 0.0
    ensures r * ((n as real) * lambda) == z as real
    ensures r == 0.0 <==> z == 0
    ensures lambda > 0.0 ==> (r > 0.0 <==> z > 0) && (r < 0.0 <==> z < 0)
  {
    var avg := (z as real) / (n as real);
    assert avg * (n as real) == z as real;
    var r := avg / lambda;
    assert r * lambda == avg;
    assert r * ((n as real) * lambda) == (r * lambda) * (n as real);
    r
  }

  /** Under a depth lambda > 0 and |Z| <= N the price change is at most
      1 / lambda in magnitude. */
  lemma PriceChangeBound(z: int, n: nat, lambda: real)
    requires n >= 1 && lambda > 0.0
    requires -(n as int) <= z <= n
    ensures -1.0 / lambda <= PriceChange(z, n, lambda) <= 1.0 / lambda
  {
    var r := PriceChange(z, n, lambda);
    var nr := n as real;
    var avg := (z as real) / nr;
    assert avg * nr == z as real;
    NonPositiveFactor(avg - 1.0, nr);
    NonPositiveFactor(-1.0 - avg, nr);
    assert r == avg / lambda;
    assert r * lambda == avg;
    assert (1.0 / lambda) * lambda == 1.0;
    assert (-1.0 / lambda) * lambda == -1.0;
    NonPositiveFactor(r - 1.0 / lambda, lambda);
    NonPositiveFactor(-1.0 / lambda - r, lambda);
  }

  /** A product with a positive factor is non-positive only if the other
      factor is. */
  lemma NonPositiveFactor(x: real, d: real)
    requires d > 0.0
    ensures x * d <= 0.0 ==> x <= 0.0
  {
  }

  /** The price after a step with rate of return `r`: p * exp(r). A positive
      price stays positive and moves in the direction of `r`. */
  function MovePrice(price: real, r: real, exp: real -> real): (q: real)
    requires ExpLaw(exp)
    ensures r == 0.0 ==> q == price
    ensures price > 0.0 ==> q > 0.0
    ensures price >= 0.0 ==> q >= 0.0
    ensures price > 0.0 ==> (q > price <==> r > 0.0) && (q < price <==> r < 0.0)
  {
    var e := exp(r);
    assert e > 0.0;
    assert r > 0.0 ==> e > 1.0 by {
      if r > 0.0 { assert exp(0.0) < exp(r); }
    }
    assert r < 0.0 ==> e < 1.0 by {
      if r < 0.0 { assert exp(r) < exp(0.0); }
    }
    price * e
  }

  // ---------------------------------------------------------------------
  // Setup

  /** Builds the market. `draws` are the uniform threshold draws, one per
      investor; `priceDraw` is the uniform initial price; the first
      `numTrack` entries of the random ordering `order` are the tracked
      investors (a sample without replacement). A negative or too large
      tracked count is rejected. */
  function Setup(cfg: Config, draws: seq<real>, priceDraw: real, order: seq<nat>): (o: SetupOutcome)
    requires |draws| == cfg.n
    requires forall i :: 0 <= i < |draws| ==> 0.0 <= draws[i] < 1.0
    requires 0.0 <= priceDraw < 1.0
    requires IsPermutation(order, cfg.n)
    ensures o.Rejected? <==> cfg.numTrack < 0 || cfg.numTrack > cfg.n
    ensures o.Rejected? ==> (o.reason == NegativeTrackCount <==> cfg.numTrack < 0)
    ensures o.Built? ==> WellFormed(cfg, o.market)
    ensures o.Built? ==>
      && o.market.signal == 0.0 && o.market.priceChange == 0.0
      && o.market.price == priceDraw && 0.0 <= o.market.price < 1.0
      && o.market.tracked == order[..cfg.numTrack]
      && |o.market.tracked| == cfg.numTrack
      && Distinct(o.market.tracked)
      && forall i :: 0 <= i < |o.market.agents| ==>
           o.market.agents[i].strategy == 0
           && o.market.agents[i].holdings == InitialHoldings
           && o.market.agents[i].threshold == draws[i]
  {
    if cfg.numTrack < 0 then Rejected(NegativeTrackCount)
    else if cfg.numTrack > cfg.n then Rejected(TooManyTracked)
    else
      var agents := seq(cfg.n, i requires 0 <= i < cfg.n => InvestorAgent.Setup(draws[i]));
      Built(Market(agents, 0.0, 0.0, priceDraw, order[..cfg.numTrack]))
  }

  /** The state a market keeps between steps. */
  predicate WellFormed(cfg: Config, m: Market) {
    && |m.agents| == cfg.n
    && AllValidStrategies(m.agents)
    && AllThresholdsNonNegative(m.agents)
    && m.price >= 0.0
    && TrackedInRange(m.tracked, cfg.n)
    && Distinct(m.tracked)
  }

  // ---------------------------------------------------------------------
  // The phases of a step

  /** Strategy phase: every investor applies the threshold rule to the same
      signal, so every active investor trades in the direction of the signal;
      thresholds and holdings are untouched. */
  function UpdateStrategies(agents: seq<Investor>, signal: real): (r: seq<Investor>)
    ensures |r| == |agents|
    ensures forall i {:trigger r[i]} :: 0 <= i < |r| ==>
      ValidStrategy(r[i].strategy) && (r[i].strategy == 0 || r[i].strategy == Sign(signal))
    ensures forall i {:trigger r[i]} :: 0 <= i < |r| ==>
      (r[i].strategy != 0 <==> signal != 0.0 && Abs(signal) > agents[i].threshold)
    ensures forall i {:trigger r[i]} :: 0 <= i < |r| ==>
      r[i].threshold == agents[i].threshold && r[i].holdings == agents[i].holdings
  {
    seq(|agents|, i requires 0 <= i < |agents| => UpdateStrategy(agents[i], signal))
  }

  /** Trade phase: every investor's holdings move by the strategy just
      decided; strategies and thresholds are untouched. */
  function TradeAll(agents: seq<Investor>): (r: seq<Investor>)
    ensures |r| == |agents|
    ensures forall i {:trigger r[i]} :: 0 <= i < |r| ==>
      r[i].strategy == agents[i].strategy && r[i].threshold == agents[i].threshold
    ensures forall i {:trigger r[i]} :: 0 <= i < |r| && ValidStrategy(agents[i].strategy) ==>
      r[i].holdings == agents[i].holdings + agents[i].strategy
    ensures forall i {:trigger r[i]} :: 0 <= i < |r| && !ValidStrategy(agents[i].strategy) ==>
      r[i].holdings == agents[i].holdings
  {
    seq(|agents|, i requires 0 <= i < |agents| => Trade(agents[i]))
  }

  /** Adaptation phase: every investor whose own coin falls below `s` takes
      the magnitude of the shared price change as its threshold, the others
      keep theirs; strategies and holdings are untouched. */
  function UpdateThresholds(agents: seq<Investor>, priceChange: real, coins: seq<real>, s: real): (r: seq<Investor>)
    requires |coins| == |agents|
    ensures |r| == |agents|
    ensures forall i {:trigger r[i]} :: 0 <= i < |r| && coins[i] < s ==> r[i].threshold == Abs(priceChange)
    ensures forall i {:trigger r[i]} :: 0 <= i < |r| && coins[i] >= s ==> r[i].threshold == agents[i].threshold
    ensures forall i {:trigger r[i]} :: 0 <= i < |r| ==>
      r[i].strategy == agents[i].strategy && r[i].holdings == agents[i].holdings
  {
    seq(|agents|, i requires 0 <= i < |agents| => UpdateThreshold(agents[i], priceChange, coins[i], s))
  }

  /** The holdings of the tracked investors, in tracking order. */
  function TrackedHoldings(agents: seq<Investor>, tracked: seq<nat>): (h: seq<int>)
    requires TrackedInRange(tracked, |agents|)
    ensures |h| == |tracked|
    ensures forall j :: 0 <= j < |h| ==> h[j] == agents[tracked[j]].holdings
    decreases |tracked|
  {
    if |tracked| == 0 then []
    else
      var k := |tracked| - 1;
      TrackedHoldings(agents, tracked[..k]) + [agents[tracked[k]].holdings]
  }

  /** The values recorded for a market after a step: the tracked investors'
      holdings in tracking order, the price and price change as they stand,
      an excess demand in [-N, N] and a non-negative average threshold for a
      population in the usual ranges, and a volume of at most N. */
  function RecordOf(m: Market): (rec: Record)
    requires |m.agents| >= 1 && TrackedInRange(m.tracked, |m.agents|)
    ensures |rec.trackedHoldings| == |m.tracked|
    ensures forall j :: 0 <= j < |m.tracked| ==> rec.trackedHoldings[j] == m.agents[m.tracked[j]].holdings
    ensures rec.price == m.price && rec.priceChange == m.priceChange
    ensures rec.tradingVolume <= |m.agents|
    ensures AllValidStrategies(m.agents) ==> -|m.agents| <= rec.excessDemand <= |m.agents|
    ensures AllThresholdsNonNegative(m.agents) ==> rec.averageThreshold >= 0.0
  {
    assert AllValidStrategies(m.agents) ==> -|m.agents| <= ExcessDemand(m.agents) <= |m.agents| by {
      if AllValidStrategies(m.agents) { DemandBounds(m.agents, |m.agents|); }
    }

    Record(
      TrackedHoldings(m.agents, m.tracked),
      m.price,
      m.priceChange,
      ExcessDemand(m.agents),
      AverageThreshold(m.agents),
      TradingVolume(m.agents))
  }

  /** One step of the market, given the signal drawn for it, one adaptation
      coin per investor and the exponential. */
  function Step(cfg: Config, m: Market, signal: real, coins: seq<real>, exp: real -> real): (out: Market)
    requires cfg.n >= 1 && cfg.lambda != 0.0
    requires |m.agents| == cfg.n && |coins| == cfg.n
    requires TrackedInRange(m.tracked, cfg.n)
    requires ExpLaw(exp)
    ensures |out.agents| == cfg.n
    ensures out.tracked == m.tracked && out.signal == signal
  {
    var decided := UpdateStrategies(m.agents, signal);
    var traded := TradeAll(decided);
    var r := PriceChange(ExcessDemand(traded), cfg.n, cfg.lambda);
    var price := MovePrice(m.price, r, exp);
    var adapted := UpdateThresholds(traded, r, coins, cfg.s);
    Market(adapted, signal, r, price, m.tracked)
  }

  /** The phases of a step, in order: strategies are decided with the
      previous thresholds, each trade moves the holdings by the strategy just
      decided, the price change is the impact of this step's excess demand
      and moves the price, and thresholds adapt to the new price change. */
  lemma StepPhases(cfg: Config, m: Market, signal: real, coins: seq<real>, exp: real -> real)
    requires cfg.n >= 1 && cfg.lambda != 0.0
    requires |m.agents| == cfg.n && |coins| == cfg.n
    requires TrackedInRange(m.tracked, cfg.n)
    requires ExpLaw(exp)
    ensures var out := Step(cfg, m, signal, coins, exp);
      && (forall i :: 0 <= i < cfg.n ==>
            out.agents[i].strategy == UpdateStrategy(m.agents[i], signal).strategy)
      && (forall i :: 0 <= i < cfg.n ==>
            out.agents[i].holdings == m.agents[i].holdings + out.agents[i].strategy)
      && out.priceChange == PriceChange(ExcessDemand(out.agents), cfg.n, cfg.lambda)
      && out.price == MovePrice(m.price, out.priceChange, exp)
      && (forall i :: 0 <= i < cfg.n ==>
            out.agents[i].threshold
              == if coins[i] < cfg.s then Abs(out.priceChange) else m.agents[i].threshold)
  {
    var decided := UpdateStrategies(m.agents, signal);
    var traded := TradeAll(decided);
    var out := Step(cfg, m, signal, coins, exp);
    assert forall i :: 0 <= i < cfg.n ==>
      out.agents[i] == AgentStep(m.agents[i], signal, out.priceChange, coins[i], cfg.s);
    StrategiesOnly(traded, out.agents, cfg.n);
  }

  // ---------------------------------------------------------------------
  // Lemmas about aggregates

  /** Excess demand and trading volume depend only on the strategies. */
  lemma {:induction false} StrategiesOnly(xs: seq<Investor>, ys: seq<Investor>, k: nat)
    requires k <= |xs| == |ys|
    requires forall i :: 0 <= i < |xs| ==> xs[i].strategy == ys[i].strategy
    ensures DemandUpTo(xs, k) == DemandUpTo(ys, k)
    ensures VolumeUpTo(xs, k) == VolumeUpTo(ys, k)
    decreases k
  {
    if k > 0 {
      StrategiesOnly(xs, ys, k - 1);
    }
  }

  /** When every active investor trades in direction `d`, the excess demand
      is `d` times the trading volume. */
  lemma {:induction false} OneSidedDemand(agents: seq<Investor>, d: int, k: nat)
    requires d == 1 || d == -1
    requires k <= |agents|
    requires forall i :: 0 <= i < |agents| ==> agents[i].strategy == 0 || agents[i].strategy == d
    ensures DemandUpTo(agents, k) == d * VolumeUpTo(agents, k)
    decreases k
  {
    if k > 0 {
      OneSidedDemand(agents, d, k - 1);
    }
  }

  /** A population with no active investor has no excess demand. */
  lemma {:induction false} ZeroStrategiesNoDemand(agents: seq<Investor>, k: nat)
    requires k <= |agents|
    requires forall i :: 0 <= i < |agents| ==> agents[i].strategy == 0
    ensures DemandUpTo(agents, k) == 0
    decreases k
  {
    if k > 0 {
      ZeroStrategiesNoDemand(agents, k - 1);
    }
  }

  /** The total holdings of the first `k` investors. */
  function HoldingsUpTo(agents: seq<Investor>, k: nat): int
    requires k <= |agents|
    decreases k
  {
    if k == 0 then 0 else HoldingsUpTo(agents, k - 1) + agents[k - 1].holdings
  }

  function TotalHoldings(agents: seq<Investor>): int {
    HoldingsUpTo(agents, |agents|)
  }

  /** If every investor's holdings moved by its strategy, the total holdings
      moved by the excess demand. */
  lemma {:induction false} TotalMovesByDemand(before: seq<Investor>, after: seq<Investor>, k: nat)
    requires k <= |before| == |after|
    requires forall i :: 0 <= i < |after| ==>
      after[i].holdings == before[i].holdings + after[i].strategy
    ensures HoldingsUpTo(after, k) == HoldingsUpTo(before, k) + DemandUpTo(after, k)
    decreases k
  {
    if k > 0 {
      TotalMovesByDemand(before, after, k - 1);
    }
  }

  // ---------------------------------------------------------------------
  // Lemmas about a step

  /** The requirements a step places on the state before it. */
  predicate CanStep(cfg: Config, m: Market, coins: seq<real>) {
    && cfg.n >= 1 && cfg.lambda != 0.0
    && |m.agents| == cfg.n && |coins| == cfg.n
    && TrackedInRange(m.tracked, cfg.n)
  }

  /** A step keeps the population size and the tracked investors, keeps every
      strategy in {-1, 0, 1} and every threshold non-negative, and keeps a
      positive price positive. */
  lemma StepPreservesWellFormed(cfg: Config, m: Market, signal: real, coins: seq<real>, exp: real -> real)
    requires CanStep(cfg, m, coins) && ExpLaw(exp)
    requires WellFormed(cfg, m)
    ensures WellFormed(cfg, Step(cfg, m, signal, coins, exp))
    ensures m.price > 0.0 ==> Step(cfg, m, signal, coins, exp).price > 0.0
  {
    StepPhases(cfg, m, signal, coins, exp);
    var m' := Step(cfg, m, signal, coins, exp);
    forall i | 0 <= i < |m'.agents|
      ensures ValidStrategy(m'.agents[i].strategy) && m'.agents[i].threshold >= 0.0
    {
      assert m.agents[i].threshold >= 0.0;
    }
  }

  /** All investors see the same signal, so every active investor trades in
      the direction of the signal, and the magnitude of the excess demand is
      the trading volume. */
  lemma StepSameSign(cfg: Config, m: Market, signal: real, coins: seq<real>, exp: real -> real)
    requires CanStep(cfg, m, coins) && ExpLaw(exp)
    ensures var agents := Step(cfg, m, signal, coins, exp).agents;
      && (forall i :: 0 <= i < |agents| && agents[i].strategy != 0 ==> agents[i].strategy == Sign(signal))
      && ExcessDemand(agents) == Sign(signal) * TradingVolume(agents)
      && (ExcessDemand(agents) == TradingVolume(agents) || ExcessDemand(agents) == -(TradingVolume(agents) as int))
  {
    StepPhases(cfg, m, signal, coins, exp);
    var agents := Step(cfg, m, signal, coins, exp).agents;
    if signal == 0.0 {
      forall i | 0 <= i < |agents| ensures agents[i].strategy == 0 {
        assert agents[i].strategy == UpdateStrategy(m.agents[i], signal).strategy;
      }
      NoVolumeIffInactive(agents, |agents|);
      ZeroStrategiesNoDemand(agents, |agents|);
    } else {
      var d := Sign(signal);
      forall i | 0 <= i < |agents| && agents[i].strategy != 0
        ensures agents[i].strategy == d
      {
        assert agents[i].strategy == UpdateStrategy(m.agents[i], signal).strategy;
      }
      OneSidedDemand(agents, d, |agents|);
      if d == 1 {
        assert ExcessDemand(agents) == TradingVolume(agents);
      } else {
        assert ExcessDemand(agents) == -(TradingVolume(agents) as int);
      }
    }
  }

  /** Phase ordering as a per-investor reference: after a step each investor
      equals one investor step driven by the shared signal, its own coin and
      the new price change; that price change is computed from the strategies
      the previous thresholds produced. */
  lemma StepIsAgentwise(cfg: Config, m: Market, signal: real, coins: seq<real>, exp: real -> real)
    requires CanStep(cfg, m, coins) && ExpLaw(exp)
    ensures var m' := Step(cfg, m, signal, coins, exp);
      && m'.priceChange == PriceChange(ExcessDemand(UpdateStrategies(m.agents, signal)), cfg.n, cfg.lambda)
      && forall i :: 0 <= i < cfg.n ==>
           m'.agents[i] == AgentStep(m.agents[i], signal, m'.priceChange, coins[i], cfg.s)
  {
    StepPhases(cfg, m, signal, coins, exp);
    var m' := Step(cfg, m, signal, coins, exp);
    StrategiesOnly(m'.agents, UpdateStrategies(m.agents, signal), cfg.n);
    forall i | 0 <= i < cfg.n
      ensures m'.agents[i] == AgentStep(m.agents[i], signal, m'.priceChange, coins[i], cfg.s)
    {
      var a := m'.agents[i];
      var b := AgentStep(m.agents[i], signal, m'.priceChange, coins[i], cfg.s);
      assert a.strategy == b.strategy && a.holdings == b.holdings && a.threshold == b.threshold;
    }
  }

  /** Zero excess demand gives a zero price change and leaves the price as it was. */
  lemma StepZeroDemandKeepsPrice(cfg: Config, m: Market, signal: real, coins: seq<real>, exp: real -> real)
    requires CanStep(cfg, m, coins) && ExpLaw(exp)
    requires ExcessDemand(Step(cfg, m, signal, coins, exp).agents) == 0
    ensures Step(cfg, m, signal, coins, exp).priceChange == 0.0
    ensures Step(cfg, m, signal, coins, exp).price == m.price
  {
    StepPhases(cfg, m, signal, coins, exp);
  }

  /** In a market of positive depth the price rises exactly when the excess
      demand is positive and falls exactly when it is negative. */
  lemma StepPriceFollowsDemand(cfg: Config, m: Market, signal: real, coins: seq<real>, exp: real -> real)
    requires CanStep(cfg, m, coins) && ExpLaw(exp)
    requires cfg.lambda > 0.0 && m.price > 0.0
    ensures var m' := Step(cfg, m, signal, coins, exp);
      && (m'.price > m.price <==> ExcessDemand(m'.agents) > 0)
      && (m'.price < m.price <==> ExcessDemand(m'.agents) < 0)
  {
    StepPhases(cfg, m, signal, coins, exp);
  }

  /** Trading conserves assets up to the order flow: the total holdings change
      by exactly the excess demand. */
  lemma StepTotalHoldings(cfg: Config, m: Market, signal: real, coins: seq<real>, exp: real -> real)
    requires CanStep(cfg, m, coins) && ExpLaw(exp)
    ensures var m' := Step(cfg, m, signal, coins, exp);
      TotalHoldings(m'.agents) == TotalHoldings(m.agents) + ExcessDemand(m'.agents)
  {
    StepPhases(cfg, m, signal, coins, exp);
    var m' := Step(cfg, m, signal, coins, exp);
    TotalMovesByDemand(m.agents, m'.agents, cfg.n);
  }

  /** The recorded aggregates: excess demand in [-N, N], trading volume in
      [0, N], the price change the impact law gives for that excess demand, a non-negative
      average threshold, and the holdings of the tracked investors. */
  lemma StepRecordBounds(cfg: Config, m: Market, signal: real, coins: seq<real>, exp: real -> real)
    requires CanStep(cfg, m, coins) && ExpLaw(exp)
    requires WellFormed(cfg, m)
    ensures var out := Step(cfg, m, signal, coins, exp);
      var rec := RecordOf(out);
      && -(cfg.n as int) <= rec.excessDemand <= cfg.n
      && rec.tradingVolume <= cfg.n
      && rec.priceChange == PriceChange(rec.excessDemand, cfg.n, cfg.lambda)
      && rec.averageThreshold >= 0.0
      && rec.price == out.price
      && |rec.trackedHoldings| == |m.tracked|
      && forall j :: 0 <= j < |m.tracked| ==>
           rec.trackedHoldings[j] == out.agents[m.tracked[j]].holdings
  {
    StepPhases(cfg, m, signal, coins, exp);
    StepPreservesWellFormed(cfg, m, signal, coins, exp);
    DemandBounds(Step(cfg, m, signal, coins, exp).agents, cfg.n);
  }

  /** With an adaptation probability of zero or less (uniform coins never fall
      below it) no threshold changes; with probability one every threshold
      becomes the magnitude of the new price change. */
  lemma StepAdaptationExtremes(cfg: Config, m: Market, signal: real, coins: seq<real>, exp: real -> real)
    requires CanStep(cfg, m, coins) && ExpLaw(exp)
    requires forall i :: 0 <= i < |coins| ==> 0.0 <= coins[i] < 1.0
    ensures var m' := Step(cfg, m, signal, coins, exp);
      && (cfg.s <= 0.0 ==> forall i :: 0 <= i < cfg.n ==> m'.agents[i].threshold == m.agents[i].threshold)
      && (cfg.s >= 1.0 ==> forall i :: 0 <= i < cfg.n ==> m'.agents[i].threshold == Abs(m'.priceChange))
  {
    StepPhases(cfg, m, signal, coins, exp);
  }

  // ---------------------------------------------------------------------
  // Worked scenarios

  /** Excess demand is buyers minus sellers and volume is buyers plus
      sellers, so the two differ by twice the number of sellers. */
  lemma {:induction false} DemandVolumeParity(agents: seq<Investor>, k: nat)
    requires k <= |agents| && AllValidStrategies(agents)
    ensures (VolumeUpTo(agents, k) - DemandUpTo(agents, k)) % 2 == 0
    decreases k
  {
    if k > 0 {
      DemandVolumeParity(agents, k - 1);
      assert ValidStrategy(agents[k - 1].strategy);
    }
  }

  /** Buy and sell orders that cancel out (for instance one buyer and one
      seller) give no excess demand, no price change and no price move; the
      active investors then split evenly into buyers and sellers, so the
      trading volume is even. */
  lemma BalancedOrdersKeepPrice(agents: seq<Investor>, lambda: real, p: real, exp: real -> real)
    requires |agents| >= 1 && lambda != 0.0 && ExpLaw(exp)
    requires AllValidStrategies(agents)
    requires ExcessDemand(agents) == 0
    ensures PriceChange(ExcessDemand(agents), |agents|, lambda) == 0.0
    ensures MovePrice(p, PriceChange(ExcessDemand(agents), |agents|, lambda), exp) == p
    ensures TradingVolume(agents) % 2 == 0
  {
    DemandVolumeParity(agents, |agents|);
  }

  /** A single buyer: with threshold 0.5 and signal 0.7 the lone investor of
      a one-investor market buys one asset and keeps its threshold (s = 0). */
  lemma SingleBuyerTrades(cfg: Config, m: Market, p: real, exp: real -> real)
    requires ExpLaw(exp)
    requires cfg == Config(1, 0.001, 0.0, 10.0, 1)
    requires m == Market([Investor(0.5, 0, 100)], 0.0, 0.0, p, [0])
    ensures |Step(cfg, m, 0.7, [0.3], exp).agents| == 1
    ensures Step(cfg, m, 0.7, [0.3], exp).agents[0] == Investor(0.5, 1, 101)
  {
  }

  /** In a market of depth 10 that single buy is an excess demand of 1, gives
      a price change of 1 / (1 * 10) = 0.1 and multiplies the price by exp(0.1). */
  lemma SingleBuyerMovesPrice(cfg: Config, m: Market, p: real, exp: real -> real)
    requires ExpLaw(exp)
    requires cfg == Config(1, 0.001, 0.0, 10.0, 1)
    requires m == Market([Investor(0.5, 0, 100)], 0.0, 0.0, p, [0])
    ensures RecordOf(Step(cfg, m, 0.7, [0.3], exp)).excessDemand == 1
    ensures Step(cfg, m, 0.7, [0.3], exp).priceChange == 0.1
    ensures Step(cfg, m, 0.7, [0.3], exp).price == p * exp(0.1)
    ensures RecordOf(Step(cfg, m, 0.7, [0.3], exp)).trackedHoldings == [101]
  {
    SingleBuyerTrades(cfg, m, p, exp);
    var out := Step(cfg, m, 0.7, [0.3], exp);
    var agents := out.agents;
    assert ExcessDemand(agents) == 1 by {
      assert ExcessDemand(agents) == DemandUpTo(agents, 0) + agents[0].strategy;
    }
    assert out.priceChange * 10.0 == 1.0;
  }
}
