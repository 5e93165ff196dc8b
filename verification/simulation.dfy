/**
 A run of the market: setup once, then one step per set of draws, each step
 starting from the fully updated state of the step before.
 */
module Simulation {
  import opened InvestorAgent
  import opened MarketModel

  /** The random draws of one step: the shared Gaussian signal and one
      uniform adaptation coin per investor. */
  datatype Draws = Draws(signal: real, coins: seq<real>)

  predicate DrawsFit(cfg: Config, inputs: seq<Draws>) {
    forall k :: 0 <= k < |inputs| ==> |inputs[k].coins| == cfg.n
  }

  /** What a run needs of its starting market and parameters. */
  predicate CanRun(cfg: Config, m: Market, inputs: seq<Draws>) {
    && cfg.n >= 1 && cfg.lambda != 0.0
    && |m.agents| == cfg.n
    && TrackedInRange(m.tracked, cfg.n)
    && DrawsFit(cfg, inputs)
  }

  /** The market after the first `k` steps of a run. */
  function After(cfg: Config, m: Market, inputs: seq<Draws>, exp: real -> real, k: nat): (m': Market)
    requires CanRun(cfg, m, inputs) && ExpLaw(exp)
    requires k <= |inputs|
    ensures |m'.agents| == cfg.n && m'.tracked == m.tracked
    decreases k
  {
    if k == 0 then m
    else
      var prev := After(cfg, m, inputs, exp, k - 1);
      Step(cfg, prev, inputs[k - 1].signal, inputs[k - 1].coins, exp)
  }

  /** The recorded series: one record per step, taken from the market after
      that step. */
  function Records(cfg: Config, m: Market, inputs: seq<Draws>, exp: real -> real): (rs: seq<Record>)
    requires CanRun(cfg, m, inputs) && ExpLaw(exp)
    ensures |rs| == |inputs|
  {
    seq(|inputs|, k requires 0 <= k < |inputs| => RecordOf(After(cfg, m, inputs, exp, k + 1)))
  }

  /** The first k steps of a run depend only on the draws of those steps:
      two runs whose first k draws agree are in the same state after k steps. */
  lemma {:induction false} AfterDependsOnPast(cfg: Config, m: Market, xs: seq<Draws>, ys: seq<Draws>, exp: real -> real, k: nat)
    requires CanRun(cfg, m, xs) && CanRun(cfg, m, ys) && ExpLaw(exp)
    requires k <= |xs| && k <= |ys|
    requires forall j :: 0 <= j < k ==> xs[j] == ys[j]
    ensures After(cfg, m, xs, exp, k) == After(cfg, m, ys, exp, k)
    decreases k
  {
    if k > 0 {
      AfterDependsOnPast(cfg, m, xs, ys, exp, k - 1);
      assert xs[k - 1] == ys[k - 1];
    }
  }

  /** Every state of a run from a well-formed market is well formed; a
      positive price stays positive throughout. */
  lemma {:induction false} RunStaysWellFormed(cfg: Config, m: Market, inputs: seq<Draws>, exp: real -> real, k: nat)
    requires CanRun(cfg, m, inputs) && ExpLaw(exp)
    requires WellFormed(cfg, m)
    requires k <= |inputs|
    ensures WellFormed(cfg, After(cfg, m, inputs, exp, k))
    ensures m.price > 0.0 ==> After(cfg, m, inputs, exp, k).price > 0.0
    decreases k
  {
    if k > 0 {
      var prev := After(cfg, m, inputs, exp, k - 1);
      assert WellFormed(cfg, prev) && (m.price > 0.0 ==> prev.price > 0.0) by {
        RunStaysWellFormed(cfg, m, inputs, exp, k - 1);
      }
      var next := Step(cfg, prev, inputs[k - 1].signal, inputs[k - 1].coins, exp);
      assert WellFormed(cfg, next) && (m.price > 0.0 ==> next.price > 0.0) by {
        StepPreservesWellFormed(cfg, prev, inputs[k - 1].signal, inputs[k - 1].coins, exp);
      }
      assert After(cfg, m, inputs, exp, k) == next;
    }
  }

  /** Every recorded step of a run from a well-formed market has excess
      demand in [-N, N] whose magnitude is the trading volume, a volume in
      [0, N] and a non-negative average threshold. */
  lemma RecordsBounded(cfg: Config, m: Market, inputs: seq<Draws>, exp: real -> real, k: nat)
    requires CanRun(cfg, m, inputs) && ExpLaw(exp)
    requires WellFormed(cfg, m)
    requires k < |inputs|
    ensures var rec := Records(cfg, m, inputs, exp)[k];
      && -(cfg.n as int) <= rec.excessDemand <= cfg.n
      && rec.tradingVolume <= cfg.n
      && (rec.excessDemand == rec.tradingVolume || rec.excessDemand == -(rec.tradingVolume as int))
      && rec.averageThreshold >= 0.0
  {
    var prev := After(cfg, m, inputs, exp, k);
    assert WellFormed(cfg, prev) by {
      RunStaysWellFormed(cfg, m, inputs, exp, k);
    }
    var out := Step(cfg, prev, inputs[k].signal, inputs[k].coins, exp);
    var rec := RecordOf(out);
    assert Records(cfg, m, inputs, exp)[k] == rec;
    assert -(cfg.n as int) <= rec.excessDemand <= cfg.n && rec.tradingVolume <= cfg.n
      && rec.averageThreshold >= 0.0 by {
      StepRecordBounds(cfg, prev, inputs[k].signal, inputs[k].coins, exp);
    }
    assert rec.excessDemand == rec.tradingVolume || rec.excessDemand == -(rec.tradingVolume as int) by {
      StepSameSign(cfg, prev, inputs[k].signal, inputs[k].coins, exp);
    }
  }

  /** What investor `i` observes in the first `k` steps of a run: the
      shared signal, the price change that step produced, and its own coin. */
  function TicksOf(cfg: Config, m: Market, inputs: seq<Draws>, exp: real -> real, i: nat, k: nat): (ts: seq<Tick>)
    requires CanRun(cfg, m, inputs) && ExpLaw(exp)
    requires i < cfg.n && k <= |inputs|
    ensures |ts| == k
  {
    seq(k, j requires 0 <= j < k =>
      Tick(inputs[j].signal, After(cfg, m, inputs, exp, j + 1).priceChange, inputs[j].coins[i]))
  }

  /** Each investor of a run lives exactly the single-investor history of
      what it observed: the market run and the investor's own history agree. */
  lemma {:induction false} RunIsLive(cfg: Config, m: Market, inputs: seq<Draws>, exp: real -> real, i: nat, k: nat)
    requires CanRun(cfg, m, inputs) && ExpLaw(exp)
    requires i < cfg.n && k <= |inputs|
    ensures After(cfg, m, inputs, exp, k).agents[i]
      == Live(m.agents[i], TicksOf(cfg, m, inputs, exp, i, k), cfg.s)
    decreases k
  {
    if k > 0 {
      RunIsLive(cfg, m, inputs, exp, i, k - 1);
      var prev := After(cfg, m, inputs, exp, k - 1);
      StepIsAgentwise(cfg, prev, inputs[k - 1].signal, inputs[k - 1].coins, exp);
      TicksPrefix(cfg, m, inputs, exp, i, k - 1, k);
    }
  }

  /** The first j ticks an investor observes in a run of k >= j steps are
      the ticks of the run of j steps. */
  lemma TicksPrefix(cfg: Config, m: Market, inputs: seq<Draws>, exp: real -> real, i: nat, j: nat, k: nat)
    requires CanRun(cfg, m, inputs) && ExpLaw(exp)
    requires i < cfg.n && j <= k <= |inputs|
    ensures TicksOf(cfg, m, inputs, exp, i, k)[..j] == TicksOf(cfg, m, inputs, exp, i, j)
  {
  }

  /** The strategies of investor `i`'s history are the strategies it held
      after each step of the run. */
  lemma RunStrategies(cfg: Config, m: Market, inputs: seq<Draws>, exp: real -> real, i: nat, j: nat, k: nat)
    requires CanRun(cfg, m, inputs) && ExpLaw(exp)
    requires i < cfg.n && j < k <= |inputs|
    ensures Strategies(m.agents[i], TicksOf(cfg, m, inputs, exp, i, k), cfg.s)[j]
      == After(cfg, m, inputs, exp, j + 1).agents[i].strategy
  {
    var ts := TicksOf(cfg, m, inputs, exp, i, k);
    var early := TicksOf(cfg, m, inputs, exp, i, j + 1);
    assert ts[..j + 1] == early by {
      TicksPrefix(cfg, m, inputs, exp, i, j + 1, k);
    }
    assert Strategies(m.agents[i], ts, cfg.s)[j] == Live(m.agents[i], ts[..j + 1], cfg.s).strategy by {
      StrategiesAreLive(m.agents[i], ts, cfg.s, j);
    }
    assert Live(m.agents[i], early, cfg.s).strategy == After(cfg, m, inputs, exp, j + 1).agents[i].strategy by {
      RunIsLive(cfg, m, inputs, exp, i, j + 1);
    }
  }

  /** Holdings conservation over a run: after k steps each investor holds its
      starting holdings plus the sum of the strategies it used in those steps. */
  lemma {:induction false} RunHoldings(cfg: Config, m: Market, inputs: seq<Draws>, exp: real -> real, i: nat, k: nat)
    requires CanRun(cfg, m, inputs) && ExpLaw(exp)
    requires i < cfg.n && k <= |inputs|
    ensures var ts := TicksOf(cfg, m, inputs, exp, i, k);
      After(cfg, m, inputs, exp, k).agents[i].holdings
        == m.agents[i].holdings + Sum(Strategies(m.agents[i], ts, cfg.s))
  {
    RunIsLive(cfg, m, inputs, exp, i, k);
    HoldingsConservation(m.agents[i], TicksOf(cfg, m, inputs, exp, i, k), cfg.s);
  }

  /** A run straight from setup: after k steps every investor holds 100 assets
      plus the sum of its strategies, and the state is well formed. */
  lemma {:induction false} SetupThenRun(cfg: Config, draws: seq<real>, priceDraw: real, order: seq<nat>,
                                              inputs: seq<Draws>, exp: real -> real, i: nat, k: nat)
    requires |draws| == cfg.n
    requires forall j :: 0 <= j < |draws| ==> 0.0 <= draws[j] < 1.0
    requires 0.0 <= priceDraw < 1.0
    requires IsPermutation(order, cfg.n)
    requires MarketModel.Setup(cfg, draws, priceDraw, order).Built?
    requires cfg.n >= 1 && cfg.lambda != 0.0 && DrawsFit(cfg, inputs) && ExpLaw(exp)
    requires i < cfg.n && k <= |inputs|
    ensures var m := MarketModel.Setup(cfg, draws, priceDraw, order).market;
      && After(cfg, m, inputs, exp, k).agents[i].holdings
         == InitialHoldings + Sum(Strategies(m.agents[i], TicksOf(cfg, m, inputs, exp, i, k), cfg.s))
      && WellFormed(cfg, After(cfg, m, inputs, exp, k))
  {
    var m := MarketModel.Setup(cfg, draws, priceDraw, order).market;
    RunHoldings(cfg, m, inputs, exp, i, k);
    RunStaysWellFormed(cfg, m, inputs, exp, k);
  }
}
