# Heterogeneous-threshold market simulation, modelled in Dafny

This project models the per-step update of an agent-based market:
- A fixed population of boundedly-rational investors watches one shared Gaussian signal.
- Each investor holds an individual threshold. An investor buys (+1) when the signal exceeds its threshold upwards and sells (-1) when the signal exceeds it downwards. Otherwise it stays inactive (0).
- Each trade moves the investor's integer holdings by its strategy.
- The price moves by the linear price-impact law: `r = Z / (N * lambda)` and then `p := p * exp(r)`. Here `Z` is the excess demand, the sum of the strategies.
- Each investor then, with probability `s`, replaces its threshold by `|r|`.
- After every step the market records:
  - the holdings of the tracked investors;
  - the price and the price change;
  - the excess demand;
  - the average threshold;
  - the trading volume, which is the number of active investors.

Files:
- `investor.dfy` (module `InvestorAgent`) holds the investor:
  - its setup, the threshold rule, the trade and the threshold adaptation;
  - the investor's view of one step (`AgentStep`);
  - the investor's history over many steps (`Live`).
- `market.dfy` (module `MarketModel`) holds the market:
  - the aggregates, the price-impact law, the setup and the three population phases;
  - one `Step` and the record taken after it;
  - the lemmas about one step, and a worked single-buyer scenario.
- `simulation.dfy` (module `Simulation`) holds a run of many steps, each starting from the fully updated state of the step before. It shows that each investor of a run lives exactly the single-investor history of `investor.dfy`.

Randomness and the exponential are inputs:
- The threshold draws, the initial-price draw and the tracked-investor sample are arguments of `MarketModel.Setup`. The sample is given as a permutation `order` of the population, and its first `numTrack` entries are the tracked investors.
- The per-step Gaussian signal and the per-investor uniform coins are arguments of `Step`.
- The exponential is a parameter `exp: real -> real` constrained by `ExpLaw`: `exp(0) = 1`, `exp(x) > 0`, and `exp` strictly increasing. Monotonicity is used only by `MovePrice`'s direction clause and by `StepPriceFollowsDemand`.

Edge cases, as the code handles them:
- **Setup errors.** Setup performs no explicit validation. It fails only when NumPy's sample without replacement refuses the requested number of tracked investors: more than `N`, or negative. The model rejects exactly those two cases, and a rejected setup yields no market.
- **Empty population.** `N = 0` passes setup, but a step would then divide by zero. `N >= 1` is therefore a precondition of `Step`.
- **Market depth.** The code divides by `lambda` without checking it. `Step` needs `lambda != 0`, and the lemmas that need a positive depth require `lambda > 0` themselves.
- **Initial price.** The initial price is drawn uniformly from `[0, 1)` and can be exactly `0`. A well-formed market therefore only has `price >= 0`. Positivity is proved under the hypothesis that the starting price is positive.
- **Signal scale.** Setup does not look at `D`. With a negative `D` every step fails when it draws the signal; this failure is not modelled (see "## Left out").
- **Trade.** A strategy value outside `{-1, 0, 1}` leaves the holdings unchanged. Every strategy the model produces is in that set.

## Model

| member | source | states |
|---|---|---|
| InvestorAgent.Setup | src/models/investor.py:37-43 | a new investor has strategy 0, holdings 100 and as threshold its uniform draw, which lies in [0, 1) |
| InvestorAgent.UpdateStrategy | src/models/investor.py:79-103 | the strategy is in {-1, 0, 1}; it is 1 exactly when the signal is positive and strictly above the threshold, and -1 exactly when the signal is negative and its magnitude is strictly above the threshold; a magnitude equal to or below the threshold gives 0; threshold and holdings are unchanged |
| InvestorAgent.Trade | src/models/investor.py:49-61 | holdings change by exactly the strategy for a strategy in {-1, 0, 1}, by nothing otherwise, and never by more than one; threshold and strategy are unchanged |
| InvestorAgent.UpdateThreshold | src/models/investor.py:67-77 | a coin below `s` sets the threshold to the magnitude of the price change; any other coin leaves the investor unchanged; a non-negative threshold stays non-negative; strategy and holdings are unchanged |
| InvestorAgent.AgentStep | src/models/investor.py:58-103 | one step of an investor: the strategy is the threshold rule applied with the old threshold; holdings move by that strategy; the threshold becomes the magnitude of the new price change on a successful coin and stays otherwise |
| InvestorAgent.HoldingsConservation | src/models/investor.py:43-61 | after any history, holdings equal the starting holdings plus the sum of the strategies used, one per step |
| InvestorAgent.FreshHoldings | src/models/investor.py:41-61 | a freshly set-up investor holds 100 plus the sum of its strategies after any history |
| InvestorAgent.LiveStaysSane | src/models/investor.py:67-103 | along any history from a non-negative threshold the threshold stays non-negative and the strategy stays in {-1, 0, 1} |
| MarketModel.ExcessDemandCounts | src/models/market.py:79-81 | the excess demand (`ExcessDemand`, the sum of all strategies) is the number of buyers minus the number of sellers, and the trading volume is the number of buyers plus the number of sellers, for strategies in {-1, 0, 1} |
| MarketModel.TradingVolume | src/models/market.py:81 | the count of active investors is at most the population size |
| MarketModel.DemandBounds | src/models/market.py:104 | with strategies in {-1, 0, 1} the sum of the first k strategies lies in [-k, k]; for k = N this is the excess demand in [-N, N] |
| MarketModel.NoVolumeIffInactive | src/models/market.py:81 | the trading volume is zero if and only if no investor is active |
| MarketModel.ThresholdSumNonNegative | src/models/market.py:80 | non-negative thresholds have a non-negative sum |
| MarketModel.AverageThreshold | src/models/market.py:80 | the mean threshold times N is the sum of the thresholds, and it is non-negative when all thresholds are |
| MarketModel.PriceChange | src/models/market.py:94-114 | the rate of return r satisfies r * (N * lambda) = Z; r is zero exactly when Z is zero; for lambda > 0, r has the sign of Z |
| MarketModel.PriceChangeBound | src/models/market.py:104-110 | for lambda > 0 and Z in [-N, N], the rate of return lies in [-1/lambda, 1/lambda] |
| MarketModel.MovePrice | src/models/market.py:98-117 | a zero rate of return keeps the price; a positive price stays positive and a non-negative one non-negative; a positive price rises exactly when r > 0 and falls exactly when r < 0 |
| MarketModel.Setup | src/models/market.py:21-39 | setup is rejected exactly when the tracked count is negative or exceeds N, with the reason telling which; otherwise the market is well formed, signal and price change are 0, the price is the price draw (in [0, 1)), the tracked investors are the first numTrack entries of the random ordering (so numTrack distinct valid indices), and every investor is freshly set up from its own draw |
| MarketModel.UpdateStrategies | src/models/market.py:58-59 | the strategy phase: every strategy is in {-1, 0, 1} and is either 0 or the sign of the shared signal; an investor is active exactly when the signal is nonzero and its magnitude strictly exceeds that investor's threshold; thresholds and holdings are untouched |
| MarketModel.TradeAll | src/models/market.py:61-62 | the trade phase: each investor's holdings move by its strategy (and stay put for a strategy outside {-1, 0, 1}); strategies and thresholds are untouched |
| MarketModel.UpdateThresholds | src/models/market.py:67-68 | the adaptation phase: an investor whose own coin is below s takes the magnitude of the shared price change as threshold, every other investor keeps its threshold; strategies and holdings are untouched |
| MarketModel.TrackedHoldings | src/models/market.py:72-74 | the recorded holdings are those of the tracked investors, one per tracked index and in tracking order |
| MarketModel.RecordOf | src/models/market.py:72-81 | the record of a market: the tracked investors' holdings in tracking order, the current price and price change, a volume of at most N, an excess demand in [-N, N] when all strategies are in {-1, 0, 1}, and a non-negative average threshold when all thresholds are non-negative |
| MarketModel.Step | src/models/market.py:41-68 | a step keeps the population size and the tracked investors, and stores the signal it was given |
| MarketModel.StepPhases | src/models/market.py:55-68 | phase order: each new strategy is the threshold rule applied with the previous threshold; holdings move by that strategy; the price change is the impact of the new excess demand and moves the price; each threshold adapts to that new price change on a successful coin and is kept otherwise |
| MarketModel.StrategiesOnly | src/models/market.py:79-81 | excess demand and trading volume depend only on the strategies |
| MarketModel.OneSidedDemand | src/models/market.py:79-81 | when all active investors trade in one direction d, the excess demand is d times the trading volume |
| MarketModel.ZeroStrategiesNoDemand | src/models/market.py:104 | a population without active investors has zero excess demand |
| MarketModel.TotalMovesByDemand | src/models/investor.py:58-61 | if every investor's holdings move by its strategy, total holdings move by the excess demand |
| MarketModel.StepPreservesWellFormed | src/models/market.py:56-68 | a step keeps strategies in {-1, 0, 1}, thresholds non-negative, the price non-negative and the tracked investors valid and distinct; a positive price stays positive |
| MarketModel.StepSameSign | src/models/market.py:55-59 | in one step every active investor trades in the direction of the shared signal; the excess demand is the sign of the signal times the volume, so its magnitude is the volume |
| MarketModel.StepIsAgentwise | src/models/market.py:56-68 | the step is investor-wise: each new investor is one investor step driven by the shared signal, its own coin and the new price change, which is computed from the strategies decided with the previous thresholds |
| MarketModel.StepZeroDemandKeepsPrice | src/models/market.py:104-117 | zero excess demand gives a zero price change and leaves the price unchanged |
| MarketModel.StepPriceFollowsDemand | src/models/market.py:104-117 | with lambda > 0 and a positive price, the price rises exactly when excess demand is positive and falls exactly when it is negative |
| MarketModel.StepTotalHoldings | src/models/market.py:61-65 | total holdings change in a step by exactly the excess demand |
| MarketModel.StepRecordBounds | src/models/market.py:70-81 | the recorded values: excess demand in [-N, N]; volume at most N; a price change equal to the impact of the recorded excess demand; a non-negative average threshold; the new price; the holdings of the tracked investors |
| MarketModel.StepAdaptationExtremes | src/models/investor.py:76-77 | with uniform coins in [0, 1), s <= 0 keeps every threshold and s >= 1 sets every threshold to the magnitude of the new price change |
| MarketModel.DemandVolumeParity | src/models/market.py:79-81 | with strategies in {-1, 0, 1}, trading volume and excess demand differ by an even number (twice the number of sellers) |
| MarketModel.BalancedOrdersKeepPrice | src/models/market.py:104-117 | when buy and sell orders cancel (excess demand 0, e.g. one buyer and one seller) the price change is 0, the price is unchanged, and the trading volume is even |
| MarketModel.SingleBuyerTrades | src/models/investor.py:58-101 | a lone investor with threshold 0.5 that sees signal 0.7 buys and ends with holdings 101 |
| MarketModel.SingleBuyerMovesPrice | src/models/market.py:72-117 | that single buy in a market of depth 10 records excess demand 1 and tracked holdings [101], and gives a price change of 0.1 and a price of p * exp(0.1) |
| Simulation.After | src/models/market.py:41-68 | a run of k steps keeps the population size and the tracked investors |
| Simulation.Records | src/models/market.py:70-81 | a run records one record per step |
| Simulation.AfterDependsOnPast | src/models/market.py:41-68 | two runs whose first k draws agree are in the same state after k steps |
| Simulation.RunStaysWellFormed | src/models/market.py:56-68 | every state of a run from a well-formed market is well formed, and a positive starting price stays positive |
| Simulation.RecordsBounded | src/models/market.py:77-81 | every record of a run has excess demand in [-N, N] of magnitude equal to the volume, a volume at most N and a non-negative average threshold |
| Simulation.RunIsLive | src/models/market.py:55-68 | after k steps of a run, investor i is exactly the investor obtained by living its own history: the shared signals, the price changes the run produced and its own coins |
| InvestorAgent.StrategiesAreLive | src/models/investor.py:58-103 | the j-th strategy of a history is the strategy held after living its first j + 1 ticks |
| Simulation.RunStrategies | src/models/market.py:55-68 | the j-th strategy of investor i's history in a run is the strategy it held after step j + 1 of the run |
| Simulation.RunHoldings | src/models/investor.py:58-61 | after k steps of a run each investor holds its starting holdings plus the sum of the strategies of its history (by RunStrategies, its strategies in those k steps), derived from InvestorAgent.HoldingsConservation |
| Simulation.SetupThenRun | src/models/market.py:21-68 | a run straight from setup keeps every investor at 100 plus the sum of its strategies, and every state is well formed |

## Left out

- Random number generation (`np.random.uniform`, `np.random.normal`, `np.random.choice`). Every draw is an input, so reproducibility and the distributions are not modelled. Draws that the code guarantees to lie in [0, 1) are required to.
- `Config.d`, the standard deviation of the signal. It is carried but unused, because the signal itself is an input (see the `MarketModel.Step` line on a negative `d`).
- Floating point. Prices, thresholds and rates of return are `real`s, so NaN, infinities, overflow and rounding of division and of `np.exp` are not modelled.
- `exp`. It is an abstract parameter with the laws stated in `ExpLaw`, not the real exponential.
- MarketModel.Step: with a negative `d` the code's signal draw raises an error on every step, although setup succeeds. The model takes the signal as an input and does not model this failure.
- `MarketModel.Step`: requires `N >= 1` and `lambda != 0`. With `N = 0` or `lambda = 0` the code divides by zero and continues with NaN or infinite values, which reals cannot represent.
- Negative population sizes. `Config.n` is a `nat`.
- The agentpy framework (`Model`, `Agent`, `AgentList`, `record`). The population is a `seq<Investor>`, and recording returns a `Record` value instead of writing to the framework's logs.
- `src/main.py` (run driver, printing and file output) and `src/config.py` (a parameter dictionary). Neither is part of this model.
- `tests/test_investor.py`. Its test bodies are empty.
- The precise statistical independence of the draws. Each investor gets its own coin per step and the signal is shared, but the model makes no probabilistic statements.
