# Trading-strategy bots: RSI trend follower and CBBC-DCA, modelled in Dafny

The repository holds two strategy "bots" for an execution host. The host
invokes a strategy once per trigger (start, stop, candle close, order fill)
with lifecycle flags, the validated settings and, for the RSI bot, a
bot-scoped `state` object it persists between invocations. The strategy
yields effect commands back: `buy`, `sell`, `useDca` and `cancelSmartTrade`.

- **RSI strategy** (`strategies/rsiStrategy.mjs`). `onStart` is tested
  first and does nothing. `onStop` yields `cancelSmartTrade`. A normal tick
  lazily creates `state.trend = {direction: none, duration: 0, persisted:
  false, adviced: false}` and asks the host for the RSI value. A reading
  above `high` continues or restarts a "high" run. A reading below `low`
  does the same for a "low" run. A reading in between changes nothing. The
  tick then increments the run's duration and sets `persisted` once the
  duration reaches `persistence`. It yields one `sell` (high run) or `buy`
  (low run) market order of `quantity` the first time a run is persisted.
  `adviced` then blocks any repeat in that run.
- **CBBC-DCA strategy** (`strategies/cbbcDca.mjs`). It keeps no state.
  `onStop` is tested first and yields `cancelSmartTrade`. `onStart` then
  does nothing. On a normal tick it yields a `useDca` order whenever the
  consecutive-candle indicator reports a bearish run. The order has
  `quantity`, take profit `tpPercent / 100` and no safety orders.

Files:
- `wrappers.dfy`: `Option` and `Result`.
- `effects.dfy`: the effect vocabulary shared by both strategies.
- `rsi_strategy.dfy`: the RSI module. It holds the settings schema and the
  pure specification of one invocation (`InitTrend`, `TickTrend`, `Invoke`).
  It also holds the host-owned state as classes: `Trend` has the four
  mutable fields of `state.trend`, and `BotState` has the nullable `trend`
  field. The method `Rsi` updates those fields step by step, as the
  generator does, and is proved equal to `Invoke`.
- `rsi_properties.dfy`: lemmas over ticks and host invocations.
- `cbbc_dca.dfy`: the CBBC-DCA controller as a pure function, the candle
  predicates, the settings schema and the lemmas about them.

How the host protocol is modelled:
- Each generator is one call that returns the list of yielded effects.
- The value the RSI strategy requests with `useRSI(periods)` is a `real`
  parameter of the call. Only comparisons are made on it.
- The CBBC indicator result is an input record `{bullish, bearish}`.
- The RSI bot's required history is the constant `RsiStrategy.RequiredHistory`
  (15), taken from `strategies/rsiStrategy.mjs:127`.
- The CBBC bot's required history is `CbbcDca.RequiredHistory`, which is the
  configured `cbbcConsecutiveCandles` (`strategies/cbbcDca.mjs:97`).

## Behaviour worth knowing

- Neither strategy checks the candle count. Both rely on the host to honour
  the required history, so the model has no such guard.
- The schemas declare plain numbers. RSI's `persistence` and `periods` are
  only `positive()`, and CBBC's `cbbcConsecutiveCandles` has no constraint.
  They are therefore `real`s, and the RSI run length is compared as
  `duration >= persistence`.
- A direction flip resets `adviced`, but with `persistence <= 1` the same
  tick sets it again. The default persistence is 1, so the trade then fires
  on the first tick of the new run. `TrendRun` states that exactly.
- A stop is not remembered by either strategy. A later normal tick can trade
  again; only the host prevents that.
- Only a missing `state.trend` is initialised. A record that is present is
  used as it is, whatever its fields hold.

## Model

| member | source | states |
|---|---|---|
| `RsiStrategy.ParseSettings` | strategies/rsiStrategy.mjs:101-125 | omitted fields take the defaults high 70, low 30, periods 14, persistence 1, quantity 0.0001; validation succeeds exactly when the effective values meet the schema (both thresholds in [0, 100], the rest positive), success yields valid settings, and a failure lists exactly the offending fields |
| `RsiStrategy.Violations` | strategies/rsiStrategy.mjs:101-125 | lists each field whose constraint fails, and only those; empty exactly when the settings are valid |
| `RsiStrategy.Trade` | strategies/rsiStrategy.mjs:62-93 | the trade of a run is a `sell` for a high run and a `buy` for a low run, always a market order of `params.quantity` |
| `RsiStrategy.InitTrend` | strategies/rsiStrategy.mjs:25-34 | an existing trend record is kept as is; a missing one becomes direction none, duration 0, not persisted, not advised |
| `RsiStrategy.TickTrend` | strategies/rsiStrategy.mjs:39-97 | at most one effect per tick; a reading inside [low, high] leaves the whole record unchanged and yields nothing; a reading above `high` (tested first) or else below `low` restarts the run on a new direction with duration 1, or else continues it with duration + 1; persisted is kept within a run and set once duration >= persistence; the trade is yielded exactly when the run is persisted and was not advised before, and adviced is then set |
| `RsiStrategy.Invoke` | strategies/rsiStrategy.mjs:14-97 | a start, with or without the stop flag, yields nothing and leaves the state untouched (not even initialised); a stop alone yields exactly `cancelSmartTrade` and leaves the state untouched; a normal tick leaves an initialised trend and yields at most one effect; a neutral reading only initialises; a reading above `high`, or else below `low`, updates the initialised record and yields effects exactly as `TrendRun` describes for that direction; every order carries `quantity` and the market order type |
| `RsiStrategy.Rsi` | strategies/rsiStrategy.mjs:8-98 | the in-place update of `state.trend` (record replaced on a new direction, then duration incremented and flags set field by field) ends in the state and effects that `Invoke` specifies; the trend object is either the old one or a new one, and a replaced trend object is left unchanged |
| `RsiProperties.InitialTrendWellFormed` | strategies/rsiStrategy.mjs:25-34 | the lazily created record satisfies the trend invariant |
| `RsiProperties.TickPreservesWellFormed` | strategies/rsiStrategy.mjs:39-97 | a tick preserves the trend invariant: a directed record has duration >= 1, is persisted exactly when duration >= persistence, and is advised exactly when persisted |
| `RsiProperties.RunWithPauses` | strategies/rsiStrategy.mjs:39-97 | a run in direction d that sees only d or neutral readings grows by the number of d readings, and yields the trade once over the run, exactly when the run was not persisted before and is persisted at the end |
| `RsiProperties.OneTradePerRun` | strategies/rsiStrategy.mjs:39-94 | a run started from another direction, continued by d or neutral readings, yields exactly one trade if its d readings reach `persistence`, and none otherwise; its final record is persisted and advised exactly then |
| `RsiProperties.ConsecutiveReadings` | strategies/rsiStrategy.mjs:39-94 | k >= 1 consecutive high (or low) readings after a different direction yield exactly one `sell` (or `buy`) if k >= persistence, and none otherwise |
| `RsiProperties.NoRepeatWhileTrendContinues` | strategies/rsiStrategy.mjs:58-94 | once a run is advised, no sequence of readings that avoids the opposite direction yields anything more, and the run stays advised |
| `RsiProperties.ReplayKeepsWellFormed` | strategies/rsiStrategy.mjs:14-97 | over any sequence of start, stop and tick invocations the persisted trend is absent or satisfies the trend invariant |
| `RsiProperties.StartCallsAreInert` | strategies/rsiStrategy.mjs:14-17 | prepending a start invocation, with or without the stop flag, to any sequence of invocations changes neither the effects nor the final state |
| `RsiProperties.StartCallsAreInertAnywhere` | strategies/rsiStrategy.mjs:14-17 | inserting a start invocation at any position of a sequence of invocations changes neither the effects nor the final state |
| `RsiProperties.ReplayOfTicks` | strategies/rsiStrategy.mjs:25-97 | a sequence of normal host invocations on an initialised trend yields the same final trend and effects as the run of ticks over their readings, so the run lemmas hold for host invocations |
| `CbbcDca.CandleClassification` | strategies/cbbcDca.mjs:54-55 | no candle is both bullish and bearish, and a candle is neither exactly when close equals open |
| `CbbcDca.ParseSettings` | strategies/cbbcDca.mjs:83-92 | validation succeeds exactly when `quantity` is given; `tpPercent` defaults to 2 and `cbbcConsecutiveCandles` to 3; given values are kept |
| `CbbcDca.DefaultSettings` | strategies/cbbcDca.mjs:83-97 | with only a quantity given, the required history is 3 candles and the DCA take profit is 0.02 |
| `CbbcDca.DcaOrder` | strategies/cbbcDca.mjs:68-72 | the DCA order has the settings' quantity, a take-profit fraction that is `tpPercent` divided by 100, and no safety orders |
| `CbbcDca.Cbbc` | strategies/cbbcDca.mjs:26-77 | at most one effect; a stop, even with the start flag, yields exactly `cancelSmartTrade`; a start alone yields nothing; a normal tick yields an effect exactly when the indicator is bearish, and that effect is the DCA order; no entry on start or stop |
| `CbbcDca.EveryBearishTickOrders` | strategies/cbbcDca.mjs:65-76 | over any run of ticks the strategy yields one identical DCA order per bearish indicator result and nothing else, with no deduplication |
| `CbbcDca.OnlyBearishMatters` | strategies/cbbcDca.mjs:59-66 | the output depends on the indicator result only through its bearish flag |

## Left out

- RSI computation: the value `useRSI(periods)` would produce is a parameter, so `periods` is validated but not otherwise used.
- The consecutive-candle indicator (`indicators/cbbc.js`) is not part of this model. Its result is an input with no assumed properties.
- Console output, including the per-candle table of the last `max(5, n)` candles, is diagnostic only. The per-candle predicates are modelled on their own as `IsBullish` and `IsBearish`.
- What the host does with `buy`, `sell`, `useDca` and `cancelSmartTrade` belongs to the host library. Effects are plain values, and a safety order's fields are only a placeholder shape, since none is ever produced.
- Generator suspension and resumption: each invocation is one call returning the yielded effects in order.
- Schema library internals: type checking, coercion and the library's error format. A failed RSI validation is the list of offending fields, and a failed CBBC validation is the single missing-quantity error.
- Static host metadata: `displayName`, `description`, `runPolicy`, `watchers` and `timeframe`.
- JavaScript number semantics: settings and readings are exact reals, so NaN readings and precision loss of `duration` beyond 2^53 are not modelled.
- `CbbcDca.RequiredHistory` has no contract: it returns the configured consecutive-candle count, and `DefaultSettings` states its value under the defaults.
