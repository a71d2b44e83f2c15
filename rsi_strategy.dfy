/**
 * The RSI strategy: on every normal tick the RSI reading is classified
 * against the `high` and `low` thresholds, a trend run is tracked in the
 * host-persisted `state.trend`, and once a run has lasted `persistence`
 * ticks one `sell` (high run) or one `buy` (low run) is yielded.
 *
 * The pure functions below are the specification; the classes `Trend` and
 * `BotState` with the method `Rsi` are the step-by-step, in-place version
 * that the host drives, proved equal to the specification.
 */
module RsiStrategy {
  import opened Effects
  import Wrappers

  /** `state.trend.direction`: "none", "high" or "low". */
  datatype Direction = None | High | Low

  /** The value of `state.trend`. */
  datatype TrendRecord = TrendRecord(direction: Direction, duration: nat, persisted: bool, adviced: bool)

  /** Settings after schema validation. JavaScript numbers, so `periods` and `persistence` are reals. */
  datatype Settings = Settings(high: real, low: real, periods: real, persistence: real, quantity: real)

  /** Minimum number of candles the host must supply. */
  const RequiredHistory: nat := 15

  /** The record a missing `state.trend` is initialised with. */
  const InitialTrend := TrendRecord(None, 0, false, false)

  // ---------------------------------------------------------------------
  // Settings schema

  /** A settings object as supplied by the user: every field may be omitted. */
  datatype RawSettings = RawSettings(
    high: Wrappers.Option<real>,
    low: Wrappers.Option<real>,
    periods: Wrappers.Option<real>,
    persistence: Wrappers.Option<real>,
    quantity: Wrappers.Option<real>)

  datatype Field = HighField | LowField | PeriodsField | PersistenceField | QuantityField

  function OrDefault(o: Wrappers.Option<real>, d: real): real {
    match o
    case Some(v) => v
    case None => d
  }

  /** The schema's constraints: both thresholds in [0, 100], the rest positive. */
  predicate ValidSettings(s: Settings) {
    0.0 <= s.high <= 100.0 && 0.0 <= s.low <= 100.0
    && 0.0 < s.periods && 0.0 < s.persistence && 0.0 < s.quantity
  }

  /** The fields of `s` that break the schema, in declaration order. */
  function Violations(s: Settings): (fs: seq<Field>)
    ensures fs == [] <==> ValidSettings(s)
    ensures HighField in fs <==> !(0.0 <= s.high <= 100.0)
    ensures LowField in fs <==> !(0.0 <= s.low <= 100.0)
    ensures PeriodsField in fs <==> !(0.0 < s.periods)
    ensures PersistenceField in fs <==> !(0.0 < s.persistence)
    ensures QuantityField in fs <==> !(0.0 < s.quantity)
  {
    (if 0.0 <= s.high <= 100.0 then [] else [HighField])
    + (if 0.0 <= s.low <= 100.0 then [] else [LowField])
    + (if 0.0 < s.periods then [] else [PeriodsField])
    + (if 0.0 < s.persistence then [] else [PersistenceField])
    + (if 0.0 < s.quantity then [] else [QuantityField])
  }

  /**
   * Schema validation: omitted fields take the defaults high 70, low 30,
   * periods 14, persistence 1, quantity 0.0001; the result is valid
   * settings, or the list of offending fields.
   */
  function ParseSettings(raw: RawSettings): (r: Wrappers.Result<Settings, seq<Field>>)
    ensures r.Success? ==> ValidSettings(r.value)
    ensures r.Success? ==> r.value.high == OrDefault(raw.high, 70.0) && r.value.low == OrDefault(raw.low, 30.0)
    ensures r.Success? ==> r.value.periods == OrDefault(raw.periods, 14.0)
    ensures r.Success? ==> r.value.persistence == OrDefault(raw.persistence, 1.0)
    ensures r.Success? ==> r.value.quantity == OrDefault(raw.quantity, 0.0001)
    ensures r.Failure? ==> r.error != [] && r.error == Violations(Settings(OrDefault(raw.high, 70.0), OrDefault(raw.low, 30.0),
                                                    OrDefault(raw.periods, 14.0), OrDefault(raw.persistence, 1.0),
                                                    OrDefault(raw.quantity, 0.0001)))
    ensures r.Failure? <==> !ValidSettings(Settings(OrDefault(raw.high, 70.0), OrDefault(raw.low, 30.0),
                                                    OrDefault(raw.periods, 14.0), OrDefault(raw.persistence, 1.0),
                                                    OrDefault(raw.quantity, 0.0001)))
  {
    var s := Settings(OrDefault(raw.high, 70.0), OrDefault(raw.low, 30.0), OrDefault(raw.periods, 14.0),
                      OrDefault(raw.persistence, 1.0), OrDefault(raw.quantity, 0.0001));
    var v := Violations(s);
    if v == [] then Wrappers.Success(s) else Wrappers.Failure(v)
  }

  // ---------------------------------------------------------------------
  // Specification of one invocation

  /** The direction a reading points to: `high` is tested before `low`. */
  function Classify(p: Settings, rsi: real): Direction {
    if rsi > p.high then High else if rsi < p.low then Low else None
  }

  /** The direction opposite to a trend direction. */
  function Opposite(d: Direction): Direction {
    match d
    case High => Low
    case Low => High
    case None => None
  }

  /** The order a strategy places at the start of a persisted run: sell on high, buy on low. */
  function Trade(d: Direction, p: Settings): (e: Effect)
    requires !d.None?
    ensures (e.Buy? || e.Sell?) && e.order == OrderSpec(p.quantity, Market)
    ensures e.Sell? <==> d.High?
    ensures e.Buy? <==> d.Low?
  {
    if d == High then Sell(OrderSpec(p.quantity, Market)) else Buy(OrderSpec(p.quantity, Market))
  }

  /** Lazy initialisation of `state.trend`. */
  function InitTrend(s: Wrappers.Option<TrendRecord>): (t: TrendRecord)
    ensures s.Some? ==> t == s.value
    ensures s.None? ==> t.direction == None && t.duration == 0 && !t.persisted && !t.adviced
  {
    match s
    case Some(t) => t
    case None => InitialTrend
  }

  /** The new trend record and the effects of one tick. */
  datatype Step = Step(trend: TrendRecord, effects: seq<Effect>)

  /**
   * One tick on an initialised trend, as the three branches of the
   * strategy run it: reset on a new direction, count, mark persisted,
   * advise once. A neutral reading changes nothing; at most one trade is
   * yielded.
   */
  function TickTrend(t: TrendRecord, p: Settings, rsi: real): (r: Step)
    ensures |r.effects| <= 1
    ensures p.low <= rsi <= p.high ==> r == Step(t, [])
    ensures rsi > p.high ==> TrendRun(t, High, p, r)
    ensures !(rsi > p.high) && rsi < p.low ==> TrendRun(t, Low, p, r)
  {
    var d := Classify(p, rsi);
    if d == None then Step(t, [])
    else
      var base := if t.direction != d then TrendRecord(d, 0, false, false) else t;
      var counted := base.(duration := base.duration + 1);
      var marked := if counted.duration as real >= p.persistence then counted.(persisted := true) else counted;
      if marked.persisted && !marked.adviced then Step(marked.(adviced := true), [Trade(d, p)])
      else Step(marked, [])
  }

  /**
   * The effect of a reading in direction `d` on a record `t`: the run is
   * continued or restarted, counted, persisted once long enough, and a
   * single trade of direction `d` is yielded when it has just become
   * persisted and was not advised in this run.
   */
  ghost predicate TrendRun(t: TrendRecord, d: Direction, p: Settings, r: Step)
    requires !d.None?
  {
    var same := t.direction == d;
    var wasAdviced := same && t.adviced;
    r.trend.direction == d
    && r.trend.duration == (if same then t.duration + 1 else 1)
    && r.trend.persisted == ((same && t.persisted) || r.trend.duration as real >= p.persistence)
    && r.trend.adviced == (wasAdviced || r.trend.persisted)
    && r.effects == (if r.trend.persisted && !wasAdviced then [Trade(d, p)] else [])
  }

  /** What the host gets back from one invocation. */
  datatype Outcome = Outcome(trend: Wrappers.Option<TrendRecord>, effects: seq<Effect>)

  /**
   * One invocation of the strategy. `onStart` is tested before `onStop`;
   * the RSI value is only consulted on a normal tick.
   */
  function Invoke(onStart: bool, onStop: bool, p: Settings, s: Wrappers.Option<TrendRecord>, rsi: real): (r: Outcome)
    ensures onStart ==> r == Outcome(s, [])
    ensures !onStart && onStop ==> r == Outcome(s, [CancelSmartTrade])
    ensures !onStart && !onStop ==> r.trend.Some? && |r.effects| <= 1
    ensures !onStart && !onStop && p.low <= rsi <= p.high ==> r == Outcome(Wrappers.Some(InitTrend(s)), [])
    ensures !onStart && !onStop && rsi > p.high ==> r.trend.Some? && TrendRun(InitTrend(s), High, p, Step(r.trend.value, r.effects))
    ensures !onStart && !onStop && !(rsi > p.high) && rsi < p.low ==> r.trend.Some? && TrendRun(InitTrend(s), Low, p, Step(r.trend.value, r.effects))
    ensures forall e :: e in r.effects ==> e == CancelSmartTrade || ((e.Buy? || e.Sell?) && e.order == OrderSpec(p.quantity, Market))
  {
    if onStart then Outcome(s, [])
    else if onStop then Outcome(s, [CancelSmartTrade])
    else
      var step := TickTrend(InitTrend(s), p, rsi);
      Outcome(Wrappers.Some(step.trend), step.effects)
  }

  // ---------------------------------------------------------------------
  // The host-owned state, updated in place

  /** The object stored in `state.trend`. */
  class Trend {
    var direction: Direction
    var duration: nat
    var persisted: bool
    var adviced: bool

    constructor (direction: Direction, duration: nat, persisted: bool, adviced: bool)
      ensures View() == TrendRecord(direction, duration, persisted, adviced)
    {
      this.direction := direction;
      this.duration := duration;
      this.persisted := persisted;
      this.adviced := adviced;
    }

    function View(): TrendRecord
      reads this
    {
      TrendRecord(direction, duration, persisted, adviced)
    }
  }

  /** The bot-scoped `state` object the host persists between invocations. */
  class BotState {
    var trend: Trend?

    /** Initially the state is empty. */
    constructor ()
      ensures trend == null && View() == Wrappers.None
    {
      trend := null;
    }

    function View(): Wrappers.Option<TrendRecord>
      reads this, trend
    {
      if trend == null then Wrappers.None else Wrappers.Some(trend.View())
    }
  }

  /**
   * The strategy body. It reads and writes `state.trend` field by field,
   * replacing the record on a new direction, and returns the yielded
   * effects.
   */
  method Rsi(onStart: bool, onStop: bool, params: Settings, state: BotState, rsi: real)
    returns (effects: seq<Effect>)
    modifies state, state.trend
    ensures Outcome(state.View(), effects) == Invoke(onStart, onStop, params, old(state.View()), rsi)
    ensures state.trend == old(state.trend) || fresh(state.trend)
    ensures old(state.trend) != null && state.trend != old(state.trend) ==> unchanged(old(state.trend))
  {
    effects := [];
    if onStart {
      return;
    }
    if onStop {
      effects := [CancelSmartTrade];
      return;
    }
    if state.trend == null {
      state.trend := new Trend(None, 0, false, false);
    }
    ghost var initial := state.trend.View();
    assert initial == InitTrend(old(state.View()));
    if rsi > params.high {
      if state.trend.direction != High {
        state.trend := new Trend(High, 0, false, false);
      }
      state.trend.duration := state.trend.duration + 1;
      if state.trend.duration as real >= params.persistence {
        state.trend.persisted := true;
      }
      if state.trend.persisted && !state.trend.adviced {
        state.trend.adviced := true;
        effects := [Sell(OrderSpec(params.quantity, Market))];
      }
    } else if rsi < params.low {
      if state.trend.direction != Low {
        state.trend := new Trend(Low, 0, false, false);
      }
      state.trend.duration := state.trend.duration + 1;
      if state.trend.duration as real >= params.persistence {
        state.trend.persisted := true;
      }
      if state.trend.persisted && !state.trend.adviced {
        state.trend.adviced := true;
        effects := [Buy(OrderSpec(params.quantity, Market))];
      }
    }
  }
}
