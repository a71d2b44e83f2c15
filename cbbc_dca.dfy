/**
 * The Consecutive-Bullish-Bearish-Candles DCA strategy: a stateless
 * dispatcher. A stop cancels the smart trade, a start does nothing, and a
 * normal tick opens a DCA trade whenever the consecutive-candle indicator
 * reports a bearish run.
 */
module CbbcDca {
  import opened Effects
  import Wrappers

  /** A market candle as the host supplies it. */
  datatype Candle = Candle(open: real, high: real, low: real, close: real, timestamp: int)

  /** Per-candle classification used in the strategy's diagnostics. */
  predicate IsBullish(c: Candle) {
    c.close > c.open
  }

  predicate IsBearish(c: Candle) {
    c.close < c.open
  }

  /** No candle is both; a candle with `close == open` is neither; every other candle is one of them. */
  lemma CandleClassification(c: Candle)
    ensures !(IsBullish(c) && IsBearish(c))
    ensures c.close == c.open <==> !IsBullish(c) && !IsBearish(c)
  {
  }

  /** The result of the consecutive-candle indicator, taken as given. */
  datatype CbbcSignal = CbbcSignal(bullish: bool, bearish: bool)

  /** Settings after schema validation. JavaScript numbers, so all three are reals. */
  datatype Settings = Settings(quantity: real, tpPercent: real, cbbcConsecutiveCandles: real)

  /** A settings object as supplied by the user: every field may be omitted. */
  datatype RawSettings = RawSettings(
    quantity: Wrappers.Option<real>,
    tpPercent: Wrappers.Option<real>,
    cbbcConsecutiveCandles: Wrappers.Option<real>)

  datatype SchemaError = MissingQuantity

  /**
   * Schema validation: `quantity` is required, `tpPercent` defaults to 2
   * and `cbbcConsecutiveCandles` to 3; no other constraint applies.
   */
  function ParseSettings(raw: RawSettings): (r: Wrappers.Result<Settings, SchemaError>)
    ensures r.Success? <==> raw.quantity.Some?
    ensures r.Success? ==> r.value.quantity == raw.quantity.value
    ensures r.Success? ==> r.value.tpPercent == (if raw.tpPercent.Some? then raw.tpPercent.value else 2.0)
    ensures r.Success? ==> r.value.cbbcConsecutiveCandles
                           == (if raw.cbbcConsecutiveCandles.Some? then raw.cbbcConsecutiveCandles.value else 3.0)
  {
    match raw.quantity
    case None => Wrappers.Failure(MissingQuantity)
    case Some(q) =>
      var tp := match raw.tpPercent case Some(v) => v case None => 2.0;
      var n := match raw.cbbcConsecutiveCandles case Some(v) => v case None => 3.0;
      Wrappers.Success(Settings(q, tp, n))
  }

  /** The number of candles the host must supply: the indicator's look-back. */
  function RequiredHistory(s: Settings): real {
    s.cbbcConsecutiveCandles
  }

  /** With only a quantity given, the host is asked for 3 candles and the take profit is 2%. */
  lemma DefaultSettings(q: real)
    ensures var r := ParseSettings(RawSettings(Wrappers.Some(q), Wrappers.None, Wrappers.None));
      r.Success? && RequiredHistory(r.value) == 3.0 && DcaOrder(r.value).tpPercent == 0.02
  {
  }

  /** The DCA order of a bearish tick: the take-profit percentage becomes a fraction; no safety orders. */
  function DcaOrder(s: Settings): (o: DcaSpec)
    ensures o.quantity == s.quantity && o.tpPercent * 100.0 == s.tpPercent && o.safetyOrders == []
  {
    DcaSpec(s.quantity, s.tpPercent / 100.0, [])
  }

  /**
   * One invocation. `onStop` is tested before `onStart`; the indicator is
   * only consulted on a normal tick, and no state is read or written.
   */
  function Cbbc(onStart: bool, onStop: bool, s: Settings, signal: CbbcSignal): (effects: seq<Effect>)
    ensures |effects| <= 1
    ensures onStop ==> effects == [CancelSmartTrade]
    ensures !onStop && onStart ==> effects == []
    ensures !onStop && !onStart ==> effects == (if signal.bearish then [UseDca(DcaOrder(s))] else [])
    ensures forall e :: e in effects ==> e == CancelSmartTrade || e == UseDca(DcaOrder(s))
    ensures onStop || onStart ==> forall e :: e in effects ==> !e.IsEntry()
  {
    if onStop then [CancelSmartTrade]
    else if onStart then []
    else if signal.bearish then [UseDca(DcaOrder(s))]
    else []
  }

  /** A run of normal ticks, each with the indicator result of its own candle history. */
  function Ticks(s: Settings, signals: seq<CbbcSignal>): seq<Effect>
    decreases |signals|
  {
    if signals == [] then []
    else Cbbc(false, false, s, signals[0]) + Ticks(s, signals[1..])
  }

  /** The number of bearish results. */
  function BearishCount(signals: seq<CbbcSignal>): nat
    decreases |signals|
  {
    if signals == [] then 0
    else (if signals[0].bearish then 1 else 0) + BearishCount(signals[1..])
  }

  /**
   * No deduplication: over any run of ticks, every bearish result yields a
   * new, identical DCA order, and nothing else is yielded.
   */
  lemma {:induction false} EveryBearishTickOrders(s: Settings, signals: seq<CbbcSignal>)
    ensures |Ticks(s, signals)| == BearishCount(signals)
    ensures forall e :: e in Ticks(s, signals) ==> e == UseDca(DcaOrder(s))
    decreases |signals|
  {
    if signals != [] {
      EveryBearishTickOrders(s, signals[1..]);
    }
  }

  /** The output depends on the indicator only through its `bearish` flag. */
  lemma OnlyBearishMatters(onStart: bool, onStop: bool, s: Settings, a: CbbcSignal, b: CbbcSignal)
    requires a.bearish == b.bearish
    ensures Cbbc(onStart, onStop, s, a) == Cbbc(onStart, onStop, s, b)
  {
  }
}
