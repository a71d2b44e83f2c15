/**
 * Properties of the RSI strategy over sequences of ticks and invocations:
 * a run yields its trade exactly once, neutral readings pause a run without
 * breaking it, and the trend record stays consistent with the settings.
 */
module RsiProperties {
  import opened RsiStrategy
  import Wrappers

  /**
   * The consistency a trend record keeps when it only ever evolves under
   * fixed settings: a record with a direction has lasted at least one tick,
   * is persisted exactly when it has lasted `persistence` ticks, and has
   * been advised exactly when it is persisted.
   */
  ghost predicate WellFormed(t: TrendRecord, p: Settings) {
    (t.direction.None? ==> t == InitialTrend)
    && (!t.direction.None? ==>
          t.duration >= 1
          && (t.persisted <==> t.duration as real >= p.persistence)
          && (t.adviced <==> t.persisted))
  }

  lemma InitialTrendWellFormed(p: Settings)
    ensures WellFormed(InitTrend(Wrappers.None), p)
  {
  }

  /** A tick keeps a well-formed record well-formed. */
  lemma TickPreservesWellFormed(t: TrendRecord, p: Settings, rsi: real)
    requires WellFormed(t, p)
    ensures WellFormed(TickTrend(t, p, rsi).trend, p)
  {
  }

  /** A run of normal ticks on an initialised record. */
  function Ticks(t: TrendRecord, p: Settings, readings: seq<real>): Step
    decreases |readings|
  {
    if readings == [] then Step(t, [])
    else
      var first := TickTrend(t, p, readings[0]);
      var rest := Ticks(first.trend, p, readings[1..]);
      Step(rest.trend, first.effects + rest.effects)
  }

  /** The number of readings that point in direction `d`. */
  function Count(p: Settings, readings: seq<real>, d: Direction): nat
    decreases |readings|
  {
    if readings == [] then 0
    else (if Classify(p, readings[0]) == d then 1 else 0) + Count(p, readings[1..], d)
  }

  /** Readings that keep a run in direction `d` going: `d` itself or neutral. */
  ghost predicate Continues(p: Settings, readings: seq<real>, d: Direction) {
    forall i :: 0 <= i < |readings| ==> Classify(p, readings[i]) == d || Classify(p, readings[i]).None?
  }

  /**
   * A well-formed run in direction `d` that sees only `d` or neutral
   * readings is extended by the number of `d` readings, and yields its
   * trade only if it was not yet persisted and becomes so.
   */
  lemma {:induction false} RunWithPauses(t: TrendRecord, d: Direction, p: Settings, readings: seq<real>)
    requires !d.None? && t.direction == d && WellFormed(t, p)
    requires Continues(p, readings, d)
    ensures var k := Count(p, readings, d);
      var persisted := (t.duration + k) as real >= p.persistence;
      Ticks(t, p, readings) == Step(TrendRecord(d, t.duration + k, persisted, persisted),
                                    if !t.persisted && persisted then [Trade(d, p)] else [])
    decreases |readings|
  {
    if readings != [] {
      var first := TickTrend(t, p, readings[0]);
      TickPreservesWellFormed(t, p, readings[0]);
      assert Continues(p, readings[1..], d) by {
        forall i | 0 <= i < |readings[1..]|
          ensures Classify(p, readings[1..][i]) == d || Classify(p, readings[1..][i]).None?
        {
          assert readings[1..][i] == readings[i + 1];
        }
      }
      RunWithPauses(first.trend, d, p, readings[1..]);
    }
  }

  /**
   * One trade per run: starting from any record not in direction `d`, a
   * first reading in direction `d` followed by readings in direction `d` or
   * neutral yields exactly one trade of direction `d` if the run reaches
   * `persistence` readings, and nothing otherwise.
   */
  lemma {:induction false} OneTradePerRun(t: TrendRecord, d: Direction, p: Settings, readings: seq<real>)
    requires !d.None? && t.direction != d
    requires readings != [] && Classify(p, readings[0]) == d
    requires Continues(p, readings, d)
    ensures var k := Count(p, readings, d);
      var persisted := k as real >= p.persistence;
      Ticks(t, p, readings) == Step(TrendRecord(d, k, persisted, persisted),
                                    if persisted then [Trade(d, p)] else [])
  {
    var first := TickTrend(t, p, readings[0]);
    assert first.trend.duration == 1 && first.trend.direction == d;
    assert WellFormed(first.trend, p);
    assert Continues(p, readings[1..], d) by {
      forall i | 0 <= i < |readings[1..]|
        ensures Classify(p, readings[1..][i]) == d || Classify(p, readings[1..][i]).None?
      {
        assert readings[1..][i] == readings[i + 1];
      }
    }
    RunWithPauses(first.trend, d, p, readings[1..]);
  }

  lemma {:induction false} CountAll(p: Settings, readings: seq<real>, d: Direction)
    requires forall i :: 0 <= i < |readings| ==> Classify(p, readings[i]) == d
    ensures Count(p, readings, d) == |readings|
    decreases |readings|
  {
    if readings != [] {
      assert forall i :: 0 <= i < |readings[1..]| ==> readings[1..][i] == readings[i + 1];
      CountAll(p, readings[1..], d);
    }
  }

  /**
   * `k` consecutive readings in direction `d`, after a record that was not
   * in direction `d`, yield one trade if `k >= persistence` and none
   * otherwise.
   */
  lemma ConsecutiveReadings(t: TrendRecord, d: Direction, p: Settings, readings: seq<real>)
    requires !d.None? && t.direction != d && readings != []
    requires forall i :: 0 <= i < |readings| ==> Classify(p, readings[i]) == d
    ensures Ticks(t, p, readings).effects == if |readings| as real >= p.persistence then [Trade(d, p)] else []
  {
    CountAll(p, readings, d);
    OneTradePerRun(t, d, p, readings);
  }

  /**
   * Once a run has been advised, no reading short of the opposite
   * direction yields anything more, however the run goes on.
   */
  lemma {:induction false} NoRepeatWhileTrendContinues(t: TrendRecord, d: Direction, p: Settings, readings: seq<real>)
    requires !d.None? && t.direction == d && t.adviced
    requires forall i :: 0 <= i < |readings| ==> Classify(p, readings[i]) != Opposite(d)
    ensures Ticks(t, p, readings).effects == []
    ensures Ticks(t, p, readings).trend.direction == d && Ticks(t, p, readings).trend.adviced
    decreases |readings|
  {
    if readings != [] {
      var first := TickTrend(t, p, readings[0]);
      assert first.effects == [] && first.trend.direction == d && first.trend.adviced;
      assert forall i :: 0 <= i < |readings[1..]| ==> readings[1..][i] == readings[i + 1];
      NoRepeatWhileTrendContinues(first.trend, d, p, readings[1..]);
    }
  }

  /** One host invocation: the two lifecycle flags and the RSI value the host would supply. */
  datatype Call = Call(onStart: bool, onStop: bool, rsi: real)

  /** A sequence of invocations of one bot, each seeing the state the previous one left. */
  function Replay(s: Wrappers.Option<TrendRecord>, p: Settings, calls: seq<Call>): Outcome
    decreases |calls|
  {
    if calls == [] then Outcome(s, [])
    else
      var first := Invoke(calls[0].onStart, calls[0].onStop, p, s, calls[0].rsi);
      var rest := Replay(first.trend, p, calls[1..]);
      Outcome(rest.trend, first.effects + rest.effects)
  }

  /** Whatever the host does, the persisted trend record stays well-formed. */
  lemma {:induction false} ReplayKeepsWellFormed(s: Wrappers.Option<TrendRecord>, p: Settings, calls: seq<Call>)
    requires s.None? || WellFormed(s.value, p)
    ensures var r := Replay(s, p, calls); r.trend.None? || WellFormed(r.trend.value, p)
    decreases |calls|
  {
    if calls != [] {
      var c := calls[0];
      if !c.onStart && !c.onStop {
        TickPreservesWellFormed(InitTrend(s), p, c.rsi);
      }
      ReplayKeepsWellFormed(Invoke(c.onStart, c.onStop, p, s, c.rsi).trend, p, calls[1..]);
    }
  }

  /** A start invocation, with or without the stop flag, leaves a replay exactly as if it were not there. */
  lemma {:induction false} StartCallsAreInert(s: Wrappers.Option<TrendRecord>, p: Settings, calls: seq<Call>, stop: bool, rsi: real)
    ensures Replay(s, p, [Call(true, stop, rsi)] + calls) == Replay(s, p, calls)
  {
    assert ([Call(true, stop, rsi)] + calls)[1..] == calls;
  }

  /** Inserting a start invocation anywhere in a sequence of invocations changes nothing. */
  lemma {:induction false} StartCallsAreInertAnywhere(s: Wrappers.Option<TrendRecord>, p: Settings, a: seq<Call>, b: seq<Call>, stop: bool, rsi: real)
    ensures Replay(s, p, a + [Call(true, stop, rsi)] + b) == Replay(s, p, a + b)
    decreases |a|
  {
    if a == [] {
      assert a + [Call(true, stop, rsi)] + b == [Call(true, stop, rsi)] + b;
      assert a + b == b;
      StartCallsAreInert(s, p, b, stop, rsi);
    } else {
      var c := a[0];
      var next := Invoke(c.onStart, c.onStop, p, s, c.rsi).trend;
      assert (a + [Call(true, stop, rsi)] + b)[0] == c && (a + [Call(true, stop, rsi)] + b)[1..] == a[1..] + [Call(true, stop, rsi)] + b;
      assert (a + b)[0] == c && (a + b)[1..] == a[1..] + b;
      StartCallsAreInertAnywhere(next, p, a[1..], b, stop, rsi);
    }
  }

  /** The host invocations that deliver the readings `rs` as normal ticks. */
  function TickCalls(rs: seq<real>): (calls: seq<Call>)
    ensures |calls| == |rs|
    ensures forall i :: 0 <= i < |rs| ==> calls[i] == Call(false, false, rs[i])
    decreases |rs|
  {
    if rs == [] then [] else [Call(false, false, rs[0])] + TickCalls(rs[1..])
  }

  /**
   * Normal host invocations on an initialised record behave as the run of
   * ticks over their readings, so the run lemmas hold for invocations too.
   */
  lemma {:induction false} ReplayOfTicks(t: TrendRecord, p: Settings, rs: seq<real>)
    ensures Replay(Wrappers.Some(t), p, TickCalls(rs))
            == Outcome(Wrappers.Some(Ticks(t, p, rs).trend), Ticks(t, p, rs).effects)
    decreases |rs|
  {
    if rs != [] {
      var calls := TickCalls(rs);
      assert calls[0] == Call(false, false, rs[0]);
      assert calls[1..] == TickCalls(rs[1..]);
      ReplayOfTicks(TickTrend(t, p, rs[0]).trend, p, rs[1..]);
    }
  }
}
