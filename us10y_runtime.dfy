/**
 * US10Y fusion runtime: the rates pipeline M1..M7, the integrity score over
 * the 10-year yield, SPX, VIX and M2's BTC reading, and the retry decision.
 * Unlike the other runtimes it counts a reading as present when it is not
 * None, so a reading of 0.0 counts.
 */
module Us10yRuntime {
  import opened Wrappers
  import opened PyNumbers
  import opened FusionCommon
  import opened Autorecovery

  /** The fetch results one cycle sees. */
  datatype Readings = Readings(
    yield10y: Option<real>,    // FRED DGS10
    spx: Option<real>,         // TwelveData
    vix: Option<real>,
    dxy: Option<real>,
    fearGreed: FearGreed,
    btc: Option<real>)         // CoinGecko, fetched in M2

  /** M1: the readings as stored, and the macro tone. */
  datatype Macro = Macro(us10y: Option<real>, spx: Option<real>, vix: Option<real>, dxy: Option<real>, macroTone: real)

  /** M2. */
  datatype Behavioral = Behavioral(fearGreed: FearGreed, btc: Option<real>, polarity: real)

  datatype Snapshot = Snapshot(
    m1: Macro, m2: Behavioral, m3: Scenario, m4: Alignment, m5: CrossProxy, m6: RiskChain, m7: Forecast)

  /** The tone is the rounded fraction of the four M1 readings that are present. */
  function Module1Macro(yield10y: Option<real>, spx: Option<real>, vix: Option<real>, dxy: Option<real>): Macro {
    Macro(yield10y, spx, vix, dxy, Round3(Count([yield10y, spx, vix, dxy], IsPresent) as real / 4.0))
  }

  function Module2Behavioral(fg: FearGreed, btc: Option<real>): Behavioral {
    Behavioral(fg, btc, Polarity(fg.value))
  }

  function Module3Scenario(m1: Macro, m2: Behavioral): Scenario {
    var bias :=
      if m1.macroTone > 0.7 && m2.polarity < 0.45 then YieldPressure
      else if m1.macroTone < 0.5 && m2.polarity > 0.55 then Easing
      else Neutral;
    Scenario(bias, Round3(0.6 + Abs(0.5 - m2.polarity) * 0.5))
  }

  function Module4Mtf(): Alignment {
    Alignment(0.33, "rotation")
  }

  function Module5Cross(m1: Macro): CrossProxy {
    CrossProxy(Round3(OrElse(m1.us10y, 0.0) / OrElse(m1.spx, 1.0) * 10.0))
  }

  function Module6Risk(m1: Macro, m2: Behavioral): RiskChain {
    RiskChain(ComplementRisk(m1.macroTone, m2.polarity))
  }

  function Module7Forecast(m3: Scenario, m6: RiskChain): Forecast {
    Forecast(m3.bias, Round2(m6.riskScore * 2.5), m3.confidence)
  }

  function ComputeDataIntegrity(m1: Macro, m2: Behavioral): real {
    Count([m1.us10y, m1.spx, m1.vix, m2.btc], IsPresent) as real / 4.0
  }

  /** One `fusion_cycle` up to the retry decision. */
  function FusionCycle(r: Readings): Attempt<Snapshot> {
    var m1 := Module1Macro(r.yield10y, r.spx, r.vix, r.dxy);
    var m2 := Module2Behavioral(r.fearGreed, r.btc);
    var m3 := Module3Scenario(m1, m2);
    var m6 := Module6Risk(m1, m2);
    Attempt(Snapshot(m1, m2, m3, Module4Mtf(), Module5Cross(m1), m6, Module7Forecast(m3, m6)),
            ComputeDataIntegrity(m1, m2))
  }

  /** `fusion_cycle` with its autorecovery, over the readings its successive attempts see. */
  function FusionCycleWithRetries(rs: seq<Readings>): Trace<Snapshot> {
    Run(seq(|rs|, i requires 0 <= i < |rs| => FusionCycle(rs[i])))
  }

  /** Number of present readings among the four M1 readings. */
  function PresentInMacro(m1: Macro): nat {
    Bit(IsPresent(m1.us10y)) + Bit(IsPresent(m1.spx)) + Bit(IsPresent(m1.vix)) + Bit(IsPresent(m1.dxy))
  }

  /** Number of present readings among the four the integrity score counts. */
  function Filled(m1: Macro, m2: Behavioral): nat {
    Bit(IsPresent(m1.us10y)) + Bit(IsPresent(m1.spx)) + Bit(IsPresent(m1.vix)) + Bit(IsPresent(m2.btc))
  }

  // ----- properties -----

  /** The tone is exactly the present fraction of the M1 readings: the rounding never changes a quarter. */
  lemma ToneIsPresentFraction(yield10y: Option<real>, spx: Option<real>, vix: Option<real>, dxy: Option<real>)
    ensures var m1 := Module1Macro(yield10y, spx, vix, dxy);
      m1.macroTone == PresentInMacro(m1) as real / 4.0 && 0.0 <= m1.macroTone <= 1.0
  {
    var k := Count([yield10y, spx, vix, dxy], IsPresent);
    Count4(yield10y, spx, vix, dxy, IsPresent);
    assert k as real / 4.0 == (250 * k) as real / 1000.0;
    Round3OnGrid(250 * k);
  }

  /** Integrity is the present fraction of its four readings; a 0.0 reading counts, unlike in the other runtimes. */
  lemma IntegrityIsPresentFraction(m1: Macro, m2: Behavioral)
    ensures ComputeDataIntegrity(m1, m2) == Filled(m1, m2) as real / 4.0
    ensures 0.0 <= ComputeDataIntegrity(m1, m2) <= 1.0
    ensures ComputeDataIntegrity(m1, m2) == 1.0 <==>
      m1.us10y.Some? && m1.spx.Some? && m1.vix.Some? && m2.btc.Some?
    ensures ComputeDataIntegrity(m1.(us10y := Some(0.0)), m2) == ComputeDataIntegrity(m1.(us10y := None), m2) + 0.25
  {
    Count4(m1.us10y, m1.spx, m1.vix, m2.btc, IsPresent);
    Count4(Some(0.0), m1.spx, m1.vix, m2.btc, IsPresent);
    Count4(None, m1.spx, m1.vix, m2.btc, IsPresent);
  }

  /**
   * Tone and integrity count different readings (DXY in one, BTC in the
   * other): they agree when those two are both present or both missing, and
   * otherwise differ by one quarter.
   */
  lemma ToneAndIntegrityCountDifferentReadings(r: Readings)
    ensures var a := FusionCycle(r);
      && (r.dxy.Some? == r.btc.Some? ==> a.snapshot.m1.macroTone == a.integrity)
      && (r.dxy.Some? && r.btc.None? ==> a.snapshot.m1.macroTone == a.integrity + 0.25)
      && (r.dxy.None? && r.btc.Some? ==> a.integrity == a.snapshot.m1.macroTone + 0.25)
  {
    ToneIsPresentFraction(r.yield10y, r.spx, r.vix, r.dxy);
    IntegrityIsPresentFraction(FusionCycle(r).snapshot.m1, FusionCycle(r).snapshot.m2);
  }

  /** The three bias labels and their rules; yield pressure needs at least three M1 readings, easing at most one. */
  lemma BiasRules(r: Readings)
    ensures var s := FusionCycle(r).snapshot;
      && (s.m3.bias == YieldPressure <==> s.m1.macroTone > 0.7 && s.m2.polarity < 0.45)
      && (s.m3.bias == Easing <==> s.m1.macroTone < 0.5 && s.m2.polarity > 0.55)
      && (s.m3.bias == YieldPressure || s.m3.bias == Easing || s.m3.bias == Neutral)
      && (s.m3.bias == YieldPressure ==> PresentInMacro(s.m1) >= 3)
      && (s.m3.bias == Easing ==> PresentInMacro(s.m1) <= 1)
  {
    ToneIsPresentFraction(r.yield10y, r.spx, r.vix, r.dxy);
  }

  /** Confidence is at least 0.6 and at most 0.85 for a polarity in [0,1]; for M2's polarity the rounding is exact. */
  lemma ConfidenceBounds(m1: Macro, fg: FearGreed, btc: Option<real>)
    ensures var m2 := Module2Behavioral(fg, btc);
      && Module3Scenario(m1, m2).confidence == 0.6 + Abs(0.5 - m2.polarity) * 0.5
      && Module3Scenario(m1, m2).confidence >= 0.6
      && (0.0 <= m2.polarity <= 1.0 ==> Module3Scenario(m1, m2).confidence <= 0.85)
  {
    var k := IntOrElse(fg.value, 50);
    var d := if k <= 50 then 50 - k else k - 50;
    assert Abs(0.5 - Polarity(fg.value)) == d as real / 100.0;
    Round3OnGrid(600 + 5 * d);
  }

  /** Without a Fear & Greed value (None or 0) polarity is 0.5, the bias neutral and the confidence 0.6. */
  lemma NoSentimentIsNeutral(m1: Macro, fg: FearGreed, btc: Option<real>)
    requires fg.value == None || fg.value == Some(0)
    ensures Module2Behavioral(fg, btc).polarity == 0.5
    ensures Module3Scenario(m1, Module2Behavioral(fg, btc)) == Scenario(Neutral, 0.6)
  {
    PolarityDefaults(fg.value);
    Round3OnGrid(600);
  }

  /** M5 never divides by zero, and is 0 when the yield reading is missing or zero. */
  lemma CrossProxyGuards(m1: Macro)
    ensures OrElse(m1.spx, 1.0) != 0.0
    ensures !Truthy(m1.us10y) ==> Module5Cross(m1).corr == 0.0
  {
    Round3OnGrid(0);
  }

  /** M7 restates M3 and scales M6 by 2.5; for a polarity in [0,1] risk and volatility stay in fixed bands. */
  lemma ForecastFollowsScenario(r: Readings)
    ensures var s := FusionCycle(r).snapshot;
      && s.m7.directionalBias == s.m3.bias
      && s.m7.confidenceScore == s.m3.confidence
      && s.m7.expectedVolatilityPct == Round2(s.m6.riskScore * 2.5)
    ensures var s := FusionCycle(r).snapshot;
      0.0 <= s.m2.polarity <= 1.0 ==>
        0.0 <= s.m6.riskScore <= 0.286 && 0.0 <= s.m7.expectedVolatilityPct <= 0.72
  {
    var s := FusionCycle(r).snapshot;
    ToneIsPresentFraction(r.yield10y, r.spx, r.vix, r.dxy);
    if 0.0 <= s.m2.polarity <= 1.0 {
      ComplementRiskOrdering(0.0, 1.0, s.m1.macroTone, s.m2.polarity);
      ComplementRiskOrdering(s.m1.macroTone, s.m2.polarity, 1.0, 0.0);
      Round3OnGrid(0);
      assert ComplementRisk(0.0, 1.0) == 0.0;
      assert ComplementRisk(1.0, 0.0) == 0.286;
      Round2Monotone(0.0, s.m6.riskScore * 2.5);
      Round2Monotone(s.m6.riskScore * 2.5, 0.286 * 2.5);
      Round2OnGrid(0);
      assert Round2(0.286 * 2.5) == 0.72;
    }
  }

  /** A retry happens exactly when at most one of the four integrity readings is present. */
  lemma RetryIffAtMostOneReading(r: Readings)
    ensures NeedsRetry(FusionCycle(r).integrity) <==> Filled(FusionCycle(r).snapshot.m1, FusionCycle(r).snapshot.m2) <= 1
  {
    IntegrityIsPresentFraction(FusionCycle(r).snapshot.m1, FusionCycle(r).snapshot.m2);
  }

  /** With every fetch failing, each module degrades to its default and a retry follows. */
  lemma AllFetchesFailed()
    ensures var none := Readings(None, None, None, None, FearGreed(None, None), None);
      FusionCycle(none) == Attempt(
        Snapshot(
          Macro(None, None, None, None, 0.0),
          Behavioral(FearGreed(None, None), None, 0.5),
          Scenario(Neutral, 0.6),
          Alignment(0.33, "rotation"),
          CrossProxy(0.0),
          RiskChain(0.071),
          Forecast(Neutral, 0.18, 0.6)),
        0.0)
      && NeedsRetry(FusionCycle(none).integrity)
  {
    Count4(None, None, None, None, IsPresent);
    Round3OnGrid(600);
    Round3OnGrid(0);
    assert ComplementRisk(0.0, 0.5) == 0.071;
    assert Round2(0.071 * 2.5) == 0.18;
  }

  /** Retries continue until an attempt with at least two present readings, and every attempt is persisted. */
  lemma RetriesUntilTwoReadings(rs: seq<Readings>)
    ensures FusionCycleWithRetries(rs).finished <==>
      exists i :: 0 <= i < |rs| && Filled(FusionCycle(rs[i]).snapshot.m1, FusionCycle(rs[i]).snapshot.m2) >= 2
    ensures var attempts := seq(|rs|, i requires 0 <= i < |rs| => FusionCycle(rs[i]));
      Saves(FusionCycleWithRetries(rs).events) == attempts[..Consumed(attempts)]
  {
    var attempts := seq(|rs|, i requires 0 <= i < |rs| => FusionCycle(rs[i]));
    RunFinishesIffTrusted(attempts);
    RunPersistsEveryAttempt(attempts);
    forall i | 0 <= i < |rs|
      ensures NeedsRetry(attempts[i].integrity) <==> Filled(FusionCycle(rs[i]).snapshot.m1, FusionCycle(rs[i]).snapshot.m2) <= 1
    {
      RetryIffAtMostOneReading(rs[i]);
    }
  }
}
