/**
 * USD/JPY fusion runtime: the FX-macro pipeline M1..M7, the integrity score
 * over the USD/JPY, DXY and 10-year yield readings, and the retry decision.
 */
module UsdJpyRuntime {
  import opened Wrappers
  import opened PyNumbers
  import opened FusionCommon
  import opened Autorecovery

  /** The fetch results one cycle sees. */
  datatype Readings = Readings(
    twelveData: Option<real>,  // TwelveData "USD/JPY"
    yahoo: Option<real>,       // Yahoo "JPY=X", asked only when TwelveData gave nothing truthy
    dxy: Option<real>,
    yield10y: Option<real>,    // FRED DGS10
    btc: Option<real>,
    fearGreed: FearGreed)

  /** M1: the readings as stored, and the macro tone. */
  datatype Macro = Macro(usdJpy: Option<real>, dxy: Option<real>, us10y: Option<real>, btc: Option<real>, macroTone: real)

  /** M2. */
  datatype Behavioral = Behavioral(fearGreed: FearGreed, polarity: real)

  datatype Snapshot = Snapshot(
    m1: Macro, m2: Behavioral, m3: Scenario, m4: Alignment, m5: CrossProxy, m6: RiskChain, m7: Forecast)

  function Module1Macro(twelveData: Option<real>, yahoo: Option<real>, dxy: Option<real>,
                        yield10y: Option<real>, btc: Option<real>): Macro
  {
    var usdJpy := if Truthy(twelveData) then twelveData else yahoo;
    var tone := if Truthy(usdJpy) && Truthy(dxy) && Truthy(yield10y) then 0.6 else 0.4;
    Macro(usdJpy, dxy, yield10y, btc, tone)
  }

  function Module2Behavioral(fg: FearGreed): Behavioral {
    Behavioral(fg, Polarity(fg.value))
  }

  function Module3Scenario(m1: Macro, m2: Behavioral): Scenario {
    var bias :=
      if m1.macroTone > 0.55 && m2.polarity > 0.55 then BullishUsd
      else if m1.macroTone < 0.45 && m2.polarity < 0.45 then BullishJpy
      else Neutral;
    Scenario(bias, SymmetricConfidence(m2.polarity))
  }

  function Module4Mtf(): Alignment {
    Alignment(0.33, "rotation")
  }

  function Module5Cross(m1: Macro): CrossProxy {
    CrossProxy(Round3(OrElse(m1.usdJpy, 0.0) / OrElse(m1.dxy, 1.0) * 0.002))
  }

  function Module6Risk(m1: Macro, m2: Behavioral): RiskChain {
    RiskChain(ComplementRisk(m1.macroTone, m2.polarity))
  }

  function Module7Forecast(m3: Scenario, m6: RiskChain): Forecast {
    Forecast(m3.bias, Round2(m6.riskScore * 1.9), m3.confidence)
  }

  function ComputeDataIntegrity(m1: Macro): real {
    Count([m1.usdJpy, m1.dxy, m1.us10y], Truthy) as real / 3.0
  }

  /** One `fusion_cycle` up to the retry decision. */
  function FusionCycle(r: Readings): Attempt<Snapshot> {
    var m1 := Module1Macro(r.twelveData, r.yahoo, r.dxy, r.yield10y, r.btc);
    var m2 := Module2Behavioral(r.fearGreed);
    var m3 := Module3Scenario(m1, m2);
    var m6 := Module6Risk(m1, m2);
    Attempt(Snapshot(m1, m2, m3, Module4Mtf(), Module5Cross(m1), m6, Module7Forecast(m3, m6)),
            ComputeDataIntegrity(m1))
  }

  /** `fusion_cycle` with its autorecovery, over the readings its successive attempts see. */
  function FusionCycleWithRetries(rs: seq<Readings>): Trace<Snapshot> {
    Run(seq(|rs|, i requires 0 <= i < |rs| => FusionCycle(rs[i])))
  }

  /** Number of truthy readings among the three the integrity score counts. */
  function Filled(m1: Macro): nat {
    Bit(Truthy(m1.usdJpy)) + Bit(Truthy(m1.dxy)) + Bit(Truthy(m1.us10y))
  }

  // ----- properties -----

  /** The USD/JPY reading is TwelveData's when truthy; a missing or zero TwelveData price falls through to Yahoo. */
  lemma TwelveDataFallsBackToYahoo(twelveData: Option<real>, yahoo: Option<real>, dxy: Option<real>,
                                   yield10y: Option<real>, btc: Option<real>)
    ensures var m1 := Module1Macro(twelveData, yahoo, dxy, yield10y, btc);
      && (Truthy(twelveData) ==> m1.usdJpy == twelveData)
      && (twelveData == None || twelveData == Some(0.0) ==> m1.usdJpy == yahoo)
  {
  }

  /** Integrity is the truthy fraction of the three key readings; a zero reading counts as missing. */
  lemma IntegrityIsTruthyFraction(m1: Macro)
    ensures ComputeDataIntegrity(m1) == Filled(m1) as real / 3.0
    ensures 0.0 <= ComputeDataIntegrity(m1) <= 1.0
    ensures ComputeDataIntegrity(m1) == 1.0 <==> Truthy(m1.usdJpy) && Truthy(m1.dxy) && Truthy(m1.us10y)
    ensures ComputeDataIntegrity(m1) == 0.0 <==> !Truthy(m1.usdJpy) && !Truthy(m1.dxy) && !Truthy(m1.us10y)
    ensures ComputeDataIntegrity(m1.(usdJpy := Some(0.0))) == ComputeDataIntegrity(m1.(usdJpy := None))
  {
    Count3(m1.usdJpy, m1.dxy, m1.us10y, Truthy);
    Count3(Some(0.0), m1.dxy, m1.us10y, Truthy);
    Count3(None, m1.dxy, m1.us10y, Truthy);
  }

  /** The macro tone is 0.6 exactly when all three key readings are truthy, i.e. when integrity is 1. */
  lemma ToneTracksIntegrity(r: Readings)
    ensures var m1 := FusionCycle(r).snapshot.m1;
      && (m1.macroTone == 0.6 <==> FusionCycle(r).integrity == 1.0)
      && (m1.macroTone == 0.4 <==> FusionCycle(r).integrity < 1.0)
  {
    IntegrityIsTruthyFraction(FusionCycle(r).snapshot.m1);
  }

  /** The three bias labels and their threshold rules; exactly one applies. */
  lemma BiasRules(m1: Macro, m2: Behavioral)
    ensures var b := Module3Scenario(m1, m2).bias;
      && (b == BullishUsd <==> m1.macroTone > 0.55 && m2.polarity > 0.55)
      && (b == BullishJpy <==> m1.macroTone < 0.45 && m2.polarity < 0.45)
      && (b == Neutral <==> !(m1.macroTone > 0.55 && m2.polarity > 0.55) && !(m1.macroTone < 0.45 && m2.polarity < 0.45))
  {
  }

  /** Without a Fear & Greed value (None or 0) polarity is 0.5, the bias neutral and the confidence 0.65. */
  lemma NoSentimentIsNeutral(m1: Macro, fg: FearGreed)
    requires fg.value == None || fg.value == Some(0)
    ensures Module2Behavioral(fg).polarity == 0.5
    ensures Module3Scenario(m1, Module2Behavioral(fg)) == Scenario(Neutral, 0.65)
  {
    PolarityDefaults(fg.value);
    SymmetricConfidenceOfIndex(fg.value);
  }

  /** M5 never divides by zero, and is 0 when the USD/JPY reading is missing. */
  lemma CrossProxyGuards(m1: Macro)
    ensures OrElse(m1.dxy, 1.0) != 0.0
    ensures !Truthy(m1.usdJpy) ==> Module5Cross(m1).corr == 0.0
    ensures Truthy(m1.usdJpy) && !Truthy(m1.dxy) ==> Module5Cross(m1).corr == Round3(m1.usdJpy.value * 0.002)
  {
    Round3OnGrid(0);
  }

  /** M7 restates M3 and scales M6 by 1.9; for a polarity in [0,1] risk and volatility stay in fixed bands. */
  lemma ForecastFollowsScenario(r: Readings)
    ensures var s := FusionCycle(r).snapshot;
      && s.m7.directionalBias == s.m3.bias
      && s.m7.confidenceScore == s.m3.confidence
      && s.m7.expectedVolatilityPct == Round2(s.m6.riskScore * 1.9)
    ensures var s := FusionCycle(r).snapshot;
      0.0 <= s.m2.polarity <= 1.0 ==>
        0.057 <= s.m6.riskScore <= 0.229 && 0.11 <= s.m7.expectedVolatilityPct <= 0.44
  {
    var s := FusionCycle(r).snapshot;
    if 0.0 <= s.m2.polarity <= 1.0 {
      ComplementRiskOrdering(0.4, 1.0, s.m1.macroTone, s.m2.polarity);
      ComplementRiskOrdering(s.m1.macroTone, s.m2.polarity, 0.6, 0.0);
      assert ComplementRisk(0.4, 1.0) == 0.057;
      assert ComplementRisk(0.6, 0.0) == 0.229;
      Round2Monotone(0.057 * 1.9, s.m6.riskScore * 1.9);
      Round2Monotone(s.m6.riskScore * 1.9, 0.229 * 1.9);
      assert Round2(0.057 * 1.9) == 0.11;
      assert Round2(0.229 * 1.9) == 0.44;
    }
  }

  /** A retry happens exactly when at most one of the three key readings is truthy. */
  lemma RetryIffAtMostOneReading(r: Readings)
    ensures NeedsRetry(FusionCycle(r).integrity) <==> Filled(FusionCycle(r).snapshot.m1) <= 1
  {
    IntegrityIsTruthyFraction(FusionCycle(r).snapshot.m1);
  }

  /** With every fetch failing, each module degrades to its neutral default and a retry follows. */
  lemma AllFetchesFailed()
    ensures var none := Readings(None, None, None, None, None, FearGreed(None, None));
      FusionCycle(none) == Attempt(
        Snapshot(
          Macro(None, None, None, None, 0.4),
          Behavioral(FearGreed(None, None), 0.5),
          Scenario(Neutral, 0.65),
          Alignment(0.33, "rotation"),
          CrossProxy(0.0),
          RiskChain(0.129),
          Forecast(Neutral, 0.25, 0.65)),
        0.0)
      && NeedsRetry(FusionCycle(none).integrity)
  {
    var none := Readings(None, None, None, None, None, FearGreed(None, None));
    Count3(None, None, None, Truthy);
    SymmetricConfidenceOfIndex(None);
    Round3OnGrid(0);
    assert ComplementRisk(0.4, 0.5) == 0.129;
    assert Round2(0.129 * 1.9) == 0.25;
  }

  /** Retries continue until an attempt with at least two truthy key readings, and every attempt is persisted. */
  lemma RetriesUntilTwoReadings(rs: seq<Readings>)
    ensures FusionCycleWithRetries(rs).finished <==>
      exists i :: 0 <= i < |rs| && Filled(FusionCycle(rs[i]).snapshot.m1) >= 2
    ensures var attempts := seq(|rs|, i requires 0 <= i < |rs| => FusionCycle(rs[i]));
      Saves(FusionCycleWithRetries(rs).events) == attempts[..Consumed(attempts)]
  {
    var attempts := seq(|rs|, i requires 0 <= i < |rs| => FusionCycle(rs[i]));
    RunFinishesIffTrusted(attempts);
    RunPersistsEveryAttempt(attempts);
    forall i | 0 <= i < |rs|
      ensures NeedsRetry(attempts[i].integrity) <==> Filled(FusionCycle(rs[i]).snapshot.m1) <= 1
    {
      RetryIffAtMostOneReading(rs[i]);
    }
  }
}
