/**
 * XAU/USD fusion runtime: the gold pipeline M1..M7, the integrity score over
 * gold, DXY, the 10-year yield and M2's BTC reading, and the retry decision.
 */
module XauUsdRuntime {
  import opened Wrappers
  import opened PyNumbers
  import opened FusionCommon
  import opened Autorecovery

  /** The fetch results one cycle sees. */
  datatype Readings = Readings(
    twelveData: Option<real>,  // TwelveData "XAU/USD"
    yahoo: Option<real>,       // Yahoo "GC=F", asked only when TwelveData gave nothing truthy
    dxy: Option<real>,
    yield10y: Option<real>,    // FRED DGS10
    vix: Option<real>,
    fearGreed: FearGreed,
    btc: Option<real>,         // CoinGecko, fetched in M2
    eth: Option<real>)

  /** M1: the readings as stored, and the macro tone. */
  datatype Macro = Macro(xauUsd: Option<real>, dxy: Option<real>, yield10y: Option<real>, vix: Option<real>, macroTone: real)

  /** M2: sentiment plus the two crypto prices. */
  datatype Behavioral = Behavioral(fearGreed: FearGreed, btc: Option<real>, eth: Option<real>, polarity: real)

  datatype Snapshot = Snapshot(
    m1: Macro, m2: Behavioral, m3: Scenario, m4: Alignment, m5: CrossProxy, m6: RiskChain, m7: Forecast)

  /** The tone looks at gold, DXY and the yield; VIX is stored but does not enter it. */
  function Module1Macro(twelveData: Option<real>, yahoo: Option<real>, dxy: Option<real>,
                        yield10y: Option<real>, vix: Option<real>): Macro
  {
    var xau := if Truthy(twelveData) then twelveData else yahoo;
    Macro(xau, dxy, yield10y, vix, if Truthy(xau) && Truthy(dxy) && Truthy(yield10y) then 0.65 else 0.3)
  }

  function Module2Behavioral(fg: FearGreed, btc: Option<real>, eth: Option<real>): Behavioral {
    Behavioral(fg, btc, eth, Polarity(fg.value))
  }

  /** Only "bullish" or "neutral"; the confidence depends on the tone alone. */
  function Module3Scenario(m1: Macro, m2: Behavioral): Scenario {
    var bias := if m1.macroTone > 0.5 && m2.polarity > 0.55 then Bullish else Neutral;
    Scenario(bias, Round3(0.7 + m1.macroTone / 3.0))
  }

  function Module4Mtf(): Alignment {
    Alignment(0.32, "accumulation")
  }

  /** Gold over M2's BTC price. */
  function Module5Cross(m1: Macro, m2: Behavioral): CrossProxy {
    CrossProxy(Round3(OrElse(m1.xauUsd, 0.0) / OrElse(m2.btc, 1.0) * 0.001))
  }

  /** Risk here grows with greed. */
  function Module6Risk(m1: Macro, m2: Behavioral): RiskChain {
    RiskChain(Round3((m1.macroTone + m2.polarity) / 9.0))
  }

  function Module7Forecast(m3: Scenario, m6: RiskChain): Forecast {
    Forecast(m3.bias, Round2(m6.riskScore * 2.4), m3.confidence)
  }

  function ComputeDataIntegrity(m1: Macro, m2: Behavioral): real {
    Count([m1.xauUsd, m1.dxy, m1.yield10y, m2.btc], Truthy) as real / 4.0
  }

  /** One `fusion_cycle` up to the retry decision. */
  function FusionCycle(r: Readings): Attempt<Snapshot> {
    var m1 := Module1Macro(r.twelveData, r.yahoo, r.dxy, r.yield10y, r.vix);
    var m2 := Module2Behavioral(r.fearGreed, r.btc, r.eth);
    var m3 := Module3Scenario(m1, m2);
    var m6 := Module6Risk(m1, m2);
    Attempt(Snapshot(m1, m2, m3, Module4Mtf(), Module5Cross(m1, m2), m6, Module7Forecast(m3, m6)),
            ComputeDataIntegrity(m1, m2))
  }

  /** `fusion_cycle` with its autorecovery, over the readings its successive attempts see. */
  function FusionCycleWithRetries(rs: seq<Readings>): Trace<Snapshot> {
    Run(seq(|rs|, i requires 0 <= i < |rs| => FusionCycle(rs[i])))
  }

  /** Number of truthy readings among the four the integrity score counts. */
  function Filled(m1: Macro, m2: Behavioral): nat {
    Bit(Truthy(m1.xauUsd)) + Bit(Truthy(m1.dxy)) + Bit(Truthy(m1.yield10y)) + Bit(Truthy(m2.btc))
  }

  // ----- properties -----

  /** The gold reading is TwelveData's when truthy; a missing or zero TwelveData price falls through to Yahoo. */
  lemma TwelveDataFallsBackToYahoo(twelveData: Option<real>, yahoo: Option<real>, dxy: Option<real>,
                                   yield10y: Option<real>, vix: Option<real>)
    ensures var m1 := Module1Macro(twelveData, yahoo, dxy, yield10y, vix);
      && (Truthy(twelveData) ==> m1.xauUsd == twelveData)
      && (twelveData == None || twelveData == Some(0.0) ==> m1.xauUsd == yahoo)
  {
  }

  /** Integrity is the truthy fraction of the four readings; VIX and ETH do not count, a zero reading counts as missing. */
  lemma IntegrityIsTruthyFraction(m1: Macro, m2: Behavioral)
    ensures ComputeDataIntegrity(m1, m2) == Filled(m1, m2) as real / 4.0
    ensures 0.0 <= ComputeDataIntegrity(m1, m2) <= 1.0
    ensures ComputeDataIntegrity(m1, m2) == 1.0 <==>
      Truthy(m1.xauUsd) && Truthy(m1.dxy) && Truthy(m1.yield10y) && Truthy(m2.btc)
    ensures ComputeDataIntegrity(m1, m2.(btc := Some(0.0))) == ComputeDataIntegrity(m1, m2.(btc := None))
  {
    Count4(m1.xauUsd, m1.dxy, m1.yield10y, m2.btc, Truthy);
    Count4(m1.xauUsd, m1.dxy, m1.yield10y, Some(0.0), Truthy);
    Count4(m1.xauUsd, m1.dxy, m1.yield10y, None, Truthy);
  }

  /** The tone is 0.65 exactly when gold, DXY and the yield are truthy; then integrity is at least 0.75. */
  lemma ToneTracksReadings(r: Readings)
    ensures var a := FusionCycle(r);
      && (a.snapshot.m1.macroTone == 0.65 <==>
            Truthy(a.snapshot.m1.xauUsd) && Truthy(r.dxy) && Truthy(r.yield10y))
      && (a.snapshot.m1.macroTone == 0.3 <==>
            !(Truthy(a.snapshot.m1.xauUsd) && Truthy(r.dxy) && Truthy(r.yield10y)))
      && (a.snapshot.m1.macroTone == 0.65 ==> a.integrity >= 0.75)
      && (a.integrity == 1.0 ==> a.snapshot.m1.macroTone == 0.65)
  {
    IntegrityIsTruthyFraction(FusionCycle(r).snapshot.m1, FusionCycle(r).snapshot.m2);
  }

  /** The only labels are bullish and neutral; bullish needs the high tone and a polarity above 0.55. */
  lemma BiasRules(r: Readings)
    ensures var s := FusionCycle(r).snapshot;
      && (s.m3.bias == Bullish || s.m3.bias == Neutral)
      && (s.m3.bias == Bullish <==> s.m1.macroTone == 0.65 && s.m2.polarity > 0.55)
  {
  }

  /** The confidence is 0.917 with the high tone and 0.8 otherwise, whatever the sentiment. */
  lemma ConfidenceIgnoresSentiment(r: Readings)
    ensures var s := FusionCycle(r).snapshot;
      s.m3.confidence == (if s.m1.macroTone == 0.65 then 0.917 else 0.8)
  {
    assert Round3(0.7 + 0.65 / 3.0) == 0.917;
    Round3OnGrid(800);
  }

  /** Without a Fear & Greed value (None or 0) polarity is 0.5 and the bias neutral. */
  lemma NoSentimentIsNeutral(r: Readings)
    requires r.fearGreed.value == None || r.fearGreed.value == Some(0)
    ensures FusionCycle(r).snapshot.m2.polarity == 0.5
    ensures FusionCycle(r).snapshot.m3.bias == Neutral
  {
    PolarityDefaults(r.fearGreed.value);
  }

  /** M5 never divides by zero, and is 0 when the gold reading is missing. */
  lemma CrossProxyGuards(m1: Macro, m2: Behavioral)
    ensures OrElse(m2.btc, 1.0) != 0.0
    ensures !Truthy(m1.xauUsd) ==> Module5Cross(m1, m2).corr == 0.0
  {
    Round3OnGrid(0);
  }

  /** Risk rises with both tone and polarity. */
  lemma RiskRisesWithGreed(m1: Macro, m2: Behavioral, m1': Macro, m2': Behavioral)
    requires m1.macroTone <= m1'.macroTone && m2.polarity <= m2'.polarity
    ensures Module6Risk(m1, m2).riskScore <= Module6Risk(m1', m2').riskScore
  {
    Round3Monotone((m1.macroTone + m2.polarity) / 9.0, (m1'.macroTone + m2'.polarity) / 9.0);
  }

  /** M7 restates M3 and scales M6 by 2.4; for a polarity in [0,1] risk and volatility stay in fixed bands. */
  lemma ForecastFollowsScenario(r: Readings)
    ensures var s := FusionCycle(r).snapshot;
      && s.m7.directionalBias == s.m3.bias
      && s.m7.confidenceScore == s.m3.confidence
      && s.m7.expectedVolatilityPct == Round2(s.m6.riskScore * 2.4)
    ensures var s := FusionCycle(r).snapshot;
      0.0 <= s.m2.polarity <= 1.0 ==>
        0.033 <= s.m6.riskScore <= 0.183 && 0.08 <= s.m7.expectedVolatilityPct <= 0.44
  {
    var s := FusionCycle(r).snapshot;
    if 0.0 <= s.m2.polarity <= 1.0 {
      var x := (s.m1.macroTone + s.m2.polarity) / 9.0;
      Round3Monotone(0.3 / 9.0, x);
      Round3Monotone(x, 1.65 / 9.0);
      assert Round3(0.3 / 9.0) == 0.033;
      assert Round3(1.65 / 9.0) == 0.183;
      Round2Monotone(0.033 * 2.4, s.m6.riskScore * 2.4);
      Round2Monotone(s.m6.riskScore * 2.4, 0.183 * 2.4);
      assert Round2(0.033 * 2.4) == 0.08;
      assert Round2(0.183 * 2.4) == 0.44;
    }
  }

  /** A retry happens exactly when at most one of the four readings is truthy. */
  lemma RetryIffAtMostOneReading(r: Readings)
    ensures NeedsRetry(FusionCycle(r).integrity) <==> Filled(FusionCycle(r).snapshot.m1, FusionCycle(r).snapshot.m2) <= 1
  {
    IntegrityIsTruthyFraction(FusionCycle(r).snapshot.m1, FusionCycle(r).snapshot.m2);
  }

  /** With every fetch failing, each module degrades to its default and a retry follows. */
  lemma AllFetchesFailed()
    ensures var none := Readings(None, None, None, None, None, FearGreed(None, None), None, None);
      FusionCycle(none) == Attempt(
        Snapshot(
          Macro(None, None, None, None, 0.3),
          Behavioral(FearGreed(None, None), None, None, 0.5),
          Scenario(Neutral, 0.8),
          Alignment(0.32, "accumulation"),
          CrossProxy(0.0),
          RiskChain(0.089),
          Forecast(Neutral, 0.21, 0.8)),
        0.0)
      && NeedsRetry(FusionCycle(none).integrity)
  {
    Count4(None, None, None, None, Truthy);
    Round3OnGrid(800);
    Round3OnGrid(0);
    assert Round3(0.8 / 9.0) == 0.089;
    assert Round2(0.089 * 2.4) == 0.21;
  }

  /** Retries continue until an attempt with at least two truthy readings, and every attempt is persisted. */
  lemma RetriesUntilTwoReadings(rs: seq<Readings>)
    ensures FusionCycleWithRetries(rs).finished <==>
      exists i :: 0 <= i < |rs| && Filled(FusionCycle(rs[i]).snapshot.m1, FusionCycle(rs[i]).snapshot.m2) >= 2
    ensures var attempts := seq(|rs|, i requires 0 <= i < |rs| => FusionCycle(rs[i]));
      Saves(FusionCycleWithRetries(rs).events) == attempts[..Consumed(attempts)]
  {
    var attempts := seq(|rs|, i requires 0 <= i < |rs| => FusionCycle(rs[i]));
    RunFinishesIffTrusted(attempts);
    RunPersistsEveryAttempt(attempts);
    forall i | 0 <= i < |rs|
      ensures NeedsRetry(attempts[i].integrity) <==> Filled(FusionCycle(rs[i]).snapshot.m1, FusionCycle(rs[i]).snapshot.m2) <= 1
    {
      RetryIffAtMostOneReading(rs[i]);
    }
  }
}
