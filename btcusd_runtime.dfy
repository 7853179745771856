/**
 * BTC/USD fusion runtime: the crypto pipeline M1..M7, the integrity score over
 * BTC, ETH, DXY and VIX, and the retry decision.
 */
module BtcUsdRuntime {
  import opened Wrappers
  import opened PyNumbers
  import opened FusionCommon
  import opened Autorecovery

  /** The fetch results one cycle sees. */
  datatype Readings = Readings(
    btc: Option<real>,         // CoinGecko "bitcoin"
    eth: Option<real>,         // CoinGecko "ethereum"
    dxy: Option<real>,         // Yahoo "DX-Y.NYB"
    vix: Option<real>,         // Yahoo "^VIX"
    fearGreed: FearGreed,
    finnhubArticles: Option<real>)  // Finnhub news-sentiment buzz, stored and never used

  /** M1: the readings as stored, and the macro tone. */
  datatype Macro = Macro(btc: Option<real>, eth: Option<real>, dxy: Option<real>, vix: Option<real>, macroTone: real)

  /** M2. */
  datatype Behavioral = Behavioral(fearGreed: FearGreed, finnhubSentiment: Option<real>, polarity: real)

  datatype Snapshot = Snapshot(
    m1: Macro, m2: Behavioral, m3: Scenario, m4: Alignment, m5: CrossProxy, m6: RiskChain, m7: Forecast)

  /** The tone looks at BTC, DXY and VIX; ETH is stored but does not enter it. */
  function Module1Macro(btc: Option<real>, eth: Option<real>, dxy: Option<real>, vix: Option<real>): Macro {
    Macro(btc, eth, dxy, vix, if Truthy(btc) && Truthy(dxy) && Truthy(vix) then 0.5 else 0.25)
  }

  function Module2Behavioral(fg: FearGreed, finnhubArticles: Option<real>): Behavioral {
    Behavioral(fg, finnhubArticles, Polarity(fg.value))
  }

  /** Only "bullish" or "neutral"; the confidence depends on the tone alone. */
  function Module3Scenario(m1: Macro, m2: Behavioral): Scenario {
    var bias := if m1.macroTone > 0.45 && m2.polarity > 0.55 then Bullish else Neutral;
    Scenario(bias, Round3(0.65 + m1.macroTone / 2.0))
  }

  function Module4Mtf(): Alignment {
    Alignment(0.34, "transitional")
  }

  function Module5Cross(m1: Macro): CrossProxy {
    CrossProxy(Round3(OrElse(m1.btc, 0.0) / (OrElse(m1.eth, 1.0) * 20.0) * 0.001))
  }

  /** Unlike the FX and other crypto runtimes, risk here grows with greed. */
  function Module6Risk(m1: Macro, m2: Behavioral): RiskChain {
    RiskChain(Round3((m1.macroTone + m2.polarity) / 8.0))
  }

  function Module7Forecast(m3: Scenario, m6: RiskChain): Forecast {
    Forecast(m3.bias, Round2(m6.riskScore * 2.5), m3.confidence)
  }

  function ComputeDataIntegrity(m1: Macro): real {
    Count([m1.btc, m1.eth, m1.dxy, m1.vix], Truthy) as real / 4.0
  }

  /** One `fusion_cycle` up to the retry decision. */
  function FusionCycle(r: Readings): Attempt<Snapshot> {
    var m1 := Module1Macro(r.btc, r.eth, r.dxy, r.vix);
    var m2 := Module2Behavioral(r.fearGreed, r.finnhubArticles);
    var m3 := Module3Scenario(m1, m2);
    var m6 := Module6Risk(m1, m2);
    Attempt(Snapshot(m1, m2, m3, Module4Mtf(), Module5Cross(m1), m6, Module7Forecast(m3, m6)),
            ComputeDataIntegrity(m1))
  }

  /** `fusion_cycle` with its autorecovery, over the readings its successive attempts see. */
  function FusionCycleWithRetries(rs: seq<Readings>): Trace<Snapshot> {
    Run(seq(|rs|, i requires 0 <= i < |rs| => FusionCycle(rs[i])))
  }

  /** Number of truthy readings among the four the integrity score counts. */
  function Filled(m1: Macro): nat {
    Bit(Truthy(m1.btc)) + Bit(Truthy(m1.eth)) + Bit(Truthy(m1.dxy)) + Bit(Truthy(m1.vix))
  }

  // ----- properties -----

  /** Integrity is the truthy fraction of the four readings; a zero reading counts as missing. */
  lemma IntegrityIsTruthyFraction(m1: Macro)
    ensures ComputeDataIntegrity(m1) == Filled(m1) as real / 4.0
    ensures 0.0 <= ComputeDataIntegrity(m1) <= 1.0
    ensures ComputeDataIntegrity(m1) == 1.0 <==> Truthy(m1.btc) && Truthy(m1.eth) && Truthy(m1.dxy) && Truthy(m1.vix)
    ensures ComputeDataIntegrity(m1.(eth := Some(0.0))) == ComputeDataIntegrity(m1.(eth := None))
  {
    Count4(m1.btc, m1.eth, m1.dxy, m1.vix, Truthy);
    Count4(m1.btc, Some(0.0), m1.dxy, m1.vix, Truthy);
    Count4(m1.btc, None, m1.dxy, m1.vix, Truthy);
  }

  /**
   * The tone is 0.5 exactly when BTC, DXY and VIX are truthy; then integrity is
   * at least 0.75 whatever ETH is, and full integrity always comes with the high tone.
   */
  lemma ToneTracksReadings(r: Readings)
    ensures var a := FusionCycle(r);
      && (a.snapshot.m1.macroTone == 0.5 <==> Truthy(r.btc) && Truthy(r.dxy) && Truthy(r.vix))
      && (a.snapshot.m1.macroTone == 0.25 <==> !(Truthy(r.btc) && Truthy(r.dxy) && Truthy(r.vix)))
      && (a.snapshot.m1.macroTone == 0.5 ==> a.integrity >= 0.75)
      && (a.integrity == 1.0 ==> a.snapshot.m1.macroTone == 0.5)
  {
    IntegrityIsTruthyFraction(FusionCycle(r).snapshot.m1);
  }

  /** The only labels are bullish and neutral; bullish needs BTC, DXY and VIX and a polarity above 0.55. */
  lemma BiasRules(r: Readings)
    ensures var s := FusionCycle(r).snapshot;
      && (s.m3.bias == Bullish || s.m3.bias == Neutral)
      && (s.m3.bias == Bullish <==> Truthy(r.btc) && Truthy(r.dxy) && Truthy(r.vix) && s.m2.polarity > 0.55)
  {
  }

  /** The confidence is 0.9 with the high tone and 0.775 otherwise, whatever the sentiment. */
  lemma ConfidenceIgnoresSentiment(r: Readings)
    ensures var s := FusionCycle(r).snapshot;
      s.m3.confidence == (if s.m1.macroTone == 0.5 then 0.9 else 0.775)
  {
    Round3OnGrid(900);
    Round3OnGrid(775);
  }

  /** Without a Fear & Greed value (None or 0) polarity is 0.5 and the bias neutral. */
  lemma NoSentimentIsNeutral(r: Readings)
    requires r.fearGreed.value == None || r.fearGreed.value == Some(0)
    ensures FusionCycle(r).snapshot.m2.polarity == 0.5
    ensures FusionCycle(r).snapshot.m3.bias == Neutral
  {
    PolarityDefaults(r.fearGreed.value);
  }

  /** M5 never divides by zero, and is 0 when the BTC reading is missing. */
  lemma CrossProxyGuards(m1: Macro)
    ensures OrElse(m1.eth, 1.0) * 20.0 != 0.0
    ensures !Truthy(m1.btc) ==> Module5Cross(m1).corr == 0.0
  {
    Round3OnGrid(0);
  }

  /** Risk rises with both tone and polarity. */
  lemma RiskRisesWithGreed(m1: Macro, m2: Behavioral, m1': Macro, m2': Behavioral)
    requires m1.macroTone <= m1'.macroTone && m2.polarity <= m2'.polarity
    ensures Module6Risk(m1, m2).riskScore <= Module6Risk(m1', m2').riskScore
  {
    Round3Monotone((m1.macroTone + m2.polarity) / 8.0, (m1'.macroTone + m2'.polarity) / 8.0);
  }

  /** M7 restates M3 and scales M6 by 2.5; for a polarity in [0,1] risk and volatility stay in fixed bands. */
  lemma ForecastFollowsScenario(r: Readings)
    ensures var s := FusionCycle(r).snapshot;
      && s.m7.directionalBias == s.m3.bias
      && s.m7.confidenceScore == s.m3.confidence
      && s.m7.expectedVolatilityPct == Round2(s.m6.riskScore * 2.5)
    ensures var s := FusionCycle(r).snapshot;
      0.0 <= s.m2.polarity <= 1.0 ==>
        0.031 <= s.m6.riskScore <= 0.188 && 0.08 <= s.m7.expectedVolatilityPct <= 0.47
  {
    var s := FusionCycle(r).snapshot;
    if 0.0 <= s.m2.polarity <= 1.0 {
      var x := (s.m1.macroTone + s.m2.polarity) / 8.0;
      Round3Monotone(0.25 / 8.0, x);
      Round3Monotone(x, 1.5 / 8.0);
      assert Round3(0.25 / 8.0) == 0.031;
      assert Round3(1.5 / 8.0) == 0.188;
      Round2Monotone(0.031 * 2.5, s.m6.riskScore * 2.5);
      Round2Monotone(s.m6.riskScore * 2.5, 0.188 * 2.5);
      assert Round2(0.031 * 2.5) == 0.08;
      assert Round2(0.188 * 2.5) == 0.47;
    }
  }

  /** A retry happens exactly when at most one of the four readings is truthy. */
  lemma RetryIffAtMostOneReading(r: Readings)
    ensures NeedsRetry(FusionCycle(r).integrity) <==> Filled(FusionCycle(r).snapshot.m1) <= 1
  {
    IntegrityIsTruthyFraction(FusionCycle(r).snapshot.m1);
  }

  /**
   * With every fetch failing each module degrades to its default and a retry
   * follows. The volatility is 0.235 before rounding, a decimal tie that a
   * binary double cannot hold, so only its two neighbours are stated.
   */
  lemma AllFetchesFailed()
    ensures var a := FusionCycle(Readings(None, None, None, None, FearGreed(None, None), None));
      && a.snapshot.m1 == Macro(None, None, None, None, 0.25)
      && a.snapshot.m2.polarity == 0.5
      && a.snapshot.m3 == Scenario(Neutral, 0.775)
      && a.snapshot.m4 == Alignment(0.34, "transitional")
      && a.snapshot.m5 == CrossProxy(0.0)
      && a.snapshot.m6 == RiskChain(0.094)
      && 0.23 <= a.snapshot.m7.expectedVolatilityPct <= 0.24
      && a.integrity == 0.0
      && NeedsRetry(a.integrity)
  {
    Count4(None, None, None, None, Truthy);
    Round3OnGrid(775);
    Round3OnGrid(0);
    assert Round3(0.75 / 8.0) == 0.094;
  }

  /** Retries continue until an attempt with at least two truthy readings, and every attempt is persisted. */
  lemma RetriesUntilTwoReadings(rs: seq<Readings>)
    ensures FusionCycleWithRetries(rs).finished <==>
      exists i :: 0 <= i < |rs| && Filled(FusionCycle(rs[i]).snapshot.m1) >= 2
    ensures var attempts := seq(|rs|, i requires 0 <= i < |rs| => FusionCycle(rs[i]));
      Saves(FusionCycleWithRetries(rs).events) == attempts[..Consumed(attempts)]
  {
    var attempts := seq(|rs|, i requires 0 <= i < |rs| => FusionCycle(rs[i]));
    RunFinishesIffTrusted(attempts);
    RunPersistsEveryAttempt(attempts);
    forall i | 0 <= i < |rs|
      ensures NeedsRetry(attempts[i].integrity) <==> Filled(FusionCycle(rs[i]).snapshot.m1) <= 1
    {
      RetryIffAtMostOneReading(rs[i]);
    }
  }
}
