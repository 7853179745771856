/**
 * XRP fusion runtime: the XRP pipeline M1..M7, the integrity score over XRP,
 * BTC and ETH, and the retry decision.
 */
module XrpRuntime {
  import opened Wrappers
  import opened PyNumbers
  import opened FusionCommon
  import opened Autorecovery

  /** The fetch results one cycle sees. */
  datatype Readings = Readings(
    xrp: Option<real>,         // TwelveData "XRP/USD"
    btc: Option<real>,         // CoinGecko, fetched in M1
    eth: Option<real>,
    fearGreed: FearGreed,
    btcAgain: Option<real>)    // CoinGecko "bitcoin" fetched a second time in M2

  /** M1: the readings as stored, and the macro tone. */
  datatype Macro = Macro(xrp: Option<real>, btc: Option<real>, eth: Option<real>, macroTone: real)

  /** M2: sentiment plus a BTC price used as a volatility proxy (0 when the fetch failed). */
  datatype Behavioral = Behavioral(fearGreed: FearGreed, polarity: real, volProxy: real)

  datatype Snapshot = Snapshot(
    m1: Macro, m2: Behavioral, m3: Scenario, m4: Alignment, m5: CrossProxy, m6: RiskChain, m7: Forecast)

  function Module1Macro(xrp: Option<real>, btc: Option<real>, eth: Option<real>): Macro {
    Macro(xrp, btc, eth, if Truthy(xrp) && Truthy(btc) && Truthy(eth) then 0.6 else 0.4)
  }

  function Module2Behavioral(fg: FearGreed, btcAgain: Option<real>): Behavioral {
    Behavioral(fg, Polarity(fg.value), OrElse(btcAgain, 0.0))
  }

  function Module3Scenario(m1: Macro, m2: Behavioral): Scenario {
    var bias :=
      if m1.macroTone > 0.55 && m2.polarity > 0.55 then Bullish
      else if m1.macroTone < 0.45 && m2.polarity < 0.45 then Bearish
      else Neutral;
    Scenario(bias, SymmetricConfidence(m2.polarity))
  }

  function Module4Mtf(): Alignment {
    Alignment(0.31, "rotation")
  }

  function Module5Cross(m1: Macro): CrossProxy {
    CrossProxy(Round3(OrElse(m1.xrp, 0.0) / OrElse(m1.btc, 1.0) * 0.002))
  }

  function Module6Risk(m1: Macro, m2: Behavioral): RiskChain {
    RiskChain(ComplementRisk(m1.macroTone, m2.polarity))
  }

  function Module7Forecast(m3: Scenario, m6: RiskChain): Forecast {
    Forecast(m3.bias, Round2(m6.riskScore * 3.2), m3.confidence)
  }

  /** M2 is passed in by the source but takes no part. */
  function ComputeDataIntegrity(m1: Macro, m2: Behavioral): real {
    Count([m1.xrp, m1.btc, m1.eth], Truthy) as real / 3.0
  }

  /** One `fusion_cycle` up to the retry decision. */
  function FusionCycle(r: Readings): Attempt<Snapshot> {
    var m1 := Module1Macro(r.xrp, r.btc, r.eth);
    var m2 := Module2Behavioral(r.fearGreed, r.btcAgain);
    var m3 := Module3Scenario(m1, m2);
    var m6 := Module6Risk(m1, m2);
    Attempt(Snapshot(m1, m2, m3, Module4Mtf(), Module5Cross(m1), m6, Module7Forecast(m3, m6)),
            ComputeDataIntegrity(m1, m2))
  }

  /** `fusion_cycle` with its autorecovery, over the readings its successive attempts see. */
  function FusionCycleWithRetries(rs: seq<Readings>): Trace<Snapshot> {
    Run(seq(|rs|, i requires 0 <= i < |rs| => FusionCycle(rs[i])))
  }

  /** Number of truthy readings among the three the integrity score counts. */
  function Filled(m1: Macro): nat {
    Bit(Truthy(m1.xrp)) + Bit(Truthy(m1.btc)) + Bit(Truthy(m1.eth))
  }

  // ----- properties -----

  /** Integrity is the truthy fraction of XRP, BTC and ETH; M2 and its second BTC fetch play no part. */
  lemma IntegrityIsTruthyFraction(m1: Macro, m2: Behavioral, m2': Behavioral)
    ensures ComputeDataIntegrity(m1, m2) == Filled(m1) as real / 3.0
    ensures 0.0 <= ComputeDataIntegrity(m1, m2) <= 1.0
    ensures ComputeDataIntegrity(m1, m2) == 1.0 <==> Truthy(m1.xrp) && Truthy(m1.btc) && Truthy(m1.eth)
    ensures ComputeDataIntegrity(m1, m2) == 0.0 <==> !Truthy(m1.xrp) && !Truthy(m1.btc) && !Truthy(m1.eth)
    ensures ComputeDataIntegrity(m1, m2') == ComputeDataIntegrity(m1, m2)
    ensures ComputeDataIntegrity(m1.(xrp := Some(0.0)), m2) == ComputeDataIntegrity(m1.(xrp := None), m2)
  {
    Count3(m1.xrp, m1.btc, m1.eth, Truthy);
    Count3(Some(0.0), m1.btc, m1.eth, Truthy);
    Count3(None, m1.btc, m1.eth, Truthy);
  }

  /** The volatility proxy is M2's own BTC price, 0 when that second fetch failed, whatever M1 saw. */
  lemma VolProxyIsSecondFetch(r: Readings)
    ensures FusionCycle(r).snapshot.m2.volProxy == (if Truthy(r.btcAgain) then r.btcAgain.value else 0.0)
    ensures FusionCycle(r.(btcAgain := None)).integrity == FusionCycle(r).integrity
  {
    IntegrityIsTruthyFraction(FusionCycle(r).snapshot.m1, FusionCycle(r).snapshot.m2, FusionCycle(r.(btcAgain := None)).snapshot.m2);
  }

  /** The macro tone is 0.6 exactly when integrity is 1, and 0.4 otherwise. */
  lemma ToneTracksIntegrity(r: Readings)
    ensures var a := FusionCycle(r);
      && (a.snapshot.m1.macroTone == 0.6 <==> a.integrity == 1.0)
      && (a.snapshot.m1.macroTone == 0.4 <==> a.integrity < 1.0)
  {
    IntegrityIsTruthyFraction(FusionCycle(r).snapshot.m1, FusionCycle(r).snapshot.m2, FusionCycle(r).snapshot.m2);
  }

  /** The three bias labels and their threshold rules; exactly one applies. */
  lemma BiasRules(m1: Macro, m2: Behavioral)
    ensures var b := Module3Scenario(m1, m2).bias;
      && (b == Bullish <==> m1.macroTone > 0.55 && m2.polarity > 0.55)
      && (b == Bearish <==> m1.macroTone < 0.45 && m2.polarity < 0.45)
      && (b == Neutral <==> !(m1.macroTone > 0.55 && m2.polarity > 0.55) && !(m1.macroTone < 0.45 && m2.polarity < 0.45))
  {
  }

  /** Without a Fear & Greed value (None or 0) polarity is 0.5, the bias neutral and the confidence 0.65. */
  lemma NoSentimentIsNeutral(m1: Macro, fg: FearGreed, btcAgain: Option<real>)
    requires fg.value == None || fg.value == Some(0)
    ensures Module2Behavioral(fg, btcAgain).polarity == 0.5
    ensures Module3Scenario(m1, Module2Behavioral(fg, btcAgain)) == Scenario(Neutral, 0.65)
  {
    PolarityDefaults(fg.value);
    SymmetricConfidenceOfIndex(fg.value);
  }

  /** M5 never divides by zero, and is 0 when the XRP reading is missing. */
  lemma CrossProxyGuards(m1: Macro)
    ensures OrElse(m1.btc, 1.0) != 0.0
    ensures !Truthy(m1.xrp) ==> Module5Cross(m1).corr == 0.0
  {
    Round3OnGrid(0);
  }

  /** M7 restates M3 and scales M6 by 3.2; for a polarity in [0,1] risk and volatility stay in fixed bands. */
  lemma ForecastFollowsScenario(r: Readings)
    ensures var s := FusionCycle(r).snapshot;
      && s.m7.directionalBias == s.m3.bias
      && s.m7.confidenceScore == s.m3.confidence
      && s.m7.expectedVolatilityPct == Round2(s.m6.riskScore * 3.2)
    ensures var s := FusionCycle(r).snapshot;
      0.0 <= s.m2.polarity <= 1.0 ==>
        0.057 <= s.m6.riskScore <= 0.229 && 0.18 <= s.m7.expectedVolatilityPct <= 0.73
  {
    var s := FusionCycle(r).snapshot;
    if 0.0 <= s.m2.polarity <= 1.0 {
      ComplementRiskOrdering(0.4, 1.0, s.m1.macroTone, s.m2.polarity);
      ComplementRiskOrdering(s.m1.macroTone, s.m2.polarity, 0.6, 0.0);
      assert ComplementRisk(0.4, 1.0) == 0.057;
      assert ComplementRisk(0.6, 0.0) == 0.229;
      Round2Monotone(0.057 * 3.2, s.m6.riskScore * 3.2);
      Round2Monotone(s.m6.riskScore * 3.2, 0.229 * 3.2);
      assert Round2(0.057 * 3.2) == 0.18;
      assert Round2(0.229 * 3.2) == 0.73;
    }
  }

  /** A retry happens exactly when at most one of XRP, BTC and ETH is truthy. */
  lemma RetryIffAtMostOneReading(r: Readings)
    ensures NeedsRetry(FusionCycle(r).integrity) <==> Filled(FusionCycle(r).snapshot.m1) <= 1
  {
    IntegrityIsTruthyFraction(FusionCycle(r).snapshot.m1, FusionCycle(r).snapshot.m2, FusionCycle(r).snapshot.m2);
  }

  /** With every fetch failing, each module degrades to its neutral default and a retry follows. */
  lemma AllFetchesFailed()
    ensures var none := Readings(None, None, None, FearGreed(None, None), None);
      FusionCycle(none) == Attempt(
        Snapshot(
          Macro(None, None, None, 0.4),
          Behavioral(FearGreed(None, None), 0.5, 0.0),
          Scenario(Neutral, 0.65),
          Alignment(0.31, "rotation"),
          CrossProxy(0.0),
          RiskChain(0.129),
          Forecast(Neutral, 0.41, 0.65)),
        0.0)
      && NeedsRetry(FusionCycle(none).integrity)
  {
    Count3(None, None, None, Truthy);
    SymmetricConfidenceOfIndex(None);
    Round3OnGrid(0);
    assert ComplementRisk(0.4, 0.5) == 0.129;
    assert Round2(0.129 * 3.2) == 0.41;
  }

  /** Retries continue until an attempt with at least two truthy readings, and every attempt is persisted. */
  lemma RetriesUntilTwoReadings(rs: seq<Readings>)
    ensures FusionCycleWithRetries(rs).finished <==>
      exists i :: 0 <= i < |rs| && Filled(FusionCycle(rs[i]).snapshot.m1) >= 2
    ensures var attempts := seq(|rs|, i requires 0 <= i < |rs| => FusionCycle(rs[i]));
      Saves(FusionCycleWithRetries(rs).events) == attempts[..Consumed(attempts)]
  {
    var attempts := seq(|rs|, i requires 0 <= i < |rs| => FusionCycle(rs[i]));
    RunFinishesIffTrusted(attempts);
    RunPersistsEveryAttempt(attempts);
    forall i | 0 <= i < |rs|
      ensures NeedsRetry(attempts[i].integrity) <==> Filled(FusionCycle(rs[i]).snapshot.m1) <= 1
    {
      RetryIffAtMostOneReading(rs[i]);
    }
  }
}
