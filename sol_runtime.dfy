/**
 * SOL fusion runtime: the Solana pipeline M1..M7 with the network-throughput
 * reading, the integrity score over SOL, BTC and ETH, and the retry decision.
 */
module SolRuntime {
  import opened Wrappers
  import opened PyNumbers
  import opened JsonValues
  import opened FusionCommon
  import opened Autorecovery

  /** The fetch results one cycle sees. */
  datatype Readings = Readings(
    sol: Option<real>,         // TwelveData "SOL/USD"
    btc: Option<real>,         // CoinGecko
    eth: Option<real>,
    rpcReply: Option<Json>,    // decoded getRecentPerformanceSamples reply; None when the request failed
    fearGreed: FearGreed)

  /** M1: the readings as stored, the throughput, and the macro tone. */
  datatype Macro = Macro(sol: Option<real>, btc: Option<real>, eth: Option<real>, tps: Option<real>, macroTone: real)

  /** M2. */
  datatype Behavioral = Behavioral(fearGreed: FearGreed, polarity: real)

  datatype Snapshot = Snapshot(
    m1: Macro, m2: Behavioral, m3: Scenario, m4: Alignment, m5: CrossProxy, m6: RiskChain, m7: Forecast)

  /** Python's `max(p, 1)`. */
  function AtLeastOne(p: real): real {
    if 1.0 > p then 1.0 else p
  }

  /**
   * `fetch_solana_network_stats` on a decoded reply: the first sample's
   * transactions per second of its period, rounded to 2 decimals. Any step
   * that would raise (a reply that is not a dict, an empty or non-list
   * `result`, a sample that is not a dict, a field that is not a number)
   * gives None, as the source's blanket `except` does.
   */
  function SolanaTps(reply: Json): Option<real> {
    match Get(reply, "result", JArr([JObj(map[])]))
    case None => None
    case Some(result) =>
      if !result.JArr? || |result.items| == 0 then None
      else
        var sample := result.items[0];
        match (Get(sample, "numTransactions", JNum(0.0)), Get(sample, "samplePeriodSecs", JNum(1.0)))
        case (Some(n), Some(p)) =>
          (match (AsNumber(n), AsNumber(p))
           case (Some(x), Some(secs)) => Some(Round2(x / AtLeastOne(secs)))
           case _ => None)
        case _ => None
  }

  function FetchSolanaNetworkStats(rpcReply: Option<Json>): Option<real> {
    if rpcReply.None? then None else SolanaTps(rpcReply.value)
  }

  function Module1Macro(sol: Option<real>, btc: Option<real>, eth: Option<real>, tps: Option<real>): Macro {
    Macro(sol, btc, eth, tps, if Truthy(sol) && Truthy(btc) && Truthy(eth) then 0.6 else 0.4)
  }

  function Module2Behavioral(fg: FearGreed): Behavioral {
    Behavioral(fg, Polarity(fg.value))
  }

  function Module3Scenario(m1: Macro, m2: Behavioral): Scenario {
    var bias :=
      if m1.macroTone > 0.55 && m2.polarity > 0.55 then Bullish
      else if m1.macroTone < 0.45 && m2.polarity < 0.45 then Bearish
      else Neutral;
    Scenario(bias, SymmetricConfidence(m2.polarity))
  }

  function Module4Mtf(): Alignment {
    Alignment(0.32, "transition")
  }

  function Module5Cross(m1: Macro): CrossProxy {
    CrossProxy(Round3(OrElse(m1.sol, 0.0) / OrElse(m1.btc, 1.0) * 0.0015))
  }

  function Module6Risk(m1: Macro, m2: Behavioral): RiskChain {
    RiskChain(ComplementRisk(m1.macroTone, m2.polarity))
  }

  function Module7Forecast(m3: Scenario, m6: RiskChain): Forecast {
    Forecast(m3.bias, Round2(m6.riskScore * 3.4), m3.confidence)
  }

  function ComputeDataIntegrity(m1: Macro): real {
    Count([m1.sol, m1.btc, m1.eth], Truthy) as real / 3.0
  }

  /** One `fusion_cycle` up to the retry decision. */
  function FusionCycle(r: Readings): Attempt<Snapshot> {
    var m1 := Module1Macro(r.sol, r.btc, r.eth, FetchSolanaNetworkStats(r.rpcReply));
    var m2 := Module2Behavioral(r.fearGreed);
    var m3 := Module3Scenario(m1, m2);
    var m6 := Module6Risk(m1, m2);
    Attempt(Snapshot(m1, m2, m3, Module4Mtf(), Module5Cross(m1), m6, Module7Forecast(m3, m6)),
            ComputeDataIntegrity(m1))
  }

  /** `fusion_cycle` with its autorecovery, over the readings its successive attempts see. */
  function FusionCycleWithRetries(rs: seq<Readings>): Trace<Snapshot> {
    Run(seq(|rs|, i requires 0 <= i < |rs| => FusionCycle(rs[i])))
  }

  /** Number of truthy readings among the three the integrity score counts. */
  function Filled(m1: Macro): nat {
    Bit(Truthy(m1.sol)) + Bit(Truthy(m1.btc)) + Bit(Truthy(m1.eth))
  }

  // ----- properties -----

  /** The throughput divisor is never below 1, so the division cannot fail, and it is the period whenever that is at least 1. */
  lemma TpsDivisorAtLeastOne(secs: real)
    ensures AtLeastOne(secs) >= 1.0
    ensures secs >= 1.0 ==> AtLeastOne(secs) == secs
    ensures secs < 1.0 ==> AtLeastOne(secs) == 1.0
  {
  }

  /** A well-formed reply gives the rounded rate, between 0 and the rounded transaction count. */
  lemma TpsOfWellFormedReply(n: real, secs: real, rest: seq<Json>, other: map<string, Json>)
    requires n >= 0.0
    ensures var sample := JObj(map["numTransactions" := JNum(n), "samplePeriodSecs" := JNum(secs)]);
      var tps := SolanaTps(JObj(other["result" := JArr([sample] + rest)]));
      && tps == Some(Round2(n / AtLeastOne(secs)))
      && 0.0 <= tps.value <= Round2(n)
      && (n == n.Floor as real ==> tps.value <= n)
  {
    var sample := JObj(map["numTransactions" := JNum(n), "samplePeriodSecs" := JNum(secs)]);
    assert ([sample] + rest)[0] == sample;
    var d := AtLeastOne(secs);
    assert 0.0 <= n / d <= n by {
      assert n / d * d == n;
    }
    Round2Monotone(0.0, n / d);
    Round2Monotone(n / d, n);
    Round2OnGrid(0);
    if n == n.Floor as real {
      assert (n.Floor * 100) as real / 100.0 == n;
      Round2OnGrid(n.Floor * 100);
    }
  }

  /** A reply without `result` reads as one empty sample: 0 transactions over 1 second. */
  lemma TpsWithoutResultIsZero(fields: map<string, Json>)
    requires "result" !in fields
    ensures SolanaTps(JObj(fields)) == Some(0.0)
  {
    var sample: Json := JObj(map[]);
    assert Get(sample, "numTransactions", JNum(0.0)) == Some(JNum(0.0));
    assert Get(sample, "samplePeriodSecs", JNum(1.0)) == Some(JNum(1.0));
    Round2OnGrid(0);
  }

  /** Replies the source's `except` turns into None: not a dict, an empty or non-list result, a non-dict or non-numeric sample. */
  lemma TpsMalformedReplies(reply: Json, fields: map<string, Json>, result: Json, s: string)
    ensures !reply.JObj? ==> SolanaTps(reply) == None
    ensures SolanaTps(JObj(fields["result" := JArr([])])) == None
    ensures !result.JArr? ==> SolanaTps(JObj(fields["result" := result])) == None
    ensures SolanaTps(JObj(fields["result" := JArr([JStr(s)])])) == None
    ensures SolanaTps(JObj(fields["result" := JArr([JObj(map["numTransactions" := JNull])])])) == None
    ensures FetchSolanaNetworkStats(None) == None
  {
    var bad := JObj(map["numTransactions" := JNull]);
    assert [bad][0] == bad;
    assert Get(bad, "numTransactions", JNum(0.0)) == Some(JNull);
  }

  /** The throughput is stored in M1 and enters neither the tone nor the integrity score. */
  lemma TpsIsInformational(r: Readings, reply: Option<Json>)
    ensures FusionCycle(r.(rpcReply := reply)).integrity == FusionCycle(r).integrity
    ensures FusionCycle(r.(rpcReply := reply)).snapshot.m1.macroTone == FusionCycle(r).snapshot.m1.macroTone
    ensures FusionCycle(r.(rpcReply := reply)).snapshot.m7 == FusionCycle(r).snapshot.m7
  {
  }

  /** Integrity is the truthy fraction of SOL, BTC and ETH; a zero reading counts as missing. */
  lemma IntegrityIsTruthyFraction(m1: Macro)
    ensures ComputeDataIntegrity(m1) == Filled(m1) as real / 3.0
    ensures 0.0 <= ComputeDataIntegrity(m1) <= 1.0
    ensures ComputeDataIntegrity(m1) == 1.0 <==> Truthy(m1.sol) && Truthy(m1.btc) && Truthy(m1.eth)
    ensures ComputeDataIntegrity(m1) == 0.0 <==> !Truthy(m1.sol) && !Truthy(m1.btc) && !Truthy(m1.eth)
    ensures ComputeDataIntegrity(m1.(sol := Some(0.0))) == ComputeDataIntegrity(m1.(sol := None))
  {
    Count3(m1.sol, m1.btc, m1.eth, Truthy);
    Count3(Some(0.0), m1.btc, m1.eth, Truthy);
    Count3(None, m1.btc, m1.eth, Truthy);
  }

  /** The macro tone is 0.6 exactly when integrity is 1, and 0.4 otherwise. */
  lemma ToneTracksIntegrity(r: Readings)
    ensures var a := FusionCycle(r);
      && (a.snapshot.m1.macroTone == 0.6 <==> a.integrity == 1.0)
      && (a.snapshot.m1.macroTone == 0.4 <==> a.integrity < 1.0)
  {
    IntegrityIsTruthyFraction(FusionCycle(r).snapshot.m1);
  }

  /** The three bias labels and their threshold rules; exactly one applies. */
  lemma BiasRules(m1: Macro, m2: Behavioral)
    ensures var b := Module3Scenario(m1, m2).bias;
      && (b == Bullish <==> m1.macroTone > 0.55 && m2.polarity > 0.55)
      && (b == Bearish <==> m1.macroTone < 0.45 && m2.polarity < 0.45)
      && (b == Neutral <==> !(m1.macroTone > 0.55 && m2.polarity > 0.55) && !(m1.macroTone < 0.45 && m2.polarity < 0.45))
  {
  }

  /** Without a Fear & Greed value (None or 0) polarity is 0.5, the bias neutral and the confidence 0.65. */
  lemma NoSentimentIsNeutral(m1: Macro, fg: FearGreed)
    requires fg.value == None || fg.value == Some(0)
    ensures Module2Behavioral(fg).polarity == 0.5
    ensures Module3Scenario(m1, Module2Behavioral(fg)) == Scenario(Neutral, 0.65)
  {
    PolarityDefaults(fg.value);
    SymmetricConfidenceOfIndex(fg.value);
  }

  /** M5 never divides by zero, and is 0 when the SOL reading is missing. */
  lemma CrossProxyGuards(m1: Macro)
    ensures OrElse(m1.btc, 1.0) != 0.0
    ensures !Truthy(m1.sol) ==> Module5Cross(m1).corr == 0.0
  {
    Round3OnGrid(0);
  }

  /** M7 restates M3 and scales M6 by 3.4; for a polarity in [0,1] risk and volatility stay in fixed bands. */
  lemma ForecastFollowsScenario(r: Readings)
    ensures var s := FusionCycle(r).snapshot;
      && s.m7.directionalBias == s.m3.bias
      && s.m7.confidenceScore == s.m3.confidence
      && s.m7.expectedVolatilityPct == Round2(s.m6.riskScore * 3.4)
    ensures var s := FusionCycle(r).snapshot;
      0.0 <= s.m2.polarity <= 1.0 ==>
        0.057 <= s.m6.riskScore <= 0.229 && 0.19 <= s.m7.expectedVolatilityPct <= 0.78
  {
    var s := FusionCycle(r).snapshot;
    if 0.0 <= s.m2.polarity <= 1.0 {
      ComplementRiskOrdering(0.4, 1.0, s.m1.macroTone, s.m2.polarity);
      ComplementRiskOrdering(s.m1.macroTone, s.m2.polarity, 0.6, 0.0);
      assert ComplementRisk(0.4, 1.0) == 0.057;
      assert ComplementRisk(0.6, 0.0) == 0.229;
      Round2Monotone(0.057 * 3.4, s.m6.riskScore * 3.4);
      Round2Monotone(s.m6.riskScore * 3.4, 0.229 * 3.4);
      assert Round2(0.057 * 3.4) == 0.19;
      assert Round2(0.229 * 3.4) == 0.78;
    }
  }

  /** A retry happens exactly when at most one of SOL, BTC and ETH is truthy. */
  lemma RetryIffAtMostOneReading(r: Readings)
    ensures NeedsRetry(FusionCycle(r).integrity) <==> Filled(FusionCycle(r).snapshot.m1) <= 1
  {
    IntegrityIsTruthyFraction(FusionCycle(r).snapshot.m1);
  }

  /** With every fetch failing, each module degrades to its neutral default and a retry follows. */
  lemma AllFetchesFailed()
    ensures var none := Readings(None, None, None, None, FearGreed(None, None));
      FusionCycle(none) == Attempt(
        Snapshot(
          Macro(None, None, None, None, 0.4),
          Behavioral(FearGreed(None, None), 0.5),
          Scenario(Neutral, 0.65),
          Alignment(0.32, "transition"),
          CrossProxy(0.0),
          RiskChain(0.129),
          Forecast(Neutral, 0.44, 0.65)),
        0.0)
      && NeedsRetry(FusionCycle(none).integrity)
  {
    Count3(None, None, None, Truthy);
    SymmetricConfidenceOfIndex(None);
    Round3OnGrid(0);
    assert ComplementRisk(0.4, 0.5) == 0.129;
    assert Round2(0.129 * 3.4) == 0.44;
  }

  /** Retries continue until an attempt with at least two truthy readings, and every attempt is persisted. */
  lemma RetriesUntilTwoReadings(rs: seq<Readings>)
    ensures FusionCycleWithRetries(rs).finished <==>
      exists i :: 0 <= i < |rs| && Filled(FusionCycle(rs[i]).snapshot.m1) >= 2
    ensures var attempts := seq(|rs|, i requires 0 <= i < |rs| => FusionCycle(rs[i]));
      Saves(FusionCycleWithRetries(rs).events) == attempts[..Consumed(attempts)]
  {
    var attempts := seq(|rs|, i requires 0 <= i < |rs| => FusionCycle(rs[i]));
    RunFinishesIffTrusted(attempts);
    RunPersistsEveryAttempt(attempts);
    forall i | 0 <= i < |rs|
      ensures NeedsRetry(attempts[i].integrity) <==> Filled(FusionCycle(rs[i]).snapshot.m1) <= 1
    {
      RetryIffAtMostOneReading(rs[i]);
    }
  }
}
