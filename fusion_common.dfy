/**
 * The vocabulary shared by the six per-instrument fusion runtimes: the Fear &
 * Greed reading, the M3..M7 result records, and M2's behavioral polarity,
 * whose formula is identical in every runtime.
 */
module FusionCommon {
  import opened Wrappers
  import opened PyNumbers

  /** What `fetch_fear_greed` returns; both fields are None when the fetch failed. */
  datatype FearGreed = FearGreed(value: Option<int>, classification: Option<string>)

  /** Every `short_term_bias` label used by some runtime; each runtime uses its own subset. */
  datatype Bias = Bullish | Bearish | Neutral | BullishUsd | BullishJpy | YieldPressure | Easing

  /** M3: `short_term_bias` and `confidence`. */
  datatype Scenario = Scenario(bias: Bias, confidence: real)

  /** M4: the placeholder multi-timeframe alignment. */
  datatype Alignment = Alignment(alignmentScore: real, phase: string)

  /** M5: the ratio proxy the runtimes call a correlation. */
  datatype CrossProxy = CrossProxy(corr: real)

  /** M6: `risk_chain_score`. */
  datatype RiskChain = RiskChain(riskScore: real)

  /** M7: `directional_bias`, `expected_volatility_pct`, `confidence_score`. */
  datatype Forecast = Forecast(directionalBias: Bias, expectedVolatilityPct: real, confidenceScore: real)

  /**
   * M2's `round(((fg["value"] or 50) / 100), 3)`. An integer divided by 100 is
   * already on the 0.001 grid, so the rounding is left out here and
   * PolarityDefaults shows that it would change nothing.
   */
  function Polarity(value: Option<int>): real {
    IntOrElse(value, 50) as real / 100.0
  }

  /** A missing or zero index falls back to the midpoint; otherwise the index is scaled to [0,1]. */
  lemma PolarityDefaults(value: Option<int>)
    ensures value == None || value == Some(0) ==> Polarity(value) == 0.5
    ensures value.Some? && value.value != 0 ==> Polarity(value) == value.value as real / 100.0
    ensures value.Some? && 0 <= value.value <= 100 ==> 0.0 <= Polarity(value) <= 1.0
    ensures Round3(Polarity(value)) == Polarity(value)
  {
    var k := IntOrElse(value, 50);
    assert Polarity(value) == (10 * k) as real / 1000.0;
    Round3OnGrid(10 * k);
  }

  /**
   * M3's `round(0.65 + abs(0.5 - polarity) * 0.6, 3)`, written the same way in
   * the USD/JPY, SOL and XRP runtimes: confidence grows with the distance of
   * the crowd from the midpoint, in either direction.
   */
  function SymmetricConfidence(polarity: real): real {
    Round3(0.65 + Abs(0.5 - polarity) * 0.6)
  }

  /** Confidence is at least 0.65, at most 0.95 for a polarity in [0,1], and the same for fear and greed of equal size. */
  lemma SymmetricConfidenceBounds(polarity: real)
    ensures SymmetricConfidence(polarity) >= 0.65
    ensures 0.0 <= polarity <= 1.0 ==> SymmetricConfidence(polarity) <= 0.95
    ensures SymmetricConfidence(1.0 - polarity) == SymmetricConfidence(polarity)
  {
    var x := 0.65 + Abs(0.5 - polarity) * 0.6;
    Round3Monotone(0.65, x);
    Round3OnGrid(650);
    if 0.0 <= polarity <= 1.0 {
      Round3Monotone(x, 0.95);
      Round3OnGrid(950);
    }
    assert Abs(0.5 - (1.0 - polarity)) == Abs(0.5 - polarity);
  }

  /** For a polarity M2 produced the rounding is exact, and equal distances from 50 give equal confidence. */
  lemma SymmetricConfidenceOfIndex(value: Option<int>)
    ensures SymmetricConfidence(Polarity(value)) == 0.65 + Abs(0.5 - Polarity(value)) * 0.6
    ensures var k := IntOrElse(value, 50);
      SymmetricConfidence(Polarity(value)) == (650 + 6 * (if k <= 50 then 50 - k else k - 50)) as real / 1000.0
  {
    var k := IntOrElse(value, 50);
    var d := if k <= 50 then 50 - k else k - 50;
    assert Abs(0.5 - Polarity(value)) == d as real / 100.0;
    Round3OnGrid(650 + 6 * d);
  }

  /**
   * M6's `round((macro_tone + (1 - polarity)) / 7, 3)`, written the same way in
   * the USD/JPY, SOL, XRP and US10Y runtimes: risk rises with the macro tone and
   * falls as the crowd turns greedy.
   */
  function ComplementRisk(macroTone: real, polarity: real): real {
    Round3((macroTone + (1.0 - polarity)) / 7.0)
  }

  lemma ComplementRiskOrdering(tone: real, polarity: real, tone': real, polarity': real)
    requires tone <= tone' && polarity' <= polarity
    ensures ComplementRisk(tone, polarity) <= ComplementRisk(tone', polarity')
  {
    Round3Monotone((tone + (1.0 - polarity)) / 7.0, (tone' + (1.0 - polarity')) / 7.0);
  }
}
