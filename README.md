# Fusion runtimes and Total Recall propagation, modelled in Dafny

This project models the deterministic core of the six per-instrument fusion
runtimes (USD/JPY, BTC/USD, XAU/USD, SOL, XRP and the US 10-year yield) and
of the Total Recall propagation script.

In each runtime a fusion cycle goes through these steps:
- It takes the readings its fetchers returned. Each reading is an optional
  number, and the Fear & Greed index is an optional integer.
- It derives the seven module outputs: M1 macro tone, M2 behavioural
  polarity, M3 scenario bias and confidence, M4 timeframe alignment, M5
  cross-asset proxy, M6 risk chain and M7 forecast.
- It scores data integrity and writes its snapshot.
- It retries after a ten-minute backoff while the integrity is below 0.5.

Python's truthiness is modelled explicitly. A reading of `0` is as
missing as `None` wherever the code writes `x or y`, `if v` or
`all([...])`; the US10Y runtime instead tests `is not None`. Python's
`round` is round-half-to-even on the exact value.

The propagation run works on the anchor file's list of module dicts:
- It fetches nine tickers into the live data.
- It adds a sentiment proxy.
- When SPX has a history, it correlates every other history with SPX.
- It calibrates a systemic risk score and a macro tone.
- It injects the live feed into every module, in place. Modules whose id
  mentions MODULE_6 also receive the risk fields.

Layout, one Dafny module per file:
- `wrappers.dfy` (`Wrappers`): Option and Result.
- `py_numbers.dfy` (`PyNumbers`): truthiness, `x or d`, counting and rounding.
- `fusion_common.dfy` (`FusionCommon`): the module outputs the runtimes share, polarity, and the symmetric confidence and complement risk formulas.
- `autorecovery.dfy` (`Autorecovery`): the save / decide / back off trace of a cycle with its retries.
- One file per runtime: `usdjpy_runtime.dfy`, `btcusd_runtime.dfy`, `xauusd_runtime.dfy`, `sol_runtime.dfy`, `xrp_runtime.dfy` and `us10y_runtime.dfy`.
- `json_values.dfy` (`JsonValues`): decoded JSON values.
- `correlation.dfy` (`Pearson`): the manual Pearson correlation.
- `risk_metrics.dfy` (`RiskCalibration`): `compute_risk_metrics`.
- `module_injection.dfy` (`ModuleInjection`): the per-module injection and the in-place loop over the module array.
- `propagation.dfy` (`Propagation`): the ticker loop, the correlation loop and the whole run.

## Model

| member | source | states |
|---|---|---|
| FusionCommon.PolarityDefaults | ENGINE/FUSION_RUNTIME/USDJPY_FUSION_RUNTIME_v3.6.1_AUTORECOVERY.py:127 | A missing or zero Fear & Greed value gives polarity 0.5, any other value v gives v/100, an index in [0,100] gives a polarity in [0,1], and rounding to three decimals leaves it unchanged |
| FusionCommon.SymmetricConfidenceBounds | ENGINE/FUSION_RUNTIME/USDJPY_FUSION_RUNTIME_v3.6.1_AUTORECOVERY.py:141 | Confidence 0.65 + 0.6·\|0.5 − polarity\| is at least 0.65, at most 0.95 for a polarity in [0,1], and equal for polarities p and 1 − p |
| FusionCommon.SymmetricConfidenceOfIndex | ENGINE/FUSION_RUNTIME/SOL_FUSION_RUNTIME_v3.6.1_AUTORECOVERY.py:122 | For a polarity drawn from the index, the rounding is exact: confidence is (650 + 6·\|k − 50\|)/1000 for the index k or its default 50 |
| FusionCommon.ComplementRiskOrdering | ENGINE/FUSION_RUNTIME/XRP_FUSION_RUNTIME_v3.6.1_AUTORECOVERY.py:123-125 | The risk (tone + 1 − polarity)/7, rounded, never falls when the tone rises or the polarity falls |
| Autorecovery.Consumed | ENGINE/FUSION_RUNTIME/USDJPY_FUSION_RUNTIME_v3.6.1_AUTORECOVERY.py:172-176 | The number of attempts a run uses: every attempt before the last one used had integrity below 0.5, and if attempts remain unused, the last one used reached 0.5 |
| Autorecovery.RunPersistsEveryAttempt | ENGINE/FUSION_RUNTIME/USDJPY_FUSION_RUNTIME_v3.6.1_AUTORECOVERY.py:201-219 | The snapshots a run saves are exactly the attempts it used, in order: every attempt is written before its retry decision |
| Autorecovery.RunFinishesIffTrusted | ENGINE/FUSION_RUNTIME/USDJPY_FUSION_RUNTIME_v3.6.1_AUTORECOVERY.py:172-176 | The outermost cycle returns iff some attempt reaches integrity 0.5 |
| Autorecovery.RunCountsBackoffsAndNotices | ENGINE/FUSION_RUNTIME/USDJPY_FUSION_RUNTIME_v3.6.1_AUTORECOVERY.py:172-220 | A finished run backs off once per low attempt and logs one "Sleeping" notice per nested call; an unfinished run backs off after every attempt and logs none |
| Autorecovery.RunSavesBeforeDeciding | ENGINE/FUSION_RUNTIME/USDJPY_FUSION_RUNTIME_v3.6.1_AUTORECOVERY.py:201-220 | Every save is followed immediately by its decision: the low-integrity warning, or the sleeping notice. Every warning follows the save it scores and is followed by the 600-second backoff |
| Autorecovery.NoRetryCeiling | ENGINE/FUSION_RUNTIME/USDJPY_FUSION_RUNTIME_v3.6.1_AUTORECOVERY.py:172-176 | However many attempts stay below 0.5, each one is saved and backed off: the code sets no retry ceiling |
| UsdJpyRuntime.TwelveDataFallsBackToYahoo | ENGINE/FUSION_RUNTIME/USDJPY_FUSION_RUNTIME_v3.6.1_AUTORECOVERY.py:112 | The USD/JPY reading is TwelveData's when truthy; a missing or zero TwelveData price falls through to Yahoo |
| UsdJpyRuntime.IntegrityIsTruthyFraction | ENGINE/FUSION_RUNTIME/USDJPY_FUSION_RUNTIME_v3.6.1_AUTORECOVERY.py:168-170 | Integrity is the truthy count among USD/JPY, DXY and US10Y over 3. It lies in [0,1], is 1 iff all three are truthy and 0 iff none is, and a zero reading counts as missing |
| UsdJpyRuntime.ToneTracksIntegrity | ENGINE/FUSION_RUNTIME/USDJPY_FUSION_RUNTIME_v3.6.1_AUTORECOVERY.py:116 | The macro tone is 0.6 iff integrity is 1, and 0.4 otherwise |
| UsdJpyRuntime.BiasRules | ENGINE/FUSION_RUNTIME/USDJPY_FUSION_RUNTIME_v3.6.1_AUTORECOVERY.py:133-140 | bullish_usd iff tone > 0.55 and polarity > 0.55; bullish_jpy iff both < 0.45; neutral otherwise, so exactly one label holds |
| UsdJpyRuntime.NoSentimentIsNeutral | ENGINE/FUSION_RUNTIME/USDJPY_FUSION_RUNTIME_v3.6.1_AUTORECOVERY.py:127-141 | Without a Fear & Greed value, polarity is 0.5 and the scenario is neutral with confidence 0.65 |
| UsdJpyRuntime.CrossProxyGuards | ENGINE/FUSION_RUNTIME/USDJPY_FUSION_RUNTIME_v3.6.1_AUTORECOVERY.py:147-152 | The divisor (DXY or 1) is never zero; the proxy is 0 when USD/JPY is missing; with DXY missing it is USD/JPY·0.002, rounded |
| UsdJpyRuntime.ForecastFollowsScenario | ENGINE/FUSION_RUNTIME/USDJPY_FUSION_RUNTIME_v3.6.1_AUTORECOVERY.py:154-163 | M7 copies M3's bias and confidence, and its volatility is 1.9 × risk rounded to two decimals. For a polarity in [0,1], risk lies in [0.057, 0.229] and volatility in [0.11, 0.44] |
| UsdJpyRuntime.RetryIffAtMostOneReading | ENGINE/FUSION_RUNTIME/USDJPY_FUSION_RUNTIME_v3.6.1_AUTORECOVERY.py:168-176 | A retry is taken iff at most one of the three key readings is truthy |
| UsdJpyRuntime.AllFetchesFailed | ENGINE/FUSION_RUNTIME/USDJPY_FUSION_RUNTIME_v3.6.1_AUTORECOVERY.py:111-170 | With every fetch failed: tone 0.4, polarity 0.5, neutral with 0.65, alignment 0.33 "rotation", proxy 0, risk 0.129, volatility 0.25 and integrity 0, so a retry follows |
| UsdJpyRuntime.RetriesUntilTwoReadings | ENGINE/FUSION_RUNTIME/USDJPY_FUSION_RUNTIME_v3.6.1_AUTORECOVERY.py:181-220 | The cycle with its retries returns iff some attempt sees two key readings, and it saves exactly the attempts it used |
| BtcUsdRuntime.IntegrityIsTruthyFraction | ENGINE/FUSION_RUNTIME/BTCUSD_FUSION_RUNTIME_v3.6.1_AUTORECOVERY.py:148-151 | Integrity is the truthy count among BTC, ETH, DXY and VIX over 4. It lies in [0,1], is 1 iff all are truthy, and a zero ETH counts as missing |
| BtcUsdRuntime.ToneTracksReadings | ENGINE/FUSION_RUNTIME/BTCUSD_FUSION_RUNTIME_v3.6.1_AUTORECOVERY.py:99 | The tone is 0.5 iff BTC, DXY and VIX are truthy (ETH is not needed), else 0.25. Tone 0.5 implies integrity at least 0.75, and integrity 1 implies tone 0.5 |
| BtcUsdRuntime.BiasRules | ENGINE/FUSION_RUNTIME/BTCUSD_FUSION_RUNTIME_v3.6.1_AUTORECOVERY.py:118-119 | The bias is only ever bullish or neutral. It is bullish iff BTC, DXY and VIX are truthy and polarity > 0.55 |
| BtcUsdRuntime.ConfidenceIgnoresSentiment | ENGINE/FUSION_RUNTIME/BTCUSD_FUSION_RUNTIME_v3.6.1_AUTORECOVERY.py:120 | Confidence is 0.9 when the tone is 0.5 and 0.775 otherwise, whatever the polarity |
| BtcUsdRuntime.NoSentimentIsNeutral | ENGINE/FUSION_RUNTIME/BTCUSD_FUSION_RUNTIME_v3.6.1_AUTORECOVERY.py:111-119 | Without a Fear & Greed value, polarity is 0.5 and the bias is neutral |
| BtcUsdRuntime.CrossProxyGuards | ENGINE/FUSION_RUNTIME/BTCUSD_FUSION_RUNTIME_v3.6.1_AUTORECOVERY.py:127-132 | The divisor (ETH or 1)·20 is never zero, and the proxy is 0 when BTC is missing |
| BtcUsdRuntime.RiskRisesWithGreed | ENGINE/FUSION_RUNTIME/BTCUSD_FUSION_RUNTIME_v3.6.1_AUTORECOVERY.py:134-136 | The risk (tone + polarity)/8 has no complement: it never falls as tone or polarity rises |
| BtcUsdRuntime.ForecastFollowsScenario | ENGINE/FUSION_RUNTIME/BTCUSD_FUSION_RUNTIME_v3.6.1_AUTORECOVERY.py:134-143 | M7 copies M3's bias and confidence, and its volatility is 2.5 × risk rounded. For a polarity in [0,1], risk lies in [0.031, 0.188] and volatility in [0.08, 0.47] |
| BtcUsdRuntime.RetryIffAtMostOneReading | ENGINE/FUSION_RUNTIME/BTCUSD_FUSION_RUNTIME_v3.6.1_AUTORECOVERY.py:148-157 | A retry is taken iff at most one of the four readings is truthy |
| BtcUsdRuntime.AllFetchesFailed | ENGINE/FUSION_RUNTIME/BTCUSD_FUSION_RUNTIME_v3.6.1_AUTORECOVERY.py:94-151 | With every fetch failed: tone 0.25, polarity 0.5, neutral with 0.775, alignment 0.34 "transitional", proxy 0, risk 0.094, volatility between 0.23 and 0.24 and integrity 0, so a retry follows |
| BtcUsdRuntime.RetriesUntilTwoReadings | ENGINE/FUSION_RUNTIME/BTCUSD_FUSION_RUNTIME_v3.6.1_AUTORECOVERY.py:162-201 | The cycle with its retries returns iff some attempt sees two of the four readings, and it saves exactly the attempts it used |
| XauUsdRuntime.TwelveDataFallsBackToYahoo | ENGINE/FUSION_RUNTIME/XAUUSD_FUSION_RUNTIME_v3.6.1_AUTORECOVERY.py:96 | The XAU reading is TwelveData's when truthy; a missing or zero TwelveData price falls through to Yahoo GC=F |
| XauUsdRuntime.IntegrityIsTruthyFraction | ENGINE/FUSION_RUNTIME/XAUUSD_FUSION_RUNTIME_v3.6.1_AUTORECOVERY.py:151-153 | Integrity counts XAU, DXY and the 10-year yield from M1 plus BTC from M2, over 4. It lies in [0,1], and a zero BTC counts as missing |
| XauUsdRuntime.ToneTracksReadings | ENGINE/FUSION_RUNTIME/XAUUSD_FUSION_RUNTIME_v3.6.1_AUTORECOVERY.py:99-101 | The tone is 0.65 iff XAU, DXY and the yield are truthy, else 0.3; VIX plays no part. Tone 0.65 implies integrity at least 0.75 |
| XauUsdRuntime.BiasRules | ENGINE/FUSION_RUNTIME/XAUUSD_FUSION_RUNTIME_v3.6.1_AUTORECOVERY.py:122-123 | The bias is only ever bullish or neutral. It is bullish iff the tone is 0.65 and polarity > 0.55 |
| XauUsdRuntime.ConfidenceIgnoresSentiment | ENGINE/FUSION_RUNTIME/XAUUSD_FUSION_RUNTIME_v3.6.1_AUTORECOVERY.py:124 | Confidence 0.7 + tone/3 takes only two values: 0.917 for tone 0.65 and 0.8 for tone 0.3 |
| XauUsdRuntime.NoSentimentIsNeutral | ENGINE/FUSION_RUNTIME/XAUUSD_FUSION_RUNTIME_v3.6.1_AUTORECOVERY.py:114-123 | Without a Fear & Greed value, polarity is 0.5 and the bias is neutral |
| XauUsdRuntime.CrossProxyGuards | ENGINE/FUSION_RUNTIME/XAUUSD_FUSION_RUNTIME_v3.6.1_AUTORECOVERY.py:130-135 | The proxy divides XAU from M1 by BTC from M2; the divisor (BTC or 1) is never zero, and the proxy is 0 when XAU is missing |
| XauUsdRuntime.RiskRisesWithGreed | ENGINE/FUSION_RUNTIME/XAUUSD_FUSION_RUNTIME_v3.6.1_AUTORECOVERY.py:137-139 | The risk (tone + polarity)/9 never falls as tone or polarity rises |
| XauUsdRuntime.ForecastFollowsScenario | ENGINE/FUSION_RUNTIME/XAUUSD_FUSION_RUNTIME_v3.6.1_AUTORECOVERY.py:137-146 | M7 copies M3's bias and confidence, and its volatility is 2.4 × risk rounded. For a polarity in [0,1], risk lies in [0.033, 0.183] and volatility in [0.08, 0.44] |
| XauUsdRuntime.RetryIffAtMostOneReading | ENGINE/FUSION_RUNTIME/XAUUSD_FUSION_RUNTIME_v3.6.1_AUTORECOVERY.py:151-159 | A retry is taken iff at most one of the four counted readings is truthy |
| XauUsdRuntime.AllFetchesFailed | ENGINE/FUSION_RUNTIME/XAUUSD_FUSION_RUNTIME_v3.6.1_AUTORECOVERY.py:95-153 | With every fetch failed: tone 0.3, polarity 0.5, neutral with 0.8, alignment 0.32 "accumulation", proxy 0, risk 0.089, volatility 0.21 and integrity 0 |
| XauUsdRuntime.RetriesUntilTwoReadings | ENGINE/FUSION_RUNTIME/XAUUSD_FUSION_RUNTIME_v3.6.1_AUTORECOVERY.py:164-202 | The cycle with its retries returns iff some attempt sees two counted readings, and it saves exactly the attempts it used |
| SolRuntime.TpsDivisorAtLeastOne | ENGINE/FUSION_RUNTIME/SOL_FUSION_RUNTIME_v3.6.1_AUTORECOVERY.py:72 | The TPS divisor max(samplePeriodSecs, 1) is at least 1, and equals the period whenever the period is at least 1 |
| SolRuntime.TpsOfWellFormedReply | ENGINE/FUSION_RUNTIME/SOL_FUSION_RUNTIME_v3.6.1_AUTORECOVERY.py:69-73 | For a reply whose first sample has numTransactions n ≥ 0 and a period, TPS is n / max(period, 1) rounded to two decimals. It lies between 0 and n rounded to two decimals, and is at most n when n is a whole count |
| SolRuntime.TpsWithoutResultIsZero | ENGINE/FUSION_RUNTIME/SOL_FUSION_RUNTIME_v3.6.1_AUTORECOVERY.py:71-73 | A reply without "result" reads the default [{}], so TPS is 0 |
| SolRuntime.TpsMalformedReplies | ENGINE/FUSION_RUNTIME/SOL_FUSION_RUNTIME_v3.6.1_AUTORECOVERY.py:65-76 | An empty or non-list result, a non-dict sample, a null count or a failed request make the fetch return None |
| SolRuntime.TpsIsInformational | ENGINE/FUSION_RUNTIME/SOL_FUSION_RUNTIME_v3.6.1_AUTORECOVERY.py:149-151 | The RPC reply changes neither integrity, tone nor the forecast |
| SolRuntime.IntegrityIsTruthyFraction | ENGINE/FUSION_RUNTIME/SOL_FUSION_RUNTIME_v3.6.1_AUTORECOVERY.py:149-151 | Integrity is the truthy count among SOL, BTC and ETH over 3. It lies in [0,1], is 1 iff all are truthy and 0 iff none is, and a zero SOL counts as missing |
| SolRuntime.ToneTracksIntegrity | ENGINE/FUSION_RUNTIME/SOL_FUSION_RUNTIME_v3.6.1_AUTORECOVERY.py:98 | The tone is 0.6 iff integrity is 1, and 0.4 otherwise |
| SolRuntime.BiasRules | ENGINE/FUSION_RUNTIME/SOL_FUSION_RUNTIME_v3.6.1_AUTORECOVERY.py:115-121 | bullish iff tone > 0.55 and polarity > 0.55; bearish iff both < 0.45; neutral otherwise, so exactly one label holds |
| SolRuntime.NoSentimentIsNeutral | ENGINE/FUSION_RUNTIME/SOL_FUSION_RUNTIME_v3.6.1_AUTORECOVERY.py:109-122 | Without a Fear & Greed value, polarity is 0.5 and the scenario is neutral with confidence 0.65 |
| SolRuntime.CrossProxyGuards | ENGINE/FUSION_RUNTIME/SOL_FUSION_RUNTIME_v3.6.1_AUTORECOVERY.py:128-133 | The divisor (BTC or 1) is never zero, and the proxy is 0 when SOL is missing |
| SolRuntime.ForecastFollowsScenario | ENGINE/FUSION_RUNTIME/SOL_FUSION_RUNTIME_v3.6.1_AUTORECOVERY.py:135-144 | M7 copies M3's bias and confidence, and its volatility is 3.4 × risk rounded. For a polarity in [0,1], risk lies in [0.057, 0.229] and volatility in [0.19, 0.78] |
| SolRuntime.RetryIffAtMostOneReading | ENGINE/FUSION_RUNTIME/SOL_FUSION_RUNTIME_v3.6.1_AUTORECOVERY.py:149-157 | A retry is taken iff at most one of the three key readings is truthy |
| SolRuntime.AllFetchesFailed | ENGINE/FUSION_RUNTIME/SOL_FUSION_RUNTIME_v3.6.1_AUTORECOVERY.py:93-151 | With every fetch failed: tone 0.4, polarity 0.5, neutral with 0.65, alignment 0.32 "transition", proxy 0, risk 0.129, volatility 0.44 and integrity 0 |
| SolRuntime.RetriesUntilTwoReadings | ENGINE/FUSION_RUNTIME/SOL_FUSION_RUNTIME_v3.6.1_AUTORECOVERY.py:162-201 | The cycle with its retries returns iff some attempt sees two key readings, and it saves exactly the attempts it used |
| XrpRuntime.IntegrityIsTruthyFraction | ENGINE/FUSION_RUNTIME/XRP_FUSION_RUNTIME_v3.6.1_AUTORECOVERY.py:137-139 | Integrity is the truthy count among XRP, BTC and ETH over 3, and the M2 argument does not affect it. It lies in [0,1], is 1 iff all are truthy and 0 iff none is |
| XrpRuntime.VolProxyIsSecondFetch | ENGINE/FUSION_RUNTIME/XRP_FUSION_RUNTIME_v3.6.1_AUTORECOVERY.py:95-96 | The volatility proxy is the second BTC fetch, or 0 when that fetch is missing or zero; it does not affect integrity |
| XrpRuntime.ToneTracksIntegrity | ENGINE/FUSION_RUNTIME/XRP_FUSION_RUNTIME_v3.6.1_AUTORECOVERY.py:85 | The tone is 0.6 iff integrity is 1, and 0.4 otherwise |
| XrpRuntime.BiasRules | ENGINE/FUSION_RUNTIME/XRP_FUSION_RUNTIME_v3.6.1_AUTORECOVERY.py:103-109 | bullish iff tone > 0.55 and polarity > 0.55; bearish iff both < 0.45; neutral otherwise, so exactly one label holds |
| XrpRuntime.NoSentimentIsNeutral | ENGINE/FUSION_RUNTIME/XRP_FUSION_RUNTIME_v3.6.1_AUTORECOVERY.py:96-110 | Without a Fear & Greed value, polarity is 0.5 and the scenario is neutral with confidence 0.65 |
| XrpRuntime.CrossProxyGuards | ENGINE/FUSION_RUNTIME/XRP_FUSION_RUNTIME_v3.6.1_AUTORECOVERY.py:116-121 | The divisor (BTC or 1) is never zero, and the proxy is 0 when XRP is missing |
| XrpRuntime.ForecastFollowsScenario | ENGINE/FUSION_RUNTIME/XRP_FUSION_RUNTIME_v3.6.1_AUTORECOVERY.py:123-132 | M7 copies M3's bias and confidence, and its volatility is 3.2 × risk rounded. For a polarity in [0,1], risk lies in [0.057, 0.229] and volatility in [0.18, 0.73] |
| XrpRuntime.RetryIffAtMostOneReading | ENGINE/FUSION_RUNTIME/XRP_FUSION_RUNTIME_v3.6.1_AUTORECOVERY.py:137-145 | A retry is taken iff at most one of the three key readings is truthy |
| XrpRuntime.AllFetchesFailed | ENGINE/FUSION_RUNTIME/XRP_FUSION_RUNTIME_v3.6.1_AUTORECOVERY.py:80-139 | With every fetch failed: tone 0.4, polarity 0.5, proxy 0 for volatility, neutral with 0.65, alignment 0.31 "rotation", cross proxy 0, risk 0.129, volatility 0.41 and integrity 0 |
| XrpRuntime.RetriesUntilTwoReadings | ENGINE/FUSION_RUNTIME/XRP_FUSION_RUNTIME_v3.6.1_AUTORECOVERY.py:150-189 | The cycle with its retries returns iff some attempt sees two key readings, and it saves exactly the attempts it used |
| Us10yRuntime.ToneIsPresentFraction | ENGINE/FUSION_RUNTIME/US10Y_FUSION_RUNTIME_v3.6.1_AUTORECOVERY.py:82 | The tone is the number of present (not None) readings among US10Y, SPX, VIX and DXY over 4, in [0,1]; a zero reading counts as present |
| Us10yRuntime.IntegrityIsPresentFraction | ENGINE/FUSION_RUNTIME/US10Y_FUSION_RUNTIME_v3.6.1_AUTORECOVERY.py:116-118 | Integrity is the present count among US10Y, SPX, VIX and M2's BTC over 4. It lies in [0,1], is 1 iff all four are present, and a zero US10Y adds 0.25 |
| Us10yRuntime.ToneAndIntegrityCountDifferentReadings | ENGINE/FUSION_RUNTIME/US10Y_FUSION_RUNTIME_v3.6.1_AUTORECOVERY.py:82-118 | Tone and integrity agree when DXY and BTC are both present or both missing, and differ by 0.25 otherwise |
| Us10yRuntime.BiasRules | ENGINE/FUSION_RUNTIME/US10Y_FUSION_RUNTIME_v3.6.1_AUTORECOVERY.py:91-95 | yield_pressure iff tone > 0.7 and polarity < 0.45, which needs three readings; easing iff tone < 0.5 and polarity > 0.55, which needs at most one; neutral otherwise |
| Us10yRuntime.ConfidenceBounds | ENGINE/FUSION_RUNTIME/US10Y_FUSION_RUNTIME_v3.6.1_AUTORECOVERY.py:96 | Confidence is exactly 0.6 + 0.5·\|0.5 − polarity\|, at least 0.6, and at most 0.85 for a polarity in [0,1] |
| Us10yRuntime.NoSentimentIsNeutral | ENGINE/FUSION_RUNTIME/US10Y_FUSION_RUNTIME_v3.6.1_AUTORECOVERY.py:88-96 | Without a Fear & Greed value, polarity is 0.5 and the scenario is neutral with confidence 0.6 |
| Us10yRuntime.CrossProxyGuards | ENGINE/FUSION_RUNTIME/US10Y_FUSION_RUNTIME_v3.6.1_AUTORECOVERY.py:101-104 | The divisor (SPX or 1) is never zero, and the proxy is 0 when US10Y is missing |
| Us10yRuntime.ForecastFollowsScenario | ENGINE/FUSION_RUNTIME/US10Y_FUSION_RUNTIME_v3.6.1_AUTORECOVERY.py:106-113 | M7 copies M3's bias and confidence, and its volatility is 2.5 × risk rounded. For a polarity in [0,1], risk lies in [0, 0.286] and volatility in [0, 0.72] |
| Us10yRuntime.RetryIffAtMostOneReading | ENGINE/FUSION_RUNTIME/US10Y_FUSION_RUNTIME_v3.6.1_AUTORECOVERY.py:116-124 | A retry is taken iff at most one of the four counted readings is present |
| Us10yRuntime.AllFetchesFailed | ENGINE/FUSION_RUNTIME/US10Y_FUSION_RUNTIME_v3.6.1_AUTORECOVERY.py:77-118 | With every fetch failed: tone 0, polarity 0.5, neutral with 0.6, alignment 0.33 "rotation", proxy 0, risk 0.071, volatility 0.18 and integrity 0 |
| Us10yRuntime.RetriesUntilTwoReadings | ENGINE/FUSION_RUNTIME/US10Y_FUSION_RUNTIME_v3.6.1_AUTORECOVERY.py:127-153 | The cycle with its retries returns iff some attempt sees two counted readings, and it saves exactly the attempts it used |
| Pearson.CorrelationGuards | TOTAL_RECALL/RUNTIME/total_recall_propagation.py:108-110 | Series of different lengths, or with fewer than 3 points, correlate to 0 |
| Pearson.SquaredDeviationZero | TOTAL_RECALL/RUNTIME/total_recall_propagation.py:117-119 | The squared deviation of a series is zero iff every point equals the mean |
| Pearson.VaryingSeriesDeviate | TOTAL_RECALL/RUNTIME/total_recall_propagation.py:117-119 | A series that is not constant has a positive squared deviation from its mean |
| Pearson.ConstantSeriesCorrelateToZero | TOTAL_RECALL/RUNTIME/total_recall_propagation.py:117-120 | When either series is constant the denominator is 0, and the correlation is 0 |
| Pearson.VaryingSeriesAreDivided | TOTAL_RECALL/RUNTIME/total_recall_propagation.py:116-120 | For two varying series of equal length at least 3, the denominator is positive and the result is the co-deviation divided by it, rounded to two decimals |
| Pearson.CorrelationSymmetric | TOTAL_RECALL/RUNTIME/total_recall_propagation.py:108-120 | Correlating a with b gives the same value as b with a |
| RiskCalibration.Clamp01Bounds | TOTAL_RECALL/RUNTIME/total_recall_propagation.py:131-134 | min(1, max(0, x)) lies in [0,1] and leaves a value in [0,1] unchanged |
| RiskCalibration.RiskScoreInUnitInterval | TOTAL_RECALL/RUNTIME/total_recall_propagation.py:131-146 | A computed risk score always lies in [0,1] |
| RiskCalibration.ClassifyThresholds | TOTAL_RECALL/RUNTIME/total_recall_propagation.py:136-140 | risk_on iff risk < 0.35; neutral iff 0.35 ≤ risk < 0.6; risk_off iff risk ≥ 0.6 |
| RiskCalibration.ToneAgreesWithPublishedScore | TOTAL_RECALL/RUNTIME/total_recall_propagation.py:136-146 | The tone and the rounded published score agree, except possibly when the published score is exactly 0.35 or 0.6 |
| RiskCalibration.PublishedScoreCanDisagreeWithTone | TOTAL_RECALL/RUNTIME/total_recall_propagation.py:136-146 | A VIX of 20.988 gives an unrounded score 0.3498: the published score is 0.35 but the tone is risk_on |
| RiskCalibration.DefaultsWithoutData | TOTAL_RECALL/RUNTIME/total_recall_propagation.py:125-146 | With no data the defaults VIX 20, DXY 105, SPX change 0 and sentiment 50 give risk 1/3, published as 0.333, with tone risk_on |
| RiskCalibration.DefaultsForAbsentFields | TOTAL_RECALL/RUNTIME/total_recall_propagation.py:125-129 | An entry holding only an error reads like a missing one, and a dict US10Y entry never changes the result |
| RiskCalibration.MalformedEntriesRaise | TOTAL_RECALL/RUNTIME/total_recall_propagation.py:125-134 | A null or string VIX or DXY price, or a null or string SPX change, makes the calibration raise, and the error is TypeError when every looked-up entry is a dict; a US10Y entry that is not a dict raises AttributeError |
| RiskCalibration.RiskOrdering | TOTAL_RECALL/RUNTIME/total_recall_propagation.py:131-140 | The clamped and the published score never fall when VIX or DXY rise or when SPX change or sentiment fall; risk_off is kept and risk_on is only reached in that direction |
| ModuleInjection.InjectModuleSpec | TOTAL_RECALL/RUNTIME/total_recall_propagation.py:196-204 | A module takes the feed iff it is a dict whose runtime, telemetry and outputs are absent or dicts and whose id the `in` test accepts. Then every key is kept, last_update_utc, fusion_integrity 0.998 and live_feed are set beside the old section entries, and only an id mentioning MODULE_6 adds the risk score and tone |
| ModuleInjection.ModuleSixIsSubstringMatch | TOTAL_RECALL/RUNTIME/total_recall_propagation.py:202 | The id test is a substring test: "MODULE_6" and "MODULE_60" match, "MODULE_5" and a missing id do not, and a null id raises |
| ModuleInjection.InjectModules | TOTAL_RECALL/RUNTIME/total_recall_propagation.py:196-204 | On success every module is its own injected version, so the list keeps its length and order. Otherwise the loop stops at the first failing module: those before it are injected and the rest are unchanged |
| Propagation.PairKeyInjective | TOTAL_RECALL/RUNTIME/total_recall_propagation.py:183 | Distinct assets get distinct SPX_vs_ keys |
| Propagation.FetchTickers | TOTAL_RECALL/RUNTIME/total_recall_propagation.py:164-172 | Every ticker gets a live-data entry: its price, change and volatility, or an error. A short history ends as the error raised by formatting its None price in the progress line (:169-171). Exactly the tickers whose fetch did not raise get a history, which is empty for a short history |
| Propagation.CorrelateWithSpx | TOTAL_RECALL/RUNTIME/total_recall_propagation.py:179-183 | The correlations exist iff SPX has a history. They hold SPX_vs_k, equal to the correlation with SPX, for every other history k, and never for SPX itself |
| Propagation.ShortHistoryReadsAsError | TOTAL_RECALL/RUNTIME/total_recall_propagation.py:80-81 | A short history keeps an empty history but its entry holds only the formatting error, with no price or change |
| Propagation.RiskMetricsOnFetchedData | TOTAL_RECALL/RUNTIME/total_recall_propagation.py:123-148 | On the run's own live data the calibration never raises. It reads each last price or change, or the default (VIX 20, DXY 105, SPX change 0) when the entry holds an error, and the sentiment proxy |
| Propagation.GatherLiveFeed | TOTAL_RECALL/RUNTIME/total_recall_propagation.py:164-183 | The live data holds every ticker's entry (an error entry for a short history), the sentiment proxy and, iff the SPX fetch did not raise, one correlation per other ticker with a history |
| Propagation.RunPropagation | TOTAL_RECALL/RUNTIME/total_recall_propagation.py:155-204 | The calibration succeeds on the gathered live data, with the metrics read from the VIX, DXY and SPX fetches. The live data gains those metrics, and every module is injected with that feed up to the first module that cannot take it |

## Left out

- HTTP fetching and provider parsing (TwelveData, Yahoo, FRED, CoinGecko, alternative.me, Finnhub, the Solana RPC and Yahoo chart requests): each fetch is an input, an optional reading, a decoded JSON reply or a `PriceFetch` outcome.
- Logging, summary and dashboard writes, snapshot files and their timestamped names: these are file I/O. They appear only as the `Saved` event of an attempt.
- `time.sleep`, the endless `continuous_runtime` loop and `datetime.utcnow()`: the backoff is an event, and the run's timestamp is a parameter.
- The retry recursion is modelled over a finite sequence of attempt outcomes. An unfinished trace stands for the recursion of the source, which has no retry ceiling.
- Autorecovery.NoRetryCeiling: Python's recursion limit is not modelled. Each retry nests two more frames, so after a few hundred consecutive low-integrity attempts CPython raises RecursionError outside any handler and the runtime stops.
- The fake numpy shim of the propagation script: it is randomness and module patching.
- The statistics inside `fetch_yahoo_price` (last, change and stdev/mean volatility) and the pytrends sentiment score: these are inputs, and the sentiment proxy is a parameter.
- `math.sqrt` is a parameter satisfying `IsSqrt`: non-negative, and zero exactly at zero.
- Pearson.VaryingSeriesAreDivided: the exact coefficient is not computed, and the bound \|r\| ≤ 1 (Cauchy–Schwarz) is not proved.
- BtcUsdRuntime.AllFetchesFailed: the volatility 2.5 × 0.094 = 0.235 is a decimal tie. CPython rounds the binary double, which may land on either side, so only the bounds 0.23 and 0.24 are stated.
- Round2 and Round3 round the exact real value half to even; CPython rounds the binary double, which can differ at decimal ties that are not exact doubles.
- ModuleInjection.InjectModules: a module that fails halfway may already have been partly updated in the source. The model leaves it unchanged. Nothing observes the difference, because the exception ends the run before the file is written.
- The anchor file is modelled as a list of JSON values; an anchor whose top level is not a list is not modelled.
- The order of dictionary keys, and console printing. The one print that changes data, the ticker progress line whose None price raises for a short history, is modelled.
- JSON booleans are read as 0 and 1 in arithmetic, as Python does; comparisons between other types are not modelled.
- The API keys and endpoint constants.
- The `try/except` around every M5 can never catch a division by zero, because the divisor is never zero; other exceptions there are not modelled.
- Polarity is stored as `value/100` without the `round(..., 3)`: FusionCommon.PolarityDefaults shows the rounding changes nothing for an integer index.
