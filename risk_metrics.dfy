/**
 * The propagation script's `compute_risk_metrics`: defaults for missing
 * entries, a systemic risk score clamped to [0,1], and the three-way macro
 * tone.
 */
module RiskCalibration {
  import opened Wrappers
  import opened PyNumbers
  import opened JsonValues

  datatype Tone = RiskOn | Neutral | RiskOff

  function ToneLabel(t: Tone): string {
    match t
    case RiskOn => "risk_on"
    case Neutral => "neutral"
    case RiskOff => "risk_off"
  }

  /** What `compute_risk_metrics` returns: three inputs as read, the rounded score and the tone. */
  datatype RiskMetrics = RiskMetrics(vix: Json, dxy: Json, sentiment: Json, riskScore: real, tone: Tone)

  function MetricsJson(m: RiskMetrics): Json {
    JObj(map["vix" := m.vix, "dxy" := m.dxy, "sentiment" := m.sentiment,
             "risk_score" := JNum(m.riskScore), "macro_tone_state" := JStr(ToneLabel(m.tone))])
  }

  /** `data.get(name, {}).get(field, default)`; an entry that is not a dict raises AttributeError. */
  function EntryField(data: map<string, Json>, name: string, field: string, default: Json): Result<Json> {
    var entry := if name in data then data[name] else JObj(map[]);
    match Get(entry, field, default)
    case None => Err("AttributeError")
    case Some(v) => Ok(v)
  }

  /** The unclamped score: VIX above 15, DXY above 100, a falling SPX and low sentiment all push it up. */
  function RawRisk(vix: real, dxy: real, spxChange: real, sentiment: real): real {
    ((vix - 15.0) / 15.0 + (dxy - 100.0) / 10.0 - spxChange / 10.0 + (100.0 - sentiment) / 100.0) / 4.0
  }

  /** `min(1, max(0, x))`. */
  function Clamp01(x: real): real {
    var low := if x > 0.0 then x else 0.0;
    if low < 1.0 then low else 1.0
  }

  /** The tone is chosen on the clamped score before rounding. */
  function Classify(risk: real): Tone {
    if risk < 0.35 then RiskOn else if risk < 0.6 then Neutral else RiskOff
  }

  function ComputeRiskMetrics(data: map<string, Json>): Result<RiskMetrics> {
    var vix :- EntryField(data, "VIX", "price", JNum(20.0));
    var dxy :- EntryField(data, "DXY", "price", JNum(105.0));
    var us10y :- EntryField(data, "US10Y", "price", JNum(4.0));
    var spx :- EntryField(data, "SPX", "change_pct", JNum(0.0));
    var sentiment := if "sentiment_proxy" in data then data["sentiment_proxy"] else JNum(50.0);
    match (AsNumber(vix), AsNumber(dxy), AsNumber(spx), AsNumber(sentiment))
    case (Some(v), Some(d), Some(s), Some(p)) =>
      var risk := Clamp01(RawRisk(v, d, s, p));
      Ok(RiskMetrics(vix, dxy, sentiment, Round3(risk), Classify(risk)))
    case _ => Err("TypeError")
  }

  // ----- properties -----

  lemma Clamp01Bounds(x: real)
    ensures 0.0 <= Clamp01(x) <= 1.0
    ensures 0.0 <= x <= 1.0 ==> Clamp01(x) == x
  {
  }

  /** The published score always lies in [0,1]. */
  lemma RiskScoreInUnitInterval(data: map<string, Json>)
    ensures ComputeRiskMetrics(data).Ok? ==> 0.0 <= ComputeRiskMetrics(data).value.riskScore <= 1.0
  {
    if ComputeRiskMetrics(data).Ok? {
      var m := ComputeRiskMetrics(data).value;
      var v, d, s, p := AsNumber(m.vix).value, AsNumber(m.dxy).value,
        AsNumber(EntryField(data, "SPX", "change_pct", JNum(0.0)).value).value, AsNumber(m.sentiment).value;
      var risk := Clamp01(RawRisk(v, d, s, p));
      assert m.riskScore == Round3(risk);
      Round3Monotone(0.0, risk);
      Round3Monotone(risk, 1.0);
      Round3OnGrid(0);
      Round3OnGrid(1000);
    }
  }

  /** The three tones partition the clamped score at 0.35 and 0.6. */
  lemma ClassifyThresholds(risk: real)
    ensures Classify(risk) == RiskOn <==> risk < 0.35
    ensures Classify(risk) == Neutral <==> 0.35 <= risk < 0.6
    ensures Classify(risk) == RiskOff <==> risk >= 0.6
  {
  }

  /**
   * Read against the published (rounded) score the tone is right except at
   * the two thresholds themselves: a score below 0.35 is always risk-on, one
   * strictly between 0.35 and 0.6 neutral, one above 0.6 risk-off.
   */
  lemma ToneAgreesWithPublishedScore(risk: real)
    ensures Classify(risk) == RiskOn ==> Round3(risk) <= 0.35
    ensures Classify(risk) == Neutral ==> 0.35 <= Round3(risk) <= 0.6
    ensures Classify(risk) == RiskOff ==> Round3(risk) >= 0.6
    ensures Round3(risk) < 0.35 ==> Classify(risk) == RiskOn
    ensures 0.35 < Round3(risk) < 0.6 ==> Classify(risk) == Neutral
    ensures Round3(risk) > 0.6 ==> Classify(risk) == RiskOff
  {
    Round3OnGrid(350);
    Round3OnGrid(600);
    if risk < 0.35 {
      Round3Monotone(risk, 0.35);
    } else {
      Round3Monotone(0.35, risk);
    }
    if risk < 0.6 {
      Round3Monotone(risk, 0.6);
    } else {
      Round3Monotone(0.6, risk);
    }
  }

  /** At the threshold the published score and the tone disagree: VIX 20.988 publishes 0.35 yet stays risk-on. */
  lemma PublishedScoreCanDisagreeWithTone()
    ensures var m := ComputeRiskMetrics(map["VIX" := JObj(map["price" := JNum(20.988)])]);
      m.Ok? && m.value.riskScore == 0.35 && m.value.tone == RiskOn
  {
    assert RawRisk(20.988, 105.0, 0.0, 50.0) == 0.3498;
    assert Round3(0.3498) == 0.35;
  }

  /** With no data at all every default applies: score 1/3 before rounding, risk-on. */
  lemma DefaultsWithoutData()
    ensures RawRisk(20.0, 105.0, 0.0, 50.0) == 1.0 / 3.0
    ensures ComputeRiskMetrics(map[]) == Ok(RiskMetrics(JNum(20.0), JNum(105.0), JNum(50.0), 0.333, RiskOn))
  {
    assert Round3(1.0 / 3.0) == 0.333;
  }

  /** The result depends on the data only through its four lookups and the sentiment. */
  lemma SameLookupsSameMetrics(d1: map<string, Json>, d0: map<string, Json>)
    requires EntryField(d1, "VIX", "price", JNum(20.0)) == EntryField(d0, "VIX", "price", JNum(20.0))
    requires EntryField(d1, "DXY", "price", JNum(105.0)) == EntryField(d0, "DXY", "price", JNum(105.0))
    requires EntryField(d1, "US10Y", "price", JNum(4.0)).Ok? == EntryField(d0, "US10Y", "price", JNum(4.0)).Ok?
    requires EntryField(d1, "SPX", "change_pct", JNum(0.0)) == EntryField(d0, "SPX", "change_pct", JNum(0.0))
    requires ("sentiment_proxy" in d1) == ("sentiment_proxy" in d0)
    requires "sentiment_proxy" in d1 ==> d1["sentiment_proxy"] == d0["sentiment_proxy"]
    ensures ComputeRiskMetrics(d1) == ComputeRiskMetrics(d0)
  {
  }

  /**
   * Defaults apply when the entry or its field is absent: an entry holding
   * only an error message reads like a missing one, and the 10-year yield
   * entry is looked up but never changes the result while it is a dict.
   */
  lemma DefaultsForAbsentFields(data: map<string, Json>, name: string, message: string, us10y: map<string, Json>)
    requires name in {"VIX", "DXY", "SPX"}
    ensures ComputeRiskMetrics(data[name := JObj(map["error" := JStr(message)])]) == ComputeRiskMetrics(data - {name})
    ensures ComputeRiskMetrics(data["US10Y" := JObj(us10y)]) == ComputeRiskMetrics(data - {"US10Y"})
  {
    var d1 := data[name := JObj(map["error" := JStr(message)])];
    var d0 := data - {name};
    SameLookupsSameMetrics(d1, d0);
    SameLookupsSameMetrics(data["US10Y" := JObj(us10y)], data - {"US10Y"});
  }

  /** The four looked-up entries are absent or dicts, so no lookup raises AttributeError. */
  predicate EntriesAreDicts(data: map<string, Json>) {
    && ("VIX" in data ==> data["VIX"].JObj?)
    && ("DXY" in data ==> data["DXY"].JObj?)
    && ("US10Y" in data ==> data["US10Y"].JObj?)
    && ("SPX" in data ==> data["SPX"].JObj?)
  }

  /**
   * A null or string VIX or DXY price, or a null or string SPX change, makes
   * the calibration raise; when every looked-up entry is a dict the error is
   * TypeError. A US10Y entry that is not a dict raises AttributeError.
   */
  lemma MalformedEntriesRaise(data: map<string, Json>, name: string, s: string)
    requires name in {"VIX", "DXY"}
    ensures ComputeRiskMetrics(data[name := JObj(map["price" := JNull])]).Err?
    ensures ComputeRiskMetrics(data[name := JObj(map["price" := JStr(s)])]).Err?
    ensures ComputeRiskMetrics(data["SPX" := JObj(map["change_pct" := JNull])]).Err?
    ensures ComputeRiskMetrics(data["SPX" := JObj(map["change_pct" := JStr(s)])]).Err?
    ensures EntriesAreDicts(data) ==>
      && ComputeRiskMetrics(data[name := JObj(map["price" := JNull])]) == Err("TypeError")
      && ComputeRiskMetrics(data[name := JObj(map["price" := JStr(s)])]) == Err("TypeError")
      && ComputeRiskMetrics(data["SPX" := JObj(map["change_pct" := JNull])]) == Err("TypeError")
      && ComputeRiskMetrics(data["SPX" := JObj(map["change_pct" := JStr(s)])]) == Err("TypeError")
    ensures ComputeRiskMetrics(data["US10Y" := JNull]) == Err("AttributeError")
  {
  }

  /** The score never falls as VIX or DXY rise or as SPX and sentiment fall, and neither does the tone. */
  lemma RiskOrdering(v: real, d: real, s: real, p: real, v': real, d': real, s': real, p': real)
    requires v <= v' && d <= d' && s' <= s && p' <= p
    ensures Clamp01(RawRisk(v, d, s, p)) <= Clamp01(RawRisk(v', d', s', p'))
    ensures Round3(Clamp01(RawRisk(v, d, s, p))) <= Round3(Clamp01(RawRisk(v', d', s', p')))
    ensures Classify(Clamp01(RawRisk(v, d, s, p))) == RiskOff ==> Classify(Clamp01(RawRisk(v', d', s', p'))) == RiskOff
    ensures Classify(Clamp01(RawRisk(v', d', s', p'))) == RiskOn ==> Classify(Clamp01(RawRisk(v, d, s, p))) == RiskOn
  {
    Round3Monotone(Clamp01(RawRisk(v, d, s, p)), Clamp01(RawRisk(v', d', s', p')));
  }
}
