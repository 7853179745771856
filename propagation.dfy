/**
 * The propagation run: fetch every ticker into the live data, correlate each
 * history with SPX, calibrate the risk metrics and inject the live feed into
 * every module of the anchor file, in place.
 */
module Propagation {
  import opened Wrappers
  import opened JsonValues
  import opened Pearson
  import opened RiskCalibration
  import opened ModuleInjection
  import opened PyNumbers

  /** What `fetch_yahoo_price` yields for one ticker: its figures, the short-history sentinel, or an exception. */
  datatype PriceFetch =
    | Prices(last: real, changePct: real, volatility: real, history: seq<real>)
    | TooFewPrices
    | FetchRaised(message: string)

  /** The instruments the run asks Yahoo for, as (name, symbol), in the script's order. */
  const Tickers: seq<(string, string)> := [
    ("SPX", "^GSPC"), ("DJI", "^DJI"), ("DXY", "DX-Y.NYB"), ("VIX", "^VIX"), ("US10Y", "^TNX"),
    ("WTI", "CL=F"), ("GOLD", "GC=F"), ("BTC", "BTC-USD"), ("ETH", "ETH-USD")]

  predicate DistinctNames(tickers: seq<(string, string)>) {
    forall i, j :: 0 <= i < j < |tickers| ==> tickers[i].0 != tickers[j].0
  }

  /**
   * What `str(e)` gives for the TypeError that formatting a None price with
   * a width raises in the ticker loop's progress line.
   */
  const NoneFormatMessage: string := "unsupported format string passed to NoneType.__format__"

  function ErrorEntry(message: string): Json {
    JObj(map["error" := JStr(message)])
  }

  /** The entry first written for a fetch that did not raise: its three figures, or three nulls for a short history. */
  function FiguresEntry(f: PriceFetch): Json {
    if f.Prices? then JObj(map["price" := JNum(f.last), "change_pct" := JNum(f.changePct), "volatility" := JNum(f.volatility)])
    else JObj(map["price" := JNull, "change_pct" := JNull, "volatility" := JNull])
  }

  /**
   * The entry a ticker keeps after the loop body: its figures, or the error
   * text. A short history also ends as an error, because the progress line
   * that follows the two stores cannot format its None price.
   */
  function LiveEntry(f: PriceFetch): Json {
    match f
    case Prices(_, _, _, _) => FiguresEntry(f)
    case TooFewPrices => ErrorEntry(NoneFormatMessage)
    case FetchRaised(e) => ErrorEntry(e)
  }

  /** The stored history of a fetch that did not raise; a short history is stored as empty. */
  function History(f: PriceFetch): seq<real> {
    if f.Prices? then f.history else []
  }

  function PairKey(name: string): string {
    "SPX_vs_" + name
  }

  /** `"SPX_vs_" + k` is injective, so no two assets share a correlation key. */
  lemma PairKeyInjective(a: string, b: string)
    ensures PairKey(a) == PairKey(b) ==> a == b
  {
    if PairKey(a) == PairKey(b) {
      assert a == PairKey(a)[7..];
      assert b == PairKey(b)[7..];
    }
  }

  /**
   * The ticker loop: every name gets a live-data entry, and exactly the
   * names whose fetch did not raise get a history.
   */
  method FetchTickers(tickers: seq<(string, string)>, fetch: string -> PriceFetch)
    returns (liveData: map<string, Json>, priceHist: map<string, seq<real>>)
    requires DistinctNames(tickers)
    ensures liveData.Keys == set i | 0 <= i < |tickers| :: tickers[i].0
    ensures forall i :: 0 <= i < |tickers| ==> liveData[tickers[i].0] == LiveEntry(fetch(tickers[i].1))
    ensures priceHist.Keys == set i | 0 <= i < |tickers| && !fetch(tickers[i].1).FetchRaised? :: tickers[i].0
    ensures forall i :: 0 <= i < |tickers| && !fetch(tickers[i].1).FetchRaised? ==>
      priceHist[tickers[i].0] == History(fetch(tickers[i].1))
  {
    liveData, priceHist := map[], map[];
    var k := 0;
    while k < |tickers|
      invariant 0 <= k <= |tickers|
      invariant liveData.Keys == set i | 0 <= i < k :: tickers[i].0
      invariant forall i :: 0 <= i < k ==> liveData[tickers[i].0] == LiveEntry(fetch(tickers[i].1))
      invariant priceHist.Keys == set i | 0 <= i < k && !fetch(tickers[i].1).FetchRaised? :: tickers[i].0
      invariant forall i :: 0 <= i < k && !fetch(tickers[i].1).FetchRaised? ==>
        priceHist[tickers[i].0] == History(fetch(tickers[i].1))
    {
      var (name, symbol) := tickers[k];
      var outcome := fetch(symbol);
      if outcome.FetchRaised? {
        liveData := liveData[name := ErrorEntry(outcome.message)];
      } else {
        liveData := liveData[name := FiguresEntry(outcome)];
        priceHist := priceHist[name := History(outcome)];
        if outcome.TooFewPrices? {
          // the progress line raises after both stores; the handler replaces the entry
          liveData := liveData[name := ErrorEntry(NoneFormatMessage)];
        }
      }
      k := k + 1;
    }
  }

  /**
   * The correlation block: present only when SPX has a history, with one
   * `SPX_vs_<name>` entry per other history and none for SPX itself.
   */
  method CorrelateWithSpx(priceHist: map<string, seq<real>>, sqrt: real -> real)
    returns (correlations: Option<map<string, Json>>)
    ensures correlations.Some? <==> "SPX" in priceHist
    ensures correlations.Some? ==>
      correlations.value.Keys == set k | k in priceHist && k != "SPX" :: PairKey(k)
    ensures correlations.Some? ==> forall k :: k in priceHist && k != "SPX" ==>
      correlations.value[PairKey(k)] == JNum(Correlation(priceHist["SPX"], priceHist[k], sqrt))
    ensures correlations.Some? ==> PairKey("SPX") !in correlations.value
  {
    if "SPX" !in priceHist {
      return None;
    }
    var result: map<string, Json> := map[];
    var remaining := priceHist.Keys;
    while remaining != {}
      invariant remaining <= priceHist.Keys
      invariant result.Keys == set k | k in priceHist && k !in remaining && k != "SPX" :: PairKey(k)
      invariant forall k :: k in priceHist && k !in remaining && k != "SPX" ==>
        result[PairKey(k)] == JNum(Correlation(priceHist["SPX"], priceHist[k], sqrt))
      decreases remaining
    {
      var name :| name in remaining;
      if name != "SPX" {
        forall k | k in priceHist && k !in remaining && k != "SPX"
          ensures PairKey(k) != PairKey(name)
        {
          PairKeyInjective(k, name);
        }
        result := result[PairKey(name) := JNum(Correlation(priceHist["SPX"], priceHist[name], sqrt))];
      }
      remaining := remaining - {name};
    }
    forall k | k in priceHist && k != "SPX" ensures PairKey(k) != PairKey("SPX") {
      PairKeyInjective(k, "SPX");
    }
    return Some(result);
  }

  /** The names the ticker loop fills in. */
  function TickerNames(): set<string> {
    set i | 0 <= i < |Tickers| :: Tickers[i].0
  }

  /** What the risk calibration reads from one fetched entry: its figure, or the default when the entry holds an error. */
  function Figure(f: PriceFetch, field: string, default: real): real {
    if !f.Prices? then default else if field == "price" then f.last else f.changePct
  }

  /** A short history keeps its (empty) history but loses its figures to an error entry. */
  lemma ShortHistoryReadsAsError()
    ensures LiveEntry(TooFewPrices) == ErrorEntry(NoneFormatMessage)
    ensures "price" !in LiveEntry(TooFewPrices).fields && "change_pct" !in LiveEntry(TooFewPrices).fields
    ensures History(TooFewPrices) == []
  {
  }

  /**
   * The calibration on freshly fetched live data never raises: every entry
   * is a dict holding either the figures or an error, so it reads each last
   * price or change, or the default when the ticker has none, and the
   * sentiment proxy.
   */
  lemma RiskMetricsOnFetchedData(data: map<string, Json>, vix: PriceFetch, dxy: PriceFetch, us10y: PriceFetch,
                                 spx: PriceFetch, sentiment: real)
    requires "VIX" in data && data["VIX"] == LiveEntry(vix)
    requires "DXY" in data && data["DXY"] == LiveEntry(dxy)
    requires "US10Y" in data && data["US10Y"] == LiveEntry(us10y)
    requires "SPX" in data && data["SPX"] == LiveEntry(spx)
    requires "sentiment_proxy" in data && data["sentiment_proxy"] == JNum(sentiment)
    ensures ComputeRiskMetrics(data).Ok?
    ensures ComputeRiskMetrics(data).value == FetchedMetrics(vix, dxy, spx, sentiment)
  {
  }

  /** The metrics the calibration publishes for the given VIX, DXY and SPX fetches and sentiment. */
  function FetchedMetrics(vix: PriceFetch, dxy: PriceFetch, spx: PriceFetch, sentiment: real): RiskMetrics {
    var v := Figure(vix, "price", 20.0);
    var d := Figure(dxy, "price", 105.0);
    var c := Figure(spx, "change_pct", 0.0);
    var risk := Clamp01(RawRisk(v, d, c, sentiment));
    RiskMetrics(JNum(v), JNum(d), JNum(sentiment), Round3(risk), Classify(risk))
  }

  /** The correlation entries of a run: one per other ticker whose fetch did not raise. */
  function CorrelationKeys(fetch: string -> PriceFetch): set<string> {
    set i | 1 <= i < |Tickers| && !fetch(Tickers[i].1).FetchRaised? :: PairKey(Tickers[i].0)
  }

  /**
   * The live data before calibration: an entry per ticker, the sentiment
   * proxy and, exactly when the SPX fetch did not raise, the correlations
   * of every other stored history with SPX's.
   */
  ghost predicate LiveFeed(live: map<string, Json>, fetch: string -> PriceFetch, sentiment: real, sqrt: real -> real) {
    && TickerNames() + {"sentiment_proxy"} <= live.Keys <= TickerNames() + {"sentiment_proxy", "correlations"}
    && (forall i :: 0 <= i < |Tickers| ==> live[Tickers[i].0] == LiveEntry(fetch(Tickers[i].1)))
    && live["sentiment_proxy"] == JNum(sentiment)
    && ("correlations" in live <==> !fetch("^GSPC").FetchRaised?)
    && ("correlations" in live ==>
          && live["correlations"].JObj?
          && live["correlations"].fields.Keys == CorrelationKeys(fetch)
          && forall i :: 1 <= i < |Tickers| && !fetch(Tickers[i].1).FetchRaised? ==>
               live["correlations"].fields[PairKey(Tickers[i].0)]
                 == JNum(Correlation(History(fetch("^GSPC")), History(fetch(Tickers[i].1)), sqrt)))
  }

  /** The keys the run adds beside the tickers never overwrite a ticker's entry. */
  lemma ReservedKeysAreNotTickers()
    ensures forall i :: 0 <= i < |Tickers| ==> |Tickers[i].0| <= 5
    ensures "sentiment_proxy" !in TickerNames() && "correlations" !in TickerNames() && "risk_metrics" !in TickerNames()
  {
  }

  /** The correlation block's keys, read back as the tickers they come from. */
  lemma CorrelationKeysFromHistories(fetch: string -> PriceFetch, priceHist: map<string, seq<real>>)
    requires priceHist.Keys == set i | 0 <= i < |Tickers| && !fetch(Tickers[i].1).FetchRaised? :: Tickers[i].0
    ensures (set k | k in priceHist && k != "SPX" :: PairKey(k)) == CorrelationKeys(fetch)
  {
    assert "SPX" == Tickers[0].0;
    forall key | key in CorrelationKeys(fetch) ensures key in (set k | k in priceHist && k != "SPX" :: PairKey(k)) {
      var i :| 1 <= i < |Tickers| && !fetch(Tickers[i].1).FetchRaised? && key == PairKey(Tickers[i].0);
      assert Tickers[i].0 in priceHist;
    }
  }

  /** The ticker loop, the sentiment proxy and the correlation block. */
  method GatherLiveFeed(fetch: string -> PriceFetch, sentiment: real, sqrt: real -> real)
    returns (live: map<string, Json>)
    ensures LiveFeed(live, fetch, sentiment, sqrt)
  {
    assert DistinctNames(Tickers);
    var priceHist;
    live, priceHist := FetchTickers(Tickers, fetch);
    assert "SPX" == Tickers[0].0;
    ReservedKeysAreNotTickers();
    live := live["sentiment_proxy" := JNum(sentiment)];
    var correlations := CorrelateWithSpx(priceHist, sqrt);
    if correlations.Some? {
      CorrelationKeysFromHistories(fetch, priceHist);
      live := live["correlations" := JObj(correlations.value)];
    }
  }

  /**
   * The whole run on an anchor file already loaded into `modules`: the
   * ticker loop, the sentiment proxy, the correlations when SPX has a
   * history, the calibration, and the injection of the live data into
   * every module. The calibration cannot fail on the run's own live data;
   * an injection error stops at the first module that cannot take the feed.
   */
  method RunPropagation(modules: array<Json>, fetch: string -> PriceFetch, sentiment: real,
                        sqrt: real -> real, now: string)
    returns (liveData: map<string, Json>, error: Option<string>)
    modifies modules
    ensures LiveFeed(liveData - {"risk_metrics"}, fetch, sentiment, sqrt)
    ensures ComputeRiskMetrics(liveData - {"risk_metrics"})
              == Ok(FetchedMetrics(fetch("^VIX"), fetch("DX-Y.NYB"), fetch("^GSPC"), sentiment))
    ensures var metrics := FetchedMetrics(fetch("^VIX"), fetch("DX-Y.NYB"), fetch("^GSPC"), sentiment);
      && "risk_metrics" in liveData && liveData["risk_metrics"] == MetricsJson(metrics)
      && (error.None? <==>
            forall i :: 0 <= i < modules.Length ==> InjectModule(old(modules[i]), now, JObj(liveData), metrics).Ok?)
      && (error.None? ==>
            forall i :: 0 <= i < modules.Length ==> InjectModule(old(modules[i]), now, JObj(liveData), metrics) == Ok(modules[i]))
      && (error.Some? ==>
            exists j :: (0 <= j < modules.Length
              && InjectModule(old(modules[j]), now, JObj(liveData), metrics) == Err(error.value)
              && (forall i :: 0 <= i < j ==> InjectModule(old(modules[i]), now, JObj(liveData), metrics) == Ok(modules[i]))
              && (forall i :: j <= i < modules.Length ==> modules[i] == old(modules[i]))))
  {
    var live := GatherLiveFeed(fetch, sentiment, sqrt);
    ReservedKeysAreNotTickers();
    assert "VIX" == Tickers[3].0 && "DXY" == Tickers[2].0 && "US10Y" == Tickers[4].0 && "SPX" == Tickers[0].0;
    RiskMetricsOnFetchedData(live, fetch("^VIX"), fetch("DX-Y.NYB"), fetch("^TNX"), fetch("^GSPC"), sentiment);
    var metrics := ComputeRiskMetrics(live).value;
    liveData := live["risk_metrics" := MetricsJson(metrics)];
    assert liveData - {"risk_metrics"} == live;
    error := InjectModules(modules, now, JObj(liveData), metrics);
  }
}
