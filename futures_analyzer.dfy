/** futures_analyzer.py: the clamped futures score that starts from 50,
    the contract-name lookup with its fixed table for global contracts,
    market validation and the market scan. */
module FuturesAnalyzer {
  import opened Wrappers
  import opened Frame
  import opened BaseAnalyzer
  import StockAnalyzer
  import Screening

  // ---------------------------------------------------------------------
  // Scoring terms (added to a base of 50)

  /** +15 for a strong up trend, +10 for an up trend, -15 and -10 for the
      down trends, 0 when MA5 and MA20 are equal or undefined. */
  function TrendPoints(r: Row): (p: int)
    ensures p > 0 <==> Gt(r.ma5, r.ma20)
    ensures p < 0 <==> Lt(r.ma5, r.ma20)
    ensures p == 15 <==> Gt(r.ma5, r.ma20) && Gt(r.ma20, r.ma60)
    ensures p == -15 <==> Lt(r.ma5, r.ma20) && Lt(r.ma20, r.ma60)
    ensures p in {-15, -10, 0, 10, 15}
  {
    if Gt(r.ma5, r.ma20) && Gt(r.ma20, r.ma60) then 15
    else if Gt(r.ma5, r.ma20) then 10
    else if Lt(r.ma5, r.ma20) && Lt(r.ma20, r.ma60) then -15
    else if Lt(r.ma5, r.ma20) then -10
    else 0
  }

  /** ±10 when MACD, its signal line and the histogram agree. */
  function MacdPoints(r: Row): (p: int)
    ensures p == 10 <==> Gt(r.macd, r.signal) && Gt(r.macdHist, Finite(0.0))
    ensures p == -10 <==> Lt(r.macd, r.signal) && Lt(r.macdHist, Finite(0.0))
    ensures p in {-10, 0, 10}
  {
    if Gt(r.macd, r.signal) && Gt(r.macdHist, Finite(0.0)) then 10
    else if Lt(r.macd, r.signal) && Lt(r.macdHist, Finite(0.0)) then -10
    else 0
  }

  /** +5 when overbought, -5 when oversold. */
  function RsiPoints(r: Row): (p: int)
    ensures p == 5 <==> Gt(r.rsi, Finite(70.0))
    ensures p == -5 <==> Lt(r.rsi, Finite(30.0))
    ensures p in {-5, 0, 5}
  {
    if Gt(r.rsi, Finite(70.0)) then 5
    else if Lt(r.rsi, Finite(30.0)) then -5
    else 0
  }

  /** +5 for positive momentum, -5 otherwise (also for zero and NaN). */
  function MomentumPoints(r: Row): (p: int)
    ensures p == 5 <==> Gt(r.momentum, Finite(0.0))
    ensures p != 5 ==> p == -5
  {
    if Gt(r.momentum, Finite(0.0)) then 5 else -5
  }

  /** -10 above the upper Bollinger band, +10 below the lower one. */
  function BollingerPoints(r: Row): (p: int)
    ensures p == -10 <==> Gt(r.close, r.bbUpper)
    ensures p == 10 <==> !Gt(r.close, r.bbUpper) && Lt(r.close, r.bbLower)
    ensures p in {-10, 0, 10}
  {
    if Gt(r.close, r.bbUpper) then -10
    else if Lt(r.close, r.bbLower) then 10
    else 0
  }

  /** +5 above a volume ratio of 1.5, -5 below 0.5. */
  function VolumePoints(r: Row): (p: int)
    ensures p == 5 <==> Gt(r.volumeRatio, Finite(1.5))
    ensures p == -5 <==> Lt(r.volumeRatio, Finite(0.5))
    ensures p in {-5, 0, 5}
  {
    if Gt(r.volumeRatio, Finite(1.5)) then 5
    else if Lt(r.volumeRatio, Finite(0.5)) then -5
    else 0
  }

  /** ±10 when open interest moved by more than 5 % in the direction of the
      price against the previous close. */
  function OpenInterestPoints(r: Row, prevClose: Float): (p: int)
    ensures p == 10 <==> Gt(r.oiChange, Finite(5.0)) && Gt(r.close, prevClose)
    ensures p == -10 <==> !(Gt(r.oiChange, Finite(5.0)) && Gt(r.close, prevClose))
                          && Lt(r.oiChange, Finite(-5.0)) && Lt(r.close, prevClose)
    ensures p in {-10, 0, 10}
  {
    if Gt(r.oiChange, Finite(5.0)) && Gt(r.close, prevClose) then 10
    else if Lt(r.oiChange, Finite(-5.0)) && Lt(r.close, prevClose) then -10
    else 0
  }

  /** The score before clamping: 50 plus the seven terms, in [-10, 110]. */
  function RawScore(latest: Row, prevClose: Float): (s: int)
    ensures -10 <= s <= 110
  {
    50 + TrendPoints(latest) + MacdPoints(latest) + RsiPoints(latest) + MomentumPoints(latest)
    + BollingerPoints(latest) + VolumePoints(latest) + OpenInterestPoints(latest, prevClose)
  }

  /** `max(0, min(100, score))`. */
  function FuturesScore(latest: Row, prevClose: Float): (s: int)
    ensures 0 <= s <= 100
    ensures 0 <= RawScore(latest, prevClose) <= 100 ==> s == RawScore(latest, prevClose)
    ensures RawScore(latest, prevClose) < 0 ==> s == 0
    ensures RawScore(latest, prevClose) > 100 ==> s == 100
  {
    var raw := RawScore(latest, prevClose);
    if raw > 100 then 100 else if raw < 0 then 0 else raw
  }

  /** The previous close, or the last close itself for a single row. */
  function PrevClose(df: seq<Row>): Float
    requires df != []
  {
    if |df| > 1 then df[|df| - 2].close else df[|df| - 1].close
  }

  /** The first four terms of `calculate_futures_score`, accumulated from
      50: trend, MACD, RSI and momentum. */
  method IndicatorScore(latest: Row) returns (score: int)
    ensures score == 50 + TrendPoints(latest) + MacdPoints(latest) + RsiPoints(latest) + MomentumPoints(latest)
  {
    score := 50;
    if Gt(latest.ma5, latest.ma20) && Gt(latest.ma20, latest.ma60) {
      score := score + 15;
    } else if Gt(latest.ma5, latest.ma20) {
      score := score + 10;
    } else if Lt(latest.ma5, latest.ma20) && Lt(latest.ma20, latest.ma60) {
      score := score - 15;
    } else if Lt(latest.ma5, latest.ma20) {
      score := score - 10;
    }
    assert score == 50 + TrendPoints(latest);
    if Gt(latest.macd, latest.signal) && Gt(latest.macdHist, Finite(0.0)) {
      score := score + 10;
    } else if Lt(latest.macd, latest.signal) && Lt(latest.macdHist, Finite(0.0)) {
      score := score - 10;
    }
    assert score == 50 + TrendPoints(latest) + MacdPoints(latest);
    if Gt(latest.rsi, Finite(70.0)) {
      score := score + 5;
    } else if Lt(latest.rsi, Finite(30.0)) {
      score := score - 5;
    }
    assert score == 50 + TrendPoints(latest) + MacdPoints(latest) + RsiPoints(latest);
    if Gt(latest.momentum, Finite(0.0)) {
      score := score + 5;
    } else {
      score := score - 5;
    }
  }

  /** `calculate_futures_score`: accumulates the terms from 50 for
      `df.iloc[-1]` and clamps. */
  method CalculateFuturesScore(df: seq<Row>) returns (r: Result<int>)
    ensures r.Failure? <==> df == []
    ensures r.Failure? ==> r.error == IndexErrorText
    ensures r.Success? ==> r.value == FuturesScore(df[|df| - 1], PrevClose(df))
  {
    if df == [] {
      return Failure(IndexErrorText);
    }
    var latest := df[|df| - 1];
    var score := IndicatorScore(latest);
    var partial := score;
    if Gt(latest.close, latest.bbUpper) {
      score := score - 10;
    } else if Lt(latest.close, latest.bbLower) {
      score := score + 10;
    }
    assert score == partial + BollingerPoints(latest);
    if Gt(latest.volumeRatio, Finite(1.5)) {
      score := score + 5;
    } else if Lt(latest.volumeRatio, Finite(0.5)) {
      score := score - 5;
    }
    assert score == partial + BollingerPoints(latest) + VolumePoints(latest);
    var prevClose := if |df| > 1 then df[|df| - 2].close else latest.close;
    if Gt(latest.oiChange, Finite(5.0)) && Gt(latest.close, prevClose) {
      score := score + 10;
    } else if Lt(latest.oiChange, Finite(-5.0)) && Lt(latest.close, prevClose) {
      score := score - 10;
    }
    assert score == RawScore(latest, PrevClose(df));
    if score > 100 {
      score := 100;
    } else if score < 0 {
      score := 0;
    }
    return Success(score);
  }

  /** Both ends of the raw range are reached, so the clamp is needed on
      both sides. */
  lemma RawScoreBoundsReached()
    ensures exists r: Row, p: Float :: RawScore(r, p) == 110
    ensures exists r: Row, p: Float :: RawScore(r, p) == -10
  {
    var bull := Row(Finite(8.0), Finite(3.0), Finite(2.0), Finite(1.0), Finite(80.0),
                    Finite(2.0), Finite(1.0), Finite(1.0), Finite(12.0), Finite(9.0),
                    Finite(2.0), Finite(1.0), Finite(1.0), Finite(10.0));
    assert RawScore(bull, Finite(7.0)) == 50 + 15 + 10 + 5 + 5 + 10 + 5 + 10;
    var bear := Row(Finite(13.0), Finite(1.0), Finite(2.0), Finite(3.0), Finite(20.0),
                    Finite(1.0), Finite(2.0), Finite(-1.0), Finite(12.0), Finite(9.0),
                    Finite(0.1), Finite(1.0), Finite(-1.0), Finite(-10.0));
    assert RawScore(bear, Finite(14.0)) == 50 - 15 - 10 - 5 - 5 - 10 - 5 - 10;
  }

  /** With a single row the previous close is the last close, so the
      open-interest term is always 0. */
  lemma SingleRowOpenInterestNeutral(df: seq<Row>)
    requires |df| == 1
    ensures OpenInterestPoints(df[0], PrevClose(df)) == 0
  {
  }

  // ---------------------------------------------------------------------
  // Markets, data and names

  /** The akshare source behind each supported market. */
  datatype FuturesSource = Domestic | Global

  function SourceFor(market: string): (s: Option<FuturesSource>)
    ensures s == Some(Domestic) <==> market == "CN"
    ensures s == Some(Global) <==> market == "GLOBAL"
    ensures s.None? <==> market !in {"CN", "GLOBAL"}
  {
    if market == "CN" then Some(Domestic)
    else if market == "GLOBAL" then Some(Global)
    else None
  }

  const DataErrorPrefix: string := "获取期货数据失败: "

  /** `get_futures_data`: every error is re-raised with the data-error
      prefix. A global frame without an open-interest column gets a NaN one,
      which the fetch parameter already reflects in `oiChange`. */
  function GetFuturesData(market: string, fetch: FuturesSource -> Result<seq<Row>>): (r: Result<seq<Row>>)
    ensures SourceFor(market).None? ==> r == Failure(DataErrorPrefix + StockAnalyzer.UnsupportedMarket(market))
    ensures r.Failure? ==> DataErrorPrefix <= r.error
    ensures r.Success? <==> SourceFor(market).Some? && fetch(SourceFor(market).value).Success?
    ensures r.Success? ==> r == fetch(SourceFor(market).value)
  {
    match SourceFor(market)
    case None => Failure(DataErrorPrefix + StockAnalyzer.UnsupportedMarket(market))
    case Some(src) =>
      match fetch(src)
      case Failure(e) => Failure(DataErrorPrefix + e)
      case Success(df) => Success(df)
  }

  const GlobalContracts: seq<string> := ["CL", "GC", "SI", "HG", "NG"]

  /** `get_futures_market`: the domestic list comes from the exchange, the
      global one is fixed, any other market raises unchanged. */
  function GetFuturesMarket(market: string, domesticListing: Result<seq<string>>): (r: Result<seq<string>>)
    ensures market == "CN" ==> r == domesticListing
    ensures market == "GLOBAL" ==> r == Success(GlobalContracts)
    ensures SourceFor(market).None? ==> r == Failure(StockAnalyzer.UnsupportedMarket(market))
  {
    match SourceFor(market)
    case None => Failure(StockAnalyzer.UnsupportedMarket(market))
    case Some(Domestic) => domesticListing
    case Some(Global) => Success(GlobalContracts)
  }

  /** The fixed names of global contracts, keyed by base code. */
  const GlobalNames: map<string, string> := map[
    "CL" := "原油期货", "GC" := "黄金期货", "SI" := "白银期货", "HG" := "铜期货",
    "NG" := "天然气期货", "ZC" := "玉米期货", "ZW" := "小麦期货", "ZS" := "大豆期货",
    "KC" := "咖啡期货", "CT" := "棉花期货", "LB" := "木材期货", "ES" := "标普500期货",
    "NQ" := "纳斯达克期货", "YM" := "道琼斯期货", "RTY" := "罗素2000期货"]

  const RussellName: string := "罗素2000期货"

  /** The first two characters of the symbol, or the whole of a shorter one. */
  function BaseCode(symbol: string): (b: string)
    ensures |b| <= 2
    ensures b <= symbol
    ensures |symbol| >= 2 ==> |b| == 2
    ensures |symbol| < 2 ==> b == symbol
  {
    if |symbol| >= 2 then symbol[..2] else symbol
  }

  function DefaultName(symbol: string, market: string): string {
    market + "期货-" + symbol
  }

  /** The lookup succeeded with a non-empty name. */
  predicate NonEmptyName(lookup: Result<Option<string>>) {
    lookup.Success? && lookup.value.Some? && lookup.value.value != ""
  }

  /** `get_futures_name` without its cache. A domestic name comes from the
      exchange lookup (raising or not finding one gives the default name);
      a global one from the table; every other market gets the default. */
  function GetFuturesName(symbol: string, market: string, domesticLookup: Result<Option<string>>): (name: string)
    ensures market == "GLOBAL" && BaseCode(symbol) in GlobalNames ==> name == GlobalNames[BaseCode(symbol)]
    ensures market == "GLOBAL" && BaseCode(symbol) !in GlobalNames ==> name == DefaultName(symbol, market)
    ensures market == "CN" && NonEmptyName(domesticLookup) ==> name == domesticLookup.value.value
    ensures market == "CN" && !NonEmptyName(domesticLookup) ==> name == DefaultName(symbol, market)
    ensures SourceFor(market).None? ==> name == DefaultName(symbol, market)
  {
    var found :=
      if market == "CN" then (if domesticLookup.Success? then domesticLookup.value else None)
      else if market == "GLOBAL" && BaseCode(symbol) in GlobalNames then Some(GlobalNames[BaseCode(symbol)])
      else None;
    if found.Some? && found.value != "" then found.value else DefaultName(symbol, market)
  }

  /** The three-letter key "RTY" can never match a two-character base
      code, so no symbol is ever named after it through the table. */
  lemma RussellNeverNamed(symbol: string, lookup: Result<Option<string>>)
    ensures GetFuturesName(symbol, "GLOBAL", lookup) != RussellName
  {
    var b := BaseCode(symbol);
    if b in GlobalNames {
      assert b != "RTY";
      assert b in {"CL", "GC", "SI", "HG", "NG", "ZC", "ZW", "ZS", "KC", "CT", "LB", "ES", "NQ", "YM"};
    } else {
      var d := DefaultName(symbol, "GLOBAL");
      assert d[..6] == "GLOBAL";
      assert RussellName[..1] == "罗";
    }
  }

  /** A contract month after the base code does not matter. */
  lemma GlobalNameFromBaseCode()
    ensures GetFuturesName("CL2412", "GLOBAL", Success(None)) == "原油期货"
    ensures GetFuturesName("RTY", "GLOBAL", Success(None)) == "GLOBAL期货-RTY"
  {
    assert BaseCode("CL2412") == "CL";
    assert BaseCode("RTY") == "RT";
  }

  // ---------------------------------------------------------------------
  // The report and the scan

  /** `analyze_futures`'s report, without the formatted float fields. */
  datatype FuturesReport = FuturesReport(
    futuresCode: string,
    market: string,
    futuresName: string,
    score: int,
    maTrend: string,
    macdSignal: string,
    volumeStatus: string,
    openInterestChange: Float,
    recommendation: string,
    aiAnalysis: AiAnalysis)

  /** The collaborators of the analyzer: the data source per symbol, the
      domestic contract list, the domestic name lookup, the language model. */
  datatype FuturesEnv = FuturesEnv(
    fetch: (string, FuturesSource) -> Result<seq<Row>>,
    domesticListing: Result<seq<string>>,
    domesticLookup: string -> Result<Option<string>>,
    llm: LlmConfig)

  /** `analyze_futures`: fails when the data cannot be fetched or has fewer
      than two rows. The report's trend, MACD and volume fields use the same
      rules as the stock report; the AI text uses the base analyzer's
      fallback (futures have no override). */
  function AnalyzeFutures(symbol: string, market: string, env: FuturesEnv): (r: Result<FuturesReport>)
    ensures var data := GetFuturesData(market, src => env.fetch(symbol, src));
            r.Success? <==> data.Success? && |data.value| >= 2
    ensures var data := GetFuturesData(market, src => env.fetch(symbol, src));
            data.Failure? ==> r == Failure(data.error)
    ensures var data := GetFuturesData(market, src => env.fetch(symbol, src));
            data.Success? && |data.value| < 2 ==> r == Failure(IndexErrorText)
    ensures r.Success? ==>
              var df := GetFuturesData(market, src => env.fetch(symbol, src)).value;
              && r.value.futuresName == GetFuturesName(symbol, market, env.domesticLookup(symbol))
              && Success(r.value.aiAnalysis) == GetAiAnalysis(env.llm.apiKey, env.llm.apiType, df, b => env.llm.call(symbol, b))
    ensures r.Success? ==>
              var df := GetFuturesData(market, src => env.fetch(symbol, src)).value;
              && |df| >= 2
              && r.value.score == FuturesScore(df[|df| - 1], df[|df| - 2].close)
              && r.value.recommendation == GetRecommendation(r.value.score).Text()
              && r.value.maTrend == StockAnalyzer.MaTrend(df[|df| - 1])
              && r.value.macdSignal == StockAnalyzer.MacdSignal(df[|df| - 1])
              && r.value.volumeStatus == StockAnalyzer.VolumeStatus(df[|df| - 1])
              && r.value.openInterestChange == df[|df| - 1].oiChange
              && r.value.aiAnalysis != ErrorNotice
    ensures r.Success? ==> r.value.futuresCode == symbol && r.value.market == market
    ensures SourceFor(market).None? ==> r.Failure?
  {
    match GetFuturesData(market, src => env.fetch(symbol, src))
    case Failure(e) => Failure(e)
    case Success(df) =>
      if |df| < 2 then Failure(IndexErrorText)
      else
        var latest := df[|df| - 1];
        var score := FuturesScore(latest, PrevClose(df));
        Success(FuturesReport(
          symbol, market, GetFuturesName(symbol, market, env.domesticLookup(symbol)),
          score, StockAnalyzer.MaTrend(latest), StockAnalyzer.MacdSignal(latest),
          StockAnalyzer.VolumeStatus(latest), latest.oiChange,
          GetRecommendation(score).Text(),
          GetAiAnalysis(env.llm.apiKey, env.llm.apiType, df, b => env.llm.call(symbol, b)).value))
  }

  /** The single-row fallback of the score is unreachable from the
      analysis: a one-row frame is never reported. */
  lemma SingleRowNotReported(symbol: string, market: string, env: FuturesEnv)
    requires GetFuturesData(market, src => env.fetch(symbol, src)).Success?
    requires |GetFuturesData(market, src => env.fetch(symbol, src)).value| == 1
    ensures AnalyzeFutures(symbol, market, env) == Failure(IndexErrorText)
  {
  }

  function ScoreOf(r: FuturesReport): int {
    r.score
  }

  function Analyzer(market: string, env: FuturesEnv): string -> Result<FuturesReport> {
    symbol => AnalyzeFutures(symbol, market, env)
  }

  /** `scan_futures_market`: without a list the market's contracts are
      listed first (an error raises out of the scan); then the symbols are
      screened and ranked. */
  method ScanFuturesMarket(futuresList: Option<seq<string>>, market: string, minScore: Option<int>,
                           env: FuturesEnv) returns (r: Result<seq<FuturesReport>>)
    ensures futuresList.None? && GetFuturesMarket(market, env.domesticListing).Failure? ==>
              r == Failure(GetFuturesMarket(market, env.domesticListing).error)
    ensures r.Success? ==>
              var symbols := if futuresList.Some? then futuresList.value
                             else GetFuturesMarket(market, env.domesticListing).value;
              var kept := Screening.Passing(symbols, Analyzer(market, env), ScoreOf, minScore);
              && r.value == Screening.SortDesc(kept, ScoreOf)
              && Screening.SortedDesc(r.value, ScoreOf)
              && multiset(r.value) == multiset(kept)
    ensures r.Success? <==> futuresList.Some? || GetFuturesMarket(market, env.domesticListing).Success?
  {
    var symbols: seq<string>;
    if futuresList.Some? {
      symbols := futuresList.value;
    } else {
      var listed := GetFuturesMarket(market, env.domesticListing);
      if listed.Failure? {
        return Failure(listed.error);
      }
      symbols := listed.value;
    }
    var recs := Screening.ScanAndRank(symbols, Analyzer(market, env), ScoreOf, minScore);
    return Success(recs);
  }
}
