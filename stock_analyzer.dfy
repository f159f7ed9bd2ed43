/** stock_analyzer.py: integer scoring of the last row, the report's
    classifier fields, market validation, the default stock name and the
    market scan. Data fetching, the stock-name sources and the language
    model are parameters (see `StockEnv`). */
module StockAnalyzer {
  import opened Wrappers
  import opened Frame
  import opened BaseAnalyzer
  import Screening

  // ---------------------------------------------------------------------
  // Scoring (30 + 20 + 20 + 30 points, no clamp)

  /** 15 points for MA5 > MA20 and 15 more for MA20 > MA60. */
  function TrendPoints(r: Row): (p: int)
    ensures p == 30 <==> Gt(r.ma5, r.ma20) && Gt(r.ma20, r.ma60)
    ensures p == 15 <==> Gt(r.ma5, r.ma20) != Gt(r.ma20, r.ma60)
    ensures p == 0 <==> !Gt(r.ma5, r.ma20) && !Gt(r.ma20, r.ma60)
  {
    (if Gt(r.ma5, r.ma20) then 15 else 0) + (if Gt(r.ma20, r.ma60) then 15 else 0)
  }

  /** 20 points inside [30, 70], 15 when oversold, 0 when overbought or
      undefined. */
  function RsiPoints(r: Row): (p: int)
    ensures p == 20 <==> Le(Finite(30.0), r.rsi) && Le(r.rsi, Finite(70.0))
    ensures p == 15 <==> Lt(r.rsi, Finite(30.0))
    ensures p == 0 <==> Gt(r.rsi, Finite(70.0)) || r.rsi.NaN?
  {
    if Le(Finite(30.0), r.rsi) && Le(r.rsi, Finite(70.0)) then 20
    else if Lt(r.rsi, Finite(30.0)) then 15
    else 0
  }

  /** 20 points when MACD is above its signal line. */
  function MacdPoints(r: Row): (p: int)
    ensures p == 20 <==> Gt(r.macd, r.signal)
    ensures p != 20 ==> p == 0
  {
    if Gt(r.macd, r.signal) then 20 else 0
  }

  /** 30 points above a volume ratio of 1.5, 15 in (1, 1.5], otherwise 0. */
  function VolumePoints(r: Row): (p: int)
    ensures p == 30 <==> Gt(r.volumeRatio, Finite(1.5))
    ensures p == 15 <==> Gt(r.volumeRatio, Finite(1.0)) && !Gt(r.volumeRatio, Finite(1.5))
    ensures p == 0 <==> !Gt(r.volumeRatio, Finite(1.0))
  {
    if Gt(r.volumeRatio, Finite(1.5)) then 30
    else if Gt(r.volumeRatio, Finite(1.0)) then 15
    else 0
  }

  /** The score of a last row: the sum of the four terms, which always lies
      in [0, 100] and is a multiple of 5, so no clamp is needed. */
  function StockScore(latest: Row): (s: int)
    ensures 0 <= s <= 100
    ensures s % 5 == 0
  {
    TrendPoints(latest) + RsiPoints(latest) + MacdPoints(latest) + VolumePoints(latest)
  }

  /** `calculate_score`: accumulates the four terms for `df.iloc[-1]`. */
  method CalculateScore(df: seq<Row>) returns (r: Result<int>)
    ensures r.Failure? <==> df == []
    ensures r.Failure? ==> r.error == IndexErrorText
    ensures r.Success? ==> r.value == StockScore(df[|df| - 1])
  {
    if df == [] {
      return Failure(IndexErrorText);
    }
    var latest := df[|df| - 1];
    var score := 0;
    if Gt(latest.ma5, latest.ma20) {
      score := score + 15;
    }
    if Gt(latest.ma20, latest.ma60) {
      score := score + 15;
    }
    if Le(Finite(30.0), latest.rsi) && Le(latest.rsi, Finite(70.0)) {
      score := score + 20;
    } else if Lt(latest.rsi, Finite(30.0)) {
      score := score + 15;
    }
    if Gt(latest.macd, latest.signal) {
      score := score + 20;
    }
    if Gt(latest.volumeRatio, Finite(1.5)) {
      score := score + 30;
    } else if Gt(latest.volumeRatio, Finite(1.0)) {
      score := score + 15;
    }
    return Success(score);
  }

  /** The full 100 points are reachable, and so is 0. */
  lemma ScoreBoundsReached()
    ensures exists r: Row :: StockScore(r) == 100
    ensures exists r: Row :: StockScore(r) == 0
  {
    var top := Row(Finite(10.0), Finite(3.0), Finite(2.0), Finite(1.0), Finite(50.0),
                   Finite(1.0), Finite(0.0), Finite(1.0), Finite(11.0), Finite(9.0),
                   Finite(2.0), Finite(1.0), Finite(1.0), NaN);
    assert StockScore(top) == 15 + 15 + 20 + 20 + 30;
    var bottom := Row(NaN, NaN, NaN, NaN, NaN, NaN, NaN, NaN, NaN, NaN, NaN, NaN, NaN, NaN);
    assert StockScore(bottom) == 0;
  }

  // ---------------------------------------------------------------------
  // Report fields (strict comparisons)

  function MaTrend(r: Row): (t: string)
    ensures t == "UP" <==> Gt(r.ma5, r.ma20)
    ensures t != "UP" ==> t == "DOWN"
  {
    if Gt(r.ma5, r.ma20) then "UP" else "DOWN"
  }

  /** Never "HOLD": the backend only produces "BUY" and "SELL". */
  function MacdSignal(r: Row): (t: string)
    ensures t == "BUY" <==> Gt(r.macd, r.signal)
    ensures t != "BUY" ==> t == "SELL"
  {
    if Gt(r.macd, r.signal) then "BUY" else "SELL"
  }

  /** Never "LOW": the backend only produces "HIGH" and "NORMAL". */
  function VolumeStatus(r: Row): (t: string)
    ensures t == "HIGH" <==> Gt(r.volumeRatio, Finite(1.5))
    ensures t != "HIGH" ==> t == "NORMAL"
  {
    if Gt(r.volumeRatio, Finite(1.5)) then "HIGH" else "NORMAL"
  }

  // ---------------------------------------------------------------------
  // Markets, data and names

  /** The akshare source behind each supported market. */
  datatype StockSource = AShares | UsDaily | HkDaily

  function SourceFor(market: string): (s: Option<StockSource>)
    ensures s.Some? <==> market in {"A", "US", "HK"}
  {
    if market == "A" then Some(AShares)
    else if market == "US" then Some(UsDaily)
    else if market == "HK" then Some(HkDaily)
    else None
  }

  function UnsupportedMarket(market: string): string {
    "不支持的市场类型: " + market
  }

  const DataErrorPrefix: string := "获取股票数据失败: "

  /** `get_stock_data`: an unsupported market raises ValueError inside the
      `try`, which re-raises every error with the data-error prefix. */
  function GetStockData(market: string, fetch: StockSource -> Result<seq<Row>>): (r: Result<seq<Row>>)
    ensures SourceFor(market).None? ==> r == Failure(DataErrorPrefix + UnsupportedMarket(market))
    ensures r.Failure? ==> DataErrorPrefix <= r.error
    ensures r.Success? <==> SourceFor(market).Some? && fetch(SourceFor(market).value).Success?
    ensures r.Success? ==> r == fetch(SourceFor(market).value)
  {
    match SourceFor(market)
    case None => Failure(DataErrorPrefix + UnsupportedMarket(market))
    case Some(src) =>
      match fetch(src)
      case Failure(e) => Failure(DataErrorPrefix + e)
      case Success(df) => Success(df)
  }

  /** `get_market_stocks`: the same market check, re-raised unchanged. */
  function GetMarketStocks(market: string, listing: StockSource -> Result<seq<string>>): (r: Result<seq<string>>)
    ensures SourceFor(market).None? ==> r == Failure(UnsupportedMarket(market))
    ensures SourceFor(market).Some? ==> r == listing(SourceFor(market).value)
  {
    match SourceFor(market)
    case None => Failure(UnsupportedMarket(market))
    case Some(src) => listing(src)
  }

  /** The lookup of a supported market succeeded with a non-empty name. */
  predicate NameFound(market: string, lookup: Result<Option<string>>) {
    SourceFor(market).Some? && lookup.Success? && lookup.value.Some? && lookup.value.value != ""
  }

  /** `get_stock_name` without its cache: the looked-up name when one is
      found and non-empty, otherwise `"{market}股票-{code}"`, also when the
      lookup raises. */
  function GetStockName(code: string, market: string, lookup: Result<Option<string>>): (name: string)
    ensures NameFound(market, lookup) ==> name == lookup.value.value
    ensures !NameFound(market, lookup) ==> name == market + "股票-" + code
  {
    var found := if SourceFor(market).Some? && lookup.Success? then lookup.value else None;
    if found.Some? && found.value != "" then found.value else market + "股票-" + code
  }

  // ---------------------------------------------------------------------
  // The report and the scan

  /** `analyze_stock`'s report, without the float fields that are only
      formatted (price, price change, RSI value) and the date. */
  datatype StockReport = StockReport(
    stockCode: string,
    market: string,
    stockName: string,
    score: int,
    maTrend: string,
    macdSignal: string,
    volumeStatus: string,
    recommendation: string,
    aiAnalysis: AiAnalysis)

  /** The collaborators of the analyzer: the data source per code, the
      stock list per market, the name lookup, and the language model. */
  datatype StockEnv = StockEnv(
    fetch: (string, StockSource) -> Result<seq<Row>>,
    listing: StockSource -> Result<seq<string>>,
    nameLookup: (string, string) -> Result<Option<string>>,
    llm: LlmConfig)

  /** `analyze_stock`: fails when the data cannot be fetched or the frame has
      fewer than two rows (`df.iloc[-2]`). */
  function AnalyzeStock(code: string, market: string, env: StockEnv): (r: Result<StockReport>)
    ensures var data := GetStockData(market, src => env.fetch(code, src));
            r.Success? <==> data.Success? && |data.value| >= 2
    ensures var data := GetStockData(market, src => env.fetch(code, src));
            data.Failure? ==> r == Failure(data.error)
    ensures var data := GetStockData(market, src => env.fetch(code, src));
            data.Success? && |data.value| < 2 ==> r == Failure(IndexErrorText)
    ensures r.Success? ==>
              var df := GetStockData(market, src => env.fetch(code, src)).value;
              && r.value.stockName == GetStockName(code, market, env.nameLookup(code, market))
              && r.value.aiAnalysis == GetStockAiAnalysis(env.llm.apiKey, env.llm.apiType, df, b => env.llm.call(code, b))
    ensures r.Success? ==>
              var df := GetStockData(market, src => env.fetch(code, src)).value;
              && |df| >= 2
              && r.value.score == StockScore(df[|df| - 1])
              && r.value.recommendation == GetRecommendation(r.value.score).Text()
              && r.value.maTrend == MaTrend(df[|df| - 1])
              && r.value.macdSignal == MacdSignal(df[|df| - 1])
              && r.value.volumeStatus == VolumeStatus(df[|df| - 1])
    ensures r.Success? ==> r.value.stockCode == code && r.value.market == market
    ensures SourceFor(market).None? ==> r.Failure?
  {
    match GetStockData(market, src => env.fetch(code, src))
    case Failure(e) => Failure(e)
    case Success(df) =>
      if |df| < 2 then Failure(IndexErrorText)
      else
        var latest := df[|df| - 1];
        var score := StockScore(latest);
        Success(StockReport(
          code, market, GetStockName(code, market, env.nameLookup(code, market)),
          score, MaTrend(latest), MacdSignal(latest), VolumeStatus(latest),
          GetRecommendation(score).Text(),
          GetStockAiAnalysis(env.llm.apiKey, env.llm.apiType, df, b => env.llm.call(code, b))))
  }

  function ScoreOf(r: StockReport): int {
    r.score
  }

  function Analyzer(market: string, env: StockEnv): string -> Result<StockReport> {
    code => AnalyzeStock(code, market, env)
  }

  /** `scan_market`: without a list the market's stocks are listed first
      (an unsupported market raises out of the scan); then the codes are
      screened and ranked. */
  method ScanMarket(stockList: Option<seq<string>>, market: string, minScore: Option<int>,
                    env: StockEnv) returns (r: Result<seq<StockReport>>)
    ensures stockList.None? && GetMarketStocks(market, env.listing).Failure? ==>
              r == Failure(GetMarketStocks(market, env.listing).error)
    ensures r.Success? ==>
              var codes := if stockList.Some? then stockList.value else GetMarketStocks(market, env.listing).value;
              var kept := Screening.Passing(codes, Analyzer(market, env), ScoreOf, minScore);
              && r.value == Screening.SortDesc(kept, ScoreOf)
              && Screening.SortedDesc(r.value, ScoreOf)
              && multiset(r.value) == multiset(kept)
    ensures r.Success? <==> stockList.Some? || GetMarketStocks(market, env.listing).Success?
  {
    var codes: seq<string>;
    if stockList.Some? {
      codes := stockList.value;
    } else {
      var listed := GetMarketStocks(market, env.listing);
      if listed.Failure? {
        return Failure(listed.error);
      }
      codes := listed.value;
    }
    var recs := Screening.ScanAndRank(codes, Analyzer(market, env), ScoreOf, minScore);
    return Success(recs);
  }

  /** A stock whose frame has a single row is never reported. */
  lemma SingleRowNotReported(code: string, market: string, env: StockEnv)
    requires GetStockData(market, src => env.fetch(code, src)).Success?
    requires |GetStockData(market, src => env.fetch(code, src)).value| == 1
    ensures AnalyzeStock(code, market, env) == Failure(IndexErrorText)
  {
  }
}
