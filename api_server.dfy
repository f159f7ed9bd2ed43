/** api_server.py: the request models with their defaults and alias
    fallbacks, the endpoint bodies (success payload or HTTP 500 with the
    error text), the empty-symbol check of the futures endpoint and the
    order-preserving filter of the batch futures endpoint. */
module ApiServer {
  import opened Wrappers
  import StockAnalyzer
  import FuturesAnalyzer
  import Screening

  // ---------------------------------------------------------------------
  // Alias resolution and defaults

  /** `if not a and b: a = b`: the first list or string unless it is empty. */
  function FirstNonEmpty<T>(a: seq<T>, b: seq<T>): (r: seq<T>)
    ensures a != [] ==> r == a
    ensures a == [] ==> r == b
    ensures r == [] <==> a == [] && b == []
  {
    if a == [] then b else a
  }

  /** The futures symbol: `symbol`, else `futures_code`, else `futuresCode`. */
  function ResolveSymbol(symbol: string, futuresCode: string, futuresCodeCamel: string): (r: string)
    ensures symbol != "" ==> r == symbol
    ensures symbol == "" && futuresCode != "" ==> r == futuresCode
    ensures symbol == "" && futuresCode == "" ==> r == futuresCodeCamel
  {
    FirstNonEmpty(symbol, FirstNonEmpty(futuresCode, futuresCodeCamel))
  }

  /** `min_score: Optional[int] = 60`: an absent field is 60, an explicit
      null is `None`. */
  function MinScoreOf(field: Option<Option<int>>): (m: Option<int>)
    ensures field.None? ==> m == Some(60)
    ensures field.Some? ==> m == field.value
  {
    match field
    case None => Some(60)
    case Some(v) => v
  }

  /** The JSON fields of a request body; `None` stands for an absent field. */
  datatype StockBody = StockBody(stockCode: Option<string>, stockCodeCamel: Option<string>,
                                 market: Option<string>)

  datatype BatchStockBody = BatchStockBody(stockCodes: Option<seq<string>>,
                                           stockCodesCamel: Option<seq<string>>,
                                           market: Option<string>, minScore: Option<Option<int>>)

  datatype FuturesBody = FuturesBody(symbol: Option<string>, futuresCode: Option<string>,
                                     futuresCodeCamel: Option<string>, market: Option<string>)

  datatype BatchFuturesBody = BatchFuturesBody(futuresCodes: Option<seq<string>>,
                                               futuresCodesCamel: Option<seq<string>>,
                                               market: Option<string>, minScore: Option<Option<int>>)

  /** `StockAnalysisRequest`: `stock_code` falls back to `stockCode` after
      the fields are set. */
  class StockAnalysisRequest {
    var stockCode: string
    var stockCodeCamel: string
    var market: string

    constructor (body: StockBody)
      ensures stockCode == FirstNonEmpty(body.stockCode.GetOr(""), body.stockCodeCamel.GetOr(""))
      ensures stockCodeCamel == body.stockCodeCamel.GetOr("")
      ensures market == body.market.GetOr("A")
    {
      stockCode := body.stockCode.GetOr("");
      stockCodeCamel := body.stockCodeCamel.GetOr("");
      market := body.market.GetOr("A");
      new;
      if stockCode == "" && stockCodeCamel != "" {
        stockCode := stockCodeCamel;
      }
    }
  }

  /** `BatchStockAnalysisRequest`: the snake_case list falls back to the
      camelCase one only when it is empty. */
  class BatchStockAnalysisRequest {
    var stockCodes: seq<string>
    var stockCodesCamel: seq<string>
    var market: string
    var minScore: Option<int>

    constructor (body: BatchStockBody)
      ensures stockCodes == FirstNonEmpty(body.stockCodes.GetOr([]), body.stockCodesCamel.GetOr([]))
      ensures stockCodesCamel == body.stockCodesCamel.GetOr([])
      ensures market == body.market.GetOr("A")
      ensures minScore == MinScoreOf(body.minScore)
    {
      stockCodes := body.stockCodes.GetOr([]);
      stockCodesCamel := body.stockCodesCamel.GetOr([]);
      market := body.market.GetOr("A");
      minScore := MinScoreOf(body.minScore);
      new;
      if stockCodes == [] && stockCodesCamel != [] {
        stockCodes := stockCodesCamel;
      }
    }
  }

  /** `FuturesAnalysisRequest`: the symbol falls back to `futures_code`,
      then to `futuresCode`. */
  class FuturesAnalysisRequest {
    var symbol: string
    var futuresCode: string
    var futuresCodeCamel: string
    var market: string

    constructor (body: FuturesBody)
      ensures symbol == ResolveSymbol(body.symbol.GetOr(""), body.futuresCode.GetOr(""),
                                      body.futuresCodeCamel.GetOr(""))
      ensures futuresCode == body.futuresCode.GetOr("")
      ensures futuresCodeCamel == body.futuresCodeCamel.GetOr("")
      ensures market == body.market.GetOr("CN")
    {
      symbol := body.symbol.GetOr("");
      futuresCode := body.futuresCode.GetOr("");
      futuresCodeCamel := body.futuresCodeCamel.GetOr("");
      market := body.market.GetOr("CN");
      new;
      if symbol == "" {
        if futuresCode != "" {
          symbol := futuresCode;
        } else if futuresCodeCamel != "" {
          symbol := futuresCodeCamel;
        }
      }
    }
  }

  /** `BatchFuturesAnalysisRequest`: the same list fallback as for stocks. */
  class BatchFuturesAnalysisRequest {
    var futuresCodes: seq<string>
    var futuresCodesCamel: seq<string>
    var market: string
    var minScore: Option<int>

    constructor (body: BatchFuturesBody)
      ensures futuresCodes == FirstNonEmpty(body.futuresCodes.GetOr([]), body.futuresCodesCamel.GetOr([]))
      ensures futuresCodesCamel == body.futuresCodesCamel.GetOr([])
      ensures market == body.market.GetOr("CN")
      ensures minScore == MinScoreOf(body.minScore)
    {
      futuresCodes := body.futuresCodes.GetOr([]);
      futuresCodesCamel := body.futuresCodesCamel.GetOr([]);
      market := body.market.GetOr("CN");
      minScore := MinScoreOf(body.minScore);
      new;
      if futuresCodes == [] && futuresCodesCamel != [] {
        futuresCodes := futuresCodesCamel;
      }
    }
  }

  // ---------------------------------------------------------------------
  // Endpoints

  /** `{"status": "success", "data": ...}` or an `HTTPException`. */
  datatype Response<+T> = Ok(data: T) | HttpError(status: int, detail: string)

  /** Every exception of an endpoint becomes HTTP 500 with its text. */
  function Respond<T>(r: Result<T>): (resp: Response<T>)
    ensures r.Success? <==> resp.Ok?
    ensures r.Success? ==> resp == Ok(r.value)
    ensures r.Failure? ==> resp == HttpError(500, r.error)
  {
    match r
    case Success(v) => Ok(v)
    case Failure(e) => HttpError(500, e)
  }

  const EmptySymbolText: string := "期货代码不能为空"

  /** `POST /api/stock/analyze`: no check of the code, which is passed on
      even when empty. */
  function AnalyzeStockEndpoint(code: string, market: string, env: StockAnalyzer.StockEnv)
    : (resp: Response<StockAnalyzer.StockReport>)
    ensures resp.Ok? <==> StockAnalyzer.AnalyzeStock(code, market, env).Success?
    ensures resp.Ok? ==> resp.data == StockAnalyzer.AnalyzeStock(code, market, env).value
    ensures resp.HttpError? ==>
              resp.status == 500 && resp.detail == StockAnalyzer.AnalyzeStock(code, market, env).error
  {
    Respond(StockAnalyzer.AnalyzeStock(code, market, env))
  }

  /** `POST /api/futures/analyze`: an empty symbol raises before any
      analysis. */
  function AnalyzeFuturesEndpoint(symbol: string, market: string, env: FuturesAnalyzer.FuturesEnv)
    : (resp: Response<FuturesAnalyzer.FuturesReport>)
    ensures symbol == "" ==> resp == HttpError(500, EmptySymbolText)
    ensures symbol != "" ==> resp == Respond(FuturesAnalyzer.AnalyzeFutures(symbol, market, env))
  {
    if symbol == "" then HttpError(500, EmptySymbolText)
    else Respond(FuturesAnalyzer.AnalyzeFutures(symbol, market, env))
  }

  /** A futures request whose three code fields are all empty or absent is
      rejected with the fixed text, whatever the market. */
  lemma MissingSymbolRejected(body: FuturesBody, env: FuturesAnalyzer.FuturesEnv)
    requires body.symbol.GetOr("") == "" && body.futuresCode.GetOr("") == ""
             && body.futuresCodeCamel.GetOr("") == ""
    ensures AnalyzeFuturesEndpoint(ResolveSymbol(body.symbol.GetOr(""), body.futuresCode.GetOr(""),
                                                 body.futuresCodeCamel.GetOr("")),
                                   body.market.GetOr("CN"), env)
            == HttpError(500, EmptySymbolText)
  {
  }

  /** `GET /api/stock/market-stocks`. */
  function MarketStocksEndpoint(market: string, listing: StockAnalyzer.StockSource -> Result<seq<string>>)
    : (resp: Response<seq<string>>)
    ensures StockAnalyzer.SourceFor(market).None? ==>
              resp == HttpError(500, StockAnalyzer.UnsupportedMarket(market))
    ensures resp == Respond(StockAnalyzer.GetMarketStocks(market, listing))
  {
    Respond(StockAnalyzer.GetMarketStocks(market, listing))
  }

  /** `POST /api/stock/batch-analyze`: the request always carries a list
      (possibly empty), so the market is never listed and the scan cannot
      fail. */
  method BatchAnalyzeStocks(codes: seq<string>, market: string, minScore: Option<int>,
                            env: StockAnalyzer.StockEnv)
    returns (resp: Response<seq<StockAnalyzer.StockReport>>)
    ensures resp.Ok?
    ensures resp.data == Screening.SortDesc(
              Screening.Passing(codes, StockAnalyzer.Analyzer(market, env), StockAnalyzer.ScoreOf, minScore),
              StockAnalyzer.ScoreOf)
    ensures codes == [] ==> resp.data == []
  {
    var r := StockAnalyzer.ScanMarket(Some(codes), market, minScore, env);
    resp := Ok(r.value);
  }

  /** `POST /api/futures/batch-analyze`: one pass over the codes keeping
      the reports that reach the minimum, in input order and unsorted. */
  method BatchAnalyzeFutures(codes: seq<string>, market: string, minScore: Option<int>,
                             env: FuturesAnalyzer.FuturesEnv)
    returns (resp: Response<seq<FuturesAnalyzer.FuturesReport>>)
    ensures resp == Ok(Screening.Passing(codes, FuturesAnalyzer.Analyzer(market, env),
                                         FuturesAnalyzer.ScoreOf, minScore))
  {
    var results := Screening.CollectPassing(codes, FuturesAnalyzer.Analyzer(market, env),
                                            FuturesAnalyzer.ScoreOf, minScore);
    resp := Ok(results);
  }

  /** The batch futures result for two lists of codes is the result for the
      first followed by the result for the second. */
  lemma BatchFuturesKeepsOrder(a: seq<string>, b: seq<string>, market: string, minScore: Option<int>,
                               env: FuturesAnalyzer.FuturesEnv)
    ensures Screening.Passing(a + b, FuturesAnalyzer.Analyzer(market, env), FuturesAnalyzer.ScoreOf, minScore)
            == Screening.Passing(a, FuturesAnalyzer.Analyzer(market, env), FuturesAnalyzer.ScoreOf, minScore)
               + Screening.Passing(b, FuturesAnalyzer.Analyzer(market, env), FuturesAnalyzer.ScoreOf, minScore)
  {
    Screening.PassingAppend(a, b, FuturesAnalyzer.Analyzer(market, env), FuturesAnalyzer.ScoreOf, minScore);
  }

  /** An explicit `"min_score": null` empties every batch result. */
  lemma NullMinimumKeepsNothing(codes: seq<string>, market: string, env: FuturesAnalyzer.FuturesEnv)
    ensures Screening.Passing(codes, FuturesAnalyzer.Analyzer(market, env), FuturesAnalyzer.ScoreOf,
                              MinScoreOf(Some(None))) == []
  {
    Screening.PassingWithoutMinimum(codes, FuturesAnalyzer.Analyzer(market, env), FuturesAnalyzer.ScoreOf);
  }
}
