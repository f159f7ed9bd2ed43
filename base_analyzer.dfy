/** The logic shared by both analyzers (base_analyzer.py): the five-band
    recommendation, the choice between a language-model report and the
    locally generated one, and the classifiers that the local report is
    built from. */
module BaseAnalyzer {
  import opened Wrappers
  import opened Frame
  import opened JsText

  /** The five recommendation bands, most bullish first. */
  datatype Recommendation = StrongBuy | Buy | Watch | Sell | StrongSell {
    /** The text the analyzers put in the report. */
    function Text(): string {
      match this
      case StrongBuy => "强烈推荐买入"
      case Buy => "建议买入"
      case Watch => "观望"
      case Sell => "建议卖出"
      case StrongSell => "强烈建议卖出"
    }

    /** 4 for the most bullish band down to 0 for the most bearish. */
    function Bullishness(): nat {
      match this
      case StrongBuy => 4
      case Buy => 3
      case Watch => 2
      case Sell => 1
      case StrongSell => 0
    }
  }

  /** `get_recommendation`: defined for every integer score, thresholds
      80, 60, 40 and 20, each band closed below. */
  function GetRecommendation(score: int): (r: Recommendation)
    ensures r == StrongBuy <==> score >= 80
    ensures r == Buy <==> 60 <= score < 80
    ensures r == Watch <==> 40 <= score < 60
    ensures r == Sell <==> 20 <= score < 40
    ensures r == StrongSell <==> score < 20
  {
    if score >= 80 then StrongBuy
    else if score >= 60 then Buy
    else if score >= 40 then Watch
    else if score >= 20 then Sell
    else StrongSell
  }

  /** A higher score never gives a more bearish recommendation. */
  lemma RecommendationMonotone(a: int, b: int)
    requires a <= b
    ensures GetRecommendation(a).Bullishness() <= GetRecommendation(b).Bullishness()
  {
  }

  /** The five texts are distinct, so the text determines the band. */
  lemma RecommendationTextInjective(x: Recommendation, y: Recommendation)
    requires x.Text() == y.Text()
    ensures x == y
  {
  }

  // ---------------------------------------------------------------------
  // Choice of the AI report

  /** The three remote backends `get_ai_analysis` can call. */
  datatype Backend = OpenAi | Azure | Custom {
    /** The lower-cased `LLM_API_TYPE` value that selects this backend. */
    function TypeName(): string {
      match this
      case OpenAi => "openai"
      case Azure => "azure"
      case Custom => "custom"
    }
  }

  /** Where the `ai_analysis` text comes from. `ErrorNotice` is the fixed
      text the stock analyzer's override returns when anything raises. */
  datatype AiAnalysis = Remote(backend: Backend, text: string) | LocalReport | ErrorNotice

  const ErrorNoticeText: string := "AI 分析过程中发生错误"

  /** The backend named by the configured API type, compared lower-cased;
      every other type (including "gemini") selects none. */
  function SelectBackend(apiType: string): (b: Option<Backend>)
    ensures b.Some? <==> LowerAscii(apiType) in {"openai", "azure", "custom"}
    ensures b.Some? ==> b.value.TypeName() == LowerAscii(apiType)
  {
    var t := LowerAscii(apiType);
    if t == "openai" then Some(OpenAi)
    else if t == "azure" then Some(Azure)
    else if t == "custom" then Some(Custom)
    else None
  }

  /** The environment settings of the analyzer and the HTTP call they
      configure: `call(code, b)` is what calling backend `b` with the
      prompt for `code` returns or raises. */
  datatype LlmConfig = LlmConfig(
    apiKey: Option<string>,
    apiType: string,
    call: (string, Backend) -> Result<string>)

  /** `not self.llm_api_key`: the key is unset or empty. */
  predicate HasApiKey(apiKey: Option<string>) {
    apiKey.Some? && apiKey.value != ""
  }

  /** `get_ai_analysis` of base_analyzer.py. The HTTP call is a parameter:
      `call(b)` is what calling backend `b` returns or raises. Building the
      prompt reads `df.iloc[-2]`, which raises on a frame of fewer than two
      rows. Any exception falls back to the local report, which reads
      `df.iloc[-1]`: on an empty frame that raises again, inside the
      handler, and the IndexError leaves the method. */
  function GetAiAnalysis(apiKey: Option<string>, apiType: string, df: seq<Row>,
                         call: Backend -> Result<string>): (r: Result<AiAnalysis>)
    ensures r.Failure? <==> df == []
    ensures r.Failure? ==> r.error == IndexErrorText
    ensures r.Success? && !HasApiKey(apiKey) ==> r.value == LocalReport
    ensures r.Success? && SelectBackend(apiType).None? ==> r.value == LocalReport
    ensures r.Success? ==> r.value != ErrorNotice
    ensures r.Success? ==>
              (r.value.Remote? <==>
                 HasApiKey(apiKey) && |df| >= 2 && SelectBackend(apiType).Some?
                 && call(SelectBackend(apiType).value).Success?)
    ensures r.Success? && r.value.Remote? ==>
              r.value.backend == SelectBackend(apiType).value
              && call(r.value.backend) == Success(r.value.text)
  {
    if df == [] then Failure(IndexErrorText)
    else if !HasApiKey(apiKey) then Success(LocalReport)
    else if |df| < 2 then Success(LocalReport)
    else match SelectBackend(apiType)
      case None => Success(LocalReport)
      case Some(b) =>
        match call(b)
        case Success(text) => Success(Remote(b, text))
        case Failure(_) => Success(LocalReport)
  }

  /** `get_ai_analysis` as stock_analyzer.py overrides it: the same choice,
      but an exception yields the fixed error text instead of the local
      report. The keyless branch also runs inside the `try`, so an empty
      frame gives the error text there too. */
  function GetStockAiAnalysis(apiKey: Option<string>, apiType: string, df: seq<Row>,
                              call: Backend -> Result<string>): (r: AiAnalysis)
    ensures r == ErrorNotice <==>
              df == [] ||
              (HasApiKey(apiKey) &&
               (|df| < 2 || (SelectBackend(apiType).Some? && call(SelectBackend(apiType).value).Failure?)))
    ensures r == LocalReport <==>
              df != [] && (!HasApiKey(apiKey) || (|df| >= 2 && SelectBackend(apiType).None?))
    ensures r.Remote? ==>
              HasApiKey(apiKey) && |df| >= 2 && SelectBackend(apiType) == Some(r.backend)
              && call(r.backend) == Success(r.text)
  {
    if df == [] then ErrorNotice
    else if !HasApiKey(apiKey) then LocalReport
    else if |df| < 2 then ErrorNotice
    else match SelectBackend(apiType)
      case None => LocalReport
      case Some(b) =>
        match call(b)
        case Success(text) => Remote(b, text)
        case Failure(_) => ErrorNotice
  }

  /** The two versions agree whenever nothing raises; where the override
      gives the error text the base method gives the local report, except
      on an empty frame, where it raises. */
  lemma StockOverrideAgreesUnlessRaised(apiKey: Option<string>, apiType: string, df: seq<Row>,
                                        call: Backend -> Result<string>)
    ensures GetStockAiAnalysis(apiKey, apiType, df, call) != ErrorNotice ==>
              GetAiAnalysis(apiKey, apiType, df, call) == Success(GetStockAiAnalysis(apiKey, apiType, df, call))
    ensures GetStockAiAnalysis(apiKey, apiType, df, call) == ErrorNotice && df != [] ==>
              GetAiAnalysis(apiKey, apiType, df, call) == Success(LocalReport)
    ensures df == [] ==>
              GetStockAiAnalysis(apiKey, apiType, df, call) == ErrorNotice
              && GetAiAnalysis(apiKey, apiType, df, call) == Failure(IndexErrorText)
  {
  }

  /** A "gemini" type is not a supported backend in any letter case. */
  lemma GeminiIsLocal(apiKey: Option<string>, df: seq<Row>, call: Backend -> Result<string>)
    ensures GetAiAnalysis(apiKey, "gemini", df, call) == if df == [] then Failure(IndexErrorText) else Success(LocalReport)
    ensures GetAiAnalysis(apiKey, "Gemini", df, call) == if df == [] then Failure(IndexErrorText) else Success(LocalReport)
  {
    LowerGemini();
  }

  lemma LowerGemini()
    ensures LowerAscii("gemini") == "gemini" && LowerAscii("Gemini") == "gemini"
  {
  }

  /** Upper-case spellings select the same backend. */
  lemma TypeIsCaseInsensitive()
    ensures SelectBackend("OpenAI") == Some(OpenAi)
    ensures SelectBackend("AZURE") == Some(Azure)
    ensures SelectBackend("Custom") == Some(Custom)
  {
    SelectsOpenAi();
    SelectsAzure();
    SelectsCustom();
  }

  lemma SelectsOpenAi()
    ensures SelectBackend("OpenAI") == Some(OpenAi)
  {
    assert LowerAscii("OpenAI") == "openai";
  }

  lemma SelectsAzure()
    ensures SelectBackend("AZURE") == Some(Azure)
  {
    assert LowerAscii("AZURE") == "azure";
  }

  lemma SelectsCustom()
    ensures SelectBackend("Custom") == Some(Custom)
  {
    assert LowerAscii("Custom") == "custom";
  }

  // ---------------------------------------------------------------------
  // Classifiers of the local report

  /** The trading advice of section 6 of the local report. */
  datatype Advice = BuyAdvice | WatchAdvice | SellAdvice

  /** The parts of `_generate_local_analysis` that are choices rather than
      number formatting. */
  datatype LocalSummary = LocalSummary(
    marketName: string,
    trend: string,
    rsiStatus: string,
    volumeConfirms: bool,
    highVolatility: bool,
    goldenCross: bool,
    advice: Advice)

  const Up: string := "上升"
  const Down: string := "下降"
  const Overbought: string := "超买"
  const Oversold: string := "超卖"
  const Neutral: string := "中性"

  function MarketName(marketType: string): (r: string)
    ensures r == "股票" <==> marketType == "stock"
    ensures r != "股票" ==> r == "期货"
  {
    if marketType == "stock" then "股票" else "期货"
  }

  function TrendText(row: Row): (t: string)
    ensures t == Up <==> Gt(row.ma5, row.ma20)
    ensures t != Up ==> t == Down
  {
    if Gt(row.ma5, row.ma20) then Up else Down
  }

  function RsiStatus(row: Row): (t: string)
    ensures t == Overbought <==> Gt(row.rsi, Finite(70.0))
    ensures t == Oversold <==> Lt(row.rsi, Finite(30.0))
    ensures t == Neutral <==> !Gt(row.rsi, Finite(70.0)) && !Lt(row.rsi, Finite(30.0))
  {
    if Gt(row.rsi, Finite(70.0)) then Overbought
    else if Lt(row.rsi, Finite(30.0)) then Oversold
    else Neutral
  }

  /** Buy when the trend is up and RSI < 70; otherwise watch when
      30 <= RSI <= 70; otherwise sell. */
  function AdviceFor(row: Row): (a: Advice)
    ensures a == BuyAdvice <==> TrendText(row) == Up && Lt(row.rsi, Finite(70.0))
    ensures a == WatchAdvice <==>
              !(TrendText(row) == Up && Lt(row.rsi, Finite(70.0)))
              && Le(Finite(30.0), row.rsi) && Le(row.rsi, Finite(70.0))
  {
    if TrendText(row) == Up && Lt(row.rsi, Finite(70.0)) then BuyAdvice
    else if Le(Finite(30.0), row.rsi) && Le(row.rsi, Finite(70.0)) then WatchAdvice
    else SellAdvice
  }

  /** `_generate_local_analysis` for the last row of the frame. */
  function LocalAnalysis(latest: Row, marketType: string): (s: LocalSummary)
    ensures s.marketName == MarketName(marketType)
    ensures s.trend == TrendText(latest) && s.rsiStatus == RsiStatus(latest)
    ensures s.volumeConfirms <==> Gt(latest.volumeRatio, Finite(1.2))
    ensures s.highVolatility <==> Gt(latest.volatility, Finite(3.0))
    ensures s.goldenCross <==> Gt(latest.macd, latest.signal) && Gt(latest.macdHist, Finite(0.0))
    ensures s.advice == AdviceFor(latest)
  {
    LocalSummary(
      MarketName(marketType),
      TrendText(latest),
      RsiStatus(latest),
      Gt(latest.volumeRatio, Finite(1.2)),
      Gt(latest.volatility, Finite(3.0)),
      Gt(latest.macd, latest.signal) && Gt(latest.macdHist, Finite(0.0)),
      AdviceFor(latest))
  }

  /** How the advice relates to the RSI status: an overbought market is
      always a sell, an undefined RSI is always a sell, and an oversold one
      is a buy exactly when the trend is up. */
  lemma AdviceAgainstRsiStatus(row: Row)
    ensures RsiStatus(row) == Overbought ==> AdviceFor(row) == SellAdvice
    ensures row.rsi.NaN? ==> AdviceFor(row) == SellAdvice && RsiStatus(row) == Neutral
    ensures RsiStatus(row) == Oversold ==> (AdviceFor(row) == BuyAdvice <==> TrendText(row) == Up)
    ensures RsiStatus(row) == Oversold && TrendText(row) != Up ==> AdviceFor(row) == SellAdvice
  {
  }

  /** RSI exactly 70 with an up trend is a watch, not a buy: the buy rule
      is strict and the watch band is closed. */
  lemma AdviceAtSeventy(row: Row)
    requires row.rsi == Finite(70.0) && Gt(row.ma5, row.ma20)
    ensures AdviceFor(row) == WatchAdvice
    ensures RsiStatus(row) == Neutral
  {
  }
}
