/** The display helpers of stock-analysis-result.tsx and
    futures-analysis-result.tsx: score bands, the colour of the price change,
    market names, the labels of the backend's signals and the open-interest
    bar. Values arrive as JSON, so a missing or null field is a value of its
    own, and JavaScript's truthiness and `>=` decide what is shown. */
module ResultViews {
  import opened Wrappers
  import opened Frame
  import StockAnalyzer

  /** A JSON number field as the component sees it. */
  datatype JsValue = Undefined | Null | NaN | Num(v: real)

  /** `if (x)`: only a non-zero number is truthy. */
  predicate Truthy(x: JsValue) {
    x.Num? && x.v != 0.0
  }

  /** `x >= 0`: null converts to 0, undefined to NaN. */
  predicate AtLeastZero(x: JsValue) {
    x.Null? || (x.Num? && x.v >= 0.0)
  }

  /** `x || 0`. */
  function OrZero(x: JsValue): (r: real)
    ensures Truthy(x) ==> r == x.v
    ensures !Truthy(x) ==> r == 0.0
  {
    if Truthy(x) then x.v else 0.0
  }

  // ---------------------------------------------------------------------
  // Helpers shared by both components

  /** `getScoreClass`. */
  function ScoreClass(score: int): (c: string)
    ensures c == "score-high" <==> score >= 80
    ensures c == "score-medium" <==> 60 <= score < 80
    ensures c == "score-low" <==> score < 60
  {
    if score >= 80 then "score-high"
    else if score >= 60 then "score-medium"
    else "score-low"
  }

  function Band(c: string): nat {
    if c == "score-high" then 2 else if c == "score-medium" then 1 else 0
  }

  /** A higher score never shows in a lower band. */
  lemma ScoreClassMonotone(a: int, b: int)
    requires a <= b
    ensures Band(ScoreClass(a)) <= Band(ScoreClass(b))
  {
  }

  /** `getPriceChangeClass`. */
  function PriceChangeClass(change: real): (c: string)
    ensures c == "market-up" <==> change >= 0.0
    ensures c != "market-up" ==> c == "market-down"
  {
    if change >= 0.0 then "market-up" else "market-down"
  }

  /** `getMarketName` of the stock view: the three markets of the stock
      analyzer by name, anything else as it came. */
  function StockMarketName(market: string): (name: string)
    ensures market == "A" ==> name == "A股"
    ensures market == "US" ==> name == "美股"
    ensures market == "HK" ==> name == "港股"
    ensures market !in {"A", "US", "HK"} ==> name == market
  {
    match market
    case "A" => "A股"
    case "US" => "美股"
    case "HK" => "港股"
    case _ => market
  }

  /** `getMarketName` of the futures view. "GLOBAL", the backend's only
      other futures market, is not in the table and is shown as it came. */
  function FuturesMarketName(market: string): (name: string)
    ensures market == "CN" ==> name == "中国期货"
    ensures market == "US" ==> name == "美国期货"
    ensures market !in {"CN", "US"} ==> name == market
  {
    match market
    case "CN" => "中国期货"
    case "US" => "美国期货"
    case _ => market
  }

  /** The MA trend label: anything but "UP" reads as falling. */
  function TrendLabel(maTrend: string): (text: string)
    ensures text == "上升" <==> maTrend == "UP"
    ensures text != "上升" ==> text == "下降"
  {
    if maTrend == "UP" then "上升" else "下降"
  }

  /** The MACD label: anything but "BUY", "HOLD" included, reads as sell. */
  function MacdLabel(macdSignal: string): (text: string)
    ensures text == "买入" <==> macdSignal == "BUY"
    ensures text != "买入" ==> text == "卖出"
  {
    if macdSignal == "BUY" then "买入" else "卖出"
  }

  /** The volume label: anything but "HIGH" reads as normal. */
  function VolumeLabel(volumeStatus: string): (text: string)
    ensures text == "放量" <==> volumeStatus == "HIGH"
    ensures text != "放量" ==> text == "正常"
  {
    if volumeStatus == "HIGH" then "放量" else "正常"
  }

  /** Through the backend's classifiers the labels read the indicators
      with strict comparisons: rising exactly when MA5 > MA20, buy exactly
      when MACD > signal, heavy volume exactly when the ratio exceeds 1.5. */
  lemma LabelsOfBackendFields(r: Row)
    ensures TrendLabel(StockAnalyzer.MaTrend(r)) == "上升" <==> Gt(r.ma5, r.ma20)
    ensures MacdLabel(StockAnalyzer.MacdSignal(r)) == "买入" <==> Gt(r.macd, r.signal)
    ensures VolumeLabel(StockAnalyzer.VolumeStatus(r)) == "放量" <==> Gt(r.volumeRatio, Finite(1.5))
  {
  }

  // ---------------------------------------------------------------------
  // The stock view

  /** The fields of a stock report the view reads. */
  datatype StockFields = StockFields(
    score: int, market: string, priceChange: JsValue,
    maTrend: string, macdSignal: string, volumeStatus: string)

  /** What the view shows of them. `arrowUp` is `price_change >= 0` on the
      raw value, while the colour comes from `price_change || 0`. */
  datatype StockCard = StockCard(
    scoreClass: string, marketName: string, priceClass: string, arrowUp: bool,
    trendLabel: string, macdLabel: string, volumeLabel: string)

  function StockView(data: Option<StockFields>): (card: Option<StockCard>)
    ensures card.None? <==> data.None?
  {
    match data
    case None => None
    case Some(d) =>
      Some(StockCard(ScoreClass(d.score), StockMarketName(d.market),
                     PriceChangeClass(OrZero(d.priceChange)), AtLeastZero(d.priceChange),
                     TrendLabel(d.maTrend), MacdLabel(d.macdSignal), VolumeLabel(d.volumeStatus)))
  }

  /** For a number or null the arrow and the colour agree; a missing value
      or NaN is coloured as a rise while the arrow points down. */
  lemma PriceArrowAndColour(d: StockFields)
    ensures var card := StockView(Some(d)).value;
            (d.priceChange.Num? || d.priceChange.Null?) ==> (card.arrowUp <==> card.priceClass == "market-up")
    ensures var card := StockView(Some(d)).value;
            (d.priceChange.Undefined? || d.priceChange.NaN?) ==> card.priceClass == "market-up" && !card.arrowUp
  {
  }

  // ---------------------------------------------------------------------
  // The futures view

  /** The colour of the open-interest figure: green above 0, red below,
      none when the value is falsy. */
  function OpenInterestClass(x: JsValue): (c: string)
    ensures c == "text-green-500" <==> x.Num? && x.v > 0.0
    ensures c == "text-red-500" <==> x.Num? && x.v < 0.0
    ensures c == "" <==> !Truthy(x)
  {
    if Truthy(x) && x.v > 0.0 then "text-green-500"
    else if Truthy(x) && x.v < 0.0 then "text-red-500"
    else ""
  }

  /** The sign written before the figure, or None when 'N/A' is shown. */
  function OpenInterestSign(x: JsValue): (sign: Option<string>)
    ensures sign.None? <==> !Truthy(x)
    ensures sign == Some("+") <==> x.Num? && x.v > 0.0
    ensures sign == Some("") <==> x.Num? && x.v < 0.0
  {
    if !Truthy(x) then None else if x.v > 0.0 then Some("+") else Some("")
  }

  /** The colour of the bar: green only above 0. */
  function OpenInterestBarClass(x: JsValue): (c: string)
    ensures c == "bg-green-500" <==> x.Num? && x.v > 0.0
    ensures c != "bg-green-500" ==> c == "bg-red-500"
  {
    if Truthy(x) && x.v > 0.0 then "bg-green-500" else "bg-red-500"
  }

  /** The width of the bar in percent: `x ? Math.min(Math.abs(x), 100) : 0`. */
  function OpenInterestBarWidth(x: JsValue): (w: real)
    ensures 0.0 <= w <= 100.0
    ensures w == 0.0 <==> !Truthy(x)
    ensures Truthy(x) ==> w == (if x.v < 0.0 then -x.v else x.v) || (w == 100.0 && (x.v >= 100.0 || x.v <= -100.0))
  {
    if !Truthy(x) then 0.0
    else
      var a := if x.v < 0.0 then -x.v else x.v;
      if a < 100.0 then a else 100.0
  }

  /** The bar grows with the size of the change until it is full. */
  lemma BarWidthMonotone(x: JsValue, y: JsValue)
    requires Truthy(x) && Truthy(y)
    requires (if x.v < 0.0 then -x.v else x.v) <= (if y.v < 0.0 then -y.v else y.v)
    ensures OpenInterestBarWidth(x) <= OpenInterestBarWidth(y)
  {
  }

  /** A falsy value shows 'N/A' without colour over an empty red bar. */
  lemma MissingOpenInterest(x: JsValue)
    requires !Truthy(x)
    ensures OpenInterestSign(x).None? && OpenInterestClass(x) == ""
    ensures OpenInterestBarClass(x) == "bg-red-500" && OpenInterestBarWidth(x) == 0.0
  {
  }

  datatype FuturesFields = FuturesFields(
    score: int, market: string, priceChange: JsValue,
    maTrend: string, macdSignal: string, volumeStatus: string,
    openInterestChange: JsValue)

  datatype FuturesCard = FuturesCard(
    scoreClass: string, marketName: string, priceClass: string, arrowUp: bool,
    trendLabel: string, macdLabel: string, volumeLabel: string,
    openInterestClass: string, openInterestSign: Option<string>,
    barClass: string, barWidth: real)

  function FuturesView(data: Option<FuturesFields>): (card: Option<FuturesCard>)
    ensures card.None? <==> data.None?
  {
    match data
    case None => None
    case Some(d) =>
      var x := d.openInterestChange;
      Some(FuturesCard(ScoreClass(d.score), FuturesMarketName(d.market),
                       PriceChangeClass(OrZero(d.priceChange)), AtLeastZero(d.priceChange),
                       TrendLabel(d.maTrend), MacdLabel(d.macdSignal), VolumeLabel(d.volumeStatus),
                       OpenInterestClass(x), OpenInterestSign(x),
                       OpenInterestBarClass(x), OpenInterestBarWidth(x)))
  }

  /** The figure and the bar agree in colour whenever the change is not
      zero or missing. */
  lemma OpenInterestColoursAgree(d: FuturesFields)
    requires Truthy(d.openInterestChange)
    ensures var card := FuturesView(Some(d)).value;
            (card.openInterestClass == "text-green-500") <==> (card.barClass == "bg-green-500")
    ensures var card := FuturesView(Some(d)).value;
            card.openInterestSign.Some? && card.barWidth > 0.0
  {
  }
}
