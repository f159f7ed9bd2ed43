# Stock and futures screener — a Dafny model

This project models the rule-based core of a stock and futures screener. The
screener has a Python backend that scores market data and a React frontend
that shows the results. The model covers:

- **Scoring and screening.** The stock score adds four terms, gives 0 to 100
  points and is never clamped. The futures score starts at 50 and is clamped
  to [0, 100]. The five-band recommendation is modelled, and so is the market
  scan: a filter, then a stable sort by descending score.
- **The analyzers' other rules.**
  - The report's classifier fields, market validation, and the default
    stock and futures names.
  - The name of a global contract, looked up by a two-character base code.
  - The choice between a language-model report and the local report.
  - The classifiers of the local report.
- **The HTTP layer.** The request models with their defaults and alias
  fallbacks, each endpoint's success or HTTP 500 result, the empty-symbol
  check, and the batch futures filter, which keeps input order.
- **The progress stepper,** a six-step state machine. It is a class over an
  array of steps, and its `Update` method is proved against a pure transition
  function.
- **The AI report view.** The mini-markdown transform, the summary and
  section extractor, and the choice between the structured layout and the
  whole text.
- **The batch-code tokeniser of the futures form.**
- **The display helpers of the result cards:** score band, price colour and
  arrow, market names, signal labels, and the open-interest figure and bar.

Pandas floats become `Frame.Float`, which is either NaN or a real. Every
comparison with NaN is false, as in Python, so a short frame whose rolling
windows are not yet full is scored as the source scores it. Anything that
talks to the outside world is a parameter of the model:

- the akshare data and listings;
- the stock and futures name lookups;
- the language-model HTTP call.

JSON number fields in the frontend are `ResultViews.JsValue`. This type
distinguishes `undefined`, `null`, NaN and numbers, because JavaScript
truthiness and `>=` treat them differently.

Modules, in dependency order:

| module | file |
|---|---|
| Wrappers | wrappers.dfy |
| JsText | jstext.dfy |
| Frame | frame.dfy |
| Screening | screening.dfy |
| BaseAnalyzer | base_analyzer.dfy |
| StockAnalyzer | stock_analyzer.dfy |
| FuturesAnalyzer | futures_analyzer.dfy |
| ApiServer | api_server.dfy |
| Progress | progress.dfy |
| Markdown | markdown.dfy |
| Sections | sections.dfy |
| BatchForm | batch_form.dfy |
| ResultViews | result_views.dfy |

Behaviour of the code worth knowing:

- **No escaping.** The markdown transform does not escape HTML, so
  `Markdown.FormatIdentity` shows that `<`, `>` and `&` pass through
  unchanged.
- **Later steps kept while loading.** During loading, the steps after the
  current one keep their previous status. They are not reset to waiting.
- **Error is not a sink.** An error is not a final state: the next update
  with a cleared error flag proceeds as usual.
- **The completion callback can repeat.** The effect has no cleanup and
  runs again whenever one of its dependencies (`isVisible`, `code`,
  `currentStep`, `isApiLoading`, `isApiError`, `errorMessage`) changes. A
  finished-loading re-render with, say, a new `code` schedules `onComplete`
  a second time; a re-render with the same dependencies schedules nothing.
- **Two rows are required.** `analyze_stock` and `analyze_futures` read
  `df.iloc[-2]`, so a frame with fewer than two rows always fails. The
  single-row fallback of the futures score is therefore unreachable through
  `analyze_futures`.
- **A null `min_score` keeps nothing.** A batch request with
  `"min_score": null` compares a score with `None`. That raises inside the
  per-code `try`, so every code is skipped and the result is empty.
- **A lone comma.** The batch form enables its button for a text such as
  `","` but sends no code.
- **A missing price change.** It is coloured as a rise (`x || 0` is 0) while
  its arrow points down (`undefined >= 0` is false).
- **The stock analyzer's error text.** `get_ai_analysis` in the stock
  analyzer answers every exception with a fixed error text, not the local
  report. A frame with fewer than two rows hits this when a key is
  configured.

## Model

| member | source | states |
|---|---|---|
| JsText.Trim | frontend/src/components/futures/batch-futures-analysis-form.tsx:25 | `String.prototype.trim` over the `\s` class: the result is empty exactly when the text is all whitespace, and otherwise it does not start or end with whitespace |
| JsText.TrimClean | frontend/src/components/futures/batch-futures-analysis-form.tsx:25 | trimming leaves a text with no whitespace at its ends unchanged |
| JsText.TrimFactor | frontend/src/components/ui/ai-analysis-result.tsx:165 | the text is the leading whitespace, then the trimmed text, then the trailing whitespace |
| JsText.LowerAscii | base_analyzer.py:191 | `.lower()` on the API type: same length, and letters A-Z are mapped to a-z |
| JsText.FoldCase | frontend/src/components/ui/ai-analysis-result.tsx:169 | the canonical case of the `i` flag: a lower-case ASCII letter folds to its upper-case letter and every other character stays the same |
| Frame.NaNIncomparable | futures_analyzer.py:68-69 | no ordering holds between NaN and any value (the missing open-interest column of global futures) |
| BaseAnalyzer.GetRecommendation | base_analyzer.py:342-353 | defined for every integer: band boundaries at 80, 60, 40 and 20, with each band closed at its lower end |
| BaseAnalyzer.RecommendationMonotone | base_analyzer.py:342-353 | a higher score never gives a more bearish recommendation |
| BaseAnalyzer.RecommendationTextInjective | stock_analyzer.py:442-453 | the five texts are distinct, so a text identifies its band |
| BaseAnalyzer.SelectBackend | base_analyzer.py:191-203 | a backend is chosen exactly when the lower-cased type is openai, azure or custom, and it is the one of that name |
| BaseAnalyzer.GetAiAnalysis | base_analyzer.py:136-208 | an empty frame raises the IndexError out of the method, since the local report in the handler reads the last row again; otherwise, with no key or an unsupported type the local report is used; a remote text appears exactly when a key is set, the frame has at least two rows and the selected call succeeds; a failure falls back to the local report; the error text never appears |
| BaseAnalyzer.GeminiIsLocal | base_analyzer.py:197-203 | a "gemini" type, in any letter case, gives the local report, and raises like every type on an empty frame |
| BaseAnalyzer.TypeIsCaseInsensitive | base_analyzer.py:191-196 | the type is matched case-insensitively: upper-case spellings select the same backend |
| BaseAnalyzer.GetStockAiAnalysis | stock_analyzer.py:372-440 | the stock override: the error text appears exactly when the frame is empty, or a key is set and either the frame is too short or the selected call fails; the local report appears exactly for a non-empty frame without a key or with an unsupported type; a remote text is the selected backend's successful answer |
| BaseAnalyzer.StockOverrideAgreesUnlessRaised | stock_analyzer.py:438-440 | the override agrees with the base method except where something raises; there the base method gives the local report, or on an empty frame raises |
| BaseAnalyzer.MarketName | base_analyzer.py:305-308 | 股票 exactly for "stock", otherwise 期货 |
| BaseAnalyzer.TrendText | base_analyzer.py:310 | 上升 exactly when MA5 > MA20, otherwise 下降 |
| BaseAnalyzer.RsiStatus | base_analyzer.py:311 | 超买 exactly when RSI > 70, 超卖 exactly when RSI < 30, and 中性 otherwise (NaN included) |
| BaseAnalyzer.AdviceFor | base_analyzer.py:339 | buy exactly when the trend is up and RSI < 70; otherwise watch exactly when 30 ≤ RSI ≤ 70; otherwise sell |
| BaseAnalyzer.LocalAnalysis | base_analyzer.py:303-340 | each choice in the local report: the market name, the trend, the RSI status, volume confirmation above 1.2, high volatility above 3, the golden cross, and the advice |
| BaseAnalyzer.AdviceAgainstRsiStatus | base_analyzer.py:311-339 | an overbought market, or a NaN RSI, is always a sell; an oversold market is a buy exactly when the trend is up |
| BaseAnalyzer.AdviceAtSeventy | base_analyzer.py:339 | RSI exactly 70 with an up trend gives watch, not buy |
| StockAnalyzer.TrendPoints | stock_analyzer.py:344-348 | 30, 15 or 0 depending on how many of MA5 > MA20 and MA20 > MA60 hold |
| StockAnalyzer.RsiPoints | stock_analyzer.py:350-354 | 20 exactly inside [30, 70], 15 exactly below 30, and 0 above 70 or for NaN |
| StockAnalyzer.MacdPoints | stock_analyzer.py:356-358 | 20 exactly when MACD > signal, otherwise 0 |
| StockAnalyzer.VolumePoints | stock_analyzer.py:360-364 | 30 exactly above 1.5, 15 exactly in (1, 1.5], otherwise 0 |
| StockAnalyzer.StockScore | stock_analyzer.py:341-366 | the unclamped score always lies in [0, 100] and is a multiple of 5 |
| StockAnalyzer.CalculateScore | stock_analyzer.py:338-370 | `+=` accumulation fails exactly on an empty frame (IndexError); otherwise it equals the sum of the four terms for the last row |
| StockAnalyzer.ScoreBoundsReached | stock_analyzer.py:341-366 | both 100 (15+15+20+20+30) and 0 are reached |
| StockAnalyzer.MaTrend | stock_analyzer.py:121 | "UP" exactly when MA5 > MA20, otherwise "DOWN" |
| StockAnalyzer.MacdSignal | stock_analyzer.py:123 | "BUY" exactly when MACD > signal, otherwise "SELL" |
| StockAnalyzer.VolumeStatus | stock_analyzer.py:124 | "HIGH" exactly when the ratio is above 1.5, otherwise "NORMAL"; never "LOW" |
| StockAnalyzer.SourceFor | stock_analyzer.py:28-75 | a supported source exists exactly for A, US and HK |
| StockAnalyzer.GetStockData | stock_analyzer.py:16-91 | an unsupported market fails with the wrapped ValueError text; every failure carries the 获取股票数据失败 prefix; it succeeds exactly when the market is supported and the fetch succeeds |
| StockAnalyzer.GetMarketStocks | stock_analyzer.py:231-256 | an unsupported market fails with the unwrapped ValueError text; otherwise it gives the listing of that market's source |
| StockAnalyzer.GetStockName | stock_analyzer.py:159-204 | the name found when it is non-empty; otherwise `{market}股票-{code}`, also when the lookup raises |
| StockAnalyzer.AnalyzeStock | stock_analyzer.py:93-133 | a report is produced exactly when the data is fetched and has at least two rows; a fetch failure is passed on and a shorter frame fails with the IndexError text; the score, recommendation and classifier fields are those of the last row, the name is `get_stock_name`'s and the AI field is the override's choice; an unsupported market fails |
| StockAnalyzer.ScanMarket | stock_analyzer.py:206-229 | the scan succeeds exactly when a list is given or the listing succeeds, and a failed listing passes its error on; otherwise the result is the passing reports sorted: non-increasing, a permutation of the reports that passed, with ties in input order |
| StockAnalyzer.SingleRowNotReported | stock_analyzer.py:106-107 | a one-row frame always fails with the IndexError text |
| Screening.Kept | stock_analyzer.py:216-225 | a code contributes its report exactly when the analysis succeeds and the score reaches a non-null minimum |
| Screening.Passing | stock_analyzer.py:215-225 | at most one report per code |
| Screening.PassingSound | stock_analyzer.py:215-225 | every kept report reaches the minimum and is the analysis of one of the codes; no more reports than codes |
| Screening.PassingComplete | stock_analyzer.py:215-225 | every successful analysis that reaches the minimum is kept |
| Screening.PassingAppend | futures_analyzer.py:327-337 | filtering keeps input order: the result for a + b is the result for a followed by the result for b |
| Screening.PassingWithoutMinimum | stock_analyzer.py:218 | with a null minimum the comparison raises for every code, so nothing is kept |
| Screening.CollectPassing | futures_analyzer.py:324-337 | the append loop yields exactly the filtered reports, in order |
| Screening.InsertSorted | stock_analyzer.py:228 | inserting into a non-increasing list keeps it non-increasing |
| Screening.Insert | stock_analyzer.py:228 | insertion makes the list one longer (InsertPerm says which element it adds) |
| Screening.SortDesc | stock_analyzer.py:228 | the sort keeps the number of reports |
| Screening.InsertPerm | stock_analyzer.py:228 | insertion adds exactly the one element, as a multiset |
| Screening.InsertStable | stock_analyzer.py:228 | insertion places the new element after the equal-score elements already there |
| Screening.SortDescCorrect | stock_analyzer.py:228 | `sort(key=score, reverse=True)` gives a non-increasing permutation of its input |
| Screening.SortDescStable | futures_analyzer.py:340 | the sort is stable: the elements of each score keep their order |
| Screening.ScanAndRank | futures_analyzer.py:324-341 | the collect-and-sort result is sorted, is a permutation of the passing reports, and keeps the input order within each score |
| FuturesAnalyzer.TrendPoints | futures_analyzer.py:135-143 | +15 for MA5>MA20>MA60, +10 for a weaker rise, -15 for MA5<MA20<MA60, -10 for a weaker fall, and 0 otherwise; the sign follows MA5 against MA20 |
| FuturesAnalyzer.MacdPoints | futures_analyzer.py:145-149 | ±10 exactly when MACD, the signal line and the histogram agree, otherwise 0 |
| FuturesAnalyzer.RsiPoints | futures_analyzer.py:152-156 | +5 exactly when overbought, -5 exactly when oversold, otherwise 0 |
| FuturesAnalyzer.MomentumPoints | futures_analyzer.py:158-162 | always ±5: +5 exactly when momentum > 0, including -5 for zero and NaN |
| FuturesAnalyzer.BollingerPoints | futures_analyzer.py:164-169 | -10 exactly above the upper band, +10 exactly below the lower band when not above the upper, otherwise 0 |
| FuturesAnalyzer.VolumePoints | futures_analyzer.py:171-176 | +5 exactly above 1.5, -5 exactly below 0.5, otherwise 0 |
| FuturesAnalyzer.OpenInterestPoints | futures_analyzer.py:177-183 | +10 exactly when OI change > 5 and the close rose; -10 exactly when it was not +10 and OI change < -5 and the close fell; otherwise 0 |
| FuturesAnalyzer.RawScore | futures_analyzer.py:132-183 | 50 plus the terms: always in [-10, 110] |
| FuturesAnalyzer.FuturesScore | futures_analyzer.py:186 | the clamp: always in [0, 100], equal to the raw score inside that range and at the nearer end outside it |
| FuturesAnalyzer.IndicatorScore | futures_analyzer.py:132-162 | the first four accumulations from 50 give 50 plus the trend, MACD, RSI and momentum terms |
| FuturesAnalyzer.CalculateFuturesScore | futures_analyzer.py:125-190 | the `+=`/`-=` method fails exactly on an empty frame; otherwise it equals the clamped score with the previous close (or the last close for one row) |
| FuturesAnalyzer.RawScoreBoundsReached | futures_analyzer.py:132-186 | the raw score reaches both 110 and -10, so the clamp acts at both ends |
| FuturesAnalyzer.SingleRowOpenInterestNeutral | futures_analyzer.py:179-183 | with a single row the open-interest term is 0 |
| FuturesAnalyzer.SourceFor | futures_analyzer.py:37-72 | the domestic source exactly for CN, the global one exactly for GLOBAL, and none otherwise |
| FuturesAnalyzer.GetFuturesData | futures_analyzer.py:25-88 | an unsupported market fails with the wrapped ValueError text; every failure carries the 获取期货数据失败 prefix; it succeeds exactly when the fetch of a supported market succeeds |
| FuturesAnalyzer.GetFuturesMarket | futures_analyzer.py:343-364 | CN gives the exchange listing; GLOBAL gives exactly CL, GC, SI, HG, NG; any other market fails with the ValueError text |
| FuturesAnalyzer.BaseCode | futures_analyzer.py:291 | a prefix of the symbol of at most two characters: exactly two when the symbol has two or more, and the whole symbol when it is shorter |
| FuturesAnalyzer.GetFuturesName | futures_analyzer.py:260-316 | GLOBAL takes the name of the base code from the fixed map; CN takes a non-empty looked-up name; every other case gives `{market}期货-{symbol}` |
| FuturesAnalyzer.RussellNeverNamed | futures_analyzer.py:287-293 | the three-letter key RTY can never match, so 罗素2000期货 is never produced for GLOBAL |
| FuturesAnalyzer.GlobalNameFromBaseCode | futures_analyzer.py:290-309 | "CL2412" is named 原油期货 and "RTY" gets the default name |
| FuturesAnalyzer.AnalyzeFutures | futures_analyzer.py:192-233 | a report is produced exactly when the data is fetched and has at least two rows; a fetch failure is passed on and a shorter frame fails with the IndexError text; the score, recommendation, classifier fields and open-interest change are those of the last row, the name is `get_futures_name`'s and the AI field is the base method's choice; an unsupported market fails |
| FuturesAnalyzer.SingleRowNotReported | futures_analyzer.py:205-206 | a one-row frame always fails |
| FuturesAnalyzer.ScanFuturesMarket | futures_analyzer.py:318-341 | the scan succeeds exactly when a list is given or the listing succeeds, and a failed listing passes its error on; otherwise the result is the passing reports, sorted stably in non-increasing order |
| ApiServer.FirstNonEmpty | api_server.py:54-55 | the first value unless it is empty, otherwise the second |
| ApiServer.ResolveSymbol | api_server.py:80-84 | symbol first, then futures_code, then futuresCode, taking the first non-empty one |
| ApiServer.MinScoreOf | api_server.py:61 | an absent field is 60; an explicit null stays null |
| ApiServer.StockAnalysisRequest.constructor | api_server.py:45-55 | stock_code falls back to stockCode; the market defaults to "A" |
| ApiServer.BatchStockAnalysisRequest.constructor | api_server.py:57-68 | the snake_case list falls back to the camelCase list only when it is empty; market "A"; min_score as MinScoreOf |
| ApiServer.FuturesAnalysisRequest.constructor | api_server.py:70-84 | the symbol is resolved as ResolveSymbol; the market defaults to "CN" |
| ApiServer.BatchFuturesAnalysisRequest.constructor | api_server.py:86-97 | the same list fallback; market "CN"; min_score as MinScoreOf |
| ApiServer.Respond | api_server.py:112-114 | a success becomes the data; every exception becomes HTTP 500 with its text |
| ApiServer.AnalyzeStockEndpoint | api_server.py:105-114 | returns the analysis, or HTTP 500 with its error; an empty code is not checked |
| ApiServer.AnalyzeFuturesEndpoint | api_server.py:139-153 | an empty symbol gives HTTP 500 with 期货代码不能为空 before any analysis; otherwise the analysis or its error |
| ApiServer.MissingSymbolRejected | api_server.py:143-145 | a body whose three code fields are all empty or absent is rejected, whatever the market |
| ApiServer.MarketStocksEndpoint | api_server.py:127-136 | an unsupported market gives HTTP 500 with the ValueError text |
| ApiServer.BatchAnalyzeStocks | api_server.py:116-125 | always a success: the ranked passing reports of the given list, and empty for an empty list |
| ApiServer.BatchAnalyzeFutures | api_server.py:155-173 | the loop keeps exactly the passing reports, in input order and unsorted |
| ApiServer.BatchFuturesKeepsOrder | api_server.py:160-168 | the result for two lists is the result for the first followed by the result for the second |
| ApiServer.NullMinimumKeepsNothing | api_server.py:164 | `"min_score": null` empties the batch result |
| Progress.WithDefaults | frontend/src/components/ui/analysis-progress.tsx:27-36 | absent props become currentStep 0, isApiLoading true, isApiError false and errorMessage ''; given props, the code among them, are kept |
| Progress.ErrorText | frontend/src/components/ui/analysis-progress.tsx:73 | the message when it is non-empty, otherwise 分析过程中出错 |
| Progress.WithStatus | frontend/src/components/ui/analysis-progress.tsx:83-85 | every step gets the given status, with its id, name and message kept |
| Progress.Advance | frontend/src/components/ui/analysis-progress.tsx:107-116 | the steps before the current one are completed, the current one is processing, and the later ones are unchanged |
| Progress.Next | frontend/src/components/ui/analysis-progress.tsx:52-118 | the six steps stay six, and a callback is added exactly when the stepper is visible, not in error, done loading and onComplete is given |
| Progress.Rendered | frontend/src/components/ui/analysis-progress.tsx:52-120 | a render keeps the six steps; the effect runs on the first render and when a dependency changed, otherwise the state is kept |
| Progress.SameDependenciesKeepState | frontend/src/components/ui/analysis-progress.tsx:120 | a re-render whose dependencies equal the previous render's, whatever onComplete is, changes nothing |
| Progress.NextKeepsLayout | frontend/src/components/ui/analysis-progress.tsx:38-45 | no branch changes the six steps' number, ids, names or order |
| Progress.HiddenResets | frontend/src/components/ui/analysis-progress.tsx:53-61 | hidden: all steps waiting, progress 0, index 0, and both flags false |
| Progress.ErrorMarksOneStep | frontend/src/components/ui/analysis-progress.tsx:64-78 | error: only the step at min(index, 5) changes, to an error with the message; hasError is set; progress, index, completion and callbacks are unchanged |
| Progress.ErrorBeatsCompletion | frontend/src/components/ui/analysis-progress.tsx:64-94 | an error that arrives together with the end of loading still shows an error step and schedules no callback |
| Progress.FinishCompletesAll | frontend/src/components/ui/analysis-progress.tsx:81-94 | finished: all steps completed, progress 100, completed, and one more callback exactly when onComplete is supplied |
| Progress.LoadingAdvances | frontend/src/components/ui/analysis-progress.tsx:97-117 | loading: index min(currentStep, 5), progress 20 per step, earlier steps completed, the current one processing, later steps unchanged |
| Progress.LoadingProgressMonotone | frontend/src/components/ui/analysis-progress.tsx:99-104 | loading progress is in [0, 100] and non-decreasing in currentStep; from step 5 on it is 100 while isCompleted is unchanged |
| Progress.ProgressStaysInRange | frontend/src/components/ui/analysis-progress.tsx:52-120 | progress in [0, 100] is preserved by every update |
| Progress.CallbackCanRepeat | frontend/src/components/ui/analysis-progress.tsx:52-120 | a first render and a re-render that both see loading finished with onComplete, where some dependency changed in between, schedule onComplete twice and leave the stepper completed |
| Progress.AnalysisProgress.constructor | frontend/src/components/ui/analysis-progress.tsx:38-49 | the initial state: six waiting steps in the fixed order, progress 0 and both flags false; no render has happened yet |
| Progress.AnalysisProgress.SetAll | frontend/src/components/ui/analysis-progress.tsx:83-85 | the array now holds every step with the new status |
| Progress.AnalysisProgress.AdvanceTo | frontend/src/components/ui/analysis-progress.tsx:107-116 | the array now holds `Advance` of the old steps: the steps before the current one completed, the current one processing, the later ones unchanged |
| Progress.AnalysisProgress.Update | frontend/src/components/ui/analysis-progress.tsx:52-120 | one run of the effect on the array and fields gives exactly the transition `Next`, and keeps the six-step layout |
| Progress.AnalysisProgress.Render | frontend/src/components/ui/analysis-progress.tsx:52-120 | a render of the component: the fields and array become `Rendered` of the old state with the previous props, and these props are remembered for the next render |
| Progress.RepeatedCompletion | frontend/src/components/ui/analysis-progress.tsx:52-120 | on the component: rendering the same finished props twice schedules one callback; a re-render with a new code schedules a second |
| Markdown.LineEnd | frontend/src/components/ui/ai-analysis-result.tsx:132 | the first line terminator from a position on, or the end of the text (the `m` flag's `$`) |
| Markdown.LineRuleKeepsBreaks | frontend/src/components/ui/ai-analysis-result.tsx:132-138 | with one-line tags, a line rule keeps every line terminator: the number of lines is unchanged |
| Markdown.LineRulesKeepBreaks | frontend/src/components/ui/ai-analysis-result.tsx:132-138 | the five line rules together keep the number of line terminators |
| Markdown.LineRuleOneLine | frontend/src/components/ui/ai-analysis-result.tsx:132-138 | on a single line a rule wraps the line exactly when it starts with the prefix |
| Markdown.LineRuleIdentity | frontend/src/components/ui/ai-analysis-result.tsx:132-138 | a rule whose prefix starts no line leaves the text unchanged |
| Markdown.LineRuleNoStart | frontend/src/components/ui/ai-analysis-result.tsx:132-138 | a one-line text that does not begin with the prefix's first character is unchanged |
| Markdown.FindClose | frontend/src/components/ui/ai-analysis-result.tsx:141-144 | the lazy `(.*?)` stops at the first closing delimiter, and never crosses a line terminator |
| Markdown.EmphasisIdentity | frontend/src/components/ui/ai-analysis-result.tsx:141-144 | text without the delimiter's first character is unchanged |
| Markdown.FindCloseAcross | frontend/src/components/ui/ai-analysis-result.tsx:141-144 | the closing delimiter is found across a stretch free of line terminators and of the delimiter |
| Markdown.BreakLines | frontend/src/components/ui/ai-analysis-result.tsx:147 | no '\n' is left; text without one is unchanged |
| Markdown.Format | frontend/src/components/ui/ai-analysis-result.tsx:126-150 | '' gives ''; no newline survives |
| Markdown.EmphasisRulesIdentity | frontend/src/components/ui/ai-analysis-result.tsx:141-144 | text without '*' and '_' is unchanged by the four emphasis rules |
| Markdown.FormatIdentity | frontend/src/components/ui/ai-analysis-result.tsx:129-149 | no escaping: text with no '#', '*', '_' or '\n' and no line opening with '- ' is returned unchanged |
| Markdown.TagUntouched | frontend/src/components/ui/ai-analysis-result.tsx:133-147 | the HTML a rule produces is left alone by every later rule |
| Markdown.Wraps | frontend/src/components/ui/ai-analysis-result.tsx:132-138 | a rule that fires on a plain line wraps its rest in the tags |
| Markdown.FormatH1 | frontend/src/components/ui/ai-analysis-result.tsx:132 | '# x' becomes an h1 |
| Markdown.FormatH2 | frontend/src/components/ui/ai-analysis-result.tsx:132-133 | '## x' becomes an h2, never an h1 |
| Markdown.FormatH3 | frontend/src/components/ui/ai-analysis-result.tsx:132-134 | '### x' becomes an h3 |
| Markdown.FormatDashItem | frontend/src/components/ui/ai-analysis-result.tsx:137 | '- x' becomes a list item |
| Markdown.FormatStarItem | frontend/src/components/ui/ai-analysis-result.tsx:138-143 | '* x' becomes a list item before the italic rule can see its asterisk |
| Markdown.BoldLineRules | frontend/src/components/ui/ai-analysis-result.tsx:132-138 | a '**x**' line is not taken for a list item |
| Markdown.BoldRule | frontend/src/components/ui/ai-analysis-result.tsx:141 | '**x**' becomes strong |
| Markdown.FormatBold | frontend/src/components/ui/ai-analysis-result.tsx:129-149 | '**x**' becomes `<strong>x</strong>` through the whole chain |
| Sections.HashFree | frontend/src/components/ui/ai-analysis-result.tsx:163 | the `[^#]+` run: the longest prefix without '#' |
| Sections.TitleStart | frontend/src/components/ui/ai-analysis-result.tsx:169 | `##?\s*`: the title begins after one or two '#' and the spaces, within the text |
| Sections.Summary | frontend/src/components/ui/ai-analysis-result.tsx:163-166 | a summary is non-empty, has no '#', and has no whitespace at either end |
| Sections.SummaryOfPlainText | frontend/src/components/ui/ai-analysis-result.tsx:163-166 | text without '#' gives its whole trimmed text when that is non-empty, and nothing otherwise |
| Sections.SummaryStopsAtHash | frontend/src/components/ui/ai-analysis-result.tsx:163 | the summary stops at the first '#': nothing after it matters |
| Sections.HashFreeHasNoSection | frontend/src/components/ui/ai-analysis-result.tsx:169 | text without '#' has no section |
| Sections.NewlineFrom | frontend/src/components/ui/ai-analysis-result.tsx:169 | `[^\n]*\n`: the first newline from a position on, if any |
| Sections.NewlineSkipsTitle | frontend/src/components/ui/ai-analysis-result.tsx:169 | the newline after a title is the first newline after the title's start |
| Sections.IsHeading | frontend/src/components/ui/ai-analysis-result.tsx:169 | a heading match starts with a '#' that is not the last character of the text |
| Sections.BodyStart | frontend/src/components/ui/ai-analysis-result.tsx:169 | the body starts after the heading's '#' and within the text |
| Sections.FirstHeading | frontend/src/components/ui/ai-analysis-result.tsx:169 | a position found is a heading |
| Sections.FirstHeadingIsLeftmost | frontend/src/components/ui/ai-analysis-result.tsx:169 | the leftmost match wins: no heading lies before the one found, and when none is found there is none |
| Sections.BodyEnd | frontend/src/components/ui/ai-analysis-result.tsx:169 | the lazy body ends at the first '##' or at the end of the text |
| Sections.Extract | frontend/src/components/ui/ai-analysis-result.tsx:169-172 | a section is non-empty and trimmed, and exists only when the text has a heading |
| Sections.Section | frontend/src/components/ui/ai-analysis-result.tsx:168-190 | a field's section is non-empty and trimmed, and exists only when the text has a heading with one of that field's titles |
| Sections.Parse | frontend/src/components/ui/ai-analysis-result.tsx:153-190 | every part found is non-empty with no whitespace at either end, and the summary holds no '#' |
| Sections.FormatPart | frontend/src/components/ui/ai-analysis-result.tsx:39-47 | a box is shown exactly when its part was found, and its HTML has no newline |
| Sections.OneLineHasNoSection | frontend/src/components/ui/ai-analysis-result.tsx:169 | a heading with no newline after it yields nothing |
| Sections.SynonymsWellTitled | frontend/src/components/ui/ai-analysis-result.tsx:169-187 | each field's synonyms are non-empty single-line titles that start with a word character |
| Sections.ExtractLeadingHeading | frontend/src/components/ui/ai-analysis-result.tsx:169-172 | '#' or '##', whitespace, a title line and a body running to the next '##' or the end give the trimmed body when it is non-empty; a single '#' does not end the body |
| Sections.SectionOfLeadingHeading | frontend/src/components/ui/ai-analysis-result.tsx:169-190 | the same for each of the four fields and its synonyms |
| Sections.VolumeHeadingFillsFundamental | frontend/src/components/ui/ai-analysis-result.tsx:175-178 | a '成交量分析' heading fills the fundamental field |
| Sections.Render | frontend/src/components/ui/ai-analysis-result.tsx:16-118 | empty content renders nothing; other content is shown whole, as Format of the content, exactly when no part is found, and otherwise in the structured layout, each box holding its formatted part |
| Sections.PlainAnswerIsSummary | frontend/src/components/ui/ai-analysis-result.tsx:34-51 | an answer without '#' shows only its formatted summary in the structured layout |
| Sections.HeadlineIsShownWhole | frontend/src/components/ui/ai-analysis-result.tsx:114-118 | a one-line answer that starts with '#' has no field and is shown whole, formatted |
| BatchForm.FieldLength | frontend/src/components/futures/batch-futures-analysis-form.tsx:24 | the longest prefix without a separator |
| BatchForm.SeparatorRun | frontend/src/components/futures/batch-futures-analysis-form.tsx:24 | the `+` run: the longest prefix of separators |
| BatchForm.Split | frontend/src/components/futures/batch-futures-analysis-form.tsx:24 | `split(/[\n,，\s]+/)` gives at least one piece, and no piece contains a separator |
| BatchForm.TrimAll | frontend/src/components/futures/batch-futures-analysis-form.tsx:25 | each piece trimmed, in place |
| BatchForm.NonEmpty | frontend/src/components/futures/batch-futures-analysis-form.tsx:26 | only non-empty pieces from the input remain, and no piece is added |
| BatchForm.Codes | frontend/src/components/futures/batch-futures-analysis-form.tsx:23-26 | no more codes than split pieces; each code is non-empty and is the trim of one of the pieces |
| BatchForm.JoinWithCommas | frontend/src/components/futures/batch-futures-analysis-form.tsx:23-26 | the codes written back separated by commas: empty for no code, and the text begins with the first code, followed by ',' when there are more |
| BatchForm.Tokens | frontend/src/components/futures/batch-futures-analysis-form.tsx:23-26 | the reference tokeniser (maximal separator-free runs): each token is non-empty and separator-free |
| BatchForm.CodesAreTokens | frontend/src/components/futures/batch-futures-analysis-form.tsx:23-26 | the split-trim-filter chain gives exactly the maximal runs, left to right |
| BatchForm.CodesAreClean | frontend/src/components/futures/batch-futures-analysis-form.tsx:24-26 | every code is non-empty and contains no newline, comma, full-width comma or whitespace |
| BatchForm.SeparatorsOnlyMeansNoCodes | frontend/src/components/futures/batch-futures-analysis-form.tsx:23-26 | text made only of separators yields no code |
| BatchForm.CodesConcat | frontend/src/components/futures/batch-futures-analysis-form.tsx:23-26 | order is kept: the codes of a, a separator, then b are the codes of a followed by those of b |
| BatchForm.CodesIdempotent | frontend/src/components/futures/batch-futures-analysis-form.tsx:23-26 | tokenising the comma-join of the codes gives the same list |
| BatchForm.SubmitEnabled | frontend/src/components/futures/batch-futures-analysis-form.tsx:82 | enabled exactly when not loading and the text is not all whitespace |
| BatchForm.DisabledMeansNoCodes | frontend/src/components/futures/batch-futures-analysis-form.tsx:23-26 | a button disabled for lack of text means no code could have been sent |
| BatchForm.CommaEnablesButSendsNothing | frontend/src/components/futures/batch-futures-analysis-form.tsx:82 | with "," the button is enabled, yet no code results |
| ResultViews.OrZero | frontend/src/components/stock/stock-analysis-result.tsx:76 | JavaScript's default to 0: the number when it is truthy, otherwise 0 |
| ResultViews.ScoreClass | frontend/src/components/stock/stock-analysis-result.tsx:15-19 | score-high exactly at 80 or above, score-medium exactly in [60, 80), and score-low below 60 |
| ResultViews.ScoreClassMonotone | frontend/src/components/futures/futures-analysis-result.tsx:15-19 | a higher score never shows in a lower band |
| ResultViews.PriceChangeClass | frontend/src/components/stock/stock-analysis-result.tsx:21-23 | market-up exactly when the change is ≥ 0, otherwise market-down |
| ResultViews.StockMarketName | frontend/src/components/stock/stock-analysis-result.tsx:33-40 | A, US and HK map to A股, 美股 and 港股; any other string is shown unchanged |
| ResultViews.FuturesMarketName | frontend/src/components/futures/futures-analysis-result.tsx:33-39 | CN and US map to 中国期货 and 美国期货; anything else, GLOBAL included, is shown unchanged |
| ResultViews.TrendLabel | frontend/src/components/stock/stock-analysis-result.tsx:93-103 | 上升 exactly for "UP", otherwise 下降 |
| ResultViews.MacdLabel | frontend/src/components/stock/stock-analysis-result.tsx:114-116 | 买入 exactly for "BUY", otherwise (HOLD included) 卖出 |
| ResultViews.VolumeLabel | frontend/src/components/stock/stock-analysis-result.tsx:120-122 | 放量 exactly for "HIGH", otherwise 正常 |
| ResultViews.LabelsOfBackendFields | frontend/src/components/futures/futures-analysis-result.tsx:92-121 | through the backend's classifiers, 上升 shows exactly when MA5 > MA20, 买入 exactly when MACD > signal, and 放量 exactly when the ratio exceeds 1.5 |
| ResultViews.StockView | frontend/src/components/stock/stock-analysis-result.tsx:13 | null data renders nothing; data always renders a card |
| ResultViews.PriceArrowAndColour | frontend/src/components/stock/stock-analysis-result.tsx:76-77 | for a number or null, the arrow points up exactly when the colour is up; a missing or NaN change is coloured up while the arrow points down |
| ResultViews.OpenInterestClass | frontend/src/components/futures/futures-analysis-result.tsx:142 | green exactly above 0, red exactly below 0, and no colour exactly when the value is falsy |
| ResultViews.OpenInterestSign | frontend/src/components/futures/futures-analysis-result.tsx:143 | 'N/A' exactly when falsy; '+' exactly above 0; no sign exactly below 0 |
| ResultViews.OpenInterestBarClass | frontend/src/components/futures/futures-analysis-result.tsx:148 | bg-green-500 exactly above 0, otherwise bg-red-500 |
| ResultViews.OpenInterestBarWidth | frontend/src/components/futures/futures-analysis-result.tsx:149 | in [0, 100]; 0 exactly for a missing or zero change; otherwise the magnitude, or 100 when the magnitude is 100 or more |
| ResultViews.BarWidthMonotone | frontend/src/components/futures/futures-analysis-result.tsx:149 | a larger change never gives a narrower bar |
| ResultViews.MissingOpenInterest | frontend/src/components/futures/futures-analysis-result.tsx:142-149 | a falsy value shows N/A without colour, over an empty red bar |
| ResultViews.FuturesView | frontend/src/components/futures/futures-analysis-result.tsx:13 | null data renders nothing; data always renders a card |
| ResultViews.OpenInterestColoursAgree | frontend/src/components/futures/futures-analysis-result.tsx:142-149 | for a non-zero change, the figure and the bar are both green or both not, with a sign and a non-empty bar |

## Left out

- Indicator maths (EMA, RSI, MACD, Bollinger bands, ATR, volume ratio,
  ROC, momentum, OI change) is pandas floating point. The scoring only
  compares these values, so each is an opaque `Frame.Float`.
- akshare data fetching (renaming, coercion, `dropna`, date sort) is a
  foreign library. Each fetch and listing is a parameter that returns
  rows or raises.
- The language-model HTTP calls, the prompt text and the `:.2f`
  formatting of the local report are I/O and number formatting. The
  call is a parameter, and the local report is reduced to its choices
  (`BaseAnalyzer.LocalSummary`).
- The name caches (JSON files) are file I/O. The result of a name
  lookup is a parameter.
- The date range argument of the data fetchers reads the clock, so it is
  not modelled.
- FastAPI routing, CORS, uvicorn and logging are framework glue. They
  are not modelled.
- `GET /api/futures/market-futures` calls `get_market_futures`, which the
  futures analyzer does not define (api_server.py:180, against
  futures_analyzer.py:343). The endpoint can only raise, so it is not
  modelled.
- Page-level orchestration is asynchronous timing and caching:
  `frontend/src/app/stock/page.tsx` and `frontend/src/app/futures/page.tsx`
  with their timers and react-query. The stepper receives its
  `currentStep` as a natural number.
- React's render loop is reduced to the dependency comparison of
  `Progress.Rendered`. Which renders happen, and when, is up to the page
  and is not modelled.
- The 1000 ms `onComplete` timeout is a count of scheduled callbacks;
  the delay itself is not modelled.
- The batch result tables repeat the result cards' helpers verbatim, so
  the helpers are modelled once, in `ResultViews`.
- The single-code forms, the navbar, the layouts, the query provider, the
  API client, `test_api.py` and `types/index.ts` are display code, glue or
  a network script.
- Screening.SortDesc: the in-place `list.sort(reverse=True)` is modelled
  as a pure stable insertion sort on sequences. Its output is proved
  sorted, a permutation and stable, which fixes it uniquely, but the
  in-place update is not modelled.
- JsText.LowerAscii and JsText.FoldCase fold ASCII letters only. Python's
  `lower()` and JavaScript's non-unicode `i` flag also fold other scripts.
  `LowerAscii` sees the whole `LLM_API_TYPE` environment string, and
  `FoldCase` sees every character of the answer, so both meet arbitrary
  text. The comparisons they feed still come out the same. In Python, the
  only non-ASCII characters whose lower case contains an ASCII letter are
  U+0130, which lowers to "i" followed by the non-ASCII U+0307, and U+212A
  KELVIN SIGN, which lowers to "k" and so to no type name. Under the
  non-unicode `i` flag, the Canonicalize operation of the RegExp semantics
  in ECMA-262 never maps a non-ASCII character to an ASCII one, and the CJK
  ideographs of the titles have no case mapping. `LowerAscii` keeps the
  length of the string, which `lower()` does not for U+0130. No comparison
  depends on that length.
- Strings are sequences of Unicode scalar values, not UTF-16 code units.
  Code units matter only for characters outside the Basic Multilingual
  Plane, which no rule here singles out.
- Floats in the reports (price, price change, RSI value) are only
  formatted; the report datatypes leave them out, except the
  open-interest change.
- Infinities, which pandas can produce from a division by a zero volume
  average, are not modelled: `Frame.Float` has NaN and reals only.
- `JsValue` models the JSON numbers the cards receive. How the backend's
  NaN values are serialised is FastAPI's business and is not modelled.
