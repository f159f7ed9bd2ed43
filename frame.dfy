/** The indicator values the analyzers read from the last rows of a pandas
    frame. The indicators themselves are floating-point results that this
    model does not compute; the scoring rules only compare them, so each one
    is an opaque value that is either a real number or NaN (rolling windows
    that are not full yet, a missing open-interest column). */
module Frame {

  /** The error pandas raises for `df.iloc[-1]` or `df.iloc[-2]` on a frame
      that is too short. */
  const IndexErrorText: string := "single positional indexer is out-of-bounds"

  /** A float64 as the scoring rules see it: every comparison that involves
      NaN is false, as in Python and pandas. */
  datatype Float = NaN | Finite(v: real)

  predicate Gt(a: Float, b: Float) {
    a.Finite? && b.Finite? && a.v > b.v
  }

  predicate Lt(a: Float, b: Float) {
    a.Finite? && b.Finite? && a.v < b.v
  }

  predicate Ge(a: Float, b: Float) {
    a.Finite? && b.Finite? && a.v >= b.v
  }

  predicate Le(a: Float, b: Float) {
    a.Finite? && b.Finite? && a.v <= b.v
  }

  /** No ordering holds between NaN and anything. */
  lemma NaNIncomparable(a: Float)
    ensures !Gt(a, NaN) && !Lt(a, NaN) && !Ge(a, NaN) && !Le(a, NaN)
    ensures !Gt(NaN, a) && !Lt(NaN, a) && !Ge(NaN, a) && !Le(NaN, a)
  {
  }

  /** One row of the frame after `calculate_indicators` (and, for futures,
      `calculate_futures_indicators`): the columns the scoring, the report
      and the local AI report read. */
  datatype Row = Row(
    close: Float,
    ma5: Float, ma20: Float, ma60: Float,
    rsi: Float,
    macd: Float, signal: Float, macdHist: Float,
    bbUpper: Float, bbLower: Float,
    volumeRatio: Float,
    volatility: Float,
    momentum: Float,
    oiChange: Float)
}
