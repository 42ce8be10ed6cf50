/**
 * The trade decision (analysis.py, `analyze_market`). Four rules each cast a
 * vote on the second-to-last bar of the daily (D1) and four-hour (H4) series:
 * the D1 close against its 50-period EMA, the H4 MACD line against its
 * signal line, and the last D1 close against the H4 Bollinger bands. The news
 * sentiment label adds a fifth vote. A total of +2 or more opens a long
 * position, -2 or less a short one, anything else holds.
 *
 * The indicator series themselves are inputs: each row carries the values
 * pandas attached to it.
 */
module MarketAnalysis {
  import opened Optional
  import opened PyFloat
  import opened Text
  import opened Sentiment

  /** The four values of `decisione`. */
  datatype Verdict = OpenLong | OpenShort | Hold | Error

  /** The decision strings: "APRI LONG", "APRI SHORT", "MANTIENI", "ERRORE". */
  function VerdictText(v: Verdict): string
  {
    match v
    case OpenLong => "APRI LONG"
    case OpenShort => "APRI SHORT"
    case Hold => "MANTIENI"
    case Error => "ERRORE"
  }

  /** One daily row: close, `EMA_50` and `ATR_14`. */
  datatype D1Row = D1Row(close: Float, ema50: Float, atr14: Float)

  /** One four-hour row: `MACD_line`, `MACD_signal`, `BBU` and `BBL`. */
  datatype H4Row = H4Row(macdLine: Float, macdSignal: Float, bbUpper: Float, bbLower: Float)

  /** The two indicator-annotated series, oldest row first. */
  datatype Snapshot = Snapshot(d1: seq<D1Row>, h4: seq<H4Row>)

  /**
   * The six-element tuple `analyze_market` returns: the verdict, the
   * technical rationale (the rationale list joined by spaces), the
   * fundamental rationale, the last D1 close, the last D1 ATR and the data.
   */
  datatype Decision = Decision(
    verdict: Verdict,
    technical: string,
    fundamental: string,
    price: Option<Float>,
    atr: Option<Float>,
    data: Option<Snapshot>)

  /**
   * Either the tuple, or the `IndexError` that `iloc[-2]` raises on a series
   * with fewer than two rows; `analyze_market` does not catch it.
   */
  datatype Outcome = Decided(decision: Decision) | Raised

  const TrendLong: string := "Trend D1 LONG."
  const TrendShort: string := "Trend D1 SHORT."
  const MacdLong: string := "MACD H4 LONG."
  const MacdShort: string := "MACD H4 SHORT."
  const BelowLowerBand: string := "Prezzo sotto Bollinger Band (segnale LONG)."
  const AboveUpperBand: string := "Prezzo sopra Bollinger Band (segnale SHORT)."

  /**
   * The tuple returned when no market data is available: ERRORE with the
   * rationale "Dati non disponibili.", "N/A" and no price, ATR or data.
   */
  function ErrorDecision(): (d: Decision)
    ensures d.verdict == Error && WellFormed(d)
  {
    Decision(Error, "Dati non disponibili.", "N/A", None, None, None)
  }

  /** The trend vote: D1 close above its EMA-50 is long, anything else short. */
  function TrendVote(d1: D1Row): (v: int)
    ensures v == 1 || v == -1
    ensures v == 1 <==> Gt(d1.close, d1.ema50)
  {
    if Gt(d1.close, d1.ema50) then 1 else -1
  }

  /** The momentum vote: H4 MACD line above its signal is long, anything else short. */
  function MomentumVote(h4: H4Row): (v: int)
    ensures v == 1 || v == -1
    ensures v == 1 <==> Gt(h4.macdLine, h4.macdSignal)
  {
    if Gt(h4.macdLine, h4.macdSignal) then 1 else -1
  }

  /** A price under the lower band votes long; otherwise the rule is silent. */
  function LowerBandVote(price: Float, h4: H4Row): (v: int)
    ensures v == 0 || v == 1
    ensures v == 1 <==> Lt(price, h4.bbLower)
  {
    if Lt(price, h4.bbLower) then 1 else 0
  }

  /** A price over the upper band votes short; otherwise the rule is silent. */
  function UpperBandVote(price: Float, h4: H4Row): (v: int)
    ensures v == 0 || v == -1
    ensures v == -1 <==> Gt(price, h4.bbUpper)
  {
    if Gt(price, h4.bbUpper) then -1 else 0
  }

  /**
   * Only the exact labels "BULLISH" and "BEARISH" vote; every other string,
   * the tagged NEUTRAL fallbacks included, adds nothing.
   */
  function SentimentVote(sentiment: string): (v: int)
    ensures -1 <= v <= 1
    ensures v == 1 <==> sentiment == Bullish
    ensures v == -1 <==> sentiment == Bearish
  {
    if sentiment == Bullish then 1
    else if sentiment == Bearish then -1
    else 0
  }

  /** The total score: the sum of the five votes. */
  function TotalScore(d1: D1Row, h4: H4Row, price: Float, sentiment: string): (score: int)
    ensures -4 <= score <= 4
  {
    TrendVote(d1) + MomentumVote(h4) + LowerBandVote(price, h4) + UpperBandVote(price, h4) + SentimentVote(sentiment)
  }

  /** The verdict for a score, with thresholds +2 and -2; never `Error`. */
  function VerdictFor(score: int): (v: Verdict)
    ensures v == OpenLong <==> score >= 2
    ensures v == OpenShort <==> score <= -2
    ensures v == Hold <==> -2 < score < 2
  {
    if score >= 2 then OpenLong
    else if score <= -2 then OpenShort
    else Hold
  }

  /** The rationale list, in rule order. */
  function Reasons(d1: D1Row, h4: H4Row, price: Float): seq<string>
  {
    [if Gt(d1.close, d1.ema50) then TrendLong else TrendShort]
    + [if Gt(h4.macdLine, h4.macdSignal) then MacdLong else MacdShort]
    + (if Lt(price, h4.bbLower) then [BelowLowerBand] else [])
    + (if Gt(price, h4.bbUpper) then [AboveUpperBand] else [])
  }

  /** "Sentiment notizie: <label>." */
  function Fundamental(sentiment: string): string
  {
    "Sentiment notizie: " + sentiment + "."
  }

  /**
   * A decision tuple as `analyze_market` can produce it: the error tuple
   * carries no price, ATR or data, and every other one carries all three.
   */
  predicate WellFormed(d: Decision)
  {
    (d.verdict == Error) == d.price.None?
    && (d.verdict == Error) == d.atr.None?
    && (d.verdict == Error) == d.data.None?
  }

  /**
   * What `analyze_market` returns for the market data and the sentiment
   * label: the error tuple without data, `Raised` when `iloc[-2]` falls
   * outside a series, otherwise the scored decision.
   */
  function Analyze(data: Option<Snapshot>, sentiment: string): (o: Outcome)
    ensures o.Decided? ==> WellFormed(o.decision)
    ensures o.Decided? && o.decision.verdict == Error <==> data.None? || |data.value.d1| == 0
  {
    if data.None? || |data.value.d1| == 0 then Decided(ErrorDecision())
    else if |data.value.d1| < 2 || |data.value.h4| < 2 then Raised
    else
      var d1 := data.value.d1[|data.value.d1| - 2];
      var h4 := data.value.h4[|data.value.h4| - 2];
      var current := data.value.d1[|data.value.d1| - 1];
      Decided(Decision(
        VerdictFor(TotalScore(d1, h4, current.close, sentiment)),
        JoinWithSpace(Reasons(d1, h4, current.close)),
        Fundamental(sentiment),
        Some(current.close),
        Some(current.atr14),
        data))
  }

  /**
   * The technical half of `analyze_market`: the trend, momentum and band
   * rules applied in order, each adjusting the score and appending its
   * rationale.
   */
  method ScoreTechnical(d1: D1Row, h4: H4Row, price: Float) returns (score: int, reasons: seq<string>)
    ensures score == TrendVote(d1) + MomentumVote(h4) + LowerBandVote(price, h4) + UpperBandVote(price, h4)
    ensures reasons == Reasons(d1, h4, price)
  {
    score, reasons := 0, [];

    if Gt(d1.close, d1.ema50) {
      score, reasons := score + 1, reasons + [TrendLong];
    } else {
      score, reasons := score - 1, reasons + [TrendShort];
    }

    if Gt(h4.macdLine, h4.macdSignal) {
      score, reasons := score + 1, reasons + [MacdLong];
    } else {
      score, reasons := score - 1, reasons + [MacdShort];
    }

    if Lt(price, h4.bbLower) {
      score, reasons := score + 1, reasons + [BelowLowerBand];
    }
    if Gt(price, h4.bbUpper) {
      score, reasons := score - 1, reasons + [AboveUpperBand];
    }
  }

  /**
   * `analyze_market`: fetch-free, with the market data, the API key and the
   * news search reply as inputs. The score and the rationale list are built
   * rule by rule as in the source.
   */
  method AnalyzeMarket(data: Option<Snapshot>, apiKey: Option<string>, news: NewsResponse) returns (o: Outcome)
    ensures o == Analyze(data, SentimentOf(apiKey, news))
  {
    if data.None? || |data.value.d1| == 0 {
      return Decided(ErrorDecision());
    }
    var snapshot := data.value;
    if |snapshot.d1| < 2 || |snapshot.h4| < 2 {
      return Raised;
    }
    var d1, h4 := snapshot.d1[|snapshot.d1| - 2], snapshot.h4[|snapshot.h4| - 2];
    var current := snapshot.d1[|snapshot.d1| - 1];
    var score, reasons := ScoreTechnical(d1, h4, current.close);

    var sentiment := NewsSentiment(apiKey, news);
    var fundamental := Fundamental(sentiment);
    if sentiment == Bullish {
      score := score + 1;
    } else if sentiment == Bearish {
      score := score - 1;
    }

    var verdict := Hold;
    if score >= 2 {
      verdict := OpenLong;
    } else if score <= -2 {
      verdict := OpenShort;
    }
    return Decided(Decision(verdict, JoinWithSpace(reasons), fundamental, Some(current.close), Some(current.atr14), data));
  }

  /**
   * As written, the emptiness guard lets a one-row daily series through, and
   * `iloc[-2]` then raises instead of yielding the error tuple.
   */
  lemma OneDailyRowRaises(row: D1Row, h4: seq<H4Row>, sentiment: string)
    ensures Analyze(Some(Snapshot([row], h4)), sentiment) == Raised
  {
  }

  /** Likewise a four-hour series with fewer than two rows beside usable daily data. */
  lemma ShortFourHourSeriesRaises(d1: seq<D1Row>, h4: seq<H4Row>, sentiment: string)
    requires |d1| >= 2 && |h4| < 2
    ensures Analyze(Some(Snapshot(d1, h4)), sentiment) == Raised
  {
  }

  /**
   * The evidently intended behaviour: every series too short to index at
   * `-2` yields the error tuple, and all other inputs are decided exactly as
   * the source decides them.
   */
  function AnalyzeChecked(data: Option<Snapshot>, sentiment: string): (d: Decision)
    ensures WellFormed(d)
    ensures d.verdict == Error <==> data.None? || |data.value.d1| < 2 || |data.value.h4| < 2
    ensures Analyze(data, sentiment).Decided? ==> d == Analyze(data, sentiment).decision
  {
    if data.None? || |data.value.d1| < 2 || |data.value.h4| < 2 then ErrorDecision()
    else Analyze(data, sentiment).decision
  }

  /**
   * The rationale list opens with exactly one trend entry and one MACD entry;
   * the lower-band entry and then the upper-band entry follow only when their
   * rule fires.
   */
  lemma ReasonsShape(d1: D1Row, h4: H4Row, price: Float)
    ensures var r := Reasons(d1, h4, price);
      && 2 <= |r| <= 4
      && r[0] == (if Gt(d1.close, d1.ema50) then TrendLong else TrendShort)
      && r[1] == (if Gt(h4.macdLine, h4.macdSignal) then MacdLong else MacdShort)
      && |r| == 2 + (if Lt(price, h4.bbLower) then 1 else 0) + (if Gt(price, h4.bbUpper) then 1 else 0)
      && (Lt(price, h4.bbLower) ==> r[2] == BelowLowerBand)
      && (Gt(price, h4.bbUpper) ==> r[|r| - 1] == AboveUpperBand)
  {
  }

  /**
   * Which rows a decision reads: the trend and momentum rules see the
   * second-to-last row of each series, the band rules compare the last daily
   * close with the second-to-last four-hour bands, and the price and ATR
   * come from the last daily row.
   */
  lemma DecisionUsesRecentRows(d1: seq<D1Row>, h4: seq<H4Row>, sentiment: string)
    requires |d1| >= 2 && |h4| >= 2
    ensures var o := Analyze(Some(Snapshot(d1, h4)), sentiment);
      && o.Decided?
      && o.decision.verdict == VerdictFor(TotalScore(d1[|d1| - 2], h4[|h4| - 2], d1[|d1| - 1].close, sentiment))
      && o.decision.technical == JoinWithSpace(Reasons(d1[|d1| - 2], h4[|h4| - 2], d1[|d1| - 1].close))
      && o.decision.fundamental == Fundamental(sentiment)
      && o.decision.price == Some(d1[|d1| - 1].close)
      && o.decision.atr == Some(d1[|d1| - 1].atr14)
  {
  }

  /**
   * Rows older than those are never looked at: two series that agree on the
   * last two daily rows and the second-to-last four-hour row get the same
   * verdict, rationale, price and ATR.
   */
  lemma OlderRowsIgnored(d1: seq<D1Row>, h4: seq<H4Row>, d1': seq<D1Row>, h4': seq<H4Row>, sentiment: string)
    requires |d1| >= 2 && |h4| >= 2 && |d1'| >= 2 && |h4'| >= 2
    requires d1[|d1| - 2..] == d1'[|d1'| - 2..]
    requires h4[|h4| - 2] == h4'[|h4'| - 2]
    ensures var o, o' := Analyze(Some(Snapshot(d1, h4)), sentiment), Analyze(Some(Snapshot(d1', h4')), sentiment);
      o.decision.verdict == o'.decision.verdict
      && o.decision.technical == o'.decision.technical
      && o.decision.price == o'.decision.price
      && o.decision.atr == o'.decision.atr
  {
  }

  /** The position of a trade verdict in the order short, hold, long. */
  function Rank(v: Verdict): int
    requires v != Error
  {
    match v
    case OpenShort => -1
    case Hold => 0
    case OpenLong => 1
  }

  /** A higher score never yields a more bearish verdict. */
  lemma VerdictMonotone(lo: int, hi: int)
    requires lo <= hi
    ensures Rank(VerdictFor(lo)) <= Rank(VerdictFor(hi))
  {
  }

  /** The lower and upper band rules fire together only on inverted bands. */
  lemma BothBandsOnlyWhenInverted(price: Float, h4: H4Row)
    requires LowerBandVote(price, h4) == 1 && UpperBandVote(price, h4) == -1
    ensures h4.bbUpper.Finite? && h4.bbLower.Finite? && h4.bbUpper.value < h4.bbLower.value
  {
  }

  /** During the Bollinger warm-up (NaN bands) the band rules are silent. */
  lemma WarmUpBandsAreSilent(price: Float, h4: H4Row)
    requires h4.bbUpper.NaN? && h4.bbLower.NaN?
    ensures LowerBandVote(price, h4) == 0 && UpperBandVote(price, h4) == 0
  {
  }

  /**
   * A failed or unconfigured news search, or a reply with a title that is
   * not a string, never moves the score.
   */
  lemma SentimentFailureIsSilent(apiKey: Option<string>, news: NewsResponse)
    requires KeyMissing(apiKey) || news.Failed? || !Readable(news.articles)
    ensures SentimentVote(SentimentOf(apiKey, news)) == 0
  {
  }

  /**
   * The sentiment label feeds the score through its own threshold: a news
   * score of +2 or more adds one, -2 or less takes one away.
   */
  lemma SentimentVoteFollowsNewsScore(apiKey: Option<string>, arts: seq<Article>)
    requires !KeyMissing(apiKey) && Readable(arts)
    ensures SentimentVote(SentimentOf(apiKey, Articles(arts))) == 1 <==> Score(arts) >= 2
    ensures SentimentVote(SentimentOf(apiKey, Articles(arts))) == -1 <==> Score(arts) <= -2
  {
  }

  // Scenario rows: a daily row with an ATR of 15, and a four-hour row whose
  // Bollinger bands are fixed at 2000 and 2100.

  function D1Scenario(close: real, ema50: real): D1Row
  {
    D1Row(Finite(close), Finite(ema50), Finite(15.0))
  }

  function H4Scenario(macdLine: real, macdSignal: real): H4Row
  {
    H4Row(Finite(macdLine), Finite(macdSignal), Finite(2100.0), Finite(2000.0))
  }

  /**
   * Trend up (2050 over 2000), MACD up (1.2 over 0.8), the last close 2060
   * inside the bands and a NEUTRAL label: score 2, open long.
   */
  lemma ScenarioNeutralOpensLong()
    ensures
      var o := Analyze(Some(Snapshot([D1Scenario(2050.0, 2000.0), D1Scenario(2060.0, 2010.0)], [H4Scenario(1.2, 0.8), H4Scenario(1.0, 1.1)])), Neutral);
      o.Decided? && o.decision.verdict == OpenLong && o.decision.price == Some(Finite(2060.0))
  {
  }

  /** The same market with a BEARISH label: score 1, hold. */
  lemma ScenarioBearishHolds()
    ensures
      var o := Analyze(Some(Snapshot([D1Scenario(2050.0, 2000.0), D1Scenario(2060.0, 2010.0)], [H4Scenario(1.2, 0.8), H4Scenario(1.0, 1.1)])), Bearish);
      o.Decided? && o.decision.verdict == Hold
  {
  }

  /** An empty daily series: the error tuple, without a price. */
  lemma ScenarioEmptyDailySeries(h4: seq<H4Row>, sentiment: string)
    ensures Analyze(Some(Snapshot([], h4)), sentiment) == Decided(ErrorDecision())
    ensures ErrorDecision().verdict == Error && ErrorDecision().price.None?
  {
  }
}
