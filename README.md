# Gold-trading bot: sentiment, decision and session model

A Dafny model of the decision core of a Telegram bot that trades gold
(XAUUSD). It covers three things:

- **News sentiment** (`get_news_sentiment`). Every headline adds +1 when its
  lower-cased title contains a bullish keyword and −1 when it contains a
  bearish one. A title can do both and then nets zero. The total maps to
  `BULLISH` (≥ 2), `BEARISH` (≤ −2) or `NEUTRAL`. A missing API key and every
  failure degrade to a tagged `NEUTRAL` label instead of an error.
- **The trade decision** (`analyze_market`). Four technical rules vote on the
  second-to-last rows of the daily (D1) and four-hour (H4) series:
  - close vs EMA-50 (±1);
  - MACD line vs signal line (±1);
  - last D1 close below the lower Bollinger band (+1) or above the upper one (−1).

  The sentiment label adds one more vote. A total of ≥ 2 gives `APRI LONG`,
  ≤ −2 gives `APRI SHORT`, and anything else gives `MANTIENI`. Missing data or
  an empty D1 series gives the `ERRORE` tuple.
- **The session state** (`bot_state`) and the handlers that change it: `start`,
  `stop`, `demo_mode`, `real_mode` and the hourly `market_analysis_job`. The
  job opens a position only when the bot runs, the decision is directional
  and no position is open. `status`, `balance` and `positions` only read the
  state.

Files:

- `optional.dfy`: the `Option` type.
- `pyfloat.dfy`: Python floats as `Finite(real) | NaN`. Every comparison with
  NaN is false, which matters during indicator warm-up.
- `text.dfy`: substring search (`in`), ASCII lowercasing and `" ".join`.
- `sentiment.dfy`: the `get_news_sentiment` model.
  - `SentimentOf` specifies the label.
  - `NewsSentiment` is the loop, proved against `SentimentOf`.
- `market_analysis.dfy`: the `analyze_market` model.
  - `Analyze` specifies the result.
  - `AnalyzeMarket` and `ScoreTechnical` build the score and the rationale
    step by step and are proved against it.
- `bot_session.dfy`: the session.
  - The class `BotState` has the fields of `bot_state`. Its methods are
    proved against the pure transition functions `Step` and
    `MarketAnalysisStep`.
  - `Run` folds `Step` over any sequence of commands and job runs. The
    single-slot invariant is proved over `Run`.

Inputs that the source obtains by I/O are parameters here:

- The market data is an `Option<Snapshot>` of indicator-annotated rows.
  `None` stands for the `None` that `get_market_data` returns.
- The API key is an `Option<string>`.
- The news search reply is the article list, or `Failed` when the client
  raises.
- `risk_management.calculate_sl_tp` is a function-typed argument with no
  contract.

## Model

| member | source | states |
|---|---|---|
| PyFloat.Gt | analysis.py:83 | Python's `a > b` on floats: true only when both are numbers and a is the larger, false whenever either is NaN |
| PyFloat.Lt | analysis.py:91 | Python's `a < b` on floats, with the same NaN rule |
| Text.OccursAt | analysis.py:49-50 | the keyword appears in the title starting at a given index |
| Text.ContainsSubstring | analysis.py:49-50 | Python's `keyword in title` on strings, as a scan from the left |
| Text.LowerChar | analysis.py:48 | lower-cases one ASCII capital and leaves every other character as it is |
| Text.Lower | analysis.py:48 | `.lower()` on ASCII text, one character at a time; the result has the length of the input |
| Text.JoinWithSpace | analysis.py:104 | `" ".join(mot_tecniche)`: the parts separated by single spaces, "" for no parts |
| Text.LowerAppend | analysis.py:48 | lower-casing works character by character, so it distributes over concatenation |
| Text.OccursAfterLower | analysis.py:48-50 | a word inside a title occurs, lower-cased, at the same index of the lower-cased title |
| Text.OccursInMiddle | analysis.py:49-50 | the middle part of a concatenation occurs right after the first part |
| Text.AbsentWithoutFirstChar | analysis.py:49-50 | a keyword whose first character is absent from the title does not occur in it |
| Text.ContainsSubstringIff | analysis.py:49-50 | `keyword in title` holds exactly when the keyword occurs at some index of the title |
| Sentiment.TitleText | analysis.py:48 | `article.get('title', '')` for a title that can be lower-cased: its text, or "" when the title is missing |
| Sentiment.Readable | analysis.py:47-48 | every title of the list is a string or missing, so `.lower()` succeeds on each of them |
| Sentiment.UnreadableAt | analysis.py:47-48 | one title that is not a string makes the whole article list fail `.lower()` |
| Sentiment.ReadableIff | analysis.py:47-48 | the list can be scored exactly when no title is a non-string |
| Sentiment.AnyKeyword | analysis.py:49-50 | `any(keyword in title for keyword in keywords)`: some keyword of the list is a substring of the title |
| Sentiment.Matches | analysis.py:48-50 | the article's title, read with `get('title', '')` and lower-cased, contains a keyword of the list |
| Sentiment.Contribution | analysis.py:48-50 | a title adds +1 iff it has a bullish keyword and no bearish one, −1 iff the reverse, and otherwise 0 |
| Sentiment.Score | analysis.py:43-50 | `sentiment_score` after the loop: 0 for no articles, plus each article's `Contribution` in order |
| Sentiment.CountMatching | analysis.py:49-50 | how many articles of the list match a keyword list, counted independently of the score |
| Sentiment.Label | analysis.py:52-54 | BULLISH iff score ≥ 2, BEARISH iff ≤ −2, NEUTRAL iff in between; the three cases are exhaustive and exclusive |
| Sentiment.KeyMissing | analysis.py:36 | `not NEWS_API_KEY`: the key is unset (`None`) or the empty string |
| Sentiment.SentimentOf | analysis.py:35-57 | the label is one of the five strings; a missing or empty key gives "NEUTRAL (API Key non configurata)"; with a key, a failed search or a reply with a non-string title gives "NEUTRAL (Errore API)", and a readable reply gives `Label(Score(articles))` |
| Sentiment.NewsSentiment | analysis.py:35-57 | the loop over the articles returns exactly `SentimentOf`, including the early exit on an unreadable title |
| Sentiment.NonTextTitleGivesApiError | analysis.py:48-57 | with a key, a non-string title at any index makes `.lower()` raise, and the reply yields "NEUTRAL (Errore API)" |
| Sentiment.ScoreIsBullishMinusBearish | analysis.py:43-50 | the score is (titles matching a bullish keyword) − (titles matching a bearish keyword) |
| Sentiment.ScoreBounds | analysis.py:47-50 | each headline moves the score by at most one |
| Sentiment.ScoreAppend | analysis.py:47-50 | the score is a sum over titles: the score of a concatenation is the sum of the scores |
| Sentiment.MatchesAt | analysis.py:48-50 | a keyword found at any position of the lower-cased title makes the title match that list |
| Sentiment.NetZeroWhenBoth | analysis.py:49-50 | a title matching both lists contributes 0 |
| Sentiment.MixedHeadlineNetsZero | analysis.py:48-50 | matching ignores case: any title holding "RALLY" and later "FALLS" nets 0 |
| MarketAnalysis.VerdictText | analysis.py:100-102 | the `decisione` strings "APRI LONG", "APRI SHORT", "MANTIENI" and, at analysis.py:76, "ERRORE" |
| MarketAnalysis.ErrorDecision | analysis.py:76 | the tuple for missing data: ERRORE, "Dati non disponibili.", "N/A" and no price, ATR or data; it is well-formed |
| MarketAnalysis.TrendVote | analysis.py:83-84 | the trend rule adds exactly +1 (close > EMA-50) or −1 (otherwise, NaN included) |
| MarketAnalysis.MomentumVote | analysis.py:87-88 | the momentum rule adds exactly +1 (MACD > signal) or −1 |
| MarketAnalysis.LowerBandVote | analysis.py:91 | the lower-band rule adds +1 iff the price is below the lower band, else 0 |
| MarketAnalysis.UpperBandVote | analysis.py:92 | the upper-band rule adds −1 iff the price is above the upper band, else 0 |
| MarketAnalysis.SentimentVote | analysis.py:97-98 | +1 only for exactly "BULLISH", −1 only for exactly "BEARISH", 0 for every other label |
| MarketAnalysis.TotalScore | analysis.py:80-98 | the total score lies in [−4, 4] |
| MarketAnalysis.VerdictFor | analysis.py:100-102 | APRI LONG iff score ≥ 2, APRI SHORT iff ≤ −2, MANTIENI iff in between |
| MarketAnalysis.Reasons | analysis.py:83-92 | `mot_tecniche`: the trend string, the MACD string, then each band string whose rule fires |
| MarketAnalysis.Fundamental | analysis.py:96 | `motivazione_fondamentale`, "Sentiment notizie: <label>." |
| MarketAnalysis.WellFormed | analysis.py:74-104 | the shapes of the returned tuple: ERRORE without price, ATR and data, every other verdict with all three |
| MarketAnalysis.Analyze | analysis.py:74-104 | the result is ERRORE exactly when data is missing or D1 is empty; an ERRORE tuple has no price, ATR or data and every other tuple has all three |
| MarketAnalysis.ScoreTechnical | analysis.py:80-92 | the step-by-step technical score is the sum of the four technical votes, and the rationale list is `Reasons` |
| MarketAnalysis.AnalyzeMarket | analysis.py:74-104 | the step-by-step procedure returns exactly `Analyze` of the data and the sentiment label |
| MarketAnalysis.DecisionUsesRecentRows | analysis.py:78-79 | verdict and rationale come from the second-to-last D1 and H4 rows and the last D1 close; price and ATR come from the last D1 row |
| MarketAnalysis.OlderRowsIgnored | analysis.py:78-79 | series agreeing on those rows get the same verdict, rationale, price and ATR |
| MarketAnalysis.ReasonsShape | analysis.py:83-92 | the rationale list holds one trend string, then one MACD string, then the lower-band and upper-band strings only when they fire; its length is 2 to 4 |
| MarketAnalysis.VerdictMonotone | analysis.py:100-102 | a higher score never gives a more bearish verdict |
| MarketAnalysis.BothBandsOnlyWhenInverted | analysis.py:91-92 | both band rules fire together only when the upper band lies below the lower one |
| MarketAnalysis.WarmUpBandsAreSilent | analysis.py:91-92 | with NaN bands (Bollinger warm-up) neither band rule fires |
| MarketAnalysis.SentimentFailureIsSilent | analysis.py:95-98 | a missing key, a failed search or a reply with a non-string title never moves the score |
| MarketAnalysis.SentimentVoteFollowsNewsScore | analysis.py:95-98 | the sentiment vote is +1 iff the news score is ≥ 2 and −1 iff it is ≤ −2 |
| MarketAnalysis.ScenarioNeutralOpensLong | analysis.py:74-104 | trend up, MACD up, price inside the bands and NEUTRAL news give APRI LONG at the last close |
| MarketAnalysis.ScenarioBearishHolds | analysis.py:74-104 | the same market with BEARISH news gives MANTIENI |
| MarketAnalysis.ScenarioEmptyDailySeries | analysis.py:76 | an empty D1 series gives the ERRORE tuple without a price |
| MarketAnalysis.OneDailyRowRaises | analysis.py:76-78 | as written: a one-row D1 series passes the emptiness guard and `iloc[-2]` raises |
| MarketAnalysis.ShortFourHourSeriesRaises | analysis.py:76-78 | as written: an H4 series with fewer than two rows raises although D1 is usable |
| MarketAnalysis.AnalyzeChecked | analysis.py:76-78 | corrected: ERRORE exactly when data is missing or a series has fewer than two rows; otherwise the same decision as the source |
| BotSession.ModeText | main_bot.py:36-42 | the stored and displayed mode strings "DEMO" and "REALE" |
| BotSession.InitialSession | main_bot.py:9-11 | the `bot_state` record at process start: not running, DEMO, 10000.0, no open positions, no closed trades |
| BotSession.JobInputOk | main_bot.py:66 | the job receives what `analyze_market` can return: a raised exception or a well-formed tuple |
| BotSession.FirstOpen | main_bot.py:26-27 | `open_positions[0]`, the position `status` and `positions` show, or none when the list is empty |
| BotSession.DirectionOf | main_bot.py:72 | `"LONG" if "LONG" in decisione else "SHORT"`, as a substring test on the verdict string |
| BotSession.MarketAnalysisStep | main_bot.py:63-83 | one run of the job in the source's branch order: stopped or raised, nothing; ERRORE, the error message; a position open, "already open"; a directional verdict, append the position built from the price, the direction and `calculate_sl_tp`; otherwise the hold notice |
| BotSession.Step | main_bot.py:13-42 | the session after one command or job run: `start`/`stop` set the running flag, `demo_mode`/`real_mode` set the mode, a job run is `MarketAnalysisStep` |
| BotSession.Run | main_bot.py:13-83 | the session after a sequence of commands and job runs, applied oldest first |
| BotSession.DirectionMatchesVerdict | main_bot.py:72 | `"LONG" in decisione` sends APRI LONG long and APRI SHORT short |
| BotSession.JobOpensOnlyIntoEmptySlot | main_bot.py:63-83 | the job changes the session iff the bot runs, the decision is directional and no position is open; it then holds exactly one position with the verdict's direction at the returned price |
| BotSession.JobKeepsAccounts | main_bot.py:63-83 | the job never writes the running flag, mode, balance or closed trades, and never drops an open position |
| BotSession.JobMessages | main_bot.py:63-83 | no message when stopped or when the analysis raised; the error message on ERRORE; "already open" when a position exists; the hold notice on MANTIENI; on opening, the new signal carrying the opened position and both rationales |
| BotSession.RunKeepsSingleSlot | main_bot.py:69-75 | after any sequence of commands and job runs at most one position is open |
| BotSession.RunNeverCloses | main_bot.py:63-83 | no sequence of commands and job runs removes a position, changes the balance or records a closed trade |
| BotSession.ShortSeriesReportsError | main_bot.py:66-68 | with the corrected analysis, a too-short series reaches a running job as ERRORE: it sends "Dati non disponibili." and leaves the session unchanged |
| BotSession.SingleSlotFromStart | main_bot.py:11 | from the initial state, at most one position and the balance stays 10000.0 |
| BotSession.BotState.State | main_bot.py:11 | the contents of the `bot_state` record as one session value |
| BotSession.BotState.Valid | main_bot.py:69-75 | the single-slot invariant: at most one open position |
| BotSession.BotState.constructor | main_bot.py:9-11 | the initial state: not running, DEMO, balance 10000.0, no positions, no closed trades |
| BotSession.BotState.Start | main_bot.py:13-14 | sets the running flag and changes nothing else |
| BotSession.BotState.Stop | main_bot.py:19-20 | clears the running flag and changes nothing else |
| BotSession.BotState.DemoMode | main_bot.py:36-38 | sets the mode to DEMO and changes nothing else |
| BotSession.BotState.RealMode | main_bot.py:40-42 | sets the mode to REALE and changes nothing else |
| BotSession.BotState.Status | main_bot.py:24-34 | reports the running flag, the mode as "DEMO" or "REALE", the balance and the first open position, changing nothing |
| BotSession.BotState.Balance | main_bot.py:44-45 | reports the balance, changing nothing |
| BotSession.BotState.Positions | main_bot.py:48-61 | reports the first open position, or none when there is none, changing nothing |
| BotSession.BotState.MarketAnalysisJob | main_bot.py:63-83 | the in-place job keeps the single-slot invariant, leaves the state of `MarketAnalysisStep` and sends its message |
| BotSession.SecondSignalIsIgnored | main_bot.py:69-75 | a long signal followed by a short signal leaves the single long position and answers "already open" |

## Left out

- The indicator computations (EMA, RSI, ATR, MACD, Bollinger bands) are floating-point pandas rolling and exponential means. Their outputs are row fields given as inputs. RSI and EMA-200 are computed but never read by the decision.
- The market-data download, the 4-hour resampling and `get_market_data`'s exception handling are library I/O. The model receives their result, or `None`.
- The NewsAPI client call and its query are network I/O. The model receives the article list, or `Failed` for any exception it raises. A reply that is a dictionary without an `articles` entry also raises, and is folded into `Failed` too.
- `print` and `logging` are not modelled.
- The Telegram plumbing is not modelled: message texts and their Markdown and currency formatting, `reply_text`, `send_message`, job scheduling and removal in `start` and `stop`, and `main`. Messages are modelled by kind and payload (`Message`).
- `risk_management.calculate_sl_tp` is not part of this model. It is an uninterpreted function argument, so nothing is claimed about stop loss or take profit. Exceptions it might raise are not modelled.
- Text.Lower: only ASCII letters are lowercased. Python's `str.lower` also folds non-ASCII letters, so a keyword hidden behind a non-ASCII capital is not modelled.
- Python floats: infinities and the floating-point rounding of the compared values are not modelled. Comparisons are exact on reals, and NaN compares false.
- MarketAnalysis.ScoreTechnical is the first half of `analyze_market`'s body, split out as its own method. The order of the updates is unchanged.
- `analyze_market` raising from `iloc[-2]` is `Outcome.Raised`. The job then stops without a message and without changing the state. The exception's propagation through the job queue is not modelled.
- Concurrency between handlers is not modelled. The scheduled job and the command handlers may interleave at `await` points, but every handler makes its whole state update before its first `await` (main_bot.py:14, 20, 37, 41, 64-75), so each update is modelled as one atomic step.

## Findings

| source | as written | input that shows it | evidently intended | confidence | as-written member | corrected member |
|---|---|---|---|---|---|---|
| analysis.py:76-78 | the guard rejects only missing data and an empty D1 series, then indexes `iloc[-2]` on both series | a D1 series of one row, or an H4 series of fewer than two rows beside a usable D1 series: `IndexError` escapes `analyze_market` | such data is "not available" and yields the ERRORE tuple | medium, not executed | MarketAnalysis.OneDailyRowRaises | MarketAnalysis.AnalyzeChecked |
