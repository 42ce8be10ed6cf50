/**
 * News sentiment (analysis.py, `get_news_sentiment`): every headline of the
 * news search adds +1 when its lower-cased title contains a bullish keyword
 * and -1 when it contains a bearish one; the total is mapped onto BULLISH,
 * BEARISH or NEUTRAL with thresholds of +2 and -2. A missing API key and
 * every failure degrade to a tagged NEUTRAL label instead of an error.
 */
module Sentiment {
  import opened Optional
  import opened Text

  const BullishKeywords: seq<string> := ["rally", "rises", "safe-haven", "surges", "demand", "cut rates"]
  const BearishKeywords: seq<string> := ["falls", "drops", "pressure", "strong dollar", "hike rates"]

  const Bullish: string := "BULLISH"
  const Bearish: string := "BEARISH"
  const Neutral: string := "NEUTRAL"
  const NeutralNoKey: string := "NEUTRAL (API Key non configurata)"
  const NeutralApiError: string := "NEUTRAL (Errore API)"

  /**
   * The `title` entry of one article: missing (read as ""), a string, or a
   * value that is not a string (a JSON null), on which `.lower()` raises.
   */
  datatype Title = Absent | NonText | Present(s: string)

  datatype Article = Article(title: Title)

  /**
   * What the news search hands back: its article list, or a failure (the
   * client raised, the network failed, or the reply had no article list).
   */
  datatype NewsResponse = Articles(articles: seq<Article>) | Failed

  /** `article.get('title', '')`, for titles on which `.lower()` succeeds. */
  function TitleText(t: Title): string
  {
    match t
    case Present(s) => s
    case _ => ""
  }

  /** Every title of `arts` can be lower-cased. */
  predicate Readable(arts: seq<Article>)
  {
    arts == [] || (Readable(arts[..|arts| - 1]) && !arts[|arts| - 1].title.NonText?)
  }

  /** One title that cannot be lower-cased makes the whole list unreadable. */
  lemma {:induction false} UnreadableAt(arts: seq<Article>, i: nat)
    requires i < |arts| && arts[i].title.NonText?
    ensures !Readable(arts)
    decreases |arts|
  {
    if i < |arts| - 1 {
      assert arts[..|arts| - 1][i] == arts[i];
      UnreadableAt(arts[..|arts| - 1], i);
    }
  }

  /** Readable lists are exactly those without a non-string title. */
  lemma {:induction false} ReadableIff(arts: seq<Article>)
    ensures Readable(arts) <==> forall i :: 0 <= i < |arts| ==> !arts[i].title.NonText?
    decreases |arts|
  {
    if arts != [] {
      var init := arts[..|arts| - 1];
      ReadableIff(init);
      if Readable(arts) {
        forall i | 0 <= i < |arts| ensures !arts[i].title.NonText? {
          if i < |init| {
            assert init[i] == arts[i];
          }
        }
      } else {
        if !arts[|arts| - 1].title.NonText? {
          var i :| 0 <= i < |init| && init[i].title.NonText?;
          UnreadableAt(arts, i);
        }
      }
    }
  }

  /** `any(keyword in title for keyword in keywords)`. */
  predicate AnyKeyword(title: string, keywords: seq<string>)
  {
    exists k :: k in keywords && ContainsSubstring(title, k)
  }

  /** The lower-cased title of `a` contains one of `keywords`. */
  predicate Matches(a: Article, keywords: seq<string>)
  {
    AnyKeyword(Lower(TitleText(a.title)), keywords)
  }

  /** What one article adds to the score, decided from its own title alone. */
  function Contribution(a: Article): (c: int)
    ensures -1 <= c <= 1
    ensures c == 1 <==> Matches(a, BullishKeywords) && !Matches(a, BearishKeywords)
    ensures c == -1 <==> Matches(a, BearishKeywords) && !Matches(a, BullishKeywords)
  {
    (if Matches(a, BullishKeywords) then 1 else 0) - (if Matches(a, BearishKeywords) then 1 else 0)
  }

  /** The sentiment score: the sum of the contributions of the articles. */
  function Score(arts: seq<Article>): int
  {
    if arts == [] then 0 else Score(arts[..|arts| - 1]) + Contribution(arts[|arts| - 1])
  }

  /** How many articles of `arts` match one of `keywords`. */
  function CountMatching(arts: seq<Article>, keywords: seq<string>): nat
  {
    if arts == [] then 0
    else CountMatching(arts[..|arts| - 1], keywords) + (if Matches(arts[|arts| - 1], keywords) then 1 else 0)
  }

  /** The label for a score: three exhaustive and mutually exclusive cases. */
  function Label(score: int): (r: string)
    ensures r == Bullish <==> score >= 2
    ensures r == Bearish <==> score <= -2
    ensures r == Neutral <==> -2 < score < 2
  {
    if score >= 2 then Bullish
    else if score <= -2 then Bearish
    else Neutral
  }

  /** The environment leaves the API key unset or empty (`not NEWS_API_KEY`). */
  predicate KeyMissing(apiKey: Option<string>)
  {
    apiKey.None? || apiKey.value == ""
  }

  /** The label `get_news_sentiment` returns for a key and a search reply. */
  function SentimentOf(apiKey: Option<string>, news: NewsResponse): (r: string)
    ensures r in {Bullish, Bearish, Neutral, NeutralNoKey, NeutralApiError}
    ensures KeyMissing(apiKey) ==> r == NeutralNoKey
    ensures !KeyMissing(apiKey) && news.Failed? ==> r == NeutralApiError
    ensures !KeyMissing(apiKey) && news.Articles? && !Readable(news.articles) ==> r == NeutralApiError
    ensures !KeyMissing(apiKey) && news.Articles? && Readable(news.articles) ==> r == Label(Score(news.articles))
  {
    if KeyMissing(apiKey) then NeutralNoKey
    else match news
      case Failed => NeutralApiError
      case Articles(arts) => if Readable(arts) then Label(Score(arts)) else NeutralApiError
  }

  /** `get_news_sentiment`, with the key and the search reply as inputs. */
  method NewsSentiment(apiKey: Option<string>, news: NewsResponse) returns (result: string)
    ensures result == SentimentOf(apiKey, news)
  {
    if KeyMissing(apiKey) {
      return NeutralNoKey;
    }
    if news.Failed? {
      return NeutralApiError;
    }
    var arts := news.articles;
    var score := 0;
    var i := 0;
    while i < |arts|
      invariant 0 <= i <= |arts|
      invariant Readable(arts[..i])
      invariant score == Score(arts[..i])
    {
      if arts[i].title.NonText? {
        UnreadableAt(arts, i);
        return NeutralApiError;
      }
      var title := Lower(TitleText(arts[i].title));
      ghost var before := score;
      if AnyKeyword(title, BullishKeywords) {
        score := score + 1;
      }
      if AnyKeyword(title, BearishKeywords) {
        score := score - 1;
      }
      assert score == before + Contribution(arts[i]);
      assert arts[..i + 1][..i] == arts[..i];
      assert Score(arts[..i + 1]) == Score(arts[..i]) + Contribution(arts[i]);
      i := i + 1;
    }
    assert arts[..i] == arts;
    assert SentimentOf(apiKey, news) == Label(score);
    if score >= 2 {
      return Bullish;
    }
    if score <= -2 {
      return Bearish;
    }
    return Neutral;
  }

  /**
   * A title that is not a string anywhere in the reply makes `.lower()`
   * raise; the handler catches it and the whole search reads as an API error.
   */
  lemma NonTextTitleGivesApiError(apiKey: Option<string>, arts: seq<Article>, i: nat)
    requires !KeyMissing(apiKey)
    requires i < |arts| && arts[i].title.NonText?
    ensures SentimentOf(apiKey, Articles(arts)) == NeutralApiError
  {
    UnreadableAt(arts, i);
  }

  /** The score counts bullish headlines up and bearish headlines down. */
  lemma {:induction false} ScoreIsBullishMinusBearish(arts: seq<Article>)
    ensures Score(arts) == CountMatching(arts, BullishKeywords) - CountMatching(arts, BearishKeywords)
  {
    if arts != [] {
      ScoreIsBullishMinusBearish(arts[..|arts| - 1]);
    }
  }

  /** Each headline moves the score by at most one. */
  lemma {:induction false} ScoreBounds(arts: seq<Article>)
    ensures -|arts| <= Score(arts) <= |arts|
  {
    if arts != [] {
      ScoreBounds(arts[..|arts| - 1]);
    }
  }

  /** The score is a sum over articles: splitting the list splits the score. */
  lemma {:induction false} ScoreAppend(a: seq<Article>, b: seq<Article>)
    ensures Score(a + b) == Score(a) + Score(b)
    decreases |b|
  {
    if b == [] {
      assert a + b == a;
    } else {
      var b' := b[..|b| - 1];
      assert (a + b)[..|a + b| - 1] == a + b';
      ScoreAppend(a, b');
    }
  }

  /** A keyword occurring in the lower-cased title makes the article match. */
  lemma MatchesAt(a: Article, keywords: seq<string>, k: string, i: nat)
    requires k in keywords
    requires OccursAt(Lower(TitleText(a.title)), k, i)
    ensures Matches(a, keywords)
  {
    ContainsSubstringIff(Lower(TitleText(a.title)), k);
  }

  /** A title carrying both kinds of keyword contributes nothing. */
  lemma NetZeroWhenBoth(a: Article)
    requires Matches(a, BullishKeywords) && Matches(a, BearishKeywords)
    ensures Contribution(a) == 0
  {
  }

  /**
   * Matching ignores case: whatever surrounds them, a title carrying "RALLY"
   * and later "FALLS" matches both lists and nets zero.
   */
  lemma MixedHeadlineNetsZero(pre: string, mid: string, post: string)
    ensures Contribution(Article(Present(pre + "RALLY" + mid + "FALLS" + post))) == 0
  {
    var title := pre + "RALLY" + mid + "FALLS" + post;
    var a := Article(Present(title));
    assert Lower("RALLY") == "rally";
    assert Lower("FALLS") == "falls";
    assert title == pre + "RALLY" + (mid + "FALLS" + post);
    OccursAfterLower(pre, "RALLY", mid + "FALLS" + post);
    MatchesAt(a, BullishKeywords, "rally", |pre|);
    assert title == (pre + "RALLY" + mid) + "FALLS" + post;
    OccursAfterLower(pre + "RALLY" + mid, "FALLS", post);
    MatchesAt(a, BearishKeywords, "falls", |pre + "RALLY" + mid|);
    NetZeroWhenBoth(a);
  }
}
