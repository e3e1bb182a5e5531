/** The final score: weighted blend of the four signals, clamped, with a market-bias label. */
module Aggregator {
  import opened Common
  import Config
  import Lexicon
  import opened Headlines
  import opened Sentiment
  import opened Indicators

  /** The weighted sum of the four signals, before clamping. */
  function WeightedSum(news: real, dollar: real, yld: real, vix: real): real
  {
    news * Config.NewsWeight + dollar * Config.DollarWeight + yld * Config.YieldWeight + vix * Config.VixWeight
  }

  predicate InUnit(x: real) { -1.0 <= x <= 1.0 }

  /** Since the weights are non-negative and sum to one, signals in [-1, 1] give a sum in [-1, 1]. */
  lemma WeightedSumBounded(news: real, dollar: real, yld: real, vix: real)
    requires InUnit(news) && InUnit(dollar) && InUnit(yld) && InUnit(vix)
    ensures InUnit(WeightedSum(news, dollar, yld, vix))
  {
    Config.WeightsSumToOne();
  }

  /** The clamped weighted score; the clamp changes nothing when every signal is in range. */
  function FinalScore(news: real, dollar: real, yld: real, vix: real): (r: real)
    ensures InUnit(r)
    ensures InUnit(news) && InUnit(dollar) && InUnit(yld) && InUnit(vix) ==>
      r == WeightedSum(news, dollar, yld, vix)
  {
    Clamp(WeightedSum(news, dollar, yld, vix))
  }

  datatype Bias = StronglyBullish | Bullish | Neutral | Bearish | StronglyBearish

  /** Position of a bias from most bearish (0) to most bullish (4). */
  function Rank(b: Bias): int
  {
    match b
    case StronglyBearish => 0
    case Bearish => 1
    case Neutral => 2
    case Bullish => 3
    case StronglyBullish => 4
  }

  /**
   * The market-bias chain, first match wins. Every band is closed at the top and open at the
   * bottom, so -0.2 is bearish and -0.5 is strongly bearish.
   */
  function Classify(score: real): (b: Bias)
    ensures b == StronglyBullish <==> score > 0.5
    ensures b == Bullish <==> 0.2 < score <= 0.5
    ensures b == Neutral <==> -0.2 < score <= 0.2
    ensures b == Bearish <==> -0.5 < score <= -0.2
    ensures b == StronglyBearish <==> score <= -0.5
  {
    if score > 0.5 then StronglyBullish
    else if score > 0.2 then Bullish
    else if score > -0.2 then Neutral
    else if score > -0.5 then Bearish
    else StronglyBearish
  }

  /** A higher score never gets a more bearish label. */
  lemma ClassifyMonotone(a: real, b: real)
    requires a <= b
    ensures Rank(Classify(a)) <= Rank(Classify(b))
  {
  }

  /** Full news sentiment with the other signals neutral is 0.6, which is strongly bullish. */
  lemma NewsOnlyExample()
    ensures FinalScore(1.0, 0.0, 0.0, 0.0) == 0.6 && Classify(0.6) == StronglyBullish
  {
  }

  /** The per-signal breakdown of one run. */
  datatype MarketContext = MarketContext(
    newsScore: real, dollarSignal: real, yieldSignal: real, vixSignal: real,
    finalScore: real, bias: Bias)

  /**
   * `calculate_market_context`: gathers the four signals, blends them, clamps and labels them.
   * Feeds and price histories are fetched through `fetch` and `history`; `now` is the clock.
   */
  method CalculateMarketContext(fetch: string -> Option<seq<Entry>>, history: string -> History,
                                now: Timestamp, base: Lexicon.Table, polarity: Polarity)
    returns (ctx: MarketContext)
    ensures ctx.newsScore == NewsScore(ScoreAll(
      Kept(Config.NewsFeeds, fetch, Criteria(Cutoff(now), Config.RelevantKeywords)),
      Lexicon.Overlay(base, Config.GoldLexicon), polarity))
    ensures ctx.dollarSignal == DollarSignal(history(Config.DollarTicker))
    ensures ctx.yieldSignal == YieldSignal(history(Config.YieldTicker))
    ensures ctx.vixSignal == VixSignal(history(Config.VixTicker))
    ensures ctx.finalScore == FinalScore(ctx.newsScore, ctx.dollarSignal, ctx.yieldSignal, ctx.vixSignal)
    ensures InUnit(ctx.finalScore) && ctx.bias == Classify(ctx.finalScore)
    ensures BoundedPolarity(polarity) ==>
      ctx.finalScore == WeightedSum(ctx.newsScore, ctx.dollarSignal, ctx.yieldSignal, ctx.vixSignal)
  {
    var newsScore := FetchNewsSentiment(Config.NewsFeeds, fetch, now, base, polarity);
    var dollarScore := DollarSignal(history(Config.DollarTicker));
    var yieldScore := YieldSignal(history(Config.YieldTicker));
    var vixScore := VixSignal(history(Config.VixTicker));
    var finalScore := Clamp(WeightedSum(newsScore, dollarScore, yieldScore, vixScore));
    var bias := Classify(finalScore);
    ctx := MarketContext(newsScore, dollarScore, yieldScore, vixScore, finalScore, bias);
  }
}
