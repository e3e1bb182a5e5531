/** The fixed configuration of the analyzer: feeds, keywords, tickers, recency window, weights and the gold lexicon. */
module Config {

  /** The news feeds, fetched in this order. */
  const NewsFeeds: seq<string> := [
    "https://www.kitco.com/rss/all.xml",
    "https://www.fxstreet.com/rss/news",
    "https://www.investing.com/rss/news_285.rss",
    "https://www.dailyfx.com/rss/gold",
    "https://www.forexlive.com/feed/news"
  ]

  /** A headline is relevant when its lower-cased title contains one of these. */
  const RelevantKeywords: seq<string> := [
    "gold", "xau", "xauusd", "precious metal",
    "fed", "federal reserve", "powell", "fomc",
    "inflation", "cpi", "ppi", "pce", "deflation",
    "rate", "interest rate", "rate cut", "rate hike",
    "dollar", "dxy", "usd", "greenback",
    "safe-haven", "safe haven", "haven",
    "geopolitical", "war", "conflict", "tension",
    "treasury", "yield", "bond",
    "nfp", "employment", "unemployment", "jobs",
    "recession", "crisis", "uncertainty", "volatility",
    "central bank", "stimulus", "tapering", "qe"
  ]

  /** Only headlines published within this many hours before now are considered. */
  const RecencyHours: int := 2

  const DollarTicker: string := "DX-Y.NYB"
  const YieldTicker: string := "^TNX"
  const VixTicker: string := "^VIX"

  /** Weights of the four signals in the final score. */
  const NewsWeight: real := 0.60
  const DollarWeight: real := 0.20
  const YieldWeight: real := 0.10
  const VixWeight: real := 0.10

  /** Domain phrases and their intensities, laid over the general sentiment lexicon. */
  const GoldLexicon: map<string, real> := map[
    // bullish for gold
    "rate cut" := 3.5, "cut rates" := 3.5, "cutting rates" := 3.0,
    "dovish" := 3.0, "dovish fed" := 3.5, "dovish stance" := 3.0,
    "weak dollar" := 3.2, "dollar weakness" := 3.2, "weaker dollar" := 3.0,
    "inflation" := 2.5, "high inflation" := 3.0, "rising inflation" := 2.8,
    "inflation surge" := 3.0, "inflation soars" := 3.2,
    "geopolitical" := 2.5, "geopolitical risk" := 3.0, "geopolitical tension" := 3.0,
    "uncertainty" := 2.3, "economic uncertainty" := 2.8,
    "crisis" := 3.0, "financial crisis" := 3.5, "banking crisis" := 3.5,
    "safe-haven" := 3.5, "safe haven" := 3.5, "haven demand" := 3.2,
    "risk-off" := 2.8, "risk aversion" := 2.8,
    "recession" := 2.5, "recession fears" := 3.0, "recession risk" := 2.8,
    "war" := 3.0, "conflict" := 2.5, "military" := 2.0,
    "stimulus" := 2.5, "easing" := 2.5, "accommodation" := 2.3,
    "quantitative easing" := 3.0, "qe" := 2.8,
    "gold rally" := 3.5, "gold surge" := 3.5, "gold bullish" := 3.2,
    "buying gold" := 2.5, "gold demand" := 2.5,
    // bearish for gold
    "rate hike" := -3.5, "hike rates" := -3.5, "raising rates" := -3.0,
    "hawkish" := -3.0, "hawkish fed" := -3.5, "hawkish stance" := -3.0,
    "strong dollar" := -3.2, "dollar strength" := -3.2, "stronger dollar" := -3.0,
    "tapering" := -2.5, "taper" := -2.3, "tightening" := -2.5,
    "risk-on" := -2.8, "risk appetite" := -2.5,
    "strong economy" := -2.0, "robust growth" := -1.8, "economic strength" := -2.0,
    "dollar rally" := -3.0, "dxy surge" := -3.0,
    "yields rise" := -2.5, "rising yields" := -2.5, "higher yields" := -2.3,
    "gold falls" := -3.0, "gold drops" := -3.0, "gold bearish" := -3.2,
    "selling gold" := -2.5, "gold selloff" := -3.0
  ]

  /** The weights form a convex combination. */
  lemma WeightsSumToOne()
    ensures NewsWeight + DollarWeight + YieldWeight + VixWeight == 1.0
    ensures 0.0 <= NewsWeight && 0.0 <= DollarWeight && 0.0 <= YieldWeight && 0.0 <= VixWeight
  {
  }

  /** No keyword is empty, so the empty title matches none of them. */
  lemma KeywordsNonEmpty()
    ensures forall k :: k in RelevantKeywords ==> |k| > 0
  {
  }
}
