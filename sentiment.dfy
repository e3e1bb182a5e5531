/** The news score: the mean sentiment of the kept headlines, scored under the overlaid lexicon. */
module Sentiment {
  import opened Common
  import opened Headlines
  import Lexicon
  import Config

  /** `sum(score for _, score in headlines)` */
  function SumScores(hs: seq<Headline>): real
  {
    if hs == [] then 0.0 else hs[0].score + SumScores(hs[1..])
  }

  /** The average score of the headlines, and exactly 0.0 when there are none. */
  function NewsScore(hs: seq<Headline>): (r: real)
    ensures hs == [] ==> r == 0.0
    ensures hs != [] ==> r * |hs| as real == SumScores(hs)
  {
    if hs == [] then 0.0 else SumScores(hs) / |hs| as real
  }

  predicate AllWithin(hs: seq<Headline>, lo: real, hi: real)
  {
    forall i :: 0 <= i < |hs| ==> lo <= hs[i].score <= hi
  }

  /** The sum of n scores in [lo, hi] lies in [n * lo, n * hi]. */
  lemma {:induction false} SumWithin(hs: seq<Headline>, lo: real, hi: real)
    requires AllWithin(hs, lo, hi)
    ensures |hs| as real * lo <= SumScores(hs) <= |hs| as real * hi
  {
    if hs != [] {
      assert AllWithin(hs[1..], lo, hi) by {
        forall i | 0 <= i < |hs[1..]| ensures lo <= hs[1..][i].score <= hi {
          assert hs[1..][i] == hs[i + 1];
        }
      }
      SumWithin(hs[1..], lo, hi);
      var n := |hs[1..]| as real;
      assert |hs| as real * lo == n * lo + lo;
      assert |hs| as real * hi == n * hi + hi;
    }
  }

  /** The mean of a non-empty list lies between any bounds that hold of every score. */
  lemma NewsScoreWithin(hs: seq<Headline>, lo: real, hi: real)
    requires hs != [] && AllWithin(hs, lo, hi)
    ensures lo <= NewsScore(hs) <= hi
  {
    SumWithin(hs, lo, hi);
    var n, r := |hs| as real, NewsScore(hs);
    assert r * n == SumScores(hs);
    assert n * lo <= r * n <= n * hi;
  }

  /** With every per-headline score in [-1, 1], so is the news score, including the empty case. */
  lemma NewsScoreBounded(hs: seq<Headline>)
    requires AllWithin(hs, -1.0, 1.0)
    ensures -1.0 <= NewsScore(hs) <= 1.0
  {
    if hs != [] {
      NewsScoreWithin(hs, -1.0, 1.0);
    }
  }

  /** A polarity function that keeps every compound score in [-1, 1], as the analyzer does. */
  ghost predicate BoundedPolarity(polarity: Polarity)
  {
    forall lexicon, text :: -1.0 <= polarity(lexicon, text) <= 1.0
  }

  /** Scored headlines inherit the polarity bound. */
  lemma ScoredWithin(es: seq<Entry>, lexicon: Lexicon.Table, polarity: Polarity)
    requires BoundedPolarity(polarity)
    ensures AllWithin(ScoreAll(es, lexicon, polarity), -1.0, 1.0)
  {
  }

  /**
   * `fetch_news_sentiment`: builds an analyzer on the base lexicon, overlays the gold lexicon,
   * filters and scores the headlines of all feeds, and averages the scores.
   */
  method FetchNewsSentiment(urls: seq<string>, fetch: string -> Option<seq<Entry>>, now: Timestamp,
                            base: Lexicon.Table, polarity: Polarity)
    returns (newsScore: real)
    ensures newsScore == NewsScore(ScoreAll(Kept(urls, fetch, Criteria(Cutoff(now), Config.RelevantKeywords)),
                                            Lexicon.Overlay(base, Config.GoldLexicon), polarity))
    ensures Kept(urls, fetch, Criteria(Cutoff(now), Config.RelevantKeywords)) == [] ==> newsScore == 0.0
    ensures BoundedPolarity(polarity) ==> -1.0 <= newsScore <= 1.0
  {
    var analyzer := new Lexicon.Analyzer(base);
    analyzer.UpdateLexicon(Config.GoldLexicon);
    var crit := Criteria(Cutoff(now), Config.RelevantKeywords);
    var headlines, _ := FilterHeadlines(urls, fetch, crit, analyzer.lexicon, polarity);
    if headlines == [] {
      newsScore := 0.0;
    } else {
      newsScore := SumScores(headlines) / |headlines| as real;
    }
    if BoundedPolarity(polarity) {
      ScoredWithin(Kept(urls, fetch, crit), analyzer.lexicon, polarity);
      NewsScoreBounded(headlines);
    }
  }
}
