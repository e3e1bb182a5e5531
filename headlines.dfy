/** The headline filter: recency, relevance and case-insensitive de-duplication over the feed entries. */
module Headlines {
  import opened Common
  import opened Text
  import Config
  import Lexicon
  import Dedup

  /** Seconds since the epoch, UTC. */
  type Timestamp = int

  /** One raw feed entry; each field may be missing. */
  datatype Entry = Entry(title: Option<string>, published: Option<Timestamp>, updated: Option<Timestamp>)

  /** A kept headline: its original title and the sentiment score given to it. */
  datatype Headline = Headline(title: string, score: real)

  /** The sentiment analyzer's compound score for a text under a lexicon. */
  type Polarity = (Lexicon.Table, string) -> real

  /** `entry.get('title', '')` */
  function TitleOf(e: Entry): string
  {
    match e.title
    case Some(t) => t
    case None => ""
  }

  /** `entry.get('published_parsed') or entry.get('updated_parsed')` */
  function PubDate(e: Entry): Option<Timestamp>
  {
    if e.published.Some? then e.published else e.updated
  }

  /** Identity of a headline for de-duplication: its lower-cased title. */
  function Key(e: Entry): string
  {
    Lower(TitleOf(e))
  }

  /** Start of the recency window for a run started at `now`. */
  function Cutoff(now: Timestamp): Timestamp
  {
    now - Config.RecencyHours * 3600
  }

  /** What an entry is checked against: the start of the recency window and the relevance keywords. */
  datatype Criteria = Criteria(cutoff: Timestamp, keywords: seq<string>)

  /** An entry is stale only when it has a date and that date is before the cutoff. */
  predicate IsRecent(e: Entry, cutoff: Timestamp)
  {
    match PubDate(e)
    case None => true
    case Some(t) => !(t < cutoff)
  }

  /** `any(kw in title_lower for kw in RELEVANT_KEYWORDS)`, for a given keyword list */
  predicate IsRelevant(titleLower: string, keywords: seq<string>)
  {
    exists kw :: kw in keywords && Contains(titleLower, kw)
  }

  /** The entry survives the recency and keyword checks. */
  predicate Passes(e: Entry, crit: Criteria)
  {
    IsRecent(e, crit.cutoff) && IsRelevant(Key(e), crit.keywords)
  }

  /** The recency and relevance test as a function value. */
  function Keep(crit: Criteria): Entry -> bool
  {
    e => Passes(e, crit)
  }

  /**
   * The entries the filter keeps from `es`, when the titles in `seen` were already taken.
   * A title is marked as seen only once its entry has passed the other checks.
   */
  function Select(es: seq<Entry>, crit: Criteria, seen: set<string>): seq<Entry>
  {
    Dedup.FirstOfEach(es, Keep(crit), Key, seen)
  }

  /** The entries a fetch result contributes: none when the fetch failed. */
  function EntriesOf(feed: Option<seq<Entry>>): seq<Entry>
  {
    match feed
    case Some(es) => es
    case None => []
  }

  /** All entries of all feeds, in feed order. */
  function FeedEntries(urls: seq<string>, fetch: string -> Option<seq<Entry>>): seq<Entry>
  {
    if urls == [] then [] else EntriesOf(fetch(urls[0])) + FeedEntries(urls[1..], fetch)
  }

  /** The entries one run keeps. */
  function Kept(urls: seq<string>, fetch: string -> Option<seq<Entry>>, crit: Criteria): seq<Entry>
  {
    Select(FeedEntries(urls, fetch), crit, {})
  }

  /** A kept entry's headline: the original title and the analyzer's score of that title. */
  function Score(e: Entry, lexicon: Lexicon.Table, polarity: Polarity): Headline
  {
    Headline(TitleOf(e), polarity(lexicon, TitleOf(e)))
  }

  /** Each kept entry paired with the score of its title. */
  function ScoreAll(es: seq<Entry>, lexicon: Lexicon.Table, polarity: Polarity): (hs: seq<Headline>)
    ensures |hs| == |es|
    ensures forall i :: 0 <= i < |es| ==> hs[i] == Score(es[i], lexicon, polarity)
  {
    if es == [] then [] else [Score(es[0], lexicon, polarity)] + ScoreAll(es[1..], lexicon, polarity)
  }

  /** Sum of per-feed counters. */
  function Total(cs: seq<nat>): nat
  {
    if cs == [] then 0 else Total(cs[..|cs| - 1]) + cs[|cs| - 1]
  }

  /** The lower-cased titles of a sequence of entries. */
  function Keys(es: seq<Entry>): set<string>
  {
    Dedup.KeySet(es, Key)
  }

  // ---------------------------------------------------------------------------
  // Properties of the filter

  /**
   * Every kept entry is recent (a dated one is not before the cutoff), relevant, and has a
   * title that was not already seen.
   */
  lemma SelectSound(es: seq<Entry>, crit: Criteria, seen: set<string>)
    ensures forall e :: e in Select(es, crit, seen) ==>
      Passes(e, crit) && Key(e) !in seen && (PubDate(e).Some? ==> PubDate(e).value >= crit.cutoff)
  {
    Dedup.FirstOfEachSound(es, Keep(crit), Key, seen);
  }

  /**
   * The recency test against the window of one run: an entry is dropped for its age only when
   * it is dated more than two hours before `now`; one dated exactly 7200 s before is kept.
   */
  lemma RecentWithinTwoHours(e: Entry, now: Timestamp)
    ensures IsRecent(e, Cutoff(now)) <==> PubDate(e).None? || now - PubDate(e).value <= 7200
  {
  }

  /**
   * Of the passing entries sharing a lower-cased title, the first one is kept: its original
   * title, with its own letter case, is the one scored. A later case variant is kept only if it
   * is that very same entry.
   */
  lemma CaseVariantDropped(es: seq<Entry>, crit: Criteria, seen: set<string>, i: nat, j: nat)
    requires i < j < |es|
    requires Passes(es[i], crit) && Key(es[i]) !in seen
    requires forall q :: 0 <= q < i && Passes(es[q], crit) ==> Key(es[q]) != Key(es[i])
    requires Key(es[j]) == Key(es[i])
    ensures es[i] in Select(es, crit, seen)
    ensures es[j] in Select(es, crit, seen) ==> es[j] == es[i]
  {
    Dedup.FirstOfEachKeepsFirst(es, Keep(crit), Key, seen, i);
    var r := Select(es, crit, seen);
    if es[j] in r {
      Dedup.FirstOfEachDistinct(es, Keep(crit), Key, seen);
      var a :| 0 <= a < |r| && r[a] == es[i];
      var b :| 0 <= b < |r| && r[b] == es[j];
      assert a == b;
    }
  }

  /** An entry with an empty or missing title is never kept when no keyword is empty. */
  lemma EmptyTitleNeverKept(es: seq<Entry>, crit: Criteria, seen: set<string>)
    requires forall kw :: kw in crit.keywords ==> |kw| > 0
    ensures forall e :: e in Select(es, crit, seen) ==> TitleOf(e) != ""
  {
    SelectSound(es, crit, seen);
    forall e | e in Select(es, crit, seen) ensures TitleOf(e) != "" {
      if TitleOf(e) == "" {
        assert false;
      }
    }
  }

  /** With the configured keywords, a headline with an empty or missing title is never kept. */
  lemma ConfiguredFilterDropsEmptyTitles(es: seq<Entry>, now: Timestamp)
    ensures forall e :: e in Select(es, Criteria(Cutoff(now), Config.RelevantKeywords), {}) ==> TitleOf(e) != ""
  {
    Config.KeywordsNonEmpty();
    EmptyTitleNeverKept(es, Criteria(Cutoff(now), Config.RelevantKeywords), {});
  }

  /** An undated entry is never dropped for being stale: only relevance and duplication decide. */
  lemma UndatedKeptWhenRelevant(e: Entry, rest: seq<Entry>, crit: Criteria, seen: set<string>)
    requires PubDate(e).None?
    requires IsRelevant(Key(e), crit.keywords) && Key(e) !in seen
    ensures Select([e] + rest, crit, seen) == [e] + Select(rest, crit, seen + {Key(e)})
  {
    assert ([e] + rest)[1..] == rest;
  }

  lemma ScoreAllAppend(a: seq<Entry>, b: seq<Entry>, lexicon: Lexicon.Table, polarity: Polarity)
    ensures ScoreAll(a + b, lexicon, polarity) == ScoreAll(a, lexicon, polarity) + ScoreAll(b, lexicon, polarity)
  {
    var l, r := ScoreAll(a + b, lexicon, polarity), ScoreAll(a, lexicon, polarity) + ScoreAll(b, lexicon, polarity);
    forall i | 0 <= i < |a + b| ensures l[i] == r[i] {
      if i >= |a| { assert (a + b)[i] == b[i - |a|]; }
    }
  }

  // ---------------------------------------------------------------------------
  // The filter as the analyzer runs it

  /**
   * The body of the inner loop of `fetch_news_sentiment` for one entry: a stale entry, one whose
   * lower-cased title holds no keyword, and one whose lower-cased title was seen are skipped;
   * otherwise the title is marked seen and the headline appended with its score.
   */
  method ConsiderEntry(entry: Entry, crit: Criteria, lexicon: Lexicon.Table, polarity: Polarity,
                       seen0: set<string>, headlines0: seq<Headline>)
    returns (taken: bool, seen: set<string>, headlines: seq<Headline>)
    ensures taken <==> Passes(entry, crit) && Key(entry) !in seen0
    ensures taken ==> seen == seen0 + {Key(entry)} && headlines == headlines0 + [Score(entry, lexicon, polarity)]
    ensures !taken ==> seen == seen0 && headlines == headlines0
  {
    taken, seen, headlines := false, seen0, headlines0;
    var title := TitleOf(entry);
    var titleLower := Lower(title);
    var pubDate := PubDate(entry);
    if pubDate.Some? && pubDate.value < crit.cutoff {
      return;
    }
    if !IsRelevant(titleLower, crit.keywords) {
      return;
    }
    if titleLower in seen {
      return;
    }
    seen := seen + {titleLower};
    var score := polarity(lexicon, title);
    headlines := headlines + [Headline(title, score)];
    taken := true;
  }

  /**
   * The inner loop of `fetch_news_sentiment` over one feed's entries: skips stale, irrelevant and
   * already seen titles, marks each kept title as seen, appends it with its score and counts it.
   */
  method ScanFeed(entries: seq<Entry>, crit: Criteria, lexicon: Lexicon.Table, polarity: Polarity,
                  seen0: set<string>, headlines0: seq<Headline>)
    returns (seen: set<string>, headlines: seq<Headline>, feedCount: nat)
    ensures headlines == headlines0 + ScoreAll(Select(entries, crit, seen0), lexicon, polarity)
    ensures seen == seen0 + Keys(Select(entries, crit, seen0))
    ensures feedCount == |Select(entries, crit, seen0)|
  {
    seen, headlines, feedCount := seen0, headlines0, 0;
    ghost var kept: seq<Entry> := [];
    var j := 0;
    while j < |entries|
      invariant 0 <= j <= |entries|
      invariant kept + Select(entries[j..], crit, seen) == Select(entries, crit, seen0)
      invariant seen == seen0 + Keys(kept)
      invariant headlines == headlines0 + ScoreAll(kept, lexicon, polarity)
      invariant feedCount == |kept|
    {
      var entry := entries[j];
      ScanStep(entries, j, kept, crit, seen);
      var taken: bool;
      taken, seen, headlines := ConsiderEntry(entry, crit, lexicon, polarity, seen, headlines);
      if taken {
        KeptOneMore(kept, entry, lexicon, polarity);
        kept := kept + [entry];
        feedCount := feedCount + 1;
      }
      j := j + 1;
    }
    assert entries[j..] == [];
    assert kept + [] == kept;
  }

  /** How one more entry moves the loop of ScanFeed along `Select`. */
  lemma ScanStep(entries: seq<Entry>, j: nat, kept: seq<Entry>, crit: Criteria, seen: set<string>)
    requires j < |entries|
    ensures Select(entries[j..], crit, seen) ==
      if Passes(entries[j], crit) && Key(entries[j]) !in seen
      then [entries[j]] + Select(entries[j + 1..], crit, seen + {Key(entries[j])})
      else Select(entries[j + 1..], crit, seen)
    ensures kept + ([entries[j]] + Select(entries[j + 1..], crit, seen + {Key(entries[j])})) ==
      (kept + [entries[j]]) + Select(entries[j + 1..], crit, seen + {Key(entries[j])})
  {
    assert entries[j..] == [entries[j]] + entries[j + 1..];
    Dedup.FirstOfEachCons(entries[j], entries[j + 1..], Keep(crit), Key, seen);
  }

  /** Appending one kept entry extends the scored headlines and the seen titles by that entry alone. */
  lemma KeptOneMore(kept: seq<Entry>, e: Entry, lexicon: Lexicon.Table, polarity: Polarity)
    ensures ScoreAll(kept + [e], lexicon, polarity) == ScoreAll(kept, lexicon, polarity) + [Score(e, lexicon, polarity)]
    ensures Keys(kept + [e]) == Keys(kept) + {Key(e)}
  {
    ScoreAllAppend(kept, [e], lexicon, polarity);
    Dedup.KeySetAppendOne(kept, e, Key);
  }

  lemma FeedEntriesStep(urls: seq<string>, i: nat, fetch: string -> Option<seq<Entry>>)
    requires i < |urls|
    ensures FeedEntries(urls[i..], fetch) == EntriesOf(fetch(urls[i])) + FeedEntries(urls[i + 1..], fetch)
  {
    assert urls[i..][0] == urls[i] && urls[i..][1..] == urls[i + 1..];
  }

  /** Scanning one feed extends what is kept by that feed's survivors, and the rest goes on from there. */
  lemma AfterFeed(kept: seq<Entry>, es: seq<Entry>, rest: seq<Entry>, crit: Criteria, seen: set<string>)
    ensures (kept + Select(es, crit, seen)) + Select(rest, crit, seen + Keys(Select(es, crit, seen))) ==
      kept + Select(es + rest, crit, seen)
  {
    Dedup.FirstOfEachAppend(es, rest, Keep(crit), Key, seen);
  }

  /**
   * The whole filter of `fetch_news_sentiment`: scans the feeds in order, a failed fetch
   * contributing nothing, and returns the kept headlines with the count kept from each feed.
   */
  method FilterHeadlines(urls: seq<string>, fetch: string -> Option<seq<Entry>>, crit: Criteria,
                         lexicon: Lexicon.Table, polarity: Polarity)
    returns (headlines: seq<Headline>, feedCounts: seq<nat>)
    ensures headlines == ScoreAll(Kept(urls, fetch, crit), lexicon, polarity)
    ensures |feedCounts| == |urls| && Total(feedCounts) == |headlines|
    ensures forall i :: 0 <= i < |urls| && fetch(urls[i]).None? ==> feedCounts[i] == 0
  {
    headlines := [];
    feedCounts := [];
    var seen: set<string> := {};
    ghost var kept: seq<Entry> := [];
    ghost var target := Kept(urls, fetch, crit);
    var i := 0;
    while i < |urls|
      invariant 0 <= i <= |urls|
      invariant |feedCounts| == i && Total(feedCounts) == |headlines|
      invariant forall f :: 0 <= f < i && fetch(urls[f]).None? ==> feedCounts[f] == 0
      invariant kept + Select(FeedEntries(urls[i..], fetch), crit, seen) == target
      invariant headlines == ScoreAll(kept, lexicon, polarity)
    {
      ghost var rest := FeedEntries(urls[i + 1..], fetch);
      var feed := fetch(urls[i]);
      FeedEntriesStep(urls, i, fetch);
      var feedCount: nat := 0;
      if feed.Some? {
        ghost var found := Select(feed.value, crit, seen);
        AfterFeed(kept, feed.value, rest, crit, seen);
        ScoreAllAppend(kept, found, lexicon, polarity);
        seen, headlines, feedCount := ScanFeed(feed.value, crit, lexicon, polarity, seen, headlines);
        kept := kept + found;
      } else {
        assert EntriesOf(feed) + rest == rest;
      }
      assert Total(feedCounts + [feedCount]) == Total(feedCounts) + feedCount by {
        assert (feedCounts + [feedCount])[..|feedCounts|] == feedCounts;
      }
      feedCounts := feedCounts + [feedCount];
      i := i + 1;
    }
    assert urls[i..] == [];
    assert kept + [] == kept;
  }
}
