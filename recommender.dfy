/** `recommend` as the step-by-step procedure the recommender runs over the
    search results, proved against the specification in `Rerank`. */
module Recommender {
  import opened Text
  import opened Sentiment
  import opened Rerank

  /** `genre_counts.get(genre, 0)`. */
  function CountOf(counts: map<string, nat>, genre: string): nat {
    if genre in counts then counts[genre] else 0
  }

  /** The score adjustment of one candidate, accumulated as the loops over
      emojis and instruments do. */
  method AdjustScore(s: Sentiment, emotions: seq<string>, instruments: seq<string>, genre: string)
    returns (adjustment: real)
    ensures adjustment == Adjustment(s, emotions, instruments, genre)
  {
    adjustment := 0.0;
    if s == Positive && genre in UpbeatGenres {
      adjustment := adjustment + PositiveBoost;
    } else if s == Negative {
      if genre in ComfortGenres {
        adjustment := adjustment + ComfortBoost;
      } else if genre in HeavyGenres {
        adjustment := adjustment + HeavyPenalty;
      }
    }
    for i := 0 to |emotions|
      invariant adjustment == SentimentDelta(s, genre) + MatchBonus * CountEmojiMatches(emotions[..i], genre) as real
    {
      var emoji := emotions[i];
      if emoji in CheerfulEmojis && genre in CheerfulGenres {
        adjustment := adjustment + MatchBonus;
      } else if emoji in SadEmojis && genre in ComfortGenres {
        adjustment := adjustment + MatchBonus;
      } else if emoji in CoolEmojis && genre in CoolGenres {
        adjustment := adjustment + MatchBonus;
      }
      assert emotions[..i + 1][..i] == emotions[..i];
    }
    assert emotions[..|emotions|] == emotions;
    ghost var fromEmojis := adjustment;
    for i := 0 to |instruments|
      invariant adjustment == fromEmojis + MatchBonus * CountInstrumentMatches(instruments[..i], genre) as real
    {
      var name := Lower(instruments[i]);
      if name in GuitarNames && genre in GuitarGenres {
        adjustment := adjustment + MatchBonus;
      } else if name in PianoNames && genre in PianoGenres {
        adjustment := adjustment + MatchBonus;
      }
      assert instruments[..i + 1][..i] == instruments[..i];
    }
    assert instruments[..|instruments|] == instruments;
  }

  /** The fallback list: the comfort-genre hits, each shown with its
      unmodified similarity. */
  method BuildFallback(hits: seq<Hit>) returns (fallback: seq<Recommendation>)
    ensures fallback == Fallback(hits)
  {
    var comforting := ComfortHits(hits);
    fallback := [];
    for i := 0 to |comforting|
      invariant fallback == BaseProjections(comforting[..i])
    {
      var h := comforting[i];
      assert comforting[..i + 1] == comforting[..i] + [h];
      BaseProjectionsSnoc(comforting[..i], h);
      fallback := fallback + [Project(h, h.score)];
    }
    assert comforting[..|comforting|] == comforting;
  }

  /** The first `n` entries of the array are in descending score order. */
  ghost predicate SortedPrefix(a: array<Recommendation>, n: int)
    reads a
    requires 0 <= n <= a.Length
  {
    forall p, q :: 0 <= p < q < n ==> a[p].adjustedScore >= a[q].adjustedScore
  }

  /** Exchanges two neighbouring entries. */
  method SwapWithPrevious(a: array<Recommendation>, j: int)
    requires 0 < j < a.Length
    modifies a
    ensures a[j - 1] == old(a[j]) && a[j] == old(a[j - 1])
    ensures forall m :: 0 <= m < a.Length && m != j - 1 && m != j ==> a[m] == old(a[m])
    ensures multiset(a[..]) == old(multiset(a[..]))
  {
    a[j - 1], a[j] := a[j], a[j - 1];
  }

  /** Moves `a[i]` left into the sorted prefix `a[..i]`. */
  method InsertIntoPrefix(a: array<Recommendation>, i: int)
    requires 0 <= i < a.Length && SortedPrefix(a, i)
    modifies a
    ensures SortedPrefix(a, i + 1)
    ensures multiset(a[..]) == old(multiset(a[..]))
  {
    var j := i;
    while j > 0 && a[j - 1].adjustedScore < a[j].adjustedScore
      invariant 0 <= j <= i
      invariant forall p, q :: 0 <= p < q <= i && p != j && q != j ==> a[p].adjustedScore >= a[q].adjustedScore
      invariant forall q :: j < q <= i ==> a[j].adjustedScore >= a[q].adjustedScore
      invariant multiset(a[..]) == old(multiset(a[..]))
    {
      SwapWithPrevious(a, j);
      j := j - 1;
    }
  }

  /** In-place sort by descending adjusted score (insertion sort). */
  method SortByScoreDescending(a: array<Recommendation>)
    modifies a
    ensures SortedDescending(a[..])
    ensures multiset(a[..]) == old(multiset(a[..]))
  {
    for i := 0 to a.Length
      invariant SortedPrefix(a, i)
      invariant multiset(a[..]) == old(multiset(a[..]))
    {
      InsertIntoPrefix(a, i);
    }
  }

  /** Shuffle, sort by descending score and keep the first `k`: any order
      among equal scores is possible, so only the ranking is promised. */
  method RankTopK(pre: seq<Recommendation>, k: int) returns (top: seq<Recommendation>)
    ensures TopRanked(top, pre, k)
  {
    var a := new Recommendation[|pre|](i requires 0 <= i < |pre| => pre[i]);
    assert a[..] == pre;
    SortByScoreDescending(a);
    top := a[..SliceStop(k, a.Length)];
    SortedPrefixIsTopRanked(a[..], pre, k);
  }

  /** The loop over the search results: score each hit and admit it while
      fewer than two entries of its genre have been admitted, counting
      admissions per genre in a map. */
  method ScoreAndCap(sentiment: Sentiment, emotions: seq<string>, instruments: seq<string>, hits: seq<Hit>)
    returns (working: seq<Recommendation>)
    ensures working == Capped(RescoreAll(hits, sentiment, emotions, instruments))
  {
    ghost var scored := RescoreAll(hits, sentiment, emotions, instruments);
    working := [];
    var genreCounts: map<string, nat> := map[];
    for i := 0 to |hits|
      invariant working == Capped(scored[..i])
      invariant forall g :: CountOf(genreCounts, g) == CountGenre(working, g)
    {
      var h := hits[i];
      var adjustment := AdjustScore(sentiment, emotions, instruments, h.genre);
      var total := h.score + adjustment;
      var entry := Project(h, total);
      assert entry == scored[i];
      assert scored[..i + 1] == scored[..i] + [entry];
      CappedSnoc(scored[..i], entry);
      CappedCount(scored[..i], h.genre);
      ghost var oldWorking := working;
      ghost var oldCounts := genreCounts;
      if CountOf(genreCounts, h.genre) < CapPerGenre {
        working := working + [entry];
        genreCounts := genreCounts[h.genre := CountOf(genreCounts, h.genre) + 1];
      }
      forall g
        ensures CountOf(genreCounts, g) == CountGenre(working, g)
      {
        assert CountOf(oldCounts, g) == CountGenre(oldWorking, g);
        OfGenreSnoc(oldWorking, entry, g);
      }
    }
    assert scored[..|hits|] == scored;
  }

  /** `recommend`: classify the query, score every search hit, admit at most
      two per genre in retrieval order, drop the excluded genres for a
      negative query, fall back to the comfort genres when too few remain,
      then rank and keep the best `k`. `polarity` is the text's polarity
      score and `hits` the result of the vector search. */
  method Recommend(text: string, emotions: seq<string>, instruments: seq<string>, k: int,
                   polarity: real, hits: seq<Hit>)
    returns (recs: seq<Recommendation>)
    requires |hits| <= SearchLimit
    ensures TopRanked(recs, PreRanking(AnalyzeSentiment(text, emotions, polarity), emotions, instruments, hits), k)
    ensures |recs| <= |hits| && (0 <= k ==> |recs| <= k)
  {
    var sentiment := AnalyzeSentiment(text, emotions, polarity);
    var working := ScoreAndCap(sentiment, emotions, instruments, hits);
    if sentiment == Negative {
      working := WithoutExcluded(working);
    }
    assert working == Kept(sentiment, emotions, instruments, hits);
    if sentiment == Negative && |working| < MinimumAfterFilter {
      working := BuildFallback(hits);
    }
    assert working == PreRanking(sentiment, emotions, instruments, hits);
    recs := RankTopK(working, k);
  }

  /** What every answer of `Recommend` satisfies, whatever the tie order:
      at most two entries per genre outside the fallback; no excluded genre
      for a negative query that does not fall back; only unadjusted
      comfort-genre hits when it does. */
  lemma RecommendationGuarantees(text: string, emotions: seq<string>, instruments: seq<string>, k: int,
                                 polarity: real, hits: seq<Hit>, recs: seq<Recommendation>)
    requires TopRanked(recs, PreRanking(AnalyzeSentiment(text, emotions, polarity), emotions, instruments, hits), k)
    ensures var s := AnalyzeSentiment(text, emotions, polarity);
      !UsesFallback(s, emotions, instruments, hits) ==> forall g :: CountGenre(recs, g) <= CapPerGenre
    ensures var s := AnalyzeSentiment(text, emotions, polarity);
      s == Negative && !UsesFallback(s, emotions, instruments, hits) ==>
        forall r :: r in recs ==> r.genre !in ExcludedWhenNegative
    ensures var s := AnalyzeSentiment(text, emotions, polarity);
      UsesFallback(s, emotions, instruments, hits) ==>
        forall r :: r in recs ==> r.genre in ComfortGenres && exists h :: h in hits && r == Project(h, h.score)
  {
    var s := AnalyzeSentiment(text, emotions, polarity);
    var pre := PreRanking(s, emotions, instruments, hits);
    forall r | r in recs ensures r in pre {
      assert r in multiset(recs);
    }
    if !UsesFallback(s, emotions, instruments, hits) {
      forall g ensures CountGenre(recs, g) <= CapPerGenre {
        SubMultisetCount(recs, pre, g);
        PreRankingCap(s, emotions, instruments, hits, g);
      }
      if s == Negative {
        PreRankingNegative(s, emotions, instruments, hits);
      }
    } else {
      PreRankingFallback(s, emotions, instruments, hits);
    }
  }
}
