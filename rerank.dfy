/** The deterministic part of `recommend`, as specification functions over
    the search results: score adjustment, the per-genre cap, the genre
    filter for negative queries, the fallback list, and the ranked top-k
    view of the result. The lemmas state what each step guarantees. */
module Rerank {
  import opened Text
  import opened Sentiment

  /** How many nearest neighbours the vector search returns at most. */
  const SearchLimit: nat := 50
  /** At most this many entries of one genre enter the working list. */
  const CapPerGenre: nat := 2
  /** A negative query with fewer survivors than this falls back. */
  const MinimumAfterFilter: nat := 3

  const PositiveBoost: real := 0.8
  const ComfortBoost: real := 1.0
  const HeavyPenalty: real := -2.0
  /** Added once per matching emoji occurrence and per matching instrument. */
  const MatchBonus: real := 0.15

  const UpbeatGenres: set<string> := {"pop", "disco", "country"}
  const ComfortGenres: set<string> := {"blues", "jazz", "classical"}
  const HeavyGenres: set<string> := {"rock", "metal", "hiphop"}
  /** Genres removed from the working list of a negative query. */
  const ExcludedWhenNegative: set<string> := {"pop", "disco", "rock", "metal", "hiphop"}

  const CheerfulEmojis: set<string> := {"😊", "😃", "🥳"}
  const CheerfulGenres: set<string> := {"pop", "disco", "rock"}
  const SadEmojis: set<string> := {"😢", "😭"}
  const CoolEmojis: set<string> := {"🔥", "😎"}
  const CoolGenres: set<string> := {"rock", "metal"}
  const GuitarNames: set<string> := {"guitar", "gitara", "el.gitara"}
  const GuitarGenres: set<string> := {"rock", "metal", "country"}
  const PianoNames: set<string> := {"piano", "klavir"}
  const PianoGenres: set<string> := {"classical", "jazz"}

  /** One search result: the stored payload of a track and its similarity. */
  datatype Hit = Hit(filename: string, genre: string, description: string, filepath: string, score: real)

  /** One entry of the returned list. */
  datatype Recommendation = Recommendation(
    filename: string, audioUrl: string, genre: string, description: string, adjustedScore: real)

  function Min(a: nat, b: nat): nat { if a <= b then a else b }

  /** Where Python's slice `xs[:k]` of a list of length `n` stops: a
      non-negative `k` keeps the first `k` entries (all of them when the
      list is shorter), a negative `k` drops the last `-k`. */
  function SliceStop(k: int, n: nat): (stop: nat)
    ensures stop <= n
    ensures 0 <= k ==> stop <= k && (stop == k || stop == n)
    ensures k < 0 ==> stop == n - Min(-k, n)
  {
    if 0 <= k then Min(k, n)
    else if n + k >= 0 then n + k
    else 0
  }

  // ----- Score adjustment -----

  /** The sentiment part of the adjustment. */
  function SentimentDelta(s: Sentiment, genre: string): (delta: real)
    ensures delta in {0.0, PositiveBoost, ComfortBoost, HeavyPenalty}
    ensures s == Neutral ==> delta == 0.0
    ensures delta > 0.0 ==> (s == Positive && genre in UpbeatGenres) || (s == Negative && genre in ComfortGenres)
    ensures delta < 0.0 ==> s == Negative && genre in HeavyGenres
    ensures s == Positive && genre in UpbeatGenres ==> delta == PositiveBoost
    ensures s == Negative && genre in ComfortGenres ==> delta == ComfortBoost
    ensures s == Negative && genre in HeavyGenres ==> delta == HeavyPenalty
  {
    if s == Positive && genre in UpbeatGenres then PositiveBoost
    else if s == Negative then
      if genre in ComfortGenres then ComfortBoost
      else if genre in HeavyGenres then HeavyPenalty
      else 0.0
    else 0.0
  }

  /** An emoji that earns the bonus for a genre (one branch of the chain). */
  predicate EmojiMatches(emoji: string, genre: string): (matches: bool)
    ensures emoji in CheerfulEmojis ==> (matches <==> genre in CheerfulGenres)
    ensures emoji in SadEmojis ==> (matches <==> genre in ComfortGenres)
    ensures emoji in CoolEmojis ==> (matches <==> genre in CoolGenres)
    ensures emoji !in CheerfulEmojis + SadEmojis + CoolEmojis ==> !matches
  {
    || (emoji in CheerfulEmojis && genre in CheerfulGenres)
    || (emoji in SadEmojis && genre in ComfortGenres)
    || (emoji in CoolEmojis && genre in CoolGenres)
  }

  /** An instrument name that earns the bonus for a genre, compared in
      lower case. */
  predicate InstrumentMatches(instrument: string, genre: string): (matches: bool)
    ensures Lower(instrument) in GuitarNames ==> (matches <==> genre in GuitarGenres)
    ensures Lower(instrument) in PianoNames ==> (matches <==> genre in PianoGenres)
    ensures Lower(instrument) !in GuitarNames + PianoNames ==> !matches
  {
    var name := Lower(instrument);
    || (name in GuitarNames && genre in GuitarGenres)
    || (name in PianoNames && genre in PianoGenres)
  }

  /** Number of emoji occurrences in the list that match the genre. */
  function CountEmojiMatches(emotions: seq<string>, genre: string): nat {
    if emotions == [] then 0
    else CountEmojiMatches(emotions[..|emotions| - 1], genre)
         + (if EmojiMatches(emotions[|emotions| - 1], genre) then 1 else 0)
  }

  /** Number of instruments in the list that match the genre. */
  function CountInstrumentMatches(instruments: seq<string>, genre: string): nat {
    if instruments == [] then 0
    else CountInstrumentMatches(instruments[..|instruments| - 1], genre)
         + (if InstrumentMatches(instruments[|instruments| - 1], genre) then 1 else 0)
  }

  /** The total adjustment of a candidate of the given genre: its sentiment
      delta plus the bonus for every matching emoji occurrence and every
      matching instrument. */
  function Adjustment(s: Sentiment, emotions: seq<string>, instruments: seq<string>, genre: string): (adjustment: real)
    ensures SentimentDelta(s, genre) <= adjustment
    ensures ((forall e :: e in emotions ==> !EmojiMatches(e, genre))
             && (forall n :: n in instruments ==> !InstrumentMatches(n, genre)))
            ==> adjustment == SentimentDelta(s, genre)
  {
    EmojiMatchesBounded(emotions, genre);
    InstrumentMatchesBounded(instruments, genre);
    SentimentDelta(s, genre)
      + MatchBonus * (CountEmojiMatches(emotions, genre) + CountInstrumentMatches(instruments, genre)) as real
  }

  /** An instrument name matches whatever its letter case. */
  lemma InstrumentMatchesIgnoresCase(instrument: string, genre: string)
    ensures InstrumentMatches(instrument, genre) == InstrumentMatches(Lower(instrument), genre)
  {
    LowerIdempotent(instrument);
  }

  /** One more emoji in the list adds the bonus exactly when it matches. */
  lemma AdjustmentEmojiSnoc(s: Sentiment, emotions: seq<string>, e: string, instruments: seq<string>, genre: string)
    ensures Adjustment(s, emotions + [e], instruments, genre)
            == Adjustment(s, emotions, instruments, genre) + (if EmojiMatches(e, genre) then MatchBonus else 0.0)
  {
    assert (emotions + [e])[..|emotions|] == emotions;
  }

  /** One more instrument in the list adds the bonus exactly when it
      matches. */
  lemma AdjustmentInstrumentSnoc(s: Sentiment, emotions: seq<string>, instruments: seq<string>, n: string, genre: string)
    ensures Adjustment(s, emotions, instruments + [n], genre)
            == Adjustment(s, emotions, instruments, genre) + (if InstrumentMatches(n, genre) then MatchBonus else 0.0)
  {
    assert (instruments + [n])[..|instruments|] == instruments;
  }

  /** Each emoji contributes at most once, and only emojis do. */
  lemma {:induction false} EmojiMatchesBounded(emotions: seq<string>, genre: string)
    ensures CountEmojiMatches(emotions, genre) <= |emotions|
    ensures (forall e :: e in emotions ==> !EmojiMatches(e, genre)) ==> CountEmojiMatches(emotions, genre) == 0
  {
    if emotions != [] {
      EmojiMatchesBounded(emotions[..|emotions| - 1], genre);
    }
  }

  /** Each instrument contributes at most once, and only instruments do. */
  lemma {:induction false} InstrumentMatchesBounded(instruments: seq<string>, genre: string)
    ensures CountInstrumentMatches(instruments, genre) <= |instruments|
    ensures (forall n :: n in instruments ==> !InstrumentMatches(n, genre)) ==> CountInstrumentMatches(instruments, genre) == 0
  {
    if instruments != [] {
      InstrumentMatchesBounded(instruments[..|instruments| - 1], genre);
    }
  }

  /** The adjustment lies between the sentiment delta and the delta plus one
      bonus per emoji and per instrument. */
  lemma AdjustmentRange(s: Sentiment, emotions: seq<string>, instruments: seq<string>, genre: string)
    ensures SentimentDelta(s, genre) <= Adjustment(s, emotions, instruments, genre)
    ensures Adjustment(s, emotions, instruments, genre)
            <= SentimentDelta(s, genre) + MatchBonus * (|emotions| + |instruments|) as real
  {
    EmojiMatchesBounded(emotions, genre);
    InstrumentMatchesBounded(instruments, genre);
  }

  /** A cheerful query for pop: +0.8 for the sentiment and +0.15 for 😊. */
  lemma CheerfulPopScenario()
    ensures Adjustment(Positive, ["😊"], [], "pop") == 0.95
  {
    assert ["😊"][..0] == [];
  }

  /** Instrument names match whatever their letter case: "KLAVIR" earns the
      piano bonus for jazz, and a negative jazz query adds the comfort boost. */
  lemma InstrumentCaseScenario()
    ensures Adjustment(Negative, [], ["KLAVIR"], "jazz") == 1.15
  {
    assert ["KLAVIR"][..0] == [];
    assert Lower("KLAVIR") == "klavir";
  }

  // ----- Projection to the output shape -----

  /** The audio reference served for a stored file path. */
  function AudioUrl(filepath: string): (url: string)
    ensures |url| == 7 + |filepath| && url[..7] == "/audio/" && url[7..] == filepath
  {
    "/audio/" + filepath
  }

  /** A search hit shown with the given score. */
  function Project(h: Hit, score: real): (r: Recommendation)
    ensures r.filename == h.filename && r.genre == h.genre && r.description == h.description
    ensures r.audioUrl == AudioUrl(h.filepath) && r.adjustedScore == score
  {
    Recommendation(h.filename, AudioUrl(h.filepath), h.genre, h.description, score)
  }

  /** Every hit with its adjusted score, in retrieval order. */
  function RescoreAll(hits: seq<Hit>, s: Sentiment, emotions: seq<string>, instruments: seq<string>)
    : (scored: seq<Recommendation>)
    ensures |scored| == |hits|
    ensures forall i :: 0 <= i < |hits| ==>
      scored[i] == Project(hits[i], hits[i].score + Adjustment(s, emotions, instruments, hits[i].genre))
  {
    seq(|hits|, i requires 0 <= i < |hits| =>
      Project(hits[i], hits[i].score + Adjustment(s, emotions, instruments, hits[i].genre)))
  }

  // ----- Subsequences and per-genre views -----

  /** `a` is obtained from `b` by deleting entries: the last entry of `b`
      either ends `a` as well or is deleted. */
  predicate IsSubsequence<T(==)>(a: seq<T>, b: seq<T>) {
    if b == [] then a == []
    else
      || (a != [] && a[|a| - 1] == b[|b| - 1] && IsSubsequence(a[..|a| - 1], b[..|b| - 1]))
      || IsSubsequence(a, b[..|b| - 1])
  }

  /** The entries of the given genre, in order. */
  function OfGenre(recs: seq<Recommendation>, genre: string): seq<Recommendation> {
    if recs == [] then []
    else OfGenre(recs[..|recs| - 1], genre)
         + (if recs[|recs| - 1].genre == genre then [recs[|recs| - 1]] else [])
  }

  function CountGenre(recs: seq<Recommendation>, genre: string): nat {
    |OfGenre(recs, genre)|
  }

  /** The genre view distributes over appending one entry. */
  lemma OfGenreSnoc(recs: seq<Recommendation>, x: Recommendation, genre: string)
    ensures OfGenre(recs + [x], genre) == OfGenre(recs, genre) + (if x.genre == genre then [x] else [])
  {
    assert (recs + [x])[..|recs|] == recs;
  }

  /** The genre view distributes over concatenation. */
  lemma {:induction false} OfGenreAppend(a: seq<Recommendation>, b: seq<Recommendation>, genre: string)
    ensures OfGenre(a + b, genre) == OfGenre(a, genre) + OfGenre(b, genre)
    decreases |b|
  {
    if b != [] {
      var b' := b[..|b| - 1];
      var x := b[|b| - 1];
      assert b == b' + [x];
      assert a + b == (a + b') + [x];
      OfGenreAppend(a, b', genre);
      OfGenreSnoc(a + b', x, genre);
      OfGenreSnoc(b', x, genre);
    } else {
      assert a + b == a;
    }
  }

  /** Deleting entries never raises a genre's count. */
  lemma {:induction false} SubsequenceCount(a: seq<Recommendation>, b: seq<Recommendation>, genre: string)
    requires IsSubsequence(a, b)
    ensures CountGenre(a, genre) <= CountGenre(b, genre)
    decreases |b|
  {
    if b != [] {
      var b' := b[..|b| - 1];
      assert b == b' + [b[|b| - 1]];
      OfGenreSnoc(b', b[|b| - 1], genre);
      if a != [] && a[|a| - 1] == b[|b| - 1] && IsSubsequence(a[..|a| - 1], b') {
        SubsequenceCount(a[..|a| - 1], b', genre);
        assert a == a[..|a| - 1] + [a[|a| - 1]];
        OfGenreSnoc(a[..|a| - 1], a[|a| - 1], genre);
      } else {
        SubsequenceCount(a, b', genre);
      }
    }
  }

  /** Taking a sub-multiset never raises a genre's count, whatever the
      order of the entries. */
  lemma {:induction false} SubMultisetCount(a: seq<Recommendation>, b: seq<Recommendation>, genre: string)
    requires multiset(a) <= multiset(b)
    ensures CountGenre(a, genre) <= CountGenre(b, genre)
    decreases |a|
  {
    if a != [] {
      var a' := a[..|a| - 1];
      var x := a[|a| - 1];
      assert a == a' + [x];
      assert multiset(a) == multiset(a') + multiset{x};
      assert x in multiset(b);
      var j :| 0 <= j < |b| && b[j] == x;
      var rest := b[..j] + b[j + 1..];
      RemoveOne(b, j, genre);
      forall y
        ensures multiset(a')[y] <= multiset(rest)[y]
      {
        assert multiset(a)[y] <= multiset(b)[y];
      }
      SubMultisetCount(a', rest, genre);
      OfGenreSnoc(a', x, genre);
    }
  }

  /** Removing the entry at `j` removes one copy of it from the multiset and
      lowers its genre's count by one. */
  lemma RemoveOne(b: seq<Recommendation>, j: int, genre: string)
    requires 0 <= j < |b|
    ensures multiset(b) == multiset(b[..j] + b[j + 1..]) + multiset{b[j]}
    ensures CountGenre(b, genre) == CountGenre(b[..j] + b[j + 1..], genre) + (if b[j].genre == genre then 1 else 0)
  {
    var x := b[j];
    assert b == b[..j] + [x] + b[j + 1..];
    OfGenreAppend(b[..j] + [x], b[j + 1..], genre);
    OfGenreAppend(b[..j], [x], genre);
    OfGenreAppend(b[..j], b[j + 1..], genre);
    assert OfGenre([x], genre) == (if x.genre == genre then [x] else []) by {
      OfGenreSnoc([], x, genre);
    }
  }

  // ----- Per-genre cap -----

  /** The working list: an entry is admitted exactly when fewer than
      `CapPerGenre` earlier entries of the list share its genre. */
  function Capped(recs: seq<Recommendation>): (capped: seq<Recommendation>)
    ensures |capped| <= |recs|
    ensures forall x :: x in capped ==> x in recs
  {
    if recs == [] then []
    else
      var prefix := recs[..|recs| - 1];
      var x := recs[|recs| - 1];
      Capped(prefix) + (if CountGenre(prefix, x.genre) < CapPerGenre then [x] else [])
  }

  /** One step of the cap: the next entry is admitted or skipped. */
  lemma CappedSnoc(prefix: seq<Recommendation>, x: Recommendation)
    ensures Capped(prefix + [x]) == Capped(prefix) + (if CountGenre(prefix, x.genre) < CapPerGenre then [x] else [])
  {
    assert (prefix + [x])[..|prefix|] == prefix;
  }

  /** For every genre, the capped list holds exactly the first two entries
      of that genre, in their original order. */
  lemma {:induction false} CappedPerGenre(recs: seq<Recommendation>, genre: string)
    ensures OfGenre(Capped(recs), genre) == OfGenre(recs, genre)[..Min(CapPerGenre, CountGenre(recs, genre))]
  {
    if recs != [] {
      var prefix := recs[..|recs| - 1];
      var x := recs[|recs| - 1];
      assert recs == prefix + [x];
      CappedPerGenre(prefix, genre);
      CappedSnoc(prefix, x);
      OfGenreSnoc(prefix, x, genre);
      OfGenreSnoc(Capped(prefix), x, genre);
      var admitted := CountGenre(prefix, x.genre) < CapPerGenre;
      var kept := OfGenre(Capped(prefix), genre);
      if admitted {
        assert OfGenre(Capped(recs), genre) == kept + (if x.genre == genre then [x] else []);
      } else {
        assert Capped(recs) == Capped(prefix) + [];
        assert Capped(recs) == Capped(prefix);
        assert kept + [] == kept;
      }
      CappedStepPerGenre(OfGenre(prefix, genre), kept, x, genre, admitted);
    }
  }

  /** The per-genre views after one step of the cap, with the views before
      it as plain sequences. */
  lemma CappedStepPerGenre(before: seq<Recommendation>, kept: seq<Recommendation>, x: Recommendation,
                           genre: string, admitted: bool)
    requires kept == before[..Min(CapPerGenre, |before|)]
    requires x.genre == genre ==> (admitted <==> |before| < CapPerGenre)
    ensures kept + (if admitted && x.genre == genre then [x] else [])
            == (before + (if x.genre == genre then [x] else []))
               [..Min(CapPerGenre, |before + (if x.genre == genre then [x] else [])|)]
  {
    if x.genre == genre {
      if admitted {
        assert (before + [x])[..|before| + 1] == before + [x];
      } else {
        assert (before + [x])[..CapPerGenre] == before[..CapPerGenre];
      }
    } else {
      assert before + [] == before;
    }
  }

  /** So no genre appears more than twice, and a genre with fewer than two
      hits keeps all of them. */
  lemma CappedCount(recs: seq<Recommendation>, genre: string)
    ensures CountGenre(Capped(recs), genre) == Min(CapPerGenre, CountGenre(recs, genre))
  {
    CappedPerGenre(recs, genre);
  }

  /** The cap may count earlier hits or earlier admissions alike: an entry
      is admitted exactly when fewer than two entries of its genre were
      admitted before it. */
  lemma CappedCountsAdmissions(prefix: seq<Recommendation>, x: Recommendation)
    ensures Capped(prefix + [x])
            == Capped(prefix) + (if CountGenre(Capped(prefix), x.genre) < CapPerGenre then [x] else [])
  {
    CappedSnoc(prefix, x);
    CappedCount(prefix, x.genre);
  }

  /** The cap only deletes entries: retrieval order is preserved. */
  lemma {:induction false} CappedIsSubsequence(recs: seq<Recommendation>)
    ensures IsSubsequence(Capped(recs), recs)
  {
    if recs != [] {
      var prefix := recs[..|recs| - 1];
      var x := recs[|recs| - 1];
      CappedIsSubsequence(prefix);
      if CountGenre(prefix, x.genre) < CapPerGenre {
        var a := Capped(prefix) + [x];
        assert Capped(recs) == a;
        assert a[..|a| - 1] == Capped(prefix);
        assert a[|a| - 1] == recs[|recs| - 1];
      } else {
        assert Capped(recs) == Capped(prefix);
      }
    }
  }

  // ----- Genre filter for negative queries -----

  /** The working list without the genres excluded for negative queries. */
  function WithoutExcluded(recs: seq<Recommendation>): (kept: seq<Recommendation>)
    ensures |kept| <= |recs|
    ensures forall x :: x in kept ==> x in recs && x.genre !in ExcludedWhenNegative
  {
    if recs == [] then []
    else WithoutExcluded(recs[..|recs| - 1])
         + (if recs[|recs| - 1].genre in ExcludedWhenNegative then [] else [recs[|recs| - 1]])
  }

  /** The filter keeps exactly the entries of the other genres, in order. */
  lemma {:induction false} WithoutExcludedSpec(recs: seq<Recommendation>)
    ensures forall x :: x in WithoutExcluded(recs) <==> x in recs && x.genre !in ExcludedWhenNegative
    ensures IsSubsequence(WithoutExcluded(recs), recs)
  {
    if recs != [] {
      var prefix := recs[..|recs| - 1];
      var x := recs[|recs| - 1];
      assert recs == prefix + [x];
      WithoutExcludedSpec(prefix);
      if x.genre !in ExcludedWhenNegative {
        var a := WithoutExcluded(prefix) + [x];
        assert WithoutExcluded(recs) == a;
        assert a[..|a| - 1] == WithoutExcluded(prefix);
        assert a[|a| - 1] == recs[|recs| - 1];
      } else {
        assert WithoutExcluded(recs) == WithoutExcluded(prefix);
      }
    }
  }

  /** The filter keeps every entry of a non-excluded genre, as often as it
      occurs, and none of an excluded one. */
  lemma {:induction false} WithoutExcludedCount(recs: seq<Recommendation>, genre: string)
    ensures CountGenre(WithoutExcluded(recs), genre) == if genre in ExcludedWhenNegative then 0 else CountGenre(recs, genre)
  {
    if recs != [] {
      var prefix := recs[..|recs| - 1];
      var x := recs[|recs| - 1];
      var kept := WithoutExcluded(prefix);
      assert recs == prefix + [x];
      WithoutExcludedCount(prefix, genre);
      OfGenreSnoc(prefix, x, genre);
      if x.genre in ExcludedWhenNegative {
        assert WithoutExcluded(recs) == kept;
      } else {
        assert WithoutExcluded(recs) == kept + [x];
        OfGenreSnoc(kept, x, genre);
      }
    }
  }

  // ----- Fallback -----

  /** The hits whose genre is in `genres`, in retrieval order: each such hit
      as often as the search returned it, and nothing else. */
  function HitsOfGenres(hits: seq<Hit>, genres: set<string>): (c: seq<Hit>)
    ensures forall h :: multiset(c)[h] == if h.genre in genres then multiset(hits)[h] else 0
    ensures IsSubsequence(c, hits)
  {
    if hits == [] then []
    else
      var prefix := hits[..|hits| - 1];
      var last := hits[|hits| - 1];
      var before := HitsOfGenres(prefix, genres);
      assert hits == prefix + [last];
      assert multiset(hits) == multiset(prefix) + multiset{last};
      if last.genre in genres then
        var c := before + [last];
        assert c[..|c| - 1] == before && c[|c| - 1] == last;
        assert multiset(c) == multiset(before) + multiset{last};
        c
      else
        before
  }

  /** The hits of the comfort genres, in retrieval order. */
  function ComfortHits(hits: seq<Hit>): (c: seq<Hit>)
    ensures forall h :: h in c <==> h in hits && h.genre in ComfortGenres
    ensures forall h :: multiset(c)[h] == if h.genre in ComfortGenres then multiset(hits)[h] else 0
    ensures IsSubsequence(c, hits)
    ensures |c| <= |hits|
  {
    var c := HitsOfGenres(hits, ComfortGenres);
    assert forall h :: h in c <==> multiset(c)[h] > 0;
    SubsequenceLength(c, hits);
    c
  }

  /** A subsequence is never longer. */
  lemma {:induction false} SubsequenceLength<T>(a: seq<T>, b: seq<T>)
    requires IsSubsequence(a, b)
    ensures |a| <= |b|
    decreases |b|
  {
    if b != [] {
      if a != [] && a[|a| - 1] == b[|b| - 1] && IsSubsequence(a[..|a| - 1], b[..|b| - 1]) {
        SubsequenceLength(a[..|a| - 1], b[..|b| - 1]);
      } else {
        SubsequenceLength(a, b[..|b| - 1]);
      }
    }
  }

  /** Hits shown with their unmodified similarity. */
  function BaseProjections(hits: seq<Hit>): (recs: seq<Recommendation>)
    ensures |recs| == |hits|
    ensures forall i :: 0 <= i < |hits| ==> recs[i] == Project(hits[i], hits[i].score)
  {
    seq(|hits|, i requires 0 <= i < |hits| => Project(hits[i], hits[i].score))
  }

  /** The fallback list built from the whole search result. */
  function Fallback(hits: seq<Hit>): (fallback: seq<Recommendation>)
    ensures |fallback| == |ComfortHits(hits)| <= |hits|
    ensures forall r :: r in fallback ==> r.genre in ComfortGenres
  {
    BaseProjections(ComfortHits(hits))
  }

  /** Number of search hits of the given genre. */
  function HitCount(hits: seq<Hit>, genre: string): nat {
    if hits == [] then 0
    else HitCount(hits[..|hits| - 1], genre) + (if hits[|hits| - 1].genre == genre then 1 else 0)
  }

  /** The fallback holds one unadjusted entry per comfort-genre hit and
      nothing else: as many entries of each comfort genre as the search
      returned, none of any other genre, whatever the per-genre cap. */
  lemma FallbackContents(hits: seq<Hit>)
    ensures forall r :: r in Fallback(hits) ==>
      r.genre in ComfortGenres && exists h :: h in hits && r == Project(h, h.score)
    ensures forall h :: h in hits && h.genre in ComfortGenres ==> Project(h, h.score) in Fallback(hits)
    ensures forall genre :: CountGenre(Fallback(hits), genre) == if genre in ComfortGenres then HitCount(hits, genre) else 0
  {
    var c := ComfortHits(hits);
    forall r | r in Fallback(hits)
      ensures r.genre in ComfortGenres && exists h :: h in hits && r == Project(h, h.score)
    {
      var i :| 0 <= i < |c| && Fallback(hits)[i] == r;
      assert c[i] in c;
    }
    forall h | h in hits && h.genre in ComfortGenres
      ensures Project(h, h.score) in Fallback(hits)
    {
      var i :| 0 <= i < |c| && c[i] == h;
      assert Fallback(hits)[i] == Project(h, h.score);
    }
    forall genre
      ensures CountGenre(Fallback(hits), genre) == if genre in ComfortGenres then HitCount(hits, genre) else 0
    {
      FallbackGenreCount(hits, genre);
    }
  }

  /** The per-genre count of the fallback, by induction on the hits. */
  lemma {:induction false} FallbackGenreCount(hits: seq<Hit>, genre: string)
    ensures CountGenre(Fallback(hits), genre) == if genre in ComfortGenres then HitCount(hits, genre) else 0
  {
    if hits != [] {
      var prefix := hits[..|hits| - 1];
      var last := hits[|hits| - 1];
      FallbackGenreCount(prefix, genre);
      var before := HitsOfGenres(prefix, ComfortGenres);
      if last.genre in ComfortGenres {
        assert HitsOfGenres(hits, ComfortGenres) == before + [last];
        BaseProjectionsSnoc(before, last);
        OfGenreSnoc(BaseProjections(before), Project(last, last.score), genre);
      } else {
        assert HitsOfGenres(hits, ComfortGenres) == before;
      }
    }
  }

  /** Projecting distributes over appending one hit. */
  lemma BaseProjectionsSnoc(hits: seq<Hit>, h: Hit)
    ensures BaseProjections(hits + [h]) == BaseProjections(hits) + [Project(h, h.score)]
  {
  }

  /** Three blues hits all reach the fallback list: it can hold more than two
      entries of one genre. */
  lemma FallbackIgnoresCap(a: Hit, b: Hit, c: Hit)
    requires a.genre == b.genre == c.genre == "blues"
    ensures |Fallback([a, b, c])| == 3
    ensures CountGenre(Fallback([a, b, c]), "blues") == 3
  {
    var hits := [a, b, c];
    assert hits[..2] == [a, b] && [a, b][..1] == [a] && [a][..0] == [];
    assert HitCount([a], "blues") == 1;
    assert HitCount([a, b], "blues") == 2;
    assert HitCount(hits, "blues") == 3;
    FallbackGenreCount(hits, "blues");
    OfGenreShorter(Fallback(hits), "blues");
  }

  /** A genre view is never longer than the list. */
  lemma {:induction false} OfGenreShorter(recs: seq<Recommendation>, genre: string)
    ensures CountGenre(recs, genre) <= |recs|
  {
    if recs != [] {
      OfGenreShorter(recs[..|recs| - 1], genre);
    }
  }

  // ----- The list that is sorted and cut -----

  /** The working list after the cap and, for a negative query, the genre
      filter. */
  function Kept(s: Sentiment, emotions: seq<string>, instruments: seq<string>, hits: seq<Hit>)
    : (kept: seq<Recommendation>)
    ensures |kept| <= |hits|
    ensures s == Negative ==> forall r :: r in kept ==> r.genre !in ExcludedWhenNegative
  {
    var capped := Capped(RescoreAll(hits, s, emotions, instruments));
    if s == Negative then WithoutExcluded(capped) else capped
  }

  /** A negative query whose filtered working list is too short. */
  predicate UsesFallback(s: Sentiment, emotions: seq<string>, instruments: seq<string>, hits: seq<Hit>): (falls: bool)
    ensures falls ==> s == Negative
    ensures s == Negative && |hits| < MinimumAfterFilter ==> falls
  {
    s == Negative && |Kept(s, emotions, instruments, hits)| < MinimumAfterFilter
  }

  /** The list that is shuffled, sorted and cut to `k`. */
  function PreRanking(s: Sentiment, emotions: seq<string>, instruments: seq<string>, hits: seq<Hit>)
    : (pre: seq<Recommendation>)
    ensures |pre| <= |hits|
    ensures s != Negative ==> pre == Capped(RescoreAll(hits, s, emotions, instruments))
  {
    if UsesFallback(s, emotions, instruments, hits) then Fallback(hits)
    else Kept(s, emotions, instruments, hits)
  }

  /** Outside the fallback, no genre appears more than twice. */
  lemma PreRankingCap(s: Sentiment, emotions: seq<string>, instruments: seq<string>, hits: seq<Hit>, genre: string)
    requires !UsesFallback(s, emotions, instruments, hits)
    ensures CountGenre(PreRanking(s, emotions, instruments, hits), genre) <= CapPerGenre
  {
    var capped := Capped(RescoreAll(hits, s, emotions, instruments));
    CappedCount(RescoreAll(hits, s, emotions, instruments), genre);
    if s == Negative {
      WithoutExcludedSpec(capped);
      SubsequenceCount(WithoutExcluded(capped), capped, genre);
    }
  }

  /** A negative query that does not fall back never offers the excluded
      genres. */
  lemma PreRankingNegative(s: Sentiment, emotions: seq<string>, instruments: seq<string>, hits: seq<Hit>)
    requires s == Negative && !UsesFallback(s, emotions, instruments, hits)
    ensures |PreRanking(s, emotions, instruments, hits)| >= MinimumAfterFilter
    ensures forall r :: r in PreRanking(s, emotions, instruments, hits) ==> r.genre !in ExcludedWhenNegative
  {
    WithoutExcludedSpec(Capped(RescoreAll(hits, s, emotions, instruments)));
  }

  /** When it falls back, the list consists exactly of the comfort-genre hits
      of the whole search result, each with its unmodified similarity. */
  lemma PreRankingFallback(s: Sentiment, emotions: seq<string>, instruments: seq<string>, hits: seq<Hit>)
    requires UsesFallback(s, emotions, instruments, hits)
    ensures forall r :: r in PreRanking(s, emotions, instruments, hits) ==>
      r.genre in ComfortGenres && exists h :: h in hits && r == Project(h, h.score)
    ensures forall h :: h in hits && h.genre in ComfortGenres ==>
      Project(h, h.score) in PreRanking(s, emotions, instruments, hits)
    ensures forall genre ::
      CountGenre(PreRanking(s, emotions, instruments, hits), genre) == if genre in ComfortGenres then HitCount(hits, genre) else 0
  {
    FallbackContents(hits);
  }

  // ----- Ranking -----

  /** Non-increasing by adjusted score. */
  predicate SortedDescending(recs: seq<Recommendation>) {
    forall i, j :: 0 <= i < j < |recs| ==> recs[i].adjustedScore >= recs[j].adjustedScore
  }

  /** `top` is what sorting some shuffle of `pre` by descending score and
      keeping the first `k` entries can produce: the right length, sorted,
      drawn from `pre`, and no entry left out scores above one kept. */
  predicate TopRanked(top: seq<Recommendation>, pre: seq<Recommendation>, k: int): (ranked: bool)
    ensures ranked ==> |top| <= |pre| && (0 <= k ==> |top| <= k)
  {
    && |top| == SliceStop(k, |pre|)
    && SortedDescending(top)
    && multiset(top) <= multiset(pre)
    && forall x, i :: x in multiset(pre) - multiset(top) && 0 <= i < |top| ==>
         x.adjustedScore <= top[i].adjustedScore
  }

  /** The first `k` entries of a sorted rearrangement of `pre` are a top-k
      ranking of it. */
  lemma SortedPrefixIsTopRanked(sorted: seq<Recommendation>, pre: seq<Recommendation>, k: int)
    requires SortedDescending(sorted) && multiset(sorted) == multiset(pre)
    ensures TopRanked(sorted[..SliceStop(k, |sorted|)], pre, k)
  {
    var n := SliceStop(k, |sorted|);
    var top := sorted[..n];
    LeftOutIsSuffix(sorted, pre, n);
    CutOfSorted(sorted, n);
    forall x, i | x in multiset(pre) - multiset(top) && 0 <= i < |top|
      ensures x.adjustedScore <= top[i].adjustedScore
    {
      assert x in sorted[n..];
    }
  }

  /** Cutting a sorted list keeps the kept part sorted, and every entry cut
      off scores at most as much as every entry kept. */
  lemma CutOfSorted(sorted: seq<Recommendation>, n: int)
    requires SortedDescending(sorted) && 0 <= n <= |sorted|
    ensures SortedDescending(sorted[..n])
    ensures forall x, i :: x in sorted[n..] && 0 <= i < n ==> x.adjustedScore <= sorted[..n][i].adjustedScore
  {
    forall x, i | x in sorted[n..] && 0 <= i < n
      ensures x.adjustedScore <= sorted[..n][i].adjustedScore
    {
      var q :| 0 <= q < |sorted| - n && sorted[n..][q] == x;
      assert sorted[n + q] == x;
    }
  }

  /** What a cut at `n` leaves out of a rearrangement of `pre` is the suffix
      after the cut, and what it keeps is drawn from `pre`. */
  lemma LeftOutIsSuffix(sorted: seq<Recommendation>, pre: seq<Recommendation>, n: int)
    requires multiset(sorted) == multiset(pre) && 0 <= n <= |sorted|
    ensures multiset(sorted[..n]) <= multiset(pre)
    ensures multiset(pre) - multiset(sorted[..n]) == multiset(sorted[n..])
  {
    assert sorted == sorted[..n] + sorted[n..];
    assert multiset(sorted) == multiset(sorted[..n]) + multiset(sorted[n..]);
  }
}
