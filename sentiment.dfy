/** The sentiment classifier of the recommender (`analyze_sentiment`): a
    first-match rule chain over the query text, the emoji list and a
    polarity score. */
module Sentiment {
  import opened Text

  /** The three labels the classifier returns ("negative", "positive",
      "neutral" in the source). */
  datatype Sentiment = Negative | Positive | Neutral {
    function Label(): (s: string)
      ensures s in ["negative", "positive", "neutral"]
    {
      match this
      case Negative => "negative"
      case Positive => "positive"
      case Neutral => "neutral"
    }
  }

  /** Croatian words whose presence in the lower-cased text marks a query
      as negative. */
  const NegativeWords: seq<string> := ["tužno", "tužan", "melankolično", "žalostan", "tuga", "melankolija"]

  /** Emojis that mark a query as negative: 😢 😭 😞. */
  const NegativeEmojis: seq<string> := ["😢", "😭", "😞"]

  /** Emojis that mark a query as positive: 😊 😃 🎉 🥳 ❤️. */
  const PositiveEmojis: seq<string> := ["😊", "😃", "🎉", "🥳", "❤️"]

  /** Polarity strictly above this is positive, strictly below its negation
      is negative. */
  const PolarityThreshold: real := 0.1

  /** Rule 1: some negative keyword is a substring of the lower-cased text. */
  predicate HasNegativeKeyword(text: string): (hit: bool)
    ensures hit <==> exists w, i :: w in NegativeWords && OccursAt(Lower(text), w, i)
  {
    exists w :: w in NegativeWords && Contains(Lower(text), w)
  }

  /** `any(emoji in emotions for emoji in listed)`. */
  predicate MentionsAny(emotions: seq<string>, listed: seq<string>): (mentions: bool)
    ensures mentions <==> exists i :: 0 <= i < |emotions| && emotions[i] in listed
  {
    exists e :: e in listed && e in emotions
  }

  /** The classifier. `polarity` stands for the score the external NLP
      library computes for `text`. */
  function AnalyzeSentiment(text: string, emotions: seq<string>, polarity: real): (s: Sentiment)
    ensures s == Neutral ==> -PolarityThreshold <= polarity <= PolarityThreshold
    ensures s == Positive ==> !HasNegativeKeyword(text) && !MentionsAny(emotions, NegativeEmojis)
  {
    if HasNegativeKeyword(text) then Negative
    else if MentionsAny(emotions, NegativeEmojis) then Negative
    else if MentionsAny(emotions, PositiveEmojis) then Positive
    else if polarity > PolarityThreshold then Positive
    else if polarity < -PolarityThreshold then Negative
    else Neutral
  }

  /** A negative keyword decides the label whatever the emojis and the
      polarity say. */
  lemma KeywordOverridesEverything(text: string, emotions: seq<string>, polarity: real)
    requires HasNegativeKeyword(text)
    ensures AnalyzeSentiment(text, emotions, polarity) == Negative
  {
  }

  /** Text containing "tužno", in any letter case, is always negative. */
  lemma SadWordIsNegative(text: string, emotions: seq<string>, polarity: real)
    requires Contains(Lower(text), "tužno")
    ensures AnalyzeSentiment(text, emotions, polarity) == Negative
  {
    assert "tužno" in NegativeWords;
  }

  /** The keywords written in capitals, Croatian letters included. */
  const UpperNegativeWords: seq<string> := ["TUŽNO", "TUŽAN", "MELANKOLIČNO", "ŽALOSTAN", "TUGA", "MELANKOLIJA"]

  /** Lower-casing the capitalised keywords gives back the keywords: Ž and Č
      fold to ž and č. */
  lemma UpperKeywordsLowerToKeywords()
    ensures |UpperNegativeWords| == |NegativeWords|
    ensures forall i :: 0 <= i < |NegativeWords| ==> Lower(UpperNegativeWords[i]) == NegativeWords[i]
  {
    assert Lower("TUŽNO") == "tužno";
    assert Lower("TUŽAN") == "tužan";
    assert Lower("MELANKOLIČNO") == "melankolično";
    assert Lower("ŽALOSTAN") == "žalostan";
    assert Lower("TUGA") == "tuga";
    assert Lower("MELANKOLIJA") == "melankolija";
  }

  /** Any keyword written in capitals, such as "TUŽNO", "MELANKOLIČNO" or
      "TUGA", makes the text negative. */
  lemma CapitalKeywordIsNegative(text: string, emotions: seq<string>, polarity: real, w: string)
    requires w in UpperNegativeWords && Contains(text, w)
    ensures AnalyzeSentiment(text, emotions, polarity) == Negative
  {
    UpperKeywordsLowerToKeywords();
    var i :| 0 <= i < |UpperNegativeWords| && UpperNegativeWords[i] == w;
    ContainsLower(text, w);
    assert Lower(w) in NegativeWords;
  }

  /** Negative emojis are checked before positive ones. */
  lemma NegativeEmojiBeatsPositive(text: string, emotions: seq<string>, polarity: real)
    requires "😢" in emotions && "😊" in emotions
    ensures AnalyzeSentiment(text, emotions, polarity) == Negative
  {
    assert "😢" in NegativeEmojis;
  }

  /** A positive emoji alone (no keyword, no negative emoji) makes the query
      positive whatever the polarity. */
  lemma PartyEmojiIsPositive(text: string, polarity: real)
    requires !HasNegativeKeyword(text)
    ensures AnalyzeSentiment(text, ["🎉"], polarity) == Positive
  {
    assert "🎉" in PositiveEmojis;
    assert !MentionsAny(["🎉"], NegativeEmojis);
  }

  /** Without a keyword or a listed emoji, only the polarity counts, through
      the two thresholds; and the label never depends on anything else. */
  lemma PolarityDecidesOtherwise(text: string, emotions: seq<string>, polarity: real)
    requires !HasNegativeKeyword(text)
    requires !MentionsAny(emotions, NegativeEmojis) && !MentionsAny(emotions, PositiveEmojis)
    ensures AnalyzeSentiment(text, emotions, polarity) == Positive <==> polarity > 0.1
    ensures AnalyzeSentiment(text, emotions, polarity) == Negative <==> polarity < -0.1
    ensures AnalyzeSentiment(text, emotions, polarity) == Neutral <==> -0.1 <= polarity <= 0.1
  {
  }

  /** Complete characterisation of each label by the rule chain, in both
      directions. */
  lemma LabelCharacterisation(text: string, emotions: seq<string>, polarity: real)
    ensures var s := AnalyzeSentiment(text, emotions, polarity);
      && (s == Negative <==> HasNegativeKeyword(text) || MentionsAny(emotions, NegativeEmojis)
                              || (!MentionsAny(emotions, PositiveEmojis) && polarity < -0.1))
      && (s == Positive <==> !HasNegativeKeyword(text) && !MentionsAny(emotions, NegativeEmojis)
                              && (MentionsAny(emotions, PositiveEmojis) || polarity > 0.1))
  {
  }
}
