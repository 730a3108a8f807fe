/** Description assignment of the recommender (`add_descriptions`): every
    catalogue row gets a description drawn from the template pool of its
    genre label, or the generic pool when the label has none. The random
    draw is a parameter: `picks[i]` selects the template of row `i`. */
module Descriptions {

  /** One catalogue row as loaded from the corpus table. */
  datatype Row = Row(id: int, filename: string, genre: string, filepath: string)

  /** A row with its two description columns (`description` and its copy
      `description_en`). */
  datatype DescribedRow = DescribedRow(row: Row, description: string, descriptionEn: string)

  /** The pool used for labels without templates of their own. */
  const DefaultPool: seq<string> := ["Glazbena pjesma."]

  /** The `i`-th template of the blues pool. */
  function BluesTemplate(i: nat): string
    requires i < 6
  {
    [
      "Blues pjesma s tužnim melodijama.",
      "Spor ritam s emotivnim gitarskim solažama.",
      "Blues pjesma s melankoličnim vokalom i klasičnom gitarom.",
      "Instrumentalna blues pjesma s duševnim tonovima.",
      "Klasična blues pjesma sa solo gitarom.",
      "Tužna blues pjesma s nježnim tonovima i sporim tempom."
    ][i]
  }

  /** The `i`-th template of the classical pool. */
  function ClassicalTemplate(i: nat): string
    requires i < 6
  {
    [
      "Klasična instrumentalna glazba s bogatim melodijama.",
      "Orkestralna glazba s elegantnim aranžmanima.",
      "Mirna klasična glazba s violinom.",
      "Simfonijska pjesma s klavirom i gudačima.",
      "Nježna klasična skladba s toplim tonovima.",
      "Melankolična klasična pjesma s tužnim harmonijama."
    ][i]
  }

  /** The `i`-th template of the jazz pool. */
  function JazzTemplate(i: nat): string
    requires i < 6
  {
    [
      "Jazz pjesma s nježnim saksofonom.",
      "Instrumentalna jazz glazba s opuštenom atmosferom.",
      "Jazz s toplim tonovima i bogatom harmonijom.",
      "Improvozirana jazz pjesma s bubnjevima i bas linijom.",
      "Klasična jazz pjesma s pianom i brass sekcijom.",
      "Tužna jazz balada s emotivnim saksofonom."
    ][i]
  }

  /** The `i`-th template of the country pool. */
  function CountryTemplate(i: nat): string
    requires i < 5
  {
    [
      "Country pjesma s akustičnim gitarama.",
      "Vesela country pjesma s pričom u stihovima.",
      "Country pjesma s bendžom i toplim glasom.",
      "Akustični country ritam s narativnim tekstom.",
      "Tradicionalna country pjesma s harmonikom."
    ][i]
  }

  /** The `i`-th template of the disco pool. */
  function DiscoTemplate(i: nat): string
    requires i < 5
  {
    [
      "Plesna disco pjesma s brzim ritmom.",
      "Retro disco hit s ritmičnim basom.",
      "Vesela disco pjesma s pjevnim refrenom.",
      "Disco pjesma s klasičnim 80s zvukom.",
      "Brza disco pjesma s funky gitarama."
    ][i]
  }

  /** The `i`-th template of the hip-hop pool. */
  function HipHopTemplate(i: nat): string
    requires i < 5
  {
    [
      "Trap pjesma s modernim beatovima.",
      "Hip-hop pjesma s ritmičnim beatom.",
      "Moderna hip-hop pjesma s urbanim stilom.",
      "Rap pjesma s izraženim vokalom i beatom.",
      "Hip-hop pjesma s agresivnim flowom."
    ][i]
  }

  /** The `i`-th template of the metal pool. */
  function MetalTemplate(i: nat): string
    requires i < 5
  {
    [
      "Energična metal pjesma s distorzijom.",
      "Intenzivna metal pjesma s žestokim gitarama.",
      "Metal pjesma s brzim bubnjevima i vokalom.",
      "Teška metal pjesma s gitarskim rifovima.",
      "Metal pjesma s agresivnim beatom."
    ][i]
  }

  /** The `i`-th template of the pop pool. */
  function PopTemplate(i: nat): string
    requires i < 5
  {
    [
      "Vesela pop pjesma s modernom produkcijom.",
      "Pop hit s lako pamtljivim refrenom.",
      "Optimistična pop pjesma s ritmičnim beatom.",
      "Moderna pop pjesma s plesnim ritmom.",
      "Pop pjesma s vedrim tonom i zaraznom melodijom."
    ][i]
  }

  /** The `i`-th template of the reggae pool. */
  function ReggaeTemplate(i: nat): string
    requires i < 5
  {
    [
      "Reggae pjesma s jamajčinskim ugođajem.",
      "Opustena reggae pjesma s laganim beatom.",
      "Reggae s toplim vokalom i ritmom.",
      "Plesna reggae pjesma s bas linijom.",
      "Reggae pjesma s mirnom atmosferom."
    ][i]
  }

  /** The `i`-th template of the rock pool. */
  function RockTemplate(i: nat): string
    requires i < 5
  {
    [
      "Energijska rock pjesma s izraženim električnim gitarama.",
      "Rock pjesma s brzim ritmom i bubnjevima.",
      "Rock pjesma s jakim vokalom i rifovima.",
      "Dinamična rock pjesma s distorzijom.",
      "Rock pjesma s klasičnim zvukom gitare."
    ][i]
  }

  /** The template pool of a genre label (`genre_templates.get(genre,
      default)`), with the generic pool for labels that have none. */
  function PoolFor(genre: string): (pool: seq<string>)
    ensures pool != []
    ensures genre !in TemplateGenres ==> pool == DefaultPool
  {
    if genre == "blues" then seq(6, BluesTemplate)
    else if genre == "classical" then seq(6, ClassicalTemplate)
    else if genre == "jazz" then seq(6, JazzTemplate)
    else if genre == "country" then seq(5, CountryTemplate)
    else if genre == "disco" then seq(5, DiscoTemplate)
    else if genre == "hiphop" then seq(5, HipHopTemplate)
    else if genre == "metal" then seq(5, MetalTemplate)
    else if genre == "pop" then seq(5, PopTemplate)
    else if genre == "reggae" then seq(5, ReggaeTemplate)
    else if genre == "rock" then seq(5, RockTemplate)
    else DefaultPool
  }

  /** The labels that have a pool of their own. */
  const TemplateGenres: set<string> :=
    {"blues", "classical", "jazz", "country", "disco", "hiphop", "metal", "pop", "reggae", "rock"}

  /** `random.choice(pool)`, with the draw given as `pick`. */
  function Choose(pool: seq<string>, pick: nat): (t: string)
    requires pool != []
    ensures t in pool
  {
    pool[pick % |pool|]
  }

  /** The description column for one row. */
  function Describe(row: Row, pick: nat): (d: DescribedRow)
    ensures d.row == row && d.description in PoolFor(row.genre) && d.descriptionEn == d.description
  {
    var text := Choose(PoolFor(row.genre), pick);
    DescribedRow(row, text, text)
  }

  /** `add_descriptions`: rows keep their order and contents, and each gets
      a template of its own genre's pool in both description columns. */
  function AddDescriptions(rows: seq<Row>, picks: seq<nat>): (described: seq<DescribedRow>)
    requires |picks| == |rows|
    ensures |described| == |rows|
    ensures forall i :: 0 <= i < |rows| ==>
      && described[i].row == rows[i]
      && described[i].description in PoolFor(rows[i].genre)
      && described[i].descriptionEn == described[i].description
    ensures forall i :: 0 <= i < |rows| && rows[i].genre !in TemplateGenres ==>
      described[i].description == "Glazbena pjesma."
  {
    seq(|rows|, i requires 0 <= i < |rows| => Describe(rows[i], picks[i]))
  }

  /** Index of the first occurrence of `t` in `pool`. */
  function IndexOf(pool: seq<string>, t: string): (i: nat)
    requires t in pool
    ensures i < |pool| && pool[i] == t
  {
    if pool[0] == t then 0 else 1 + IndexOf(pool[1..], t)
  }

  /** Conversely, any assignment of in-pool templates is a possible outcome
      of `add_descriptions` for some sequence of draws. */
  lemma EveryInPoolAssignmentIsPossible(rows: seq<Row>, texts: seq<string>)
    requires |texts| == |rows|
    requires forall i :: 0 <= i < |rows| ==> texts[i] in PoolFor(rows[i].genre)
    ensures exists picks: seq<nat> ::
      |picks| == |rows| && (forall i :: 0 <= i < |rows| ==> AddDescriptions(rows, picks)[i].description == texts[i])
  {
    var picks := seq(|rows|, i requires 0 <= i < |rows| => IndexOf(PoolFor(rows[i].genre), texts[i]));
    var described := AddDescriptions(rows, picks);
    forall i | 0 <= i < |rows|
      ensures described[i].description == texts[i]
    {
      DescribeWithIndex(rows[i], texts[i]);
    }
  }

  /** Drawing the index of a template yields that template. */
  lemma DescribeWithIndex(row: Row, t: string)
    requires t in PoolFor(row.genre)
    ensures Describe(row, IndexOf(PoolFor(row.genre), t)).description == t
  {
    ChooseIndexOf(PoolFor(row.genre), t);
  }

  /** Drawing the index of a template from any pool yields that template. */
  lemma ChooseIndexOf(pool: seq<string>, t: string)
    requires t in pool
    ensures Choose(pool, IndexOf(pool, t)) == t
  {
    var i := IndexOf(pool, t);
    assert i % |pool| == i;
  }
}
