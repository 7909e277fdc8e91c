/** The result view: a style per sentiment, the score bar, the summary and the
    theme tags. */
module AnalysisDisplay {
  import opened Types

  /** The four style classes the view takes from the sentiment. */
  datatype Style = Style(color: string, bgColor: string, borderColor: string, progressColor: string)

  /** `sentimentConfig`: the style table, keyed by each sentiment's string value. */
  function SentimentConfig(): (table: map<string, Style>)
    ensures table.Keys == {"Positive", "Negative", "Neutral"}
    ensures forall s: Sentiment :: SentimentValue(s) in table
    ensures forall a: Sentiment, b: Sentiment | a != b ::
      var x, y := table[SentimentValue(a)], table[SentimentValue(b)];
      x.color != y.color && x.bgColor != y.bgColor && x.borderColor != y.borderColor && x.progressColor != y.progressColor
  {
    map[
      "Positive" := Style("text-green-400", "bg-green-500/10", "border-green-500/30", "bg-green-500"),
      "Negative" := Style("text-red-400", "bg-red-500/10", "border-red-500/30", "bg-red-500"),
      "Neutral" := Style("text-yellow-400", "bg-yellow-500/10", "border-yellow-500/30", "bg-yellow-500")]
  }

  /** `sentimentConfig[result.sentiment]`: defined for every sentiment. */
  function StyleFor(s: Sentiment): (style: Style)
    ensures style in SentimentConfig().Values
    ensures forall t: Sentiment :: t != s ==> SentimentConfig()[SentimentValue(t)].color != style.color
  {
    SentimentConfig()[SentimentValue(s)]
  }

  /** The score bar's width in percent. Nothing clamps it: a score in [-1, 1],
      and only such a score, gives a width in [0, 100]. */
  function ScorePercentage(score: real): (p: real)
    ensures score == -1.0 ==> p == 0.0
    ensures score == 0.0 ==> p == 50.0
    ensures score == 1.0 ==> p == 100.0
    ensures 0.0 <= p <= 100.0 <==> -1.0 <= score <= 1.0
  {
    ((score + 1.0) / 2.0) * 100.0
  }

  /** The width grows by 50 points per unit of score, so it is strictly increasing. */
  lemma ScorePercentageLinear(a: real, b: real)
    ensures ScorePercentage(b) - ScorePercentage(a) == 50.0 * (b - a)
    ensures a < b ==> ScorePercentage(a) < ScorePercentage(b)
  {
  }

  /** One rendered theme tag: its React key and the theme it shows. */
  datatype Tag = Tag(key: nat, text: string)

  /** The theme area: the tags, or the placeholder sentence. */
  datatype ThemesView = TagList(tags: seq<Tag>) | Placeholder(text: string)

  const NoThemesText: string := "No specific themes were identified."

  /** `themes.map((theme, index) => ...)` for items numbered from `first` on. */
  function TagsFrom(themes: seq<string>, first: nat): (tags: seq<Tag>)
    ensures |tags| == |themes|
    ensures forall i | 0 <= i < |themes| :: tags[i] == Tag(first + i, themes[i])
  {
    if themes == [] then [] else [Tag(first, themes[0])] + TagsFrom(themes[1..], first + 1)
  }

  /** Tags exactly when there is a theme: one per theme, in list order, keyed by
      position; otherwise the placeholder. */
  function Themes(themes: seq<string>): (v: ThemesView)
    ensures v.TagList? <==> |themes| > 0
    ensures v.Placeholder? ==> v.text == NoThemesText
    ensures v.TagList? ==> |v.tags| == |themes|
    ensures v.TagList? ==> forall i | 0 <= i < |themes| :: v.tags[i].text == themes[i] && v.tags[i].key == i
  {
    if |themes| > 0 then TagList(TagsFrom(themes, 0)) else Placeholder(NoThemesText)
  }

  /** What the result view shows. */
  datatype View = View(
    sentimentLabel: string,
    style: Style,
    barWidth: real,
    summary: string,
    themes: ThemesView)

  /** The result view: the label is the sentiment's string value verbatim, its
      style the table's entry for that value, the bar as wide as the score says,
      the summary as given. */
  function Render(result: AnalysisResult): (v: View)
    ensures v.sentimentLabel == SentimentValue(result.sentiment)
    ensures v.sentimentLabel in SentimentConfig() && v.style == SentimentConfig()[v.sentimentLabel]
    ensures v.barWidth == ScorePercentage(result.sentimentScore)
    ensures -1.0 <= result.sentimentScore <= 1.0 <==> 0.0 <= v.barWidth <= 100.0
    ensures v.summary == result.summary
    ensures v.themes == Themes(result.keyThemes)
    ensures v.themes.TagList? <==> result.keyThemes != []
  {
    View(SentimentValue(result.sentiment), StyleFor(result.sentiment),
         ScorePercentage(result.sentimentScore), result.summary, Themes(result.keyThemes))
  }

  /** Results with different sentiments are told apart by colour. */
  lemma DistinctSentimentsDistinctColours(a: AnalysisResult, b: AnalysisResult)
    requires a.sentiment != b.sentiment
    ensures Render(a).style.color != Render(b).style.color
  {
  }

  /** Positive praise with score 0.9 and two themes: Positive styling, a bar at
      95 percent, the summary as given and two tags. */
  lemma PositiveScenario()
    ensures var r := AnalysisResult(Positive, 0.9, "Customer praised fast delivery and service.",
                                    ["delivery speed", "service quality"]);
      var v := Render(r);
      v.style.color == "text-green-400" && v.barWidth == 95.0 &&
      v.summary == "Customer praised fast delivery and service." &&
      v.themes == TagList([Tag(0, "delivery speed"), Tag(1, "service quality")])
  {
    var themes := ["delivery speed", "service quality"];
    assert Themes(themes).tags == [Tag(0, "delivery speed"), Tag(1, "service quality")];
  }
}
