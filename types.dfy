/** The value types shared by the service and the presenter. */
module Types {
  import opened Wrappers
  import opened Json

  /** The sentiment label; each member's string value is its own name. */
  datatype Sentiment = Positive | Negative | Neutral

  /** The string value of an enum member, as it appears in JSON. */
  function SentimentValue(s: Sentiment): (v: string)
    ensures v != ""
    ensures v == "Positive" || v == "Negative" || v == "Neutral"
  {
    match s
    case Positive => "Positive"
    case Negative => "Negative"
    case Neutral => "Neutral"
  }

  /** The member whose string value is v, if any. */
  function SentimentOfValue(v: string): (r: Option<Sentiment>)
    ensures forall s: Sentiment :: r == Some(s) <==> SentimentValue(s) == v
  {
    if v == "Positive" then Some(Positive)
    else if v == "Negative" then Some(Negative)
    else if v == "Neutral" then Some(Neutral)
    else None
  }

  /** The members of the enum, each once. */
  function Members(): (ms: seq<Sentiment>)
    ensures |ms| == 3
    ensures forall i, j | 0 <= i < j < |ms| :: ms[i] != ms[j] && SentimentValue(ms[i]) != SentimentValue(ms[j])
  {
    [Positive, Negative, Neutral]
  }

  /** Members lists every sentiment. */
  lemma MembersComplete(s: Sentiment)
    ensures s in Members()
  {
    match s
    case Positive => assert Members()[0] == s;
    case Negative => assert Members()[1] == s;
    case Neutral => assert Members()[2] == s;
  }

  /** The structured result the remote model is asked for. The score is meant to
      lie in [-1, 1] and the themes to number at most five, but nothing in the
      type enforces either. */
  datatype AnalysisResult = AnalysisResult(
    sentiment: Sentiment,
    sentimentScore: real,
    summary: string,
    keyThemes: seq<string>)

  const FieldNames: set<string> := {"sentiment", "sentimentScore", "summary", "keyThemes"}

  /** A list of strings as a JSON array. */
  function StringArray(xs: seq<string>): (items: seq<Json>)
    ensures |items| == |xs|
    ensures forall i | 0 <= i < |xs| :: items[i] == JString(xs[i])
  {
    if xs == [] then [] else [JString(xs[0])] + StringArray(xs[1..])
  }

  /** The strings of a JSON array, when every item is a string. */
  function Strings(items: seq<Json>): (r: Option<seq<string>>)
    ensures r.Some? <==> forall i | 0 <= i < |items| :: items[i].JString?
    ensures r.Some? ==> |r.value| == |items| && forall i | 0 <= i < |items| :: items[i] == JString(r.value[i])
  {
    if items == [] then Some([])
    else if !items[0].JString? then None
    else
      match Strings(items[1..])
      case None => None
      case Some(rest) => Some([items[0].str] + rest)
  }

  lemma {:induction false} StringsOfStringArray(xs: seq<string>)
    ensures Strings(StringArray(xs)) == Some(xs)
  {
    var r := Strings(StringArray(xs));
    assert r.Some?;
    assert r.value == xs;
  }

  /** An AnalysisResult as the JSON object the remote model returns for it:
      exactly the four fields. */
  function ToJson(r: AnalysisResult): (j: Json)
    ensures j.JObject? && j.members.Keys == FieldNames
  {
    JObject(map[
      "sentiment" := JString(SentimentValue(r.sentiment)),
      "sentimentScore" := JNumber(r.sentimentScore),
      "summary" := JString(r.summary),
      "keyThemes" := JArray(StringArray(r.keyThemes))])
  }

  /** The AnalysisResult a parsed value is, when it has all four fields with the
      declared types; other members are ignored, as a structural type would. */
  function FromJson(j: Json): (r: Option<AnalysisResult>)
    ensures r.Some? ==> j.JObject? && forall k | k in ToJson(r.value).members ::
      k in j.members && j.members[k] == ToJson(r.value).members[k]
  {
    if !j.JObject? then None
    else
      var m := j.members;
      if !(FieldNames <= m.Keys) then None
      else if !m["sentiment"].JString? || SentimentOfValue(m["sentiment"].str).None? then None
      else if !m["sentimentScore"].JNumber? || !m["summary"].JString? || !m["keyThemes"].JArray? then None
      else
        match Strings(m["keyThemes"].items)
        case None => None
        case Some(themes) =>
          var r := AnalysisResult(SentimentOfValue(m["sentiment"].str).value, m["sentimentScore"].n, m["summary"].str, themes);
          assert StringArray(themes) == m["keyThemes"].items;
          Some(r)
  }

  /** Any object that carries a result's four fields reads as that result,
      whatever other members it has. */
  lemma FromJsonIgnoresOtherMembers(j: Json, r: AnalysisResult)
    requires j.JObject?
    requires forall k | k in ToJson(r).members :: k in j.members && j.members[k] == ToJson(r).members[k]
    ensures FromJson(j) == Some(r)
  {
    var e := ToJson(r).members;
    assert "sentiment" in e && "sentimentScore" in e && "summary" in e && "keyThemes" in e;
    assert j.members["sentiment"] == JString(SentimentValue(r.sentiment));
    assert j.members["sentimentScore"] == JNumber(r.sentimentScore);
    assert j.members["summary"] == JString(r.summary);
    assert j.members["keyThemes"] == JArray(StringArray(r.keyThemes));
    StringsOfStringArray(r.keyThemes);
  }

  /** Reading back the JSON form of a result gives the result. */
  lemma FromJsonToJson(r: AnalysisResult)
    ensures FromJson(ToJson(r)) == Some(r)
  {
    StringsOfStringArray(r.keyThemes);
  }
}
