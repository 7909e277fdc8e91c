/** The analysis client: builds the prompt, hands it to the remote model, trims
    and parses the reply, checks two members and collapses every failure into one
    user-facing message. The remote call and the JSON parser are parameters. */
module GeminiService {
  import opened Wrappers
  import opened Text
  import opened Json
  import opened Types

  /** The one message every failure of the client carries. */
  const GenericFailureMessage: string := "Failed to analyze sentiment. Please check the console for more details."

  /** The message of the error raised when the presence check fails; it is only
      logged, then replaced by GenericFailureMessage. */
  const InvalidFormatMessage: string := "Invalid response format from API."

  /** The template text before the feedback (the line breaks and indentation of
      the template literal are part of it). */
  const PromptHead: string :=
    "\n" +
    "            You are an expert customer sentiment analyst. Analyze the following customer feedback text.\n" +
    "            Provide your analysis in a structured JSON format.\n" +
    "\n" +
    "            The JSON object should include:\n" +
    "            1.  \"sentiment\": Classify the sentiment as one of three options: \"Positive\", \"Negative\", or \"Neutral\".\n" +
    "            2.  \"sentimentScore\": A numerical score from -1.0 (most negative) to 1.0 (most positive).\n" +
    "            3.  \"summary\": A concise, one-sentence summary of the feedback.\n" +
    "            4.  \"keyThemes\": An array of strings representing the key topics or themes mentioned in the feedback. Limit this to a maximum of 5 themes.\n" +
    "\n" +
    "            Analyze the following text:\n" +
    "            \""

  /** The template text after the feedback. */
  const PromptTail: string := "\"\n        "

  /** The prompt: the feedback is interpolated verbatim, unescaped, between two
      double quotes. */
  function Prompt(text: string): (p: string)
    ensures |p| == |PromptHead| + |text| + |PromptTail|
    ensures p[..|PromptHead|] == PromptHead
    ensures p[|PromptHead|..|PromptHead| + |text|] == text
    ensures p[|PromptHead| + |text|..] == PromptTail
    ensures p[|PromptHead| - 1] == '"' && p[|PromptHead| + |text|] == '"'
  {
    PromptHead + text + PromptTail
  }

  /** Different feedback gives different prompts: the text can be read back. */
  lemma PromptInjective(a: string, b: string)
    requires Prompt(a) == Prompt(b)
    ensures a == b
  {
    assert |a| == |b|;
    assert a == Prompt(a)[|PromptHead|..|PromptHead| + |a|];
  }

  /** What the remote call settles to: a reply text, or a failure of transport,
      credentials or service. */
  datatype Generation = GenerationFailed(detail: string) | Generated(text: string)

  /** The cause of a failure, which the original logs and never returns. */
  datatype Cause =
    | RemoteFailed(detail: string)
    | Unparsable(text: string)   // JSON.parse threw a SyntaxError
    | NullDereference            // the reply was `null`: reading a member throws a TypeError
    | InvalidFormat              // the presence check failed

  /** The presence check: a member read on a non-object is undefined, so only an
      object with a truthy `sentiment` and a truthy `keyThemes` passes, and it
      passes unchanged. The score and the summary are never looked at. */
  function Validate(parsed: Json): (r: Result<Json, Cause>)
    ensures r.Ok? <==> parsed.JObject? && TruthyMember(parsed.members, "sentiment") && TruthyMember(parsed.members, "keyThemes")
    ensures r.Ok? ==> r.value == parsed
    ensures r.Err? ==> r.error == (if parsed.JNull? then NullDereference else InvalidFormat)
  {
    match parsed
    case JNull => Err(NullDereference)
    case JObject(m) =>
      if !TruthyMember(m, "sentiment") || !TruthyMember(m, "keyThemes") then Err(InvalidFormat)
      else Ok(parsed)
    case _ => Err(InvalidFormat)
  }

  /** Trim the reply text, parse it, check it. */
  function ParseReply(text: string, parse: string -> Option<Json>): (r: Result<Json, Cause>)
    ensures r.Ok? <==> parse(Trim(text)).Some? && Validate(parse(Trim(text)).value).Ok?
    ensures r.Ok? ==> Some(r.value) == parse(Trim(text))
  {
    var body := Trim(text);
    match parse(body)
    case None => Err(Unparsable(body))
    case Some(parsed) => Validate(parsed)
  }

  /** `analyzeSentiment(text)`: one request with the prompt, then the reply
      handling; whatever fails, the caller sees only GenericFailureMessage. */
  function AnalyzeSentiment(text: string, generate: string -> Generation, parse: string -> Option<Json>): (r: Result<Json, string>)
    ensures r.Err? ==> r.error == GenericFailureMessage
    ensures r.Ok? <==> generate(Prompt(text)).Generated? && ParseReply(generate(Prompt(text)).text, parse).Ok?
    ensures r.Ok? ==> Some(r.value) == parse(Trim(generate(Prompt(text)).text))
    ensures r.Ok? ==> r.value.JObject? && TruthyMember(r.value.members, "sentiment") && TruthyMember(r.value.members, "keyThemes")
  {
    match Analyze(text, generate, parse)
    case Ok(result) => Ok(result)
    case Err(_) => Err(GenericFailureMessage)
  }

  /** The body of the try block, with the cause of a failure kept: the call
      failed; the trimmed reply is not JSON; it is JSON null; it is JSON that
      fails the presence check; or it passed and is returned. */
  function Analyze(text: string, generate: string -> Generation, parse: string -> Option<Json>): (r: Result<Json, Cause>)
    ensures var g := generate(Prompt(text));
      r.Err? && r.error.RemoteFailed? <==> g.GenerationFailed?
    ensures var g := generate(Prompt(text));
      g.GenerationFailed? ==> r == Err(RemoteFailed(g.detail))
    ensures var g := generate(Prompt(text));
      r.Err? && r.error.Unparsable? <==> g.Generated? && parse(Trim(g.text)).None?
    ensures var g := generate(Prompt(text));
      r.Err? && r.error.Unparsable? ==> g.Generated? && r.error.text == Trim(g.text)
    ensures var g := generate(Prompt(text));
      r == Err(NullDereference) <==> g.Generated? && parse(Trim(g.text)) == Some(JNull)
    ensures var g := generate(Prompt(text));
      r == Err(InvalidFormat) <==>
        (g.Generated? && parse(Trim(g.text)).Some? &&
         var v := parse(Trim(g.text)).value;
         v != JNull && !(v.JObject? && TruthyMember(v.members, "sentiment") && TruthyMember(v.members, "keyThemes")))
    ensures var g := generate(Prompt(text));
      r.Ok? <==>
        (g.Generated? && parse(Trim(g.text)).Some? &&
         var v := parse(Trim(g.text)).value;
         v.JObject? && TruthyMember(v.members, "sentiment") && TruthyMember(v.members, "keyThemes"))
    ensures r.Ok? ==> var g := generate(Prompt(text)); g.Generated? && Some(r.value) == parse(Trim(g.text))
  {
    match generate(Prompt(text))
    case GenerationFailed(detail) => Err(RemoteFailed(detail))
    case Generated(reply) => ParseReply(reply, parse)
  }

  /** Whitespace around the reply does not change the outcome. */
  lemma ReplyPaddingIgnored(p: string, reply: string, q: string, parse: string -> Option<Json>)
    requires AllTrimmable(p) && AllTrimmable(q)
    ensures ParseReply(p + reply + q, parse) == ParseReply(reply, parse)
  {
    TrimIgnoresPadding(p, reply, q);
  }

  /** An empty sentiment string is falsy and is rejected. */
  lemma EmptySentimentRejected(m: map<string, Json>)
    requires "sentiment" in m && m["sentiment"] == JString("")
    ensures Validate(JObject(m)) == Err(InvalidFormat)
  {
  }

  /** A missing keyThemes member is rejected, whatever the rest. */
  lemma MissingThemesRejected(m: map<string, Json>)
    requires "keyThemes" !in m
    ensures Validate(JObject(m)) == Err(InvalidFormat)
  {
  }

  /** An empty keyThemes array is truthy and passes. */
  lemma EmptyThemesAccepted(m: map<string, Json>)
    requires TruthyMember(m, "sentiment") && "keyThemes" in m && m["keyThemes"] == JArray([])
    ensures Validate(JObject(m)) == Ok(JObject(m))
  {
  }

  /** No member other than sentiment and keyThemes, in particular neither the
      score nor the summary, affects the check: changing or removing it gives
      the same verdict. */
  lemma OtherMembersUnchecked(m: map<string, Json>, key: string, v: Json)
    requires key != "sentiment" && key != "keyThemes"
    ensures Validate(JObject(m[key := v])).Ok? == Validate(JObject(m)).Ok?
    ensures Validate(JObject(m - {key})).Ok? == Validate(JObject(m)).Ok?
  {
  }

  /** Every well-typed result passes and is returned as it is: a score outside
      [-1, 1] is not clamped and more than five themes are not truncated. */
  lemma WellTypedAccepted(r: AnalysisResult)
    ensures Validate(ToJson(r)) == Ok(ToJson(r))
  {
    assert SentimentValue(r.sentiment) != "";
  }

  /** The check is weaker than the type: a reply with an unknown label and no
      score or summary passes, although it is not an AnalysisResult. */
  lemma AcceptedButNotWellTyped()
    ensures var j := JObject(map["sentiment" := JString("Happy"), "keyThemes" := JArray([])]);
      Validate(j) == Ok(j) && FromJson(j) == None
  {
  }
}
