# Customer-feedback sentiment analyser: the app's own logic

The application is a React page. It takes free-text customer feedback, sends it
to a hosted language model with a fixed JSON output contract, and shows the
structured answer: a sentiment label, a score, a summary and key themes. The
model covers the logic the page has of its own:

- the **workflow controller** (`App.tsx`). It has four state cells (`feedback`,
  `analysis`, `isLoading`, `error`), the submission handler with its blank guard
  and a finally step that clears the loading flag, the reset handler, and the
  four render conditions. `App.Workflow` is a class over the four cells. Its
  methods are specified by the pure transition functions `Begin`, `Complete`,
  `Submit` and `Reset`. The one `await` in the handler becomes two steps,
  `BeginAnalysis` and `CompleteAnalysis(outcome)`. `outcome` is the abstract
  value the awaited analysis settles to.
- the **analysis client** (`services/geminiService.ts`). It covers the prompt
  string, trimming and parsing the reply, the presence check on `sentiment` and
  `keyThemes`, and collapsing every failure into one generic message. The remote
  call (`generate`) and `JSON.parse` (`parse`) are function parameters. A parsed
  value is a `Json.Json`, and the check follows JavaScript truthiness
  (`Json.Truthy`).
- the **presenter and form** (`components/AnalysisDisplay.tsx`,
  `components/FeedbackForm.tsx`). These are the style table, the score-bar
  percentage as an exact `real`, the choice between theme tags and the
  placeholder, the disabled flags and the button label.
- the **types** (`types.ts`): `Types.Sentiment`, `Types.AnalysisResult`, and
  conversions between a result and its JSON object.
- `Text.Trim` is JavaScript's `String.prototype.trim`. The submission guard, the
  button and the reply handling all use it.

The state keeps the parsed value as the client returned it (`analysis: Json`,
with `JNull` for `null`), because the client does not narrow it to the declared
type. `GeminiService.AcceptedButNotWellTyped` shows a reply that passes the
check but is not an `AnalysisResult`. The presenter functions take a well-typed
`AnalysisResult`. `Types.FromJson` says when a parsed value is one.

Two behaviours of the code are worth stating plainly:
- The four render conditions at `App.tsx:58-61` are independent tests, not a
  chain, so the error panel and the result panel can render together
  (`App.BlankSubmitAfterSuccess`). The rendered page does not reach that state
  by itself: the Analyze button is disabled while the feedback is blank
  (`components/FeedbackForm.tsx:29`, `App.EnabledButtonPassesGuard`), so the
  blank guard fires only when the handler is invoked some other way.
- An error whose message is the empty string is falsy at `App.tsx:59` and is
  not displayed; with no result and no loading, only the welcome panel shows
  (`App.EmptyMessageShowsWelcome`).

## Model

| member | source | states |
|---|---|---|
| Text.Trim | services/geminiService.ts:67 | the result is s with runs of JS whitespace/line terminators removed at both ends and has none left at either end |
| Text.TrimUnique | services/geminiService.ts:67 | any stripping of s without whitespace ends equals Trim(s): the two properties determine trim |
| Text.TrimIgnoresPrefix | services/geminiService.ts:67 | whitespace added before a string does not change its trim |
| Text.TrimIgnoresSuffix | services/geminiService.ts:67 | whitespace added after a string does not change its trim |
| Text.TrimIgnoresPadding | services/geminiService.ts:67 | whitespace added before and after a string does not change its trim |
| Text.TrimIdempotent | services/geminiService.ts:67 | trimming twice is trimming once |
| Text.BlankIffAllTrimmable | App.tsx:18 | trimming leaves the empty string exactly when every character of s is whitespace |
| Text.IsBlank | App.tsx:18 | `!s.trim()` holds exactly when every character of s is whitespace; the same test disables the button at components/FeedbackForm.tsx:29 |
| Types.SentimentValue | types.ts:3-5 | each member's string value is its own non-empty name: "Positive", "Negative" or "Neutral" |
| Types.SentimentOfValue | types.ts:2-6 | reading a label gives member s exactly when the label is s's string value, so the member-to-string map is injective and invertible |
| Types.Members | types.ts:2-6 | the enum has three members with pairwise distinct string values |
| Types.MembersComplete | types.ts:2-6 | every Sentiment is one of those three |
| Types.StringArray | types.ts:12 | a list of strings becomes an array of string values of the same length, item for item, in order |
| Types.Strings | types.ts:12 | an array reads back as a list of strings exactly when every item is a string, item for item |
| Types.StringsOfStringArray | types.ts:12 | reading the array form of a string list gives the list back |
| Types.ToJson | types.ts:8-13 | an AnalysisResult's JSON object has exactly the four fields sentiment, sentimentScore, summary, keyThemes |
| Types.FromJson | types.ts:8-13 | a value read as a result is an object that agrees with that result's JSON form on all four fields |
| Types.FromJsonIgnoresOtherMembers | types.ts:8-13 | any object carrying a result's four fields reads as that result, whatever other members it has; with Types.FromJson this makes the reading exact |
| Types.FromJsonToJson | types.ts:8-13 | reading back the JSON form of any result gives the result |
| Json.Truthy | services/geminiService.ts:71 | a JavaScript value is falsy exactly when it is null, false, 0 or the empty string; arrays and objects, even empty ones, are truthy |
| Json.TruthyMember | services/geminiService.ts:71 | an absent member reads as undefined and is falsy; a present one is truthy exactly when its value is |
| GeminiService.Prompt | services/geminiService.ts:43-55 | the prompt is the fixed head, the feedback verbatim and unescaped between two double quotes, then the fixed tail |
| GeminiService.PromptInjective | services/geminiService.ts:43-55 | different feedback gives different prompts |
| GeminiService.Validate | services/geminiService.ts:71-75 | a parsed value passes exactly when it is an object with a truthy sentiment and a truthy keyThemes, and then it is returned unchanged; null fails with a TypeError, anything else with the invalid-format error |
| GeminiService.ParseReply | services/geminiService.ts:67-75 | the outcome depends on the reply only through its trim; success means the parser accepted the trimmed text and the check passed, with the parsed value returned |
| GeminiService.Analyze | services/geminiService.ts:43-75 | the remote call receives the prompt, and the outcome is classified exactly: it fails with the call's own cause exactly when the call failed; as unparsable, carrying the trimmed reply, exactly when the parser rejects the trimmed reply; with a TypeError exactly when the trimmed reply parses to null; with the invalid-format error exactly when it parses to anything else that lacks an object shape with truthy sentiment and keyThemes; and succeeds otherwise, with the parsed value |
| GeminiService.AnalyzeSentiment | services/geminiService.ts:41-80 | every failure carries exactly the generic message; success holds exactly when a reply came and passed, and returns the parsed object unchanged, with truthy sentiment and keyThemes |
| GeminiService.ReplyPaddingIgnored | services/geminiService.ts:67-68 | leading and trailing whitespace on the reply does not change the outcome |
| GeminiService.EmptySentimentRejected | services/geminiService.ts:71-72 | an empty sentiment string is rejected |
| GeminiService.MissingThemesRejected | services/geminiService.ts:71-72 | an object without keyThemes is rejected |
| GeminiService.EmptyThemesAccepted | services/geminiService.ts:71-75 | an empty keyThemes array passes, with the object unchanged |
| GeminiService.OtherMembersUnchecked | services/geminiService.ts:71 | changing or removing any member other than sentiment and keyThemes, such as the score or the summary, never changes the verdict |
| GeminiService.WellTypedAccepted | services/geminiService.ts:71-75 | every well-typed result passes unchanged, including a score outside [-1, 1] and more than five themes |
| GeminiService.AcceptedButNotWellTyped | services/geminiService.ts:68-75 | a reply with an unknown label and no score or summary passes, although it is not an AnalysisResult |
| AnalysisDisplay.SentimentConfig | components/AnalysisDisplay.tsx:12-31 | the style table has an entry for each of the three sentiment values, and the three entries differ in each of their four classes |
| AnalysisDisplay.StyleFor | components/AnalysisDisplay.tsx:43 | the lookup is defined for every sentiment, and its colour differs from every other sentiment's colour |
| AnalysisDisplay.ScorePercentage | components/AnalysisDisplay.tsx:34 | score -1, 0 and 1 give 0, 50 and 100 percent; the width is in [0, 100] exactly when the score is in [-1, 1], and an out-of-range score is not clamped |
| AnalysisDisplay.ScorePercentageLinear | components/AnalysisDisplay.tsx:34 | the width changes by 50 points per unit of score, so it is strictly increasing |
| AnalysisDisplay.TagsFrom | components/AnalysisDisplay.tsx:77-81 | one tag per theme, in list order, keyed by position |
| AnalysisDisplay.Themes | components/AnalysisDisplay.tsx:76-84 | tags exactly when the list is non-empty, one per theme in order with its index as key; otherwise the placeholder sentence |
| AnalysisDisplay.Render | components/AnalysisDisplay.tsx:43-84 | the label is the sentiment's string value verbatim and is styled by its table entry; the bar width is the score's percentage, in [0, 100] exactly when the score is in [-1, 1]; the summary is shown as given; the themes area is the tag list or placeholder of the themes, with tags exactly when there are themes |
| AnalysisDisplay.DistinctSentimentsDistinctColours | components/AnalysisDisplay.tsx:12-31 | results with different sentiments render in different colours |
| AnalysisDisplay.PositiveScenario | components/AnalysisDisplay.tsx:34-84 | a Positive result with score 0.9 and two themes renders green, with the bar at 95 percent and two tags in order |
| FeedbackForm.Form | components/FeedbackForm.tsx:22-32 | the textarea shows the feedback and is disabled exactly while loading; the button is disabled exactly while loading or while the feedback is all whitespace; its label is "Analyzing..." while loading and "Analyze Sentiment" otherwise |
| App.FailureMessage | App.tsx:32 | an Error's message is kept as is; anything else thrown gives the unknown-error message |
| App.ErrorShown | App.tsx:59 | the error panel's condition holds exactly when the error is a string other than the empty one |
| App.PanelsOf | App.tsx:58-61 | the loader shows exactly while loading; the error panel exactly when the error is a non-empty string; the result exactly when the analysis is truthy and not loading; the welcome panel exactly when none of the tests holds, so exactly when no other panel shows; the loader and the result never show together |
| App.Begin | App.tsx:19-25 | a blank feedback only sets the error to the blank-input message and goes no further; otherwise loading starts with error and result cleared, and only the loader shows |
| App.Complete | App.tsx:27-35 | a success records the value unchanged and a failure records its message; the loading flag ends false in both cases, and nothing else is written |
| App.Submit | App.tsx:18-36 | blank: only the error changes; non-blank: loading ends false, and a success leaves the value and no error, a failure leaves its message and no result |
| App.Reset | App.tsx:38-43 | from any state: empty feedback, no result, no error, not loading, only the welcome panel |
| App.ResetIdempotent | App.tsx:38-43 | resetting twice is resetting once |
| App.EnabledButtonPassesGuard | components/FeedbackForm.tsx:29 | whenever the Analyze button is enabled, the blank guard of the handler cannot fire |
| App.BlankSubmitAfterSuccess | App.tsx:18-60 | a blank submission after a success keeps the result and sets the error, so both panels render; the page's own button cannot issue it (components/FeedbackForm.tsx:29) |
| App.EmptyMessageShowsWelcome | App.tsx:59-61 | after a rejection whose message is empty, only the welcome panel shows |
| App.LateCompletionAfterReset | App.tsx:27-43 | a reset while a request is outstanding does not stop that request's completion from recording and showing its result; the page's own Reset button is not rendered while loading (App.tsx:60) |
| App.OutcomeOf | services/geminiService.ts:78 | the client's failure reaches the handler as an Error carrying the message |
| App.SubmitWithService | App.tsx:28-34 | a non-blank submission against the client shows exactly one panel: the unchanged result, or the generic failure message |
| App.Workflow.constructor | App.tsx:13-16 | the four cells start empty, null, false and null |
| App.Workflow.SetFeedback | components/FeedbackForm.tsx:23 | the new text is stored as given and nothing else changes |
| App.Workflow.BeginAnalysis | App.tsx:19-25 | the new cells and the started flag are those of Begin |
| App.Workflow.CompleteAnalysis | App.tsx:27-35 | the new cells are those of Complete |
| App.Workflow.HandleAnalysis | App.tsx:18-36 | the new cells are those of Submit |
| App.Workflow.HandleReset | App.tsx:38-43 | the new cells are those of Reset |

## Left out

- The remote call and the client setup (`services/geminiService.ts:2, 12, 57-65`) are foreign network I/O. The model replaces them with the `generate` parameter, which sees the prompt. The response schema and the temperature sent with the request (lines 14-38, 58-64) are not modelled.
- `JSON.parse` (`services/geminiService.ts:68`) is a library parser. It is the `parse` parameter, with `None` standing for a SyntaxError.
- The `API_KEY` check (`services/geminiService.ts:6-10`) is process configuration that fails at module load.
- `console.error` logging (`App.tsx:31`, `services/geminiService.ts:77`) has no observable state. `GeminiService.Cause` records what would be logged.
- `toFixed(2)` (`components/AnalysisDisplay.tsx:64`) is floating-point formatting. Scores are exact reals, not doubles.
- React hooks, `useCallback`, scheduling and batching are not modelled. The single await becomes two steps. `HandleAnalysis` and `Submit` cover the case where nothing runs in between. `App.LateCompletionAfterReset` covers a reset that runs in between; the page itself does not issue one, because the Reset button belongs to the result panel (`components/AnalysisDisplay.tsx:56`), which is not rendered while loading (`App.tsx:60`), so the lemma describes the handlers, not a sequence of clicks.
- AnalysisDisplay.Render: defined only for well-typed results. The original also renders what the check lets through, and throws when the label is not in the table or the score is missing. The model does not capture that throw.
- The Reset button's placement and the Header, Loader, ErrorMessage, Welcome and SentimentIcon components are static markup or styling.
