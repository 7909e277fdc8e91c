/** The input form: a textarea bound to the feedback text and the Analyze button. */
module FeedbackForm {
  import opened Text

  const AnalyzingLabel: string := "Analyzing..."
  const AnalyzeLabel: string := "Analyze Sentiment"

  /** What the form shows for the given feedback and loading flag. */
  datatype FormView = FormView(
    textareaValue: string,
    textareaDisabled: bool,
    buttonDisabled: bool,
    buttonLabel: string)

  /** The textarea shows the feedback and is disabled while loading; the button
      is disabled while loading or while the feedback is nothing but whitespace,
      and its label tells which of the two labels applies. */
  function Form(feedback: string, isLoading: bool): (v: FormView)
    ensures v.textareaValue == feedback
    ensures v.textareaDisabled <==> isLoading
    ensures v.buttonDisabled <==> isLoading || AllTrimmable(feedback)
    ensures v.buttonLabel == (if isLoading then AnalyzingLabel else AnalyzeLabel)
    ensures v.textareaDisabled ==> v.buttonDisabled
  {
    BlankIffAllTrimmable(feedback);
    FormView(feedback, isLoading, isLoading || IsBlank(feedback),
             if isLoading then AnalyzingLabel else AnalyzeLabel)
  }
}
