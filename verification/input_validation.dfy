/**
 * The title-and-abstract check in front of the tagging endpoints: a title
 * is required, and the title, a space and the abstract together must be
 * between 20 and 10000 characters long.
 */
module InputValidation {
  import opened Wrappers

  const CombinedTextMinimum: nat := 20
  const CombinedTextLimit: nat := 10000

  const TitleMissing: string := "A title must be provided"
  const TooLong: string := "The combined length of title and abstract must not exceed 10000 characters"
  const TooShort: string := "The combined length of title and abstract must be at least 20 characters"

  // The abstract is passed as `summary`: `abstract` is a Dafny keyword.

  /** A refusal: the error message and the HTTP status it is sent with. */
  datatype Rejection = Rejection(error: string, status: int)

  /** Python's `abstract or ""`. */
  function OrEmpty(s: Option<string>): string {
    if s.Some? then s.value else ""
  }

  /** The text whose length is checked: title, one space, abstract. */
  function CombinedText(title: string, summary: Option<string>): (t: string)
    ensures |t| == |title| + 1 + |OrEmpty(summary)|
  {
    title + " " + OrEmpty(summary)
  }

  /**
   * `validate_input`: None when the input is acceptable, otherwise the
   * first failing rule's message with status 400.
   */
  function ValidateInput(title: Option<string>, summary: Option<string>): (r: Option<Rejection>)
    ensures r.Some? ==> r.value.status == 400
    ensures title.None? || title == Some("") ==> r == Some(Rejection(TitleMissing, 400))
  {
    if title.None? || title.value == "" then Some(Rejection(TitleMissing, 400))
    else
      var combined := CombinedText(title.value, summary);
      if |combined| > CombinedTextLimit then Some(Rejection(TooLong, 400))
      else if |combined| < CombinedTextMinimum then Some(Rejection(TooShort, 400))
      else None
  }

  /**
   * The input is accepted exactly when a non-empty title is given and the
   * title, a space and the abstract take between 20 and 10000 characters;
   * a missing abstract counts as empty.
   */
  lemma AcceptedExactly(title: Option<string>, summary: Option<string>)
    ensures ValidateInput(title, summary).None? <==>
      title.Some? && title.value != "" &&
      20 <= |title.value| + 1 + |OrEmpty(summary)| <= 10000
  {
  }

  /**
   * With a title, a combined text over the limit is refused as too long,
   * one under the minimum as too short; the two never both apply.
   */
  lemma RejectionReasons(title: string, summary: Option<string>)
    requires title != ""
    ensures |title| + 1 + |OrEmpty(summary)| > 10000 ==>
      ValidateInput(Some(title), summary) == Some(Rejection(TooLong, 400))
    ensures |title| + 1 + |OrEmpty(summary)| < 20 ==>
      ValidateInput(Some(title), summary) == Some(Rejection(TooShort, 400))
  {
  }

  /** A missing abstract and an empty one are treated alike. */
  lemma MissingAbstractIsEmpty(title: Option<string>)
    ensures ValidateInput(title, None) == ValidateInput(title, Some(""))
  {
  }
}
