/**
 * The records that flow through the natural-language-to-OQL translator:
 * filter objects as the language model emits them, filter nodes as the
 * normaliser leaves them, and the query object in its three stages
 * (model output, normalised object, pruned answer).
 */
module OqlTypes {
  import opened Wrappers

  /** A filter value: a string, a boolean, a number or JSON null. */
  datatype Value = Str(s: string) | Bool(b: bool) | Num(n: real) | Null

  /**
   * One filter object as the model emits it. Every key is present; `kind`
   * is the object's `type` key ("branch", "leaf" or anything else).
   */
  datatype FilterObject = FilterObject(
    id: string,
    subjectEntity: string,
    kind: string,
    columnId: Option<string>,
    operator: string,
    value: Value,
    children: Option<seq<string>>)

  /**
   * A filter object after normalisation. A branch has lost its `value` and
   * `column_id` keys, a leaf its `children` key; `type` is the constructor.
   */
  datatype FilterNode =
    | Branch(id: string, subjectEntity: string, operator: string, children: Option<seq<string>>)
    | Leaf(id: string, subjectEntity: string, columnId: Option<string>, operator: string, value: Value)

  /** The `sort_by` object. */
  datatype SortSpec = SortSpec(columnId: string, direction: string)

  /** The full object the composer asks the model for: every key present. */
  datatype ModelOutput = ModelOutput(
    filters: seq<FilterObject>,
    summarizeBy: string,
    sortBy: SortSpec,
    returnColumns: seq<string>)

  /** The object after normalisation; `summarizeBy` None is JSON null. */
  datatype FinalObject = FinalObject(
    filters: seq<FilterNode>,
    summarizeBy: Option<string>,
    sortBy: SortSpec,
    returnColumns: seq<string>)

  /** A query object handed back to the caller; None marks an absent key. */
  datatype Query = Query(
    filters: Option<seq<FilterNode>>,
    summarizeBy: Option<string>,
    sortBy: Option<SortSpec>,
    returnColumns: Option<seq<string>>)

  /** The intent descriptor produced by the first model call. */
  datatype ParsedPrompt = ParsedPrompt(
    filtersNeeded: bool,
    summarizeBy: string,
    summarizeByFiltersNeeded: bool,
    sortByNeeded: bool,
    returnColumnsNeeded: bool)

  /** The `(ok, error_message)` pair the external query validator returns. */
  datatype Verdict = Verdict(ok: bool, message: string)
}
