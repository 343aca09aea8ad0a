/**
 * The translator's own structural checks of a model answer against the
 * entity catalog: filters, aggregation target, sort order and output
 * columns, and their conjunction.
 */
module LocalValidator {
  import opened Wrappers
  import opened OqlTypes
  import opened SchemaCatalog

  /** A check's verdict, or the catalog key whose lookup raised `KeyError`. */
  datatype Checked = Checked(ok: bool) | KeyError(key: string)

  /** Python truthiness of a string that may be None. */
  predicate Truthy(s: Option<string>) {
    s.Some? && s.value != ""
  }

  /** The entity whose columns sort and return columns are checked against. */
  function Target(summarizeBy: Option<string>): (e: string)
    ensures Truthy(summarizeBy) ==> e == summarizeBy.value
    ensures !Truthy(summarizeBy) ==> e == "works"
  {
    if Truthy(summarizeBy) then summarizeBy.value else "works"
  }

  /** The verdict on one filter object, as the loop body of the check gives it. */
  predicate FilterAccepted(f: FilterObject, catalog: Catalog) {
    f.subjectEntity in catalog &&
    f.columnId.Some? &&
    (f.columnId.value in catalog[f.subjectEntity].filter || f.columnId.value == "")
  }

  /**
   * The filter check. Its loop returns during the first iteration, so the
   * verdict is that of the first filter alone; an empty list passes.
   */
  function CheckFilters(filters: seq<FilterObject>, catalog: Catalog): (r: bool)
    ensures filters == [] ==> r
    ensures filters != [] && filters[0].subjectEntity !in catalog ==> !r
    ensures filters != [] && filters[0].columnId == Some("") ==> (r <==> filters[0].subjectEntity in catalog)
    ensures filters != [] && filters[0].columnId.None? ==> !r
    ensures r <==> filters == [] || FilterAccepted(filters[0], catalog)
  {
    if filters == [] then true
    else
      var f := filters[0];
      if f.subjectEntity !in catalog then false
      else if f.columnId.None? || f.columnId.value !in catalog[f.subjectEntity].filter then
        f.columnId == Some("")
      else true
  }

  /**
   * Only the first filter is inspected: whatever follows a first filter,
   * the verdict is the same as for that filter alone.
   */
  lemma CheckFiltersIgnoresTail(first: FilterObject, rest: seq<FilterObject>, catalog: Catalog)
    ensures CheckFilters([first] + rest, catalog) == CheckFilters([first], catalog)
  {
  }

  /** A root branch with an empty column on a known entity lets any leaves through. */
  lemma RootBranchHidesLeaves(root: FilterObject, leaves: seq<FilterObject>, catalog: Catalog)
    requires root.subjectEntity in catalog && root.columnId == Some("")
    ensures CheckFilters([root] + leaves, catalog)
  {
  }

  /** The aggregation-target check: empty, a catalog key, or "all". */
  function CheckSummarizeBy(summarizeBy: Option<string>, catalog: Catalog): (r: bool)
    ensures r <==> !Truthy(summarizeBy) || summarizeBy.value in catalog || summarizeBy.value == "all"
  {
    if Truthy(summarizeBy) then
      if summarizeBy.value in catalog then true
      else if summarizeBy.value == "all" then true
      else summarizeBy.value == ""
    else true
  }

  /**
   * The sort check: the column must be sortable for the target entity and
   * the direction "asc" or "desc". The target's catalog entry is looked up
   * before anything else, so a missing target raises `KeyError` even when
   * there is no sort object.
   */
  function CheckSortBy(sortBy: Option<SortSpec>, catalog: Catalog, summarizeBy: Option<string>): (r: Checked)
    ensures r.KeyError? <==> Target(summarizeBy) !in catalog
    ensures r.KeyError? ==> r.key == Target(summarizeBy)
    ensures r == Checked(true) <==>
      Target(summarizeBy) in catalog &&
      (sortBy.None? ||
       (sortBy.value.columnId in catalog[Target(summarizeBy)].sortBy && sortBy.value.direction in ["asc", "desc"]))
  {
    var entity := if Truthy(summarizeBy) then summarizeBy.value else "works";
    if entity !in catalog then KeyError(entity)
    else
      var sortingCols := catalog[entity].sortBy;
      if sortBy.Some? then
        if sortBy.value.columnId in sortingCols then
          Checked(sortBy.value.direction in ["asc", "desc"])
        else Checked(false)
      else Checked(true)
  }

  /**
   * The return-columns check: every column must be returnable for the
   * target entity; an absent or empty list passes. A missing target raises
   * `KeyError` as in the sort check.
   */
  function CheckReturnColumns(returnCols: Option<seq<string>>, catalog: Catalog, summarizeBy: Option<string>): (r: Checked)
    ensures r.KeyError? <==> Target(summarizeBy) !in catalog
    ensures r.KeyError? ==> r.key == Target(summarizeBy)
    ensures r == Checked(true) <==>
      Target(summarizeBy) in catalog &&
      (returnCols.None? || forall c :: c in returnCols.value ==> c in catalog[Target(summarizeBy)].returnColumns)
  {
    var entity := if Truthy(summarizeBy) then summarizeBy.value else "works";
    if entity !in catalog then KeyError(entity)
    else
      var returnable := catalog[entity].returnColumns;
      if returnCols.Some? && returnCols.value != [] then
        Checked(forall c :: c in returnCols.value ==> c in returnable)
      else Checked(true)
  }

  /** The four keys a complete answer carries. */
  const RequiredKeys: set<string> := {"filters", "summarize_by", "sort_by", "return_columns"}

  /**
   * A parsed model answer as a dictionary: `present` holds its keys, the
   * other fields its values (None is JSON null).
   */
  datatype Draft = Draft(
    present: set<string>,
    filters: seq<FilterObject>,
    summarizeBy: Option<string>,
    sortBy: Option<SortSpec>,
    returnColumns: Option<seq<string>>)

  /**
   * The local validator: all four keys present and the four checks passing,
   * evaluated in order, so a `KeyError` surfaces only after the earlier
   * checks passed.
   */
  function PostProcessOpenaiOutput(d: Draft, catalog: Catalog): (r: Checked)
    ensures r == Checked(true) <==>
      RequiredKeys <= d.present &&
      CheckFilters(d.filters, catalog) &&
      CheckSummarizeBy(d.summarizeBy, catalog) &&
      CheckSortBy(d.sortBy, catalog, d.summarizeBy) == Checked(true) &&
      CheckReturnColumns(d.returnColumns, catalog, d.summarizeBy) == Checked(true)
    ensures r.KeyError? ==>
      RequiredKeys <= d.present && CheckFilters(d.filters, catalog) &&
      CheckSummarizeBy(d.summarizeBy, catalog) && r.key == Target(d.summarizeBy)
  {
    if "filters" in d.present && "summarize_by" in d.present && "sort_by" in d.present && "return_columns" in d.present then
      if CheckFilters(d.filters, catalog) then
        if CheckSummarizeBy(d.summarizeBy, catalog) then
          match CheckSortBy(d.sortBy, catalog, d.summarizeBy)
          case KeyError(k) => KeyError(k)
          case Checked(sortOk) =>
            if sortOk then CheckReturnColumns(d.returnColumns, catalog, d.summarizeBy)
            else Checked(false)
        else Checked(false)
      else Checked(false)
    else Checked(false)
  }

  /**
   * "all" passes the aggregation-target check but is not a catalog key, so
   * a complete answer aggregating by "all" whose filters pass raises
   * `KeyError("all")` in the sort check instead of being accepted.
   */
  lemma SummarizeByAllRaises(d: Draft, catalog: Catalog)
    requires RequiredKeys <= d.present && CheckFilters(d.filters, catalog)
    requires d.summarizeBy == Some("all") && "all" !in catalog
    ensures PostProcessOpenaiOutput(d, catalog) == KeyError("all")
  {
  }

  /**
   * In a catalog built from the configuration, a sort column the check
   * accepts is also a filterable column of the target entity.
   */
  lemma AcceptedSortColumnIsFilterable(sortBy: SortSpec, catalog: Catalog, summarizeBy: Option<string>, config: EntityConfig)
    requires Target(summarizeBy) in catalog && catalog[Target(summarizeBy)] == Describe(config)
    requires CheckSortBy(Some(sortBy), catalog, summarizeBy) == Checked(true)
    ensures sortBy.columnId in catalog[Target(summarizeBy)].filter
  {
    SortableAreFilterable(config);
  }
}
