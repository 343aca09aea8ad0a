/**
 * The entity catalog the translator describes to the language model and
 * validates against: built from the data service's entity configuration,
 * one record per known entity kind.
 */
module SchemaCatalog {
  import opened Wrappers
  import opened Sublists

  /** One column of an entity's configuration. */
  datatype ColumnConfig = ColumnConfig(id: string, descr: string, actions: Option<seq<string>>)

  /** An enumerated value of a reference entity such as a country. */
  datatype EnumValue = EnumValue(displayName: string, id: string)

  /** One entry of the configuration document, in document order. */
  datatype EntityConfig = EntityConfig(
    key: string,
    descrFull: string,
    columns: seq<ColumnConfig>,
    values: seq<EnumValue>)

  /** What the translator keeps about one entity kind. */
  datatype EntityInfo = EntityInfo(
    functionCall: bool,
    columns: map<string, string>,
    values: seq<EnumValue>,
    descr: string,
    filter: seq<string>,
    sortBy: seq<string>,
    returnColumns: seq<string>)

  /** The catalog, keyed by entity kind. */
  type Catalog = map<string, EntityInfo>

  /** Entities whose mentions are resolved to IDs through a lookup tool. */
  const FunctionCallEntities: seq<string> :=
    ["institutions", "authors", "keywords", "sources", "funders", "publishers", "topics"]

  /** Entities whose values are listed in the configuration itself. */
  const PlainEntities: seq<string> :=
    ["works", "continents", "countries", "domains", "fields", "institution-types", "languages",
     "licenses", "sdgs", "source-types", "subfields", "types"]

  predicate Known(key: string) {
    key in FunctionCallEntities || key in PlainEntities
  }

  /** A column whose (non-empty) action list contains "sort". */
  predicate Sortable(c: ColumnConfig) {
    c.actions.Some? && c.actions.value != [] && "sort" in c.actions.value
  }

  /** The ids of the columns, in configuration order. */
  ghost function ColumnIds(cols: seq<ColumnConfig>): seq<string> {
    seq(|cols|, i requires 0 <= i < |cols| => cols[i].id)
  }

  /** The ids of the sortable columns, in configuration order. */
  ghost function SortableIds(cols: seq<ColumnConfig>): seq<string>
    decreases |cols|
  {
    if cols == [] then []
    else
      var last := cols[|cols| - 1];
      SortableIds(cols[..|cols| - 1]) + (if Sortable(last) then [last.id] else [])
  }

  /** Column id to description; a later column with the same id wins. */
  ghost function ColumnDescriptions(cols: seq<ColumnConfig>): map<string, string>
    decreases |cols|
  {
    if cols == [] then map[]
    else
      var last := cols[|cols| - 1];
      ColumnDescriptions(cols[..|cols| - 1])[last.id := last.descr]
  }

  /** The catalog record for one known configuration entry. */
  ghost function Describe(e: EntityConfig): EntityInfo {
    var fc := e.key in FunctionCallEntities;
    EntityInfo(fc, ColumnDescriptions(e.columns), if fc then [] else e.values, e.descrFull,
               ColumnIds(e.columns), SortableIds(e.columns), ColumnIds(e.columns))
  }

  /**
   * The sortable columns are the ordered sub-list of all columns whose
   * actions contain "sort"; a column id is sortable exactly when some
   * column with that id is.
   */
  lemma {:induction false} SortableIdsSublist(cols: seq<ColumnConfig>)
    ensures SubsequenceOf(SortableIds(cols), ColumnIds(cols))
    ensures forall x :: x in SortableIds(cols) <==> exists i :: 0 <= i < |cols| && cols[i].id == x && Sortable(cols[i])
    decreases |cols|
  {
    if cols != [] {
      var init := cols[..|cols| - 1];
      var last := cols[|cols| - 1];
      SortableIdsSublist(init);
      assert ColumnIds(cols) == ColumnIds(init) + [last.id];
      if Sortable(last) {
        assert SortableIds(cols) == SortableIds(init) + [last.id];
        assert SortableIds(cols)[..|SortableIds(cols)| - 1] == SortableIds(init);
        assert ColumnIds(cols)[..|ColumnIds(cols)| - 1] == ColumnIds(init);
      } else {
        assert SortableIds(cols) == SortableIds(init);
        SubsequenceExtend(SortableIds(init), ColumnIds(init), last.id);
      }
      forall x
        ensures x in SortableIds(cols) <==> exists i :: 0 <= i < |cols| && cols[i].id == x && Sortable(cols[i])
      {
        if x in SortableIds(cols) && x !in SortableIds(init) {
          assert cols[|cols| - 1].id == x && Sortable(cols[|cols| - 1]);
        }
        if exists i :: 0 <= i < |cols| && cols[i].id == x && Sortable(cols[i]) {
          var i :| 0 <= i < |cols| && cols[i].id == x && Sortable(cols[i]);
          if i < |cols| - 1 {
            assert init[i] == cols[i];
          }
        }
      }
    }
  }

  /** Sortable columns are a subset of the filterable ones. */
  lemma SortableAreFilterable(e: EntityConfig)
    ensures forall x :: x in Describe(e).sortBy ==> x in Describe(e).filter
  {
    SortableIdsSublist(e.columns);
    SubsequenceMembers(SortableIds(e.columns), ColumnIds(e.columns));
  }

  /**
   * Builds the catalog record of one entry: the column map and the
   * filter, sort and return lists, in column order.
   */
  method BuildEntityInfo(e: EntityConfig) returns (info: EntityInfo)
    requires Known(e.key)
    ensures info == Describe(e)
  {
    var functionCall := e.key in FunctionCallEntities;
    var columns: map<string, string> := map[];
    var forFilter: seq<string> := [];
    var forSortBy: seq<string> := [];
    var forReturn: seq<string> := [];
    for i := 0 to |e.columns|
      invariant columns == ColumnDescriptions(e.columns[..i])
      invariant forFilter == ColumnIds(e.columns[..i]) && forReturn == forFilter
      invariant forSortBy == SortableIds(e.columns[..i])
    {
      var col := e.columns[i];
      assert e.columns[..i + 1][..i] == e.columns[..i];
      columns := columns[col.id := col.descr];
      forFilter := forFilter + [col.id];
      if col.actions.Some? && col.actions.value != [] && "sort" in col.actions.value {
        forSortBy := forSortBy + [col.id];
      }
      forReturn := forReturn + [col.id];
    }
    assert e.columns[..|e.columns|] == e.columns;
    var values := if functionCall then [] else e.values;
    info := EntityInfo(functionCall, columns, values, e.descrFull, forFilter, forSortBy, forReturn);
  }

  /** The configuration document is a JSON object: no key occurs twice. */
  predicate DistinctKeys(config: seq<EntityConfig>) {
    forall t, u :: 0 <= t < u < |config| ==> config[t].key != config[u].key
  }

  /**
   * Builds the catalog from the configuration document: only known
   * entity kinds are kept ("concepts" and unknown keys are dropped), each
   * described by its configuration entry.
   */
  method GetAllEntitiesAndColumns(config: seq<EntityConfig>) returns (catalog: Catalog)
    requires DistinctKeys(config)
    ensures forall k :: k in catalog <==> Known(k) && exists t :: 0 <= t < |config| && config[t].key == k
    ensures forall t :: 0 <= t < |config| && Known(config[t].key) ==>
      config[t].key in catalog && catalog[config[t].key] == Describe(config[t])
  {
    catalog := map[];
    for i := 0 to |config|
      invariant forall k :: k in catalog <==> Known(k) && exists t :: 0 <= t < i && config[t].key == k
      invariant forall t :: 0 <= t < i && Known(config[t].key) ==>
        config[t].key in catalog && catalog[config[t].key] == Describe(config[t])
    {
      var e := config[i];
      if e.key in FunctionCallEntities || e.key in PlainEntities {
        var info := BuildEntityInfo(e);
        catalog := catalog[e.key := info];
      }
    }
  }

  /** The catalog marks exactly the tool-resolved entity kinds as function-call entities. */
  lemma FunctionCallFlag(config: seq<EntityConfig>, t: int)
    requires 0 <= t < |config| && Known(config[t].key)
    ensures Describe(config[t]).functionCall <==> config[t].key in FunctionCallEntities
    ensures Describe(config[t]).functionCall ==> Describe(config[t]).values == []
    ensures Describe(config[t]).filter == Describe(config[t]).returnColumns
  {
  }
}
